/**
 Exactly when traffic can be sent back to the side it came from.
 */
module Reflection {
  import opened Base
  import opened Setup
  import opened Library
  import opened Buffers
  import opened Routing
  import opened AtMostOnce
  import opened Handles
  import opened HandleWitnesses
  import LibraryCounterexamples

  /** The application may select the inside while something is forwarded from there, and it can be written to. */
  predicate MayReflect(c: System, inputs: set<Side>) {
    SelectorRuns(c.conf) && ForwardsFromInside(c) && c.conf.proxyOutToIn && IN in inputs
  }

  /** A forwarded packet goes from the inside to an outside, or from an outside to the inside. */
  predicate Crosses(f: Frame) {
    f.Forwarded? ==>
      && IsReceiver(f.proc)
      && if ArrivesOn(f.proc) == IN then Outside(f.out) else f.out == IN
  }

  // ----- Without the condition every forward crosses -----

  /** A forwarded packet went through an open connection and came from a receiver that can see its side. */
  ghost predicate Sound(c: System, f: Frame) {
    f.Forwarded? ==>
      && IsOpen(c.conf, Raw(f.out)) && Started(c.conf, f.proc)
      && (f.proc.Multicast? && f.proc.side == IN ==> Visible(c, IN))
  }

  lemma WrittenByHolder(c: System, g: Goroutine, i: nat, s: State, a: Act)
    requires Move(c, g, i, s, a).Does?
    requires var e := Move(c, g, i, s, a).effect; e.frame.Some? && e.frame.value.Forwarded?
    ensures g.pc.Routed? && Move(c, g, i, s, a).effect.frame.value.proc == g.proc
    ensures Uses(g, a, Move(c, g, i, s, a).effect) == Some(Raw(Move(c, g, i, s, a).effect.frame.value.out))
  {
  }

  lemma NewFrameSound(c: System, states: seq<State>, acts: seq<Action>, n: nat)
    requires IsRun(c, states, acts) && n < |acts| && EffectOf(c, states[n], acts[n]).Some?
    ensures var e := EffectOf(c, states[n], acts[n]).value; e.frame.Some? ==> Sound(c, e.frame.value)
  {
    var s, i, a := states[n], acts[n].i, acts[n].act;
    var e := EffectOf(c, s, acts[n]).value;
    if e.frame.Some? && e.frame.value.Forwarded? {
      ProcsAlongRun(c, states, acts, n);
      ProcStarted(c, s.gs, i);
      WrittenByHolder(c, s.gs[i], i, s, a);
      if s.gs[i].proc.Multicast? && s.gs[i].proc.side == IN {
        OnceAlongRun(c, states, acts, n);
        InvAlongRun(c, states, acts, n);
        MulticastHasPackets(c, states, acts, n);
        ForwarderSeesInside(c, s, i);
      }
    }
  }

  ghost predicate AllSound(c: System, frames: seq<Frame>) {
    forall k | 0 <= k < |frames| :: Sound(c, frames[k])
  }

  lemma FramesSoundNext(c: System, states: seq<State>, acts: seq<Action>, n: nat)
    requires IsRun(c, states, acts) && 0 < n <= |acts| && AllSound(c, states[n - 1].frames)
    ensures AllSound(c, states[n].frames)
  {
    var s, a, t := states[n - 1], acts[n - 1], states[n];
    assert Step(c, s, a) == Some(t);
    StepShape(c, s, a, t);
    if EffectOf(c, s, a).Some? {
      NewFrameSound(c, states, acts, n - 1);
    } else {
      assert t.frames == s.frames;
    }
  }

  lemma {:induction false} FramesSound(c: System, states: seq<State>, acts: seq<Action>, n: nat)
    requires IsRun(c, states, acts) && n <= |acts|
    ensures AllSound(c, states[n].frames)
  {
    if n > 0 {
      FramesSound(c, states, acts, n - 1);
      FramesSoundNext(c, states, acts, n);
    }
  }

  lemma SoundCrosses(c: System, inputs: set<Side>, f: Frame, stored: seq<Side>)
    requires Sound(c, f) && FrameRouted(f, stored) && !MayReflect(c, inputs)
    requires (forall v <- stored :: v in inputs) && (stored != [] ==> SelectorRuns(c.conf))
    ensures Crosses(f)
  {
  }

  lemma EveryForwardCrosses(c: System, inputs: set<Side>, s: State, k: nat)
    requires ReachableGiven(c, inputs, s) && !MayReflect(c, inputs) && k < |s.frames|
    ensures Crosses(s.frames[k])
  {
    var states, acts :|
      IsRun(c, states, acts) && InputsSatisfy(acts, |acts|, v => v in inputs) && states[|acts|] == s;
    FramesSound(c, states, acts, |acts|);
    RoutingAlongRun(c, states, acts, |acts|);
    StoredSatisfy(c, states, acts, |acts|, v => v in inputs);
    if !SelectorRuns(c.conf) { StoredOnlyBySelector(c, states, acts, |acts|); }
    assert FrameRouted(s.frames[k], s.stored);
    SoundCrosses(c, inputs, s.frames[k], s.stored);
  }

  // ----- With the condition some forward does not -----

  lemma MoreInputs(c: System, inputs: set<Side>, inputs': set<Side>, s: State)
    requires ReachableGiven(c, inputs, s) && inputs <= inputs'
    ensures ReachableGiven(c, inputs', s)
  {
    var states, acts :|
      IsRun(c, states, acts) && InputsSatisfy(acts, |acts|, v => v in inputs) && states[|acts|] == s;
    assert InputsSatisfy(acts, |acts|, v => v in inputs');
  }

  lemma ForwardBack(c: System, inputs: set<Side>, r: State, i: nat) returns (s: State)
    requires ReachableGiven(c, inputs, r) && r.status == Running && i < |r.gs|
    requires r.gs[i].proc == Multicast(IN, ALL_HOSTS) && r.gs[i].pc.Accepted? && r.route == map[OUT := IN, IN := IN]
    requires c.conf.proxyInToOut && c.conf.proxyOutToIn
    ensures ReachableGiven(c, inputs, s) && exists k :: 0 <= k < |s.frames| && !Crosses(s.frames[k])
  {
    s := GoMove(c, inputs, r, i, LoadRoute);
    s := GoMove(c, inputs, s, i, Forward);
    assert !Crosses(s.frames[|r.frames|]);
  }

  lemma SomeReflection(c: System, inputs: set<Side>) returns (s: State)
    requires MayReflect(c, inputs)
    ensures ReachableGiven(c, inputs, s) && exists k :: 0 <= k < |s.frames| && !Crosses(s.frames[k])
  {
    if c.conf.unicastProxyInToOut {
      s := LibraryCounterexamples.Reflected(c, [REPORT_V3]);
      MoreInputs(c, {IN}, inputs, s);
      assert !Crosses(s.frames[0]);
    } else {
      var i: nat;
      s, i := InsideAccepted(c, inputs, IN);
      s := ForwardBack(c, inputs, s, i);
    }
  }

  /**
   Whatever runs, with the application selecting sides in `inputs`: every forwarded packet crosses between
   inside and outside if and only if the inside is not selectable, or nothing can be forwarded from it or
   written to it.
   */
  lemma NoReflection(c: System, inputs: set<Side>)
    ensures (forall s, k | ReachableGiven(c, inputs, s) && 0 <= k < |s.frames| :: Crosses(s.frames[k]))
       <==> !MayReflect(c, inputs)
  {
    if MayReflect(c, inputs) {
      var s := SomeReflection(c, inputs);
    } else {
      forall s, k | ReachableGiven(c, inputs, s) && 0 <= k < |s.frames|
        ensures Crosses(s.frames[k])
      {
        EveryForwardCrosses(c, inputs, s, k);
      }
    }
  }
}
