/**
 Exactly when a multicast receiver of a side ever forwards a packet.
 */
module Forwarding {
  import opened Base
  import opened Setup
  import opened Library
  import opened Buffers
  import opened Routing
  import opened AtMostOnce
  import opened Handles
  import opened HandleWitnesses
  import opened Acceptance
  import MulticastLaws

  /** The `k`-th frame was forwarded by a multicast receiver of this side. */
  predicate ForwardedFrom(s: State, k: nat, side: Side) {
    k < |s.frames| && s.frames[k].Forwarded? && s.frames[k].proc.Multicast? && s.frames[k].proc.side == side
  }

  // ----- A forward needs an acceptance and a proxied side -----

  /** A forwarded frame of a multicast receiver is from that receiver, for a packet, and its side is proxied. */
  ghost predicate FrameFrom(c: System, f: Frame, gs: seq<Goroutine>) {
    f.Forwarded? && f.proc.Multicast? ==>
      f.who < |gs| && gs[f.who].proc == f.proc && f.from.FromPacket? && MulticastLaws.Proxied(c.conf, f.proc.side)
  }

  ghost predicate FramesFrom(c: System, s: State) {
    forall k | 0 <= k < |s.frames| :: FrameFrom(c, s.frames[k], s.gs)
  }

  lemma MoveFrom(c: System, g: Goroutine, i: nat, s: State, a: Act)
    requires Move(c, g, i, s, a).Does? && RoutedOk(c, g, s.stored)
    requires g.proc.Multicast? && Working(g.pc).Some? ==> Working(g.pc).value.FromPacket?
    ensures var e := Move(c, g, i, s, a).effect;
      e.frame.Some? && e.frame.value.Forwarded? && e.frame.value.proc.Multicast? ==>
        && e.frame.value.who == i && e.frame.value.proc == g.proc && e.frame.value.from.FromPacket?
        && MulticastLaws.Proxied(c.conf, g.proc.side)
  {
  }

  lemma FramesFromAfter(c: System, s: State, i: nat, e: Effect)
    requires FramesFrom(c, s) && i < |s.gs| && e.g.proc == s.gs[i].proc
    requires e.frame.Some? ==> FrameFrom(c, e.frame.value, s.gs)
    ensures FramesFrom(c, Apply(s, i, e))
  {
    var t := Apply(s, i, e);
    forall k | 0 <= k < |t.frames|
      ensures FrameFrom(c, t.frames[k], t.gs)
    {
      if k < |s.frames| { assert FrameFrom(c, s.frames[k], s.gs); }
    }
  }

  lemma FramesFromNext(c: System, states: seq<State>, acts: seq<Action>, n: nat)
    requires IsRun(c, states, acts) && 0 < n <= |acts| && FramesFrom(c, states[n - 1])
    ensures FramesFrom(c, states[n])
  {
    var s, a, t := states[n - 1], acts[n - 1], states[n];
    RoutingAlongRun(c, states, acts, n - 1);
    MulticastHasPackets(c, states, acts, n - 1);
    assert Step(c, s, a) == Some(t);
    StepShape(c, s, a, t);
    if EffectOf(c, s, a).Some? {
      assert RoutedOk(c, s.gs[a.i], s.stored);
      MoveFrom(c, s.gs[a.i], a.i, s, a.act);
      MoveBuffer(c, s.gs[a.i], a.i, s, a.act);
      FramesFromAfter(c, s, a.i, EffectOf(c, s, a).value);
    }
  }

  lemma {:induction false} FramesFromAlongRun(c: System, states: seq<State>, acts: seq<Action>, n: nat)
    requires IsRun(c, states, acts) && n <= |acts|
    ensures FramesFrom(c, states[n])
  {
    if n > 0 {
      FramesFromAlongRun(c, states, acts, n - 1);
      FramesFromNext(c, states, acts, n);
    }
  }

  lemma ForwardedMeansAccepted(c: System, s: State, k: nat, side: Side) returns (j: nat)
    requires OnceInv(c, s) && FramesFrom(c, s) && ForwardedFrom(s, k, side)
    ensures AcceptedOn(s, j, side) && MulticastLaws.Proxied(c.conf, side)
  {
    var f := s.frames[k];
    assert FrameFrom(c, f, s.gs) && FrameAccepted(f, s.accepts);
    j :| 0 <= j < |s.accepts| && s.accepts[j] == Accept(f.who, f.from.pid);
  }

  lemma ForwardedMeansCan(c: System, inputs: set<Side>, s: State, k: nat, side: Side)
    requires ReachableGiven(c, inputs, s) && ForwardedFrom(s, k, side)
    ensures CanAccept(c, inputs, side) && MulticastLaws.Proxied(c.conf, side)
  {
    var states, acts :|
      IsRun(c, states, acts) && InputsSatisfy(acts, |acts|, v => v in inputs) && states[|acts|] == s;
    OnceAlongRun(c, states, acts, |acts|);
    FramesFromAlongRun(c, states, acts, |acts|);
    var j := ForwardedMeansAccepted(c, s, k, side);
    AcceptedMeansCan(c, inputs, states, acts, |acts|, j, side);
  }

  // ----- With both, some packet is forwarded -----

  lemma AcceptedRoutes(c: System, inputs: set<Side>, r: State, i: nat, side: Side) returns (s: State)
    requires ReachableGiven(c, inputs, r) && r.status == Running && i < |r.gs| && r.route == map[OUT := IN, IN := OUT]
    requires r.gs[i].proc == Multicast(side, ALL_HOSTS) && r.gs[i].pc.Accepted?
    requires (side == OUT && c.conf.proxyOutToIn) || (side == IN && c.conf.proxyInToOut)
    ensures ReachableGiven(c, inputs, s) && s.status == Running && i < |s.gs|
    ensures s.gs[i].proc == Multicast(side, ALL_HOSTS) && s.gs[i].pc.Routed? && IsOpen(c.conf, Raw(s.gs[i].pc.out))
  {
    s := GoMove(c, inputs, r, i, LoadRoute);
  }

  lemma AcceptedForwards(c: System, inputs: set<Side>, r: State, i: nat, side: Side) returns (s: State)
    requires ReachableGiven(c, inputs, r) && r.status == Running && i < |r.gs| && r.route == map[OUT := IN, IN := OUT]
    requires r.gs[i].proc == Multicast(side, ALL_HOSTS) && r.gs[i].pc.Accepted?
    requires (side == OUT && c.conf.proxyOutToIn) || (side == IN && c.conf.proxyInToOut)
    ensures ReachableGiven(c, inputs, s) && exists k: nat :: ForwardedFrom(s, k, side)
  {
    var routed := AcceptedRoutes(c, inputs, r, i, side);
    s := GoMove(c, inputs, routed, i, Forward);
    assert ForwardedFrom(s, |routed.frames|, side);
  }

  lemma SomeForward(c: System, inputs: set<Side>, side: Side) returns (s: State)
    requires CanAccept(c, inputs, side)
    requires (side == OUT && c.conf.proxyOutToIn) || (side == IN && c.conf.proxyInToOut)
    ensures ReachableGiven(c, inputs, s) && exists k: nat :: ForwardedFrom(s, k, side)
  {
    var i: nat;
    s, i := SomeAcceptance(c, inputs, side);
    s := AcceptedForwards(c, inputs, s, i, side);
  }

  /**
   With the application selecting sides in `inputs`: some run forwards a packet from a side if and only if packets can
   be accepted there, and the side is the outside with proxying from outside to inside, or the inside with proxying
   from inside to outside.
   */
  lemma ForwardsExactly(c: System, inputs: set<Side>, side: Side)
    ensures (exists s, k: nat :: ReachableGiven(c, inputs, s) && ForwardedFrom(s, k, side))
       <==> CanAccept(c, inputs, side)
            && ((side == OUT && c.conf.proxyOutToIn) || (side == IN && c.conf.proxyInToOut))
  {
    if s, k: nat :| ReachableGiven(c, inputs, s) && ForwardedFrom(s, k, side) {
      ForwardedMeansCan(c, inputs, s, k, side);
    }
    if CanAccept(c, inputs, side) && MulticastLaws.Proxied(c.conf, side) {
      var s := SomeForward(c, inputs, side);
    }
  }
}
