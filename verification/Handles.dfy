/**
 Which configurations never touch a handle that was not opened, exactly.
 */
module Handles {
  import opened Base
  import opened Setup
  import opened Library
  import opened Buffers
  import opened Routing
  import opened AtMostOnce
  import opened Destinations

  /** `s` is reachable while the application selects only sides in `inputs`. */
  ghost predicate ReachableGiven(c: System, inputs: set<Side>, s: State) {
    exists states, acts ::
      IsRun(c, states, acts) && InputsSatisfy(acts, |acts|, v => v in inputs) && states[|acts|] == s
  }

  /** Is the side's interface index its own, and not that of a later side? */
  predicate Visible(c: System, side: Side) {
    var name, alternative := IntName(c.conf, side), c.conf.altOutIntName;
    && (side == IN ==> c.indexOf(c.conf.inIntName) != c.indexOf(c.conf.outIntName))
    && side in Interfaces(c.conf)
    && (side != ALTOUT && c.conf.AltOutExists() ==> c.indexOf(name) != c.indexOf(alternative))
  }

  predicate SelectorRuns(conf: Config) {
    conf.ListensOutside() && conf.AltOutExists()
  }

  predicate ForwardsFromInside(c: System) {
    c.conf.unicastProxyInToOut || (c.conf.proxyInToOut && Visible(c, IN))
  }

  /** Leaves have an outside connection to go through. */
  predicate LeavesCovered(conf: Config) {
    conf.leaveToNetwork ==> conf.unicastProxyInToOut || conf.proxyInToOut || conf.membershipReportsToNetwork
  }

  /** The receivers of the alternative outside have their connections. */
  predicate AlternativeCovered(conf: Config) {
    SelectorRuns(conf) ==> conf.proxyOutToIn || conf.proxyInToOut || conf.membershipReportsToNetwork
  }

  /** The application selects only sides that can be written to, if anything is forwarded from the inside. */
  predicate SelectionsCovered(c: System, inputs: set<Side>) {
    SelectorRuns(c.conf) && ForwardsFromInside(c) ==> forall v <- inputs :: v == OUT || (v == IN && c.conf.proxyOutToIn)
  }

  predicate Ready(c: System, inputs: set<Side>) {
    LeavesCovered(c.conf) && AlternativeCovered(c.conf) && SelectionsCovered(c, inputs)
  }

  // ----- Ready configurations never crash -----

  lemma BeginIsOpen(c: System, inputs: set<Side>, g: Goroutine, a: Act, e: Effect)
    requires Ready(c, inputs) && Started(c.conf, g.proc) && a.Begin? && IsReceiver(g.proc)
    ensures !UsesUnopened(c, g, a, e)
  {
  }

  /** What a sender holds when it writes a frame. */
  lemma MoveWrites(c: System, g: Goroutine, i: nat, s: State, a: Act)
    requires Move(c, g, i, s, a).Does?
    ensures var e := Move(c, g, i, s, a).effect;
      && (e.frame.Some? ==>
            if e.frame.value.Forwarded? then g.pc.Routed? && IsReceiver(g.proc) && e.frame.value.out == g.pc.out
            else g.pc.Sending? && g.pc.items != [])
      && (a.Begin? ==> IsReceiver(g.proc) && e.frame.None?)
  {
  }

  lemma StoredOnlyBySelector(c: System, states: seq<State>, acts: seq<Action>, n: nat)
    requires IsRun(c, states, acts) && n <= |acts| && !SelectorRuns(c.conf)
    ensures states[n].stored == []
  {
    if n > 0 {
      StoredOnlyBySelector(c, states, acts, n - 1);
      ProcsAlongRun(c, states, acts, n - 1);
      RoutingAlongRun(c, states, acts, n - 1);
      var s, a, t := states[n - 1], acts[n - 1], states[n];
      assert Step(c, s, a) == Some(t);
      StepShape(c, s, a, t);
      if EffectOf(c, s, a).Some? {
        ProcStarted(c, s.gs, a.i);
        assert RoutedOk(c, s.gs[a.i], s.stored);
        MoveRouted(c, s.gs[a.i], a.i, s, a.act);
        MoveBuffer(c, s.gs[a.i], a.i, s, a.act);
      }
    }
  }

  /** A multicast receiver of the inside that forwards has accepted a packet of the inside. */
  lemma ForwarderSeesInside(c: System, s: State, i: nat)
    requires OnceInv(c, s) && MessageInv(s.gs, s.pool, s.packets) && i < |s.gs|
    requires s.gs[i].proc.Multicast? && s.gs[i].proc.side == IN && s.gs[i].pc.Routed? && s.gs[i].pc.from.FromPacket?
    ensures Visible(c, IN)
  {
    assert HandOk(s.gs[i], i, s.accepts, s.frames);
    var k :| 0 <= k < |s.accepts| && s.accepts[k] == Accept(i, s.gs[i].pc.from.pid);
    assert AcceptOk(c, s.gs, s.packets, s.accepts[k]);
  }

  lemma MovePackets(c: System, g: Goroutine, i: nat, s: State, a: Act)
    requires Move(c, g, i, s, a).Does?
    requires g.proc.Multicast? && Working(g.pc).Some? ==> Working(g.pc).value.FromPacket?
    ensures var e := Move(c, g, i, s, a).effect;
      e.g.proc.Multicast? && Working(e.g.pc).Some? ==> Working(e.g.pc).value.FromPacket?
  {
  }

  ghost predicate OnPackets(gs: seq<Goroutine>) {
    forall i | 0 <= i < |gs| && gs[i].proc.Multicast? && Working(gs[i].pc).Some? :: Working(gs[i].pc).value.FromPacket?
  }

  lemma OnPacketsStep(c: System, s: State, a: Action, t: State)
    requires Step(c, s, a) == Some(t) && OnPackets(s.gs)
    ensures OnPackets(t.gs)
  {
    StepShape(c, s, a, t);
    if EffectOf(c, s, a).Some? { MovePackets(c, s.gs[a.i], a.i, s, a.act); }
  }

  /** Multicast receivers only ever work on packets. */
  lemma {:induction false} MulticastHasPackets(c: System, states: seq<State>, acts: seq<Action>, n: nat)
    requires IsRun(c, states, acts) && n <= |acts|
    ensures OnPackets(states[n].gs)
  {
    if n > 0 {
      MulticastHasPackets(c, states, acts, n - 1);
      assert Step(c, states[n - 1], acts[n - 1]) == Some(states[n]);
      OnPacketsStep(c, states[n - 1], acts[n - 1], states[n]);
    }
  }

  lemma RoutedIsOpen(c: System, inputs: set<Side>, states: seq<State>, acts: seq<Action>, n: nat, i: nat)
    requires IsRun(c, states, acts) && n <= |acts| && InputsSatisfy(acts, n, v => v in inputs)
    requires Ready(c, inputs) && i < |states[n].gs| && states[n].gs[i].pc.Routed? && IsReceiver(states[n].gs[i].proc)
    ensures IsOpen(c.conf, Raw(states[n].gs[i].pc.out))
  {
    var s, g := states[n], states[n].gs[i];
    RoutingAlongRun(c, states, acts, n);
    ProcsAlongRun(c, states, acts, n);
    ProcStarted(c, s.gs, i);
    assert RoutedOk(c, g, s.stored);
    StoredSatisfy(c, states, acts, n, v => v in inputs);
    if !SelectorRuns(c.conf) { StoredOnlyBySelector(c, states, acts, n); }
    if g.proc.Multicast? && g.proc.side == IN {
      OnceAlongRun(c, states, acts, n);
      InvAlongRun(c, states, acts, n);
      MulticastHasPackets(c, states, acts, n);
      ForwarderSeesInside(c, s, i);
    }
  }

  lemma StepIsOpen(c: System, inputs: set<Side>, states: seq<State>, acts: seq<Action>, n: nat)
    requires IsRun(c, states, acts) && n < |acts| && InputsSatisfy(acts, n, v => v in inputs) && Ready(c, inputs)
    requires acts[n].Do? && acts[n].i < |states[n].gs|
    requires Move(c, states[n].gs[acts[n].i], acts[n].i, states[n], acts[n].act).Does?
    ensures var g := states[n].gs[acts[n].i];
      !UsesUnopened(c, g, acts[n].act, Move(c, g, acts[n].i, states[n], acts[n].act).effect)
  {
    var s, i, a := states[n], acts[n].i, acts[n].act;
    var g := s.gs[i];
    var e := Move(c, g, i, s, a).effect;
    ProcsAlongRun(c, states, acts, n);
    ProcStarted(c, s.gs, i);
    MoveWrites(c, g, i, s, a);
    if a.Begin? {
      BeginIsOpen(c, inputs, g, a, e);
    } else if e.frame.Some? && e.frame.value.Forwarded? {
      RoutedIsOpen(c, inputs, states, acts, n, i);
    } else if e.frame.Some? {
      PrivateQuerierCopies(c, states, acts, n);
      assert GoroutineOk(g);
    }
  }

  lemma CrashedByHandle(c: System, s: State, a: Action, t: State)
    requires Step(c, s, a) == Some(t) && s.status != Crashed
    requires a.Do? && a.i < |s.gs| && Move(c, s.gs[a.i], a.i, s, a.act).Does? ==>
      !UsesUnopened(c, s.gs[a.i], a.act, Move(c, s.gs[a.i], a.i, s, a.act).effect)
    ensures t.status != Crashed
  {
  }

  lemma {:induction false} NeverCrashes(c: System, inputs: set<Side>, states: seq<State>, acts: seq<Action>, n: nat)
    requires IsRun(c, states, acts) && n <= |acts| && InputsSatisfy(acts, n, v => v in inputs) && Ready(c, inputs)
    ensures states[n].status != Crashed
  {
    if n > 0 {
      NeverCrashes(c, inputs, states, acts, n - 1);
      var s, a, t := states[n - 1], acts[n - 1], states[n];
      assert Step(c, s, a) == Some(t);
      if a.Do? && a.i < |s.gs| && Move(c, s.gs[a.i], a.i, s, a.act).Does? {
        StepIsOpen(c, inputs, states, acts, n - 1);
      }
      CrashedByHandle(c, s, a, t);
    }
  }
}
