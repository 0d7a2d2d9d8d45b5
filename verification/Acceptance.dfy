/**
 Exactly when a receiver of a side ever accepts a packet.
 */
module Acceptance {
  import opened Base
  import opened Setup
  import opened Library
  import opened Buffers
  import opened Routing
  import opened AtMostOnce
  import opened Handles
  import opened HandleWitnesses

  /**
   A side is listened on and its interface index is its own; the alternative outside must also be selectable,
   and have the connections its receivers read from.
   */
  predicate CanAccept(c: System, inputs: set<Side>, side: Side) {
    && Visible(c, side)
    && ((side == IN && c.conf.proxyInToOut)
        || (side == OUT && c.conf.ListensOutside())
        || (side == ALTOUT && SelectorRuns(c.conf) && ALTOUT in inputs
            && (c.conf.proxyOutToIn || c.conf.proxyInToOut || c.conf.membershipReportsToNetwork)))
  }

  /** The `k`-th acceptance of the log was by a receiver of this side. */
  ghost predicate AcceptedOn(s: State, k: nat, side: Side) {
    && k < |s.accepts| && s.accepts[k].who < |s.gs|
    && s.gs[s.accepts[k].who].proc.Multicast? && s.gs[s.accepts[k].who].proc.side == side
  }

  // ----- What an acceptance on the alternative outside takes -----

  /** A receiver of the alternative outside reads through an open connection, and goes on once its side was stored. */
  ghost predicate AltOk(c: System, g: Goroutine, stored: seq<Side>) {
    g.proc.Multicast? && g.proc.side == ALTOUT && Held(g.pc).Some? ==>
      IsOpen(c.conf, MCon(ALTOUT, g.proc.group)) && (g.pc.Checked? ==> ALTOUT in stored)
  }

  ghost predicate AllAltOk(c: System, gs: seq<Goroutine>, stored: seq<Side>) {
    forall i | 0 <= i < |gs| :: AltOk(c, gs[i], stored)
  }

  /** A route back to the alternative outside was stored. */
  lemma ActiveWasStored(c: System, route: map<Side, Side>, stored: seq<Side>)
    requires RouteInv(route, stored) && c.conf.AltOutExists() && !Ignored(c, ALTOUT, route)
    ensures ALTOUT in stored
  {
  }

  lemma MoveAlt(c: System, g: Goroutine, i: nat, s: State, a: Act)
    requires Move(c, g, i, s, a).Does? && !UsesUnopened(c, g, a, Move(c, g, i, s, a).effect)
    requires AltOk(c, g, s.stored) && Started(c.conf, g.proc) && RouteInv(s.route, s.stored)
    ensures AltOk(c, Move(c, g, i, s, a).effect.g, s.stored)
  {
    if g.proc.Multicast? && g.proc.side == ALTOUT && a.AltFilter? && !Ignored(c, ALTOUT, s.route) {
      ActiveWasStored(c, s.route, s.stored);
    }
  }

  lemma AltLater(c: System, gs: seq<Goroutine>, stored: seq<Side>, more: seq<Side>)
    requires AllAltOk(c, gs, stored) && stored <= more
    ensures AllAltOk(c, gs, more)
  {
    assert ALTOUT in stored ==> ALTOUT in more;
    forall i | 0 <= i < |gs|
      ensures AltOk(c, gs[i], more)
    {
      assert AltOk(c, gs[i], stored);
    }
  }

  lemma AltStep(c: System, s: State, a: Action, t: State)
    requires Step(c, s, a) == Some(t) && ProcsInv(c, s.gs) && RoutingInv(c, s) && AllAltOk(c, s.gs, s.stored)
    ensures AllAltOk(c, t.gs, t.stored)
  {
    StepShape(c, s, a, t);
    if EffectOf(c, s, a).Some? {
      var e := EffectOf(c, s, a).value;
      ProcStarted(c, s.gs, a.i);
      assert AltOk(c, s.gs[a.i], s.stored);
      MoveAlt(c, s.gs[a.i], a.i, s, a.act);
      assert AllAltOk(c, s.gs[a.i := e.g], s.stored);
      AltLater(c, t.gs, s.stored, t.stored);
    }
  }

  lemma AltNext(c: System, states: seq<State>, acts: seq<Action>, n: nat)
    requires IsRun(c, states, acts) && 0 < n <= |acts| && AllAltOk(c, states[n - 1].gs, states[n - 1].stored)
    ensures AllAltOk(c, states[n].gs, states[n].stored)
  {
    ProcsAlongRun(c, states, acts, n - 1);
    RoutingAlongRun(c, states, acts, n - 1);
    assert Step(c, states[n - 1], acts[n - 1]) == Some(states[n]);
    AltStep(c, states[n - 1], acts[n - 1], states[n]);
  }

  lemma {:induction false} AltAlongRun(c: System, states: seq<State>, acts: seq<Action>, n: nat)
    requires IsRun(c, states, acts) && n <= |acts|
    ensures AllAltOk(c, states[n].gs, states[n].stored)
  {
    if n > 0 {
      AltAlongRun(c, states, acts, n - 1);
      AltNext(c, states, acts, n);
    }
  }

  /** Only a packet that passed the check of the active side is accepted. */
  lemma AcceptedAfterCheck(c: System, g: Goroutine, i: nat, s: State, a: Act)
    requires Move(c, g, i, s, a).Does? && Move(c, g, i, s, a).effect.accept.Some?
    ensures g.proc.Multicast? && g.pc.Checked? && Move(c, g, i, s, a).effect.store.None?
  {
  }

  /** What the log of a state says about the alternative outside. */
  ghost predicate AltLogged(c: System, s: State) {
    forall k: nat | AcceptedOn(s, k, ALTOUT) :: ALTOUT in s.stored && IsOpen(c.conf, MCon(ALTOUT, ALL_HOSTS))
  }

  lemma OlderLogged(c: System, s: State, t: State, k: nat)
    requires AltLogged(c, s) && |s.gs| == |t.gs| && s.stored <= t.stored && s.accepts <= t.accepts && k < |s.accepts|
    requires forall i | 0 <= i < |s.gs| :: t.gs[i].proc == s.gs[i].proc
    requires AcceptedOn(t, k, ALTOUT)
    ensures ALTOUT in t.stored && IsOpen(c.conf, MCon(ALTOUT, ALL_HOSTS))
  {
    assert AcceptedOn(s, k, ALTOUT);
  }

  lemma NewestLogged(c: System, s: State, a: Action, t: State)
    requires ProcsInv(c, s.gs) && AllAltOk(c, s.gs, s.stored)
    requires EffectOf(c, s, a).Some? && EffectOf(c, s, a).value.accept.Some?
    requires s.gs[a.i].proc.Multicast? && s.gs[a.i].proc.side == ALTOUT
    requires t == Apply(s, a.i, EffectOf(c, s, a).value)
    ensures ALTOUT in t.stored && IsOpen(c.conf, MCon(ALTOUT, ALL_HOSTS))
  {
    AcceptedAfterCheck(c, s.gs[a.i], a.i, s, a.act);
    assert AltOk(c, s.gs[a.i], s.stored);
  }

  lemma LoggedStep(c: System, s: State, a: Action, t: State)
    requires Step(c, s, a) == Some(t) && ProcsInv(c, s.gs) && AllAltOk(c, s.gs, s.stored) && AltLogged(c, s)
    ensures AltLogged(c, t)
  {
    StepShape(c, s, a, t);
    ProcsStep(c, s, a, t);
    forall k: nat | AcceptedOn(t, k, ALTOUT)
      ensures ALTOUT in t.stored && IsOpen(c.conf, MCon(ALTOUT, ALL_HOSTS))
    {
      if k < |s.accepts| {
        OlderLogged(c, s, t, k);
      } else {
        NewestLogged(c, s, a, t);
      }
    }
  }

  lemma LoggedNext(c: System, states: seq<State>, acts: seq<Action>, n: nat)
    requires IsRun(c, states, acts) && 0 < n <= |acts| && AltLogged(c, states[n - 1])
    ensures AltLogged(c, states[n])
  {
    ProcsAlongRun(c, states, acts, n - 1);
    AltAlongRun(c, states, acts, n - 1);
    assert Step(c, states[n - 1], acts[n - 1]) == Some(states[n]);
    LoggedStep(c, states[n - 1], acts[n - 1], states[n]);
  }

  lemma {:induction false} LoggedAlongRun(c: System, states: seq<State>, acts: seq<Action>, n: nat)
    requires IsRun(c, states, acts) && n <= |acts|
    ensures AltLogged(c, states[n])
  {
    if n > 0 {
      LoggedAlongRun(c, states, acts, n - 1);
      LoggedNext(c, states, acts, n);
    }
  }

  // ----- An acceptance needs the condition -----

  /** A packet taken for a side shows that some index is. */
  lemma PacketShowsSide(c: System, p: Proc, packet: Packet)
    requires p.Multicast? && p.side in {IN, OUT, ALTOUT} && ForReceiver(c, p, packet)
    ensures Visible(c, p.side)
  {
  }

  lemma AcceptedMeansCan(c: System, inputs: set<Side>, states: seq<State>, acts: seq<Action>, n: nat, k: nat,
                         side: Side)
    requires IsRun(c, states, acts) && n <= |acts| && InputsSatisfy(acts, n, v => v in inputs)
    requires AcceptedOn(states[n], k, side)
    ensures CanAccept(c, inputs, side)
  {
    var s := states[n];
    var who := s.accepts[k].who;
    OnceAlongRun(c, states, acts, n);
    assert AcceptOk(c, s.gs, s.packets, s.accepts[k]);
    ProcsAlongRun(c, states, acts, n);
    ProcStarted(c, s.gs, who);
    PacketShowsSide(c, s.gs[who].proc, s.packets[s.accepts[k].pid]);
    if side == ALTOUT {
      LoggedAlongRun(c, states, acts, n);
      StoredSatisfy(c, states, acts, n, v => v in inputs);
    }
  }

  /** A receiver only comes to filter a packet for it where packets can be accepted. */
  lemma CheckedMeansCan(c: System, inputs: set<Side>, states: seq<State>, acts: seq<Action>, n: nat, i: nat)
    requires IsRun(c, states, acts) && n <= |acts| && InputsSatisfy(acts, n, v => v in inputs)
    requires i < |states[n].gs| && states[n].gs[i].proc.Multicast? && states[n].gs[i].pc.Checked?
    requires var g, packets := states[n].gs[i], states[n].packets;
      g.pc.from.FromPacket? && g.pc.from.pid < |packets| && ForReceiver(c, g.proc, packets[g.pc.from.pid])
    ensures CanAccept(c, inputs, states[n].gs[i].proc.side)
  {
    var s := states[n];
    ProcsAlongRun(c, states, acts, n);
    ProcStarted(c, s.gs, i);
    PacketShowsSide(c, s.gs[i].proc, s.packets[s.gs[i].pc.from.pid]);
    AltAlongRun(c, states, acts, n);
    assert AltOk(c, s.gs[i], s.stored);
    StoredSatisfy(c, states, acts, n, v => v in inputs);
  }

  // ----- The condition makes one happen -----

  /** A receiver of a side where packets can be accepted comes to filter one of any kind. */
  lemma SomeChecked(c: System, inputs: set<Side>, side: Side, kind: Byte) returns (s: State, i: nat)
    requires CanAccept(c, inputs, side)
    ensures ReachableGiven(c, inputs, s) && s.status == Running && i < |s.gs|
    ensures s.gs[i] == Goroutine(Multicast(side, ALL_HOSTS), Checked(0, FromPacket(0)), NoAddr, 1)
    ensures s.packets == [PacketTo(c, side, kind)] && FirstByte(s, 0) == kind
  {
    StartGiven(c, inputs);
    s := Init(c);
    if side == ALTOUT { s := SelectSide(c, inputs, ALTOUT); }
    s, i := CheckedAt(c, inputs, s, side, kind);
  }

  lemma SomeAcceptance(c: System, inputs: set<Side>, side: Side) returns (s: State, i: nat)
    requires CanAccept(c, inputs, side)
    ensures ReachableGiven(c, inputs, s) && s.status == Running && i < |s.gs| && s.accepts == [Accept(i, 0)]
    ensures s.gs[i].proc == Multicast(side, ALL_HOSTS) && s.gs[i].pc.Accepted?
    ensures side != ALTOUT ==> s.route == map[OUT := IN, IN := OUT]
  {
    StartGiven(c, inputs);
    s := Init(c);
    if side == ALTOUT { s := SelectSide(c, inputs, ALTOUT); }
    s, i := AcceptAt(c, inputs, s, side);
  }

  /**
   With the application selecting sides in `inputs`: some run accepts a packet at a receiver of a side if and only if
   the side is listened on, has an interface index of its own and, if it is the alternative outside, can be selected
   and read from.
   */
  lemma AcceptsExactly(c: System, inputs: set<Side>, side: Side)
    ensures (exists s, k: nat :: ReachableGiven(c, inputs, s) && AcceptedOn(s, k, side)) <==> CanAccept(c, inputs, side)
  {
    if s, k: nat :| ReachableGiven(c, inputs, s) && AcceptedOn(s, k, side) {
      var states, acts :|
        IsRun(c, states, acts) && InputsSatisfy(acts, |acts|, v => v in inputs) && states[|acts|] == s;
      AcceptedMeansCan(c, inputs, states, acts, |acts|, k, side);
    }
    if CanAccept(c, inputs, side) {
      var s, i := SomeAcceptance(c, inputs, side);
      assert AcceptedOn(s, 0, side);
    }
  }

  /** On the inside that takes proxying from there, and an inside interface that is not one of the outside ones. */
  lemma InsideAcceptsExactly(c: System, inputs: set<Side>)
    ensures (exists s, k: nat :: ReachableGiven(c, inputs, s) && AcceptedOn(s, k, IN))
       <==> c.conf.proxyInToOut && c.indexOf(c.conf.inIntName) != c.indexOf(c.conf.outIntName)
            && (c.conf.AltOutExists() ==> c.indexOf(c.conf.inIntName) != c.indexOf(c.conf.altOutIntName))
  {
    AcceptsExactly(c, inputs, IN);
  }
}
