/**
 The converse of handle readiness: a run that touches an unopened handle for each way in
 which a configuration can fail to be ready.
 */
module HandleWitnesses {
  import opened Base
  import opened Setup
  import opened Library
  import opened Routing
  import opened Handles

  lemma StartGiven(c: System, inputs: set<Side>)
    ensures ReachableGiven(c, inputs, Init(c))
  {
    assert IsRun(c, [Init(c)], []);
    assert InputsSatisfy([], 0, v => v in inputs);
  }

  /** One more step of a run whose selected sides stay within `inputs`. */
  lemma GoGiven(c: System, inputs: set<Side>, s: State, a: Action) returns (t: State)
    requires ReachableGiven(c, inputs, s) && Step(c, s, a).Some?
    requires a.Do? && a.act.ReceiveSide? ==> a.act.side in inputs
    ensures Step(c, s, a) == Some(t) && ReachableGiven(c, inputs, t)
  {
    t := Step(c, s, a).value;
    var states, acts :|
      IsRun(c, states, acts) && InputsSatisfy(acts, |acts|, v => v in inputs) && states[|acts|] == s;
    RunExtends(c, states, acts, a, t);
    assert InputsSatisfy(acts + [a], |acts + [a]|, v => v in inputs);
    assert (states + [t])[|acts + [a]|] == t;
  }

  /** A goroutine takes a step that touches nothing unopened. */
  lemma GoMove(c: System, inputs: set<Side>, s: State, i: nat, a: Act) returns (t: State)
    requires ReachableGiven(c, inputs, s) && s.status == Running && i < |s.gs|
    requires Move(c, s.gs[i], i, s, a).Does? && !UsesUnopened(c, s.gs[i], a, Move(c, s.gs[i], i, s, a).effect)
    requires a.ReceiveSide? ==> a.side in inputs
    ensures ReachableGiven(c, inputs, t) && t == Apply(s, i, Move(c, s.gs[i], i, s, a).effect)
  {
    t := GoGiven(c, inputs, s, Do(i, a));
  }

  /** A goroutine takes a step through an unopened handle. */
  lemma GoCrash(c: System, inputs: set<Side>, s: State, i: nat, a: Act) returns (t: State)
    requires ReachableGiven(c, inputs, s) && s.status == Running && i < |s.gs| && !a.ReceiveSide?
    requires Move(c, s.gs[i], i, s, a).Does? && UsesUnopened(c, s.gs[i], a, Move(c, s.gs[i], i, s, a).effect)
    ensures ReachableGiven(c, inputs, t) && t.status == Crashed
  {
    t := GoGiven(c, inputs, s, Do(i, a));
  }

  /** A goroutine takes a step that panics. */
  lemma GoPanic(c: System, inputs: set<Side>, s: State, i: nat, a: Act) returns (t: State)
    requires ReachableGiven(c, inputs, s) && s.status == Running && i < |s.gs| && !a.ReceiveSide?
    requires Move(c, s.gs[i], i, s, a).Panics?
    ensures ReachableGiven(c, inputs, t) && t.status == Panicked
  {
    t := GoGiven(c, inputs, s, Do(i, a));
  }

  /** A receiver passes the check of the context. */
  lemma GoEnter(c: System, inputs: set<Side>, s: State, i: nat) returns (t: State)
    requires ReachableGiven(c, inputs, s) && s.status == Running && i < |s.gs| && !s.cancelled
    requires IsReceiver(s.gs[i].proc) && s.gs[i].pc == Head
    ensures ReachableGiven(c, inputs, t) && t == s.(gs := s.gs[i := s.gs[i].(pc := Entered)])
  {
    t := GoMove(c, inputs, s, i, CheckContext);
  }

  /** A receiver begins an iteration with a buffer. */
  lemma GoBegin(c: System, inputs: set<Side>, s: State, i: nat, b: Buf) returns (t: State)
    requires ReachableGiven(c, inputs, s) && s.status == Running && i < |s.gs| && !s.cancelled
    requires IsReceiver(s.gs[i].proc) && s.gs[i].pc == Head && (b in s.pool.free || b !in s.pool.contents)
    requires IsOpen(c.conf, if s.gs[i].proc.Multicast? then MCon(s.gs[i].proc.side, s.gs[i].proc.group) else UCon(IN))
    ensures ReachableGiven(c, inputs, t)
    ensures t == s.(gs := s.gs[i := s.gs[i].(pc := Reading(b))], pool := OnPool(s.pool, Get(b)))
  {
    t := GoEnter(c, inputs, s, i);
    SetTwice(s.gs, i, s.gs[i].(pc := Entered), s.gs[i].(pc := Reading(b)));
    t := GoMove(c, inputs, t, i, Begin(b));
  }

  /** Where a started goroutine sits. */
  lemma Find(c: System, p: Proc) returns (i: nat)
    requires Started(c.conf, p)
    ensures i < |Init(c).gs| && Init(c).gs[i] == Goroutine(p, Head, NoAddr, 0)
  {
    WorkersAreStarted(c.conf, p);
    i :| 0 <= i < |Workers(c.conf)| && Workers(c.conf)[i] == p;
  }

  lemma LeaveEnqueued(c: System, inputs: set<Side>, item: Item) returns (s: State, i: nat)
    requires c.conf.leaveToNetwork
    ensures ReachableGiven(c, inputs, s) && s.status == Running && i < |s.gs| && s.chans.leave == [[item]]
    ensures s.gs[i] == Goroutine(LeaveWorker, Head, NoAddr, 0)
  {
    StartGiven(c, inputs);
    i := Find(c, LeaveWorker);
    s := GoGiven(c, inputs, Init(c), EnqueueLeave([item]));
    assert s.chans.leave == [[item]];
  }

  lemma LeaveReceived(c: System, inputs: set<Side>, r: State, i: nat, item: Item) returns (s: State)
    requires ReachableGiven(c, inputs, r) && r.status == Running && i < |r.gs| && r.chans.leave == [[item]]
    requires r.gs[i] == Goroutine(LeaveWorker, Head, NoAddr, 0)
    ensures ReachableGiven(c, inputs, s) && s.status == Running && i < |s.gs|
    ensures s.gs[i] == Goroutine(LeaveWorker, Sending([item]), NoAddr, 0)
  {
    s := GoMove(c, inputs, r, i, ReceiveList);
  }

  /** Leaves alone: the leave worker writes through an outside connection nobody opened. */
  lemma LeaveCrashes(c: System, inputs: set<Side>, item: Item) returns (s: State)
    requires !LeavesCovered(c.conf) && item.group != NoAddr
    ensures ReachableGiven(c, inputs, s) && s.status == Crashed
  {
    var i: nat;
    s, i := LeaveEnqueued(c, inputs, item);
    s := LeaveReceived(c, inputs, s, i, item);
    s := GoCrash(c, inputs, s, i, SendItem);
  }

  /** Alternative outside with notifications only: its receivers read from connections nobody opened. */
  lemma AlternativeCrashes(c: System, inputs: set<Side>) returns (s: State)
    requires !AlternativeCovered(c.conf)
    ensures ReachableGiven(c, inputs, s) && s.status == Crashed
  {
    StartGiven(c, inputs);
    var i := Find(c, Multicast(ALTOUT, ALL_HOSTS));
    s := GoEnter(c, inputs, Init(c), i);
    s := GoCrash(c, inputs, s, i, Begin(0));
  }

  /** The selector receives and stores one side. */
  lemma StoreOnce(c: System, inputs: set<Side>, r: State, i: nat, v: Side) returns (s: State)
    requires ReachableGiven(c, inputs, r) && r.status == Running && i < |r.gs| && v in inputs
    requires r.gs[i] == Goroutine(Selector, Head, NoAddr, 0)
    ensures ReachableGiven(c, inputs, s) && s == r.(route := r.route[IN := v], stored := r.stored + [v])
  {
    s := GoMove(c, inputs, r, i, ReceiveSide(v));
    s := GoMove(c, inputs, s, i, StoreSide);
    SetAndReset(r.gs, i, Goroutine(Selector, Storing(v), NoAddr, 0));
  }

  /** The application selects side `v`. */
  lemma SelectSide(c: System, inputs: set<Side>, v: Side) returns (s: State)
    requires SelectorRuns(c.conf) && v in inputs
    ensures ReachableGiven(c, inputs, s)
    ensures s.gs == Init(c).gs && s.route == map[OUT := IN, IN := v]
    ensures s.pool == Init(c).pool && s.packets == [] && s.frames == [] && s.accepts == []
    ensures !s.cancelled && s.status == Running
  {
    StartGiven(c, inputs);
    var i := Find(c, Selector);
    s := StoreOnce(c, inputs, Init(c), i, v);
  }

  /** What the first steps of an iteration leave in a fresh buffer. */
  lemma FreshFill(pool: Pool, kind: Byte)
    requires pool.contents == map[] && pool.history == map[]
    ensures var filled := OnPool(OnPool(pool, Get(0)), Fill(0, [kind]));
      Contents(filled, 0)[0] == kind
  {
    assert Overlay(Zeros(), [kind])[0] == kind;
  }

  lemma UnicastRouted(c: System, inputs: set<Side>, v: Side, r: State, i: nat) returns (s: State)
    requires ReachableGiven(c, inputs, r) && r.status == Running && i < |r.gs|
    requires r.gs[i] == Goroutine(Unicast, Got(0, FromDatagram([REPORT_V3])), NoAddr, 0)
    requires r.route == map[OUT := IN, IN := v]
    ensures ReachableGiven(c, inputs, s) && s.status == Running && |s.gs| == |r.gs| && s.pool == r.pool
    ensures s.gs[i] == Goroutine(Unicast, Routed(0, FromDatagram([REPORT_V3]), V3([]), v), NoAddr, 0)
  {
    s := GoMove(c, inputs, r, i, Decode(V3([])));
    s := GoMove(c, inputs, s, i, LoadRoute);
  }

  lemma UnicastTail(c: System, inputs: set<Side>, v: Side, r: State, i: nat) returns (s: State)
    requires ReachableGiven(c, inputs, r) && r.status == Running && i < |r.gs|
    requires r.gs[i] == Goroutine(Unicast, Got(0, FromDatagram([REPORT_V3])), NoAddr, 0)
    requires r.route == map[OUT := IN, IN := v] && FirstByte(r, 0) == REPORT_V3 && !IsOpen(c.conf, Raw(v))
    ensures ReachableGiven(c, inputs, s) && s.status == Crashed
  {
    s := UnicastRouted(c, inputs, v, r, i);
    s := GoCrash(c, inputs, s, i, Forward);
  }

  /** The unicast receiver forwards to the selected side. */
  lemma UnicastCrashes(c: System, inputs: set<Side>, v: Side) returns (s: State)
    requires SelectorRuns(c.conf) && c.conf.unicastProxyInToOut && v in inputs && !IsOpen(c.conf, Raw(v))
    ensures ReachableGiven(c, inputs, s) && s.status == Crashed
  {
    s := SelectSide(c, inputs, v);
    FreshFill(s.pool, REPORT_V3);
    var i := Find(c, Unicast);
    s := GoBegin(c, inputs, s, i, 0);
    s := GoMove(c, inputs, s, i, ReadDatagram([REPORT_V3]));
    assert FirstByte(s, 0) == REPORT_V3;
    s := UnicastTail(c, inputs, v, s, i);
  }

  lemma AcceptedCrashes(c: System, inputs: set<Side>, v: Side, r: State, i: nat) returns (s: State)
    requires ReachableGiven(c, inputs, r) && r.status == Running && i < |r.gs|
    requires r.gs[i].proc == Multicast(IN, ALL_HOSTS) && r.gs[i].pc.Accepted?
    requires r.route == map[OUT := IN, IN := v] && c.conf.proxyInToOut && !IsOpen(c.conf, Raw(v))
    ensures ReachableGiven(c, inputs, s) && s.status == Crashed
  {
    s := GoMove(c, inputs, r, i, LoadRoute);
    s := GoCrash(c, inputs, s, i, Forward);
  }

  /** A packet of some kind for the receiver of a side that listens to all hosts. */
  function PacketTo(c: System, side: Side, kind: Byte): Packet {
    Packet(c.indexOf(IntName(c.conf, side)), GroupAddr(ALL_HOSTS), NoAddr, [kind])
  }

  /** The receiver of a side has passed its packet through the check of the active side. */
  lemma LetThrough(c: System, inputs: set<Side>, r: State, i: nat, side: Side) returns (s: State)
    requires ReachableGiven(c, inputs, r) && r.status == Running && i < |r.gs| && r.accepts == [] && Visible(c, side)
    requires r.gs[i] == Goroutine(Multicast(side, ALL_HOSTS), Checked(0, FromPacket(0)), NoAddr, 1)
    requires r.packets == [PacketTo(c, side, LEAVE_GROUP)] && FirstByte(r, 0) == LEAVE_GROUP
    ensures ReachableGiven(c, inputs, s) && s.status == Running && i < |s.gs|
    ensures s.gs[i].proc == Multicast(side, ALL_HOSTS)
    ensures s.gs[i].pc == Accepted(0, FromPacket(0), V1or2(V4(0, 0, 0, 0)))
    ensures s.route == r.route && s.accepts == [Accept(i, 0)]
  {
    s := GoMove(c, inputs, r, i, Filter(V1or2(V4(0, 0, 0, 0)), true));
  }

  /** It has read the packet into a new buffer. */
  lemma ReadKind(c: System, inputs: set<Side>, r: State, i: nat, side: Side, kind: Byte) returns (s: State)
    requires ReachableGiven(c, inputs, r) && r.status == Running && !r.cancelled && i < |r.gs|
    requires r.gs[i] == Goroutine(Multicast(side, ALL_HOSTS), Head, NoAddr, 0) && r.pool == Init(c).pool
    requires r.packets == [PacketTo(c, side, kind)] && IsOpen(c.conf, MCon(side, ALL_HOSTS))
    ensures ReachableGiven(c, inputs, s) && s.status == Running && |s.gs| == |r.gs|
    ensures s.gs[i] == Goroutine(Multicast(side, ALL_HOSTS), Got(0, FromPacket(0)), NoAddr, 1)
    ensures s.packets == r.packets && s.route == r.route && s.accepts == r.accepts && FirstByte(s, 0) == kind
  {
    FreshFill(r.pool, kind);
    s := GoBegin(c, inputs, r, i, 0);
    s := GoMove(c, inputs, s, i, ReadPacket);
  }

  lemma CheckActive(c: System, inputs: set<Side>, r: State, i: nat, side: Side) returns (s: State)
    requires ReachableGiven(c, inputs, r) && r.status == Running && i < |r.gs| && !Ignored(c, side, r.route)
    requires r.gs[i] == Goroutine(Multicast(side, ALL_HOSTS), Got(0, FromPacket(0)), NoAddr, 1)
    ensures ReachableGiven(c, inputs, s)
    ensures s == r.(gs := r.gs[i := Goroutine(Multicast(side, ALL_HOSTS), Checked(0, FromPacket(0)), NoAddr, 1)])
  {
    s := GoMove(c, inputs, r, i, AltFilter);
  }

  /** From a state in which nothing has been received, a receiver of an active side comes to filter a packet. */
  lemma CheckedAt(c: System, inputs: set<Side>, r: State, side: Side, kind: Byte) returns (s: State, i: nat)
    requires ReachableGiven(c, inputs, r) && r.status == Running && !r.cancelled && r.gs == Init(c).gs
    requires r.pool == Init(c).pool && r.packets == []
    requires Started(c.conf, Multicast(side, ALL_HOSTS)) && IsOpen(c.conf, MCon(side, ALL_HOSTS))
    requires !Ignored(c, side, r.route)
    ensures ReachableGiven(c, inputs, s) && s.status == Running && i < |s.gs|
    ensures s.gs[i] == Goroutine(Multicast(side, ALL_HOSTS), Checked(0, FromPacket(0)), NoAddr, 1)
    ensures s.packets == [PacketTo(c, side, kind)] && FirstByte(s, 0) == kind
    ensures s.route == r.route && s.accepts == r.accepts
  {
    i := Find(c, Multicast(side, ALL_HOSTS));
    s := GoGiven(c, inputs, r, Arrive(PacketTo(c, side, kind)));
    s := ReadKind(c, inputs, s, i, side, kind);
    s := CheckActive(c, inputs, s, i, side);
  }

  /** It accepts a packet if its side is visible. */
  lemma AcceptAt(c: System, inputs: set<Side>, r: State, side: Side) returns (s: State, i: nat)
    requires ReachableGiven(c, inputs, r) && r.status == Running && !r.cancelled && r.gs == Init(c).gs
    requires r.pool == Init(c).pool && r.packets == [] && r.accepts == []
    requires Started(c.conf, Multicast(side, ALL_HOSTS)) && IsOpen(c.conf, MCon(side, ALL_HOSTS))
    requires Visible(c, side) && !Ignored(c, side, r.route)
    ensures ReachableGiven(c, inputs, s) && s.status == Running && i < |s.gs|
    ensures s.gs[i].proc == Multicast(side, ALL_HOSTS) && s.gs[i].pc.Accepted?
    ensures s.route == r.route && s.accepts == [Accept(i, 0)]
  {
    s, i := CheckedAt(c, inputs, r, side, LEAVE_GROUP);
    s := LetThrough(c, inputs, s, i, side);
  }

  /** With side `v` selected, a receiver of the inside has accepted a packet. */
  lemma InsideAccepted(c: System, inputs: set<Side>, v: Side) returns (s: State, i: nat)
    requires SelectorRuns(c.conf) && c.conf.proxyInToOut && Visible(c, IN) && v in inputs
    ensures ReachableGiven(c, inputs, s) && s.status == Running && i < |s.gs|
    ensures s.gs[i].proc == Multicast(IN, ALL_HOSTS) && s.gs[i].pc.Accepted? && s.route == map[OUT := IN, IN := v]
  {
    s := SelectSide(c, inputs, v);
    s, i := AcceptAt(c, inputs, s, IN);
  }

  /** A multicast receiver of the inside forwards to the selected side. */
  lemma MulticastCrashes(c: System, inputs: set<Side>, v: Side) returns (s: State)
    requires SelectorRuns(c.conf) && c.conf.proxyInToOut && Visible(c, IN) && v in inputs && !IsOpen(c.conf, Raw(v))
    ensures ReachableGiven(c, inputs, s) && s.status == Crashed
  {
    var i: nat;
    s, i := InsideAccepted(c, inputs, v);
    s := AcceptedCrashes(c, inputs, v, s, i);
  }

  lemma SomeCrash(c: System, inputs: set<Side>) returns (s: State)
    requires !Ready(c, inputs)
    ensures ReachableGiven(c, inputs, s) && s.status == Crashed
  {
    if !LeavesCovered(c.conf) {
      s := LeaveCrashes(c, inputs, Item([], V4(239, 0, 0, 1)));
    } else if !AlternativeCovered(c.conf) {
      s := AlternativeCrashes(c, inputs);
    } else {
      var v :| v in inputs && !IsOpen(c.conf, Raw(v));
      if c.conf.unicastProxyInToOut {
        s := UnicastCrashes(c, inputs, v);
      } else {
        s := MulticastCrashes(c, inputs, v);
      }
    }
  }

  /**
   No run whose selected sides stay within `inputs` touches an unopened handle if and only if
   leaves, the alternative outside and every selectable side are covered.
   */
  lemma HandleReadiness(c: System, inputs: set<Side>)
    ensures (forall s | ReachableGiven(c, inputs, s) :: s.status != Crashed) <==> Ready(c, inputs)
  {
    if Ready(c, inputs) {
      forall s | ReachableGiven(c, inputs, s)
        ensures s.status != Crashed
      {
        var states, acts :|
          IsRun(c, states, acts) && InputsSatisfy(acts, |acts|, v => v in inputs) && states[|acts|] == s;
        NeverCrashes(c, inputs, states, acts, |acts|);
      }
    } else {
      var s := SomeCrash(c, inputs);
    }
  }
}
