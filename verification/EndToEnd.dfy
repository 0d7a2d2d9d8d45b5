/**
 A client and a unicast proxy put together: what the client enqueues is what the outside
 network hears, message by message.
 */
module EndToEnd {
  import opened Base
  import Client = ClientProtocol
  import Ledger
  import ClientTheorems
  import opened Setup
  import opened Library
  import opened Buffers
  import opened Routing
  import opened AtMostOnce

  // ----- Messages on the link between client and proxy -----

  function KindOf(l: Client.LaneId): Byte {
    if l == Client.Reports then 0x16 else 0x17
  }

  /** The datagram is the message in the format of section 2 of RFC 2236. */
  predicate Carries(data: seq<Byte>, m: Client.Msg) {
    |data| == 8 && data[0] == KindOf(m.lane) && m.group == V4(data[4], data[5], data[6], data[7])
  }

  /** What the outside should hear for a message: a report to its group, a leave to all routers. */
  predicate Heard(f: Frame, data: seq<Byte>, m: Client.Msg) {
    && f.Forwarded? && f.proc.Unicast? && f.out == OUT
    && data <= f.payload && |f.payload| == 200
    && f.dst == if m.lane == Client.Reports then m.group else V4(224, 0, 0, 2)
  }

  // ----- What the proxy's unicast receiver reads and writes -----

  /** The datagrams read in the first `n` steps. */
  function UnicastReads(acts: seq<Action>, n: nat): seq<seq<Byte>>
    requires n <= |acts|
  {
    if n == 0 then []
    else if acts[n - 1].Do? && acts[n - 1].act.ReadDatagram? then UnicastReads(acts, n - 1) + [acts[n - 1].act.data]
    else UnicastReads(acts, n - 1)
  }

  function UnicastFrames(frames: seq<Frame>): seq<Frame> {
    if frames == [] then []
    else
      var f := frames[|frames| - 1];
      UnicastFrames(frames[..|frames| - 1]) + if f.Forwarded? && f.proc.Unicast? then [f] else []
  }

  lemma FramesAppend(frames: seq<Frame>, f: Frame)
    ensures UnicastFrames(frames + [f])
         == UnicastFrames(frames) + if f.Forwarded? && f.proc.Unicast? then [f] else []
  {
    assert (frames + [f])[..|frames|] == frames;
  }

  /** Decoding the encoding of a message gives back its group. */
  ghost predicate DecodesFaithfully(g: Goroutine, a: Act) {
    a.Decode? && g.proc.Unicast? && g.pc.Got? && g.pc.from.FromDatagram? && |g.pc.from.data| == 8
      && g.pc.from.data[0] in {REPORT_V2, LEAVE_GROUP} ==>
        var d := g.pc.from.data; a.layer == V1or2(V4(d[4], d[5], d[6], d[7]))
  }

  /** The link delivers the client's messages in order, and the decoder recovers their groups. */
  ghost predicate Faithful(states: seq<State>, acts: seq<Action>, n: nat, wire: seq<Client.Msg>)
    requires n <= |acts| && |states| == |acts| + 1
  {
    && |UnicastReads(acts, n)| <= |wire|
    && (forall k | 0 <= k < |UnicastReads(acts, n)| :: Carries(UnicastReads(acts, n)[k], wire[k]))
    && (forall k | 0 <= k < n && acts[k].Do? :: acts[k].act != ReadError)
    && (forall k | 0 <= k < n && acts[k].Do? && acts[k].i < |states[k].gs| ::
          DecodesFaithfully(states[k].gs[acts[k].i], acts[k].act))
  }

  // ----- The receiver is at most one message ahead of what it has written -----

  predicate Busy(pc: Pc) {
    pc.Got? || pc.Accepted? || pc.Routed?
  }

  ghost predicate InStep(g: Goroutine, got: seq<seq<Byte>>, written: seq<Frame>, wire: seq<Client.Msg>) {
    && |got| <= |wire|
    && |got| == |written| + (if Busy(g.pc) then 1 else 0)
    && (forall k | 0 <= k < |written| :: Heard(written[k], got[k], wire[k]))
    && (Busy(g.pc) ==> Working(g.pc).value == FromDatagram(got[|written|]) && Carries(got[|written|], wire[|written|]))
    && (g.pc.Accepted? ==> g.pc.layer == V1or2(wire[|written|].group))
    && (g.pc.Routed? ==> g.pc.layer == V1or2(wire[|written|].group) && g.pc.out == OUT)
    && !g.pc.Checked?
  }

  /** The type byte the receiver sees is that of the message in its hand. */
  lemma TypeByte(s: State, i: nat, data: seq<Byte>)
    requires Inv(s) && i < |s.gs| && Held(s.gs[i].pc).Some? && |data| == 8
    requires Working(s.gs[i].pc) == Some(FromDatagram(data))
    ensures var payload := Contents(s.pool, Held(s.gs[i].pc).value);
      |payload| == BUFFER_SIZE && payload[0] == data[0] && data <= payload
  {
    var b := Held(s.gs[i].pc).value;
    assert MessageOk(s.gs[i], s.pool, s.packets);
    assert Shows(s.pool.contents[b], s.pool.history[b]);
    assert forall k | 0 <= k < |data| :: MostRecent(s.pool.history[b], k) == data[k];
  }

  /** Until it writes, the receiver keeps in step. */
  lemma EarlyStep(c: System, g: Goroutine, i: nat, s: State, a: Act, got: seq<seq<Byte>>, written: seq<Frame>,
                  wire: seq<Client.Msg>)
    requires g.proc.Unicast? && Move(c, g, i, s, a).Does? && !g.pc.Routed?
    requires InStep(g, got, written, wire) && s.route == map[OUT := IN, IN := OUT]
    requires a != ReadError && DecodesFaithfully(g, a)
    requires a.ReadDatagram? ==> |got| < |wire| && Carries(a.data, wire[|got|])
    ensures var e := Move(c, g, i, s, a).effect;
      e.frame.None? && InStep(e.g, if a.ReadDatagram? then got + [a.data] else got, written, wire)
  {
  }

  /** It writes the message in its hand. */
  lemma RoutedStep(c: System, g: Goroutine, i: nat, s: State, a: Act, got: seq<seq<Byte>>, written: seq<Frame>,
                   wire: seq<Client.Msg>)
    requires g.proc.Unicast? && Move(c, g, i, s, a).Does? && g.pc.Routed? && InStep(g, got, written, wire)
    requires var payload, data := Contents(s.pool, g.pc.buf), got[|written|];
      |payload| == BUFFER_SIZE && payload[0] == data[0] && data <= payload
    ensures !a.ReadDatagram?
    ensures var e := Move(c, g, i, s, a).effect;
      && e.frame.Some? && e.frame.value.Forwarded? && e.frame.value.proc.Unicast?
      && InStep(e.g, got, written + [e.frame.value], wire)
  {
  }

  /** The receiver's own move, given the route OUT. */
  lemma UnicastStep(c: System, s: State, i: nat, a: Act, got: seq<seq<Byte>>, written: seq<Frame>,
                    wire: seq<Client.Msg>)
    requires Inv(s) && i < |s.gs| && s.gs[i].proc.Unicast? && Move(c, s.gs[i], i, s, a).Does?
    requires InStep(s.gs[i], got, written, wire) && s.route == map[OUT := IN, IN := OUT]
    requires a != ReadError && DecodesFaithfully(s.gs[i], a)
    requires a.ReadDatagram? ==> |got| < |wire| && Carries(a.data, wire[|got|])
    ensures var e := Move(c, s.gs[i], i, s, a).effect;
      InStep(e.g, if a.ReadDatagram? then got + [a.data] else got,
             if e.frame.Some? then written + [e.frame.value] else written, wire)
    ensures var e := Move(c, s.gs[i], i, s, a).effect;
      e.frame.Some? ==> e.frame.value.Forwarded? && e.frame.value.proc.Unicast?
  {
    if s.gs[i].pc.Routed? {
      TypeByte(s, i, got[|written|]);
      RoutedStep(c, s.gs[i], i, s, a, got, written, wire);
    } else {
      EarlyStep(c, s.gs[i], i, s, a, got, written, wire);
    }
  }

  /** A read goes through the receiver's own connection, so it cannot crash. */
  lemma ReadTakesEffect(c: System, s: State, a: Action, t: State)
    requires Step(c, s, a) == Some(t) && a.Do? && a.act.ReadDatagram?
    ensures EffectOf(c, s, a).Some?
  {
  }

  /** No other goroutine reads unicast datagrams or writes for the unicast receiver. */
  lemma OthersDoNotWrite(c: System, g: Goroutine, i: nat, s: State, a: Act)
    requires Move(c, g, i, s, a).Does? && !g.proc.Unicast?
    ensures var e := Move(c, g, i, s, a).effect;
      e.frame.Some? ==> !(e.frame.value.Forwarded? && e.frame.value.proc.Unicast?)
    ensures !a.ReadDatagram?
  {
  }

  lemma OneUnicast(c: System, gs: seq<Goroutine>, i: nat, j: nat)
    requires ProcsInv(c, gs) && i < |gs| && j < |gs| && gs[i].proc.Unicast? && gs[j].proc.Unicast?
    ensures i == j
  {
    WorkersDistinct(c.conf);
    SameIndex(Workers(c.conf), i, j);
  }

  /** With OUT selected throughout, the route from the inside is always OUT. */
  lemma RouteStaysOut(c: System, states: seq<State>, acts: seq<Action>, n: nat)
    requires IsRun(c, states, acts) && n <= |acts| && InputsSatisfy(acts, n, v => v == OUT)
    ensures states[n].route == map[OUT := IN, IN := OUT]
  {
    RoutingAlongRun(c, states, acts, n);
    StoredSatisfy(c, states, acts, n, v => v == OUT);
    var stored := states[n].stored;
    assert stored != [] ==> stored[|stored| - 1] in stored;
  }

  lemma FaithfulPrefix(states: seq<State>, acts: seq<Action>, n: nat, wire: seq<Client.Msg>)
    requires 0 < n <= |acts| && |states| == |acts| + 1 && Faithful(states, acts, n, wire)
    ensures Faithful(states, acts, n - 1, wire)
    ensures acts[n - 1].Do? && acts[n - 1].act.ReadDatagram? ==>
      var k := |UnicastReads(acts, n - 1)|; k < |wire| && Carries(acts[n - 1].act.data, wire[k])
  {
    var before, now := UnicastReads(acts, n - 1), UnicastReads(acts, n);
    assert forall k | 0 <= k < |before| :: before[k] == now[k];
  }

  lemma TranslateStep(c: System, s: State, a: Action, t: State, u: nat, acts: seq<Action>, n: nat,
                      wire: seq<Client.Msg>)
    requires Step(c, s, a) == Some(t) && Inv(s) && ProcsInv(c, s.gs) && u < |s.gs| && s.gs[u].proc.Unicast?
    requires s.route == map[OUT := IN, IN := OUT]
    requires 0 < n <= |acts| && acts[n - 1] == a
    requires InStep(s.gs[u], UnicastReads(acts, n - 1), UnicastFrames(s.frames), wire)
    requires a.Do? ==> a.act != ReadError && (a.i < |s.gs| ==> DecodesFaithfully(s.gs[a.i], a.act))
    requires a.Do? && a.act.ReadDatagram? ==>
      |UnicastReads(acts, n - 1)| < |wire| && Carries(a.act.data, wire[|UnicastReads(acts, n - 1)|])
    ensures u < |t.gs| && InStep(t.gs[u], UnicastReads(acts, n), UnicastFrames(t.frames), wire)
  {
    StepShape(c, s, a, t);
    if a.Do? && a.act.ReadDatagram? { ReadTakesEffect(c, s, a, t); }
    if EffectOf(c, s, a).Some? {
      var e := EffectOf(c, s, a).value;
      if e.frame.Some? { FramesAppend(s.frames, e.frame.value); }
      if s.gs[a.i].proc.Unicast? {
        OneUnicast(c, s.gs, u, a.i);
        UnicastStep(c, s, u, a.act, UnicastReads(acts, n - 1), UnicastFrames(s.frames), wire);
      } else {
        OthersDoNotWrite(c, s.gs[a.i], a.i, s, a.act);
      }
    }
  }

  lemma TranslateNext(c: System, states: seq<State>, acts: seq<Action>, n: nat, u: nat, wire: seq<Client.Msg>)
    requires IsRun(c, states, acts) && 0 < n <= |acts| && Faithful(states, acts, n, wire)
    requires InputsSatisfy(acts, n - 1, v => v == OUT)
    requires u < |Workers(c.conf)| && Workers(c.conf)[u].Unicast?
    requires u < |states[n - 1].gs|
    requires InStep(states[n - 1].gs[u], UnicastReads(acts, n - 1), UnicastFrames(states[n - 1].frames), wire)
    ensures u < |states[n].gs|
    ensures InStep(states[n].gs[u], UnicastReads(acts, n), UnicastFrames(states[n].frames), wire)
  {
    ProcsAlongRun(c, states, acts, n - 1);
    FaithfulPrefix(states, acts, n, wire);
    RouteStaysOut(c, states, acts, n - 1);
    InvAlongRun(c, states, acts, n - 1);
    assert Step(c, states[n - 1], acts[n - 1]) == Some(states[n]);
    TranslateStep(c, states[n - 1], acts[n - 1], states[n], u, acts, n, wire);
  }

  /** However the proxy's goroutines interleave, its unicast receiver translates message by message. */
  lemma {:induction false} Translates(c: System, states: seq<State>, acts: seq<Action>, n: nat, u: nat,
                                      wire: seq<Client.Msg>)
    requires IsRun(c, states, acts) && n <= |acts| && Faithful(states, acts, n, wire)
    requires InputsSatisfy(acts, n, v => v == OUT)
    requires u < |Workers(c.conf)| && Workers(c.conf)[u].Unicast?
    ensures u < |states[n].gs|
    ensures InStep(states[n].gs[u], UnicastReads(acts, n), UnicastFrames(states[n].frames), wire)
  {
    ProcsAlongRun(c, states, acts, n);
    if n > 0 {
      FaithfulPrefix(states, acts, n, wire);
      Translates(c, states, acts, n - 1, u, wire);
      TranslateNext(c, states, acts, n, u, wire);
    }
  }

  // ----- What the outside hears, in order -----

  /** The group field of a message. */
  function GroupIn(payload: seq<Byte>): Addr {
    if |payload| >= 8 then V4(payload[4], payload[5], payload[6], payload[7]) else NoAddr
  }

  predicate IsKind(f: Frame, kind: Byte) {
    f.Forwarded? && |f.payload| > 0 && f.payload[0] == kind
  }

  /** The groups of the messages of one kind, in the order in which they were sent out. */
  function HeardGroups(frames: seq<Frame>, kind: Byte): seq<Addr> {
    if frames == [] then []
    else
      var f := frames[|frames| - 1];
      HeardGroups(frames[..|frames| - 1], kind) + if IsKind(f, kind) then [GroupIn(f.payload)] else []
  }

  lemma HeardOne(f: Frame, data: seq<Byte>, m: Client.Msg, l: Client.LaneId)
    requires Heard(f, data, m) && Carries(data, m)
    ensures IsKind(f, KindOf(l)) <==> m.lane == l
    ensures GroupIn(f.payload) == m.group
  {
    assert forall k | 0 <= k < 8 :: f.payload[k] == data[k];
  }

  lemma {:induction false} HeardIsSent(frames: seq<Frame>, got: seq<seq<Byte>>, wire: seq<Client.Msg>, l: Client.LaneId)
    requires |frames| == |got| == |wire|
    requires forall k | 0 <= k < |wire| :: Heard(frames[k], got[k], wire[k]) && Carries(got[k], wire[k])
    ensures HeardGroups(frames, KindOf(l)) == Ledger.Sent(wire, l)
  {
    if wire != [] {
      var n := |wire| - 1;
      HeardIsSent(frames[..n], got[..n], wire[..n], l);
      HeardOne(frames[n], got[n], wire[n], l);
    }
  }

  /** A lane with nothing left to send has sent everything enqueued on it. */
  lemma AllSent(s: Client.State, l: Client.LaneId)
    requires Client.Reachable(s) && Ledger.Unsent(Client.LaneOf(s, l)) == []
    ensures Ledger.Sent(s.wire, l) == Ledger.Enqueued(s.events, l)
  {
    ClientTheorems.LaneConservation(s, l);
    var hand, queued := GroupSeq(Ledger.InHand(Client.LaneOf(s, l).worker)), Ledger.Queued(Client.LaneOf(s, l).queue);
    assert hand + queued == [];
    assert hand == [] && queued == [];
  }

  /**
   A drained client, its wire read in order by a proxy with OUT selected and no failing read: the
   outside hears, in queue order, one version 2 report to each enqueued item's group and one leave
   to all routers for each leave, and nothing else from the unicast receiver.
   */
  lemma EndToEndTranslation(s: Client.State, c: System, states: seq<State>, acts: seq<Action>, n: nat, u: nat)
    requires Client.Reachable(s) && Ledger.Unsent(s.reports) == [] && Ledger.Unsent(s.leaves) == []
    requires IsRun(c, states, acts) && n <= |acts| && Faithful(states, acts, n, s.wire)
    requires InputsSatisfy(acts, n, v => v == OUT)
    requires u < |Workers(c.conf)| && Workers(c.conf)[u].Unicast? && u < |states[n].gs|
    requires |UnicastReads(acts, n)| == |s.wire| && !Busy(states[n].gs[u].pc)
    ensures var heard := UnicastFrames(states[n].frames);
      && |heard| == |s.wire|
      && HeardGroups(heard, 0x16) == Ledger.Enqueued(s.events, Client.Reports)
      && HeardGroups(heard, 0x17) == Ledger.Enqueued(s.events, Client.Departures)
      && (forall k | 0 <= k < |heard| ::
            && heard[k].Forwarded? && heard[k].out == OUT
            && ((IsKind(heard[k], 0x16) && heard[k].dst == GroupIn(heard[k].payload))
                || (IsKind(heard[k], 0x17) && heard[k].dst == V4(224, 0, 0, 2))))
  {
    var heard, got := UnicastFrames(states[n].frames), UnicastReads(acts, n);
    Translates(c, states, acts, n, u, s.wire);
    HeardIsSent(heard, got, s.wire, Client.Reports);
    HeardIsSent(heard, got, s.wire, Client.Departures);
    AllSent(s, Client.Reports);
    AllSent(s, Client.Departures);
    forall k | 0 <= k < |heard|
      ensures heard[k].Forwarded? && heard[k].out == OUT
      ensures (IsKind(heard[k], 0x16) && heard[k].dst == GroupIn(heard[k].payload))
           || (IsKind(heard[k], 0x17) && heard[k].dst == V4(224, 0, 0, 2))
    {
      HeardOne(heard[k], got[k], s.wire[k], s.wire[k].lane);
    }
  }
}
