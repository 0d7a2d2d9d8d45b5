/**
 The assumptions of the end-to-end result can be met: a client's report, for any group, on its
 way through a proxy.
 */
module EndToEndWitness {
  import opened Base
  import Client = ClientProtocol
  import Ledger
  import ClientCounterexamples
  import opened Setup
  import opened Library
  import opened Routing
  import opened HandleWitnesses
  import opened EndToEnd

  /** A run so far in which the link and the decoder are faithful and only OUT is ever selected. */
  ghost predicate FaithfulRun(c: System, states: seq<State>, acts: seq<Action>, wire: seq<Client.Msg>,
                              got: seq<seq<Byte>>) {
    && IsRun(c, states, acts) && Faithful(states, acts, |acts|, wire)
    && InputsSatisfy(acts, |acts|, v => v == OUT) && UnicastReads(acts, |acts|) == got
  }

  lemma {:induction false} ReadsPrefix(acts: seq<Action>, a: Action, n: nat)
    requires n <= |acts|
    ensures UnicastReads(acts + [a], n) == UnicastReads(acts, n)
  {
    if n > 0 { ReadsPrefix(acts, a, n - 1); }
  }

  /** One more action of the link, the decoder and the application that is as assumed. */
  lemma StaysFaithful(states: seq<State>, acts: seq<Action>, wire: seq<Client.Msg>, u: nat, act: Act, t: State)
    requires |states| == |acts| + 1 && Faithful(states, acts, |acts|, wire)
    requires u < |states[|acts|].gs| && DecodesFaithfully(states[|acts|].gs[u], act) && act != ReadError
    requires act.ReadDatagram? ==>
      var got := UnicastReads(acts, |acts|); |got| < |wire| && Carries(act.data, wire[|got|])
    ensures Faithful(states + [t], acts + [Do(u, act)], |acts| + 1, wire)
  {
    ReadsPrefix(acts, Do(u, act), |acts|);
    var acts', states' := acts + [Do(u, act)], states + [t];
    forall k | 0 <= k < |acts'| && acts'[k].Do? && acts'[k].i < |states'[k].gs|
      ensures DecodesFaithfully(states'[k].gs[acts'[k].i], acts'[k].act)
    {
      if k < |acts| { assert acts'[k] == acts[k] && states'[k] == states[k]; }
    }
  }

  lemma StaysSelected(acts: seq<Action>, u: nat, act: Act)
    requires InputsSatisfy(acts, |acts|, v => v == OUT) && !act.ReceiveSide?
    ensures InputsSatisfy(acts + [Do(u, act)], |acts| + 1, v => v == OUT)
  {
  }

  lemma ExtendBy(c: System, states: seq<State>, acts: seq<Action>, wire: seq<Client.Msg>, got: seq<seq<Byte>>,
                 u: nat, act: Act, t: State)
    requires FaithfulRun(c, states, acts, wire, got)
    requires u < |states[|acts|].gs| && Step(c, states[|acts|], Do(u, act)) == Some(t)
    requires DecodesFaithfully(states[|acts|].gs[u], act) && act != ReadError && !act.ReceiveSide?
    requires act.ReadDatagram? ==> |got| < |wire| && Carries(act.data, wire[|got|])
    ensures FaithfulRun(c, states + [t], acts + [Do(u, act)], wire, if act.ReadDatagram? then got + [act.data] else got)
  {
    RunExtends(c, states, acts, Do(u, act), t);
    StaysFaithful(states, acts, wire, u, act, t);
    StaysSelected(acts, u, act);
    ReadsPrefix(acts, Do(u, act), |acts|);
  }

  /** One more step of the unicast receiver. */
  lemma Extend(c: System, states: seq<State>, acts: seq<Action>, wire: seq<Client.Msg>, got: seq<seq<Byte>>,
               u: nat, act: Act)
    returns (states': seq<State>, acts': seq<Action>)
    requires FaithfulRun(c, states, acts, wire, got)
    requires var s := states[|acts|];
      && s.status == Running && u < |s.gs| && Move(c, s.gs[u], u, s, act).Does?
      && !UsesUnopened(c, s.gs[u], act, Move(c, s.gs[u], u, s, act).effect)
      && DecodesFaithfully(s.gs[u], act)
    requires act != ReadError && !act.ReceiveSide?
    requires act.ReadDatagram? ==> |got| < |wire| && Carries(act.data, wire[|got|])
    ensures FaithfulRun(c, states', acts', wire, if act.ReadDatagram? then got + [act.data] else got)
    ensures var s := states[|acts|]; states'[|acts'|] == Apply(s, u, Move(c, s.gs[u], u, s, act).effect)
  {
    var t := Apply(states[|acts|], u, Move(c, states[|acts|].gs[u], u, states[|acts|], act).effect);
    states', acts' := states + [t], acts + [Do(u, act)];
    ExtendBy(c, states, acts, wire, got, u, act, t);
  }

  /** A version 2 report for an address, as section 2 of RFC 2236 lays it out. */
  function ReportFor(group: Addr): seq<Byte>
    requires group.V4?
  {
    [REPORT_V2, 0, 0, 0, group.b0, group.b1, group.b2, group.b3]
  }

  /** The receiver has taken a new buffer. */
  lemma BufferTaken(c: System, wire: seq<Client.Msg>) returns (states: seq<State>, acts: seq<Action>, u: nat)
    requires c.conf.unicastProxyInToOut
    ensures FaithfulRun(c, states, acts, wire, [])
    ensures var s := states[|acts|];
      && s.status == Running && u < |s.gs| && s.route == map[OUT := IN, IN := OUT] && s.frames == []
      && s.gs[u] == Goroutine(Unicast, Reading(0), NoAddr, 0) && Contents(s.pool, 0) == Zeros()
    ensures u < |Workers(c.conf)| && Workers(c.conf)[u] == Unicast
  {
    u := Find(c, Unicast);
    states, acts := Extend(c, [Init(c)], [], wire, [], u, CheckContext);
    assert states[|acts|].gs[u] == Goroutine(Unicast, Entered, NoAddr, 0);
    states, acts := Extend(c, states, acts, wire, [], u, Begin(0));
  }

  /** The receiver has read the report into it. */
  lemma ReportRead(c: System, group: Addr) returns (states: seq<State>, acts: seq<Action>, u: nat)
    requires c.conf.unicastProxyInToOut && group.V4?
    ensures FaithfulRun(c, states, acts, [Client.Msg(Client.Reports, group)], [ReportFor(group)])
    ensures var s := states[|acts|];
      && s.status == Running && u < |s.gs| && s.route == map[OUT := IN, IN := OUT] && s.frames == []
      && s.gs[u] == Goroutine(Unicast, Got(0, FromDatagram(ReportFor(group))), NoAddr, 0)
      && FirstByte(s, 0) == REPORT_V2
    ensures u < |Workers(c.conf)| && Workers(c.conf)[u] == Unicast
  {
    var wire := [Client.Msg(Client.Reports, group)];
    states, acts, u := BufferTaken(c, wire);
    states, acts := Extend(c, states, acts, wire, [], u, ReadDatagram(ReportFor(group)));
    assert [] + [ReportFor(group)] == [ReportFor(group)];
    assert Overlay(Zeros(), ReportFor(group))[0] == REPORT_V2;
  }

  /** It has decoded the report. */
  lemma ReportDecoded(c: System, group: Addr) returns (states: seq<State>, acts: seq<Action>, u: nat)
    requires c.conf.unicastProxyInToOut && group.V4?
    ensures FaithfulRun(c, states, acts, [Client.Msg(Client.Reports, group)], [ReportFor(group)])
    ensures var s := states[|acts|];
      && s.status == Running && u < |s.gs| && s.route == map[OUT := IN, IN := OUT] && FirstByte(s, 0) == REPORT_V2
      && s.gs[u] == Goroutine(Unicast, Accepted(0, FromDatagram(ReportFor(group)), V1or2(group)), NoAddr, 0)
    ensures u < |Workers(c.conf)| && Workers(c.conf)[u] == Unicast
  {
    states, acts, u := ReportRead(c, group);
    states, acts := Extend(c, states, acts, [Client.Msg(Client.Reports, group)], [ReportFor(group)], u,
                           Decode(V1or2(group)));
  }

  /** It has looked up the route. */
  lemma ReportRouted(c: System, group: Addr) returns (states: seq<State>, acts: seq<Action>, u: nat)
    requires c.conf.unicastProxyInToOut && group.V4?
    ensures FaithfulRun(c, states, acts, [Client.Msg(Client.Reports, group)], [ReportFor(group)])
    ensures var s := states[|acts|];
      && s.status == Running && u < |s.gs| && FirstByte(s, 0) == REPORT_V2
      && s.gs[u] == Goroutine(Unicast, Routed(0, FromDatagram(ReportFor(group)), V1or2(group), OUT), NoAddr, 0)
    ensures u < |Workers(c.conf)| && Workers(c.conf)[u] == Unicast
  {
    var wire, got := [Client.Msg(Client.Reports, group)], [ReportFor(group)];
    states, acts, u := ReportDecoded(c, group);
    states, acts := Extend(c, states, acts, wire, got, u, LoadRoute);
  }

  /** The proxy sends the report on to its group. */
  lemma ReportForwarded(c: System, group: Addr) returns (states: seq<State>, acts: seq<Action>, u: nat)
    requires c.conf.unicastProxyInToOut && group.V4?
    ensures FaithfulRun(c, states, acts, [Client.Msg(Client.Reports, group)], [ReportFor(group)])
    ensures u < |Workers(c.conf)| && Workers(c.conf)[u] == Unicast && u < |states[|acts|].gs|
    ensures states[|acts|].gs[u].pc == Head
  {
    states, acts, u := ReportRouted(c, group);
    states, acts := Extend(c, states, acts, [Client.Msg(Client.Reports, group)], [ReportFor(group)], u, Forward);
  }

  /** A receiver in step with a wire of one message, and done with it, has let it be heard. */
  lemma FirstHeard(g: Goroutine, heard: seq<Frame>, m: Client.Msg)
    requires m.lane == Client.Reports && m.group.V4? && !Busy(g.pc) && InStep(g, [ReportFor(m.group)], heard, [m])
    ensures HeardGroups(heard, REPORT_V2) == [m.group]
  {
    HeardIsSent(heard, [ReportFor(m.group)], [m], Client.Reports);
    assert [m][..0] == [];
  }

  lemma OneHeard(s: Client.State, c: System, states: seq<State>, acts: seq<Action>, u: nat, group: Addr)
    requires s.wire == [Client.Msg(Client.Reports, group)]
    requires group.V4? && FaithfulRun(c, states, acts, s.wire, [ReportFor(group)])
    requires u < |Workers(c.conf)| && Workers(c.conf)[u].Unicast? && u < |states[|acts|].gs|
    requires !Busy(states[|acts|].gs[u].pc)
    ensures HeardGroups(UnicastFrames(states[|acts|].frames), REPORT_V2) == [group]
  {
    Translates(c, states, acts, |acts|, u, s.wire);
    FirstHeard(states[|acts|].gs[u], UnicastFrames(states[|acts|].frames), Client.Msg(Client.Reports, group));
  }

  /**
   For every group there are a drained client that has reported it, and a run of any unicast proxy that
   reads the report and forwards it, as the end-to-end result assumes them; the outside hears it once.
   */
  lemma ReportTranslated(c: System, item: Item)
    returns (s: Client.State, states: seq<State>, acts: seq<Action>, u: nat)
    requires c.conf.unicastProxyInToOut && item.group.V4?
    ensures Client.Reachable(s) && Ledger.Unsent(s.reports) == [] && Ledger.Unsent(s.leaves) == []
    ensures IsRun(c, states, acts) && Faithful(states, acts, |acts|, s.wire)
    ensures InputsSatisfy(acts, |acts|, v => v == OUT)
    ensures u < |Workers(c.conf)| && Workers(c.conf)[u].Unicast? && u < |states[|acts|].gs|
    ensures |UnicastReads(acts, |acts|)| == |s.wire| && !Busy(states[|acts|].gs[u].pc)
    ensures HeardGroups(UnicastFrames(states[|acts|].frames), REPORT_V2) == [item.group]
  {
    s := ClientCounterexamples.FirstReportSent(item);
    states, acts, u := ReportForwarded(c, item.group);
    OneHeard(s, c, states, acts, u, item.group);
  }
}
