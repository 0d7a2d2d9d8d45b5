/**
 The two channels on which receivers tell the application about queries and about reports from
 the network: what was sent is what was taken, then what is queued.
 */
module Inbound {
  import opened Base
  import opened Setup
  import opened Library
  import opened Buffers
  import opened MulticastLaws

  // ----- What receivers send, from the packets they accept -----

  /** The news of the packet that a step accepts: its type is the first byte of the buffer, its layer the decoder's. */
  function NewsAt(c: System, s: State, a: Action): seq<ChanOp> {
    if a.Do? && a.act.Filter? && AcceptsAt(c, s, a, a.i) && s.gs[a.i].pc.Checked?
    then News(c.conf, FirstByte(s, s.gs[a.i].pc.buf), a.act.layer) else []
  }

  /** Whether the non-blocking send of that step went through. */
  predicate Through(a: Action) {
    a.Do? && a.act.Filter? && a.act.sent
  }

  function ToldAt(c: System, s: State, a: Action): seq<ChanOp> {
    if Through(a) then NewsAt(c, s, a) else []
  }

  /** Those of the sends that are lists of reports. */
  function Lists(ops: seq<ChanOp>): seq<seq<Item>> {
    if |ops| == 1 && ops[0].PushFromNet? then [ops[0].items] else []
  }

  /** The number of those that are notices of a query. */
  function Notices(ops: seq<ChanOp>): nat {
    if ops == [PushQuery] then 1 else 0
  }

  /** The lists told in the first `n` steps, in order. */
  function Told(c: System, states: seq<State>, acts: seq<Action>, n: nat): seq<seq<Item>>
    requires n <= |acts| && |states| == |acts| + 1
  {
    if n == 0 then []
    else Told(c, states, acts, n - 1) + Lists(ToldAt(c, states[n - 1], acts[n - 1]))
  }

  function Noticed(c: System, states: seq<State>, acts: seq<Action>, n: nat): nat
    requires n <= |acts| && |states| == |acts| + 1
  {
    if n == 0 then 0
    else Noticed(c, states, acts, n - 1) + Notices(ToldAt(c, states[n - 1], acts[n - 1]))
  }

  // ----- What the application, or the library's own readers, take -----

  /** The goroutine, if any, that receives from a channel by this step. */
  predicate Reads(s: State, a: Action, p: Proc) {
    a.Do? && a.act.ReceiveList? && a.i < |s.gs| && s.gs[a.i].proc == p
  }

  /** The list at the head of the channel, when the step takes it. */
  function TakenAt(s: State, a: Action): seq<seq<Item>> {
    if (a.TakeFromNet? || Reads(s, a, ReportsReader)) && s.chans.fromNet != [] then [s.chans.fromNet[0]] else []
  }

  function Taken(states: seq<State>, acts: seq<Action>, n: nat): seq<seq<Item>>
    requires n <= |acts| && |states| == |acts| + 1
  {
    if n == 0 then [] else Taken(states, acts, n - 1) + TakenAt(states[n - 1], acts[n - 1])
  }

  function NoticesTaken(states: seq<State>, acts: seq<Action>, n: nat): nat
    requires n <= |acts| && |states| == |acts| + 1
  {
    if n == 0 then 0
    else
      NoticesTaken(states, acts, n - 1)
      + if acts[n - 1].TakeQuery? || Reads(states[n - 1], acts[n - 1], ConnectQuery) then 1 else 0
  }

  // ----- One step -----

  /** What a step does to the two channels. */
  ghost predicate Flows(chans: Chans, chans': Chans, told: seq<ChanOp>, taken: seq<seq<Item>>, notices: nat,
                        slots: nat)
  {
    && chans.fromNet + Lists(told) == taken + chans'.fromNet
    && chans.query + Notices(told) == notices + chans'.query
    && (|chans'.fromNet| <= |chans.fromNet| || |chans'.fromNet| <= slots)
    && (chans'.query <= chans.query || chans'.query <= slots)
  }

  /** A receiver sends what the packet it accepts has for the application, and only into a channel with room. */
  lemma MulticastTells(c: System, s: State, a: Action)
    requires EffectOf(c, s, a).Some? && s.gs[a.i].proc.Multicast?
    ensures var op := EffectOf(c, s, a).value.chan;
      && ToldAt(c, s, a) == (if op == NoOp then [] else [op])
      && (op == NoOp || op == PushQuery || op.PushFromNet?)
      && (op == PushQuery ==> s.chans.query < c.conf.Slots())
      && (op.PushFromNet? ==> |s.chans.fromNet| < c.conf.Slots())
  {
  }

  lemma MulticastFlows(c: System, s: State, a: Action)
    requires EffectOf(c, s, a).Some? && s.gs[a.i].proc.Multicast?
    ensures Flows(s.chans, OnChans(s.chans, EffectOf(c, s, a).value.chan), ToldAt(c, s, a), [], 0, c.conf.Slots())
  {
    MulticastTells(c, s, a);
    var fromNet := s.chans.fromNet;
    assert fromNet + [] == fromNet == [] + fromNet;
  }

  /** Only two workers touch these channels. */
  lemma BystanderFlows(c: System, s: State, a: Action)
    requires EffectOf(c, s, a).Some?
    requires var p := s.gs[a.i].proc; !p.Multicast? && !p.ConnectQuery? && !p.ReportsReader?
    ensures ToldAt(c, s, a) == [] && TakenAt(s, a) == [] && !Reads(s, a, ConnectQuery)
    ensures var chans := OnChans(s.chans, EffectOf(c, s, a).value.chan);
      chans.fromNet == s.chans.fromNet && chans.query == s.chans.query
  {
  }

  lemma ReaderFlows(c: System, s: State, a: Action)
    requires EffectOf(c, s, a).Some? && (s.gs[a.i].proc.ConnectQuery? || s.gs[a.i].proc.ReportsReader?)
    ensures ToldAt(c, s, a) == []
    ensures Flows(s.chans, OnChans(s.chans, EffectOf(c, s, a).value.chan), [], TakenAt(s, a),
                  if Reads(s, a, ConnectQuery) then 1 else 0, c.conf.Slots())
  {
    var fromNet := s.chans.fromNet;
    assert fromNet + [] == fromNet == [] + fromNet;
    assert fromNet != [] ==> fromNet == [fromNet[0]] + fromNet[1..];
  }

  lemma OtherFlows(c: System, s: State, a: Action)
    requires EffectOf(c, s, a).Some? && !s.gs[a.i].proc.Multicast?
    ensures ToldAt(c, s, a) == []
    ensures Flows(s.chans, OnChans(s.chans, EffectOf(c, s, a).value.chan), [], TakenAt(s, a),
                  if Reads(s, a, ConnectQuery) then 1 else 0, c.conf.Slots())
  {
    if s.gs[a.i].proc.ConnectQuery? || s.gs[a.i].proc.ReportsReader? {
      ReaderFlows(c, s, a);
    } else {
      BystanderFlows(c, s, a);
      assert s.chans.fromNet + [] == s.chans.fromNet == [] + s.chans.fromNet;
    }
  }

  lemma EnvFlows(c: System, s: State, a: Action, t: State)
    requires Step(c, s, a) == Some(t) && !a.Do?
    ensures Flows(s.chans, t.chans, [], TakenAt(s, a), if a.TakeQuery? then 1 else 0, c.conf.Slots())
  {
    var fromNet := s.chans.fromNet;
    assert fromNet + [] == fromNet == [] + fromNet;
    assert fromNet != [] ==> fromNet == [fromNet[0]] + fromNet[1..];
  }

  lemma ReadTakesEffect(c: System, s: State, a: Action, t: State)
    requires Step(c, s, a) == Some(t) && a.Do? && a.act.ReceiveList?
    ensures EffectOf(c, s, a).Some?
  {
  }

  lemma FatalKeepsChannels(c: System, s: State, a: Action, t: State)
    requires Step(c, s, a) == Some(t) && a.Do? && EffectOf(c, s, a).None?
    ensures t.chans == s.chans
  {
  }

  lemma FlowStep(c: System, s: State, a: Action, t: State)
    requires Step(c, s, a) == Some(t)
    ensures Flows(s.chans, t.chans, ToldAt(c, s, a), TakenAt(s, a),
                  if a.TakeQuery? || Reads(s, a, ConnectQuery) then 1 else 0, c.conf.Slots())
  {
    if !a.Do? {
      EnvFlows(c, s, a, t);
    } else if EffectOf(c, s, a).None? {
      if a.act.ReceiveList? { ReadTakesEffect(c, s, a, t); }
      FatalKeepsChannels(c, s, a, t);
      assert s.chans.fromNet + [] == s.chans.fromNet == [] + s.chans.fromNet;
    } else {
      StepShape(c, s, a, t);
      if s.gs[a.i].proc.Multicast? { MulticastFlows(c, s, a); } else { OtherFlows(c, s, a); }
    }
  }

  // ----- Along a run -----

  lemma FlowNext(c: System, states: seq<State>, acts: seq<Action>, n: nat)
    requires IsRun(c, states, acts) && 0 < n <= |acts|
    ensures var s, a := states[n - 1], acts[n - 1];
      Flows(s.chans, states[n].chans, ToldAt(c, s, a), TakenAt(s, a),
            if a.TakeQuery? || Reads(s, a, ConnectQuery) then 1 else 0, c.conf.Slots())
  {
    assert Step(c, states[n - 1], acts[n - 1]) == Some(states[n]);
    FlowStep(c, states[n - 1], acts[n - 1], states[n]);
  }

  /** What was told is what was taken and then what is queued, here before and after one step. */
  lemma OrderKept(told: seq<seq<Item>>, taken: seq<seq<Item>>, queue: seq<seq<Item>>, more: seq<seq<Item>>,
                  less: seq<seq<Item>>, queue': seq<seq<Item>>)
    requires told == taken + queue && queue + more == less + queue'
    ensures told + more == (taken + less) + queue'
  {
    Associative(taken, queue, more);
    Associative(taken, less, queue');
  }

  /** What was told is what was taken and then what is queued, within bounds. */
  ghost predicate Conserved(c: System, states: seq<State>, acts: seq<Action>, n: nat)
    requires n <= |acts| && |states| == |acts| + 1
  {
    && Told(c, states, acts, n) == Taken(states, acts, n) + states[n].chans.fromNet
    && Noticed(c, states, acts, n) == NoticesTaken(states, acts, n) + states[n].chans.query
    && |states[n].chans.fromNet| <= c.conf.Slots() && states[n].chans.query <= c.conf.Slots()
  }

  /** One step, given how it makes the channels flow. */
  lemma ConservedAfter(c: System, states: seq<State>, acts: seq<Action>, n: nat)
    requires 0 < n <= |acts| && |states| == |acts| + 1 && Conserved(c, states, acts, n - 1)
    requires var s, a := states[n - 1], acts[n - 1];
      Flows(s.chans, states[n].chans, ToldAt(c, s, a), TakenAt(s, a),
            if a.TakeQuery? || Reads(s, a, ConnectQuery) then 1 else 0, c.conf.Slots())
    ensures Conserved(c, states, acts, n)
  {
    OrderKept(Told(c, states, acts, n - 1), Taken(states, acts, n - 1), states[n - 1].chans.fromNet,
              Lists(ToldAt(c, states[n - 1], acts[n - 1])), TakenAt(states[n - 1], acts[n - 1]),
              states[n].chans.fromNet);
  }

  lemma ConservedNext(c: System, states: seq<State>, acts: seq<Action>, n: nat)
    requires IsRun(c, states, acts) && 0 < n <= |acts| && Conserved(c, states, acts, n - 1)
    ensures Conserved(c, states, acts, n)
  {
    FlowNext(c, states, acts, n);
    ConservedAfter(c, states, acts, n);
  }

  lemma {:induction false} ConservedAlongRun(c: System, states: seq<State>, acts: seq<Action>, n: nat)
    requires IsRun(c, states, acts) && n <= |acts|
    ensures Conserved(c, states, acts, n)
  {
    if n > 0 {
      ConservedAlongRun(c, states, acts, n - 1);
      ConservedNext(c, states, acts, n);
    }
  }

  /**
   In every run, for each of the two channels to the application: what the accepted packets told is, in order, what was
   taken and then what is queued, and the queue is within the channel's capacity.
   */
  lemma InboundConservation(c: System, states: seq<State>, acts: seq<Action>, n: nat)
    requires IsRun(c, states, acts) && n <= |acts|
    ensures Told(c, states, acts, n) == Taken(states, acts, n) + states[n].chans.fromNet
    ensures Noticed(c, states, acts, n) == NoticesTaken(states, acts, n) + states[n].chans.query
    ensures var capacity := if c.conf.channelSize == 0 then 1 else c.conf.channelSize;
      |states[n].chans.fromNet| <= capacity && states[n].chans.query <= capacity
  {
    ConservedAlongRun(c, states, acts, n);
  }

  /** The news of an accepted packet is dropped only when its channel is full. */
  lemma DroppedOnlyWhenFull(c: System, s: State, a: Action)
    requires NewsAt(c, s, a) != [] && !Through(a)
    ensures if NewsAt(c, s, a) == [PushQuery] then s.chans.query >= c.conf.channelSize
            else |s.chans.fromNet| >= c.conf.channelSize
  {
  }

  /** With room in the buffers, the step that filters a packet with news can send it, and cannot drop it. */
  lemma SentWhenRoom(c: System, s: State, i: nat, layer: Layer)
    requires s.status == Running && i < |s.gs| && s.gs[i].proc.Multicast? && s.gs[i].pc.Checked?
    requires s.gs[i].pc.from.FromPacket? && s.gs[i].pc.from.pid < |s.packets|
    requires s.chans.query < c.conf.channelSize && |s.chans.fromNet| < c.conf.channelSize
    requires Qualifies(c, s.gs[i].proc.side, s.gs[i].proc.group, s.packets[s.gs[i].pc.from.pid],
                       FirstByte(s, s.gs[i].pc.buf), layer)
    requires s.gs[i].proc.group in MULTICAST_GROUPS
    requires News(c.conf, FirstByte(s, s.gs[i].pc.buf), layer) != []
    ensures Step(c, s, Do(i, Filter(layer, true))).Some? && Step(c, s, Do(i, Filter(layer, false))) == None
    ensures ToldAt(c, s, Do(i, Filter(layer, true))) == News(c.conf, FirstByte(s, s.gs[i].pc.buf), layer)
  {
  }
}
