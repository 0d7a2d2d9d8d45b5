/**
 The report and leave channels of the library with any number of producers: what was
 enqueued is what was sent, then what the worker has in hand, then what is queued.
 */
module LibraryLanes {
  import opened Base
  import opened Setup
  import opened Library
  import opened Buffers
  import opened Routing
  import opened WorkerLoops
  import AtMostOnce
  import Client = ClientProtocol
  import ClientInvariants
  import Ledger

  /** The list an action enqueues on lane `l`. */
  function ListFor(a: Action, l: Client.LaneId): Option<seq<Item>> {
    match a
    case EnqueueReport(items) => if l == Client.Reports then Some(items) else None
    case EnqueueLeave(items) => if l == Client.Departures then Some(items) else None
    case _ => None
  }

  function WithList(asked: seq<Addr>, list: Option<seq<Item>>): seq<Addr> {
    if list.Some? then asked + GroupSeq(list.value) else asked
  }

  /** The groups enqueued on a lane by the first `n` actions. */
  function Asked(acts: seq<Action>, n: nat, l: Client.LaneId): seq<Addr>
    requires n <= |acts|
  {
    if n == 0 then []
    else WithList(Asked(acts, n - 1, l), ListFor(acts[n - 1], l))
  }

  predicate SentBy(f: Frame, l: Client.LaneId) {
    f.Originated? && f.proc == ProcOf(l)
  }

  /** The groups a lane's worker has sent. */
  function Emitted(frames: seq<Frame>, l: Client.LaneId): seq<Addr> {
    if frames == [] then []
    else
      var f := frames[|frames| - 1];
      Emitted(frames[..|frames| - 1], l) + if SentBy(f, l) then [f.group] else []
  }

  lemma EmittedAppend(frames: seq<Frame>, f: Frame, l: Client.LaneId)
    ensures Emitted(frames + [f], l) == Emitted(frames, l) + if SentBy(f, l) then [f.group] else []
  {
    assert (frames + [f])[..|frames|] == frames;
  }

  ghost predicate InLane(asked: seq<Addr>, frames: seq<Frame>, pc: Pc, chans: Chans, l: Client.LaneId) {
    asked == Emitted(frames, l) + Ledger.Unsent(AsLane(pc, chans, l))
  }

  /** Goroutines other than the lane's worker leave its queue alone ... */
  lemma OthersLeaveLane(c: System, g: Goroutine, j: nat, s: State, a: Act, l: Client.LaneId, pc: Pc)
    requires Move(c, g, j, s, a).Does? && g.proc != ProcOf(l)
    ensures AsLane(pc, OnChans(s.chans, Move(c, g, j, s, a).effect.chan), l) == AsLane(pc, s.chans, l)
  {
  }

  /** ... and send nothing in its name. */
  lemma OthersSendElsewhere(c: System, g: Goroutine, j: nat, s: State, a: Act, l: Client.LaneId)
    requires Move(c, g, j, s, a).Does? && g.proc != ProcOf(l)
    ensures var e := Move(c, g, j, s, a).effect; e.frame.Some? ==> !SentBy(e.frame.value, l)
  {
  }

  /** The worker's own move sends the head of what its lane has still to send, or nothing. */
  lemma OwnMove(c: System, g: Goroutine, i: nat, s: State, act: Act, l: Client.LaneId)
    requires g.proc == ProcOf(l) && IsWorkerPc(g.pc) && Move(c, g, i, s, act).Does?
    ensures var e := Move(c, g, i, s, act).effect;
      && IsWorkerPc(e.g.pc) && (e.frame.Some? ==> e.frame.value.Originated?)
      && Ledger.Unsent(AsLane(g.pc, s.chans, l))
         == (if e.frame.Some? then [e.frame.value.group] else [])
            + Ledger.Unsent(AsLane(e.g.pc, OnChans(s.chans, e.chan), l))
  {
    WorkerActs(c, g, i, s, act, l);
    var a: Client.Action :| Client.IsWorker(a) && a.lane == l && ActOf(a) == act;
    WorkersAgree(c, g, i, s, a);
    ClientInvariants.MoveUnsent(AsLane(g.pc, s.chans, l), s.cancelled, a);
  }

  /** The worker's frames name it. */
  lemma OwnFrames(c: System, g: Goroutine, i: nat, s: State, act: Act, l: Client.LaneId)
    requires g.proc == ProcOf(l) && Move(c, g, i, s, act).Does?
    ensures var e := Move(c, g, i, s, act).effect; e.frame.Some? ==> SentBy(e.frame.value, l)
  {
  }

  lemma SendKeepsOrder(asked: seq<Addr>, frames: seq<Frame>, frame: Option<Frame>, pc: Pc, pc': Pc, chans: Chans,
                       chans': Chans, l: Client.LaneId)
    requires InLane(asked, frames, pc, chans, l) && (frame.Some? ==> SentBy(frame.value, l))
    requires Ledger.Unsent(AsLane(pc, chans, l))
          == (if frame.Some? then [frame.value.group] else []) + Ledger.Unsent(AsLane(pc', chans', l))
    ensures InLane(asked, if frame.Some? then frames + [frame.value] else frames, pc', chans', l)
  {
    if frame.Some? {
      EmittedAppend(frames, frame.value, l);
      Associative(Emitted(frames, l), [frame.value.group], Ledger.Unsent(AsLane(pc', chans', l)));
    } else {
      assert Ledger.Unsent(AsLane(pc, chans, l)) == Ledger.Unsent(AsLane(pc', chans', l));
    }
  }

  lemma EnqueueKeepsOrder(asked: seq<Addr>, frames: seq<Frame>, pc: Pc, chans: Chans, chans': Chans,
                          items: seq<Item>, l: Client.LaneId)
    requires InLane(asked, frames, pc, chans, l)
    requires AsLane(pc, chans', l) == AsLane(pc, chans, l).(queue := AsLane(pc, chans, l).queue + [items])
    ensures InLane(asked + GroupSeq(items), frames, pc, chans', l)
  {
    Ledger.UnsentAppend(AsLane(pc, chans, l), items, Emitted(frames, l));
  }

  lemma EnvLane(c: System, s: State, a: Action, t: State, pc: Pc, l: Client.LaneId)
    requires Step(c, s, a) == Some(t) && EffectOf(c, s, a).None?
    ensures t.frames == s.frames && t.gs == s.gs
    ensures ListFor(a, l).None? ==> AsLane(pc, t.chans, l) == AsLane(pc, s.chans, l)
    ensures ListFor(a, l).Some? ==>
      AsLane(pc, t.chans, l) == AsLane(pc, s.chans, l).(queue := AsLane(pc, s.chans, l).queue + [ListFor(a, l).value])
  {
  }

  lemma OwnEffect(c: System, s: State, i: nat, act: Act, l: Client.LaneId, asked: seq<Addr>)
    requires i < |s.gs| && Move(c, s.gs[i], i, s, act).Does?
    requires s.gs[i].proc == ProcOf(l) && IsWorkerPc(s.gs[i].pc) && InLane(asked, s.frames, s.gs[i].pc, s.chans, l)
    ensures var e := Move(c, s.gs[i], i, s, act).effect;
      && IsWorkerPc(e.g.pc)
      && InLane(asked, if e.frame.Some? then s.frames + [e.frame.value] else s.frames, e.g.pc,
                OnChans(s.chans, e.chan), l)
  {
    var e := Move(c, s.gs[i], i, s, act).effect;
    OwnMove(c, s.gs[i], i, s, act, l);
    OwnFrames(c, s.gs[i], i, s, act, l);
    SendKeepsOrder(asked, s.frames, e.frame, s.gs[i].pc, e.g.pc, s.chans, OnChans(s.chans, e.chan), l);
  }

  lemma SendElsewhere(asked: seq<Addr>, frames: seq<Frame>, frame: Option<Frame>, pc: Pc, chans: Chans,
                      l: Client.LaneId)
    requires InLane(asked, frames, pc, chans, l) && (frame.Some? ==> !SentBy(frame.value, l))
    ensures InLane(asked, if frame.Some? then frames + [frame.value] else frames, pc, chans, l)
  {
    if frame.Some? {
      EmittedAppend(frames, frame.value, l);
      assert Emitted(frames, l) + [] == Emitted(frames, l);
    }
  }

  lemma NotTwice(c: System, gs: seq<Goroutine>, i: nat, j: nat)
    requires ProcsInv(c, gs) && i < |gs| && j < |gs| && gs[i].proc == gs[j].proc
    ensures i == j
  {
    WorkersDistinct(c.conf);
    AtMostOnce.SameIndex(Workers(c.conf), i, j);
  }

  lemma LaneEffect(c: System, s: State, a: Action, i: nat, l: Client.LaneId, asked: seq<Addr>)
    requires EffectOf(c, s, a).Some? && ProcsInv(c, s.gs) && i < |s.gs|
    requires s.gs[i].proc == ProcOf(l) && IsWorkerPc(s.gs[i].pc) && InLane(asked, s.frames, s.gs[i].pc, s.chans, l)
    ensures var t := Apply(s, a.i, EffectOf(c, s, a).value);
      IsWorkerPc(t.gs[i].pc) && InLane(asked, t.frames, t.gs[i].pc, t.chans, l)
  {
    if a.i == i {
      OwnEffect(c, s, i, a.act, l, asked);
    } else {
      if s.gs[a.i].proc == ProcOf(l) { NotTwice(c, s.gs, i, a.i); }
      OthersLeaveLane(c, s.gs[a.i], a.i, s, a.act, l, s.gs[i].pc);
      OthersSendElsewhere(c, s.gs[a.i], a.i, s, a.act, l);
      SendElsewhere(asked, s.frames, EffectOf(c, s, a).value.frame, s.gs[i].pc, s.chans, l);
    }
  }

  lemma EnvKeepsOrder(c: System, s: State, a: Action, t: State, pc: Pc, l: Client.LaneId, asked: seq<Addr>)
    requires Step(c, s, a) == Some(t) && EffectOf(c, s, a).None? && InLane(asked, s.frames, pc, s.chans, l)
    ensures t.gs == s.gs && InLane(WithList(asked, ListFor(a, l)), t.frames, pc, t.chans, l)
  {
    EnvLane(c, s, a, t, pc, l);
    if ListFor(a, l).Some? {
      EnqueueKeepsOrder(asked, s.frames, pc, s.chans, t.chans, ListFor(a, l).value, l);
    }
  }

  lemma ActsEnqueueNothing(c: System, s: State, a: Action, t: State, l: Client.LaneId)
    requires Step(c, s, a) == Some(t) && EffectOf(c, s, a).Some?
    ensures t == Apply(s, a.i, EffectOf(c, s, a).value) && ListFor(a, l) == None
  {
  }

  lemma LaneStep(c: System, s: State, a: Action, t: State, i: nat, l: Client.LaneId, asked: seq<Addr>)
    requires Step(c, s, a) == Some(t) && ProcsInv(c, s.gs) && i < |s.gs|
    requires s.gs[i].proc == ProcOf(l) && IsWorkerPc(s.gs[i].pc) && InLane(asked, s.frames, s.gs[i].pc, s.chans, l)
    ensures i < |t.gs| && IsWorkerPc(t.gs[i].pc)
    ensures InLane(WithList(asked, ListFor(a, l)), t.frames, t.gs[i].pc, t.chans, l)
  {
    if EffectOf(c, s, a).None? {
      EnvKeepsOrder(c, s, a, t, s.gs[i].pc, l, asked);
    } else {
      ActsEnqueueNothing(c, s, a, t, l);
      LaneEffect(c, s, a, i, l, asked);
    }
  }

  /** The lane's worker is goroutine `i`, and everything asked of it is sent, in hand or queued, in order. */
  ghost predicate LaneKept(s: State, i: nat, l: Client.LaneId, asked: seq<Addr>) {
    && i < |s.gs| && s.gs[i].proc == ProcOf(l) && IsWorkerPc(s.gs[i].pc)
    && InLane(asked, s.frames, s.gs[i].pc, s.chans, l)
  }

  lemma LaneStart(c: System, i: nat, l: Client.LaneId)
    requires i < |Workers(c.conf)| && Workers(c.conf)[i] == ProcOf(l)
    ensures LaneKept(Init(c), i, l, [])
  {
  }

  lemma LaneNext(c: System, states: seq<State>, acts: seq<Action>, n: nat, i: nat, l: Client.LaneId)
    requires IsRun(c, states, acts) && 0 < n <= |acts| && i < |Workers(c.conf)| && Workers(c.conf)[i] == ProcOf(l)
    requires LaneKept(states[n - 1], i, l, Asked(acts, n - 1, l))
    ensures LaneKept(states[n], i, l, Asked(acts, n, l))
  {
    ProcsAlongRun(c, states, acts, n - 1);
    ProcsAlongRun(c, states, acts, n);
    assert Step(c, states[n - 1], acts[n - 1]) == Some(states[n]);
    LaneStep(c, states[n - 1], acts[n - 1], states[n], i, l, Asked(acts, n - 1, l));
  }

  function QueueOf(chans: Chans, l: Client.LaneId): seq<seq<Item>> {
    if l == Client.Reports then chans.report else chans.leave
  }

  lemma QueuesShrink(chans: Chans, op: ChanOp, l: Client.LaneId)
    ensures |QueueOf(OnChans(chans, op), l)| <= |QueueOf(chans, l)|
  {
  }

  lemma EnvQueue(c: System, s: State, a: Action, t: State, l: Client.LaneId)
    requires Step(c, s, a) == Some(t) && EffectOf(c, s, a).None?
    ensures |QueueOf(t.chans, l)| <= |QueueOf(s.chans, l)| || |QueueOf(t.chans, l)| <= c.conf.Slots()
  {
  }

  /** Only an enqueue lengthens a queue, and only while it is within its capacity. */
  lemma QueueStep(c: System, s: State, a: Action, t: State, l: Client.LaneId)
    requires Step(c, s, a) == Some(t)
    ensures |QueueOf(t.chans, l)| <= |QueueOf(s.chans, l)| || |QueueOf(t.chans, l)| <= c.conf.Slots()
  {
    if EffectOf(c, s, a).None? {
      EnvQueue(c, s, a, t, l);
    } else {
      StepShape(c, s, a, t);
      QueuesShrink(s.chans, EffectOf(c, s, a).value.chan, l);
    }
  }

  /** A queue never holds more than its channel can. */
  lemma {:induction false} QueueBound(c: System, states: seq<State>, acts: seq<Action>, n: nat, l: Client.LaneId)
    requires IsRun(c, states, acts) && n <= |acts|
    ensures |QueueOf(states[n].chans, l)| <= c.conf.Slots()
  {
    if n > 0 {
      QueueBound(c, states, acts, n - 1, l);
      assert Step(c, states[n - 1], acts[n - 1]) == Some(states[n]);
      QueueStep(c, states[n - 1], acts[n - 1], states[n], l);
    }
  }

  lemma {:induction false} LaneAlongRun(c: System, states: seq<State>, acts: seq<Action>, n: nat, i: nat,
                                        l: Client.LaneId)
    requires IsRun(c, states, acts) && n <= |acts| && i < |Workers(c.conf)| && Workers(c.conf)[i] == ProcOf(l)
    ensures LaneKept(states[n], i, l, Asked(acts, n, l))
  {
    if n == 0 {
      LaneStart(c, i, l);
    } else {
      LaneAlongRun(c, states, acts, n - 1, i, l);
      LaneNext(c, states, acts, n, i, l);
    }
  }

  /**
   In every run each channel is first-in first-out whoever enqueues on it: the groups sent by its
   worker, then those of the list in its hands, then those queued, are the groups enqueued; and the
   queue is within the channel's capacity.
   */
  lemma LibraryLaneConservation(c: System, states: seq<State>, acts: seq<Action>, n: nat, i: nat, l: Client.LaneId)
    requires IsRun(c, states, acts) && n <= |acts| && i < |Workers(c.conf)| && Workers(c.conf)[i] == ProcOf(l)
    ensures LaneKept(states[n], i, l, Asked(acts, n, l))
    ensures |QueueOf(states[n].chans, l)| <= if c.conf.channelSize == 0 then 1 else c.conf.channelSize
  {
    QueueBound(c, states, acts, n, l);
    LaneAlongRun(c, states, acts, n, i, l);
  }
}
