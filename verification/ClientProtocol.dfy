/**
 The client membership protocol as a transition system.

 One supervisor, any number of gratuitous-reporter goroutines guarded by a one-place
 token channel, two bounded channels (reports and leaves) and one worker draining each
 of them to the wire. Every step is one atomic action of one goroutine or of the
 environment; all choices, including the scheduler's, are in the action.
 */
module ClientProtocol {
  import opened Base
  import opened LeaveDiff

  const CHANNEL_SIZE: nat := 10

  type Key = nat

  /** An entry of localStreams, stamped with the moment its key was (re)inserted. */
  datatype Stream = Stream(item: Item, born: nat)

  /** A walk over localStreams in progress: one item is collected for each key visited. */
  datatype Scan = Scan(start: nat, visited: set<Key>, found: seq<Item>)

  datatype ReporterPc =
    | Select
    | Scanning(scan: Scan)
    | Leaving(groups: seq<Item>)
    | LeaveBlocked(groups: seq<Item>)
    | Reporting(groups: seq<Item>)
    | ReportBlocked(groups: seq<Item>)
    | Releasing
    | Gone

  /** `prev` is previousGroups; `ticks` and `left` record the lists built and the leaves enqueued. */
  datatype Reporter = Reporter(pc: ReporterPc, prev: seq<Item>, ticks: seq<seq<Item>>, left: seq<seq<Item>>)

  datatype SupervisorPc =
    | Idle
    | Notified
    | Answering(scan: Scan)
    | Replying(groups: seq<Item>)
    | ReplyBlocked(groups: seq<Item>)
    | Finished

  datatype WorkerPc = Waiting | Sending(rest: seq<Item>) | Exited

  /** A bounded channel of item lists with the worker that drains it. */
  datatype Lane = Lane(queue: seq<seq<Item>>, worker: WorkerPc)

  datatype LaneId = Reports | Departures

  datatype Event =
    | TickLeave(items: seq<Item>)
    | TickReport(items: seq<Item>)
    | QueryReply(items: seq<Item>)

  /** A packet sent by a worker. */
  datatype Msg = Msg(lane: LaneId, group: Addr)

  datatype State = State(
    streams: map<Key, Stream>,
    clock: nat,
    sup: SupervisorPc,
    token: nat,
    reporters: map<nat, Reporter>,
    reports: Lane,
    leaves: Lane,
    events: seq<Event>,
    wire: seq<Msg>,
    cancelled: bool,
    halted: bool)

  const INIT := State(map[], 0, Idle, 0, map[], Lane([], Waiting), Lane([], Waiting), [], [], false, false)

  datatype Action =
    // environment
    | Store(key: Key, item: Item)
    | Delete(key: Key)
    | Cancel
    // supervisor
    | Notify
    | TryStart(id: nat)
    | Query
    | AnswerVisit(key: Key)
    | AnswerEnd
    | TryReply
    | ReplyUnblocked
    | FromNetwork
    | Finish
    // gratuitous reporters
    | Tick(id: nat)
    | Visit(id: nat, key: Key)
    | ScanEnd(id: nat)
    | TryLeave(id: nat)
    | LeaveUnblocked(id: nat)
    | TryReport(id: nat)
    | ReportUnblocked(id: nat)
    | SeeDone(id: nat)
    | Release(id: nat)
    // the two workers
    | Receive(lane: LaneId)
    | Send(lane: LaneId)
    | Next(lane: LaneId)
    | Exit(lane: LaneId)

  // ----- Parts of a step -----

  function LaneOf(s: State, l: LaneId): Lane {
    if l == Reports then s.reports else s.leaves
  }

  function SetLane(s: State, l: LaneId, lane: Lane): State {
    if l == Reports then s.(reports := lane) else s.(leaves := lane)
  }

  predicate HasRoom(lane: Lane) {
    |lane.queue| < CHANNEL_SIZE
  }

  function LaneFor(e: Event): LaneId {
    if e.TickLeave? then Departures else Reports
  }

  /** The list of `e` enters its channel. */
  function Post(s: State, e: Event): State {
    var lane := LaneOf(s, LaneFor(e));
    SetLane(s, LaneFor(e), lane.(queue := lane.queue + [e.items])).(events := s.events + [e])
  }

  function PostIf(s: State, post: Option<Event>): State {
    if post.Some? then Post(s, post.value) else s
  }

  /** Every key that was there before the walk began and still is has been visited. */
  predicate ScanComplete(scan: Scan, streams: map<Key, Stream>) {
    forall k <- streams :: streams[k].born < scan.start ==> k in scan.visited
  }

  function Visited(scan: Scan, k: Key, item: Item): Scan {
    Scan(scan.start, scan.visited + {k}, scan.found + [item])
  }

  // ----- The step of each goroutine: None when the action is not enabled -----

  function EnvStep(s: State, a: Action): Option<State>
    requires a.Store? || a.Delete? || a.Cancel?
  {
    match a
    case Store(k, item) =>
      var born := if k in s.streams then s.streams[k].born else s.clock;
      Some(s.(streams := s.streams[k := Stream(item, born)], clock := s.clock + 1))
    case Delete(k) => Some(s.(streams := s.streams - {k}))
    case Cancel => Some(s.(cancelled := true))
  }

  predicate IsSupervisor(a: Action) {
    || a.Notify? || a.TryStart? || a.Query? || a.AnswerVisit? || a.AnswerEnd?
    || a.TryReply? || a.ReplyUnblocked? || a.FromNetwork? || a.Finish?
  }

  /** What the supervisor does: its next pc, an event for a channel, a reporter to start. */
  datatype SupervisorMove = SupervisorMove(pc: SupervisorPc, post: Option<Event>, start: bool)

  function MoveSupervisor(pc: SupervisorPc, s: State, a: Action): Option<SupervisorMove>
    requires IsSupervisor(a)
  {
    match a
    case Notify => if pc == Idle then Some(SupervisorMove(Notified, None, false)) else None
    case TryStart(id) =>
      if pc != Notified || id in s.reporters then None else Some(SupervisorMove(Idle, None, s.token < 1))
    case Query => if pc == Idle then Some(SupervisorMove(Answering(Scan(s.clock, {}, [])), None, false)) else None
    case AnswerVisit(k) =>
      if pc.Answering? && k in s.streams && k !in pc.scan.visited
      then Some(SupervisorMove(Answering(Visited(pc.scan, k, s.streams[k].item)), None, false)) else None
    case AnswerEnd =>
      if pc.Answering? && ScanComplete(pc.scan, s.streams)
      then Some(SupervisorMove(if |pc.scan.found| > 0 then Replying(pc.scan.found) else Idle, None, false)) else None
    case TryReply =>
      if !pc.Replying? then None
      else if HasRoom(s.reports) then Some(SupervisorMove(Idle, Some(QueryReply(pc.groups)), false))
      else Some(SupervisorMove(ReplyBlocked(pc.groups), None, false))
    case ReplyUnblocked =>
      if pc.ReplyBlocked? && HasRoom(s.reports)
      then Some(SupervisorMove(Idle, Some(QueryReply(pc.groups)), false)) else None
    case FromNetwork => if pc == Idle then Some(SupervisorMove(Idle, None, false)) else None
    case Finish => if pc == Idle && s.cancelled then Some(SupervisorMove(Finished, None, false)) else None
  }

  function SupervisorStep(s: State, a: Action): Option<State>
    requires IsSupervisor(a)
  {
    match MoveSupervisor(s.sup, s, a)
    case None => None
    case Some(m) =>
      var s' := PostIf(s, m.post).(sup := m.pc);
      Some(if m.start && a.TryStart?
           then s'.(reporters := s.reporters[a.id := Reporter(Select, [], [], [])], token := s.token + 1)
           else s')
  }

  predicate IsReporter(a: Action) {
    || a.Tick? || a.Visit? || a.ScanEnd? || a.TryLeave? || a.LeaveUnblocked?
    || a.TryReport? || a.ReportUnblocked? || a.SeeDone? || a.Release?
  }

  /** What a reporter does: its next state and an event for a channel. */
  datatype ReporterMove = ReporterMove(r: Reporter, post: Option<Event>)

  /** findAndLeaveGroups has sent its leaves: report the groups, or stop when there are none. */
  function AfterLeaves(r: Reporter, groups: seq<Item>): ReporterMove {
    var leaves := Leaves(groups, r.prev);
    ReporterMove(r.(pc := if |groups| > 0 then Reporting(groups) else Releasing, left := r.left + [leaves]),
                 Some(TickLeave(leaves)))
  }

  function AfterReport(r: Reporter, groups: seq<Item>): ReporterMove {
    ReporterMove(r.(pc := Select, prev := groups), Some(TickReport(groups)))
  }

  function MoveReporter(r: Reporter, s: State, a: Action): Option<ReporterMove>
    requires IsReporter(a)
  {
    match a
    case Tick(id) =>
      if r.pc.Select? then Some(ReporterMove(r.(pc := Scanning(Scan(s.clock, {}, []))), None)) else None
    case Visit(id, k) =>
      if r.pc.Scanning? && k in s.streams && k !in r.pc.scan.visited
      then Some(ReporterMove(r.(pc := Scanning(Visited(r.pc.scan, k, s.streams[k].item))), None)) else None
    case ScanEnd(id) =>
      if r.pc.Scanning? && ScanComplete(r.pc.scan, s.streams)
      then Some(ReporterMove(r.(pc := Leaving(r.pc.scan.found), ticks := r.ticks + [r.pc.scan.found]), None)) else None
    case TryLeave(id) =>
      if !r.pc.Leaving? then None
      else if HasRoom(s.leaves) then Some(AfterLeaves(r, r.pc.groups))
      else Some(ReporterMove(r.(pc := LeaveBlocked(r.pc.groups)), None))
    case LeaveUnblocked(id) =>
      if r.pc.LeaveBlocked? && HasRoom(s.leaves) then Some(AfterLeaves(r, r.pc.groups)) else None
    case TryReport(id) =>
      if !r.pc.Reporting? then None
      else if HasRoom(s.reports) then Some(AfterReport(r, r.pc.groups))
      else Some(ReporterMove(r.(pc := ReportBlocked(r.pc.groups)), None))
    case ReportUnblocked(id) =>
      if r.pc.ReportBlocked? && HasRoom(s.reports) then Some(AfterReport(r, r.pc.groups)) else None
    case SeeDone(id) =>
      if r.pc.Select? && s.cancelled then Some(ReporterMove(r.(pc := Releasing), None)) else None
    case Release(id) =>
      if r.pc.Releasing? && s.token > 0 then Some(ReporterMove(r.(pc := Gone), None)) else None
  }

  function ReporterStep(s: State, a: Action): Option<State>
    requires IsReporter(a)
  {
    if a.id !in s.reporters then None
    else
      match MoveReporter(s.reporters[a.id], s, a)
      case None => None
      case Some(m) =>
        Some(PostIf(s, m.post).(reporters := s.reporters[a.id := m.r],
                                token := if a.Release? && s.token > 0 then s.token - 1 else s.token))
  }

  predicate IsWorker(a: Action) {
    a.Receive? || a.Send? || a.Next? || a.Exit?
  }

  /** What a worker does to its lane, and the group of the packet it sends. */
  datatype WorkerMove = WorkerMove(lane: Lane, sent: Option<Addr>) | Fatal

  /** A worker takes a list, sends its items one by one, and returns to its select. */
  function MoveWorker(lane: Lane, cancelled: bool, a: Action): Option<WorkerMove>
    requires IsWorker(a)
  {
    var w := lane.worker;
    match a
    case Receive(_) =>
      if w.Waiting? && lane.queue != []
      then Some(WorkerMove(Lane(lane.queue[1..], Sending(lane.queue[0])), None)) else None
    case Send(_) =>
      if !(w.Sending? && w.rest != []) then None
      else if w.rest[0].group == NoAddr then Some(Fatal)
      else Some(WorkerMove(lane.(worker := Sending(w.rest[1..])), Some(w.rest[0].group)))
    case Next(_) => if w == Sending([]) then Some(WorkerMove(lane.(worker := Waiting), None)) else None
    case Exit(_) => if w.Waiting? && cancelled then Some(WorkerMove(lane.(worker := Exited), None)) else None
  }

  function WorkerStep(s: State, a: Action): Option<State>
    requires IsWorker(a)
  {
    match MoveWorker(LaneOf(s, a.lane), s.cancelled, a)
    case None => None
    case Some(Fatal) => Some(s.(halted := true))
    case Some(WorkerMove(lane, sent)) =>
      Some(SetLane(s, a.lane, lane).(wire := if sent.Some? then s.wire + [Msg(a.lane, sent.value)] else s.wire))
  }

  function Step(s: State, a: Action): Option<State> {
    if s.halted then None
    else if IsSupervisor(a) then SupervisorStep(s, a)
    else if IsReporter(a) then ReporterStep(s, a)
    else if IsWorker(a) then WorkerStep(s, a)
    else EnvStep(s, a)
  }

  // ----- Runs -----

  /** `states` are the states of a run from the start, `acts` the actions between them. */
  ghost predicate IsRun(states: seq<State>, acts: seq<Action>) {
    && |states| == |acts| + 1
    && states[0] == INIT
    && forall i | 0 <= i < |acts| :: Step(states[i], acts[i]) == Some(states[i + 1])
  }

  ghost predicate Reachable(s: State) {
    exists states, acts :: IsRun(states, acts) && states[|acts|] == s
  }

  lemma InitReachable()
    ensures Reachable(INIT)
  {
    assert IsRun([INIT], []);
  }

  lemma ReachableStep(s: State, a: Action, t: State)
    requires Reachable(s) && Step(s, a) == Some(t)
    ensures Reachable(t)
  {
    var states, acts :| IsRun(states, acts) && states[|acts|] == s;
    var states', acts' := states + [t], acts + [a];
    forall i | 0 <= i < |acts'|
      ensures Step(states'[i], acts'[i]) == Some(states'[i + 1])
    {
      if i < |acts| {
        assert Step(states[i], acts[i]) == Some(states[i + 1]);
      }
    }
    assert IsRun(states', acts');
  }

  lemma RunReachable(states: seq<State>, acts: seq<Action>, i: nat)
    requires IsRun(states, acts) && i <= |acts|
    ensures Reachable(states[i])
  {
    var states', acts' := states[..i + 1], acts[..i];
    forall j | 0 <= j < |acts'|
      ensures Step(states'[j], acts'[j]) == Some(states'[j + 1])
    {
      assert Step(states[j], acts[j]) == Some(states[j + 1]);
    }
    assert IsRun(states', acts');
  }

  // ----- Continuations of a run -----

  /** The state that these actions lead to, if each is enabled in turn. */
  function Follow(s: State, acts: seq<Action>): Option<State>
    decreases |acts|
  {
    if acts == [] then Some(s)
    else
      match Step(s, acts[0])
      case None => None
      case Some(t) => Follow(t, acts[1..])
  }

  lemma FollowHead(s: State, acts: seq<Action>) returns (t: State)
    requires acts != [] && Follow(s, acts).Some?
    ensures Step(s, acts[0]) == Some(t) && Follow(t, acts[1..]) == Follow(s, acts)
  {
    t := Step(s, acts[0]).value;
  }

  lemma {:induction false} FollowConcat(s: State, a: seq<Action>, b: seq<Action>)
    requires Follow(s, a).Some?
    ensures Follow(s, a + b) == Follow(Follow(s, a).value, b)
    decreases |a|
  {
    if a == [] {
      assert a + b == b;
    } else {
      assert (a + b)[1..] == a[1..] + b;
      var t := FollowHead(s, a);
      FollowConcat(t, a[1..], b);
    }
  }

  /** What every allowed step keeps, every continuation by such steps keeps. */
  lemma {:induction false} FollowKeeps(s: State, acts: seq<Action>, allowed: Action -> bool, p: State -> bool)
    requires Follow(s, acts).Some? && p(s) && forall a <- acts :: allowed(a)
    requires forall x, a, y | p(x) && allowed(a) && Step(x, a) == Some(y) :: p(y)
    ensures p(Follow(s, acts).value)
    decreases |acts|
  {
    if acts != [] {
      var t := FollowHead(s, acts);
      assert acts[0] in acts;
      FollowKeeps(t, acts[1..], allowed, p);
    }
  }

  lemma FollowOne(s: State, a: Action)
    ensures Follow(s, [a]) == Step(s, a)
  {
    assert [a][1..] == [];
  }
}
