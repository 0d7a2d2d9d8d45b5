/**
 Exactly when a blocked producer is stuck, and that it is then stuck for good; with runs in
 which each kind of producer comes to be.
 */
module ClientBlocking {
  import opened Base
  import opened ClientProtocol
  import opened ClientInvariants
  import opened ClientTheorems
  import opened ClientCommutation
  import opened ClientCounterexamples

  // ----- The exact condition -----

  /** The step by which a blocked producer of a lane goes on. */
  predicate OfProducer(a: Action, l: LaneId) {
    if l == Reports then a.ReplyUnblocked? || a.ReportUnblocked? else a.LeaveUnblocked?
  }

  /** Neither a blocked producer of the lane nor the lane's worker has an enabled step. */
  ghost predicate Stuck(s: State, l: LaneId) {
    forall a | OfProducer(a, l) || OfLane(a, l) :: Step(s, a).None?
  }

  /** The lane's worker has stopped and its queue is full. */
  predicate Stopped(lane: Lane) {
    lane.worker.Exited? && !HasRoom(lane)
  }

  lemma StoppedIsStuck(s: State, l: LaneId)
    requires Stopped(LaneOf(s, l))
    ensures Stuck(s, l)
  {
  }

  lemma ProducerGoesOn(s: State, l: LaneId)
    requires ProducerBlocked(s, l) && HasRoom(LaneOf(s, l)) && !s.halted
    ensures exists a :: OfProducer(a, l) && Step(s, a).Some?
  {
    if l == Reports && s.sup.ReplyBlocked? {
      assert OfProducer(ReplyUnblocked, l) && Step(s, ReplyUnblocked).Some?;
    } else if l == Reports {
      var id :| id in s.reporters && s.reporters[id].pc.ReportBlocked?;
      assert OfProducer(ReportUnblocked(id), l) && Step(s, ReportUnblocked(id)).Some?;
    } else {
      var id :| id in s.reporters && s.reporters[id].pc.LeaveBlocked?;
      assert OfProducer(LeaveUnblocked(id), l) && Step(s, LeaveUnblocked(id)).Some?;
    }
  }

  /** A blocked producer is stuck if and only if the worker has stopped and the queue is full. */
  lemma StuckExactly(s: State, l: LaneId)
    requires ProducerBlocked(s, l) && !s.halted
    ensures Stuck(s, l) <==> Stopped(LaneOf(s, l))
  {
    if Stopped(LaneOf(s, l)) {
      StoppedIsStuck(s, l);
    } else if HasRoom(LaneOf(s, l)) {
      ProducerGoesOn(s, l);
    } else {
      WorkerCanStep(s, l);
    }
  }

  // ----- For good -----

  lemma StoppedStays(s: State, a: Action, t: State, l: LaneId)
    requires Stopped(LaneOf(s, l)) && Step(s, a) == Some(t)
    ensures Stopped(LaneOf(t, l))
  {
    if IsWorker(a) {
      WorkerFrame(s, a, t, l);
    } else {
      LanesFrame(s, a, t, l);
      PostedFrame(s, a, t);
    }
  }

  /** A reporter blocked on a lane only goes on by the step that needs room on it. */
  predicate BlockedOn(pc: ReporterPc, l: LaneId) {
    if l == Reports then pc.ReportBlocked? else pc.LeaveBlocked?
  }

  lemma BlockedReporterStays(s: State, a: Action, t: State, l: LaneId, id: nat)
    requires Stopped(LaneOf(s, l)) && Step(s, a) == Some(t) && id in s.reporters && BlockedOn(s.reporters[id].pc, l)
    ensures id in t.reporters && t.reporters[id] == s.reporters[id]
  {
    if IsReporter(a) { ReporterFrame(s, a, t); } else { ReportersFrame(s, a, t); }
  }

  lemma BlockedSupervisorStays(s: State, a: Action, t: State)
    requires Stopped(s.reports) && Step(s, a) == Some(t) && s.sup.ReplyBlocked?
    ensures t.sup == s.sup
  {
    if !IsSupervisor(a) { SupervisorStays(s, a, t); }
  }

  /** A stuck producer stays stuck, whatever happens. */
  ghost predicate StuckProducer(s: State, l: LaneId) {
    Stopped(LaneOf(s, l)) && ProducerBlocked(s, l)
  }

  lemma StuckStays(s: State, a: Action, t: State, l: LaneId)
    requires StuckProducer(s, l) && Step(s, a) == Some(t)
    ensures StuckProducer(t, l)
  {
    StoppedStays(s, a, t, l);
    if l == Reports && s.sup.ReplyBlocked? {
      BlockedSupervisorStays(s, a, t);
    } else {
      var id :| id in s.reporters && BlockedOn(s.reporters[id].pc, l);
      BlockedReporterStays(s, a, t, l, id);
    }
  }

  lemma StuckForGood(s: State, l: LaneId, acts: seq<Action>)
    requires StuckProducer(s, l) && Follow(s, acts).Some?
    ensures StuckProducer(Follow(s, acts).value, l)
  {
    var stuck := (x: State) => StuckProducer(x, l);
    forall x, a, y | stuck(x) && Step(x, a) == Some(y)
      ensures stuck(y)
    {
      StuckStays(x, a, y, l);
    }
    FollowKeeps(s, acts, a => true, stuck);
  }

  // ----- The supervisor and a reporter, stuck on the report channel -----

  /** The report worker has stopped and `n` replies fill its queue. */
  function Filled(item: Item, n: nat): State {
    INIT.(streams := map[7 := Stream(item, 0)], clock := 1, cancelled := true,
          reports := Lane(seq(n, i => [item]), Exited),
          events := seq(n, i => QueryReply([item])))
  }

  lemma ReachReplying(item: Item, n: nat) returns (s: State)
    requires Reachable(Filled(item, n))
    ensures Reachable(s) && s == Filled(item, n).(sup := Replying([item]))
  {
    s := Go(Filled(item, n), Query);
    s := Go(s, AnswerVisit(7));
    assert s.sup.scan.found == [item];
    s := Go(s, AnswerEnd);
  }

  lemma {:induction false} ReachFilled(item: Item, n: nat)
    requires n <= CHANNEL_SIZE
    ensures Reachable(Filled(item, n))
  {
    if n == 0 {
      InitReachable();
      var s := Go(INIT, Store(7, item));
      s := Go(s, Cancel);
      s := Go(s, Exit(Reports));
      assert s == Filled(item, 0);
    } else {
      ReachFilled(item, n - 1);
      var s := ReachReplying(item, n - 1);
      s := Go(s, TryReply);
      assert s.reports.queue == Filled(item, n).reports.queue;
      assert s.events == Filled(item, n).events;
    }
  }

  /** A supervisor that answers a query after the report worker has stopped. */
  lemma SupervisorStuck(item: Item) returns (s: State)
    ensures Reachable(s) && s.cancelled && s.sup.ReplyBlocked? && StuckProducer(s, Reports)
  {
    ReachFilled(item, CHANNEL_SIZE);
    s := ReachReplying(item, CHANNEL_SIZE);
    s := Go(s, TryReply);
  }

  /** A reporter at its loop head, before anything is enqueued by it. */
  predicate Ready(s: State, item: Item) {
    && s.streams == map[7 := Stream(item, 0)] && s.clock == 1 && !s.halted
    && 0 in s.reporters && s.reporters[0].pc == Select
  }

  /** One rebuild of reporter 0 lists the stream. */
  lemma OneRebuild(r: State, item: Item) returns (s: State)
    requires Reachable(r) && Ready(r, item)
    ensures Reachable(s) && 0 in s.reporters && s.reporters[0].pc == Leaving([item])
    ensures s.reporters[0].prev == r.reporters[0].prev
    ensures s == r.(reporters := s.reporters)
  {
    s := Go(r, Tick(0));
    s := Go(s, Visit(0, 7));
    assert s.reporters[0].pc.scan.found == [item];
    s := Go(s, ScanEnd(0));
  }

  lemma ReporterStarted(item: Item) returns (s: State)
    ensures Reachable(s) && Ready(s, item) && s.leaves == Lane([], Waiting)
    ensures s.cancelled && Stopped(s.reports)
  {
    ReachFilled(item, CHANNEL_SIZE);
    s := Go(Filled(item, CHANNEL_SIZE), Notify);
    s := Go(s, TryStart(0));
  }

  /** A reporter started after the report worker has stopped. */
  lemma ReporterStuckOnReports(item: Item) returns (s: State)
    ensures Reachable(s) && s.cancelled && StuckProducer(s, Reports)
    ensures 0 in s.reporters && s.reporters[0].pc.ReportBlocked?
  {
    s := ReporterStarted(item);
    s := OneRebuild(s, item);
    s := Go(s, TryLeave(0));
    s := Go(s, TryReport(0));
    assert s.reporters[0].pc.ReportBlocked?;
  }

  // ----- A reporter stuck on the leave channel -----

  /** The leave worker has stopped with `n` lists queued, and the reporter is at its loop head. */
  predicate LeavesPile(s: State, item: Item, n: nat) {
    && Ready(s, item) && s.cancelled && s.reports == Lane([], Waiting)
    && s.leaves.worker.Exited? && |s.leaves.queue| == n
  }

  lemma NoLeaveWorker(item: Item) returns (s: State)
    ensures Reachable(s) && LeavesPile(s, item, 0)
  {
    ReachStarted(item);
    s := Go(Started(item), Cancel);
    s := Go(s, Exit(Departures));
  }

  lemma OneMoreLeave(r: State, item: Item, n: nat) returns (s: State)
    requires Reachable(r) && LeavesPile(r, item, n) && n < CHANNEL_SIZE && item.group != NoAddr
    ensures Reachable(s) && LeavesPile(s, item, n + 1)
  {
    s := OneRebuild(r, item);
    s := Go(s, TryLeave(0));
    s := Go(s, TryReport(0));
    assert s.reports == Lane([[item]], Waiting);
    s := SendOne(s, Reports, item);
  }

  lemma {:induction false} ReachPile(item: Item, n: nat) returns (s: State)
    requires n <= CHANNEL_SIZE && item.group != NoAddr
    ensures Reachable(s) && LeavesPile(s, item, n)
  {
    if n == 0 {
      s := NoLeaveWorker(item);
    } else {
      s := ReachPile(item, n - 1);
      s := OneMoreLeave(s, item, n - 1);
    }
  }

  /** A reporter that goes on ticking after the leave worker has stopped. */
  lemma ReporterStuckOnLeaves(item: Item) returns (s: State)
    requires item.group != NoAddr
    ensures Reachable(s) && s.cancelled && StuckProducer(s, Departures)
    ensures 0 in s.reporters && s.reporters[0].pc.LeaveBlocked?
  {
    s := ReachPile(item, CHANNEL_SIZE);
    s := OneRebuild(s, item);
    s := Go(s, TryLeave(0));
    assert s.reporters[0].pc.LeaveBlocked?;
  }
}
