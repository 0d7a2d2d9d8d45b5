/**
 Safety and progress of the client protocol over all its runs.
 */
module ClientTheorems {
  import opened Base
  import opened LeaveDiff
  import opened ClientProtocol
  import opened Ledger
  import opened ClientInvariants

  lemma ReleaseEnabled(s: State, id: nat)
    requires TokenInv(s) && id in s.reporters && s.reporters[id].pc.Releasing? && !s.halted
    ensures Step(s, Release(id)).Some?
  {
    assert id in Live(s.reporters);
    OnlyOne(Live(s.reporters), id);
  }

  /** The token counts the live reporters, never more than one, and a release never blocks. */
  lemma SingletonToken(s: State)
    requires Reachable(s)
    ensures s.token == |Live(s.reporters)| <= 1
    ensures forall id | id in s.reporters && s.reporters[id].pc.Releasing? && !s.halted :: Step(s, Release(id)).Some?
  {
    InvHolds(s);
    forall id | id in s.reporters && s.reporters[id].pc.Releasing? && !s.halted
      ensures Step(s, Release(id)).Some?
    {
      ReleaseEnabled(s, id);
    }
  }

  lemma TicksAccount(s: State, id: nat)
    requires Reachable(s) && !s.cancelled && id in s.reporters && s.reporters[id].pc.Select?
    ensures TickJoined(s.events) == Groups(s.reporters[id].prev)
  {
    InvHolds(s);
    assert id in Live(s.reporters);
  }

  /**
   Before cancellation, at the head of a reporter's loop, the groups joined by ticks are
   exactly those of previousGroups; every other group whose latest event is a report was last
   named by a reply to a query, and without such replies there is none.
   */
  lemma MembershipLedger(s: State, id: nat)
    requires Reachable(s) && !s.cancelled && id in s.reporters && s.reporters[id].pc.Select?
    ensures TickJoined(s.events) == Groups(s.reporters[id].prev) <= Joined(s.events)
    ensures forall g <- Joined(s.events) - Groups(s.reporters[id].prev) ::
      Latest(s.events, g).Some? && Latest(s.events, g).value.QueryReply?
    ensures (forall e <- s.events :: !e.QueryReply?) ==>
      forall g :: g in Groups(s.reporters[id].prev) <==>
        Latest(s.events, g).Some? && !Latest(s.events, g).value.TickLeave?
  {
    TicksAccount(s, id);
    LatestEvents(s.events);
    if forall e <- s.events :: !e.QueryReply? { NoQueriesNoSurplus(s.events); }
  }

  /** Before cancellation, when no reporter runs, every joined group was last named by a reply to a query. */
  lemma EmptyLedgerWithoutReporter(s: State)
    requires Reachable(s) && !s.cancelled && Live(s.reporters) == {}
    ensures TickJoined(s.events) == {}
    ensures forall g <- Joined(s.events) :: Latest(s.events, g).Some? && Latest(s.events, g).value.QueryReply?
    ensures (forall e <- s.events :: !e.QueryReply?) ==> Joined(s.events) == {}
  {
    InvHolds(s);
    LatestEvents(s.events);
    if forall e <- s.events :: !e.QueryReply? { NoQueriesNoSurplus(s.events); }
  }

  /** The history of events only grows along a run. */
  lemma {:induction false} HistoryGrows(states: seq<State>, acts: seq<Action>, i: nat, j: nat)
    requires IsRun(states, acts) && i <= j <= |acts|
    ensures |states[i].events| <= |states[j].events|
    ensures states[j].events[..|states[i].events|] == states[i].events
  {
    if i < j {
      HistoryGrows(states, acts, i, j - 1);
      var s, a, t := states[j - 1], acts[j - 1], states[j];
      assert Step(s, a) == Some(t);
      if IsReporter(a) { ReporterFrame(s, a, t); } else { EventsFrame(s, a, t); }
      assert t.events[..|s.events|] == s.events;
      assert t.events[..|states[i].events|] == t.events[..|s.events|][..|states[i].events|];
    }
  }

  /**
   A group no tick accounts for gets no leave until a later tick reports it: if the `b`-th
   event leaves `g`, an earlier event after that moment is a tick's report of `g`.
   */
  lemma NoLeaveWithoutTick(states: seq<State>, acts: seq<Action>, i: nat, j: nat, b: nat, g: Addr) returns (c: nat)
    requires IsRun(states, acts) && i <= j <= |acts|
    requires g !in TickJoined(states[i].events)
    requires |states[i].events| <= b < |states[j].events|
    requires states[j].events[b].TickLeave? && g in Groups(states[j].events[b].items)
    ensures |states[i].events| <= c < b
    ensures states[j].events[c].TickReport? && g in Groups(states[j].events[c].items)
  {
    InvAlongRun(states, acts, j);
    HistoryGrows(states, acts, i, j);
    var events, n := states[j].events, |states[i].events|;
    assert events[..b][..n] == states[i].events;
    c := GainedByTick(events[..b], n, g);
  }

  lemma AllLeft(left: seq<seq<Item>>, ticks: seq<seq<Item>>)
    requires LeftFollows(left, ticks) && |left| == |ticks|
    ensures left == LeaveHistory(ticks)
  {
  }

  /** A reporter that ended on an empty tick left each group once per stretch of ticks listing it. */
  lemma JoinLeaveConservation(s: State, id: nat, g: Addr)
    requires Reachable(s) && id in s.reporters
    requires var r := s.reporters[id];
      (r.pc.Releasing? || r.pc.Gone?) && r.ticks != [] && r.ticks[|r.ticks| - 1] == []
    ensures |LeaveTicks(s.reporters[id].left, g)| == |Stretches(s.reporters[id].ticks, g)|
  {
    InvHolds(s);
    var r := s.reporters[id];
    assert ReporterInv(r, s.clock);
    AllLeft(r.left, r.ticks);
    JoinsAndLeavesBalance(r.ticks, g);
  }

  lemma CancelledStays(s: State, a: Action, t: State)
    requires Step(s, a) == Some(t)
    ensures !s.halted && (s.cancelled ==> t.cancelled)
  {
  }

  ghost predicate EndedEmpty(r: Reporter) {
    r.pc.Releasing? || r.pc.Gone? ==> r.ticks != [] && r.ticks[|r.ticks| - 1] == []
  }

  lemma MoveEndsEmpty(r: Reporter, s: State, a: Action)
    requires ReporterInv(r, s.clock) && EndedEmpty(r) && !s.cancelled
    requires IsReporter(a) && MoveReporter(r, s, a).Some?
    ensures EndedEmpty(MoveReporter(r, s, a).value.r)
  {
  }

  lemma EndsEmptyStep(s: State, a: Action, t: State, id: nat)
    requires HistoryInv(s) && Step(s, a) == Some(t) && !s.cancelled && id in t.reporters
    requires id in s.reporters ==> EndedEmpty(s.reporters[id])
    ensures EndedEmpty(t.reporters[id])
  {
    if IsReporter(a) {
      ReporterFrame(s, a, t);
      if a.id == id {
        assert ReporterInv(s.reporters[id], s.clock);
        MoveEndsEmpty(s.reporters[id], s, a);
      }
    } else {
      ReportersFrame(s, a, t);
    }
  }

  /** Unless the context was cancelled, a reporter only ends on an empty tick. */
  lemma {:induction false} EndsOnEmptyTick(states: seq<State>, acts: seq<Action>, i: nat, id: nat)
    requires IsRun(states, acts) && i <= |acts| && !states[i].cancelled && id in states[i].reporters
    ensures EndedEmpty(states[i].reporters[id])
  {
    if i > 0 {
      InvAlongRun(states, acts, i - 1);
      assert Step(states[i - 1], acts[i - 1]) == Some(states[i]);
      CancelledStays(states[i - 1], acts[i - 1], states[i]);
      if id in states[i - 1].reporters { EndsOnEmptyTick(states, acts, i - 1, id); }
      EndsEmptyStep(states[i - 1], acts[i - 1], states[i], id);
    }
  }

  /** Each lane is first-in first-out with bounded delay: sent, then in hand, then queued, is the enqueue history. */
  lemma LaneConservation(s: State, l: LaneId)
    requires Reachable(s)
    ensures Enqueued(s.events, l)
         == Sent(s.wire, l) + GroupSeq(InHand(LaneOf(s, l).worker)) + Queued(LaneOf(s, l).queue)
    ensures |LaneOf(s, l).queue| <= 10
  {
    InvHolds(s);
    Associative(Sent(s.wire, l), GroupSeq(InHand(LaneOf(s, l).worker)), Queued(LaneOf(s, l).queue));
  }

  // ----- No stuck state before cancellation -----

  /** Is some producer waiting to put a list on lane `l`? */
  ghost predicate ProducerBlocked(s: State, l: LaneId) {
    if l == Reports then
      s.sup.ReplyBlocked? || exists id <- s.reporters :: s.reporters[id].pc.ReportBlocked?
    else exists id <- s.reporters :: s.reporters[id].pc.LeaveBlocked?
  }

  /** The steps that a lane's worker has left before it is back at its receive. */
  function ToGo(s: State, l: LaneId): nat {
    var w := LaneOf(s, l).worker;
    if w.Sending? then |w.rest| + 1 else 0
  }

  predicate OfLane(a: Action, l: LaneId) {
    IsWorker(a) && a.lane == l
  }

  /** The number of steps of lane `l`'s worker among the actions from `i` to `j`. */
  function WorkerSteps(acts: seq<Action>, i: nat, j: nat, l: LaneId): nat
    requires i <= j <= |acts|
  {
    if i == j then 0 else WorkerSteps(acts, i, j - 1, l) + if OfLane(acts[j - 1], l) then 1 else 0
  }

  lemma WorkerCanStep(s: State, l: LaneId)
    requires !s.halted && !LaneOf(s, l).worker.Exited? && LaneOf(s, l).queue != []
    ensures exists a :: OfLane(a, l) && Step(s, a).Some?
  {
    var w := LaneOf(s, l).worker;
    var a := if w.Waiting? then Receive(l) else if w.rest == [] then Next(l) else Send(l);
    assert OfLane(a, l) && Step(s, a).Some?;
  }

  /** Before cancellation a full lane always has an enabled worker step. */
  lemma WorkerEnabled(s: State, l: LaneId)
    requires Reachable(s) && !s.cancelled && !s.halted && !HasRoom(LaneOf(s, l))
    ensures exists a :: OfLane(a, l) && Step(s, a).Some?
  {
    InvHolds(s);
    WorkerCanStep(s, l);
  }

  lemma LaneWorkerStep(s: State, a: Action, t: State, l: LaneId)
    requires Step(s, a) == Some(t) && a != Receive(l) && !t.cancelled && !t.halted
    ensures !s.cancelled && !s.halted
    ensures ToGo(t, l) + (if OfLane(a, l) then 1 else 0) == ToGo(s, l)
  {
    if IsWorker(a) { WorkerFrame(s, a, t, l); } else { LanesFrame(s, a, t, l); }
  }

  lemma WorkerStepsNext(states: seq<State>, acts: seq<Action>, j: nat, l: LaneId)
    requires IsRun(states, acts) && 0 < j <= |acts| && acts[j - 1] != Receive(l)
    requires !states[j].cancelled && !states[j].halted
    ensures !states[j - 1].cancelled && !states[j - 1].halted
    ensures ToGo(states[j], l) + (if OfLane(acts[j - 1], l) then 1 else 0) == ToGo(states[j - 1], l)
  {
    assert Step(states[j - 1], acts[j - 1]) == Some(states[j]);
    LaneWorkerStep(states[j - 1], acts[j - 1], states[j], l);
  }

  /** Cancellation and a fatal error are both permanent. */
  lemma {:induction false} StillRunning(states: seq<State>, acts: seq<Action>, i: nat, j: nat)
    requires IsRun(states, acts) && i <= j <= |acts|
    ensures states[i].cancelled ==> states[j].cancelled
    ensures states[i].halted ==> states[j].halted
  {
    if i < j {
      StillRunning(states, acts, i, j - 1);
      var s, a, t := states[j - 1], acts[j - 1], states[j];
      assert Step(s, a) == Some(t);
      if IsWorker(a) { WorkerFrame(s, a, t, Reports); } else { LanesFrame(s, a, t, Reports); }
      CancelledStays(s, a, t);
    }
  }

  /** A count that falls by one at each step of the lane's worker, and at no other, adds those steps up. */
  lemma {:induction false} StepsAddUp(left: seq<nat>, acts: seq<Action>, i: nat, j: nat, l: LaneId)
    requires i <= j <= |acts| < |left|
    requires forall m {:trigger left[m]} | i <= m < j :: left[m + 1] + (if OfLane(acts[m], l) then 1 else 0) == left[m]
    ensures WorkerSteps(acts, i, j, l) + left[j] == left[i]
  {
    if i < j {
      StepsAddUp(left, acts, i, j - 1, l);
      assert left[j] + (if OfLane(acts[j - 1], l) then 1 else 0) == left[j - 1];
    }
  }

  /** Between two receives, the worker's own steps are exactly what its slice still asks for. */
  lemma StepsToReceive(states: seq<State>, acts: seq<Action>, i: nat, j: nat, l: LaneId)
    requires IsRun(states, acts) && i <= j <= |acts|
    requires !states[j].cancelled && !states[j].halted
    requires forall m | i <= m < j :: acts[m] != Receive(l)
    ensures WorkerSteps(acts, i, j, l) + ToGo(states[j], l) == ToGo(states[i], l)
  {
    var left := seq(|states|, k requires 0 <= k < |states| => ToGo(states[k], l));
    forall m | i <= m < j
      ensures left[m + 1] + (if OfLane(acts[m], l) then 1 else 0) == left[m]
    {
      StillRunning(states, acts, m + 1, j);
      WorkerStepsNext(states, acts, m + 1, l);
    }
    StepsAddUp(left, acts, i, j, l);
  }

  lemma CanGoOn(s: State, l: LaneId)
    requires ProducerBlocked(s, l) && HasRoom(LaneOf(s, l)) && !s.halted
    ensures exists a: Action :: (a.ReplyUnblocked? || a.LeaveUnblocked? || a.ReportUnblocked?) && Step(s, a).Some?
  {
    if l == Reports && s.sup.ReplyBlocked? {
      assert Step(s, ReplyUnblocked).Some?;
    } else if l == Reports {
      var id :| id in s.reporters && s.reporters[id].pc.ReportBlocked?;
      assert Step(s, ReportUnblocked(id)).Some?;
    } else {
      var id :| id in s.reporters && s.reporters[id].pc.LeaveBlocked?;
      assert Step(s, LeaveUnblocked(id)).Some?;
    }
  }

  /**
   A blocked producer is never stuck before cancellation: either it can go on, or its lane's
   worker can; and the worker's own steps before its next receive are bounded by the items in its slice.
   */
  lemma NoStuckProducer(states: seq<State>, acts: seq<Action>, i: nat, j: nat, l: LaneId)
    requires IsRun(states, acts) && i <= j <= |acts| && !states[j].cancelled && !states[j].halted
    requires ProducerBlocked(states[i], l)
    ensures HasRoom(LaneOf(states[i], l)) ==>
      exists a: Action :: (a.ReplyUnblocked? || a.LeaveUnblocked? || a.ReportUnblocked?) && Step(states[i], a).Some?
    ensures !HasRoom(LaneOf(states[i], l)) ==> exists a :: OfLane(a, l) && Step(states[i], a).Some?
    ensures WorkerSteps(acts, i, j, l) > ToGo(states[i], l) ==>
      exists m | i <= m < j :: acts[m] == Receive(l)
  {
    var s := states[i];
    StillRunning(states, acts, i, j);
    RunReachable(states, acts, i);
    if HasRoom(LaneOf(s, l)) {
      CanGoOn(s, l);
    } else {
      WorkerEnabled(s, l);
    }
    if forall m | i <= m < j :: acts[m] != Receive(l) {
      StepsToReceive(states, acts, i, j, l);
    }
  }
}
