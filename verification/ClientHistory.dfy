/**
 Who enqueued what: in every run each reporter enqueues exactly what its ticks call for,
 and the supervisor exactly one reply for each query answered with a list.
 */
module ClientHistory {
  import opened Base
  import opened LeaveDiff
  import opened ClientProtocol
  import opened Ledger
  import opened ClientInvariants
  import opened ClientTheorems
  import opened GratuitousLoop

  /** The events that one step added to the history. */
  function Added(s: State, t: State): seq<Event> {
    if |s.events| <= |t.events| then t.events[|s.events|..] else []
  }

  predicate ByReporter(a: Action, id: nat) {
    IsReporter(a) && a.id == id
  }

  /** The events that reporter `id` added in the first `n` steps. */
  function EventsBy(states: seq<State>, acts: seq<Action>, n: nat, id: nat): seq<Event>
    requires n <= |acts| && |states| == |acts| + 1
  {
    if n == 0 then []
    else if ByReporter(acts[n - 1], id) then EventsBy(states, acts, n - 1, id) + Added(states[n - 1], states[n])
    else EventsBy(states, acts, n - 1, id)
  }

  /** What a reporter's ticks call for so far: in mid-tick, only its first part. */
  ghost function Due(r: Reporter): seq<Event> {
    var n := |r.ticks|;
    if n > 0 && (r.pc.Leaving? || r.pc.LeaveBlocked?) then Enqueues(r.ticks[..n - 1])
    else if n > 0 && (r.pc.Reporting? || r.pc.ReportBlocked?) then
      Enqueues(r.ticks[..n - 1]) + [TickLeave(Leaves(r.ticks[n - 1], r.prev))]
    else Enqueues(r.ticks)
  }

  lemma ListedDue(r: Reporter, groups: seq<Item>)
    requires r.pc.Scanning?
    ensures Due(r.(pc := Leaving(groups), ticks := r.ticks + [groups])) == Due(r)
  {
    assert (r.ticks + [groups])[..|r.ticks|] == r.ticks;
  }

  lemma LeftDue(r: Reporter, groups: seq<Item>, clock: nat)
    requires ReporterInv(r, clock) && (r.pc == Leaving(groups) || r.pc == LeaveBlocked(groups))
    ensures var m := AfterLeaves(r, groups); Due(m.r) == Due(r) + [m.post.value]
  {
  }

  lemma ReportedDue(r: Reporter, groups: seq<Item>, clock: nat)
    requires ReporterInv(r, clock) && (r.pc == Reporting(groups) || r.pc == ReportBlocked(groups))
    ensures var m := AfterReport(r, groups); Due(m.r) == Due(r) + [m.post.value]
  {
    var n := |r.ticks|;
    assert NonEmptyBefore(r.ticks, n);
    assert r.ticks[n - 1] != [];
  }

  /** The post is what becomes due by the move. */
  ghost predicate PostsDue(r: Reporter, m: ReporterMove) {
    Due(m.r) == if m.post.Some? then Due(r) + [m.post.value] else Due(r)
  }

  lemma LeaveMoveDue(r: Reporter, s: State, a: Action)
    requires ReporterInv(r, s.clock) && IsReporter(a) && MoveReporter(r, s, a).Some?
    requires r.pc.Leaving? || r.pc.LeaveBlocked?
    ensures PostsDue(r, MoveReporter(r, s, a).value)
  {
    LeftDue(r, r.pc.groups, s.clock);
  }

  lemma ReportMoveDue(r: Reporter, s: State, a: Action)
    requires ReporterInv(r, s.clock) && IsReporter(a) && MoveReporter(r, s, a).Some?
    requires r.pc.Reporting? || r.pc.ReportBlocked?
    ensures PostsDue(r, MoveReporter(r, s, a).value)
  {
    ReportedDue(r, r.pc.groups, s.clock);
  }

  lemma QuietMoveDue(r: Reporter, s: State, a: Action)
    requires ReporterInv(r, s.clock) && IsReporter(a) && MoveReporter(r, s, a).Some?
    requires !(r.pc.Leaving? || r.pc.LeaveBlocked? || r.pc.Reporting? || r.pc.ReportBlocked?)
    ensures PostsDue(r, MoveReporter(r, s, a).value)
  {
    if a.ScanEnd? { ListedDue(r, r.pc.scan.found); }
  }

  /** A reporter's move posts what becomes due by it. */
  lemma MoveDue(r: Reporter, s: State, a: Action)
    requires ReporterInv(r, s.clock) && IsReporter(a) && MoveReporter(r, s, a).Some?
    ensures PostsDue(r, MoveReporter(r, s, a).value)
  {
    if r.pc.Leaving? || r.pc.LeaveBlocked? {
      LeaveMoveDue(r, s, a);
    } else if r.pc.Reporting? || r.pc.ReportBlocked? {
      ReportMoveDue(r, s, a);
    } else {
      QuietMoveDue(r, s, a);
    }
  }

  ghost predicate UpToDate(r: Reporter, clock: nat, posted: seq<Event>) {
    ReporterInv(r, clock) && posted == Due(r)
  }

  lemma DueStep(s: State, a: Action, t: State, id: nat, posted: seq<Event>)
    requires Step(s, a) == Some(t) && id in s.reporters && UpToDate(s.reporters[id], s.clock, posted)
    ensures id in t.reporters
    ensures UpToDate(t.reporters[id], t.clock, if ByReporter(a, id) then posted + Added(s, t) else posted)
  {
    if IsReporter(a) {
      ReporterFrame(s, a, t);
      if a.id == id {
        MoveKeepsReporterInv(s.reporters[id], s, a);
        MoveDue(s.reporters[id], s, a);
        assert MoveReporter(s.reporters[id], s, a).value.post.None? ==> posted + Added(s, t) == posted;
      }
    } else {
      ReportersFrame(s, a, t);
      ReporterInvLater(s.reporters[id], s.clock, t.clock);
    }
  }

  lemma StartsNow(s: State, a: Action, t: State, id: nat)
    requires Step(s, a) == Some(t) && id !in s.reporters && id in t.reporters
    ensures !IsReporter(a) && UpToDate(t.reporters[id], t.clock, [])
  {
    if IsReporter(a) { ReporterFrame(s, a, t); } else { ReportersFrame(s, a, t); }
  }

  /** A reporter that has not been started has done nothing. */
  lemma {:induction false} NothingBefore(states: seq<State>, acts: seq<Action>, n: nat, id: nat)
    requires IsRun(states, acts) && n <= |acts| && id !in states[n].reporters
    ensures EventsBy(states, acts, n, id) == []
  {
    if n > 0 {
      var s, a, t := states[n - 1], acts[n - 1], states[n];
      assert Step(s, a) == Some(t);
      if IsReporter(a) { ReporterFrame(s, a, t); } else { ReportersFrame(s, a, t); }
      NothingBefore(states, acts, n - 1, id);
    }
  }

  /**
   In every run each reporter has enqueued exactly what the loop of its ticks calls for: tick by tick the
   leaves, then the list.
   */
  lemma {:induction false} ReporterEnqueuesItsTicks(states: seq<State>, acts: seq<Action>, n: nat, id: nat)
    requires IsRun(states, acts) && n <= |acts| && id in states[n].reporters
    ensures UpToDate(states[n].reporters[id], states[n].clock, EventsBy(states, acts, n, id))
  {
    if n > 0 {
      assert Step(states[n - 1], acts[n - 1]) == Some(states[n]);
      if id in states[n - 1].reporters {
        ReporterEnqueuesItsTicks(states, acts, n - 1, id);
        DueStep(states[n - 1], acts[n - 1], states[n], id, EventsBy(states, acts, n - 1, id));
      } else {
        StartsNow(states[n - 1], acts[n - 1], states[n], id);
        NothingBefore(states, acts, n - 1, id);
      }
    }
  }

  // ----- Joins and leaves, counted in the events themselves -----

  /** How many of the events are leaves that name `g`. */
  ghost function LeavesNaming(events: seq<Event>, g: Addr): nat {
    if events == [] then 0
    else
      var e := events[|events| - 1];
      LeavesNaming(events[..|events| - 1], g) + if e.TickLeave? && g in Groups(e.items) then 1 else 0
  }

  lemma NamingAppend(events: seq<Event>, e: Event, g: Addr)
    ensures LeavesNaming(events + [e], g)
         == LeavesNaming(events, g) + if e.TickLeave? && g in Groups(e.items) then 1 else 0
  {
    assert (events + [e])[..|events|] == events;
  }

  lemma NamingAfterTick(before: seq<Event>, prev: seq<Item>, groups: seq<Item>, g: Addr)
    ensures LeavesNaming(AfterTick(before, prev, groups), g)
         == LeavesNaming(before, g) + if g in Groups(Leaves(groups, prev)) then 1 else 0
  {
    var e := TickLeave(Leaves(groups, prev));
    NamingAppend(before, e, g);
    NamingAppend(before + [e], TickReport(groups), g);
  }

  lemma LeaveTicksLast(ticks: seq<seq<Item>>, g: Addr)
    requires ticks != []
    ensures var n := |ticks| - 1;
      |LeaveTicks(LeaveHistory(ticks), g)|
      == |LeaveTicks(LeaveHistory(ticks[..n]), g)| + if g in Groups(Leaves(ticks[n], Before(ticks, n))) then 1 else 0
  {
    var n := |ticks| - 1;
    var all, before := LeaveTicks(LeaveHistory(ticks), g), LeaveTicks(LeaveHistory(ticks[..n]), g);
    forall j: nat | j < n
      ensures LeaveHistory(ticks)[j] == LeaveHistory(ticks[..n])[j]
    {
      assert Before(ticks[..n], j) == Before(ticks, j);
    }
    assert all == if n in all then before + {n} else before;
  }

  /** Leave events that name a group are the ticks that leave it. */
  lemma {:induction false} NamingIsLeaveTicks(ticks: seq<seq<Item>>, g: Addr)
    ensures LeavesNaming(Enqueues(ticks), g) == |LeaveTicks(LeaveHistory(ticks), g)|
  {
    if ticks == [] {
      assert LeaveTicks(LeaveHistory(ticks), g) == {};
    } else {
      var n := |ticks| - 1;
      NamingIsLeaveTicks(ticks[..n], g);
      NamingAfterTick(Enqueues(ticks[..n]), Before(ticks, n), ticks[n], g);
      LeaveTicksLast(ticks, g);
    }
  }

  lemma NamingIsStretches(ticks: seq<seq<Item>>, g: Addr)
    requires ticks != [] && ticks[|ticks| - 1] == []
    ensures LeavesNaming(Enqueues(ticks), g) == |Stretches(ticks, g)|
  {
    NamingIsLeaveTicks(ticks, g);
    JoinsAndLeavesBalance(ticks, g);
  }

  /**
   A reporter that ended on an empty tick enqueued, for each group, as many leaves naming it as there were
   maximal stretches of consecutive ticks listing it.
   */
  lemma LeavesPerStretch(states: seq<State>, acts: seq<Action>, n: nat, id: nat, g: Addr)
    requires IsRun(states, acts) && n <= |acts| && id in states[n].reporters
    requires var r := states[n].reporters[id];
      (r.pc.Releasing? || r.pc.Gone?) && r.ticks != [] && r.ticks[|r.ticks| - 1] == []
    ensures LeavesNaming(EventsBy(states, acts, n, id), g) == |Stretches(states[n].reporters[id].ticks, g)|
  {
    ReporterEnqueuesItsTicks(states, acts, n, id);
    NamingIsStretches(states[n].reporters[id].ticks, g);
  }

  lemma NoGroups(items: seq<Item>)
    ensures Groups(items) == {} <==> items == []
  {
    if items != [] { assert items[0].group in Groups(items); }
  }

  /** The enqueues of some ticks leave nothing joined exactly if there are none or the last list is empty. */
  lemma LastListJoined(ticks: seq<seq<Item>>)
    ensures var joined := Joined(Enqueues(ticks));
      && joined == Groups(Before(ticks, |ticks|))
      && (joined == {} <==> ticks == [] || ticks[|ticks| - 1] == [])
  {
    EnqueuesJoinLast(ticks);
    NoGroups(Before(ticks, |ticks|));
  }

  /** A reporter that has ended has enqueued what its ticks call for; before cancellation its last list was empty. */
  lemma EndedHistory(states: seq<State>, acts: seq<Action>, n: nat, id: nat)
    requires IsRun(states, acts) && n <= |acts| && id in states[n].reporters
    requires states[n].reporters[id].pc.Releasing? || states[n].reporters[id].pc.Gone?
    ensures var ticks := states[n].reporters[id].ticks;
      && EventsBy(states, acts, n, id) == Enqueues(ticks)
      && (!states[n].cancelled ==> ticks != [] && ticks[|ticks| - 1] == [])
  {
    ReporterEnqueuesItsTicks(states, acts, n, id);
    if !states[n].cancelled { EndsOnEmptyTick(states, acts, n, id); }
  }

  /**
   What a reporter leaves joined when it ends: the groups of the last list it built, so nothing exactly if it
   built none or the last is empty. Before cancellation that is always so.
   */
  lemma JoinedAtTheEnd(states: seq<State>, acts: seq<Action>, n: nat, id: nat)
    requires IsRun(states, acts) && n <= |acts| && id in states[n].reporters
    requires states[n].reporters[id].pc.Releasing? || states[n].reporters[id].pc.Gone?
    ensures var ticks, joined := states[n].reporters[id].ticks, Joined(EventsBy(states, acts, n, id));
      && joined == Groups(Before(ticks, |ticks|))
      && (joined == {} <==> ticks == [] || ticks[|ticks| - 1] == [])
      && (!states[n].cancelled ==> joined == {})
  {
    EndedHistory(states, acts, n, id);
    LastListJoined(states[n].reporters[id].ticks);
  }

  // ----- Replies to queries -----

  function AnswerOf(pc: SupervisorPc, a: Action): seq<Event> {
    if a.AnswerEnd? && pc.Answering? && pc.scan.found != [] then [QueryReply(pc.scan.found)] else []
  }

  /** The lists with which queries were answered in the first `n` steps. */
  function Answers(states: seq<State>, acts: seq<Action>, n: nat): seq<Event>
    requires n <= |acts| && |states| == |acts| + 1
  {
    if n == 0 then []
    else Answers(states, acts, n - 1) + AnswerOf(states[n - 1].sup, acts[n - 1])
  }

  /** The replies among the events. */
  function RepliesIn(events: seq<Event>): seq<Event> {
    if events == [] then []
    else
      var e := events[|events| - 1];
      RepliesIn(events[..|events| - 1]) + if e.QueryReply? then [e] else []
  }

  /** The reply the supervisor is about to send. */
  function Pending(pc: SupervisorPc): seq<Event> {
    match pc
    case Replying(groups) => [QueryReply(groups)]
    case ReplyBlocked(groups) => [QueryReply(groups)]
    case _ => []
  }

  lemma RepliesAppend(events: seq<Event>, e: Event)
    ensures RepliesIn(events + [e]) == RepliesIn(events) + if e.QueryReply? then [e] else []
  {
    assert (events + [e])[..|events|] == events;
  }

  /** A supervisor's move turns what it answers with into a pending reply, and a pending reply into an event. */
  lemma SupervisorMoveReplies(s: State, a: Action)
    requires IsSupervisor(a) && MoveSupervisor(s.sup, s, a).Some?
    ensures var m := MoveSupervisor(s.sup, s, a).value;
      && (m.post.Some? ==>
            && m.post.value.QueryReply? && !a.AnswerEnd?
            && Pending(s.sup) == [m.post.value] && Pending(m.pc) == [])
      && (m.post.None? ==>
            if a.AnswerEnd? && s.sup.scan.found != []
            then Pending(s.sup) == [] && Pending(m.pc) == [QueryReply(s.sup.scan.found)]
            else Pending(m.pc) == Pending(s.sup))
  {
  }

  lemma SupervisorFrame(s: State, a: Action, t: State)
    requires Step(s, a) == Some(t)
    ensures IsSupervisor(a) ==>
        && MoveSupervisor(s.sup, s, a).Some?
        && var m := MoveSupervisor(s.sup, s, a).value;
           t.sup == m.pc && t.events == if m.post.Some? then s.events + [m.post.value] else s.events
    ensures !IsSupervisor(a) ==> t.sup == s.sup
    ensures !IsSupervisor(a) && !IsReporter(a) ==> t.events == s.events
  {
    if IsSupervisor(a) { SupervisorPosts(s, a, t); } else { SupervisorStays(s, a, t); }
  }

  lemma ReporterPostsNoReply(s: State, a: Action, t: State)
    requires IsReporter(a) && Step(s, a) == Some(t)
    ensures RepliesIn(t.events) == RepliesIn(s.events)
  {
    ReporterFrame(s, a, t);
    var m := MoveReporter(s.reporters[a.id], s, a).value;
    if m.post.Some? { RepliesAppend(s.events, m.post.value); }
  }

  /** The replies enqueued, then the one about to be, are the answers given. */
  ghost predicate Tallies(answers: seq<Event>, events: seq<Event>, pc: SupervisorPc) {
    answers == RepliesIn(events) + Pending(pc)
  }

  lemma AnswerStep(s: State, a: Action, t: State, answers: seq<Event>)
    requires Step(s, a) == Some(t) && Tallies(answers, s.events, s.sup)
    ensures Tallies(answers + AnswerOf(s.sup, a), t.events, t.sup)
  {
    SupervisorFrame(s, a, t);
    if IsSupervisor(a) {
      SupervisorMoveReplies(s, a);
      var post := MoveSupervisor(s.sup, s, a).value.post;
      if post.Some? { RepliesAppend(s.events, post.value); }
    } else if IsReporter(a) {
      ReporterPostsNoReply(s, a, t);
    }
  }

  /** In every run the replies enqueued, then the one about to be, are the lists that queries were answered with. */
  lemma {:induction false} EveryAnswerIsEnqueued(states: seq<State>, acts: seq<Action>, n: nat)
    requires IsRun(states, acts) && n <= |acts|
    ensures Tallies(Answers(states, acts, n), states[n].events, states[n].sup)
  {
    if n > 0 {
      EveryAnswerIsEnqueued(states, acts, n - 1);
      assert Step(states[n - 1], acts[n - 1]) == Some(states[n]);
      AnswerStep(states[n - 1], acts[n - 1], states[n], Answers(states, acts, n - 1));
    }
  }
}
