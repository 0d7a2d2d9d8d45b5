/**
 When do the two workers, which drain their channels independently, leave the network
 with the ledger that the enqueue order describes?
 */
module ClientCommutation {
  import opened Base
  import opened LeaveDiff
  import opened ClientProtocol
  import opened Ledger
  import opened ClientInvariants

  /** The groups a lane still has to send. */
  ghost function Pending(lane: Lane): set<Addr> {
    set g <- Unsent(lane)
  }

  /** The event an action puts on a channel, if any. */
  function Posted(s: State, a: Action): Option<Event> {
    if IsReporter(a) && a.id in s.reporters && MoveReporter(s.reporters[a.id], s, a).Some?
    then MoveReporter(s.reporters[a.id], s, a).value.post
    else if IsSupervisor(a) && MoveSupervisor(s.sup, s, a).Some? then MoveSupervisor(s.sup, s, a).value.post
    else None
  }

  function Other(l: LaneId): LaneId {
    if l == Reports then Departures else Reports
  }

  /** What the wire shows, corrected by what is still pending, is the ledger of the enqueue history. */
  ghost predicate Balanced(wire: seq<Msg>, reports: set<Addr>, leaves: set<Addr>, events: seq<Event>) {
    && reports !! leaves
    && Joined(events) == (WireJoined(wire) - leaves) + reports
  }

  ghost predicate StateBalanced(s: State) {
    Balanced(s.wire, Pending(s.reports), Pending(s.leaves), s.events)
  }

  /** An action enqueues no group that the other lane still has to send. */
  ghost predicate NoOverlap(s: State, a: Action) {
    Posted(s, a).Some? ==>
      Groups(Posted(s, a).value.items) !! Pending(LaneOf(s, Other(LaneFor(Posted(s, a).value))))
  }

  lemma PendingPost(lane: Lane, items: seq<Item>)
    ensures Pending(lane.(queue := lane.queue + [items])) == Pending(lane) + Groups(items)
  {
    QueuedAppend(lane.queue, items);
    var old_, new_ := Unsent(lane), Unsent(lane.(queue := lane.queue + [items]));
    assert new_ == old_ + GroupSeq(items);
    forall g
      ensures g in GroupSeq(items) <==> g in Groups(items)
    {
      if g in GroupSeq(items) {
        var i :| 0 <= i < |items| && GroupSeq(items)[i] == g;
        assert items[i] in items;
      }
      if g in Groups(items) {
        var it :| it in items && it.group == g;
        var i :| 0 <= i < |items| && items[i] == it;
        assert GroupSeq(items)[i] == g;
      }
    }
  }

  lemma ReportBalanced(wire: seq<Msg>, reports: set<Addr>, leaves: set<Addr>, events: seq<Event>, e: Event)
    requires Balanced(wire, reports, leaves, events) && !e.TickLeave? && Groups(e.items) !! leaves
    ensures Balanced(wire, reports + Groups(e.items), leaves, events + [e])
  {
    Append(events, e);
  }

  lemma LeaveBalanced(wire: seq<Msg>, reports: set<Addr>, leaves: set<Addr>, events: seq<Event>, e: Event)
    requires Balanced(wire, reports, leaves, events) && e.TickLeave? && Groups(e.items) !! reports
    ensures Balanced(wire, reports, leaves + Groups(e.items), events + [e])
  {
    Append(events, e);
    var gone := Groups(e.items);
    assert ((WireJoined(wire) - leaves) + reports) - gone == (WireJoined(wire) - (leaves + gone)) + reports;
  }

  lemma PostBalanced(s: State, e: Event)
    requires StateBalanced(s) && Groups(e.items) !! Pending(LaneOf(s, Other(LaneFor(e))))
    ensures StateBalanced(Post(s, e))
  {
    PendingPost(LaneOf(s, LaneFor(e)), e.items);
    if e.TickLeave? {
      LeaveBalanced(s.wire, Pending(s.reports), Pending(s.leaves), s.events, e);
    } else {
      ReportBalanced(s.wire, Pending(s.reports), Pending(s.leaves), s.events, e);
    }
  }

  /** The lanes, the wire and the history are those of `s` after posting what the action posts. */
  ghost predicate OnlyPosts(s: State, a: Action, t: State) {
    var p := PostIf(s, Posted(s, a));
    t.wire == p.wire && t.reports == p.reports && t.leaves == p.leaves && t.events == p.events
  }

  lemma ReporterPosts(s: State, a: Action, t: State)
    requires IsReporter(a) && Step(s, a) == Some(t)
    ensures OnlyPosts(s, a, t)
  {
  }

  lemma OthersPost(s: State, a: Action, t: State)
    requires !IsWorker(a) && !IsReporter(a) && Step(s, a) == Some(t)
    ensures OnlyPosts(s, a, t)
  {
  }

  /** What any action but a worker's does to the lanes, the wire and the history. */
  lemma PostedFrame(s: State, a: Action, t: State)
    requires !IsWorker(a) && Step(s, a) == Some(t)
    ensures OnlyPosts(s, a, t)
  {
    if IsReporter(a) { ReporterPosts(s, a, t); } else { OthersPost(s, a, t); }
  }

  lemma SendBalanced(wire: seq<Msg>, reports: set<Addr>, leaves: set<Addr>, events: seq<Event>, l: LaneId, g: Addr,
                     rest: set<Addr>)
    requires Balanced(wire, reports, leaves, events)
    requires (if l == Reports then reports else leaves) == {g} + rest
    ensures Balanced(wire + [Msg(l, g)], if l == Reports then rest else reports,
                     if l == Reports then leaves else rest, events)
  {
    WireAppend(wire, Msg(l, g));
  }

  lemma MoveBalanced(wire: seq<Msg>, reports: Lane, leaves: Lane, events: seq<Event>, l: LaneId, m: WorkerMove)
    requires Balanced(wire, Pending(reports), Pending(leaves), events) && m.WorkerMove?
    requires Unsent(if l == Reports then reports else leaves)
          == (if m.sent.Some? then [m.sent.value] else []) + Unsent(m.lane)
    ensures Balanced(if m.sent.Some? then wire + [Msg(l, m.sent.value)] else wire,
                     Pending(if l == Reports then m.lane else reports),
                     Pending(if l == Reports then leaves else m.lane), events)
  {
    var lane := if l == Reports then reports else leaves;
    if m.sent.Some? {
      assert Pending(lane) == {m.sent.value} + Pending(m.lane);
      SendBalanced(wire, Pending(reports), Pending(leaves), events, l, m.sent.value, Pending(m.lane));
    } else {
      assert Unsent(lane) == Unsent(m.lane);
      assert Pending(lane) == Pending(m.lane);
    }
  }

  lemma WorkerBalanced(s: State, a: Action, t: State)
    requires StateBalanced(s) && IsWorker(a) && Step(s, a) == Some(t)
    ensures StateBalanced(t)
  {
    WorkerFrame(s, a, t, Other(a.lane));
    var lane := LaneOf(s, a.lane);
    var m := MoveWorker(lane, s.cancelled, a).value;
    if m.WorkerMove? {
      MoveUnsent(lane, s.cancelled, a);
      MoveBalanced(s.wire, s.reports, s.leaves, s.events, a.lane, m);
    }
  }

  lemma BalancedStep(s: State, a: Action, t: State)
    requires StateBalanced(s) && NoOverlap(s, a) && Step(s, a) == Some(t)
    ensures StateBalanced(t)
  {
    if IsWorker(a) {
      WorkerBalanced(s, a, t);
    } else {
      PostedFrame(s, a, t);
      if Posted(s, a).Some? { PostBalanced(s, Posted(s, a).value); }
    }
  }

  /** Without overlap between the lanes, wire and pending items always add up to the enqueue ledger. */
  lemma {:induction false} BalancedAlongRun(states: seq<State>, acts: seq<Action>, j: nat)
    requires IsRun(states, acts) && j <= |acts|
    requires forall i | 0 <= i < j :: NoOverlap(states[i], acts[i])
    ensures StateBalanced(states[j])
  {
    if j > 0 {
      BalancedAlongRun(states, acts, j - 1);
      assert Step(states[j - 1], acts[j - 1]) == Some(states[j]);
      BalancedStep(states[j - 1], acts[j - 1], states[j]);
    }
  }

  // ----- Idle lanes at each leave and each reply are enough -----

  /** Both lanes are drained and their workers are back at their selects. */
  predicate Drained(s: State) {
    s.reports.queue == [] && s.leaves.queue == [] && !s.reports.worker.Sending? && !s.leaves.worker.Sending?
  }

  /** Leaves and replies to queries are only enqueued while both lanes are drained. */
  ghost predicate EnqueuesWhenIdle(states: seq<State>, acts: seq<Action>)
    requires IsRun(states, acts)
  {
    forall i | 0 <= i < |acts| ::
      Posted(states[i], acts[i]).Some? && !Posted(states[i], acts[i]).value.TickReport? ==> Drained(states[i])
  }

  ghost predicate Apart(r: Reporter, leaves: set<Addr>) {
    r.pc.Reporting? || r.pc.ReportBlocked? ==> Groups(r.pc.groups) !! leaves
  }

  ghost predicate EveryApart(reporters: map<nat, Reporter>, leaves: set<Addr>) {
    forall id <- reporters :: Apart(reporters[id], leaves)
  }

  /** Between a tick's leaves and its reports, the pending leaves avoid the groups to report. */
  ghost predicate OwnTickApart(s: State) {
    EveryApart(s.reporters, Pending(s.leaves))
  }

  lemma DrainedPending(s: State)
    requires Drained(s)
    ensures Pending(s.reports) == {} && Pending(s.leaves) == {}
  {
  }

  lemma WorkerPending(s: State, a: Action, t: State, l: LaneId)
    requires IsWorker(a) && Step(s, a) == Some(t)
    ensures Pending(LaneOf(t, l)) <= Pending(LaneOf(s, l))
  {
    WorkerFrame(s, a, t, l);
    var lane := LaneOf(s, a.lane);
    if MoveWorker(lane, s.cancelled, a).value.WorkerMove? { MoveUnsent(lane, s.cancelled, a); }
  }

  lemma DrainedIfLeaving(r: Reporter, s: State, a: Action)
    requires IsReporter(a) && MoveReporter(r, s, a).Some? && (r.pc.Leaving? || r.pc.LeaveBlocked?)
    requires var post := MoveReporter(r, s, a).value.post; post.Some? && post.value.TickLeave? ==> Drained(s)
    ensures var post := MoveReporter(r, s, a).value.post;
      post.Some? ==> Pending(PostIf(s, post).leaves) == Groups(Leaves(r.pc.groups, r.prev))
  {
    if MoveReporter(r, s, a).value.post.Some? {
      DrainedPending(s);
      PendingPost(s.leaves, Leaves(r.pc.groups, r.prev));
    }
  }

  /** A reporter not at its leaves comes to no reports, and posts no leaves. */
  lemma ReportsKeepApart(r: Reporter, s: State, a: Action)
    requires IsReporter(a) && MoveReporter(r, s, a).Some? && Apart(r, Pending(s.leaves))
    requires !(r.pc.Leaving? || r.pc.LeaveBlocked?)
    ensures var m := MoveReporter(r, s, a).value;
      PostIf(s, m.post).leaves == s.leaves && Apart(m.r, Pending(s.leaves))
  {
  }

  /** A reporter that comes to its reports has just posted leaves that avoid them, on an idle lane. */
  lemma MoveApart(r: Reporter, s: State, a: Action)
    requires IsReporter(a) && MoveReporter(r, s, a).Some? && Apart(r, Pending(s.leaves))
    requires var post := MoveReporter(r, s, a).value.post; post.Some? && post.value.TickLeave? ==> Drained(s)
    ensures var m := MoveReporter(r, s, a).value;
      Apart(m.r, Pending(PostIf(s, m.post).leaves))
  {
    if r.pc.Leaving? || r.pc.LeaveBlocked? {
      DrainedIfLeaving(r, s, a);
      LeavesGroups(r.pc.groups, r.prev);
    } else {
      ReportsKeepApart(r, s, a);
    }
  }

  lemma AllApart(reporters: map<nat, Reporter>, id: nat, r: Reporter, leaves: set<Addr>)
    requires Live(reporters) == {id} && Apart(r, leaves)
    ensures EveryApart(reporters[id := r], leaves)
  {
    var all := reporters[id := r];
    forall i <- all
      ensures Apart(all[i], leaves)
    {
      assert i != id ==> i !in Live(reporters);
    }
  }

  /** The reporting step that follows its leaves finds only its own leaves pending. */
  lemma ReporterApart(s: State, a: Action, t: State)
    requires TokenInv(s) && OwnTickApart(s) && IsReporter(a) && Step(s, a) == Some(t)
    requires Posted(s, a).Some? && !Posted(s, a).value.TickReport? ==> Drained(s)
    ensures OwnTickApart(t)
  {
    ReporterFrame(s, a, t);
    PostedFrame(s, a, t);
    var r := s.reporters[a.id];
    MoveApart(r, s, a);
    MoveLives(r, s, a);
    OnlyOne(Live(s.reporters), a.id);
    AllApart(s.reporters, a.id, MoveReporter(r, s, a).value.r, Pending(t.leaves));
  }

  lemma OwnTickApartStep(s: State, a: Action, t: State)
    requires TokenInv(s) && OwnTickApart(s) && Step(s, a) == Some(t)
    requires Posted(s, a).Some? && !Posted(s, a).value.TickReport? ==> Drained(s)
    ensures OwnTickApart(t)
  {
    if IsReporter(a) {
      ReporterApart(s, a, t);
    } else {
      ReportersFrame(s, a, t);
      if IsWorker(a) {
        WorkerPending(s, a, t, Departures);
      } else {
        PostedFrame(s, a, t);
        assert t.leaves == s.leaves;
      }
    }
  }

  /** Reports are posted by a reporter that is at its reports. */
  lemma ReportsOfReporter(s: State, a: Action)
    requires Posted(s, a).Some? && Posted(s, a).value.TickReport?
    ensures IsReporter(a) && a.id in s.reporters
    ensures var pc := s.reporters[a.id].pc;
      (pc.Reporting? || pc.ReportBlocked?) && Posted(s, a).value.items == pc.groups
  {
  }

  lemma IdleNoOverlap(s: State, a: Action)
    requires OwnTickApart(s)
    requires Posted(s, a).Some? && !Posted(s, a).value.TickReport? ==> Drained(s)
    ensures NoOverlap(s, a)
  {
    if Posted(s, a).Some? {
      if Posted(s, a).value.TickReport? {
        ReportsOfReporter(s, a);
        assert Apart(s.reporters[a.id], Pending(s.leaves));
      } else {
        DrainedPending(s);
      }
    }
  }

  lemma {:induction false} IdleRunHasNoOverlap(states: seq<State>, acts: seq<Action>, j: nat)
    requires IsRun(states, acts) && EnqueuesWhenIdle(states, acts) && j <= |acts|
    ensures OwnTickApart(states[j])
    ensures forall i | 0 <= i < j :: NoOverlap(states[i], acts[i])
  {
    if j > 0 {
      IdleRunHasNoOverlap(states, acts, j - 1);
      InvAlongRun(states, acts, j - 1);
      assert Step(states[j - 1], acts[j - 1]) == Some(states[j]);
      OwnTickApartStep(states[j - 1], acts[j - 1], states[j]);
      IdleNoOverlap(states[j - 1], acts[j - 1]);
    }
  }

  /**
   If leaves and query replies are only enqueued while both lanes are idle, then however the
   two workers interleave, a drained client has put on the wire the ledger it enqueued.
   */
  lemma ChannelsCommute(states: seq<State>, acts: seq<Action>, j: nat)
    requires IsRun(states, acts) && EnqueuesWhenIdle(states, acts) && j <= |acts|
    ensures Joined(states[j].events)
         == (WireJoined(states[j].wire) - Pending(states[j].leaves)) + Pending(states[j].reports)
    ensures Drained(states[j]) ==> WireJoined(states[j].wire) == Joined(states[j].events)
  {
    IdleRunHasNoOverlap(states, acts, j);
    BalancedAlongRun(states, acts, j);
    if Drained(states[j]) { DrainedPending(states[j]); }
  }
}
