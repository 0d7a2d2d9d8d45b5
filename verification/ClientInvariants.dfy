/**
 What every step of the client protocol keeps: the token counts the live reporters, each
 reporter's history agrees with its variables, the ledger of ticks is what the live
 reporter holds, and each lane is first-in first-out.
 */
module ClientInvariants {
  import opened Base
  import opened LeaveDiff
  import opened ClientProtocol
  import opened Ledger

  // ----- The singleton token -----

  /** The reporters spawned and not past their release. */
  ghost function Live(reporters: map<nat, Reporter>): set<nat> {
    set id <- reporters | reporters[id].pc != Gone
  }

  ghost predicate TokenInv(s: State) {
    s.token == |Live(s.reporters)| <= 1
  }

  lemma LiveUpdate(reporters: map<nat, Reporter>, id: nat, r: Reporter)
    ensures Live(reporters[id := r]) == if r.pc == Gone then Live(reporters) - {id} else Live(reporters) + {id}
  {
  }

  lemma TokenAcrossMove(s: State, t: State, id: nat, r: Reporter)
    requires TokenInv(s) && id in Live(s.reporters) && t.reporters == s.reporters[id := r]
    requires t.token == if r.pc == Gone then s.token - 1 else s.token
    ensures TokenInv(t)
  {
    LiveUpdate(s.reporters, id, r);
    assert Live(s.reporters) + {id} == Live(s.reporters);
  }

  /** A reporter is gone exactly by releasing. */
  lemma MoveLives(r: Reporter, s: State, a: Action)
    requires IsReporter(a) && MoveReporter(r, s, a).Some?
    ensures r.pc != Gone
    ensures MoveReporter(r, s, a).value.r.pc == Gone <==> a.Release?
    ensures a.Release? ==> s.token > 0
  {
  }

  const FRESH := Reporter(Select, [], [], [])

  /** Does this supervisor action start a reporter? */
  predicate Starts(s: State, a: Action) {
    a.TryStart? && s.token < 1
  }

  lemma SupervisorReporters(s: State, a: Action, t: State)
    requires IsSupervisor(a) && Step(s, a) == Some(t)
    ensures t.clock == s.clock && t.cancelled == s.cancelled
    ensures if Starts(s, a) then
        && a.id !in s.reporters && t.reporters == s.reporters[a.id := FRESH] && t.token == s.token + 1
        && t.events == s.events
      else t.reporters == s.reporters && t.token == s.token
  {
    assert MoveSupervisor(s.sup, s, a).value.start <==> Starts(s, a);
  }

  /** Apart from reporters themselves, only a start touches the reporters and the token. */
  lemma ReportersFrame(s: State, a: Action, t: State)
    requires !IsReporter(a) && Step(s, a) == Some(t)
    ensures !Starts(s, a) ==> t.reporters == s.reporters && t.token == s.token
    ensures Starts(s, a) ==>
      && a.id !in s.reporters && t.reporters == s.reporters[a.id := FRESH] && t.token == s.token + 1
      && t.events == s.events
    ensures t.clock >= s.clock && (t.cancelled == s.cancelled || a.Cancel?)
  {
    if IsSupervisor(a) { SupervisorReporters(s, a, t); }
  }

  lemma TokenReporter(s: State, a: Action, t: State)
    requires TokenInv(s) && IsReporter(a) && Step(s, a) == Some(t)
    ensures TokenInv(t)
  {
    MoveLives(s.reporters[a.id], s, a);
    TokenAcrossMove(s, t, a.id, t.reporters[a.id]);
  }

  lemma TokenStep(s: State, a: Action, t: State)
    requires TokenInv(s) && Step(s, a) == Some(t)
    ensures TokenInv(t)
  {
    if IsReporter(a) {
      TokenReporter(s, a, t);
    } else {
      ReportersFrame(s, a, t);
      if Starts(s, a) {
        LiveUpdate(s.reporters, a.id, FRESH);
        assert Live(s.reporters) == {};
      }
    }
  }

  /** A reporter's step changes its own entry by its move, and posts the event of the move. */
  lemma ReporterFrame(s: State, a: Action, t: State)
    requires IsReporter(a) && Step(s, a) == Some(t)
    ensures a.id in s.reporters && MoveReporter(s.reporters[a.id], s, a).Some?
    ensures var m := MoveReporter(s.reporters[a.id], s, a).value;
      && t.reporters == s.reporters[a.id := m.r]
      && t.events == (if m.post.Some? then s.events + [m.post.value] else s.events)
    ensures t.clock == s.clock && t.cancelled == s.cancelled && t.streams == s.streams
  {
  }

  /** While one reporter is live there is no other. */
  lemma OnlyOne(live: set<nat>, id: nat)
    requires id in live && |live| <= 1
    ensures live == {id}
  {
    assert |live - {id}| == 0;
    assert live == (live - {id}) + {id};
  }

  // ----- The history of one reporter -----

  ghost predicate NonEmptyBefore(ticks: seq<seq<Item>>, n: nat) {
    forall j | 0 <= j < n && j < |ticks| :: ticks[j] != []
  }

  ghost predicate ScanInv(scan: Scan, clock: nat) {
    scan.start <= clock && |scan.found| == |scan.visited|
  }

  /** Each list left is the diff of its tick and the one before. */
  ghost predicate LeftFollows(left: seq<seq<Item>>, ticks: seq<seq<Item>>) {
    && |left| <= |ticks|
    && forall j {:trigger left[j]} | 0 <= j < |left| :: left[j] == Leaves(ticks[j], Before(ticks, j))
  }

  /** `left` is the diff history of `ticks`, and `prev` and the pc agree with `ticks`. */
  ghost predicate ReporterInv(r: Reporter, clock: nat) {
    var n := |r.ticks|;
    && LeftFollows(r.left, r.ticks)
    && match r.pc {
      case Select => |r.left| == n && r.prev == Before(r.ticks, n) && NonEmptyBefore(r.ticks, n)
      case Scanning(scan) =>
        && |r.left| == n && r.prev == Before(r.ticks, n) && NonEmptyBefore(r.ticks, n)
        && ScanInv(scan, clock)
      case Leaving(groups) =>
        && n > 0 && |r.left| == n - 1 && r.ticks[n - 1] == groups
        && r.prev == Before(r.ticks, n - 1) && NonEmptyBefore(r.ticks, n - 1)
      case LeaveBlocked(groups) =>
        && n > 0 && |r.left| == n - 1 && r.ticks[n - 1] == groups
        && r.prev == Before(r.ticks, n - 1) && NonEmptyBefore(r.ticks, n - 1)
      case Reporting(groups) =>
        && n > 0 && |r.left| == n && r.ticks[n - 1] == groups
        && r.prev == Before(r.ticks, n - 1) && NonEmptyBefore(r.ticks, n)
      case ReportBlocked(groups) =>
        && n > 0 && |r.left| == n && r.ticks[n - 1] == groups
        && r.prev == Before(r.ticks, n - 1) && NonEmptyBefore(r.ticks, n)
      case Releasing => |r.left| == n && NonEmptyBefore(r.ticks, if n == 0 then 0 else n - 1)
      case Gone => |r.left| == n && NonEmptyBefore(r.ticks, if n == 0 then 0 else n - 1)
    }
  }

  /** One more tick changes nothing about the ticks before it. */
  lemma MoreTicks(left: seq<seq<Item>>, ticks: seq<seq<Item>>, groups: seq<Item>)
    requires LeftFollows(left, ticks)
    ensures LeftFollows(left, ticks + [groups])
    ensures Before(ticks + [groups], |ticks|) == Before(ticks, |ticks|)
  {
    forall j | 0 <= j < |left|
      ensures left[j] == Leaves((ticks + [groups])[j], Before(ticks + [groups], j))
    {
      assert left[j] == Leaves(ticks[j], Before(ticks, j));
    }
  }

  lemma ListBuiltKeepsReporterInv(r: Reporter, groups: seq<Item>, clock: nat)
    requires r.pc.Scanning? && ReporterInv(r, clock)
    ensures ReporterInv(r.(pc := Leaving(groups), ticks := r.ticks + [groups]), clock)
  {
    MoreTicks(r.left, r.ticks, groups);
  }

  /** A walk collects one item for each key it visits. */
  lemma VisitedInv(scan: Scan, k: Key, item: Item, clock: nat)
    requires ScanInv(scan, clock) && k !in scan.visited
    ensures ScanInv(Visited(scan, k, item), clock)
  {
  }

  lemma LeftExtends(left: seq<seq<Item>>, ticks: seq<seq<Item>>)
    requires |left| < |ticks| && LeftFollows(left, ticks)
    ensures LeftFollows(left + [Leaves(ticks[|left|], Before(ticks, |left|))], ticks)
  {
  }

  lemma AfterLeavesInv(r: Reporter, groups: seq<Item>, clock: nat)
    requires ReporterInv(r, clock) && (r.pc == Leaving(groups) || r.pc == LeaveBlocked(groups))
    ensures ReporterInv(AfterLeaves(r, groups).r, clock)
  {
    LeftExtends(r.left, r.ticks);
  }

  lemma LeavingKeepsReporterInv(r: Reporter, s: State, a: Action)
    requires ReporterInv(r, s.clock) && IsReporter(a) && MoveReporter(r, s, a).Some?
    requires r.pc.Leaving? || r.pc.LeaveBlocked?
    ensures ReporterInv(MoveReporter(r, s, a).value.r, s.clock)
  {
    AfterLeavesInv(r, r.pc.groups, s.clock);
  }

  lemma MoveKeepsReporterInv(r: Reporter, s: State, a: Action)
    requires ReporterInv(r, s.clock) && IsReporter(a) && MoveReporter(r, s, a).Some?
    ensures ReporterInv(MoveReporter(r, s, a).value.r, s.clock)
  {
    if a.ScanEnd? {
      ListBuiltKeepsReporterInv(r, r.pc.scan.found, s.clock);
    } else if a.Visit? {
      VisitedInv(r.pc.scan, a.key, s.streams[a.key].item, s.clock);
    } else if r.pc.Leaving? || r.pc.LeaveBlocked? {
      LeavingKeepsReporterInv(r, s, a);
    }
  }

  lemma ReporterInvLater(r: Reporter, clock: nat, clock': nat)
    requires ReporterInv(r, clock) && clock <= clock'
    ensures ReporterInv(r, clock')
  {
  }

  ghost predicate ReportersInv(reporters: map<nat, Reporter>, clock: nat) {
    forall id <- reporters :: ReporterInv(reporters[id], clock)
  }

  ghost predicate HistoryInv(s: State) {
    && ReportersInv(s.reporters, s.clock)
    && (s.sup.Answering? ==> ScanInv(s.sup.scan, s.clock))
  }

  lemma MoveScan(pc: SupervisorPc, s: State, a: Action)
    requires IsSupervisor(a) && MoveSupervisor(pc, s, a).Some? && (pc.Answering? ==> ScanInv(pc.scan, s.clock))
    ensures var m := MoveSupervisor(pc, s, a).value; m.pc.Answering? ==> ScanInv(m.pc.scan, s.clock)
  {
    if a.AnswerVisit? { VisitedInv(pc.scan, a.key, s.streams[a.key].item, s.clock); }
  }

  lemma SupervisorPosts(s: State, a: Action, t: State)
    requires IsSupervisor(a) && Step(s, a) == Some(t)
    ensures var m := MoveSupervisor(s.sup, s, a).value;
      && t.sup == m.pc && t.clock == s.clock
      && var p := PostIf(s, m.post);
         t.wire == p.wire && t.reports == p.reports && t.leaves == p.leaves && t.events == p.events
  {
  }

  lemma SupervisorStays(s: State, a: Action, t: State)
    requires !IsSupervisor(a) && Step(s, a) == Some(t)
    ensures t.sup == s.sup && t.clock >= s.clock
  {
  }

  lemma SupervisorScan(s: State, a: Action, t: State)
    requires HistoryInv(s) && Step(s, a) == Some(t)
    ensures t.sup.Answering? ==> ScanInv(t.sup.scan, t.clock)
  {
    if IsSupervisor(a) {
      SupervisorPosts(s, a, t);
      MoveScan(s.sup, s, a);
    } else {
      SupervisorStays(s, a, t);
    }
  }

  lemma ReportersInvUpdate(reporters: map<nat, Reporter>, clock: nat, id: nat, r: Reporter)
    requires ReportersInv(reporters, clock) && ReporterInv(r, clock)
    ensures ReportersInv(reporters[id := r], clock)
  {
  }

  lemma HistoryReporterStep(s: State, a: Action, t: State)
    requires HistoryInv(s) && IsReporter(a) && Step(s, a) == Some(t)
    ensures ReportersInv(t.reporters, t.clock)
  {
    ReporterFrame(s, a, t);
    var r := s.reporters[a.id];
    MoveKeepsReporterInv(r, s, a);
    ReportersInvUpdate(s.reporters, s.clock, a.id, MoveReporter(r, s, a).value.r);
  }

  lemma HistoryStep(s: State, a: Action, t: State)
    requires HistoryInv(s) && Step(s, a) == Some(t)
    ensures HistoryInv(t)
  {
    SupervisorScan(s, a, t);
    if IsReporter(a) {
      HistoryReporterStep(s, a, t);
    } else {
      ReportersFrame(s, a, t);
      forall id <- s.reporters
        ensures ReporterInv(s.reporters[id], t.clock)
      {
        ReporterInvLater(s.reporters[id], s.clock, t.clock);
      }
      assert ReporterInv(FRESH, t.clock);
    }
  }

  // ----- The ledger of ticks -----

  /** The groups a reporter has joined and not left. */
  ghost function Held(r: Reporter): set<Addr> {
    match r.pc
    case Select => Groups(r.prev)
    case Scanning(_) => Groups(r.prev)
    case Leaving(_) => Groups(r.prev)
    case LeaveBlocked(_) => Groups(r.prev)
    case Reporting(groups) => Groups(r.prev) * Groups(groups)
    case ReportBlocked(groups) => Groups(r.prev) * Groups(groups)
    case Releasing => {}
    case Gone => {}
  }

  ghost predicate Matches(r: Reporter, events: seq<Event>, cancelled: bool) {
    && Held(r) <= TickJoined(events)
    && (!cancelled ==> Held(r) == TickJoined(events))
  }

  /** Before cancellation the ticks account for exactly what the live reporter holds; after it, for at least that. */
  ghost predicate Accounts(reporters: map<nat, Reporter>, events: seq<Event>, cancelled: bool) {
    && (forall id <- Live(reporters) :: Matches(reporters[id], events, cancelled))
    && (!cancelled && Live(reporters) == {} ==> TickJoined(events) == {})
  }

  ghost predicate LedgerInv(s: State) {
    Accounts(s.reporters, s.events, s.cancelled)
  }

  /** Every leave in the history was for groups that ticks accounted for at that point. */
  ghost predicate LeavesWereHeld(events: seq<Event>) {
    forall b | 0 <= b < |events| && events[b].TickLeave? ::
      Groups(events[b].items) <= TickJoined(events[..b])
  }

  /** A reporter's holdings follow the events it posts; only cancellation lets go of them silently. */
  lemma MoveHeld(r: Reporter, s: State, a: Action)
    requires ReporterInv(r, s.clock) && IsReporter(a) && MoveReporter(r, s, a).Some?
    ensures var m := MoveReporter(r, s, a).value;
      match m.post {
        case Some(e) =>
          && !e.QueryReply? && Held(m.r) == Apply(Held(r), e)
          && (e.TickLeave? ==> Groups(e.items) <= Held(r))
        case None => Held(m.r) == Held(r) || (s.cancelled && Held(m.r) == {})
      }
  {
    if r.pc.Leaving? || r.pc.LeaveBlocked? {
      LeavesGroups(r.pc.groups, r.prev);
    }
  }

  /** A move keeps the ledger matched, by what it does to the reporter's holdings. */
  lemma MatchesAfter(events: seq<Event>, cancelled: bool, r: Reporter, m: ReporterMove)
    requires Matches(r, events, cancelled)
    requires m.post.Some? ==> !m.post.value.QueryReply? && Held(m.r) == Apply(Held(r), m.post.value)
    requires m.post.None? ==> Held(m.r) == Held(r) || (cancelled && Held(m.r) == {})
    ensures Matches(m.r, if m.post.Some? then events + [m.post.value] else events, cancelled)
  {
    if m.post.Some? { Append(events, m.post.value); }
  }

  lemma AccountsAfter(reporters: map<nat, Reporter>, events: seq<Event>, cancelled: bool, id: nat, r: Reporter)
    requires Live(reporters) == {id} && Matches(r, events, cancelled)
    ensures Accounts(reporters[id := r], events, cancelled)
  {
    LiveUpdate(reporters, id, r);
  }

  lemma ReporterLedger(s: State, a: Action, t: State)
    requires TokenInv(s) && HistoryInv(s) && LedgerInv(s) && IsReporter(a) && Step(s, a) == Some(t)
    ensures LedgerInv(t)
  {
    var r := s.reporters[a.id];
    var m := MoveReporter(r, s, a).value;
    assert ReporterInv(r, s.clock);
    MoveLives(r, s, a);
    MoveHeld(r, s, a);
    assert a.id in Live(s.reporters);
    OnlyOne(Live(s.reporters), a.id);
    MatchesAfter(s.events, s.cancelled, r, m);
    AccountsAfter(s.reporters, t.events, s.cancelled, a.id, m.r);
  }

  /** Apart from reporters, only the supervisor posts, and only replies to queries. */
  lemma EventsFrame(s: State, a: Action, t: State)
    requires !IsReporter(a) && Step(s, a) == Some(t)
    ensures t.events == s.events || (exists items :: t.events == s.events + [QueryReply(items)])
    ensures TickJoined(t.events) == TickJoined(s.events)
  {
    if IsSupervisor(a) {
      var m := MoveSupervisor(s.sup, s, a).value;
      if m.post.Some? {
        assert m.post.value == QueryReply(s.sup.groups);
        Append(s.events, m.post.value);
      }
    }
  }

  lemma LedgerStep(s: State, a: Action, t: State)
    requires TokenInv(s) && HistoryInv(s) && LedgerInv(s) && Step(s, a) == Some(t)
    ensures LedgerInv(t)
  {
    if IsReporter(a) {
      ReporterLedger(s, a, t);
    } else {
      ReportersFrame(s, a, t);
      EventsFrame(s, a, t);
      if Starts(s, a) {
        LiveUpdate(s.reporters, a.id, FRESH);
        assert Live(s.reporters) == {};
      }
    }
  }

  lemma HeldAppend(events: seq<Event>, e: Event)
    requires LeavesWereHeld(events) && (e.TickLeave? ==> Groups(e.items) <= TickJoined(events))
    ensures LeavesWereHeld(events + [e])
  {
    forall b | 0 <= b < |events| + 1 && (events + [e])[b].TickLeave?
      ensures Groups((events + [e])[b].items) <= TickJoined((events + [e])[..b])
    {
      assert (events + [e])[..b] == events[..b];
      assert events[..|events|] == events;
    }
  }

  lemma LeavesStep(s: State, a: Action, t: State)
    requires TokenInv(s) && HistoryInv(s) && LedgerInv(s) && LeavesWereHeld(s.events) && Step(s, a) == Some(t)
    ensures LeavesWereHeld(t.events)
  {
    if IsReporter(a) {
      var r := s.reporters[a.id];
      assert ReporterInv(r, s.clock);
      MoveLives(r, s, a);
      MoveHeld(r, s, a);
      assert a.id in Live(s.reporters);
      if t.events != s.events { HeldAppend(s.events, MoveReporter(r, s, a).value.post.value); }
    } else {
      EventsFrame(s, a, t);
      if t.events != s.events {
        var items :| t.events == s.events + [QueryReply(items)];
        HeldAppend(s.events, QueryReply(items));
      }
    }
  }

  // ----- First in, first out -----

  /** Sent, then still to send, is everything enqueued; and the queue respects its capacity. */
  ghost predicate InOrder(wire: seq<Msg>, lane: Lane, events: seq<Event>, l: LaneId) {
    && Sent(wire, l) + Unsent(lane) == Enqueued(events, l)
    && |lane.queue| <= CHANNEL_SIZE
  }

  ghost predicate LaneInv(s: State, l: LaneId) {
    InOrder(s.wire, LaneOf(s, l), s.events, l)
  }

  lemma PostLane(s: State, e: Event, l: LaneId)
    requires LaneInv(s, l) && (LaneFor(e) == l ==> HasRoom(LaneOf(s, l)))
    ensures LaneInv(Post(s, e), l)
  {
    EnqueuedAppend(s.events, e, l);
    if LaneFor(e) == l { UnsentAppend(LaneOf(s, l), e.items, Sent(s.wire, l)); }
  }

  /** A worker's move sends the head of what its lane has still to send, or nothing. */
  lemma MoveUnsent(lane: Lane, cancelled: bool, a: Action)
    requires IsWorker(a) && MoveWorker(lane, cancelled, a).Some? && MoveWorker(lane, cancelled, a).value.WorkerMove?
    ensures var m := MoveWorker(lane, cancelled, a).value;
      && Unsent(lane) == (if m.sent.Some? then [m.sent.value] else []) + Unsent(m.lane)
      && |m.lane.queue| <= |lane.queue|
  {
    if a.Send? {
      var rest := lane.worker.rest;
      assert GroupSeq(rest) == [rest[0].group] + GroupSeq(rest[1..]);
    }
  }

  /** A worker's step is its move, carried out on its lane and the wire. */
  lemma WorkerShape(s: State, a: Action, t: State)
    requires IsWorker(a) && Step(s, a) == Some(t)
    ensures MoveWorker(LaneOf(s, a.lane), s.cancelled, a).Some?
    ensures t == match MoveWorker(LaneOf(s, a.lane), s.cancelled, a).value
      case Fatal => s.(halted := true)
      case WorkerMove(lane, sent) =>
        SetLane(s, a.lane, lane).(wire := if sent.Some? then s.wire + [Msg(a.lane, sent.value)] else s.wire)
  {
  }

  lemma WorkerFrame(s: State, a: Action, t: State, l: LaneId)
    requires IsWorker(a) && Step(s, a) == Some(t)
    ensures t.cancelled == s.cancelled && t.events == s.events && (l != a.lane ==> LaneOf(t, l) == LaneOf(s, l))
    ensures match MoveWorker(LaneOf(s, a.lane), s.cancelled, a).value
      case Fatal => t == s.(halted := true)
      case WorkerMove(lane, sent) =>
        && LaneOf(t, a.lane) == lane
        && t.wire == if sent.Some? then s.wire + [Msg(a.lane, sent.value)] else s.wire
  {
    WorkerShape(s, a, t);
  }

  lemma SentInOrder(wire: seq<Msg>, lane: Lane, events: seq<Event>, m: WorkerMove, l: LaneId)
    requires InOrder(wire, lane, events, l) && m.WorkerMove? && |m.lane.queue| <= |lane.queue|
    requires Unsent(lane) == (if m.sent.Some? then [m.sent.value] else []) + Unsent(m.lane)
    ensures InOrder(if m.sent.Some? then wire + [Msg(l, m.sent.value)] else wire, m.lane, events, l)
  {
    if m.sent.Some? {
      SentAppend(wire, Msg(l, m.sent.value), l);
      Associative(Sent(wire, l), [m.sent.value], Unsent(m.lane));
    } else {
      assert Unsent(lane) == Unsent(m.lane);
    }
  }

  lemma SentElsewhere(wire: seq<Msg>, lane: Lane, events: seq<Event>, sent: Option<Addr>, at: LaneId, l: LaneId)
    requires InOrder(wire, lane, events, l) && at != l
    ensures InOrder(if sent.Some? then wire + [Msg(at, sent.value)] else wire, lane, events, l)
  {
    if sent.Some? {
      SentAppend(wire, Msg(at, sent.value), l);
    }
  }

  lemma WorkerLane(s: State, a: Action, t: State, l: LaneId)
    requires LaneInv(s, l) && IsWorker(a) && Step(s, a) == Some(t)
    ensures LaneInv(t, l)
  {
    var lane := LaneOf(s, a.lane);
    var m := MoveWorker(lane, s.cancelled, a).value;
    WorkerFrame(s, a, t, l);
    if m.WorkerMove? {
      if l == a.lane {
        MoveUnsent(lane, s.cancelled, a);
        SentInOrder(s.wire, lane, s.events, m, l);
      } else {
        SentElsewhere(s.wire, LaneOf(s, l), s.events, m.sent, a.lane, l);
      }
    }
  }

  /** An event is only posted when its channel has room. */
  lemma PostsHaveRoom(s: State, a: Action)
    ensures IsReporter(a) && a.id in s.reporters ==>
      match MoveReporter(s.reporters[a.id], s, a)
      case Some(m) => m.post.Some? ==> HasRoom(LaneOf(s, LaneFor(m.post.value)))
      case None => true
    ensures IsSupervisor(a) ==>
      match MoveSupervisor(s.sup, s, a)
      case Some(m) => m.post.Some? ==> HasRoom(LaneOf(s, LaneFor(m.post.value)))
      case None => true
  {
  }

  /** Apart from workers, a goroutine's step changes lanes, wire and history only by the event it posts. */
  lemma ReporterPosts(s: State, a: Action, t: State)
    requires IsReporter(a) && Step(s, a) == Some(t)
    ensures var p := PostIf(s, MoveReporter(s.reporters[a.id], s, a).value.post);
      t.wire == p.wire && t.reports == p.reports && t.leaves == p.leaves && t.events == p.events
  {
  }

  lemma PostIfLane(s: State, post: Option<Event>, t: State, l: LaneId)
    requires LaneInv(s, l) && (post.Some? ==> HasRoom(LaneOf(s, LaneFor(post.value))))
    requires var p := PostIf(s, post);
      t.wire == p.wire && t.reports == p.reports && t.leaves == p.leaves && t.events == p.events
    ensures LaneInv(t, l)
  {
    if post.Some? { PostLane(s, post.value, l); }
    assert LaneOf(t, l) == LaneOf(PostIf(s, post), l);
  }

  lemma LaneStep(s: State, a: Action, t: State, l: LaneId)
    requires LaneInv(s, l) && Step(s, a) == Some(t)
    ensures LaneInv(t, l)
  {
    PostsHaveRoom(s, a);
    if IsWorker(a) {
      WorkerLane(s, a, t, l);
    } else if IsReporter(a) {
      ReporterPosts(s, a, t);
      PostIfLane(s, MoveReporter(s.reporters[a.id], s, a).value.post, t, l);
    } else if IsSupervisor(a) {
      SupervisorPosts(s, a, t);
      PostIfLane(s, MoveSupervisor(s.sup, s, a).value.post, t, l);
    }
  }

  // ----- Workers stop only after cancellation -----

  ghost predicate WorkersInv(s: State) {
    s.reports.worker.Exited? || s.leaves.worker.Exited? ==> s.cancelled
  }

  lemma PostWorker(s: State, post: Option<Event>, l: LaneId)
    ensures LaneOf(PostIf(s, post), l).worker == LaneOf(s, l).worker && PostIf(s, post).cancelled == s.cancelled
  {
  }

  lemma SupervisorLanes(s: State, a: Action, t: State, l: LaneId)
    requires IsSupervisor(a) && Step(s, a) == Some(t)
    ensures LaneOf(t, l).worker == LaneOf(s, l).worker && t.cancelled == s.cancelled
  {
    PostWorker(s, MoveSupervisor(s.sup, s, a).value.post, l);
  }

  lemma ReporterLanes(s: State, a: Action, t: State, l: LaneId)
    requires IsReporter(a) && Step(s, a) == Some(t)
    ensures LaneOf(t, l).worker == LaneOf(s, l).worker && t.cancelled == s.cancelled
  {
    PostWorker(s, MoveReporter(s.reporters[a.id], s, a).value.post, l);
  }

  /** Apart from workers, nobody touches a worker, and posting only lengthens a queue. */
  lemma LanesFrame(s: State, a: Action, t: State, l: LaneId)
    requires !IsWorker(a) && Step(s, a) == Some(t)
    ensures LaneOf(t, l).worker == LaneOf(s, l).worker
    ensures s.cancelled ==> t.cancelled
  {
    if IsSupervisor(a) {
      SupervisorLanes(s, a, t, l);
    } else if IsReporter(a) {
      ReporterLanes(s, a, t, l);
    }
  }

  lemma WorkersStep(s: State, a: Action, t: State)
    requires WorkersInv(s) && Step(s, a) == Some(t)
    ensures WorkersInv(t)
  {
    if IsWorker(a) {
      WorkerFrame(s, a, t, Reports);
      WorkerFrame(s, a, t, Departures);
    } else {
      LanesFrame(s, a, t, Reports);
      LanesFrame(s, a, t, Departures);
    }
  }

  // ----- All of it -----

  ghost predicate Inv(s: State) {
    && TokenInv(s) && HistoryInv(s) && LedgerInv(s) && LeavesWereHeld(s.events) && WorkersInv(s)
    && LaneInv(s, Reports) && LaneInv(s, Departures)
  }

  lemma InvStep(s: State, a: Action, t: State)
    requires Inv(s) && Step(s, a) == Some(t)
    ensures Inv(t)
  {
    TokenStep(s, a, t);
    HistoryStep(s, a, t);
    LedgerStep(s, a, t);
    LeavesStep(s, a, t);
    WorkersStep(s, a, t);
    LaneStep(s, a, t, Reports);
    LaneStep(s, a, t, Departures);
  }

  lemma {:induction false} InvAlongRun(states: seq<State>, acts: seq<Action>, i: nat)
    requires IsRun(states, acts) && i <= |acts|
    ensures Inv(states[i])
  {
    if i > 0 {
      InvAlongRun(states, acts, i - 1);
      assert Step(states[i - 1], acts[i - 1]) == Some(states[i]);
      InvStep(states[i - 1], acts[i - 1], states[i]);
    } else {
      assert Live(INIT.reporters) == {};
    }
  }

  lemma InvHolds(s: State)
    requires Reachable(s)
    ensures Inv(s)
  {
    var states, acts :| IsRun(states, acts) && states[|acts|] == s;
    InvAlongRun(states, acts, |acts|);
  }
}
