/**
 Runs of the client protocol that show where its guarantees end.
 */
module ClientCounterexamples {
  import opened Base
  import opened LeaveDiff
  import opened ClientProtocol
  import opened Ledger
  import opened ClientInvariants
  import opened ClientCommutation
  import opened ClientWakeup

  /** One more step of a run. */
  lemma Go(s: State, a: Action) returns (t: State)
    requires Reachable(s) && Step(s, a).Some?
    ensures Reachable(t) && Step(s, a) == Some(t)
  {
    t := Step(s, a).value;
    ReachableStep(s, a, t);
  }

  /** A worker's step. */
  lemma GoWorker(s: State, a: Action, lane: Lane, sent: Option<Addr>) returns (t: State)
    requires Reachable(s) && !s.halted && IsWorker(a)
    requires MoveWorker(LaneOf(s, a.lane), s.cancelled, a) == Some(WorkerMove(lane, sent))
    ensures Reachable(t)
    ensures t == SetLane(s, a.lane, lane).(wire := if sent.Some? then s.wire + [Msg(a.lane, sent.value)] else s.wire)
  {
    t := Go(s, a);
  }

  /** A worker takes a list of one item, sends it, and is back at its receive. */
  lemma SendOne(r: State, l: LaneId, item: Item) returns (s: State)
    requires Reachable(r) && !r.halted && item.group != NoAddr && LaneOf(r, l) == Lane([[item]], Waiting)
    ensures Reachable(s) && s == SetLane(r, l, Lane([], Waiting)).(wire := r.wire + [Msg(l, item.group)])
  {
    assert [[item]][1..] == [] && [item][1..] == [];
    s := GoWorker(r, Receive(l), Lane([], Sending([item])), None);
    s := GoWorker(s, Send(l), Lane([], Sending([])), Some(item.group));
    s := GoWorker(s, Next(l), Lane([], Waiting), None);
  }

  /** One stream, one reporter at its loop head, nothing sent yet. */
  function Started(item: Item): State {
    INIT.(streams := map[7 := Stream(item, 0)], clock := 1, token := 1, reporters := map[0 := FRESH])
  }

  lemma ReachStarted(item: Item)
    ensures Reachable(Started(item))
  {
    InitReachable();
    var s := Go(INIT, Store(7, item));
    s := Go(s, Notify);
    s := Go(s, TryStart(0));
    assert s == Started(item);
  }

  /** The first tick has listed the stream and enqueued an empty leave list and one report. */
  function Reported(item: Item): State {
    Started(item).(
      reporters := map[0 := Reporter(Select, [item], [[item]], [[]])],
      leaves := Lane([[]], Waiting), reports := Lane([[item]], Waiting),
      events := [TickLeave([]), TickReport([item])])
  }

  /** The first tick has listed the stream. */
  function Listed(item: Item): State {
    Started(item).(reporters := map[0 := Reporter(Leaving([item]), [], [[item]], [])])
  }

  lemma ReachListed(item: Item)
    ensures Reachable(Listed(item))
  {
    ReachStarted(item);
    var s := Go(Started(item), Tick(0));
    s := Go(s, Visit(0, 7));
    assert s.reporters[0].pc.scan.found == [item];
    s := Go(s, ScanEnd(0));
    assert s.reporters[0].ticks == [[item]];
    assert s == Listed(item);
  }

  lemma FirstLeaveSent(item: Item) returns (s: State)
    ensures Reachable(s)
    ensures s == Started(item).(
      reporters := map[0 := Reporter(Reporting([item]), [], [[item]], [[]])],
      leaves := Lane([[]], Waiting), events := [TickLeave([])])
  {
    ReachListed(item);
    LeavesAtEnds([item]);
    s := Go(Listed(item), TryLeave(0));
    assert s.reporters[0].left == [[]] && s.leaves.queue == [[]] && s.events == [TickLeave([])];
  }

  lemma ReachReported(item: Item)
    ensures Reachable(Reported(item))
  {
    var s := FirstLeaveSent(item);
    s := Go(s, TryReport(0));
    assert s.reports.queue == [[item]] && s.events == [TickLeave([]), TickReport([item])];
    assert s == Reported(item);
  }

  /** The leave worker drains an empty list. */
  function EmptyLeaveSent(item: Item): State {
    Reported(item).(leaves := Lane([], Waiting))
  }

  lemma ReachEmptyLeaveSent(item: Item)
    ensures Reachable(EmptyLeaveSent(item))
  {
    ReachReported(item);
    assert Reported(item).leaves.queue[1..] == [];
    var s := GoWorker(Reported(item), Receive(Departures), Lane([], Sending([])), None);
    s := GoWorker(s, Next(Departures), Lane([], Waiting), None);
    assert s == EmptyLeaveSent(item);
  }

  /** The stream goes and the second, empty, tick enqueues its leave; the report is still in hand. */
  function LeftBeforeReport(item: Item): State {
    EmptyLeaveSent(item).(
      streams := map[],
      reporters := map[0 := Reporter(Releasing, [item], [[item], []], [[], [item]])],
      reports := Lane([], Sending([item])), leaves := Lane([[item]], Waiting),
      events := [TickLeave([]), TickReport([item]), TickLeave([item])])
  }

  lemma ReachSecondRebuild(item: Item) returns (s: State)
    ensures Reachable(s)
    ensures s == EmptyLeaveSent(item).(
      streams := map[], reports := Lane([], Sending([item])),
      reporters := map[0 := Reporter(Scanning(Scan(1, {}, [])), [item], [[item]], [[]])])
  {
    ReachEmptyLeaveSent(item);
    s := Go(EmptyLeaveSent(item), Receive(Reports));
    s := Go(s, Delete(7));
    assert s.streams == map[];
    s := Go(s, Tick(0));
  }

  lemma ReachLeftBeforeReport(item: Item)
    ensures Reachable(LeftBeforeReport(item))
  {
    var s := ReachSecondRebuild(item);
    s := Go(s, ScanEnd(0));
    assert s.reporters[0].ticks == [[item], []];
    LeavesAtEnds([item]);
    s := Go(s, TryLeave(0));
    assert s.reporters[0].left == [[], [item]] && s.leaves.queue == [[item]];
    assert s.events == LeftBeforeReport(item).events;
    assert s == LeftBeforeReport(item);
  }

  lemma SendLastReport(item: Item, r: State) returns (s: State)
    requires item.group != NoAddr && Reachable(r)
    requires r == LeftBeforeReport(item).(leaves := Lane([], Sending([])), wire := [Msg(Departures, item.group)])
    ensures Reachable(s) && Drained(s) && !s.cancelled && !s.halted && s.events == r.events
    ensures s.wire == [Msg(Departures, item.group)] + [Msg(Reports, item.group)]
  {
    assert [item][1..] == [];
    s := GoWorker(r, Next(Departures), Lane([], Waiting), None);
    s := GoWorker(s, Send(Reports), Lane([], Sending([])), Some(item.group));
    s := GoWorker(s, Next(Reports), Lane([], Waiting), None);
  }

  lemma LedgerOfTwoTicks(item: Item)
    ensures Joined([TickLeave([]), TickReport([item]), TickLeave([item])]) == {}
    ensures Joined([TickLeave([]), TickReport([item])]) == {item.group}
  {
    Append([], TickLeave([]));
    Append([TickLeave([])], TickReport([item]));
    Append([TickLeave([]), TickReport([item])], TickLeave([item]));
    assert [] + [TickLeave([])] == [TickLeave([])];
    assert [TickLeave([])] + [TickReport([item])] == [TickLeave([]), TickReport([item])];
    assert [TickLeave([]), TickReport([item])] + [TickLeave([item])]
        == [TickLeave([]), TickReport([item]), TickLeave([item])];
  }

  /**
   Without idle lanes the channels do not commute: the older report reaches the wire after the
   leave, and the drained network stays joined to a group the client has left.
   */
  lemma ReportOvertakenByLeave(item: Item) returns (s: State)
    requires item.group != NoAddr
    ensures Reachable(s) && Drained(s) && !s.cancelled && !s.halted
    ensures s.wire == [Msg(Departures, item.group), Msg(Reports, item.group)]
    ensures Joined(s.events) == {} && WireJoined(s.wire) == {item.group}
  {
    ReachLeftBeforeReport(item);
    assert [[item]][1..] == [] && [item][1..] == [];
    s := GoWorker(LeftBeforeReport(item), Receive(Departures), Lane([], Sending([item])), None);
    s := GoWorker(s, Send(Departures), Lane([], Sending([])), Some(item.group));
    assert s.wire == [Msg(Departures, item.group)];
    assert s == LeftBeforeReport(item).(leaves := Lane([], Sending([])), wire := [Msg(Departures, item.group)]);
    s := SendLastReport(item, s);
    WireAppend([], Msg(Departures, item.group));
    WireAppend([Msg(Departures, item.group)], Msg(Reports, item.group));
    LedgerOfTwoTicks(item);
  }

  lemma NotifiedLate(item: Item, late: Item) returns (s: State)
    ensures Reachable(s)
    ensures s == LeftBeforeReport(item).(streams := map[8 := Stream(late, 1)], clock := 2, sup := Notified)
  {
    ReachLeftBeforeReport(item);
    s := Go(LeftBeforeReport(item), Store(8, late));
    s := Go(s, Notify);
  }

  lemma NothingHeld(s: State)
    requires Reachable(s) && !s.cancelled && Live(s.reporters) == {}
    ensures TickJoined(s.events) == {}
  {
    InvHolds(s);
  }

  /**
   A wake-up can be lost: a stream stored, and its notification discarded, after the last
   rebuild but before the release is left with no reporter and no notification to start one.
   */
  lemma WakeupLost(item: Item, late: Item) returns (s: State, t: State, a: Action)
    ensures Reachable(s) && Discards(s, a) && !s.cancelled && 8 in s.streams
    ensures Reachable(t) && 8 in t.streams && t.streams[8].item == late && !t.cancelled
    ensures t.sup == Idle && Live(t.reporters) == {} && TickJoined(t.events) == {}
  {
    s := NotifiedLate(item, late);
    a := TryStart(1);
    t := Go(s, a);
    t := Go(t, Release(0));
    assert Live(t.reporters) == {};
    NothingHeld(t);
  }

  lemma FirstReportSent(item: Item) returns (s: State)
    requires item.group != NoAddr
    ensures Reachable(s)
    ensures s == EmptyLeaveSent(item).(reports := Lane([], Waiting), wire := [Msg(Reports, item.group)])
  {
    ReachEmptyLeaveSent(item);
    s := SendOne(EmptyLeaveSent(item), Reports, item);
  }

  /** The reporter whose report has been sent sees the end of the context and releases. */
  lemma GoneAfterCancel(item: Item) returns (s: State)
    requires item.group != NoAddr
    ensures Reachable(s) && s.cancelled && Drained(s) && Live(s.reporters) == {}
    ensures s.events == Reported(item).events && s.wire == [Msg(Reports, item.group)]
  {
    s := FirstReportSent(item);
    s := Go(s, Cancel);
    s := Go(s, SeeDone(0));
    s := Go(s, Release(0));
  }

  /** After cancellation a reporter releases without leaving: its groups are still joined when it is gone. */
  lemma CancelledWithoutLeave(item: Item) returns (s: State)
    requires item.group != NoAddr
    ensures Reachable(s) && s.cancelled && Drained(s)
    ensures Live(s.reporters) == {} && Joined(s.events) == WireJoined(s.wire) == {item.group}
  {
    s := GoneAfterCancel(item);
    assert [] + [Msg(Reports, item.group)] == [Msg(Reports, item.group)];
    WireAppend([], Msg(Reports, item.group));
    LedgerOfTwoTicks(item);
  }
}
