/**
 Notifications that the supervisor discards because a reporter is already running.
 */
module ClientWakeup {
  import opened Base
  import opened ClientProtocol
  import opened ClientInvariants
  import opened ClientTheorems

  /** The supervisor takes a notification and starts nothing. */
  predicate Discards(s: State, a: Action) {
    a.TryStart? && s.sup == Notified && a.id !in s.reporters && s.token >= 1
  }

  /** A notification is discarded only while exactly one reporter holds the token. */
  lemma DiscardMeansLive(s: State, a: Action) returns (id: nat)
    requires Reachable(s) && Discards(s, a)
    ensures Live(s.reporters) == {id}
  {
    InvHolds(s);
    id :| id in Live(s.reporters);
    OnlyOne(Live(s.reporters), id);
  }

  // ----- A later tick, or the last one has begun -----

  /** The reporter is in a rebuild that may be its last, or past it: nothing has been collected so far. */
  predicate InLastRebuild(pc: ReporterPc) {
    || (pc.Scanning? && pc.scan.found == [])
    || ((pc.Leaving? || pc.LeaveBlocked?) && pc.groups == [])
    || pc.Releasing? || pc.Gone?
  }

  lemma MoveToLastRebuild(r: Reporter, s: State, a: Action)
    requires ReporterInv(r, s.clock) && !s.cancelled && IsReporter(a) && MoveReporter(r, s, a).Some?
    requires !InLastRebuild(r.pc) && !a.Tick?
    ensures !InLastRebuild(MoveReporter(r, s, a).value.r.pc)
  {
  }

  /** An entry of another reporter, or any entry under another goroutine's step, stays as it is. */
  lemma EntryFrame(s: State, a: Action, t: State, id: nat)
    requires Step(s, a) == Some(t) && id in s.reporters && !(IsReporter(a) && a.id == id)
    ensures id in t.reporters && t.reporters[id] == s.reporters[id]
  {
    if IsReporter(a) { ReporterFrame(s, a, t); } else { ReportersFrame(s, a, t); }
  }

  /** A reporter comes to its last rebuild by a tick. */
  lemma RebuildStep(s: State, a: Action, t: State, id: nat)
    requires HistoryInv(s) && Step(s, a) == Some(t) && !s.cancelled && id in s.reporters
    ensures id in t.reporters
    ensures InLastRebuild(t.reporters[id].pc) ==> InLastRebuild(s.reporters[id].pc) || a == Tick(id)
  {
    if IsReporter(a) && a.id == id {
      ReporterFrame(s, a, t);
      if !InLastRebuild(s.reporters[id].pc) && !a.Tick? { MoveToLastRebuild(s.reporters[id], s, a); }
    } else {
      EntryFrame(s, a, t, id);
    }
  }

  /**
   Before cancellation, a reporter that was not yet in its last rebuild when a notification was
   discarded, and has since moved to its release, has ticked again in between.
   */
  lemma {:induction false} DiscardedThenRebuilt(states: seq<State>, acts: seq<Action>, i: nat, j: nat, id: nat)
    requires IsRun(states, acts) && i <= j <= |acts| && !states[j].cancelled
    requires id in states[i].reporters && !InLastRebuild(states[i].reporters[id].pc)
    ensures id in states[j].reporters
    ensures InLastRebuild(states[j].reporters[id].pc) ==> exists m | i <= m < j :: acts[m] == Tick(id)
  {
    if i < j {
      var s, a, t := states[j - 1], acts[j - 1], states[j];
      assert Step(s, a) == Some(t);
      CancelledStays(s, a, t);
      DiscardedThenRebuilt(states, acts, i, j - 1, id);
      InvAlongRun(states, acts, j - 1);
      RebuildStep(s, a, t, id);
    }
  }

  // ----- Without a later tick, the discard fell into the final, empty rebuild or after it -----

  /** The lists built since: none, or the one of the walk that was under way. */
  ghost predicate AtMostOneMore(before: Reporter, now: Reporter) {
    || now.ticks == before.ticks
    || (before.pc.Scanning? && !now.pc.Scanning? && exists groups :: now.ticks == before.ticks + [groups])
  }

  lemma MoveAtMostOneMore(before: Reporter, r: Reporter, s: State, a: Action)
    requires IsReporter(a) && !a.Tick? && MoveReporter(r, s, a).Some?
    requires AtMostOneMore(before, r) && (r.pc.Scanning? ==> before.pc.Scanning? && r.ticks == before.ticks)
    ensures var r' := MoveReporter(r, s, a).value.r;
      AtMostOneMore(before, r') && (r'.pc.Scanning? ==> before.pc.Scanning? && r'.ticks == before.ticks)
  {
  }

  lemma WithoutTickStep(before: Reporter, s: State, a: Action, t: State, id: nat)
    requires Step(s, a) == Some(t) && id in s.reporters && a != Tick(id)
    requires var r := s.reporters[id];
      AtMostOneMore(before, r) && (r.pc.Scanning? ==> before.pc.Scanning? && r.ticks == before.ticks)
    ensures id in t.reporters
    ensures var r := t.reporters[id];
      AtMostOneMore(before, r) && (r.pc.Scanning? ==> before.pc.Scanning? && r.ticks == before.ticks)
  {
    if IsReporter(a) && a.id == id {
      ReporterFrame(s, a, t);
      MoveAtMostOneMore(before, s.reporters[id], s, a);
    } else {
      EntryFrame(s, a, t, id);
    }
  }

  lemma {:induction false} WithoutTick(states: seq<State>, acts: seq<Action>, i: nat, j: nat, id: nat)
    requires IsRun(states, acts) && i <= j <= |acts| && id in states[i].reporters
    requires forall m | i <= m < j :: acts[m] != Tick(id)
    ensures id in states[j].reporters
    ensures AtMostOneMore(states[i].reporters[id], states[j].reporters[id])
    ensures var r := states[j].reporters[id];
      r.pc.Scanning? ==> states[i].reporters[id].pc.Scanning? && r.ticks == states[i].reporters[id].ticks
  {
    if i < j {
      WithoutTick(states, acts, i, j - 1, id);
      assert Step(states[j - 1], acts[j - 1]) == Some(states[j]);
      WithoutTickStep(states[i].reporters[id], states[j - 1], acts[j - 1], states[j], id);
    }
  }

  /**
   Before cancellation every discarded notification is followed by another tick of the reporter that ran,
   unless it fell between that reporter's final, empty rebuild and its release: a reporter that has come to
   its release without ticking since was in, or past, a rebuild with nothing collected, and the last list it
   built, at most one since, is empty.
   */
  lemma RebuiltUnlessFinal(states: seq<State>, acts: seq<Action>, i: nat, j: nat, id: nat)
    requires IsRun(states, acts) && i <= j <= |acts| && !states[j].cancelled
    requires id in states[i].reporters && id in states[j].reporters
    requires states[j].reporters[id].pc.Releasing? || states[j].reporters[id].pc.Gone?
    requires forall m | i <= m < j :: acts[m] != Tick(id)
    ensures InLastRebuild(states[i].reporters[id].pc)
    ensures var before, now := states[i].reporters[id].ticks, states[j].reporters[id].ticks;
      (now == before || now == before + [[]]) && now != [] && now[|now| - 1] == []
  {
    WithoutTick(states, acts, i, j, id);
    EndsOnEmptyTick(states, acts, j, id);
    if !InLastRebuild(states[i].reporters[id].pc) { DiscardedThenRebuilt(states, acts, i, j, id); }
  }

  // ----- A stream that stays is seen -----

  /** A reporter that will not stop before it has listed a stream born at `born`. */
  predicate WillList(pc: ReporterPc, born: nat) {
    match pc
    case Select => true
    case Scanning(scan) => born < scan.start || scan.found != []
    case Leaving(groups) => groups != []
    case LeaveBlocked(groups) => groups != []
    case Reporting(_) => true
    case ReportBlocked(_) => true
    case Releasing => false
    case Gone => false
  }

  lemma MoveWillList(r: Reporter, s: State, a: Action, k: Key)
    requires ReporterInv(r, s.clock) && !s.cancelled && IsReporter(a) && MoveReporter(r, s, a).Some?
    requires k in s.streams && s.streams[k].born < s.clock && WillList(r.pc, s.streams[k].born)
    ensures WillList(MoveReporter(r, s, a).value.r.pc, s.streams[k].born)
  {
    if a.ScanEnd? && s.streams[k].born < r.pc.scan.start {
      assert k in r.pc.scan.visited;
    }
  }

  /** Every stream was born before now, and stays as born as long as it is there. */
  ghost predicate BornInv(s: State) {
    forall k <- s.streams :: s.streams[k].born < s.clock
  }

  lemma SupervisorStreams(s: State, a: Action, t: State)
    requires IsSupervisor(a) && Step(s, a) == Some(t)
    ensures t.streams == s.streams && t.clock == s.clock
  {
  }

  lemma StreamsFrame(s: State, a: Action, t: State)
    requires Step(s, a) == Some(t) && !a.Store? && !a.Delete?
    ensures t.streams == s.streams && t.clock == s.clock
  {
    if IsSupervisor(a) {
      SupervisorStreams(s, a, t);
    } else if IsReporter(a) {
      ReporterFrame(s, a, t);
    }
  }

  lemma BornStep(s: State, a: Action, t: State, k: Key)
    requires BornInv(s) && Step(s, a) == Some(t)
    ensures BornInv(t)
    ensures k in s.streams && k in t.streams ==> t.streams[k].born == s.streams[k].born
  {
    if !a.Store? && !a.Delete? { StreamsFrame(s, a, t); }
  }

  lemma {:induction false} BornAlongRun(states: seq<State>, acts: seq<Action>, i: nat)
    requires IsRun(states, acts) && i <= |acts|
    ensures BornInv(states[i])
  {
    if i > 0 {
      BornAlongRun(states, acts, i - 1);
      assert Step(states[i - 1], acts[i - 1]) == Some(states[i]);
      BornStep(states[i - 1], acts[i - 1], states[i], 0);
    }
  }

  lemma WillListStep(s: State, a: Action, t: State, id: nat, k: Key)
    requires HistoryInv(s) && BornInv(s) && Step(s, a) == Some(t) && !s.cancelled
    requires k in s.streams && k in t.streams && id in s.reporters && WillList(s.reporters[id].pc, s.streams[k].born)
    ensures t.streams[k].born == s.streams[k].born
    ensures id in t.reporters && WillList(t.reporters[id].pc, t.streams[k].born)
  {
    BornStep(s, a, t, k);
    if IsReporter(a) && a.id == id {
      ReporterFrame(s, a, t);
      MoveWillList(s.reporters[id], s, a, k);
    } else {
      EntryFrame(s, a, t, id);
    }
  }

  /**
   The wake-up is not lost: a notification discarded while the reporter could still list the stream leaves a
   reporter that keeps running for as long as the stream is there and the context is not cancelled.
   */
  lemma {:induction false} WakeupNotLost(states: seq<State>, acts: seq<Action>, i: nat, j: nat, id: nat, k: Key)
    requires IsRun(states, acts) && i <= j <= |acts| && !states[j].cancelled
    requires forall m | i <= m <= j :: k in states[m].streams
    requires id in states[i].reporters && WillList(states[i].reporters[id].pc, states[i].streams[k].born)
    ensures id in states[j].reporters && WillList(states[j].reporters[id].pc, states[j].streams[k].born)
    ensures states[j].streams[k].born == states[i].streams[k].born
    ensures id in Live(states[j].reporters)
  {
    if i < j {
      assert Step(states[j - 1], acts[j - 1]) == Some(states[j]);
      CancelledStays(states[j - 1], acts[j - 1], states[j]);
      WakeupNotLost(states, acts, i, j - 1, id, k);
      BornAlongRun(states, acts, j - 1);
      InvAlongRun(states, acts, j - 1);
      WillListStep(states[j - 1], acts[j - 1], states[j], id, k);
    }
  }

  // ----- A rebuild lists every stream that is there throughout -----

  /** A walk that has visited `k` holds one of the items `k` had while the walk lasted. */
  ghost predicate Collected(scan: Scan, states: seq<State>, b: nat, e: nat, k: Key)
    requires b <= e < |states|
  {
    k in scan.visited ==>
      exists m | b <= m <= e :: k in states[m].streams && states[m].streams[k].item in scan.found
  }

  lemma CollectedLater(scan: Scan, states: seq<State>, b: nat, e: nat, k: Key)
    requires b <= e < |states| - 1 && Collected(scan, states, b, e, k)
    ensures Collected(scan, states, b, e + 1, k)
  {
  }

  lemma CollectedVisit(scan: Scan, states: seq<State>, b: nat, e: nat, k: Key, v: Key)
    requires b <= e < |states| && Collected(scan, states, b, e, k)
    requires v in states[e].streams
    ensures Collected(Visited(scan, v, states[e].streams[v].item), states, b, e, k)
  {
    var after := Visited(scan, v, states[e].streams[v].item);
    if k == v {
      assert states[e].streams[k].item in after.found;
    } else if k in scan.visited {
      var m :| b <= m <= e && k in states[m].streams && states[m].streams[k].item in scan.found;
      assert states[m].streams[k].item in after.found;
    }
  }

  lemma {:induction false} WalkCollects(states: seq<State>, acts: seq<Action>, b: nat, e: nat, id: nat, k: Key)
    requires IsRun(states, acts) && b < e <= |acts| && acts[b] == Tick(id)
    requires forall m | b < m < e :: acts[m] != ScanEnd(id)
    ensures id in states[e].reporters && states[e].reporters[id].pc.Scanning?
    ensures states[e].reporters[id].pc.scan.start == states[b].clock
    ensures Collected(states[e].reporters[id].pc.scan, states, b, e, k)
  {
    var s, a, t := states[e - 1], acts[e - 1], states[e];
    assert Step(s, a) == Some(t);
    if b + 1 < e {
      WalkCollects(states, acts, b, e - 1, id, k);
      CollectedLater(s.reporters[id].pc.scan, states, b, e - 1, k);
      if IsReporter(a) && a.id == id {
        ReporterFrame(s, a, t);
        CollectedVisit(s.reporters[id].pc.scan, states, b, e - 1, k, a.key);
        CollectedLater(t.reporters[id].pc.scan, states, b, e - 1, k);
      } else {
        EntryFrame(s, a, t, id);
      }
    } else {
      ReporterFrame(s, a, t);
    }
  }

  lemma {:induction false} BornStays(states: seq<State>, acts: seq<Action>, i: nat, j: nat, k: Key)
    requires IsRun(states, acts) && i <= j <= |acts|
    requires forall m | i <= m <= j :: k in states[m].streams
    ensures states[j].streams[k].born == states[i].streams[k].born
  {
    if i < j {
      BornStays(states, acts, i, j - 1, k);
      BornAlongRun(states, acts, j - 1);
      assert Step(states[j - 1], acts[j - 1]) == Some(states[j]);
      BornStep(states[j - 1], acts[j - 1], states[j], k);
    }
  }

  /** A rebuild that begins and ends while a stream is there lists an item the stream had meanwhile. */
  lemma RebuildLists(states: seq<State>, acts: seq<Action>, b: nat, e: nat, id: nat, k: Key) returns (m: nat)
    requires IsRun(states, acts) && b < e < |acts| && acts[b] == Tick(id) && acts[e] == ScanEnd(id)
    requires forall m | b < m < e :: acts[m] != ScanEnd(id)
    requires forall m | b <= m <= e :: k in states[m].streams
    ensures b <= m <= e && id in states[e + 1].reporters && states[e + 1].reporters[id].pc.Leaving?
    ensures states[m].streams[k].item in states[e + 1].reporters[id].pc.groups
  {
    WalkCollects(states, acts, b, e, id, k);
    BornAlongRun(states, acts, b);
    BornStays(states, acts, b, e, k);
    var s, t := states[e], states[e + 1];
    assert Step(s, acts[e]) == Some(t);
    ReporterFrame(s, acts[e], t);
    var scan := s.reporters[id].pc.scan;
    assert k in scan.visited;
    m :| b <= m <= e && k in states[m].streams && states[m].streams[k].item in scan.found;
  }

  // ----- Nothing else is listed -----

  /** Each item is one that a stream had between `b` and `e`. */
  ghost predicate FromStreams(items: seq<Item>, states: seq<State>, b: nat, e: nat)
    requires b <= e < |states|
  {
    forall it <- items :: exists m, k | b <= m <= e && k in states[m].streams :: states[m].streams[k].item == it
  }

  lemma OneMoreStream(items: seq<Item>, states: seq<State>, b: nat, e: nat, k: Key)
    requires b <= e < |states| - 1 && FromStreams(items, states, b, e) && k in states[e].streams
    ensures FromStreams(items + [states[e].streams[k].item], states, b, e + 1)
  {
    var item := states[e].streams[k].item;
    forall it <- items + [item]
      ensures exists m, k | b <= m <= e + 1 && k in states[m].streams :: states[m].streams[k].item == it
    {
      if it == item {
        assert b <= e <= e + 1 && states[e].streams[k].item == it;
      } else {
        assert it in items;
      }
    }
  }

  lemma FromStreamsLater(items: seq<Item>, states: seq<State>, b: nat, e: nat)
    requires b <= e < |states| - 1 && FromStreams(items, states, b, e)
    ensures FromStreams(items, states, b, e + 1)
  {
  }

  lemma WalkFromNext(states: seq<State>, acts: seq<Action>, b: nat, e: nat, id: nat)
    requires IsRun(states, acts) && b + 1 < e <= |acts| && acts[e - 1] != ScanEnd(id)
    requires id in states[e - 1].reporters && states[e - 1].reporters[id].pc.Scanning?
    requires FromStreams(states[e - 1].reporters[id].pc.scan.found, states, b, e - 1)
    ensures id in states[e].reporters && states[e].reporters[id].pc.Scanning?
    ensures FromStreams(states[e].reporters[id].pc.scan.found, states, b, e)
  {
    var s, a, t := states[e - 1], acts[e - 1], states[e];
    assert Step(s, a) == Some(t);
    if IsReporter(a) && a.id == id {
      ReporterFrame(s, a, t);
      OneMoreStream(s.reporters[id].pc.scan.found, states, b, e - 1, a.key);
    } else {
      EntryFrame(s, a, t, id);
      FromStreamsLater(s.reporters[id].pc.scan.found, states, b, e - 1);
    }
  }

  lemma {:induction false} WalkFromStreams(states: seq<State>, acts: seq<Action>, b: nat, e: nat, id: nat)
    requires IsRun(states, acts) && b < e <= |acts| && acts[b] == Tick(id)
    requires forall m | b < m < e :: acts[m] != ScanEnd(id)
    ensures id in states[e].reporters && states[e].reporters[id].pc.Scanning?
    ensures FromStreams(states[e].reporters[id].pc.scan.found, states, b, e)
  {
    if b + 1 < e {
      WalkFromStreams(states, acts, b, e - 1, id);
      WalkFromNext(states, acts, b, e, id);
    } else {
      assert Step(states[b], acts[b]) == Some(states[e]);
      ReporterFrame(states[b], acts[b], states[e]);
    }
  }

  /** A rebuild lists only items that streams had while it lasted. */
  lemma RebuildListsOnly(states: seq<State>, acts: seq<Action>, b: nat, e: nat, id: nat)
    requires IsRun(states, acts) && b < e < |acts| && acts[b] == Tick(id) && acts[e] == ScanEnd(id)
    requires forall m | b < m < e :: acts[m] != ScanEnd(id)
    ensures id in states[e + 1].reporters && states[e + 1].reporters[id].pc.Leaving?
    ensures FromStreams(states[e + 1].reporters[id].pc.groups, states, b, e)
  {
    WalkFromStreams(states, acts, b, e, id);
    assert Step(states[e], acts[e]) == Some(states[e + 1]);
    ReporterFrame(states[e], acts[e], states[e + 1]);
  }
}
