/**
 What the supervisor does over all runs: which notifications start reporters, what its answers
 list, and when it ends.
 */
module ClientSupervisor {
  import opened Base
  import opened ClientProtocol
  import opened ClientInvariants
  import opened ClientTheorems
  import opened ClientWakeup
  import opened SupervisorLoop

  // ----- Reporters are started by notifications alone -----

  /** A notification decides at TryStart; a report from the network and a query signal nothing. */
  function SignalOf(a: Action): seq<Signal> {
    match a
    case TryStart(_) => [Noticed]
    case Release(_) => [Released]
    case _ => []
  }

  /** The signals of the first `n` actions. */
  function RunSignals(acts: seq<Action>, n: nat): seq<Signal>
    requires n <= |acts|
  {
    if n == 0 then [] else RunSignals(acts, n - 1) + SignalOf(acts[n - 1])
  }

  ghost predicate CountedBy(s: State, t: Tally) {
    |s.reporters| == t.starts && t.starts == t.releases + s.token
  }

  lemma StartAdds(reporters: map<nat, Reporter>, id: nat, r: Reporter)
    ensures |reporters[id := r]| == |reporters| + if id in reporters then 0 else 1
  {
    var keys := reporters[id := r].Keys;
    assert keys == reporters.Keys + {id};
  }

  lemma ReporterCounts(s: State, a: Action, t: State, tally: Tally)
    requires TokenInv(s) && IsReporter(a) && Step(s, a) == Some(t) && CountedBy(s, tally)
    ensures CountedBy(t, Tallied(tally, SignalOf(a)))
  {
    ReporterFrame(s, a, t);
    StartAdds(s.reporters, a.id, MoveReporter(s.reporters[a.id], s, a).value.r);
    MoveLives(s.reporters[a.id], s, a);
    assert a.Release? ==> [Released][1..] == [];
  }

  lemma SupervisorCounts(s: State, a: Action, t: State, tally: Tally)
    requires TokenInv(s) && !IsReporter(a) && Step(s, a) == Some(t) && CountedBy(s, tally)
    ensures CountedBy(t, Tallied(tally, SignalOf(a)))
  {
    ReportersFrame(s, a, t);
    if Starts(s, a) { StartAdds(s.reporters, a.id, FRESH); }
    assert a.TryStart? ==> [Noticed][1..] == [];
  }

  lemma CountsNext(states: seq<State>, acts: seq<Action>, n: nat, tally: Tally)
    requires IsRun(states, acts) && 0 < n <= |acts| && CountedBy(states[n - 1], tally)
    ensures CountedBy(states[n], Tallied(tally, SignalOf(acts[n - 1])))
  {
    InvAlongRun(states, acts, n - 1);
    var s, a, t := states[n - 1], acts[n - 1], states[n];
    assert Step(s, a) == Some(t);
    if IsReporter(a) { ReporterCounts(s, a, t, tally); } else { SupervisorCounts(s, a, t, tally); }
  }

  /**
   In every run the reporters started and the tokens held are those that the supervisor's loop counts for the
   run's notifications and releases, in their order.
   */
  lemma {:induction false} StartedByNotifications(states: seq<State>, acts: seq<Action>, n: nat)
    requires IsRun(states, acts) && n <= |acts|
    ensures CountedBy(states[n], Tallied(Tally(0, 0), RunSignals(acts, n)))
  {
    if n > 0 {
      StartedByNotifications(states, acts, n - 1);
      CountsNext(states, acts, n, Tallied(Tally(0, 0), RunSignals(acts, n - 1)));
      TalliedConcat(Tally(0, 0), RunSignals(acts, n - 1), SignalOf(acts[n - 1]));
    }
  }

  /** How many of the first `n` actions are notifications, and how many decide about one. */
  function Notices(acts: seq<Action>, n: nat): nat
    requires n <= |acts|
  {
    if n == 0 then 0 else Notices(acts, n - 1) + if acts[n - 1].Notify? then 1 else 0
  }

  function Decisions(acts: seq<Action>, n: nat): nat
    requires n <= |acts|
  {
    if n == 0 then 0 else Decisions(acts, n - 1) + if acts[n - 1].TryStart? then 1 else 0
  }

  lemma NoticeMove(s: State, a: Action, t: State)
    requires Step(s, a) == Some(t)
    ensures a.Notify? ==> s.sup == Idle && t.sup == Notified
    ensures a.TryStart? ==> s.sup == Notified && t.sup == Idle
    ensures !a.Notify? && !a.TryStart? ==> (t.sup == Notified <==> s.sup == Notified)
  {
    if IsSupervisor(a) { SupervisorPosts(s, a, t); } else { SupervisorStays(s, a, t); }
  }

  /** Every notification is decided about once; no report from the network and no query leads to such a decision. */
  lemma {:induction false} NotificationsDecided(states: seq<State>, acts: seq<Action>, n: nat)
    requires IsRun(states, acts) && n <= |acts|
    ensures Notices(acts, n) == Decisions(acts, n) + if states[n].sup == Notified then 1 else 0
  {
    if n > 0 {
      NotificationsDecided(states, acts, n - 1);
      assert Step(states[n - 1], acts[n - 1]) == Some(states[n]);
      NoticeMove(states[n - 1], acts[n - 1], states[n]);
    }
  }

  // ----- Nobody ends before the context does -----

  lemma FinishMove(s: State, a: Action, t: State)
    requires Step(s, a) == Some(t) && (s.sup.Finished? ==> s.cancelled)
    ensures t.sup.Finished? ==> t.cancelled
  {
    if IsSupervisor(a) {
      SupervisorPosts(s, a, t);
      SupervisorReporters(s, a, t);
    } else {
      SupervisorStays(s, a, t);
      CancelledStays(s, a, t);
    }
  }

  /** The supervisor and the workers end only once the context is cancelled. */
  lemma {:induction false} EndOnlyWhenCancelled(states: seq<State>, acts: seq<Action>, n: nat)
    requires IsRun(states, acts) && n <= |acts|
    ensures states[n].sup.Finished? ==> states[n].cancelled
    ensures states[n].reports.worker.Exited? || states[n].leaves.worker.Exited? ==> states[n].cancelled
  {
    InvAlongRun(states, acts, n);
    if n > 0 {
      EndOnlyWhenCancelled(states, acts, n - 1);
      assert Step(states[n - 1], acts[n - 1]) == Some(states[n]);
      FinishMove(states[n - 1], acts[n - 1], states[n]);
    }
  }

  // ----- What an answer lists -----

  lemma AnswerMove(s: State, a: Action, t: State)
    requires Step(s, a) == Some(t) && s.sup.Answering? && a != AnswerEnd
    ensures if a.AnswerVisit? then
        a.key in s.streams && t.sup == Answering(Visited(s.sup.scan, a.key, s.streams[a.key].item))
      else t.sup == s.sup
  {
    if IsSupervisor(a) { SupervisorPosts(s, a, t); } else { SupervisorStays(s, a, t); }
  }

  lemma AnswerBegins(s: State, t: State)
    requires Step(s, Query) == Some(t)
    ensures t.sup == Answering(Scan(s.clock, {}, []))
  {
    SupervisorPosts(s, Query, t);
  }

  lemma {:induction false} AnswerCollects(states: seq<State>, acts: seq<Action>, b: nat, e: nat, k: Key)
    requires IsRun(states, acts) && b < e <= |acts| && acts[b] == Query
    requires forall m | b < m < e :: acts[m] != AnswerEnd
    ensures states[e].sup.Answering? && states[e].sup.scan.start == states[b].clock
    ensures Collected(states[e].sup.scan, states, b, e, k)
  {
    var s, a, t := states[e - 1], acts[e - 1], states[e];
    assert Step(s, a) == Some(t);
    if b + 1 < e {
      AnswerCollects(states, acts, b, e - 1, k);
      AnswerMove(s, a, t);
      CollectedLater(s.sup.scan, states, b, e - 1, k);
      if a.AnswerVisit? {
        CollectedVisit(s.sup.scan, states, b, e - 1, k, a.key);
        CollectedLater(t.sup.scan, states, b, e - 1, k);
      }
    } else {
      AnswerBegins(s, t);
    }
  }

  lemma AnswerEnds(s: State, t: State)
    requires Step(s, AnswerEnd) == Some(t)
    ensures s.sup.Answering? && ScanComplete(s.sup.scan, s.streams)
    ensures t.sup == if s.sup.scan.found != [] then Replying(s.sup.scan.found) else Idle
  {
    SupervisorPosts(s, AnswerEnd, t);
  }

  /** The answer to a query lists an item of every stream that is there throughout. */
  lemma AnswerLists(states: seq<State>, acts: seq<Action>, b: nat, e: nat, k: Key) returns (m: nat)
    requires IsRun(states, acts) && b < e < |acts| && acts[b] == Query && acts[e] == AnswerEnd
    requires forall m | b < m < e :: acts[m] != AnswerEnd
    requires forall m | b <= m <= e :: k in states[m].streams
    ensures b <= m <= e && states[e + 1].sup.Replying?
    ensures states[m].streams[k].item in states[e + 1].sup.groups
  {
    AnswerCollects(states, acts, b, e, k);
    BornAlongRun(states, acts, b);
    BornStays(states, acts, b, e, k);
    assert Step(states[e], acts[e]) == Some(states[e + 1]);
    AnswerEnds(states[e], states[e + 1]);
    var scan := states[e].sup.scan;
    assert k in scan.visited;
    m :| b <= m <= e && k in states[m].streams && states[m].streams[k].item in scan.found;
  }

  lemma {:induction false} AnswerFromStreams(states: seq<State>, acts: seq<Action>, b: nat, e: nat)
    requires IsRun(states, acts) && b < e <= |acts| && acts[b] == Query
    requires forall m | b < m < e :: acts[m] != AnswerEnd
    ensures states[e].sup.Answering? && FromStreams(states[e].sup.scan.found, states, b, e)
  {
    var s, a, t := states[e - 1], acts[e - 1], states[e];
    assert Step(s, a) == Some(t);
    if b + 1 < e {
      AnswerFromStreams(states, acts, b, e - 1);
      AnswerMove(s, a, t);
      if a.AnswerVisit? { OneMoreStream(s.sup.scan.found, states, b, e - 1, a.key); }
    } else {
      AnswerBegins(s, t);
    }
  }

  /** And nothing else. */
  lemma AnswerListsOnly(states: seq<State>, acts: seq<Action>, b: nat, e: nat)
    requires IsRun(states, acts) && b < e < |acts| && acts[b] == Query && acts[e] == AnswerEnd
    requires forall m | b < m < e :: acts[m] != AnswerEnd
    ensures states[e + 1].sup.Replying? ==> FromStreams(states[e + 1].sup.groups, states, b, e)
  {
    AnswerFromStreams(states, acts, b, e);
    assert Step(states[e], acts[e]) == Some(states[e + 1]);
    AnswerEnds(states[e], states[e + 1]);
  }
}
