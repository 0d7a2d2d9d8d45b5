/**
 Exactly when a discarded notification cannot be lost: the reporter that runs goes on for as
 long as the stream is there if and only if it can still list the stream.
 */
module ClientWakeupExact {
  import opened Base
  import opened ClientProtocol
  import opened ClientInvariants
  import opened ClientCommutation
  import opened ClientDrains
  import opened ClientWakeup

  /** The stream of key `k` is not deleted, and the context is not cancelled. */
  predicate Keeps(acts: seq<Action>, k: Key) {
    forall a <- acts :: a != Delete(k) && a != Cancel
  }

  /** Whatever happens while the stream stays, the reporter does not release. */
  ghost predicate StaysLive(s: State, id: nat, k: Key) {
    forall acts | Keeps(acts, k) && Follow(s, acts).Some? :: id in Live(Follow(s, acts).value.reporters)
  }

  // ----- A reporter that can still list the stream stays -----

  ghost predicate Sound(s: State) {
    Inv(s) && BornInv(s)
  }

  lemma SoundStep(s: State, a: Action, t: State)
    requires Sound(s) && Step(s, a) == Some(t)
    ensures Sound(t)
  {
    InvStep(s, a, t);
    BornStep(s, a, t, 0);
  }

  lemma CancelledOnlyByCancel(s: State, a: Action, t: State)
    requires Step(s, a) == Some(t) && a != Cancel
    ensures t.cancelled == s.cancelled
  {
    if IsReporter(a) {
      ReporterFrame(s, a, t);
    } else {
      ReportersFrame(s, a, t);
    }
  }

  lemma StreamStays(s: State, a: Action, t: State, k: Key)
    requires Step(s, a) == Some(t) && k in s.streams && !s.cancelled && a != Delete(k) && a != Cancel
    ensures k in t.streams && !t.cancelled
  {
    if !a.Store? && !a.Delete? {
      StreamsFrame(s, a, t);
      CancelledOnlyByCancel(s, a, t);
    }
  }

  ghost predicate Kept(s: State, id: nat, k: Key) {
    && Sound(s) && !s.cancelled && k in s.streams
    && id in s.reporters && WillList(s.reporters[id].pc, s.streams[k].born)
  }

  lemma KeptStep(s: State, a: Action, t: State, id: nat, k: Key)
    requires Kept(s, id, k) && Step(s, a) == Some(t) && a != Delete(k) && a != Cancel
    ensures Kept(t, id, k)
  {
    SoundStep(s, a, t);
    StreamStays(s, a, t, k);
    WillListStep(s, a, t, id, k);
  }

  lemma KeptFollow(s: State, acts: seq<Action>, id: nat, k: Key)
    requires Kept(s, id, k) && Keeps(acts, k) && Follow(s, acts).Some?
    ensures Kept(Follow(s, acts).value, id, k)
  {
    var allowed := (a: Action) => a != Delete(k) && a != Cancel;
    var kept := (x: State) => Kept(x, id, k);
    forall x, a, y | kept(x) && allowed(a) && Step(x, a) == Some(y)
      ensures kept(y)
    {
      KeptStep(x, a, y, id, k);
    }
    FollowKeeps(s, acts, allowed, kept);
  }

  // ----- A reporter that cannot list it any more may release -----

  lemma Then(s: State, acts: seq<Action>, t: State, a: Action, k: Key) returns (acts': seq<Action>, u: State)
    requires Follow(s, acts) == Some(t) && Keeps(acts, k) && Step(t, a).Some? && a != Delete(k) && a != Cancel
    ensures Follow(s, acts') == Some(u) && Keeps(acts', k) && Step(t, a) == Some(u)
  {
    acts', u := acts + [a], Step(t, a).value;
    FollowConcat(s, acts, [a]);
    FollowOne(t, a);
  }

  /** Other streams can go at any time. */
  lemma {:induction false} DeleteAll(s: State, keys: set<Key>, k: Key) returns (acts: seq<Action>, t: State)
    requires !s.halted && k !in keys
    ensures Follow(s, acts) == Some(t) && Keeps(acts, k) && t == s.(streams := s.streams - keys)
  {
    if keys == {} {
      acts, t := [], s;
      assert s.streams - keys == s.streams;
    } else {
      var key :| key in keys;
      acts, t := DeleteAll(s, keys - {key}, k);
      assert s.streams - keys == (s.streams - (keys - {key})) - {key};
      acts, t := Then(s, acts, t, Delete(key), k);
    }
  }

  /** From a walk that has collected nothing and need not visit `k`, the reporter comes to leave with an empty list. */
  lemma EndEmpty(s: State, id: nat, k: Key) returns (acts: seq<Action>, t: State)
    requires Sound(s) && !s.halted && k in s.streams && id in s.reporters && s.reporters[id].pc.Scanning?
    requires !WillList(s.reporters[id].pc, s.streams[k].born)
    ensures Follow(s, acts) == Some(t) && Keeps(acts, k)
    ensures id in t.reporters && t.reporters[id].pc == Leaving([])
    ensures t.token == s.token && t.reports == s.reports && t.leaves == s.leaves && !t.halted
  {
    var scan := s.reporters[id].pc.scan;
    var early := set key | key in s.streams && s.streams[key].born < scan.start;
    assert ReporterInv(s.reporters[id], s.clock);
    acts, t := DeleteAll(s, early, k);
    assert ScanComplete(scan, t.streams);
    acts, t := Then(s, acts, t, ScanEnd(id), k);
  }

  predicate LeavingNothing(pc: ReporterPc) {
    (pc.Leaving? || pc.LeaveBlocked?) && pc.groups == []
  }

  /** The leave channel is full, and the list its worker is sending ends the process before the next receive. */
  predicate LeavesJammed(lane: Lane) {
    !HasRoom(lane) && lane.worker.Sending? && NoAddr in GroupSeq(lane.worker.rest)
  }

  /** `t` is `s` after steps of the leave worker. */
  predicate LeavesWorked(s: State, t: State) {
    t == s.(leaves := t.leaves, wire := t.wire)
  }

  lemma ReceiveMakesRoom(s: State)
    requires !s.halted && s.leaves.worker.Waiting? && |s.leaves.queue| == CHANNEL_SIZE
    ensures var t := Step(s, Receive(Departures));
      t.Some? && LeavesWorked(s, t.value) && HasRoom(t.value.leaves)
  {
  }

  /** A worker with an item of its list to send, or none left, takes one step towards its next receive. */
  lemma WorksOn(s: State)
    requires !s.halted && s.leaves.worker.Sending? && NoAddr !in GroupSeq(s.leaves.worker.rest)
    ensures var t := Step(s, NextAct(s.leaves, Departures));
      && t.Some? && LeavesWorked(s, t.value) && t.value.leaves.queue == s.leaves.queue && !LeavesJammed(t.value.leaves)
      && match t.value.leaves.worker {
           case Waiting => s.leaves.worker.rest == []
           case Sending(rest) => s.leaves.worker.rest != [] && rest == s.leaves.worker.rest[1..]
           case Exited => false
         }
  {
    var rest := s.leaves.worker.rest;
    if rest != [] { assert GroupSeq(rest)[0] == rest[0].group && GroupSeq(rest)[1..] == GroupSeq(rest[1..]); }
  }

  /** Unless the channel is jammed or its worker gone, the worker can make room in it. */
  lemma {:induction false} MakeRoom(s: State, k: Key) returns (acts: seq<Action>, t: State)
    requires !s.halted && !s.leaves.worker.Exited? && !LeavesJammed(s.leaves) && |s.leaves.queue| <= CHANNEL_SIZE
    ensures Follow(s, acts) == Some(t) && Keeps(acts, k) && LeavesWorked(s, t) && HasRoom(t.leaves)
    decreases s.leaves.worker.Sending?, if s.leaves.worker.Sending? then |s.leaves.worker.rest| else 0
  {
    acts, t := [], s;
    if !HasRoom(s.leaves) {
      if s.leaves.worker.Waiting? {
        ReceiveMakesRoom(s);
        acts, t := Then(s, acts, t, Receive(Departures), k);
      } else {
        WorksOn(s);
        var a := NextAct(s.leaves, Departures);
        var u := Step(s, a).value;
        FollowOne(s, a);
        var more;
        more, t := MakeRoom(u, k);
        FollowConcat(s, [a], more);
        acts := [a] + more;
      }
    }
  }

  /** A reporter with nothing listed sends its leaves and comes to its release. */
  lemma LeaveAll(s: State, id: nat, k: Key) returns (acts: seq<Action>, t: State)
    requires !s.halted && !s.leaves.worker.Exited? && !LeavesJammed(s.leaves) && |s.leaves.queue| <= CHANNEL_SIZE
    requires id in s.reporters && LeavingNothing(s.reporters[id].pc)
    ensures Follow(s, acts) == Some(t) && Keeps(acts, k)
    ensures id in t.reporters && t.reporters[id].pc == Releasing && t.token == s.token && !t.halted
  {
    acts, t := MakeRoom(s, k);
    acts, t := Then(s, acts, t, if s.reporters[id].pc.Leaving? then TryLeave(id) else LeaveUnblocked(id), k);
  }

  lemma ReleaseLast(s: State, acts: seq<Action>, t: State, id: nat, k: Key) returns (acts': seq<Action>)
    requires Follow(s, acts) == Some(t) && Keeps(acts, k)
    requires !t.halted && t.token > 0 && id in t.reporters && t.reporters[id].pc == Releasing
    ensures Keeps(acts', k) && Follow(s, acts').Some? && id !in Live(Follow(s, acts').value.reporters)
  {
    var u;
    acts', u := Then(s, acts, t, Release(id), k);
  }

  lemma MayRelease(s: State, id: nat, k: Key) returns (acts: seq<Action>)
    requires Sound(s) && !s.halted && !s.cancelled && id in Live(s.reporters) && k in s.streams
    requires !WillList(s.reporters[id].pc, s.streams[k].born)
    requires LeavesJammed(s.leaves) ==> s.reporters[id].pc.Releasing?
    ensures Keeps(acts, k) && Follow(s, acts).Some? && id !in Live(Follow(s, acts).value.reporters)
  {
    var t := s;
    acts := [];
    OnlyOne(Live(s.reporters), id);
    if s.reporters[id].pc.Scanning? { acts, t := EndEmpty(s, id, k); }
    if LeavingNothing(t.reporters[id].pc) {
      var more, u := LeaveAll(t, id, k);
      FollowConcat(s, acts, more);
      acts, t := acts + more, u;
    }
    acts := ReleaseLast(s, acts, t, id, k);
  }

  // ----- On a jammed leave channel no reporter comes to its release -----

  /** The reporter lives, is not at its release, and could only come there by a leave that cannot be sent. */
  ghost predicate HeldUp(s: State, id: nat) {
    !s.cancelled && LeavesJammed(s.leaves) && id in Live(s.reporters) && !s.reporters[id].pc.Releasing?
  }

  lemma JammedWorker(s: State, a: Action, t: State)
    requires IsWorker(a) && Step(s, a) == Some(t) && LeavesJammed(s.leaves)
    ensures LeavesJammed(t.leaves)
  {
    WorkerFrame(s, a, t, Departures);
    if a == Send(Departures) {
      var rest := s.leaves.worker.rest;
      assert GroupSeq(rest)[0] == rest[0].group && GroupSeq(rest)[1..] == GroupSeq(rest[1..]);
    }
  }

  lemma JammedOthers(s: State, a: Action, t: State)
    requires !IsWorker(a) && Step(s, a) == Some(t) && LeavesJammed(s.leaves)
    ensures t.leaves == s.leaves
  {
    PostedFrame(s, a, t);
  }

  lemma HeldUpReporter(s: State, a: Action, t: State, id: nat)
    requires HeldUp(s, id) && Step(s, a) == Some(t)
    ensures id in Live(t.reporters) && !t.reporters[id].pc.Releasing?
  {
    if IsReporter(a) { ReporterFrame(s, a, t); } else { ReportersFrame(s, a, t); }
  }

  lemma HeldUpStep(s: State, a: Action, t: State, id: nat)
    requires HeldUp(s, id) && Step(s, a) == Some(t) && a != Cancel
    ensures HeldUp(t, id)
  {
    HeldUpReporter(s, a, t, id);
    CancelledOnlyByCancel(s, a, t);
    if IsWorker(a) { JammedWorker(s, a, t); } else { JammedOthers(s, a, t); }
  }

  lemma HeldUpFollow(s: State, acts: seq<Action>, id: nat, k: Key)
    requires HeldUp(s, id) && Keeps(acts, k) && Follow(s, acts).Some?
    ensures HeldUp(Follow(s, acts).value, id)
  {
    var allowed := (a: Action) => a != Cancel;
    var heldUp := (x: State) => HeldUp(x, id);
    forall x, a, y | heldUp(x) && allowed(a) && Step(x, a) == Some(y)
      ensures heldUp(y)
    {
      HeldUpStep(x, a, y, id);
    }
    FollowKeeps(s, acts, allowed, heldUp);
  }

  // ----- The exact condition -----

  lemma KeptLives(s: State, id: nat, k: Key)
    requires Kept(s, id, k) || HeldUp(s, id)
    ensures StaysLive(s, id, k)
  {
    forall acts | Keeps(acts, k) && Follow(s, acts).Some?
      ensures id in Live(Follow(s, acts).value.reporters)
    {
      if Kept(s, id, k) { KeptFollow(s, acts, id, k); } else { HeldUpFollow(s, acts, id, k); }
    }
  }

  /**
   In every reachable state before cancellation: the live reporter, which is why a notification for stream `k` would
   be discarded, goes on for as long as the stream stays if and only if it can still list the stream, or is not yet
   at its release while the leave channel is jammed.
   */
  lemma WakeupKeptExactly(s: State, id: nat, k: Key)
    requires Reachable(s) && !s.cancelled && !s.halted && id in Live(s.reporters) && k in s.streams
    ensures StaysLive(s, id, k) <==>
      || WillList(s.reporters[id].pc, s.streams[k].born)
      || (LeavesJammed(s.leaves) && !s.reporters[id].pc.Releasing?)
  {
    var states, acts :| IsRun(states, acts) && states[|acts|] == s;
    InvAlongRun(states, acts, |acts|);
    BornAlongRun(states, acts, |acts|);
    if WillList(s.reporters[id].pc, s.streams[k].born) || HeldUp(s, id) {
      KeptLives(s, id, k);
    } else {
      var escape := MayRelease(s, id, k);
    }
  }
}
