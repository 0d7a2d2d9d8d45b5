/**
 The loop of one gratuitous reporter, step by step as the code does it, against the
 moves of the client protocol.
 */
module GratuitousLoop {
  import opened Base
  import opened LeaveDiff
  import opened ClientProtocol
  import opened Ledger
  import opened ClientInvariants

  /** The groups that the streams with these keys ask for. */
  ghost function GroupsAt(streams: map<Key, Stream>, keys: set<Key>): set<Addr>
    requires keys <= streams.Keys
  {
    set k <- keys :: streams[k].item.group
  }

  /** The list holds the item of each key, in this order and once. */
  ghost predicate Walks(streams: map<Key, Stream>, order: seq<Key>, groups: seq<Item>) {
    && |order| == |groups| && (forall i, j | 0 <= i < j < |order| :: order[i] != order[j])
    && forall i | 0 <= i < |order| :: order[i] in streams && groups[i] == streams[order[i]].item
  }

  /** The walk has listed exactly the keys it has visited, which are those not left. */
  ghost predicate WalkSoFar(streams: map<Key, Stream>, left: set<Key>, order: seq<Key>, scan: Scan, clock: nat) {
    && left <= streams.Keys && scan.visited == streams.Keys - left == (set k <- order)
    && Walks(streams, order, scan.found) && scan.start == clock && ScanInv(scan, clock)
  }

  lemma WalkOn(streams: map<Key, Stream>, left: set<Key>, order: seq<Key>, scan: Scan, clock: nat, key: Key)
    requires WalkSoFar(streams, left, order, scan, clock) && key in left
    ensures WalkSoFar(streams, left - {key}, order + [key], Visited(scan, key, streams[key].item), clock)
  {
    assert key !in order;
    assert (set k <- order + [key]) == (set k <- order) + {key};
  }

  /** A walk over all keys lists exactly the groups of the streams. */
  lemma WalkGroups(streams: map<Key, Stream>, order: seq<Key>, groups: seq<Item>)
    requires Walks(streams, order, groups) && (set k <- order) == streams.Keys
    ensures Groups(groups) == GroupsAt(streams, streams.Keys)
  {
    forall k | k in streams
      ensures streams[k].item.group in Groups(groups)
    {
      var i :| 0 <= i < |order| && order[i] == k;
      assert groups[i] in groups;
    }
  }

  /** The walk over localStreams: the item of each key, once, in the order of the visits. */
  method BuildMembershipItems(streams: map<Key, Stream>, clock: nat)
    returns (groups: seq<Item>, ghost scan: Scan, ghost order: seq<Key>)
    ensures scan.found == groups && ScanInv(scan, clock)
    ensures scan.visited == streams.Keys && ScanComplete(scan, streams)
    ensures Walks(streams, order, groups) && |groups| == |streams|
    ensures Groups(groups) == GroupsAt(streams, streams.Keys)
  {
    groups, scan, order := [], Scan(clock, {}, []), [];
    var left := streams.Keys;
    while left != {}
      invariant WalkSoFar(streams, left, order, scan, clock) && scan.found == groups
    {
      var key :| key in left;
      WalkOn(streams, left, order, scan, clock, key);
      groups, order := groups + [streams[key].item], order + [key];
      scan := Visited(scan, key, streams[key].item);
      left := left - {key};
    }
    WalkGroups(streams, order, groups);
  }

  /**
   What the select of the loop wakes up to: a tick, with the list built for it and whether the
   first attempt to send on each channel finds room, or the end of the context.
   */
  datatype Wake = Ticked(groups: seq<Item>, leaveRoom: bool, reportRoom: bool) | Done

  /** The loop stops at the first empty list, or when the context ends. */
  predicate Stops(wake: Wake) {
    wake.Done? || wake.groups == []
  }

  function ListsOf(wake: Wake): seq<seq<Item>> {
    if wake.Done? then [] else [wake.groups]
  }

  /** The lists built until the loop stops. */
  function Lists(wakes: seq<Wake>): seq<seq<Item>> {
    if wakes == [] then []
    else ListsOf(wakes[0]) + if Stops(wakes[0]) then [] else Lists(wakes[1..])
  }

  /** Does the loop come to its end within these wake-ups? */
  predicate Ends(wakes: seq<Wake>) {
    wakes != [] && (Stops(wakes[0]) || Ends(wakes[1..]))
  }

  /** A tick that lists `groups` after one that listed `prev`. */
  function AfterTick(before: seq<Event>, prev: seq<Item>, groups: seq<Item>): seq<Event> {
    var left := before + [TickLeave(Leaves(groups, prev))];
    if groups == [] then left else left + [TickReport(groups)]
  }

  /** What a sequence of ticks enqueues, in order: each time the leaves, then the list unless it is empty. */
  function Enqueues(ticks: seq<seq<Item>>): seq<Event> {
    if ticks == [] then []
    else
      var n := |ticks| - 1;
      AfterTick(Enqueues(ticks[..n]), Before(ticks, n), ticks[n])
  }

  lemma ListsNext(before: seq<seq<Item>>, wakes: seq<Wake>, k: nat)
    requires k < |wakes|
    ensures before + Lists(wakes[k..])
         == before + ListsOf(wakes[k]) + if Stops(wakes[k]) then [] else Lists(wakes[k + 1..])
    ensures Ends(wakes[k..]) == (Stops(wakes[k]) || Ends(wakes[k + 1..]))
  {
    assert wakes[k..][1..] == wakes[k + 1..];
  }

  /** A reporter whose tick has just listed these groups. */
  ghost function Listed(r: Reporter, groups: seq<Item>): Reporter {
    r.(pc := Leaving(groups), ticks := r.ticks + [groups])
  }

  lemma EnqueuesLast(ticks: seq<seq<Item>>, groups: seq<Item>)
    ensures Enqueues(ticks + [groups]) == AfterTick(Enqueues(ticks), Before(ticks, |ticks|), groups)
  {
    assert (ticks + [groups])[..|ticks|] == ticks;
    assert Before(ticks + [groups], |ticks|) == Before(ticks, |ticks|);
  }

  /** The protocol's moves for a whole tick keep the reporter's history, and post what Enqueues says. */
  lemma TickKeeps(r: Reporter, groups: seq<Item>)
    requires ReporterInv(r, 0) && r.pc == Select
    ensures var m := AfterLeaves(Listed(r, groups), groups);
      && ReporterInv(if groups != [] then AfterReport(m.r, groups).r else m.r, 0)
      && m.post == Some(TickLeave(Leaves(groups, r.prev)))
      && Enqueues(m.r.ticks) == AfterTick(Enqueues(r.ticks), r.prev, groups)
  {
    ListBuiltKeepsReporterInv(r.(pc := Scanning(Scan(0, {}, []))), groups, 0);
    AfterLeavesInv(Listed(r, groups), groups, 0);
    EnqueuesLast(r.ticks, groups);
  }

  class GratuitousReporter {
    var previousGroups: seq<Item>
    var keepLooping: bool
    /** The lists sent on the two channels, in order. */
    var sent: seq<Event>
    /** How often a first attempt to send found the channel full. */
    var blocked: nat

    /** The reporter of the protocol that this loop follows. */
    ghost var r: Reporter

    ghost predicate Valid()
      reads this
    {
      && r.prev == previousGroups && sent == Enqueues(r.ticks)
      && ReporterInv(r, 0) && r.pc == if keepLooping then Select else Releasing
    }

    constructor ()
      ensures Valid() && r == FRESH && keepLooping && sent == [] && blocked == 0
    {
      previousGroups, keepLooping, sent, blocked := [], true, [], 0;
      r := FRESH;
    }

    /** First without blocking, then, if there was no room, blocking: the list is sent once either way. */
    method Send(e: Event, room: bool)
      modifies this`sent, this`blocked
      ensures sent == old(sent) + [e] && blocked == old(blocked) + if room then 0 else 1
    {
      if room {
        sent := sent + [e];
        return;
      }
      blocked := blocked + 1;
      sent := sent + [e];
    }

    /** Finds the groups to leave and sends them, even when there are none. */
    method FindAndLeaveGroups(groups: seq<Item>, room: bool)
      requires r.prev == previousGroups && (r.pc == Leaving(groups) || r.pc == LeaveBlocked(groups))
      modifies this`sent, this`blocked, this`r
      ensures var m := AfterLeaves(old(r), groups); r == m.r && sent == old(sent) + [m.post.value]
    {
      var leaves := FindGroupsToLeave(groups, previousGroups);
      Send(TickLeave(leaves), room);
      r := AfterLeaves(r, groups).r;
    }

    /** One tick: leave what is gone, then report what is there, or stop if nothing is. */
    method Tick(groups: seq<Item>, leaveRoom: bool, reportRoom: bool)
      requires Valid() && keepLooping
      modifies this
      ensures Valid() && r.ticks == old(r.ticks) + [groups] && keepLooping == (groups != [])
    {
      TickKeeps(r, groups);
      r := Listed(r, groups);
      FindAndLeaveGroups(groups, leaveRoom);
      if |groups| > 0 {
        Send(TickReport(groups), reportRoom);
        previousGroups := groups;
        r := AfterReport(r, groups).r;
        return;
      }
      keepLooping := false;
    }

    /** The context has ended. */
    method Stop()
      requires Valid() && keepLooping
      modifies this`keepLooping, this`r
      ensures Valid() && !keepLooping && r.ticks == old(r.ticks)
    {
      keepLooping := false;
      r := r.(pc := Releasing);
    }

    /** The whole loop, for as long as it is woken up. */
    method Loop(wakes: seq<Wake>)
      requires Valid() && r == FRESH && keepLooping
      modifies this
      ensures Valid() && r.ticks == Lists(wakes) && sent == Enqueues(Lists(wakes)) && keepLooping == !Ends(wakes)
    {
      ghost var rest, ends := Lists(wakes), Ends(wakes);
      assert wakes[0..] == wakes && r.ticks + rest == rest;
      var k := 0;
      while k < |wakes| && keepLooping
        invariant k <= |wakes| && Valid()
        invariant r.ticks + rest == Lists(wakes)
        invariant if keepLooping then rest == Lists(wakes[k..]) && ends == Ends(wakes[k..])
                  else rest == [] && Ends(wakes)
        invariant keepLooping ==> ends == Ends(wakes)
      {
        ListsNext(r.ticks, wakes, k);
        rest, ends := if Stops(wakes[k]) then [] else Lists(wakes[k + 1..]), Ends(wakes[k + 1..]);
        WakeUp(wakes[k]);
        k := k + 1;
      }
    }

    /** One turn of the loop. */
    method WakeUp(wake: Wake)
      requires Valid() && keepLooping
      modifies this
      ensures Valid() && r.ticks == old(r.ticks) + ListsOf(wake) && keepLooping == !Stops(wake)
    {
      if wake.Ticked? {
        Tick(wake.groups, wake.leaveRoom, wake.reportRoom);
      } else {
        Stop();
      }
    }
  }

  lemma LeaveThenReport(joined: set<Addr>, prev: seq<Item>, groups: seq<Item>)
    requires joined == Groups(prev)
    ensures Apply(Apply(joined, TickLeave(Leaves(groups, prev))), TickReport(groups)) == Groups(groups)
    ensures groups == [] ==> Apply(joined, TickLeave(Leaves(groups, prev))) == {}
  {
    LeavesGroups(groups, prev);
  }

  lemma JoinedAfterTick(before: seq<Event>, prev: seq<Item>, groups: seq<Item>)
    requires Joined(before) == Groups(prev)
    ensures Joined(AfterTick(before, prev, groups)) == Groups(groups)
  {
    var e := TickLeave(Leaves(groups, prev));
    LeaveThenReport(Joined(before), prev, groups);
    Append(before, e);
    Append(before + [e], TickReport(groups));
  }

  /** Whatever the ticks were, what they enqueued joins exactly the groups of the last list. */
  lemma {:induction false} EnqueuesJoinLast(ticks: seq<seq<Item>>)
    ensures Joined(Enqueues(ticks)) == Groups(Before(ticks, |ticks|))
  {
    if ticks != [] {
      var n := |ticks| - 1;
      var groups, prev := ticks[n], Before(ticks, n);
      EnqueuesJoinLast(ticks[..n]);
      JoinedAfterTick(Enqueues(ticks[..n]), prev, groups);
      assert Before(ticks[..n], n) == prev;
    }
  }
}
