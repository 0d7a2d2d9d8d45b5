/**
 Ledgers over a history of enqueued events: which groups are joined, which of them a
 tick accounts for, and which event named a group last.
 */
module Ledger {
  import opened Base
  import opened ClientProtocol

  ghost function Apply(joined: set<Addr>, e: Event): set<Addr> {
    if e.TickLeave? then joined - Groups(e.items) else joined + Groups(e.items)
  }

  /** The groups whose latest event is a report of either kind. */
  ghost function Joined(events: seq<Event>): set<Addr> {
    if events == [] then {} else Apply(Joined(events[..|events| - 1]), events[|events| - 1])
  }

  /** The same, ignoring the replies to queries. */
  ghost function TickJoined(events: seq<Event>): set<Addr> {
    if events == [] then {}
    else
      var before := TickJoined(events[..|events| - 1]);
      var e := events[|events| - 1];
      if e.QueryReply? then before else Apply(before, e)
  }

  /** The latest event that names `g`. */
  ghost function Latest(events: seq<Event>, g: Addr): Option<Event> {
    if events == [] then None
    else
      var e := events[|events| - 1];
      if g in Groups(e.items) then Some(e) else Latest(events[..|events| - 1], g)
  }

  lemma Append(events: seq<Event>, e: Event)
    ensures Joined(events + [e]) == Apply(Joined(events), e)
    ensures TickJoined(events + [e]) == if e.QueryReply? then TickJoined(events) else Apply(TickJoined(events), e)
  {
    assert (events + [e])[..|events|] == events;
  }

  lemma {:induction false} JoinedIsLatest(events: seq<Event>, g: Addr)
    ensures g in Joined(events) <==> Latest(events, g).Some? && !Latest(events, g).value.TickLeave?
  {
    if events != [] {
      JoinedIsLatest(events[..|events| - 1], g);
    }
  }

  /** A joined group that no tick accounts for was last named by a reply to a query. */
  lemma {:induction false} SurplusIsQueryReply(events: seq<Event>, g: Addr)
    ensures g in TickJoined(events) ==> g in Joined(events)
    ensures g in Joined(events) && g !in TickJoined(events)
        ==> Latest(events, g).Some? && Latest(events, g).value.QueryReply?
  {
    if events != [] {
      SurplusIsQueryReply(events[..|events| - 1], g);
    }
  }

  /** Both for all groups. */
  lemma LatestEvents(events: seq<Event>)
    ensures TickJoined(events) <= Joined(events)
    ensures forall g :: g in Joined(events) <==> Latest(events, g).Some? && !Latest(events, g).value.TickLeave?
    ensures forall g <- Joined(events) - TickJoined(events) ::
      Latest(events, g).Some? && Latest(events, g).value.QueryReply?
  {
    forall g
      ensures g in TickJoined(events) ==> g in Joined(events)
      ensures g in Joined(events) <==> Latest(events, g).Some? && !Latest(events, g).value.TickLeave?
      ensures g in Joined(events) && g !in TickJoined(events)
          ==> Latest(events, g).Some? && Latest(events, g).value.QueryReply?
    {
      JoinedIsLatest(events, g);
      SurplusIsQueryReply(events, g);
    }
  }

  lemma {:induction false} NoQueriesNoSurplus(events: seq<Event>)
    requires forall e | e in events :: !e.QueryReply?
    ensures Joined(events) == TickJoined(events)
  {
    if events != [] {
      NoQueriesNoSurplus(events[..|events| - 1]);
    }
  }

  /** A group that ticks account for at the end but not at the start was reported by a tick in between. */
  lemma {:induction false} GainedByTick(events: seq<Event>, n: nat, g: Addr) returns (c: nat)
    requires n <= |events| && g !in TickJoined(events[..n]) && g in TickJoined(events)
    ensures n <= c < |events| && events[c].TickReport? && g in Groups(events[c].items)
  {
    var m := |events| - 1;
    assert events[..|events|] == events;
    if events[m].TickReport? && g in Groups(events[m].items) {
      c := m;
    } else {
      assert events[..m][..n] == events[..n];
      c := GainedByTick(events[..m], n, g);
    }
  }

  /** The ledger a listener keeps from the packets on the wire. */
  ghost function WireJoined(wire: seq<Msg>): set<Addr> {
    if wire == [] then {}
    else
      var before := WireJoined(wire[..|wire| - 1]);
      var m := wire[|wire| - 1];
      if m.lane == Departures then before - {m.group} else before + {m.group}
  }

  lemma WireAppend(wire: seq<Msg>, m: Msg)
    ensures WireJoined(wire + [m])
         == if m.lane == Departures then WireJoined(wire) - {m.group} else WireJoined(wire) + {m.group}
  {
    assert (wire + [m])[..|wire|] == wire;
  }

  // ----- The contents of one lane, in order -----

  function InHand(w: WorkerPc): seq<Item> {
    if w.Sending? then w.rest else []
  }

  /** The groups waiting in a channel, in the order they will be sent. */
  ghost function Queued(queue: seq<seq<Item>>): seq<Addr> {
    if queue == [] then [] else GroupSeq(queue[0]) + Queued(queue[1..])
  }

  /** Everything a lane still has to send. */
  ghost function Unsent(lane: Lane): seq<Addr> {
    GroupSeq(InHand(lane.worker)) + Queued(lane.queue)
  }

  /** Everything ever put on a lane. */
  ghost function Enqueued(events: seq<Event>, l: LaneId): seq<Addr> {
    if events == [] then []
    else
      var e := events[|events| - 1];
      Enqueued(events[..|events| - 1], l) + if LaneFor(e) == l then GroupSeq(e.items) else []
  }

  /** Everything a lane has put on the wire. */
  ghost function Sent(wire: seq<Msg>, l: LaneId): seq<Addr> {
    if wire == [] then []
    else
      var m := wire[|wire| - 1];
      Sent(wire[..|wire| - 1], l) + if m.lane == l then [m.group] else []
  }

  lemma {:induction false} QueuedAppend(queue: seq<seq<Item>>, items: seq<Item>)
    ensures Queued(queue + [items]) == Queued(queue) + GroupSeq(items)
  {
    if queue == [] {
      assert (queue + [items])[1..] == [];
    } else {
      assert (queue + [items])[1..] == queue[1..] + [items];
      QueuedAppend(queue[1..], items);
    }
  }

  /** A list put on a lane goes behind everything sent and still to send. */
  lemma UnsentAppend(lane: Lane, items: seq<Item>, sent: seq<Addr>)
    ensures sent + Unsent(lane.(queue := lane.queue + [items])) == (sent + Unsent(lane)) + GroupSeq(items)
  {
    QueuedAppend(lane.queue, items);
    Associative(GroupSeq(InHand(lane.worker)), Queued(lane.queue), GroupSeq(items));
    Associative(sent, Unsent(lane), GroupSeq(items));
  }

  lemma EnqueuedAppend(events: seq<Event>, e: Event, l: LaneId)
    ensures Enqueued(events + [e], l)
         == if LaneFor(e) == l then Enqueued(events, l) + GroupSeq(e.items) else Enqueued(events, l)
  {
    assert (events + [e])[..|events|] == events;
  }

  lemma SentAppend(wire: seq<Msg>, m: Msg, l: LaneId)
    ensures Sent(wire + [m], l) == if m.lane == l then Sent(wire, l) + [m.group] else Sent(wire, l)
  {
    assert (wire + [m])[..|wire|] == wire;
  }
}
