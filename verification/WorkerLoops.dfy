/**
 The workers that drain a channel to the network: their loops as the code writes them,
 and the agreement of the two models of a worker, the library's and the client protocol's.
 */
module WorkerLoops {
  import opened Base
  import opened Setup
  import opened Library
  import Client = ClientProtocol

  // ----- The loops -----

  /** What a worker's select wakes up to. */
  datatype Wake = Received(items: seq<Item>) | Done

  /** All items received before the context ends. */
  function Taken(wakes: seq<Wake>): seq<Item> {
    if wakes == [] || wakes[0].Done? then [] else wakes[0].items + Taken(wakes[1..])
  }

  /** The items before the first one whose group is not an address: that one ends the process. */
  function Sendable(items: seq<Item>): (r: seq<Item>)
    ensures r <= items && forall it <- r :: it.group != NoAddr
    ensures r == items || items[|r|].group == NoAddr
  {
    if items == [] || items[0].group == NoAddr then [] else [items[0]] + Sendable(items[1..])
  }

  lemma {:induction false} SendableConcat(a: seq<Item>, b: seq<Item>)
    ensures Sendable(a + b) == if Sendable(a) == a then a + Sendable(b) else Sendable(a)
  {
    if a == [] {
      assert a + b == b;
    } else {
      assert (a + b)[1..] == a[1..] + b;
      SendableConcat(a[1..], b);
      assert Sendable(a) == a ==> Sendable(a[1..]) == a[1..];
    }
  }

  /** After items that can all be sent, one without an address stops everything. */
  lemma SendableStops(before: seq<Item>, after: seq<Item>)
    requires Sendable(before) == before && after != [] && after[0].group == NoAddr
    ensures Sendable(before + after) == before
  {
    SendableConcat(before, after);
  }

  lemma SendableOneMore(before: seq<Item>, item: Item)
    requires Sendable(before) == before && item.group != NoAddr
    ensures Sendable(before + [item]) == before + [item]
  {
    SendableConcat(before, [item]);
  }

  /** When the items before the `i`-th can all be sent, the `i`-th decides how it goes on. */
  lemma SendableNext(items: seq<Item>, i: nat)
    requires i < |items| && Sendable(items[..i]) == items[..i]
    ensures items[..i + 1] == items[..i] + [items[i]]
    ensures if items[i].group == NoAddr then Sendable(items) == items[..i]
            else Sendable(items[..i + 1]) == items[..i + 1]
  {
    assert items[..i + 1] == items[..i] + [items[i]];
    if items[i].group == NoAddr {
      assert items == items[..i] + items[i..];
      SendableStops(items[..i], items[i..]);
    } else {
      SendableOneMore(items[..i], items[i]);
    }
  }

  /** One packet for each item, in order. */
  function FramesFor(c: System, g: Goroutine, items: seq<Item>): (r: seq<Frame>)
    ensures |r| == |items|
  {
    seq(|items|, k requires 0 <= k < |items| => WorkerFrame(c, g, items[k]))
  }

  lemma FramesConcat(c: System, g: Goroutine, a: seq<Item>, b: seq<Item>)
    ensures FramesFor(c, g, a + b) == FramesFor(c, g, a) + FramesFor(c, g, b)
  {
  }

  /** How far a worker has come with all its items: to a fatal one, or with the rest still to come. */
  ghost predicate Progress(fatal: bool, sent: seq<Item>, rest: seq<Item>, all: seq<Item>) {
    if fatal then sent == Sendable(all) != all else Sendable(sent) == sent && sent + rest == all
  }

  /** One more list: all of it is sent, or the first item without an address ends everything. */
  lemma TakenNext(sent: seq<Item>, wakes: seq<Wake>, k: nat, all: seq<Item>)
    requires k < |wakes| && wakes[k].Received? && Progress(false, sent, Taken(wakes[k..]), all)
    ensures var items := wakes[k].items;
      Progress(Sendable(items) != items, sent + Sendable(items), Taken(wakes[k + 1..]), all)
  {
    var items, rest := wakes[k].items, Taken(wakes[k + 1..]);
    assert wakes[k..][1..] == wakes[k + 1..];
    assert sent + (items + rest) == (sent + items) + rest;
    SendableConcat(sent, items);
    SendableConcat(sent, items + rest);
    SendableConcat(items, rest);
  }

  class ChannelWorker {
    const c: System
    const g: Goroutine
    /** What was written to the outside connection. */
    var frames: seq<Frame>
    /** The process ended on an item without an address. */
    var fatal: bool

    constructor (c: System, proc: Proc)
      requires proc.ReportWorker? || proc.LeaveWorker?
      ensures this.c == c && g == Goroutine(proc, Head, NoAddr, 0) && frames == [] && !fatal
    {
      this.c, g := c, Goroutine(proc, Head, NoAddr, 0);
      frames, fatal := [], false;
    }

    /** Sends the items one by one, up to the first that has no address. */
    method Send(items: seq<Item>)
      requires !fatal
      modifies this
      ensures frames == old(frames) + FramesFor(c, g, Sendable(items))
      ensures fatal <==> Sendable(items) != items
    {
      for i := 0 to |items|
        invariant !fatal && Sendable(items[..i]) == items[..i]
        invariant frames == old(frames) + FramesFor(c, g, items[..i])
      {
        SendableNext(items, i);
        if items[i].group == NoAddr {
          fatal := true;
          return;
        }
        FramesConcat(c, g, items[..i], [items[i]]);
        frames := frames + [WorkerFrame(c, g, items[i])];
      }
      assert items[..|items|] == items;
    }

    /** The worker's loop: list after list until the context ends. */
    method Drain(wakes: seq<Wake>)
      requires !fatal
      modifies this
      ensures frames == old(frames) + FramesFor(c, g, Sendable(Taken(wakes)))
      ensures fatal <==> Sendable(Taken(wakes)) != Taken(wakes)
    {
      ghost var sent: seq<Item>, all := [], Taken(wakes);
      var k := 0;
      assert wakes[0..] == wakes;
      while k < |wakes| && !wakes[k].Done? && !fatal
        invariant k <= |wakes|
        invariant frames == old(frames) + FramesFor(c, g, sent)
        invariant Progress(fatal, sent, Taken(wakes[k..]), all)
      {
        TakenNext(sent, wakes, k, all);
        FramesConcat(c, g, sent, Sendable(wakes[k].items));
        Associative(old(frames), FramesFor(c, g, sent), FramesFor(c, g, Sendable(wakes[k].items)));
        Send(wakes[k].items);
        sent := sent + Sendable(wakes[k].items);
        k := k + 1;
      }
    }
  }

  // ----- The two models of a worker agree -----

  function ProcOf(l: Client.LaneId): Proc {
    if l == Client.Reports then ReportWorker else LeaveWorker
  }

  function ActOf(a: Client.Action): Act
    requires Client.IsWorker(a)
  {
    match a
    case Receive(_) => ReceiveList
    case Send(_) => SendItem
    case Next(_) => NextList
    case Exit(_) => Exit
  }

  /** A library worker and its channel, seen as a lane of the client protocol. */
  function AsLane(pc: Pc, chans: Chans, l: Client.LaneId): Client.Lane {
    var queue := if l == Client.Reports then chans.report else chans.leave;
    Client.Lane(queue, match pc
                       case Sending(items) => Client.Sending(items)
                       case Exited => Client.Exited
                       case _ => Client.Waiting)
  }

  /** The pcs of a channel worker. */
  predicate IsWorkerPc(pc: Pc) {
    pc.Head? || pc.Sending? || pc.Exited?
  }

  /** The library's worker `g` and the lane of the client protocol do the same on `a`. */
  ghost predicate SameMove(c: System, g: Goroutine, i: nat, s: State, a: Client.Action)
    requires Client.IsWorker(a)
  {
    var lane := Client.MoveWorker(AsLane(g.pc, s.chans, a.lane), s.cancelled, a);
    match Move(c, g, i, s, ActOf(a)) {
      case Blocked => lane == None
      case Panics => lane == Some(Client.Fatal)
      case Does(e) =>
        && lane.Some? && lane.value.WorkerMove?
        && lane.value.lane == AsLane(e.g.pc, OnChans(s.chans, e.chan), a.lane)
        && IsWorkerPc(e.g.pc)
        && match lane.value.sent {
             case None => e.frame == None
             case Some(group) =>
               && e.frame.Some? && e.frame.value.Originated? && e.frame.value.group == group
               && e.frame.value.kind == if a.lane == Client.Reports then REPORT_V2 else LEAVE_GROUP
           }
    }
  }

  lemma ReceivesAgree(c: System, g: Goroutine, i: nat, s: State, a: Client.Action)
    requires a.Receive? && g.proc == ProcOf(a.lane) && IsWorkerPc(g.pc)
    ensures SameMove(c, g, i, s, a)
  {
  }

  lemma SendsAgree(c: System, g: Goroutine, i: nat, s: State, a: Client.Action)
    requires a.Send? && g.proc == ProcOf(a.lane) && IsWorkerPc(g.pc)
    ensures SameMove(c, g, i, s, a)
  {
  }

  /**
   A worker of the library does exactly what the client protocol says its lane does, and the packet
   it sends is of the lane's kind.
   */
  lemma WorkersAgree(c: System, g: Goroutine, i: nat, s: State, a: Client.Action)
    requires Client.IsWorker(a) && g.proc == ProcOf(a.lane) && IsWorkerPc(g.pc)
    ensures SameMove(c, g, i, s, a)
  {
    if a.Receive? {
      ReceivesAgree(c, g, i, s, a);
    } else if a.Send? {
      SendsAgree(c, g, i, s, a);
    }
  }

  /** A worker takes no other steps. */
  lemma WorkerActs(c: System, g: Goroutine, i: nat, s: State, act: Act, l: Client.LaneId)
    requires g.proc == ProcOf(l) && IsWorkerPc(g.pc) && !Move(c, g, i, s, act).Blocked?
    ensures exists a: Client.Action :: Client.IsWorker(a) && a.lane == l && ActOf(a) == act
  {
    var a := match act
      case ReceiveList => Client.Receive(l)
      case SendItem => Client.Send(l)
      case NextList => Client.Next(l)
      case _ => Client.Exit(l);
    assert Client.IsWorker(a) && a.lane == l && ActOf(a) == act;
  }
}
