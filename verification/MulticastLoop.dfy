/**
 The loop of one multicast receiver as the code writes it, over buffers in place.
 */
module MulticastLoop {
  import opened Base
  import opened Setup
  import opened Library
  import opened BytePools

  // ----- One turn of the loop -----

  datatype Read = Timeout | Failed | Delivered(packet: Packet)

  /**
   What a turn meets: the read's outcome, the decoder's, the shared route at each of its two looks,
   and whether a non-blocking send would succeed.
   */
  datatype Turn = Turn(read: Read, active: map<Side, Side>, layer: Layer, room: bool, route: map<Side, Side>)

  datatype Sent = Sent(out: Side, dst: Addr, payload: seq<Byte>)

  /** What a turn does: the querier's address known, the packet forwarded, the send to a channel, the buffer's fate. */
  datatype Result = Result(querier: Addr, sent: Option<Sent>, pushed: ChanOp, returned: bool, status: Status)

  /** The packet is for this receiver, on the active side, and decodes. */
  predicate Passes(c: System, p: Proc, turn: Turn)
    requires p.Multicast?
  {
    && turn.read.Delivered? && !Ignored(c, p.side, turn.active)
    && ForReceiver(c, p, turn.read.packet) && !turn.layer.NoLayer?
  }

  /** A passing packet whose layer is not of its type's kind: version 2 panics, version 3 is dropped. */
  predicate Miscast(kind: Byte, layer: Layer) {
    (kind == REPORT_V2 && !layer.V1or2?) || (kind == REPORT_V3 && !layer.V3?)
  }

  predicate Accepts(c: System, p: Proc, turn: Turn, contents: seq<Byte>)
    requires p.Multicast? && |contents| == BUFFER_SIZE
  {
    Passes(c, p, turn) && !Miscast(contents[0], turn.layer)
  }

  /** What an accepted packet of this kind would send to a channel. */
  function Notice(conf: Config, kind: Byte, layer: Layer): ChanOp {
    if kind == MEMBERSHIP_QUERY && conf.queryNotify then PushQuery
    else if kind == REPORT_V2 && conf.membershipReportsFromNetwork && layer.V1or2?
    then PushFromNet([Item([], layer.group)])
    else if kind == REPORT_V3 && conf.membershipReportsFromNetwork && layer.V3? then PushFromNet(layer.items)
    else NoOp
  }

  /** An accepted packet is to be forwarded, and the route names a side. */
  predicate Forwards(c: System, p: Proc, turn: Turn, contents: seq<Byte>)
    requires p.Multicast? && |contents| == BUFFER_SIZE
  {
    Accepts(c, p, turn, contents) && ProxyIt(c.conf, p.side) && p.side in turn.route
  }

  /** The status after a turn, given the buffer's contents after the read. */
  function StatusOf(c: System, p: Proc, turn: Turn, contents: seq<Byte>): Status
    requires p.Multicast? && |contents| == BUFFER_SIZE
  {
    if Passes(c, p, turn) && contents[0] == REPORT_V2 && !turn.layer.V1or2? then Panicked
    else if Forwards(c, p, turn, contents) && !IsOpen(c.conf, Raw(turn.route[p.side])) then Crashed
    else Running
  }

  function Judge(c: System, p: Proc, querier: Addr, turn: Turn, contents: seq<Byte>): Result
    requires p.Multicast? && |contents| == BUFFER_SIZE
  {
    var accepts, kind, status := Accepts(c, p, turn, contents), contents[0], StatusOf(c, p, turn, contents);
    Result(
      if accepts && kind == MEMBERSHIP_QUERY then turn.read.packet.src else querier,
      if Forwards(c, p, turn, contents) && status == Running
      then Some(Sent(turn.route[p.side], GroupAddr(p.group), contents)) else None,
      if accepts && turn.room then Notice(c.conf, kind, turn.layer) else NoOp,
      status == Running && (accepts ==> ProxyIt(c.conf, p.side)),
      status)
  }

  /** The contents of a buffer after the turn's read. */
  function After(before: seq<Byte>, turn: Turn): (r: seq<Byte>)
    requires |before| == BUFFER_SIZE
    ensures |r| == BUFFER_SIZE
  {
    if turn.read.Delivered? then Overlay(before, turn.read.packet.payload) else before
  }

  /** The packets sent over a sequence of turns. */
  function SentIn(results: seq<Result>): seq<Sent> {
    if results == [] then []
    else
      var r := results[|results| - 1];
      SentIn(results[..|results| - 1]) + if r.sent.Some? then [r.sent.value] else []
  }

  /** The sends to channels over a sequence of turns. */
  function PushedIn(results: seq<Result>): seq<ChanOp> {
    if results == [] then []
    else
      var r := results[|results| - 1];
      PushedIn(results[..|results| - 1]) + if r.pushed != NoOp then [r.pushed] else []
  }

  function LastQuerier(querier: Addr, results: seq<Result>): Addr {
    if results == [] then querier else results[|results| - 1].querier
  }

  /** A turn's result is what its packet calls for, in the buffer as it was found and with the querier known so far. */
  ghost predicate IsTurn(c: System, p: Proc, querier: Addr, found: seq<Byte>, turn: Turn, use: Use, r: Result)
    requires p.Multicast?
  {
    && |found| == BUFFER_SIZE && use.contents == After(found, turn) && use.returned == r.returned
    && r == Judge(c, p, querier, turn, use.contents)
  }

  /**
   Each turn takes a pooled buffer, as an earlier turn put it back, or a new one, and does what the packet it meets
   calls for; only the last may fail.
   */
  ghost predicate Trace(c: System, p: Proc, querier: Addr, stock: Stock, turns: seq<Turn>, uses: seq<Use>,
                        results: seq<Result>)
    requires p.Multicast?
    decreases |results|
  {
    && |results| == |uses| <= |turns|
    && (results == [] ||
        var n := |results| - 1;
        && Trace(c, p, querier, stock, turns, uses[..n], results[..n])
        && (n > 0 ==> results[n - 1].status == Running)
        && Takes(stock, uses[..n], uses[n].buf)
        && IsTurn(c, p, LastQuerier(querier, results[..n]), Found(UsedAll(stock, uses[..n]), uses[n].buf), turns[n],
                  uses[n], results[n]))
  }

  /** What a receiver has come to after these turns. */
  datatype Standing = Standing(stock: Stock, querier: Addr, sent: seq<Sent>, pushed: seq<ChanOp>, status: Status)

  /** These turns lead from one standing to the other. */
  ghost predicate Leads(c: System, p: Proc, first: Standing, turns: seq<Turn>, uses: seq<Use>, results: seq<Result>,
                        now: Standing)
    requires p.Multicast?
  {
    && Trace(c, p, first.querier, first.stock, turns, uses, results)
    && now.stock == UsedAll(first.stock, uses)
    && now.querier == LastQuerier(first.querier, results)
    && now.sent == first.sent + SentIn(results) && now.pushed == first.pushed + PushedIn(results)
    && now.status == if results == [] then first.status else results[|results| - 1].status
  }

  /** What a turn makes of where the receiver stands. */
  function Later(now: Standing, use: Use, r: Result): Standing {
    Standing(Used(now.stock, use), r.querier, now.sent + (if r.sent.Some? then [r.sent.value] else []),
             now.pushed + (if r.pushed != NoOp then [r.pushed] else []), r.status)
  }

  lemma TotalsNext(stock: Stock, uses: seq<Use>, use: Use, results: seq<Result>, r: Result)
    ensures UsedAll(stock, uses + [use]) == Used(UsedAll(stock, uses), use)
    ensures SentIn(results + [r]) == SentIn(results) + if r.sent.Some? then [r.sent.value] else []
    ensures PushedIn(results + [r]) == PushedIn(results) + if r.pushed != NoOp then [r.pushed] else []
  {
    assert (results + [r])[..|results|] == results;
    assert (uses + [use])[..|uses|] == uses;
  }

  lemma TraceNext(c: System, p: Proc, first: Standing, turns: seq<Turn>, uses: seq<Use>, results: seq<Result>,
                  now: Standing, use: Use, r: Result)
    requires p.Multicast? && Leads(c, p, first, turns, uses, results, now) && |results| < |turns|
    requires now.status == Running && Takes(first.stock, uses, use.buf)
    requires IsTurn(c, p, now.querier, Found(now.stock, use.buf), turns[|results|], use, r)
    ensures Leads(c, p, first, turns, uses + [use], results + [r], Later(now, use, r))
  {
    TotalsNext(first.stock, uses, use, results, r);
    assert (results + [r])[..|results|] == results;
    assert (uses + [use])[..|results|] == uses;
  }

  class MulticastReceiver {
    const c: System
    const side: Side
    const group: Dest
    const pool: BytePool

    /** This goroutine's own copy of the querier's address. */
    var querier: Addr
    var sent: seq<Sent>
    var pushed: seq<ChanOp>
    var status: Status

    constructor (c: System, side: Side, group: Dest, pool: BytePool)
      ensures this.c == c && this.side == side && this.group == group && this.pool == pool
      ensures querier == NoAddr && sent == [] && pushed == [] && status == Running
    {
      this.c, this.side, this.group, this.pool := c, side, group, pool;
      querier, sent, pushed, status := NoAddr, [], [], Running;
    }

    function Self(): Proc {
      Multicast(side, group)
    }

    /** A send that does not wait. */
    method TrySend(op: ChanOp, room: bool)
      modifies this`pushed
      ensures pushed == old(pushed) + if room then [op] else []
    {
      if room {
        pushed := pushed + [op];
      }
    }

    /** What the switch on the type does with a decoded packet; false when the packet is given up. */
    method Dispatch(kind: Byte, src: Addr, layer: Layer, room: bool) returns (goOn: bool)
      requires status == Running && !layer.NoLayer?
      modifies this`querier, this`pushed, this`status
      ensures goOn == !Miscast(kind, layer)
      ensures status == if kind == REPORT_V2 && !layer.V1or2? then Panicked else Running
      ensures querier == if kind == MEMBERSHIP_QUERY then src else old(querier)
      ensures pushed == old(pushed) + if goOn && room && Notice(c.conf, kind, layer) != NoOp
                                      then [Notice(c.conf, kind, layer)] else []
    {
      if kind == MEMBERSHIP_QUERY {
        querier := src;
        if c.conf.queryNotify {
          TrySend(PushQuery, room);
        }
      } else if kind == REPORT_V2 {
        if !layer.V1or2? {
          status := Panicked;
          return false;
        }
        if c.conf.membershipReportsFromNetwork {
          TrySend(PushFromNet([Item([], layer.group)]), room);
        }
      } else if kind == REPORT_V3 {
        if !layer.V3? {
          return false;
        }
        if c.conf.membershipReportsFromNetwork {
          TrySend(PushFromNet(layer.items), room);
        }
      }
      return true;
    }

    /** The checks before the switch, in the code's order. */
    method LetsThrough(turn: Turn) returns (pass: bool)
      requires turn.read.Delivered?
      ensures pass == Passes(c, Self(), turn)
    {
      if c.conf.AltOutExists() {
        if side == OUT || side == ALTOUT {
          if IN !in turn.active { return false; }
          if side != turn.active[IN] { return false; }
        }
      }
      if SideOfIndex(c.conf, c.indexOf, turn.read.packet.ifIndex) != side { return false; }
      if turn.read.packet.dst != GroupAddr(group) { return false; }
      return !turn.layer.NoLayer?;
    }

    /** Forwards the whole buffer, whatever was read into it. */
    method Proxy(out: Side, buf: array<Byte>)
      requires status == Running && buf.Length == BUFFER_SIZE
      modifies this`sent, this`status
      ensures status == if IsOpen(c.conf, Raw(out)) then Running else Crashed
      ensures sent == old(sent) + if status == Running then [Sent(out, GroupAddr(group), buf[..])] else []
    {
      if !IsOpen(c.conf, Raw(out)) {
        status := Crashed;
        return;
      }
      sent := sent + [Sent(out, GroupAddr(group), buf[..])];
    }

    /** One turn: take a buffer, read, filter, dispatch, forward; the buffer goes back on some paths only. */
    method Receive(turn: Turn) returns (buf: array<Byte>, ghost before: seq<Byte>)
      requires pool.Valid() && status == Running && IsOpen(c.conf, MCon(side, group))
      modifies this, pool, pool.free
      ensures buf.Length == BUFFER_SIZE && |before| == BUFFER_SIZE && pool.Valid()
      ensures (buf in old(pool.free) && before == old(buf[..])) || (fresh(buf) && before == Zeros())
      ensures buf[..] == After(before, turn) && forall other <- old(pool.free) - {buf} :: other[..] == old(other[..])
      ensures var r := Judge(c, Self(), old(querier), turn, buf[..]);
        && querier == r.querier && status == r.status
        && sent == old(sent) + (if r.sent.Some? then [r.sent.value] else [])
        && pushed == old(pushed) + (if r.pushed != NoOp then [r.pushed] else [])
        && pool.free == old(pool.free) - {buf} + if r.returned then {buf} else {}
    {
      buf := pool.Get();
      before := buf[..];
      if !turn.read.Delivered? {
        pool.Put(buf);
        return;
      }
      var n := ReadInto(buf, turn.read.packet.payload);
      var pass := LetsThrough(turn);
      if !pass {
        pool.Put(buf);
        return;
      }
      var goOn := Dispatch(buf[0], turn.read.packet.src, turn.layer, turn.room);
      if status == Panicked {
        return;
      }
      if !goOn {
        pool.Put(buf);
        return;
      }
      if ProxyIt(c.conf, side) {
        if side !in turn.route {
          pool.Put(buf);
          return;
        }
        Proxy(turn.route[side], buf);
        if status == Running {
          pool.Put(buf);
        }
      }
    }

    ghost function Stands(): Standing
      reads this, pool, pool.free
    {
      Standing(pool.Holds(), querier, sent, pushed, status)
    }

    /** The same turn, as one use of the pool. */
    method TakeTurn(turn: Turn) returns (ghost use: Use, ghost r: Result)
      requires pool.Valid() && status == Running && IsOpen(c.conf, MCon(side, group))
      modifies this, pool, pool.free
      ensures pool.Valid() && pool.free <= old(pool.free) + {use.buf} && (use.buf in old(pool.free) || fresh(use.buf))
      ensures IsTurn(c, Self(), old(querier), Found(old(pool.Holds()), use.buf), turn, use, r)
      ensures Stands() == Later(old(Stands()), use, r)
    {
      var buf, before := Receive(turn);
      r := Judge(c, Self(), old(querier), turn, buf[..]);
      use := Use(buf, buf[..], r.returned);
      pool.HoldsAfter(buf, r.returned);
    }

    /** The loop: turn after turn until the context ends, a panic or a crash. */
    method Loop(turns: seq<Turn>) returns (ghost uses: seq<Use>, ghost results: seq<Result>)
      requires pool.Valid() && status == Running && IsOpen(c.conf, MCon(side, group))
      modifies this, pool, pool.free
      ensures pool.Valid() && Leads(c, Self(), old(Stands()), turns, uses, results, Stands())
      ensures status == Running ==> |results| == |turns|
    {
      uses, results := [], [];
      ghost var first := Stands();
      var k := 0;
      while k < |turns| && status == Running
        invariant k <= |turns| && |results| == k && pool.Valid()
        invariant forall b <- pool.free :: b in old(pool.free) || fresh(b)
        invariant Leads(c, Self(), first, turns, uses, results, Stands())
      {
        ghost var now := Stands();
        ghost var use, r := TakeTurn(turns[k]);
        TraceNext(c, Self(), first, turns, uses, results, now, use, r);
        uses, results := uses + [use], results + [r];
        k := k + 1;
      }
    }
  }
}
