/**
 The loop of the unicast receiver as the code writes it, over buffers in place.
 */
module UnicastLoop {
  import opened Base
  import opened Setup
  import opened Library
  import opened BytePools
  import MulticastLoop

  datatype Read = Timeout | Failed | Delivered(data: seq<Byte>)

  /** What a turn meets: the read's outcome, the decoder's, and the shared route. */
  datatype Turn = Turn(read: Read, layer: Layer, route: map<Side, Side>)

  datatype Result = Result(sent: Option<MulticastLoop.Sent>, returned: bool, status: Status)

  const FORWARDED_KINDS: set<Byte> := {REPORT_V1, REPORT_V2, REPORT_V3, LEAVE_GROUP}

  /** The turn gets as far as the switch on the type: only a timeout stops it at the read. */
  predicate Proceeds(turn: Turn) {
    turn.read != Timeout && !turn.layer.NoLayer? && IN in turn.route
  }

  /** A version 1 or 2 report whose layer is not of that kind. */
  predicate Miscast(kind: Byte, layer: Layer) {
    (kind == REPORT_V1 || kind == REPORT_V2) && !layer.V1or2?
  }

  /** Where a message of each kind goes; reports to the querier go to the configured address. */
  function Target(conf: Config, kind: Byte, layer: Layer): Addr {
    if kind == LEAVE_GROUP then GroupAddr(ALL_ROUTERS)
    else if kind == REPORT_V3 then if conf.unicastMembershipReports then conf.unicastDst else GroupAddr(IGMP_HOSTS)
    else if layer.V1or2? then layer.group
    else NoAddr
  }

  function StatusOf(c: System, turn: Turn, kind: Byte): Status {
    if !Proceeds(turn) then Running
    else if Miscast(kind, turn.layer) then Panicked
    else if kind in FORWARDED_KINDS && !IsOpen(c.conf, Raw(turn.route[IN])) then Crashed
    else Running
  }

  /** A turn's outcome: the buffer goes back only if the turn is given up early or forwards a version 3 report. */
  function Judge(c: System, turn: Turn, contents: seq<Byte>): Result
    requires |contents| == BUFFER_SIZE
  {
    var kind := contents[0];
    var status := StatusOf(c, turn, kind);
    Result(
      if Proceeds(turn) && status == Running && kind in FORWARDED_KINDS
      then Some(MulticastLoop.Sent(turn.route[IN], Target(c.conf, kind, turn.layer), contents)) else None,
      status == Running && (Proceeds(turn) ==> kind == REPORT_V3),
      status)
  }

  /** The contents of a buffer after the read: a failed read leaves what was there. */
  function After(before: seq<Byte>, turn: Turn): (r: seq<Byte>)
    requires |before| == BUFFER_SIZE
    ensures |r| == BUFFER_SIZE
  {
    if turn.read.Delivered? then Overlay(before, turn.read.data) else before
  }

  /** A turn's result is what it meets calls for, in the buffer as it was found. */
  ghost predicate IsTurn(c: System, found: seq<Byte>, turn: Turn, use: Use, r: Result) {
    && |found| == BUFFER_SIZE && use.contents == After(found, turn) && use.returned == r.returned
    && r == Judge(c, turn, use.contents)
  }

  /** Each turn takes a pooled buffer, as an earlier turn put it back, or a new one; only the last may fail. */
  ghost predicate Trace(c: System, stock: Stock, turns: seq<Turn>, uses: seq<Use>, results: seq<Result>)
    decreases |results|
  {
    && |results| == |uses| <= |turns|
    && (results == [] ||
        var n := |results| - 1;
        && Trace(c, stock, turns, uses[..n], results[..n])
        && (n > 0 ==> results[n - 1].status == Running)
        && Takes(stock, uses[..n], uses[n].buf)
        && IsTurn(c, Found(UsedAll(stock, uses[..n]), uses[n].buf), turns[n], uses[n], results[n]))
  }

  /** The packets sent over a sequence of turns. */
  function SentIn(results: seq<Result>): seq<MulticastLoop.Sent> {
    if results == [] then []
    else
      var r := results[|results| - 1];
      SentIn(results[..|results| - 1]) + if r.sent.Some? then [r.sent.value] else []
  }

  /** What the receiver has come to after some turns. */
  datatype Standing = Standing(stock: Stock, sent: seq<MulticastLoop.Sent>, status: Status)

  /** These turns lead from one standing to the other. */
  ghost predicate Leads(c: System, first: Standing, turns: seq<Turn>, uses: seq<Use>, results: seq<Result>,
                        now: Standing)
  {
    && Trace(c, first.stock, turns, uses, results)
    && now.stock == UsedAll(first.stock, uses) && now.sent == first.sent + SentIn(results)
    && now.status == if results == [] then first.status else results[|results| - 1].status
  }

  /** What a turn makes of where the receiver stands. */
  function Later(now: Standing, use: Use, r: Result): Standing {
    Standing(Used(now.stock, use), now.sent + (if r.sent.Some? then [r.sent.value] else []), r.status)
  }

  lemma TraceNext(c: System, first: Standing, turns: seq<Turn>, uses: seq<Use>, results: seq<Result>, now: Standing,
                  use: Use, r: Result)
    requires Leads(c, first, turns, uses, results, now) && |results| < |turns|
    requires now.status == Running && Takes(first.stock, uses, use.buf)
    requires IsTurn(c, Found(now.stock, use.buf), turns[|results|], use, r)
    ensures Leads(c, first, turns, uses + [use], results + [r], Later(now, use, r))
  {
    assert (results + [r])[..|results|] == results;
    assert (uses + [use])[..|results|] == uses;
  }

  class UnicastReceiver {
    const c: System
    const pool: BytePool
    /** This goroutine's own copy of the querier's address: nothing ever writes to it. */
    const querier: Addr := NoAddr

    var sent: seq<MulticastLoop.Sent>
    var status: Status

    constructor (c: System, pool: BytePool)
      ensures this.c == c && this.pool == pool && sent == [] && status == Running
    {
      this.c, this.pool := c, pool;
      sent, status := [], Running;
    }

    /** Writes the whole buffer to an address. */
    method Proxy(out: Side, dst: Addr, buf: array<Byte>)
      requires status == Running
      modifies this`sent, this`status
      ensures status == if IsOpen(c.conf, Raw(out)) then Running else Crashed
      ensures sent == old(sent) + if status == Running then [MulticastLoop.Sent(out, dst, buf[..])] else []
    {
      if !IsOpen(c.conf, Raw(out)) {
        status := Crashed;
        return;
      }
      sent := sent + [MulticastLoop.Sent(out, dst, buf[..])];
    }

    /** The address behind a destination code. */
    function DestinationNetIP(dest: Dest): Addr {
      if dest == QUERY_HOST then
        if querier == NoAddr then c.conf.unicastDst else querier
      else GroupAddr(dest)
    }

    method SendIGMPv1or2(out: Side, layer: Layer, buf: array<Byte>)
      requires status == Running
      modifies this`sent, this`status
      ensures status == if !layer.V1or2? then Panicked else if IsOpen(c.conf, Raw(out)) then Running else Crashed
      ensures sent == old(sent) + if status == Running then [MulticastLoop.Sent(out, layer.group, buf[..])] else []
    {
      if !layer.V1or2? {
        status := Panicked;
        return;
      }
      Proxy(out, layer.group, buf);
    }

    method SendIGMPv3(out: Side, buf: array<Byte>)
      requires status == Running && pool.Valid() && buf.Length == BUFFER_SIZE
      modifies this`sent, this`status, pool
      ensures pool.Valid() && pool.free == old(pool.free) + if status == Running then {buf} else {}
      ensures status == if IsOpen(c.conf, Raw(out)) then Running else Crashed
      ensures var packet := MulticastLoop.Sent(out, Target(c.conf, REPORT_V3, NoLayer), buf[..]);
        sent == old(sent) + if status == Running then [packet] else []
    {
      var dest := IGMP_HOSTS;
      if c.conf.unicastMembershipReports {
        dest := QUERY_HOST;
      }
      Proxy(out, DestinationNetIP(dest), buf);
      if status == Running {
        pool.Put(buf);
      }
    }

    method SendIGMPLeave(out: Side, buf: array<Byte>)
      requires status == Running
      modifies this`sent, this`status
      ensures status == if IsOpen(c.conf, Raw(out)) then Running else Crashed
      ensures var packet := MulticastLoop.Sent(out, GroupAddr(ALL_ROUTERS), buf[..]);
        sent == old(sent) + if status == Running then [packet] else []
    {
      Proxy(out, GroupAddr(ALL_ROUTERS), buf);
    }

    /** One turn of the loop. */
    method Receive(turn: Turn) returns (buf: array<Byte>, ghost before: seq<Byte>)
      requires pool.Valid() && status == Running && IsOpen(c.conf, UCon(IN))
      modifies this, pool, pool.free
      ensures buf.Length == BUFFER_SIZE && |before| == BUFFER_SIZE && pool.Valid()
      ensures (buf in old(pool.free) && before == old(buf[..])) || (fresh(buf) && before == Zeros())
      ensures buf[..] == After(before, turn) && forall other <- old(pool.free) - {buf} :: other[..] == old(other[..])
      ensures var r := Judge(c, turn, buf[..]);
        && status == r.status
        && sent == old(sent) + (if r.sent.Some? then [r.sent.value] else [])
        && pool.free == old(pool.free) - {buf} + if r.returned then {buf} else {}
    {
      buf := pool.Get();
      before := buf[..];
      if turn.read == Timeout {
        pool.Put(buf);
        return;
      }
      // a read that fails in any other way goes on with the buffer as it is
      if turn.read.Delivered? {
        var n := ReadInto(buf, turn.read.data);
      }
      if turn.layer.NoLayer? || IN !in turn.route {
        pool.Put(buf);
        return;
      }
      var kind, out := buf[0], turn.route[IN];
      if kind == REPORT_V1 || kind == REPORT_V2 {
        SendIGMPv1or2(out, turn.layer, buf);
      } else if kind == REPORT_V3 {
        SendIGMPv3(out, buf);
      } else if kind == LEAVE_GROUP {
        SendIGMPLeave(out, buf);
      }
    }

    ghost function Stands(): Standing
      reads this, pool, pool.free
    {
      Standing(pool.Holds(), sent, status)
    }

    /** The same turn, as one use of the pool. */
    method TakeTurn(turn: Turn) returns (ghost use: Use, ghost r: Result)
      requires pool.Valid() && status == Running && IsOpen(c.conf, UCon(IN))
      modifies this, pool, pool.free
      ensures pool.Valid() && pool.free <= old(pool.free) + {use.buf} && (use.buf in old(pool.free) || fresh(use.buf))
      ensures IsTurn(c, Found(old(pool.Holds()), use.buf), turn, use, r) && Stands() == Later(old(Stands()), use, r)
    {
      var buf, before := Receive(turn);
      r := Judge(c, turn, buf[..]);
      use := Use(buf, buf[..], r.returned);
      pool.HoldsAfter(buf, r.returned);
    }

    /** The loop: turn after turn until the context ends, a panic or a crash. */
    method Loop(turns: seq<Turn>) returns (ghost uses: seq<Use>, ghost results: seq<Result>)
      requires pool.Valid() && status == Running && IsOpen(c.conf, UCon(IN))
      modifies this, pool, pool.free
      ensures pool.Valid() && Leads(c, old(Stands()), turns, uses, results, Stands())
      ensures status == Running ==> |results| == |turns|
    {
      uses, results := [], [];
      ghost var first := Stands();
      var k := 0;
      while k < |turns| && status == Running
        invariant k <= |turns| && |results| == k && pool.Valid()
        invariant forall b <- pool.free :: b in old(pool.free) || fresh(b)
        invariant Leads(c, first, turns, uses, results, Stands())
      {
        ghost var now := Stands();
        ghost var use, r := TakeTurn(turns[k]);
        TraceNext(c, first, turns, uses, results, now, use, r);
        uses, results := uses + [use], results + [r];
        k := k + 1;
      }
    }
  }
}
