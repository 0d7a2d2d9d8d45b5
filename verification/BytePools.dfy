/**
 Byte buffers in place: what a read leaves in one, and the pool they come from.
 */
module BytePools {
  import opened Base
  import opened Library

  /** A read copies at most a buffer's length into its front and leaves the rest as it was. */
  method ReadInto(buf: array<Byte>, data: seq<Byte>) returns (n: nat)
    requires buf.Length == BUFFER_SIZE
    modifies buf
    ensures buf[..] == Overlay(old(buf[..]), data) && n == |Truncate(data)|
  {
    n := if |data| <= buf.Length then |data| else buf.Length;
    for k := 0 to n
      invariant buf[..k] == data[..k] && buf[k..] == old(buf[k..])
    {
      assert buf[k..][1..] == buf[k + 1..] && old(buf[k..])[1..] == old(buf[k + 1..]);
      buf[k] := data[k];
    }
    assert buf[..] == buf[..n] + buf[n..];
    assert old(buf[n..]) == old(buf[..])[n..];
  }

  // ----- What the pool holds, turn after turn -----

  /** The pooled buffers and what they contain. */
  type Stock = map<array<Byte>, seq<Byte>>

  /** One turn's use of a buffer: what it contained at the end, and whether it went back. */
  datatype Use = Use(buf: array<Byte>, contents: seq<Byte>, returned: bool)

  function Used(stock: Stock, u: Use): Stock {
    if u.returned then stock[u.buf := u.contents] else stock - {u.buf}
  }

  function UsedAll(stock: Stock, uses: seq<Use>): Stock {
    if uses == [] then stock else Used(UsedAll(stock, uses[..|uses| - 1]), uses[|uses| - 1])
  }

  /** What a buffer contains when it is taken: what it was put back with, or zeros when it is new. */
  function Found(stock: Stock, b: array<Byte>): seq<Byte> {
    if b in stock then stock[b] else Zeros()
  }

  /** After these uses a buffer is taken from the pool, or it was never there. */
  predicate Takes(stock: Stock, uses: seq<Use>, b: array<Byte>) {
    b in UsedAll(stock, uses) || (b !in stock && forall u <- uses :: u.buf != b)
  }

  class BytePool {
    var free: set<array<Byte>>

    ghost predicate Valid()
      reads this
    {
      forall b <- free :: b.Length == BUFFER_SIZE
    }

    ghost function Holds(): Stock
      reads this, free
    {
      map b <- free :: b[..]
    }

    /** What a turn does to the pool is one use of a buffer. */
    twostate lemma HoldsAfter(new buf: array<Byte>, returned: bool)
      requires free == old(free) - {buf} + if returned then {buf} else {}
      requires forall other <- old(free) - {buf} :: other[..] == old(other[..])
      ensures Holds() == Used(old(Holds()), Use(buf, buf[..], returned))
    {
    }

    constructor ()
      ensures Valid() && free == {}
    {
      free := {};
    }

    /** Takes a pooled buffer, with whatever it contains, or makes a new one. */
    method Get() returns (buf: array<Byte>)
      requires Valid()
      modifies this
      ensures Valid() && buf.Length == BUFFER_SIZE && free == old(free) - {buf}
      ensures buf in old(free) || (fresh(buf) && buf[..] == Zeros())
    {
      var makeNew: bool := *;
      if makeNew || free == {} {
        buf := new Byte[BUFFER_SIZE](_ => 0);
        assert buf[..] == Zeros();
        return;
      }
      buf :| buf in free;
      free := free - {buf};
    }

    method Put(buf: array<Byte>)
      requires Valid() && buf.Length == BUFFER_SIZE
      modifies this
      ensures Valid() && free == old(free) + {buf}
    {
      free := free + {buf};
    }
  }
}
