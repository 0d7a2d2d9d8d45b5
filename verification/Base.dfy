/**
 Values shared by every part of the model: addresses, sides, destination codes
 and membership items, with a few facts about sets and sequences.
 */
module Base {

  datatype Option<+T> = None | Some(value: T)

  newtype Byte = x: int | 0 <= x < 256

  /** A netip.Addr; NoAddr is its zero value, the invalid address. */
  datatype Addr = NoAddr | V4(b0: Byte, b1: Byte, b2: Byte, b3: Byte) | V6(bytes: seq<Byte>)

  /** A side is a plain integer in the source, so a selector may send any value. */
  type Side = int
  const OUT: Side := 1
  const IN: Side := 2
  const ALTOUT: Side := 3

  /** Destination codes. */
  type Dest = int
  const ALL_ZEROS_HOSTS: Dest := 0
  const ALL_HOSTS: Dest := 1
  const ALL_ROUTERS: Dest := 2
  const IGMP_HOSTS: Dest := 22
  const QUERY_HOST: Dest := 666

  datatype Item = Item(sources: seq<Addr>, group: Addr)

  /** The set of groups named by a list of items. */
  function Groups(items: seq<Item>): set<Addr> {
    set it <- items :: it.group
  }

  /** The groups of a list of items, in order and with repetitions. */
  function GroupSeq(items: seq<Item>): (r: seq<Addr>)
    ensures |r| == |items|
  {
    seq(|items|, i requires 0 <= i < |items| => items[i].group)
  }

  lemma GroupsConcat(a: seq<Item>, b: seq<Item>)
    ensures Groups(a + b) == Groups(a) + Groups(b)
  {
    forall g
      ensures g in Groups(a + b) <==> g in Groups(a) + Groups(b)
    {
      if g in Groups(a) {
        var it :| it in a && it.group == g;
        assert it in a + b;
      }
      if g in Groups(b) {
        var it :| it in b && it.group == g;
        assert it in a + b;
      }
    }
  }

  lemma Associative<T>(a: seq<T>, b: seq<T>, c: seq<T>)
    ensures (a + b) + c == a + (b + c)
  {
  }

  lemma SetTwice<T>(s: seq<T>, i: nat, x: T, y: T)
    requires i < |s|
    ensures s[i := x][i := y] == s[i := y]
  {
  }

  lemma SetAndReset<T>(s: seq<T>, i: nat, x: T)
    requires i < |s|
    ensures s[i := x][i := s[i]] == s
  {
  }

  /** Two sets related by a bijection have the same size. */
  lemma {:induction false} BijectionCardinality<A, B>(xs: set<A>, ys: set<B>, f: A -> B)
    requires forall x, x' | x in xs && x' in xs && f(x) == f(x') :: x == x'
    requires forall x | x in xs :: f(x) in ys
    requires forall y | y in ys :: exists x :: x in xs && f(x) == y
    ensures |xs| == |ys|
  {
    if xs == {} {
      assert ys == {};
    } else {
      var x :| x in xs;
      BijectionCardinality(xs - {x}, ys - {f(x)}, f);
    }
  }

  /** The sum of a sequence of naturals. */
  function Sum(s: seq<nat>): nat {
    if s == [] then 0 else s[0] + Sum(s[1..])
  }

  lemma {:induction false} SumUpdate(s: seq<nat>, i: nat, x: nat)
    requires i < |s|
    ensures Sum(s[i := x]) + s[i] == Sum(s) + x
  {
    if i > 0 {
      assert s[i := x][1..] == s[1..][i - 1 := x];
      SumUpdate(s[1..], i - 1, x);
    } else {
      assert s[0 := x][1..] == s[1..];
    }
  }

  lemma {:induction false} SumZero(s: seq<nat>)
    ensures Sum(s) == 0 <==> forall i | 0 <= i < |s| :: s[i] == 0
  {
    if s != [] {
      SumZero(s[1..]);
      assert forall i | 1 <= i < |s| :: s[i] == s[1..][i - 1];
      if Sum(s[1..]) == 0 && s[0] == 0 {
        forall i | 0 <= i < |s|
          ensures s[i] == 0
        {
          if i > 0 { assert s[1..][i - 1] == 0; }
        }
      }
    }
  }
}
