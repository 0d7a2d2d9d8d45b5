/**
 The diff between two ticks of the gratuitous reporter: which groups of the
 previous tick are left, and how joins and leaves balance over many ticks.
 */
module LeaveDiff {
  import opened Base

  /** The items of `previous` whose group `current` no longer names, in order. */
  function Leaves(current: seq<Item>, previous: seq<Item>): (leaves: seq<Item>)
  {
    if previous == [] then []
    else
      var rest := Leaves(current, previous[..|previous| - 1]);
      var item := previous[|previous| - 1];
      if item.group in Groups(current) then rest else rest + [item]
  }

  /** `leaves` picks exactly the positions of `previous` that `current` misses, in increasing order. */
  ghost predicate PicksAbsent(leaves: seq<Item>, at: seq<nat>, current: seq<Item>, previous: seq<Item>) {
    && |at| == |leaves|
    && (forall j | 0 <= j < |at| :: at[j] < |previous| && leaves[j] == previous[at[j]])
    && (forall j, k | 0 <= j < k < |at| :: at[j] < at[k])
    && (forall i | 0 <= i < |previous| :: i in at <==> previous[i].group !in Groups(current))
  }

  lemma PickAppend(init: seq<Item>, at: seq<nat>, current: seq<Item>, previous: seq<Item>)
    requires previous != [] && PicksAbsent(init, at, current, previous[..|previous| - 1])
    requires previous[|previous| - 1].group !in Groups(current)
    ensures PicksAbsent(init + [previous[|previous| - 1]], at + [|previous| - 1], current, previous)
  {
    var n := |previous| - 1;
    assert forall i | 0 <= i < n :: previous[..n][i] == previous[i];
    assert forall i :: i in at + [n] <==> i in at || i == n;
  }

  /** A choice of positions in all but the last item extends to the last item. */
  lemma PickLast(init: seq<Item>, at': seq<nat>, current: seq<Item>, previous: seq<Item>) returns (at: seq<nat>)
    requires previous != [] && PicksAbsent(init, at', current, previous[..|previous| - 1])
    ensures var item := previous[|previous| - 1];
      PicksAbsent(if item.group in Groups(current) then init else init + [item], at, current, previous)
  {
    var n := |previous| - 1;
    assert forall i | 0 <= i < n :: previous[..n][i] == previous[i];
    assert n !in at';
    if previous[n].group in Groups(current) {
      at := at';
    } else {
      at := at' + [n];
      PickAppend(init, at', current, previous);
    }
  }

  /** Leaves meets the declarative description ... */
  lemma {:induction false} LeavesPickAbsent(current: seq<Item>, previous: seq<Item>) returns (at: seq<nat>)
    ensures PicksAbsent(Leaves(current, previous), at, current, previous)
  {
    if previous == [] {
      at := [];
    } else {
      var n := |previous| - 1;
      var at' := LeavesPickAbsent(current, previous[..n]);
      at := PickLast(Leaves(current, previous[..n]), at', current, previous);
    }
  }

  /** If the last item is picked, it is picked last. */
  lemma LastPick(leaves: seq<Item>, at: seq<nat>, current: seq<Item>, previous: seq<Item>)
    requires previous != [] && PicksAbsent(leaves, at, current, previous)
    requires previous[|previous| - 1].group !in Groups(current)
    ensures |at| > 0 && at[|at| - 1] == |previous| - 1
  {
    assert |previous| - 1 in at;
    var j :| 0 <= j < |at| && at[j] == |previous| - 1;
    assert at[j] <= at[|at| - 1] < |previous|;
  }

  /** Forgetting the last item, and its position when it is picked, leaves a choice in the others. */
  lemma DropLast(leaves: seq<Item>, at: seq<nat>, current: seq<Item>, previous: seq<Item>)
    requires previous != [] && PicksAbsent(leaves, at, current, previous)
    requires previous[|previous| - 1].group !in Groups(current)
    ensures |at| > 0 && leaves[|at| - 1] == previous[|previous| - 1]
    ensures PicksAbsent(leaves[..|at| - 1], at[..|at| - 1], current, previous[..|previous| - 1])
  {
    LastPick(leaves, at, current, previous);
    var m, n := |at| - 1, |previous| - 1;
    var at', init := at[..m], previous[..n];
    assert forall i | 0 <= i < n :: init[i] == previous[i];
    assert at == at' + [n];
    assert forall i :: i in at <==> i in at' || i == n;
    assert forall j | 0 <= j < m :: at'[j] == at[j] < at[m];
  }

  /** An item that is still current is not picked, so a choice is one in the items before it. */
  lemma SkipLast(leaves: seq<Item>, at: seq<nat>, current: seq<Item>, previous: seq<Item>)
    requires previous != [] && PicksAbsent(leaves, at, current, previous)
    requires previous[|previous| - 1].group in Groups(current)
    ensures PicksAbsent(leaves, at, current, previous[..|previous| - 1])
  {
    var n := |previous| - 1;
    assert forall i | 0 <= i < n :: previous[..n][i] == previous[i];
    assert forall j | 0 <= j < |at| :: at[j] in at && at[j] != n;
  }

  /** ... and nothing else meets it: order, duplicates and sources are all fixed. */
  lemma {:induction false} PicksAbsentUnique(leaves: seq<Item>, at: seq<nat>, current: seq<Item>, previous: seq<Item>)
    requires PicksAbsent(leaves, at, current, previous)
    ensures leaves == Leaves(current, previous)
  {
    if previous != [] {
      var n := |previous| - 1;
      if previous[n].group in Groups(current) {
        SkipLast(leaves, at, current, previous);
        PicksAbsentUnique(leaves, at, current, previous[..n]);
      } else {
        DropLast(leaves, at, current, previous);
        var m := |at| - 1;
        PicksAbsentUnique(leaves[..m], at[..m], current, previous[..n]);
        assert leaves == leaves[..m] + [previous[n]];
      }
    }
  }

  /** The groups left are exactly the previous groups minus the current ones. */
  lemma {:induction false} LeavesGroups(current: seq<Item>, previous: seq<Item>)
    ensures Groups(Leaves(current, previous)) == Groups(previous) - Groups(current)
    ensures Groups(previous) <= Groups(Leaves(current, previous)) + Groups(current)
  {
    if previous != [] {
      var n := |previous| - 1;
      LeavesGroups(current, previous[..n]);
      assert previous == previous[..n] + [previous[n]];
      GroupsConcat(previous[..n], [previous[n]]);
      GroupsConcat(Leaves(current, previous[..n]), [previous[n]]);
      assert Groups([previous[n]]) == {previous[n].group};
    }
  }

  /** Nothing is left when nothing was held, and everything is left when the current list is empty. */
  lemma {:induction false} LeavesAtEnds(items: seq<Item>)
    ensures Leaves(items, []) == []
    ensures Leaves([], items) == items
  {
    if items != [] {
      LeavesAtEnds(items[..|items| - 1]);
      assert items == items[..|items| - 1] + [items[|items| - 1]];
    }
  }

  /** The map-and-two-loops computation of the leaves. */
  method FindGroupsToLeave(current: seq<Item>, previous: seq<Item>) returns (leaves: seq<Item>)
    ensures leaves == Leaves(current, previous)
    ensures exists at :: PicksAbsent(leaves, at, current, previous)
  {
    var cgMap: map<Addr, ()> := map[];
    for i := 0 to |current|
      invariant cgMap.Keys == Groups(current[..i])
    {
      cgMap := cgMap[current[i].group := ()];
      assert current[..i + 1] == current[..i] + [current[i]];
      GroupsConcat(current[..i], [current[i]]);
      assert Groups([current[i]]) == {current[i].group};
    }
    assert current[..|current|] == current;
    leaves := [];
    for i := 0 to |previous|
      invariant leaves == Leaves(current, previous[..i])
    {
      assert previous[..i + 1][..i] == previous[..i];
      if previous[i].group !in cgMap {
        leaves := leaves + [previous[i]];
      }
    }
    assert previous[..|previous|] == previous;
    ghost var at := LeavesPickAbsent(current, previous);
  }

  // ----- Balance of joins and leaves over the ticks of one reporter -----

  /** The previousGroups a reporter holds when tick `j` fires. */
  function Before(ticks: seq<seq<Item>>, j: nat): seq<Item>
    requires j <= |ticks|
  {
    if j == 0 then [] else ticks[j - 1]
  }

  /** The leave list of every tick. */
  function LeaveHistory(ticks: seq<seq<Item>>): (r: seq<seq<Item>>)
    ensures |r| == |ticks|
  {
    seq(|ticks|, j requires 0 <= j < |ticks| => Leaves(ticks[j], Before(ticks, j)))
  }

  /** The ticks at which group `g` was left. */
  ghost function LeaveTicks(leaves: seq<seq<Item>>, g: Addr): set<nat> {
    set j: nat | j < |leaves| && g in Groups(leaves[j])
  }

  /** Ticks `a` to `b` all list `g`, and the run of such ticks extends in neither direction. */
  ghost predicate IsStretch(ticks: seq<seq<Item>>, g: Addr, a: nat, b: nat) {
    && a <= b < |ticks|
    && (forall k | a <= k <= b :: g in Groups(ticks[k]))
    && (a > 0 ==> g !in Groups(ticks[a - 1]))
    && (b + 1 < |ticks| ==> g !in Groups(ticks[b + 1]))
  }

  ghost function Stretches(ticks: seq<seq<Item>>, g: Addr): set<(nat, nat)> {
    set a: nat, b: nat | a < |ticks| && b < |ticks| && IsStretch(ticks, g, a, b) :: (a, b)
  }

  lemma {:induction false} StretchEndingAt(ticks: seq<seq<Item>>, g: Addr, b: nat) returns (a: nat)
    requires b < |ticks| && g in Groups(ticks[b])
    ensures a <= b && (forall k | a <= k <= b :: g in Groups(ticks[k]))
    ensures a > 0 ==> g !in Groups(ticks[a - 1])
  {
    a := b;
    if b > 0 && g in Groups(ticks[b - 1]) {
      a := StretchEndingAt(ticks, g, b - 1);
    }
  }

  /** A stretch is determined by its end. */
  lemma StretchEndsOnce(ticks: seq<seq<Item>>, g: Addr, a: nat, a': nat, b: nat)
    requires IsStretch(ticks, g, a, b) && IsStretch(ticks, g, a', b)
    ensures a == a'
  {
    assert a > 0 ==> !(a' <= a - 1 <= b);
    assert a' > 0 ==> !(a <= a' - 1 <= b);
  }

  /** A tick leaves exactly the groups that it no longer lists and the tick before it did. */
  lemma LeftAt(ticks: seq<seq<Item>>, g: Addr, j: nat)
    requires j < |ticks|
    ensures j in LeaveTicks(LeaveHistory(ticks), g)
       <==> j > 0 && g in Groups(ticks[j - 1]) && g !in Groups(ticks[j])
  {
    LeavesGroups(ticks[j], Before(ticks, j));
    assert LeaveHistory(ticks)[j] == Leaves(ticks[j], Before(ticks, j));
  }

  /**
   A reporter whose last tick is empty leaves each group once per maximal stretch of
   consecutive ticks that listed it.
   */
  lemma JoinsAndLeavesBalance(ticks: seq<seq<Item>>, g: Addr)
    requires ticks != [] && ticks[|ticks| - 1] == []
    ensures |LeaveTicks(LeaveHistory(ticks), g)| == |Stretches(ticks, g)|
  {
    var leaves := LeaveTicks(LeaveHistory(ticks), g);
    var f := (s: (nat, nat)) => s.1 + 1;
    forall s | s in Stretches(ticks, g)
      ensures f(s) in leaves
    {
      assert s.1 != |ticks| - 1;
      LeftAt(ticks, g, s.1 + 1);
    }
    forall j | j in leaves
      ensures exists s :: s in Stretches(ticks, g) && f(s) == j
    {
      LeftAt(ticks, g, j);
      var a := StretchEndingAt(ticks, g, j - 1);
      var s := (a, j - 1);
      assert s in Stretches(ticks, g) && f(s) == j;
    }
    forall s, s' | s in Stretches(ticks, g) && s' in Stretches(ticks, g) && f(s) == f(s')
      ensures s == s'
    {
      StretchEndsOnce(ticks, g, s.0, s'.0, s.1);
    }
    BijectionCardinality(Stretches(ticks, g), leaves, f);
  }
}
