/**
 * Day 9, sensor history: a pyramid of successive differences, extended by
 * one value at the end (part one) or at the start (part two).
 */
module Day09 {

  /** The successive differences of a level, one shorter. */
  function Diff(a: seq<int>): (d: seq<int>)
    ensures |d| == if |a| == 0 then 0 else |a| - 1
    ensures forall i :: 0 <= i < |d| ==> d[i] == a[i + 1] - a[i]
  {
    if |a| == 0 then [] else seq(|a| - 1, i requires 0 <= i < |a| - 1 => a[i + 1] - a[i])
  }

  predicate AllZero(a: seq<int>) {
    forall i :: 0 <= i < |a| ==> a[i] == 0
  }

  /** The pyramid of differences under a non-empty level: the level, then
      the pyramid of its differences, ending at the first all-zero level. */
  function Pyramid(a: seq<int>): (p: seq<seq<int>>)
    requires |a| > 0
    ensures 2 <= |p| <= |a| + 1
    ensures p[0] == a
    decreases |a|
  {
    var d := Diff(a);
    if AllZero(d) then [a, d] else [a] + Pyramid(d)
  }

  /** Every level is the differences of the one above; the last level, and
      no level between the first and the last, is all zero. */
  lemma {:induction false} PyramidShape(a: seq<int>, k: nat)
    requires |a| > 0 && k < |Pyramid(a)|
    ensures k < |Pyramid(a)| - 1 ==> |Pyramid(a)[k]| >= 1 && Pyramid(a)[k + 1] == Diff(Pyramid(a)[k])
    ensures k == |Pyramid(a)| - 1 ==> AllZero(Pyramid(a)[k])
    ensures 1 <= k < |Pyramid(a)| - 1 ==> !AllZero(Pyramid(a)[k])
    decreases |a|
  {
    var d := Diff(a);
    if !AllZero(d) && k > 0 {
      PyramidShape(d, k - 1);
      assert Pyramid(a)[k] == Pyramid(d)[k - 1];
      if k < |Pyramid(a)| - 1 {
        assert Pyramid(a)[k + 1] == Pyramid(d)[k];
      }
    }
    if !AllZero(d) && k == 0 {
      assert Pyramid(a)[1] == Pyramid(d)[0];
    }
  }

  /** The inner loop of `create_tree`, pushing `level[i + 1] - level[i]`. */
  method Differences(level: seq<int>) returns (next: seq<int>)
    requires |level| > 0
    ensures next == Diff(level)
  {
    next := [];
    for i := 0 to |level| - 1
      invariant next == Diff(level)[..i]
    {
      next := next + [level[i + 1] - level[i]];
    }
  }

  /** `create_tree`. The input must be non-empty because of `len() - 1`. */
  method CreateTree(input: seq<int>) returns (tree: seq<seq<int>>)
    requires |input| > 0
    ensures tree == Pyramid(input)
  {
    tree := [input];
    var idx := 0;
    while true
      invariant |tree| == idx + 1
      invariant |tree[idx]| > 0
      invariant tree + Pyramid(tree[idx])[1..] == Pyramid(input)
      decreases |tree[idx]|
    {
      var next := Differences(tree[idx]);
      PushLevel(tree, tree[idx], next);
      tree := tree + [next];
      idx := idx + 1;
      if AllZero(next) {
        break;
      }
    }
  }

  /** One round of `create_tree` on the pyramid still to be built. */
  lemma PushLevel(tree: seq<seq<int>>, level: seq<int>, next: seq<int>)
    requires |level| > 0 && next == Diff(level)
    ensures AllZero(next) ==> tree + Pyramid(level)[1..] == tree + [next]
    ensures !AllZero(next) ==> tree + Pyramid(level)[1..] == (tree + [next]) + Pyramid(next)[1..]
  {
    var rest := Pyramid(level)[1..];
    if AllZero(next) {
      assert rest == [next];
    } else {
      var p := Pyramid(next);
      assert rest == p;
      assert p == [next] + p[1..];
      assert tree + p == (tree + [next]) + p[1..];
    }
  }

  /** Extrapolation forward, defined on the sequence itself: zero on an
      all-zero sequence, otherwise the last value plus the extrapolation of
      the differences. */
  function NextValue(a: seq<int>): int
    decreases |a|
  {
    if AllZero(a) then 0 else a[|a| - 1] + NextValue(Diff(a))
  }

  /** Extrapolation backward: the first value minus the backward
      extrapolation of the differences. */
  function PrevValue(a: seq<int>): int
    decreases |a|
  {
    if AllZero(a) then 0 else a[0] - PrevValue(Diff(a))
  }

  lemma DiffAllZero(a: seq<int>)
    requires AllZero(a)
    ensures AllZero(Diff(a))
  {
  }

  /** The extrapolated value continues the pyramid: appending it to the
      sequence appends the differences' extrapolation to the differences. */
  lemma NextContinues(a: seq<int>)
    requires !AllZero(a)
    ensures Diff(a + [NextValue(a)]) == Diff(a) + [NextValue(Diff(a))]
  {
    var x := NextValue(a);
    var b := a + [x];
    var d, e := Diff(b), Diff(a) + [NextValue(Diff(a))];
    assert x == a[|a| - 1] + NextValue(Diff(a));
    forall i | 0 <= i < |d| ensures d[i] == e[i] {
      if i < |a| - 1 {
        assert b[i + 1] == a[i + 1] && b[i] == a[i];
      } else {
        assert b[i + 1] == x && b[i] == a[|a| - 1];
      }
    }
    assert |d| == |e|;
  }

  lemma PrevContinues(a: seq<int>)
    requires !AllZero(a)
    ensures Diff([PrevValue(a)] + a) == [PrevValue(Diff(a))] + Diff(a)
  {
    var x := PrevValue(a);
    var b := [x] + a;
    var d, e := Diff(b), [PrevValue(Diff(a))] + Diff(a);
    assert x == a[0] - PrevValue(Diff(a));
    forall i | 0 <= i < |d| ensures d[i] == e[i] {
      if i > 0 {
        assert b[i + 1] == a[i] && b[i] == a[i - 1];
      } else {
        assert b[1] == a[0] && b[0] == x;
      }
    }
    assert |d| == |e|;
  }

  function Reverse(a: seq<int>): (r: seq<int>)
    ensures |r| == |a|
    ensures forall i :: 0 <= i < |a| ==> r[i] == a[|a| - 1 - i]
  {
    seq(|a|, i requires 0 <= i < |a| => a[|a| - 1 - i])
  }

  function Negate(a: seq<int>): (r: seq<int>)
    ensures |r| == |a|
    ensures forall i :: 0 <= i < |a| ==> r[i] == -a[i]
  {
    seq(|a|, i requires 0 <= i < |a| => -a[i])
  }

  lemma {:induction false} NextNegate(a: seq<int>)
    ensures NextValue(Negate(a)) == -NextValue(a)
    decreases |a|
  {
    if !AllZero(a) {
      assert !AllZero(Negate(a)) by {
        var i :| 0 <= i < |a| && a[i] != 0;
        assert Negate(a)[i] != 0;
      }
      DiffNegate(a);
      NextNegate(Diff(a));
    } else {
      assert AllZero(Negate(a));
    }
  }

  lemma DiffNegate(a: seq<int>)
    ensures Diff(Negate(a)) == Negate(Diff(a))
  {
    var l, m := Diff(Negate(a)), Negate(Diff(a));
    assert |l| == |m|;
    forall i | 0 <= i < |l| ensures l[i] == m[i] {
      assert l[i] == Negate(a)[i + 1] - Negate(a)[i];
    }
  }

  lemma DiffReverse(a: seq<int>)
    ensures Diff(Reverse(a)) == Negate(Reverse(Diff(a)))
  {
    var r, d := Reverse(a), Diff(a);
    var l, m := Diff(r), Negate(Reverse(d));
    assert |l| == |m|;
    forall i | 0 <= i < |l| ensures l[i] == m[i] {
      DiffReverseAt(a, i);
    }
  }

  lemma DiffReverseAt(a: seq<int>, i: nat)
    requires i + 1 < |a|
    ensures Diff(Reverse(a))[i] == Negate(Reverse(Diff(a)))[i]
  {
    var n := |a|;
    var r, d := Reverse(a), Diff(a);
    assert r[i + 1] == a[n - 2 - i] && r[i] == a[n - 1 - i];
    assert d[n - 2 - i] == a[n - 1 - i] - a[n - 2 - i];
    assert Reverse(d)[i] == d[n - 2 - i];
  }

  /** Extrapolating backwards is extrapolating the reversed history forwards. */
  lemma {:induction false} PrevIsReversedNext(a: seq<int>)
    ensures PrevValue(a) == NextValue(Reverse(a))
    decreases |a|
  {
    var r := Reverse(a);
    if AllZero(a) {
      assert AllZero(r) by {
        forall i | 0 <= i < |r| ensures r[i] == 0 {
          assert r[i] == a[|a| - 1 - i];
        }
      }
    } else {
      assert !AllZero(r) by {
        var i :| 0 <= i < |a| && a[i] != 0;
        assert r[|a| - 1 - i] == a[i];
      }
      DiffReverse(a);
      NextNegate(Reverse(Diff(a)));
      PrevIsReversedNext(Diff(a));
    }
  }

  lemma ReplaceLast(a: seq<int>, x: int, y: int)
    ensures (a + [x])[|a| := y] == a + [y]
  {
  }

  lemma ReplaceFirst(a: seq<int>, x: int, y: int)
    ensures ([x] + a)[0 := y] == [y] + a
  {
  }

  /** The value `estimate_next` writes at level `k` of a pyramid `p`: the
      sum of the last elements of levels `k` to the second-last, the last
      level contributing its appended 0. */
  function SumOfLasts(p: seq<seq<int>>, k: nat): int
    decreases |p| - k
  {
    if k + 1 >= |p| || |p[k]| == 0 then 0 else p[k][|p[k]| - 1] + SumOfLasts(p, k + 1)
  }

  /** The value `estimate_prev` writes at level `k`: the alternating sum of
      the first elements of levels `k` to the second-last. */
  function AlternatingFirsts(p: seq<seq<int>>, k: nat): int
    decreases |p| - k
  {
    if k + 1 >= |p| || |p[k]| == 0 then 0 else p[k][0] - AlternatingFirsts(p, k + 1)
  }

  /** Over the pyramid of `a`, the sum of the last elements is the forward
      extrapolation of `a`. It is what `estimate_next` computes. */
  lemma {:induction false} PyramidNext(a: seq<int>)
    requires |a| > 0
    ensures SumOfLasts(Pyramid(a), 0) == NextValue(a)
    decreases |a|
  {
    var d := Diff(a);
    if AllZero(d) {
      FlatPyramid(a);
    } else {
      PyramidNext(d);
      RaisedPyramid(a);
    }
  }

  /** The alternating sum of the first elements is the backward
      extrapolation. It is what `estimate_prev` computes. */
  lemma {:induction false} PyramidPrev(a: seq<int>)
    requires |a| > 0
    ensures AlternatingFirsts(Pyramid(a), 0) == PrevValue(a)
    decreases |a|
  {
    var d := Diff(a);
    if AllZero(d) {
      FlatPyramid(a);
    } else {
      PyramidPrev(d);
      RaisedPyramid(a);
    }
  }

  /** A pyramid of two levels: both sums read the first level's ends. */
  lemma FlatPyramid(a: seq<int>)
    requires |a| > 0 && AllZero(Diff(a))
    ensures SumOfLasts(Pyramid(a), 0) == NextValue(a)
    ensures AlternatingFirsts(Pyramid(a), 0) == PrevValue(a)
  {
    var d := Diff(a);
    var p := Pyramid(a);
    assert p == [a, d];
    assert SumOfLasts(p, 1) == 0 && AlternatingFirsts(p, 1) == 0;
    DiffAllZeroValues(d);
    assert SumOfLasts(p, 0) == a[|a| - 1];
    assert AlternatingFirsts(p, 0) == a[0];
    if AllZero(a) {
      assert a[|a| - 1] == 0 && a[0] == 0;
    }
  }

  /** A taller pyramid: both sums take one step down to the pyramid of the
      differences. */
  lemma RaisedPyramid(a: seq<int>)
    requires |a| > 0 && !AllZero(Diff(a))
    ensures SumOfLasts(Pyramid(a), 0) == a[|a| - 1] + SumOfLasts(Pyramid(Diff(a)), 0)
    ensures AlternatingFirsts(Pyramid(a), 0) == a[0] - AlternatingFirsts(Pyramid(Diff(a)), 0)
    ensures !AllZero(a)
  {
    PyramidCons(a);
    ConsSums(a, Pyramid(Diff(a)));
    NotFlat(a);
  }

  /** Both sums over a level put in front of a pyramid of two or more levels. */
  lemma ConsSums(a: seq<int>, q: seq<seq<int>>)
    requires |a| > 0 && |q| >= 2
    ensures SumOfLasts([a] + q, 0) == a[|a| - 1] + SumOfLasts(q, 0)
    ensures AlternatingFirsts([a] + q, 0) == a[0] - AlternatingFirsts(q, 0)
  {
    var p := [a] + q;
    assert p[0] == a;
    assert SumOfLasts(p, 0) == a[|a| - 1] + SumOfLasts(p, 1);
    assert AlternatingFirsts(p, 0) == a[0] - AlternatingFirsts(p, 1);
    ShiftSums(a, q, 0);
  }

  lemma PyramidCons(a: seq<int>)
    requires |a| > 0 && !AllZero(Diff(a))
    ensures Pyramid(a) == [a] + Pyramid(Diff(a))
  {
  }

  lemma NotFlat(a: seq<int>)
    requires !AllZero(Diff(a))
    ensures !AllZero(a)
  {
    if AllZero(a) {
      DiffAllZero(a);
    }
  }

  lemma DiffAllZeroValues(d: seq<int>)
    requires AllZero(d)
    ensures NextValue(d) == 0 && PrevValue(d) == 0
  {
  }

  /** Prefixing a level shifts the positions of the sums by one. */
  lemma {:induction false} ShiftSums(a: seq<int>, q: seq<seq<int>>, k: nat)
    requires k <= |q|
    ensures SumOfLasts([a] + q, k + 1) == SumOfLasts(q, k)
    ensures AlternatingFirsts([a] + q, k + 1) == AlternatingFirsts(q, k)
    decreases |q| - k
  {
    if k + 1 < |q| {
      assert ([a] + q)[k + 1] == q[k];
      ShiftSums(a, q, k + 1);
    }
  }

  /** One round of the `estimate_next` loop at level `idx`. */
  lemma NextRound(p: seq<seq<int>>, tree: seq<seq<int>>, idx: nat)
    requires |tree| == |p| && idx < |p| - 1
    requires |p[idx]| >= 1 && |p[idx + 1]| == |p[idx]| - 1
    requires forall k :: 0 <= k <= idx ==> tree[k] == p[k] + [0]
    requires forall k :: idx < k < |tree| ==> tree[k] == p[k] + [SumOfLasts(p, k)]
    ensures var len := |tree[idx]|;
      var t := tree[idx := tree[idx][len - 1 := tree[idx + 1][len - 2] + tree[idx][len - 2]]];
      && (forall k :: 0 <= k < idx ==> t[k] == p[k] + [0])
      && (forall k :: idx <= k < |t| ==> t[k] == p[k] + [SumOfLasts(p, k)])
  {
    var len := |tree[idx]|;
    var newValue := tree[idx + 1][len - 2] + tree[idx][len - 2];
    assert tree[idx + 1] == p[idx + 1] + [SumOfLasts(p, idx + 1)];
    assert newValue == SumOfLasts(p, idx);
    ReplaceLast(p[idx], 0, newValue);
    var t := tree[idx := tree[idx][len - 1 := newValue]];
    forall k | idx <= k < |t| ensures t[k] == p[k] + [SumOfLasts(p, k)] {
      if k > idx {
        assert t[k] == tree[k];
      }
    }
  }

  /** One round of the `estimate_prev` loop at level `idx`. */
  lemma PrevRound(p: seq<seq<int>>, tree: seq<seq<int>>, idx: nat)
    requires |tree| == |p| && idx < |p| - 1
    requires |p[idx]| >= 1
    requires forall k :: 0 <= k <= idx ==> tree[k] == [0] + p[k]
    requires forall k :: idx < k < |tree| ==> tree[k] == [AlternatingFirsts(p, k)] + p[k]
    ensures var t := tree[idx := tree[idx][0 := tree[idx][1] - tree[idx + 1][0]]];
      && (forall k :: 0 <= k < idx ==> t[k] == [0] + p[k])
      && (forall k :: idx <= k < |t| ==> t[k] == [AlternatingFirsts(p, k)] + p[k])
  {
    var newValue := tree[idx][1] - tree[idx + 1][0];
    assert tree[idx + 1] == [AlternatingFirsts(p, idx + 1)] + p[idx + 1];
    assert tree[idx] == [0] + p[idx];
    assert newValue == AlternatingFirsts(p, idx);
    ReplaceFirst(p[idx], 0, newValue);
    var t := tree[idx := tree[idx][0 := newValue]];
    forall k | idx <= k < |t| ensures t[k] == [AlternatingFirsts(p, k)] + p[k] {
      if k > idx {
        assert t[k] == tree[k];
      }
    }
  }

  /** A zero appended to every level. */
  method AppendZeros(levels: seq<seq<int>>) returns (tree: seq<seq<int>>)
    ensures |tree| == |levels|
    ensures forall k :: 0 <= k < |tree| ==> tree[k] == levels[k] + [0]
  {
    tree := [];
    for k := 0 to |levels|
      invariant |tree| == k
      invariant forall j :: 0 <= j < k ==> tree[j] == levels[j] + [0]
    {
      tree := tree + [levels[k] + [0]];
    }
  }

  /** A zero inserted in front of every level. */
  method PrependZeros(levels: seq<seq<int>>) returns (tree: seq<seq<int>>)
    ensures |tree| == |levels|
    ensures forall k :: 0 <= k < |tree| ==> tree[k] == [0] + levels[k]
  {
    tree := [];
    for k := 0 to |levels|
      invariant |tree| == k
      invariant forall j :: 0 <= j < k ==> tree[j] == [0] + levels[j]
    {
      tree := tree + [[0] + levels[k]];
    }
  }

  lemma LastOfExtended(t: seq<int>, a: seq<int>, x: int)
    requires t == a + [x]
    ensures t[|t| - 1] == x
  {
  }

  /** The lengths of a pyramid: every level one shorter than the one above,
      and every level but the last non-empty. */
  predicate Graded(levels: seq<seq<int>>) {
    && |levels| >= 1
    && |levels[0]| + 1 >= |levels|
    && forall k :: 0 <= k < |levels| ==> |levels[k]| + k == |levels[0]|
  }

  lemma {:induction false} PyramidGraded(a: seq<int>)
    requires |a| > 0
    ensures Graded(Pyramid(a))
    decreases |a|
  {
    var d := Diff(a);
    var p := Pyramid(a);
    if !AllZero(d) {
      PyramidGraded(d);
      var q := Pyramid(d);
      assert p == [a] + q;
      forall k | 0 <= k < |p| ensures |p[k]| + k == |p[0]| {
        if k > 0 {
          assert p[k] == q[k - 1];
        }
      }
    }
  }

  /** Lines 6-14 of `estimate_next`: append a 0 to every level, then from
      the second-last level upwards overwrite each new last value with the
      old last value plus the new last value of the level below, and read
      the first level's last value. */
  method FillLasts(levels: seq<seq<int>>) returns (value: int)
    requires Graded(levels)
    ensures value == SumOfLasts(levels, 0)
  {
    var tree := AppendZeros(levels);
    var idx := |tree| - 1;
    assert tree[idx] == levels[idx] + [SumOfLasts(levels, idx)];
    while idx > 0
      invariant 0 <= idx <= |tree| - 1
      invariant |tree| == |levels|
      invariant forall k :: 0 <= k < idx ==> tree[k] == levels[k] + [0]
      invariant forall k :: idx <= k < |tree| ==> tree[k] == levels[k] + [SumOfLasts(levels, k)]
    {
      idx := idx - 1;
      NextRound(levels, tree, idx);
      var len := |tree[idx]|;
      var newValue := tree[idx + 1][len - 2] + tree[idx][len - 2];
      tree := tree[idx := tree[idx][len - 1 := newValue]];
    }
    LastOfExtended(tree[0], levels[0], SumOfLasts(levels, 0));
    value := tree[0][|tree[0]| - 1];
  }

  /** Lines 51-58 of `estimate_prev`: insert a 0 in front of every level,
      then from the second-last level upwards overwrite each new first value
      with the old first value minus the new first value of the level below,
      and read the first level's first value. */
  method FillFirsts(levels: seq<seq<int>>) returns (value: int)
    requires Graded(levels)
    ensures value == AlternatingFirsts(levels, 0)
  {
    var tree := PrependZeros(levels);
    var idx := |tree| - 1;
    assert tree[idx] == [AlternatingFirsts(levels, idx)] + levels[idx];
    while idx > 0
      invariant 0 <= idx <= |tree| - 1
      invariant |tree| == |levels|
      invariant forall k :: 0 <= k < idx ==> tree[k] == [0] + levels[k]
      invariant forall k :: idx <= k < |tree| ==> tree[k] == [AlternatingFirsts(levels, k)] + levels[k]
    {
      idx := idx - 1;
      PrevRound(levels, tree, idx);
      var newValue := tree[idx][1] - tree[idx + 1][0];
      tree := tree[idx := tree[idx][0 := newValue]];
    }
    assert tree[0] == [AlternatingFirsts(levels, 0)] + levels[0];
    value := tree[0][0];
  }

  /** `estimate_next`: the forward extrapolation of the history. */
  method EstimateNext(input: seq<int>) returns (r: int)
    requires |input| > 0
    ensures r == NextValue(input)
  {
    var tree := CreateTree(input);
    PyramidGraded(input);
    r := FillLasts(tree);
    PyramidNext(input);
  }

  /** `estimate_prev`: the backward extrapolation of the history. */
  method EstimatePrev(input: seq<int>) returns (r: int)
    requires |input| > 0
    ensures r == PrevValue(input)
  {
    var tree := CreateTree(input);
    PyramidGraded(input);
    r := FillFirsts(tree);
    PyramidPrev(input);
  }

  /** `part_one`, over the parsed lines. */
  function PartOne(histories: seq<seq<int>>): int
    requires forall i :: 0 <= i < |histories| ==> |histories[i]| > 0
  {
    if histories == [] then 0 else NextValue(histories[0]) + PartOne(histories[1..])
  }

  /** `part_two`, over the parsed lines. */
  function PartTwo(histories: seq<seq<int>>): int
    requires forall i :: 0 <= i < |histories| ==> |histories[i]| > 0
  {
    if histories == [] then 0 else PrevValue(histories[0]) + PartTwo(histories[1..])
  }

  /** Every history reversed. */
  function Reversals(histories: seq<seq<int>>): (r: seq<seq<int>>)
    ensures |r| == |histories|
    ensures forall i :: 0 <= i < |r| ==> r[i] == Reverse(histories[i])
  {
    if histories == [] then [] else [Reverse(histories[0])] + Reversals(histories[1..])
  }

  /** Part two is part one over the reversed histories. */
  lemma {:induction false} PartTwoIsReversedPartOne(histories: seq<seq<int>>)
    requires forall i :: 0 <= i < |histories| ==> |histories[i]| > 0
    ensures PartTwo(histories) == PartOne(Reversals(histories))
  {
    if histories != [] {
      PrevIsReversedNext(histories[0]);
      PartTwoIsReversedPartOne(histories[1..]);
      assert Reversals(histories)[1..] == Reversals(histories[1..]);
    }
  }
}
