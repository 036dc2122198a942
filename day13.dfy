/**
 * Day 13, point of incidence: every board has a line of reflection between
 * two rows or two columns. Part one looks for a perfect mirror, part two
 * for one that is off by exactly one cell (the smudge); a row split adds
 * 100 times the rows above it, a column split the columns to its left.
 */
module Day13 {
  import opened Wrappers
  import opened Text

  /** A board, one string per row. */
  type Board = seq<string>

  /** Taking the first row needs one; indexing every row up to the
      width of the first needs equal lengths. */
  predicate Rectangular(b: Board) {
    |b| >= 1 && forall i :: 0 <= i < |b| ==> |b[i]| == |b[0]|
  }

  /** Splits between rows or between columns. */
  datatype Axis = Rows | Cols

  function Other(axis: Axis): Axis {
    if axis == Rows then Cols else Rows
  }

  /** The number of rows or of columns. */
  function Len(b: Board, axis: Axis): nat
    requires Rectangular(b)
  {
    if axis == Rows then |b| else |b[0]|
  }

  /** Cell `k` of row (or column) `a`. */
  function Cell(b: Board, axis: Axis, a: nat, k: nat): char
    requires Rectangular(b) && a < Len(b, axis) && k < Len(b, Other(axis))
  {
    if axis == Rows then b[a][k] else b[k][a]
  }

  /** Row `a`, or column `a` read from top to bottom. */
  function Line(b: Board, axis: Axis, a: nat): (l: string)
    requires Rectangular(b) && a < Len(b, axis)
    ensures |l| == Len(b, Other(axis))
    ensures forall k :: 0 <= k < |l| ==> l[k] == Cell(b, axis, a, k)
  {
    if axis == Rows then b[a] else seq(|b|, k requires 0 <= k < |b| => b[k][a])
  }

  function Min(a: int, b: int): int { if a <= b then a else b }

  function Max(a: int, b: int): int { if a >= b then a else b }

  /** `min_check` for the split before line `split` of `len` lines. */
  function MinCheck(split: nat, len: nat): (m: nat)
    requires 1 <= split < len
    ensures m == if 2 * split >= len then 2 * split - len else 0
  {
    var maxCheck := Min(2 * split - 1, len - 1);
    Max(0, split - (maxCheck - split) - 1)
  }

  /** `i + offset`, the line that the split maps line `i` onto. */
  function Partner(split: nat, i: nat): (p: nat)
    requires i < split
    ensures p == 2 * split - 1 - i
  {
    i + (2 * (split - i) - 1)
  }

  /** The lines checked against a partner are exactly those whose partner
      lies on the board. */
  lemma PartnerInRange(split: nat, len: nat, i: nat)
    requires 1 <= split < len && i < split
    ensures MinCheck(split, len) <= i <==> Partner(split, i) < len
    ensures Partner(split, i) >= split
  {
  }

  /** The cells among the first `n` where lines `a` and `c` differ. */
  function Mismatches(b: Board, axis: Axis, a: nat, c: nat, n: nat): (m: nat)
    requires Rectangular(b) && a < Len(b, axis) && c < Len(b, axis) && n <= Len(b, Other(axis))
    ensures m <= n
  {
    if n == 0 then 0
    else Mismatches(b, axis, a, c, n - 1) + (if Cell(b, axis, a, n - 1) != Cell(b, axis, c, n - 1) then 1 else 0)
  }

  /** The mismatches of lines `from` up to the split against their
      partners. */
  function SmudgesFrom(b: Board, axis: Axis, split: nat, from: nat): nat
    requires Rectangular(b) && 1 <= split < Len(b, axis) && MinCheck(split, Len(b, axis)) <= from <= split
    decreases split - from
  {
    if from == split then 0
    else
      Mismatches(b, axis, from, Partner(split, from), Len(b, Other(axis))) + SmudgesFrom(b, axis, split, from + 1)
  }

  /** The part-two sum over the mirrored pairs of a split. */
  function Smudges(b: Board, axis: Axis, split: nat): nat
    requires Rectangular(b) && 1 <= split < Len(b, axis)
  {
    SmudgesFrom(b, axis, split, MinCheck(split, Len(b, axis)))
  }

  /** The part-one test: every checked line equals its partner cell by
      cell. */
  predicate Mirrored(b: Board, axis: Axis, split: nat)
    requires Rectangular(b) && 1 <= split < Len(b, axis)
  {
    forall i :: MinCheck(split, Len(b, axis)) <= i < split ==>
      forall k :: 0 <= k < Len(b, Other(axis)) ==> Cell(b, axis, i, k) == Cell(b, axis, Partner(split, i), k)
  }

  lemma {:induction false} NoMismatches(b: Board, axis: Axis, a: nat, c: nat, n: nat)
    requires Rectangular(b) && a < Len(b, axis) && c < Len(b, axis) && n <= Len(b, Other(axis))
    ensures Mismatches(b, axis, a, c, n) == 0 <==> forall k :: 0 <= k < n ==> Cell(b, axis, a, k) == Cell(b, axis, c, k)
  {
    if n > 0 {
      NoMismatches(b, axis, a, c, n - 1);
    }
  }

  lemma {:induction false} NoSmudgesFrom(b: Board, axis: Axis, split: nat, from: nat)
    requires Rectangular(b) && 1 <= split < Len(b, axis) && MinCheck(split, Len(b, axis)) <= from <= split
    ensures SmudgesFrom(b, axis, split, from) == 0 <==> forall i :: from <= i < split ==>
      Mismatches(b, axis, i, Partner(split, i), Len(b, Other(axis))) == 0
    decreases split - from
  {
    if from < split {
      NoSmudgesFrom(b, axis, split, from + 1);
    }
  }

  /** The part-one test is the part-two sum being zero. */
  lemma MirroredIffNoSmudges(b: Board, axis: Axis, split: nat)
    requires Rectangular(b) && 1 <= split < Len(b, axis)
    ensures Mirrored(b, axis, split) <==> Smudges(b, axis, split) == 0
  {
    var len := Len(b, axis);
    NoSmudgesFrom(b, axis, split, MinCheck(split, len));
    forall i | MinCheck(split, len) <= i < split
      ensures Mismatches(b, axis, i, Partner(split, i), Len(b, Other(axis))) == 0 <==>
        forall k :: 0 <= k < Len(b, Other(axis)) ==> Cell(b, axis, i, k) == Cell(b, axis, Partner(split, i), k)
    {
      NoMismatches(b, axis, i, Partner(split, i), Len(b, Other(axis)));
    }
  }

  /** A perfect mirror folds the board onto itself: every line that has a
      mirror image on the board equals it. */
  lemma MirroredIffReflection(b: Board, axis: Axis, split: nat)
    requires Rectangular(b) && 1 <= split < Len(b, axis)
    ensures Mirrored(b, axis, split) <==>
      forall i :: 0 <= i < split && Partner(split, i) < Len(b, axis) ==> Line(b, axis, i) == Line(b, axis, Partner(split, i))
  {
    var len := Len(b, axis);
    forall i | 0 <= i < split
      ensures Partner(split, i) < len <==> MinCheck(split, len) <= i
    {
      PartnerInRange(split, len, i);
    }
    forall i | MinCheck(split, len) <= i < split
      ensures Line(b, axis, i) == Line(b, axis, Partner(split, i)) <==>
        forall k :: 0 <= k < Len(b, Other(axis)) ==> Cell(b, axis, i, k) == Cell(b, axis, Partner(split, i), k)
    {
      LineEq(b, axis, i, Partner(split, i));
    }
  }

  lemma LineEq(b: Board, axis: Axis, a: nat, c: nat)
    requires Rectangular(b) && a < Len(b, axis) && c < Len(b, axis)
    ensures Line(b, axis, a) == Line(b, axis, c) <==>
      forall k :: 0 <= k < Len(b, Other(axis)) ==> Cell(b, axis, a, k) == Cell(b, axis, c, k)
  {
    if forall k :: 0 <= k < Len(b, Other(axis)) ==> Cell(b, axis, a, k) == Cell(b, axis, c, k) {
      assert forall k :: 0 <= k < Len(b, Other(axis)) ==> Line(b, axis, a)[k] == Line(b, axis, c)[k];
    }
  }

  datatype Part = One | Two

  /** The test of a split: a perfect mirror in part one, exactly one
      mismatch in part two. */
  predicate Fits(b: Board, axis: Axis, part: Part, split: nat)
    requires Rectangular(b) && 1 <= split < Len(b, axis)
  {
    if part == One then Mirrored(b, axis, split) else Smudges(b, axis, split) == 1
  }

  /** The first split from `from` on that passes the test. */
  function FirstSplit(b: Board, axis: Axis, part: Part, from: nat): Option<nat>
    requires Rectangular(b) && from >= 1
    decreases Len(b, axis) - from
  {
    if from >= Len(b, axis) then None
    else if Fits(b, axis, part, from) then Some(from)
    else FirstSplit(b, axis, part, from + 1)
  }

  /** `FirstSplit` finds the least passing split, and `None` means none
      passes. */
  lemma {:induction false} FirstSplitLeast(b: Board, axis: Axis, part: Part, from: nat)
    requires Rectangular(b) && from >= 1
    ensures match FirstSplit(b, axis, part, from)
      case Some(s) => from <= s < Len(b, axis) && Fits(b, axis, part, s)
        && forall r :: from <= r < s ==> !Fits(b, axis, part, r)
      case None => forall r :: from <= r < Len(b, axis) ==> !Fits(b, axis, part, r)
    decreases Len(b, axis) - from
  {
    if from < Len(b, axis) && !Fits(b, axis, part, from) {
      FirstSplitLeast(b, axis, part, from + 1);
    }
  }

  /** What a board adds: 100 times the first row split, otherwise the first
      column split, otherwise nothing. */
  function Summary(b: Board, part: Part): nat
    requires Rectangular(b)
  {
    match FirstSplit(b, Rows, part, 1)
    case Some(row) => row * 100
    case None =>
      match FirstSplit(b, Cols, part, 1)
      case Some(col) => col
      case None => 0
  }

  /** The loop over the candidate splits, from 1 upwards, stopping at the
      first that passes. */
  method FindSplit(b: Board, axis: Axis, part: Part) returns (found: Option<nat>)
    requires Rectangular(b)
    ensures found == FirstSplit(b, axis, part, 1)
  {
    var len := Len(b, axis);
    var split := 1;
    while split < len
      invariant 1 <= split && FirstSplit(b, axis, part, 1) == FirstSplit(b, axis, part, split)
    {
      var maxCheck := Min(2 * split - 1, len - 1);
      var minCheck := Max(0, split - (maxCheck - split) - 1);
      assert minCheck == MinCheck(split, len);
      var passes := if part == One then Mirrored(b, axis, split) else SmudgesFrom(b, axis, split, minCheck) == 1;
      if passes {
        return Some(split);
      }
      split := split + 1;
    }
    return None;
  }

  /** The body of the loop over the boards. */
  method BoardValue(b: Board, part: Part) returns (v: nat)
    requires Rectangular(b)
    ensures v == Summary(b, part)
  {
    var row := FindSplit(b, Rows, part);
    if row.Some? {
      return row.value * 100;
    }
    var col := FindSplit(b, Cols, part);
    if col.Some? {
      return col.value;
    }
    return 0;
  }

  /** The boards of the input: split on blank lines written "\r\n\r\n",
      each read with `lines()`. */
  function Boards(input: string): (bs: seq<Board>)
    ensures |bs| == |SplitOn(input, "\r\n\r\n")|
  {
    var parts := SplitOn(input, "\r\n\r\n");
    seq(|parts|, i requires 0 <= i < |parts| => Lines(parts[i]))
  }

  /** Boards are only split at "\r\n\r\n": an input with "\n" line ends
      reads as a single board. */
  lemma OneBoardWithoutCrlf(input: string)
    requires !Occurs(input, "\r\n\r\n")
    ensures Boards(input) == [Lines(input)]
  {
    SplitOnAbsent(input, "\r\n\r\n");
  }

  function SumSummaries(bs: seq<Board>, part: Part): nat
    requires forall i :: 0 <= i < |bs| ==> Rectangular(bs[i])
  {
    if bs == [] then 0 else SumSummaries(bs[..|bs| - 1], part) + Summary(bs[|bs| - 1], part)
  }

  /** `part_one` (with `One`) and `part_two` (with `Two`). */
  method Solve(input: string, part: Part) returns (total: nat)
    requires forall i :: 0 <= i < |Boards(input)| ==> Rectangular(Boards(input)[i])
    ensures total == SumSummaries(Boards(input), part)
  {
    var boards := Boards(input);
    total := 0;
    for i := 0 to |boards|
      invariant total == SumSummaries(boards[..i], part)
    {
      var v := BoardValue(boards[i], part);
      assert boards[..i + 1][..i] == boards[..i];
      total := total + v;
    }
    assert boards[..|boards|] == boards;
  }

  method PartOne(input: string) returns (total: nat)
    requires forall i :: 0 <= i < |Boards(input)| ==> Rectangular(Boards(input)[i])
    ensures total == SumSummaries(Boards(input), One)
  {
    total := Solve(input, One);
  }

  method PartTwo(input: string) returns (total: nat)
    requires forall i :: 0 <= i < |Boards(input)| ==> Rectangular(Boards(input)[i])
    ensures total == SumSummaries(Boards(input), Two)
  {
    total := Solve(input, Two);
  }
}
