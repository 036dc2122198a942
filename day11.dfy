/**
 * Day 11, cosmic expansion: every row and every column without a galaxy
 * is widened by `k` extra lines, and the answer is the sum of the Manhattan
 * distances over all unordered pairs of galaxies.
 */
module Day11 {

  /** A galaxy's position: (row, column). */
  type Pos = (nat, nat)

  datatype Axis = Row | Col

  function Coord(p: Pos, axis: Axis): nat {
    match axis
    case Row => p.0
    case Col => p.1
  }

  /** `p` moved by `d` along `axis`; the other coordinate is kept. */
  function Shift(p: Pos, axis: Axis, d: nat): (q: Pos)
    ensures Coord(q, axis) == Coord(p, axis) + d
    ensures Coord(q, Other(axis)) == Coord(p, Other(axis))
  {
    match axis
    case Row => (p.0 + d, p.1)
    case Col => (p.0, p.1 + d)
  }

  function Other(axis: Axis): Axis {
    match axis
    case Row => Col
    case Col => Row
  }

  /** The galaxies of one line from column `j` on, left to right. */
  function LineGalaxies(line: string, i: nat, j: nat): (r: seq<Pos>)
    requires j <= |line|
    ensures forall p :: p in r <==> p.0 == i && j <= p.1 < |line| && line[p.1] == '#'
    ensures forall a, b :: 0 <= a < b < |r| ==> r[a].0 == r[b].0 && r[a].1 < r[b].1
    ensures forall a :: 0 <= a < |r| ==> r[a].0 == i && j <= r[a].1
    decreases |line| - j
  {
    if j == |line| then []
    else if line[j] == '#' then [(i, j)] + LineGalaxies(line, i, j + 1)
    else LineGalaxies(line, i, j + 1)
  }

  /** Lexicographic order on positions, the order of a row-major scan. */
  predicate Before(p: Pos, q: Pos) {
    p.0 < q.0 || (p.0 == q.0 && p.1 < q.1)
  }

  /** The collected `(i, j)` of every '#' of the lines from row `i` on, in
      row-major order. */
  function GalaxiesFrom(grid: seq<string>, i: nat): (r: seq<Pos>)
    requires i <= |grid|
    ensures forall p :: p in r <==> i <= p.0 < |grid| && p.1 < |grid[p.0]| && grid[p.0][p.1] == '#'
    ensures forall a, b :: 0 <= a < b < |r| ==> Before(r[a], r[b])
    ensures forall a :: 0 <= a < |r| ==> i <= r[a].0
    decreases |grid| - i
  {
    if i == |grid| then []
    else
      var here := LineGalaxies(grid[i], i, 0);
      var rest := GalaxiesFrom(grid, i + 1);
      JoinRows(here, rest, i);
      here + rest
  }

  /** The galaxies of row `i`, then those of later rows, stay in row-major
      order. */
  lemma JoinRows(here: seq<Pos>, rest: seq<Pos>, i: nat)
    requires forall a :: 0 <= a < |here| ==> here[a].0 == i
    requires forall a, b :: 0 <= a < b < |here| ==> here[a].1 < here[b].1
    requires forall a, b :: 0 <= a < b < |rest| ==> Before(rest[a], rest[b])
    requires forall a :: 0 <= a < |rest| ==> i < rest[a].0
    ensures forall a, b :: 0 <= a < b < |here + rest| ==> Before((here + rest)[a], (here + rest)[b])
    ensures forall a :: 0 <= a < |here + rest| ==> i <= (here + rest)[a].0
  {
    var r := here + rest;
    assert forall a :: 0 <= a < |here| ==> r[a] == here[a];
    assert forall b :: |here| <= b < |r| ==> r[b] == rest[b - |here|];
  }

  function Galaxies(grid: seq<string>): seq<Pos> {
    GalaxiesFrom(grid, 0)
  }

  /** Some galaxy lies on line `v` of `axis`. */
  predicate Occupied(gs: seq<Pos>, axis: Axis, v: nat) {
    exists i :: 0 <= i < |gs| && Coord(gs[i], axis) == v
  }

  /** The number of empty lines of `axis` below `n`. */
  function EmptyBelow(gs: seq<Pos>, axis: Axis, n: nat): (c: nat)
    ensures c <= n
  {
    if n == 0 then 0 else EmptyBelow(gs, axis, n - 1) + (if Occupied(gs, axis, n - 1) then 0 else 1)
  }

  lemma {:induction false} EmptyBelowMonotone(gs: seq<Pos>, axis: Axis, m: nat, n: nat)
    requires m <= n
    ensures EmptyBelow(gs, axis, m) <= EmptyBelow(gs, axis, n)
    decreases n - m
  {
    if m < n {
      EmptyBelowMonotone(gs, axis, m, n - 1);
    }
  }

  /** `k * n`, as repeated addition. */
  function Times(k: nat, n: nat): nat {
    if n == 0 then 0 else Times(k, n - 1) + k
  }

  lemma {:induction false} TimesIsProduct(k: nat, n: nat)
    ensures Times(k, n) == k * n
  {
    if n > 0 {
      TimesIsProduct(k, n - 1);
    }
  }

  lemma {:induction false} MulMonotone(k: nat, a: nat, b: nat)
    requires a <= b
    ensures Times(k, a) <= Times(k, b)
    decreases b - a
  {
    if a < b {
      MulMonotone(k, a, b - 1);
    }
  }

  lemma {:induction false} TimesAdd(k: nat, a: nat, b: nat)
    ensures Times(k, a + b) == Times(k, a) + Times(k, b)
    decreases b
  {
    if b > 0 {
      TimesAdd(k, a, b - 1);
    }
  }

  function Min(a: nat, b: nat): nat { if a < b then a else b }

  /** Where the expansion puts a line: `v` plus `k` per empty line before
      it; only lines below `size` are looked at. */
  function Moved(gs: seq<Pos>, axis: Axis, size: nat, k: nat, v: nat): nat {
    v + Times(k, EmptyBelow(gs, axis, Min(v, size)))
  }

  /** Galaxy `g` once the lines of `axis` below `x` have been expanded. */
  function Target(gs: seq<Pos>, axis: Axis, k: nat, x: nat, g: Pos): (q: Pos)
    ensures Coord(q, Other(axis)) == Coord(g, Other(axis))
  {
    Shift(g, axis, Times(k, EmptyBelow(gs, axis, Min(Coord(g, axis), x))))
  }

  /** The expansion of one axis, stated for every galaxy at once. */
  function Expanded(gs: seq<Pos>, axis: Axis, size: nat, k: nat): (r: seq<Pos>)
    ensures |r| == |gs|
    ensures forall i :: 0 <= i < |gs| ==> Coord(r[i], Other(axis)) == Coord(gs[i], Other(axis))
  {
    seq(|gs|, i requires 0 <= i < |gs| => Target(gs, axis, k, size, gs[i]))
  }

  /** The state of the expansion loop before line `x`: every galaxy moved by
      `k` per empty line below both `x` and itself. */
  ghost predicate Partly(gs: seq<Pos>, coords: seq<Pos>, axis: Axis, k: nat, x: nat) {
    && |coords| == |gs|
    && forall i :: 0 <= i < |gs| ==>
         coords[i] == Target(gs, axis, k, x, gs[i])
  }

  /** The galaxy that sat on line `x` is the one found at `x + offset`. */
  lemma ShiftedOne(gs: seq<Pos>, axis: Axis, k: nat, x: nat, off: nat, g: Pos)
    requires off == Times(k, EmptyBelow(gs, axis, x))
    ensures (Coord(Target(gs, axis, k, x, g), axis) == x + off)
      <==> Coord(g, axis) == x
  {
    var v := Coord(g, axis);
    if v < x {
      EmptyBelowMonotone(gs, axis, v, x);
      MulMonotone(k, EmptyBelow(gs, axis, v), EmptyBelow(gs, axis, x));
    }
  }

  /** The shifted check `x + offset == j` sees a galaxy exactly when line
      `x` held one before the expansion. */
  lemma OccupiedShifted(gs: seq<Pos>, coords: seq<Pos>, axis: Axis, k: nat, x: nat, off: nat)
    requires Partly(gs, coords, axis, k, x)
    requires off == Times(k, EmptyBelow(gs, axis, x))
    ensures Occupied(coords, axis, x + off) <==> Occupied(gs, axis, x)
  {
    if Occupied(coords, axis, x + off) {
      var i :| 0 <= i < |coords| && Coord(coords[i], axis) == x + off;
      ShiftedOne(gs, axis, k, x, off, gs[i]);
    }
    if Occupied(gs, axis, x) {
      var i :| 0 <= i < |gs| && Coord(gs[i], axis) == x;
      ShiftedOne(gs, axis, k, x, off, gs[i]);
      assert Coord(coords[i], axis) == x + off;
    }
  }

  /** One galaxy after the shift for an empty line `x`. */
  lemma BumpOne(gs: seq<Pos>, axis: Axis, k: nat, x: nat, p: Pos, g: Pos)
    requires !Occupied(gs, axis, x)
    requires (exists i :: 0 <= i < |gs| && gs[i] == g)
    requires p == Target(gs, axis, k, x, g)
    ensures (if Coord(p, axis) > x + Times(k, EmptyBelow(gs, axis, x)) then Shift(p, axis, k) else p)
      == Target(gs, axis, k, x + 1, g)
  {
    var v := Coord(g, axis);
    assert v != x;
    if v < x {
      EmptyBelowMonotone(gs, axis, v, x);
      MulMonotone(k, EmptyBelow(gs, axis, v), EmptyBelow(gs, axis, x));
    } else {
      assert EmptyBelow(gs, axis, x + 1) == EmptyBelow(gs, axis, x) + 1;
      assert Times(k, EmptyBelow(gs, axis, x + 1)) == Times(k, EmptyBelow(gs, axis, x)) + k;
    }
  }

  /** An occupied line `x` moves nobody, and the state is already the one
      for `x + 1`. */
  lemma KeepOne(gs: seq<Pos>, axis: Axis, k: nat, x: nat, g: Pos)
    requires Occupied(gs, axis, x)
    ensures Target(gs, axis, k, x, g)
      == Target(gs, axis, k, x + 1, g)
  {
    assert EmptyBelow(gs, axis, x + 1) == EmptyBelow(gs, axis, x);
  }

  /** The in-place shift: every galaxy beyond line `bound` moves by `k`
      along `axis`. */
  method ShiftBeyond(coords0: seq<Pos>, axis: Axis, bound: nat, k: nat) returns (coords: seq<Pos>)
    ensures |coords| == |coords0|
    ensures forall a :: 0 <= a < |coords0| ==>
      coords[a] == if Coord(coords0[a], axis) > bound then Shift(coords0[a], axis, k) else coords0[a]
  {
    coords := coords0;
    for i := 0 to |coords|
      invariant |coords| == |coords0|
      invariant forall a :: i <= a < |coords0| ==> coords[a] == coords0[a]
      invariant forall a :: 0 <= a < i ==>
        coords[a] == if Coord(coords0[a], axis) > bound then Shift(coords0[a], axis, k) else coords0[a]
    {
      if Coord(coords[i], axis) > bound {
        coords := coords[i := Shift(coords[i], axis, k)];
      }
    }
  }

  /** One of the two expansion loops of `get_distances`: for each line `x`
      below `size`, when no galaxy sits on the shifted line `x + offset`,
      every galaxy beyond it moves by `k` and the offset grows by `k`. */
  method ExpandAxis(gs: seq<Pos>, axis: Axis, size: nat, k: nat) returns (coords: seq<Pos>)
    ensures coords == Expanded(gs, axis, size, k)
  {
    coords := gs;
    var offset := 0;
    for x := 0 to size
      invariant Partly(gs, coords, axis, k, x)
      invariant offset == Times(k, EmptyBelow(gs, axis, x))
    {
      coords, offset := ExpandLine(gs, coords, axis, k, x, offset);
    }
  }

  /** One turn of an expansion loop: line `x`, found at `x + offset`. */
  method ExpandLine(gs: seq<Pos>, coords0: seq<Pos>, axis: Axis, k: nat, x: nat, offset0: nat)
    returns (coords: seq<Pos>, offset: nat)
    requires Partly(gs, coords0, axis, k, x)
    requires offset0 == Times(k, EmptyBelow(gs, axis, x))
    ensures Partly(gs, coords, axis, k, x + 1)
    ensures offset == Times(k, EmptyBelow(gs, axis, x + 1))
  {
    coords, offset := coords0, offset0;
    OccupiedShifted(gs, coords, axis, k, x, offset);
    if !Occupied(coords, axis, x + offset) {
      coords := ShiftBeyond(coords, axis, x + offset, k);
      BumpAll(gs, coords0, coords, axis, k, x, offset);
      offset := offset + k;
    } else {
      KeepAll(gs, coords, axis, k, x, offset);
    }
  }

  /** An empty line `x`: shifting everything beyond it gives the state for
      `x + 1`. */
  lemma BumpAll(gs: seq<Pos>, before: seq<Pos>, coords: seq<Pos>, axis: Axis, k: nat, x: nat, off: nat)
    requires Partly(gs, before, axis, k, x) && !Occupied(gs, axis, x)
    requires off == Times(k, EmptyBelow(gs, axis, x))
    requires |coords| == |before|
    requires forall a :: 0 <= a < |before| ==>
      coords[a] == if Coord(before[a], axis) > x + off then Shift(before[a], axis, k) else before[a]
    ensures Partly(gs, coords, axis, k, x + 1)
    ensures off + k == Times(k, EmptyBelow(gs, axis, x + 1))
  {
    forall a | 0 <= a < |gs| ensures coords[a] == Target(gs, axis, k, x + 1, gs[a]) {
      BumpOne(gs, axis, k, x, before[a], gs[a]);
    }
    assert EmptyBelow(gs, axis, x + 1) == EmptyBelow(gs, axis, x) + 1;
  }

  /** An occupied line `x`: the state is already the one for `x + 1`. */
  lemma KeepAll(gs: seq<Pos>, coords: seq<Pos>, axis: Axis, k: nat, x: nat, off: nat)
    requires Partly(gs, coords, axis, k, x) && Occupied(gs, axis, x)
    requires off == Times(k, EmptyBelow(gs, axis, x))
    ensures Partly(gs, coords, axis, k, x + 1)
    ensures off == Times(k, EmptyBelow(gs, axis, x + 1))
  {
    forall a | 0 <= a < |gs| ensures coords[a] == Target(gs, axis, k, x + 1, gs[a]) {
      KeepOne(gs, axis, k, x, gs[a]);
    }
    assert EmptyBelow(gs, axis, x + 1) == EmptyBelow(gs, axis, x);
  }

  /** Moving the galaxies along one axis does not change which lines of the
      other axis are empty. */
  lemma OtherAxisKept(gs: seq<Pos>, axis: Axis, size: nat, k: nat, n: nat)
    ensures EmptyBelow(Expanded(gs, axis, size, k), Other(axis), n) == EmptyBelow(gs, Other(axis), n)
  {
    var e := Expanded(gs, axis, size, k);
    if n > 0 {
      OtherAxisKept(gs, axis, size, k, n - 1);
      if Occupied(gs, Other(axis), n - 1) {
        var i :| 0 <= i < |gs| && Coord(gs[i], Other(axis)) == n - 1;
        assert Coord(e[i], Other(axis)) == n - 1;
      }
      if Occupied(e, Other(axis), n - 1) {
        var i :| 0 <= i < |e| && Coord(e[i], Other(axis)) == n - 1;
        assert Coord(gs[i], Other(axis)) == n - 1;
      }
    }
  }

  function Abs(x: int): nat { if x < 0 then -x else x }

  /** The Manhattan distance of two galaxies. */
  function Dist(a: Pos, b: Pos): nat {
    Abs(a.0 - b.0) + Abs(a.1 - b.1)
  }

  /** The distances from `p` to every galaxy of `rest`. */
  function SumDist(p: Pos, rest: seq<Pos>): nat {
    if rest == [] then 0 else Dist(p, rest[0]) + SumDist(p, rest[1..])
  }

  /** The distances of all pairs of galaxies summed, every unordered pair
      once. */
  function SumPairs(gs: seq<Pos>): nat {
    if gs == [] then 0 else SumDist(gs[0], gs[1..]) + SumPairs(gs[1..])
  }

  /** The distance is symmetric, so the order within a pair does not matter. */
  lemma DistSymmetric(a: Pos, b: Pos)
    ensures Dist(a, b) == Dist(b, a)
  {
  }

  /** The position of every galaxy after both passes: columns first over the
      width of the first line, then rows over the number of lines. */
  function ExpandedGalaxies(grid: seq<string>, k: nat): (r: seq<Pos>)
    requires |grid| >= 1
    ensures |r| == |Galaxies(grid)|
  {
    Expanded(Expanded(Galaxies(grid), Col, |grid[0]|, k), Row, |grid|, k)
  }

  /** `get_distances`. The first line must exist because of `unwrap`. */
  method GetDistances(grid: seq<string>, k: nat) returns (total: nat)
    requires |grid| >= 1
    ensures total == SumPairs(ExpandedGalaxies(grid, k))
  {
    var galaxyCoords := Galaxies(grid);
    var xSize := |grid[0]|;
    var ySize := |grid|;
    galaxyCoords := ExpandAxis(galaxyCoords, Col, xSize, k);
    galaxyCoords := ExpandAxis(galaxyCoords, Row, ySize, k);
    total := SumPairs(galaxyCoords);
  }

  /** Each expanded coordinate of a galaxy, from the original galaxies: the
      row pass counts the same empty rows as the original grid. */
  lemma ExpandedCoords(grid: seq<string>, k: nat, i: nat)
    requires |grid| >= 1 && i < |Galaxies(grid)|
    ensures ExpandedGalaxies(grid, k)[i].0 == Moved(Galaxies(grid), Row, |grid|, k, Galaxies(grid)[i].0)
    ensures ExpandedGalaxies(grid, k)[i].1 == Moved(Galaxies(grid), Col, |grid[0]|, k, Galaxies(grid)[i].1)
  {
    var gs := Galaxies(grid);
    var c := Expanded(gs, Col, |grid[0]|, k);
    OtherAxisKept(gs, Col, |grid[0]|, k, Min(c[i].0, |grid|));
    assert c[i].0 == gs[i].0;
  }

  /** The expansion keeps the order of the galaxies along an axis. */
  lemma MovedMonotone(gs: seq<Pos>, axis: Axis, size: nat, k: nat, v: nat, w: nat)
    requires v < w
    ensures Moved(gs, axis, size, k, v) < Moved(gs, axis, size, k, w)
  {
    EmptyBelowMonotone(gs, axis, Min(v, size), Min(w, size));
    MulMonotone(k, EmptyBelow(gs, axis, Min(v, size)), EmptyBelow(gs, axis, Min(w, size)));
  }

  /** The expansion keeps the relative order of any two galaxies on each
      axis. */
  lemma OrderKept(grid: seq<string>, k: nat, i: nat, j: nat)
    requires |grid| >= 1 && i < |Galaxies(grid)| && j < |Galaxies(grid)|
    ensures var gs, e := Galaxies(grid), ExpandedGalaxies(grid, k);
      && (gs[i].0 < gs[j].0 ==> e[i].0 < e[j].0)
      && (gs[i].1 < gs[j].1 ==> e[i].1 < e[j].1)
  {
    var gs := Galaxies(grid);
    ExpandedCoords(grid, k, i);
    ExpandedCoords(grid, k, j);
    if gs[i].0 < gs[j].0 { MovedMonotone(gs, Row, |grid|, k, gs[i].0, gs[j].0); }
    if gs[i].1 < gs[j].1 { MovedMonotone(gs, Col, |grid[0]|, k, gs[i].1, gs[j].1); }
  }

  /** The number of empty lines strictly between `lo` and `hi`. */
  function EmptyBetween(gs: seq<Pos>, axis: Axis, lo: nat, hi: nat): nat
    requires lo <= hi
    decreases hi - lo
  {
    if hi <= lo + 1 then 0
    else EmptyBetween(gs, axis, lo, hi - 1) + (if Occupied(gs, axis, hi - 1) then 0 else 1)
  }

  lemma {:induction false} EmptyBelowSplit(gs: seq<Pos>, axis: Axis, lo: nat, hi: nat)
    requires lo < hi && Occupied(gs, axis, lo)
    ensures EmptyBelow(gs, axis, hi) == EmptyBelow(gs, axis, lo) + EmptyBetween(gs, axis, lo, hi)
    decreases hi - lo
  {
    if hi > lo + 1 {
      EmptyBelowSplit(gs, axis, lo, hi - 1);
    }
  }

  /** Along one axis, two lines that hold galaxies and lie inside the grid end
      up their original distance apart plus `k` per empty line between them. */
  lemma MovedGap(gs: seq<Pos>, axis: Axis, size: nat, k: nat, lo: nat, hi: nat)
    requires lo <= hi < size && Occupied(gs, axis, lo)
    ensures Moved(gs, axis, size, k, hi) - Moved(gs, axis, size, k, lo) == hi - lo + Times(k, EmptyBetween(gs, axis, lo, hi))
  {
    if lo < hi {
      EmptyBelowSplit(gs, axis, lo, hi);
      TimesAdd(k, EmptyBelow(gs, axis, lo), EmptyBetween(gs, axis, lo, hi));
      assert Times(k, EmptyBelow(gs, axis, hi)) == Times(k, EmptyBelow(gs, axis, lo)) + Times(k, EmptyBetween(gs, axis, lo, hi));
    }
  }

  /** The distance of a pair after the expansion is its original distance plus
      `k` for every empty row and every empty column between the two. */
  lemma PairDistance(grid: seq<string>, k: nat, i: nat, j: nat)
    requires |grid| >= 1 && i < |Galaxies(grid)| && j < |Galaxies(grid)|
    requires forall r :: 0 <= r < |grid| ==> |grid[r]| == |grid[0]|
    ensures var gs, e := Galaxies(grid), ExpandedGalaxies(grid, k);
      var a, b := gs[i], gs[j];
      Dist(e[i], e[j]) == Dist(a, b)
        + Times(k, EmptyBetween(gs, Row, Min(a.0, b.0), Max(a.0, b.0)))
        + Times(k, EmptyBetween(gs, Col, Min(a.1, b.1), Max(a.1, b.1)))
  {
    var gs, e := Galaxies(grid), ExpandedGalaxies(grid, k);
    var a, b := gs[i], gs[j];
    GalaxyInGrid(grid, i);
    GalaxyInGrid(grid, j);
    ExpandedCoords(grid, k, i);
    ExpandedCoords(grid, k, j);
    GapsOfPair(gs, |grid|, |grid[0]|, k, a, b, e[i], e[j]);
  }

  /** The same, for two galaxies `a`, `b` of `gs` moved to `p`, `q`. */
  lemma GapsOfPair(gs: seq<Pos>, rows: nat, cols: nat, k: nat, a: Pos, b: Pos, p: Pos, q: Pos)
    requires a.0 < rows && b.0 < rows && a.1 < cols && b.1 < cols
    requires Occupied(gs, Row, a.0) && Occupied(gs, Row, b.0)
    requires Occupied(gs, Col, a.1) && Occupied(gs, Col, b.1)
    requires p.0 == Moved(gs, Row, rows, k, a.0) && q.0 == Moved(gs, Row, rows, k, b.0)
    requires p.1 == Moved(gs, Col, cols, k, a.1) && q.1 == Moved(gs, Col, cols, k, b.1)
    ensures Dist(p, q) == Dist(a, b)
      + Times(k, EmptyBetween(gs, Row, Min(a.0, b.0), Max(a.0, b.0)))
      + Times(k, EmptyBetween(gs, Col, Min(a.1, b.1), Max(a.1, b.1)))
  {
    AxisGap(gs, Row, rows, k, a.0, b.0);
    AxisGap(gs, Col, cols, k, a.1, b.1);
    DistOfGaps(p, q, a, b,
      Times(k, EmptyBetween(gs, Row, Min(a.0, b.0), Max(a.0, b.0))),
      Times(k, EmptyBetween(gs, Col, Min(a.1, b.1), Max(a.1, b.1))));
  }

  /** A galaxy lies inside a rectangular grid, on an occupied row and an
      occupied column. */
  lemma GalaxyInGrid(grid: seq<string>, i: nat)
    requires |grid| >= 1 && i < |Galaxies(grid)|
    requires forall r :: 0 <= r < |grid| ==> |grid[r]| == |grid[0]|
    ensures var g := Galaxies(grid)[i];
      && g.0 < |grid| && g.1 < |grid[0]|
      && Occupied(Galaxies(grid), Row, g.0) && Occupied(Galaxies(grid), Col, g.1)
  {
    var gs := Galaxies(grid);
    assert gs[i] in gs;
    assert Coord(gs[i], Row) == gs[i].0 && Coord(gs[i], Col) == gs[i].1;
  }

  lemma DistOfGaps(p: Pos, q: Pos, a: Pos, b: Pos, rows: nat, cols: nat)
    requires Abs(p.0 - q.0) == Abs(a.0 - b.0) + rows
    requires Abs(p.1 - q.1) == Abs(a.1 - b.1) + cols
    ensures Dist(p, q) == Dist(a, b) + rows + cols
  {
  }

  /** Two occupied lines of one axis, in either order, after the expansion. */
  lemma AxisGap(gs: seq<Pos>, axis: Axis, size: nat, k: nat, v: nat, w: nat)
    requires v < size && w < size && Occupied(gs, axis, v) && Occupied(gs, axis, w)
    ensures Abs(Moved(gs, axis, size, k, v) - Moved(gs, axis, size, k, w))
      == Abs(v - w) + Times(k, EmptyBetween(gs, axis, Min(v, w), Max(v, w)))
  {
    MovedGap(gs, axis, size, k, Min(v, w), Max(v, w));
    if v < w { MovedMonotone(gs, axis, size, k, v, w); }
    if w < v { MovedMonotone(gs, axis, size, k, w, v); }
  }

  function Max(a: nat, b: nat): nat { if a < b then b else a }

  /** `part_one`: expansion by 1, the sum cast to `u32`. */
  method PartOne(grid: seq<string>) returns (r: nat)
    requires |grid| >= 1
    ensures r == SumPairs(ExpandedGalaxies(grid, 1)) % 0x1_0000_0000
  {
    var total := GetDistances(grid, 1);
    r := total % 0x1_0000_0000;
  }

  /** `part_two`: every empty line becomes a million lines. */
  method PartTwo(grid: seq<string>) returns (r: nat)
    requires |grid| >= 1
    ensures r == SumPairs(ExpandedGalaxies(grid, 999_999))
  {
    r := GetDistances(grid, 999_999);
  }
}
