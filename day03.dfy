// Day 3: Gear Ratios.  A schematic is a grid of digits, dots and symbols.
// Part one sums the numbers adjacent (diagonals included) to a symbol; part
// two sums, over the '*' cells next to exactly two numbers, their products.
module Day03 {
  import opened Wrappers
  import opened Text

  // ---------------------------------------------------------------------
  // Classifying characters
  // ---------------------------------------------------------------------

  /** A cell of the part-one grid. */
  datatype Character = Digit(n: nat) | Dot | Symbol

  /** The value the source reads off a digit: its code masked with 0x0F. */
  function MaskLow(c: char): nat
    requires c as int < 256
  {
    ((c as int as bv8) & 0x0F) as nat
  }

  lemma MaskIsDigitValue(c: char)
    requires IsDigit(c)
    ensures MaskLow(c) == DigitValue(c)
  {
    var v := c as int as bv8;
    assert v == (c as int - '0' as int) as bv8 + 0x30;
    assert forall d: bv8 {:trigger d & 0x0F} :: d < 10 ==> (d + 0x30) & 0x0F == d;
  }

  function Classify(c: char): (r: Character)
    ensures r.Digit? <==> IsDigit(c)
    ensures r.Digit? ==> r.n == DigitValue(c)
    ensures r == Dot <==> c == '.'
  {
    if IsDigit(c) then MaskIsDigitValue(c); Digit(MaskLow(c))
    else if c == '.' then Dot
    else Symbol
  }

  type Grid = seq<seq<Character>>

  function ClassifyLine(line: string): (row: seq<Character>)
    ensures |row| == |line|
    ensures forall j :: 0 <= j < |line| ==> row[j] == Classify(line[j])
  {
    if line == [] then [] else ClassifyLine(line[..|line| - 1]) + [Classify(line[|line| - 1])]
  }

  /** The part-one grid: one row per line of the input. */
  function ParseInputPart1(input: string): (g: Grid)
    ensures |g| == |Lines(input)|
    ensures forall i, j :: 0 <= i < |g| && 0 <= j < |Lines(input)[i]| ==>
      |g[i]| == |Lines(input)[i]| && g[i][j] == Classify(Lines(input)[i][j])
  {
    var ls := Lines(input);
    seq(|ls|, i requires 0 <= i < |ls| => ClassifyLine(ls[i]))
  }

  /** All rows have the width of the first; the source indexes the rows
      above and below a cell with the cell's own column. */
  predicate Rectangular(g: Grid)
  {
    forall i :: 0 <= i < |g| ==> |g[i]| == |g[0]|
  }

  // ---------------------------------------------------------------------
  // Neighbourhoods
  // ---------------------------------------------------------------------

  /** Cell (r, c) exists and holds a symbol; a cell off the grid does not. */
  predicate Sym(g: Grid, r: int, c: int)
  {
    0 <= r < |g| && 0 <= c < |g[r]| && g[r][c] == Symbol
  }

  /** A symbol directly above or below cell (i, c). */
  predicate Near(g: Grid, i: int, c: int)
  {
    Sym(g, i - 1, c) || Sym(g, i + 1, c)
  }

  predicate IsDig(g: Grid, i: nat, c: int)
    requires i < |g|
  {
    0 <= c < |g[i]| && g[i][c].Digit?
  }

  /** A symbol above or below some column in [a, b]. */
  predicate AnyNear(g: Grid, i: int, a: int, b: int)
    decreases b - a
  {
    a <= b && (Near(g, i, b) || AnyNear(g, i, a, b - 1))
  }

  lemma {:induction false} AnyNearIff(g: Grid, i: int, a: int, b: int)
    ensures AnyNear(g, i, a, b) <==> exists c :: a <= c <= b && Near(g, i, c)
    decreases b - a
  {
    if a <= b {
      AnyNearIff(g, i, a, b - 1);
    }
  }

  /** The first column of the run of digits through column c of row i. */
  function Start(g: Grid, i: nat, c: nat): (s: nat)
    requires i < |g| && IsDig(g, i, c)
    ensures s <= c && !IsDig(g, i, s - 1)
    ensures forall k :: s <= k <= c ==> IsDig(g, i, k)
  {
    if c > 0 && IsDig(g, i, c - 1) then Start(g, i, c - 1) else c
  }

  /** The last column of the run of digits through column c of row i. */
  function RunEnd(g: Grid, i: nat, c: nat): (e: nat)
    requires i < |g| && IsDig(g, i, c)
    ensures c <= e < |g[i]| && !IsDig(g, i, e + 1)
    ensures forall k :: c <= k <= e ==> IsDig(g, i, k)
    decreases |g[i]| - c
  {
    if IsDig(g, i, c + 1) then RunEnd(g, i, c + 1) else c
  }

  lemma {:induction false} RunEndSame(g: Grid, i: nat, a: nat, c: nat)
    requires i < |g| && a <= c
    requires forall k :: a <= k <= c ==> IsDig(g, i, k)
    ensures RunEnd(g, i, a) == RunEnd(g, i, c)
    decreases c - a
  {
    if a < c {
      RunEndSame(g, i, a + 1, c);
    }
  }

  /** The decimal number written by the digits in columns [a, b) of a row. */
  function Value(g: Grid, i: nat, a: nat, b: nat): nat
    requires i < |g| && a <= b <= |g[i]|
    requires forall k :: a <= k < b ==> IsDig(g, i, k)
  {
    if a == b then 0
    else assert IsDig(g, i, b - 1); 10 * Value(g, i, a, b - 1) + g[i][b - 1].n
  }

  /** What the scan has seen of the run starting at s, up to column c: a
      symbol left of it, above or below the column left of it, or above or
      below one of its columns. */
  predicate PartialPart(g: Grid, i: int, s: int, c: int)
  {
    Sym(g, i, s - 1) || Near(g, i, s - 1) || AnyNear(g, i, s, c)
  }

  /** The run in columns [s, e] of row i touches a symbol. */
  predicate Part(g: Grid, i: int, s: int, e: int)
  {
    PartialPart(g, i, s, e) || Sym(g, i, e + 1) || Near(g, i, e + 1)
  }

  /** A symbol in the 3-row box around columns [s, e] of row i. */
  predicate Adjacent(g: Grid, i: int, s: int, e: int)
  {
    exists r, c :: i - 1 <= r <= i + 1 && s - 1 <= c <= e + 1 && Sym(g, r, c)
  }

  lemma PartIsAdjacent(g: Grid, i: nat, s: nat, e: nat)
    requires i < |g| && s <= e
    requires forall k :: s <= k <= e ==> IsDig(g, i, k)
    ensures Part(g, i, s, e) <==> Adjacent(g, i, s, e)
  {
    AnyNearIff(g, i, s, e);
    assert forall k :: s <= k <= e ==> !Sym(g, i, k) by {
      forall k | s <= k <= e ensures !Sym(g, i, k) {
        assert IsDig(g, i, k);
      }
    }
    if Adjacent(g, i, s, e) {
      var r, c :| i - 1 <= r <= i + 1 && s - 1 <= c <= e + 1 && Sym(g, r, c);
      if r != i && s <= c <= e {
        assert Near(g, i, c);
      }
    }
  }

  // ---------------------------------------------------------------------
  // The reference answer of part one
  // ---------------------------------------------------------------------

  /** The value of the run starting at s when it is a part number, else 0. */
  function RunValue(g: Grid, i: nat, s: nat): nat
    requires i < |g| && IsDig(g, i, s)
  {
    var e := RunEnd(g, i, s);
    if Part(g, i, s, e) then Value(g, i, s, e + 1) else 0
  }

  /** The part numbers of row i whose run starts at column j or later. */
  function RowParts(g: Grid, i: nat, j: nat): nat
    requires i < |g|
    decreases |g[i]| - j
  {
    if j >= |g[i]| then 0
    else
      var here := if IsDig(g, i, j) && !IsDig(g, i, j - 1) then RunValue(g, i, j) else 0;
      here + RowParts(g, i, j + 1)
  }

  /** The sum of the part numbers of the first k rows. */
  function PartNumbers(g: Grid, k: nat): nat
    requires k <= |g|
  {
    if k == 0 then 0 else PartNumbers(g, k - 1) + RowParts(g, k - 1, 0)
  }

  // ---------------------------------------------------------------------
  // The scan of part one
  // ---------------------------------------------------------------------

  /** The scan's variables: total, is_part_number, current_number. */
  datatype Scan = Scan(total: nat, isPart: bool, current: nat)

  const Fresh := Scan(0, false, 0)

  /** One cell of the scan, as the source's loop body treats it. */
  function Step(g: Grid, st: Scan, i: nat, j: nat): Scan
    requires i < |g| && j < |g[i]|
  {
    match g[i][j]
    case Digit(n) =>
      var current := st.current * 10 + n;
      if st.isPart then Scan(st.total, true, current)
      else
        var first := current == n;
        var found := Sym(g, i - 1, j) || Sym(g, i, j - 1) || Sym(g, i + 1, j)
          || (first && (Sym(g, i - 1, j - 1) || Sym(g, i + 1, j - 1)));
        Scan(st.total, found, current)
    case _ =>
      var part := g[i][j] == Symbol || st.isPart || (st.current != 0 && Near(g, i, j));
      Scan(st.total + (if part then st.current else 0), false, 0)
  }

  /** The scan state after the first j cells of row i, starting from st. */
  function RowScan(g: Grid, i: nat, st: Scan, j: nat): Scan
    requires i < |g| && j <= |g[i]|
  {
    if j == 0 then st else Step(g, RowScan(g, i, st, j - 1), i, j - 1)
  }

  /** The scan state after the first k rows, carried from row to row as the
      source carries it. */
  function Scanned(g: Grid, k: nat): Scan
    requires k <= |g|
  {
    if k == 0 then Fresh else RowScan(g, k - 1, Scanned(g, k - 1), |g[k - 1]|)
  }

  /** The number still being read at the end of a row is settled there. */
  function Flush(st: Scan): Scan
  {
    Scan(st.total + (if st.isPart then st.current else 0), false, 0)
  }

  /** The scan with every row settled at its end. */
  function Settled(g: Grid, k: nat): Scan
    requires k <= |g|
  {
    if k == 0 then Fresh else Flush(RowScan(g, k - 1, Settled(g, k - 1), |g[k - 1]|))
  }

  /** What the scan of row i knows after j cells, with base the total the
      row started from. */
  predicate RowInv(g: Grid, i: nat, base: nat, st: Scan, j: nat)
    requires i < |g| && j <= |g[i]|
  {
    if IsDig(g, i, j - 1) then
      var s := Start(g, i, j - 1);
      st.current == Value(g, i, s, j)
      && (st.isPart <==> PartialPart(g, i, s, j - 1))
      && st.total + RunValue(g, i, s) + RowParts(g, i, j) == base + RowParts(g, i, 0)
    else
      st.current == 0 && !st.isPart && st.total + RowParts(g, i, j) == base + RowParts(g, i, 0)
  }

  lemma StepKeepsRowInv(g: Grid, i: nat, base: nat, st: Scan, j: nat)
    requires i < |g| && j < |g[i]|
    requires RowInv(g, i, base, st, j)
    ensures RowInv(g, i, base, Step(g, st, i, j), j + 1)
  {
    if !g[i][j].Digit? {
      StepLeavesRun(g, i, base, st, j);
    } else if IsDig(g, i, j - 1) {
      StepExtendsRun(g, i, base, st, j);
    } else {
      StepOpensRun(g, i, base, st, j);
    }
  }

  /** StepKeepsRowInv at a digit that continues the number before it. */
  lemma StepExtendsRun(g: Grid, i: nat, base: nat, st: Scan, j: nat)
    requires i < |g| && j < |g[i]| && g[i][j].Digit? && IsDig(g, i, j - 1)
    requires RowInv(g, i, base, st, j)
    ensures RowInv(g, i, base, Step(g, st, i, j), j + 1)
  {
    assert IsDig(g, i, j);
    var n := g[i][j].n;
    var s := Start(g, i, j - 1);
    assert Start(g, i, j) == s;
    assert AnyNear(g, i, s, j) == (Near(g, i, j) || AnyNear(g, i, s, j - 1));
    assert !Sym(g, i, j - 1);
    if !st.isPart && st.current * 10 + n == n {
      assert AnyNear(g, i, s, j - 1) == (Near(g, i, j - 1) || AnyNear(g, i, s, j - 2));
    }
    RunEndSame(g, i, s, j);
  }

  /** StepKeepsRowInv at a digit that begins a number. */
  lemma StepOpensRun(g: Grid, i: nat, base: nat, st: Scan, j: nat)
    requires i < |g| && j < |g[i]| && g[i][j].Digit? && !IsDig(g, i, j - 1)
    requires RowInv(g, i, base, st, j)
    ensures RowInv(g, i, base, Step(g, st, i, j), j + 1)
  {
    assert IsDig(g, i, j);
    assert Start(g, i, j) == j;
    assert AnyNear(g, i, j, j) == (Near(g, i, j) || AnyNear(g, i, j, j - 1));
  }

  /** StepKeepsRowInv at a cell that is not a digit. */
  lemma StepLeavesRun(g: Grid, i: nat, base: nat, st: Scan, j: nat)
    requires i < |g| && j < |g[i]| && !g[i][j].Digit?
    requires RowInv(g, i, base, st, j)
    ensures RowInv(g, i, base, Step(g, st, i, j), j + 1)
  {
    assert !IsDig(g, i, j);
    if IsDig(g, i, j - 1) {
      var s := Start(g, i, j - 1);
      RunEndSame(g, i, s, j - 1);
      assert RunEnd(g, i, s) == j - 1;
      assert Sym(g, i, j) <==> g[i][j] == Symbol;
    }
  }

  lemma {:induction false} RowScanInv(g: Grid, i: nat, st: Scan, j: nat)
    requires i < |g| && j <= |g[i]|
    requires st.current == 0 && !st.isPart
    ensures RowInv(g, i, st.total, RowScan(g, i, st, j), j)
  {
    if j > 0 {
      RowScanInv(g, i, st, j - 1);
      StepKeepsRowInv(g, i, st.total, RowScan(g, i, st, j - 1), j - 1);
    }
  }

  /** Settling a row at its end adds exactly the row's part numbers. */
  lemma RowSettles(g: Grid, i: nat, st: Scan)
    requires Rectangular(g) && i < |g|
    requires st.current == 0 && !st.isPart
    ensures Flush(RowScan(g, i, st, |g[i]|)) == Scan(st.total + RowParts(g, i, 0), false, 0)
  {
    var w := |g[i]|;
    RowScanInv(g, i, st, w);
    if IsDig(g, i, w - 1) {
      var s := Start(g, i, w - 1);
      RunEndSame(g, i, s, w - 1);
      assert !Near(g, i, w);
    }
  }

  /** Settled at each row's end, the scan counts every part number once. */
  lemma {:induction false} SettledCountsParts(g: Grid, k: nat)
    requires Rectangular(g) && k <= |g|
    ensures Settled(g, k) == Scan(PartNumbers(g, k), false, 0)
  {
    if k > 0 {
      SettledCountsParts(g, k - 1);
      RowSettles(g, k - 1, Settled(g, k - 1));
    }
  }

  /** No row ends in the middle of a number. */
  predicate RowsEndOffNumbers(g: Grid)
  {
    forall i :: 0 <= i < |g| && |g[i]| > 0 ==> !g[i][|g[i]| - 1].Digit?
  }

  /** When no number reaches the right edge, the scan as written never
      carries a number from one row to the next. */
  lemma {:induction false} CarriedIsSettled(g: Grid, k: nat)
    requires Rectangular(g) && RowsEndOffNumbers(g) && k <= |g|
    ensures Scanned(g, k) == Settled(g, k)
  {
    if k > 0 {
      CarriedIsSettled(g, k - 1);
      SettledCountsParts(g, k - 1);
      var w := |g[k - 1]|;
      RowScanInv(g, k - 1, Settled(g, k - 1), w);
      assert !IsDig(g, k - 1, w - 1);
    }
  }

  /** The answer of part one as the source computes it. */
  function PartOneAnswer(g: Grid): nat
  {
    Scanned(g, |g|).total
  }

  /** The intended answer: every number touching a symbol, counted once. */
  function SettledAnswer(g: Grid): (total: nat)
    requires Rectangular(g)
    ensures total == PartNumbers(g, |g|)
  {
    SettledCountsParts(g, |g|);
    Settled(g, |g|).total
  }

  lemma PartOneCountsParts(g: Grid)
    requires Rectangular(g) && RowsEndOffNumbers(g)
    ensures PartOneAnswer(g) == PartNumbers(g, |g|)
  {
    CarriedIsSettled(g, |g|);
    SettledCountsParts(g, |g|);
  }

  /** The schematic ".1" over "2*": the as-written scan reads 1 and 2 as the
      single number 12, where the part numbers are 1 and 2. */
  lemma CarriedAcrossRows()
    ensures var g := [[Dot, Digit(1)], [Digit(2), Symbol]];
      PartOneAnswer(g) == 12 && PartNumbers(g, 2) == 3
  {
    var g := [[Dot, Digit(1)], [Digit(2), Symbol]];
    assert Sym(g, 1, 1);
    assert RowScan(g, 0, Fresh, 2) == Scan(0, true, 1);
    assert Scanned(g, 1) == Scan(0, true, 1);
    assert RowScan(g, 1, Scan(0, true, 1), 1) == Scan(0, true, 12);
    assert Scanned(g, 2) == Scan(12, false, 0);
    assert RunEnd(g, 0, 1) == 1;
    assert Near(g, 0, 1);
    assert RowParts(g, 0, 0) == 1;
    assert RunEnd(g, 1, 0) == 0;
    assert RowParts(g, 1, 0) == 2;
  }

  /** The loop body of part one, on cell (i, j). */
  method ScanCell(g: Grid, i: nat, j: nat, total0: nat, isPart0: bool, current0: nat)
    returns (total: nat, isPart: bool, current: nat)
    requires Rectangular(g) && i < |g| && j < |g[i]|
    ensures Scan(total, isPart, current) == Step(g, Scan(total0, isPart0, current0), i, j)
  {
    total, isPart, current := total0, isPart0, current0;
    if g[i][j].Digit? {
      var num := g[i][j].n;
      current := current * 10 + num;
      if !isPart {
        var above := i > 0 && g[i - 1][j] == Symbol;
        var left := j > 0 && g[i][j - 1] == Symbol;
        var below := i < |g| - 1 && g[i + 1][j] == Symbol;
        var aboveLeft, belowLeft := false, false;
        if current == num {
          aboveLeft := i > 0 && j > 0 && g[i - 1][j - 1] == Symbol;
          belowLeft := i < |g| - 1 && j > 0 && g[i + 1][j - 1] == Symbol;
        }
        if above || left || below || aboveLeft || belowLeft {
          isPart := true;
        }
      }
    } else {
      if g[i][j] == Symbol {
        isPart := true;
      } else if current != 0 {
        var above := i > 0 && g[i - 1][j] == Symbol;
        var below := i < |g| - 1 && g[i + 1][j] == Symbol;
        if above || below {
          isPart := true;
        }
      }
      if isPart {
        total := total + current;
      }
      isPart := false;
      current := 0;
    }
  }

  method PartOne(input: string) returns (total: nat)
    requires Rectangular(ParseInputPart1(input))
    ensures total == PartOneAnswer(ParseInputPart1(input))
    ensures RowsEndOffNumbers(ParseInputPart1(input)) ==>
      total == PartNumbers(ParseInputPart1(input), |ParseInputPart1(input)|)
  {
    var g := ParseInputPart1(input);
    total := ScanGrid(g);
    if RowsEndOffNumbers(g) {
      PartOneCountsParts(g);
    }
  }

  /** The two loops of `part_one` over the classified grid. */
  method ScanGrid(g: Grid) returns (total: nat)
    requires Rectangular(g)
    ensures total == PartOneAnswer(g)
  {
    total := 0;
    var isPart := false;
    var current: nat := 0;
    for i := 0 to |g|
      invariant Scan(total, isPart, current) == Scanned(g, i)
    {
      for j := 0 to |g[i]|
        invariant Scan(total, isPart, current) == RowScan(g, i, Scanned(g, i), j)
      {
        total, isPart, current := ScanCell(g, i, j, total, isPart, current);
      }
    }
  }

  // ---------------------------------------------------------------------
  // Part two: gears
  // ---------------------------------------------------------------------

  /** A cell of the part-two grid. */
  datatype GearboxCharacter = GDigit(n: nat) | Star | Misc

  function ClassifyGear(c: char): (r: GearboxCharacter)
    ensures r.GDigit? <==> IsDigit(c)
    ensures r.GDigit? ==> r.n == DigitValue(c)
    ensures r == Star <==> c == '*'
  {
    if IsDigit(c) then MaskIsDigitValue(c); GDigit(MaskLow(c))
    else if c == '*' then Star
    else Misc
  }

  type Row = seq<GearboxCharacter>

  function ClassifyGearLine(line: string): (row: Row)
    ensures |row| == |line|
    ensures forall j :: 0 <= j < |line| ==> row[j] == ClassifyGear(line[j])
  {
    if line == [] then [] else ClassifyGearLine(line[..|line| - 1]) + [ClassifyGear(line[|line| - 1])]
  }

  /** The part-two grid: one row per line of the input. */
  function ParseInputPart2(input: string): (g: seq<Row>)
    ensures |g| == |Lines(input)|
    ensures forall i, j :: 0 <= i < |g| && 0 <= j < |Lines(input)[i]| ==>
      |g[i]| == |Lines(input)[i]| && g[i][j] == ClassifyGear(Lines(input)[i][j])
  {
    var ls := Lines(input);
    seq(|ls|, i requires 0 <= i < |ls| => ClassifyGearLine(ls[i]))
  }

  predicate RectangularRows(g: seq<Row>)
  {
    forall i :: 0 <= i < |g| ==> |g[i]| == |g[0]|
  }

  /** No '*' in the first row or column: the source steps one row up and one
      column left of each '*' with unsigned arithmetic. */
  predicate StarsInside(g: seq<Row>)
  {
    forall i, j :: 0 <= i < |g| && 0 <= j < |g[i]| && g[i][j] == Star ==> 0 < i && 0 < j
  }

  predicate IsD(row: Row, c: int)
  {
    0 <= c < |row| && row[c].GDigit?
  }

  predicate IsRunStart(row: Row, s: int)
  {
    IsD(row, s) && !IsD(row, s - 1)
  }

  /** The first column of the run of digits through column c. */
  function RowStart(row: Row, c: nat): (s: nat)
    requires IsD(row, c)
    ensures s <= c && IsRunStart(row, s)
    ensures forall k :: s <= k <= c ==> IsD(row, k)
  {
    if c > 0 && IsD(row, c - 1) then RowStart(row, c - 1) else c
  }

  /** The last column of the run of digits through column c. */
  function RowEnd(row: Row, c: nat): (e: nat)
    requires IsD(row, c)
    ensures c <= e < |row| && !IsD(row, e + 1)
    ensures forall k :: c <= k <= e ==> IsD(row, k)
    decreases |row| - c
  {
    if IsD(row, c + 1) then RowEnd(row, c + 1) else c
  }

  lemma {:induction false} RowEndSame(row: Row, a: nat, c: nat)
    requires a <= c
    requires forall k :: a <= k <= c ==> IsD(row, k)
    ensures RowEnd(row, a) == RowEnd(row, c)
    decreases c - a
  {
    if a < c {
      RowEndSame(row, a + 1, c);
    }
  }

  lemma {:induction false} RowStartSame(row: Row, s: nat, c: nat)
    requires IsRunStart(row, s) && s <= c <= RowEnd(row, s)
    ensures RowStart(row, c) == s
    decreases c - s
  {
    if s < c {
      RowStartSame(row, s, c - 1);
    }
  }

  /** The decimal number written by the digits in columns [a, b). */
  function Number(row: Row, a: nat, b: nat): nat
    requires a <= b <= |row|
    requires forall k :: a <= k < b ==> IsD(row, k)
  {
    if a == b then 0
    else assert IsD(row, b - 1); 10 * Number(row, a, b - 1) + row[b - 1].n
  }

  /** find_complete_number: the run of digits through column i, read as a
      decimal number. */
  method FindCompleteNumber(row: Row, i: nat) returns (number: nat, minI: nat, maxI: nat)
    requires i < |row| && row[i].GDigit?
    ensures minI <= i <= maxI < |row|
    ensures forall k :: minI <= k <= maxI ==> IsD(row, k)
    ensures !IsD(row, minI - 1) && !IsD(row, maxI + 1)
    ensures minI == RowStart(row, i) && maxI == RowEnd(row, i)
    ensures number == Number(row, minI, maxI + 1)
  {
    minI := i;
    while minI > 0 && row[minI - 1].GDigit?
      invariant minI <= i
      invariant forall k :: minI <= k <= i ==> IsD(row, k)
      invariant RowStart(row, minI) == RowStart(row, i)
    {
      minI := minI - 1;
    }
    maxI := i;
    while maxI < |row| - 1 && row[maxI + 1].GDigit?
      invariant i <= maxI < |row|
      invariant forall k :: i <= k <= maxI ==> IsD(row, k)
      invariant RowEnd(row, maxI) == RowEnd(row, i)
    {
      maxI := maxI + 1;
    }
    number := 0;
    for k := minI to maxI + 1
      invariant number == Number(row, minI, k)
    {
      assert IsD(row, k);
      number := number * 10 + row[k].n;
    }
  }

  /** The number whose run starts at column s. */
  function RunNumber(row: Row, s: nat): nat
  {
    if IsD(row, s) then Number(row, s, RowEnd(row, s) + 1) else 0
  }

  /** The numbers of the runs starting at the given columns. */
  function NumbersOf(row: Row, starts: seq<nat>): seq<nat>
  {
    if starts == [] then [] else [RunNumber(row, starts[0])] + NumbersOf(row, starts[1..])
  }

  /** The run starts among columns [a, b), left to right. */
  function StartsIn(row: Row, a: nat, b: nat): (ss: seq<nat>)
    ensures forall k :: 0 <= k < |ss| ==> a <= ss[k] < b && IsRunStart(row, ss[k])
    decreases b - a
  {
    if a >= b then [] else (if IsRunStart(row, a) then [a] else []) + StartsIn(row, a + 1, b)
  }

  /** The starts of the runs that reach into columns [lo, hi], left to right. */
  function Touching(row: Row, lo: nat, hi: int): (ss: seq<nat>)
    requires hi < |row|
  {
    if lo > hi then []
    else (if IsD(row, lo) then [RowStart(row, lo)] else []) + StartsIn(row, lo + 1, hi + 1)
  }

  lemma {:induction false} StartsInIff(row: Row, a: nat, b: nat, s: nat)
    ensures s in StartsIn(row, a, b) <==> a <= s < b && IsRunStart(row, s)
    decreases b - a
  {
    if a < b {
      StartsInIff(row, a + 1, b, s);
    }
  }

  lemma {:induction false} StartsInIncreasing(row: Row, a: nat, b: nat)
    ensures forall p, q :: 0 <= p < q < |StartsIn(row, a, b)| ==>
      StartsIn(row, a, b)[p] < StartsIn(row, a, b)[q]
    decreases b - a
  {
    if a < b {
      StartsInIncreasing(row, a + 1, b);
    }
  }

  /** Touching lists exactly the runs that meet columns [lo, hi]. */
  lemma TouchingIff(row: Row, lo: nat, hi: nat, s: nat)
    requires lo <= hi < |row|
    ensures s in Touching(row, lo, hi) <==> IsRunStart(row, s) && s <= hi && lo <= RowEnd(row, s)
  {
    StartsInIff(row, lo + 1, hi + 1, s);
    if IsD(row, lo) {
      RowEndSame(row, RowStart(row, lo), lo);
    }
    if IsRunStart(row, s) && s <= lo && lo <= RowEnd(row, s) {
      RowStartSame(row, s, lo);
    }
  }

  /** ... and lists each of them once. */
  lemma TouchingIncreasing(row: Row, lo: nat, hi: nat)
    requires hi < |row|
    ensures forall p, q :: 0 <= p < q < |Touching(row, lo, hi)| ==>
      Touching(row, lo, hi)[p] < Touching(row, lo, hi)[q]
  {
    StartsInIncreasing(row, lo + 1, hi + 1);
  }

  lemma {:induction false} StartsInSplit(row: Row, a: nat, b: nat, c: nat)
    requires a <= b <= c
    ensures StartsIn(row, a, c) == StartsIn(row, a, b) + StartsIn(row, b, c)
    decreases b - a
  {
    if a < b {
      StartsInSplit(row, a + 1, b, c);
    }
  }

  lemma {:induction false} NoStartsInRun(row: Row, a: nat, b: nat)
    requires 0 < a
    requires forall k :: a - 1 <= k < b ==> IsD(row, k)
    ensures StartsIn(row, a, b) == []
    decreases b - a
  {
    if a < b {
      assert IsD(row, a - 1);
      NoStartsInRun(row, a + 1, b);
    }
  }

  /** The starts of the runs the loop of part two visits from column lj,
      jumping past each run it meets. */
  function Jump(row: Row, lj: nat, hi: int): (ss: seq<nat>)
    requires hi < |row|
    decreases |row| - lj
  {
    if lj > hi then []
    else if IsD(row, lj) then [RowStart(row, lj)] + Jump(row, RowEnd(row, lj) + 1, hi)
    else Jump(row, lj + 1, hi)
  }

  /** Past a run that ends beyond hi, nothing more reaches into the window. */
  lemma RunPastWindow(row: Row, lj: nat, hi: int)
    requires hi < |row| && lj <= hi && IsD(row, lj) && hi < RowEnd(row, lj) + 1
    ensures Touching(row, lj, hi) == [RowStart(row, lj)]
  {
    NoStartsInRun(row, lj + 1, hi + 1);
  }

  /** A run that ends inside the window: the next start is past its end. */
  lemma RunInWindow(row: Row, lj: nat, hi: int)
    requires hi < |row| && lj <= hi && IsD(row, lj) && RowEnd(row, lj) + 1 <= hi
    ensures Touching(row, lj, hi) == [RowStart(row, lj)] + Touching(row, RowEnd(row, lj) + 1, hi)
  {
    var e := RowEnd(row, lj);
    var mid := StartsIn(row, e + 1, hi + 1);
    NoStartsInRun(row, lj + 1, e + 1);
    StartsInSplit(row, lj + 1, e + 1, hi + 1);
    assert StartsIn(row, lj + 1, hi + 1) == mid;
    SkipNonStart(row, e + 1, hi + 1);
    TouchingGap(row, e + 1, hi);
    assert Touching(row, lj, hi) == [RowStart(row, lj)] + StartsIn(row, lj + 1, hi + 1);
  }

  lemma SkipNonStart(row: Row, a: nat, b: nat)
    requires a < b && !IsRunStart(row, a)
    ensures StartsIn(row, a, b) == StartsIn(row, a + 1, b)
  {
    assert StartsIn(row, a, b) == [] + StartsIn(row, a + 1, b);
  }

  lemma TouchingGap(row: Row, lo: nat, hi: int)
    requires lo <= hi < |row| && !IsD(row, lo)
    ensures Touching(row, lo, hi) == StartsIn(row, lo + 1, hi + 1)
  {
    assert Touching(row, lo, hi) == [] + StartsIn(row, lo + 1, hi + 1);
  }

  /** A column outside every run: the next column starts afresh. */
  lemma GapInWindow(row: Row, lj: nat, hi: int)
    requires hi < |row| && lj <= hi && !IsD(row, lj)
    ensures Touching(row, lj, hi) == Touching(row, lj + 1, hi)
  {
    if IsD(row, lj + 1) {
      assert RowStart(row, lj + 1) == lj + 1;
    }
  }

  lemma {:induction false} JumpIsTouching(row: Row, lj: nat, hi: int)
    requires hi < |row|
    ensures Jump(row, lj, hi) == Touching(row, lj, hi)
    decreases |row| - lj
  {
    if lj <= hi {
      if IsD(row, lj) {
        JumpIsTouching(row, RowEnd(row, lj) + 1, hi);
        JumpRunCase(row, lj, hi);
      } else {
        JumpIsTouching(row, lj + 1, hi);
        JumpGapCase(row, lj, hi);
      }
    }
  }

  lemma JumpRunCase(row: Row, lj: nat, hi: int)
    requires lj <= hi < |row| && IsD(row, lj)
    requires Jump(row, RowEnd(row, lj) + 1, hi) == Touching(row, RowEnd(row, lj) + 1, hi)
    ensures Jump(row, lj, hi) == Touching(row, lj, hi)
  {
    JumpAtRun(row, lj, hi);
    if RowEnd(row, lj) + 1 > hi {
      RunPastWindow(row, lj, hi);
    } else {
      RunInWindow(row, lj, hi);
    }
  }

  lemma JumpAtRun(row: Row, lj: nat, hi: int)
    requires lj <= hi < |row| && IsD(row, lj)
    ensures Jump(row, lj, hi) == [RowStart(row, lj)] + Jump(row, RowEnd(row, lj) + 1, hi)
    ensures RowEnd(row, lj) + 1 > hi ==> Jump(row, RowEnd(row, lj) + 1, hi) == []
  {
  }

  lemma JumpGapCase(row: Row, lj: nat, hi: int)
    requires lj <= hi < |row| && !IsD(row, lj)
    requires Jump(row, lj + 1, hi) == Touching(row, lj + 1, hi)
    ensures Jump(row, lj, hi) == Touching(row, lj, hi)
  {
    assert Jump(row, lj, hi) == Jump(row, lj + 1, hi);
    GapInWindow(row, lj, hi);
  }

  /** The product of exactly two numbers; anything else is not a gear. */
  function GearRatio(ns: seq<nat>): nat
  {
    if |ns| == 2 then ns[0] * ns[1] else 0
  }

  /** The numbers adjacent to a gear, as the source's PotentialGear keeps
      them; added is every number offered so far. */
  class PotentialGear {
    var couldBeGear: bool
    var num1: Option<nat>
    var num2: Option<nat>
    ghost var added: seq<nat>

    ghost predicate Valid()
      reads this
    {
      couldBeGear == (|added| <= 2)
      && num1 == (if |added| >= 1 then Some(added[0]) else None)
      && num2 == (if |added| >= 2 then Some(added[1]) else None)
    }

    constructor ()
      ensures Valid() && added == []
    {
      couldBeGear := true;
      num1 := None;
      num2 := None;
      added := [];
    }

    /** Products of more than two numbers are 0. */
    function Ratio(): (r: nat)
      requires Valid()
      reads this
      ensures r == GearRatio(added)
    {
      if couldBeGear && num1.Some? && num2.Some? then num1.value * num2.value else 0
    }

    method AddAdjacentNumber(number: nat)
      requires Valid()
      modifies this
      ensures Valid() && added == old(added) + [number]
    {
      added := added + [number];
      if !couldBeGear {
        return;
      }
      if num1.None? {
        num1 := Some(number);
      } else if num2.None? {
        num2 := Some(number);
      } else {
        couldBeGear := false;
      }
    }
  }

  /** The numbers met in rows [first, r) around a '*', columns [lo, hi]. */
  function AroundRows(g: seq<Row>, first: nat, r: nat, lo: nat, hi: nat): seq<nat>
    requires first <= r <= |g| && 0 < |g| && RectangularRows(g) && hi < |g[0]|
  {
    if r == first then []
    else AroundRows(g, first, r - 1, lo, hi) + NumbersOf(g[r - 1], Touching(g[r - 1], lo, hi))
  }

  function Minimum(a: nat, b: nat): nat
  {
    if a <= b then a else b
  }

  /** The numbers touching the 3 by 3 box around the '*' at (i, j). */
  function Around(g: seq<Row>, i: nat, j: nat): seq<nat>
    requires RectangularRows(g) && 0 < i < |g| && 0 < j < |g[i]|
  {
    AroundRows(g, i - 1, Minimum(i + 1, |g| - 1) + 1, j - 1, Minimum(j + 1, |g[i]| - 1))
  }

  /** The ratio of the gear at (i, j), 0 when the cell is not a gear. */
  function StarValue(g: seq<Row>, i: nat, j: nat): nat
    requires RectangularRows(g) && StarsInside(g) && i < |g| && j < |g[i]|
  {
    if g[i][j] == Star then GearRatio(Around(g, i, j)) else 0
  }

  /** The gear ratios of the first j cells of row i. */
  function RowGears(g: seq<Row>, i: nat, j: nat): nat
    requires RectangularRows(g) && StarsInside(g) && i < |g| && j <= |g[i]|
  {
    if j == 0 then 0 else RowGears(g, i, j - 1) + StarValue(g, i, j - 1)
  }

  /** The gear ratios of the first k rows. */
  function Gears(g: seq<Row>, k: nat): nat
    requires RectangularRows(g) && StarsInside(g) && k <= |g|
  {
    if k == 0 then 0 else Gears(g, k - 1) + RowGears(g, k - 1, |g[k - 1]|)
  }

  /** Offers the gear each number of row that reaches into [lo, hi]. */
  method AddRowNumbers(gear: PotentialGear, row: Row, lo: nat, hi: nat)
    requires gear.Valid() && lo <= hi < |row|
    modifies gear
    ensures gear.Valid() && gear.added == old(gear.added) + NumbersOf(row, Touching(row, lo, hi))
  {
    JumpIsTouching(row, lo, hi);
    var lj := lo;
    while lj <= hi
      invariant gear.Valid() && lj <= |row|
      invariant gear.added + NumbersOf(row, Jump(row, lj, hi)) == old(gear.added) + NumbersOf(row, Jump(row, lo, hi))
      decreases |row| - lj
    {
      lj := ScanStep(gear, row, lj, hi);
    }
  }

  /** One pass of the loop of `AddRowNumbers`: a digit offers its whole
      number and moves past it, anything else moves one column on. */
  method ScanStep(gear: PotentialGear, row: Row, lj: nat, hi: nat) returns (next: nat)
    requires gear.Valid() && lj <= hi < |row|
    modifies gear
    ensures lj < next <= |row| && gear.Valid()
    ensures gear.added + NumbersOf(row, Jump(row, next, hi)) == old(gear.added) + NumbersOf(row, Jump(row, lj, hi))
  {
    if row[lj].GDigit? {
      ghost var number := RunNumber(row, RowStart(row, lj));
      var newMax := OfferRun(gear, row, lj);
      JumpOverRun(row, lj, hi);
      OfferFirst(old(gear.added), number, NumbersOf(row, Jump(row, newMax + 1, hi)));
      next := newMax + 1;
    } else {
      assert Jump(row, lj, hi) == Jump(row, lj + 1, hi);
      next := lj + 1;
    }
  }

  /** Reads the whole number through column lj and offers it to the gear;
      the scan resumes after the number's last column. */
  method OfferRun(gear: PotentialGear, row: Row, lj: nat) returns (newMax: nat)
    requires gear.Valid() && lj < |row| && IsD(row, lj)
    modifies gear
    ensures newMax == RowEnd(row, lj)
    ensures gear.Valid() && gear.added == old(gear.added) + [RunNumber(row, RowStart(row, lj))]
  {
    var number, minI, maxI := FindCompleteNumber(row, lj);
    RowEndSame(row, minI, lj);
    newMax := maxI;
    gear.AddAdjacentNumber(number);
  }

  lemma OfferFirst(before: seq<nat>, number: nat, after: seq<nat>)
    ensures (before + [number]) + after == before + ([number] + after)
  {
  }

  /** A number of the window is offered once, and the scan resumes after it. */
  lemma JumpOverRun(row: Row, lj: nat, hi: nat)
    requires lj <= hi < |row| && IsD(row, lj)
    ensures NumbersOf(row, Jump(row, lj, hi))
      == [RunNumber(row, RowStart(row, lj))] + NumbersOf(row, Jump(row, RowEnd(row, lj) + 1, hi))
  {
    var tail := Jump(row, RowEnd(row, lj) + 1, hi);
    assert Jump(row, lj, hi) == [RowStart(row, lj)] + tail;
    assert ([RowStart(row, lj)] + tail)[1..] == tail;
  }

  /** The '*' at (i, j): its gear ratio. */
  method GearAt(g: seq<Row>, i: nat, j: nat) returns (ratio: nat)
    requires RectangularRows(g) && 0 < i < |g| && 0 < j < |g[i]|
    ensures ratio == GearRatio(Around(g, i, j))
  {
    var gear := new PotentialGear();
    var maxJ := Minimum(j + 1, |g[i]| - 1);
    var last := Minimum(i + 1, |g| - 1);
    assert |g[i]| == |g[0]|;
    for r := i - 1 to last + 1
      invariant gear.Valid() && gear.added == AroundRows(g, i - 1, r, j - 1, maxJ)
    {
      assert |g[r]| == |g[0]|;
      AddRowNumbers(gear, g[r], j - 1, maxJ);
    }
    assert gear.added == Around(g, i, j);
    ratio := gear.Ratio();
  }

  method PartTwo(input: string) returns (total: nat)
    requires RectangularRows(ParseInputPart2(input)) && StarsInside(ParseInputPart2(input))
    ensures total == Gears(ParseInputPart2(input), |ParseInputPart2(input)|)
  {
    var g := ParseInputPart2(input);
    total := 0;
    for i := 0 to |g|
      invariant total == Gears(g, i)
    {
      for j := 0 to |g[i]|
        invariant total == Gears(g, i) + RowGears(g, i, j)
      {
        if g[i][j] == Star {
          var ratio := GearAt(g, i, j);
          total := total + ratio;
        }
      }
    }
  }
}
