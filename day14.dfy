/**
 * Day 14, parabolic reflector dish: round rocks ('O') roll on a platform
 * of cube rocks ('#') and empty cells ('.'). Part one tilts the platform
 * north and measures the load on the north beams; part two spins it
 * through cycles of four tilts (north, west, south, east), finds the first
 * repeated state and jumps to the billionth cycle.
 */
module Day14 {
  import opened Wrappers

  datatype Cell = RoundRock | CubeRock | Empty

  type Board = seq<seq<Cell>>

  /** The parse of one character; None where the source is unreachable. */
  function CellOf(c: char): (r: Option<Cell>)
    ensures r.Some? <==> c == 'O' || c == '#' || c == '.'
  {
    if c == 'O' then Some(RoundRock)
    else if c == '#' then Some(CubeRock)
    else if c == '.' then Some(Empty)
    else None
  }

  function CharOf(cell: Cell): char {
    match cell
    case RoundRock => 'O'
    case CubeRock => '#'
    case Empty => '.'
  }

  function ParseLine(line: string): (r: Option<seq<Cell>>)
    ensures r.Some? <==> forall k :: 0 <= k < |line| ==> CellOf(line[k]).Some?
    ensures r.Some? ==> |r.value| == |line| && forall k :: 0 <= k < |line| ==> Some(r.value[k]) == CellOf(line[k])
  {
    if forall k :: 0 <= k < |line| ==> CellOf(line[k]).Some? then
      Some(seq(|line|, k requires 0 <= k < |line| => CellOf(line[k]).value))
    else None
  }

  /** The board of the input lines, one row per line. */
  function ParseBoard(lines: seq<string>): (r: Option<Board>)
    ensures r.Some? <==> forall i :: 0 <= i < |lines| ==> ParseLine(lines[i]).Some?
    ensures r.Some? ==> |r.value| == |lines| && forall i :: 0 <= i < |lines| ==> Some(r.value[i]) == ParseLine(lines[i])
  {
    if forall i :: 0 <= i < |lines| ==> ParseLine(lines[i]).Some? then
      Some(seq(|lines|, i requires 0 <= i < |lines| => ParseLine(lines[i]).value))
    else None
  }

  function FormatLine(row: seq<Cell>): string {
    seq(|row|, k requires 0 <= k < |row| => CharOf(row[k]))
  }

  /** Reading back a printed board gives the board. */
  lemma ParseFormatBoard(b: Board)
    ensures ParseBoard(seq(|b|, i requires 0 <= i < |b| => FormatLine(b[i]))) == Some(b)
  {
    var lines := seq(|b|, i requires 0 <= i < |b| => FormatLine(b[i]));
    forall i | 0 <= i < |b|
      ensures ParseLine(lines[i]) == Some(b[i])
    {
      ParseFormatLine(b[i]);
    }
    var r := ParseBoard(lines);
    assert r.Some?;
    assert forall i :: 0 <= i < |b| ==> r.value[i] == b[i];
    assert r.value == b;
  }

  lemma ParseFormatLine(row: seq<Cell>)
    ensures ParseLine(FormatLine(row)) == Some(row)
  {
    var l := FormatLine(row);
    assert forall k :: 0 <= k < |l| ==> CellOf(l[k]) == Some(row[k]);
    var r := ParseLine(l);
    assert r.Some?;
    assert forall k :: 0 <= k < |l| ==> r.value[k] == row[k];
    assert r.value == row;
  }

  // One line: the cells of a column read top to bottom, or of a row read
  // left to right. A stretch is a maximal run of cells without a cube rock.

  /** The number of round rocks among the cells `lo` to `hi` - 1. */
  function CountRounds(line: seq<Cell>, lo: nat, hi: nat): (n: nat)
    requires hi <= |line|
    ensures lo <= hi ==> n <= hi - lo
    decreases hi
  {
    if hi <= lo then 0
    else CountRounds(line, lo, hi - 1) + (if line[hi - 1] == RoundRock then 1 else 0)
  }

  function Rounds(line: seq<Cell>): nat {
    CountRounds(line, 0, |line|)
  }

  lemma {:induction false} CountSplit(line: seq<Cell>, lo: nat, mid: nat, hi: nat)
    requires lo <= mid <= hi <= |line|
    ensures CountRounds(line, lo, hi) == CountRounds(line, lo, mid) + CountRounds(line, mid, hi)
    decreases hi
  {
    if hi > mid {
      CountSplit(line, lo, mid, hi - 1);
    }
  }

  /** Where the stretch holding cell `j` starts: just after the last cube
      rock before `j`, or 0. */
  function StretchStart(line: seq<Cell>, j: nat): (s: nat)
    requires j <= |line|
    ensures s <= j && (s > 0 ==> line[s - 1] == CubeRock)
    decreases j
  {
    if j == 0 then 0
    else if line[j - 1] == CubeRock then j
    else StretchStart(line, j - 1)
  }

  /** Where the stretch holding cell `j` ends: at the first cube rock from
      `j` on, or the length. */
  function StretchEnd(line: seq<Cell>, j: nat): (e: nat)
    requires j <= |line|
    ensures j <= e <= |line| && (e < |line| ==> line[e] == CubeRock)
    decreases |line| - j
  {
    if j == |line| then j
    else if line[j] == CubeRock then j
    else StretchEnd(line, j + 1)
  }

  lemma {:induction false} StartClear(line: seq<Cell>, j: nat)
    requires j <= |line|
    ensures forall k :: StretchStart(line, j) <= k < j ==> line[k] != CubeRock
    decreases j
  {
    if j > 0 && line[j - 1] != CubeRock {
      StartClear(line, j - 1);
    }
  }

  lemma {:induction false} EndClear(line: seq<Cell>, j: nat)
    requires j <= |line|
    ensures forall k :: j <= k < StretchEnd(line, j) ==> line[k] != CubeRock
    decreases |line| - j
  {
    if j < |line| && line[j] != CubeRock {
      EndClear(line, j + 1);
    }
  }

  lemma {:induction false} StretchStarts(line: seq<Cell>, s: nat, e: nat)
    requires s <= e <= |line| && (s > 0 ==> line[s - 1] == CubeRock)
    requires forall k :: s <= k < e ==> line[k] != CubeRock
    ensures forall j :: s <= j <= e ==> StretchStart(line, j) == s
    decreases e
  {
    if e > s {
      StretchStarts(line, s, e - 1);
      assert StretchStart(line, e) == StretchStart(line, e - 1);
    }
  }

  lemma {:induction false} StretchEnds(line: seq<Cell>, s: nat, e: nat)
    requires s <= e <= |line| && (e < |line| ==> line[e] == CubeRock)
    requires forall k :: s <= k < e ==> line[k] != CubeRock
    ensures forall j :: s <= j <= e ==> StretchEnd(line, j) == e
    decreases e - s
  {
    if s < e {
      StretchEnds(line, s + 1, e);
      assert StretchEnd(line, s) == StretchEnd(line, s + 1);
    }
  }

  /** The cell at `j` of the line tilted towards its start: a cube rock
      stays, and the round rocks of a stretch fill its first cells. */
  function StartTilted(line: seq<Cell>, j: nat): Cell
    requires j < |line|
  {
    if line[j] == CubeRock then CubeRock
    else
      var s := StretchStart(line, j);
      if j - s < CountRounds(line, s, StretchEnd(line, j)) then RoundRock else Empty
  }

  /** The cell at `j` of the line tilted towards its end: the round rocks
      of a stretch fill its last cells. */
  function EndTilted(line: seq<Cell>, j: nat): Cell
    requires j < |line|
  {
    if line[j] == CubeRock then CubeRock
    else
      var e := StretchEnd(line, j);
      if e - j <= CountRounds(line, StretchStart(line, j), e) then RoundRock else Empty
  }

  datatype Side = ToStart | ToEnd

  /** The line tilted towards one of its ends. */
  function Tilt(line: seq<Cell>, side: Side): (r: seq<Cell>)
    ensures |r| == |line|
  {
    if side == ToStart then seq(|line|, j requires 0 <= j < |line| => StartTilted(line, j))
    else seq(|line|, j requires 0 <= j < |line| => EndTilted(line, j))
  }

  /** Every cube rock stays where it was, and no other cell becomes one. */
  lemma TiltCubes(line: seq<Cell>, side: Side, j: nat)
    requires j < |line|
    ensures Tilt(line, side)[j] == CubeRock <==> line[j] == CubeRock
  {
  }

  /** `c` round rocks at the start of the cells `s` to `e` - 1, the rest
      empty. */
  ghost predicate RunAtStart(t: seq<Cell>, s: nat, e: nat, c: nat)
    requires s <= e <= |t|
  {
    forall j :: s <= j < e ==> t[j] == if j - s < c then RoundRock else Empty
  }

  /** `c` round rocks at the end of the cells `s` to `e` - 1. */
  ghost predicate RunAtEnd(t: seq<Cell>, s: nat, e: nat, c: nat)
    requires s <= e <= |t|
  {
    forall j :: s <= j < e ==> t[j] == if e - j <= c then RoundRock else Empty
  }

  lemma StretchCells(line: seq<Cell>, s: nat, e: nat)
    requires s <= e <= |line|
    requires forall k :: s <= k < e ==> line[k] != CubeRock
    requires forall j :: s <= j <= e ==> StretchStart(line, j) == s && StretchEnd(line, j) == e
    ensures RunAtStart(Tilt(line, ToStart), s, e, CountRounds(line, s, e))
    ensures RunAtEnd(Tilt(line, ToEnd), s, e, CountRounds(line, s, e))
  {
    var c := CountRounds(line, s, e);
    var t := Tilt(line, ToStart);
    var u := Tilt(line, ToEnd);
    forall j | s <= j < e
      ensures t[j] == (if j - s < c then RoundRock else Empty)
      ensures u[j] == (if e - j <= c then RoundRock else Empty)
    {
      assert t[j] == StartTilted(line, j);
      assert u[j] == EndTilted(line, j);
    }
  }

  /** A stretch that starts at `s` ends up packed at its start or its end. */
  lemma StretchAfter(line: seq<Cell>, s: nat)
    requires s <= |line| && (s > 0 ==> line[s - 1] == CubeRock)
    ensures RunAtStart(Tilt(line, ToStart), s, StretchEnd(line, s), CountRounds(line, s, StretchEnd(line, s)))
    ensures RunAtEnd(Tilt(line, ToEnd), s, StretchEnd(line, s), CountRounds(line, s, StretchEnd(line, s)))
  {
    var e := StretchEnd(line, s);
    EndClear(line, s);
    StretchStarts(line, s, e);
    StretchEnds(line, s, e);
    StretchCells(line, s, e);
  }

  /** The same for the stretch that ends at `e`. */
  lemma StretchBefore(line: seq<Cell>, e: nat)
    requires e <= |line| && (e < |line| ==> line[e] == CubeRock)
    ensures RunAtStart(Tilt(line, ToStart), StretchStart(line, e), e, CountRounds(line, StretchStart(line, e), e))
    ensures RunAtEnd(Tilt(line, ToEnd), StretchStart(line, e), e, CountRounds(line, StretchStart(line, e), e))
  {
    var s := StretchStart(line, e);
    StartClear(line, e);
    StretchStarts(line, s, e);
    StretchEnds(line, s, e);
    StretchCells(line, s, e);
  }

  lemma {:induction false} RunAtStartCount(t: seq<Cell>, s: nat, e: nat, c: nat)
    requires s <= e <= |t| && c <= e - s && RunAtStart(t, s, e, c)
    ensures CountRounds(t, s, e) == c
    decreases e
  {
    if e > s {
      if e - s > c {
        RunAtStartCount(t, s, e - 1, c);
      } else {
        assert t[e - 1] == RoundRock;
        RunAtStartCount(t, s, e - 1, c - 1);
      }
    }
  }

  lemma {:induction false} RunAtEndCount(t: seq<Cell>, s: nat, e: nat, c: nat)
    requires s <= e <= |t| && c <= e - s && RunAtEnd(t, s, e, c)
    ensures CountRounds(t, s, e) == c
    decreases e
  {
    if e > s {
      if c == 0 {
        assert t[e - 1] == Empty;
        RunAtEndCount(t, s, e - 1, 0);
      } else {
        assert t[e - 1] == RoundRock;
        RunAtEndCount(t, s, e - 1, c - 1);
      }
    }
  }

  /** A stretch holds as many round rocks after a tilt as before. */
  lemma StretchRounds(line: seq<Cell>, side: Side, s: nat)
    requires s <= |line| && (s > 0 ==> line[s - 1] == CubeRock)
    ensures CountRounds(Tilt(line, side), s, StretchEnd(line, s)) == CountRounds(line, s, StretchEnd(line, s))
  {
    var e := StretchEnd(line, s);
    StretchAfter(line, s);
    if side == ToStart {
      RunAtStartCount(Tilt(line, side), s, e, CountRounds(line, s, e));
    } else {
      RunAtEndCount(Tilt(line, side), s, e, CountRounds(line, s, e));
    }
  }

  /** Counting from a cube rock, or an edge, to the end of the line. */
  lemma {:induction false} TiltRoundsFrom(line: seq<Cell>, side: Side, s: nat)
    requires s <= |line| && (s > 0 ==> line[s - 1] == CubeRock)
    ensures CountRounds(Tilt(line, side), s, |line|) == CountRounds(line, s, |line|)
    decreases |line| - s
  {
    var t := Tilt(line, side);
    var e := StretchEnd(line, s);
    StretchRounds(line, side, s);
    if e < |line| {
      TiltRoundsFrom(line, side, e + 1);
      CubeSplit(t, s, e);
      CubeSplit(line, s, e);
    }
  }

  /** Counting across a cube rock at `e`. */
  lemma CubeSplit(t: seq<Cell>, s: nat, e: nat)
    requires s <= e < |t| && t[e] == CubeRock
    ensures CountRounds(t, s, |t|) == CountRounds(t, s, e) + CountRounds(t, e + 1, |t|)
  {
    CountSplit(t, s, e, |t|);
    CountSplit(t, e, e + 1, |t|);
  }

  /** A tilt keeps the number of round rocks of the line. */
  lemma TiltRounds(line: seq<Cell>, side: Side)
    ensures Rounds(Tilt(line, side)) == Rounds(line)
  {
    TiltRoundsFrom(line, side, 0);
  }

  // The scans of `cycle`.

  /** The cells from `lo` up to `hi` set to round rocks. */
  method FillRound(out: seq<Cell>, lo: nat, hi: nat) returns (r: seq<Cell>)
    requires lo <= hi <= |out|
    ensures |r| == |out|
    ensures forall j :: 0 <= j < |out| ==> r[j] == if lo <= j < hi then RoundRock else out[j]
  {
    r := out;
    for j := lo to hi
      invariant |r| == |out|
      invariant forall k :: 0 <= k < |out| ==> r[k] == if lo <= k < j then RoundRock else out[k]
    {
      r := r[j := RoundRock];
    }
  }

  /** The inner loop of the north and west passes on one line: count the
      round rocks of a stretch, and at a cube rock (or the end) write them
      from `seq_start_idx` on. */
  method PackToStart(line: seq<Cell>) returns (out: seq<Cell>)
    ensures out == Tilt(line, ToStart)
  {
    out := seq(|line|, _ => Empty);
    var start: nat := 0;
    var count: nat := 0;
    ghost var t := Tilt(line, ToStart);
    for i := 0 to |line|
      invariant start <= i && start == StretchStart(line, i)
      invariant count == CountRounds(line, start, i)
      invariant |out| == |line|
      invariant forall j :: 0 <= j < start ==> out[j] == t[j]
      invariant forall j :: start <= j < |line| ==> out[j] == Empty
    {
      match line[i]
      case RoundRock =>
        count := count + 1;
      case CubeRock =>
        out := StartCube(line, out, start, count, i);
        start := i + 1;
        count := 0;
      case Empty =>
    }
    StretchBefore(line, |line|);
    out := FillRound(out, start, start + count);
  }

  /** At the cube rock at `i`: the rock, and the stretch before it. */
  method StartCube(line: seq<Cell>, out: seq<Cell>, start: nat, count: nat, i: nat) returns (r: seq<Cell>)
    requires start <= i < |line| && line[i] == CubeRock && |out| == |line|
    requires start == StretchStart(line, i) && count == CountRounds(line, start, i)
    requires forall j :: 0 <= j < start ==> out[j] == Tilt(line, ToStart)[j]
    requires forall j :: start <= j < |line| ==> out[j] == Empty
    ensures |r| == |line|
    ensures forall j :: 0 <= j <= i ==> r[j] == Tilt(line, ToStart)[j]
    ensures forall j :: i < j < |line| ==> r[j] == Empty
  {
    StretchBefore(line, i);
    r := out[i := CubeRock];
    r := FillRound(r, start, start + count);
    forall j | 0 <= j <= i
      ensures r[j] == Tilt(line, ToStart)[j]
    {
      if start <= j < i {
        assert r[j] == if j < start + count then RoundRock else Empty;
      }
    }
  }

  /** The inner loop of the south and east passes on one line: the same
      scan from the far end, writing each stretch's rocks just before its
      boundary. */
  method PackToEnd(line: seq<Cell>) returns (out: seq<Cell>)
    ensures out == Tilt(line, ToEnd)
  {
    out := seq(|line|, _ => Empty);
    var start: nat := |line|;
    var count: nat := 0;
    var i: nat := |line|;
    ghost var t := Tilt(line, ToEnd);
    while i > 0
      invariant i <= start <= |line| && start == StretchEnd(line, i)
      invariant count == CountRounds(line, i, start)
      invariant |out| == |line|
      invariant forall j :: start <= j < |line| ==> out[j] == t[j]
      invariant forall j :: 0 <= j < start ==> out[j] == Empty
    {
      i := i - 1;
      CountSplit(line, i, i + 1, start);
      match line[i]
      case RoundRock =>
        count := count + 1;
      case CubeRock =>
        out := EndCube(line, out, i, start, count);
        start := i;
        count := 0;
      case Empty =>
    }
    StretchAfter(line, 0);
    out := FillRound(out, start - count, start);
  }

  /** At the cube rock at `i`: the rock, and the stretch after it. */
  method EndCube(line: seq<Cell>, out: seq<Cell>, i: nat, start: nat, count: nat) returns (r: seq<Cell>)
    requires i < start <= |line| && line[i] == CubeRock && |out| == |line|
    requires start == StretchEnd(line, i + 1) && count == CountRounds(line, i + 1, start)
    requires forall j :: start <= j < |line| ==> out[j] == Tilt(line, ToEnd)[j]
    requires forall j :: 0 <= j < start ==> out[j] == Empty
    ensures |r| == |line|
    ensures forall j :: i <= j < |line| ==> r[j] == Tilt(line, ToEnd)[j]
    ensures forall j :: 0 <= j < i ==> r[j] == Empty
  {
    StretchAfter(line, i + 1);
    r := out[i := CubeRock];
    r := FillRound(r, start - count, start);
    forall j | i <= j < |line|
      ensures r[j] == Tilt(line, ToEnd)[j]
    {
      if i < j < start {
        assert r[j] == if start - count <= j then RoundRock else Empty;
      }
    }
  }

  method PackLine(line: seq<Cell>, side: Side) returns (out: seq<Cell>)
    ensures out == Tilt(line, side)
  {
    if side == ToStart {
      out := PackToStart(line);
    } else {
      out := PackToEnd(line);
    }
  }

  // The board.

  /** What the source needs of a board: a first row, and no row shorter
      than it, since every pass reads as many cells of each row as the
      first row has. */
  predicate Shaped(b: Board) {
    |b| >= 1 && forall i :: 0 <= i < |b| ==> |b[i]| >= |b[0]|
  }

  /** `h` rows of `w` cells. */
  ghost predicate Rect(b: Board, h: nat, w: nat) {
    |b| == h && forall i :: 0 <= i < h ==> |b[i]| == w
  }

  function Column(b: Board, j: nat): seq<Cell>
    requires Shaped(b) && j < |b[0]|
  {
    seq(|b|, i requires 0 <= i < |b| => b[i][j])
  }

  /** The board after the north (towards the start) or south (towards the
      end) tilt: each column tilted. */
  function TiltColumns(b: Board, side: Side): (r: Board)
    requires Shaped(b)
    ensures Rect(r, |b|, |b[0]|)
  {
    seq(|b|, i requires 0 <= i < |b| =>
      seq(|b[0]|, j requires 0 <= j < |b[0]| => Tilt(Column(b, j), side)[i]))
  }

  /** The board after the west or east tilt: each row tilted. */
  function TiltRows(b: Board, side: Side): (r: Board)
    requires Shaped(b)
    ensures Rect(r, |b|, |b[0]|)
  {
    seq(|b|, i requires 0 <= i < |b| => Tilt(b[i][..|b[0]|], side))
  }

  /** One spin cycle: north, west, south, east. */
  function Cycle(b: Board): (r: Board)
    requires Shaped(b)
    ensures Rect(r, |b|, |b[0]|)
  {
    TiltRows(TiltColumns(TiltRows(TiltColumns(b, ToStart), ToStart), ToEnd), ToEnd)
  }

  lemma ColumnOfTilt(b: Board, side: Side, j: nat)
    requires Shaped(b) && j < |b[0]|
    ensures Column(TiltColumns(b, side), j) == Tilt(Column(b, j), side)
  {
  }

  /** The board's cube rocks, in the columns the passes read. */
  ghost predicate SameCubes(b: Board, c: Board)
    requires Shaped(b) && Rect(c, |b|, |b[0]|)
  {
    forall i, j :: 0 <= i < |b| && 0 <= j < |b[0]| ==> (c[i][j] == CubeRock <==> b[i][j] == CubeRock)
  }

  /** No tilt moves, adds or removes a cube rock. */
  lemma CycleCubes(b: Board)
    requires Shaped(b)
    ensures SameCubes(b, Cycle(b))
  {
    var n := TiltColumns(b, ToStart);
    var w := TiltRows(n, ToStart);
    var s := TiltColumns(w, ToEnd);
    var e := TiltRows(s, ToEnd);
    forall i, j | 0 <= i < |b| && 0 <= j < |b[0]|
      ensures e[i][j] == CubeRock <==> b[i][j] == CubeRock
    {
      assert n[i][j] == Tilt(Column(b, j), ToStart)[i] && Column(b, j)[i] == b[i][j];
      TiltCubes(Column(b, j), ToStart, i);
      assert w[i][j] == Tilt(n[i][..|b[0]|], ToStart)[j] && n[i][..|b[0]|][j] == n[i][j];
      TiltCubes(n[i][..|b[0]|], ToStart, j);
      assert s[i][j] == Tilt(Column(w, j), ToEnd)[i] && Column(w, j)[i] == w[i][j];
      TiltCubes(Column(w, j), ToEnd, i);
      assert e[i][j] == Tilt(s[i][..|b[0]|], ToEnd)[j] && s[i][..|b[0]|][j] == s[i][j];
      TiltCubes(s[i][..|b[0]|], ToEnd, j);
    }
  }

  // The passes of `cycle`, each into a fresh board of empty cells.

  /** Writes `packed` into column `col`. */
  method StoreColumn(out: Board, col: nat, packed: seq<Cell>) returns (r: Board)
    requires |out| >= 1 && Rect(out, |out|, |out[0]|) && col < |out[0]| && |packed| == |out|
    ensures Rect(r, |out|, |out[0]|)
    ensures forall i, j :: 0 <= i < |out| && 0 <= j < |out[0]| ==> r[i][j] == if j == col then packed[i] else out[i][j]
  {
    r := out;
    for i := 0 to |out|
      invariant Rect(r, |out|, |out[0]|)
      invariant forall k, j :: 0 <= k < |out| && 0 <= j < |out[0]| ==> r[k][j] == if j == col && k < i then packed[k] else out[k][j]
    {
      r := r[i := r[i][col := packed[i]]];
    }
  }

  /** The north or south pass. */
  method ColumnPass(board: Board, side: Side) returns (out: Board)
    requires Shaped(board)
    ensures out == TiltColumns(board, side)
  {
    var h, w := |board|, |board[0]|;
    out := seq(h, _ => seq(w, _ => Empty));
    ghost var t := TiltColumns(board, side);
    for col := 0 to w
      invariant Rect(out, h, w)
      invariant forall i, j :: 0 <= i < h && 0 <= j < col ==> out[i][j] == t[i][j]
    {
      var line := Column(board, col);
      var packed := PackLine(line, side);
      out := StoreColumn(out, col, packed);
    }
    assert forall i :: 0 <= i < h ==> out[i] == t[i];
  }

  /** The west or east pass. */
  method RowPass(board: Board, side: Side) returns (out: Board)
    requires Shaped(board)
    ensures out == TiltRows(board, side)
  {
    var h, w := |board|, |board[0]|;
    out := seq(h, _ => seq(w, _ => Empty));
    for row := 0 to h
      invariant |out| == h
      invariant forall i :: 0 <= i < row ==> out[i] == TiltRows(board, side)[i]
    {
      var line := board[row][..w];
      var packed := PackLine(line, side);
      out := out[row := packed];
    }
  }

  /** `cycle`, with the fourth pass tilting each row towards its end over
      the row's own width. */
  method CycleBoard(board: Board) returns (out: Board)
    requires Shaped(board)
    ensures out == Cycle(board)
  {
    var north := ColumnPass(board, ToStart);
    var west := RowPass(north, ToStart);
    var south := ColumnPass(west, ToEnd);
    out := RowPass(south, ToEnd);
  }

  // Weighted counts of round rocks, by rows and by columns.

  /** The round rocks among the first `n` cells of a line, the one at `i`
      weighing `wt[i]`. */
  function Weigh(line: seq<Cell>, wt: seq<int>, n: nat): int
    requires n <= |line| && n <= |wt|
  {
    if n == 0 then 0
    else Weigh(line, wt, n - 1) + (if line[n - 1] == RoundRock then wt[n - 1] else 0)
  }

  /** The first `m` cells of the first `n` rows, a round rock in row `i`
      weighing `wt[i]`, summed row by row. */
  function ByRows(b: Board, wt: seq<int>, n: nat, m: nat): int
    requires n <= |b| && n <= |wt| && forall i :: 0 <= i < n ==> m <= |b[i]|
  {
    if n == 0 then 0
    else ByRows(b, wt, n - 1, m) + wt[n - 1] * CountRounds(b[n - 1], 0, m)
  }

  /** The same sum over the first `m` columns, column by column. */
  function ByColumns(b: Board, wt: seq<int>, m: nat): int
    requires Shaped(b) && m <= |b[0]| && |b| <= |wt|
  {
    if m == 0 then 0
    else ByColumns(b, wt, m - 1) + Weigh(Column(b, m - 1), wt, |b|)
  }

  lemma MulAdd(w: int, a: int, x: int)
    ensures w * (a + x) == w * a + w * x
  {
  }

  lemma {:induction false} ByRowsPeel(b: Board, wt: seq<int>, n: nat, m: nat)
    requires Shaped(b) && 1 <= m <= |b[0]| && n <= |b| <= |wt|
    ensures ByRows(b, wt, n, m) == ByRows(b, wt, n, m - 1) + Weigh(Column(b, m - 1), wt, n)
  {
    if n > 0 {
      ByRowsPeel(b, wt, n - 1, m);
      var x := if b[n - 1][m - 1] == RoundRock then 1 else 0;
      assert CountRounds(b[n - 1], 0, m) == CountRounds(b[n - 1], 0, m - 1) + x;
      MulAdd(wt[n - 1], CountRounds(b[n - 1], 0, m - 1), x);
      assert Column(b, m - 1)[n - 1] == b[n - 1][m - 1];
    }
  }

  /** Summing the board's weighted rocks by rows or by columns gives the
      same total. */
  lemma {:induction false} Exchange(b: Board, wt: seq<int>, m: nat)
    requires Shaped(b) && m <= |b[0]| && |b| <= |wt|
    ensures ByRows(b, wt, |b|, m) == ByColumns(b, wt, m)
  {
    if m > 0 {
      Exchange(b, wt, m - 1);
      ByRowsPeel(b, wt, |b|, m);
    } else {
      ByRowsNone(b, wt, |b|);
    }
  }

  lemma {:induction false} ByRowsNone(b: Board, wt: seq<int>, n: nat)
    requires n <= |b| && n <= |wt|
    ensures ByRows(b, wt, n, 0) == 0
  {
    if n > 0 {
      ByRowsNone(b, wt, n - 1);
    }
  }

  lemma {:induction false} ByColumnsAgree(b: Board, c: Board, wt: seq<int>, m: nat)
    requires Shaped(b) && Shaped(c) && m <= |b[0]| && m <= |c[0]| && |b| == |c| <= |wt|
    requires forall j :: 0 <= j < m ==> Weigh(Column(b, j), wt, |b|) == Weigh(Column(c, j), wt, |c|)
    ensures ByColumns(b, wt, m) == ByColumns(c, wt, m)
  {
    if m > 0 {
      ByColumnsAgree(b, c, wt, m - 1);
    }
  }

  function Ones(n: nat): (wt: seq<int>)
    ensures |wt| == n
  {
    seq(n, _ => 1)
  }

  lemma {:induction false} WeighOnes(line: seq<Cell>, n: nat, k: nat)
    requires n <= |line| && n <= k
    ensures Weigh(line, Ones(k), n) == CountRounds(line, 0, n)
  {
    if n > 0 {
      WeighOnes(line, n - 1, k);
    }
  }

  /** The round rocks of the board, in the columns the passes read. */
  function RoundsIn(b: Board, n: nat): nat
    requires Shaped(b) && n <= |b|
  {
    if n == 0 then 0 else RoundsIn(b, n - 1) + CountRounds(b[n - 1], 0, |b[0]|)
  }

  lemma {:induction false} RoundsInByRows(b: Board, n: nat, k: nat)
    requires Shaped(b) && n <= |b| && n <= k
    ensures ByRows(b, Ones(k), n, |b[0]|) == RoundsIn(b, n)
  {
    if n > 0 {
      RoundsInByRows(b, n - 1, k);
    }
  }

  /** A column pass keeps the number of round rocks. */
  lemma ColumnsKeepRounds(b: Board, side: Side)
    requires Shaped(b)
    ensures RoundsIn(TiltColumns(b, side), |b|) == RoundsIn(b, |b|)
  {
    var t := TiltColumns(b, side);
    var h, w := |b|, |b[0]|;
    forall j | 0 <= j < w
      ensures Weigh(Column(t, j), Ones(h), h) == Weigh(Column(b, j), Ones(h), h)
    {
      ColumnKeepsRounds(b, side, j, t);
    }
    ByColumnsAgree(t, b, Ones(h), w);
    Exchange(t, Ones(h), w);
    Exchange(b, Ones(h), w);
    RoundsInByRows(t, h, h);
    RoundsInByRows(b, h, h);
  }

  /** Tilting column `j` keeps its number of round rocks. */
  lemma ColumnKeepsRounds(b: Board, side: Side, j: nat, t: Board)
    requires Shaped(b) && j < |b[0]| && t == TiltColumns(b, side)
    ensures Weigh(Column(t, j), Ones(|b|), |b|) == Weigh(Column(b, j), Ones(|b|), |b|)
  {
    var h := |b|;
    ColumnOfTilt(b, side, j);
    TiltRounds(Column(b, j), side);
    WeighOnes(Column(t, j), h, h);
    WeighOnes(Column(b, j), h, h);
  }

  lemma {:induction false} PrefixCount(line: seq<Cell>, w: nat, n: nat)
    requires n <= w <= |line|
    ensures CountRounds(line[..w], 0, n) == CountRounds(line, 0, n)
  {
    if n > 0 {
      PrefixCount(line, w, n - 1);
    }
  }

  /** Tilting row `i` keeps its number of round rocks. */
  lemma RowKeepsRounds(b: Board, side: Side, i: nat)
    requires Shaped(b) && i < |b|
    ensures CountRounds(TiltRows(b, side)[i], 0, |b[0]|) == CountRounds(b[i], 0, |b[0]|)
  {
    var w := |b[0]|;
    var row := b[i][..w];
    assert TiltRows(b, side)[i] == Tilt(row, side);
    TiltRounds(row, side);
    PrefixCount(b[i], w, w);
  }

  lemma {:induction false} RowsKeepRoundsUpTo(b: Board, side: Side, n: nat)
    requires Shaped(b) && n <= |b|
    ensures RoundsIn(TiltRows(b, side), n) == RoundsIn(b, n)
  {
    if n > 0 {
      var t := TiltRows(b, side);
      RowsKeepRoundsUpTo(b, side, n - 1);
      RowKeepsRounds(b, side, n - 1);
      RoundsStep(b, t, n);
    }
  }

  /** Two boards of the same width whose first n - 1 rows hold as many round
      rocks, and whose row n - 1 does too, hold as many in their first n. */
  lemma RoundsStep(b: Board, t: Board, n: nat)
    requires Shaped(b) && Shaped(t) && 0 < n <= |b| && n <= |t| && |t[0]| == |b[0]|
    requires RoundsIn(t, n - 1) == RoundsIn(b, n - 1)
    requires CountRounds(t[n - 1], 0, |b[0]|) == CountRounds(b[n - 1], 0, |b[0]|)
    ensures RoundsIn(t, n) == RoundsIn(b, n)
  {
  }

  /** A row pass keeps the number of round rocks. */
  lemma RowsKeepRounds(b: Board, side: Side)
    requires Shaped(b)
    ensures RoundsIn(TiltRows(b, side), |b|) == RoundsIn(b, |b|)
  {
    RowsKeepRoundsUpTo(b, side, |b|);
  }

  /** A spin cycle keeps the number of round rocks. */
  lemma CycleKeepsRounds(b: Board)
    requires Shaped(b)
    ensures RoundsIn(Cycle(b), |b|) == RoundsIn(b, |b|)
  {
    var n := TiltColumns(b, ToStart);
    var w := TiltRows(n, ToStart);
    var s := TiltColumns(w, ToEnd);
    ColumnsKeepRounds(b, ToStart);
    RowsKeepRounds(n, ToStart);
    ColumnsKeepRounds(w, ToEnd);
    RowsKeepRounds(s, ToEnd);
  }

  // The load on the north beams.

  /** `calculate_board_load`: a round rock in row `i` of `h` rows adds
      `h - i`. */
  function BoardLoad(b: Board): int {
    LoadUpTo(b, |b|)
  }

  function LoadUpTo(b: Board, n: nat): int
    requires n <= |b|
  {
    if n == 0 then 0 else LoadUpTo(b, n - 1) + (|b| - (n - 1)) * Rounds(b[n - 1])
  }

  /** The weight of each row of `h` rows. */
  function LoadWeights(h: nat): (wt: seq<int>)
    ensures |wt| == h
  {
    seq(h, i => h - i)
  }

  lemma {:induction false} LoadByRows(b: Board, w: nat, n: nat)
    requires Rect(b, |b|, w) && n <= |b|
    ensures LoadUpTo(b, n) == ByRows(b, LoadWeights(|b|), n, w)
  {
    if n > 0 {
      LoadByRows(b, w, n - 1);
    }
  }

  /** The sum of the integers from `lo` to `hi`, both included. */
  function SumRange(lo: int, hi: int): int
    decreases hi - lo + 1
  {
    if lo > hi then 0 else lo + SumRange(lo + 1, hi)
  }

  /** The load of a stretch from `s` to `e` whose `c` round rocks sit at
      its start: rows `h - s` down to `h - s - c + 1`. */
  lemma {:induction false} PackedLoad(t: seq<Cell>, h: nat, s: nat, e: nat, c: nat)
    requires s <= e <= |t| == h && c <= e - s && RunAtStart(t, s, e, c)
    ensures Weigh(t, LoadWeights(h), e) == Weigh(t, LoadWeights(h), s) + SumRange(h - s - c + 1, h - s)
    decreases e
  {
    if e > s {
      if e - s > c {
        assert t[e - 1] == Empty;
        PackedLoad(t, h, s, e - 1, c);
      } else {
        assert t[e - 1] == RoundRock;
        assert RunAtStart(t, s, e - 1, c - 1);
        PackedLoad(t, h, s, e - 1, c - 1);
      }
    }
  }

  /** The load the stretch from `s` to `e` adds once tilted north, with
      `c` round rocks in it; a cube rock at `e` adds nothing. */
  lemma StretchLoad(line: seq<Cell>, t: seq<Cell>, w: seq<int>, s: nat, c: nat, e: nat)
    requires e <= |line| && (e < |line| ==> line[e] == CubeRock)
    requires t == Tilt(line, ToStart) && w == LoadWeights(|line|)
    requires s == StretchStart(line, e) && c == CountRounds(line, s, e)
    ensures Weigh(t, w, e) == Weigh(t, w, s) + SumRange(|line| - s - c + 1, |line| - s)
    ensures e < |line| ==> Weigh(t, w, e + 1) == Weigh(t, w, e)
  {
    StretchBefore(line, e);
    PackedLoad(t, |line|, s, e, c);
    if e < |line| {
      assert t[e] == CubeRock;
    }
  }

  /** A cube rock at `i` closes the stretch before it and starts the next. */
  lemma CubeCloses(line: seq<Cell>, t: seq<Cell>, w: seq<int>, s: nat, c: nat, i: nat)
    requires i < |line| && line[i] == CubeRock
    requires t == Tilt(line, ToStart) && w == LoadWeights(|line|)
    requires s == StretchStart(line, i) && c == CountRounds(line, s, i)
    ensures Weigh(t, w, i + 1) == Weigh(t, w, s) + SumRange(|line| - s - c + 1, |line| - s)
    ensures StretchStart(line, i + 1) == i + 1 && CountRounds(line, i + 1, i + 1) == 0
  {
    StretchLoad(line, t, w, s, c, i);
  }

  /** The inner loop of `part_one` on one column: at each cube rock (and
      at the end) it adds the load of the stretch's rocks packed north. */
  method AddColumnLoad(total: int, line: seq<Cell>) returns (sum: int)
    ensures sum == total + Weigh(Tilt(line, ToStart), LoadWeights(|line|), |line|)
  {
    var h := |line|;
    ghost var t := Tilt(line, ToStart);
    ghost var w := LoadWeights(h);
    sum := total;
    var start: nat := 0;
    var count: nat := 0;
    for i := 0 to h
      invariant start <= i && start == StretchStart(line, i)
      invariant count == CountRounds(line, start, i)
      invariant sum == total + Weigh(t, w, start)
    {
      match line[i]
      case RoundRock =>
        assert CountRounds(line, start, i + 1) == count + 1;
        count := count + 1;
      case CubeRock =>
        CubeCloses(line, t, w, start, count, i);
        sum := sum + SumRange(h - start - count + 1, h - start);
        start := i + 1;
        count := 0;
      case Empty =>
        assert CountRounds(line, start, i + 1) == count;
    }
    StretchLoad(line, t, w, start, count, h);
    sum := sum + SumRange(h - start - count + 1, h - start);
  }

  /** Part one: the load after tilting the platform north. */
  method PartOne(board: Board) returns (total: int)
    requires Shaped(board)
    ensures total == BoardLoad(TiltColumns(board, ToStart))
  {
    total := 0;
    for col := 0 to |board[0]|
      invariant total == NorthLoadUpTo(board, col)
    {
      var line := Column(board, col);
      NorthColumn(board, col);
      total := AddColumnLoad(total, line);
    }
    NorthLoad(board);
  }

  /** The load of the first `m` columns after the north tilt. */
  ghost function NorthLoadUpTo(board: Board, m: nat): int
    requires Shaped(board) && m <= |board[0]|
  {
    ByColumns(TiltColumns(board, ToStart), LoadWeights(|board|), m)
  }

  lemma NorthColumn(board: Board, col: nat)
    requires Shaped(board) && col < |board[0]|
    ensures NorthLoadUpTo(board, col + 1) == NorthLoadUpTo(board, col) + Weigh(Tilt(Column(board, col), ToStart), LoadWeights(|board|), |board|)
  {
    ColumnOfTilt(board, ToStart, col);
  }

  lemma NorthLoad(board: Board)
    requires Shaped(board)
    ensures NorthLoadUpTo(board, |board[0]|) == BoardLoad(TiltColumns(board, ToStart))
  {
    var t := TiltColumns(board, ToStart);
    Exchange(t, LoadWeights(|board|), |board[0]|);
    LoadByRows(t, |board[0]|, |board|);
  }

  // Part two: spin cycles until a board repeats.

  const CycleCount: nat := 1000000000

  /** `x` after `n` applications of `f`. */
  function Iter<T>(f: T -> T, x: T, n: nat): T {
    if n == 0 then x else f(Iter(f, x, n - 1))
  }

  lemma {:induction false} IterShift<T>(f: T -> T, x: T, s: nat, e: nat, k: nat)
    requires Iter(f, x, s) == Iter(f, x, e)
    ensures Iter(f, x, s + k) == Iter(f, x, e + k)
  {
    if k > 0 {
      IterShift(f, x, s, e, k - 1);
    }
  }

  lemma {:induction false} IterLoops<T>(f: T -> T, x: T, s: nat, e: nat, q: nat, r: nat)
    requires s <= e && Iter(f, x, s) == Iter(f, x, e)
    ensures Iter(f, x, s + q * (e - s) + r) == Iter(f, x, s + r)
  {
    if q > 0 {
      var p := e - s;
      assert s + q * p + r == e + ((q - 1) * p + r);
      IterShift(f, x, s, e, (q - 1) * p + r);
      IterLoops(f, x, s, e, q - 1, r);
    }
  }

  /** Once the value after `s` steps comes back after `e`, the value after
      `n` steps is the one `(n - s) % (e - s)` steps past `s`. */
  lemma IterPeriodic<T>(f: T -> T, x: T, s: nat, e: nat, n: nat)
    requires s < e <= n && Iter(f, x, s) == Iter(f, x, e)
    ensures Iter(f, x, n) == Iter(f, x, s + (n - s) % (e - s))
  {
    var p := e - s;
    var q, r := (n - s) / p, (n - s) % p;
    assert n == s + q * p + r;
    IterLoops(f, x, s, e, q, r);
  }

  /** A spin cycle on the boards the source accepts. */
  function Spin(b: Board): Board {
    if Shaped(b) then Cycle(b) else b
  }

  /** The board after `n` spin cycles. */
  function Iterate(b: Board, n: nat): Board {
    Iter(Spin, b, n)
  }

  lemma {:induction false} IterateShaped(b: Board, n: nat)
    requires Shaped(b)
    ensures Shaped(Iterate(b, n)) && |Iterate(b, n)| == |b| && |Iterate(b, n)[0]| == |b[0]|
  {
    if n > 0 {
      IterateShaped(b, n - 1);
    }
  }

  lemma IterateNext(b: Board, n: nat)
    requires Shaped(b)
    ensures Shaped(Iterate(b, n)) && Iterate(b, n + 1) == Cycle(Iterate(b, n))
  {
    IterateShaped(b, n);
  }

  /** No value repeats among the first `n` + 1 steps from `x`. */
  ghost predicate Distinct<T>(f: T -> T, x: T, n: nat) {
    forall m, k :: 0 <= m < k <= n ==> Iter(f, x, m) != Iter(f, x, k)
  }

  /** The index of the first earlier board equal to `board`, or -1. */
  method Position<T(==)>(history: seq<T>, board: T) returns (n: int)
    ensures -1 <= n < |history|
    ensures n >= 0 ==> history[n] == board && forall k :: 0 <= k < n ==> history[k] != board
    ensures n < 0 ==> forall k :: 0 <= k < |history| ==> history[k] != board
  {
    n := 0;
    while n < |history|
      invariant 0 <= n <= |history|
      invariant forall k :: 0 <= k < n ==> history[k] != board
    {
      if history[n] == board {
        return;
      }
      n := n + 1;
    }
    n := -1;
  }

  /** The search loop of part two, over any step function: keep every
      value seen, step, and stop at the first value seen before; the value
      after `total` steps is then read off the history. None where no value
      repeats within `total` steps, where the source divides by zero. */
  method FirstRepeat<T(==)>(f: T -> T, x: T, total: nat) returns (r: Option<T>)
    ensures r.None? <==> Distinct(f, x, total)
    ensures r.Some? ==> r.value == Iter(f, x, total)
  {
    var history: seq<T> := [];
    var b := x;
    var i: nat := 0;
    while i < total
      invariant i <= total
      invariant |history| == i && forall k :: 0 <= k < i ==> history[k] == Iter(f, x, k)
      invariant b == Iter(f, x, i)
      invariant Distinct(f, x, i)
    {
      history := history + [b];
      assert forall k :: 0 <= k <= i ==> history[k] == Iter(f, x, k);
      b := f(b);
      assert b == Iter(f, x, i + 1);
      var n := Position(history, b);
      if n >= 0 {
        var idx := n + (total - n) % (i + 1 - n);
        Repeated(f, x, history, n, i, total, idx);
        r := Some(history[idx]);
        return;
      }
      NoRepeatYet(f, x, history, i);
      i := i + 1;
    }
    r := None;
  }

  /** Part two: the load after a billion spin cycles. */
  method PartTwo(board: Board) returns (r: Option<int>)
    requires Shaped(board)
    ensures r.None? <==> Distinct(Spin, board, CycleCount)
    ensures r.Some? ==> r.value == BoardLoad(Iterate(board, CycleCount))
  {
    var last := FirstRepeat(Spin, board, CycleCount);
    r := if last.Some? then Some(BoardLoad(last.value)) else None;
  }

  /** The first repeat: the value after `i` + 1 steps is the one after
      `n`, so the value after `total` steps is in the history. */
  lemma Repeated<T>(f: T -> T, x: T, history: seq<T>, n: nat, i: nat, total: nat, idx: int)
    requires n <= i < total && idx == n + (total - n) % (i + 1 - n)
    requires |history| == i + 1 && forall k :: 0 <= k <= i ==> history[k] == Iter(f, x, k)
    requires history[n] == Iter(f, x, i + 1)
    ensures 0 <= idx < |history| && history[idx] == Iter(f, x, total)
    ensures !Distinct(f, x, total)
  {
    assert Iter(f, x, n) == Iter(f, x, i + 1);
    IterPeriodic(f, x, n, i + 1, total);
  }

  /** No value in the history comes back after `i` + 1 steps. */
  lemma NoRepeatYet<T>(f: T -> T, x: T, history: seq<T>, i: nat)
    requires Distinct(f, x, i)
    requires |history| == i + 1 && forall k :: 0 <= k <= i ==> history[k] == Iter(f, x, k)
    requires forall k :: 0 <= k < |history| ==> history[k] != Iter(f, x, i + 1)
    ensures Distinct(f, x, i + 1)
  {
    forall m, k | 0 <= m < k <= i + 1
      ensures Iter(f, x, m) != Iter(f, x, k)
    {
      if k == i + 1 {
        assert history[m] == Iter(f, x, m);
      }
    }
  }

  // The fourth pass as written starts each row's scan at `board.len()`,
  // the number of rows, where the row's width is meant; on a board that is
  // not square its rocks land in the wrong cells or the pass panics.

  /** The `count` cells before `start` filled with round
      rocks; None where the subtraction underflows or an index is past the
      row. */
  function FillAsWritten(out: seq<Cell>, start: nat, count: nat): (r: Option<seq<Cell>>)
    ensures r.Some? ==> |r.value| == |out|
  {
    if count > start || (count > 0 && start > |out|) then None
    else Some(seq(|out|, j requires 0 <= j < |out| => if start - count <= j < start then RoundRock else out[j]))
  }

  /** The scan of one row from cell `i` - 1 down to 0. */
  function EastScanAsWritten(line: seq<Cell>, i: nat, start: nat, count: nat, out: seq<Cell>): Option<seq<Cell>>
    requires i <= |line| == |out|
    decreases i
  {
    if i == 0 then FillAsWritten(out, start, count)
    else
      match line[i - 1]
      case RoundRock => EastScanAsWritten(line, i - 1, start, count + 1, out)
      case Empty => EastScanAsWritten(line, i - 1, start, count, out)
      case CubeRock =>
        match FillAsWritten(out[i - 1 := CubeRock], start, count)
        case None => None
        case Some(filled) => EastScanAsWritten(line, i - 1, i - 1, 0, filled)
  }

  function EastRowAsWritten(row: seq<Cell>, rows: nat): Option<seq<Cell>> {
    EastScanAsWritten(row, |row|, rows, 0, seq(|row|, _ => Empty))
  }

  function EastPassAsWritten(b: Board): Option<Board>
    requires Shaped(b)
  {
    var w := |b[0]|;
    if forall i :: 0 <= i < |b| ==> EastRowAsWritten(b[i][..w], |b|).Some? then
      Some(seq(|b|, i requires 0 <= i < |b| => EastRowAsWritten(b[i][..w], |b|).value))
    else None
  }

  /** `cycle` as written. */
  function CycleAsWritten(b: Board): Option<Board>
    requires Shaped(b)
  {
    EastPassAsWritten(TiltColumns(TiltRows(TiltColumns(b, ToStart), ToStart), ToEnd))
  }

  lemma TiltOne(line: seq<Cell>, side: Side)
    requires |line| == 1
    ensures Tilt(line, side) == line
  {
    assert StretchEnd(line, 1) == 1;
    assert StretchEnd(line, 0) == if line[0] == CubeRock then 0 else 1;
    assert CountRounds(line, 0, 1) == if line[0] == RoundRock then 1 else 0;
  }

  /** On the one-row board `O.` the fourth pass as written leaves the rock
      where it is, since it packs the row against cell 1 (the row count)
      instead of cell 2; the cycle moves it east. */
  lemma EastPassUsesRowCount()
    ensures Shaped([[RoundRock, Empty]])
    ensures CycleAsWritten([[RoundRock, Empty]]) == Some([[RoundRock, Empty]])
    ensures Cycle([[RoundRock, Empty]]) == [[Empty, RoundRock]]
  {
    var b := [[RoundRock, Empty]];
    ColumnsStay(ToStart);
    ColumnsStay(ToEnd);
    RowStaysWest();
    RowGoesEast();
    var row := [RoundRock, Empty];
    assert b[0][..2] == row;
    assert TiltRows(b, ToStart)[0] == row;
    assert TiltRows(b, ToStart) == b;
    assert TiltRows(b, ToEnd)[0] == [Empty, RoundRock];
    var south := TiltColumns(TiltRows(TiltColumns(b, ToStart), ToStart), ToEnd);
    assert south == b;
    EastPassStays();
  }

  lemma EastPassStays()
    ensures Shaped([[RoundRock, Empty]]) && EastPassAsWritten([[RoundRock, Empty]]) == Some([[RoundRock, Empty]])
  {
    var b := [[RoundRock, Empty]];
    assert b[0][..2] == b[0];
    EastRowStays();
    assert forall i :: 0 <= i < |b| ==> EastRowAsWritten(b[i][..|b[0]|], |b|) == Some(b[0]);
    var r := EastPassAsWritten(b);
    assert r.Some? && r.value[0] == b[0];
    assert r.value == b;
  }

  lemma ColumnsStay(side: Side)
    ensures Shaped([[RoundRock, Empty]]) && TiltColumns([[RoundRock, Empty]], side) == [[RoundRock, Empty]]
  {
    OneRowStays([[RoundRock, Empty]], side);
  }

  /** A column pass leaves any one-row board as it is. */
  lemma OneRowStays(b: Board, side: Side)
    requires |b| == 1
    ensures Shaped(b) && TiltColumns(b, side) == b
  {
    var t := TiltColumns(b, side);
    forall j | 0 <= j < |b[0]|
      ensures t[0][j] == b[0][j]
    {
      assert Column(b, j) == [b[0][j]];
      TiltOne(Column(b, j), side);
    }
    assert t[0] == b[0];
  }

  lemma EastRowStays()
    ensures EastRowAsWritten([RoundRock, Empty], 1) == Some([RoundRock, Empty])
  {
    var row := [RoundRock, Empty];
    var blank := seq(2, _ => Empty);
    assert EastScanAsWritten(row, 2, 1, 0, blank) == EastScanAsWritten(row, 1, 1, 0, blank);
    assert EastScanAsWritten(row, 1, 1, 0, blank) == EastScanAsWritten(row, 0, 1, 1, blank);
    var f := FillAsWritten(blank, 1, 1);
    assert f.Some? && f.value[0] == RoundRock && f.value[1] == Empty;
    assert f.value == row;
  }

  lemma RowStaysWest()
    ensures Tilt([RoundRock, Empty], ToStart) == [RoundRock, Empty]
  {
    var row := [RoundRock, Empty];
    assert StretchEnd(row, 2) == 2 && StretchEnd(row, 1) == 2 && StretchEnd(row, 0) == 2;
    assert StretchStart(row, 1) == 0 && StretchStart(row, 0) == 0;
    assert CountRounds(row, 0, 2) == 1;
  }

  lemma RowGoesEast()
    ensures Tilt([RoundRock, Empty], ToEnd) == [Empty, RoundRock]
  {
    var row := [RoundRock, Empty];
    assert StretchEnd(row, 2) == 2 && StretchEnd(row, 1) == 2 && StretchEnd(row, 0) == 2;
    assert StretchStart(row, 1) == 0 && StretchStart(row, 0) == 0;
    assert CountRounds(row, 0, 2) == 1;
  }

  /** Where the row is as long as the board is high, the scan as written
      is the scan of `PackToEnd`. */
  lemma {:induction false} EastScanFits(line: seq<Cell>, i: nat, start: nat, count: nat, out: seq<Cell>)
    requires i <= start <= |line| == |out| && start == StretchEnd(line, i) && count == CountRounds(line, i, start)
    requires forall j :: start <= j < |line| ==> out[j] == Tilt(line, ToEnd)[j]
    requires forall j :: 0 <= j < start ==> out[j] == Empty
    ensures EastScanAsWritten(line, i, start, count, out) == Some(Tilt(line, ToEnd))
    decreases i
  {
    if i == 0 {
      EastFillLast(line, start, count, out);
    } else {
      CountSplit(line, i - 1, i, start);
      match line[i - 1]
      case RoundRock =>
        EastScanFits(line, i - 1, start, count + 1, out);
      case Empty =>
        EastScanFits(line, i - 1, start, count, out);
      case CubeRock =>
        var f := EastFillAtCube(line, i, start, count, out);
        EastScanFits(line, i - 1, i - 1, 0, f);
    }
  }

  /** The fill after the scan reaches cell 0 completes the tilted row. */
  lemma EastFillLast(line: seq<Cell>, start: nat, count: nat, out: seq<Cell>)
    requires start <= |line| == |out| && start == StretchEnd(line, 0) && count == CountRounds(line, 0, start)
    requires forall j :: start <= j < |line| ==> out[j] == Tilt(line, ToEnd)[j]
    requires forall j :: 0 <= j < start ==> out[j] == Empty
    ensures FillAsWritten(out, start, count) == Some(Tilt(line, ToEnd))
  {
    var t := Tilt(line, ToEnd);
    StretchAfter(line, 0);
    var f := FillAsWritten(out, start, count);
    assert f.Some?;
    assert forall j :: 0 <= j < |line| ==> f.value[j] == t[j];
    assert f.value == t;
  }

  /** The fill at a cube rock in cell `i` - 1 settles the stretch after it. */
  lemma EastFillAtCube(line: seq<Cell>, i: nat, start: nat, count: nat, out: seq<Cell>) returns (f: seq<Cell>)
    requires 0 < i <= start <= |line| == |out| && line[i - 1] == CubeRock
    requires start == StretchEnd(line, i) && count == CountRounds(line, i, start)
    requires forall j :: start <= j < |line| ==> out[j] == Tilt(line, ToEnd)[j]
    requires forall j :: 0 <= j < start ==> out[j] == Empty
    ensures FillAsWritten(out[i - 1 := CubeRock], start, count) == Some(f)
    ensures |f| == |line| && i - 1 == StretchEnd(line, i - 1) && 0 == CountRounds(line, i - 1, i - 1)
    ensures forall j :: i - 1 <= j < |line| ==> f[j] == Tilt(line, ToEnd)[j]
    ensures forall j :: 0 <= j < i - 1 ==> f[j] == Empty
  {
    var t := Tilt(line, ToEnd);
    StretchAfter(line, i);
    var r := FillAsWritten(out[i - 1 := CubeRock], start, count);
    assert r.Some?;
    f := r.value;
    assert forall j :: i - 1 <= j < |line| ==> f[j] == t[j];
  }

  lemma EastRowFits(row: seq<Cell>)
    ensures EastRowAsWritten(row, |row|) == Some(Tilt(row, ToEnd))
  {
    EastScanFits(row, |row|, |row|, 0, seq(|row|, _ => Empty));
  }

  /** On a square board the cycle as written is the spin cycle, so the bug
      shows only on boards that are not square. */
  lemma SquareCycleAgrees(b: Board)
    requires Shaped(b) && |b| == |b[0]|
    ensures CycleAsWritten(b) == Some(Cycle(b))
  {
    var h := |b|;
    var north := TiltColumns(b, ToStart);
    var west := TiltRows(north, ToStart);
    var south := TiltColumns(west, ToEnd);
    assert Rect(south, h, h);
    var east := TiltRows(south, ToEnd);
    forall i | 0 <= i < h
      ensures EastRowAsWritten(south[i][..h], h) == Some(east[i])
    {
      EastRowFits(south[i][..h]);
    }
    var r := EastPassAsWritten(south);
    assert r.Some?;
    assert forall i :: 0 <= i < h ==> r.value[i] == east[i];
    assert r.value == east;
  }
}
