/**
 * Day 16, beam propagation: a grid of empty cells, splitters and mirrors;
 * a beam enters at one cell heading one way, and every cell it passes
 * through is energized. `Board::take_step` follows the beam recursively,
 * remembering at each cell the directions it has already sent a beam out
 * in, so that no beam is followed twice.
 */
module Day16 {
  import opened Wrappers

  // ---------------------------------------------------------------------
  // Cells and directions
  // ---------------------------------------------------------------------

  datatype CellType = Empty | HorizontalSplitter | VerticalSplitter | RightAngledMirror | LeftAngledMirror

  /** The character a cell type is written as. */
  function SymbolOf(kind: CellType): (c: char)
    ensures KindOf(c) == Some(kind)
  {
    match kind
    case Empty => '.'
    case VerticalSplitter => '|'
    case HorizontalSplitter => '-'
    case RightAngledMirror => '/'
    case LeftAngledMirror => '\\'
  }

  /** `CellType::from_char`; None where the source panics. */
  function KindOf(c: char): (r: Option<CellType>)
    ensures r.Some? <==> c in {'.', '|', '-', '/', '\\'}
  {
    match c
    case '.' => Some(Empty)
    case '|' => Some(VerticalSplitter)
    case '-' => Some(HorizontalSplitter)
    case '/' => Some(RightAngledMirror)
    case '\\' => Some(LeftAngledMirror)
    case _ => None
  }

  /** A character that parses is the symbol of its cell type. */
  lemma SymbolOfKind(c: char)
    ensures KindOf(c).Some? ==> SymbolOf(KindOf(c).value) == c
  {
  }

  type Grid = seq<seq<CellType>>

  /** One line of `Board::from_str`. */
  function ParseRow(line: string): (r: Option<seq<CellType>>)
    ensures r.Some? <==> forall k :: 0 <= k < |line| ==> KindOf(line[k]).Some?
    ensures r.Some? ==> |r.value| == |line| && forall k :: 0 <= k < |line| ==> SymbolOf(r.value[k]) == line[k]
  {
    if forall k :: 0 <= k < |line| ==> KindOf(line[k]).Some? then
      Some(seq(|line|, k requires 0 <= k < |line| => KindOf(line[k]).value))
    else None
  }

  /** `Board::from_str`, one row per input line. */
  function ParseGrid(lines: seq<string>): (r: Option<Grid>)
    ensures r.Some? <==> forall i :: 0 <= i < |lines| ==> ParseRow(lines[i]).Some?
    ensures r.Some? ==> |r.value| == |lines| && forall i :: 0 <= i < |lines| ==> Some(r.value[i]) == ParseRow(lines[i])
  {
    if forall i :: 0 <= i < |lines| ==> ParseRow(lines[i]).Some? then
      Some(seq(|lines|, i requires 0 <= i < |lines| => ParseRow(lines[i]).value))
    else None
  }

  datatype Direction = North | East | South | West

  /** `Direction::get_index_offsets`: (row, column) of one step. */
  function Offsets(d: Direction): (o: (int, int))
    ensures (o.0 == 0) != (o.1 == 0)
    ensures -1 <= o.0 <= 1 && -1 <= o.1 <= 1
  {
    match d
    case North => (-1, 0)
    case East => (0, 1)
    case South => (1, 0)
    case West => (0, -1)
  }

  function Opposite(d: Direction): (r: Direction)
    ensures Offsets(r) == (-Offsets(d).0, -Offsets(d).1)
  {
    match d
    case North => South
    case East => West
    case South => North
    case West => East
  }

  /** Different directions step to different cells. */
  lemma OffsetsInjective(d: Direction, e: Direction)
    ensures Offsets(d) == Offsets(e) ==> d == e
  {
  }

  /** The directions a beam leaves a cell in, having entered it heading
      `d`: it never turns back, and a split sends it both ways across. */
  function Outgoing(kind: CellType, d: Direction): (ds: seq<Direction>)
    ensures 1 <= |ds| <= 2
    ensures Opposite(d) !in ds
    ensures |ds| == 2 ==> ds[1] == Opposite(ds[0]) && d != ds[0] && d != ds[1]
    ensures kind == Empty ==> ds == [d]
  {
    match kind
    case Empty => [d]
    case HorizontalSplitter =>
      (match d
       case North | South => [East, West]
       case East | West => [d])
    case VerticalSplitter =>
      (match d
       case East | West => [North, South]
       case North | South => [d])
    case RightAngledMirror =>
      [match d
       case North => East
       case East => North
       case South => West
       case West => South]
    case LeftAngledMirror =>
      [match d
       case North => West
       case East => South
       case South => East
       case West => North]
  }

  predicate IsMirror(kind: CellType) {
    kind == RightAngledMirror || kind == LeftAngledMirror
  }

  predicate IsSplitter(kind: CellType) {
    kind == HorizontalSplitter || kind == VerticalSplitter
  }

  /** A mirror turns the beam, and the beam sent back the way it left
      comes out the way it came in. */
  lemma MirrorReverses(kind: CellType, d: Direction)
    requires IsMirror(kind)
    ensures |Outgoing(kind, d)| == 1 && Outgoing(kind, d)[0] != d
    ensures Outgoing(kind, Opposite(Outgoing(kind, d)[0])) == [Opposite(d)]
  {
  }

  /** A splitter passes a beam travelling along it and splits any other. */
  lemma SplitterPasses(kind: CellType, d: Direction)
    requires IsSplitter(kind)
    ensures |Outgoing(kind, d)| == 1 <==> Outgoing(kind, d) == [d]
    ensures Outgoing(kind, d) == [d] <==> Outgoing(kind, Opposite(d)) == [Opposite(d)]
  {
  }

  // ---------------------------------------------------------------------
  // Where a beam goes
  // ---------------------------------------------------------------------

  /** A beam at a cell (row, column) travelling in a direction. */
  type Beam = (int, int, Direction)

  predicate InGrid(kinds: Grid, r: int, c: int) {
    0 <= r < |kinds| && 0 <= c < |kinds[r]|
  }

  /** `b` is one of the beams leaving the cell of `a`, one step on. */
  ghost predicate Follows(kinds: Grid, a: Beam, b: Beam) {
    InGrid(kinds, a.0, a.1)
    && b.2 in Outgoing(kinds[a.0][a.1], a.2)
    && b.0 == a.0 + Offsets(b.2).0 && b.1 == a.1 + Offsets(b.2).1
  }

  /** A beam's route, each beam following the one before. */
  ghost predicate Route(kinds: Grid, p: seq<Beam>) {
    |p| >= 1 && forall i :: 0 <= i < |p| - 1 ==> Follows(kinds, p[i], p[i + 1])
  }

  /** A beam sent in as `origin` passes through the cell (r, c). */
  ghost predicate Lit(kinds: Grid, origin: Beam, r: int, c: int) {
    InGrid(kinds, r, c)
    && exists p: seq<Beam> :: Route(kinds, p) && p[0] == origin && p[|p| - 1].0 == r && p[|p| - 1].1 == c
  }

  lemma RouteExtend(kinds: Grid, p: seq<Beam>, b: Beam)
    requires Route(kinds, p) && Follows(kinds, p[|p| - 1], b)
    ensures Route(kinds, p + [b]) && (p + [b])[0] == p[0]
  {
    var q := p + [b];
    forall i | 0 <= i < |q| - 1
      ensures Follows(kinds, q[i], q[i + 1])
    {
      if i < |p| - 1 {
        assert q[i] == p[i] && q[i + 1] == p[i + 1];
      }
    }
  }

  // ---------------------------------------------------------------------
  // The board's state
  // ---------------------------------------------------------------------

  type Marks = seq<seq<bool>>
  type Taken = seq<seq<seq<Direction>>>

  /** The energized flags and the directions taken cover the cells. */
  ghost predicate Shaped(kinds: Grid, en: Marks, tk: Taken) {
    |en| == |kinds| && |tk| == |kinds|
    && forall i :: 0 <= i < |kinds| ==> |en[i]| == |kinds[i]| && |tk[i]| == |kinds[i]|
  }

  predicate NoDups(s: seq<Direction>) {
    forall a, b :: 0 <= a < b < |s| ==> s[a] != s[b]
  }

  /** The beam entering (r, c) heading `d` has been followed there: the
      cell is energized and every way out has been taken. Off the board
      there is nothing to follow. */
  ghost predicate Covered(kinds: Grid, en: Marks, tk: Taken, r: int, c: int, d: Direction)
    requires Shaped(kinds, en, tk)
  {
    InGrid(kinds, r, c) ==> en[r][c] && forall e :: e in Outgoing(kinds[r][c], d) ==> e in tk[r][c]
  }

  /** Every direction taken out of a cell has been followed into the next
      cell, except the beams still `pending` on the call stack. */
  ghost predicate ClosedExcept(kinds: Grid, en: Marks, tk: Taken, pending: set<Beam>)
    requires Shaped(kinds, en, tk)
  {
    forall i, j, e {:trigger e in tk[i][j]} :: InGrid(kinds, i, j) && e in tk[i][j] && (i, j, e) !in pending ==>
      Covered(kinds, en, tk, i + Offsets(e).0, j + Offsets(e).1, e)
  }

  /** Every energized cell is one a beam from `origin` passes through. */
  ghost predicate Sound(kinds: Grid, origin: Beam, en: Marks)
    requires |en| == |kinds| && forall i :: 0 <= i < |kinds| ==> |en[i]| == |kinds[i]|
  {
    forall i, j {:trigger en[i][j]} :: InGrid(kinds, i, j) && en[i][j] ==> Lit(kinds, origin, i, j)
  }

  /** The state only grows: energized cells stay energized, and each cell's
      directions taken are extended at the end. */
  ghost predicate Grown(kinds: Grid, en0: Marks, tk0: Taken, en1: Marks, tk1: Taken)
    requires Shaped(kinds, en0, tk0) && Shaped(kinds, en1, tk1)
  {
    forall i, j {:trigger en1[i][j]} {:trigger tk1[i][j]} :: InGrid(kinds, i, j) ==> (en0[i][j] ==> en1[i][j]) && tk0[i][j] <= tk1[i][j]
  }

  lemma GrownTrans(kinds: Grid, en0: Marks, tk0: Taken, en1: Marks, tk1: Taken, en2: Marks, tk2: Taken)
    requires Shaped(kinds, en0, tk0) && Shaped(kinds, en1, tk1) && Shaped(kinds, en2, tk2)
    requires Grown(kinds, en0, tk0, en1, tk1) && Grown(kinds, en1, tk1, en2, tk2)
    ensures Grown(kinds, en0, tk0, en2, tk2)
  {
    forall i, j | InGrid(kinds, i, j)
      ensures tk0[i][j] <= tk2[i][j]
    {
      assert tk0[i][j] <= tk1[i][j] <= tk2[i][j];
    }
  }

  lemma CoveredGrows(kinds: Grid, en0: Marks, tk0: Taken, en1: Marks, tk1: Taken, r: int, c: int, d: Direction)
    requires Shaped(kinds, en0, tk0) && Shaped(kinds, en1, tk1)
    requires Grown(kinds, en0, tk0, en1, tk1) && Covered(kinds, en0, tk0, r, c, d)
    ensures Covered(kinds, en1, tk1, r, c, d)
  {
    if InGrid(kinds, r, c) {
      forall e | e in Outgoing(kinds[r][c], d)
        ensures e in tk1[r][c]
      {
        var k :| 0 <= k < |tk0[r][c]| && tk0[r][c][k] == e;
        assert tk1[r][c][k] == e;
      }
    }
  }

  /** The directions a cell has not sent a beam out in yet. */
  function Missing(s: seq<Direction>): (n: nat)
    ensures n <= 4
  {
    (if North in s then 0 else 1) + (if East in s then 0 else 1)
    + (if South in s then 0 else 1) + (if West in s then 0 else 1)
  }

  /** A cell holds at most four directions taken, one of each. */
  lemma {:induction false} NoDupsBound(s: seq<Direction>)
    requires NoDups(s)
    ensures |s| + Missing(s) == 4
  {
    if s != [] {
      var t, x := s[..|s| - 1], s[|s| - 1];
      assert NoDups(t) by {
        forall a, b | 0 <= a < b < |t|
          ensures t[a] != t[b]
        {
          assert t[a] == s[a] && t[b] == s[b];
        }
      }
      NoDupsBound(t);
      assert x !in t by {
        forall a | 0 <= a < |t|
          ensures t[a] != x
        {
          assert t[a] == s[a];
        }
      }
      assert s == t + [x];
      MissingAdd(t, x);
    }
  }

  /** Adding a direction not there before leaves one fewer missing. */
  lemma MissingAdd(t: seq<Direction>, x: Direction)
    requires x !in t
    ensures Missing(t + [x]) + 1 == Missing(t)
  {
    forall e
      ensures e in t + [x] <==> e in t || e == x
    {
    }
  }

  function RowRoom(row: seq<seq<Direction>>): nat {
    if row == [] then 0 else Missing(row[0]) + RowRoom(row[1..])
  }

  /** The beams not yet followed from any cell: this bounds the recursion. */
  function Room(tk: Taken): nat {
    if tk == [] then 0 else RowRoom(tk[0]) + Room(tk[1..])
  }

  lemma {:induction false} RowRoomUpdate(row: seq<seq<Direction>>, j: nat, s: seq<Direction>)
    requires j < |row|
    ensures RowRoom(row[j := s]) == RowRoom(row) - Missing(row[j]) + Missing(s)
    decreases j
  {
    if j > 0 {
      assert row[j := s][1..] == row[1..][j - 1 := s];
      RowRoomUpdate(row[1..], j - 1, s);
    } else {
      assert row[j := s][1..] == row[1..];
    }
  }

  lemma {:induction false} RoomUpdate(tk: Taken, i: nat, j: nat, s: seq<Direction>)
    requires i < |tk| && j < |tk[i]|
    ensures Room(tk[i := tk[i][j := s]]) == Room(tk) - Missing(tk[i][j]) + Missing(s)
    decreases i
  {
    if i > 0 {
      assert tk[i := tk[i][j := s]][1..] == tk[1..][i - 1 := tk[i][j := s]];
      RoomUpdate(tk[1..], i - 1, j, s);
    } else {
      assert tk[i := tk[i][j := s]][1..] == tk[1..];
      RowRoomUpdate(tk[0], j, s);
    }
  }

  /** The outgoing directions not among the directions taken before. */
  function Unseen(ds: seq<Direction>, seen: seq<Direction>): (r: seq<Direction>)
    ensures forall e :: e in r <==> e in ds && e !in seen
    ensures NoDups(ds) ==> NoDups(r)
  {
    if ds == [] then []
    else if ds[0] in seen then Unseen(ds[1..], seen)
    else [ds[0]] + Unseen(ds[1..], seen)
  }

  /** The beams leaving (r, c) in the directions `ds`. */
  ghost function At(r: int, c: int, ds: seq<Direction>): set<Beam> {
    set e | e in ds :: (r, c, e)
  }

  // ---------------------------------------------------------------------
  // One step: what `take_step` changes at the cell it enters
  // ---------------------------------------------------------------------

  lemma MissingShrinks(s: seq<Direction>, t: seq<Direction>)
    requires forall e :: e in s ==> e in t
    ensures Missing(t) <= Missing(s)
    ensures (exists e :: e in t && e !in s) ==> Missing(t) < Missing(s)
  {
    if exists e :: e in t && e !in s {
      var e :| e in t && e !in s;
      match e
      case North =>
      case East =>
      case South =>
      case West =>
    }
  }

  lemma NoDupsAppend(s: seq<Direction>, t: seq<Direction>)
    requires NoDups(s) && NoDups(t) && forall e :: e in t ==> e !in s
    ensures NoDups(s + t)
  {
    forall a, b | 0 <= a < b < |s + t|
      ensures (s + t)[a] != (s + t)[b]
    {
      if a < |s| <= b {
        assert (s + t)[b] == t[b - |s|] && (s + t)[a] == s[a];
        assert t[b - |s|] in t;
      }
    }
  }

  /** Energizing the cell at the end of a route from `origin` keeps every
      energized cell one the beam reaches. */
  lemma SoundMark(kinds: Grid, origin: Beam, en: Marks, p: seq<Beam>)
    requires |en| == |kinds| && forall i :: 0 <= i < |kinds| ==> |en[i]| == |kinds[i]|
    requires Sound(kinds, origin, en)
    requires Route(kinds, p) && p[0] == origin && InGrid(kinds, p[|p| - 1].0, p[|p| - 1].1)
    ensures var r, c := p[|p| - 1].0, p[|p| - 1].1;
      Sound(kinds, origin, en[r := en[r][c := true]])
  {
    var r, c := p[|p| - 1].0, p[|p| - 1].1;
    assert Lit(kinds, origin, r, c);
  }

  /** Entering (r, c): the new directions taken are the beams still to be
      followed from there; the rest stay closed. */
  lemma ClosedEnter(kinds: Grid, en: Marks, tk: Taken, pending: set<Beam>, r: int, c: int, outs: seq<Direction>)
    requires Shaped(kinds, en, tk) && InGrid(kinds, r, c)
    requires ClosedExcept(kinds, en, tk, pending)
    ensures var en1, tk1 := en[r := en[r][c := true]], tk[r := tk[r][c := tk[r][c] + outs]];
      Shaped(kinds, en1, tk1) && Grown(kinds, en, tk, en1, tk1)
      && ClosedExcept(kinds, en1, tk1, pending + At(r, c, outs))
  {
    var en1, tk1 := en[r := en[r][c := true]], tk[r := tk[r][c := tk[r][c] + outs]];
    assert Shaped(kinds, en1, tk1);
    assert Grown(kinds, en, tk, en1, tk1);
    forall i, j, e | InGrid(kinds, i, j) && e in tk1[i][j] && (i, j, e) !in pending + At(r, c, outs)
      ensures Covered(kinds, en1, tk1, i + Offsets(e).0, j + Offsets(e).1, e)
    {
      if i == r && j == c {
        assert e !in outs;
        assert e in tk[i][j];
      }
      CoveredGrows(kinds, en, tk, en1, tk1, i + Offsets(e).0, j + Offsets(e).1, e);
    }
  }

  /** Once the beam `b` has been followed, it is no longer pending. */
  lemma Release(kinds: Grid, en: Marks, tk: Taken, q: set<Beam>, pending: set<Beam>, b: Beam)
    requires Shaped(kinds, en, tk) && ClosedExcept(kinds, en, tk, q)
    requires forall x :: x in q ==> x in pending || x == b
    requires Covered(kinds, en, tk, b.0 + Offsets(b.2).0, b.1 + Offsets(b.2).1, b.2)
    ensures ClosedExcept(kinds, en, tk, pending)
  {
  }

  /** What the loop of `take_step` keeps after following `outs[k]`. */
  lemma AfterFollow(kinds: Grid, en0: Marks, tk0: Taken, en1: Marks, tk1: Taken, en2: Marks, tk2: Taken,
                    pending: set<Beam>, r: int, c: int, d: Direction, outs: seq<Direction>, k: nat, e: Direction)
    requires k < |outs| && e == outs[k]
    requires Shaped(kinds, en0, tk0) && Shaped(kinds, en1, tk1) && Shaped(kinds, en2, tk2)
    requires Grown(kinds, en0, tk0, en1, tk1) && Grown(kinds, en1, tk1, en2, tk2)
    requires Covered(kinds, en1, tk1, r, c, d)
    requires ClosedExcept(kinds, en2, tk2, pending + At(r, c, outs[k..]))
    requires Covered(kinds, en2, tk2, r + Offsets(e).0, c + Offsets(e).1, e)
    ensures Grown(kinds, en0, tk0, en2, tk2) && Covered(kinds, en2, tk2, r, c, d)
    ensures ClosedExcept(kinds, en2, tk2, pending + At(r, c, outs[k + 1..]))
  {
    GrownTrans(kinds, en0, tk0, en1, tk1, en2, tk2);
    CoveredGrows(kinds, en1, tk1, en2, tk2, r, c, d);
    AtStep(r, c, outs, k);
    Release(kinds, en2, tk2, pending + At(r, c, outs[k..]), pending + At(r, c, outs[k + 1..]), (r, c, e));
  }

  lemma AtStep(r: int, c: int, ds: seq<Direction>, k: nat)
    requires k < |ds|
    ensures forall x :: x in At(r, c, ds[k..]) ==> x in At(r, c, ds[k + 1..]) || x == (r, c, ds[k])
  {
    forall x | x in At(r, c, ds[k..])
      ensures x in At(r, c, ds[k + 1..]) || x == (r, c, ds[k])
    {
      var e :| e in ds[k..] && x == (r, c, e);
      var m :| k <= m < |ds| && ds[m] == e;
      if m > k {
        assert ds[k + 1..][m - k - 1] == e;
      }
    }
  }

  /** The board state is well formed: shaped like the grid, and no
      direction taken twice out of one cell. */
  ghost predicate Proper(kinds: Grid, en: Marks, tk: Taken) {
    Shaped(kinds, en, tk)
    && forall i, j {:trigger tk[i][j]} :: InGrid(kinds, i, j) ==> NoDups(tk[i][j])
  }

  /** What entering (r, c) heading `d` does to the state, energizing the
      cell and recording the directions `outs` out of it not taken before. */
  lemma EnterState(kinds: Grid, en: Marks, tk: Taken, origin: Beam, path: seq<Beam>, pending: set<Beam>,
                   r: int, c: int, d: Direction, outs: seq<Direction>)
    requires Proper(kinds, en, tk) && InGrid(kinds, r, c)
    requires Route(kinds, path) && path[0] == origin && path[|path| - 1] == (r, c, d)
    requires Sound(kinds, origin, en) && ClosedExcept(kinds, en, tk, pending)
    requires outs == Unseen(Outgoing(kinds[r][c], d), tk[r][c])
    ensures var en1, tk1 := en[r := en[r][c := true]], tk[r := tk[r][c := tk[r][c] + outs]];
      Proper(kinds, en1, tk1) && Sound(kinds, origin, en1)
      && Grown(kinds, en, tk, en1, tk1)
      && ClosedExcept(kinds, en1, tk1, pending + At(r, c, outs))
      && Covered(kinds, en1, tk1, r, c, d)
      && Room(tk1) <= Room(tk) && (outs != [] ==> Room(tk1) < Room(tk))
  {
    var here := tk[r][c];
    var en1, tk1 := en[r := en[r][c := true]], tk[r := tk[r][c := here + outs]];
    SoundMark(kinds, origin, en, path);
    ClosedEnter(kinds, en, tk, pending, r, c, outs);
    NoDupsAppend(here, outs);
    assert Proper(kinds, en1, tk1);
    MissingShrinks(here, here + outs);
    if outs != [] {
      assert outs[0] in here + outs;
    }
    RoomUpdate(tk, r, c, here + outs);
  }

  // ---------------------------------------------------------------------
  // The board
  // ---------------------------------------------------------------------

  /** `Board`: each `Cell`'s `cell_type`, which nothing writes, and its
      `energized` flag and `directions_taken`, held as three grids. */
  class Board {
    const kinds: Grid
    var energized: Marks
    var taken: Taken

    ghost predicate Valid()
      reads this
    {
      Proper(kinds, energized, taken)
    }

    /** No beam has been sent in yet. */
    ghost predicate Pristine()
      reads this
    {
      Valid() && forall i, j {:trigger energized[i][j]} {:trigger taken[i][j]} :: InGrid(kinds, i, j) ==> !energized[i][j] && taken[i][j] == []
    }

    /** `Board::from_str` after parsing: every `Cell::from_char` starts
        unenergized with no directions taken. */
    constructor (grid: Grid)
      ensures kinds == grid && Pristine()
    {
      kinds := grid;
      energized := seq(|grid|, i requires 0 <= i < |grid| => seq(|grid[i]|, _ => false));
      taken := seq(|grid|, i requires 0 <= i < |grid| => seq(|grid[i]|, _ => []));
    }

    /** A copy of the board, as `part_two` makes for every start. */
    method Clone() returns (b: Board)
      ensures fresh(b) && b.kinds == kinds && b.energized == energized && b.taken == taken
    {
      b := new Board(kinds);
      b.energized := energized;
      b.taken := taken;
    }

    /** The first half of `take_step` at a cell on the board: energize it
        and add the directions out of it not taken before. */
    method Enter(r: int, c: int, d: Direction, ghost origin: Beam, ghost path: seq<Beam>, ghost pending: set<Beam>)
      returns (outs: seq<Direction>)
      requires Valid() && InGrid(kinds, r, c)
      requires Route(kinds, path) && path[0] == origin && path[|path| - 1] == (r, c, d)
      requires Sound(kinds, origin, energized) && ClosedExcept(kinds, energized, taken, pending)
      modifies this
      ensures outs == Unseen(Outgoing(kinds[r][c], d), old(taken[r][c]))
      ensures energized == old(energized)[r := old(energized)[r][c := true]]
      ensures taken == old(taken)[r := old(taken)[r][c := old(taken)[r][c] + outs]]
      ensures Valid() && Sound(kinds, origin, energized)
      ensures Grown(kinds, old(energized), old(taken), energized, taken)
      ensures ClosedExcept(kinds, energized, taken, pending + At(r, c, outs))
      ensures Covered(kinds, energized, taken, r, c, d)
      ensures Room(taken) <= old(Room(taken)) && (outs != [] ==> Room(taken) < old(Room(taken)))
    {
      outs := Unseen(Outgoing(kinds[r][c], d), taken[r][c]);
      EnterState(kinds, energized, taken, origin, path, pending, r, c, d, outs);
      energized := energized[r := energized[r][c := true]];
      taken := taken[r := taken[r][c := taken[r][c] + outs]];
    }

    /** `take_step`: follow the beam entering (r, c) heading `d`. The ghost
        `path` is the route from `origin` to it, and `pending` the beams
        the callers are still to follow. */
    method TakeStep(r: int, c: int, d: Direction, ghost origin: Beam, ghost path: seq<Beam>, ghost pending: set<Beam>)
      requires Valid()
      requires Route(kinds, path) && path[0] == origin && path[|path| - 1] == (r, c, d)
      requires Sound(kinds, origin, energized) && ClosedExcept(kinds, energized, taken, pending)
      modifies this
      ensures Valid() && Sound(kinds, origin, energized) && ClosedExcept(kinds, energized, taken, pending)
      ensures Grown(kinds, old(energized), old(taken), energized, taken)
      ensures Covered(kinds, energized, taken, r, c, d)
      ensures !InGrid(kinds, r, c) ==> energized == old(energized) && taken == old(taken)
      ensures Room(taken) <= old(Room(taken))
      decreases Room(taken), 0
    {
      if r < 0 || c < 0 {
        return;
      }
      if r >= |energized| || c >= |energized[r]| {
        return;
      }
      ghost var room := Room(taken);
      var outs := Enter(r, c, d, origin, path, pending);
      ghost var room1 := Room(taken);
      ghost var en0, tk0 := energized, taken;
      for k := 0 to |outs|
        invariant Valid() && Sound(kinds, origin, energized)
        invariant ClosedExcept(kinds, energized, taken, pending + At(r, c, outs[k..]))
        invariant Grown(kinds, old(energized), old(taken), energized, taken)
        invariant Covered(kinds, energized, taken, r, c, d)
        invariant Room(taken) <= room1
      {
        var e := outs[k];
        ghost var en1, tk1 := energized, taken;
        Follow(r, c, d, e, origin, path, pending + At(r, c, outs[k..]));
        AfterFollow(kinds, old(energized), old(taken), en1, tk1, energized, taken, pending, r, c, d, outs, k, e);
      }
    }

    /** One turn of the loop in `take_step`: follow the beam leaving (r, c)
        in the direction `e` into the neighbouring cell. */
    method Follow(r: int, c: int, d: Direction, e: Direction, ghost origin: Beam, ghost path: seq<Beam>, ghost pending: set<Beam>)
      requires Valid() && InGrid(kinds, r, c) && e in Outgoing(kinds[r][c], d)
      requires Route(kinds, path) && path[0] == origin && path[|path| - 1] == (r, c, d)
      requires Sound(kinds, origin, energized) && ClosedExcept(kinds, energized, taken, pending)
      modifies this
      ensures Valid() && Sound(kinds, origin, energized) && ClosedExcept(kinds, energized, taken, pending)
      ensures Grown(kinds, old(energized), old(taken), energized, taken)
      ensures Covered(kinds, energized, taken, r + Offsets(e).0, c + Offsets(e).1, e)
      ensures Room(taken) <= old(Room(taken))
      decreases Room(taken), 1
    {
      ghost var next := (r + Offsets(e).0, c + Offsets(e).1, e);
      assert Follows(kinds, (r, c, d), next);
      RouteExtend(kinds, path, next);
      TakeStep(r + Offsets(e).0, c + Offsets(e).1, e, origin, path + [next], pending);
    }
  }

  // ---------------------------------------------------------------------
  // What the beam energizes
  // ---------------------------------------------------------------------

  /** With nothing pending, a route from a beam that has been followed
      ends at a beam that has been followed too. */
  lemma {:induction false} ClosedCovers(kinds: Grid, en: Marks, tk: Taken, p: seq<Beam>)
    requires Shaped(kinds, en, tk) && ClosedExcept(kinds, en, tk, {}) && Route(kinds, p)
    requires Covered(kinds, en, tk, p[0].0, p[0].1, p[0].2)
    ensures Covered(kinds, en, tk, p[|p| - 1].0, p[|p| - 1].1, p[|p| - 1].2)
    decreases |p|
  {
    if |p| > 1 {
      var q := p[..|p| - 1];
      forall i | 0 <= i < |q| - 1
        ensures Follows(kinds, q[i], q[i + 1])
      {
        assert q[i] == p[i] && q[i + 1] == p[i + 1];
      }
      ClosedCovers(kinds, en, tk, q);
      var a, b := p[|p| - 2], p[|p| - 1];
      assert q[|q| - 1] == a;
      assert Follows(kinds, a, b);
      assert b.2 in tk[a.0][a.1];
    }
  }

  /** Once the beam from `origin` has been followed with nothing pending,
      the energized cells are exactly the cells it passes through. */
  lemma LitExactly(kinds: Grid, origin: Beam, en: Marks, tk: Taken)
    requires Shaped(kinds, en, tk) && ClosedExcept(kinds, en, tk, {}) && Sound(kinds, origin, en)
    requires Covered(kinds, en, tk, origin.0, origin.1, origin.2)
    ensures forall i, j :: InGrid(kinds, i, j) ==> (en[i][j] <==> Lit(kinds, origin, i, j))
  {
    forall i, j | Lit(kinds, origin, i, j)
      ensures en[i][j]
    {
      var p: seq<Beam> :| Route(kinds, p) && p[0] == origin && p[|p| - 1].0 == i && p[|p| - 1].1 == j;
      ClosedCovers(kinds, en, tk, p);
    }
  }

  function RowCount(row: seq<bool>): (n: nat)
    ensures n <= |row|
  {
    if row == [] then 0 else (if row[0] then 1 else 0) + RowCount(row[1..])
  }

  function Cells<T>(g: seq<seq<T>>): nat {
    if g == [] then 0 else |g[0]| + Cells(g[1..])
  }

  /** The number of energized cells on the board. */
  function Count(g: Marks): (n: nat)
    ensures n <= Cells(g)
  {
    if g == [] then 0 else RowCount(g[0]) + Count(g[1..])
  }

  lemma {:induction false} CellsAlike<S, T>(a: seq<seq<S>>, b: seq<seq<T>>)
    requires |a| == |b| && forall i :: 0 <= i < |a| ==> |a[i]| == |b[i]|
    ensures Cells(a) == Cells(b)
  {
    if a != [] {
      CellsAlike(a[1..], b[1..]);
    }
  }

  /** A board of `|g|` rows of `w` cells has `|g| * w` cells. */
  lemma {:induction false} CellsRect<T>(g: seq<seq<T>>, w: nat)
    requires forall i :: 0 <= i < |g| ==> |g[i]| == w
    ensures Cells(g) == |g| * w
  {
    if g != [] {
      CellsRect(g[1..], w);
    }
  }

  ghost function LitMarks(kinds: Grid, origin: Beam): (m: Marks)
    ensures |m| == |kinds| && forall i :: 0 <= i < |kinds| ==> |m[i]| == |kinds[i]|
  {
    seq(|kinds|, i requires 0 <= i < |kinds| => seq(|kinds[i]|, j => Lit(kinds, origin, i, j)))
  }

  /** The number of cells a beam sent in as `origin` passes through. */
  ghost function LitCount(kinds: Grid, origin: Beam): (n: nat)
    ensures n <= Cells(kinds)
  {
    CellsAlike(LitMarks(kinds, origin), kinds);
    Count(LitMarks(kinds, origin))
  }

  /** Send a beam into a board no beam has passed through, and count the
      energized cells. Afterwards exactly the cells the beam passes through
      are energized, the beam's start is covered, and no direction taken is
      left pending: every one leads to a cell already entered that way. */
  method Energize(b: Board, start: Beam) returns (n: nat)
    requires b.Pristine()
    modifies b
    ensures n == LitCount(b.kinds, start)
    ensures b.energized == LitMarks(b.kinds, start)
    ensures b.Valid() && Covered(b.kinds, b.energized, b.taken, start.0, start.1, start.2)
    ensures ClosedExcept(b.kinds, b.energized, b.taken, {})
  {
    assert ClosedExcept(b.kinds, b.energized, b.taken, {});
    assert Sound(b.kinds, start, b.energized);
    b.TakeStep(start.0, start.1, start.2, start, [start], {});
    LitExactly(b.kinds, start, b.energized, b.taken);
    ghost var lit := LitMarks(b.kinds, start);
    forall i | 0 <= i < |b.kinds|
      ensures b.energized[i] == lit[i]
    {
      assert |b.energized[i]| == |lit[i]|;
    }
    assert b.energized == lit;
    n := Count(b.energized);
  }

  /** `part_one`: the beam enters the top left cell heading east. */
  method PartOne(grid: Grid) returns (n: nat)
    ensures n == LitCount(grid, (0, 0, East)) && n <= Cells(grid)
  {
    var board := new Board(grid);
    n := Energize(board, (0, 0, East));
  }

  // ---------------------------------------------------------------------
  // Part two: every edge start
  // ---------------------------------------------------------------------

  /** The starts `part_two` tries along the first `n` rows of a board
      `w` columns wide: each row from the west, then from the east edge. */
  function RowStarts(n: nat, w: nat): (s: seq<Beam>)
    ensures |s| == 2 * n
  {
    if n == 0 then [] else RowStarts(n - 1, w) + [(n - 1, 0, East), (n - 1, w - 1, West)]
  }

  /** The starts along the first `n` columns of a board `h` rows high:
      each column from the north, then from the south edge. */
  function ColumnStarts(n: nat, h: nat): (s: seq<Beam>)
    ensures |s| == 2 * n
  {
    if n == 0 then [] else ColumnStarts(n - 1, h) + [(0, n - 1, South), (h - 1, n - 1, North)]
  }

  /** Every start `part_two` tries on a board `h` by `w`. */
  function EdgeStarts(h: nat, w: nat): seq<Beam> {
    RowStarts(h, w) + ColumnStarts(w, h)
  }

  /** Every edge start enters the board, on the edge it names. */
  lemma {:induction false} EdgeStartsOnBoard(h: nat, w: nat, k: nat)
    requires h > 0 && w > 0 && k < |EdgeStarts(h, w)|
    ensures var b := EdgeStarts(h, w)[k];
      0 <= b.0 < h && 0 <= b.1 < w
      && (b.2 == East ==> b.1 == 0) && (b.2 == West ==> b.1 == w - 1)
      && (b.2 == South ==> b.0 == 0) && (b.2 == North ==> b.0 == h - 1)
  {
    if k < 2 * h {
      RowStartsOnBoard(h, w, k);
    } else {
      ColumnStartsOnBoard(w, h, k - 2 * h);
    }
  }

  lemma {:induction false} RowStartsOnBoard(n: nat, w: nat, k: nat)
    requires w > 0 && k < 2 * n
    ensures var b := RowStarts(n, w)[k];
      0 <= b.0 < n && (b.2 == East || b.2 == West)
      && (b.2 == East ==> b.1 == 0) && (b.2 == West ==> b.1 == w - 1)
  {
    if k < 2 * (n - 1) {
      RowStartsOnBoard(n - 1, w, k);
    }
  }

  lemma {:induction false} ColumnStartsOnBoard(n: nat, h: nat, k: nat)
    requires h > 0 && k < 2 * n
    ensures var b := ColumnStarts(n, h)[k];
      0 <= b.1 < n && (b.2 == South || b.2 == North)
      && (b.2 == South ==> b.0 == 0) && (b.2 == North ==> b.0 == h - 1)
  {
    if k < 2 * (n - 1) {
      ColumnStartsOnBoard(n - 1, h, k);
    }
  }

  function Max(a: nat, b: nat): nat {
    if a < b then b else a
  }

  /** The number of cells a start energizes. */
  ghost function Score(kinds: Grid): Beam -> nat {
    b => LitCount(kinds, b)
  }

  /** `current_max` after the starts `s`, scored by `score`. */
  ghost function Best(score: Beam -> nat, s: seq<Beam>): nat {
    if s == [] then 0 else Max(Best(score, s[..|s| - 1]), score(s[|s| - 1]))
  }

  lemma BestPair(score: Beam -> nat, s: seq<Beam>, a: Beam, b: Beam)
    ensures Best(score, s + [a, b]) == Max(Max(Best(score, s), score(a)), score(b))
  {
    assert (s + [a, b])[..|s| + 1] == s + [a];
    assert (s + [a])[..|s|] == s;
  }

  /** The best of the scores of the starts is the score of one of them
      and no smaller than any. */
  lemma {:induction false} BestIsMax(score: Beam -> nat, s: seq<Beam>)
    ensures forall k :: 0 <= k < |s| ==> score(s[k]) <= Best(score, s)
    ensures s != [] ==> exists k :: 0 <= k < |s| && Best(score, s) == score(s[k])
  {
    if s != [] {
      var t := s[..|s| - 1];
      BestIsMax(score, t);
      assert forall k :: 0 <= k < |t| ==> t[k] == s[k];
      if t != [] && Best(score, s) == Best(score, t) {
        var k :| 0 <= k < |t| && Best(score, t) == score(t[k]);
        assert Best(score, s) == score(s[k]);
      } else {
        assert Best(score, s) == score(s[|s| - 1]);
      }
    }
  }

  /** A bound on every score bounds the best. */
  lemma {:induction false} BestBounded(score: Beam -> nat, s: seq<Beam>, bound: nat)
    requires forall k :: 0 <= k < |s| ==> score(s[k]) <= bound
    ensures Best(score, s) <= bound
  {
    if s != [] {
      var t := s[..|s| - 1];
      assert forall k :: 0 <= k < |t| ==> t[k] == s[k];
      BestBounded(score, t, bound);
    }
  }

  /** One start of `part_two`: a fresh clone of the board, the beam sent
      in, and the energized cells counted. */
  method Trial(board: Board, start: Beam) returns (n: nat)
    requires board.Pristine()
    ensures n == Score(board.kinds)(start)
  {
    var copy := board.Clone();
    n := Energize(copy, start);
  }

  /** One turn of the column loop adds the column's two starts. */
  lemma BestColumn(score: Beam -> nat, rows: seq<Beam>, i: nat, h: nat)
    ensures Best(score, rows + ColumnStarts(i + 1, h))
      == Max(Max(Best(score, rows + ColumnStarts(i, h)), score((0, i, South))), score((h - 1, i, North)))
  {
    var pair := [(0, i, South), (h - 1, i, North)];
    assert ColumnStarts(i + 1, h) == ColumnStarts(i, h) + pair;
    assert rows + ColumnStarts(i + 1, h) == rows + ColumnStarts(i, h) + pair;
    BestPair(score, rows + ColumnStarts(i, h), (0, i, South), (h - 1, i, North));
  }

  /** `part_two`: the most cells any edge start energizes, each on a fresh
      clone of the board. None where the source panics: no rows, or a first
      row with no cells (`board_width - 1` underflows). */
  method PartTwo(grid: Grid) returns (r: Option<nat>)
    ensures r.None? <==> |grid| == 0 || |grid[0]| == 0
    ensures r.Some? ==> r.value == Best(Score(grid), EdgeStarts(|grid|, |grid[0]|))
  {
    if |grid| == 0 || |grid[0]| == 0 {
      return None;
    }
    var board := new Board(grid);
    var currentMax := RowTrials(board, |grid[0]|);
    currentMax := ColumnTrials(board, |grid|, |grid[0]|, currentMax, RowStarts(|grid|, |grid[0]|));
    r := Some(currentMax);
  }

  /** The first loop of `part_two`: each row from the west and east edges. */
  method RowTrials(board: Board, w: nat) returns (currentMax: nat)
    requires board.Pristine()
    ensures currentMax == Best(Score(board.kinds), RowStarts(|board.kinds|, w))
  {
    ghost var score := Score(board.kinds);
    currentMax := 0;
    for i := 0 to |board.kinds|
      invariant currentMax == Best(score, RowStarts(i, w))
    {
      var left := Trial(board, (i, 0, East));
      currentMax := Max(currentMax, left);
      var right := Trial(board, (i, w - 1, West));
      currentMax := Max(currentMax, right);
      BestPair(score, RowStarts(i, w), (i, 0, East), (i, w - 1, West));
    }
  }

  /** The second loop of `part_two`: each column from the north and south
      edges, after the starts `rows`. */
  method ColumnTrials(board: Board, h: nat, w: nat, best: nat, ghost rows: seq<Beam>) returns (currentMax: nat)
    requires board.Pristine() && best == Best(Score(board.kinds), rows)
    ensures currentMax == Best(Score(board.kinds), rows + ColumnStarts(w, h))
  {
    ghost var score := Score(board.kinds);
    currentMax := best;
    assert rows + ColumnStarts(0, h) == rows;
    for i := 0 to w
      invariant currentMax == Best(score, rows + ColumnStarts(i, h))
    {
      var top := Trial(board, (0, i, South));
      currentMax := Max(currentMax, top);
      var bottom := Trial(board, (h - 1, i, North));
      currentMax := Max(currentMax, bottom);
      BestColumn(score, rows, i, h);
    }
  }

  /** On a rectangular board the answer is at most rows times columns. */
  lemma PartTwoBound(grid: Grid)
    requires |grid| > 0 && forall i :: 0 <= i < |grid| ==> |grid[i]| == |grid[0]|
    ensures Best(Score(grid), EdgeStarts(|grid|, |grid[0]|)) <= |grid| * |grid[0]|
  {
    var h, w := |grid|, |grid[0]|;
    var s := EdgeStarts(h, w);
    CellsRect(grid, w);
    forall k | 0 <= k < |s|
      ensures Score(grid)(s[k]) <= h * w
    {
      assert Score(grid)(s[k]) == LitCount(grid, s[k]);
    }
    BestBounded(Score(grid), s, h * w);
  }
}
