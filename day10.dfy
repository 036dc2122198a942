/**
 * Day 10, pipe maze: a grid of pipe tiles with one start tile on a closed
 * loop. Part one walks the loop from the start and halves its length; part
 * two records the loop's corners as a polygon, marks every loop tile, and
 * counts the unmarked tiles that W. R. Franklin's point-in-polygon test
 * (PNPOLY, with integer arithmetic) puts inside.
 */
module Day10 {
  import opened Wrappers
  import opened Text

  // ---------------------------------------------------------------------
  // Directions and tiles
  // ---------------------------------------------------------------------

  datatype Direction = North | East | South | West

  /** `Direction::CARDINALS`, the order in which the start's neighbours are
      tried. */
  const Cardinals: seq<Direction> := [North, East, South, West]

  /** The (row, column) change of one step. */
  function Offset(d: Direction): (int, int)
  {
    match d
    case North => (-1, 0)
    case East => (0, 1)
    case South => (1, 0)
    case West => (0, -1)
  }

  function Opposite(d: Direction): Direction
  {
    match d
    case North => South
    case East => West
    case South => North
    case West => East
  }

  /** Turning round twice is the identity, and it reverses the step. */
  lemma OppositeReverses(d: Direction)
    ensures Opposite(Opposite(d)) == d && Opposite(d) != d
    ensures Offset(Opposite(d)) == (-Offset(d).0, -Offset(d).1)
  {
  }

  function Move(pos: (int, int), d: Direction): (int, int)
  {
    (pos.0 + Offset(d).0, pos.1 + Offset(d).1)
  }

  datatype Tile = NorthEast | NorthSouth | NorthWest | EastSouth | EastWest | SouthWest | Empty | Start

  /** `Tile::from_char`; None where the source panics. */
  function TileFromChar(c: char): (r: Option<Tile>)
    ensures r.Some? <==> c in "|-LJ7F.S"
    ensures r == Some(Start) <==> c == 'S'
    ensures r == Some(Empty) <==> c == '.'
  {
    match c
    case '|' => Some(NorthSouth)
    case '-' => Some(EastWest)
    case 'L' => Some(NorthEast)
    case 'J' => Some(NorthWest)
    case '7' => Some(SouthWest)
    case 'F' => Some(EastSouth)
    case '.' => Some(Empty)
    case 'S' => Some(Start)
    case _ => None
  }

  /** The sides a tile opens to, read off its name; none for the ground and
      the start. */
  function Connections(t: Tile): set<Direction>
  {
    match t
    case NorthEast => {North, East}
    case NorthSouth => {North, South}
    case NorthWest => {North, West}
    case EastSouth => {East, South}
    case EastWest => {East, West}
    case SouthWest => {South, West}
    case Empty => {}
    case Start => {}
  }

  const NorthTiles: seq<Tile> := [NorthEast, NorthSouth, NorthWest]
  const EastTiles: seq<Tile> := [NorthEast, EastSouth, EastWest]
  const SouthTiles: seq<Tile> := [NorthSouth, EastSouth, SouthWest]
  const WestTiles: seq<Tile> := [NorthWest, EastWest, SouthWest]

  /** `Tile::get_allowed_incoming`: the tiles a step in direction d may
      enter. */
  function AllowedIncoming(d: Direction): seq<Tile>
  {
    match d
    case North => SouthTiles
    case East => WestTiles
    case West => EastTiles
    case South => NorthTiles
  }

  /** A step in direction d may enter exactly the three tiles that open
      back towards where it came from. */
  lemma AllowedIncomingConnects(d: Direction, t: Tile)
    ensures t in AllowedIncoming(d) <==> Opposite(d) in Connections(t)
    ensures |AllowedIncoming(d)| == 3
  {
  }

  /** `Tile::get_remaining_direction`; None on the ground and the start,
      where the source panics. */
  function RemainingDirection(t: Tile, d: Direction): (r: Option<Direction>)
    ensures r.None? <==> t == Empty || t == Start
  {
    match t
    case NorthEast => Some(if d == North then East else North)
    case NorthSouth => Some(if d == North then South else North)
    case NorthWest => Some(if d == North then West else North)
    case EastSouth => Some(if d == East then South else East)
    case EastWest => Some(if d == East then West else East)
    case SouthWest => Some(if d == South then West else South)
    case Empty => None
    case Start => None
  }

  /** Entered through one of its openings, a pipe is left through the other
      one. */
  lemma RemainingIsOther(t: Tile, d: Direction)
    requires d in Connections(t)
    ensures RemainingDirection(t, d).Some?
    ensures var e := RemainingDirection(t, d).value;
            e != d && Connections(t) == {d, e}
  {
  }

  /** The tiles part two records as polygon vertices. */
  predicate IsCorner(t: Tile)
  {
    t == NorthEast || t == SouthWest || t == NorthWest || t == EastSouth
  }

  /** A corner turns the walk; a straight pipe keeps its heading. */
  lemma CornersTurn(t: Tile, d: Direction)
    requires d in Connections(t)
    ensures IsCorner(t) <==> RemainingDirection(t, d) != Some(Opposite(d))
  {
  }

  // ---------------------------------------------------------------------
  // The board
  // ---------------------------------------------------------------------

  /** Inside the board, measured against the first row's width. */
  predicate InBounds(tiles: seq<seq<Tile>>, pos: (int, int))
  {
    0 <= pos.0 && 0 <= pos.1 && pos.0 < |tiles| && pos.1 < |tiles[0]|
  }

  /** What `get` does at a position: `None` off the board, an index panic
      where the position is within the first row's width but past the end
      of its own shorter row, and otherwise the tile. */
  datatype Probe = Off | Short | At(tile: Tile)

  function Lookup(tiles: seq<seq<Tile>>, pos: (int, int)): (r: Probe)
    ensures r.Off? <==> !InBounds(tiles, pos)
    ensures r.Short? <==> InBounds(tiles, pos) && pos.1 >= |tiles[pos.0]|
    ensures r.At? ==> InBounds(tiles, pos) && pos.1 < |tiles[pos.0]| && r.tile == tiles[pos.0][pos.1]
  {
    if !InBounds(tiles, pos) then Off
    else if pos.1 < |tiles[pos.0]| then At(tiles[pos.0][pos.1])
    else Short
  }

  /** The tile at pos where `get(pos).unwrap()` gives one; None where that
      panics, off the board or past the end of a short row. */
  function TileAt(tiles: seq<seq<Tile>>, pos: (int, int)): (r: Option<Tile>)
    ensures r.Some? <==> 0 <= pos.0 < |tiles| && 0 <= pos.1 < |tiles[pos.0]| && pos.1 < |tiles[0]|
    ensures r.Some? ==> r.value == tiles[pos.0][pos.1]
  {
    if 0 <= pos.0 < |tiles| && 0 <= pos.1 < |tiles[0]| && pos.1 < |tiles[pos.0]| then Some(tiles[pos.0][pos.1])
    else None
  }

  /** `get(pos).unwrap()` gives a tile exactly where `get` finds one. */
  lemma UnwrapLookup(tiles: seq<seq<Tile>>, pos: (int, int))
    ensures TileAt(tiles, pos).Some? <==> Lookup(tiles, pos).At?
    ensures Lookup(tiles, pos).At? ==> TileAt(tiles, pos) == Some(Lookup(tiles, pos).tile)
  {
  }

  function ParseRow(line: string): (r: Option<seq<Tile>>)
    ensures r.Some? <==> forall k :: 0 <= k < |line| ==> TileFromChar(line[k]).Some?
    ensures r.Some? ==>
      |r.value| == |line| && forall k :: 0 <= k < |line| ==> Some(r.value[k]) == TileFromChar(line[k])
  {
    if line == [] then Some([])
    else match (ParseRow(line[..|line| - 1]), TileFromChar(line[|line| - 1]))
      case (Some(row), Some(t)) => Some(row + [t])
      case _ => None
  }

  /** The tiles of every line; None where `Tile::from_char` panics. */
  function ParseTiles(lines: seq<string>): (r: Option<seq<seq<Tile>>>)
    ensures r.Some? <==> forall k :: 0 <= k < |lines| ==> ParseRow(lines[k]).Some?
    ensures r.Some? ==>
      |r.value| == |lines| && forall k :: 0 <= k < |lines| ==> Some(r.value[k]) == ParseRow(lines[k])
  {
    if lines == [] then Some([])
    else match (ParseTiles(lines[..|lines| - 1]), ParseRow(lines[|lines| - 1]))
      case (Some(rows), Some(row)) => Some(rows + [row])
      case _ => None
  }

  /** The first start tile of a row. */
  function FindInRow(row: seq<Tile>): (r: Option<nat>)
    ensures r.Some? ==>
      r.value < |row| && row[r.value] == Start && forall k :: 0 <= k < r.value ==> row[k] != Start
    ensures r.None? ==> Start !in row
  {
    if row == [] then None
    else if row[0] == Start then Some(0)
    else match FindInRow(row[1..])
      case Some(k) => Some(k + 1)
      case None => None
  }

  /** The start coordinates `from_str` finds: the first row holding a
      start, and the first start in it. None where the source panics. */
  function FindStart(tiles: seq<seq<Tile>>): (r: Option<(int, int)>)
    ensures r.Some? ==>
      0 <= r.value.0 < |tiles| && 0 <= r.value.1 < |tiles[r.value.0]|
      && tiles[r.value.0][r.value.1] == Start
      && (forall i :: 0 <= i < r.value.0 ==> Start !in tiles[i])
      && (forall k :: 0 <= k < r.value.1 ==> tiles[r.value.0][k] != Start)
    ensures r.None? ==> forall i :: 0 <= i < |tiles| ==> Start !in tiles[i]
  {
    if tiles == [] then None
    else match FindInRow(tiles[0])
      case Some(j) => Some((0, j as int))
      case None =>
        match FindStart(tiles[1..])
        case Some(p) => Some((p.0 + 1, p.1))
        case None => None
  }

  /** `Gameboard`: the tiles and the start coordinates. */
  class Gameboard {
    var startCoords: (int, int)
    var board: seq<seq<Tile>>

    /** The struct literal of `Gameboard::from_str`, once the start is
        found. */
    constructor (tiles: seq<seq<Tile>>, start: (int, int))
      requires FindStart(tiles) == Some(start)
      ensures board == tiles && startCoords == start
    {
      board := tiles;
      startCoords := start;
    }

    /** `Gameboard::get`: the bounds are those of the first row, and the
        indexing of a shorter row is the panic. */
    function Get(pos: (int, int)): (r: Probe)
      reads this
      ensures r == Lookup(board, pos)
    {
      if pos.0 >= 0 && pos.1 >= 0 && pos.0 < |board| && pos.1 < |board[0]| then
        if pos.1 < |board[pos.0]| then At(board[pos.0][pos.1]) else Short
      else Off
    }

    /** `Gameboard::set`, at a tile that `get` has just read. */
    method Set(pos: (int, int), tile: Tile)
      requires 0 <= pos.0 < |board| && 0 <= pos.1 < |board[pos.0]|
      modifies this
      ensures board == old(board)[pos.0 := old(board)[pos.0][pos.1 := tile]]
      ensures startCoords == old(startCoords)
    {
      board := board[pos.0 := board[pos.0][pos.1 := tile]];
    }
  }

  /** `Gameboard::from_str`, given the parsed tiles: null where the
      `unwrap` of the start search panics on a board without a start. */
  method FromTiles(tiles: seq<seq<Tile>>) returns (g: Gameboard?)
    ensures g == null <==> FindStart(tiles).None?
    ensures g != null ==> fresh(g) && g.board == tiles && g.startCoords == FindStart(tiles).value
  {
    var start := FindStart(tiles);
    if start.None? {
      return null;
    }
    g := new Gameboard(tiles, start.value);
  }

  // ---------------------------------------------------------------------
  // Part one: walking the loop
  // ---------------------------------------------------------------------

  /** How a walk ends. The source loops until it meets a start tile, which a
      malformed board may never give, so `fuel` bounds the number of moves. */
  datatype Outcome = Answer(value: nat) | Panics | OutOfFuel

  /** Probing neighbour i of the start finds a tile that opens back
      towards the start. */
  predicate Enters(tiles: seq<seq<Tile>>, start: (int, int), i: nat)
    requires i < 4
  {
    var p := Lookup(tiles, Move(start, Cardinals[i]));
    p.At? && Opposite(Cardinals[i]) in Connections(p.tile)
  }

  /** Probing neighbour i of the start runs past the end of a short row. */
  predicate ProbeShort(tiles: seq<seq<Tile>>, start: (int, int), i: nat)
    requires i < 4
  {
    Lookup(tiles, Move(start, Cardinals[i])).Short?
  }

  /** The probes k to i - 1 neither enter a tile nor panic. */
  predicate Passed(tiles: seq<seq<Tile>>, start: (int, int), k: nat, i: nat)
    requires i <= 4
  {
    forall j :: k <= j < i ==> !Enters(tiles, start, j) && !ProbeShort(tiles, start, j)
  }

  /** The first neighbour of the start, in the order North, East, South,
      West, that is on the board and opens back towards the start: where
      the walk begins and the side it is entered from. None where no
      neighbour does, and where a probe before the one that would have
      matched panics inside `get`: both end in a panic. */
  function FirstMove(tiles: seq<seq<Tile>>, start: (int, int), k: nat): (r: Option<((int, int), Direction)>)
    requires k <= 4
    ensures r.Some? ==>
      exists i :: k <= i < 4 && r.value == (Move(start, Cardinals[i]), Opposite(Cardinals[i]))
        && Enters(tiles, start, i) && Passed(tiles, start, k, i)
    ensures r.None? ==> forall i :: k <= i < 4 && Enters(tiles, start, i) ==>
      exists j :: k <= j < i && ProbeShort(tiles, start, j)
    decreases 4 - k
  {
    if k == 4 then None
    else
      var d := Cardinals[k];
      var pos := Move(start, d);
      match Lookup(tiles, pos)
      case Short =>
        assert ProbeShort(tiles, start, k);
        None
      case Off =>
        assert !Enters(tiles, start, k) && !ProbeShort(tiles, start, k);
        FirstMove(tiles, start, k + 1)
      case At(t) =>
        AllowedIncomingConnects(d, t);
        if t in AllowedIncoming(d) then
          assert Enters(tiles, start, k);
          Some((pos, Opposite(d)))
        else
          assert !Enters(tiles, start, k) && !ProbeShort(tiles, start, k);
          FirstMove(tiles, start, k + 1)
  }

  /** One move of the walk: leave the tile at pos through the opening other
      than prev, and enter the next tile from the side facing back. */
  function Step(tiles: seq<seq<Tile>>, pos: (int, int), prev: Direction): Option<((int, int), Direction)>
  {
    match TileAt(tiles, pos)
    case None => None
    case Some(t) =>
      match RemainingDirection(t, prev)
      case None => None
      case Some(d) => Some((Move(pos, d), Opposite(d)))
  }

  /** `path_length` when the walk meets a start tile, having counted moves
      from `length`. */
  function PathLength(tiles: seq<seq<Tile>>, pos: (int, int), prev: Direction, length: nat, fuel: nat): Outcome
    decreases fuel
  {
    match TileAt(tiles, pos)
    case None => Panics
    case Some(t) =>
      if t == Start then Answer(length)
      else if fuel == 0 then OutOfFuel
      else match Step(tiles, pos, prev)
        case None => Panics
        case Some(next) => PathLength(tiles, next.0, next.1, length + 1, fuel - 1)
  }

  /** part_one: half the number of moves around the loop. */
  function PartOneAnswer(tiles: seq<seq<Tile>>, start: (int, int), fuel: nat): Outcome
  {
    match FirstMove(tiles, start, 0)
    case None => Panics
    case Some(first) =>
      match PathLength(tiles, first.0, first.1, 1, fuel)
      case Answer(n) => Answer(n / 2)
      case Panics => Panics
      case OutOfFuel => OutOfFuel
  }

  /** The search of the start's neighbours, shared by both parts; None
      leaves `current_coord` at (-1, -1). */
  method FindFirstMove(g: Gameboard) returns (r: Option<((int, int), Direction)>)
    ensures r == FirstMove(g.board, g.startCoords, 0)
  {
    r := None;
    var k := 0;
    while k < 4
      invariant 0 <= k <= 4
      invariant FirstMove(g.board, g.startCoords, 0) == FirstMove(g.board, g.startCoords, k)
    {
      var direction := Cardinals[k];
      var checkingPos := Move(g.startCoords, direction);
      var tile := g.Get(checkingPos);
      if tile.Short? {
        return None;
      }
      if tile.At? && tile.tile in AllowedIncoming(direction) {
        r := Some((checkingPos, Opposite(direction)));
        return;
      }
      k := k + 1;
    }
  }

  /** part_one, on a board already read. */
  method PartOne(g: Gameboard, fuel: nat) returns (o: Outcome)
    ensures o == PartOneAnswer(g.board, g.startCoords, fuel)
  {
    var first := FindFirstMove(g);
    if first.None? {
      return Panics;
    }
    var board := g.board;
    var currentCoord, prevDirection := first.value.0, first.value.1;
    var pathLength: nat := 1;
    var left := fuel;
    while true
      invariant PathLength(board, first.value.0, first.value.1, 1, fuel)
        == PathLength(board, currentCoord, prevDirection, pathLength, left)
      decreases left
    {
      var tile := g.Get(currentCoord);
      UnwrapLookup(board, currentCoord);
      if !tile.At? {
        return Panics;
      }
      if tile.tile == Start {
        return Answer(pathLength / 2);
      }
      if left == 0 {
        return OutOfFuel;
      }
      var newDirection := RemainingDirection(tile.tile, prevDirection);
      if newDirection.None? {
        return Panics;
      }
      currentCoord, prevDirection, pathLength, left :=
        Advance(board, currentCoord, prevDirection, pathLength, left, tile.tile, newDirection.value);
    }
  }

  /** The end of one round of part one's loop: step through the pipe, count
      the move and spend a unit of fuel; the rest of the walk is unchanged. */
  method Advance(tiles: seq<seq<Tile>>, pos: (int, int), prev: Direction, length: nat, fuel: nat, t: Tile, e: Direction)
    returns (next: (int, int), from: Direction, counted: nat, left: nat)
    requires TileAt(tiles, pos) == Some(t) && t != Start && RemainingDirection(t, prev) == Some(e) && fuel > 0
    ensures next == Move(pos, e) && from == Opposite(e) && counted == length + 1 && left == fuel - 1
    ensures PathLength(tiles, pos, prev, length, fuel) == PathLength(tiles, next, from, counted, left)
  {
    PathMove(tiles, pos, prev, length, fuel, t, e);
    next, from, counted, left := Move(pos, e), Opposite(e), length + 1, fuel - 1;
  }

  /** However much fuel is added, a walk that finished still finishes the
      same way. */
  lemma {:induction false} MoreFuelSameAnswer(tiles: seq<seq<Tile>>, pos: (int, int), prev: Direction, length: nat, fuel: nat, more: nat)
    requires fuel <= more
    requires PathLength(tiles, pos, prev, length, fuel) != OutOfFuel
    ensures PathLength(tiles, pos, prev, length, more) == PathLength(tiles, pos, prev, length, fuel)
    decreases fuel
  {
    match TileAt(tiles, pos)
    case None =>
    case Some(t) =>
      if t != Start && fuel > 0 {
        match Step(tiles, pos, prev)
        case None =>
        case Some(next) =>
          MoreFuelSameAnswer(tiles, next.0, next.1, length + 1, fuel - 1, more - 1);
      }
  }

  /** A finished walk counted one move for each unit of fuel it used. */
  lemma {:induction false} LengthUsesFuel(tiles: seq<seq<Tile>>, pos: (int, int), prev: Direction, length: nat, fuel: nat)
    ensures PathLength(tiles, pos, prev, length, fuel).Answer? ==>
      length <= PathLength(tiles, pos, prev, length, fuel).value <= length + fuel
    decreases fuel
  {
    match TileAt(tiles, pos)
    case None =>
    case Some(t) =>
      if t != Start && fuel > 0 {
        match Step(tiles, pos, prev)
        case None =>
        case Some(next) =>
          LengthUsesFuel(tiles, next.0, next.1, length + 1, fuel - 1);
      }
  }

  // ---------------------------------------------------------------------
  // Part two: marking the loop
  // ---------------------------------------------------------------------

  function NonStartRow(row: seq<Tile>): nat
  {
    if row == [] then 0
    else NonStartRow(row[..|row| - 1]) + (if row[|row| - 1] != Start then 1 else 0)
  }

  /** The number of tiles that are not (yet) a start tile. */
  function NonStart(tiles: seq<seq<Tile>>): nat
  {
    if tiles == [] then 0 else NonStart(tiles[..|tiles| - 1]) + NonStartRow(tiles[|tiles| - 1])
  }

  /** The board after `set(pos, Tile::Start)`. */
  function Mark(tiles: seq<seq<Tile>>, pos: (int, int)): (r: seq<seq<Tile>>)
    requires 0 <= pos.0 < |tiles| && 0 <= pos.1 < |tiles[pos.0]|
    ensures |r| == |tiles| && forall i :: 0 <= i < |r| ==> |r[i]| == |tiles[i]|
    ensures forall i, j :: 0 <= i < |r| && 0 <= j < |r[i]| ==>
      r[i][j] == if (i, j) == pos then Start else tiles[i][j]
  {
    tiles[pos.0 := tiles[pos.0][pos.1 := Start]]
  }

  lemma {:induction false} MarkRowCounts(row: seq<Tile>, c: nat)
    requires c < |row|
    ensures NonStartRow(row[c := Start]) == NonStartRow(row) - (if row[c] != Start then 1 else 0)
  {
    var n := |row|;
    var marked := row[c := Start];
    if c == n - 1 {
      assert marked[..n - 1] == row[..n - 1];
    } else {
      assert marked[..n - 1] == row[..n - 1][c := Start];
      MarkRowCounts(row[..n - 1], c);
    }
  }

  lemma {:induction false} MarkCounts(tiles: seq<seq<Tile>>, pos: (int, int))
    requires 0 <= pos.0 < |tiles| && 0 <= pos.1 < |tiles[pos.0]|
    ensures NonStart(Mark(tiles, pos)) == NonStart(tiles) - (if tiles[pos.0][pos.1] != Start then 1 else 0)
  {
    var n := |tiles|;
    if pos.0 == n - 1 {
      MarkLastCounts(tiles, pos);
    } else {
      var marked := Mark(tiles, pos);
      var drop := if tiles[pos.0][pos.1] != Start then 1 else 0;
      assert NonStart(marked) == NonStart(marked[..n - 1]) + NonStartRow(marked[n - 1]);
      assert NonStart(tiles) == NonStart(tiles[..n - 1]) + NonStartRow(tiles[n - 1]);
      MarkEarlierRow(tiles, pos);
      MarkCounts(tiles[..n - 1], pos);
      assert NonStart(marked[..n - 1]) == NonStart(tiles[..n - 1]) - drop;
    }
  }

  /** MarkCounts where the marked tile lies in the last row. */
  lemma MarkLastCounts(tiles: seq<seq<Tile>>, pos: (int, int))
    requires 0 <= pos.0 < |tiles| && 0 <= pos.1 < |tiles[pos.0]| && pos.0 == |tiles| - 1
    ensures NonStart(Mark(tiles, pos)) == NonStart(tiles) - (if tiles[pos.0][pos.1] != Start then 1 else 0)
  {
    var n := |tiles|;
    var marked := Mark(tiles, pos);
    assert NonStart(marked) == NonStart(marked[..n - 1]) + NonStartRow(marked[n - 1]);
    assert NonStart(tiles) == NonStart(tiles[..n - 1]) + NonStartRow(tiles[n - 1]);
    MarkLastRow(tiles, pos);
    MarkRowCounts(tiles[n - 1], pos.1);
  }

  lemma MarkLastRow(tiles: seq<seq<Tile>>, pos: (int, int))
    requires 0 <= pos.0 < |tiles| && 0 <= pos.1 < |tiles[pos.0]| && pos.0 == |tiles| - 1
    ensures Mark(tiles, pos)[..pos.0] == tiles[..pos.0]
    ensures Mark(tiles, pos)[pos.0] == tiles[pos.0][pos.1 := Start]
  {
  }

  lemma MarkEarlierRow(tiles: seq<seq<Tile>>, pos: (int, int))
    requires 0 <= pos.0 < |tiles| - 1 && 0 <= pos.1 < |tiles[pos.0]|
    ensures Mark(tiles, pos)[..|tiles| - 1] == Mark(tiles[..|tiles| - 1], pos)
    ensures Mark(tiles, pos)[|tiles| - 1] == tiles[|tiles| - 1]
  {
    assert tiles[..|tiles| - 1][pos.0] == tiles[pos.0];
  }

  /** How part two's walk ends: at a start tile, with the marked board and
      the recorded corners, or in a panic. */
  datatype Traced =
    | Traced(board: seq<seq<Tile>>, xs: seq<int>, ys: seq<int>, end: (int, int), entered: Direction)
    | Stranded

  /** The loop of part_two from pos, entered from side prev: record a corner,
      mark the tile with a start tile, move on. Every move marks one more
      tile, so the walk ends on every board. */
  function Trace(tiles: seq<seq<Tile>>, pos: (int, int), prev: Direction, xs: seq<int>, ys: seq<int>): (r: Traced)
    requires |xs| == |ys|
    ensures r.Traced? ==>
      |r.board| == |tiles| && (forall i :: 0 <= i < |tiles| ==> |r.board[i]| == |tiles[i]|) && |r.xs| == |r.ys|
      && TileAt(r.board, r.end) == Some(Start) && NonStart(r.board) <= NonStart(tiles)
    decreases NonStart(tiles)
  {
    match TileAt(tiles, pos)
    case None => Stranded
    case Some(t) =>
      if t == Start then Traced(tiles, xs, ys, pos, prev)
      else if t == Empty then Stranded
      else
        MarkCounts(tiles, pos);
        var d := RemainingDirection(t, prev).value;
        if IsCorner(t) then Trace(Mark(tiles, pos), Move(pos, d), Opposite(d), xs + [pos.0], ys + [pos.1])
        else Trace(Mark(tiles, pos), Move(pos, d), Opposite(d), xs, ys)
  }

  /** part_two's walk from the start: the first move, then the loop. */
  function TraceFrom(tiles: seq<seq<Tile>>, start: (int, int)): (r: Traced)
    ensures r.Traced? ==> FirstMove(tiles, start, 0).Some?
  {
    match FirstMove(tiles, start, 0)
    case None => Stranded
    case Some(first) => Trace(tiles, first.0, first.1, [], [])
  }

  /** One move of part two's walk, onto the board with the tile marked. */
  lemma TraceMove(tiles: seq<seq<Tile>>, pos: (int, int), prev: Direction, xs: seq<int>, ys: seq<int>,
                  marked: seq<seq<Tile>>, next: (int, int), entered: Direction, xs': seq<int>, ys': seq<int>)
    requires |xs| == |ys| && TileAt(tiles, pos).Some?
    requires tiles[pos.0][pos.1] != Start && tiles[pos.0][pos.1] != Empty
    requires marked == Mark(tiles, pos)
    requires var e := RemainingDirection(tiles[pos.0][pos.1], prev).value;
             next == Move(pos, e) && entered == Opposite(e)
    requires xs' == (if IsCorner(tiles[pos.0][pos.1]) then xs + [pos.0] else xs)
    requires ys' == (if IsCorner(tiles[pos.0][pos.1]) then ys + [pos.1] else ys)
    ensures |xs'| == |ys'|
    ensures Trace(tiles, pos, prev, xs, ys) == Trace(marked, next, entered, xs', ys')
  {
  }

  // PNPOLY with integers

  /** Rust's `/` on integers, which truncates towards zero. */
  function Quot(a: int, b: int): int
    requires b != 0
  {
    var q := (if a < 0 then -a else a) / (if b < 0 then -b else b);
    if (a < 0) != (b < 0) then -q else q
  }

  /** The quotient is the one whose remainder has the dividend's sign and is
      smaller than the divisor. */
  lemma QuotTruncates(a: int, b: int)
    requires b != 0
    ensures var r := a - Quot(a, b) * b;
            (r == 0 || (r < 0) == (a < 0)) && (if r < 0 then -r else r) < (if b < 0 then -b else b)
  {
    var ua := if a < 0 then -a else a;
    var ub := if b < 0 then -b else b;
    var q := ua / ub;
    assert ua == q * ub + ua % ub;
    if a < 0 {
      assert Quot(a, b) * b == -(q * ub);
    } else if b < 0 {
      assert Quot(a, b) * b == q * ub;
    } else {
      assert Quot(a, b) * b == q * ub;
    }
  }

  /** The vertex before vertex i, wrapping round to the last one. */
  function Before(n: nat, i: nat): nat
    requires i < n
  {
    if i == 0 then n - 1 else i - 1
  }

  predicate Straddles(ys: seq<int>, i: nat, j: nat, py: int)
    requires i < |ys| && j < |ys|
  {
    (ys[i] > py) != (ys[j] > py)
  }

  /** The edge from vertex j to vertex i crosses the ray from the point, as
      is_in_polygon tests it. The division only runs on a straddling edge,
      where the divisor is not zero. */
  predicate Crosses(xs: seq<int>, ys: seq<int>, i: nat, j: nat, px: int, py: int)
    requires |xs| == |ys| && i < |xs| && j < |xs|
  {
    Straddles(ys, i, j, py) && px < Quot((xs[j] - xs[i]) * (py - ys[i]), ys[j] - ys[i]) + xs[i]
  }

  /** The answer of is_in_polygon after its first k edges. */
  function Parity(xs: seq<int>, ys: seq<int>, px: int, py: int, k: nat): bool
    requires |xs| == |ys| && k <= |xs|
  {
    if k == 0 then false
    else Parity(xs, ys, px, py, k - 1) != Crosses(xs, ys, k - 1, Before(|xs|, k - 1), px, py)
  }

  predicate InPolygon(xs: seq<int>, ys: seq<int>, px: int, py: int)
    requires |xs| == |ys|
  {
    Parity(xs, ys, px, py, |xs|)
  }

  /** is_in_polygon; the source underflows on an empty polygon. */
  method IsInPolygon(xs: seq<int>, ys: seq<int>, px: int, py: int) returns (c: bool)
    requires |xs| > 0 && |xs| == |ys|
    ensures c == InPolygon(xs, ys, px, py)
  {
    var j := |xs| - 1;
    c := false;
    for i := 0 to |xs|
      invariant j == if i == 0 then |xs| - 1 else i - 1
      invariant c == Parity(xs, ys, px, py, i)
    {
      if (ys[i] > py) != (ys[j] > py) && px < Quot((xs[j] - xs[i]) * (py - ys[i]), ys[j] - ys[i]) + xs[i] {
        c := !c;
      }
      j := i;
    }
  }

  // PNPOLY with exact arithmetic: the test the integer version stands for

  predicate ExactCrosses(xs: seq<int>, ys: seq<int>, i: nat, j: nat, px: int, py: int)
    requires |xs| == |ys| && i < |xs| && j < |xs|
  {
    Straddles(ys, i, j, py)
    && (px as real) < ((xs[j] - xs[i]) as real) * ((py - ys[i]) as real) / ((ys[j] - ys[i]) as real) + xs[i] as real
  }

  function ExactParity(xs: seq<int>, ys: seq<int>, px: int, py: int, k: nat): bool
    requires |xs| == |ys| && k <= |xs|
  {
    if k == 0 then false
    else ExactParity(xs, ys, px, py, k - 1) != ExactCrosses(xs, ys, k - 1, Before(|xs|, k - 1), px, py)
  }

  /** Every edge of the polygon is horizontal or vertical. */
  predicate Rectilinear(xs: seq<int>, ys: seq<int>)
    requires |xs| == |ys|
  {
    forall i :: 0 <= i < |xs| ==> xs[i] == xs[Before(|xs|, i)] || ys[i] == ys[Before(|xs|, i)]
  }

  /** On a horizontal or vertical edge the integer division is exact. */
  lemma AxisEdgeExact(xs: seq<int>, ys: seq<int>, i: nat, j: nat, px: int, py: int)
    requires |xs| == |ys| && i < |xs| && j < |xs|
    requires xs[i] == xs[j] || ys[i] == ys[j]
    ensures Crosses(xs, ys, i, j, px, py) == ExactCrosses(xs, ys, i, j, px, py)
  {
    if Straddles(ys, i, j, py) {
      assert xs[j] - xs[i] == 0;
      assert Quot((xs[j] - xs[i]) * (py - ys[i]), ys[j] - ys[i]) == 0;
      assert ((xs[j] - xs[i]) as real) * ((py - ys[i]) as real) / ((ys[j] - ys[i]) as real) == 0.0;
    }
  }

  /** On a polygon whose edges are horizontal or vertical, is_in_polygon
      gives the exact PNPOLY answer. */
  lemma {:induction false} RectilinearExact(xs: seq<int>, ys: seq<int>, px: int, py: int, k: nat)
    requires |xs| == |ys| && k <= |xs| && Rectilinear(xs, ys)
    ensures Parity(xs, ys, px, py, k) == ExactParity(xs, ys, px, py, k)
  {
    if k > 0 {
      RectilinearExact(xs, ys, px, py, k - 1);
      AxisEdgeExact(xs, ys, k - 1, Before(|xs|, k - 1), px, py);
    }
  }

  // Counting

  function CountRow(row: seq<Tile>, i: int, xs: seq<int>, ys: seq<int>): nat
    requires |xs| == |ys|
  {
    if row == [] then 0
    else
      var j := |row| - 1;
      CountRow(row[..j], i, xs, ys) + (if row[j] != Start && InPolygon(xs, ys, i, j) then 1 else 0)
  }

  /** The number of tiles that are not start tiles and lie inside the
      polygon. */
  function CountInside(tiles: seq<seq<Tile>>, xs: seq<int>, ys: seq<int>): nat
    requires |xs| == |ys|
  {
    if tiles == [] then 0
    else
      var i := |tiles| - 1;
      CountInside(tiles[..i], xs, ys) + CountRow(tiles[i], i, xs, ys)
  }

  lemma {:induction false} CountRowBound(row: seq<Tile>, i: int, xs: seq<int>, ys: seq<int>)
    requires |xs| == |ys|
    ensures CountRow(row, i, xs, ys) <= NonStartRow(row)
  {
    if row != [] {
      CountRowBound(row[..|row| - 1], i, xs, ys);
    }
  }

  /** Only tiles that are not start tiles are counted, so no tile of the
      marked loop is. */
  lemma {:induction false} CountInsideBound(tiles: seq<seq<Tile>>, xs: seq<int>, ys: seq<int>)
    requires |xs| == |ys|
    ensures CountInside(tiles, xs, ys) <= NonStart(tiles)
  {
    if tiles != [] {
      CountInsideBound(tiles[..|tiles| - 1], xs, ys);
      CountRowBound(tiles[|tiles| - 1], |tiles| - 1, xs, ys);
    }
  }

  /** part_two: the tiles that are not on the loop and lie inside it. The
      source panics when the walk does, and when is_in_polygon runs on an
      empty polygon. */
  function PartTwoAnswer(tiles: seq<seq<Tile>>, start: (int, int)): Outcome
  {
    match TraceFrom(tiles, start)
    case Stranded => Panics
    case Traced(marked, xs, ys, _, _) =>
      if xs == [] && NonStart(marked) > 0 then Panics else Answer(CountInside(marked, xs, ys))
  }

  /** part_two, on a board already read: the board is left with the loop
      marked. */
  method PartTwo(g: Gameboard) returns (o: Outcome)
    modifies g
    ensures o == PartTwoAnswer(old(g.board), old(g.startCoords))
    ensures TraceFrom(old(g.board), old(g.startCoords)).Traced? ==>
      g.board == TraceFrom(old(g.board), old(g.startCoords)).board
  {
    var first := FindFirstMove(g);
    if first.None? {
      return Panics;
    }
    var currentCoord, prevDirection := first.value.0, first.value.1;
    var polygonX: seq<int>, polygonY: seq<int> := [], [];
    while true
      invariant |polygonX| == |polygonY|
      invariant TraceFrom(old(g.board), old(g.startCoords))
        == Trace(g.board, currentCoord, prevDirection, polygonX, polygonY)
      decreases NonStart(g.board)
    {
      var tile := g.Get(currentCoord);
      UnwrapLookup(g.board, currentCoord);
      if !tile.At? {
        return Panics;
      }
      var currentTile := tile.tile;
      if currentTile == Start {
        break;
      }
      if currentTile == Empty {
        return Panics;
      }
      if IsCorner(currentTile) {
        polygonX, polygonY := polygonX + [currentCoord.0], polygonY + [currentCoord.1];
      }
      MarkCounts(g.board, currentCoord);
      g.Set(currentCoord, Start);
      var newDirection := RemainingDirection(currentTile, prevDirection).value;
      currentCoord := Move(currentCoord, newDirection);
      prevDirection := Opposite(newDirection);
    }
    if polygonX == [] && NonStart(g.board) > 0 {
      return Panics;
    }
    return Answer(CountInside(g.board, polygonX, polygonY));
  }

  // ---------------------------------------------------------------------
  // The start tile as a vertex
  // ---------------------------------------------------------------------

  /** The corners part_two records, with the start tile added when the loop
      turns there: the walk left it towards side `Opposite(first)` and came
      back in through side `entered`, and the start is a straight pipe only
      when those are opposite sides. */
  function ClosedPolygon(xs: seq<int>, ys: seq<int>, start: (int, int), first: Direction, entered: Direction): (p: (seq<int>, seq<int>))
    requires |xs| == |ys|
    ensures |p.0| == |p.1| == if entered == first then |xs| else |xs| + 1
    ensures p.0[..|xs|] == xs && p.1[..|ys|] == ys
  {
    if entered != first then (xs + [start.0], ys + [start.1]) else (xs, ys)
  }

  /** part_two with the start tile recorded as a corner when it is one. */
  function PartTwoCorrected(tiles: seq<seq<Tile>>, start: (int, int)): Outcome
  {
    match TraceFrom(tiles, start)
    case Stranded => Panics
    case Traced(marked, xs, ys, _, entered) =>
      var polygon := ClosedPolygon(xs, ys, start, FirstMove(tiles, start, 0).value.1, entered);
      if polygon.0 == [] && NonStart(marked) > 0 then Panics
      else Answer(CountInside(marked, polygon.0, polygon.1))
  }

  predicate Vertical(d: Direction)
  {
    d == North || d == South
  }

  /** p and q lie on one line in direction d. */
  predicate Along(p: (int, int), q: (int, int), d: Direction)
  {
    if Vertical(d) then p.1 == q.1 else p.0 == q.0
  }

  /** Leaving pos towards d reaches a tile on the board that is a start tile
      or opens back towards pos. */
  predicate Joins(tiles: seq<seq<Tile>>, pos: (int, int), d: Direction)
  {
    var next := TileAt(tiles, Move(pos, d));
    next.Some? && (next.value == Start || Opposite(d) in Connections(next.value))
  }

  /** Every opening of every pipe leads into a pipe that fits it, or into a
      start tile. */
  predicate WellJoined(tiles: seq<seq<Tile>>)
  {
    forall r, c :: 0 <= r < |tiles| && 0 <= c < |tiles[r]| ==>
      forall d :: d in Connections(tiles[r][c]) ==> Joins(tiles, (r, c), d)
  }

  lemma MarkKeepsJoined(tiles: seq<seq<Tile>>, pos: (int, int))
    requires TileAt(tiles, pos).Some? && WellJoined(tiles)
    ensures WellJoined(Mark(tiles, pos))
  {
    var m := Mark(tiles, pos);
    forall r, c, d | 0 <= r < |m| && 0 <= c < |m[r]| && d in Connections(m[r][c])
      ensures Joins(m, (r, c), d)
    {
      assert m[r][c] == tiles[r][c];
      assert Joins(tiles, (r, c), d);
    }
  }

  /** The current tile is on the board and fits the side the walk came in
      by, unless it is a start tile. */
  predicate Fits(tiles: seq<seq<Tile>>, pos: (int, int), prev: Direction)
  {
    TileAt(tiles, pos).Some? && (TileAt(tiles, pos).value == Start || prev in Connections(TileAt(tiles, pos).value))
  }

  /** The shape of the corners recorded so far, on a walk that left the
      start towards d0 and is at pos, entered from side prev: consecutive
      corners share a row or a column; the last corner (the start, before
      the first corner) lies on the current line of travel; the first
      corner lies on the start's first line of travel. */
  predicate Geometry(pos: (int, int), prev: Direction, xs: seq<int>, ys: seq<int>, start: (int, int), d0: Direction)
  {
    |xs| == |ys|
    && (forall k :: 0 < k < |xs| ==> xs[k - 1] == xs[k] || ys[k - 1] == ys[k])
    && (|xs| == 0 ==> Along(start, pos, prev) && Vertical(prev) == Vertical(d0))
    && (|xs| > 0 ==> Along((xs[|xs| - 1], ys[|xs| - 1]), pos, prev) && Along(start, (xs[0], ys[0]), d0))
  }

  /** What holds along part two's walk on a well-joined board. */
  predicate WalkInvariant(tiles: seq<seq<Tile>>, pos: (int, int), prev: Direction, xs: seq<int>, ys: seq<int>, start: (int, int), d0: Direction)
  {
    WellJoined(tiles) && Fits(tiles, pos, prev) && Geometry(pos, prev, xs, ys, start, d0)
  }

  /** A move on a well-joined board enters a tile that fits. */
  lemma BoardStep(tiles: seq<seq<Tile>>, pos: (int, int), prev: Direction)
    requires WellJoined(tiles) && Fits(tiles, pos, prev)
    requires TileAt(tiles, pos).value != Start
    ensures var t := TileAt(tiles, pos).value;
            var e := RemainingDirection(t, prev).value;
            t != Empty && e in Connections(t) && (IsCorner(t) || e == Opposite(prev))
            && WellJoined(Mark(tiles, pos))
            && Fits(Mark(tiles, pos), Move(pos, e), Opposite(e))
  {
    var t := TileAt(tiles, pos).value;
    RemainingIsOther(t, prev);
    CornersTurn(t, prev);
    var e := RemainingDirection(t, prev).value;
    MarkKeepsJoined(tiles, pos);
    JoinedAt(tiles, pos, e);
    NextFits(tiles, pos, e);
  }

  /** A well-joined board joins every opening of the tile at pos. */
  lemma JoinedAt(tiles: seq<seq<Tile>>, pos: (int, int), d: Direction)
    requires WellJoined(tiles) && TileAt(tiles, pos).Some?
    requires d in Connections(TileAt(tiles, pos).value)
    ensures Joins(tiles, pos, d)
  {
    var (r, c) := pos;
    assert d in Connections(tiles[r][c]);
  }

  /** Marking the tile left behind does not change the tile entered. */
  lemma NextFits(tiles: seq<seq<Tile>>, pos: (int, int), e: Direction)
    requires TileAt(tiles, pos).Some? && Joins(tiles, pos, e)
    ensures Fits(Mark(tiles, pos), Move(pos, e), Opposite(e))
  {
    var next := Move(pos, e);
    assert next != pos;
    assert TileAt(Mark(tiles, pos), next) == TileAt(tiles, next);
  }

  /** A move leaving through side e, recording the tile as a corner or
      going straight on, keeps the shape of the corners. */
  lemma GeometryStep(pos: (int, int), prev: Direction, e: Direction, corner: bool, xs: seq<int>, ys: seq<int>, start: (int, int), d0: Direction)
    requires Geometry(pos, prev, xs, ys, start, d0)
    requires corner || e == Opposite(prev)
    ensures var xs' := if corner then xs + [pos.0] else xs;
            var ys' := if corner then ys + [pos.1] else ys;
            Geometry(Move(pos, e), Opposite(e), xs', ys', start, d0)
  {
    var next := Move(pos, e);
    OppositeReverses(e);
    if corner {
      var xs', ys' := xs + [pos.0], ys + [pos.1];
      assert Along((xs'[|xs'| - 1], ys'[|xs'| - 1]), next, Opposite(e));
      if |xs| == 0 {
        assert Along(start, (xs'[0], ys'[0]), d0);
      } else {
        assert xs'[0] == xs[0] && ys'[0] == ys[0];
        assert xs'[|xs| - 1] == xs'[|xs|] || ys'[|xs| - 1] == ys'[|xs|];
      }
    }
  }

  /** On a well-joined board the walk never panics, and the invariant holds
      where it ends. */
  lemma {:induction false} WalkEnds(tiles: seq<seq<Tile>>, pos: (int, int), prev: Direction, xs: seq<int>, ys: seq<int>, start: (int, int), d0: Direction)
    requires WalkInvariant(tiles, pos, prev, xs, ys, start, d0)
    ensures var r := Trace(tiles, pos, prev, xs, ys);
            r.Traced? && WalkInvariant(r.board, r.end, r.entered, r.xs, r.ys, start, d0)
    decreases NonStart(tiles)
  {
    var t := TileAt(tiles, pos).value;
    if t != Start {
      BoardStep(tiles, pos, prev);
      var e := RemainingDirection(t, prev).value;
      GeometryStep(pos, prev, e, IsCorner(t), xs, ys, start, d0);
      MarkCounts(tiles, pos);
      if IsCorner(t) {
        WalkEnds(Mark(tiles, pos), Move(pos, e), Opposite(e), xs + [pos.0], ys + [pos.1], start, d0);
      } else {
        WalkEnds(Mark(tiles, pos), Move(pos, e), Opposite(e), xs, ys, start, d0);
      }
    }
  }

  /** The first move establishes the invariant. */
  lemma WalkBegins(tiles: seq<seq<Tile>>, start: (int, int), pos: (int, int), prev: Direction)
    requires WellJoined(tiles)
    requires pos == Move(start, Opposite(prev)) && Fits(tiles, pos, prev)
    ensures WalkInvariant(tiles, pos, prev, [], [], start, Opposite(prev))
  {
    OppositeReverses(prev);
  }

  /** The first move leaves the start and enters a tile that fits. */
  lemma FirstMoveFits(tiles: seq<seq<Tile>>, start: (int, int))
    requires FirstMove(tiles, start, 0).Some?
    ensures var first := FirstMove(tiles, start, 0).value;
            first.0 == Move(start, Opposite(first.1)) && Fits(tiles, first.0, first.1)
  {
    var first := FirstMove(tiles, start, 0).value;
    var i :| 0 <= i < 4 && first == (Move(start, Cardinals[i]), Opposite(Cardinals[i]))
      && TileAt(tiles, first.0).Some? && Opposite(Cardinals[i]) in Connections(TileAt(tiles, first.0).value);
    OppositeReverses(Cardinals[i]);
  }

  /** On a well-joined board, part_two's walk ends at a start tile. */
  lemma WellJoinedWalkEnds(tiles: seq<seq<Tile>>, start: (int, int))
    requires WellJoined(tiles) && FirstMove(tiles, start, 0).Some?
    ensures TraceFrom(tiles, start).Traced?
  {
    var first := FirstMove(tiles, start, 0).value;
    FirstMoveFits(tiles, start);
    WalkBegins(tiles, start, first.0, first.1);
    WalkEnds(tiles, first.0, first.1, [], [], start, Opposite(first.1));
  }

  /** When the walk closes at the start, the corrected polygon has only
      horizontal and vertical edges, so is_in_polygon's integer arithmetic
      gives the exact PNPOLY answer on it. */
  lemma CorrectedPolygonExact(tiles: seq<seq<Tile>>, start: (int, int), px: int, py: int)
    requires WellJoined(tiles) && FirstMove(tiles, start, 0).Some?
    requires TraceFrom(tiles, start).Traced? && TraceFrom(tiles, start).end == start
    ensures var r := TraceFrom(tiles, start);
            var polygon := ClosedPolygon(r.xs, r.ys, start, FirstMove(tiles, start, 0).value.1, r.entered);
            Rectilinear(polygon.0, polygon.1)
            && InPolygon(polygon.0, polygon.1, px, py) == ExactParity(polygon.0, polygon.1, px, py, |polygon.0|)
  {
    var first := FirstMove(tiles, start, 0).value;
    FirstMoveFits(tiles, start);
    WalkBegins(tiles, start, first.0, first.1);
    WalkEnds(tiles, first.0, first.1, [], [], start, Opposite(first.1));
    var r := TraceFrom(tiles, start);
    ClosingGeometry(r.xs, r.ys, start, first.1, r.entered);
    var polygon := ClosedPolygon(r.xs, r.ys, start, first.1, r.entered);
    RectilinearExact(polygon.0, polygon.1, px, py, |polygon.0|);
  }

  /** Back at the start, the corners close up into a polygon with
      horizontal and vertical edges once the start is added where the walk
      turns there. */
  lemma ClosingGeometry(xs: seq<int>, ys: seq<int>, start: (int, int), first: Direction, entered: Direction)
    requires Geometry(start, entered, xs, ys, start, Opposite(first))
    ensures var polygon := ClosedPolygon(xs, ys, start, first, entered);
            Rectilinear(polygon.0, polygon.1)
  {
    var polygon := ClosedPolygon(xs, ys, start, first, entered);
    var px, py := polygon.0, polygon.1;
    OppositeReverses(first);
    forall i | 0 <= i < |px|
      ensures px[i] == px[Before(|px|, i)] || py[i] == py[Before(|px|, i)]
    {
      if 0 < i < |xs| {
        assert px[i] == xs[i] && px[i - 1] == xs[i - 1];
        assert py[i] == ys[i] && py[i - 1] == ys[i - 1];
      } else if i == |xs| {
        assert px[i] == start.0 && py[i] == start.1;
      } else if entered != first {
        assert px[|px| - 1] == start.0 && py[|px| - 1] == start.1;
      }
    }
  }

  /** The as-written polygon has only horizontal and vertical edges too, as
      long as the start is a straight pipe. */
  lemma AsWrittenExactWhenStartStraight(tiles: seq<seq<Tile>>, start: (int, int), px: int, py: int)
    requires WellJoined(tiles) && FirstMove(tiles, start, 0).Some?
    requires TraceFrom(tiles, start).Traced? && TraceFrom(tiles, start).end == start
    requires TraceFrom(tiles, start).entered == FirstMove(tiles, start, 0).value.1
    ensures var r := TraceFrom(tiles, start);
            Rectilinear(r.xs, r.ys) && InPolygon(r.xs, r.ys, px, py) == ExactParity(r.xs, r.ys, px, py, |r.xs|)
  {
    CorrectedPolygonExact(tiles, start, px, py);
  }

  // ---------------------------------------------------------------------
  // A loop whose start tile is a corner
  // ---------------------------------------------------------------------

  /** The board
        S--7
        |..|
        |..|
        L--J
      whose loop encloses four tiles. */
  const Ring: seq<seq<Tile>> := [
    [Start, EastWest, EastWest, SouthWest],
    [NorthSouth, Empty, Empty, NorthSouth],
    [NorthSouth, Empty, Empty, NorthSouth],
    [NorthEast, EastWest, EastWest, NorthWest]]

  lemma RingIsLoop()
    ensures WellJoined(Ring) && FindStart(Ring) == Some((0, 0))
  {
    forall r, c, d | 0 <= r < |Ring| && 0 <= c < |Ring[r]| && d in Connections(Ring[r][c])
      ensures Joins(Ring, (r, c), d)
    {
      assert TileAt(Ring, Move((r, c), d)) == Some(Ring[Move((r, c), d).0][Move((r, c), d).1]);
    }
    assert FindInRow(Ring[0]) == Some(0);
  }

  /** The ring after part two's walk: every tile of the loop marked. */
  const RingMarked: seq<seq<Tile>> := [
    [Start, Start, Start, Start],
    [Start, Empty, Empty, Start],
    [Start, Empty, Empty, Start],
    [Start, Start, Start, Start]]

  /** The ring after the first k moves of part two's walk. */
  const RingAfter1: seq<seq<Tile>> := [
    [Start, Start, EastWest, SouthWest],
    [NorthSouth, Empty, Empty, NorthSouth],
    [NorthSouth, Empty, Empty, NorthSouth],
    [NorthEast, EastWest, EastWest, NorthWest]]

  const RingAfter2: seq<seq<Tile>> := [
    [Start, Start, Start, SouthWest],
    [NorthSouth, Empty, Empty, NorthSouth],
    [NorthSouth, Empty, Empty, NorthSouth],
    [NorthEast, EastWest, EastWest, NorthWest]]

  const RingAfter3: seq<seq<Tile>> := [
    [Start, Start, Start, Start],
    [NorthSouth, Empty, Empty, NorthSouth],
    [NorthSouth, Empty, Empty, NorthSouth],
    [NorthEast, EastWest, EastWest, NorthWest]]

  const RingAfter4: seq<seq<Tile>> := [
    [Start, Start, Start, Start],
    [NorthSouth, Empty, Empty, Start],
    [NorthSouth, Empty, Empty, NorthSouth],
    [NorthEast, EastWest, EastWest, NorthWest]]

  const RingAfter5: seq<seq<Tile>> := [
    [Start, Start, Start, Start],
    [NorthSouth, Empty, Empty, Start],
    [NorthSouth, Empty, Empty, Start],
    [NorthEast, EastWest, EastWest, NorthWest]]

  const RingAfter6: seq<seq<Tile>> := [
    [Start, Start, Start, Start],
    [NorthSouth, Empty, Empty, Start],
    [NorthSouth, Empty, Empty, Start],
    [NorthEast, EastWest, EastWest, Start]]

  const RingAfter7: seq<seq<Tile>> := [
    [Start, Start, Start, Start],
    [NorthSouth, Empty, Empty, Start],
    [NorthSouth, Empty, Empty, Start],
    [NorthEast, EastWest, Start, Start]]

  const RingAfter8: seq<seq<Tile>> := [
    [Start, Start, Start, Start],
    [NorthSouth, Empty, Empty, Start],
    [NorthSouth, Empty, Empty, Start],
    [NorthEast, Start, Start, Start]]

  const RingAfter9: seq<seq<Tile>> := [
    [Start, Start, Start, Start],
    [NorthSouth, Empty, Empty, Start],
    [NorthSouth, Empty, Empty, Start],
    [Start, Start, Start, Start]]

  const RingAfter10: seq<seq<Tile>> := [
    [Start, Start, Start, Start],
    [NorthSouth, Empty, Empty, Start],
    [Start, Empty, Empty, Start],
    [Start, Start, Start, Start]]

  lemma RingMove1()
    ensures Trace(Ring, (0, 1), West, [], []) == Trace(RingAfter1, (0, 2), West, [], [])
  {
    assert Ring[0][1 := Start] == RingAfter1[0] && Ring[0 := RingAfter1[0]] == RingAfter1;
    TraceMove(Ring, (0, 1), West, [], [], RingAfter1, (0, 2), West, [], []);
  }

  lemma RingMove2()
    ensures Trace(RingAfter1, (0, 2), West, [], []) == Trace(RingAfter2, (0, 3), West, [], [])
  {
    assert RingAfter1[0][2 := Start] == RingAfter2[0] && RingAfter1[0 := RingAfter2[0]] == RingAfter2;
    TraceMove(RingAfter1, (0, 2), West, [], [], RingAfter2, (0, 3), West, [], []);
  }

  lemma RingMove3()
    ensures Trace(RingAfter2, (0, 3), West, [], []) == Trace(RingAfter3, (1, 3), North, [0], [3])
  {
    assert RingAfter2[0][3 := Start] == RingAfter3[0] && RingAfter2[0 := RingAfter3[0]] == RingAfter3;
    TraceMove(RingAfter2, (0, 3), West, [], [], RingAfter3, (1, 3), North, [0], [3]);
  }

  lemma RingMove4()
    ensures Trace(RingAfter3, (1, 3), North, [0], [3]) == Trace(RingAfter4, (2, 3), North, [0], [3])
  {
    assert RingAfter3[1][3 := Start] == RingAfter4[1] && RingAfter3[1 := RingAfter4[1]] == RingAfter4;
    TraceMove(RingAfter3, (1, 3), North, [0], [3], RingAfter4, (2, 3), North, [0], [3]);
  }

  lemma RingMove5()
    ensures Trace(RingAfter4, (2, 3), North, [0], [3]) == Trace(RingAfter5, (3, 3), North, [0], [3])
  {
    assert RingAfter4[2][3 := Start] == RingAfter5[2] && RingAfter4[2 := RingAfter5[2]] == RingAfter5;
    TraceMove(RingAfter4, (2, 3), North, [0], [3], RingAfter5, (3, 3), North, [0], [3]);
  }

  lemma RingMove6()
    ensures Trace(RingAfter5, (3, 3), North, [0], [3]) == Trace(RingAfter6, (3, 2), East, [0, 3], [3, 3])
  {
    assert RingAfter5[3][3 := Start] == RingAfter6[3] && RingAfter5[3 := RingAfter6[3]] == RingAfter6;
    TraceMove(RingAfter5, (3, 3), North, [0], [3], RingAfter6, (3, 2), East, [0, 3], [3, 3]);
  }

  lemma RingMove7()
    ensures Trace(RingAfter6, (3, 2), East, [0, 3], [3, 3]) == Trace(RingAfter7, (3, 1), East, [0, 3], [3, 3])
  {
    assert RingAfter6[3][2 := Start] == RingAfter7[3] && RingAfter6[3 := RingAfter7[3]] == RingAfter7;
    TraceMove(RingAfter6, (3, 2), East, [0, 3], [3, 3], RingAfter7, (3, 1), East, [0, 3], [3, 3]);
  }

  lemma RingMove8()
    ensures Trace(RingAfter7, (3, 1), East, [0, 3], [3, 3]) == Trace(RingAfter8, (3, 0), East, [0, 3], [3, 3])
  {
    assert RingAfter7[3][1 := Start] == RingAfter8[3] && RingAfter7[3 := RingAfter8[3]] == RingAfter8;
    TraceMove(RingAfter7, (3, 1), East, [0, 3], [3, 3], RingAfter8, (3, 0), East, [0, 3], [3, 3]);
  }

  lemma RingMove9()
    ensures Trace(RingAfter8, (3, 0), East, [0, 3], [3, 3]) == Trace(RingAfter9, (2, 0), South, [0, 3, 3], [3, 3, 0])
  {
    assert RingAfter8[3][0 := Start] == RingAfter9[3] && RingAfter8[3 := RingAfter9[3]] == RingAfter9;
    TraceMove(RingAfter8, (3, 0), East, [0, 3], [3, 3], RingAfter9, (2, 0), South, [0, 3, 3], [3, 3, 0]);
  }

  lemma RingMove10()
    ensures Trace(RingAfter9, (2, 0), South, [0, 3, 3], [3, 3, 0]) == Trace(RingAfter10, (1, 0), South, [0, 3, 3], [3, 3, 0])
  {
    assert RingAfter9[2][0 := Start] == RingAfter10[2] && RingAfter9[2 := RingAfter10[2]] == RingAfter10;
    TraceMove(RingAfter9, (2, 0), South, [0, 3, 3], [3, 3, 0], RingAfter10, (1, 0), South, [0, 3, 3], [3, 3, 0]);
  }

  lemma RingMove11()
    ensures Trace(RingAfter10, (1, 0), South, [0, 3, 3], [3, 3, 0]) == Trace(RingMarked, (0, 0), South, [0, 3, 3], [3, 3, 0])
  {
    assert RingAfter10[1][0 := Start] == RingMarked[1] && RingAfter10[1 := RingMarked[1]] == RingMarked;
    TraceMove(RingAfter10, (1, 0), South, [0, 3, 3], [3, 3, 0], RingMarked, (0, 0), South, [0, 3, 3], [3, 3, 0]);
  }

  /** One move of part one's walk. */
  lemma PathMove(tiles: seq<seq<Tile>>, pos: (int, int), prev: Direction, length: nat, fuel: nat, t: Tile, e: Direction)
    requires TileAt(tiles, pos) == Some(t) && t != Start && RemainingDirection(t, prev) == Some(e) && fuel > 0
    ensures PathLength(tiles, pos, prev, length, fuel) == PathLength(tiles, Move(pos, e), Opposite(e), length + 1, fuel - 1)
  {
  }

  lemma RingPathStart(fuel: nat)
    requires fuel >= 4
    ensures PathLength(Ring, (0, 1), West, 1, fuel) == PathLength(Ring, (2, 3), North, 5, fuel - 4)
  {
    var rest := fuel - 2;
    RingPathTop(fuel);
    RingPathRight(rest);
    assert rest - 2 == fuel - 4;
  }

  lemma RingPathRight(fuel: nat)
    requires fuel >= 2
    ensures PathLength(Ring, (0, 3), West, 3, fuel) == PathLength(Ring, (2, 3), North, 5, fuel - 2)
  {
    var rest := fuel - 1;
    PathMove(Ring, (0, 3), West, 3, fuel, SouthWest, South);
    assert Move((0, 3), South) == (1, 3) && Opposite(South) == North;
    PathMove(Ring, (1, 3), North, 4, rest, NorthSouth, South);
    assert Move((1, 3), South) == (2, 3) && Opposite(South) == North;
    assert rest - 1 == fuel - 2;
  }

  lemma RingPathTop(fuel: nat)
    requires fuel >= 2
    ensures PathLength(Ring, (0, 1), West, 1, fuel) == PathLength(Ring, (0, 3), West, 3, fuel - 2)
  {
    var rest := fuel - 1;
    PathMove(Ring, (0, 1), West, 1, fuel, EastWest, East);
    assert Move((0, 1), East) == (0, 2) && Opposite(East) == West;
    PathMove(Ring, (0, 2), West, 2, rest, EastWest, East);
    assert Move((0, 2), East) == (0, 3) && Opposite(East) == West;
    assert rest - 1 == fuel - 2;
  }

  lemma RingPathMiddle(fuel: nat)
    requires fuel >= 4
    ensures PathLength(Ring, (2, 3), North, 5, fuel) == PathLength(Ring, (3, 0), East, 9, fuel - 4)
  {
    var rest := fuel - 2;
    RingPathCorner(fuel);
    RingPathBottom(rest);
    assert rest - 2 == fuel - 4;
  }

  lemma RingPathBottom(fuel: nat)
    requires fuel >= 2
    ensures PathLength(Ring, (3, 2), East, 7, fuel) == PathLength(Ring, (3, 0), East, 9, fuel - 2)
  {
    var rest := fuel - 1;
    PathMove(Ring, (3, 2), East, 7, fuel, EastWest, West);
    assert Move((3, 2), West) == (3, 1) && Opposite(West) == East;
    PathMove(Ring, (3, 1), East, 8, rest, EastWest, West);
    assert Move((3, 1), West) == (3, 0) && Opposite(West) == East;
    assert rest - 1 == fuel - 2;
  }

  lemma RingPathCorner(fuel: nat)
    requires fuel >= 2
    ensures PathLength(Ring, (2, 3), North, 5, fuel) == PathLength(Ring, (3, 2), East, 7, fuel - 2)
  {
    var rest := fuel - 1;
    PathMove(Ring, (2, 3), North, 5, fuel, NorthSouth, South);
    assert Move((2, 3), South) == (3, 3) && Opposite(South) == North;
    PathMove(Ring, (3, 3), North, 6, rest, NorthWest, West);
    assert Move((3, 3), West) == (3, 2) && Opposite(West) == East;
    assert rest - 1 == fuel - 2;
  }

  lemma RingPathEnd(fuel: nat)
    requires fuel >= 3
    ensures PathLength(Ring, (3, 0), East, 9, fuel) == Answer(12)
  {
    PathMove(Ring, (3, 0), East, 9, fuel, NorthEast, North);
    assert Move((3, 0), North) == (2, 0) && Opposite(North) == South;
    RingPathHome(fuel - 1);
  }

  lemma RingPathHome(fuel: nat)
    requires fuel >= 2
    ensures PathLength(Ring, (2, 0), South, 10, fuel) == Answer(12)
  {
    PathMove(Ring, (2, 0), South, 10, fuel, NorthSouth, North);
    assert Move((2, 0), North) == (1, 0) && Opposite(North) == South;
    var rest := fuel - 1;
    PathMove(Ring, (1, 0), South, 11, rest, NorthSouth, North);
    assert Move((1, 0), North) == (0, 0) && Opposite(North) == South;
    assert PathLength(Ring, (0, 0), South, 12, rest - 1) == Answer(12);
  }

  lemma RingPath(fuel: nat)
    requires fuel >= 11
    ensures PathLength(Ring, (0, 1), West, 1, fuel) == Answer(12)
  {
    var mid := fuel - 4;
    RingPathStart(fuel);
    RingPathMiddle(mid);
    RingPathEnd(mid - 4);
  }

  /** Part one's walk round the ring takes twelve moves. */
  lemma RingPartOne()
    ensures PartOneAnswer(Ring, (0, 0), 11) == Answer(6)
  {
    RingFirstMove();
    RingPath(11);
  }

  /** The board
        S-7
        |.|
        L-J
        .
      whose last row is shorter than the first. `get` measures every row
      against the first, but the walk never reaches the short row. */
  const Jagged: seq<seq<Tile>> := [
    [Start, EastWest, SouthWest],
    [NorthSouth, Empty, NorthSouth],
    [NorthEast, EastWest, NorthWest],
    [Empty]]

  /** Part one walks the jagged board's loop of eight moves. */
  lemma JaggedPartOne()
    ensures PartOneAnswer(Jagged, (0, 0), 7) == Answer(4)
  {
    JaggedWalk(7);
  }

  /** The same walk with any fuel that covers its eight moves. */
  lemma JaggedWalk(fuel: nat)
    requires fuel >= 7
    ensures PartOneAnswer(Jagged, (0, 0), fuel) == Answer(4)
  {
    JaggedFirstMove();
    JaggedPathStart(fuel);
    JaggedPathEnd(fuel - 4);
  }

  lemma JaggedFirstMove()
    ensures FirstMove(Jagged, (0, 0), 0) == Some(((0, 1), West))
  {
    EastFirst(Jagged);
  }

  lemma JaggedPathStart(fuel: nat)
    requires fuel >= 4
    ensures PathLength(Jagged, (0, 1), West, 1, fuel) == PathLength(Jagged, (2, 1), East, 5, fuel - 4)
  {
    var rest := fuel - 2;
    JaggedPathTop(fuel);
    JaggedPathRight(rest);
    assert rest - 2 == fuel - 4;
  }

  lemma JaggedPathRight(fuel: nat)
    requires fuel >= 2
    ensures PathLength(Jagged, (1, 2), North, 3, fuel) == PathLength(Jagged, (2, 1), East, 5, fuel - 2)
  {
    var rest := fuel - 1;
    PathMove(Jagged, (1, 2), North, 3, fuel, NorthSouth, South);
    assert Move((1, 2), South) == (2, 2) && Opposite(South) == North;
    PathMove(Jagged, (2, 2), North, 4, rest, NorthWest, West);
    assert Move((2, 2), West) == (2, 1) && Opposite(West) == East;
    assert rest - 1 == fuel - 2;
  }

  lemma JaggedPathTop(fuel: nat)
    requires fuel >= 2
    ensures PathLength(Jagged, (0, 1), West, 1, fuel) == PathLength(Jagged, (1, 2), North, 3, fuel - 2)
  {
    var rest := fuel - 1;
    PathMove(Jagged, (0, 1), West, 1, fuel, EastWest, East);
    assert Move((0, 1), East) == (0, 2) && Opposite(East) == West;
    PathMove(Jagged, (0, 2), West, 2, rest, SouthWest, South);
    assert Move((0, 2), South) == (1, 2) && Opposite(South) == North;
    assert rest - 1 == fuel - 2;
  }

  lemma JaggedPathEnd(fuel: nat)
    requires fuel >= 3
    ensures PathLength(Jagged, (2, 1), East, 5, fuel) == Answer(8)
  {
    PathMove(Jagged, (2, 1), East, 5, fuel, EastWest, West);
    assert Move((2, 1), West) == (2, 0) && Opposite(West) == East;
    JaggedPathHome(fuel - 1);
  }

  lemma JaggedPathHome(fuel: nat)
    requires fuel >= 2
    ensures PathLength(Jagged, (2, 0), East, 6, fuel) == Answer(8)
  {
    PathMove(Jagged, (2, 0), East, 6, fuel, NorthEast, North);
    assert Move((2, 0), North) == (1, 0) && Opposite(North) == South;
    var rest := fuel - 1;
    PathMove(Jagged, (1, 0), South, 7, rest, NorthSouth, North);
    assert Move((1, 0), North) == (0, 0) && Opposite(North) == South;
    assert PathLength(Jagged, (0, 0), South, 8, rest - 1) == Answer(8);
  }

  /** The board
        S-7
        |
      where the walk turns south into the second row, inside the first
      row's width but past the end of its own: the index panic of `get`. */
  const Stub: seq<seq<Tile>> := [
    [Start, EastWest, SouthWest],
    [NorthSouth]]

  lemma StubPanics()
    ensures Lookup(Stub, (1, 2)) == Short
    ensures PartOneAnswer(Stub, (0, 0), 10) == Panics
  {
    StubFirstMove();
    StubPath(10);
  }

  lemma StubPath(fuel: nat)
    requires fuel >= 2
    ensures PathLength(Stub, (0, 1), West, 1, fuel) == Panics
  {
    StubPathTop(fuel);
    StubPathShort(fuel - 2);
  }

  lemma StubPathTop(fuel: nat)
    requires fuel >= 2
    ensures PathLength(Stub, (0, 1), West, 1, fuel) == PathLength(Stub, (1, 2), North, 3, fuel - 2)
  {
    var rest := fuel - 1;
    PathMove(Stub, (0, 1), West, 1, fuel, EastWest, East);
    assert Move((0, 1), East) == (0, 2) && Opposite(East) == West;
    PathMove(Stub, (0, 2), West, 2, rest, SouthWest, South);
    assert Move((0, 2), South) == (1, 2) && Opposite(South) == North;
    assert rest - 1 == fuel - 2;
  }

  /** The walk turns south into the short row and `get` finds no tile. */
  lemma StubPathShort(fuel: nat)
    ensures PathLength(Stub, (1, 2), North, 3, fuel) == Panics
  {
    assert |Stub[1]| == 1 && TileAt(Stub, (1, 2)) == None;
  }

  lemma StubFirstMove()
    ensures FirstMove(Stub, (0, 0), 0) == Some(((0, 1), West))
  {
    EastFirst(Stub);
  }

  /** The first neighbour tried, north of the start, is off the board; the
      second, east, connects. */
  lemma RingFirstMove()
    ensures FirstMove(Ring, (0, 0), 0) == Some(((0, 1), West))
  {
    EastFirst(Ring);
  }

  /** On a board whose top row begins with a start and a horizontal pipe, the
      search finds nothing north of the start and goes east. */
  lemma EastFirst(tiles: seq<seq<Tile>>)
    requires |tiles| > 0 && |tiles[0]| >= 2 && tiles[0][1] == EastWest
    ensures FirstMove(tiles, (0, 0), 0) == Some(((0, 1), West))
  {
    assert Cardinals[0] == North && Cardinals[1] == East;
    assert Lookup(tiles, (-1, 0)) == Off;
    assert FirstMove(tiles, (0, 0), 0) == FirstMove(tiles, (0, 0), 1);
    assert Lookup(tiles, (0, 1)) == At(EastWest);
    assert EastWest in AllowedIncoming(East);
  }

  /** Part two's walk round the ring records three corners; the start,
      a fourth, is not among them. */
  lemma RingTrace()
    ensures FirstMove(Ring, (0, 0), 0) == Some(((0, 1), West))
    ensures TraceFrom(Ring, (0, 0)) == Traced(RingMarked, [0, 3, 3], [3, 3, 0], (0, 0), South)
  {
    RingFirstMove();
    RingMove1();
    RingMove2();
    RingMove3();
    RingMove4();
    RingMove5();
    RingMove6();
    RingMove7();
    RingMove8();
    RingMove9();
    RingMove10();
    RingMove11();
  }

  /** Of the four enclosed tiles, is_in_polygon puts three inside the
      triangle the recorded corners make. */
  lemma TriangleTests()
    ensures !InPolygon([0, 3, 3], [3, 3, 0], 1, 1)
    ensures InPolygon([0, 3, 3], [3, 3, 0], 1, 2) && InPolygon([0, 3, 3], [3, 3, 0], 2, 1)
    ensures InPolygon([0, 3, 3], [3, 3, 0], 2, 2)
  {
  }

  /** All four lie inside the square that has the start as a corner. */
  lemma SquareTests()
    ensures InPolygon([0, 3, 3, 0], [3, 3, 0, 0], 1, 1) && InPolygon([0, 3, 3, 0], [3, 3, 0, 0], 1, 2)
    ensures InPolygon([0, 3, 3, 0], [3, 3, 0, 0], 2, 1) && InPolygon([0, 3, 3, 0], [3, 3, 0, 0], 2, 2)
  {
  }

  lemma {:induction false} MarkedRowCount(row: seq<Tile>, i: int, xs: seq<int>, ys: seq<int>)
    requires |xs| == |ys| && forall k :: 0 <= k < |row| ==> row[k] == Start
    ensures CountRow(row, i, xs, ys) == 0
  {
    if row != [] {
      MarkedRowCount(row[..|row| - 1], i, xs, ys);
    }
  }

  /** The ring's marked board counts its two middle rows' inner tiles. */
  lemma RingMarkedCount(xs: seq<int>, ys: seq<int>, inside: seq<bool>)
    requires |xs| == |ys| && |inside| == 4
    requires inside == [InPolygon(xs, ys, 1, 1), InPolygon(xs, ys, 1, 2), InPolygon(xs, ys, 2, 1), InPolygon(xs, ys, 2, 2)]
    ensures CountInside(RingMarked, xs, ys)
      == (if inside[0] then 1 else 0) + (if inside[1] then 1 else 0) + (if inside[2] then 1 else 0) + (if inside[3] then 1 else 0)
  {
    var top: seq<Tile> := [Start, Start, Start, Start];
    var middle: seq<Tile> := [Start, Empty, Empty, Start];
    MarkedRowCount(top, 0, xs, ys);
    MarkedRowCount(top, 3, xs, ys);
    MarkedRowCount([Start], 1, xs, ys);
    MarkedRowCount([Start], 2, xs, ys);
    assert middle[..3] == [Start, Empty, Empty] && middle[..3][..2] == [Start, Empty] && middle[..3][..2][..1] == [Start];
    assert RingMarked[..3] == [top, middle, middle] && RingMarked[..3][..2] == [top, middle] && RingMarked[..3][..2][..1] == [top];
    assert [top][..0] == [];
    var m2: seq<Tile> := [Start, Empty];
    var m3: seq<Tile> := [Start, Empty, Empty];
    assert CountRow(m2, 1, xs, ys) == (if inside[0] then 1 else 0);
    assert CountRow(m3, 1, xs, ys) == (if inside[0] then 1 else 0) + (if inside[1] then 1 else 0);
    assert CountRow(middle, 1, xs, ys) == (if inside[0] then 1 else 0) + (if inside[1] then 1 else 0);
    assert CountRow(m2, 2, xs, ys) == (if inside[2] then 1 else 0);
    assert CountRow(m3, 2, xs, ys) == (if inside[2] then 1 else 0) + (if inside[3] then 1 else 0);
    assert CountRow(middle, 2, xs, ys) == (if inside[2] then 1 else 0) + (if inside[3] then 1 else 0);
    assert CountInside([top], xs, ys) == 0;
    assert CountInside([top, middle], xs, ys) == CountRow(middle, 1, xs, ys);
    assert CountInside([top, middle, middle], xs, ys) == CountRow(middle, 1, xs, ys) + CountRow(middle, 2, xs, ys);
  }

  lemma TriangleCount()
    ensures CountInside(RingMarked, [0, 3, 3], [3, 3, 0]) == 3
  {
    TriangleTests();
    RingMarkedCount([0, 3, 3], [3, 3, 0], [false, true, true, true]);
  }

  lemma SquareCount()
    ensures CountInside(RingMarked, [0, 3, 3, 0], [3, 3, 0, 0]) == 4
  {
    SquareTests();
    RingMarkedCount([0, 3, 3, 0], [3, 3, 0, 0], [true, true, true, true]);
  }

  /** part_two corrected, once the walk and the count are known. */
  lemma CorrectedFromTrace(tiles: seq<seq<Tile>>, start: (int, int), first: ((int, int), Direction), r: Traced,
                           xs: seq<int>, ys: seq<int>, n: nat)
    requires FirstMove(tiles, start, 0) == Some(first)
    requires TraceFrom(tiles, start) == r && r.Traced?
    requires ClosedPolygon(r.xs, r.ys, start, first.1, r.entered) == (xs, ys) && xs != []
    requires CountInside(r.board, xs, ys) == n
    ensures PartTwoCorrected(tiles, start) == Answer(n)
  {
  }

  /** On the ring, part_two counts three enclosed tiles where there are
      four. */
  lemma StartCornerDropped()
    ensures PartTwoAnswer(Ring, (0, 0)) == Answer(3)
  {
    DroppedOn(Ring, (0, 0));
  }

  lemma DroppedOn(tiles: seq<seq<Tile>>, start: (int, int))
    requires tiles == Ring && start == (0, 0)
    ensures PartTwoAnswer(tiles, start) == Answer(3)
  {
    RingTrace();
    TriangleCount();
  }

  /** Recording the start as a corner counts all four. */
  lemma StartCornerCounted()
    ensures PartTwoCorrected(Ring, (0, 0)) == Answer(4)
  {
    CountedOn(Ring, (0, 0));
  }

  lemma CountedOn(tiles: seq<seq<Tile>>, start: (int, int))
    requires tiles == Ring && start == (0, 0)
    ensures PartTwoCorrected(tiles, start) == Answer(4)
  {
    RingTrace();
    SquareCount();
    var xs: seq<int>, ys: seq<int> := [0, 3, 3], [3, 3, 0];
    assert xs + [0] == [0, 3, 3, 0] && ys + [0] == [3, 3, 0, 0];
    CorrectedFromTrace(tiles, start, ((0, 1), West), Traced(RingMarked, xs, ys, (0, 0), South),
                       [0, 3, 3, 0], [3, 3, 0, 0], 4);
  }
}
