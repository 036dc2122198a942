/**
 * Day 2, cube games: every game shows several handfuls of red, green and
 * blue cubes; part one keeps the games possible with 12 red, 13 green and
 * 14 blue cubes, part two multiplies the fewest cubes of each colour a
 * game needs.
 */
module Day02 {
  import opened Wrappers
  import opened Text

  /** `CubeColor`. */
  datatype Color = Red | Green | Blue

  function ColorName(c: Color): (s: string)
    ensures |s| > 0 && NoSpace(s) && ',' !in s && ';' !in s && ':' !in s
  {
    match c
    case Red => "red"
    case Green => "green"
    case Blue => "blue"
  }

  /** `CubeColor::from_string`: only the three colour names are accepted;
      anything else panics, which is `None` here. */
  function ParseColor(s: string): (c: Option<Color>)
    ensures c.Some? <==> s == "red" || s == "green" || s == "blue"
    ensures c.Some? ==> ColorName(c.value) == s
  {
    if s == "red" then Some(Red)
    else if s == "green" then Some(Green)
    else if s == "blue" then Some(Blue)
    else None
  }

  lemma ParseColorName(c: Color)
    ensures ParseColor(ColorName(c)) == Some(c)
  {
  }

  /** One `(colour, amount)` entry of a `CubeSet`. */
  datatype Entry = Entry(color: Color, amount: nat)

  /** A `Game`: its id and its handfuls. */
  datatype Game = Game(id: nat, sets: seq<seq<Entry>>)

  /** One entry, "count colour" with whitespace around and between; the
      count is read first, and a missing word panics. */
  function ParseEntry(s: string): Option<Entry> {
    var ws := Words(s);
    if |ws| < 2 then None
    else match (ParseU32(ws[0]), ParseColor(ws[1]))
      case (Some(n), Some(c)) => Some(Entry(c, n))
      case _ => None
  }

  function ParseEntries(parts: seq<string>): (r: Option<seq<Entry>>)
    ensures r.Some? ==> |r.value| == |parts|
    ensures r.Some? <==> forall i :: 0 <= i < |parts| ==> ParseEntry(parts[i]).Some?
  {
    if parts == [] then Some([])
    else
      assert forall i :: 1 <= i < |parts| ==> parts[i] == parts[1..][i - 1];
      match (ParseEntry(parts[0]), ParseEntries(parts[1..]))
      case (Some(e), Some(es)) => Some([e] + es)
      case _ => None
  }

  /** `CubeSet::from_string`: the entries separated by ','. */
  function ParseSet(s: string): Option<seq<Entry>> {
    ParseEntries(Split(s, ','))
  }

  function ParseSets(parts: seq<string>): (r: Option<seq<seq<Entry>>>)
    ensures r.Some? ==> |r.value| == |parts|
  {
    if forall i :: 0 <= i < |parts| ==> ParseSet(parts[i]).Some? then
      Some(seq(|parts|, i requires 0 <= i < |parts| && ParseSet(parts[i]).Some? => ParseSet(parts[i]).value))
    else None
  }

  predicate StartsWith(s: string, w: string) {
    |w| <= |s| && s[..|w|] == w
  }

  /** `Game::from_string`: "Game ", the id up to the first ':', then the
      handfuls separated by ';'. Everything after a second ':' is dropped. */
  function ParseGame(line: string): Option<Game> {
    if !StartsWith(line, "Game ") then None
    else
      var parts := Split(line[5..], ':');
      if |parts| < 2 then None
      else match (ParseU32(parts[0]), ParseSets(Split(parts[1], ';')))
        case (Some(id), Some(sets)) => Some(Game(id, sets))
        case _ => None
  }

  function FormatEntry(e: Entry): string {
    Spaced([ToDecimal(e.amount), ColorName(e.color)])
  }

  function FormatEntries(es: seq<Entry>): (r: seq<string>)
    ensures |r| == |es|
    ensures forall i :: 0 <= i < |r| ==> r[i] == FormatEntry(es[i])
  {
    if es == [] then [] else [FormatEntry(es[0])] + FormatEntries(es[1..])
  }

  function FormatSet(es: seq<Entry>): string
    requires |es| >= 1
  {
    Join(FormatEntries(es), ',')
  }

  function FormatSets(sets: seq<seq<Entry>>): (r: seq<string>)
    requires forall i :: 0 <= i < |sets| ==> |sets[i]| >= 1
    ensures |r| == |sets|
    ensures forall i :: 0 <= i < |r| ==> r[i] == FormatSet(sets[i])
  {
    if sets == [] then [] else [FormatSet(sets[0])] + FormatSets(sets[1..])
  }

  /** A game that a puzzle line can spell: 32-bit numbers and no empty
      handful (an empty piece of text does not parse as an entry). */
  predicate Spellable(g: Game) {
    && g.id < U32Bound && |g.sets| >= 1
    && forall i :: 0 <= i < |g.sets| ==>
         |g.sets[i]| >= 1 && forall j :: 0 <= j < |g.sets[i]| ==> g.sets[i][j].amount < U32Bound
  }

  /** The puzzle's line format: "Game 1: 3 blue, 4 red; 1 red, 2 green". */
  function FormatGame(g: Game): string
    requires Spellable(g)
  {
    "Game " + ToDecimal(g.id) + ":" + Join(FormatSets(g.sets), ';')
  }

  lemma DigitsOnly(s: string, c: char)
    requires AllDigits(s) && !IsDigit(c)
    ensures c !in s
  {
  }

  lemma SpacedChars(ws: seq<string>, c: char)
    requires c != ' ' && forall i :: 0 <= i < |ws| ==> c !in ws[i]
    ensures c !in Spaced(ws)
  {
    if ws != [] {
      SpacedChars(ws[1..], c);
    }
  }

  lemma EntryChars(e: Entry, c: char)
    requires c == ',' || c == ';' || c == ':'
    ensures c !in FormatEntry(e)
  {
    DigitsOnly(ToDecimal(e.amount), c);
    SpacedChars([ToDecimal(e.amount), ColorName(e.color)], c);
  }

  lemma SetChars(es: seq<Entry>, c: char)
    requires |es| >= 1 && (c == ';' || c == ':')
    ensures c !in FormatSet(es)
  {
    forall i | 0 <= i < |es| ensures c !in FormatEntries(es)[i] {
      EntryChars(es[i], c);
    }
    if c in FormatSet(es) {
      JoinChars(FormatEntries(es), ',', c);
    }
  }

  lemma ParseFormatEntry(e: Entry)
    requires e.amount < U32Bound
    ensures ParseEntry(FormatEntry(e)) == Some(e)
  {
    var ws := [ToDecimal(e.amount), ColorName(e.color)];
    assert forall i :: 0 <= i < |ws| ==> |ws[i]| > 0 && NoSpace(ws[i]);
    WordsOfJoin(ws);
    ParseU32ToDecimal(e.amount);
    ParseColorName(e.color);
  }

  lemma {:induction false} ParseFormatEntries(es: seq<Entry>)
    requires forall j :: 0 <= j < |es| ==> es[j].amount < U32Bound
    ensures ParseEntries(FormatEntries(es)) == Some(es)
  {
    if es != [] {
      ParseFormatEntry(es[0]);
      ParseFormatEntries(es[1..]);
      assert FormatEntries(es)[1..] == FormatEntries(es[1..]);
      assert [es[0]] + es[1..] == es;
    }
  }

  lemma ParseFormatSet(es: seq<Entry>)
    requires |es| >= 1 && forall j :: 0 <= j < |es| ==> es[j].amount < U32Bound
    ensures ParseSet(FormatSet(es)) == Some(es)
  {
    forall i | 0 <= i < |es| ensures ',' !in FormatEntries(es)[i] {
      EntryChars(es[i], ',');
    }
    SplitJoin(FormatEntries(es), ',');
    ParseFormatEntries(es);
  }

  /** Pieces that each read as a handful read, together, as those handfuls. */
  lemma ParseSetsOf(parts: seq<string>, sets: seq<seq<Entry>>)
    requires |parts| == |sets| && forall i :: 0 <= i < |parts| ==> ParseSet(parts[i]) == Some(sets[i])
    ensures ParseSets(parts) == Some(sets)
  {
    assert ParseSets(parts).Some?;
    var r := ParseSets(parts).value;
    assert forall i :: 0 <= i < |parts| ==> r[i] == sets[i];
    assert r == sets;
  }

  lemma ParseFormatSets(sets: seq<seq<Entry>>)
    requires forall i :: 0 <= i < |sets| ==>
      |sets[i]| >= 1 && forall j :: 0 <= j < |sets[i]| ==> sets[i][j].amount < U32Bound
    ensures ParseSets(FormatSets(sets)) == Some(sets)
  {
    var parts := FormatSets(sets);
    forall i | 0 <= i < |sets| ensures ParseSet(parts[i]) == Some(sets[i]) {
      ParseFormatSet(sets[i]);
    }
    ParseSetsOf(parts, sets);
  }

  /** Reading a formatted game gives the game back. */
  lemma ParseFormatGame(g: Game)
    requires Spellable(g)
    ensures ParseGame(FormatGame(g)) == Some(g)
  {
    var line := FormatGame(g);
    var body := Join(FormatSets(g.sets), ';');
    assert line[..5] == "Game ";
    GameSplits(g);
    SetsSplit(g.sets);
    ParseU32ToDecimal(g.id);
    ParseFormatSets(g.sets);
  }

  /** After "Game ", the colon separates the id from the handfuls. */
  lemma GameSplits(g: Game)
    requires Spellable(g)
    ensures Split(FormatGame(g)[5..], ':') == [ToDecimal(g.id), Join(FormatSets(g.sets), ';')]
  {
    var body := Join(FormatSets(g.sets), ';');
    assert FormatGame(g)[5..] == Join([ToDecimal(g.id), body], ':');
    SetsChars(g.sets, ':');
    if ':' in body {
      JoinChars(FormatSets(g.sets), ';', ':');
    }
    DigitsOnly(ToDecimal(g.id), ':');
    SplitJoin([ToDecimal(g.id), body], ':');
  }

  /** The semicolons separate the handfuls. */
  lemma SetsSplit(sets: seq<seq<Entry>>)
    requires |sets| >= 1 && forall i :: 0 <= i < |sets| ==> |sets[i]| >= 1
    ensures Split(Join(FormatSets(sets), ';'), ';') == FormatSets(sets)
  {
    SetsChars(sets, ';');
    SplitJoin(FormatSets(sets), ';');
  }

  lemma SetsChars(sets: seq<seq<Entry>>, c: char)
    requires forall i :: 0 <= i < |sets| ==> |sets[i]| >= 1
    requires c == ';' || c == ':'
    ensures forall i :: 0 <= i < |sets| ==> c !in FormatSets(sets)[i]
  {
    forall i | 0 <= i < |sets| ensures c !in FormatSets(sets)[i] {
      SetChars(sets[i], c);
    }
  }

  /** `MAX_ALLOWED`, in the order it is scanned. */
  const MaxAllowed: seq<(Color, nat)> := [(Red, 12), (Green, 13), (Blue, 14)]

  /** The cap of a colour, stated directly. */
  function Cap(c: Color): nat {
    match c
    case Red => 12
    case Green => 13
    case Blue => 14
  }

  /** The inner `for (max_color, max_amount) in MAX_ALLOWED` from position
      `k`: true at the first cap of the entry's colour that it exceeds. */
  function ExceedsFrom(e: Entry, k: nat): (r: bool)
    requires k <= |MaxAllowed|
    decreases |MaxAllowed| - k
  {
    if k == |MaxAllowed| then false
    else if e.color == MaxAllowed[k].0 && e.amount > MaxAllowed[k].1 then true
    else ExceedsFrom(e, k + 1)
  }

  predicate Exceeds(e: Entry) {
    ExceedsFrom(e, 0)
  }

  /** The scan of the cap table flags exactly the entries over their
      colour's cap. */
  lemma ExceedsIffOverCap(e: Entry)
    ensures Exceeds(e) <==> e.amount > Cap(e.color)
  {
  }

  /** The filter of `part_one`: no entry of any handful exceeds its cap. */
  predicate Possible(g: Game) {
    !exists i, j :: 0 <= i < |g.sets| && 0 <= j < |g.sets[i]| && Exceeds(g.sets[i][j])
  }

  /** `part_one`: the sum of the ids of the possible games. */
  function PartOne(games: seq<Game>): (r: nat)
    ensures r <= SumIds(games)
    ensures (forall k :: 0 <= k < |games| ==> Possible(games[k])) ==> r == SumIds(games)
  {
    if games == [] then 0
    else (if Possible(games[0]) then games[0].id else 0) + PartOne(games[1..])
  }

  function SumIds(games: seq<Game>): nat {
    if games == [] then 0 else games[0].id + SumIds(games[1..])
  }

  function Max(a: nat, b: nat): nat { if a < b then b else a }

  /** The most cubes of colour `c` in one handful, 0 when the colour does
      not occur. */
  function MaxInSet(es: seq<Entry>, c: Color): nat {
    if es == [] then 0
    else
      var last := es[|es| - 1];
      Max(MaxInSet(es[..|es| - 1], c), if last.color == c then last.amount else 0)
  }

  /** The fewest cubes of colour `c` that make the game possible: the
      largest amount shown for it, 0 when it never appears. */
  function MaxOf(sets: seq<seq<Entry>>, c: Color): nat {
    if sets == [] then 0 else Max(MaxOf(sets[..|sets| - 1], c), MaxInSet(sets[|sets| - 1], c))
  }

  predicate Shows(sets: seq<seq<Entry>>, c: Color, n: nat) {
    exists i, j :: 0 <= i < |sets| && 0 <= j < |sets[i]| && sets[i][j] == Entry(c, n)
  }

  lemma {:induction false} MaxInSetIsMax(es: seq<Entry>, c: Color)
    ensures forall j :: 0 <= j < |es| && es[j].color == c ==> es[j].amount <= MaxInSet(es, c)
    ensures MaxInSet(es, c) == 0 || exists j :: 0 <= j < |es| && es[j] == Entry(c, MaxInSet(es, c))
  {
    if es != [] {
      var init := es[..|es| - 1];
      MaxInSetIsMax(init, c);
      assert forall j :: 0 <= j < |init| ==> init[j] == es[j];
    }
  }

  /** `MaxOf` bounds every amount of its colour and is one of them, or 0. */
  lemma {:induction false} MaxOfIsMax(sets: seq<seq<Entry>>, c: Color)
    ensures forall i, j :: 0 <= i < |sets| && 0 <= j < |sets[i]| && sets[i][j].color == c ==>
      sets[i][j].amount <= MaxOf(sets, c)
    ensures MaxOf(sets, c) == 0 || Shows(sets, c, MaxOf(sets, c))
  {
    if sets != [] {
      var n := |sets| - 1;
      var init := sets[..n];
      MaxOfIsMax(init, c);
      MaxInSetIsMax(sets[n], c);
      assert forall i :: 0 <= i < n ==> init[i] == sets[i];
      if MaxOf(sets, c) != 0 {
        if MaxOf(sets, c) == MaxOf(init, c) {
          var i, j :| 0 <= i < |init| && 0 <= j < |init[i]| && init[i][j] == Entry(c, MaxOf(sets, c));
          assert sets[i][j] == Entry(c, MaxOf(sets, c));
        } else {
          var j :| 0 <= j < |sets[n]| && sets[n][j] == Entry(c, MaxOf(sets, c));
          assert Shows(sets, c, MaxOf(sets, c));
        }
      }
    }
  }

  /** A game is possible exactly when the fewest cubes it needs of each
      colour are within that colour's cap. */
  lemma PossibleIffWithinCaps(g: Game)
    ensures Possible(g) <==> forall c: Color :: MaxOf(g.sets, c) <= Cap(c)
  {
    if Possible(g) {
      forall c: Color ensures MaxOf(g.sets, c) <= Cap(c) {
        PossibleWithinCap(g, c);
      }
    } else {
      ImpossibleOverCap(g);
    }
  }

  lemma PossibleWithinCap(g: Game, c: Color)
    requires Possible(g)
    ensures MaxOf(g.sets, c) <= Cap(c)
  {
    MaxOfIsMax(g.sets, c);
    if MaxOf(g.sets, c) > Cap(c) {
      var i, j :| 0 <= i < |g.sets| && 0 <= j < |g.sets[i]| && g.sets[i][j] == Entry(c, MaxOf(g.sets, c));
      ExceedsIffOverCap(g.sets[i][j]);
      assert false;
    }
  }

  lemma ImpossibleOverCap(g: Game)
    requires !Possible(g)
    ensures exists c: Color :: MaxOf(g.sets, c) > Cap(c)
  {
    var i, j :| 0 <= i < |g.sets| && 0 <= j < |g.sets[i]| && Exceeds(g.sets[i][j]);
    var e := g.sets[i][j];
    ExceedsIffOverCap(e);
    MaxOfIsMax(g.sets, e.color);
    assert MaxOf(g.sets, e.color) > Cap(e.color);
  }

  /** The map holds exactly the three colours, with these amounts. */
  predicate Holds(m: map<Color, nat>, red: nat, green: nat, blue: nat) {
    m.Keys == {Red, Green, Blue} && m[Red] == red && m[Green] == green && m[Blue] == blue
  }

  /** The amount an entry shows for colour `c`. */
  function Shown(e: Entry, c: Color): nat {
    if e.color == c then e.amount else 0
  }

  /** The step of the fold of `part_two`: every entry of the handful raises
      its colour's minimum to its amount when that is larger. */
  method RaiseBySet(m0: map<Color, nat>, handful: seq<Entry>) returns (m: map<Color, nat>)
    requires m0.Keys == {Red, Green, Blue}
    ensures Holds(m, Max(m0[Red], MaxInSet(handful, Red)), Max(m0[Green], MaxInSet(handful, Green)),
      Max(m0[Blue], MaxInSet(handful, Blue)))
  {
    m := m0;
    for j := 0 to |handful|
      invariant Holds(m, Max(m0[Red], MaxInSet(handful[..j], Red)), Max(m0[Green], MaxInSet(handful[..j], Green)),
        Max(m0[Blue], MaxInSet(handful[..j], Blue)))
    {
      var e := handful[j];
      assert handful[..j + 1][..j] == handful[..j];
      assert MaxInSet(handful[..j + 1], Red) == Max(MaxInSet(handful[..j], Red), Shown(e, Red));
      assert MaxInSet(handful[..j + 1], Green) == Max(MaxInSet(handful[..j], Green), Shown(e, Green));
      assert MaxInSet(handful[..j + 1], Blue) == Max(MaxInSet(handful[..j], Blue), Shown(e, Blue));
      m := RaiseByEntry(m, e);
    }
    assert handful[..|handful|] == handful;
  }

  /** One entry of a handful raises the amount of its colour. */
  method RaiseByEntry(m0: map<Color, nat>, e: Entry) returns (m: map<Color, nat>)
    requires m0.Keys == {Red, Green, Blue}
    ensures Holds(m, Max(m0[Red], Shown(e, Red)), Max(m0[Green], Shown(e, Green)), Max(m0[Blue], Shown(e, Blue)))
  {
    assert e.color in m0 by {
      assert e.color == Red || e.color == Green || e.color == Blue;
    }
    m := m0;
    if m[e.color] < e.amount {
      m := m[e.color := e.amount];
    }
  }

  /** The fold of `part_two`: a map from each colour to the largest amount
      seen, starting from 0. */
  method MinimumSet(g: Game) returns (m: map<Color, nat>)
    ensures Holds(m, MaxOf(g.sets, Red), MaxOf(g.sets, Green), MaxOf(g.sets, Blue))
  {
    m := map[Red := 0, Green := 0, Blue := 0];
    for i := 0 to |g.sets|
      invariant Holds(m, MaxOf(g.sets[..i], Red), MaxOf(g.sets[..i], Green), MaxOf(g.sets[..i], Blue))
    {
      assert g.sets[..i + 1][..i] == g.sets[..i];
      assert g.sets[..i + 1][i] == g.sets[i];
      m := RaiseBySet(m, g.sets[i]);
    }
    assert g.sets[..|g.sets|] == g.sets;
  }

  /** The product of the three minima; it is 0 when a colour never shows. */
  function Power(g: Game): nat {
    MaxOf(g.sets, Red) * MaxOf(g.sets, Green) * MaxOf(g.sets, Blue)
  }

  /** The power is 0 exactly when the fewest cubes of some colour is 0. */
  lemma PowerZero(g: Game)
    ensures Power(g) == 0 <==> MaxOf(g.sets, Red) == 0 || MaxOf(g.sets, Green) == 0 || MaxOf(g.sets, Blue) == 0
  {
    ProductZero(MaxOf(g.sets, Red), MaxOf(g.sets, Green), MaxOf(g.sets, Blue));
  }

  lemma ProductZero(r: nat, g: nat, b: nat)
    ensures r * g * b == 0 <==> r == 0 || g == 0 || b == 0
  {
    if r > 0 && g > 0 && b > 0 {
      assert r * g > 0;
      assert r * g * b > 0;
    }
  }

  /** The fewest cubes of a colour is 0 exactly when the colour is never
      shown with a positive amount. */
  lemma MaxOfZero(sets: seq<seq<Entry>>, c: Color)
    ensures MaxOf(sets, c) == 0 <==>
      forall i, j :: 0 <= i < |sets| && 0 <= j < |sets[i]| && sets[i][j].color == c ==> sets[i][j].amount == 0
  {
    MaxOfIsMax(sets, c);
  }

  /** The power of one game, from its minimum set. */
  method GamePower(g: Game) returns (power: nat)
    ensures power == Power(g)
  {
    var m := MinimumSet(g);
    power := m[Red] * m[Green] * m[Blue];
  }

  function SumPowers(games: seq<Game>): nat {
    if games == [] then 0 else SumPowers(games[..|games| - 1]) + Power(games[|games| - 1])
  }

  /** `part_two`: the sum of the powers of the games. */
  method PartTwo(games: seq<Game>) returns (sum: nat)
    ensures sum == SumPowers(games)
  {
    sum := 0;
    for k := 0 to |games|
      invariant sum == SumPowers(games[..k])
    {
      var power := GamePower(games[k]);
      assert games[..k + 1][..k] == games[..k];
      sum := sum + power;
    }
    assert games[..|games|] == games;
  }
}
