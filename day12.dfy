// Day 12: Hot Springs.  A row lists springs that are working ('.'), broken
// ('#') or unknown ('?'), and the lengths of the runs of broken springs.  The
// answer counts the ways to fill in the unknowns so that the runs match.
module Day12 {
  import opened Wrappers
  import opened Text

  datatype Condition = Unknown | Broken | Working

  /** Condition::from_char; None where the source panics. */
  function FromChar(c: char): (r: Option<Condition>)
    ensures r == Some(Working) <==> c == '.'
    ensures r == Some(Broken) <==> c == '#'
    ensures r == Some(Unknown) <==> c == '?'
    ensures r.None? <==> c !in ".#?"
  {
    match c
    case '.' => Some(Working)
    case '#' => Some(Broken)
    case '?' => Some(Unknown)
    case _ => None
  }

  datatype Row = Row(springs: seq<Condition>, groups: seq<nat>)

  function ParseSprings(s: string): (r: Option<seq<Condition>>)
    ensures r.Some? <==> forall i :: 0 <= i < |s| ==> FromChar(s[i]).Some?
    ensures r.Some? ==>
      |r.value| == |s| && forall i :: 0 <= i < |s| ==> Some(r.value[i]) == FromChar(s[i])
  {
    if s == [] then Some([])
    else match (ParseSprings(s[..|s| - 1]), FromChar(s[|s| - 1]))
      case (Some(cs), Some(c)) => Some(cs + [c])
      case _ => None
  }

  function ParseGroups(parts: seq<string>): (r: Option<seq<nat>>)
    ensures r.Some? <==> forall i :: 0 <= i < |parts| ==> ParseU32(parts[i]).Some?
    ensures r.Some? ==>
      |r.value| == |parts| && forall i :: 0 <= i < |parts| ==> Some(r.value[i]) == ParseU32(parts[i])
  {
    if parts == [] then Some([])
    else
      var init := parts[..|parts| - 1];
      assert forall i :: 0 <= i < |init| ==> init[i] == parts[i];
      match (ParseGroups(init), ParseU32(parts[|parts| - 1]))
      case (Some(gs), Some(g)) =>
        ParsedSnoc(parts, gs, g);
        Some(gs + [g])
      case _ => None
  }

  /** A number read from the last part extends the numbers read from the
      parts before it. */
  lemma ParsedSnoc(parts: seq<string>, gs: seq<nat>, g: nat)
    requires |parts| > 0 && |gs| == |parts| - 1
    requires forall i :: 0 <= i < |gs| ==> Some(gs[i]) == ParseU32(parts[i])
    requires Some(g) == ParseU32(parts[|parts| - 1])
    ensures forall i :: 0 <= i < |parts| ==> Some((gs + [g])[i]) == ParseU32(parts[i])
  {
    forall i | 0 <= i < |parts|
      ensures Some((gs + [g])[i]) == ParseU32(parts[i])
    {
      if i < |gs| {
        assert (gs + [g])[i] == gs[i];
      }
    }
  }

  /** Row::from_string: the first two whitespace-separated words are the
      springs and the comma-separated groups; None where the source panics. */
  function FromString(line: string): (r: Option<Row>)
    ensures r.Some? ==>
      |Words(line)| >= 2
      && Some(r.value.springs) == ParseSprings(Words(line)[0])
      && Some(r.value.groups) == ParseGroups(Split(Words(line)[1], ','))
  {
    var ws := Words(line);
    if |ws| < 2 then None
    else match (ParseSprings(ws[0]), ParseGroups(Split(ws[1], ',')))
      case (Some(springs), Some(groups)) => Some(Row(springs, groups))
      case _ => None
  }

  // ---------------------------------------------------------------------
  // Runs of broken springs, and the brute-force count
  // ---------------------------------------------------------------------

  /** The lengths of the maximal runs of true (broken) in a filled-in row. */
  function Runs(s: seq<bool>): (r: seq<nat>)
    ensures forall k :: 0 <= k < |r| ==> r[k] > 0
    ensures |s| > 0 && s[|s| - 1] ==> |r| > 0
  {
    if s == [] then []
    else
      var r := Runs(s[..|s| - 1]);
      if !s[|s| - 1] then r
      else if |s| > 1 && s[|s| - 2] then r[..|r| - 1] + [r[|r| - 1] + 1]
      else r + [1]
  }

  /** The groups with the last one lengthened by one. */
  function Longer(g: seq<nat>): seq<nat>
    requires g != []
  {
    g[..|g| - 1] + [g[|g| - 1] + 1]
  }

  /** The number of ways to fill in the unknowns of p so that the filled-in
      row followed by tail has the runs g. */
  function Ways(p: seq<Condition>, tail: seq<bool>, g: seq<nat>): nat
    decreases |p|
  {
    if p == [] then (if Runs(tail) == g then 1 else 0)
    else
      var p0 := p[..|p| - 1];
      var broken := if p[|p| - 1] != Working then Ways(p0, [true] + tail, g) else 0;
      var working := if p[|p| - 1] != Broken then Ways(p0, [false] + tail, g) else 0;
      broken + working
  }

  /** The filled-in row c followed by tail has the runs g. */
  predicate Meets(c: seq<bool>, tail: seq<bool>, g: seq<nat>)
  {
    Runs(c + tail) == g
  }

  /** Two counts agree when their conditions agree on every filled-in row. */
  lemma {:induction false} WaysAgree(p: seq<Condition>, t1: seq<bool>, g1: seq<nat>, t2: seq<bool>, g2: seq<nat>)
    requires forall c :: |c| == |p| ==> (Meets(c, t1, g1) <==> Meets(c, t2, g2))
    ensures Ways(p, t1, g1) == Ways(p, t2, g2)
    decreases |p|
  {
    if p == [] {
      assert [] + t1 == t1 && [] + t2 == t2;
      assert Meets([], t1, g1) <==> Meets([], t2, g2);
    } else {
      var p0 := p[..|p| - 1];
      AgreeAfter(p0, true, t1, g1, t2, g2);
      AgreeAfter(p0, false, t1, g1, t2, g2);
      WaysAgree(p0, [true] + t1, g1, [true] + t2, g2);
      WaysAgree(p0, [false] + t1, g1, [false] + t2, g2);
    }
  }

  lemma AgreeAfter(p0: seq<Condition>, b: bool, t1: seq<bool>, g1: seq<nat>, t2: seq<bool>, g2: seq<nat>)
    requires forall c :: |c| == |p0| + 1 ==> (Meets(c, t1, g1) <==> Meets(c, t2, g2))
    ensures forall c :: |c| == |p0| ==> (Meets(c, [b] + t1, g1) <==> Meets(c, [b] + t2, g2))
  {
    forall c | |c| == |p0|
      ensures Meets(c, [b] + t1, g1) <==> Meets(c, [b] + t2, g2)
    {
      assert |c + [b]| == |p0| + 1;
      MeetsShift(c, b, t1, g1);
      MeetsShift(c, b, t2, g2);
    }
  }

  lemma MeetsShift(c: seq<bool>, b: bool, t: seq<bool>, g: seq<nat>)
    ensures Meets(c, [b] + t, g) == Meets(c + [b], t, g)
  {
    assert (c + [b]) + t == c + ([b] + t);
  }

  /** No filled-in row meets the condition: the count is 0. */
  lemma {:induction false} WaysNone(p: seq<Condition>, t: seq<bool>, g: seq<nat>)
    requires forall c :: |c| == |p| ==> !Meets(c, t, g)
    ensures Ways(p, t, g) == 0
    decreases |p|
  {
    if p == [] {
      assert [] + t == t;
      assert !Meets([], t, g);
    } else {
      var p0 := p[..|p| - 1];
      NoneAfter(p0, true, t, g);
      NoneAfter(p0, false, t, g);
      WaysNone(p0, [true] + t, g);
      WaysNone(p0, [false] + t, g);
    }
  }

  lemma NoneAfter(p0: seq<Condition>, b: bool, t: seq<bool>, g: seq<nat>)
    requires forall c :: |c| == |p0| + 1 ==> !Meets(c, t, g)
    ensures forall c :: |c| == |p0| ==> !Meets(c, [b] + t, g)
  {
    forall c | |c| == |p0|
      ensures !Meets(c, [b] + t, g)
    {
      assert |c + [b]| == |p0| + 1;
      MeetsShift(c, b, t, g);
    }
  }

  lemma RunsWorking(c: seq<bool>)
    ensures Runs(c + [false]) == Runs(c)
  {
    assert (c + [false])[..|c|] == c;
  }

  lemma RunsWorkingBroken(c: seq<bool>)
    ensures Runs(c + [false, true]) == Runs(c) + [1]
  {
    assert (c + [false, true])[..|c| + 1] == c + [false];
    RunsWorking(c);
  }

  lemma LongerInjective(a: seq<nat>, b: seq<nat>)
    requires a != [] && b != []
    ensures Longer(a) == Longer(b) <==> a == b
  {
    if Longer(a) == Longer(b) {
      assert |a| == |b|;
      assert a[..|a| - 1] == Longer(a)[..|a| - 1] == Longer(b)[..|b| - 1] == b[..|b| - 1];
      assert a[|a| - 1] + 1 == Longer(a)[|a| - 1] == Longer(b)[|b| - 1] == b[|b| - 1] + 1;
      assert a == a[..|a| - 1] + [a[|a| - 1]];
      assert b == b[..|b| - 1] + [b[|b| - 1]];
    }
  }

  lemma RunsBrokenBroken(c: seq<bool>)
    ensures Runs(c + [true, true]) == Longer(Runs(c + [true]))
  {
    assert (c + [true, true])[..|c| + 1] == c + [true];
  }

  // ---------------------------------------------------------------------
  // get_number_of_arrangements
  // ---------------------------------------------------------------------

  /** A measure that falls when an unknown is filled in and when a spring is
      popped. */
  function Weight(p: seq<Condition>): nat
  {
    if p == [] then 0 else Weight(p[..|p| - 1]) + (if p[|p| - 1] == Unknown then 2 else 1)
  }

  lemma WeightSnoc(p: seq<Condition>, c: Condition)
    ensures Weight(p + [c]) == Weight(p) + (if c == Unknown then 2 else 1)
  {
    assert (p + [c])[..|p|] == p;
  }

  /** get_number_of_arrangements: springs and groups are consumed from the
      end; reading says whether a run of broken springs is being read. */
  function Arrangements(springs: seq<Condition>, groups: seq<nat>, reading: Option<bool>): nat
    requires reading == Some(true) ==> groups != []
    decreases Weight(springs)
  {
    if groups == [] && springs == [] then 1
    else if springs == [] then (if groups == [0] then 1 else 0)
    else
      var rest := springs[..|springs| - 1];
      WeightSnoc(rest, springs[|springs| - 1]);
      match springs[|springs| - 1]
      case Unknown =>
        WeightSnoc(rest, Broken);
        WeightSnoc(rest, Working);
        Arrangements(rest + [Broken], groups, reading) + Arrangements(rest + [Working], groups, reading)
      case Broken =>
        if groups == [] || groups[|groups| - 1] == 0 then 0
        else Arrangements(rest, groups[..|groups| - 1] + [groups[|groups| - 1] - 1], Some(true))
      case Working =>
        if reading.None? then Arrangements(rest, groups, Some(false))
        else if reading.value && groups[|groups| - 1] == 0 then
          Arrangements(rest, groups[..|groups| - 1], Some(false))
        else if !reading.value then Arrangements(rest, groups, Some(false))
        else 0
  }

  predicate Positive(g: seq<nat>)
  {
    forall k :: 0 <= k < |g| ==> g[k] > 0
  }

  /** Ways peels the last spring off into the tail. */
  lemma WaysSnoc(rest: seq<Condition>, last: Condition, tail: seq<bool>, g: seq<nat>)
    ensures Ways(rest + [last], tail, g)
      == (if last != Working then Ways(rest, [true] + tail, g) else 0)
       + (if last != Broken then Ways(rest, [false] + tail, g) else 0)
  {
    assert (rest + [last])[..|rest|] == rest;
  }

  /** A broken spring needs a group to belong to. */
  lemma BrokenWithoutGroup(rest: seq<Condition>)
    ensures Ways(rest, [true], []) == 0
  {
    forall c | |c| == |rest| ensures !Meets(c, [true], []) {
    }
    WaysNone(rest, [true], []);
  }

  /** A broken spring next to a run already as long as its group. */
  lemma RunTooLong(rest: seq<Condition>, groups: seq<nat>)
    requires groups != [] && groups[|groups| - 1] == 0
    ensures Ways(rest, [true, true], Longer(groups)) == 0
  {
    forall c | |c| == |rest| ensures !Meets(c, [true, true], Longer(groups)) {
      RunsBrokenBroken(c);
      var r := Runs(c + [true]);
      assert r[|r| - 1] > 0;
      assert Longer(r)[|r| - 1] == r[|r| - 1] + 1;
      assert Longer(groups)[|groups| - 1] == 1;
    }
    WaysNone(rest, [true, true], Longer(groups));
  }

  /** A broken spring before an open run lengthens it. */
  lemma RunGrows(rest: seq<Condition>, groups: seq<nat>)
    requires groups != []
    ensures Ways(rest, [true, true], Longer(groups)) == Ways(rest, [true], groups)
  {
    forall c | |c| == |rest|
      ensures Meets(c, [true, true], Longer(groups)) <==> Meets(c, [true], groups)
    {
      RunsBrokenBroken(c);
      LongerInjective(Runs(c + [true]), groups);
    }
    WaysAgree(rest, [true, true], Longer(groups), [true], groups);
  }

  /** A working spring closes an open run of exactly the group's length. */
  lemma RunCloses(rest: seq<Condition>, groups: seq<nat>)
    requires groups != [] && groups[|groups| - 1] == 0
    ensures Ways(rest, [false, true], Longer(groups)) == Ways(rest, [], groups[..|groups| - 1])
  {
    var g0 := groups[..|groups| - 1];
    forall c | |c| == |rest|
      ensures Meets(c, [false, true], Longer(groups)) <==> Meets(c, [], g0)
    {
      assert c + [] == c;
      RunsWorkingBroken(c);
      assert Longer(groups) == g0 + [1];
      if Runs(c) + [1] == g0 + [1] {
        assert Runs(c) == (Runs(c) + [1])[..|Runs(c)|] == (g0 + [1])[..|g0|] == g0;
      }
    }
    WaysAgree(rest, [false, true], Longer(groups), [], g0);
  }

  /** A working spring cannot close an open run that is still too short. */
  lemma RunCutShort(rest: seq<Condition>, groups: seq<nat>)
    requires groups != [] && groups[|groups| - 1] != 0
    ensures Ways(rest, [false, true], Longer(groups)) == 0
  {
    forall c | |c| == |rest| ensures !Meets(c, [false, true], Longer(groups)) {
      RunsWorkingBroken(c);
      var r := Runs(c) + [1];
      assert r[|r| - 1] == 1;
      assert Longer(groups)[|groups| - 1] == groups[|groups| - 1] + 1;
    }
    WaysNone(rest, [false, true], Longer(groups));
  }

  /** A working spring outside a run changes nothing. */
  lemma WorkingOutsideRun(rest: seq<Condition>, groups: seq<nat>)
    ensures Ways(rest, [false], groups) == Ways(rest, [], groups)
  {
    forall c | |c| == |rest|
      ensures Meets(c, [false], groups) <==> Meets(c, [], groups)
    {
      assert c + [] == c;
      RunsWorking(c);
    }
    WaysAgree(rest, [false], groups, [], groups);
  }

  /** The count the counter should give: with no run open, the fillings whose
      runs are the groups; with a run open, the fillings that, followed by one
      more broken spring, have the groups with the last lengthened by one. */
  function Expected(springs: seq<Condition>, groups: seq<nat>, reading: Option<bool>): nat
    requires reading == Some(true) ==> groups != []
  {
    if reading == Some(true) then Ways(springs, [true], Longer(groups)) else Ways(springs, [], groups)
  }

  /** What may be asked of the counter: positive groups, except that the
      last may have been read down to 0 while a run is open. */
  predicate Admissible(groups: seq<nat>, reading: Option<bool>)
  {
    (reading != Some(true) ==> Positive(groups))
    && (reading == Some(true) ==> groups != [] && Positive(groups[..|groups| - 1]))
  }

  lemma {:induction false} ArrangementsCount(springs: seq<Condition>, groups: seq<nat>, reading: Option<bool>)
    requires Admissible(groups, reading)
    ensures Arrangements(springs, groups, reading) == Expected(springs, groups, reading)
    decreases Weight(springs), 1
  {
    if springs == [] {
      if reading != Some(true) && groups != [] {
        assert groups[0] > 0;
      }
    } else {
      var rest := springs[..|springs| - 1];
      var last := springs[|springs| - 1];
      assert springs == rest + [last];
      match last
      case Unknown => CountUnknown(rest, groups, reading);
      case Broken => CountBroken(rest, groups, reading);
      case Working => CountWorking(rest, groups, reading);
    }
  }

  lemma {:induction false} CountUnknown(rest: seq<Condition>, groups: seq<nat>, reading: Option<bool>)
    requires Admissible(groups, reading)
    ensures Arrangements(rest + [Unknown], groups, reading) == Expected(rest + [Unknown], groups, reading)
    decreases Weight(rest + [Unknown]), 0
  {
    assert (rest + [Unknown])[..|rest|] == rest;
    WeightSnoc(rest, Unknown);
    WeightSnoc(rest, Broken);
    WeightSnoc(rest, Working);
    ArrangementsCount(rest + [Broken], groups, reading);
    ArrangementsCount(rest + [Working], groups, reading);
    var tail := if reading == Some(true) then [true] else [];
    var target := if reading == Some(true) then Longer(groups) else groups;
    WaysSnoc(rest, Unknown, tail, target);
    WaysSnoc(rest, Broken, tail, target);
    WaysSnoc(rest, Working, tail, target);
  }

  lemma {:induction false} CountBroken(rest: seq<Condition>, groups: seq<nat>, reading: Option<bool>)
    requires Admissible(groups, reading)
    ensures Arrangements(rest + [Broken], groups, reading) == Expected(rest + [Broken], groups, reading)
    decreases Weight(rest + [Broken]), 0
  {
    var springs := rest + [Broken];
    assert springs[..|rest|] == rest;
    WeightSnoc(rest, Broken);
    if groups == [] {
      WaysSnoc(rest, Broken, [], []);
      assert [true] + [] == [true];
      BrokenWithoutGroup(rest);
    } else if reading == Some(true) && groups[|groups| - 1] == 0 {
      WaysSnoc(rest, Broken, [true], Longer(groups));
      assert [true] + [true] == [true, true];
      RunTooLong(rest, groups);
    } else {
      var k := groups[|groups| - 1];
      assert k > 0;
      var shorter := groups[..|groups| - 1] + [k - 1];
      assert shorter[..|shorter| - 1] == groups[..|groups| - 1];
      assert Arrangements(springs, groups, reading) == Arrangements(rest, shorter, Some(true));
      ArrangementsCount(rest, shorter, Some(true));
      assert Longer(shorter) == groups;
      if reading == Some(true) {
        WaysSnoc(rest, Broken, [true], Longer(groups));
        assert [true] + [true] == [true, true];
        RunGrows(rest, groups);
      } else {
        WaysSnoc(rest, Broken, [], groups);
        assert [true] + [] == [true];
      }
    }
  }

  lemma {:induction false} CountWorking(rest: seq<Condition>, groups: seq<nat>, reading: Option<bool>)
    requires Admissible(groups, reading)
    ensures Arrangements(rest + [Working], groups, reading) == Expected(rest + [Working], groups, reading)
    decreases Weight(rest + [Working]), 0
  {
    assert (rest + [Working])[..|rest|] == rest;
    WeightSnoc(rest, Working);
    var tail := if reading == Some(true) then [true] else [];
    var target := if reading == Some(true) then Longer(groups) else groups;
    WaysSnoc(rest, Working, tail, target);
    assert [false] + [true] == [false, true] && [false] + [] == [false];
    if reading == Some(true) {
      if groups[|groups| - 1] == 0 {
        ArrangementsCount(rest, groups[..|groups| - 1], Some(false));
        RunCloses(rest, groups);
      } else {
        RunCutShort(rest, groups);
      }
    } else {
      ArrangementsCount(rest, groups, Some(false));
      WorkingOutsideRun(rest, groups);
    }
  }

  /** get_number_of_arrangements(row, None) counts the fillings of the
      unknowns whose runs of broken springs are the groups. */
  lemma ArrangementsAreWays(row: Row)
    requires Positive(row.groups)
    ensures Arrangements(row.springs, row.groups, None) == Ways(row.springs, [], row.groups)
  {
    ArrangementsCount(row.springs, row.groups, None);
  }

  lemma BrokenBeforeZero(rest: seq<Condition>, groups: seq<nat>)
    requires groups != [] && groups[|groups| - 1] == 0
    ensures Ways(rest, [true], groups) == 0
  {
    forall c | |c| == |rest| ensures !Meets(c, [true], groups) {
      var r := Runs(c + [true]);
      assert r[|r| - 1] > 0;
    }
    WaysNone(rest, [true], groups);
  }

  // ---------------------------------------------------------------------
  // The chunks of get_number_of_arrangements_faster
  // ---------------------------------------------------------------------

  lemma ChunkStart(c: Condition)
    requires c != Working
    ensures ChunkStep([], c) == [[c]]
  {
    var none: seq<seq<Condition>> := [];
    var grown: seq<seq<Condition>> := none + [[]];
    assert grown == [[]];
    assert grown[..0] == [];
    assert grown[0] + [c] == [c];
  }

  /** One step of the fold that cuts the springs into chunks at each working
      spring. */
  function ChunkStep(acc: seq<seq<Condition>>, c: Condition): seq<seq<Condition>>
  {
    var grown := if c == Working || acc == [] then acc + [[]] else acc;
    if c != Working then grown[..|grown| - 1] + [grown[|grown| - 1] + [c]] else grown
  }

  function ChunksOf(springs: seq<Condition>): (chunks: seq<seq<Condition>>)
    ensures forall k :: 0 <= k < |chunks| ==> Working !in chunks[k]
    ensures chunks == [] <==> springs == []
  {
    if springs == [] then [] else ChunkStep(ChunksOf(springs[..|springs| - 1]), springs[|springs| - 1])
  }

  /** The chunks put back together with a working spring between each two. */
  function JoinChunks(chunks: seq<seq<Condition>>): seq<Condition>
  {
    if |chunks| <= 1 then (if chunks == [] then [] else chunks[0])
    else JoinChunks(chunks[..|chunks| - 1]) + [Working] + chunks[|chunks| - 1]
  }

  lemma JoinGrowLast(init: seq<seq<Condition>>, last: seq<Condition>, c: Condition)
    ensures JoinChunks(init + [last + [c]]) == JoinChunks(init + [last]) + [c]
  {
    var a, b := init + [last + [c]], init + [last];
    if init != [] {
      assert a[..|a| - 1] == init && b[..|b| - 1] == init;
      var j := JoinChunks(init);
      assert JoinChunks(a) == j + [Working] + (last + [c]);
      assert JoinChunks(b) == j + [Working] + last;
    } else {
      assert a == [last + [c]] && b == [last];
    }
  }

  lemma JoinStep(acc: seq<seq<Condition>>, c: Condition)
    ensures JoinChunks(ChunkStep(acc, c))
      == if acc == [] then (if c == Working then [] else [c]) else JoinChunks(acc) + [c]
  {
    if acc == [] {
      assert acc + [[]] == [[]];
      if c != Working {
        var empty: seq<Condition> := [];
        assert empty + [c] == [c];
        assert [empty][..0] == [];
      }
    } else if c == Working {
      JoinOpensChunk(acc);
    } else {
      JoinGrowsChunk(acc, c);
    }
  }

  /** A working spring after some chunks opens a new, empty one. */
  lemma JoinOpensChunk(acc: seq<seq<Condition>>)
    requires acc != []
    ensures JoinChunks(ChunkStep(acc, Working)) == JoinChunks(acc) + [Working]
  {
    var a := acc + [[]];
    assert ChunkStep(acc, Working) == a;
    assert a[..|acc|] == acc;
    assert JoinChunks(a) == JoinChunks(acc) + [Working] + [];
  }

  /** Any other spring after some chunks grows the last one. */
  lemma JoinGrowsChunk(acc: seq<seq<Condition>>, c: Condition)
    requires acc != [] && c != Working
    ensures JoinChunks(ChunkStep(acc, c)) == JoinChunks(acc) + [c]
  {
    var init, last := acc[..|acc| - 1], acc[|acc| - 1];
    assert acc == init + [last];
    assert ChunkStep(acc, c) == init + [last + [c]];
    JoinGrowLast(init, last, c);
  }

  /** The chunks hold every spring, in order, with the working springs as
      separators; a working spring at the very start opens the first chunk
      instead. */
  lemma {:induction false} ChunksJoin(springs: seq<Condition>)
    ensures JoinChunks(ChunksOf(springs))
      == if springs != [] && springs[0] == Working then springs[1..] else springs
  {
    if springs != [] {
      var rest := springs[..|springs| - 1];
      var c := springs[|springs| - 1];
      assert springs == rest + [c];
      ChunksJoin(rest);
      ChunksJoinSnoc(rest, c);
    }
  }

  lemma ChunksJoinSnoc(rest: seq<Condition>, c: Condition)
    requires JoinChunks(ChunksOf(rest)) == if rest != [] && rest[0] == Working then rest[1..] else rest
    ensures JoinChunks(ChunksOf(rest + [c])) == if (rest + [c])[0] == Working then (rest + [c])[1..] else rest + [c]
  {
    ChunksOfSnoc(rest, c);
    JoinStep(ChunksOf(rest), c);
    if rest != [] {
      JoinExtendsRest(rest + [c], rest, c);
    }
  }

  lemma ChunksOfSnoc(rest: seq<Condition>, c: Condition)
    ensures ChunksOf(rest + [c]) == ChunkStep(ChunksOf(rest), c)
  {
    assert (rest + [c])[..|rest|] == rest;
  }

  lemma JoinExtendsRest(springs: seq<Condition>, rest: seq<Condition>, c: Condition)
    requires rest != [] && springs == rest + [c]
    ensures springs[0] == rest[0]
    ensures (if springs[0] == Working then springs[1..] else springs)
      == (if rest[0] == Working then rest[1..] else rest) + [c]
  {
    assert springs[1..] == rest[1..] + [c];
  }

  // ---------------------------------------------------------------------
  // get_ways_to_fill_chunk
  // ---------------------------------------------------------------------

  /** The groups left over, one entry per way, after the chunk's runs have
      been matched from the end of the groups; grouping says a run is open
      at the chunk's right end. */
  function Fill(conds: seq<Condition>, groups: seq<nat>, grouping: bool): seq<seq<nat>>
    requires Working !in conds
    requires grouping ==> groups != []
    decreases Weight(conds)
  {
    if conds == [] then
      if !grouping then [groups]
      else if groups[|groups| - 1] == 0 then [groups[..|groups| - 1]]
      else []
    else
      var rest := conds[..|conds| - 1];
      var last := conds[|conds| - 1];
      WeightSnoc(rest, last);
      WeightSnoc(rest, Broken);
      if last == Unknown then
        if groups == [] then Fill(rest, groups, false)
        else if grouping then
          if groups[|groups| - 1] == 0 then Fill(rest, groups[..|groups| - 1], false)
          else Fill(rest + [Broken], groups, false)
        else Fill(rest + [Broken], groups, false) + Fill(rest, groups, false)
      else
        assert last == Broken;
        if groups == [] || groups[|groups| - 1] == 0 then []
        else Fill(rest, groups[..|groups| - 1] + [groups[|groups| - 1] - 1], true)
  }

  /** How often Fill should list the leftover left: the ways to fill the
      chunk with the runs the groups have beyond left (one longer at the end
      when a run is open). */
  function FillExpected(conds: seq<Condition>, groups: seq<nat>, grouping: bool, left: seq<nat>): nat
    requires grouping ==> groups != []
  {
    if grouping then
      (if left <= groups[..|groups| - 1] then Ways(conds, [true], Longer(groups)[|left|..]) else 0)
    else
      (if left <= groups then Ways(conds, [], groups[|left|..]) else 0)
  }

  lemma LongerSuffix(groups: seq<nat>, left: seq<nat>)
    requires groups != [] && left <= groups[..|groups| - 1]
    ensures groups[|left|..] != []
    ensures Longer(groups)[|left|..] == Longer(groups[|left|..])
    ensures groups[|left|..][|groups| - |left| - 1] == groups[|groups| - 1]
    ensures groups[|left|..][..|groups| - |left| - 1] == groups[..|groups| - 1][|left|..]
  {
  }

  lemma {:induction false} FillCounts(conds: seq<Condition>, groups: seq<nat>, grouping: bool, left: seq<nat>)
    requires Working !in conds
    requires grouping ==> groups != []
    ensures multiset(Fill(conds, groups, grouping))[left] == FillExpected(conds, groups, grouping, left)
    decreases Weight(conds)
  {
    if conds == [] {
      FillBase(groups, grouping, left);
    } else {
      var rest := conds[..|conds| - 1];
      var last := conds[|conds| - 1];
      assert conds == rest + [last];
      WeightSnoc(rest, last);
      WeightSnoc(rest, Broken);
      if last == Unknown {
        FillUnknown(rest, groups, grouping, left);
      } else {
        FillBroken(rest, groups, grouping, left);
      }
    }
  }

  lemma FillBase(groups: seq<nat>, grouping: bool, left: seq<nat>)
    requires grouping ==> groups != []
    ensures multiset(Fill([], groups, grouping))[left] == FillExpected([], groups, grouping, left)
  {
    assert Runs([true]) == [1] by {
      assert [true][..0] == [];
    }
    assert [true] + [] == [true];
    if grouping {
      var g0 := groups[..|groups| - 1];
      var k := groups[|groups| - 1];
      if left <= g0 {
        LongerSuffix(groups, left);
        var s := Longer(groups)[|left|..];
        assert s == g0[|left|..] + [k + 1];
        assert (s == [1]) == (left == g0 && k == 0);
      }
    } else if left <= groups {
      assert (groups[|left|..] == []) == (left == groups);
    }
  }

  lemma {:induction false} FillUnknown(rest: seq<Condition>, groups: seq<nat>, grouping: bool, left: seq<nat>)
    requires Working !in rest
    requires grouping ==> groups != []
    ensures multiset(Fill(rest + [Unknown], groups, grouping))[left] == FillExpected(rest + [Unknown], groups, grouping, left)
    decreases Weight(rest + [Unknown]), 0
  {
    var conds := rest + [Unknown];
    assert conds[..|conds| - 1] == rest;
    WeightSnoc(rest, Unknown);
    WeightSnoc(rest, Broken);
    assert Working !in rest + [Broken];
    assert [true] + [true] == [true, true] && [false] + [true] == [false, true];
    assert [true] + [] == [true] && [false] + [] == [false];
    if groups == [] {
      FillCounts(rest, groups, false, left);
      WaysSnoc(rest, Unknown, [], []);
      BrokenWithoutGroup(rest);
      WorkingOutsideRun(rest, []);
    } else if grouping {
      var g0 := groups[..|groups| - 1];
      if left <= g0 {
        LongerSuffix(groups, left);
        var s := groups[|left|..];
        WaysSnoc(rest, Unknown, [true], Longer(s));
        if groups[|groups| - 1] == 0 {
          FillCounts(rest, g0, false, left);
          RunTooLong(rest, s);
          RunCloses(rest, s);
        } else {
          FillCounts(rest + [Broken], groups, false, left);
          WaysSnoc(rest, Broken, [], s);
          RunGrows(rest, s);
          RunCutShort(rest, s);
        }
      } else if groups[|groups| - 1] == 0 {
        FillCounts(rest, g0, false, left);
      } else {
        FillCounts(rest + [Broken], groups, false, left);
        if left <= groups {
          assert left == groups;
          WaysSnoc(rest, Broken, [], []);
          BrokenWithoutGroup(rest);
        }
      }
    } else {
      FillCounts(rest + [Broken], groups, false, left);
      FillCounts(rest, groups, false, left);
      if left <= groups {
        var s := groups[|left|..];
        WaysSnoc(rest, Unknown, [], s);
        WaysSnoc(rest, Broken, [], s);
        WorkingOutsideRun(rest, s);
      }
    }
  }

  lemma {:induction false} FillBroken(rest: seq<Condition>, groups: seq<nat>, grouping: bool, left: seq<nat>)
    requires Working !in rest
    requires grouping ==> groups != []
    ensures multiset(Fill(rest + [Broken], groups, grouping))[left] == FillExpected(rest + [Broken], groups, grouping, left)
    decreases Weight(rest + [Broken]), 0
  {
    var conds := rest + [Broken];
    assert conds[..|conds| - 1] == rest;
    WeightSnoc(rest, Broken);
    assert [true] + [true] == [true, true] && [true] + [] == [true];
    if groups == [] {
      WaysSnoc(rest, Broken, [], []);
      BrokenWithoutGroup(rest);
    } else {
      var g0 := groups[..|groups| - 1];
      var k := groups[|groups| - 1];
      if left <= g0 {
        LongerSuffix(groups, left);
      }
      var s := if left <= groups then groups[|left|..] else [];
      if k == 0 {
        if grouping {
          if left <= g0 {
            WaysSnoc(rest, Broken, [true], Longer(s));
            RunTooLong(rest, s);
          }
        } else if left <= groups {
          WaysSnoc(rest, Broken, [], s);
          if s == [] {
            BrokenWithoutGroup(rest);
          } else {
            BrokenBeforeZero(rest, s);
          }
        }
      } else {
        var shorter := g0 + [k - 1];
        assert shorter[..|shorter| - 1] == g0;
        assert Longer(shorter) == groups;
        FillCounts(rest, shorter, true, left);
        if grouping {
          if left <= g0 {
            WaysSnoc(rest, Broken, [true], Longer(s));
            RunGrows(rest, s);
          }
        } else if left <= groups {
          WaysSnoc(rest, Broken, [], s);
          if !(left <= g0) {
            assert left == groups;
            BrokenWithoutGroup(rest);
          }
        }
      }
    }
  }

  // ---------------------------------------------------------------------
  // The (groups left, count) lists and the HashMap that merges them
  // ---------------------------------------------------------------------

  /** The groups still to be matched, with the number of ways to get there. */
  datatype Pending = Pending(groups: seq<nat>, count: nat)

  /** Each leftover of a fill, paired with the count of the state it came from. */
  function Tag(fills: seq<seq<nat>>, count: nat): seq<Pending>
  {
    if fills == [] then [] else Tag(fills[..|fills| - 1], count) + [Pending(fills[|fills| - 1], count)]
  }

  /** The total count a list holds for one key. */
  function Tally(ps: seq<Pending>, key: seq<nat>): nat
  {
    if ps == [] then 0
    else Tally(ps[..|ps| - 1], key) + (if ps[|ps| - 1].groups == key then ps[|ps| - 1].count else 0)
  }

  lemma {:induction false} TallyAppend(a: seq<Pending>, b: seq<Pending>, key: seq<nat>)
    ensures Tally(a + b, key) == Tally(a, key) + Tally(b, key)
    decreases |b|
  {
    if b != [] {
      assert (a + b)[..|a + b| - 1] == a + b[..|b| - 1];
      TallyAppend(a, b[..|b| - 1], key);
    } else {
      assert a + b == a;
    }
  }

  lemma {:induction false} TallyTag(fills: seq<seq<nat>>, count: nat, key: seq<nat>)
    ensures Tally(Tag(fills, count), key) == count * multiset(fills)[key]
  {
    if fills != [] {
      var f0 := fills[..|fills| - 1];
      var f := fills[|fills| - 1];
      assert fills == f0 + [f];
      TallyTag(f0, count, key);
      TallyTagSnoc(f0, f, count, key);
    }
  }

  lemma TallyTagSnoc(f0: seq<seq<nat>>, f: seq<nat>, count: nat, key: seq<nat>)
    requires Tally(Tag(f0, count), key) == count * multiset(f0)[key]
    ensures Tally(Tag(f0 + [f], count), key) == count * multiset(f0 + [f])[key]
  {
    var m := multiset(f0)[key];
    var d := if f == key then 1 else 0;
    CountSnoc(f0, f, key);
    TagSnoc(f0, f, count);
    TallySnoc(Tag(f0, count), Pending(f, count), key);
    MulAdd(count, m, d);
  }

  lemma CountSnoc(f0: seq<seq<nat>>, f: seq<nat>, key: seq<nat>)
    ensures multiset(f0 + [f])[key] == multiset(f0)[key] + (if f == key then 1 else 0)
  {
    assert multiset(f0 + [f]) == multiset(f0) + multiset{f};
  }

  lemma TagSnoc(f0: seq<seq<nat>>, f: seq<nat>, count: nat)
    ensures Tag(f0 + [f], count) == Tag(f0, count) + [Pending(f, count)]
  {
    assert (f0 + [f])[..|f0|] == f0;
  }

  /** Where the key is in the list, if it is there. */
  function Find(ps: seq<Pending>, key: seq<nat>): (r: Option<nat>)
    ensures r.Some? ==> r.value < |ps| && ps[r.value].groups == key
    ensures r.None? ==> forall k :: 0 <= k < |ps| ==> ps[k].groups != key
  {
    if ps == [] then None
    else if ps[|ps| - 1].groups == key then Some(|ps| - 1)
    else Find(ps[..|ps| - 1], key)
  }

  /** Adds `p`'s count to the entry with the same groups left, or appends
      `p` as a new entry when there is none. */
  function Accumulate(acc: seq<Pending>, p: Pending): seq<Pending>
  {
    match Find(acc, p.groups)
    case None => acc + [p]
    case Some(i) => acc[i := Pending(p.groups, acc[i].count + p.count)]
  }

  /** The HashMap built from a list, kept in insertion order. */
  function Merge(ps: seq<Pending>): seq<Pending>
  {
    if ps == [] then [] else Accumulate(Merge(ps[..|ps| - 1]), ps[|ps| - 1])
  }

  predicate Distinct(ps: seq<Pending>)
  {
    forall i, j :: 0 <= i < j < |ps| ==> ps[i].groups != ps[j].groups
  }

  lemma {:induction false} TallyAbsent(ps: seq<Pending>, key: seq<nat>)
    requires forall k :: 0 <= k < |ps| ==> ps[k].groups != key
    ensures Tally(ps, key) == 0
  {
    if ps != [] {
      TallyAbsent(ps[..|ps| - 1], key);
    }
  }

  lemma {:induction false} TallyUpdate(acc: seq<Pending>, i: nat, p: Pending, key: seq<nat>)
    requires i < |acc| && acc[i].groups == p.groups
    ensures Tally(acc[i := Pending(p.groups, acc[i].count + p.count)], key)
      == Tally(acc, key) + (if p.groups == key then p.count else 0)
  {
    var updated := acc[i := Pending(p.groups, acc[i].count + p.count)];
    if i == |acc| - 1 {
      assert updated[..|acc| - 1] == acc[..|acc| - 1];
    } else {
      assert updated[..|acc| - 1] == acc[..|acc| - 1][i := Pending(p.groups, acc[i].count + p.count)];
      TallyUpdate(acc[..|acc| - 1], i, p, key);
    }
  }

  lemma AccumulateTally(acc: seq<Pending>, p: Pending, key: seq<nat>)
    ensures Tally(Accumulate(acc, p), key) == Tally(acc, key) + (if p.groups == key then p.count else 0)
  {
    match Find(acc, p.groups)
    case None =>
      assert (acc + [p])[..|acc|] == acc;
    case Some(i) =>
      TallyUpdate(acc, i, p, key);
  }

  /** Merging keeps every key's total. */
  lemma {:induction false} MergeTally(ps: seq<Pending>, key: seq<nat>)
    ensures Tally(Merge(ps), key) == Tally(ps, key)
  {
    if ps != [] {
      MergeTally(ps[..|ps| - 1], key);
      AccumulateTally(Merge(ps[..|ps| - 1]), ps[|ps| - 1], key);
    }
  }

  /** Merging leaves each key once. */
  lemma {:induction false} MergeDistinct(ps: seq<Pending>)
    ensures Distinct(Merge(ps))
  {
    if ps != [] {
      MergeDistinct(ps[..|ps| - 1]);
      AccumulateDistinct(Merge(ps[..|ps| - 1]), ps[|ps| - 1]);
    }
  }

  lemma AccumulateDistinct(acc: seq<Pending>, p: Pending)
    requires Distinct(acc)
    ensures Distinct(Accumulate(acc, p))
  {
    match Find(acc, p.groups)
    case None =>
      var grown := acc + [p];
      forall i, j | 0 <= i < j < |grown| ensures grown[i].groups != grown[j].groups {
        if j == |acc| {
          assert grown[i] == acc[i];
        } else {
          assert grown[i] == acc[i] && grown[j] == acc[j];
        }
      }
    case Some(k) =>
      var updated := acc[k := Pending(p.groups, acc[k].count + p.count)];
      forall i, j | 0 <= i < j < |updated| ensures updated[i].groups != updated[j].groups {
        assert updated[i].groups == acc[i].groups && updated[j].groups == acc[j].groups;
      }
  }

  lemma {:induction false} TallyAtLeast(ps: seq<Pending>, k: nat)
    requires k < |ps|
    ensures Tally(ps, ps[k].groups) >= ps[k].count
  {
    if k < |ps| - 1 {
      TallyAtLeast(ps[..|ps| - 1], k);
    }
  }

  /** The final product over the states whose groups are all used up. */
  function Combine(ps: seq<Pending>): nat
  {
    if ps == [] then 1
    else Combine(ps[..|ps| - 1]) * (if ps[|ps| - 1].groups == [] then ps[|ps| - 1].count else 1)
  }

  /** With each key once, the product is the count of the used-up state, or
      1 when there is none. */
  lemma {:induction false} CombineTally(ps: seq<Pending>)
    requires Distinct(ps)
    ensures Combine(ps) == if Find(ps, []).Some? then Tally(ps, []) else 1
  {
    if ps != [] {
      var p0 := ps[..|ps| - 1];
      var x := ps[|ps| - 1];
      assert Distinct(p0);
      CombineTally(p0);
      if x.groups == [] {
        assert forall k :: 0 <= k < |p0| ==> p0[k].groups != [] by {
          forall k | 0 <= k < |p0| ensures p0[k].groups != [] {
            assert ps[k] == p0[k];
          }
        }
        TallyAbsent(p0, []);
      }
    }
  }

  // ---------------------------------------------------------------------
  // get_number_of_arrangements_faster, stage by stage
  // ---------------------------------------------------------------------

  predicate NoWorking(chunks: seq<seq<Condition>>)
  {
    forall k :: 0 <= k < |chunks| ==> Working !in chunks[k]
  }

  /** The chunks in the order they are visited: right to left. */
  function RightToLeft(chunks: seq<seq<Condition>>): (r: seq<seq<Condition>>)
    ensures |r| == |chunks| && forall k :: 0 <= k < |r| ==> r[k] == chunks[|chunks| - 1 - k]
  {
    if chunks == [] then [] else [chunks[|chunks| - 1]] + RightToLeft(chunks[..|chunks| - 1])
  }

  function Schedule(springs: seq<Condition>): (r: seq<seq<Condition>>)
    ensures NoWorking(r)
  {
    RightToLeft(ChunksOf(springs))
  }

  /** What the loop body does with one state, as written: a state with no
      groups left is dropped, and a chunk exactly as long as the last group
      only ever takes that group whole. */
  function StepAsWritten(chunk: seq<Condition>, st: Pending): seq<Pending>
    requires Working !in chunk
  {
    if st.groups == [] then []
    else if |chunk| == st.groups[|st.groups| - 1] then [Pending(st.groups[..|st.groups| - 1], st.count)]
    else Tag(Fill(chunk, st.groups, false), st.count)
  }

  function StageAsWritten(chunk: seq<Condition>, states: seq<Pending>): seq<Pending>
    requires Working !in chunk
  {
    if states == [] then []
    else StageAsWritten(chunk, states[..|states| - 1]) + StepAsWritten(chunk, states[|states| - 1])
  }

  /** The states after the first n chunks of the schedule. */
  function AsWrittenStates(chunks: seq<seq<Condition>>, groups: seq<nat>, n: nat): seq<Pending>
    requires NoWorking(chunks) && n <= |chunks|
  {
    if n == 0 then [Pending(groups, 1)]
    else Merge(StageAsWritten(chunks[n - 1], AsWrittenStates(chunks, groups, n - 1)))
  }

  function FasterAsWritten(row: Row): nat
  {
    var chunks := Schedule(row.springs);
    Combine(AsWrittenStates(chunks, row.groups, |chunks|))
  }

  /** The same stages with every state filled in: a state with no groups
      left is carried on rather than dropped, and a chunk exactly as long as
      the last group is filled like any other rather than taken whole. */
  function StageCorrected(chunk: seq<Condition>, states: seq<Pending>): seq<Pending>
    requires Working !in chunk
  {
    if states == [] then []
    else
      var st := states[|states| - 1];
      StageCorrected(chunk, states[..|states| - 1]) + Tag(Fill(chunk, st.groups, false), st.count)
  }

  function CorrectedStates(chunks: seq<seq<Condition>>, groups: seq<nat>, n: nat): seq<Pending>
    requires NoWorking(chunks) && n <= |chunks|
  {
    if n == 0 then [Pending(groups, 1)]
    else Merge(StageCorrected(chunks[n - 1], CorrectedStates(chunks, groups, n - 1)))
  }

  /** The corrected answer: the count of the state with every group used up. */
  function FasterCorrected(row: Row): nat
  {
    var chunks := Schedule(row.springs);
    Tally(CorrectedStates(chunks, row.groups, |chunks|), [])
  }

  // ---------------------------------------------------------------------
  // Why the corrected stages count the arrangements
  // ---------------------------------------------------------------------

  /** The springs of the first n chunks of the schedule, each followed by a
      working spring. */
  function Processed(chunks: seq<seq<Condition>>, n: nat): seq<Condition>
    requires n <= |chunks|
  {
    if n == 0 then [] else chunks[n - 1] + [Working] + Processed(chunks, n - 1)
  }

  /** Every key's total is the number of ways to fill the springs seen so far
      with the groups after that key. */
  ghost predicate Counts(states: seq<Pending>, groups: seq<nat>, s: seq<Condition>)
  {
    forall key :: Tally(states, key) == if key <= groups then Ways(s, [], groups[|key|..]) else 0
  }

  /** Only prefixes of the groups carry a count. */
  predicate Supported(states: seq<Pending>, groups: seq<nat>)
  {
    forall k :: 0 <= k < |states| && states[k].count > 0 ==> states[k].groups <= groups
  }

  lemma CountsSupported(states: seq<Pending>, groups: seq<nat>, s: seq<Condition>)
    requires Counts(states, groups, s)
    ensures Supported(states, groups)
  {
    forall k | 0 <= k < |states| && states[k].count > 0 ensures states[k].groups <= groups {
      TallyAtLeast(states, k);
    }
  }

  /** Each state's count times the ways its fills leave key. */
  function EntrySum(chunk: seq<Condition>, states: seq<Pending>, key: seq<nat>): nat
  {
    if states == [] then 0
    else
      var st := states[|states| - 1];
      EntrySum(chunk, states[..|states| - 1], key)
        + st.count * (if key <= st.groups then Ways(chunk, [], st.groups[|key|..]) else 0)
  }

  lemma {:induction false} StageTally(chunk: seq<Condition>, states: seq<Pending>, key: seq<nat>)
    requires Working !in chunk
    ensures Tally(StageCorrected(chunk, states), key) == EntrySum(chunk, states, key)
  {
    if states != [] {
      var st := states[|states| - 1];
      StageTally(chunk, states[..|states| - 1], key);
      TallyAppend(StageCorrected(chunk, states[..|states| - 1]), Tag(Fill(chunk, st.groups, false), st.count), key);
      TallyTag(Fill(chunk, st.groups, false), st.count, key);
      FillCounts(chunk, st.groups, false, key);
    }
  }

  lemma {:induction false} EntrySumOutside(chunk: seq<Condition>, states: seq<Pending>, groups: seq<nat>, key: seq<nat>)
    requires Supported(states, groups) && !(key <= groups)
    ensures EntrySum(chunk, states, key) == 0
  {
    if states != [] {
      var st := states[|states| - 1];
      assert Supported(states[..|states| - 1], groups);
      EntrySumOutside(chunk, states[..|states| - 1], groups, key);
    }
  }

  /** The totals of the prefixes of the groups, each times the ways the chunk
      takes the groups between q and that prefix's end. */
  function PrefixSum(chunk: seq<Condition>, states: seq<Pending>, groups: seq<nat>, q: nat, n: nat): nat
    requires n <= |groups| + 1
  {
    if n <= q then 0
    else PrefixSum(chunk, states, groups, q, n - 1) + Ways(chunk, [], groups[q..n - 1]) * Tally(states, groups[..n - 1])
  }

  lemma {:induction false} PrefixSumSnoc(chunk: seq<Condition>, states: seq<Pending>, e: Pending, groups: seq<nat>, q: nat, n: nat)
    requires n <= |groups| + 1
    ensures PrefixSum(chunk, states + [e], groups, q, n)
      == PrefixSum(chunk, states, groups, q, n)
       + (if e.groups <= groups && q <= |e.groups| < n then Ways(chunk, [], groups[q..|e.groups|]) * e.count else 0)
  {
    if n > q {
      PrefixSumSnoc(chunk, states, e, groups, q, n - 1);
      var key := groups[..n - 1];
      TallySnoc(states, e, key);
      var w := Ways(chunk, [], groups[q..n - 1]);
      var t := Tally(states, key);
      var d := if e.groups == key then e.count else 0;
      MulAdd(w, t, d);
      assert (e.groups == key) == (e.groups <= groups && |e.groups| == n - 1);
    }
  }

  lemma TallySnoc(ps: seq<Pending>, e: Pending, key: seq<nat>)
    ensures Tally(ps + [e], key) == Tally(ps, key) + (if e.groups == key then e.count else 0)
  {
    assert (ps + [e])[..|ps|] == ps;
  }

  lemma MulAdd(a: int, b: int, c: int)
    ensures a * (b + c) == a * b + a * c
  {
  }

  lemma {:induction false} Regroup(chunk: seq<Condition>, states: seq<Pending>, groups: seq<nat>, q: nat)
    requires q <= |groups| && Supported(states, groups)
    ensures EntrySum(chunk, states, groups[..q]) == PrefixSum(chunk, states, groups, q, |groups| + 1)
  {
    if states == [] {
      ZeroPrefixSum(chunk, groups, q, |groups| + 1);
    } else {
      var s0 := states[..|states| - 1];
      var e := states[|states| - 1];
      assert states == s0 + [e];
      assert Supported(s0, groups);
      Regroup(chunk, s0, groups, q);
      RegroupSnoc(chunk, s0, e, groups, q);
    }
  }

  lemma RegroupSnoc(chunk: seq<Condition>, s0: seq<Pending>, e: Pending, groups: seq<nat>, q: nat)
    requires q <= |groups| && (e.count > 0 ==> e.groups <= groups)
    requires EntrySum(chunk, s0, groups[..q]) == PrefixSum(chunk, s0, groups, q, |groups| + 1)
    ensures EntrySum(chunk, s0 + [e], groups[..q]) == PrefixSum(chunk, s0 + [e], groups, q, |groups| + 1)
  {
    var n := |groups| + 1;
    EntrySumSnoc(chunk, s0, e, groups[..q]);
    PrefixSumSnoc(chunk, s0, e, groups, q, n);
    var x := if groups[..q] <= e.groups then Ways(chunk, [], e.groups[|groups[..q]|..]) else 0;
    var y := if e.groups <= groups && q <= |e.groups| < n then Ways(chunk, [], groups[q..|e.groups|]) else 0;
    if e.count > 0 {
      assert (groups[..q] <= e.groups) == (q <= |e.groups|);
      if q <= |e.groups| {
        assert e.groups[q..] == groups[q..|e.groups|];
      }
      assert x == y;
    }
    ScaleAgree(e.count, x, y);
  }

  lemma EntrySumSnoc(chunk: seq<Condition>, s0: seq<Pending>, e: Pending, key: seq<nat>)
    ensures EntrySum(chunk, s0 + [e], key)
      == EntrySum(chunk, s0, key) + e.count * (if key <= e.groups then Ways(chunk, [], e.groups[|key|..]) else 0)
  {
    assert (s0 + [e])[..|s0|] == s0;
  }

  lemma ScaleAgree(c: nat, x: nat, y: nat)
    requires c == 0 || x == y
    ensures c * x == y * c
  {
  }

  lemma {:induction false} ZeroPrefixSum(chunk: seq<Condition>, groups: seq<nat>, q: nat, n: nat)
    requires n <= |groups| + 1
    ensures PrefixSum(chunk, [], groups, q, n) == 0
  {
    if n > q {
      ZeroPrefixSum(chunk, groups, q, n - 1);
    }
  }

  /** The ways to fill chunk, then a working spring, then s (then tail),
      summed over where the chunk's groups end. */
  function Conv(chunk: seq<Condition>, s: seq<Condition>, tail: seq<bool>, groups: seq<nat>, q: nat, n: nat): nat
    requires n <= |groups| + 1
  {
    if n <= q then 0
    else Conv(chunk, s, tail, groups, q, n - 1) + Ways(chunk, [], groups[q..n - 1]) * Ways(s, tail, groups[n - 1..])
  }

  lemma {:induction false} PrefixSumIsConv(chunk: seq<Condition>, states: seq<Pending>, groups: seq<nat>, s: seq<Condition>, q: nat, n: nat)
    requires n <= |groups| + 1 && Counts(states, groups, s)
    ensures PrefixSum(chunk, states, groups, q, n) == Conv(chunk, s, [], groups, q, n)
  {
    if n > q {
      PrefixSumIsConv(chunk, states, groups, s, q, n - 1);
      var key := groups[..n - 1];
      assert key <= groups && |key| == n - 1;
      assert Tally(states, key) == Ways(s, [], groups[n - 1..]);
    }
  }

  lemma RunsAfterBroken(s: seq<bool>)
    requires s != [] && s[|s| - 1]
    ensures Runs(s + [true]) == Longer(Runs(s))
  {
    var st := s + [true];
    assert st[..|st| - 1] == s;
    assert st[|st| - 2] == s[|s| - 1];
    RunsExtend(st);
  }

  /** A broken spring after a broken spring lengthens the last run. */
  lemma RunsExtend(st: seq<bool>)
    requires |st| > 1 && st[|st| - 1] && st[|st| - 2]
    ensures |Runs(st[..|st| - 1])| > 0
    ensures Runs(st) == Longer(Runs(st[..|st| - 1]))
  {
    var p := st[..|st| - 1];
    assert p[|p| - 1] == st[|st| - 2];
  }

  lemma RunsAfterWorking(s: seq<bool>)
    requires s == [] || !s[|s| - 1]
    ensures Runs(s + [true]) == Runs(s) + [1]
  {
    assert (s + [true])[..|s|] == s;
  }

  lemma LongerAppend(a: seq<nat>, b: seq<nat>)
    requires b != []
    ensures Longer(a + b) == a + Longer(b)
  {
    assert (a + b)[..|a + b| - 1] == a + b[..|b| - 1];
  }

  /** A gap of working springs splits the runs. */
  lemma {:induction false} RunsSplit(c: seq<bool>, t: seq<bool>)
    ensures Runs(c + [false] + t) == Runs(c) + Runs(t)
    decreases |t|
  {
    if t == [] {
      RunsWorking(c);
      assert c + [false] + t == c + [false];
    } else {
      var t0 := t[..|t| - 1];
      var y := t[|t| - 1];
      assert t == t0 + [y];
      RunsSplit(c, t0);
      RunsSplitSnoc(c, t0, y);
    }
  }

  lemma RunsSplitSnoc(c: seq<bool>, t0: seq<bool>, y: bool)
    requires Runs(c + [false] + t0) == Runs(c) + Runs(t0)
    ensures Runs(c + [false] + (t0 + [y])) == Runs(c) + Runs(t0 + [y])
  {
    var front := c + [false] + t0;
    assert c + [false] + (t0 + [y]) == front + [y];
    assert front[|front| - 1] == if t0 == [] then false else t0[|t0| - 1];
    if !y {
      RunsWorking(front);
      RunsWorking(t0);
    } else if t0 != [] && t0[|t0| - 1] {
      RunsAfterBroken(front);
      RunsAfterBroken(t0);
      LongerAppend(Runs(c), Runs(t0));
    } else {
      RunsAfterWorking(front);
      RunsAfterWorking(t0);
    }
  }

  lemma SplitAtWorking(chunk: seq<Condition>, tail: seq<bool>, groups: seq<nat>, q: nat)
    requires q <= |groups|
    ensures Ways(chunk, [false] + tail, groups[q..])
      == var r := |groups| - |Runs(tail)|;
         if q <= r && groups[r..] == Runs(tail) then Ways(chunk, [], groups[q..r]) else 0
  {
    var rt := Runs(tail);
    var r := |groups| - |rt|;
    if q <= r && groups[r..] == rt {
      forall c | |c| == |chunk| ensures Meets(c, [false] + tail, groups[q..]) <==> Meets(c, [], groups[q..r]) {
        MeetsSplit(c, tail, groups, q, r);
      }
      WaysAgree(chunk, [false] + tail, groups[q..], [], groups[q..r]);
    } else {
      forall c | |c| == |chunk| ensures !Meets(c, [false] + tail, groups[q..]) {
        MeetsNever(c, tail, groups, q, r);
      }
      WaysNone(chunk, [false] + tail, groups[q..]);
    }
  }

  lemma MeetsSplit(c: seq<bool>, tail: seq<bool>, groups: seq<nat>, q: nat, r: nat)
    requires q <= r <= |groups| && groups[r..] == Runs(tail)
    ensures Meets(c, [false] + tail, groups[q..]) <==> Meets(c, [], groups[q..r])
  {
    RunsSplit(c, tail);
    assert c + ([false] + tail) == c + [false] + tail;
    assert c + [] == c;
    assert groups[q..] == groups[q..r] + groups[r..];
    SuffixCancel(Runs(c), groups[q..r], Runs(tail));
  }

  /** A common suffix can be cancelled from both sides of an equation. */
  lemma SuffixCancel(x: seq<nat>, y: seq<nat>, z: seq<nat>)
    ensures x + z == y + z <==> x == y
  {
    if x + z == y + z {
      assert x == (x + z)[..|x|];
      assert y == (y + z)[..|y|];
    }
  }

  lemma MeetsNever(c: seq<bool>, tail: seq<bool>, groups: seq<nat>, q: nat, r: int)
    requires q <= |groups| && r == |groups| - |Runs(tail)|
    requires !(q <= r && groups[r..] == Runs(tail))
    ensures !Meets(c, [false] + tail, groups[q..])
  {
    var joined := c + ([false] + tail);
    assert joined == c + [false] + tail;
    RunsSplit(c, tail);
    NotSuffix(Runs(c), Runs(tail), groups, q, r);
  }

  lemma NotSuffix(x: seq<nat>, y: seq<nat>, g: seq<nat>, q: nat, r: int)
    requires q <= |g| && r == |g| - |y| && !(q <= r && g[r..] == y)
    ensures x + y != g[q..]
  {
    if x + y == g[q..] {
      SuffixOfSplit(x, y, g, q);
      assert false;
    }
  }

  /** When x + y is the suffix of g from q, y is the suffix of g of its own
      length. */
  lemma SuffixOfSplit(x: seq<nat>, y: seq<nat>, g: seq<nat>, q: nat)
    requires q <= |g| && x + y == g[q..]
    ensures q <= |g| - |y| && g[|g| - |y|..] == y
  {
    var r := q + |x|;
    assert r == |g| - |y|;
    assert g[r..] == g[q..][|x|..];
    assert (x + y)[|x|..] == y;
  }

  lemma {:induction false} ConvEmpty(chunk: seq<Condition>, tail: seq<bool>, groups: seq<nat>, q: nat, n: nat)
    requires n <= |groups| + 1
    ensures Conv(chunk, [], tail, groups, q, n)
      == var r := |groups| - |Runs(tail)|;
         if q <= r < n && groups[r..] == Runs(tail) then Ways(chunk, [], groups[q..r]) else 0
  {
    if n > q {
      ConvEmpty(chunk, tail, groups, q, n - 1);
      var r := |groups| - |Runs(tail)|;
      var w := Ways(chunk, [], groups[q..n - 1]);
      var e := Ways([], tail, groups[n - 1..]);
      assert Conv(chunk, [], tail, groups, q, n) == Conv(chunk, [], tail, groups, q, n - 1) + w * e;
      if Runs(tail) == groups[n - 1..] {
        assert r == n - 1 && e == 1;
        MulOne(w);
      } else {
        assert e == 0;
        MulZero(w);
        assert r == n - 1 ==> groups[r..] != Runs(tail);
      }
    }
  }

  lemma {:induction false} ConvSnoc(chunk: seq<Condition>, s0: seq<Condition>, x: Condition, tail: seq<bool>, groups: seq<nat>, q: nat, n: nat)
    requires n <= |groups| + 1
    ensures Conv(chunk, s0 + [x], tail, groups, q, n)
      == (if x != Working then Conv(chunk, s0, [true] + tail, groups, q, n) else 0)
       + (if x != Broken then Conv(chunk, s0, [false] + tail, groups, q, n) else 0)
  {
    if n > q {
      ConvSnoc(chunk, s0, x, tail, groups, q, n - 1);
      var g := groups[n - 1..];
      WaysSnoc(s0, x, tail, g);
      var w := Ways(chunk, [], groups[q..n - 1]);
      var b := if x != Working then Ways(s0, [true] + tail, g) else 0;
      var o := if x != Broken then Ways(s0, [false] + tail, g) else 0;
      var bp := if x != Working then Conv(chunk, s0, [true] + tail, groups, q, n - 1) else 0;
      var op := if x != Broken then Conv(chunk, s0, [false] + tail, groups, q, n - 1) else 0;
      var bn := if x != Working then Conv(chunk, s0, [true] + tail, groups, q, n) else 0;
      var on := if x != Broken then Conv(chunk, s0, [false] + tail, groups, q, n) else 0;
      MulZero(w);
      assert bn == bp + w * b;
      assert on == op + w * o;
      ConvArith(Conv(chunk, s0 + [x], tail, groups, q, n), Conv(chunk, s0 + [x], tail, groups, q, n - 1),
        w, Ways(s0 + [x], tail, g), b, o, bp, op, bn, on);
    }
  }

  lemma MulZero(w: int)
    ensures w * 0 == 0
  {
  }

  lemma MulOne(w: int)
    ensures w * 1 == w
  {
  }

  lemma ConvArith(total: int, prev: int, w: int, ways: int, b: int, o: int, bp: int, op: int, bn: int, on: int)
    requires total == prev + w * ways && ways == b + o && prev == bp + op
    requires bn == bp + w * b && on == op + w * o
    ensures total == bn + on
  {
    MulAdd(w, b, o);
  }

  /** Filling chunk, a working spring and s is a sum over where the
      chunk's groups end. */
  lemma {:induction false} ConvCounts(chunk: seq<Condition>, s: seq<Condition>, tail: seq<bool>, groups: seq<nat>, q: nat)
    requires q <= |groups|
    ensures Ways(chunk + [Working] + s, tail, groups[q..]) == Conv(chunk, s, tail, groups, q, |groups| + 1)
    decreases |s|
  {
    if s == [] {
      assert chunk + [Working] + s == chunk + [Working];
      WaysSnoc(chunk, Working, tail, groups[q..]);
      SplitAtWorking(chunk, tail, groups, q);
      ConvEmpty(chunk, tail, groups, q, |groups| + 1);
    } else {
      var s0 := s[..|s| - 1];
      var x := s[|s| - 1];
      assert chunk + [Working] + s == (chunk + [Working] + s0) + [x];
      WaysSnoc(chunk + [Working] + s0, x, tail, groups[q..]);
      ConvCounts(chunk, s0, [true] + tail, groups, q);
      ConvCounts(chunk, s0, [false] + tail, groups, q);
      assert s == s0 + [x];
      ConvSnoc(chunk, s0, x, tail, groups, q, |groups| + 1);
    }
  }

  lemma InitialCounts(groups: seq<nat>)
    ensures Counts([Pending(groups, 1)], groups, [])
  {
    forall key ensures Tally([Pending(groups, 1)], key)
      == if key <= groups then Ways([], [], groups[|key|..]) else 0
    {
      assert [Pending(groups, 1)][..0] == [];
      if key <= groups {
        assert (groups[|key|..] == []) == (key == groups);
      }
    }
  }

  lemma StageKeyCount(chunk: seq<Condition>, prev: seq<Pending>, groups: seq<nat>, s: seq<Condition>, key: seq<nat>)
    requires Working !in chunk && Counts(prev, groups, s)
    ensures Tally(Merge(StageCorrected(chunk, prev)), key)
      == if key <= groups then Ways(chunk + [Working] + s, [], groups[|key|..]) else 0
  {
    CountsSupported(prev, groups, s);
    MergeTally(StageCorrected(chunk, prev), key);
    StageTally(chunk, prev, key);
    if key <= groups {
      var q := |key|;
      assert key == groups[..q];
      Regroup(chunk, prev, groups, q);
      PrefixSumIsConv(chunk, prev, groups, s, q, |groups| + 1);
      ConvCounts(chunk, s, [], groups, q);
    } else {
      EntrySumOutside(chunk, prev, groups, key);
    }
  }

  /** Each corrected stage keeps Counts for the springs seen so far. */
  lemma {:induction false} CorrectedStatesCount(chunks: seq<seq<Condition>>, groups: seq<nat>, n: nat)
    requires NoWorking(chunks) && n <= |chunks|
    ensures Counts(CorrectedStates(chunks, groups, n), groups, Processed(chunks, n))
  {
    if n == 0 {
      InitialCounts(groups);
    } else {
      var prev := CorrectedStates(chunks, groups, n - 1);
      var s := Processed(chunks, n - 1);
      var chunk := chunks[n - 1];
      CorrectedStatesCount(chunks, groups, n - 1);
      assert CorrectedStates(chunks, groups, n) == Merge(StageCorrected(chunk, prev));
      assert Processed(chunks, n) == chunk + [Working] + s;
      forall key ensures Tally(Merge(StageCorrected(chunk, prev)), key)
        == if key <= groups then Ways(chunk + [Working] + s, [], groups[|key|..]) else 0
      {
        StageKeyCount(chunk, prev, groups, s, key);
      }
    }
  }

  lemma {:induction false} JoinFront(d: seq<seq<Condition>>)
    requires |d| >= 2
    ensures JoinChunks(d) == d[0] + [Working] + JoinChunks(d[1..])
  {
    if |d| > 2 {
      var front := d[..|d| - 1];
      JoinFront(front);
      JoinFrontSnoc(d, front, d[|d| - 1]);
    } else {
      assert d[..1] == [d[0]];
      assert d[1..] == [d[1]];
    }
  }

  lemma JoinFrontSnoc(d: seq<seq<Condition>>, front: seq<seq<Condition>>, last: seq<Condition>)
    requires |front| >= 2 && d == front + [last]
    requires JoinChunks(front) == front[0] + [Working] + JoinChunks(front[1..])
    ensures JoinChunks(d) == d[0] + [Working] + JoinChunks(d[1..])
  {
    var rest := d[1..];
    assert d[0] == front[0] && d[..|d| - 1] == front && d[|d| - 1] == last;
    assert rest == front[1..] + [last];
    assert rest[..|rest| - 1] == front[1..];
    var inner := JoinChunks(front[1..]);
    assert JoinChunks(d) == JoinChunks(front) + [Working] + last;
    assert JoinChunks(rest) == inner + [Working] + last;
    JoinAssoc(d[0], inner, last);
  }

  lemma JoinAssoc(a: seq<Condition>, b: seq<Condition>, c: seq<Condition>)
    ensures a + [Working] + b + [Working] + c == a + [Working] + (b + [Working] + c)
  {
  }

  lemma {:induction false} ProcessedTail(chunks: seq<seq<Condition>>, n: nat)
    requires 1 <= n <= |chunks|
    ensures Processed(RightToLeft(chunks), n) == JoinChunks(chunks[|chunks| - n..]) + [Working]
  {
    var r := RightToLeft(chunks);
    if n == 1 {
      assert chunks[|chunks| - 1..] == [chunks[|chunks| - 1]];
    } else {
      ProcessedTail(chunks, n - 1);
      JoinFront(chunks[|chunks| - n..]);
      assert chunks[|chunks| - n..][1..] == chunks[|chunks| - (n - 1)..];
    }
  }

  lemma {:induction false} LeadingWorking(p: seq<Condition>, tail: seq<bool>, g: seq<nat>)
    ensures Ways([Working] + p, tail, g) == Ways(p, tail, g)
    decreases |p|
  {
    if p == [] {
      assert [Working] + p == [] + [Working];
      WaysSnoc([], Working, tail, g);
      RunsSplit([], tail);
      assert [] + [false] + tail == [false] + tail;
    } else {
      var p0 := p[..|p| - 1];
      var x := p[|p| - 1];
      assert [Working] + p == ([Working] + p0) + [x];
      assert p == p0 + [x];
      WaysSnoc([Working] + p0, x, tail, g);
      WaysSnoc(p0, x, tail, g);
      LeadingWorking(p0, [true] + tail, g);
      LeadingWorking(p0, [false] + tail, g);
    }
  }

  lemma TrailingWorking(p: seq<Condition>, groups: seq<nat>)
    ensures Ways(p + [Working], [], groups) == Ways(p, [], groups)
  {
    WaysSnoc(p, Working, [], groups);
    assert [false] + [] == [false];
    WorkingOutsideRun(p, groups);
  }

  lemma JoinFillsLikeSprings(springs: seq<Condition>, groups: seq<nat>)
    ensures Ways(JoinChunks(ChunksOf(springs)), [], groups) == Ways(springs, [], groups)
  {
    ChunksJoin(springs);
    var joined := JoinChunks(ChunksOf(springs));
    if springs != [] && springs[0] == Working {
      var rest := springs[1..];
      assert joined == rest;
      assert springs == [Working] + rest;
      LeadingWorking(rest, [], groups);
    } else {
      assert joined == springs;
    }
  }

  /** The scheduled chunks, each followed by a working spring, fill like
      the springs themselves. */
  lemma ProcessedIsSprings(springs: seq<Condition>, groups: seq<nat>)
    ensures Ways(Processed(Schedule(springs), |Schedule(springs)|), [], groups) == Ways(springs, [], groups)
  {
    var c := ChunksOf(springs);
    if c != [] {
      ProcessedTail(c, |c|);
      assert c[|c| - |c|..] == c;
      TrailingWorking(JoinChunks(c), groups);
      JoinFillsLikeSprings(springs, groups);
    }
  }

  /** The corrected stages count exactly the arrangements, for any groups. */
  lemma FasterCorrectedCounts(row: Row)
    ensures FasterCorrected(row) == Ways(row.springs, [], row.groups)
  {
    var chunks := Schedule(row.springs);
    CorrectedStatesCount(chunks, row.groups, |chunks|);
    var final := CorrectedStates(chunks, row.groups, |chunks|);
    assert Tally(final, []) == Ways(Processed(chunks, |chunks|), [], row.groups[0..]);
    assert row.groups[0..] == row.groups;
    ProcessedIsSprings(row.springs, row.groups);
  }

  /** With positive groups, the corrected faster counter and the
      straightforward one agree. */
  lemma FasterAgreesWithArrangements(row: Row)
    requires Positive(row.groups)
    ensures FasterCorrected(row) == Arrangements(row.springs, row.groups, None)
  {
    FasterCorrectedCounts(row);
    ArrangementsAreWays(row);
  }

  // ---------------------------------------------------------------------
  // The faster counter as written, and where it goes wrong
  // ---------------------------------------------------------------------

  /** The fold that cuts the springs into chunks. */
  method CutChunks(springs: seq<Condition>) returns (acc: seq<seq<Condition>>)
    ensures acc == ChunksOf(springs)
  {
    acc := [];
    for i := 0 to |springs|
      invariant acc == ChunksOf(springs[..i])
    {
      assert springs[..i + 1][..i] == springs[..i];
      var c := springs[i];
      if c == Working || acc == [] {
        acc := acc + [[]];
      }
      if c != Working {
        acc := acc[..|acc| - 1] + [acc[|acc| - 1] + [c]];
      }
    }
    assert springs[..|springs|] == springs;
  }

  /** One pass of the chunk loop over the previous states, before merging. */
  method StageStates(chunk: seq<Condition>, prev: seq<Pending>) returns (groupsLeft: seq<Pending>)
    requires Working !in chunk
    ensures groupsLeft == StageAsWritten(chunk, prev)
  {
    groupsLeft := [];
    for k := 0 to |prev|
      invariant groupsLeft == StageAsWritten(chunk, prev[..k])
    {
      assert prev[..k + 1][..k] == prev[..k];
      var group := prev[k];
      if group.groups == [] {
      } else if |chunk| == group.groups[|group.groups| - 1] {
        groupsLeft := groupsLeft + [Pending(group.groups[..|group.groups| - 1], group.count)];
      } else {
        var fills := Fill(chunk, group.groups, false);
        groupsLeft := PushFills(groupsLeft, fills, group.count);
      }
    }
    assert prev[..|prev|] == prev;
  }

  /** The inner loop over the fills of one state. */
  method PushFills(acc: seq<Pending>, fills: seq<seq<nat>>, count: nat) returns (out: seq<Pending>)
    ensures out == acc + Tag(fills, count)
  {
    out := acc;
    for f := 0 to |fills|
      invariant out == acc + Tag(fills[..f], count)
    {
      TagSnoc(fills[..f], fills[f], count);
      assert fills[..f + 1] == fills[..f] + [fills[f]];
      out := out + [Pending(fills[f], count)];
    }
    assert fills[..|fills|] == fills;
  }

  /** The HashMap loop: sums the counts of equal groups. */
  method MergeStates(groupsLeft: seq<Pending>) returns (hashmap: seq<Pending>)
    ensures hashmap == Merge(groupsLeft)
  {
    hashmap := [];
    for k := 0 to |groupsLeft|
      invariant hashmap == Merge(groupsLeft[..k])
    {
      assert groupsLeft[..k + 1][..k] == groupsLeft[..k];
      hashmap := Accumulate(hashmap, groupsLeft[k]);
    }
    assert groupsLeft[..|groupsLeft|] == groupsLeft;
  }

  /** The closing loop: the product of the counts of used-up states. */
  method CombineStates(prev: seq<Pending>) returns (combined: nat)
    ensures combined == Combine(prev)
  {
    combined := 1;
    for k := 0 to |prev|
      invariant combined == Combine(prev[..k])
    {
      assert prev[..k + 1][..k] == prev[..k];
      var factor := if prev[k].groups == [] then prev[k].count else 1;
      assert Combine(prev[..k + 1]) == Combine(prev[..k]) * factor;
      combined := combined * factor;
    }
    assert prev[..|prev|] == prev;
  }

  /** get_number_of_arrangements_faster as written. */
  method NumberOfArrangementsFaster(row: Row) returns (combined: nat)
    ensures combined == FasterAsWritten(row)
  {
    var cut := CutChunks(row.springs);
    var chunks := RightToLeft(cut);
    assert chunks == Schedule(row.springs);
    var prev := [Pending(row.groups, 1)];
    for n := 0 to |chunks|
      invariant prev == AsWrittenStates(chunks, row.groups, n)
    {
      var groupsLeft := StageStates(chunks[n], prev);
      prev := MergeStates(groupsLeft);
      assert prev == AsWrittenStates(chunks, row.groups, n + 1);
    }
    combined := CombineStates(prev);
  }

  /** As written, the answer is the count of the used-up state after the
      last chunk, or 1 when there is none. */
  lemma AsWrittenCombines(row: Row)
    ensures var chunks := Schedule(row.springs);
            var final := AsWrittenStates(chunks, row.groups, |chunks|);
            FasterAsWritten(row) == if Find(final, []).Some? then Tally(final, []) else 1
  {
    var chunks := Schedule(row.springs);
    if |chunks| == 0 {
      assert Distinct([Pending(row.groups, 1)]);
      CombineTally([Pending(row.groups, 1)]);
    } else {
      MergeDistinct(StageAsWritten(chunks[|chunks| - 1], AsWrittenStates(chunks, row.groups, |chunks| - 1)));
      CombineTally(AsWrittenStates(chunks, row.groups, |chunks|));
    }
  }

  /** "?.?? 1": the right chunk "??" leaves the state with the group used up
      twice and the state with it still open once. At the left chunk "?" the
      used-up state is dropped, and the open one takes its group whole, so
      the two fillings "..#." and "...#" are lost. */
  lemma DroppedStateLosesWays()
    ensures FasterAsWritten(Row([Unknown, Working, Unknown, Unknown], [1])) == 1
    ensures Ways([Unknown, Working, Unknown, Unknown], [], [1]) == 3
  {
    DropSchedule();
    DroppedSecondStage();
    CombineOne(Pending([], 1));
    CorrectedDropSample();
  }

  /** Dropping is all that goes wrong with the used-up state: filling "?"
      with no group left would have carried it on with its count. */
  lemma DropIsTheLoss()
    ensures StepAsWritten([Unknown], Pending([], 2)) == []
    ensures Tag(Fill([Unknown], [], false), 2) == [Pending([], 2)]
  {
    FillOne();
    var none: seq<seq<nat>> := [[]];
    assert none[..0] == [];
    assert Tag([], 2) == [];
  }

  /** "??.?? 2": the right chunk "??" is exactly as long as the group, so
      only the filling that uses the group there is kept, and the left chunk
      then drops it: as written the count is 1, of the two arrangements. */
  lemma ShortcutLosesWays()
    ensures FasterAsWritten(Row([Unknown, Unknown, Working, Unknown, Unknown], [2])) == 1
    ensures Ways([Unknown, Unknown, Working, Unknown, Unknown], [], [2]) == 2
  {
    ShortcutSchedule();
    ShortcutStages();
    assert Combine([]) == 1;
    CorrectedShortcutSample();
  }

  /** The shortcut is the loss at "??" with the group 2: filling the chunk
      keeps the state that leaves "??" working, taking the group whole does
      not. Carrying the used-up state on, the left chunk "??" with no group
      left still counts it once, so dropping and the product are not what
      loses the second arrangement here. */
  lemma ShortcutIsTheLoss()
    ensures StepAsWritten([Unknown, Unknown], Pending([2], 1)) == [Pending([], 1)]
    ensures Tag(Fill([Unknown, Unknown], [2], false), 1) == [Pending([], 1), Pending([2], 1)]
    ensures Tag(Fill([Unknown, Unknown], [], false), 1) == [Pending([], 1)]
  {
    assert [2][..0] == [];
    FillTwoPair();
    FillTwoEmpty();
    TagTwo([], [2], 1);
    TagOne([], 1);
  }

  lemma ChunkCut(acc: seq<seq<Condition>>)
    ensures ChunkStep(acc, Working) == acc + [[]]
  {
  }

  lemma ChunkGrow(acc: seq<seq<Condition>>, c: Condition)
    requires acc != [] && c != Working
    ensures ChunkStep(acc, c) == acc[..|acc| - 1] + [acc[|acc| - 1] + [c]]
  {
  }

  /** A non-empty run without a working spring is a single chunk. */
  lemma {:induction false} OneChunk(a: seq<Condition>)
    requires a != [] && Working !in a
    ensures ChunksOf(a) == [a]
    decreases |a|
  {
    var a0 := a[..|a| - 1];
    assert a == a0 + [a[|a| - 1]];
    ChunksOfSnoc(a0, a[|a| - 1]);
    if a0 == [] {
      ChunkStart(a[|a| - 1]);
    } else {
      OneChunk(a0);
      ChunkGrow([a0], a[|a| - 1]);
      assert [a0][..0] == [];
    }
  }

  /** A working spring after a non-empty row starts a new chunk, which the
      following springs up to the next working one fill. */
  lemma {:induction false} ChunkAfterWorking(p: seq<Condition>, b: seq<Condition>)
    requires p != [] && Working !in b
    ensures ChunksOf(p + [Working] + b) == ChunksOf(p) + [b]
    decreases |b|
  {
    if b == [] {
      assert p + [Working] + b == p + [Working];
      ChunksOfSnoc(p, Working);
      ChunkCut(ChunksOf(p));
    } else {
      var b0 := b[..|b| - 1];
      var c := b[|b| - 1];
      assert b == b0 + [c];
      assert p + [Working] + b == (p + [Working] + b0) + [c];
      ChunkAfterWorking(p, b0);
      ChunksOfSnoc(p + [Working] + b0, c);
      ChunkGrow(ChunksOf(p) + [b0], c);
      assert (ChunksOf(p) + [b0])[..|ChunksOf(p)|] == ChunksOf(p);
    }
  }

  /** Two chunks are visited right chunk first. */
  lemma TwoChunks(a: seq<Condition>, b: seq<Condition>)
    requires a != [] && Working !in a && Working !in b
    ensures Schedule(a + [Working] + b) == [b, a]
  {
    OneChunk(a);
    ChunkAfterWorking(a, b);
    var r := RightToLeft([a, b]);
    assert |r| == 2 && r[0] == b && r[1] == a;
  }

  lemma DropSchedule()
    ensures Schedule([Unknown, Working, Unknown, Unknown]) == [[Unknown, Unknown], [Unknown]]
  {
    TwoChunks([Unknown], [Unknown, Unknown]);
    assert [Unknown] + [Working] + [Unknown, Unknown] == [Unknown, Working, Unknown, Unknown];
  }

  lemma ShortcutSchedule()
    ensures Schedule([Unknown, Unknown, Working, Unknown, Unknown]) == [[Unknown, Unknown], [Unknown, Unknown]]
  {
    TwoChunks([Unknown, Unknown], [Unknown, Unknown]);
    assert [Unknown, Unknown] + [Working] + [Unknown, Unknown] == [Unknown, Unknown, Working, Unknown, Unknown];
  }

  lemma FillEmpty()
    ensures Fill([], [1], false) == [[1]]
    ensures Fill([], [0], true) == [[]]
    ensures Fill([], [1], true) == []
    ensures Fill([], [], false) == [[]]
    ensures Fill([], [2], false) == [[2]]
  {
    assert [0][..0] == [];
  }

  lemma FillOne()
    ensures Fill([Unknown], [], false) == [[]]
    ensures Fill([Unknown], [1], false) == [[], [1]]
    ensures Fill([Broken], [1], false) == [[]]
    ensures Fill([Unknown], [0], true) == [[]]
    ensures Fill([Unknown], [1], true) == [[]]
    ensures Fill([Unknown], [2], false) == [[2]]
  {
    FillOneOpen();
    FillOneFree();
  }

  /** The single-spring fills that start or continue a run. */
  lemma FillOneOpen()
    ensures Fill([Broken], [1], false) == [[]]
    ensures Fill([Unknown], [0], true) == [[]]
    ensures Fill([Unknown], [1], true) == [[]]
    ensures Fill([Broken], [2], false) == []
  {
    FillEmpty();
    assert [Unknown][..0] == [] && [Broken][..0] == [];
    assert [1][..0] == [] && [0][..0] == [] && [2][..0] == [];
    assert [] + [Broken] == [Broken];
    assert Fill([Broken], [2], false) == Fill([], [1], true);
  }

  /** The single-spring fills with no run open. */
  lemma FillOneFree()
    ensures Fill([Unknown], [], false) == [[]]
    ensures Fill([Unknown], [1], false) == [[], [1]]
    ensures Fill([Unknown], [2], false) == [[2]]
  {
    FillOneOpen();
    FillEmpty();
    assert [Unknown][..0] == [];
  }

  lemma FillTwo()
    ensures Fill([Unknown, Unknown], [1], false) == [[], [], [1]]
  {
    FillOne();
    assert [Unknown, Unknown][..1] == [Unknown];
    assert [Unknown, Broken][..1] == [Unknown];
    assert [1][..0] == [];
    assert Fill([Unknown, Broken], [1], false) == Fill([Unknown], [0], true);
  }

  lemma FillTwoEmpty()
    ensures Fill([Unknown, Unknown], [], false) == [[]]
  {
    FillOne();
    assert [Unknown, Unknown][..1] == [Unknown];
  }

  lemma FillTwoPair()
    ensures Fill([Unknown, Unknown], [2], false) == [[], [2]]
  {
    FillOne();
    assert [Unknown, Unknown][..1] == [Unknown];
    assert [Unknown, Broken][..1] == [Unknown];
    assert [2][..0] == [];
    assert Fill([Unknown, Broken], [2], false) == Fill([Unknown], [1], true);
  }

  lemma TagOne(f: seq<nat>, c: nat)
    ensures Tag([f], c) == [Pending(f, c)]
  {
    assert [f][..0] == [];
  }

  lemma TagTwo(f: seq<nat>, g: seq<nat>, c: nat)
    ensures Tag([f, g], c) == [Pending(f, c), Pending(g, c)]
  {
    assert [f, g][..1] == [f];
    TagOne(f, c);
  }

  lemma TagThree(f: seq<nat>, g: seq<nat>, h: seq<nat>, c: nat)
    ensures Tag([f, g, h], c) == [Pending(f, c), Pending(g, c), Pending(h, c)]
  {
    assert [f, g, h][..2] == [f, g];
    TagTwo(f, g, c);
  }

  lemma StagesOfOne(chunk: seq<Condition>, x: Pending)
    requires Working !in chunk
    ensures StageAsWritten(chunk, [x]) == StepAsWritten(chunk, x)
    ensures StageCorrected(chunk, [x]) == Tag(Fill(chunk, x.groups, false), x.count)
  {
    assert [x][..0] == [];
  }

  lemma StagesOfTwo(chunk: seq<Condition>, x: Pending, y: Pending)
    requires Working !in chunk
    ensures StageAsWritten(chunk, [x, y]) == StepAsWritten(chunk, x) + StepAsWritten(chunk, y)
    ensures StageCorrected(chunk, [x, y]) == Tag(Fill(chunk, x.groups, false), x.count) + Tag(Fill(chunk, y.groups, false), y.count)
  {
    assert [x, y][..1] == [x];
    StagesOfOne(chunk, x);
  }

  lemma MergeSnoc(ps: seq<Pending>, p: Pending)
    ensures Merge(ps + [p]) == Accumulate(Merge(ps), p)
  {
    assert (ps + [p])[..|ps|] == ps;
  }

  /** Two entries for one key and one for another merge into two. */
  lemma MergeRepeat(x: seq<nat>, y: seq<nat>, c: nat, d: nat, e: nat)
    requires x != y
    ensures Merge([Pending(x, c), Pending(x, d), Pending(y, e)]) == [Pending(x, c + d), Pending(y, e)]
  {
    MergeSnoc([], Pending(x, c));
    assert [] + [Pending(x, c)] == [Pending(x, c)];
    MergeSnoc([Pending(x, c)], Pending(x, d));
    assert [Pending(x, c)] + [Pending(x, d)] == [Pending(x, c), Pending(x, d)];
    assert Merge([Pending(x, c), Pending(x, d)]) == [Pending(x, c + d)];
    MergeSnoc([Pending(x, c), Pending(x, d)], Pending(y, e));
    assert [Pending(x, c), Pending(x, d)] + [Pending(y, e)] == [Pending(x, c), Pending(x, d), Pending(y, e)];
  }

  lemma TallyThree(a: Pending, b: Pending, c: Pending, key: seq<nat>)
    ensures Tally([a, b, c], key) == (if a.groups == key then a.count else 0)
      + (if b.groups == key then b.count else 0) + (if c.groups == key then c.count else 0)
  {
    assert [a, b, c][..2] == [a, b] && [a, b][..1] == [a] && [a][..0] == [];
    assert Tally([a], key) == if a.groups == key then a.count else 0;
    assert Tally([a, b], key) == Tally([a], key) + (if b.groups == key then b.count else 0);
  }

  lemma CombineOne(p: Pending)
    ensures Combine([p]) == if p.groups == [] then p.count else 1
  {
    assert [p][..0] == [];
  }

  /** The first stage of "?.?? 1", at "??", both as written and corrected. */
  lemma DropFirstStage()
    ensures AsWrittenStates([[Unknown, Unknown], [Unknown]], [1], 1) == [Pending([], 2), Pending([1], 1)]
    ensures CorrectedStates([[Unknown, Unknown], [Unknown]], [1], 1) == [Pending([], 2), Pending([1], 1)]
  {
    FillTwo();
    TagThree([], [], [1], 1);
    StagesOfOne([Unknown, Unknown], Pending([1], 1));
    MergeRepeat([], [1], 1, 1, 1);
  }

  /** The second stage of "?.?? 1", at "?", as written: the used-up state
      is dropped and the open one is closed by taking its group whole. */
  lemma DroppedSecondStage()
    ensures AsWrittenStates([[Unknown, Unknown], [Unknown]], [1], 2) == [Pending([], 1)]
  {
    DropFirstStage();
    StagesOfTwo([Unknown], Pending([], 2), Pending([1], 1));
    assert [1][..0] == [];
    assert StageAsWritten([Unknown], [Pending([], 2), Pending([1], 1)]) == [Pending([], 1)];
    MergeSnoc([], Pending([], 1));
    assert [] + [Pending([], 1)] == [Pending([], 1)];
  }

  /** The corrected counter finds the three arrangements of "?.?? 1". */
  lemma CorrectedDropSample()
    ensures FasterCorrected(Row([Unknown, Working, Unknown, Unknown], [1])) == 3
    ensures Ways([Unknown, Working, Unknown, Unknown], [], [1]) == 3
  {
    DropSchedule();
    CorrectedDropStages();
    FasterCorrectedCounts(Row([Unknown, Working, Unknown, Unknown], [1]));
  }

  /** The corrected second stage of "?.?? 1" carries the used-up state on. */
  lemma CorrectedDropStages()
    ensures Tally(CorrectedStates([[Unknown, Unknown], [Unknown]], [1], 2), []) == 3
  {
    DropFirstStage();
    var stage := CorrectedSecondStage([Pending([], 2), Pending([1], 1)]);
    MergeTally(stage, []);
    TallyThree(Pending([], 2), Pending([], 1), Pending([1], 1), []);
  }

  /** The corrected second stage of "?.?? 1", at "?", before merging: the
      used-up state is kept beside the two fillings of the open one. */
  lemma CorrectedSecondStage(first: seq<Pending>) returns (stage: seq<Pending>)
    requires first == [Pending([], 2), Pending([1], 1)]
    ensures stage == [Pending([], 2), Pending([], 1), Pending([1], 1)]
    ensures StageCorrected([Unknown], first) == stage
  {
    FillOneFree();
    TagOne([], 2);
    TagTwo([], [1], 1);
    StagesOfTwo([Unknown], Pending([], 2), Pending([1], 1));
    stage := [Pending([], 2), Pending([], 1), Pending([1], 1)];
  }

  /** Both stages of "??.?? 2" as written: the shortcut takes the group whole
      at the right chunk, and the left chunk drops the used-up state. */
  lemma ShortcutStages()
    ensures AsWrittenStates([[Unknown, Unknown], [Unknown, Unknown]], [2], 1) == [Pending([], 1)]
    ensures AsWrittenStates([[Unknown, Unknown], [Unknown, Unknown]], [2], 2) == []
  {
    StagesOfOne([Unknown, Unknown], Pending([2], 1));
    assert [2][..0] == [];
    MergeSnoc([], Pending([], 1));
    assert [] + [Pending([], 1)] == [Pending([], 1)];
    StagesOfOne([Unknown, Unknown], Pending([], 1));
  }

  /** The corrected counter finds the two arrangements of "??.?? 2". */
  lemma CorrectedShortcutSample()
    ensures FasterCorrected(Row([Unknown, Unknown, Working, Unknown, Unknown], [2])) == 2
    ensures Ways([Unknown, Unknown, Working, Unknown, Unknown], [], [2]) == 2
  {
    ShortcutSchedule();
    CorrectedShortcutStages();
    FasterCorrectedCounts(Row([Unknown, Unknown, Working, Unknown, Unknown], [2]));
  }

  /** The corrected second stage of "??.?? 2" carries both fillings on. */
  lemma CorrectedShortcutStages()
    ensures Tally(CorrectedStates([[Unknown, Unknown], [Unknown, Unknown]], [2], 2), []) == 2
  {
    ShortcutFirstStage();
    FillTwoEmpty();
    FillTwoPair();
    TagOne([], 1);
    TagTwo([], [2], 1);
    StagesOfTwo([Unknown, Unknown], Pending([], 1), Pending([2], 1));
    var stage := [Pending([], 1), Pending([], 1), Pending([2], 1)];
    assert StageCorrected([Unknown, Unknown], [Pending([], 1), Pending([2], 1)]) == stage;
    MergeTally(stage, []);
    TallyThree(Pending([], 1), Pending([], 1), Pending([2], 1), []);
  }

  /** The first corrected stage of "??.?? 2" keeps both fillings. */
  lemma ShortcutFirstStage()
    ensures CorrectedStates([[Unknown, Unknown], [Unknown, Unknown]], [2], 1) == [Pending([], 1), Pending([2], 1)]
  {
    FillTwoPair();
    TagTwo([], [2], 1);
    StagesOfOne([Unknown, Unknown], Pending([2], 1));
    MergeSnoc([], Pending([], 1));
    assert [] + [Pending([], 1)] == [Pending([], 1)];
    MergeSnoc([Pending([], 1)], Pending([2], 1));
    assert [Pending([], 1)] + [Pending([2], 1)] == [Pending([], 1), Pending([2], 1)];
  }

  /** "# 2": no state uses up its groups, yet the product starts at 1. */
  lemma EmptyProductCountsOne()
    ensures FasterAsWritten(Row([Broken], [2])) == 1
    ensures Ways([Broken], [], [2]) == 0
  {
    assert [Broken][..0] == [];
    ChunkStart(Broken);
    assert ChunksOf([Broken]) == [[Broken]];
    var chunks := Schedule([Broken]);
    assert chunks == [[Broken]];
    assert Fill([Broken], [2], false) == [] by {
      assert [2][..0] == [];
      assert Fill([], [1], true) == [];
    }
    assert [Pending([2], 1)][..0] == [];
    assert StageAsWritten([Broken], [Pending([2], 1)]) == [];
    assert AsWrittenStates(chunks, [2], 1) == [];
    assert [true] + [] == [true];
    assert Runs([true]) == [1] by {
      assert [true][..0] == [];
    }
    assert [false] + [] == [false];
  }

  // ---------------------------------------------------------------------
  // Unfolding, part_one and part_two
  // ---------------------------------------------------------------------

  /** k copies of u, one after the other. */
  function Copies<T>(u: seq<T>, k: nat): (r: seq<T>)
    ensures |r| == k * |u|
  {
    if k == 0 then [] else u + Copies(u, k - 1)
  }

  lemma CopiesFive<T>(u: seq<T>)
    ensures Copies(u, 5) == u + u + u + u + u
  {
    assert Copies(u, 1) == u by {
      assert u + [] == u;
    }
    assert Copies(u, 2) == u + u;
    assert Copies(u, 3) == u + u + u;
    assert Copies(u, 4) == u + u + u + u;
  }

  /** The row of part_two. The springs followed by one unknown spring,
      repeated and cut after 5 * |springs| + 4 (the endless repetition of
      the source never gets past its fifth copy); the groups five times. */
  function Unfold(row: Row): Row
  {
    Row(Copies(row.springs + [Unknown], 5)[..5 * |row.springs| + 4], Copies(row.groups, 5))
  }

  /** Five copies of the springs joined by unknown springs, and five copies
      of the groups. */
  lemma UnfoldCopies(row: Row)
    ensures var u := row.springs + [Unknown];
            Unfold(row).springs == u + u + u + u + row.springs
    ensures var g := row.groups;
            Unfold(row).groups == g + g + g + g + g
  {
    var s := row.springs;
    var u := s + [Unknown];
    CopiesFive(u);
    var w := u + u + u + u;
    assert |w| == 4 * |s| + 4;
    assert (w + u)[..|w| + |s|] == w + u[..|s|];
    assert u[..|s|] == s;
    CopiesFive(row.groups);
  }

  /** Every line as a row; None where Row::from_string panics. */
  function ParseRows(lines: seq<string>): (r: Option<seq<Row>>)
    ensures r.Some? <==> forall k :: 0 <= k < |lines| ==> FromString(lines[k]).Some?
    ensures r.Some? ==>
      |r.value| == |lines| && forall k :: 0 <= k < |lines| ==> Some(r.value[k]) == FromString(lines[k])
  {
    if forall k :: 0 <= k < |lines| ==> FromString(lines[k]).Some? then
      Some(seq(|lines|, k requires 0 <= k < |lines| && FromString(lines[k]).Some? => FromString(lines[k]).value))
    else None
  }

  /** part_one: the straightforward counter on every row. */
  function PartOne(rows: seq<Row>): nat
  {
    if rows == [] then 0
    else PartOne(rows[..|rows| - 1]) + Arrangements(rows[|rows| - 1].springs, rows[|rows| - 1].groups, None)
  }

  /** The number of arrangements of every row. */
  function TotalWays(rows: seq<Row>): nat
  {
    if rows == [] then 0
    else TotalWays(rows[..|rows| - 1]) + Ways(rows[|rows| - 1].springs, [], rows[|rows| - 1].groups)
  }

  lemma {:induction false} PartOneCounts(rows: seq<Row>)
    requires forall k :: 0 <= k < |rows| ==> Positive(rows[k].groups)
    ensures PartOne(rows) == TotalWays(rows)
  {
    if rows != [] {
      PartOneCounts(rows[..|rows| - 1]);
      ArrangementsAreWays(rows[|rows| - 1]);
    }
  }

  function Unfolded(rows: seq<Row>): (r: seq<Row>)
    ensures |r| == |rows| && forall k :: 0 <= k < |rows| ==> r[k] == Unfold(rows[k])
  {
    seq(|rows|, k requires 0 <= k < |rows| => Unfold(rows[k]))
  }

  /** part_two as written: the faster counter on every unfolded row. */
  function PartTwoAnswer(rows: seq<Row>): nat
  {
    if rows == [] then 0
    else PartTwoAnswer(rows[..|rows| - 1]) + FasterAsWritten(Unfold(rows[|rows| - 1]))
  }

  method PartTwo(rows: seq<Row>) returns (total: nat)
    ensures total == PartTwoAnswer(rows)
  {
    total := 0;
    for k := 0 to |rows|
      invariant total == PartTwoAnswer(rows[..k])
    {
      assert rows[..k + 1][..k] == rows[..k];
      var count := NumberOfArrangementsFaster(Unfold(rows[k]));
      total := total + count;
    }
    assert rows[..|rows|] == rows;
  }

  /** part_two with the corrected faster counter. */
  function PartTwoCorrected(rows: seq<Row>): nat
  {
    if rows == [] then 0
    else PartTwoCorrected(rows[..|rows| - 1]) + FasterCorrected(Unfold(rows[|rows| - 1]))
  }

  lemma {:induction false} PartTwoCorrectedCounts(rows: seq<Row>)
    ensures PartTwoCorrected(rows) == TotalWays(Unfolded(rows))
  {
    if rows != [] {
      PartTwoCorrectedCounts(rows[..|rows| - 1]);
      FasterCorrectedCounts(Unfold(rows[|rows| - 1]));
      assert Unfolded(rows)[..|rows| - 1] == Unfolded(rows[..|rows| - 1]);
    }
  }
}
