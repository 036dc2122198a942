/**
 * Day 1, calibration values: the first and the last digit of every line,
 * read as a two-digit number; in part two a digit may also be spelled out.
 */
module Day01 {
  import opened Wrappers
  import opened Text

  /** The least index of a numeric character. */
  ghost predicate IsFirstNumeric(line: string, i: int) {
    0 <= i < |line| && IsDigit(line[i]) && forall k :: 0 <= k < i ==> !IsDigit(line[k])
  }

  /** The greatest index of a numeric character. */
  ghost predicate IsLastNumeric(line: string, j: int) {
    0 <= j < |line| && IsDigit(line[j]) && forall k :: j < k < |line| ==> !IsDigit(line[k])
  }

  /** The numeric characters of a line, in order (ASCII digits only). */
  function Numerics(line: string): (ds: string)
    ensures AllDigits(ds)
    ensures |ds| <= |line|
  {
    if line == [] then []
    else if IsDigit(line[0]) then [line[0]] + Numerics(line[1..])
    else Numerics(line[1..])
  }

  lemma NumericsEnds(line: string)
    requires |Numerics(line)| > 0
    ensures exists i :: IsFirstNumeric(line, i) && Numerics(line)[0] == line[i]
    ensures exists j :: IsLastNumeric(line, j) && Numerics(line)[|Numerics(line)| - 1] == line[j]
  {
    var i := NumericsFirst(line);
    var j := NumericsLast(line);
  }

  /** The first kept character is the first numeric one. */
  lemma {:induction false} NumericsFirst(line: string) returns (i: nat)
    requires |Numerics(line)| > 0
    ensures IsFirstNumeric(line, i) && Numerics(line)[0] == line[i]
  {
    var ns, rest := Numerics(line), line[1..];
    var nr := Numerics(rest);
    assert ns == if IsDigit(line[0]) then [line[0]] + nr else nr;
    if IsDigit(line[0]) {
      i := 0;
    } else {
      var i' := NumericsFirst(rest);
      FirstNumericShift(line, i');
      i := i' + 1;
    }
  }

  /** The last kept character is the last numeric one. */
  lemma {:induction false} NumericsLast(line: string) returns (j: nat)
    requires |Numerics(line)| > 0
    ensures IsLastNumeric(line, j) && Numerics(line)[|Numerics(line)| - 1] == line[j]
  {
    var ns, rest := Numerics(line), line[1..];
    var nr := Numerics(rest);
    assert ns == if IsDigit(line[0]) then [line[0]] + nr else nr;
    if |nr| == 0 {
      NoNumerics(rest);
      assert ns == [line[0]];
      j := 0;
      assert IsLastNumeric(line, 0);
    } else {
      var j' := NumericsLast(rest);
      LastNumericShift(line, j');
      assert ns[|ns| - 1] == nr[|nr| - 1];
      j := j' + 1;
    }
  }

  lemma FirstNumericShift(line: string, i: nat)
    requires |line| > 0 && !IsDigit(line[0]) && IsFirstNumeric(line[1..], i)
    ensures IsFirstNumeric(line, i + 1) && line[i + 1] == line[1..][i]
  {
    forall k | 0 < k < i + 1 ensures !IsDigit(line[k]) {
      assert line[k] == line[1..][k - 1];
    }
  }

  lemma LastNumericShift(line: string, j: nat)
    requires |line| > 0 && IsLastNumeric(line[1..], j)
    ensures IsLastNumeric(line, j + 1) && line[j + 1] == line[1..][j]
  {
    forall k | j + 1 < k < |line| ensures !IsDigit(line[k]) {
      assert line[k] == line[1..][k - 1];
    }
  }

  lemma {:induction false} NoNumerics(line: string)
    requires |Numerics(line)| == 0
    ensures forall k :: 0 <= k < |line| ==> !IsDigit(line[k])
  {
    if line != [] {
      NoNumerics(line[1..]);
      assert forall k :: 1 <= k < |line| ==> line[k] == line[1..][k - 1];
    }
  }

  /** The value of one line in part one: the two-character string of the
      first and the last numeric character, parsed. A line without any
      digit panics on `unwrap`. */
  function LineValueOne(line: string): (v: nat)
    requires |Numerics(line)| > 0
    ensures v < 100
  {
    var ns := Numerics(line);
    TwoDigits(ns[0], ns[|ns| - 1]);
    Decimal([ns[0], ns[|ns| - 1]])
  }

  /** The tens digit is the first numeric character, the units digit the last. */
  lemma LineValueOneDigits(line: string)
    requires |Numerics(line)| > 0
    ensures exists i, j ::
      && IsFirstNumeric(line, i) && IsLastNumeric(line, j)
      && LineValueOne(line) == 10 * DigitValue(line[i]) + DigitValue(line[j])
  {
    var ns := Numerics(line);
    NumericsEnds(line);
    TwoDigits(ns[0], ns[|ns| - 1]);
    var i :| IsFirstNumeric(line, i) && ns[0] == line[i];
    var j :| IsLastNumeric(line, j) && ns[|ns| - 1] == line[j];
    assert LineValueOne(line) == 10 * DigitValue(line[i]) + DigitValue(line[j]);
  }

  lemma TwoDigits(a: char, b: char)
    requires IsDigit(a) && IsDigit(b)
    ensures Decimal([a, b]) == 10 * DigitValue(a) + DigitValue(b)
  {
    assert [a, b][..1] == [a];
    assert [a][..0] == [];
    assert Decimal([a]) == DigitValue(a);
  }

  /** `part_one`: the sum over the lines. */
  function PartOne(lines: seq<string>): (r: nat)
    requires forall l :: 0 <= l < |lines| ==> |Numerics(lines[l])| > 0
    ensures r <= 99 * |lines|
  {
    if lines == [] then 0 else LineValueOne(lines[0]) + PartOne(lines[1..])
  }

  /** `REPLACEMENTS`: the spelled-out digits, in the order they are tried. */
  const Replacements: seq<(string, char)> := [
    ("one", '1'), ("two", '2'), ("three", '3'), ("four", '4'), ("five", '5'),
    ("six", '6'), ("seven", '7'), ("eight", '8'), ("nine", '9')]

  lemma ReplacementsSpellDigits()
    ensures |Replacements| == 9
    ensures forall r :: 0 <= r < 9 ==> IsDigit(Replacements[r].1) && DigitValue(Replacements[r].1) == r + 1
  {
  }

  predicate StartsWith(s: string, w: string) {
    |w| <= |s| && s[..|w|] == w
  }

  predicate EndsWith(s: string, w: string) {
    |w| <= |s| && s[|s| - |w|..] == w
  }

  /** The digit of the first word of `Replacements[r..]` that `t` starts with. */
  function WordPrefix(t: string, r: nat): (d: Option<char>)
    requires r <= 9
    ensures d.Some? <==> exists q :: r <= q < 9 && StartsWith(t, Replacements[q].0)
    ensures d.Some? ==> IsDigit(d.value)
    decreases 9 - r
  {
    if r == 9 then None
    else if StartsWith(t, Replacements[r].0) then Some(Replacements[r].1)
    else WordPrefix(t, r + 1)
  }

  /** The digit of the first word of `Replacements[r..]` that `t` ends with. */
  function WordSuffix(t: string, r: nat): (d: Option<char>)
    requires r <= 9
    ensures d.Some? <==> exists q :: r <= q < 9 && EndsWith(t, Replacements[q].0)
    ensures d.Some? ==> IsDigit(d.value)
    decreases 9 - r
  {
    if r == 9 then None
    else if EndsWith(t, Replacements[r].0) then Some(Replacements[r].1)
    else WordSuffix(t, r + 1)
  }

  /** The digit the forward scan reads at `idx`: the numeric character, else
      a word starting there. */
  function DigitStartingAt(line: string, idx: nat): (d: Option<char>)
    requires idx < |line|
    ensures d.Some? ==> IsDigit(d.value)
  {
    if IsDigit(line[idx]) then Some(line[idx]) else WordPrefix(line[idx..], 0)
  }

  /** The digit the backward scan reads at `idx`: the numeric character, else
      a word ending there. */
  function DigitEndingAt(line: string, idx: nat): (d: Option<char>)
    requires idx < |line|
    ensures d.Some? ==> IsDigit(d.value)
  {
    if IsDigit(line[idx]) then Some(line[idx]) else WordSuffix(line[..idx + 1], 0)
  }

  ghost predicate HasDigit(line: string) {
    exists k :: 0 <= k < |line| && DigitStartingAt(line, k).Some?
  }

  /** A digit that starts somewhere also ends somewhere, so the backward scan
      stops inside the line whenever the forward scan does. */
  lemma EndsSomewhere(line: string, k: nat)
    requires k < |line| && DigitStartingAt(line, k).Some?
    ensures exists e :: 0 <= e < |line| && DigitEndingAt(line, e).Some?
  {
    if IsDigit(line[k]) {
      assert DigitEndingAt(line, k).Some?;
    } else {
      var q :| 0 <= q < 9 && StartsWith(line[k..], Replacements[q].0);
      var w := Replacements[q].0;
      assert |w| >= 3;
      var e := k + |w| - 1;
      PrefixSuffix(line, k, |w|);
      assert EndsWith(line[..e + 1], w);
      assert WordSuffix(line[..e + 1], 0).Some?;
      assert DigitEndingAt(line, e).Some?;
    }
  }

  lemma PrefixSuffix(line: string, k: nat, n: nat)
    requires k + n <= |line|
    ensures line[..k + n][k..] == line[k..][..n]
  {
  }

  /** The inner `for replacement in REPLACEMENTS` of the forward scan. */
  method MatchPrefix(t: string) returns (d: Option<char>)
    ensures d == WordPrefix(t, 0)
  {
    for r := 0 to 9
      invariant WordPrefix(t, 0) == WordPrefix(t, r)
    {
      if StartsWith(t, Replacements[r].0) {
        return Some(Replacements[r].1);
      }
    }
    return None;
  }

  /** The inner `for replacement in REPLACEMENTS` of the backward scan. */
  method MatchSuffix(t: string) returns (d: Option<char>)
    ensures d == WordSuffix(t, 0)
  {
    for r := 0 to 9
      invariant WordSuffix(t, 0) == WordSuffix(t, r)
    {
      if EndsWith(t, Replacements[r].0) {
        return Some(Replacements[r].1);
      }
    }
    return None;
  }

  /** The least index where the forward scan finds a digit. */
  ghost predicate IsFirstTwo(line: string, i: int) {
    && 0 <= i < |line| && DigitStartingAt(line, i).Some?
    && forall k :: 0 <= k < i ==> DigitStartingAt(line, k).None?
  }

  /** The greatest index where the backward scan finds a digit. */
  ghost predicate IsLastTwo(line: string, j: int) {
    && 0 <= j < |line| && DigitEndingAt(line, j).Some?
    && forall k :: j < k < |line| ==> DigitEndingAt(line, k).None?
  }

  lemma {:induction false} FirstExists(line: string, k: nat)
    requires k < |line| && DigitStartingAt(line, k).Some?
    ensures exists i :: IsFirstTwo(line, i)
    decreases k
  {
    if exists k' :: 0 <= k' < k && DigitStartingAt(line, k').Some? {
      var k' :| 0 <= k' < k && DigitStartingAt(line, k').Some?;
      FirstExists(line, k');
    } else {
      assert IsFirstTwo(line, k);
    }
  }

  lemma {:induction false} LastExists(line: string, e: nat)
    requires e < |line| && DigitEndingAt(line, e).Some?
    ensures exists j :: IsLastTwo(line, j)
    decreases |line| - e
  {
    if exists e' :: e < e' < |line| && DigitEndingAt(line, e').Some? {
      var e' :| e < e' < |line| && DigitEndingAt(line, e').Some?;
      LastExists(line, e');
    } else {
      assert IsLastTwo(line, e);
    }
  }

  /** The calibration value of a line in part two: the digit found first
      from the left, then the digit found first from the right. */
  ghost function CalibrationTwo(line: string): (v: nat)
    requires HasDigit(line)
    ensures v < 100
  {
    var k :| 0 <= k < |line| && DigitStartingAt(line, k).Some?;
    FirstExists(line, k);
    EndsSomewhere(line, k);
    var e :| 0 <= e < |line| && DigitEndingAt(line, e).Some?;
    LastExists(line, e);
    var i :| IsFirstTwo(line, i);
    var j :| IsLastTwo(line, j);
    10 * DigitValue(DigitStartingAt(line, i).value) + DigitValue(DigitEndingAt(line, j).value)
  }

  lemma FirstUnique(line: string, i: int, i': int)
    requires IsFirstTwo(line, i) && IsFirstTwo(line, i')
    ensures i == i'
  {
  }

  lemma LastUnique(line: string, j: int, j': int)
    requires IsLastTwo(line, j) && IsLastTwo(line, j')
    ensures j == j'
  {
  }

  lemma CalibrationTwoAt(line: string, i: nat, j: nat)
    requires IsFirstTwo(line, i) && IsLastTwo(line, j)
    ensures HasDigit(line)
    ensures CalibrationTwo(line) == 10 * DigitValue(DigitStartingAt(line, i).value) + DigitValue(DigitEndingAt(line, j).value)
  {
    assert HasDigit(line);
    forall i', j' | IsFirstTwo(line, i') && IsLastTwo(line, j')
      ensures i' == i && j' == j
    {
      FirstUnique(line, i, i');
      LastUnique(line, j, j');
    }
  }

  /** The value of one line in part two: the forward scan from index 0 stops
      at the least index where a digit or a spelled digit starts, the
      backward scan from the end at the greatest index where one ends. A line
      with no digit at all would run either scan out of bounds. */
  method LineValueTwo(line: string) returns (value: nat)
    requires HasDigit(line)
    ensures value == CalibrationTwo(line)
  {
    var i, first := ScanForward(line);
    EndsSomewhere(line, i);
    var j, last := ScanBackward(line);
    CalibrationTwoAt(line, i, j);
    TwoDigits(first, last);
    value := Decimal([first, last]);
  }

  /** The forward scan of part two: the least index where a digit or a
      spelled digit starts. */
  method ScanForward(line: string) returns (idx: nat, first: char)
    requires HasDigit(line)
    ensures IsFirstTwo(line, idx) && DigitStartingAt(line, idx) == Some(first)
  {
    ghost var e :| 0 <= e < |line| && DigitStartingAt(line, e).Some?;
    idx := 0;
    var found := ReadStartingAt(line, idx);
    while found.None?
      invariant idx <= e && found == DigitStartingAt(line, idx)
      invariant forall k :: 0 <= k < idx ==> DigitStartingAt(line, k).None?
      decreases e - idx
    {
      NoneAbove(line, idx, e, found);
      idx := idx + 1;
      found := ReadStartingAt(line, idx);
    }
    first := found.value;
  }

  /** A failed probe at `idx`, below a known digit at `e`, extends the run of
      failed probes up to `idx` and leaves room for the next probe. */
  lemma NoneAbove(line: string, idx: nat, e: nat, found: Option<char>)
    requires idx <= e < |line| && DigitStartingAt(line, e).Some?
    requires found == DigitStartingAt(line, idx) && found.None?
    requires forall k :: 0 <= k < idx ==> DigitStartingAt(line, k).None?
    ensures idx < e
    ensures forall k :: 0 <= k <= idx ==> DigitStartingAt(line, k).None?
  {
  }

  /** One probe of the forward scan: the numeric character at `idx`, else a
      word starting there. */
  method ReadStartingAt(line: string, idx: nat) returns (found: Option<char>)
    requires idx < |line|
    ensures found == DigitStartingAt(line, idx)
  {
    if IsDigit(line[idx]) {
      found := Some(line[idx]);
    } else {
      found := MatchPrefix(line[idx..]);
    }
  }

  /** The backward scan of part two: the greatest index where a digit or a
      spelled digit ends. */
  method ScanBackward(line: string) returns (idx: nat, last: char)
    requires exists e :: 0 <= e < |line| && DigitEndingAt(line, e).Some?
    ensures IsLastTwo(line, idx) && DigitEndingAt(line, idx) == Some(last)
  {
    var e :| 0 <= e < |line| && DigitEndingAt(line, e).Some?;
    idx := |line| - 1;
    var found := ReadEndingAt(line, idx);
    while found.None?
      invariant e <= idx < |line| && found == DigitEndingAt(line, idx)
      invariant forall k :: idx < k < |line| ==> DigitEndingAt(line, k).None?
      decreases idx
    {
      NoneBelow(line, idx, found);
      idx := idx - 1;
      found := ReadEndingAt(line, idx);
    }
    last := found.value;
  }

  /** A failed probe at `idx` extends the run of failed probes down to it. */
  lemma NoneBelow(line: string, idx: nat, found: Option<char>)
    requires idx < |line| && found == DigitEndingAt(line, idx) && found.None?
    requires forall k :: idx < k < |line| ==> DigitEndingAt(line, k).None?
    ensures forall k :: idx <= k < |line| ==> DigitEndingAt(line, k).None?
  {
  }

  /** One probe of the backward scan: the numeric character at `idx`, else a
      word ending there. */
  method ReadEndingAt(line: string, idx: nat) returns (found: Option<char>)
    requires idx < |line|
    ensures found == DigitEndingAt(line, idx)
  {
    if IsDigit(line[idx]) {
      found := Some(line[idx]);
    } else {
      found := MatchSuffix(line[..idx + 1]);
    }
  }

  ghost function SumTwo(lines: seq<string>): (r: nat)
    requires forall l :: 0 <= l < |lines| ==> HasDigit(lines[l])
    ensures r <= 99 * |lines|
  {
    if lines == [] then 0 else SumTwo(lines[..|lines| - 1]) + CalibrationTwo(lines[|lines| - 1])
  }

  /** `part_two`: the sum of the part-two values of the lines. */
  method PartTwo(lines: seq<string>) returns (sum: nat)
    requires forall l :: 0 <= l < |lines| ==> HasDigit(lines[l])
    ensures sum == SumTwo(lines)
    ensures sum <= 99 * |lines|
  {
    sum := 0;
    for n := 0 to |lines|
      invariant sum == SumTwo(lines[..n])
    {
      var v := LineValueTwo(lines[n]);
      assert lines[..n + 1][..n] == lines[..n];
      sum := sum + v;
    }
    assert lines[..|lines|] == lines;
  }

  predicate IsLower(c: char) { 'a' <= c <= 'z' }

  /** Every spelled digit begins and ends with a lower-case letter. */
  lemma WordsAreLetters(q: nat)
    requires q < 9
    ensures |Replacements[q].0| >= 3
    ensures IsLower(Replacements[q].0[0]) && IsLower(Replacements[q].0[|Replacements[q].0| - 1])
  {
  }

  /** On a line without lower-case letters no word is ever read, so part
      two agrees with part one. */
  lemma NoWordsAgree(line: string)
    requires |Numerics(line)| > 0
    requires forall k :: 0 <= k < |line| ==> !IsLower(line[k])
    ensures HasDigit(line) && CalibrationTwo(line) == LineValueOne(line)
  {
    LineValueOneDigits(line);
    var i, j :| IsFirstNumeric(line, i) && IsLastNumeric(line, j)
      && LineValueOne(line) == 10 * DigitValue(line[i]) + DigitValue(line[j]);
    NoWordsFirst(line, i);
    NoWordsLast(line, j);
    CalibrationTwoAt(line, i, j);
  }

  /** Without lower-case letters, the forward scan stops at the first numeric
      character and reads it. */
  lemma NoWordsFirst(line: string, i: nat)
    requires forall k :: 0 <= k < |line| ==> !IsLower(line[k])
    requires IsFirstNumeric(line, i)
    ensures IsFirstTwo(line, i) && DigitStartingAt(line, i) == Some(line[i])
  {
    forall k | 0 <= k <= i
      ensures DigitStartingAt(line, k).Some? <==> IsDigit(line[k])
      ensures IsDigit(line[k]) ==> DigitStartingAt(line, k).value == line[k]
    {
      NoWordAt(line, k);
    }
  }

  /** Without lower-case letters, the backward scan stops at the last numeric
      character and reads it. */
  lemma NoWordsLast(line: string, j: nat)
    requires forall k :: 0 <= k < |line| ==> !IsLower(line[k])
    requires IsLastNumeric(line, j)
    ensures IsLastTwo(line, j) && DigitEndingAt(line, j) == Some(line[j])
  {
    forall k | j <= k < |line|
      ensures DigitEndingAt(line, k).Some? <==> IsDigit(line[k])
      ensures IsDigit(line[k]) ==> DigitEndingAt(line, k).value == line[k]
    {
      NoWordAt(line, k);
    }
  }

  /** Where the character is not a lower-case letter, only a numeric
      character can be read, in either direction. */
  lemma NoWordAt(line: string, k: nat)
    requires k < |line| && !IsLower(line[k])
    ensures DigitStartingAt(line, k).Some? <==> IsDigit(line[k])
    ensures DigitEndingAt(line, k).Some? <==> IsDigit(line[k])
    ensures IsDigit(line[k]) ==> DigitStartingAt(line, k).value == line[k] == DigitEndingAt(line, k).value
  {
    forall q | 0 <= q < 9
      ensures !StartsWith(line[k..], Replacements[q].0)
      ensures !EndsWith(line[..k + 1], Replacements[q].0)
    {
      NoWordHere(line, k, q);
    }
  }

  lemma NoWordHere(line: string, k: nat, q: nat)
    requires k < |line| && !IsLower(line[k]) && q < 9
    ensures !StartsWith(line[k..], Replacements[q].0)
    ensures !EndsWith(line[..k + 1], Replacements[q].0)
  {
    WordsAreLetters(q);
    var w := Replacements[q].0;
    if |w| <= |line[k..]| {
      assert line[k..][..|w|][0] == line[k];
    }
    if |w| <= k + 1 {
      assert line[..k + 1][k + 1 - |w|..][|w| - 1] == line[k];
    }
  }
}
