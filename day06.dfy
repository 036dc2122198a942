/**
 * Day 6, boat races: holding the button for `t` of the race's `T`
 * milliseconds gives speed `t` for the remaining `T - t`, and a hold time
 * wins when the distance covered beats the record `D`.
 */
module Day06 {
  import opened Wrappers
  import opened Text

  /** A hold time wins when the remaining time times the speed beats the
      record distance. The subtraction never underflows, since the hold
      time is below the race time. */
  predicate Wins(T: nat, D: nat, t: nat)
    requires t < T
  {
    (T - t) * t > D
  }

  /** The winning hold times, as a set. */
  function WinningTimes(T: nat, D: nat): set<nat> {
    set t: nat | t < T && Wins(T, D, t)
  }

  /** The number of winning hold times below `n`, for `n <= T`. */
  function CountBelow(T: nat, D: nat, n: nat): (r: nat)
    requires n <= T
    ensures r <= n
  {
    if n == 0 then 0 else CountBelow(T, D, n - 1) + (if Wins(T, D, n - 1) then 1 else 0)
  }

  /** The count of one race: the winning hold times below the race time. */
  function WaysToWin(T: nat, D: nat): nat {
    CountBelow(T, D, T)
  }

  /** The count is the number of winning hold times. */
  lemma {:induction false} CountIsCardinality(T: nat, D: nat, n: nat)
    requires n <= T
    ensures CountBelow(T, D, n) == |set t: nat | t < n && Wins(T, D, t)|
  {
    var s := set t: nat | t < n && Wins(T, D, t);
    if n > 0 {
      CountIsCardinality(T, D, n - 1);
      var s' := set t: nat | t < n - 1 && Wins(T, D, t);
      if Wins(T, D, n - 1) {
        assert s == s' + {n - 1};
      } else {
        assert s == s';
      }
    } else {
      assert s == {};
    }
  }

  lemma WaysToWinIsCardinality(T: nat, D: nat)
    ensures WaysToWin(T, D) == |WinningTimes(T, D)|
  {
    CountIsCardinality(T, D, T);
  }

  /** The puzzle's symmetry: holding `t` wins iff holding `T - t` does. */
  lemma Symmetric(T: nat, D: nat, t: nat)
    requires 0 < t < T
    ensures Wins(T, D, t) <==> Wins(T, D, T - t)
  {
    assert (T - (T - t)) * (T - t) == (T - t) * t;
  }

  /** Holding for zero time never wins, so at most `T - 1` hold times win. */
  lemma {:induction false} NeverAtZero(T: nat, D: nat, n: nat)
    requires 1 <= n <= T
    ensures CountBelow(T, D, n) <= n - 1
  {
    if n > 1 {
      NeverAtZero(T, D, n - 1);
    }
  }

  /** A higher record never admits more winning hold times. */
  lemma {:induction false} MonotoneInRecord(T: nat, D: nat, D': nat, n: nat)
    requires D <= D' && n <= T
    ensures CountBelow(T, D', n) <= CountBelow(T, D, n)
  {
    if n > 0 {
      MonotoneInRecord(T, D, D', n - 1);
    }
  }

  /** The product of the per-race counts over `times.zip(distances)`. */
  function ZipProduct(times: seq<nat>, distances: seq<nat>): (r: nat)
    ensures r == 0 <==> exists i :: 0 <= i < |times| && i < |distances| && WaysToWin(times[i], distances[i]) == 0
  {
    if times == [] || distances == [] then 1
    else
      var rest := ZipProduct(times[1..], distances[1..]);
      ZipStep(times, distances);
      ProductZero(WaysToWin(times[0], distances[0]), rest);
      WaysToWin(times[0], distances[0]) * rest
  }

  /** Some race of the zipped lists cannot be won iff the first cannot or
      some later one cannot. */
  lemma ZipStep(times: seq<nat>, distances: seq<nat>)
    requires times != [] && distances != []
    ensures (exists i :: 0 <= i < |times| && i < |distances| && WaysToWin(times[i], distances[i]) == 0)
      <==> (WaysToWin(times[0], distances[0]) == 0
            || exists i :: 0 <= i < |times[1..]| && i < |distances[1..]| && WaysToWin(times[1..][i], distances[1..][i]) == 0)
  {
    if exists i :: 0 <= i < |times| && i < |distances| && WaysToWin(times[i], distances[i]) == 0 {
      var i :| 0 <= i < |times| && i < |distances| && WaysToWin(times[i], distances[i]) == 0;
      if i > 0 {
        assert times[1..][i - 1] == times[i] && distances[1..][i - 1] == distances[i];
      }
    }
    if exists i :: 0 <= i < |times[1..]| && i < |distances[1..]| && WaysToWin(times[1..][i], distances[1..][i]) == 0 {
      var i :| 0 <= i < |times[1..]| && i < |distances[1..]| && WaysToWin(times[1..][i], distances[1..][i]) == 0;
      assert times[i + 1] == times[1..][i] && distances[i + 1] == distances[1..][i];
    }
  }

  lemma ProductZero(a: nat, b: nat)
    ensures a * b == 0 <==> a == 0 || b == 0
  {
  }

  /** `part_one`, on the parsed numbers of the "Time:" and "Distance:" lines;
      races beyond the shorter list are dropped by `zip`. */
  function PartOne(times: seq<nat>, distances: seq<nat>): (r: nat)
    ensures r == 0 <==> exists i :: 0 <= i < |times| && i < |distances| && WaysToWin(times[i], distances[i]) == 0
  {
    ZipProduct(times, distances)
  }

  const U128Bound: nat := 0x1_0000_0000_0000_0000_0000_0000_0000_0000

  /** The single number of a line in part two: the text after the prefix with
      the spaces removed, parsed as a `u128`; None where `parse` fails and
      the `unwrap` panics. */
  function ReadKerned(field: string): (n: Option<nat>)
    ensures n.Some? ==> n.value < U128Bound
    ensures n.Some? ==> var digits := Unsigned(Without(field, {' '}));
      |digits| > 0 && AllDigits(digits) && n.value == Decimal(digits)
    ensures n.None? ==> var digits := Unsigned(Without(field, {' '}));
      |digits| == 0 || !AllDigits(digits) || Decimal(digits) >= U128Bound
  {
    ParseUnsigned(Without(field, {' '}), U128Bound)
  }

  /** `part_two`: one race whose time and record are read with the spaces
      removed (`timeField`, `distanceField` are the lines after their
      "Time: " and "Distance: " prefixes); None where either read panics. */
  function PartTwo(timeField: string, distanceField: string): (r: Option<nat>)
    ensures r.Some? <==> ReadKerned(timeField).Some? && ReadKerned(distanceField).Some?
    ensures r.Some? ==> r.value == |WinningTimes(ReadKerned(timeField).value, ReadKerned(distanceField).value)|
    ensures r.Some? ==> r.value <= ReadKerned(timeField).value
  {
    match (ReadKerned(timeField), ReadKerned(distanceField))
    case (Some(time), Some(distance)) =>
      WaysToWinIsCardinality(time, distance);
      Some(WaysToWin(time, distance))
    case _ => None
  }

  /** Removing the spaces from two space-free strings with one space between
      them glues them together. */
  lemma UnspacedJoin(a: string, b: string)
    requires ' ' !in a && ' ' !in b
    ensures Without(a + " " + b, {' '}) == a + b
  {
    WithoutAppend(a + " ", b, {' '});
    WithoutAppend(a, " ", {' '});
    assert Without(" ", {' '}) == "";
    WithoutNoop(a, {' '});
    WithoutNoop(b, {' '});
    assert a + "" == a;
  }

  /** Removing the spaces between two numbers concatenates their digits. */
  lemma KernedConcat(a: string, b: string)
    requires |a| > 0 && AllDigits(a) && AllDigits(b)
    requires Decimal(a) * Pow10(|b|) + Decimal(b) < U128Bound
    ensures ReadKerned(a + " " + b) == Some(Decimal(a) * Pow10(|b|) + Decimal(b))
  {
    DigitsUnspaced(a);
    DigitsUnspaced(b);
    UnspacedJoin(a, b);
    DecimalAppend(a, b);
    ReadDigits(a + " " + b, a + b);
  }

  /** A digit string holds no space. */
  lemma DigitsUnspaced(s: string)
    requires AllDigits(s)
    ensures ' ' !in s
  {
    forall i | 0 <= i < |s|
      ensures s[i] != ' '
    {
      assert IsDigit(s[i]);
    }
  }

  /** A field whose spaces removed leave a bare digit string below the bound
      reads as that string's value. */
  lemma ReadDigits(field: string, digits: string)
    requires Without(field, {' '}) == digits
    requires |digits| > 0 && AllDigits(digits) && Decimal(digits) < U128Bound
    ensures ReadKerned(field) == Some(Decimal(digits))
  {
    assert IsDigit(digits[0]);
    assert Unsigned(digits) == digits;
  }

  /** A `+` in front of the first number is accepted, as `parse` accepts it:
      "+71 530" reads as "71 530" does. */
  lemma SignedKerned(a: string, b: string)
    requires |a| > 0 && AllDigits(a) && AllDigits(b)
    ensures ReadKerned("+" + a + " " + b) == ReadKerned(a + " " + b)
  {
    DigitsUnspaced(a);
    DigitsUnspaced(b);
    UnspacedJoin(a, b);
    assert "+" + a + " " + b == "+" + (a + " " + b);
    WithoutAppend("+", a + " " + b, {' '});
    assert Without("+", {' '}) == "+";
    assert (a + b)[0] == a[0];
    ParseSigned(a + b, U128Bound);
  }
}
