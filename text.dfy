/**
 * String helpers shared by the solvers: splitting on a separator character
 * (Rust's `str::split` with a `char` pattern), deleting characters
 * (`str::replace` with an empty replacement) and reading ASCII decimal digits.
 */
module Text {
  import opened Wrappers

  /** `str::split` at a character: the pieces between separators; consecutive separators
      give empty pieces and the empty string gives one empty piece. */
  function Split(s: string, sep: char): (parts: seq<string>)
    ensures |parts| >= 1
    ensures forall i :: 0 <= i < |parts| ==> sep !in parts[i]
    decreases |s|
  {
    if s == [] then [""]
    else if s[0] == sep then [""] + Split(s[1..], sep)
    else
      var rest := Split(s[1..], sep);
      [[s[0]] + rest[0]] + rest[1..]
  }

  /** `str::split` at a string: the pieces between the
      occurrences of `sep`, each found leftmost after the previous one. */
  function SplitOn(s: string, sep: string): (parts: seq<string>)
    requires |sep| > 0
    ensures |parts| >= 1
    decreases |s|
  {
    if |s| < |sep| then [s]
    else if s[..|sep|] == sep then [""] + SplitOn(s[|sep|..], sep)
    else
      var rest := SplitOn(s[1..], sep);
      [[s[0]] + rest[0]] + rest[1..]
  }

  /** The pieces glued back with a string separator. */
  function JoinOn(parts: seq<string>, sep: string): string
    requires |parts| >= 1
  {
    if |parts| == 1 then parts[0] else parts[0] + sep + JoinOn(parts[1..], sep)
  }

  /** A character in front of the first piece is in front of the whole. */
  lemma JoinOnPrepend(c: char, parts: seq<string>, sep: string)
    requires |parts| >= 1
    ensures JoinOn([[c] + parts[0]] + parts[1..], sep) == [c] + JoinOn(parts, sep)
  {
    var ps := [[c] + parts[0]] + parts[1..];
    if |parts| > 1 {
      assert ps[1..] == parts[1..];
    }
  }

  lemma {:induction false} JoinSplitOn(s: string, sep: string)
    requires |sep| > 0
    ensures JoinOn(SplitOn(s, sep), sep) == s
    decreases |s|
  {
    if |s| < |sep| {
    } else if s[..|sep|] == sep {
      JoinSplitOn(s[|sep|..], sep);
      JoinAfterSeparator(sep, s[|sep|..]);
      assert s == sep + s[|sep|..];
    } else {
      JoinSplitOn(s[1..], sep);
      JoinAfterChar(s, sep);
    }
  }

  lemma JoinAfterSeparator(sep: string, t: string)
    requires 0 < |sep| && JoinOn(SplitOn(t, sep), sep) == t
    ensures JoinOn(SplitOn(sep + t, sep), sep) == sep + t
  {
    var s := sep + t;
    assert s[..|sep|] == sep && s[|sep|..] == t;
    var rest := SplitOn(t, sep);
    var parts := [""] + rest;
    assert SplitOn(s, sep) == parts;
    assert |parts| > 1 && parts[0] == "" && parts[1..] == rest;
    assert JoinOn(parts, sep) == parts[0] + sep + JoinOn(rest, sep);
    assert parts[0] + sep == sep;
  }

  lemma JoinAfterChar(s: string, sep: string)
    requires 0 < |sep| <= |s| && s[..|sep|] != sep
    requires JoinOn(SplitOn(s[1..], sep), sep) == s[1..]
    ensures JoinOn(SplitOn(s, sep), sep) == s
  {
    var rest := SplitOn(s[1..], sep);
    JoinOnPrepend(s[0], rest, sep);
    assert s == [s[0]] + s[1..];
  }

  /** `sep` occurs in `s` at `i`. */
  predicate At(s: string, i: nat, sep: string) {
    i + |sep| <= |s| && s[i..i + |sep|] == sep
  }

  predicate Occurs(s: string, sep: string) {
    exists i: nat :: i <= |s| && At(s, i, sep)
  }

  /** Without an occurrence of the separator the whole string is one piece. */
  lemma {:induction false} SplitOnAbsent(s: string, sep: string)
    requires |sep| > 0 && !Occurs(s, sep)
    ensures SplitOn(s, sep) == [s]
    decreases |s|
  {
    if |s| >= |sep| {
      assert !At(s, 0, sep);
      assert s[0..|sep|] == s[..|sep|];
      forall i: nat ensures !At(s[1..], i, sep) {
        assert !At(s, i + 1, sep);
        if i + |sep| <= |s[1..]| {
          assert s[1..][i..i + |sep|] == s[i + 1..i + 1 + |sep|];
        }
      }
      SplitOnAbsent(s[1..], sep);
      assert s == [s[0]] + s[1..];
    }
  }

  /** `str::lines`: the pieces between line feeds, a carriage return before
      a line feed dropped, and no final empty piece. */
  function Lines(s: string): (ls: seq<string>)
    ensures forall i :: 0 <= i < |ls| ==> '\n' !in ls[i]
  {
    var parts := Split(s, '\n');
    var n := |parts|;
    var kept := if parts[n - 1] == "" then parts[..n - 1] else parts;
    seq(|kept|, i requires 0 <= i < |kept| => if i < n - 1 then StripCr(kept[i]) else kept[i])
  }

  function StripCr(line: string): (r: string)
    ensures '\n' !in line ==> '\n' !in r
  {
    if |line| > 0 && line[|line| - 1] == '\r' then line[..|line| - 1] else line
  }

  /** The inverse of `Split`: the pieces glued back with the separator. */
  function Join(parts: seq<string>, sep: char): string
    requires |parts| >= 1
  {
    if |parts| == 1 then parts[0] else parts[0] + [sep] + Join(parts[1..], sep)
  }

  lemma {:induction false} JoinSplit(s: string, sep: char)
    ensures Join(Split(s, sep), sep) == s
    decreases |s|
  {
    if s == [] {
    } else if s[0] == sep {
      JoinSplit(s[1..], sep);
      assert Split(s, sep) == [""] + Split(s[1..], sep);
      assert (([""] + Split(s[1..], sep))[1..]) == Split(s[1..], sep);
    } else {
      var rest := Split(s[1..], sep);
      JoinSplit(s[1..], sep);
      var parts := [[s[0]] + rest[0]] + rest[1..];
      assert Split(s, sep) == parts;
      if |rest| == 1 {
        assert Join(parts, sep) == [s[0]] + rest[0];
        assert s == [s[0]] + s[1..];
      } else {
        assert parts[1..] == rest[1..];
        assert Join(rest, sep) == rest[0] + [sep] + Join(rest[1..], sep);
        assert Join(parts, sep) == [s[0]] + rest[0] + [sep] + Join(rest[1..], sep);
        assert s == [s[0]] + s[1..];
      }
    }
  }

  lemma {:induction false} SplitJoin(parts: seq<string>, sep: char)
    requires |parts| >= 1
    requires forall i :: 0 <= i < |parts| ==> sep !in parts[i]
    ensures Split(Join(parts, sep), sep) == parts
    decreases |parts|, |parts[0]|
  {
    var p := parts[0];
    if p == [] {
      if |parts| == 1 {
      } else {
        var tail := Join(parts[1..], sep);
        assert Join(parts, sep) == [sep] + tail;
        assert ([sep] + tail)[1..] == tail;
        SplitJoin(parts[1..], sep);
        assert parts == [""] + parts[1..];
      }
    } else {
      var shorter := [p[1..]] + parts[1..];
      assert forall i :: 0 <= i < |shorter| ==> sep !in shorter[i] by {
        forall i | 0 <= i < |shorter| ensures sep !in shorter[i] {
          if i == 0 { assert p == [p[0]] + p[1..]; } else { assert shorter[i] == parts[i]; }
        }
      }
      SplitJoin(shorter, sep);
      var j := Join(parts, sep);
      if |parts| == 1 {
        assert j == p;
        assert Join(shorter, sep) == p[1..];
      } else {
        assert shorter[1..] == parts[1..];
        assert Join(shorter, sep) == p[1..] + [sep] + Join(parts[1..], sep);
        assert j == p + [sep] + Join(parts[1..], sep);
      }
      assert j[0] == p[0];
      assert j[1..] == Join(shorter, sep);
      assert p[0] != sep by { assert p[0] in p; }
      assert Split(j, sep) == [[p[0]] + p[1..]] + shorter[1..];
      assert [p[0]] + p[1..] == p;
      assert parts == [p] + parts[1..];
    }
  }

  /** Every character of a joined string is the separator or comes from
      one of the pieces. */
  lemma {:induction false} JoinChars(parts: seq<string>, sep: char, c: char)
    requires |parts| >= 1
    requires c in Join(parts, sep)
    ensures c == sep || exists i :: 0 <= i < |parts| && c in parts[i]
    decreases |parts|
  {
    if |parts| > 1 && c !in parts[0] && c != sep {
      JoinChars(parts[1..], sep, c);
      var i :| 0 <= i < |parts[1..]| && c in parts[1..][i];
      assert c in parts[i + 1];
    }
  }

  /** `char::is_whitespace`, the Unicode White_Space property that
      `split_whitespace` splits on: tab, line feed, vertical tab, form feed,
      carriage return, space and the non-ASCII spaces and separators. */
  predicate IsSpace(c: char) {
    var k := c as int;
    (0x09 <= k <= 0x0D) || k == 0x20 || k == 0x85 || k == 0xA0 || k == 0x1680
    || (0x2000 <= k <= 0x200A) || k == 0x2028 || k == 0x2029 || k == 0x202F
    || k == 0x205F || k == 0x3000
  }

  predicate NoSpace(s: string) { forall i :: 0 <= i < |s| ==> !IsSpace(s[i]) }

  /** The longest prefix without whitespace. */
  function Word(s: string): (w: string)
    ensures |w| <= |s| && w == s[..|w|] && NoSpace(w)
    ensures |w| < |s| ==> IsSpace(s[|w|])
  {
    if s == [] || IsSpace(s[0]) then [] else [s[0]] + Word(s[1..])
  }

  /** `str::split_whitespace`: the maximal runs of non-whitespace characters. */
  function Words(s: string): (ws: seq<string>)
    ensures forall i :: 0 <= i < |ws| ==> |ws[i]| > 0 && NoSpace(ws[i])
    decreases |s|
  {
    if s == [] then []
    else if IsSpace(s[0]) then Words(s[1..])
    else
      var w := Word(s);
      [w] + Words(s[|w|..])
  }

  lemma {:induction false} WordOf(a: string, rest: string)
    requires NoSpace(a)
    requires rest == [] || IsSpace(rest[0])
    ensures Word(a + rest) == a
    decreases |a|
  {
    if a != [] {
      assert (a + rest)[1..] == a[1..] + rest;
      WordOf(a[1..], rest);
    } else {
      assert a + rest == rest;
    }
  }

  /** Words separated by single spaces, with or without a leading space, are
      read back as themselves. */
  lemma {:induction false} WordsOfJoin(ws: seq<string>)
    requires forall i :: 0 <= i < |ws| ==> |ws[i]| > 0 && NoSpace(ws[i])
    ensures Words(Spaced(ws)) == ws
    decreases |ws|
  {
    if ws != [] {
      var s := Spaced(ws);
      var rest := Spaced(ws[1..]);
      assert s == " " + ws[0] + rest;
      assert s[1..] == ws[0] + rest;
      assert rest == [] || IsSpace(rest[0]);
      WordOf(ws[0], rest);
      assert (ws[0] + rest)[|ws[0]|..] == rest;
      assert Words(s) == Words(s[1..]);
      WordsOfJoin(ws[1..]);
    }
  }

  /** Every word preceded by one space. */
  function Spaced(ws: seq<string>): string {
    if ws == [] then "" else " " + ws[0] + Spaced(ws[1..])
  }

  /** `str::replace` with an empty replacement: `s` with every character of `cs` deleted. */
  function Without(s: string, cs: set<char>): (r: string)
    ensures |r| <= |s|
    ensures forall c :: c in r ==> c in s && c !in cs
  {
    if s == [] then ""
    else if s[0] in cs then Without(s[1..], cs)
    else [s[0]] + Without(s[1..], cs)
  }

  lemma {:induction false} WithoutAppend(a: string, b: string, cs: set<char>)
    ensures Without(a + b, cs) == Without(a, cs) + Without(b, cs)
    decreases |a|
  {
    if a == [] {
      assert a + b == b;
    } else {
      assert (a + b)[1..] == a[1..] + b;
      WithoutAppend(a[1..], b, cs);
    }
  }

  lemma {:induction false} WithoutNoop(s: string, cs: set<char>)
    requires forall c :: c in s ==> c !in cs
    ensures Without(s, cs) == s
    decreases |s|
  {
    if s != [] {
      assert s[0] in s;
      assert forall c :: c in s[1..] ==> c in s;
      WithoutNoop(s[1..], cs);
      assert s == [s[0]] + s[1..];
    }
  }

  predicate IsDigit(c: char) { '0' <= c <= '9' }

  predicate AllDigits(s: string) { forall i :: 0 <= i < |s| ==> IsDigit(s[i]) }

  function DigitValue(c: char): (d: nat)
    requires IsDigit(c)
    ensures d < 10
  {
    c as int - '0' as int
  }

  function DigitChar(d: nat): (c: char)
    requires d < 10
    ensures IsDigit(c) && DigitValue(c) == d
  {
    ('0' as int + d) as char
  }

  /** The value of a string of decimal digits, most significant first
      (the empty string reads as 0). */
  function Decimal(s: string): nat
    requires AllDigits(s)
  {
    if s == [] then 0 else 10 * Decimal(s[..|s| - 1]) + DigitValue(s[|s| - 1])
  }

  /** The shortest decimal spelling of `n`. */
  function ToDecimal(n: nat): (s: string)
    ensures AllDigits(s) && |s| >= 1
  {
    if n < 10 then [DigitChar(n)] else ToDecimal(n / 10) + [DigitChar(n % 10)]
  }

  lemma {:induction false} DecimalToDecimal(n: nat)
    ensures Decimal(ToDecimal(n)) == n
  {
    var s := ToDecimal(n);
    if n >= 10 {
      DecimalToDecimal(n / 10);
      assert s[..|s| - 1] == ToDecimal(n / 10);
    }
  }

  /** Reading a decimal string is a left fold: a prefix is read first and
      every further digit multiplies it by ten. */
  lemma {:induction false} DecimalAppend(a: string, b: string)
    requires AllDigits(a) && AllDigits(b)
    ensures AllDigits(a + b)
    ensures Decimal(a + b) == Decimal(a) * Pow10(|b|) + Decimal(b)
    decreases |b|
  {
    if b == [] {
      assert a + b == a;
    } else {
      var ab := a + b;
      var b' := b[..|b| - 1];
      var d := DigitValue(b[|b| - 1]);
      assert ab[..|ab| - 1] == a + b';
      DecimalAppend(a, b');
      assert ab[|ab| - 1] == b[|b| - 1];
      assert b[..|b| - 1] == b';
      DecimalStep(Decimal(ab), Decimal(a + b'), Decimal(a), Pow10(|b'|), Decimal(b'), d, Decimal(b), Pow10(|b|));
    }
  }

  /** The arithmetic of one step of DecimalAppend. */
  lemma DecimalStep(whole: int, front: int, x: int, p: int, y: int, d: int, tail: int, q: int)
    requires whole == 10 * front + d && front == x * p + y
    requires tail == 10 * y + d && q == 10 * p
    ensures whole == x * q + tail
  {
    assert 10 * (x * p) == x * (10 * p);
  }

  function Pow10(k: nat): (p: nat)
    ensures p >= 1
  {
    if k == 0 then 1 else 10 * Pow10(k - 1)
  }

  const U32Bound: nat := 0x1_0000_0000

  /** The digits of a token: what follows one optional leading `+`. */
  function Unsigned(s: string): (d: string)
    ensures s == d || s == "+" + d
  {
    if |s| > 0 && s[0] == '+' then s[1..] else s
  }

  /** `str::parse` for an unsigned integer type whose values lie below `bound`:
      one optional `+`, then a non-empty digit string whose value is below the
      bound. */
  function ParseUnsigned(s: string, bound: nat): (n: Option<nat>)
    ensures n.Some? ==> n.value < bound
    ensures n.Some? ==> |Unsigned(s)| > 0 && AllDigits(Unsigned(s)) && n.value == Decimal(Unsigned(s))
    ensures n.None? ==> |Unsigned(s)| == 0 || !AllDigits(Unsigned(s)) || Decimal(Unsigned(s)) >= bound
  {
    var d := Unsigned(s);
    if |d| > 0 && AllDigits(d) && Decimal(d) < bound then Some(Decimal(d)) else None
  }

  /** `str::parse::<u32>` on a token. */
  function ParseU32(s: string): (n: Option<nat>)
    ensures n.Some? ==> n.value < U32Bound
    ensures n.Some? ==> |Unsigned(s)| > 0 && AllDigits(Unsigned(s)) && n.value == Decimal(Unsigned(s))
    ensures n.None? ==> |Unsigned(s)| == 0 || !AllDigits(Unsigned(s)) || Decimal(Unsigned(s)) >= U32Bound
  {
    ParseUnsigned(s, U32Bound)
  }

  /** A leading `+` reads the same number as the bare digits, but a second
      sign or a lone `+` is refused. */
  lemma ParseSigned(d: string, bound: nat)
    requires d == [] || d[0] != '+'
    ensures ParseUnsigned("+" + d, bound) == ParseUnsigned(d, bound)
    ensures ParseUnsigned("+", bound).None?
    ensures ParseUnsigned("++" + d, bound).None?
  {
    assert ("+" + d)[1..] == d;
    assert ("++" + d)[1..] == "+" + d;
    assert !IsDigit(("+" + d)[0]);
  }

  lemma ParseU32ToDecimal(n: nat)
    requires n < U32Bound
    ensures ParseU32(ToDecimal(n)) == Some(n)
  {
    DecimalToDecimal(n);
  }
}
