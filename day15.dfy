/**
 * Day 15, lens library: an 8-bit rolling hash over the characters of a
 * string, and 256 boxes of labelled lenses updated in place by a list of
 * `name-` / `name=d` operations.
 */
module Day15 {
  import opened Wrappers
  import opened Text

  /** One character of the hash: add the code point, times 17, modulo 256. */
  function HashStep(h: nat, c: char): nat {
    (h + c as int) * 17 % 256
  }

  /** The hash as a left fold of `HashStep` starting from `h`. */
  function HashFrom(h: nat, s: string): (r: nat)
    ensures h < 256 ==> r < 256
    ensures s != [] ==> r < 256
    decreases |s|
  {
    if s == [] then h else HashFrom(HashStep(h, s[0]), s[1..])
  }

  function HashOf(s: string): nat {
    HashFrom(0, s)
  }

  /** `hash`: the accumulator loop. */
  method Hash(s: string) returns (current: nat)
    ensures current == HashOf(s)
    ensures current < 256
  {
    current := 0;
    var i := 0;
    while i < |s|
      invariant 0 <= i <= |s|
      invariant current < 256
      invariant HashFrom(current, s[i..]) == HashOf(s)
    {
      assert s[i..][1..] == s[i + 1..];
      current := current + s[i] as int;
      current := current * 17;
      current := current % 256;
      i := i + 1;
    }
    assert s[i..] == [];
  }

  /** Hashing a concatenation continues the fold from the hash of the prefix. */
  lemma {:induction false} HashAppend(h: nat, a: string, b: string)
    ensures HashFrom(h, a + b) == HashFrom(HashFrom(h, a), b)
    decreases |a|
  {
    if a == [] {
      assert a + b == b;
    } else {
      assert (a + b)[0] == a[0];
      assert (a + b)[1..] == a[1..] + b;
      HashAppend(HashStep(h, a[0]), a[1..], b);
    }
  }

  function SumHashes(tokens: seq<string>): (r: nat)
    ensures r <= 255 * |tokens|
  {
    if tokens == [] then 0 else HashOf(tokens[0]) + SumHashes(tokens[1..])
  }

  /** The operations of the input: line breaks removed, then split at ','. */
  function Tokens(input: string): seq<string> {
    Split(Without(input, {'\n', '\r'}), ',')
  }

  /** `part_one`: the sum of the hashes of the tokens. */
  function PartOne(input: string): (r: nat)
    ensures r <= 255 * |Tokens(input)|
  {
    SumHashes(Tokens(input))
  }

  lemma {:induction false} TokensNoLineBreaks(input: string)
    ensures forall i :: 0 <= i < |Tokens(input)| ==>
      '\n' !in Tokens(input)[i] && '\r' !in Tokens(input)[i] && ',' !in Tokens(input)[i]
    ensures Join(Tokens(input), ',') == Without(input, {'\n', '\r'})
  {
    var stripped := Without(input, {'\n', '\r'});
    JoinSplit(stripped, ',');
    forall i | 0 <= i < |Tokens(input)|
      ensures '\n' !in Tokens(input)[i] && '\r' !in Tokens(input)[i]
    {
      var t := Tokens(input)[i];
      if '\n' in t || '\r' in t {
        var c :| c in t && (c == '\n' || c == '\r');
        JoinContains(Tokens(input), ',', i, c);
      }
    }
  }

  /** Every character of a piece occurs in the joined string. */
  lemma {:induction false} JoinContains(parts: seq<string>, sep: char, i: nat, c: char)
    requires 1 <= |parts|
    requires i < |parts| && c in parts[i]
    ensures c in Join(parts, sep)
    decreases |parts|
  {
    if |parts| > 1 {
      if i == 0 {
        assert Join(parts, sep) == parts[0] + [sep] + Join(parts[1..], sep);
      } else {
        JoinContains(parts[1..], sep, i - 1, c);
        assert Join(parts, sep) == parts[0] + [sep] + Join(parts[1..], sep);
      }
    }
  }

  datatype Lens = Lens(name: string, focal: nat)

  datatype Op = Remove(name: string) | Put(name: string, focal: nat)

  /** An operation token: a trailing '-' removes; otherwise the last
      character is the focal length and the two before it are dropped.
      `None` stands for the source's panics (an empty token, a one-character
      token, a last character that is not a digit). */
  function ParseOp(tok: string): (r: Option<Op>)
    ensures r.Some? && r.value.Put? ==> r.value.focal <= 9
  {
    if |tok| == 0 then None
    else if tok[|tok| - 1] == '-' then Some(Remove(tok[..|tok| - 1]))
    else if |tok| < 2 || !IsDigit(tok[|tok| - 1]) then None
    else Some(Put(tok[..|tok| - 2], DigitValue(tok[|tok| - 1])))
  }

  function FormatOp(op: Op): string
    requires op.Put? ==> op.focal <= 9
  {
    match op
    case Remove(l) => l + "-"
    case Put(l, f) => l + "=" + [DigitChar(f)]
  }

  lemma ParseFormat(op: Op)
    requires op.Put? ==> op.focal <= 9
    ensures ParseOp(FormatOp(op)) == Some(op)
  {
    match op
    case Remove(l) =>
      assert (l + "-")[..|l|] == l;
    case Put(l, f) =>
      var t := l + "=" + [DigitChar(f)];
      assert t[..|t| - 2] == l;
  }

  predicate UniqueLabels(box: seq<Lens>) {
    forall i, j :: 0 <= i < j < |box| ==> box[i].name != box[j].name
  }

  predicate HasLabel(box: seq<Lens>, name: string) {
    exists i :: 0 <= i < |box| && box[i].name == name
  }

  /** The box without the lenses named `name`, the rest kept in order. */
  function Removed(box: seq<Lens>, name: string): (r: seq<Lens>)
    ensures |r| <= |box|
    ensures forall l :: l in r <==> l in box && l.name != name
  {
    if box == [] then []
    else if box[0].name == name then Removed(box[1..], name)
    else [box[0]] + Removed(box[1..], name)
  }

  /** Sets the focal length of the first lens with that name, in place, or
      appends a new lens when there is none. */
  function Placed(box: seq<Lens>, name: string, focal: nat): (r: seq<Lens>)
    ensures |r| == if HasLabel(box, name) then |box| else |box| + 1
  {
    if box == [] then [Lens(name, focal)]
    else if box[0].name == name then [Lens(name, focal)] + box[1..]
    else
      assert HasLabel(box, name) <==> HasLabel(box[1..], name) by {
        if HasLabel(box, name) {
          var i :| 0 <= i < |box| && box[i].name == name;
          assert box[1..][i - 1].name == name;
        }
        if HasLabel(box[1..], name) {
          var i :| 0 <= i < |box[1..]| && box[1..][i].name == name;
          assert box[i + 1].name == name;
        }
      }
      [box[0]] + Placed(box[1..], name, focal)
  }

  /** Removing keeps the relative order: it distributes over concatenation. */
  lemma {:induction false} RemovedAppend(a: seq<Lens>, b: seq<Lens>, name: string)
    ensures Removed(a + b, name) == Removed(a, name) + Removed(b, name)
    decreases |a|
  {
    if a == [] {
      assert a + b == b;
    } else {
      assert (a + b)[0] == a[0];
      assert (a + b)[1..] == a[1..] + b;
      RemovedAppend(a[1..], b, name);
    }
  }

  /** The lenses after the removal come in the same order as before: the
      lenses at `i < j` that stay end up at `i2 < j2`. */
  lemma RemovedKeepsOrder(box: seq<Lens>, name: string, i: nat, j: nat) returns (i2: nat, j2: nat)
    requires i < j < |box|
    requires box[i].name != name && box[j].name != name
    ensures i2 < j2 < |Removed(box, name)|
    ensures Removed(box, name)[i2] == box[i] && Removed(box, name)[j2] == box[j]
  {
    var a, b, c := box[..i], box[i..j], box[j..];
    assert box == (a + b) + c;
    RemovedAppend(a + b, c, name);
    RemovedAppend(a, b, name);
    var ra, rb, rc := Removed(a, name), Removed(b, name), Removed(c, name);
    assert rb == [box[i]] + Removed(b[1..], name);
    assert rc == [box[j]] + Removed(c[1..], name);
    i2, j2 := |ra|, |ra| + |rb|;
    PickTwo(ra, rb, rc, box[i], box[j]);
  }

  lemma PickTwo(ra: seq<Lens>, rb: seq<Lens>, rc: seq<Lens>, x: Lens, y: Lens)
    requires |rb| > 0 && rb[0] == x && |rc| > 0 && rc[0] == y
    ensures (ra + rb + rc)[|ra|] == x && (ra + rb + rc)[|ra| + |rb|] == y
  {
  }

  lemma {:induction false} RemovedUnique(box: seq<Lens>, name: string)
    requires UniqueLabels(box)
    ensures UniqueLabels(Removed(box, name))
    ensures !HasLabel(Removed(box, name), name)
    decreases |box|
  {
    var r := Removed(box, name);
    if box != [] {
      var tail := box[1..];
      TailUnique(box);
      RemovedUnique(tail, name);
      if box[0].name != name {
        var rest := Removed(tail, name);
        assert r == [box[0]] + rest;
        forall k | 0 <= k < |tail| ensures tail[k].name != box[0].name {
          assert tail[k] == box[k + 1];
        }
        RemovedAvoids(tail, name, box[0].name);
        ConsUnique(box[0], rest);
      }
    }
    forall i | 0 <= i < |r| ensures r[i].name != name {
      assert r[i] in r;
    }
  }

  lemma TailUnique(box: seq<Lens>)
    requires box != [] && UniqueLabels(box)
    ensures UniqueLabels(box[1..])
  {
    var tail := box[1..];
    forall i, j | 0 <= i < j < |tail| ensures tail[i].name != tail[j].name {
      assert tail[i] == box[i + 1] && tail[j] == box[j + 1];
    }
  }

  lemma ConsUnique(x: Lens, rest: seq<Lens>)
    requires UniqueLabels(rest)
    requires forall j :: 0 <= j < |rest| ==> rest[j].name != x.name
    ensures UniqueLabels([x] + rest)
  {
    var r := [x] + rest;
    forall i, j | 0 <= i < j < |r| ensures r[i].name != r[j].name {
      assert r[j] == rest[j - 1];
      if i > 0 {
        assert r[i] == rest[i - 1];
      }
    }
  }

  /** A name absent from the box is absent after a removal. */
  lemma RemovedAvoids(box: seq<Lens>, name: string, other: string)
    requires forall k :: 0 <= k < |box| ==> box[k].name != other
    ensures forall j :: 0 <= j < |Removed(box, name)| ==> Removed(box, name)[j].name != other
  {
    var r := Removed(box, name);
    forall j | 0 <= j < |r| ensures r[j].name != other {
      assert r[j] in r;
      var k :| 0 <= k < |box| && box[k] == r[j];
    }
  }

  lemma {:induction false} PlacedUnique(box: seq<Lens>, name: string, focal: nat)
    requires UniqueLabels(box)
    ensures UniqueLabels(Placed(box, name, focal))
    ensures forall l :: l in Placed(box, name, focal) ==> l.name == name || l in box
    decreases |box|
  {
    if box == [] {
    } else if box[0].name == name {
      PlacedAtHead(box, name, focal);
    } else {
      PlacedUnique(box[1..], name, focal);
      PlacedBehindHead(box, name, focal);
    }
  }

  /** PlacedUnique where the first lens carries the name: it is replaced. */
  lemma PlacedAtHead(box: seq<Lens>, name: string, focal: nat)
    requires UniqueLabels(box) && box != [] && box[0].name == name
    ensures UniqueLabels(Placed(box, name, focal))
    ensures forall l :: l in Placed(box, name, focal) ==> l.name == name || l in box
  {
    var r := Placed(box, name, focal);
    forall i, j | 0 <= i < j < |r| ensures r[i].name != r[j].name {
      if i > 0 { assert r[i] == box[i]; }
      assert r[j] == box[j];
    }
    forall l | l in r ensures l.name == name || l in box {
      var k :| 0 <= k < |r| && r[k] == l;
      if k > 0 { assert r[k] == box[k]; }
    }
  }

  /** PlacedUnique where the first lens carries another name: it is kept in
      front of the box placed into behind it. */
  lemma PlacedBehindHead(box: seq<Lens>, name: string, focal: nat)
    requires UniqueLabels(box) && box != [] && box[0].name != name
    requires UniqueLabels(Placed(box[1..], name, focal))
    requires forall l :: l in Placed(box[1..], name, focal) ==> l.name == name || l in box[1..]
    ensures UniqueLabels(Placed(box, name, focal))
    ensures forall l :: l in Placed(box, name, focal) ==> l.name == name || l in box
  {
    var rest := Placed(box[1..], name, focal);
    assert Placed(box, name, focal) == [box[0]] + rest;
    HeadNameFree(box, rest, name);
    ConsUnique(box[0], rest);
    forall l | l in [box[0]] + rest ensures l.name == name || l in box {
      if l != box[0] {
        assert l in rest;
        if l.name != name {
          assert l in box[1..];
        }
      }
    }
  }

  /** The first lens's name, not `name`, is not carried by any lens drawn
      from the rest of the box or named `name`. */
  lemma HeadNameFree(box: seq<Lens>, rest: seq<Lens>, name: string)
    requires UniqueLabels(box) && box != [] && box[0].name != name
    requires forall l :: l in rest ==> l.name == name || l in box[1..]
    ensures forall j :: 0 <= j < |rest| ==> rest[j].name != box[0].name
  {
    forall j | 0 <= j < |rest| ensures rest[j].name != box[0].name {
      assert rest[j] in rest;
      if rest[j].name != name {
        var k :| 0 <= k < |box[1..]| && box[1..][k] == rest[j];
        assert box[k + 1] == rest[j];
      }
    }
  }

  /** After `name=d` the box holds exactly one lens with that name, with
      focal length `d`, and the other lenses are those before, in order. */
  lemma {:induction false} PlacedContents(box: seq<Lens>, name: string, focal: nat)
    requires UniqueLabels(box)
    ensures Lens(name, focal) in Placed(box, name, focal)
    ensures Removed(Placed(box, name, focal), name) == Removed(box, name)
    decreases |box|
  {
    if box == [] {
    } else if box[0].name == name {
      var r := Placed(box, name, focal);
      assert r[0] == Lens(name, focal);
      assert r[1..] == box[1..];
    } else {
      assert UniqueLabels(box[1..]) by {
        forall i, j | 0 <= i < j < |box[1..]| ensures box[1..][i].name != box[1..][j].name {
          assert box[1..][i] == box[i + 1] && box[1..][j] == box[j + 1];
        }
      }
      PlacedContents(box[1..], name, focal);
      var rest := Placed(box[1..], name, focal);
      assert Placed(box, name, focal) == [box[0]] + rest;
      assert Lens(name, focal) in rest;
      assert ([box[0]] + rest)[1..] == rest;
    }
  }

  /** The lens found by the in-place loop determines `Placed`. */
  lemma {:induction false} PlacedAt(box: seq<Lens>, name: string, focal: nat, i: nat)
    requires i <= |box|
    requires forall k :: 0 <= k < i ==> box[k].name != name
    requires i < |box| ==> box[i].name == name
    ensures i < |box| ==> Placed(box, name, focal) == box[i := Lens(name, focal)]
    ensures i == |box| ==> Placed(box, name, focal) == box + [Lens(name, focal)]
    decreases |box|
  {
    if box != [] && i > 0 {
      PlacedAt(box[1..], name, focal, i - 1);
      if i < |box| {
        assert [box[0]] + box[1..][i - 1 := Lens(name, focal)] == box[i := Lens(name, focal)];
      } else {
        assert [box[0]] + (box[1..] + [Lens(name, focal)]) == box + [Lens(name, focal)];
      }
    } else if box != [] {
      assert [Lens(name, focal)] + box[1..] == box[0 := Lens(name, focal)];
    }
  }

  const BoxCount := 256

  predicate AllUnique(boxes: seq<seq<Lens>>) {
    forall b :: 0 <= b < |boxes| ==> UniqueLabels(boxes[b])
  }

  /** The effect of one operation on the 256 boxes. */
  function Apply(boxes: seq<seq<Lens>>, op: Op): (r: seq<seq<Lens>>)
    requires |boxes| == BoxCount
    ensures |r| == BoxCount
  {
    var h := HashOf(op.name);
    match op
    case Remove(l) => boxes[h := Removed(boxes[h], l)]
    case Put(l, f) => boxes[h := Placed(boxes[h], l, f)]
  }

  function ApplyAll(boxes: seq<seq<Lens>>, ops: seq<Op>): (r: seq<seq<Lens>>)
    requires |boxes| == BoxCount
    ensures |r| == BoxCount
    decreases |ops|
  {
    if ops == [] then boxes else ApplyAll(Apply(boxes, ops[0]), ops[1..])
  }

  /** An operation changes only the box its name hashes to, and labels stay
      unique within every box. */
  lemma ApplyFrame(boxes: seq<seq<Lens>>, op: Op)
    requires |boxes| == BoxCount && AllUnique(boxes)
    ensures AllUnique(Apply(boxes, op))
    ensures forall b :: 0 <= b < BoxCount && b != HashOf(op.name) ==> Apply(boxes, op)[b] == boxes[b]
  {
    var h := HashOf(op.name);
    match op
    case Remove(l) => RemovedUnique(boxes[h], l);
    case Put(l, f) => PlacedUnique(boxes[h], l, f);
  }

  lemma {:induction false} ApplyAllUnique(boxes: seq<seq<Lens>>, ops: seq<Op>)
    requires |boxes| == BoxCount && AllUnique(boxes)
    ensures AllUnique(ApplyAll(boxes, ops))
    decreases |ops|
  {
    if ops != [] {
      ApplyFrame(boxes, ops[0]);
      ApplyAllUnique(Apply(boxes, ops[0]), ops[1..]);
    }
  }

  /** Focusing power of the first `n` slots of a box: slot s (from 1) times
      focal length. */
  function SlotsPower(box: seq<Lens>, n: nat): nat
    requires n <= |box|
  {
    if n == 0 then 0 else SlotsPower(box, n - 1) + n * box[n - 1].focal
  }

  /** Focusing power of the first `n` boxes: box number (from 1) times the
      box's slot power. */
  function BoxesPower(boxes: seq<seq<Lens>>, n: nat): nat
    requires n <= |boxes|
  {
    if n == 0 then 0 else BoxesPower(boxes, n - 1) + n * SlotsPower(boxes[n - 1], |boxes[n - 1]|)
  }

  function Power(boxes: seq<seq<Lens>>): nat {
    BoxesPower(boxes, |boxes|)
  }

  function EmptyBoxes(): (r: seq<seq<Lens>>)
    ensures |r| == BoxCount && AllUnique(r)
  {
    seq(BoxCount, _ => [])
  }

  /** The 256 boxes, `Vec<Vec<(String, u32)>>` in the source. */
  class Boxes {
    const slots: array<seq<Lens>>

    ghost predicate Valid()
      reads this, slots
    {
      slots.Length == BoxCount && AllUnique(slots[..])
    }

    function Contents(): seq<seq<Lens>>
      reads this, slots
    {
      slots[..]
    }

    constructor ()
      ensures Valid() && fresh(slots)
      ensures Contents() == EmptyBoxes()
    {
      slots := new seq<Lens>[BoxCount](_ => []);
      new;
      assert slots[..] == EmptyBoxes();
    }

    /** `name-`. */
    method RemoveLens(name: string)
      requires Valid()
      modifies slots
      ensures Valid()
      ensures Contents() == Apply(old(Contents()), Remove(name))
    {
      var h := Hash(name);
      ghost var before := slots[..];
      slots[h] := Removed(slots[h], name);
      assert slots[..] == before[h := Removed(before[h], name)];
      ApplyFrame(before, Remove(name));
    }

    /** `name=d`: the search for a lens with that name, then the update in
        place or the append. */
    method PutLens(name: string, focal: nat)
      requires Valid()
      modifies slots
      ensures Valid()
      ensures Contents() == Apply(old(Contents()), Put(name, focal))
    {
      var h := Hash(name);
      ghost var before := slots[..];
      var box := slots[h];
      var i := 0;
      while i < |box| && box[i].name != name
        invariant 0 <= i <= |box|
        invariant forall k :: 0 <= k < i ==> box[k].name != name
      {
        i := i + 1;
      }
      PlacedAt(box, name, focal, i);
      if i < |box| {
        slots[h] := box[i := Lens(name, focal)];
      } else {
        slots[h] := box + [Lens(name, focal)];
      }
      assert slots[..] == before[h := Placed(before[h], name, focal)];
      ApplyFrame(before, Put(name, focal));
    }

    /** The final double loop over boxes and slots. */
    method FocusingPower() returns (total: nat)
      requires Valid()
      ensures total == Power(Contents())
    {
      total := 0;
      var b := 0;
      while b < slots.Length
        invariant 0 <= b <= slots.Length
        invariant total == BoxesPower(slots[..], b)
      {
        var box := slots[b];
        total := AddBoxPower(total, box, b);
        assert slots[..][b] == box;
        b := b + 1;
      }
      assert slots[..] == Contents();
    }
  }

  /** The inner loop of the final double loop: box `b`'s slots, each
      weighed by box number and slot number (both from 1). */
  method AddBoxPower(start: nat, box: seq<Lens>, b: nat) returns (total: nat)
    ensures total == start + (b + 1) * SlotsPower(box, |box|)
  {
    total := start;
    var s := 0;
    while s < |box|
      invariant 0 <= s <= |box|
      invariant total == start + (b + 1) * SlotsPower(box, s)
    {
      SlotStep(b + 1, s + 1, box[s].focal, SlotsPower(box, s));
      total := total + (b + 1) * (s + 1) * box[s].focal;
      s := s + 1;
    }
  }

  lemma SlotStep(m: nat, n: nat, f: nat, p: nat)
    ensures m * (p + n * f) == m * p + m * n * f
  {
    assert m * (n * f) == m * n * f;
  }

  predicate AllParse(tokens: seq<string>) {
    forall i :: 0 <= i < |tokens| ==> ParseOp(tokens[i]).Some?
  }

  function ParseAll(tokens: seq<string>): (ops: seq<Op>)
    requires AllParse(tokens)
    ensures |ops| == |tokens|
    ensures forall i :: 0 <= i < |ops| ==> Some(ops[i]) == ParseOp(tokens[i])
  {
    seq(|tokens|, i requires 0 <= i < |tokens| => ParseOp(tokens[i]).value)
  }

  lemma ApplyAllStep(boxes: seq<seq<Lens>>, ops: seq<Op>, i: nat)
    requires |boxes| == BoxCount && i < |ops|
    ensures ApplyAll(boxes, ops[i..]) == ApplyAll(Apply(boxes, ops[i]), ops[i + 1..])
  {
    assert ops[i..][0] == ops[i];
    assert ops[i..][1..] == ops[i + 1..];
  }

  /** `part_two`: every operation in order on fresh boxes, then the focusing
      power. */
  method PartTwo(input: string) returns (total: nat)
    requires AllParse(Tokens(input))
    ensures total == Power(ApplyAll(EmptyBoxes(), ParseAll(Tokens(input))))
  {
    var tokens := Tokens(input);
    var ops := ParseAll(tokens);
    var boxes := new Boxes();
    var i := 0;
    while i < |tokens|
      invariant 0 <= i <= |tokens|
      invariant boxes.Valid()
      invariant ApplyAll(boxes.Contents(), ops[i..]) == ApplyAll(EmptyBoxes(), ops)
    {
      var op := ParseOp(tokens[i]).value;
      assert op == ops[i];
      ghost var before := boxes.Contents();
      ApplyAllStep(before, ops, i);
      if op.Remove? {
        boxes.RemoveLens(op.name);
      } else {
        boxes.PutLens(op.name, op.focal);
      }
      assert boxes.Contents() == Apply(before, ops[i]);
      i := i + 1;
    }
    assert ops[i..] == [];
    total := boxes.FocusingPower();
  }
}
