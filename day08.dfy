/**
 * Day 8, haunted wasteland: a network of nodes with a left and a right
 * successor, walked by a cyclic list of L/R instructions. Part one walks
 * from AAA to ZZZ by name; part two packs every three-letter name into 15
 * bits and walks all nodes ending in 'A' in lockstep until all end in 'Z'.
 */
module Day08 {
  import opened Wrappers

  /** A node's successors, by name (`Node`). */
  datatype Node = Node(left: string, right: string)

  /** How a walk ends. The walks of the source may loop for ever, so a
      `fuel` bound on the number of steps is a parameter of the model. */
  datatype Outcome =
    | Reached(steps: nat)
    | Panicked(at: nat)
    | OutOfFuel

  predicate IsAscii(s: string) {
    forall i :: 0 <= i < |s| ==> s[i] as int < 128
  }

  /** A node line "AAA = (BBB, CCC)": long enough for the three fixed
      slices, and ASCII, so byte and character positions agree. */
  predicate NodeLine(line: string) {
    |line| >= 15 && IsAscii(line)
  }

  /** A three-character ASCII name. */
  predicate NameOk(s: string) {
    |s| == 3 && IsAscii(s)
  }

  /** The three slices `[0..3]`, `[7..10]` and `[12..15]` of a node line. */
  function ParseNodeLine(line: string): (r: (string, Node))
    requires NodeLine(line)
    ensures NameOk(r.0) && NameOk(r.1.left) && NameOk(r.1.right)
  {
    (line[0..3], Node(line[7..10], line[12..15]))
  }

  function FormatNodeLine(source: string, n: Node): string {
    source + " = (" + n.left + ", " + n.right + ")"
  }

  /** Reading a node line written in the puzzle's format gives back its
      names. */
  lemma ParseFormatNodeLine(source: string, n: Node)
    requires |source| == 3 && |n.left| == 3 && |n.right| == 3
    requires IsAscii(source) && IsAscii(n.left) && IsAscii(n.right)
    ensures NodeLine(FormatNodeLine(source, n))
    ensures ParseNodeLine(FormatNodeLine(source, n)) == (source, n)
  {
    var line := FormatNodeLine(source, n);
    assert line[0..3] == source;
    assert line[7..10] == n.left;
    assert line[12..15] == n.right;
  }

  /** The map built by inserting every node line in order; a later line for
      the same source replaces an earlier one. */
  function GraphOf(lines: seq<string>): (g: map<string, Node>)
    requires forall i :: 0 <= i < |lines| ==> NodeLine(lines[i])
    ensures forall k :: k in g ==> NameOk(k) && NameOk(g[k].left) && NameOk(g[k].right)
  {
    if lines == [] then map[]
    else
      var (source, node) := ParseNodeLine(lines[|lines| - 1]);
      GraphOf(lines[..|lines| - 1])[source := node]
  }

  /** A name is in the graph iff some line defines it. */
  lemma {:induction false} GraphOfHas(lines: seq<string>, name: string)
    requires forall i :: 0 <= i < |lines| ==> NodeLine(lines[i])
    ensures name in GraphOf(lines) <==> exists i :: 0 <= i < |lines| && ParseNodeLine(lines[i]).0 == name
  {
    if lines != [] {
      var last := |lines| - 1;
      var init := lines[..last];
      var source := ParseNodeLine(lines[last]).0;
      assert name in GraphOf(lines) <==> name == source || name in GraphOf(init);
      GraphOfHas(init, name);
      if name in GraphOf(init) {
        var i :| 0 <= i < |init| && ParseNodeLine(init[i]).0 == name;
        assert lines[i] == init[i];
      } else if name != source {
        forall i | 0 <= i < |lines|
          ensures ParseNodeLine(lines[i]).0 != name
        {
          if i < last {
            assert lines[i] == init[i];
          }
        }
      }
    }
  }

  /** A name in the graph maps to the node of the last line defining it;
      `i` is that line. */
  lemma {:induction false} GraphOfLast(lines: seq<string>, name: string) returns (i: nat)
    requires forall i :: 0 <= i < |lines| ==> NodeLine(lines[i])
    requires name in GraphOf(lines)
    ensures i < |lines| && ParseNodeLine(lines[i]) == (name, GraphOf(lines)[name])
    ensures forall j :: i < j < |lines| ==> ParseNodeLine(lines[j]).0 != name
  {
    var last := |lines| - 1;
    var init := lines[..last];
    if ParseNodeLine(lines[last]).0 == name {
      i := last;
    } else {
      assert GraphOf(lines)[name] == GraphOf(init)[name];
      i := GraphOfLast(init, name);
      assert lines[i] == init[i];
      forall j | i < j < |lines|
        ensures ParseNodeLine(lines[j]).0 != name
      {
        if j < last {
          assert lines[j] == init[j];
        }
      }
    }
  }

  /** The `for_each` of `part_one` that fills the `HashMap`. */
  method BuildGraph(lines: seq<string>) returns (graph: map<string, Node>)
    requires forall i :: 0 <= i < |lines| ==> NodeLine(lines[i])
    ensures graph == GraphOf(lines)
  {
    graph := map[];
    for i := 0 to |lines|
      invariant graph == GraphOf(lines[..i])
    {
      var line := lines[i];
      var source := line[0..3];
      var left := line[7..10];
      var right := line[12..15];
      assert lines[..i + 1][..i] == lines[..i];
      graph := graph[source := Node(left, right)];
    }
    assert lines[..|lines|] == lines;
  }

  /** One step of part one from `id` with the `i`-th instruction of the
      cycle: `None` where the source panics (an unknown node, an empty
      instruction line, a character other than L and R). */
  function Step(graph: map<string, Node>, dirs: string, id: string, i: nat): (r: Option<string>)
    ensures r.Some? ==> id in graph && |dirs| > 0
    ensures r.Some? ==> r.value == graph[id].left || r.value == graph[id].right
  {
    if id !in graph || |dirs| == 0 then None
    else if dirs[i % |dirs|] == 'L' then Some(graph[id].left)
    else if dirs[i % |dirs|] == 'R' then Some(graph[id].right)
    else None
  }

  /** The node after `k` steps from AAA, if the walk gets that far. */
  function Position(graph: map<string, Node>, dirs: string, k: nat): Option<string> {
    if k == 0 then Some("AAA")
    else match Position(graph, dirs, k - 1)
      case None => None
      case Some(id) => Step(graph, dirs, id, k - 1)
  }

  /** None of the first `n + 1` positions is ZZZ, and all exist. */
  ghost predicate NotYet(graph: map<string, Node>, dirs: string, n: nat) {
    forall m :: 0 <= m <= n ==> Position(graph, dirs, m).Some? && Position(graph, dirs, m).value != "ZZZ"
  }

  /** The loop of `part_one`: stop at ZZZ, otherwise look up the current
      node and follow the next instruction. The result is the least number
      of steps after which the walk stands on ZZZ. */
  method WalkToZZZ(graph: map<string, Node>, dirs: string, fuel: nat) returns (o: Outcome)
    ensures o.Reached? ==>
      Position(graph, dirs, o.steps) == Some("ZZZ") && (o.steps == 0 || NotYet(graph, dirs, o.steps - 1))
    ensures o.Panicked? ==> NotYet(graph, dirs, o.at) && Position(graph, dirs, o.at + 1).None?
    ensures o.OutOfFuel? ==> NotYet(graph, dirs, fuel)
  {
    var steps := 0;
    var currentId := "AAA";
    while true
      invariant Position(graph, dirs, steps) == Some(currentId)
      invariant steps <= fuel
      invariant steps == 0 || NotYet(graph, dirs, steps - 1)
      decreases fuel - steps
    {
      if currentId == "ZZZ" {
        return Reached(steps);
      }
      if steps == fuel {
        return OutOfFuel;
      }
      var next := Step(graph, dirs, currentId, steps);
      if next.None? {
        return Panicked(steps);
      }
      currentId := next.value;
      steps := steps + 1;
    }
  }

  /** `part_one`: the first line holds the instructions, the second is
      skipped, every further line is a node. */
  method PartOne(lines: seq<string>, fuel: nat) returns (o: Outcome)
    requires |lines| >= 1
    requires forall i :: 2 <= i < |lines| ==> NodeLine(lines[i])
    ensures var g := GraphOf(if |lines| < 2 then [] else lines[2..]);
      && (o.Reached? ==>
            Position(g, lines[0], o.steps) == Some("ZZZ") && (o.steps == 0 || NotYet(g, lines[0], o.steps - 1)))
      && (o.Panicked? ==> NotYet(g, lines[0], o.at) && Position(g, lines[0], o.at + 1).None?)
      && (o.OutOfFuel? ==> NotYet(g, lines[0], fuel))
  {
    var nodeLines := if |lines| < 2 then [] else lines[2..];
    var graph := BuildGraph(nodeLines);
    o := WalkToZZZ(graph, lines[0], fuel);
  }

  // Part two: names packed into 15 bits. The bit-vector operations sit
  // behind small functions so that each proof sees only the ones it needs.

  function And(a: bv16, b: bv16): bv16 { a & b }

  function Or(a: bv16, b: bv16): bv16 { a | b }

  /** An id as a table index (`as usize`). */
  function Slot(b: bv16): (s: nat)
    ensures s < 0x10000
  {
    b as int
  }

  /** The low five bits of a byte, widened to a 16-bit id. */
  function Mask5(b: bv8): (r: bv16)
    ensures r <= 31
  {
    (b & 0x1F) as bv16
  }

  /** The low five bits of an ASCII character, taken from its byte
      (`as_bytes()[i]`). */
  function Low5(c: char): (b: bv16)
    requires c as int < 128
    ensures b <= 31
  {
    Mask5(c as bv8)
  }

  /** The low five bits of character `i`, moved to bits `5 i` and up. */
  function Chunk(c: char, i: nat): bv16
    requires c as int < 128 && i < 3
  {
    Low5(c) << (i * 5)
  }

  /** The packed id of a name: the low five bits of each of its first three
      bytes, five bits per character, the first character lowest. */
  function Packed(name: string): (id: bv16)
    requires |name| >= 3 && IsAscii(name)
  {
    Low5(name[0]) + Low5(name[1]) * 32 + Low5(name[2]) * 1024
  }

  lemma OrIsAdd(x: bv16, y: bv16, z: bv16)
    requires x <= 31 && y <= 31 && z <= 31
    ensures Or(Or(x, y << 5), z << 10) == x + y * 32 + z * 1024
  {
  }

  lemma AddIsInt(x: bv16, y: bv16, z: bv16)
    requires x <= 31 && y <= 31 && z <= 31
    ensures Slot(x + y * 32 + z * 1024) == Slot(x) + 32 * Slot(y) + 1024 * Slot(z)
    ensures Slot(x + y * 32 + z * 1024) < 0x8000
  {
  }

  /** The value of a packed id: 1024 times the third five bits, plus 32
      times the second, plus the first; so it is below 2^15 and indexes the
      65535-entry table. */
  lemma PackedValue(name: string)
    requires |name| >= 3 && IsAscii(name)
    ensures Slot(Packed(name)) == Slot(Low5(name[0])) + 32 * Slot(Low5(name[1])) + 1024 * Slot(Low5(name[2]))
    ensures Slot(Packed(name)) < 0x8000
  {
    AddIsInt(Low5(name[0]), Low5(name[1]), Low5(name[2]));
  }

  /** `id_to_u16`: the low five bits of byte `i`, for the first three
      bytes, or-ed into the result shifted left by 5 `i` bits. */
  method IdToU16(input: string) returns (out: bv16)
    requires |input| >= 3 && IsAscii(input)
    ensures out == Packed(input)
    ensures Slot(out) < 0x8000
  {
    out := 0;
    for i := 0 to 3
      invariant out == PackedPrefix(input, i)
    {
      out := Or(out, Chunk(input[i], i));
    }
    PackedPrefixAll(input);
    PackedValue(input);
  }

  /** The value of `out` after the first `i` rounds of `id_to_u16`. */
  function PackedPrefix(input: string, i: nat): bv16
    requires i <= 3 && |input| >= 3 && IsAscii(input)
  {
    if i == 0 then 0 else Or(PackedPrefix(input, i - 1), Chunk(input[i - 1], i - 1))
  }

  lemma PackedPrefixAll(input: string)
    requires |input| >= 3 && IsAscii(input)
    ensures PackedPrefix(input, 3) == Packed(input)
  {
    var p1 := PackedPrefix(input, 1);
    var p2 := PackedPrefix(input, 2);
    assert PackedPrefix(input, 0) == 0;
    ZeroOr(Chunk(input[0], 0));
    assert p1 == Chunk(input[0], 0);
    ChunksAsShifts(input);
    OrIsAdd(Low5(input[0]), Low5(input[1]), Low5(input[2]));
  }

  lemma ZeroOr(b: bv16)
    ensures Or(0, b) == b
  {
  }

  lemma ChunksAsShifts(input: string)
    requires |input| >= 3 && IsAscii(input)
    ensures Chunk(input[0], 0) == Low5(input[0])
    ensures Chunk(input[1], 1) == Low5(input[1]) << 5
    ensures Chunk(input[2], 2) == Low5(input[2]) << 10
  {
  }

  lemma Unpack(x: bv16, y: bv16, z: bv16)
    requires x <= 31 && y <= 31 && z <= 31
    ensures And(x + y * 32 + z * 1024, 0x1F) == x
    ensures And((x + y * 32 + z * 1024) >> 5, 0x1F) == y
    ensures And((x + y * 32 + z * 1024) >> 10, 0x1F) == z
  {
  }

  lemma ByteValue(c: char)
    requires c as int < 128
    ensures (c as bv8) as int == c as int
  {
    SmallByte(c as int);
  }

  lemma SmallByte(n: nat)
    requires n < 256
    ensures (n as bv8) as int == n
  {
    ByteMod(n);
    SmallMod(n);
  }

  lemma ByteMod(n: nat)
    requires n < 256
    ensures (n as bv8) as int == n % 256
  {
  }

  lemma SmallMod(n: nat)
    requires n < 256
    ensures n % 256 == n
  {
  }

  lemma ByteRange(x: bv8, lo: bv8, hi: bv8)
    requires lo as int <= x as int <= hi as int
    ensures lo <= x <= hi
  {
  }

  lemma ByteIs(x: bv8, v: bv8)
    requires x as int == v as int
    ensures x == v
  {
  }

  /** Bytes of upper-case letters have distinct low five bits. */
  lemma Mask5Injective(x: bv8, y: bv8)
    requires 65 <= x <= 90 && 65 <= y <= 90 && Mask5(x) == Mask5(y)
    ensures x == y
  {
  }

  predicate IsUpper(c: char) { 'A' <= c <= 'Z' }

  /** Upper-case letters have distinct low five bits. */
  lemma Low5Injective(c: char, d: char)
    requires IsUpper(c) && IsUpper(d) && Low5(c) == Low5(d)
    ensures c == d
  {
    ByteValue(c);
    ByteValue(d);
    ByteRange((c as bv8), 65, 90);
    ByteRange((d as bv8), 65, 90);
    Mask5Injective((c as bv8), (d as bv8));
  }

  /** On names over A–Z the packing is injective: two names share a table
      entry only when their first three characters agree. */
  lemma PackedInjective(a: string, b: string)
    requires |a| >= 3 && |b| >= 3 && IsAscii(a) && IsAscii(b)
    requires forall i :: 0 <= i < 3 ==> IsUpper(a[i]) && IsUpper(b[i])
    requires Packed(a) == Packed(b)
    ensures a[..3] == b[..3]
  {
    Unpack(Low5(a[0]), Low5(a[1]), Low5(a[2]));
    Unpack(Low5(b[0]), Low5(b[1]), Low5(b[2]));
    Low5Injective(a[0], b[0]);
    Low5Injective(a[1], b[1]);
    Low5Injective(a[2], b[2]);
  }

  /** Outside A–Z it is not: the digit '0' packs like 'P'. */
  lemma DigitsCollide()
    ensures Packed("0AA") == Packed("PAA")
  {
  }

  /** The bitwise AND of a list of ids, starting from `u16::MAX`. */
  function AndAll(ids: seq<bv16>): bv16 {
    if ids == [] then 0xFFFF else And(AndAll(ids[..|ids| - 1]), ids[|ids| - 1])
  }

  /** The stop test of `part_two`: bits 10 to 14 of the AND read 0b11010. */
  predicate AllAtZ(combined: bv16) {
    And(combined, 0x7C00) == 0x6800
  }

  predicate NameChar(c: char) { IsUpper(c) || '0' <= c <= '9' }

  lemma HighBits(x: bv16, y: bv16, z: bv16)
    requires x <= 31 && y <= 31 && z <= 31
    ensures And(x + y * 32 + z * 1024, 0x7C00) == z << 10
    ensures And(x + y * 32 + z * 1024, 0x6800) == And(z << 10, 0x6800)
  {
  }

  /** Among the bytes of letters and digits only that of 'Z' has the bits
      of 0b11010 in its low five. */
  lemma ZByte(b: bv8)
    requires (65 <= b <= 90) || (48 <= b <= 57)
    ensures (And(Mask5(b) << 10, 0x6800) == 0x6800) <==> b == 90
    ensures b == 90 ==> Mask5(b) << 10 == 0x6800
  {
  }

  lemma ZBits(c: char)
    requires NameChar(c)
    ensures (And(Low5(c) << 10, 0x6800) == 0x6800) <==> c == 'Z'
    ensures c == 'Z' ==> Low5(c) << 10 == 0x6800
  {
    ByteValue(c);
    if IsUpper(c) {
      ByteRange((c as bv8), 65, 90);
    } else {
      ByteRange((c as bv8), 48, 57);
    }
    ZByte(c as bv8);
    if c == 'Z' {
      ByteIs((c as bv8), 90);
    }
  }

  /** Bits 10 to 14 of a packed id are the low bits of its third character;
      among letters and digits they include the bits of 0b11010 only for
      'Z'. */
  lemma ThirdBits(name: string)
    requires |name| >= 3 && IsAscii(name) && NameChar(name[2])
    ensures (And(Packed(name), 0x6800) == 0x6800) <==> name[2] == 'Z'
    ensures name[2] == 'Z' ==> And(Packed(name), 0x7C00) == 0x6800
  {
    HighBits(Low5(name[0]), Low5(name[1]), Low5(name[2]));
    ZBits(name[2]);
  }

  lemma AndAssoc(a: bv16, b: bv16, c: bv16)
    requires And(a, c) == a
    ensures And(And(a, b), c) == And(a, b)
  {
  }

  lemma AndIdem(a: bv16, b: bv16)
    ensures And(And(a, b), b) == And(a, b)
  {
  }

  /** The AND of a list has no bit that one of its ids lacks. */
  lemma {:induction false} AndAllBelow(ids: seq<bv16>, i: nat)
    requires i < |ids|
    ensures And(AndAll(ids), ids[i]) == AndAll(ids)
  {
    var n := |ids| - 1;
    var init := ids[..n];
    if i < n {
      assert init[i] == ids[i];
      AndAllBelow(init, i);
      AndAssoc(AndAll(init), ids[n], ids[i]);
    } else {
      AndIdem(AndAll(init), ids[n]);
    }
  }

  lemma AndMax(a: bv16, mask: bv16)
    ensures And(And(0xFFFF, a), mask) == And(a, mask)
  {
  }

  lemma AndMask(a: bv16, b: bv16, mask: bv16, v: bv16)
    requires And(a, mask) == v && And(b, mask) == v
    ensures And(And(a, b), mask) == v
  {
  }

  /** Bits that every id has under a mask, the AND has too. */
  lemma {:induction false} AndAllSame(ids: seq<bv16>, mask: bv16, v: bv16)
    requires |ids| >= 1
    requires forall i :: 0 <= i < |ids| ==> And(ids[i], mask) == v
    ensures And(AndAll(ids), mask) == v
  {
    var n := |ids| - 1;
    var init := ids[..n];
    if n == 0 {
      assert init == [];
      AndMax(ids[0], mask);
    } else {
      assert forall i :: 0 <= i < |init| ==> init[i] == ids[i];
      AndAllSame(init, mask, v);
      AndMask(AndAll(init), ids[n], mask, v);
    }
  }

  lemma AndSuperset(a: bv16, b: bv16)
    requires And(a, b) == a && And(a, 0x7C00) == 0x6800
    ensures And(b, 0x6800) == 0x6800
  {
  }

  function PackedAll(names: seq<string>): (ids: seq<bv16>)
    requires forall i :: 0 <= i < |names| ==> |names[i]| >= 3 && IsAscii(names[i])
    ensures |ids| == |names|
    ensures forall i :: 0 <= i < |names| ==> ids[i] == Packed(names[i])
  {
    seq(|names|, i requires 0 <= i < |names| => Packed(names[i]))
  }

  /** For a non-empty list of names over A–Z and 0–9, the stop test holds
      exactly when every name ends in 'Z'. */
  lemma AllAtZIff(names: seq<string>)
    requires |names| >= 1
    requires forall i :: 0 <= i < |names| ==> |names[i]| >= 3 && IsAscii(names[i]) && NameChar(names[i][2])
    ensures AllAtZ(AndAll(PackedAll(names))) <==> forall i :: 0 <= i < |names| ==> names[i][2] == 'Z'
  {
    var ids := PackedAll(names);
    if AllAtZ(AndAll(ids)) {
      forall i | 0 <= i < |names| ensures names[i][2] == 'Z' {
        AndAllBelow(ids, i);
        AndSuperset(AndAll(ids), ids[i]);
        ThirdBits(names[i]);
      }
    }
    if forall i :: 0 <= i < |names| ==> names[i][2] == 'Z' {
      forall i | 0 <= i < |ids| ensures And(ids[i], 0x7C00) == 0x6800 {
        ThirdBits(names[i]);
      }
      AndAllSame(ids, 0x7C00, 0x6800);
    }
  }

  /** With no start nodes the AND stays `u16::MAX` and the test never
      holds, so that walk never stops. */
  lemma NoStartsNeverStop()
    ensures !AllAtZ(AndAll([]))
  {
  }

  /** `FastNode`: the packed successors. */
  /** A packed id: fifteen bits, so below the table's length. */
  type Id = x: bv16 | x as int < 0x8000

  /** A table entry (`FastNode`): the packed ids of the two successors. */
  datatype FastNode = FastNode(left: Id, right: Id)

  datatype Direction = Left | Right

  /** The instruction line of `part_two`, read up front; any character
      other than L and R panics. */
  function ParseDirections(s: string): (r: Option<seq<Direction>>)
    ensures r.Some? <==> forall i :: 0 <= i < |s| ==> s[i] == 'L' || s[i] == 'R'
    ensures r.Some? ==> |r.value| == |s| && forall i :: 0 <= i < |s| ==> (r.value[i] == Left <==> s[i] == 'L')
  {
    if s == [] then Some([])
    else
      var rest := ParseDirections(s[1..]);
      assert forall i :: 1 <= i < |s| ==> s[i] == s[1..][i - 1];
      if rest.None? || (s[0] != 'L' && s[0] != 'R') then None
      else Some([if s[0] == 'L' then Left else Right] + rest.value)
  }

  /** `u16::MAX as usize` entries. */
  const TableSize: nat := 0xFFFF

  predicate InTable(ids: seq<bv16>) {
    forall i :: 0 <= i < |ids| ==> Slot(ids[i]) < 0x8000
  }

  predicate TableOk(table: seq<FastNode>) {
    |table| == TableSize
  }

  /** A packed name as an `Id`. */
  function PackedId(name: string): (id: Id)
    requires |name| >= 3 && IsAscii(name)
    ensures id == Packed(name)
  {
    PackedValue(name);
    Packed(name)
  }

  /** The entry a node line writes. */
  function Entry(line: string): (e: (nat, FastNode))
    requires NodeLine(line)
    ensures e.0 < 0x8000
  {
    var (source, node) := ParseNodeLine(line);
    (Slot(PackedId(source)), FastNode(PackedId(node.left), PackedId(node.right)))
  }

  /** The entries of the node lines, in order. */
  function EntriesOf(lines: seq<string>): (es: seq<(nat, FastNode)>)
    requires forall i :: 0 <= i < |lines| ==> NodeLine(lines[i])
    ensures |es| == |lines| && forall i :: 0 <= i < |lines| ==> es[i] == Entry(lines[i])
  {
    seq(|lines|, i requires 0 <= i < |lines| => Entry(lines[i]))
  }

  predicate InRange(es: seq<(nat, FastNode)>) {
    forall k :: 0 <= k < |es| ==> es[k].0 < TableSize
  }

  /** `(0, 0)` everywhere, then each entry written in turn. */
  function Fill(es: seq<(nat, FastNode)>): (t: seq<FastNode>)
    requires InRange(es)
    ensures TableOk(t)
  {
    if es == [] then seq(TableSize, _ => FastNode(0, 0))
    else Fill(es[..|es| - 1])[es[|es| - 1].0 := es[|es| - 1].1]
  }

  /** The table after the node lines: each line's packed successors at its
      packed source, later lines winning. */
  function TableOf(lines: seq<string>): (t: seq<FastNode>)
    requires forall i :: 0 <= i < |lines| ==> NodeLine(lines[i])
    ensures TableOk(t)
  {
    Fill(EntriesOf(lines))
  }

  /** A slot that no entry writes keeps `(0, 0)`. */
  lemma {:induction false} FillUnset(es: seq<(nat, FastNode)>, s: nat)
    requires InRange(es) && s < TableSize
    requires forall i :: 0 <= i < |es| ==> es[i].0 != s
    ensures Fill(es)[s] == FastNode(0, 0)
  {
    if es != [] {
      var init := es[..|es| - 1];
      assert forall i :: 0 <= i < |init| ==> init[i] == es[i];
      FillUnset(init, s);
    }
  }

  /** Otherwise a slot holds the last entry written to it. */
  lemma {:induction false} FillLast(es: seq<(nat, FastNode)>, i: nat)
    requires InRange(es) && i < |es|
    requires forall j :: i < j < |es| ==> es[j].0 != es[i].0
    ensures Fill(es)[es[i].0] == es[i].1
  {
    var init := es[..|es| - 1];
    if i < |es| - 1 {
      assert forall j :: 0 <= j < |init| ==> init[j] == es[j];
      FillLast(init, i);
    }
  }

  /** A slot that no line's source packs to keeps `(0, 0)`. */
  lemma TableOfUnset(lines: seq<string>, s: nat)
    requires forall i :: 0 <= i < |lines| ==> NodeLine(lines[i])
    requires s < TableSize
    requires forall i :: 0 <= i < |lines| ==> Entry(lines[i]).0 != s
    ensures TableOf(lines)[s] == FastNode(0, 0)
  {
    FillUnset(EntriesOf(lines), s);
  }

  /** Otherwise a slot holds the entry of the last line whose source packs
      to it. */
  lemma TableOfLast(lines: seq<string>, i: nat)
    requires forall i :: 0 <= i < |lines| ==> NodeLine(lines[i])
    requires i < |lines|
    requires forall j :: i < j < |lines| ==> Entry(lines[j]).0 != Entry(lines[i]).0
    ensures TableOf(lines)[Entry(lines[i]).0] == Entry(lines[i]).1
  {
    FillLast(EntriesOf(lines), i);
  }

  lemma SlotEq(x: bv16, y: bv16)
    ensures Slot(x) == Slot(y) ==> x == y
  {
    assert x == (x as int) as bv16;
    assert y == (y as int) as bv16;
  }

  /** Distinct upper-case names pack to distinct slots. */
  lemma SlotInjective(a: string, b: string)
    requires |a| == 3 && |b| == 3 && IsAscii(a) && IsAscii(b)
    requires forall i :: 0 <= i < 3 ==> IsUpper(a[i]) && IsUpper(b[i])
    ensures Slot(Packed(a)) == Slot(Packed(b)) ==> a == b
  {
    SlotEq(Packed(a), Packed(b));
    if Packed(a) == Packed(b) {
      PackedInjective(a, b);
      assert a == a[..3] && b == b[..3];
    }
  }

  predicate UpperSources(lines: seq<string>) {
    forall i, k :: 0 <= i < |lines| && 0 <= k < 3 <= |lines[i]| ==> IsUpper(lines[i][k])
  }

  /** Two node lines with upper-case sources write the same slot only when
      their sources agree. */
  lemma SameSlot(lines: seq<string>, i: nat, j: nat)
    requires forall i :: 0 <= i < |lines| ==> NodeLine(lines[i])
    requires UpperSources(lines) && i < |lines| && j < |lines|
    ensures Entry(lines[i]).0 == Entry(lines[j]).0 ==> lines[i][0..3] == lines[j][0..3]
  {
    var a, b := lines[i][0..3], lines[j][0..3];
    assert forall k :: 0 <= k < 3 ==> a[k] == lines[i][k] && b[k] == lines[j][k];
    SlotInjective(a, b);
  }

  /** When every source name is upper-case, the table of `part_two` holds
      at a packed name the packed successors that the map of `part_one`
      holds at that name. */
  lemma TableAgreesWithGraph(lines: seq<string>, name: string)
    requires forall i :: 0 <= i < |lines| ==> NodeLine(lines[i])
    requires UpperSources(lines)
    requires name in GraphOf(lines)
    ensures TableOf(lines)[Slot(PackedId(name))]
      == FastNode(PackedId(GraphOf(lines)[name].left), PackedId(GraphOf(lines)[name].right))
  {
    var i := GraphOfLast(lines, name);
    forall j | i < j < |lines| ensures Entry(lines[j]).0 != Entry(lines[i]).0 {
      SameSlot(lines, i, j);
    }
    TableOfLast(lines, i);
  }

  /** The packed sources that end in 'A', in line order. */
  function StartsOf(lines: seq<string>): (s: seq<bv16>)
    requires forall i :: 0 <= i < |lines| ==> NodeLine(lines[i])
    ensures InTable(s)
    ensures |s| <= |lines|
  {
    if lines == [] then []
    else
      var line := lines[|lines| - 1];
      var e := Entry(line);
      StartsOf(lines[..|lines| - 1]) + (if line[2] == 'A' then [Packed(line[0..3])] else [])
  }

  /** The body of the `for_each` of `part_two`. */
  method AddNode(graph: array<FastNode>, line: string) returns (source: bv16, isStart: bool)
    requires NodeLine(line) && graph.Length == TableSize
    modifies graph
    ensures graph[..] == old(graph[..])[Entry(line).0 := Entry(line).1]
    ensures source == Packed(line[0..3])
    ensures isStart <==> line[2] == 'A'
  {
    var sourceStr := line[0..3];
    source := IdToU16(sourceStr);
    isStart := sourceStr[2] == 'A';
    var left := IdToU16(line[7..10]);
    var right := IdToU16(line[12..15]);
    graph[Slot(source)] := FastNode(left, right);
  }

  lemma TablePrefix(lines: seq<string>, i: nat)
    requires forall i :: 0 <= i < |lines| ==> NodeLine(lines[i])
    requires i < |lines|
    ensures TableOf(lines[..i + 1]) == TableOf(lines[..i])[Entry(lines[i]).0 := Entry(lines[i]).1]
    ensures StartsOf(lines[..i + 1]) == StartsOf(lines[..i]) + (if lines[i][2] == 'A' then [Packed(lines[i][0..3])] else [])
  {
    assert lines[..i + 1][..i] == lines[..i];
    assert EntriesOf(lines[..i + 1])[..i] == EntriesOf(lines[..i]);
  }

  /** The table of `u16::MAX` nodes, every one with both successors 0. */
  method NewTable() returns (graph: array<FastNode>)
    ensures fresh(graph)
    ensures graph[..] == TableOf([])
  {
    graph := new FastNode[TableSize](_ => FastNode(0, 0));
  }

  /** The node lines of `part_two`: the start nodes are pushed and the
      table entries written. */
  method BuildTable(lines: seq<string>) returns (graph: array<FastNode>, currentNodes: seq<bv16>)
    requires forall i :: 0 <= i < |lines| ==> NodeLine(lines[i])
    ensures fresh(graph)
    ensures graph[..] == TableOf(lines)
    ensures currentNodes == StartsOf(lines)
  {
    graph := NewTable();
    currentNodes := [];
    assert lines[..0] == [];
    for i := 0 to |lines|
      invariant graph.Length == TableSize
      invariant graph[..] == TableOf(lines[..i])
      invariant currentNodes == StartsOf(lines[..i])
    {
      currentNodes := AddLine(graph, lines, i, currentNodes);
    }
    assert lines[..|lines|] == lines;
  }

  /** One turn of the `for_each` over the node lines. */
  method AddLine(graph: array<FastNode>, lines: seq<string>, i: nat, nodes: seq<bv16>) returns (next: seq<bv16>)
    requires forall i :: 0 <= i < |lines| ==> NodeLine(lines[i])
    requires i < |lines| && graph.Length == TableSize
    requires graph[..] == TableOf(lines[..i]) && nodes == StartsOf(lines[..i])
    modifies graph
    ensures graph[..] == TableOf(lines[..i + 1])
    ensures next == StartsOf(lines[..i + 1])
  {
    TablePrefix(lines, i);
    var source, isStart := AddNode(graph, lines[i]);
    next := if isStart then nodes + [source] else nodes;
  }

  /** The successor of one node. */
  function Next(table: seq<FastNode>, d: Direction, id: bv16): (r: bv16)
    requires TableOk(table) && Slot(id) < 0x8000
    ensures Slot(r) < 0x8000
  {
    if d == Left then table[Slot(id)].left else table[Slot(id)].right
  }

  /** Every node moved by one instruction. */
  function Advance(table: seq<FastNode>, d: Direction, ids: seq<bv16>): (r: seq<bv16>)
    requires TableOk(table) && InTable(ids)
    ensures |r| == |ids| && InTable(r)
    ensures forall i :: 0 <= i < |ids| ==> r[i] == Next(table, d, ids[i])
  {
    seq(|ids|, i requires 0 <= i < |ids| => Next(table, d, ids[i]))
  }

  /** The nodes after `k` lockstep steps. */
  function NodesAfter(table: seq<FastNode>, dirs: seq<Direction>, starts: seq<bv16>, k: nat): (r: seq<bv16>)
    requires TableOk(table) && |dirs| > 0 && InTable(starts)
    ensures |r| == |starts| && InTable(r)
  {
    if k == 0 then starts
    else Advance(table, dirs[(k - 1) % |dirs|], NodesAfter(table, dirs, starts, k - 1))
  }

  /** One pass of the inner loop: every current id and-ed into `combined`,
      and every current node stepped. */
  method StepAll(graph: array<FastNode>, d: Direction, nodes: seq<bv16>) returns (combined: bv16, next: seq<bv16>)
    requires TableOk(graph[..]) && InTable(nodes)
    ensures combined == AndAll(nodes)
    ensures next == Advance(graph[..], d, nodes)
  {
    combined := 0xFFFF;
    next := nodes;
    for i := 0 to |nodes|
      invariant |next| == |nodes|
      invariant combined == AndAll(nodes[..i])
      invariant forall a :: i <= a < |nodes| ==> next[a] == nodes[a]
      invariant forall a :: 0 <= a < i ==> next[a] == Next(graph[..], d, nodes[a])
    {
      assert nodes[..i + 1][..i] == nodes[..i];
      combined := And(combined, next[i]);
      var currentNode := graph[Slot(next[i])];
      next := next[i := if d == Left then currentNode.left else currentNode.right];
    }
    assert nodes[..|nodes|] == nodes;
  }

  /** No node list among the first `n` passes the stop test. */
  predicate NoneBefore(table: seq<FastNode>, dirs: seq<Direction>, starts: seq<bv16>, n: nat)
    requires TableOk(table) && |dirs| > 0 && InTable(starts)
  {
    forall m :: 0 <= m < n ==> !AllAtZ(AndAll(NodesAfter(table, dirs, starts, m)))
  }

  /** The lockstep walk of `part_two`: the test looks at the nodes before
      each step, so the result is the least `k` at which the current nodes
      pass it. */
  method Lockstep(graph: array<FastNode>, dirs: seq<Direction>, starts: seq<bv16>, fuel: nat) returns (o: Outcome)
    requires TableOk(graph[..]) && InTable(starts)
    ensures o.Panicked? <==> |dirs| == 0
    ensures o.Reached? ==>
      |dirs| > 0 && AllAtZ(AndAll(NodesAfter(graph[..], dirs, starts, o.steps))) && NoneBefore(graph[..], dirs, starts, o.steps)
    ensures o.OutOfFuel? ==> |dirs| > 0 && NoneBefore(graph[..], dirs, starts, fuel)
  {
    if |dirs| == 0 {
      return Panicked(0);
    }
    var steps := 0;
    var directionIdx := 0;
    var currentNodes := starts;
    while steps < fuel
      invariant steps <= fuel && directionIdx == steps
      invariant currentNodes == NodesAfter(graph[..], dirs, starts, steps)
      invariant NoneBefore(graph[..], dirs, starts, steps)
    {
      var direction := dirs[directionIdx % |dirs|];
      directionIdx := directionIdx + 1;
      var combined;
      combined, currentNodes := StepAll(graph, direction, currentNodes);
      if AllAtZ(combined) {
        return Reached(steps);
      }
      NoneBeforeStep(graph[..], dirs, starts, steps);
      steps := steps + 1;
    }
    return OutOfFuel;
  }

  lemma NoneBeforeStep(table: seq<FastNode>, dirs: seq<Direction>, starts: seq<bv16>, n: nat)
    requires TableOk(table) && |dirs| > 0 && InTable(starts)
    requires NoneBefore(table, dirs, starts, n)
    requires !AllAtZ(AndAll(NodesAfter(table, dirs, starts, n)))
    ensures NoneBefore(table, dirs, starts, n + 1)
    ensures NodesAfter(table, dirs, starts, n + 1) == Advance(table, dirs[n % |dirs|], NodesAfter(table, dirs, starts, n))
  {
  }

  /** `part_two`. An instruction line with another character panics while
      it is read; an empty one panics on `% 0`. */
  method PartTwo(lines: seq<string>, fuel: nat) returns (o: Outcome)
    requires |lines| >= 1
    requires forall i :: 2 <= i < |lines| ==> NodeLine(lines[i])
    ensures ParseDirections(lines[0]).None? ==> o == Panicked(0)
    ensures ParseDirections(lines[0]).Some? ==>
      var nodeLines := if |lines| < 2 then [] else lines[2..];
      var table, dirs, starts := TableOf(nodeLines), ParseDirections(lines[0]).value, StartsOf(nodeLines);
      && (o.Panicked? <==> |dirs| == 0)
      && (o.Reached? ==>
            |dirs| > 0 && AllAtZ(AndAll(NodesAfter(table, dirs, starts, o.steps))) && NoneBefore(table, dirs, starts, o.steps))
      && (o.OutOfFuel? ==> |dirs| > 0 && NoneBefore(table, dirs, starts, fuel))
  {
    var directions := ParseDirections(lines[0]);
    if directions.None? {
      return Panicked(0);
    }
    var nodeLines := if |lines| < 2 then [] else lines[2..];
    var graph, currentNodes := BuildTable(nodeLines);
    o := Lockstep(graph, directions.value, currentNodes, fuel);
  }
}
