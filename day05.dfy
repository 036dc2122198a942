/**
 * Day 5, seed almanac: a chain of mappers, each a list of ranges that shift
 * a source interval onto a destination interval, applied to seeds.
 */
module Day05 {
  import opened Wrappers

  /** One line of a map: destination start, source start, length. */
  datatype Mapping = Mapping(dest: nat, src: nat, len: nat)

  /** `Mapping::from_string` on the three parsed numbers of the line, which
      come in the order destination, source, length. */
  function MappingFromFields(fields: seq<nat>): (m: Mapping)
    requires |fields| >= 3
    ensures (m.dest, m.src, m.len) == (fields[0], fields[1], fields[2])
  {
    Mapping(fields[0], fields[1], fields[2])
  }

  predicate InSource(m: Mapping, v: nat) {
    m.src <= v < m.src + m.len
  }

  predicate InDest(m: Mapping, w: nat) {
    m.dest <= w < m.dest + m.len
  }

  /** `map_if_in_range`: the shifted value inside the source interval. */
  function MapIfInRange(m: Mapping, v: nat): (r: Option<nat>)
    ensures r.Some? <==> InSource(m, v)
    ensures r.Some? ==> InDest(m, r.value)
  {
    if v >= m.src && v < m.src + m.len then Some(m.dest + (v - m.src)) else None
  }

  /** The inverse shift, from the destination interval back. */
  function Unmap(m: Mapping, w: nat): (r: Option<nat>)
    ensures r.Some? <==> InDest(m, w)
  {
    if InDest(m, w) then Some(m.src + (w - m.dest)) else None
  }

  /** A mapping is a bijection from its source interval onto its
      destination interval. */
  lemma MapUnmap(m: Mapping, v: nat, w: nat)
    ensures MapIfInRange(m, v) == Some(w) <==> Unmap(m, w) == Some(v)
  {
  }

  lemma MapInjective(m: Mapping, v: nat, v': nat)
    requires MapIfInRange(m, v).Some? && MapIfInRange(m, v) == MapIfInRange(m, v')
    ensures v == v'
  {
    MapUnmap(m, v, MapIfInRange(m, v).value);
    MapUnmap(m, v', MapIfInRange(m, v).value);
  }

  /** `Mapper::map`: the first mapping in list order whose source interval
      holds the value decides; the identity when none does. */
  function MapValue(mappings: seq<Mapping>, v: nat): (r: nat)
    ensures (forall i :: 0 <= i < |mappings| ==> !InSource(mappings[i], v)) ==> r == v
    ensures (exists i :: 0 <= i < |mappings| && InSource(mappings[i], v)) ==>
      exists i :: 0 <= i < |mappings| && InSource(mappings[i], v)
        && (forall k :: 0 <= k < i ==> !InSource(mappings[k], v))
        && Some(r) == MapIfInRange(mappings[i], v)
  {
    if mappings == [] then v
    else match MapIfInRange(mappings[0], v)
      case Some(w) => w
      case None =>
        var rest := mappings[1..];
        assert forall i :: 1 <= i < |mappings| ==> mappings[i] == rest[i - 1];
        var r := MapValue(rest, v);
        if exists i :: 0 <= i < |rest| && InSource(rest[i], v) then
          var i :| 0 <= i < |rest| && InSource(rest[i], v)
            && (forall k :: 0 <= k < i ==> !InSource(rest[k], v))
            && Some(r) == MapIfInRange(rest[i], v);
          assert InSource(mappings[i + 1], v);
          r
        else
          r
  }

  /** The chain of mappers applied left to right. */
  function Compose(almanac: seq<seq<Mapping>>, v: nat): nat
    decreases |almanac|
  {
    if almanac == [] then v else Compose(almanac[1..], MapValue(almanac[0], v))
  }

  lemma {:induction false} ComposeAppend(a: seq<seq<Mapping>>, b: seq<seq<Mapping>>, v: nat)
    ensures Compose(a + b, v) == Compose(b, Compose(a, v))
    decreases |a|
  {
    if a == [] {
      assert a + b == b;
    } else {
      assert (a + b)[0] == a[0];
      assert (a + b)[1..] == a[1..] + b;
      ComposeAppend(a[1..], b, MapValue(a[0], v));
    }
  }

  /** `Almanac::map_seed_to_location`: the loop over the mappers. */
  method MapSeedToLocation(almanac: seq<seq<Mapping>>, seed: nat) returns (value: nat)
    ensures value == Compose(almanac, seed)
  {
    value := seed;
    var i := 0;
    while i < |almanac|
      invariant 0 <= i <= |almanac|
      invariant value == Compose(almanac[..i], seed)
    {
      ComposeAppend(almanac[..i], [almanac[i]], seed);
      assert almanac[..i + 1] == almanac[..i] + [almanac[i]];
      value := MapValue(almanac[i], value);
      i := i + 1;
    }
    assert almanac[..i] == almanac;
  }

  const U64Max: nat := 0xFFFF_FFFF_FFFF_FFFF

  /** The least of `acc` and the locations of the seeds, the fold of
      `part_one` that keeps the smaller value. */
  function MinLocation(almanac: seq<seq<Mapping>>, seeds: seq<nat>, acc: nat): (r: nat)
    ensures r <= acc
    ensures forall i :: 0 <= i < |seeds| ==> r <= Compose(almanac, seeds[i])
    ensures r == acc || exists i :: 0 <= i < |seeds| && r == Compose(almanac, seeds[i])
  {
    if seeds == [] then acc
    else
      var loc := Compose(almanac, seeds[0]);
      var rest := seeds[1..];
      assert forall i :: 1 <= i < |seeds| ==> seeds[i] == rest[i - 1];
      MinLocation(almanac, rest, if loc < acc then loc else acc)
  }

  /** `part_one`: the lowest location of the listed seeds, `u64::MAX` when
      there are none. */
  function PartOne(almanac: seq<seq<Mapping>>, seeds: seq<nat>): (r: nat)
    ensures seeds == [] ==> r == U64Max
    ensures forall i :: 0 <= i < |seeds| ==> r <= Compose(almanac, seeds[i])
    ensures r == U64Max || exists i :: 0 <= i < |seeds| && r == Compose(almanac, seeds[i])
  {
    MinLocation(almanac, seeds, U64Max)
  }

  /** `chunks(2)` followed by two `unwrap`s: an odd count panics. */
  function Pairs(values: seq<nat>): (r: seq<(nat, nat)>)
    requires |values| % 2 == 0
    ensures |r| * 2 == |values|
    ensures forall i :: 0 <= i < |r| ==> r[i] == (values[2 * i], values[2 * i + 1])
  {
    if values == [] then []
    else
      var rest := Pairs(values[2..]);
      [(values[0], values[1])] + rest
  }

  /** The consecutive values `a, a + 1, .., a + b - 1`. */
  function Range(a: nat, b: nat): (r: seq<nat>)
    ensures |r| == b
    ensures forall i :: 0 <= i < b ==> r[i] == a + i
  {
    if b == 0 then [] else Range(a, b - 1) + [a + b - 1]
  }

  /** Every range's values, range after range, as `part_two` flattens them. */
  function Expand(ranges: seq<(nat, nat)>): (r: seq<nat>)
    ensures forall v :: v in r <==> exists i :: 0 <= i < |ranges| && ranges[i].0 <= v < ranges[i].0 + ranges[i].1
  {
    if ranges == [] then []
    else
      var head := Range(ranges[0].0, ranges[0].1);
      var rest := ranges[1..];
      assert forall i :: 1 <= i < |ranges| ==> ranges[i] == rest[i - 1];
      assert forall v :: v in head <==> ranges[0].0 <= v < ranges[0].0 + ranges[0].1 by {
        forall v | ranges[0].0 <= v < ranges[0].0 + ranges[0].1 ensures v in head {
          assert head[v - ranges[0].0] == v;
        }
      }
      head + Expand(rest)
  }

  /** `part_two`: the seed line read as (start, length) pairs. */
  function PartTwo(almanac: seq<seq<Mapping>>, seedLine: seq<nat>): (r: nat)
    requires |seedLine| % 2 == 0
    ensures forall v :: v in Expand(Pairs(seedLine)) ==> r <= Compose(almanac, v)
    ensures r == U64Max || exists v :: v in Expand(Pairs(seedLine)) && r == Compose(almanac, v)
  {
    var seeds := Expand(Pairs(seedLine));
    var r := PartOne(almanac, seeds);
    assert forall v :: v in seeds ==> r <= Compose(almanac, v) by {
      forall v | v in seeds ensures r <= Compose(almanac, v) {
        var i :| 0 <= i < |seeds| && seeds[i] == v;
      }
    }
    if r == U64Max then r
    else
      var i :| 0 <= i < |seeds| && r == Compose(almanac, seeds[i]);
      assert seeds[i] in seeds;
      r
  }

  /** A range with zero length contributes no seed. */
  lemma EmptyRange(a: nat)
    ensures Expand([(a, 0)]) == []
  {
    assert Range(a, 0) == [];
  }
}
