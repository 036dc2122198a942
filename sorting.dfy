/**
 * A stable insertion sort over a total preorder, standing for Rust's
 * `slice::sort` and for the `sorted` of itertools, both stable.
 */
module Sorting {

  ghost predicate TotalPreorder<T(!new)>(le: (T, T) -> bool) {
    && (forall x, y :: le(x, y) || le(y, x))
    && (forall x, y, z :: le(x, y) && le(y, z) ==> le(x, z))
  }

  predicate SortedBy<T>(s: seq<T>, le: (T, T) -> bool) {
    forall i, j :: 0 <= i < j < |s| ==> le(s[i], s[j])
  }

  /** Inserts `x` after every element of `s` that is not above it, so that
      among equivalent elements the one inserted last comes last. */
  function Insert<T>(s: seq<T>, x: T, le: (T, T) -> bool): (r: seq<T>)
    ensures |r| == |s| + 1
    ensures multiset(r) == multiset(s) + multiset{x}
  {
    if s == [] then [x]
    else if le(s[|s| - 1], x) then s + [x]
    else
      var front := s[..|s| - 1];
      assert s == front + [s[|s| - 1]];
      Insert(front, x, le) + [s[|s| - 1]]
  }

  function Sort<T>(s: seq<T>, le: (T, T) -> bool): (r: seq<T>)
    ensures |r| == |s|
    ensures multiset(r) == multiset(s)
  {
    if s == [] then []
    else
      var front := s[..|s| - 1];
      assert s == front + [s[|s| - 1]];
      Insert(Sort(front, le), s[|s| - 1], le)
  }

  lemma {:induction false} InsertSorted<T(!new)>(s: seq<T>, x: T, le: (T, T) -> bool)
    requires TotalPreorder(le)
    requires SortedBy(s, le)
    ensures SortedBy(Insert(s, x, le), le)
    decreases |s|
  {
    if s == [] {
    } else if le(s[|s| - 1], x) {
      var r := s + [x];
      forall i, j | 0 <= i < j < |r| ensures le(r[i], r[j]) {
        if j == |s| && i < |s| - 1 {
          assert le(s[i], s[|s| - 1]);
        }
      }
    } else {
      var front := s[..|s| - 1];
      var last := s[|s| - 1];
      assert le(x, last);
      InsertSorted(front, x, le);
      var ins := Insert(front, x, le);
      var r := ins + [last];
      forall i, j | 0 <= i < j < |r| ensures le(r[i], r[j]) {
        if j == |ins| {
          assert r[i] in multiset(ins);
          assert r[i] in multiset(front) || r[i] == x;
          if r[i] != x {
            assert r[i] in front;
            var k :| 0 <= k < |front| && front[k] == r[i];
            assert le(s[k], s[|s| - 1]);
          }
        }
      }
    }
  }

  lemma {:induction false} SortSorted<T(!new)>(s: seq<T>, le: (T, T) -> bool)
    requires TotalPreorder(le)
    ensures SortedBy(Sort(s, le), le)
    decreases |s|
  {
    if s != [] {
      SortSorted(s[..|s| - 1], le);
      InsertSorted(Sort(s[..|s| - 1], le), s[|s| - 1], le);
    }
  }

  /** The elements of `s` equivalent to `k` under `le`, in their order in `s`. */
  function Ties<T>(s: seq<T>, k: T, le: (T, T) -> bool): (r: seq<T>)
    ensures |r| <= |s|
  {
    if s == [] then []
    else
      var x := s[|s| - 1];
      Ties(s[..|s| - 1], k, le) + (if le(x, k) && le(k, x) then [x] else [])
  }

  lemma {:induction false} TiesAppend<T>(a: seq<T>, b: seq<T>, k: T, le: (T, T) -> bool)
    ensures Ties(a + b, k, le) == Ties(a, k, le) + Ties(b, k, le)
    decreases |b|
  {
    if b == [] {
      assert a + b == a;
    } else {
      assert (a + b)[..|a + b| - 1] == a + b[..|b| - 1];
      TiesAppend(a, b[..|b| - 1], k, le);
    }
  }

  /** Transitivity through `k`, all that stability needs of the preorder. */
  ghost predicate Through<T(!new)>(le: (T, T) -> bool, k: T) {
    forall a, c :: le(a, k) && le(k, c) ==> le(a, c)
  }

  lemma TiesOne<T>(x: T, k: T, le: (T, T) -> bool)
    ensures Ties([x], k, le) == if le(x, k) && le(k, x) then [x] else []
  {
    assert [x][..0] == [];
  }

  /** An element not below `x` is not equivalent to `k` when `x` is, so
      the two can trade places without changing the ties of `k`. */
  lemma TiesSwap<T(!new)>(x: T, y: T, k: T, le: (T, T) -> bool)
    requires Through(le, k) && !le(y, x)
    ensures Ties([x], k, le) + Ties([y], k, le) == Ties([y], k, le) + Ties([x], k, le)
  {
    TiesOne(x, k, le);
    TiesOne(y, k, le);
    if le(x, k) && le(k, x) && le(y, k) {
      assert false;
    }
  }

  lemma SeqAssoc<T>(a: seq<T>, b: seq<T>, c: seq<T>)
    ensures (a + b) + c == a + (b + c)
  {
  }

  lemma InsertPast<T>(s: seq<T>, x: T, le: (T, T) -> bool)
    requires s != [] && !le(s[|s| - 1], x)
    ensures Insert(s, x, le) == Insert(s[..|s| - 1], x, le) + [s[|s| - 1]]
  {
  }

  /** Insertion puts `x` behind every element equivalent to it. */
  lemma {:induction false} InsertTies<T(!new)>(s: seq<T>, x: T, k: T, le: (T, T) -> bool)
    requires Through(le, k)
    ensures Ties(Insert(s, x, le), k, le) == Ties(s, k, le) + Ties([x], k, le)
    decreases |s|
  {
    if s == [] {
      assert Insert(s, x, le) == [x];
    } else if le(s[|s| - 1], x) {
      assert Insert(s, x, le) == s + [x];
      TiesAppend(s, [x], k, le);
    } else {
      InsertTies(s[..|s| - 1], x, k, le);
      InsertTiesPast(s, x, k, le);
    }
  }

  /** The step of InsertTies where `x` moves past the last element. */
  lemma {:induction false} InsertTiesPast<T(!new)>(s: seq<T>, x: T, k: T, le: (T, T) -> bool)
    requires Through(le, k) && s != [] && !le(s[|s| - 1], x)
    requires Ties(Insert(s[..|s| - 1], x, le), k, le) == Ties(s[..|s| - 1], k, le) + Ties([x], k, le)
    ensures Ties(Insert(s, x, le), k, le) == Ties(s, k, le) + Ties([x], k, le)
  {
    var front := s[..|s| - 1];
    var last := s[|s| - 1];
    InsertPast(s, x, le);
    TiesAppend(Insert(front, x, le), [last], k, le);
    assert s == front + [last];
    TiesAppend(front, [last], k, le);
    TiesSwap(x, last, k, le);
    var tf, tx, tl := Ties(front, k, le), Ties([x], k, le), Ties([last], k, le);
    calc {
      Ties(Insert(s, x, le), k, le);
      (tf + tx) + tl;
      { SeqAssoc(tf, tx, tl); }
      tf + (tx + tl);
      tf + (tl + tx);
      { SeqAssoc(tf, tl, tx); }
      (tf + tl) + tx;
      Ties(s, k, le) + tx;
    }
  }

  /** Sort is stable: the elements equivalent to any `k` keep their input
      order. */
  lemma {:induction false} SortStable<T(!new)>(s: seq<T>, k: T, le: (T, T) -> bool)
    requires TotalPreorder(le)
    ensures Ties(Sort(s, le), k, le) == Ties(s, k, le)
    decreases |s|
  {
    if s != [] {
      var front := s[..|s| - 1];
      var last := s[|s| - 1];
      SortStable(front, k, le);
      assert Through(le, k);
      InsertTies(Sort(front, le), last, k, le);
      assert Ties(s, k, le) == Ties(front, k, le) + Ties([last], k, le) by {
        assert [last][..0] == [];
      }
    }
  }
}
