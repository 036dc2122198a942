/**
 * Day 4, scratchcards: the matches of a card are the numbers it shares
 * with its winning numbers; part one scores them, part two wins copies of
 * the following cards.
 */
module Day04 {
  import Sorting

  /** A card: its winning numbers and the numbers on it (`Game`). */
  datatype Game = Game(winning: seq<nat>, mine: seq<nat>)

  function NatLe(): (nat, nat) -> bool {
    (a: nat, b: nat) => a <= b
  }

  lemma NatLeTotal()
    ensures Sorting.TotalPreorder(NatLe())
  {
  }

  /** The matches of a card: the size of the multiset intersection of the
      two lists. */
  function Matches(g: Game): nat {
    |multiset(g.winning) * multiset(g.mine)|
  }

  lemma IntersectionBound(a: multiset<nat>, b: multiset<nat>)
    ensures |a * b| <= |a| && |a * b| <= |b|
  {
    assert a * b <= a && a * b <= b;
    SubBound(a * b, a);
    SubBound(a * b, b);
  }

  lemma SubBound(a: multiset<nat>, b: multiset<nat>)
    requires a <= b
    ensures |a| <= |b|
  {
    assert b == a + (b - a);
  }

  /** A common first element leaves one match and the rest. */
  lemma IntersectCons(x: nat, a: multiset<nat>, b: multiset<nat>)
    ensures (multiset{x} + a) * (multiset{x} + b) == multiset{x} + a * b
  {
  }

  /** An element absent from the other side adds no match. */
  lemma IntersectAbsent(x: nat, a: multiset<nat>, b: multiset<nat>)
    requires x !in b
    ensures (multiset{x} + a) * b == a * b
  {
  }

  /** A value below the head of a sorted suffix does not occur in it. */
  lemma BelowHead(s: seq<nat>, i: nat, x: nat)
    requires i < |s| && Sorting.SortedBy(s, NatLe()) && x < s[i]
    ensures x !in multiset(s[i..])
  {
    var t := s[i..];
    forall j | 0 <= j < |t| ensures t[j] != x {
      if j > 0 {
        assert NatLe()(s[i], s[i + j]);
      }
    }
    assert x !in t;
  }

  lemma Suffix(s: seq<nat>, i: nat)
    requires i < |s|
    ensures multiset(s[i..]) == multiset{s[i]} + multiset(s[i + 1..])
  {
    assert s[i..] == [s[i]] + s[i + 1..];
  }

  /** One comparison of the merge: equal heads are one match; the smaller head
      matches nothing in the other list. */
  /** The numbers the two suffixes still have in common, with multiplicity. */
  function Common(w: seq<nat>, m: seq<nat>, wi: nat, mi: nat): nat
    requires wi <= |w| && mi <= |m|
  {
    |multiset(w[wi..]) * multiset(m[mi..])|
  }

  lemma MergeStep(w: seq<nat>, m: seq<nat>, wi: nat, mi: nat)
    requires wi < |w| && mi < |m|
    requires Sorting.SortedBy(w, NatLe()) && Sorting.SortedBy(m, NatLe())
    ensures w[wi] == m[mi] ==> Common(w, m, wi, mi) == 1 + Common(w, m, wi + 1, mi + 1)
    ensures w[wi] > m[mi] ==> Common(w, m, wi, mi) == Common(w, m, wi, mi + 1)
    ensures w[wi] < m[mi] ==> Common(w, m, wi, mi) == Common(w, m, wi + 1, mi)
  {
    Suffix(w, wi);
    Suffix(m, mi);
    var ws, ms := multiset(w[wi + 1..]), multiset(m[mi + 1..]);
    if w[wi] == m[mi] {
      IntersectCons(w[wi], ws, ms);
    } else if w[wi] > m[mi] {
      BelowHead(w, wi, m[mi]);
      IntersectAbsent(m[mi], ms, multiset(w[wi..]));
      assert multiset(w[wi..]) * multiset(m[mi..]) == multiset(m[mi..]) * multiset(w[wi..]);
      assert multiset(w[wi..]) * ms == ms * multiset(w[wi..]);
    } else {
      BelowHead(m, mi, w[wi]);
      IntersectAbsent(w[wi], ws, multiset(m[mi..]));
    }
  }

  /** `number_of_wins`: both lists are sorted (as clones, so the card is
      not changed) and merged with two indices. */
  method NumberOfWins(g: Game) returns (numWins: nat)
    ensures numWins == Matches(g)
    ensures numWins <= |g.winning| && numWins <= |g.mine|
  {
    NatLeTotal();
    var myNumbers := Sorting.Sort(g.mine, NatLe());
    var winningNumbers := Sorting.Sort(g.winning, NatLe());
    Sorting.SortSorted(g.mine, NatLe());
    Sorting.SortSorted(g.winning, NatLe());
    var myIndex, winningIndex := 0, 0;
    numWins := 0;
    assert myNumbers[0..] == myNumbers && winningNumbers[0..] == winningNumbers;
    assert Common(winningNumbers, myNumbers, 0, 0) == Matches(g);
    while myIndex < |myNumbers| && winningIndex < |winningNumbers|
      invariant 0 <= myIndex <= |myNumbers| && 0 <= winningIndex <= |winningNumbers|
      invariant numWins + Common(winningNumbers, myNumbers, winningIndex, myIndex) == Matches(g)
      decreases |myNumbers| - myIndex + |winningNumbers| - winningIndex
    {
      var firstMy := myNumbers[myIndex];
      var firstWinning := winningNumbers[winningIndex];
      MergeStep(winningNumbers, myNumbers, winningIndex, myIndex);
      if firstWinning == firstMy {
        numWins := numWins + 1;
        myIndex := myIndex + 1;
        winningIndex := winningIndex + 1;
      } else if firstWinning > firstMy {
        myIndex := myIndex + 1;
      } else {
        winningIndex := winningIndex + 1;
      }
    }
    if myIndex == |myNumbers| {
      assert multiset(myNumbers[myIndex..]) == multiset{};
    } else {
      assert multiset(winningNumbers[winningIndex..]) == multiset{};
    }
    assert Common(winningNumbers, myNumbers, winningIndex, myIndex) == 0;
    IntersectionBound(multiset(g.winning), multiset(g.mine));
  }

  function Pow2(n: nat): (p: nat)
    ensures p >= 1
  {
    if n == 0 then 1 else 2 * Pow2(n - 1)
  }

  /** The points of one card: 0 without matches, otherwise 1 doubled for
      every match after the first. */
  function Points(matches: nat): nat {
    if matches == 0 then 0 else Pow2(matches - 1)
  }

  lemma PointsDouble(n: nat)
    requires n >= 1
    ensures Points(n + 1) == 2 * Points(n)
  {
  }

  function SumPoints(games: seq<Game>): nat {
    if games == [] then 0 else Points(Matches(games[0])) + SumPoints(games[1..])
  }

  /** `part_one`: the total points, zero exactly when no card matches. */
  function PartOne(games: seq<Game>): (r: nat)
    ensures r == 0 <==> forall i :: 0 <= i < |games| ==> Matches(games[i]) == 0
  {
    NoPoints(games);
    SumPoints(games)
  }

  lemma {:induction false} NoPoints(games: seq<Game>)
    ensures SumPoints(games) == 0 <==> forall i :: 0 <= i < |games| ==> Matches(games[i]) == 0
  {
    if games != [] {
      NoPoints(games[1..]);
      assert forall i :: 1 <= i < |games| ==> games[i] == games[1..][i - 1];
    }
  }

  /** The instances of card `k` held in the end: the original plus one per
      instance of every earlier card `j` whose matches reach card `k`. */
  function Copies(matches: seq<nat>, k: nat): (c: nat)
    requires k < |matches|
    ensures c >= 1
    decreases k, 1
  {
    1 + Won(matches, k, k)
  }

  /** The copies of card `k` won by the cards before `n`. */
  function Won(matches: seq<nat>, k: nat, n: nat): nat
    requires n <= k < |matches|
    decreases n, 0
  {
    if n == 0 then 0
    else Won(matches, k, n - 1) + (if k <= n - 1 + matches[n - 1] then Copies(matches, n - 1) else 0)
  }

  /** The matches of every card, in order. */
  function MatchesOf(games: seq<Game>): (m: seq<nat>)
    ensures |m| == |games| && forall i :: 0 <= i < |games| ==> m[i] == Matches(games[i])
  {
    if games == [] then [] else MatchesOf(games[..|games| - 1]) + [Matches(games[|games| - 1])]
  }

  function TotalCopies(matches: seq<nat>, n: nat): (t: nat)
    requires n <= |matches|
    ensures t >= n
  {
    if n == 0 then 0 else TotalCopies(matches, n - 1) + Copies(matches, n - 1)
  }

  /** `part_two`: every count starts at 1; card `idx` adds its count to the
      next `wins` cards, clipped at the last card, after its count has been
      added to the total. */
  method PartTwo(games: seq<Game>) returns (totalCards: nat)
    ensures totalCards == TotalCopies(MatchesOf(games), |games|)
    ensures totalCards >= |games|
  {
    ghost var matches := MatchesOf(games);
    var n := |games|;
    var cardCounts := new nat[n](_ => 1);
    totalCards := 0;
    var idx := 0;
    while idx < cardCounts.Length
      invariant 0 <= idx <= n == cardCounts.Length
      invariant totalCards == TotalCopies(matches, idx)
      invariant forall i :: idx <= i < n ==> cardCounts[i] == 1 + Won(matches, i, idx)
    {
      assert cardCounts[idx] == Copies(matches, idx);
      assert TotalCopies(matches, idx + 1) == totalCards + cardCounts[idx];
      totalCards := totalCards + cardCounts[idx];
      var wins := NumberOfWins(games[idx]);
      AddCopies(cardCounts, matches, idx, wins);
      idx := idx + 1;
    }
  }

  /** The inner loop of `part_two`: the cards after `idx`, up to `last`, each
      gain the instances of card `idx`. */
  method AddCopies(cardCounts: array<nat>, ghost matches: seq<nat>, idx: nat, wins: nat)
    requires idx < cardCounts.Length == |matches| && wins == matches[idx]
    requires forall i :: idx <= i < |matches| ==> cardCounts[i] == 1 + Won(matches, i, idx)
    modifies cardCounts
    ensures forall i :: idx < i < |matches| ==> cardCounts[i] == 1 + Won(matches, i, idx + 1)
    ensures forall i :: 0 <= i <= idx ==> cardCounts[i] == old(cardCounts[i])
  {
    var n := cardCounts.Length;
    var last := if idx + wins < n - 1 then idx + wins else n - 1;
    assert cardCounts[idx] == Copies(matches, idx);
    for i := idx + 1 to last + 1
      invariant forall k :: idx < k < i ==> cardCounts[k] == 1 + Won(matches, k, idx + 1)
      invariant forall k :: i <= k < n ==> cardCounts[k] == 1 + Won(matches, k, idx)
      invariant cardCounts[idx] == Copies(matches, idx)
      invariant forall k :: 0 <= k <= idx ==> cardCounts[k] == old(cardCounts[k])
    {
      WonStep(matches, i, idx);
      cardCounts[i] := cardCounts[i] + cardCounts[idx];
    }
    forall k | last < k < n ensures Won(matches, k, idx + 1) == Won(matches, k, idx) {
      WonStep(matches, k, idx);
    }
  }

  /** Card `idx` adds its instances to card `k` exactly when its matches
      reach that far. */
  lemma WonStep(matches: seq<nat>, k: nat, idx: nat)
    requires idx < k < |matches|
    ensures Won(matches, k, idx + 1) == Won(matches, k, idx) + (if k <= idx + matches[idx] then Copies(matches, idx) else 0)
  {
  }
}
