/**
 * Day 7 (part two), camel cards with jokers: every hand of five cards gets a
 * kind from its card counts, with the jokers joining the largest count;
 * hands are ranked by kind and then card by card, and the answer sums rank
 * times bid.
 */
module Day07 {
  import opened Wrappers
  import opened Text
  import Sorting

  /** `Card`, with the discriminants of the source as its rank. */
  datatype Card = Ace | King | Queen | Joker | JesTer | Nine | Eight | Seven | Six | Five | Four | Three | Two

  function Rank(c: Card): (r: nat)
    ensures 1 <= r <= 14 && r != 11
    ensures r == 1 <==> c == Joker
  {
    match c
    case Ace => 14
    case King => 13
    case Queen => 12
    case Joker => 1
    case JesTer => 10
    case Nine => 9
    case Eight => 8
    case Seven => 7
    case Six => 6
    case Five => 5
    case Four => 4
    case Three => 3
    case Two => 2
  }

  /** Cards are ordered by rank; no two share one. */
  lemma RankInjective(a: Card, b: Card)
    ensures Rank(a) == Rank(b) ==> a == b
  {
  }

  /** `Card::from_char`; `None` where it panics. */
  function CardOf(ch: char): (r: Option<Card>)
    ensures r.Some? <==> ch in "AKQJT98765432"
  {
    match ch
    case 'A' => Some(Ace)
    case 'K' => Some(King)
    case 'Q' => Some(Queen)
    case 'J' => Some(Joker)
    case 'T' => Some(JesTer)
    case '9' => Some(Nine)
    case '8' => Some(Eight)
    case '7' => Some(Seven)
    case '6' => Some(Six)
    case '5' => Some(Five)
    case '4' => Some(Four)
    case '3' => Some(Three)
    case '2' => Some(Two)
    case _ => None
  }

  function CardChar(c: Card): char {
    match c
    case Ace => 'A'
    case King => 'K'
    case Queen => 'Q'
    case Joker => 'J'
    case JesTer => 'T'
    case Nine => '9'
    case Eight => '8'
    case Seven => '7'
    case Six => '6'
    case Five => '5'
    case Four => '4'
    case Three => '3'
    case Two => '2'
  }

  lemma CardOfChar(c: Card)
    ensures CardOf(CardChar(c)) == Some(c)
    ensures !IsSpace(CardChar(c))
  {
  }

  /** `HandKind`, ranked by its discriminant. */
  datatype HandKind = FiveOfAKind | FourOfAKind | FullHouse | ThreeOfAKind | TwoPair | OnePair | HighCard

  function KindRank(k: HandKind): (r: nat)
    ensures 1 <= r <= 7
  {
    match k
    case FiveOfAKind => 7
    case FourOfAKind => 6
    case FullHouse => 5
    case ThreeOfAKind => 4
    case TwoPair => 3
    case OnePair => 2
    case HighCard => 1
  }

  /** How often `c` occurs in `hand`. */
  function Occurrences(hand: seq<Card>, c: Card): (n: nat)
    ensures n <= |hand|
  {
    if hand == [] then 0
    else Occurrences(hand[..|hand| - 1], c) + (if hand[|hand| - 1] == c then 1 else 0)
  }

  lemma {:induction false} OccurrencesMultiset(hand: seq<Card>, c: Card)
    ensures Occurrences(hand, c) == multiset(hand)[c]
  {
    if hand != [] {
      var front := hand[..|hand| - 1];
      assert hand == front + [hand[|hand| - 1]];
      OccurrencesMultiset(front, c);
    }
  }

  /** The cards other than the joker, each once. */
  const NonJokers: seq<Card> := [Ace, King, Queen, JesTer, Nine, Eight, Seven, Six, Five, Four, Three, Two]

  lemma NonJokersComplete(c: Card)
    ensures c in NonJokers <==> c != Joker
  {
  }

  predicate Distinct(cs: seq<Card>) {
    forall i, j :: 0 <= i < j < |cs| ==> cs[i] != cs[j]
  }

  lemma NonJokersDistinct()
    ensures Distinct(NonJokers)
  {
    var cs := NonJokers;
    assert forall k :: 0 <= k < |cs| - 1 ==> Rank(cs[k]) > Rank(cs[k + 1]);
    forall i, j | 0 <= i < j < |cs| ensures cs[i] != cs[j] {
      RankFalls(cs, i, j);
    }
  }

  /** Along a run of strictly falling ranks, every later card ranks lower. */
  lemma {:induction false} RankFalls(cs: seq<Card>, i: nat, j: nat)
    requires forall k :: 0 <= k < |cs| - 1 ==> Rank(cs[k]) > Rank(cs[k + 1])
    requires i < j < |cs|
    ensures Rank(cs[i]) > Rank(cs[j])
    decreases j - i
  {
    if j > i + 1 {
      RankFalls(cs, i + 1, j);
    }
  }

  /** The counts of the cards of `cs` that occur in `hand`, in the order of
      `cs` (the values of `counts()` on the non-jokers, before sorting). */
  function Counts(hand: seq<Card>, cs: seq<Card>): seq<nat> {
    if cs == [] then []
    else
      var n := Occurrences(hand, cs[|cs| - 1]);
      Counts(hand, cs[..|cs| - 1]) + (if n > 0 then [n] else [])
  }

  function Desc(): (nat, nat) -> bool {
    (a: nat, b: nat) => a >= b
  }

  lemma DescTotal()
    ensures Sorting.TotalPreorder(Desc())
  {
  }

  /** The counts `from_hand` branches on: sorted from largest, `[0]` when
      every card is a joker, then the jokers added to the first. */
  function Tally(hand: seq<Card>): (t: seq<nat>)
    ensures |t| >= 1
  {
    JokersAdded(Counts(hand, NonJokers), Occurrences(hand, Joker))
  }

  /** The counts of the other cards sorted from largest, `[0]` for none,
      with the jokers added to the first. */
  function JokersAdded(others: seq<nat>, jokers: nat): (t: seq<nat>)
    ensures |t| >= 1
  {
    var sorted := Sorting.Sort<nat>(others, Desc());
    var counts := if sorted == [] then [0] else sorted;
    counts[0 := counts[0] + jokers]
  }

  /** The category thresholds; `None` where `counts[1]` is read but absent. */
  function KindOf(counts: seq<nat>): Option<HandKind>
    requires |counts| >= 1
  {
    if counts[0] == 5 then Some(FiveOfAKind)
    else if counts[0] == 4 then Some(FourOfAKind)
    else if counts[0] == 3 && |counts| < 2 then None
    else if counts[0] == 3 && counts[1] == 2 then Some(FullHouse)
    else if counts[0] == 3 then Some(ThreeOfAKind)
    else if |counts| < 2 then None
    else if counts[1] == 2 then Some(TwoPair)
    else if counts[0] == 2 then Some(OnePair)
    else Some(HighCard)
  }

  /** `HandKind::from_hand`. */
  function FromHand(hand: seq<Card>): Option<HandKind> {
    KindOf(Tally(hand))
  }

  function Max(a: nat, b: nat): nat { if a >= b then a else b }

  /** The largest entry, 0 for none. */
  function MaxSeq(s: seq<nat>): nat {
    if s == [] then 0 else Max(MaxSeq(s[..|s| - 1]), s[|s| - 1])
  }

  lemma {:induction false} MaxSeqIs(s: seq<nat>)
    ensures forall i :: 0 <= i < |s| ==> s[i] <= MaxSeq(s)
    ensures s != [] ==> MaxSeq(s) in s
  {
    if s != [] {
      MaxSeqIs(s[..|s| - 1]);
    }
  }

  /** The largest count among the cards of `cs`, 0 for none. */
  function MaxOver(hand: seq<Card>, cs: seq<Card>): nat {
    if cs == [] then 0 else Max(MaxOver(hand, cs[..|cs| - 1]), Occurrences(hand, cs[|cs| - 1]))
  }

  lemma {:induction false} MaxOverCounts(hand: seq<Card>, cs: seq<Card>)
    ensures MaxSeq(Counts(hand, cs)) == MaxOver(hand, cs)
  {
    if cs != [] {
      var front := cs[..|cs| - 1];
      MaxOverCounts(hand, front);
      var n := Occurrences(hand, cs[|cs| - 1]);
      if n > 0 {
        assert (Counts(hand, front) + [n])[..|Counts(hand, front)|] == Counts(hand, front);
      } else {
        assert Counts(hand, cs) == Counts(hand, front);
      }
    }
  }

  /** The head of a list sorted from largest is its maximum. */
  lemma SortedHead(s: seq<nat>, t: seq<nat>)
    requires Sorting.SortedBy(s, Desc()) && multiset(s) == multiset(t) && s != []
    ensures s[0] == MaxSeq(t)
  {
    MaxSeqIs(t);
    assert s[0] in multiset(t);
    assert MaxSeq(t) in multiset(s);
    var k :| 0 <= k < |s| && s[k] == MaxSeq(t);
    assert k == 0 || Desc()(s[0], s[k]);
  }

  /** The jokers join the largest count of another card: the first count
      `from_hand` branches on is the largest count of a non-joker plus the
      number of jokers. */
  lemma TallyTop(hand: seq<Card>)
    ensures Tally(hand)[0] == MaxOver(hand, NonJokers) + Occurrences(hand, Joker)
  {
    var counts := Counts(hand, NonJokers);
    var sorted := Sorting.Sort<nat>(counts, Desc());
    MaxOverCounts(hand, NonJokers);
    if sorted == [] {
      assert |counts| == 0;
    } else {
      DescTotal();
      Sorting.SortSorted(counts, Desc());
      SortedHead(sorted, counts);
    }
  }

  /** Every count after the first is one of the sorted non-joker counts, so
      the jokers only ever raise the first. */
  lemma TallyRest(hand: seq<Card>)
    ensures var sorted := Sorting.Sort<nat>(Counts(hand, NonJokers), Desc());
      sorted != [] ==> Tally(hand)[1..] == sorted[1..]
  {
  }

  /** A hand of jokers only counts as one card `|hand|` times. */
  lemma AllJokers(hand: seq<Card>)
    requires forall i :: 0 <= i < |hand| ==> hand[i] == Joker
    ensures Tally(hand) == [|hand|]
    ensures |hand| == 5 ==> FromHand(hand) == Some(FiveOfAKind)
  {
    JokerCount(hand);
    NoCounts(hand, NonJokers);
    assert Counts(hand, NonJokers) == [];
  }

  lemma {:induction false} JokerCount(hand: seq<Card>)
    requires forall i :: 0 <= i < |hand| ==> hand[i] == Joker
    ensures Occurrences(hand, Joker) == |hand|
    ensures forall c :: c != Joker ==> Occurrences(hand, c) == 0
  {
    if hand != [] {
      JokerCount(hand[..|hand| - 1]);
    }
  }

  lemma {:induction false} NoCounts(hand: seq<Card>, cs: seq<Card>)
    requires forall i :: 0 <= i < |cs| ==> Occurrences(hand, cs[i]) == 0
    ensures Counts(hand, cs) == []
  {
    if cs != [] {
      NoCounts(hand, cs[..|cs| - 1]);
    }
  }

  function Sum(s: seq<nat>): nat {
    if s == [] then 0 else Sum(s[..|s| - 1]) + s[|s| - 1]
  }

  lemma SumSnoc(s: seq<nat>, x: nat)
    ensures Sum(s + [x]) == Sum(s) + x
  {
    assert (s + [x])[..|s|] == s;
  }

  lemma {:induction false} SumInsert(s: seq<nat>, x: nat, le: (nat, nat) -> bool)
    ensures Sum(Sorting.Insert(s, x, le)) == Sum(s) + x
    decreases |s|
  {
    if s == [] {
      assert Sorting.Insert(s, x, le) == [x];
      SumSnoc([], x);
    } else if le(s[|s| - 1], x) {
      SumSnoc(s, x);
    } else {
      var front := s[..|s| - 1];
      SumInsert(front, x, le);
      SumSnoc(Sorting.Insert(front, x, le), s[|s| - 1]);
    }
  }

  lemma {:induction false} SumSort(s: seq<nat>, le: (nat, nat) -> bool)
    ensures Sum(Sorting.Sort(s, le)) == Sum(s)
  {
    if s != [] {
      var front := s[..|s| - 1];
      SumSort(front, le);
      SumInsert(Sorting.Sort(front, le), s[|s| - 1], le);
    }
  }

  /** The number of cards of `hand` that are among `cs`. */
  function Among(hand: seq<Card>, cs: seq<Card>): nat {
    if hand == [] then 0 else Among(hand[..|hand| - 1], cs) + (if hand[|hand| - 1] in cs then 1 else 0)
  }

  lemma {:induction false} AmongSnoc(hand: seq<Card>, cs: seq<Card>, c: Card)
    requires c !in cs
    ensures Among(hand, cs + [c]) == Among(hand, cs) + Occurrences(hand, c)
  {
    if hand != [] {
      AmongSnoc(hand[..|hand| - 1], cs, c);
    }
  }

  /** Over distinct cards, the counts add up to the cards among them. */
  lemma {:induction false} SumCounts(hand: seq<Card>, cs: seq<Card>)
    requires Distinct(cs)
    ensures Sum(Counts(hand, cs)) == Among(hand, cs)
  {
    if cs == [] {
      AmongNone(hand);
    } else {
      var front, c := cs[..|cs| - 1], cs[|cs| - 1];
      assert cs == front + [c];
      SumCounts(hand, front);
      AmongSnoc(hand, front, c);
      var n := Occurrences(hand, c);
      if n > 0 {
        SumSnoc(Counts(hand, front), n);
      } else {
        assert Counts(hand, cs) == Counts(hand, front);
      }
    }
  }

  lemma {:induction false} AmongNone(hand: seq<Card>)
    ensures Among(hand, []) == 0
  {
    if hand != [] {
      AmongNone(hand[..|hand| - 1]);
    }
  }

  lemma {:induction false} JokersAndOthers(hand: seq<Card>)
    ensures Among(hand, NonJokers) + Occurrences(hand, Joker) == |hand|
  {
    if hand != [] {
      JokersAndOthers(hand[..|hand| - 1]);
      NonJokersComplete(hand[|hand| - 1]);
    }
  }

  /** The sorted counts and the jokers add up to the hand. */
  lemma TallySum(hand: seq<Card>)
    ensures Sum(Sorting.Sort<nat>(Counts(hand, NonJokers), Desc())) + Occurrences(hand, Joker) == |hand|
  {
    NonJokersDistinct();
    SumCounts(hand, NonJokers);
    JokersAndOthers(hand);
    SumSort(Counts(hand, NonJokers), Desc());
  }

  /** A single count is the whole hand. */
  lemma TallyShape(hand: seq<Card>)
    ensures |Tally(hand)| >= 2 || Tally(hand)[0] == |hand|
  {
    var sorted := Sorting.Sort<nat>(Counts(hand, NonJokers), Desc());
    TallySum(hand);
    if |sorted| == 1 {
      assert sorted[..0] == [];
      assert Sum(sorted) == sorted[0];
    }
  }

  /** For a hand of five cards `counts[1]` exists whenever it is read. */
  lemma FiveCardsHaveKind(hand: seq<Card>)
    requires |hand| == 5
    ensures FromHand(hand).Some?
  {
    TallyShape(hand);
  }

  /** The kind depends on the multiset of cards only, not on their order. */
  lemma KindIgnoresOrder(a: seq<Card>, b: seq<Card>)
    requires multiset(a) == multiset(b)
    ensures FromHand(a) == FromHand(b)
  {
    SameOccurrences(a, b);
    SameCounts(a, b, NonJokers);
    SameTally(a, b);
  }

  lemma SameTally(a: seq<Card>, b: seq<Card>)
    requires Counts(a, NonJokers) == Counts(b, NonJokers) && Occurrences(a, Joker) == Occurrences(b, Joker)
    ensures Tally(a) == Tally(b)
  {
  }

  lemma SameOccurrences(a: seq<Card>, b: seq<Card>)
    requires multiset(a) == multiset(b)
    ensures forall c: Card :: Occurrences(a, c) == Occurrences(b, c)
  {
    forall c: Card ensures Occurrences(a, c) == Occurrences(b, c) {
      OccurrencesMultiset(a, c);
      OccurrencesMultiset(b, c);
    }
  }

  lemma {:induction false} SameCounts(a: seq<Card>, b: seq<Card>, cs: seq<Card>)
    requires forall c: Card :: Occurrences(a, c) == Occurrences(b, c)
    ensures Counts(a, cs) == Counts(b, cs)
  {
    if cs != [] {
      SameCounts(a, b, cs[..|cs| - 1]);
    }
  }

  /** A hand as `Hand::from_string` builds it. */
  datatype Hand = Hand(bid: nat, kind: HandKind, hand: seq<Card>)

  /** The cards of the first word; `None` for a character that is no card. */
  function ParseCards(w: string): (r: Option<seq<Card>>)
    ensures r.Some? ==> |r.value| == |w|
  {
    if w == [] then Some([])
    else match (ParseCards(w[..|w| - 1]), CardOf(w[|w| - 1]))
      case (Some(cs), Some(c)) => Some(cs + [c])
      case _ => None
  }

  /** `Hand::from_string`; `None` where it panics. */
  function ParseHand(line: string): Option<Hand> {
    var ws := Words(line);
    if |ws| < 2 then None
    else match (ParseCards(ws[0]), ParseU32(ws[1]))
      case (Some(cards), Some(bid)) =>
        (match FromHand(cards)
         case Some(kind) => Some(Hand(bid, kind, cards))
         case None => None)
      case _ => None
  }

  function CardsString(cards: seq<Card>): (s: string)
    ensures |s| == |cards|
    ensures forall i :: 0 <= i < |s| ==> s[i] == CardChar(cards[i])
  {
    if cards == [] then [] else CardsString(cards[..|cards| - 1]) + [CardChar(cards[|cards| - 1])]
  }

  lemma {:induction false} ParseCardsString(cards: seq<Card>)
    ensures ParseCards(CardsString(cards)) == Some(cards)
  {
    if cards != [] {
      var init, last := cards[..|cards| - 1], cards[|cards| - 1];
      assert cards == init + [last];
      ParseCardsString(init);
      ParseCardsStringSnoc(init, last);
    }
  }

  lemma ParseCardsStringSnoc(init: seq<Card>, last: Card)
    requires ParseCards(CardsString(init)) == Some(init)
    ensures ParseCards(CardsString(init + [last])) == Some(init + [last])
  {
    var cards := init + [last];
    var s := CardsString(cards);
    assert cards[..|cards| - 1] == init;
    assert s == CardsString(init) + [CardChar(last)];
    assert s[..|s| - 1] == CardsString(init);
    CardOfChar(last);
    ParseCardsSnoc(s, init, last);
  }

  lemma ParseCardsSnoc(w: string, init: seq<Card>, last: Card)
    requires |w| > 0 && ParseCards(w[..|w| - 1]) == Some(init) && CardOf(w[|w| - 1]) == Some(last)
    ensures ParseCards(w) == Some(init + [last])
  {
  }

  /** A hand line in the puzzle's format: the cards, then the bid. */
  function FormatHand(cards: seq<Card>, bid: nat): string {
    Spaced([CardsString(cards), ToDecimal(bid)])
  }

  /** Reading a formatted line gives back its cards and bid, with the kind
      `from_hand` gives them. */
  lemma ParseFormatHand(cards: seq<Card>, bid: nat)
    requires |cards| == 5 && bid < U32Bound
    ensures FromHand(cards).Some?
    ensures ParseHand(FormatHand(cards, bid)) == Some(Hand(bid, FromHand(cards).value, cards))
  {
    var w := CardsString(cards);
    forall i | 0 <= i < |w| ensures !IsSpace(w[i]) {
      CardOfChar(cards[i]);
    }
    var d := ToDecimal(bid);
    assert forall i :: 0 <= i < |d| ==> !IsSpace(d[i]) by {
      assert AllDigits(d);
    }
    WordsOfJoin([w, d]);
    ParseCardsString(cards);
    ParseU32ToDecimal(bid);
    FiveCardsHaveKind(cards);
  }

  datatype Ordering = Less | Equal | Greater

  function CompareNat(a: nat, b: nat): Ordering {
    if a < b then Less else if a == b then Equal else Greater
  }

  function Flip(o: Ordering): Ordering {
    match o
    case Less => Greater
    case Equal => Equal
    case Greater => Less
  }

  /** The card loop of `partial_cmp`: the first position where the ranks
      differ decides; `None` where `other.hand[i]` is out of range. */
  function CompareCards(a: seq<Card>, b: seq<Card>): Option<Ordering> {
    if a == [] then Some(Equal)
    else if b == [] then None
    else if Rank(a[0]) != Rank(b[0]) then Some(CompareNat(Rank(a[0]), Rank(b[0])))
    else CompareCards(a[1..], b[1..])
  }

  /** `Hand::partial_cmp`: the kind first, then the cards. */
  function Compare(x: Hand, y: Hand): Option<Ordering> {
    if x.kind != y.kind then Some(CompareNat(KindRank(x.kind), KindRank(y.kind)))
    else CompareCards(x.hand, y.hand)
  }

  /** `partial_cmp` as the source writes it, with a loop over the cards. */
  method PartialCmp(x: Hand, y: Hand) returns (ord: Option<Ordering>)
    ensures ord == Compare(x, y)
  {
    if x.kind != y.kind {
      return Some(CompareNat(KindRank(x.kind), KindRank(y.kind)));
    }
    for i := 0 to |x.hand|
      invariant i <= |y.hand|
      invariant forall k :: 0 <= k < i ==> x.hand[k] == y.hand[k]
      invariant CompareCards(x.hand, y.hand) == CompareCards(x.hand[i..], y.hand[i..])
    {
      if i == |y.hand| {
        assert y.hand[i..] == [];
        return None;
      }
      var card := x.hand[i];
      if Rank(card) != Rank(y.hand[i]) {
        return Some(CompareNat(Rank(card), Rank(y.hand[i])));
      }
      RankInjective(card, y.hand[i]);
      assert x.hand[i..][1..] == x.hand[i + 1..];
      assert y.hand[i..][1..] == y.hand[i + 1..];
    }
    assert x.hand[|x.hand|..] == [];
    return Some(Equal);
  }

  /** The first position at which two card lists differ decides. */
  lemma {:induction false} CompareFirstDifference(a: seq<Card>, b: seq<Card>, i: nat)
    requires i < |a| && i < |b| && a[..i] == b[..i] && a[i] != b[i]
    ensures CompareCards(a, b) == Some(CompareNat(Rank(a[i]), Rank(b[i])))
  {
    RankInjective(a[i], b[i]);
    if i > 0 {
      assert a[0] == a[..i][0] && b[0] == b[..i][0];
      assert a[1..][..i - 1] == a[..i][1..] && b[1..][..i - 1] == b[..i][1..];
      CompareFirstDifference(a[1..], b[1..], i - 1);
    }
  }

  /** Lists of one length compare Equal exactly when they are the same. */
  lemma {:induction false} CompareCardsEqual(a: seq<Card>, b: seq<Card>)
    requires |a| == |b|
    ensures CompareCards(a, b).Some?
    ensures CompareCards(a, b) == Some(Equal) <==> a == b
  {
    if a != [] {
      CompareCardsEqual(a[1..], b[1..]);
      RankInjective(a[0], b[0]);
      if a[0] == b[0] && a[1..] == b[1..] {
        assert a == [a[0]] + a[1..] && b == [b[0]] + b[1..];
      }
    }
  }

  lemma {:induction false} CompareCardsFlip(a: seq<Card>, b: seq<Card>)
    requires |a| == |b|
    ensures CompareCards(a, b).Some?
    ensures CompareCards(b, a) == Some(Flip(CompareCards(a, b).value))
  {
    CompareCardsEqual(a, b);
    if a != [] {
      CompareCardsFlip(a[1..], b[1..]);
    }
  }

  lemma {:induction false} CompareCardsTrans(a: seq<Card>, b: seq<Card>, c: seq<Card>)
    requires |a| == |b| == |c|
    requires CompareCards(a, b) != Some(Greater) && CompareCards(b, c) != Some(Greater)
    ensures CompareCards(a, c) != Some(Greater)
  {
    if a != [] && Rank(a[0]) == Rank(b[0]) && Rank(b[0]) == Rank(c[0]) {
      CompareCardsTrans(a[1..], b[1..], c[1..]);
    }
  }

  /** Hands of five cards; `partial_cmp` is total on them. */
  type Hand5 = h: Hand | |h.hand| == 5 witness Hand(0, FiveOfAKind, [Ace, Ace, Ace, Ace, Ace])

  /** Hands compare Equal exactly when kind and cards agree (the bid aside). */
  lemma CompareEqual(x: Hand5, y: Hand5)
    ensures Compare(x, y).Some?
    ensures Compare(x, y) == Some(Equal) <==> x.kind == y.kind && x.hand == y.hand
  {
    CompareCardsEqual(x.hand, y.hand);
  }

  /** Swapping the hands flips the order. */
  lemma CompareFlip(x: Hand5, y: Hand5)
    ensures Compare(x, y).Some?
    ensures Compare(y, x) == Some(Flip(Compare(x, y).value))
  {
    CompareCardsFlip(x.hand, y.hand);
  }

  /** Not above, the order `sorted()` uses. */
  function AtMost(): (Hand5, Hand5) -> bool {
    (x: Hand5, y: Hand5) => Compare(x, y) != Some(Greater)
  }

  lemma AtMostTotal()
    ensures Sorting.TotalPreorder(AtMost())
  {
    forall x: Hand5, y: Hand5 ensures AtMost()(x, y) || AtMost()(y, x) {
      CompareFlip(x, y);
      CompareEqual(x, y);
    }
    forall x: Hand5, y: Hand5, z: Hand5 | AtMost()(x, y) && AtMost()(y, z) ensures AtMost()(x, z) {
      if x.kind == y.kind && y.kind == z.kind {
        CompareCardsTrans(x.hand, y.hand, z.hand);
      }
    }
  }

  /** The hands in ranking order: a permutation of the input, sorted from
      weakest to strongest, with hands of equal strength in input order. */
  function Ranked(hands: seq<Hand5>): (r: seq<Hand5>)
    ensures multiset(r) == multiset(hands)
    ensures Sorting.SortedBy(r, AtMost())
    ensures forall k :: Sorting.Ties(r, k, AtMost()) == Sorting.Ties(hands, k, AtMost())
  {
    AtMostTotal();
    Sorting.SortSorted(hands, AtMost());
    forall k ensures Sorting.Ties(Sorting.Sort(hands, AtMost()), k, AtMost()) == Sorting.Ties(hands, k, AtMost()) {
      Sorting.SortStable(hands, k, AtMost());
    }
    Sorting.Sort(hands, AtMost())
  }

  /** What a hand of rank `rank` wins. */
  function Prize(rank: nat, h: Hand5): nat {
    rank * h.bid
  }

  /** The sum of rank times bid, ranks counted from 1. */
  function Winnings(ranked: seq<Hand5>): nat {
    if ranked == [] then 0 else Winnings(ranked[..|ranked| - 1]) + Prize(|ranked|, ranked[|ranked| - 1])
  }

  /** The line parses, and to a hand of five cards. */
  predicate ParsesToFive(line: string) {
    ParseHand(line).Some? && |ParseHand(line).value.hand| == 5
  }

  /** The hands of `part_two` in input order. */
  function HandsOf(lines: seq<string>): (hands: seq<Hand5>)
    requires forall i :: 0 <= i < |lines| ==> ParsesToFive(lines[i])
    ensures |hands| == |lines|
    ensures forall i :: 0 <= i < |lines| ==> ParsesToFive(lines[i]) && hands[i] == ParseHand(lines[i]).value
  {
    seq(|lines|, i requires 0 <= i < |lines| && ParsesToFive(lines[i]) => ParseHand(lines[i]).value)
  }

  /** The final sum: each ranked hand's bid times its rank, counted from 1. */
  method SumPrizes(ranked: seq<Hand5>) returns (total: nat)
    ensures total == Winnings(ranked)
  {
    total := 0;
    for i := 0 to |ranked|
      invariant total == Winnings(ranked[..i])
    {
      assert ranked[..i + 1][..i] == ranked[..i];
      total := total + Prize(i + 1, ranked[i]);
    }
    assert ranked[..|ranked|] == ranked;
  }

  /** `part_two`: parse every line, sort the hands, and add up rank times
      bid. */
  method PartTwo(lines: seq<string>) returns (total: nat)
    requires forall i :: 0 <= i < |lines| ==> ParsesToFive(lines[i])
    ensures total == Winnings(Ranked(HandsOf(lines)))
  {
    var hands := HandsOf(lines);
    total := SumPrizes(Ranked(hands));
  }
}
