/**
 * Cards and the deck of poker-game.js: the 52 (suit, rank) pairs, the numeric value of a
 * rank, the order in which createDeck builds the deck, and the Fisher-Yates shuffle.
 */
module Cards {
  import opened Seqs

  datatype Suit = Spades | Hearts | Diamonds | Clubs

  datatype Rank = Two | Three | Four | Five | Six | Seven | Eight | Nine | Ten
                | Jack | Queen | King | Ace

  /** A card. Its numeric `value` is not stored: createDeck always sets it to CardValue(rank). */
  datatype Card = Card(rank: Rank, suit: Suit) {
    function Value(): int { CardValue(rank) }
  }

  /** The suits in the order createDeck walks them: spades, hearts, diamonds, clubs. */
  const Suits: seq<Suit> := [Spades, Hearts, Diamonds, Clubs]

  /** The ranks in the order createDeck walks them: 2 up to the ace. */
  const Ranks: seq<Rank> := [Two, Three, Four, Five, Six, Seven, Eight, Nine, Ten,
                             Jack, Queen, King, Ace]

  const DeckSize: nat := 52

  /** getCardValue: 2..10 for the pip cards, 11 to 14 for jack, queen, king and ace. */
  function CardValue(rank: Rank): (v: int)
    ensures 2 <= v <= 14
    ensures forall k :: 0 <= k < |Ranks| && Ranks[k] == rank ==> v == k + 2
  {
    match rank
    case Two => 2
    case Three => 3
    case Four => 4
    case Five => 5
    case Six => 6
    case Seven => 7
    case Eight => 8
    case Nine => 9
    case Ten => 10
    case Jack => 11
    case Queen => 12
    case King => 13
    case Ace => 14
  }

  /** Position of a suit in Suits. */
  function SuitIndex(s: Suit): (k: nat)
    ensures k < |Suits| && Suits[k] == s
  {
    match s
    case Spades => 0
    case Hearts => 1
    case Diamonds => 2
    case Clubs => 3
  }

  /** The deck before shuffling: for each suit in turn, every rank in turn. */
  function OrderedDeck(): (d: seq<Card>)
    ensures |d| == DeckSize
  {
    seq(DeckSize, k requires 0 <= k < DeckSize => Card(Ranks[k % 13], Suits[k / 13]))
  }

  /** Where createDeck puts the card of a given suit and rank. */
  lemma OrderedDeckAt(si: nat, ri: nat)
    requires si < 4 && ri < 13
    ensures 13 * si + ri < DeckSize
    ensures OrderedDeck()[13 * si + ri] == Card(Ranks[ri], Suits[si])
  {
    var k := 13 * si + ri;
    assert k / 13 == si && k % 13 == ri;
  }

  /** Pushing the card of suit si and rank ri extends the ordered deck built so far by one. */
  lemma OrderedDeckGrows(si: nat, ri: nat)
    requires si < 4 && ri < 13
    ensures OrderedDeck()[..13 * si + ri + 1] == OrderedDeck()[..13 * si + ri] + [Card(Ranks[ri], Suits[si])]
  {
    var d, k := OrderedDeck(), 13 * si + ri;
    OrderedDeckAt(si, ri);
    assert d[..k + 1] == d[..k] + [d[k]];
  }

  /** Every (suit, rank) pair occurs in the ordered deck. */
  lemma OrderedDeckComplete(c: Card)
    ensures c in OrderedDeck()
  {
    var ri := CardValue(c.rank) - 2;
    assert Ranks[ri] == c.rank;
    OrderedDeckAt(SuitIndex(c.suit), ri);
  }

  /** No card occurs twice in the ordered deck, so it holds each pair exactly once. */
  lemma OrderedDeckDistinct()
    ensures forall i, j :: 0 <= i < j < DeckSize ==> OrderedDeck()[i] != OrderedDeck()[j]
  {
    var d := OrderedDeck();
    forall k | 0 <= k < DeckSize
      ensures 13 * SuitIndex(d[k].suit) + CardValue(d[k].rank) - 2 == k
    {
      assert CardValue(Ranks[k % 13]) == k % 13 + 2;
      assert SuitIndex(Suits[k / 13]) == k / 13;
    }
  }

  /** Math.random() returns a real number in [0, 1). */
  predicate UnitDraws(draws: seq<real>) {
    forall k :: 0 <= k < |draws| ==> 0.0 <= draws[k] < 1.0
  }

  /** The index Math.floor(r * (i + 1)) that shuffleDeck swaps with position i. */
  function SwapIndex(r: real, i: nat): (j: nat)
    requires 0.0 <= r < 1.0
    ensures j <= i
  {
    ScaledBelow(r, (i + 1) as real);
    (r * (i + 1) as real).Floor
  }

  /** A draw in [0, 1) scaled by a positive n lies in [0, n). */
  lemma ScaledBelow(r: real, n: real)
    requires 0.0 <= r < 1.0 && n > 0.0
    ensures 0.0 <= r * n < n
  {
    var q := 1.0 - r;
    assert q > 0.0;
    assert n - r * n == q * n;
    assert q * n > 0.0;
  }

  /** s with the elements at i and j exchanged, as `[a[i], a[j]] = [a[j], a[i]]` does. */
  function Swap<T>(s: seq<T>, i: nat, j: nat): (r: seq<T>)
    requires i < |s| && j < |s|
    ensures |r| == |s|
  {
    s[i := s[j]][j := s[i]]
  }

  lemma SwapPermutes<T>(s: seq<T>, i: nat, j: nat)
    requires i < |s| && j < |s|
    ensures multiset(Swap(s, i, j)) == multiset(s)
  {
    if i != j {
      var t := s[i := s[j]];
      assert multiset(t) == multiset(s) - multiset{s[i]} + multiset{s[j]};
      assert t[j] == s[j];
      assert multiset(t[j := s[i]]) == multiset(t) - multiset{s[j]} + multiset{s[i]};
    }
  }

  /**
   * The remaining steps of shuffleDeck once positions above i are done: for each position
   * i, i-1, ..., 1, swap it with SwapIndex of its draw. The draw for position i is the
   * (|s|-1-i)-th call of Math.random.
   */
  function ShuffleFrom(s: seq<Card>, draws: seq<real>, i: int): (r: seq<Card>)
    requires -1 <= i < |s| && |draws| >= |s| - 1 && UnitDraws(draws)
    ensures |r| == |s|
    decreases i
  {
    if i <= 0 then s
    else ShuffleFrom(Swap(s, i, SwapIndex(draws[|s| - 1 - i], i)), draws, i - 1)
  }

  /** shuffleDeck applied to s with the given sequence of Math.random draws. */
  function FisherYates(s: seq<Card>, draws: seq<real>): (r: seq<Card>)
    requires |draws| >= |s| - 1 && UnitDraws(draws)
    ensures |r| == |s|
  {
    ShuffleFrom(s, draws, |s| - 1)
  }

  lemma {:induction false} ShuffleFromPermutes(s: seq<Card>, draws: seq<real>, i: int)
    requires -1 <= i < |s| && |draws| >= |s| - 1 && UnitDraws(draws)
    ensures multiset(ShuffleFrom(s, draws, i)) == multiset(s)
    decreases i
  {
    if i > 0 {
      var j := SwapIndex(draws[|s| - 1 - i], i);
      SwapPermutes(s, i, j);
      ShuffleFromPermutes(Swap(s, i, j), draws, i - 1);
    }
  }

  /** The shuffle only swaps: whatever the draws, the result is a permutation of its input. */
  lemma FisherYatesPermutes(s: seq<Card>, draws: seq<real>)
    requires |draws| >= |s| - 1 && UnitDraws(draws)
    ensures multiset(FisherYates(s, draws)) == multiset(s)
  {
    ShuffleFromPermutes(s, draws, |s| - 1);
  }

  /** A shuffled deck holds all 52 cards, each exactly once. */
  lemma ShuffledDeckIsFull(draws: seq<real>)
    requires |draws| >= DeckSize - 1 && UnitDraws(draws)
    ensures |FisherYates(OrderedDeck(), draws)| == DeckSize
    ensures multiset(FisherYates(OrderedDeck(), draws)) == multiset(OrderedDeck())
    ensures forall c: Card :: c in FisherYates(OrderedDeck(), draws)
    ensures forall c: Card :: multiset(FisherYates(OrderedDeck(), draws))[c] == 1
  {
    FisherYatesPermutes(OrderedDeck(), draws);
    OrderedDeckDistinct();
    forall c: Card ensures c in FisherYates(OrderedDeck(), draws)
                   && multiset(FisherYates(OrderedDeck(), draws))[c] == 1 {
      OrderedDeckComplete(c);
      DistinctOnce(OrderedDeck(), c);
      assert c in multiset(OrderedDeck());
    }
  }
}
