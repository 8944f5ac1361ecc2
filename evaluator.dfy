/**
 * The hand evaluator of poker-game.js: checkFlush, checkStraight and checkPairs count the
 * suits and values of the cards, and evaluateHand picks the first category, in a fixed
 * priority order, whose test passes.
 *
 * The predicates HasFlush, HasStraight and Pairs state each test in terms of how often
 * a suit or a value occurs; the methods CheckFlush, CheckStraight and CheckPairs run the
 * source's loops and are proved to compute them.
 */
module HandEvaluator {
  import opened Wrappers
  import opened Seqs
  import opened Cards

  function SuitOf(c: Card): Suit { c.suit }

  function ValueOf(c: Card): int { c.Value() }

  /** How many of the cards have suit s. */
  function SuitCount(cards: seq<Card>, s: Suit): nat {
    multiset(Map(SuitOf, cards))[s]
  }

  /** How many of the cards have value v. */
  function ValueCount(cards: seq<Card>, v: int): nat {
    multiset(Map(ValueOf, cards))[v]
  }

  /** The distinct values among the cards. */
  function ValueSet(cards: seq<Card>): (vs: set<int>)
    ensures forall v :: v in vs ==> 2 <= v <= 14
  {
    set v | v in Map(ValueOf, cards)
  }

  lemma ValueSetCounts(cards: seq<Card>)
    ensures forall v :: v in ValueSet(cards) <==> ValueCount(cards, v) > 0
  {
  }

  /** Some suit occurs at least five times. */
  predicate HasFlush(cards: seq<Card>) {
    exists s :: s in Suits && SuitCount(cards, s) >= 5
  }

  /** The values v, v+1, v+2, v+3, v+4 all occur for some v. */
  predicate HasRun(vs: set<int>) {
    exists v :: v in vs && v + 1 in vs && v + 2 in vs && v + 3 in vs && v + 4 in vs
  }

  /** The ace (14) together with 2, 3, 4 and 5. */
  predicate HasWheel(vs: set<int>) {
    14 in vs && 2 in vs && 3 in vs && 4 in vs && 5 in vs
  }

  predicate HasStraight(cards: seq<Card>) {
    HasRun(ValueSet(cards)) || HasWheel(ValueSet(cards))
  }

  /** Some value occurs exactly n times. */
  predicate HasValueCount(cards: seq<Card>, n: nat) {
    exists v :: v in ValueSet(cards) && ValueCount(cards, v) == n
  }

  /** Two different values each occur exactly twice. */
  predicate HasTwoPairs(cards: seq<Card>) {
    exists v, w :: v in ValueSet(cards) && w in ValueSet(cards) && v != w
                   && ValueCount(cards, v) == 2 && ValueCount(cards, w) == 2
  }

  /** The object checkPairs returns. */
  datatype PairFlags = PairFlags(fourOfKind: bool, threeOfKind: bool, pair: bool, twoPair: bool)

  function Pairs(cards: seq<Card>): PairFlags {
    PairFlags(HasValueCount(cards, 4), HasValueCount(cards, 3), HasValueCount(cards, 2),
              HasTwoPairs(cards))
  }

  lemma CountStep(cards: seq<Card>, k: nat)
    requires k < |cards|
    ensures Map(SuitOf, cards[..k + 1]) == Map(SuitOf, cards[..k]) + [cards[k].suit]
    ensures Map(ValueOf, cards[..k + 1]) == Map(ValueOf, cards[..k]) + [cards[k].Value()]
  {
    assert cards[..k + 1] == cards[..k] + [cards[k]];
    MapAppend(SuitOf, cards[..k], [cards[k]]);
    MapAppend(ValueOf, cards[..k], [cards[k]]);
  }

  /** checkFlush: count the cards of each suit in a map, then look for a count of five or more. */
  method CheckFlush(cards: seq<Card>) returns (flush: bool)
    ensures flush == HasFlush(cards)
  {
    var suits: map<Suit, nat> := map[];
    var k := 0;
    while k < |cards|
      invariant 0 <= k <= |cards|
      invariant forall s :: s in suits <==> SuitCount(cards[..k], s) > 0
      invariant forall s :: s in suits ==> suits[s] == SuitCount(cards[..k], s)
    {
      var s := cards[k].suit;
      CountStep(cards, k);
      suits := suits[s := (if s in suits then suits[s] else 0) + 1];
      k := k + 1;
    }
    assert cards[..k] == cards;
    flush := exists s :: s in suits && suits[s] >= 5;
    if flush {
      var s :| s in suits && suits[s] >= 5;
      assert Suits[SuitIndex(s)] == s;
    }
  }

  predicate Increasing(s: seq<int>) {
    forall i, j :: 0 <= i < j < |s| ==> s[i] < s[j]
  }

  /** values lists the distinct values of the cards in increasing order. */
  ghost predicate IsSortedValues(values: seq<int>, cards: seq<Card>) {
    Increasing(values) && forall v :: v in values <==> v in ValueSet(cards)
  }

  /** Insert x into an increasing sequence unless it is already there. */
  function InsertSorted(s: seq<int>, x: int): (r: seq<int>)
    requires Increasing(s)
    ensures Increasing(r)
    ensures forall v :: v in r <==> v in s || v == x
    decreases |s|
  {
    if |s| == 0 then [x]
    else if x < s[0] then [x] + s
    else if x == s[0] then s
    else
      var rest := InsertSorted(s[1..], x);
      assert forall k :: 0 <= k < |rest| ==> rest[k] in rest;
      [s[0]] + rest
  }

  /**
   * `[...new Set(cards.map(c => c.value))].sort((a, b) => a - b)`: the distinct values in
   * increasing order (an increasing sequence is determined by its elements).
   */
  function SortedValues(cards: seq<Card>): (r: seq<int>)
    ensures IsSortedValues(r, cards)
  {
    if |cards| == 0 then []
    else
      var n := |cards| - 1;
      assert cards == cards[..n] + [cards[n]];
      MapAppend(ValueOf, cards[..n], [cards[n]]);
      InsertSorted(SortedValues(cards[..n]), cards[n].Value())
  }

  /** The successor of an element, when it is present too, is the next element. */
  lemma NextInRun(s: seq<int>, i: nat)
    requires Increasing(s) && i < |s| && s[i] + 1 in s
    ensures i + 1 < |s| && s[i + 1] == s[i] + 1
  {
    var j :| 0 <= j < |s| && s[j] == s[i] + 1;
    assert i < j;
  }

  /** A window of five increasing integers spanning 4 holds five consecutive values. */
  lemma {:induction false} WindowIsRun(s: seq<int>, i: nat)
    requires Increasing(s) && i + 4 < |s| && s[i + 4] - s[i] == 4
    ensures s[i + 1] == s[i] + 1 && s[i + 2] == s[i] + 2
    ensures s[i + 3] == s[i] + 3 && s[i + 4] == s[i] + 4
  {
    assert s[i] < s[i + 1] < s[i + 2] < s[i + 3] < s[i + 4];
  }

  /** Five consecutive values present start a window that spans 4. */
  lemma {:induction false} RunIsWindow(s: seq<int>, v: int)
    requires Increasing(s)
    requires v in s && v + 1 in s && v + 2 in s && v + 3 in s && v + 4 in s
    ensures exists i :: 0 <= i && i + 4 < |s| && s[i + 4] - s[i] == 4
  {
    var i :| 0 <= i < |s| && s[i] == v;
    NextInRun(s, i);
    NextInRun(s, i + 1);
    NextInRun(s, i + 2);
    NextInRun(s, i + 3);
  }

  /** A window of the sorted values whose ends differ by 4 is a straight. */
  lemma WindowIsStraight(cards: seq<Card>, values: seq<int>, i: nat)
    requires IsSortedValues(values, cards)
    requires i + 4 < |values| && values[i + 4] - values[i] == 4
    ensures HasStraight(cards)
  {
    WindowInSet(values, ValueSet(cards), i);
  }

  lemma WindowInSet(values: seq<int>, vs: set<int>, i: nat)
    requires Increasing(values) && forall v :: v in values <==> v in vs
    requires i + 4 < |values| && values[i + 4] - values[i] == 4
    ensures HasRun(vs)
  {
    WindowIsRun(values, i);
    assert values[i] in vs && values[i + 1] in vs && values[i + 2] in vs;
    assert values[i + 3] in vs && values[i + 4] in vs;
  }

  /** With no such window there are no five consecutive values. */
  lemma NoWindowNoRun(cards: seq<Card>, values: seq<int>)
    requires IsSortedValues(values, cards)
    requires forall k :: 0 <= k && k + 4 < |values| ==> values[k + 4] - values[k] != 4
    ensures !HasRun(ValueSet(cards))
  {
    if HasRun(ValueSet(cards)) {
      var v :| v in ValueSet(cards) && v + 1 in ValueSet(cards) && v + 2 in ValueSet(cards)
               && v + 3 in ValueSet(cards) && v + 4 in ValueSet(cards);
      RunIsWindow(values, v);
      assert false;
    }
  }

  lemma WheelAmongValues(cards: seq<Card>, values: seq<int>)
    requires IsSortedValues(values, cards)
    ensures (14 in values && 2 in values && 3 in values && 4 in values && 5 in values)
            == HasWheel(ValueSet(cards))
  {
  }

  /**
   * checkStraight: look for a window of five sorted distinct values whose ends differ
   * by 4, then for the wheel A-2-3-4-5.
   */
  method CheckStraight(cards: seq<Card>) returns (straight: bool)
    ensures straight == HasStraight(cards)
  {
    var values := SortedValues(cards);
    var i := 0;
    while i <= |values| - 5
      invariant 0 <= i
      invariant forall k :: 0 <= k < i && k + 4 < |values| ==> values[k + 4] - values[k] != 4
    {
      if values[i + 4] - values[i] == 4 {
        WindowIsStraight(cards, values, i);
        return true;
      }
      i := i + 1;
    }
    NoWindowNoRun(cards, values);
    WheelAmongValues(cards, values);
    straight := 14 in values && 2 in values && 3 in values && 4 in values && 5 in values;
  }

  /** A map that holds, for every value present, how often it occurs among the cards. */
  ghost predicate IsValueCountMap(m: map<int, nat>, cards: seq<Card>) {
    && (forall v :: v in m <==> ValueCount(cards, v) > 0)
    && (forall v :: v in m ==> m[v] == ValueCount(cards, v))
  }

  lemma CountMapAnswers(m: map<int, nat>, cards: seq<Card>, n: nat)
    requires IsValueCountMap(m, cards) && n > 0
    ensures (exists v :: v in m && m[v] == n) == HasValueCount(cards, n)
  {
    ValueSetCounts(cards);
  }

  lemma CountMapTwoPairs(m: map<int, nat>, cards: seq<Card>)
    requires IsValueCountMap(m, cards)
    ensures (|set v | v in m && m[v] == 2| >= 2) == HasTwoPairs(cards)
  {
    ValueSetCounts(cards);
    var twos := set v | v in m && m[v] == 2;
    var pairValues := set v | v in ValueSet(cards) && ValueCount(cards, v) == 2;
    forall v ensures v in twos <==> v in pairValues {
      assert v in m <==> ValueCount(cards, v) > 0;
    }
    assert twos == pairValues;
    TwoPairsBySet(cards);
  }

  /** Two pairs means at least two values occur exactly twice. */
  lemma TwoPairsBySet(cards: seq<Card>)
    ensures (|set v | v in ValueSet(cards) && ValueCount(cards, v) == 2| >= 2) == HasTwoPairs(cards)
  {
    var twos := set v | v in ValueSet(cards) && ValueCount(cards, v) == 2;
    TwoElements(twos);
    if HasTwoPairs(cards) {
      var v, w :| v in ValueSet(cards) && w in ValueSet(cards) && v != w
                  && ValueCount(cards, v) == 2 && ValueCount(cards, w) == 2;
      assert v in twos && w in twos;
    }
    if |twos| >= 2 {
      var v, w :| v in twos && w in twos && v != w;
      assert v in ValueSet(cards) && w in ValueSet(cards);
    }
  }

  /**
   * checkPairs: count the cards of each value in a map, then ask whether some count is
   * 4, 3 or 2, and whether at least two counts are 2.
   */
  method CheckPairs(cards: seq<Card>) returns (pairs: PairFlags)
    ensures pairs == Pairs(cards)
  {
    var ranks := CountValues(cards);
    CountMapAnswers(ranks, cards, 4);
    CountMapAnswers(ranks, cards, 3);
    CountMapAnswers(ranks, cards, 2);
    CountMapTwoPairs(ranks, cards);
    pairs := PairFlags(exists v :: v in ranks && ranks[v] == 4,
                       exists v :: v in ranks && ranks[v] == 3,
                       exists v :: v in ranks && ranks[v] == 2,
                       |set v | v in ranks && ranks[v] == 2| >= 2);
  }

  /** The forEach of checkPairs: the map from each value present to how many cards have it. */
  method CountValues(cards: seq<Card>) returns (ranks: map<int, nat>)
    ensures forall v :: v in ranks <==> ValueCount(cards, v) > 0
    ensures forall v :: v in ranks ==> ranks[v] == ValueCount(cards, v)
  {
    ranks := map[];
    var k := 0;
    while k < |cards|
      invariant 0 <= k <= |cards|
      invariant forall v :: v in ranks <==> ValueCount(cards[..k], v) > 0
      invariant forall v :: v in ranks ==> ranks[v] == ValueCount(cards[..k], v)
    {
      var v := cards[k].Value();
      CountStep(cards, k);
      ranks := ranks[v := (if v in ranks then ranks[v] else 0) + 1];
      k := k + 1;
    }
    assert cards[..k] == cards;
  }

  /** `Math.max(...cards.map(c => c.value))` for a non-empty list of cards. */
  function MaxValue(cards: seq<Card>): (m: int)
    requires |cards| > 0
    ensures forall c :: c in cards ==> c.Value() <= m
    ensures exists c :: c in cards && c.Value() == m
  {
    if |cards| == 1 then cards[0].Value()
    else
      var rest := MaxValue(cards[1..]);
      assert forall c :: c in cards ==> c == cards[0] || c in cards[1..];
      if cards[0].Value() > rest then cards[0].Value() else rest
  }

  /** What evaluateHand returns: the category rank 0..8, its name and, for High Card only, the highest value. */
  datatype Evaluation = Evaluation(rank: int, name: string, highCard: Option<int>)

  function CategoryName(rank: int): (name: string)
    ensures name == "High Card" <==> !(1 <= rank <= 8)
  {
    match rank
    case 8 => "Straight Flush"
    case 7 => "Four of a Kind"
    case 6 => "Full House"
    case 5 => "Flush"
    case 4 => "Straight"
    case 3 => "Three of a Kind"
    case 2 => "Two Pair"
    case 1 => "Pair"
    case _ => "High Card"
  }

  /** The nine categories have nine different names. */
  lemma CategoryNamesDistinct(r: int, r': int)
    requires 0 <= r < r' <= 8
    ensures CategoryName(r) != CategoryName(r')
  {
  }

  /**
   * The priority chain of evaluateHand over the three test results: the first category,
   * from Straight Flush (8) down to High Card (0), whose test passes.
   */
  function Category(flush: bool, straight: bool, p: PairFlags): (rank: int)
    ensures 0 <= rank <= 8
  {
    if flush && straight then 8
    else if p.fourOfKind then 7
    else if p.threeOfKind && p.pair then 6
    else if flush then 5
    else if straight then 4
    else if p.threeOfKind then 3
    else if p.twoPair then 2
    else if p.pair then 1
    else 0
  }

  /** evaluateHand: the category of the hole cards and the community cards together. */
  function EvaluateHand(hand: seq<Card>, community: seq<Card>): (e: Evaluation)
    ensures 0 <= e.rank <= 8
    ensures e.name == CategoryName(e.rank)
    ensures e.highCard.Some? <==> e.rank == 0 && |hand + community| > 0
    ensures e.highCard.Some? ==>
              (forall c :: c in hand + community ==> c.Value() <= e.highCard.value)
              && (exists c :: c in hand + community && c.Value() == e.highCard.value)
  {
    var all := hand + community;
    var rank := Category(HasFlush(all), HasStraight(all), Pairs(all));
    Evaluation(rank, CategoryName(rank), if rank == 0 && |all| > 0 then Some(MaxValue(all)) else None)
  }

  /** Two values occurring twice include one value occurring twice. */
  lemma TwoPairsHavePair(cards: seq<Card>)
    ensures HasTwoPairs(cards) ==> HasValueCount(cards, 2)
  {
    if HasTwoPairs(cards) {
      var v, w :| v in ValueSet(cards) && w in ValueSet(cards) && v != w
                  && ValueCount(cards, v) == 2 && ValueCount(cards, w) == 2;
      assert HasValueCount(cards, 2);
    }
  }

  /**
   * The priority order: each test that passes puts a floor under the category, and each
   * category is reached only when its own test passes, so the rank is the first passing one.
   */
  lemma CategoryPriority(hand: seq<Card>, community: seq<Card>)
    ensures var all, e := hand + community, EvaluateHand(hand, community);
      && (e.rank == 8 <==> HasFlush(all) && HasStraight(all))
      && (HasValueCount(all, 4) ==> e.rank >= 7)
      && (HasValueCount(all, 3) && HasValueCount(all, 2) ==> e.rank >= 6)
      && (HasFlush(all) ==> e.rank >= 5)
      && (HasStraight(all) ==> e.rank >= 4)
      && (HasValueCount(all, 3) ==> e.rank >= 3)
      && (HasTwoPairs(all) ==> e.rank >= 2)
      && (HasValueCount(all, 2) ==> e.rank >= 1)
      && (e.rank == 7 ==> HasValueCount(all, 4))
      && (e.rank == 6 <==> !(HasFlush(all) && HasStraight(all)) && !HasValueCount(all, 4)
                           && HasValueCount(all, 3) && HasValueCount(all, 2))
      && (e.rank == 5 ==> HasFlush(all))
      && (e.rank == 4 ==> HasStraight(all))
      && (e.rank == 3 ==> HasValueCount(all, 3))
      && (e.rank == 2 ==> HasTwoPairs(all))
      && (e.rank == 1 ==> HasValueCount(all, 2))
      && (e.rank == 0 <==> !HasFlush(all) && !HasStraight(all) && !HasValueCount(all, 4)
                           && !HasValueCount(all, 3) && !HasValueCount(all, 2))
  {
    TwoPairsHavePair(hand + community);
  }

  /** A straight needs at least five distinct values. */
  lemma StraightNeedsFiveValues(cards: seq<Card>)
    requires HasStraight(cards)
    ensures |ValueSet(cards)| >= 5
  {
    var vs := ValueSet(cards);
    if HasRun(vs) {
      var v :| v in vs && v + 1 in vs && v + 2 in vs && v + 3 in vs && v + 4 in vs;
      FiveInSet(vs, v, v + 1, v + 2, v + 3, v + 4);
    } else {
      FiveInSet(vs, 2, 3, 4, 5, 14);
    }
  }

  lemma FiveInSet(vs: set<int>, a: int, b: int, c: int, d: int, e: int)
    requires a < b < c < d < e
    requires a in vs && b in vs && c in vs && d in vs && e in vs
    ensures |vs| >= 5
  {
    assert |{a, b, c, d, e}| == 5;
    SubsetSize({a, b, c, d, e}, vs);
  }

  /** Two lists with the same cards have the same suit counts and the same value counts. */
  lemma SameCardsSameCounts(a: seq<Card>, b: seq<Card>)
    requires multiset(a) == multiset(b)
    ensures forall s :: SuitCount(a, s) == SuitCount(b, s)
    ensures forall v :: ValueCount(a, v) == ValueCount(b, v)
  {
    MapPermutation(SuitOf, a, b);
    MapPermutation(ValueOf, a, b);
  }

  /** The flush test depends only on the suit counts. */
  lemma SameCountsSameFlush(a: seq<Card>, b: seq<Card>)
    requires forall s :: SuitCount(a, s) == SuitCount(b, s)
    ensures HasFlush(a) == HasFlush(b)
  {
  }

  /** The distinct values depend only on the value counts. */
  lemma SameCountsSameValues(a: seq<Card>, b: seq<Card>)
    requires forall v :: ValueCount(a, v) == ValueCount(b, v)
    ensures ValueSet(a) == ValueSet(b)
  {
    ValueSetCounts(a);
    ValueSetCounts(b);
  }

  /** The pair tests depend only on the value counts. */
  lemma SameCountsSamePairs(a: seq<Card>, b: seq<Card>)
    requires forall v :: ValueCount(a, v) == ValueCount(b, v)
    ensures Pairs(a) == Pairs(b)
  {
    SameCountsSameValues(a, b);
  }

  /** The categories agree for any two card lists with the same cards, whatever their order. */
  lemma EvaluateIgnoresOrder(hand: seq<Card>, community: seq<Card>,
                             hand': seq<Card>, community': seq<Card>)
    requires multiset(hand + community) == multiset(hand' + community')
    ensures EvaluateHand(hand, community) == EvaluateHand(hand', community')
  {
    var a, b := hand + community, hand' + community';
    SameCardsSameCounts(a, b);
    SameCountsSameFlush(a, b);
    SameCountsSameValues(a, b);
    SameCountsSamePairs(a, b);
    assert |a| == |multiset(a)| == |multiset(b)| == |b|;
    if |a| > 0 {
      MaxOfSameCards(a, b);
    }
  }

  /** The maximum value depends only on which cards are present. */
  lemma MaxOfSameCards(a: seq<Card>, b: seq<Card>)
    requires |a| > 0 && |b| > 0 && multiset(a) == multiset(b)
    ensures MaxValue(a) == MaxValue(b)
  {
    assert forall c :: c in a <==> c in multiset(a);
    assert forall c :: c in b <==> c in multiset(b);
  }

  /** Adding a card adds one to the count of its suit and one to the count of its value. */
  lemma AppendCounts(cards: seq<Card>, c: Card)
    ensures forall s :: SuitCount(cards + [c], s) == SuitCount(cards, s) + (if s == c.suit then 1 else 0)
    ensures forall v :: ValueCount(cards + [c], v) == ValueCount(cards, v) + (if v == c.Value() then 1 else 0)
  {
    MapAppend(SuitOf, cards, [c]);
    MapAppend(ValueOf, cards, [c]);
    assert Map(SuitOf, [c]) == [c.suit];
    assert Map(ValueOf, [c]) == [c.Value()];
  }

  /** Adding a card adds its value to the value set and takes no flush or straight away. */
  lemma AppendKeepsFlushAndStraight(cards: seq<Card>, c: Card)
    ensures ValueSet(cards + [c]) == ValueSet(cards) + {c.Value()}
    ensures HasFlush(cards) ==> HasFlush(cards + [c])
    ensures HasStraight(cards) ==> HasStraight(cards + [c])
  {
    MapAppend(ValueOf, cards, [c]);
    assert Map(ValueOf, [c]) == [c.Value()];
    assert Map(ValueOf, cards + [c]) == Map(ValueOf, cards) + [c.Value()];
    if HasFlush(cards) {
      var s :| s in Suits && SuitCount(cards, s) >= 5;
      AppendCounts(cards, c);
      assert SuitCount(cards + [c], s) >= 5;
    }
    RunsGrow(ValueSet(cards), c.Value());
  }

  /** One more value keeps a run or a wheel. */
  lemma RunsGrow(vs: set<int>, x: int)
    ensures HasRun(vs) ==> HasRun(vs + {x})
    ensures HasWheel(vs) ==> HasWheel(vs + {x})
  {
    if HasRun(vs) {
      var v :| v in vs && v + 1 in vs && v + 2 in vs && v + 3 in vs && v + 4 in vs;
      RunInSuperset(vs, vs + {x}, v);
    }
  }

  lemma RunInSuperset(vs: set<int>, ws: set<int>, v: int)
    requires vs <= ws
    requires v in vs && v + 1 in vs && v + 2 in vs && v + 3 in vs && v + 4 in vs
    ensures HasRun(ws)
  {
    assert v in ws && v + 1 in ws && v + 2 in ws && v + 3 in ws && v + 4 in ws;
  }

  /** With the same pair flags, the category can only rise when a flush or a straight appears. */
  lemma CategoryMonotone(flush: bool, straight: bool, flush': bool, straight': bool, p: PairFlags)
    requires (flush ==> flush') && (straight ==> straight')
    ensures Category(flush, straight, p) <= Category(flush', straight', p)
  {
  }

  /** A card with a value not yet present changes no count of 2 or more. */
  lemma NewValueKeepsCounts(cards: seq<Card>, c: Card, n: nat)
    requires c.Value() !in ValueSet(cards) && n >= 2
    ensures HasValueCount(cards + [c], n) == HasValueCount(cards, n)
  {
    AppendCounts(cards, c);
    ValueSetCounts(cards);
    ValueSetCounts(cards + [c]);
    if HasValueCount(cards + [c], n) {
      var v :| v in ValueSet(cards + [c]) && ValueCount(cards + [c], v) == n;
      assert v in ValueSet(cards) && ValueCount(cards, v) == n;
    }
    if HasValueCount(cards, n) {
      var v :| v in ValueSet(cards) && ValueCount(cards, v) == n;
      assert v in ValueSet(cards + [c]) && ValueCount(cards + [c], v) == n;
    }
  }

  /** A card with a value not yet present leaves the two-pair test as it was. */
  lemma NewValueKeepsTwoPairs(cards: seq<Card>, c: Card)
    requires c.Value() !in ValueSet(cards)
    ensures HasTwoPairs(cards + [c]) == HasTwoPairs(cards)
  {
    AppendCounts(cards, c);
    ValueSetCounts(cards);
    ValueSetCounts(cards + [c]);
    assert ValueCount(cards + [c], c.Value()) == 1;
    if HasTwoPairs(cards + [c]) {
      var v, w :| v in ValueSet(cards + [c]) && w in ValueSet(cards + [c]) && v != w
                  && ValueCount(cards + [c], v) == 2 && ValueCount(cards + [c], w) == 2;
      assert ValueCount(cards, v) == 2 && ValueCount(cards, w) == 2;
      assert v in ValueSet(cards) && w in ValueSet(cards);
    }
    if HasTwoPairs(cards) {
      var v, w :| v in ValueSet(cards) && w in ValueSet(cards) && v != w
                  && ValueCount(cards, v) == 2 && ValueCount(cards, w) == 2;
      assert ValueCount(cards + [c], v) == 2 && ValueCount(cards + [c], w) == 2;
      assert v in ValueSet(cards + [c]) && w in ValueSet(cards + [c]);
    }
  }

  /** A card whose value is already present leaves the value set, so the straight test, as it was. */
  lemma OldValueKeepsStraight(cards: seq<Card>, c: Card)
    ensures c.Value() in ValueSet(cards) ==> HasStraight(cards + [c]) == HasStraight(cards)
  {
    AppendKeepsFlushAndStraight(cards, c);
    if c.Value() in ValueSet(cards) {
      assert ValueSet(cards + [c]) == ValueSet(cards);
    }
  }

  /**
   * A card that completes a straight brings a value not yet present, so the pair tests keep
   * their results and the category never goes down.
   */
  lemma StraightCompletionKeepsCategory(hand: seq<Card>, community: seq<Card>, c: Card)
    requires !HasStraight(hand + community) && HasStraight(hand + community + [c])
    ensures EvaluateHand(hand, community + [c]).rank >= EvaluateHand(hand, community).rank
  {
    var all := hand + community;
    assert hand + (community + [c]) == all + [c];
    AppendKeepsFlushAndStraight(all, c);
    OldValueKeepsStraight(all, c);
    NewValueKeepsCounts(all, c, 2);
    NewValueKeepsCounts(all, c, 3);
    NewValueKeepsCounts(all, c, 4);
    NewValueKeepsTwoPairs(all, c);
    CategoryMonotone(HasFlush(all), HasStraight(all), HasFlush(all + [c]), HasStraight(all + [c]), Pairs(all));
  }

  /** Only the rank r has the value CardValue(r). */
  lemma ValueDeterminesRank(a: Rank, b: Rank)
    ensures CardValue(a) == CardValue(b) ==> a == b
  {
  }

  /**
   * The cards of suit x and the cards of value CardValue(r) overlap only in the card of rank
   * r and suit x, so together they number at most the cards plus its copies.
   */
  lemma {:induction false} SuitValueOverlap(cards: seq<Card>, x: Suit, r: Rank)
    ensures SuitCount(cards, x) + ValueCount(cards, CardValue(r)) <= |cards| + multiset(cards)[Card(r, x)]
    decreases |cards|
  {
    if |cards| > 0 {
      var n := |cards| - 1;
      var rest, d := cards[..n], cards[n];
      assert cards == rest + [d];
      AppendCounts(rest, d);
      SuitValueOverlap(rest, x, r);
      ValueDeterminesRank(d.rank, r);
    }
  }

  /** The same overlap bound for the suit x and two different values. */
  lemma {:induction false} SuitTwoValuesOverlap(cards: seq<Card>, x: Suit, r: Rank, r': Rank)
    requires r != r'
    ensures SuitCount(cards, x) + ValueCount(cards, CardValue(r)) + ValueCount(cards, CardValue(r'))
            <= |cards| + multiset(cards)[Card(r, x)] + multiset(cards)[Card(r', x)]
    decreases |cards|
  {
    ValueDeterminesRank(r, r');
    if |cards| > 0 {
      var n := |cards| - 1;
      var rest, d := cards[..n], cards[n];
      assert cards == rest + [d];
      AppendCounts(rest, d);
      SuitTwoValuesOverlap(rest, x, r, r');
      ValueDeterminesRank(d.rank, r);
      ValueDeterminesRank(d.rank, r');
    }
  }

  /** The rank whose value is v, for a value that some card has. */
  function RankOfValue(v: int): (r: Rank)
    requires 2 <= v <= 14
    ensures CardValue(r) == v
  {
    Ranks[v - 2]
  }

  /**
   * Six distinct cards of which four share a suit hold no four of a kind and no full house:
   * each value can have at most one card of that suit.
   */
  lemma FourOfSuitLeavesNoFullHouse(cards: seq<Card>, x: Suit)
    requires forall i, j :: 0 <= i < j < |cards| ==> cards[i] != cards[j]
    requires |cards| <= 6 && SuitCount(cards, x) == 4
    ensures forall v :: ValueCount(cards, v) <= 3
    ensures forall v, w :: v != w ==> ValueCount(cards, v) + ValueCount(cards, w) <= 4
  {
    ValueSetCounts(cards);
    forall c: Card ensures multiset(cards)[c] <= 1 {
      if c in cards {
        DistinctOnce(cards, c);
      }
    }
    forall v | ValueCount(cards, v) > 0 ensures ValueCount(cards, v) <= 3 {
      SuitValueOverlap(cards, x, RankOfValue(v));
    }
    forall v, w | v != w && ValueCount(cards, v) > 0 && ValueCount(cards, w) > 0
      ensures ValueCount(cards, v) + ValueCount(cards, w) <= 4
    {
      SuitTwoValuesOverlap(cards, x, RankOfValue(v), RankOfValue(w));
    }
  }

  /**
   * A card that completes a flush never lowers the category when the cards are distinct and
   * number at most seven with it, as for two hole cards and up to five community cards: four
   * cards of one suit leave no room in six for a four of a kind or a full house.
   */
  lemma FlushCompletionKeepsCategory(hand: seq<Card>, community: seq<Card>, c: Card)
    requires forall i, j :: 0 <= i < j < |hand + community + [c]| ==>
               (hand + community + [c])[i] != (hand + community + [c])[j]
    requires |hand + community| <= 6
    requires !HasFlush(hand + community) && HasFlush(hand + community + [c])
    ensures EvaluateHand(hand, community + [c]).rank >= EvaluateHand(hand, community).rank
  {
    var all := hand + community;
    assert hand + (community + [c]) == all + [c];
    assert forall i :: 0 <= i < |all| ==> (all + [c])[i] == all[i];
    AppendCounts(all, c);
    var s :| s in Suits && SuitCount(all + [c], s) >= 5;
    assert s == c.suit && SuitCount(all, s) == 4;
    FourOfSuitLeavesNoFullHouse(all, s);
    CategoryPriority(hand, community);
    CategoryPriority(hand, community + [c]);
  }

  /*
   * Worked hands. Each list of seven cards gets its suit and value counts from small lemmas
   * about the literal lists, and the category then follows from CategoryPriority.
   */

  /** 9♣ 9♦ in the hand, then 2♠ 3♠ 4♠ 5♠ 6♠ on the table. */
  const BoardFlushCards: seq<Card> :=
    [Card(Nine, Clubs), Card(Nine, Diamonds), Card(Two, Spades), Card(Three, Spades),
     Card(Four, Spades), Card(Five, Spades), Card(Six, Spades)]

  lemma BoardFlushSuits(s: Suit)
    ensures SuitCount(BoardFlushCards, s) ==
              if s == Spades then 5 else if s == Hearts then 0 else 1
  {
    assert Map(SuitOf, BoardFlushCards) == [Clubs, Diamonds, Spades, Spades, Spades, Spades, Spades];
    BoardFlushSuitList(s);
  }

  lemma BoardFlushSuitList(s: Suit)
    ensures multiset([Clubs, Diamonds, Spades, Spades, Spades, Spades, Spades])[s] ==
              if s == Spades then 5 else if s == Hearts then 0 else 1
  {
  }

  lemma BoardFlushValues(v: int)
    ensures ValueCount(BoardFlushCards, v) == if v == 9 then 2 else if 2 <= v <= 6 then 1 else 0
  {
    assert Map(ValueOf, BoardFlushCards) == [9, 9, 2, 3, 4, 5, 6];
    BoardFlushValueList(v);
  }

  lemma BoardFlushValueList(v: int)
    ensures multiset([9, 9, 2, 3, 4, 5, 6])[v] == if v == 9 then 2 else if 2 <= v <= 6 then 1 else 0
  {
  }

  lemma BoardFlushTests()
    ensures HasFlush(BoardFlushCards) && HasStraight(BoardFlushCards)
  {
    BoardFlushSuits(Spades);
    ValueSetCounts(BoardFlushCards);
    BoardFlushValues(2);
    BoardFlushValues(3);
    BoardFlushValues(4);
    BoardFlushValues(5);
    BoardFlushValues(6);
    RunInSuperset(ValueSet(BoardFlushCards), ValueSet(BoardFlushCards), 2);
  }

  /** With 2♠ 3♠ 4♠ 5♠ 6♠ on the table and 9♣ 9♦ in the hand, the board alone is a straight flush. */
  lemma BoardStraightFlush()
    ensures EvaluateHand([Card(Nine, Clubs), Card(Nine, Diamonds)],
                         [Card(Two, Spades), Card(Three, Spades), Card(Four, Spades),
                          Card(Five, Spades), Card(Six, Spades)]).rank == 8
  {
    var hand := [Card(Nine, Clubs), Card(Nine, Diamonds)];
    var community := [Card(Two, Spades), Card(Three, Spades), Card(Four, Spades),
                      Card(Five, Spades), Card(Six, Spades)];
    assert hand + community == BoardFlushCards;
    BoardFlushTests();
    CategoryPriority(hand, community);
  }

  /** A♠ A♦ in the hand, then A♥ A♣ 2♠ 7♦ 9♣ on the table. */
  const FourAcesCards: seq<Card> :=
    [Card(Ace, Spades), Card(Ace, Diamonds), Card(Ace, Hearts), Card(Ace, Clubs),
     Card(Two, Spades), Card(Seven, Diamonds), Card(Nine, Clubs)]

  lemma FourAcesSuits(s: Suit)
    ensures SuitCount(FourAcesCards, s) == if s == Hearts then 1 else 2
  {
    assert Map(SuitOf, FourAcesCards) == [Spades, Diamonds, Hearts, Clubs, Spades, Diamonds, Clubs];
    FourAcesSuitList(s);
  }

  lemma FourAcesSuitList(s: Suit)
    ensures multiset([Spades, Diamonds, Hearts, Clubs, Spades, Diamonds, Clubs])[s] ==
              if s == Hearts then 1 else 2
  {
  }

  lemma FourAcesValues()
    ensures ValueCount(FourAcesCards, 14) == 4
  {
    assert Map(ValueOf, FourAcesCards) == [14, 14, 14, 14, 2, 7, 9];
    FourAcesValueList();
  }

  lemma FourAcesValueList()
    ensures multiset([14, 14, 14, 14, 2, 7, 9])[14] == 4
  {
  }

  lemma FourAcesTests()
    ensures !HasFlush(FourAcesCards) && HasValueCount(FourAcesCards, 4)
  {
    forall s ensures SuitCount(FourAcesCards, s) <= 2 {
      FourAcesSuits(s);
    }
    FourAcesValues();
    ValueSetCounts(FourAcesCards);
    assert 14 in ValueSet(FourAcesCards);
  }

  /** With A♠ A♦ in the hand and A♥ A♣ 2♠ 7♦ 9♣ on the table, the hand is four of a kind. */
  lemma FourAces()
    ensures EvaluateHand([Card(Ace, Spades), Card(Ace, Diamonds)],
                         [Card(Ace, Hearts), Card(Ace, Clubs), Card(Two, Spades),
                          Card(Seven, Diamonds), Card(Nine, Clubs)]).rank == 7
  {
    var hand := [Card(Ace, Spades), Card(Ace, Diamonds)];
    var community := [Card(Ace, Hearts), Card(Ace, Clubs), Card(Two, Spades),
                      Card(Seven, Diamonds), Card(Nine, Clubs)];
    assert hand + community == FourAcesCards;
    FourAcesTests();
    CategoryPriority(hand, community);
  }

  /** K♦ Q♣ in the hand, then A♠ 2♥ 3♦ 4♣ 5♠ on the table. */
  const WheelCards: seq<Card> :=
    [Card(King, Diamonds), Card(Queen, Clubs), Card(Ace, Spades), Card(Two, Hearts),
     Card(Three, Diamonds), Card(Four, Clubs), Card(Five, Spades)]

  lemma WheelSuits(s: Suit)
    ensures SuitCount(WheelCards, s) == if s == Hearts then 1 else 2
  {
    assert Map(SuitOf, WheelCards) == [Diamonds, Clubs, Spades, Hearts, Diamonds, Clubs, Spades];
    WheelSuitList(s);
  }

  lemma WheelSuitList(s: Suit)
    ensures multiset([Diamonds, Clubs, Spades, Hearts, Diamonds, Clubs, Spades])[s] ==
              if s == Hearts then 1 else 2
  {
  }

  lemma WheelValues(v: int)
    ensures ValueCount(WheelCards, v) == if 2 <= v <= 5 || 12 <= v <= 14 then 1 else 0
  {
    assert Map(ValueOf, WheelCards) == [13, 12, 14, 2, 3, 4, 5];
    WheelValueList(v);
  }

  lemma WheelValueList(v: int)
    ensures multiset([13, 12, 14, 2, 3, 4, 5])[v] == if 2 <= v <= 5 || 12 <= v <= 14 then 1 else 0
  {
  }

  lemma WheelTests()
    ensures !HasFlush(WheelCards) && HasStraight(WheelCards)
    ensures !HasValueCount(WheelCards, 4) && !HasValueCount(WheelCards, 3)
  {
    forall s ensures SuitCount(WheelCards, s) <= 2 {
      WheelSuits(s);
    }
    forall v ensures ValueCount(WheelCards, v) <= 1 {
      WheelValues(v);
    }
    ValueSetCounts(WheelCards);
    WheelValues(14);
    WheelValues(2);
    WheelValues(3);
    WheelValues(4);
    WheelValues(5);
    assert HasWheel(ValueSet(WheelCards));
  }

  /** With K♦ Q♣ in the hand and A♠ 2♥ 3♦ 4♣ 5♠ on the table, the ace plays low: a straight. */
  lemma WheelStraight()
    ensures EvaluateHand([Card(King, Diamonds), Card(Queen, Clubs)],
                         [Card(Ace, Spades), Card(Two, Hearts), Card(Three, Diamonds),
                          Card(Four, Clubs), Card(Five, Spades)]).rank == 4
  {
    var hand := [Card(King, Diamonds), Card(Queen, Clubs)];
    var community := [Card(Ace, Spades), Card(Two, Hearts), Card(Three, Diamonds),
                      Card(Four, Clubs), Card(Five, Spades)];
    assert hand + community == WheelCards;
    WheelTests();
    CategoryPriority(hand, community);
  }

  /** K♠ K♥ K♦ Q♥ Q♦ 4♠ 7♠ 9♠: a full house with four spades, eight cards in all. */
  const EightCards: seq<Card> :=
    [Card(King, Spades), Card(King, Hearts), Card(King, Diamonds), Card(Queen, Hearts),
     Card(Queen, Diamonds), Card(Four, Spades), Card(Seven, Spades), Card(Nine, Spades)]

  lemma EightSuits(s: Suit)
    ensures SuitCount(EightCards, s) == if s == Spades then 4 else if s == Clubs then 0 else 2
  {
    assert Map(SuitOf, EightCards) == [Spades, Hearts, Diamonds, Hearts, Diamonds, Spades, Spades, Spades];
    EightSuitList(s);
  }

  lemma EightSuitList(s: Suit)
    ensures multiset([Spades, Hearts, Diamonds, Hearts, Diamonds, Spades, Spades, Spades])[s] ==
              if s == Spades then 4 else if s == Clubs then 0 else 2
  {
  }

  lemma EightValues(v: int)
    ensures ValueCount(EightCards, v) ==
              if v == 13 then 3 else if v == 12 then 2 else if v == 4 || v == 7 || v == 9 then 1 else 0
  {
    assert Map(ValueOf, EightCards) == [13, 13, 13, 12, 12, 4, 7, 9];
    EightValueList(v);
  }

  lemma EightValueList(v: int)
    ensures multiset([13, 13, 13, 12, 12, 4, 7, 9])[v] ==
              if v == 13 then 3 else if v == 12 then 2 else if v == 4 || v == 7 || v == 9 then 1 else 0
  {
  }

  lemma EightTests()
    ensures !HasFlush(EightCards) && !HasValueCount(EightCards, 4)
    ensures HasValueCount(EightCards, 3) && HasValueCount(EightCards, 2)
  {
    forall s ensures SuitCount(EightCards, s) <= 4 {
      EightSuits(s);
    }
    forall v ensures ValueCount(EightCards, v) <= 3 {
      EightValues(v);
    }
    ValueSetCounts(EightCards);
    EightValues(13);
    EightValues(12);
    assert 13 in ValueSet(EightCards) && 12 in ValueSet(EightCards);
  }

  /** The eight cards and Q♠: the count of each value. */
  lemma NineValues(v: int)
    ensures ValueCount(EightCards + [Card(Queen, Spades)], v) ==
              if v == 13 || v == 12 then 3 else if v == 4 || v == 7 || v == 9 then 1 else 0
  {
    AppendCounts(EightCards, Card(Queen, Spades));
    EightValues(v);
  }

  lemma NineValueSet()
    ensures ValueSet(EightCards + [Card(Queen, Spades)]) == {4, 7, 9, 12, 13}
  {
    ValueSetCounts(EightCards + [Card(Queen, Spades)]);
    forall v ensures v in ValueSet(EightCards + [Card(Queen, Spades)]) <==> v in {4, 7, 9, 12, 13} {
      NineValues(v);
    }
  }

  lemma NoStraightInNine()
    ensures !HasRun({4, 7, 9, 12, 13})
  {
    var vs: set<int> := {4, 7, 9, 12, 13};
    if HasRun(vs) {
      var v :| v in vs && v + 1 in vs && v + 2 in vs && v + 3 in vs && v + 4 in vs;
      NoThreeInNine(v);
      assert false;
    }
  }

  lemma NoThreeInNine(v: int)
    ensures !(v in {4, 7, 9, 12, 13} && v + 1 in {4, 7, 9, 12, 13} && v + 2 in {4, 7, 9, 12, 13})
  {
  }

  lemma NoWheelInNine()
    ensures !HasWheel({4, 7, 9, 12, 13})
  {
  }

  lemma NineTests()
    ensures HasFlush(EightCards + [Card(Queen, Spades)]) && !HasStraight(EightCards + [Card(Queen, Spades)])
    ensures !HasValueCount(EightCards + [Card(Queen, Spades)], 4)
    ensures !HasValueCount(EightCards + [Card(Queen, Spades)], 2)
  {
    NineFlush();
    NineNoStraight();
    forall v ensures ValueCount(EightCards + [Card(Queen, Spades)], v) != 2
                     && ValueCount(EightCards + [Card(Queen, Spades)], v) != 4 {
      NineValues(v);
    }
  }

  lemma NineFlush()
    ensures HasFlush(EightCards + [Card(Queen, Spades)])
  {
    AppendCounts(EightCards, Card(Queen, Spades));
    EightSuits(Spades);
    assert SuitCount(EightCards + [Card(Queen, Spades)], Spades) == 5;
  }

  lemma NineNoStraight()
    ensures !HasStraight(EightCards + [Card(Queen, Spades)])
  {
    NineValueSet();
    NoStraightInNine();
    NoWheelInNine();
  }

  /**
   * Without the bound of seven cards a flush can lower the category: K♠ K♥ with K♦ Q♥ Q♦ 4♠
   * 7♠ 9♠ is a full house, and Q♠ completes a flush but turns the pair of queens into a
   * second three of a kind, which the exact count of 2 no longer sees.
   */
  lemma FlushCompletionCanLowerCategory()
    ensures var hand, community := EightCards[..2], EightCards[2..];
      && EvaluateHand(hand, community).rank == 6
      && EvaluateHand(hand, community + [Card(Queen, Spades)]).rank == 5
  {
    var hand, community := EightCards[..2], EightCards[2..];
    assert hand + community == EightCards;
    assert hand + (community + [Card(Queen, Spades)]) == EightCards + [Card(Queen, Spades)];
    EightTests();
    NineTests();
    CategoryPriority(hand, community);
    CategoryPriority(hand, community + [Card(Queen, Spades)]);
  }
}
