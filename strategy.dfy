/**
 * The coaching heuristics of poker-game.js built on the hand evaluator: the strength score
 * of getHandStrength, the advice of getRecommendedAction and the randomised policy that
 * aiPlayerAction derives from that advice.
 *
 * They are stated here on values (the hole cards, the community cards, the amounts
 * involved); the PokerGame class reads those values from its fields and calls these.
 */
module Strategy {
  import opened Wrappers
  import opened Cards
  import opened HandEvaluator

  /** Math.min(100, Math.max(0, x)). */
  function Clamp(x: real): (c: real)
    ensures 0.0 <= c <= 100.0
    ensures 0.0 <= x <= 100.0 ==> c == x
  {
    if x < 0.0 then 0.0 else if x > 100.0 then 100.0 else x
  }

  /**
   * getHandStrength, in percent: 0 without hole cards; otherwise rank/8 of 100, plus, for
   * High Card only, up to 15 more scaled by how far the highest value is above 2.
   */
  function HandStrength(hand: seq<Card>, community: seq<Card>): (s: real)
    ensures 0.0 <= s <= 100.0
    ensures |hand| == 0 ==> s == 0.0
  {
    if |hand| == 0 then 0.0
    else
      var e := EvaluateHand(hand, community);
      var base := (e.rank as real / 8.0) * 100.0;
      if e.rank == 0 && e.highCard.Some? then
        Clamp(base + ((e.highCard.value - 2) as real / 12.0) * 15.0)
      else
        Clamp(base)
  }

  /**
   * What the score is for each category: 12.5 points per rank above High Card, and for
   * High Card 15 points scaled over the values 2..14 of the highest card.
   */
  lemma StrengthByCategory(hand: seq<Card>, community: seq<Card>)
    requires |hand| > 0
    ensures var e, s := EvaluateHand(hand, community), HandStrength(hand, community);
      && (e.rank > 0 ==> s == 12.5 * e.rank as real)
      && (e.rank == 0 ==> e.highCard.Some?
                          && s == (e.highCard.value - 2) as real * 15.0 / 12.0
                          && s <= 15.0)
  {
    var e := EvaluateHand(hand, community);
    assert |hand + community| > 0;
    if e.rank == 0 {
      var h := e.highCard.value;
      var c :| c in hand + community && c.Value() == h;
      assert 2 <= h <= 14;
    }
  }

  /** From Pair upwards a higher category always scores strictly more. */
  lemma StrengthIncreasesWithRank(hand: seq<Card>, community: seq<Card>,
                                  hand': seq<Card>, community': seq<Card>)
    requires |hand| > 0 && |hand'| > 0
    requires 1 <= EvaluateHand(hand, community).rank < EvaluateHand(hand', community').rank
    ensures HandStrength(hand, community) < HandStrength(hand', community')
  {
    StrengthByCategory(hand, community);
    StrengthByCategory(hand', community');
  }

  /**
   * The High Card bonus reaches past a Pair: a High Card hand whose top card is a king or
   * an ace scores more than any Pair hand (13.75 or 15 against 12.5).
   */
  lemma HighCardKingOutscoresPair(hand: seq<Card>, community: seq<Card>,
                                  hand': seq<Card>, community': seq<Card>)
    requires |hand| > 0 && |hand'| > 0
    requires EvaluateHand(hand, community).rank == 0
    requires exists c :: c in hand + community && c.Value() >= 13
    requires EvaluateHand(hand', community').rank == 1
    ensures HandStrength(hand, community) > HandStrength(hand', community')
  {
    StrengthByCategory(hand, community);
    StrengthByCategory(hand', community');
  }

  /** The four actions a seat can take. */
  datatype ActionName = Fold | Check | Call | Raise

  /** What getRecommendedAction returns: an action and the reason shown to the player. */
  datatype Recommendation = Recommendation(action: ActionName, reason: string)

  /** The share of the pot a call would be: callAmount / (pot + callAmount), or 0. */
  function PotOdds(callAmount: int, pot: int): (o: real)
    ensures callAmount == 0 ==> o == 0.0
    ensures callAmount >= 0 && pot >= 0 ==> 0.0 <= o <= 1.0
  {
    if pot + callAmount > 0 then
      var o := callAmount as real / (pot + callAmount) as real;
      assert o * (pot + callAmount) as real == callAmount as real;
      o
    else 0.0
  }

  /**
   * getRecommendedAction on a strength, the amount the seat owes and the pot: raise above
   * 70; call (check when nothing is owed) above 40; call above 20 when the pot odds are
   * below 0.3; otherwise check when nothing is owed and fold when something is.
   */
  function RecommendedAction(strength: real, callAmount: int, pot: int): (r: Recommendation)
    ensures r.action == Raise <==> strength > 70.0
    ensures r.action == Fold ==> callAmount != 0 && strength <= 40.0
    ensures r.action == Check ==> callAmount == 0 && strength <= 70.0
    ensures r.action == Call ==> 20.0 < strength <= 70.0 || callAmount != 0
    ensures 40.0 < strength <= 70.0 ==> r.action == (if callAmount == 0 then Check else Call)
    ensures strength <= 40.0 ==> (r.action == Call <==> strength > 20.0 && PotOdds(callAmount, pot) < 0.3)
    ensures strength <= 40.0 && r.action != Call ==> r.action == (if callAmount == 0 then Check else Fold)
  {
    if strength > 70.0 then
      Recommendation(Raise, "Strong hand - maximize value")
    else if strength > 40.0 then
      if callAmount == 0 then Recommendation(Check, "Decent hand - see more cards for free")
      else Recommendation(Call, "Decent hand - worth seeing more cards")
    else if strength > 20.0 && PotOdds(callAmount, pot) < 0.3 then
      Recommendation(Call, "Getting good pot odds")
    else if callAmount == 0 then
      Recommendation(Check, "Free card - why not?")
    else
      Recommendation(Fold, "Weak hand - save your chips")
  }

  /**
   * The advice for each category of the seat's cards: raise from Full House up; call or
   * check for Straight and Flush; for Two Pair and Three of a Kind call when the pot odds are
   * below 0.3 (always so when nothing is owed), else fold; and for Pair and High Card check
   * when nothing is owed, else fold.
   */
  lemma RecommendationByCategory(hand: seq<Card>, community: seq<Card>, callAmount: int, pot: int)
    requires |hand| > 0
    ensures var k := EvaluateHand(hand, community).rank;
            var a := RecommendedAction(HandStrength(hand, community), callAmount, pot).action;
      && (k >= 6 ==> a == Raise)
      && (4 <= k <= 5 ==> a == (if callAmount == 0 then Check else Call))
      && (2 <= k <= 3 ==> a == (if PotOdds(callAmount, pot) < 0.3 then Call else Fold))
      && (k <= 1 ==> a == (if callAmount == 0 then Check else Fold))
  {
    StrengthByCategory(hand, community);
  }

  /** What aiPlayerAction returns for a seat that may act: an action, or a raise to an amount. */
  datatype Decision = Move(action: ActionName) | RaiseTo(amount: int)

  /** Check when nothing is owed, call otherwise. */
  function CheckOrCall(callAmount: int): (a: ActionName)
    ensures a == Check <==> callAmount == 0
    ensures a == Check || a == Call
  {
    if callAmount == 0 then Check else Call
  }

  /**
   * aiPlayerAction for a seat that may act, with r the value of Math.random(): follow a
   * fold when r > 0.2 and a raise when r > 0.3 (raising by half the pot, rounded down),
   * otherwise check or call instead; follow any other advice as it is.
   */
  function AiDecision(advice: ActionName, callAmount: int, currentBet: int, pot: int, r: real)
    : (d: Decision)
    ensures d == Move(Fold) <==> advice == Fold && r > 0.2
    ensures d.RaiseTo? <==> advice == Raise && r > 0.3
    ensures d.RaiseTo? ==> d.amount == currentBet + pot / 2
    ensures d.Move? && d.action != advice ==> d.action == CheckOrCall(callAmount)
    ensures d.Move? ==> d.action != Raise
    ensures advice != Fold && advice != Raise ==> d == Move(advice)
  {
    if advice == Fold then
      if r > 0.2 then Move(Fold) else Move(CheckOrCall(callAmount))
    else if advice == Raise then
      if r > 0.3 then
        var half := (pot as real * 0.5).Floor;
        assert half == pot / 2 by { HalfFloor(pot); }
        RaiseTo(currentBet + half)
      else Move(CheckOrCall(callAmount))
    else
      Move(advice)
  }

  /** Math.floor(pot * 0.5) is pot divided by 2, rounded down. */
  lemma HalfFloor(pot: int)
    ensures (pot as real * 0.5).Floor == pot / 2
  {
    var q := pot / 2;
    assert pot == 2 * q + pot % 2;
    assert q as real <= pot as real * 0.5 < q as real + 1.0;
  }

  /** Combining the two: the AI folds only when it owes something and raises only when the advice is to. */
  lemma AiNeverFoldsForFree(strength: real, currentBet: int, bet: int, pot: int, r: real)
    ensures var advice := RecommendedAction(strength, currentBet - bet, pot).action;
            var d := AiDecision(advice, currentBet - bet, currentBet, pot, r);
      && (d == Move(Fold) ==> currentBet != bet && strength <= 40.0)
      && (d.RaiseTo? ==> strength > 70.0)
  {
  }
}
