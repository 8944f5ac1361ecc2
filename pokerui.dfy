/**
 * The game logic of poker-ui.js: the test that ends a betting round, the guards of the
 * raise button, the game-over test before the next hand, the label shown for the hand
 * strength and the colour of a suit. Everything else in that file draws the page or
 * schedules turns with setTimeout and is not part of this model.
 */
module PokerUi {
  import opened Cards
  import opened HandEvaluator
  import opened Strategy
  import opened Poker

  /** getCardColor: hearts and diamonds are red, spades and clubs black. */
  function CardColor(suit: Suit): (color: string)
    ensures color == "red" || color == "black"
    ensures color == "red" <==> suit == Hearts || suit == Diamonds
  {
    if suit == Hearts || suit == Diamonds then "red" else "black"
  }

  /**
   * checkBettingRoundComplete: the round is over when exactly one seat is still in, or
   * when every seat still in has bet the current bet (so also when every seat folded).
   */
  function BettingRoundComplete(ps: seq<Player>, currentBet: int): (done: bool)
    ensures done <==> || |ActiveSeats(ps)| == 1
                      || forall k :: 0 <= k < |ps| && !ps[k].folded ==> ps[k].bet == currentBet
  {
    var active := ActiveSeats(ps);
    |active| == 1 || forall k: nat :: k in active ==> ps[k].bet == currentBet
  }

  /** nextPhase clears every bet and the current bet, so the new round starts out complete. */
  lemma RoundCompleteAfterNextPhase(ps: seq<Player>)
    ensures BettingRoundComplete(ClearBets(ps), 0)
  {
  }

  /**
   * After the blinds of startNewHand the round is open: seat 0 has bet nothing against a
   * current bet of 20, and no seat has folded.
   */
  lemma RoundOpenAfterBlinds(ps: seq<Player>, currentBet: int)
    requires |ps| == 3 && forall k :: 0 <= k < 3 ==> !ps[k].folded
    requires ps[0].bet != currentBet
    ensures !BettingRoundComplete(ps, currentBet)
  {
    var active := ActiveSeats(ps);
    assert 0 in active && 1 in active;
  }

  /** A parsed raise amount: parseInt gives a number, or NaN when the field holds none. */
  datatype ParsedInt = NaN | Num(n: int)

  /** `a <= b` in JavaScript: false whenever a is NaN. */
  predicate AtMost(a: ParsedInt, b: int) {
    a.Num? && a.n <= b
  }

  /** `a > b` in JavaScript: false whenever a is NaN. */
  predicate Above(a: ParsedInt, b: int) {
    a.Num? && a.n > b
  }

  /** What the raise button does with an amount: rejects it with one of the alerts, or raises. */
  datatype RaiseOutcome = NotHigher | NotEnoughChips | NotANumber | Raises

  /**
   * The two guards of handleRaise as written: an amount at most the current bet is
   * rejected, then an amount above the seat's chips plus its bet. Both comparisons are
   * false for NaN.
   */
  function RaiseGuardAsWritten(amount: ParsedInt, currentBet: int, chips: int, bet: int)
    : (r: RaiseOutcome)
    ensures r != NotANumber
    ensures r == NotHigher <==> AtMost(amount, currentBet)
  {
    if AtMost(amount, currentBet) then NotHigher
    else if Above(amount, chips + bet) then NotEnoughChips
    else Raises
  }

  /** An empty or non-numeric raise field passes both guards and reaches playerAction. */
  lemma NaNPassesRaiseGuards(currentBet: int, chips: int, bet: int)
    ensures RaiseGuardAsWritten(NaN, currentBet, chips, bet) == Raises
  {
  }

  /**
   * The guards as evidently intended: the amount must be a number, above the current bet
   * and within the seat's chips plus what it has already bet.
   */
  function RaiseGuard(amount: ParsedInt, currentBet: int, chips: int, bet: int): (r: RaiseOutcome)
    ensures r == Raises <==> amount.Num? && currentBet < amount.n <= chips + bet
    ensures r == NotANumber <==> amount.NaN?
  {
    if amount.NaN? then NotANumber
    else if AtMost(amount, currentBet) then NotHigher
    else if Above(amount, chips + bet) then NotEnoughChips
    else Raises
  }

  /** On every numeric amount the two guards agree; they differ only on NaN. */
  lemma RaiseGuardsAgreeOnNumbers(amount: ParsedInt, currentBet: int, chips: int, bet: int)
    ensures (RaiseGuard(amount, currentBet, chips, bet)
             == RaiseGuardAsWritten(amount, currentBet, chips, bet)) <==> amount.Num?
  {
  }

  /**
   * A raise the guards let through raises the current bet and leaves the seat with no
   * fewer than zero chips, once it pays the difference between the amount and its bet.
   */
  lemma AcceptedRaiseIsAffordable(amount: ParsedInt, currentBet: int, chips: int, bet: int)
    requires RaiseGuard(amount, currentBet, chips, bet) == Raises
    ensures amount.n > currentBet && chips - (amount.n - bet) >= 0
  {
  }

  /**
   * handleRaise for the human seat 0: check the amount, and only if it passes make the
   * raise through playerAction. A rejected amount leaves the game as it was.
   */
  method HandleRaise(game: PokerGame, amount: ParsedInt) returns (outcome: RaiseOutcome)
    requires |game.players| > 0
    modifies game`players, game`pot, game`currentBet
    ensures outcome == RaiseGuard(amount, old(game.currentBet), old(game.players[0].chips),
                                  old(game.players[0].bet))
    ensures outcome != Raises ==> unchanged(game)
    ensures outcome == Raises && !old(game.players[0].folded) ==>
              && game.players == old(game.players)[0 := old(game.players[0]).(
                                   chips := old(game.players[0].chips) - (amount.n - old(game.players[0].bet)),
                                   bet := amount.n)]
              && game.currentBet == amount.n
              && game.pot == old(game.pot) + (amount.n - old(game.players[0].bet))
              && game.players[0].chips >= 0
    ensures outcome == Raises && old(game.players[0].folded) ==> unchanged(game)
  {
    outcome := RaiseGuard(amount, game.currentBet, game.players[0].chips, game.players[0].bet);
    if outcome == Raises {
      game.PlayerAction(0, Raise, amount.n);
    }
  }

  /** How many seats still have chips (`players.filter(p => p.chips > 0).length`). */
  function FundedCount(ps: seq<Player>): (n: nat)
    ensures n <= |ps|
    decreases |ps|
  {
    if |ps| == 0 then 0
    else FundedCount(ps[..|ps| - 1]) + (if ps[|ps| - 1].chips > 0 then 1 else 0)
  }

  /** No seat counts as funded exactly when none has chips above zero. */
  lemma {:induction false} NoneFunded(ps: seq<Player>)
    ensures FundedCount(ps) == 0 <==> forall i :: 0 <= i < |ps| ==> ps[i].chips <= 0
    decreases |ps|
  {
    if |ps| > 0 {
      var n := |ps| - 1;
      NoneFunded(ps[..n]);
      assert forall i :: 0 <= i < n ==> ps[..n][i] == ps[i];
    }
  }

  /** At least two seats count as funded exactly when two different seats have chips. */
  lemma {:induction false} TwoFunded(ps: seq<Player>)
    ensures FundedCount(ps) >= 2 <==>
              exists i, j :: 0 <= i < j < |ps| && ps[i].chips > 0 && ps[j].chips > 0
    decreases |ps|
  {
    if |ps| > 0 {
      var n := |ps| - 1;
      var rest := ps[..n];
      TwoFunded(rest);
      NoneFunded(rest);
      assert forall i :: 0 <= i < n ==> rest[i] == ps[i];
      if exists i, j :: 0 <= i < j < |ps| && ps[i].chips > 0 && ps[j].chips > 0 {
        var i, j :| 0 <= i < j < |ps| && ps[i].chips > 0 && ps[j].chips > 0;
        if j < n {
          assert rest[i].chips > 0 && rest[j].chips > 0;
        } else {
          assert rest[i].chips > 0;
        }
      }
      if FundedCount(ps) >= 2 && FundedCount(rest) < 2 {
        assert FundedCount(rest) == 1 && ps[n].chips > 0;
        var i :| 0 <= i < n && rest[i].chips > 0;
        assert ps[i].chips > 0 && ps[n].chips > 0;
      }
    }
  }

  /**
   * The test of startNextHand: the game is over when fewer than two seats have chips, that
   * is, unless two different seats both have chips.
   */
  predicate GameOver(ps: seq<Player>): (over: bool)
    ensures !over <==> exists i, j :: 0 <= i < j < |ps| && ps[i].chips > 0 && ps[j].chips > 0
  {
    TwoFunded(ps);
    FundedCount(ps) < 2
  }

  /**
   * startNextHand: when fewer than two seats have chips the game is over and nothing
   * changes; otherwise a new hand starts, and its first betting round is open.
   */
  method StartNextHand(game: PokerGame, draws: seq<real>) returns (started: bool)
    requires game.Valid() && |draws| >= DeckSize - 1 && UnitDraws(draws)
    modifies game`deck, game`communityCards, game`players, game`pot, game`currentBet, game`phase
    ensures started <==> !GameOver(old(game.players))
    ensures !started ==> unchanged(game)
    ensures started ==>
              && game.InHand() && game.phase == Preflop && game.communityCards == []
              && game.pot == 30 && game.currentBet == 20
              && game.deck == FisherYates(OrderedDeck(), draws)[..46]
              && (forall k :: 0 <= k < 3 ==>
                    && game.players[k].name == old(game.players[k].name)
                    && game.players[k].isHuman == old(game.players[k].isHuman)
                    && !game.players[k].folded
                    && game.players[k].hand == Dealt(FisherYates(OrderedDeck(), draws), 3, k, 2))
              && game.players[0].chips == old(game.players[0].chips) && game.players[0].bet == 0
              && game.players[1].chips == old(game.players[1].chips) - 10 && game.players[1].bet == 10
              && game.players[2].chips == old(game.players[2].chips) - 20 && game.players[2].bet == 20
              && !BettingRoundComplete(game.players, game.currentBet)
  {
    if GameOver(game.players) {
      return false;
    }
    game.StartNewHand(draws);
    RoundOpenAfterBlinds(game.players, game.currentBet);
    return true;
  }

  /** The label updateCoaching shows for a strength: above 70, above 50, above 30, or below. */
  function StrengthLabel(strength: real): (shown: string)
    ensures shown == "Very Strong" <==> strength > 70.0
    ensures shown == "Strong" <==> 50.0 < strength <= 70.0
    ensures shown == "Medium" <==> 30.0 < strength <= 50.0
    ensures shown == "Weak" <==> strength <= 30.0
  {
    if strength > 70.0 then "Very Strong"
    else if strength > 50.0 then "Strong"
    else if strength > 30.0 then "Medium"
    else "Weak"
  }

  /**
   * The label for each category of the seat's cards: Very Strong from Full House up,
   * Strong for a Flush, Medium for Three of a Kind and for a Straight (exactly 50), and
   * Weak for Two Pair, Pair and High Card.
   */
  lemma LabelByCategory(hand: seq<Card>, community: seq<Card>)
    requires |hand| > 0
    ensures var k, shown := EvaluateHand(hand, community).rank, StrengthLabel(HandStrength(hand, community));
      && (k >= 6 ==> shown == "Very Strong")
      && (k == 5 ==> shown == "Strong")
      && (3 <= k <= 4 ==> shown == "Medium")
      && (k <= 2 ==> shown == "Weak")
  {
    StrengthByCategory(hand, community);
  }
}
