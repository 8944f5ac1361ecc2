/**
 * The PokerGame class of poker-game.js: the deck, the three seats, the pot and the current
 * bet, and the methods that deal, take the seats' actions, advance the phase and pay the
 * winner.
 *
 * The seats are values of the datatype Player held in the sequence `players`; a method that
 * changes a seat assigns a new sequence. Math.random() becomes a parameter: a sequence of
 * draws in [0, 1) for the shuffle and one draw for the AI policy.
 */
module Poker {
  import opened Wrappers
  import opened Cards
  import opened HandEvaluator
  import opened Strategy

  /** The betting rounds, and the showdown after the river. */
  datatype Phase = Preflop | Flop | Turn | River | Showdown

  /** A seat: its name, chips, hole cards, bet in the current round, whether it folded. */
  datatype Player = Player(name: string, chips: int, hand: seq<Card>, bet: int,
                           folded: bool, isHuman: bool)

  /** initializePlayers: the human seat and two AI seats, each with 1000 chips. */
  function InitialPlayers(): (ps: seq<Player>)
    ensures |ps| == 3 && ps[0].isHuman && !ps[1].isHuman && !ps[2].isHuman
    ensures forall k :: 0 <= k < |ps| ==>
              ps[k].chips == 1000 && ps[k].hand == [] && ps[k].bet == 0 && !ps[k].folded
  {
    [Player("You", 1000, [], 0, false, true),
     Player("Opponent 1", 1000, [], 0, false, false),
     Player("Opponent 2", 1000, [], 0, false, false)]
  }

  /** How many community cards are on the table in each phase. */
  function CommunitySize(phase: Phase): nat {
    match phase
    case Preflop => 0
    case Flop => 3
    case Turn => 4
    case River => 5
    case Showdown => 5
  }

  /** The chips of all seats together. */
  function TotalChips(ps: seq<Player>): int
    decreases |ps|
  {
    if |ps| == 0 then 0 else TotalChips(ps[..|ps| - 1]) + ps[|ps| - 1].chips
  }

  lemma {:induction false} TotalChipsUpdate(ps: seq<Player>, k: nat, p: Player)
    requires k < |ps|
    ensures TotalChips(ps[k := p]) == TotalChips(ps) - ps[k].chips + p.chips
    decreases |ps|
  {
    var n := |ps| - 1;
    var qs := ps[k := p];
    assert qs[..n] == if k == n then ps[..n] else ps[..n][k := p];
    if k < n {
      TotalChipsUpdate(ps[..n], k, p);
    }
  }

  /** The hole cards of all seats together. */
  function HandsMS(ps: seq<Player>): multiset<Card>
    decreases |ps|
  {
    if |ps| == 0 then multiset{} else HandsMS(ps[..|ps| - 1]) + multiset(ps[|ps| - 1].hand)
  }

  /** The seats without cards, bets or folds, as startNewHand resets them. */
  function ResetPlayers(ps: seq<Player>): (r: seq<Player>)
    ensures |r| == |ps|
    ensures forall k :: 0 <= k < |ps| ==> r[k] == ps[k].(hand := [], bet := 0, folded := false)
  {
    seq(|ps|, k requires 0 <= k < |ps| => ps[k].(hand := [], bet := 0, folded := false))
  }

  /** The seats with every bet cleared, as nextPhase does. */
  function ClearBets(ps: seq<Player>): (r: seq<Player>)
    ensures |r| == |ps|
    ensures forall k :: 0 <= k < |ps| ==> r[k] == ps[k].(bet := 0)
  {
    seq(|ps|, k requires 0 <= k < |ps| => ps[k].(bet := 0))
  }

  /** The hole cards depend only on the hands: chips, bets and folds do not change them. */
  lemma {:induction false} HandsMSOnlyHands(ps: seq<Player>, qs: seq<Player>)
    requires |ps| == |qs|
    requires forall k :: 0 <= k < |ps| ==> ps[k].hand == qs[k].hand
    ensures HandsMS(ps) == HandsMS(qs)
    decreases |ps|
  {
    if |ps| > 0 {
      HandsMSOnlyHands(ps[..|ps| - 1], qs[..|qs| - 1]);
    }
  }

  /** The seats, in order, that have not folded (`players.filter(p => !p.folded)`). */
  function ActiveSeats(ps: seq<Player>): (r: seq<nat>)
    ensures forall k: nat :: k in r <==> k < |ps| && !ps[k].folded
    ensures forall i, j :: 0 <= i < j < |r| ==> r[i] < r[j]
    decreases |ps|
  {
    if |ps| == 0 then []
    else
      var n := |ps| - 1;
      var rest := ActiveSeats(ps[..n]);
      assert forall k :: 0 <= k < |rest| ==> rest[k] in rest;
      rest + (if ps[n].folded then [] else [n])
  }

  /** How a seat's cards rank at the showdown: the category, then highCard (0 if absent). */
  datatype Standing = Standing(rank: int, high: int)

  function StandingOf(p: Player, community: seq<Card>): (s: Standing)
    ensures s.rank == EvaluateHand(p.hand, community).rank && 0 <= s.rank <= 8
    ensures s.high != 0 ==> s.rank == 0 && 2 <= s.high <= 14
    ensures |p.hand| > 0 && s.rank == 0 ==> s.high != 0
  {
    var e := EvaluateHand(p.hand, community);
    Standing(e.rank, if e.highCard.Some? then e.highCard.value else 0)
  }

  /** determineWinner replaces its best hand only with a strictly better one. */
  predicate Beats(a: Standing, b: Standing): (r: bool)
    ensures r ==> a != b && a.rank >= b.rank
    ensures a.rank != b.rank ==> (r <==> a.rank > b.rank)
  {
    a.rank > b.rank || (a.rank == b.rank && a.high > b.high)
  }

  /** The standing of every seat. */
  function Standings(ps: seq<Player>, community: seq<Card>): (ss: seq<Standing>)
    ensures |ss| == |ps|
    ensures forall j :: 0 <= j < |ss| ==> ss[j].rank >= 0
  {
    seq(|ps|, j requires 0 <= j < |ps| => StandingOf(ps[j], community))
  }

  /**
   * Seat w is best by the standings ss: it has not folded, no active seat beats it, and it
   * beats every active seat before it, so that ties go to the earliest seat.
   */
  predicate IsBest(ps: seq<Player>, ss: seq<Standing>, w: nat)
    requires |ss| == |ps|
  {
    && w < |ps| && !ps[w].folded
    && (forall j {:trigger ss[j]} :: 0 <= j < |ps| && !ps[j].folded ==> !Beats(ss[j], ss[w]))
    && (forall j {:trigger ss[j]} :: 0 <= j < w && !ps[j].folded ==> Beats(ss[w], ss[j]))
  }

  /** Seat w wins the showdown on these community cards. */
  predicate IsWinner(ps: seq<Player>, community: seq<Card>, w: nat) {
    IsBest(ps, Standings(ps, community), w)
  }

  /** The seats after the showdown are ps with the pot added to the chips of winner w. */
  predicate PaidWinner(ps: seq<Player>, community: seq<Card>, pot: int, after: seq<Player>, w: nat) {
    && IsWinner(ps, community, w)
    && after == ps[w := ps[w].(chips := ps[w].chips + pot)]
  }

  /** There is no split pot: at most one seat is the winner. */
  lemma WinnerIsUnique(ps: seq<Player>, community: seq<Card>, w: nat, w': nat)
    requires IsWinner(ps, community, w) && IsWinner(ps, community, w')
    ensures w == w'
  {
    var ss := Standings(ps, community);
    assert !Beats(ss[w], ss[w']) && !Beats(ss[w'], ss[w]);
  }

  /** The winner's category is the highest among the seats still in the hand. */
  lemma WinnerHasHighestRank(ps: seq<Player>, community: seq<Card>, w: nat, j: nat)
    requires IsWinner(ps, community, w) && j < |ps| && !ps[j].folded
    ensures EvaluateHand(ps[j].hand, community).rank <= EvaluateHand(ps[w].hand, community).rank
  {
    var ss := Standings(ps, community);
    assert !Beats(ss[j], ss[w]);
  }

  /** A seat that is the only one left wins whatever its cards. */
  lemma LastSeatStandingWins(ps: seq<Player>, community: seq<Card>)
    requires |ActiveSeats(ps)| == 1
    ensures IsWinner(ps, community, ActiveSeats(ps)[0])
  {
    var active, ss := ActiveSeats(ps), Standings(ps, community);
    var w := active[0];
    assert w in active;
    forall j | 0 <= j < |ps| && !ps[j].folded
      ensures j == w && ss[j] == ss[w]
    {
      assert j in active;
    }
  }

  /** The cards that `count` calls of deck.pop() return, in order: the last card first. */
  function Popped(d: seq<Card>, count: nat): (r: seq<Card>)
    requires count <= |d|
    ensures |r| == count
    ensures forall t :: 0 <= t < count ==> r[t] == d[|d| - 1 - t]
  {
    seq(count, t requires 0 <= t < count => d[|d| - 1 - t])
  }

  /** How many cards the seats hold after `rounds` rounds of dealing to n seats. */
  function Offset(rounds: nat, n: nat): nat {
    if rounds == 0 then 0 else if rounds == 1 then n else n + n
  }

  /**
   * The cards seat k of n seats has received after `rounds` (at most two) rounds of
   * dealing from the top (the end) of d, one card per seat per round.
   */
  function Dealt(d: seq<Card>, n: nat, k: nat, rounds: nat): (r: seq<Card>)
    requires k < n && n + n <= |d| && rounds <= 2
    ensures |r| == rounds
    ensures forall t :: 0 <= t < rounds ==> r[t] == d[|d| - 1 - k - Offset(t, n)]
  {
    seq(rounds, t requires 0 <= t < rounds => d[|d| - 1 - k - Offset(t, n)])
  }

  lemma DealtStep(d: seq<Card>, n: nat, k: nat, rounds: nat)
    requires k < n && n + n <= |d| && rounds < 2
    ensures Dealt(d, n, k, rounds + 1) == Dealt(d, n, k, rounds) + [d[|d| - 1 - k - Offset(rounds, n)]]
  {
  }

  /**
   * The state a hand keeps from startNewHand on: three seats, each holding two cards, as
   * many community cards as the phase calls for, and the deck, the hole cards and the
   * community cards together are the 52 cards of a full deck.
   */
  predicate InPlay(deck: seq<Card>, community: seq<Card>, players: seq<Player>, phase: Phase) {
    && |players| == 3
    && (forall k :: 0 <= k < |players| ==> |players[k].hand| == 2)
    && |community| == CommunitySize(phase)
    && |deck| + |community| == DeckSize - 2 * |players|
    && multiset(deck) + HandsMS(players) + multiset(community) == multiset(OrderedDeck())
  }

  /**
   * Two rounds of dealing to three seats split a 52-card deck into the 46 cards left and
   * the six the seats hold.
   */
  lemma DealtPartition(d: seq<Card>)
    requires |d| == DeckSize
    ensures multiset(d[..46]) + multiset(Dealt(d, 3, 0, 2) + Dealt(d, 3, 1, 2) + Dealt(d, 3, 2, 2))
            == multiset(d)
  {
    var s1, s2, s3, s4, s5, s6 := [d[46]], [d[47]], [d[48]], [d[49]], [d[50]], [d[51]];
    assert Dealt(d, 3, 0, 2) + Dealt(d, 3, 1, 2) + Dealt(d, 3, 2, 2) == s6 + s3 + s5 + s2 + s4 + s1;
    assert d == d[..46] + (s1 + s2 + s3 + s4 + s5 + s6);
    DealOrder(s1, s2, s3, s4, s5, s6);
  }

  /**
   * Seat k gets the k-th and the (k+3)-th card from the top, so the six dealt cards, seat by
   * seat, are the top six in another order.
   */
  lemma DealOrder<T>(s1: seq<T>, s2: seq<T>, s3: seq<T>, s4: seq<T>, s5: seq<T>, s6: seq<T>)
    ensures multiset(s6 + s3 + s5 + s2 + s4 + s1) == multiset(s1 + s2 + s3 + s4 + s5 + s6)
  {
  }

  /** The state right after dealing a new hand from a full deck d is a hand in play. */
  lemma NewHandInPlay(d: seq<Card>, ps: seq<Player>)
    requires |d| == DeckSize && multiset(d) == multiset(OrderedDeck())
    requires |ps| == 3 && forall k :: 0 <= k < 3 ==> ps[k].hand == Dealt(d, 3, k, 2)
    ensures InPlay(d[..46], [], ps, Preflop)
  {
    DealtPartition(d);
    HandsMSOfThree(ps);
    assert ps[0].hand + ps[1].hand + ps[2].hand
        == Dealt(d, 3, 0, 2) + Dealt(d, 3, 1, 2) + Dealt(d, 3, 2, 2);
  }

  /** The hole cards of three seats. */
  lemma HandsMSOfThree(ps: seq<Player>)
    requires |ps| == 3
    ensures HandsMS(ps) == multiset(ps[0].hand + ps[1].hand + ps[2].hand)
  {
    assert ps[..2][..1] == ps[..1] && ps[..1][..0] == [];
    assert HandsMS(ps[..1]) == multiset(ps[0].hand);
    assert HandsMS(ps[..2]) == HandsMS(ps[..1]) + multiset(ps[1].hand);
  }

  /** Changing a seat's chips, bet or fold leaves a hand in play. */
  lemma SeatChangeKeepsInPlay(deck: seq<Card>, community: seq<Card>, players: seq<Player>,
                              phase: Phase, k: nat, p: Player)
    requires InPlay(deck, community, players, phase) && k < |players|
    requires p.hand == players[k].hand
    ensures InPlay(deck, community, players[k := p], phase)
  {
    HandsMSOnlyHands(players[k := p], players);
  }

  /** Clearing the bets leaves a hand in play. */
  lemma ClearBetsKeepsInPlay(deck: seq<Card>, community: seq<Card>, players: seq<Player>,
                             phase: Phase)
    requires InPlay(deck, community, players, phase)
    ensures InPlay(deck, community, ClearBets(players), phase)
  {
    HandsMSOnlyHands(ClearBets(players), players);
  }

  /** Moving cards from the deck to the table, as the next phase calls for, leaves a hand in play. */
  lemma DealKeepsInPlay(deck: seq<Card>, community: seq<Card>, players: seq<Player>, phase: Phase,
                        deck': seq<Card>, community': seq<Card>, phase': Phase)
    requires InPlay(deck, community, players, phase)
    requires multiset(deck') + multiset(community') == multiset(deck) + multiset(community)
    requires |deck'| + |community'| == |deck| + |community|
    requires |community'| == CommunitySize(phase')
    ensures InPlay(deck', community', players, phase')
  {
    var h := HandsMS(players);
    assert multiset(deck') + h + multiset(community') == multiset(deck') + multiset(community') + h;
    assert multiset(deck) + h + multiset(community) == multiset(deck) + multiset(community) + h;
  }

  class PokerGame {
    var deck: seq<Card>
    var communityCards: seq<Card>
    var players: seq<Player>
    var pot: int
    var currentBet: int
    var phase: Phase

    /** The game always has the three seats of initializePlayers. */
    predicate Valid()
      reads this
    {
      |players| == 3
    }

    /** The game is in a hand: see InPlay. */
    predicate InHand()
      reads this
    {
      InPlay(deck, communityCards, players, phase)
    }

    constructor()
      ensures Valid()
      ensures players == InitialPlayers()
      ensures deck == [] && communityCards == []
      ensures pot == 0 && currentBet == 0 && phase == Preflop
    {
      deck := [];
      communityCards := [];
      players := InitialPlayers();
      pot := 0;
      currentBet := 0;
      phase := Preflop;
    }

    /** createDeck: the 52 cards suit by suit and rank by rank, then shuffled. */
    method CreateDeck(draws: seq<real>)
      requires |draws| >= DeckSize - 1 && UnitDraws(draws)
      modifies this`deck
      ensures deck == FisherYates(OrderedDeck(), draws)
      ensures |deck| == DeckSize && multiset(deck) == multiset(OrderedDeck())
    {
      FillDeck();
      ShuffleDeck(draws);
      FisherYatesPermutes(OrderedDeck(), draws);
    }

    /** The two loops of createDeck: push every rank of every suit, suit by suit. */
    method FillDeck()
      modifies this`deck
      ensures deck == OrderedDeck()
    {
      deck := [];
      var si := 0;
      while si < |Suits|
        invariant 0 <= si <= |Suits|
        invariant deck == OrderedDeck()[..13 * si]
      {
        var ri := 0;
        while ri < |Ranks|
          invariant 0 <= ri <= |Ranks|
          invariant deck == OrderedDeck()[..13 * si + ri]
        {
          OrderedDeckGrows(si, ri);
          deck := deck + [Card(Ranks[ri], Suits[si])];
          ri := ri + 1;
        }
        si := si + 1;
      }
      assert deck == OrderedDeck()[..DeckSize];
    }

    /** shuffleDeck: for i from the top down to 1, swap position i with Math.floor(r * (i + 1)). */
    method ShuffleDeck(draws: seq<real>)
      requires |draws| >= |deck| - 1 && UnitDraws(draws)
      modifies this`deck
      ensures deck == FisherYates(old(deck), draws)
    {
      ghost var original := deck;
      var i := |deck| - 1;
      while i > 0
        invariant -1 <= i < |deck| == |original|
        invariant ShuffleFrom(deck, draws, i) == FisherYates(original, draws)
        decreases i
      {
        var j := SwapIndex(draws[|deck| - 1 - i], i);
        deck := deck[i := deck[j]][j := deck[i]];
        i := i - 1;
      }
    }

    /** dealCards: two rounds, each popping one card from the deck for every seat in turn. */
    method DealCards()
      requires |deck| >= 2 * |players|
      modifies this`deck, this`players
      ensures |players| == old(|players|)
      ensures deck == old(deck)[..old(|deck|) - 2 * |players|]
      ensures forall k :: 0 <= k < |players| ==>
                players[k] == old(players[k]).(hand := old(players[k].hand)
                                                  + Dealt(old(deck), |players|, k, 2))
    {
      ghost var d, ps := deck, players;
      var n := |players|;
      var i := 0;
      while i < 2
        invariant 0 <= i <= 2 && |players| == n
        invariant deck == d[..|d| - Offset(i, n)]
        invariant forall k :: 0 <= k < n ==> players[k] == ps[k].(hand := ps[k].hand + Dealt(d, n, k, i))
      {
        ghost var before := deck;
        DealRound();
        forall k | 0 <= k < n
          ensures players[k] == ps[k].(hand := ps[k].hand + Dealt(d, n, k, i + 1))
        {
          assert before[|before| - 1 - k] == d[|d| - 1 - k - Offset(i, n)];
          DealtStep(d, n, k, i);
        }
        i := i + 1;
      }
    }

    /** The inner loop of dealCards: one card from the top of the deck to each seat in turn. */
    method DealRound()
      requires |deck| >= |players|
      modifies this`deck, this`players
      ensures |players| == old(|players|)
      ensures deck == old(deck)[..old(|deck|) - |players|]
      ensures forall k :: 0 <= k < |players| ==>
                players[k] == old(players[k]).(hand := old(players[k].hand) + [old(deck)[old(|deck|) - 1 - k]])
    {
      ghost var d, ps := deck, players;
      var p := 0;
      while p < |players|
        invariant 0 <= p <= |players| == |ps|
        invariant deck == d[..|d| - p]
        invariant forall k :: 0 <= k < p ==> players[k] == ps[k].(hand := ps[k].hand + [d[|d| - 1 - k]])
        invariant forall k :: p <= k < |players| ==> players[k] == ps[k]
      {
        DealOne(p);
        p := p + 1;
      }
    }

    /** One `player.hand.push(this.deck.pop())`: the top card of the deck goes to seat p. */
    method DealOne(p: nat)
      requires p < |players| && |deck| > 0
      modifies this`deck, this`players
      ensures deck == old(deck)[..old(|deck|) - 1]
      ensures players == old(players)[p := old(players[p]).(hand := old(players[p].hand)
                                                                   + [old(deck[|deck| - 1])])]
    {
      var card := deck[|deck| - 1];
      var seat := players[p].(hand := players[p].hand + [card]);
      deck := deck[..|deck| - 1];
      players := players[p := seat];
    }

    /** dealCommunityCards: pop `count` cards from the deck onto the table. */
    method DealCommunityCards(count: nat)
      requires count <= |deck|
      modifies this`deck, this`communityCards
      ensures deck == old(deck)[..old(|deck|) - count]
      ensures communityCards == old(communityCards) + Popped(old(deck), count)
      ensures multiset(deck) + multiset(communityCards)
              == old(multiset(deck) + multiset(communityCards))
    {
      ghost var d, c := deck, communityCards;
      var i := 0;
      while i < count
        invariant 0 <= i <= count
        invariant deck == d[..|d| - i]
        invariant communityCards == c + Popped(d, i)
        invariant multiset(deck) + multiset(communityCards) == multiset(d) + multiset(c)
      {
        var card := deck[|deck| - 1];
        assert deck == deck[..|deck| - 1] + [card];
        assert Popped(d, i + 1) == Popped(d, i) + [card];
        deck := deck[..|deck| - 1];
        communityCards := communityCards + [card];
        i := i + 1;
      }
    }

    /**
     * startNewHand: a fresh shuffled deck, an empty table and pot, every seat back in with
     * no cards and no bet, two cards dealt to each seat, then the blinds: seat 1 posts 10
     * and seat 2 posts 20.
     */
    method StartNewHand(draws: seq<real>)
      requires Valid() && |draws| >= DeckSize - 1 && UnitDraws(draws)
      modifies this`deck, this`communityCards, this`players, this`pot, this`currentBet, this`phase
      ensures InHand()
      ensures phase == Preflop && communityCards == [] && |deck| == 46
      ensures pot == 30 && currentBet == 20
      ensures forall k :: 0 <= k < 3 ==>
                && players[k].name == old(players[k].name)
                && players[k].isHuman == old(players[k].isHuman)
                && !players[k].folded
                && players[k].hand == Dealt(FisherYates(OrderedDeck(), draws), 3, k, 2)
      ensures players[0].chips == old(players[0].chips) && players[0].bet == 0
      ensures players[1].chips == old(players[1].chips) - 10 && players[1].bet == 10
      ensures players[2].chips == old(players[2].chips) - 20 && players[2].bet == 20
      ensures deck == FisherYates(OrderedDeck(), draws)[..46]
    {
      CreateDeck(draws);
      communityCards := [];
      pot := 0;
      currentBet := 0;
      phase := Preflop;
      players := ResetPlayers(players);
      DealCards();
      players := players[1 := players[1].(chips := players[1].chips - 10, bet := 10)];
      players := players[2 := players[2].(chips := players[2].chips - 20, bet := 20)];
      pot := 30;
      currentBet := 20;
      FisherYatesPermutes(OrderedDeck(), draws);
      NewHandInPlay(FisherYates(OrderedDeck(), draws), players);
    }

    /**
     * playerAction: nothing for a folded seat or a check; a fold only marks the seat;
     * a call brings the seat's bet up to the current bet; a raise makes `amount` both the
     * seat's bet and the current bet. Whatever a call or raise takes from the seat's chips
     * goes into the pot; the chips are not checked and may go below zero.
     */
    method PlayerAction(i: nat, action: ActionName, amount: int)
      requires i < |players|
      modifies this`players, this`pot, this`currentBet
      ensures old(players[i].folded) || action == Check ==>
                players == old(players) && pot == old(pot) && currentBet == old(currentBet)
      ensures !old(players[i].folded) && action == Fold ==>
                && players == old(players)[i := old(players[i]).(folded := true)]
                && pot == old(pot) && currentBet == old(currentBet)
      ensures !old(players[i].folded) && action == Call ==>
                var owed := old(currentBet - players[i].bet);
                && players == old(players)[i := old(players[i]).(chips := old(players[i].chips) - owed,
                                                                 bet := old(currentBet))]
                && pot == old(pot) + owed && currentBet == old(currentBet)
      ensures !old(players[i].folded) && action == Raise ==>
                var paid := amount - old(players[i].bet);
                && players == old(players)[i := old(players[i]).(chips := old(players[i].chips) - paid,
                                                                 bet := amount)]
                && pot == old(pot) + paid && currentBet == amount
      ensures pot + TotalChips(players) == old(pot + TotalChips(players))
      ensures old(InHand()) ==> InHand()
    {
      var p := players[i];
      if p.folded {
        return;
      }
      var seat := p;
      match action {
        case Fold =>
          seat := p.(folded := true);
        case Check =>
        case Call =>
          var callAmount := currentBet - p.bet;
          seat := p.(chips := p.chips - callAmount, bet := currentBet);
          pot := pot + callAmount;
        case Raise =>
          var raiseAmount := amount - p.bet;
          seat := p.(chips := p.chips - raiseAmount, bet := amount);
          currentBet := amount;
          pot := pot + raiseAmount;
      }
      TotalChipsUpdate(players, i, seat);
      if InHand() {
        SeatChangeKeepsInPlay(deck, communityCards, players, phase, i, seat);
      }
      players := players[i := seat];
    }

    /**
     * determineWinner: if exactly one seat is still in, it takes the pot; otherwise the
     * first active seat with the best (rank, highCard) does. The pot itself is left as it is.
     * Returns the winning seat, or None when every seat has folded.
     */
    method DetermineWinner() returns (winner: Option<nat>)
      modifies this`players
      ensures winner.None? <==> |ActiveSeats(old(players))| == 0
      ensures winner.None? ==> players == old(players)
      ensures winner.Some? ==> PaidWinner(old(players), communityCards, pot, players, winner.value)
    {
      var active := ActiveSeats(players);
      if |active| == 1 {
        winner := PayLastSeat();
      } else {
        if |active| > 0 {
          assert active[0] in active;
        }
        winner := PayBest();
      }
    }

    /** The only seat still in takes the pot. */
    method PayLastSeat() returns (winner: Option<nat>)
      requires |ActiveSeats(players)| == 1
      modifies this`players
      ensures winner == Some(ActiveSeats(old(players))[0])
      ensures PaidWinner(old(players), communityCards, pot, players, winner.value)
    {
      var w := ActiveSeats(players)[0];
      assert w in ActiveSeats(players);
      LastSeatStandingWins(players, communityCards);
      Pay(w);
      winner := Some(w);
    }

    /** The showdown by standings: pay the seat that BestSeat picks, if there is one. */
    method PayBest() returns (winner: Option<nat>)
      modifies this`players
      ensures winner.None? <==> forall j :: 0 <= j < |old(players)| ==> old(players)[j].folded
      ensures winner.None? ==> players == old(players)
      ensures winner.Some? ==> PaidWinner(old(players), communityCards, pot, players, winner.value)
    {
      winner := BestSeat(Standings(players, communityCards));
      if winner.Some? {
        Pay(winner.value);
      }
    }

    /**
     * The `activePlayers.forEach` of determineWinner: evaluate each seat still in, and keep
     * the first one whose (rank, highCard) is strictly better than the best so far.
     */
    method BestSeat(ss: seq<Standing>) returns (best: Option<nat>)
      requires |ss| == |players| && forall j :: 0 <= j < |ss| ==> ss[j].rank >= 0
      ensures best.None? <==> forall j :: 0 <= j < |players| ==> players[j].folded
      ensures best.Some? ==> IsBest(players, ss, best.value)
    {
      best := None;
      var bestStanding := Standing(-1, 0);
      var k := 0;
      while k < |players|
        invariant 0 <= k <= |players|
        invariant best.None? <==> forall j :: 0 <= j < k ==> players[j].folded
        invariant best.None? ==> bestStanding == Standing(-1, 0)
        invariant best.Some? ==>
                    && best.value < k && !players[best.value].folded
                    && bestStanding == ss[best.value]
        invariant best.Some? ==> forall j :: 0 <= j < k && !players[j].folded ==>
                    !Beats(ss[j], bestStanding)
        invariant best.Some? ==> forall j :: 0 <= j < best.value && !players[j].folded ==>
                    Beats(bestStanding, ss[j])
      {
        if !players[k].folded {
          if Beats(ss[k], bestStanding) {
            best := Some(k);
            bestStanding := ss[k];
          }
        }
        k := k + 1;
      }
    }

    /** The winner's chips rise by the pot. */
    method Pay(w: nat)
      requires w < |players|
      modifies this`players
      ensures players == old(players)[w := old(players[w]).(chips := old(players[w].chips) + pot)]
    {
      players := players[w := players[w].(chips := players[w].chips + pot)];
    }

    /**
     * nextPhase: clear every bet and the current bet, then move on one phase: the flop
     * deals three community cards, the turn and the river one each, and the step from the
     * river to the showdown pays the winner. At the showdown only the bets change.
     */
    method NextPhase()
      requires InHand()
      modifies this`deck, this`communityCards, this`players, this`currentBet, this`phase
      ensures InHand()
      ensures currentBet == 0 && pot == old(pot)
      ensures phase == (match old(phase)
                        case Preflop => Flop
                        case Flop => Turn
                        case Turn => River
                        case _ => Showdown)
      ensures var count := CommunitySize(phase) - CommunitySize(old(phase));
              && deck == old(deck)[..old(|deck|) - count]
              && communityCards == old(communityCards) + Popped(old(deck), count)
      ensures old(phase) != River ==> players == ClearBets(old(players))
      ensures old(phase) == River ==>
                || (|ActiveSeats(ClearBets(old(players)))| == 0 && players == ClearBets(old(players)))
                || (exists w: nat :: PaidWinner(ClearBets(old(players)), communityCards, pot, players, w))
    {
      ClearBetsKeepsInPlay(deck, communityCards, players, phase);
      players := ClearBets(players);
      currentBet := 0;
      ghost var d, c, ph := deck, communityCards, phase;
      assert d[..|d|] == d && c + Popped(d, 0) == c;
      match phase
      case Preflop =>
        phase := Flop;
        DealCommunityCards(3);
        DealKeepsInPlay(d, c, players, ph, deck, communityCards, phase);
      case Flop =>
        phase := Turn;
        DealCommunityCards(1);
        DealKeepsInPlay(d, c, players, ph, deck, communityCards, phase);
      case Turn =>
        phase := River;
        DealCommunityCards(1);
        DealKeepsInPlay(d, c, players, ph, deck, communityCards, phase);
      case River =>
        ghost var cleared := players;
        assert cleared == ClearBets(old(players));
        var winner := ToShowdown();
        if winner.Some? {
          assert PaidWinner(cleared, communityCards, pot, players, winner.value);
        }
      case Showdown =>
    }

    /** The river case of nextPhase once the bets are cleared: move to the showdown and pay the winner. */
    method ToShowdown() returns (winner: Option<nat>)
      requires InHand() && phase == River
      modifies this`players, this`phase
      ensures InHand() && phase == Showdown
      ensures winner.None? ==> |ActiveSeats(old(players))| == 0 && players == old(players)
      ensures winner.Some? ==> PaidWinner(old(players), communityCards, pot, players, winner.value)
    {
      phase := Showdown;
      ghost var ps := players;
      winner := DetermineWinner();
      if winner.Some? {
        var w := winner.value;
        SeatChangeKeepsInPlay(deck, communityCards, ps, phase, w, players[w]);
      }
    }

    /** getHandStrength for seat i. */
    function GetHandStrength(i: nat): (s: real)
      reads this
      requires i < |players|
      ensures 0.0 <= s <= 100.0
      ensures |players[i].hand| == 0 ==> s == 0.0
    {
      HandStrength(players[i].hand, communityCards)
    }

    /** getRecommendedAction for seat i, which owes currentBet minus its bet. */
    function GetRecommendedAction(i: nat): (r: Recommendation)
      reads this
      requires i < |players|
      ensures r.action == Raise <==> GetHandStrength(i) > 70.0
      ensures r.action == Fold ==> currentBet != players[i].bet
      ensures r.action == Check ==> currentBet == players[i].bet
    {
      RecommendedAction(GetHandStrength(i), currentBet - players[i].bet, pot)
    }

    /**
     * aiPlayerAction for seat i with r the value Math.random() returns: None (null) for a
     * folded or human seat, otherwise the AI's move.
     */
    function AiPlayerAction(i: nat, r: real): (d: Option<Decision>)
      reads this
      requires i < |players|
      ensures d.None? <==> players[i].folded || players[i].isHuman
      ensures d == Some(Move(Fold)) ==> currentBet != players[i].bet && r > 0.2
      ensures d.Some? && d.value.RaiseTo? ==>
                && d.value.amount == currentBet + pot / 2
                && r > 0.3 && GetHandStrength(i) > 70.0
    {
      if players[i].folded || players[i].isHuman then None
      else
        var callAmount := currentBet - players[i].bet;
        Some(AiDecision(GetRecommendedAction(i).action, callAmount, currentBet, pot, r))
    }
  }
}
