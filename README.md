# Texas Hold'em game engine, modelled in Dafny

This project models the `PokerGame` class of `poker-game.js`, a sequential Texas Hold'em
engine for one human seat and two AI seats, together with the few game-logic pieces of
`poker-ui.js`.

The engine covers:

- the 52-card deck, its Fisher-Yates shuffle, and dealing by popping cards off the end of the deck;
- the hand evaluator, which counts suits and values and picks the first of nine categories,
  from Straight Flush (8) down to High Card (0), whose test passes;
- the betting state (seats with chips, bet, hand and fold flag, the pot, the current bet,
  the phase and the community cards), driven by `startNewHand`, `playerAction`,
  `nextPhase` and `determineWinner`;
- the strength score of a hand, the recommended action, and the randomised AI policy.

From `poker-ui.js` the model takes:

- the betting-round-complete test;
- the raise guards;
- the game-over test before the next hand;
- the strength labels;
- the card colour.

The modules follow the program's structure:

| module | file | contents |
|---|---|---|
| `Wrappers` | `wrappers.dfy` | `Option` |
| `Seqs` | `seqs.dfy` | generic sequence facts: `map` and permutations |
| `Cards` | `cards.dfy` | suits, ranks, card values, creation order of the deck, shuffle as a function of the draws |
| `HandEvaluator` | `evaluator.dfy` | tests stated on suit and value counts; `checkFlush`, `checkStraight` and `checkPairs` as loop methods proved to compute them; `evaluateHand` |
| `Strategy` | `strategy.dfy` | `getHandStrength`, `getRecommendedAction` and the `aiPlayerAction` policy, as functions on values |
| `Poker` | `poker.dfy` | the `PokerGame` class: its fields and its state-changing methods |
| `PokerUi` | `pokerui.dfy` | the game logic of `poker-ui.js` |

The class keeps the fields of the source that the engine reads: `deck`, `communityCards`,
`players`, `pot`, `currentBet` and `phase`. It leaves out `currentPlayerIndex` and `dealer`
(poker-game.js:7, 10), which are set and never read. The seats are a `seq<Player>` of values, and a
method that changes a seat assigns a new sequence. Suits and ranks are datatypes, not the
source's strings. A card's `value` is not stored: `createDeck` always sets it to
`getCardValue(rank)`, so it is the function `Card.Value()`. `playerAction`'s optional
`amount`, which defaults to 0 (poker-game.js:95), is an explicit parameter of
`PokerGame.PlayerAction`; a call without it, as for fold, check and call, passes 0.

`Math.random()` becomes a parameter:

- `shuffleDeck` and `createDeck` take the sequence of draws, each in [0, 1). The draw for
  position `i` is the `(51 - i)`-th call.
- the AI policy takes its single draw `r`.

The central invariant is `InPlay`, which `PokerGame.InHand()` applies to the fields. It holds
from `startNewHand` on, and `playerAction` and `nextPhase` keep it:

- there are three seats, each holding two cards;
- the table holds as many community cards as the phase calls for;
- the deck, the hole cards and the community cards together are one full deck, as a multiset.

## Model

| member | source | states |
|---|---|---|
| Cards.CardValue | poker-game.js:40-46 | every rank is worth 2..14, and the k-th rank of the ranks list is worth k + 2 |
| Cards.OrderedDeck | poker-game.js:23-36 | the created deck, before shuffling, has 52 cards |
| Cards.OrderedDeckAt | poker-game.js:23-36 | before shuffling, the card of the si-th suit and ri-th rank sits at position 13·si + ri |
| Cards.OrderedDeckGrows | poker-game.js:28-35 | each push of the two loops extends the deck built so far by exactly the next card |
| Cards.OrderedDeckComplete | poker-game.js:23-36 | every (suit, rank) pair occurs in the created deck |
| Cards.OrderedDeckDistinct | poker-game.js:23-36 | no card occurs twice in the created deck |
| Cards.ScaledBelow | poker-game.js:50 | a draw in [0, 1) times i + 1 lies in [0, i + 1) |
| Cards.SwapIndex | poker-game.js:50 | the index `Math.floor(r * (i + 1))` never exceeds i |
| Cards.Swap | poker-game.js:51 | the destructuring swap keeps the length |
| Cards.SwapPermutes | poker-game.js:51 | a swap keeps the multiset of cards |
| Cards.ShuffleFrom | poker-game.js:49-52 | the remaining swap steps keep the length |
| Cards.FisherYates | poker-game.js:48-53 | the shuffle keeps the length |
| Cards.ShuffleFromPermutes | poker-game.js:49-52 | the remaining swap steps keep the multiset of cards |
| Cards.FisherYatesPermutes | poker-game.js:48-53 | whatever the draws, the shuffle returns a permutation of its input |
| Cards.ShuffledDeckIsFull | poker-game.js:23-53 | a created and shuffled deck has 52 cards and holds every (suit, rank) pair exactly once |
| HandEvaluator.ValueSet | poker-game.js:177 | the distinct values all lie in 2..14 |
| HandEvaluator.CheckFlush | poker-game.js:168-174 | the counting loop returns true exactly when some suit occurs at least five times |
| HandEvaluator.InsertSorted | poker-game.js:177 | inserting into an increasing list keeps it increasing and adds exactly the new value |
| HandEvaluator.SortedValues | poker-game.js:177 | the sorted de-duplicated values are increasing and are exactly the values present |
| HandEvaluator.WindowIsRun | poker-game.js:180-182 | five increasing values whose ends differ by 4 are consecutive |
| HandEvaluator.RunIsWindow | poker-game.js:180-182 | five consecutive values present always give a window whose ends differ by 4 |
| HandEvaluator.NoWindowNoRun | poker-game.js:180-182 | when the window loop finds nothing, no five consecutive values are present |
| HandEvaluator.CheckStraight | poker-game.js:176-191 | the loop returns true exactly when five consecutive values, or A-2-3-4-5, are present |
| HandEvaluator.StraightNeedsFiveValues | poker-game.js:176-191 | a straight needs at least five distinct values, so fewer than five always give false |
| HandEvaluator.CountValues | poker-game.js:194-197 | the counting map holds every value present, with how many cards have it |
| HandEvaluator.CountMapAnswers | poker-game.js:199-203 | `counts.includes(n)` is true exactly when some value occurs exactly n times |
| HandEvaluator.CountMapTwoPairs | poker-game.js:204 | `filter(c => c === 2).length >= 2` holds exactly when two different values each occur twice |
| HandEvaluator.TwoPairsBySet | poker-game.js:204 | at least two values occurring twice is the same as two different values each occurring twice |
| HandEvaluator.CheckPairs | poker-game.js:193-206 | the four flags are exactly: some value occurs 4, 3 or 2 times, and two values occur twice |
| HandEvaluator.MaxValue | poker-game.js:165 | `Math.max` of the values is at least every card's value and is the value of some card |
| HandEvaluator.CategoryName | poker-game.js:156-165 | only rank 0 (or a rank outside 1..8) is named "High Card" |
| HandEvaluator.CategoryNamesDistinct | poker-game.js:156-165 | the nine categories have nine different names |
| HandEvaluator.Category | poker-game.js:156-165 | the category rank is always in 0..8 |
| HandEvaluator.EvaluateHand | poker-game.js:148-166 | the rank is in 0..8; the name matches it; highCard is present exactly for High Card on a non-empty list, and is then the largest value |
| HandEvaluator.TwoPairsHavePair | poker-game.js:162-163 | Two Pair implies a value that occurs twice |
| HandEvaluator.CategoryPriority | poker-game.js:156-165 | each passing test puts a floor under the rank (four of a kind ≥ 7, flush ≥ 5, …), and each rank implies its own test (rank 5 ⇒ flush, rank 4 ⇒ straight, …), so the rank is the first passing test in the order; Straight Flush, Full House and High Card are characterised exactly |
| HandEvaluator.SameCardsSameCounts | poker-game.js:168-206 | two card lists with the same cards have the same suit and value counts |
| HandEvaluator.SameCountsSameFlush | poker-game.js:168-174 | the flush test depends only on the suit counts |
| HandEvaluator.SameCountsSameValues | poker-game.js:177 | the distinct values depend only on the value counts |
| HandEvaluator.SameCountsSamePairs | poker-game.js:193-206 | the pair flags depend only on the value counts |
| HandEvaluator.MaxOfSameCards | poker-game.js:165 | the maximum value depends only on the cards present |
| HandEvaluator.EvaluateIgnoresOrder | poker-game.js:148-166 | the evaluation depends only on the multiset of the hole and community cards, not on their order or on which are hole cards |
| HandEvaluator.StraightCompletionKeepsCategory | poker-game.js:148-166 | a card that completes a straight never lowers the category, for any cards |
| HandEvaluator.FlushCompletionKeepsCategory | poker-game.js:148-166 | a card that completes a flush never lowers the category when the cards are distinct and number at most seven with it |
| HandEvaluator.FlushCompletionCanLowerCategory | poker-game.js:156-165 | with eight cards K♠ K♥ K♦ Q♥ Q♦ 4♠ 7♠ 9♠ (a Full House, 6), adding Q♠ completes a flush and gives a Flush (5): the bound of seven cards is needed |
| HandEvaluator.BoardStraightFlush | poker-game.js:148-166 | 9♣ 9♦ with 2♠ 3♠ 4♠ 5♠ 6♠ on the table is a Straight Flush (8) |
| HandEvaluator.FourAces | poker-game.js:148-166 | A♠ A♦ with A♥ A♣ 2♠ 7♦ 9♣ on the table is Four of a Kind (7) |
| HandEvaluator.WheelStraight | poker-game.js:148-191 | K♦ Q♣ with A♠ 2♥ 3♦ 4♣ 5♠ on the table is a Straight (4), the ace playing low |
| Strategy.Clamp | poker-game.js:253 | the result lies in [0, 100] and equals the input when that already does |
| Strategy.HandStrength | poker-game.js:237-254 | the strength lies in [0, 100] and is 0 without hole cards |
| Strategy.StrengthByCategory | poker-game.js:245-251 | from Pair up the strength is 12.5 × rank; for High Card it is (highCard − 2) × 15 / 12, at most 15 |
| Strategy.StrengthIncreasesWithRank | poker-game.js:245 | from Pair up a higher category scores strictly more |
| Strategy.HighCardKingOutscoresPair | poker-game.js:245-251 | High Card with a king or an ace scores more than any Pair |
| Strategy.PotOdds | poker-game.js:260 | pot odds are 0 when nothing is owed and lie in [0, 1] for non-negative amounts |
| Strategy.RecommendedAction | poker-game.js:256-277 | raise exactly above 70; above 40, check when nothing is owed and call otherwise; at 40 or below, call exactly when strength is above 20 and the pot odds are below 0.3, else check when nothing is owed and fold otherwise |
| Strategy.RecommendationByCategory | poker-game.js:256-277 | the advice for each category: raise from Full House up; check/call for Straight and Flush; pot odds decide for Two Pair and Three of a Kind; check/fold for Pair and High Card |
| Strategy.CheckOrCall | poker-game.js:324-331 | check exactly when nothing is owed, otherwise call |
| Strategy.AiDecision | poker-game.js:320-335 | fold exactly when the advice is fold and r > 0.2; raise exactly when the advice is raise and r > 0.3, to currentBet + ⌊pot / 2⌋; a check or call advice is returned unchanged; any other deviation is check or call by what is owed |
| Strategy.HalfFloor | poker-game.js:328 | `Math.floor(pot * 0.5)` is integer division of pot by 2 |
| Strategy.AiNeverFoldsForFree | poker-game.js:310-336 | the AI folds only when it owes chips and its strength is at most 40, and raises only above 70 |
| Poker.InitialPlayers | poker-game.js:15-21 | three seats, the first human, each with 1000 chips, no cards, no bet, not folded |
| Poker.TotalChipsUpdate | poker-game.js:109-118 | changing one seat changes the chip total by exactly that seat's change |
| Poker.ResetPlayers | poker-game.js:78-82 | every seat gets an empty hand, a zero bet and is back in; names and chips stay |
| Poker.ClearBets | poker-game.js:125 | every seat's bet becomes 0 and nothing else changes |
| Poker.HandsMSOnlyHands | poker-game.js:95-125 | the cards the seats hold depend only on their hands, not on chips, bets or folds |
| Poker.ActiveSeats | poker-game.js:209 | the filter keeps exactly the seats that have not folded, in increasing order |
| Poker.StandingOf | poker-game.js:220-222 | a seat's standing is its category in 0..8, and highCard or 0; a non-zero high part occurs only for High Card, lies in 2..14, and is present whenever the seat has cards |
| Poker.Beats | poker-game.js:224-225 | the comparison is strict (a standing never beats itself), decided by the rank first when the ranks differ |
| Poker.Standings | poker-game.js:220-222 | one standing per seat, each with a rank of at least 0 |
| Poker.WinnerIsUnique | poker-game.js:224-228 | no split pot: at most one seat is the winner |
| Poker.WinnerHasHighestRank | poker-game.js:219-229 | no active seat has a higher category than the winner |
| Poker.LastSeatStandingWins | poker-game.js:211-214 | the only seat still in is the winner |
| Poker.Popped | poker-game.js:66 | `count` pops return the last card first, then the one before it, and so on |
| Poker.Dealt | poker-game.js:57-61 | after r rounds, seat k of n holds the cards k and k + n from the top of the deck |
| Poker.DealtStep | poker-game.js:57-61 | one more round adds exactly the next card to a seat's hand |
| Poker.DealtPartition | poker-game.js:55-62 | dealing two rounds to three seats splits the 52 cards into the 46 left and the six dealt |
| Poker.DealOrder | poker-game.js:57-61 | dealing seat by seat takes the top six cards in another order |
| Poker.NewHandInPlay | poker-game.js:70-93 | the state right after dealing a full deck is a hand in play |
| Poker.HandsMSOfThree | poker-game.js:58-60 | the hole cards of three seats are their three hands together |
| Poker.SeatChangeKeepsInPlay | poker-game.js:95-121 | changing a seat's chips, bet or fold keeps a hand in play |
| Poker.ClearBetsKeepsInPlay | poker-game.js:125 | clearing the bets keeps a hand in play |
| Poker.DealKeepsInPlay | poker-game.js:128-140 | moving cards from the deck to the table for the next phase keeps a hand in play |
| Poker.PokerGame.constructor | poker-game.js:3-13 | empty deck and table, pot and current bet 0, phase preflop, the initial seats |
| Poker.PokerGame.CreateDeck | poker-game.js:23-38 | the deck is the shuffle of the ordered deck by the draws, so it has 52 cards and is a permutation of the full deck |
| Poker.PokerGame.FillDeck | poker-game.js:26-36 | the two loops build exactly the ordered deck |
| Poker.PokerGame.ShuffleDeck | poker-game.js:48-53 | the in-place swap loop leaves the deck equal to the shuffle of the old deck by the draws |
| Poker.PokerGame.DealCards | poker-game.js:55-62 | 2·n cards leave the top of the deck, and seat k gets the cards k and k + n from the top |
| Poker.PokerGame.DealRound | poker-game.js:58-60 | one round: seat k gets the k-th card from the top, and n cards leave the deck |
| Poker.PokerGame.DealOne | poker-game.js:59 | the last card of the deck moves to the end of seat p's hand |
| Poker.PokerGame.DealCommunityCards | poker-game.js:64-68 | `count` cards leave the end of the deck and join the table in pop order; no card is lost or created |
| Poker.PokerGame.StartNewHand | poker-game.js:70-93 | afterwards a hand is in play: 46 cards in the deck, none on the table, two per seat dealt from the shuffled deck, no seat folded, preflop, blinds 10 and 20 taken from seats 1 and 2, pot 30, current bet 20 |
| Poker.PokerGame.PlayerAction | poker-game.js:95-121 | nothing for a folded seat or a check; a fold only sets the flag; a call or raise moves exactly what it adds to the bet from the seat's chips to the pot; pot plus all chips is unchanged; a hand in play stays in play |
| Poker.PokerGame.DetermineWinner | poker-game.js:208-235 | a winner exists exactly when some seat is still in; the winner is the only seat left, or the first seat with the best (rank, highCard); only the winner's chips change, rising by the pot |
| Poker.PokerGame.PayLastSeat | poker-game.js:211-214 | the only seat still in wins and gains the pot |
| Poker.PokerGame.PayBest | poker-game.js:216-234 | the best seat by standings, if any seat is in, gains the pot; otherwise nothing changes |
| Poker.PokerGame.BestSeat | poker-game.js:216-229 | the loop finds a seat exactly when some seat is in; no active seat beats it, and it beats every active seat before it |
| Poker.PokerGame.Pay | poker-game.js:231-233 | the winner's chips rise by the pot; the pot is not reset |
| Poker.PokerGame.NextPhase | poker-game.js:123-146 | bets and current bet become 0; the phase advances one step and 3, 1 or 1 cards move from the end of the deck to the table; from the river the showdown pays the winner; at the showdown only the bets change; a hand in play stays in play |
| Poker.PokerGame.ToShowdown | poker-game.js:141-144 | the phase becomes showdown, the winner is paid and the hand stays in play |
| Poker.PokerGame.GetHandStrength | poker-game.js:237-254 | the strength of seat i lies in [0, 100] and is 0 without cards |
| Poker.PokerGame.GetRecommendedAction | poker-game.js:256-277 | raise exactly above 70; fold only when the seat owes chips; check only when it owes none |
| Poker.PokerGame.AiPlayerAction | poker-game.js:310-336 | null exactly for a folded or human seat; a fold only when something is owed and r > 0.2; a raise only if r > 0.3 and strength > 70, to currentBet + ⌊pot / 2⌋ |
| PokerUi.CardColor | poker-ui.js:130-132 | the colour is "red" exactly for hearts and diamonds, and "black" otherwise |
| PokerUi.BettingRoundComplete | poker-ui.js:311-321 | complete exactly when one seat is still in, or every seat still in has bet the current bet |
| PokerUi.RoundCompleteAfterNextPhase | poker-ui.js:311-321 | after nextPhase clears the bets, the round is complete |
| PokerUi.RoundOpenAfterBlinds | poker-ui.js:311-321 | with three seats in and seat 0 not matching the current bet, the round is not complete |
| PokerUi.RaiseGuardAsWritten | poker-ui.js:247-256 | the guards never report NaN, and reject as too low exactly the numbers at most the current bet |
| PokerUi.NaNPassesRaiseGuards | poker-ui.js:246-256 | a NaN amount passes both guards as written |
| PokerUi.RaiseGuard | poker-ui.js:247-256 | a raise goes through exactly for a number above the current bet and at most chips + bet; NaN is rejected |
| PokerUi.RaiseGuardsAgreeOnNumbers | poker-ui.js:247-256 | the corrected guard agrees with the guard as written exactly on numbers |
| PokerUi.AcceptedRaiseIsAffordable | poker-ui.js:247-256 | an accepted raise is above the current bet and leaves the seat at least 0 chips |
| PokerUi.HandleRaise | poker-ui.js:243-258 | a rejected amount leaves the game unchanged; an accepted one makes seat 0's raise through playerAction, leaving it at least 0 chips; only the seats, the pot and the current bet may change |
| PokerUi.FundedCount | poker-ui.js:56 | the count of seats with chips is at most the number of seats |
| PokerUi.NoneFunded | poker-ui.js:56 | the count is 0 exactly when no seat has chips |
| PokerUi.TwoFunded | poker-ui.js:56-57 | at least two seats are counted exactly when two different seats have chips |
| PokerUi.GameOver | poker-ui.js:56-57 | the game goes on exactly when two different seats have chips |
| PokerUi.StartNextHand | poker-ui.js:52-64 | with fewer than two funded seats nothing changes; otherwise the whole state startNewHand leaves (hand in play, preflop, empty table, 46-card deck, dealt hands, blinds 10 and 20 from seats 1 and 2, pot 30, current bet 20) and an open betting round |
| PokerUi.StrengthLabel | poker-ui.js:160-164 | the four bands (> 70, (50, 70], (30, 50], ≤ 30) are disjoint, cover every strength, and each gives its own label |
| PokerUi.LabelByCategory | poker-ui.js:160-164 | Very Strong from Full House up, Strong for a Flush, Medium for Three of a Kind and Straight, Weak below |

## Left out

- `getCoachingTips` (poker-game.js:279-308) is not modelled. It only chooses tip strings.
- `getDecisionHistory` is called by poker-ui.js but is not defined in poker-game.js.
- `game.js` is not modelled. It is canvas physics, drawing and `localStorage` I/O.
- DOM rendering, button handling, `alert` and status texts in poker-ui.js are not modelled.
- The `setTimeout` turn sequencing in poker-ui.js is not modelled: `handlePlayerAction`, `processAITurns`, `advancePhase` and `endHand`. So the model does not capture that `endHand` calls `determineWinner` a second time after `nextPhase` already did.
- `Math.random` is not modelled; its values are parameters, and the shuffle's uniformity is not stated.
- `parseInt` is not modelled. `HandleRaise` receives its result as a `ParsedInt`.
- The guard `if (!game) return;` is not modelled. A `PokerGame` reference is never null in Dafny.
- `currentPlayerIndex` and `dealer` are not modelled. They are set in the constructor and never read.
- Action names are not strings. `playerAction` takes one of the four actions as a datatype, so other strings, which the `switch` silently ignores, cannot be passed.
- Seats are values, not shared objects. `determineWinner` returns a seat index instead of the player object, and aliasing between `players` and the returned object is not modelled.
- Numbers are unbounded integers and exact reals, not IEEE doubles. Chips, bets and the pot stay integers in the source, so nothing is lost there.
- `-Infinity` is not modelled. `Math.max()` of no values (evaluating an empty list of cards) is modelled as an absent `highCard`. `determineWinner` then orders that hand as if its highCard were 0, which gives the same outcome, since every real value is at least 2.
- `determineWinner` evaluates every seat up front (`Standings`) rather than inside the loop. The result is the same.
- `Poker.PokerGame.NextPhase` does not model popping an empty deck. It requires a hand in play (`InHand`), because an empty deck makes JavaScript's `pop()` return `undefined`, which the model has no card for. The UI only calls it during a hand.
- `Poker.PokerGame.StartNewHand` does not model other seat counts. It requires the three seats of `initializePlayers`, which the source indexes as `players[1]` and `players[2]`.
- `Poker.PokerGame.DealCards` and `Poker.PokerGame.DealCommunityCards` do not model a short deck. They require the deck to hold the cards they pop, for the same `undefined` reason.
- `HandEvaluator.FlushCompletionKeepsCategory` is stated only for distinct cards, at most seven of them once the new card is added. That is the most the game deals: two hole cards and five community cards from one deck. With more cards the property fails, as `HandEvaluator.FlushCompletionCanLowerCategory` shows.
- `PokerUi.HandleRaise` does not model a NaN amount going through. It is stated with the corrected guard `RaiseGuard`; the guard as written is `RaiseGuardAsWritten`.
- Where the code departs from the usual rules of Texas Hold'em, the model follows the code:
  - table stakes: chips are not checked on a call or a raise and may go negative;
  - Full House: it needs a count of exactly 3 and a count of exactly 2;
  - highCard: it is returned only for High Card;
  - ties: they go to the earliest seat, with no split pot;
  - a fold that leaves one seat does not end the hand inside `playerAction`.

## Findings

| source | as written | input that shows it | evidently intended | confidence | as-written member | corrected member |
|---|---|---|---|---|---|---|
| poker-ui.js:246-256 | `parseInt` of an empty or non-numeric raise field is NaN. Both `amount <= game.currentBet` and `amount > chips + bet` are false for NaN, so `playerAction(0, 'raise', NaN)` runs and turns seat 0's chips and bet, the current bet and the pot into NaN | raise field empty, current bet 20, seat 0 with 1000 chips and bet 0 | reject an amount that is not a number | not executed | PokerUi.NaNPassesRaiseGuards | PokerUi.RaiseGuard |
