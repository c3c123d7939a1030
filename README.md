# bluejack in Dafny

bluejack is a blackjack trainer. It deals from a multi-deck shoe, keeps a Hi-Lo
card count, advises the basic-strategy play and records session statistics. This
project models its game engine and its two stores, and proves properties of
them:

- `Cards` (card.dfy) covers suits, ranks, and the card value and Hi-Lo weight of
  a card. It also shows that a deck has Hi-Lo sum zero.
- `Hands` (hand.dfy) covers the hand value with the soft-ace adjustment, and the
  split, double and hit tests.
- `Shoes` (deck.dfy) is the `Shoe` class. It builds and shuffles the decks with
  Fisher-Yates, places the cut card, deals from the end, and gives the running
  count and the true count. Its invariant says that the dealt and undealt cards
  together are exactly `deckCount` decks.
- `Actions` (actions.dfy) covers hit, stand, double, split, the dealer's play,
  settlement and the opening deal.
- `Strategy` (basic_strategy.dfy) is the basic-strategy advisor. Its three
  tables are also written as chart rows, and the advisor is shown to read those
  rows.
- `Stats` (stats_store.dfy) is the statistics store.
- `Store` (game_store.dfy) is the game store. It has phase guards on every
  action and drives a round from betting through payout.

Randomness is passed in as rolls. Each roll is a real in [0, 1) that stands for
a `Math.random()` draw. The clock is passed in as `now`. Money is exact `real`
arithmetic. A deal from an empty shoe throws in the source; here it is the
`EmptyShoe` result. What a timer schedules in the source is returned as a
`Continuation` (`AutoStand`, `DealerTurnNext`, `BettingNext`, `RetryDeal`), and
the scheduled step is a method of its own: `Stand`, `ResolveDealerTurn`,
`StartBetting` or `DealCards`.

## Model

| member | source | states |
|---|---|---|
| Cards.SuitsAndRanksEnumerate | src/engine/card.ts:3-4 | Every suit appears once among the four suits, and every rank once among the thirteen ranks. |
| Cards.CardValue | src/engine/card.ts:6-10 | A rank is worth 2 to 11. It is 11 exactly for an Ace, and 10 exactly for Ten, Jack, Queen and King. |
| Cards.HiLoValue | src/engine/card.ts:12-20 | The Hi-Lo weight is +1 for values 2-6, 0 for 7-9 and -1 for 10 and Ace, and nothing else. |
| Cards.SuitSymbolInjective | src/engine/card.ts:22-30 | Different suits get different symbols. |
| Cards.SuitColor | src/engine/card.ts:32-34 | A suit is red exactly when it is hearts or diamonds. |
| Cards.CreateCard | src/engine/card.ts:36-38 | The card has the given suit, rank and face-down flag (face up by default). |
| Cards.HiLoSum | src/engine/deck.ts:59-61 | The Hi-Lo sum of n cards lies between -n and n. |
| Cards.HiLoSumAppend | src/engine/deck.ts:59-61 | The Hi-Lo sum of a concatenation is the sum of the parts. |
| Cards.HiLoSumPermutation | src/engine/deck.ts:59-61 | Cards with the same multiset have the same Hi-Lo sum, so the deal order does not change the count. |
| Cards.HiLoSumStep | src/engine/deck.ts:59-61 | Adding one more dealt card adds its Hi-Lo weight to the count. |
| Cards.SuitRun | src/engine/deck.ts:22-26 | One suit's run of the push loop is the 13 ranks in order, face up. |
| Cards.SuitRunPrefix | src/engine/deck.ts:22-26 | The first k cards of a suit weigh, in Hi-Lo, what the first k ranks do, whatever the suit. |
| Cards.DeckPrefix | src/engine/deck.ts:22-26 | The first n suits of the push loop give 13·n cards. |
| Cards.OneDeck | src/engine/deck.ts:22-26 | One deck is 52 cards. |
| Cards.SuitIsBalanced | src/engine/deck.ts:22-26 | Each suit's 13 cards have Hi-Lo sum zero. |
| Cards.DeckPrefixIsBalanced | src/engine/deck.ts:22-26 | Any whole number of suits has Hi-Lo sum zero. |
| Cards.OneDeckIsBalanced | src/engine/deck.ts:22-26 | A deck has Hi-Lo sum zero. |
| Cards.DistinctCount | src/engine/deck.ts:22-26 | In a sequence without repeats, every card occurs once or not at all. |
| Cards.SuitRunCount | src/engine/deck.ts:22-26 | A suit's run holds each face-up card of that suit exactly once. |
| Cards.DeckPrefixCount | src/engine/deck.ts:21-27 | The first n suits hold each face-up card of those suits exactly once. |
| Cards.OneDeckCount | src/engine/deck.ts:21-27 | A deck holds every face-up card exactly once and no face-down card. |
| Hands.Contribution | src/engine/hand.ts:9-15 | A face-down card contributes nothing; a face-up card contributes its value, at most 11. |
| Hands.AceContribution | src/engine/hand.ts:9-15 | Only a face-up Ace counts as an ace. |
| Hands.FaceUpTotal | src/engine/hand.ts:9-15 | The first loop's total is at most 11 per card. |
| Hands.FaceUpAces | src/engine/hand.ts:9-15 | There are no more aces than cards, and the aces are inside the total at 11 each. |
| Hands.HardTotal | src/engine/hand.ts:9-21 | The total with every ace at 1 still counts each ace once. |
| Hands.Demote | src/engine/hand.ts:18-21 | The demotion loop turns aces from 11 into 1, 10 at a time. It stops at once when the value is 21 or less or no ace is left, and while it demotes the value stays above 11. |
| Hands.HandValueOf | src/engine/hand.ts:4-33 | The value lies between the all-aces-low total and the face-up total, and is the face-up total less 10 for each of some of the face-up aces. Over 21 happens only when every ace is already low, and an ace is low only when counting it high would bust. Bust iff over 21. Soft iff an ace still counts 11 without bust. Blackjack iff 21 on two cards of a hand that is not a split. |
| Hands.HandValueIsDetermined | src/engine/hand.ts:4-33 | Any total that counts some aces low, is over 21 only with every ace low, and counts an ace low only above 11 is the hand's value: the value is determined by these rules. |
| Hands.GetHandValue | src/engine/hand.ts:4-33 | The two loops compute `HandValueOf`. |
| Hands.ValueIsBestTotal | src/engine/hand.ts:18-21 | Any way of counting aces low that does not bust gives at most the reported value. |
| Hands.FaceDownAddsNothing | src/engine/hand.ts:11-14 | Inserting a face-down card changes neither the total nor the ace count. |
| Hands.FaceDownCardIgnored | src/engine/hand.ts:11-14 | Inserting a face-down card changes neither the value, softness nor bust. |
| Hands.TwoCardTotals | src/engine/hand.ts:9-15 | The totals of a two-card hand, card by card. |
| Hands.ThreeCardTotals | src/engine/hand.ts:9-15 | The totals of a three-card hand, card by card. |
| Hands.CanSplit | src/engine/hand.ts:35-38 | A split is allowed iff there are exactly two cards of one rank, which then have the same value. |
| Hands.CanDoubleDown | src/engine/hand.ts:40-42 | A double is allowed iff there are two cards and the hand is not doubled. |
| Hands.CanHit | src/engine/hand.ts:44-47 | A hit is allowed iff the value is under 21 and the hand has not doubled. Then it is neither bust nor blackjack. |
| Hands.CreateHand | src/engine/hand.ts:49-57 | A new hand holds the given bet and cards. It is active, unsettled, not doubled, not split, and has no result or payout. |
| Hands.DealerUpCard | src/engine/hand.ts:59-62 | The dealer's first card, and none exactly when the hand is empty. |
| Hands.HasDealerAce | src/engine/hand.ts:64-67 | True iff the dealer's first card is an Ace. |
| Hands.HandValueExamples | src/engine/hand.ts:4-33 | A,A,9 is soft 21; 10,9,5 is bust at 24; K,A is blackjack; 10,A after a split is 21 but not blackjack; K,Q cannot split. |
| Shoes.ScaledIndex | src/engine/deck.ts:31 | `Math.floor(r * m)` is an index below m. |
| Shoes.OrderedShoe | src/engine/deck.ts:21-27 | The unshuffled shoe has 52 cards per deck. |
| Shoes.Swap | src/engine/deck.ts:32 | The swap exchanges two positions, leaves every other position alone, and keeps the multiset. |
| Shoes.ShuffleSteps | src/engine/deck.ts:30-33 | The Fisher-Yates steps from i down to 1 give a permutation. |
| Shoes.ShuffleStep | src/engine/deck.ts:30-33 | One Fisher-Yates step, unfolded: swap i with the rolled position in [0, i], then continue below i. |
| Shoes.Shuffled | src/engine/deck.ts:30-33 | The shuffle is a permutation of its input. |
| Shoes.CutPosition | src/engine/deck.ts:38-44 | The cut card lies between half and three quarters of the shoe, both included. |
| Shoes.Drawn | src/engine/deck.ts:46-53 | The k cards dealt are taken from the end, last card first. |
| Shoes.DrawnSplit | src/engine/deck.ts:46-53 | Drawing k cards and then m more is drawing k + m. |
| Shoes.DealtFromChain | src/engine/deck.ts:46-53 | Two deals in a row are one deal of their total. |
| Shoes.DealtFromConserves | src/engine/deck.ts:46-53 | Dealing moves cards from the shoe to the dealt pile; no card is lost or gained. |
| Shoes.TrueCountOf | src/engine/deck.ts:63-67 | The true count is the whole number nearest to 52·running/remaining, with ties rounded up, and 0 when nothing remains. |
| Shoes.DivBounds | src/engine/deck.ts:63-67 | Euclidean division bounds used for the rounding. |
| Shoes.DealingKeepsValid | src/engine/deck.ts:46-53 | Dealing keeps a valid shoe valid. |
| Shoes.Shoe.constructor | src/engine/deck.ts:10-15 | A new shoe holds the shuffled decks, nothing dealt, and the rolled cut position, and it is valid. |
| Shoes.Shoe.CreateShoe | src/engine/deck.ts:17-36 | Builds the ordered decks and returns their shuffle by the rolls. |
| Shoes.Shoe.OrderedDecks | src/engine/deck.ts:20-28 | The deck loop builds the ordered shoe. |
| Shoes.Shoe.AppendDeck | src/engine/deck.ts:21-27 | The suit loop pushes one deck, suit by suit. |
| Shoes.Shoe.AppendSuit | src/engine/deck.ts:23-25 | The rank loop pushes one suit's thirteen cards, Ace to King. |
| Shoes.Shoe.ShuffleInPlace | src/engine/deck.ts:30-33 | The in-place loop on the array performs exactly `Shuffled`. |
| Shoes.Shoe.Deal | src/engine/deck.ts:46-53 | Dealing pops the last card and appends it to the dealt cards. It fails exactly on an empty shoe. |
| Shoes.Shoe.NeedsReshuffle | src/engine/deck.ts:55-57 | A reshuffle is needed iff no more cards remain than the cut position. While none is needed, more than half the shoe remains; once one is needed, at least a quarter has been dealt. |
| Shoes.Shoe.RunningCount | src/engine/deck.ts:59-61 | The running count is bounded by the number of cards dealt. |
| Shoes.Shoe.TrueCount | src/engine/deck.ts:63-67 | The true count is the running count rounded per remaining deck, and 0 on an empty shoe. |
| Shoes.Shoe.CardsRemaining | src/engine/deck.ts:69-71 | The cards remaining are the shoe size minus the cards dealt. |
| Shoes.Shoe.Reset | src/engine/deck.ts:77-81 | A reset reshuffles all decks, clears the dealt cards, places a new cut card and keeps the deck count. |
| Shoes.OrderedShoeIsBalanced | src/engine/deck.ts:20-28 | The unshuffled shoe has Hi-Lo sum zero. |
| Shoes.CountBalance | src/engine/deck.ts:59-61 | In a valid shoe, the count of the dealt cards is minus the count of the undealt ones. |
| Shoes.RunningCountMirrorsUndealt | src/engine/deck.ts:59-61 | The running count is minus the Hi-Lo sum of what is left, and 0 once the shoe is used up. |
| Shoes.FreshShoeNeedsNoReshuffle | src/engine/deck.ts:38-44 | The cut card always lies inside a full shoe. |
| Shoes.OrderedShoeCount | src/engine/deck.ts:20-28 | The ordered shoe holds each face-up card deckCount times and no face-down card. |
| Shoes.HoldsDecksIsOrderedShoe | src/engine/deck.ts:20-28 | Holding deckCount copies of every face-up card means being the ordered shoe's multiset, in both directions. |
| Shoes.FreshShoeHoldsDecks | src/engine/deck.ts:17-36 | A freshly shuffled shoe holds exactly the decks. |
| Shoes.ValidShoeFaceUp | src/engine/deck.ts:21-27 | Every card in a valid shoe is face up, dealt or not. |
| Actions.PerformHit | src/engine/actions.ts:5-10 | The hand takes the next card of the shoe and nothing else changes. It fails exactly on an empty shoe. |
| Actions.PerformStand | src/engine/actions.ts:12-17 | The hand becomes inactive and nothing else changes. |
| Actions.PerformDoubleDown | src/engine/actions.ts:19-27 | The hand takes one card, its bet doubles, it is marked doubled and stops being active. |
| Actions.PerformSplit | src/engine/actions.ts:29-38 | Each card starts a split hand with the original bet and takes one more card; the first hand is dealt first. It fails exactly when fewer than two cards remain. |
| Actions.RevealAll | src/engine/actions.ts:41-44 | Every card is turned face up and keeps its suit and rank. |
| Actions.ShouldDealerHit | src/engine/actions.ts:54-62 | The dealer hits below 17, and on soft 17 only when hits-soft-17 is set. |
| Actions.DealerStandsOnSeventeen | src/engine/actions.ts:54-62 | A dealer who stops is bust or at 17 or more, and not on soft 17 under hits-soft-17. |
| Actions.DealerAfterStep | src/engine/actions.ts:46-49 | One more dealer card extends the revealed hand by the next card drawn. |
| Actions.DealerAfterFaceUp | src/engine/actions.ts:40-52 | Once revealed and drawn from a valid shoe, every dealer card is face up. |
| Actions.ResolveDealerHand | src/engine/actions.ts:40-52 | The dealer reveals and then draws the fewest cards after which the rule says stand. If the shoe runs out first, the result is the empty-shoe error. |
| Actions.ResolveHandResults | src/engine/actions.ts:64-119 | Player bust loses 0. Dealer bust wins 2×. A natural against no dealer natural is paid 2.5× or 2.2×. A dealer natural against no player natural loses. Otherwise higher wins, equal pushes (1×). The hand is marked settled. |
| Actions.AddCards | src/engine/actions.ts:137-147 | One pass of the deal gives each hand its card, in order. |
| Actions.DealRound | src/engine/actions.ts:137-147 | One pass deals a card to each player hand and then to the dealer, face down when it is the hole card. |
| Actions.NewHands | src/engine/actions.ts:128-131 | numHands fresh hands at the bet. |
| Actions.ActivateFirst | src/engine/actions.ts:150-152 | Only the first hand is active. |
| Actions.TwoPassesDealt | src/engine/actions.ts:137-147 | After two passes, hand g holds the draws g and n+g. |
| Actions.DealInitialCards | src/engine/actions.ts:121-155 | Hands get cards round-robin, two each, and the dealer's second card is face down. It fails exactly when fewer than 2(n+1) cards remain. |
| Actions.DealerSoft17Example | src/engine/actions.ts:54-62 | The dealer stands on A,6 unless hits-soft-17 is set. |
| Actions.SettlementExamples | src/engine/actions.ts:64-119 | Worked settlements: a win, a bust, a paid natural, and natural against natural. |
| Actions.OutcomeJustified | src/engine/actions.ts:64-119 | Every outcome has its reason: a win means a dealer bust or a higher total; a loss means a player bust, a dealer natural or a lower total; a push means equal totals. |
| Strategy.DealerCardValue | src/engine/basicStrategy.ts:36-40 | The dealer's card counts its card value, 2 to 11. |
| Strategy.HardHandStrategy | src/engine/basicStrategy.ts:111-144 | Hard totals: stand iff 17+, or 13-16 against 2-6, or 12 against 4-6; double iff 11, or 10 against 2-9, or 9 against 3-6; otherwise hit. |
| Strategy.SoftHandStrategy | src/engine/basicStrategy.ts:79-109 | Soft totals: stand on 19+, or on 18 against 7-8; double-or-stand on 18 against 2-6; double on 17 against 3-6, 15-16 against 4-6, 13-14 against 5-6; otherwise hit. |
| Strategy.PairStrategy | src/engine/basicStrategy.ts:42-77 | Always split aces and eights. Stand on ten-value pairs. Fives play as hard 10. The conditions under which 2s, 3s, 4s, 6s, 7s and 9s split. |
| Strategy.BasicStrategyAction | src/engine/basicStrategy.ts:16-34 | A pair goes to the pair table, a soft hand to the soft table, anything else to the hard table. Split only for a splittable pair; double-or-stand exactly for soft 18 against 2-6; never the surrender or split-or-hit actions. |
| Strategy.ActionLabel | src/engine/basicStrategy.ts:146-157 | Every action has a non-empty label. |
| Strategy.ActionLabelInjective | src/engine/basicStrategy.ts:146-157 | Different actions have different labels. |
| Strategy.ActionColor | src/engine/basicStrategy.ts:159-169 | Green iff Stand or Double/Stand; red iff one of the hits; yellow iff Double; blue iff Split; never the grey fallback. |
| Strategy.HardRow | src/engine/basicStrategy.ts:111-144 | A hard-total chart row has one cell per dealer card 2 to Ace. |
| Strategy.SoftRow | src/engine/basicStrategy.ts:79-109 | A soft-total chart row has ten cells. |
| Strategy.PairRow | src/engine/basicStrategy.ts:42-77 | A pair chart row has ten cells. |
| Strategy.HardTableIsChart | src/engine/basicStrategy.ts:111-144 | The hard-total code matches its chart cell by cell. |
| Strategy.SoftTableIsChart | src/engine/basicStrategy.ts:79-109 | The soft-total code matches its chart cell by cell. |
| Strategy.PairTableIsChart | src/engine/basicStrategy.ts:42-77 | The pair code matches its chart cell by cell. |
| Strategy.AdvisorReadsChart | src/engine/basicStrategy.ts:16-34 | The advice is the cell of the pair, soft or hard chart in the dealer card's column. |
| Strategy.AdviceExamples | src/engine/basicStrategy.ts:16-34 | 16 against K hits; 5,5 doubles against 9 and hits against 10; 9,9 stands against 7; A,7 against 2 is double-or-stand; 8,8 splits against an Ace. |
| Stats.NewSession | src/store/statsStore.ts:13-23 | The session counters are zero, started at `now`. |
| Stats.AccuracyOf | src/store/statsStore.ts:79-83 | Accuracy lies in 0..100. It is 100 with no errors and 0 when every check was wrong or none was made. |
| Stats.StatsStore.constructor | src/store/statsStore.ts:12-31 | The default statistics are valid. |
| Stats.StatsStore.RecordHandResult | src/store/statsStore.ts:38-68 | One more hand played and its bet wagered. Win or blackjack counts won (blackjack also counts as blackjack), lose counts lost, push counts pushed. The payout is added unless the hand lost. The counts are appended to the histories. The tallies stay consistent. |
| Stats.StatsStore.RecordCountCheck | src/store/statsStore.ts:70-86 | One more check, one more error iff the counts differ, and the accuracy recomputed; the session is untouched. |
| Stats.StatsStore.ResetSession | src/store/statsStore.ts:88-95 | Fresh session counters at `now`; checks, errors and accuracy back to zero. |
| Stats.AccuracyExtremes | src/store/statsStore.ts:79-83 | After some checks, accuracy is 100 iff no error and 0 iff all errors. |
| Stats.AccuracyExamples | src/store/statsStore.ts:79-83 | One error in three checks gives 200/3; one in four gives 75. |
| Stats.ExampleSession | src/store/statsStore.ts:38-68 | A win and a blackjack leave two won, one blackjack, the wager, the winnings and two history entries. |
| Store.EmptyDealerHand | src/store/gameStore.ts:50-56 | The initial dealer hand is empty, inactive and unsettled, with no bet. |
| Store.DealerBlackjackCheckIsDead | src/store/gameStore.ts:102-105 | With its hole card face down, the dealer's hand is worth at most 11, so the store never sees a dealer natural after the deal. |
| Store.SettleAll | src/store/gameStore.ts:233-235 | Every player hand is settled against the dealer's final hand, in order. |
| Store.RecordOf | src/store/gameStore.ts:248-256 | The stats record carries the hand's result and bet, its payout or 0, the hand's value, the dealer's value, and the running and true counts. |
| Store.GameStore.constructor | src/store/gameStore.ts:42-63 | Initial state: a fresh shuffled shoe, empty dealer hand, no player hands, betting phase, round 0, no insurance, the minimum bet. |
| Store.GameStore.PlaceBet | src/store/gameStore.ts:68 | Only the current bet changes. |
| Store.GameStore.DealCards | src/store/gameStore.ts:70-110 | Outside betting nothing happens. At the cut card the shoe is reset and the phase becomes Shuffle. Otherwise one hand and the dealer's are dealt round-robin, the round number rises, insurance is offered iff the dealer shows an Ace, and an automatic stand follows iff the player has a natural. |
| Store.GameStore.OpenRound | src/store/gameStore.ts:86-109 | The deal itself, with its complete new state. |
| Store.GameStore.Hit | src/store/gameStore.ts:112-135 | During the player's turn on an active hand, only that hand takes the next card; a bust schedules the stand. Otherwise nothing changes. |
| Store.GameStore.Stand | src/store/gameStore.ts:137-167 | During the player's turn, the current hand stops. The next hand becomes active, or the dealer's turn starts and is scheduled. |
| Store.GameStore.Double | src/store/gameStore.ts:169-189 | During the player's turn on a two-card hand, it is doubled and the stand is scheduled. Otherwise nothing changes. |
| Store.GameStore.Split | src/store/gameStore.ts:191-208 | During the player's turn on a pair, the hand is replaced by its two split hands, the second inserted after the first. Otherwise nothing changes. |
| Store.GameStore.Insurance | src/store/gameStore.ts:210-218 | In the insurance phase, the insurance bet becomes half the current bet and play moves to the player's turn. Otherwise nothing changes. |
| Store.GameStore.ResolveDealerTurn | src/store/gameStore.ts:220-263 | The dealer plays out, every hand is settled, the phase becomes Payout, and one stats record per hand is made with the counts after the dealer's play. The session tallies rise by the number of hands played, won (wins and blackjacks), lost, pushed and blackjacks. Wagered rises by the bets, and winnings by the payouts of the hands not lost. The session duration runs to now. Both count histories grow by one entry per hand, and the count-check counters stay unchanged. A return to betting is scheduled. |
| Store.GameStore.SettleRound | src/store/gameStore.ts:225-242 | The dealer's play and settlement, or an exhausted shoe and nothing else changed. |
| Store.GameStore.StartBetting | src/store/gameStore.ts:260-262 | Only the phase changes, back to betting. |
| Store.GameStore.NewGame | src/store/gameStore.ts:265-268 | The initial state with a new shoe; the insurance bet is left as it was. |
| Store.GameStore.ResetShoe | src/store/gameStore.ts:270-277 | The shoe is reshuffled with a new cut card, and nothing else in the store changes. |
| Store.DealOpeningHands | src/store/gameStore.ts:86-90 | One hand at the bet and the dealer's hand from the first four cards. The automatic-stand test holds iff the player has a natural. |
| Store.RecordAll | src/store/gameStore.ts:246-257 | One record per hand, in order. Every session field is fixed: played, won (wins and blackjacks), lost, pushed and blackjacks rise by the matching hand counts. Wagered rises by the bets and winnings by the payouts of hands not lost. The duration is `now` less the session start, unless there are no hands. The start time is unchanged. Both histories grow by one entry per hand. The count-check counters and accuracy are unchanged. |
| Store.RecordStep | src/store/gameStore.ts:246-257 | One more record adds hand i's outcome, bet and payout to the tallies of the first i hands, and one entry to each history. |
| Store.ExtendRecords | src/store/statsStore.ts:38-68 | If the records of the first i hands are all in, recording hand i gives the records of the first i + 1 hands. |

## Left out

- The React components, the keyboard hook, the settings store and the styling are not part of this model. Settings (deck count, minimum bet, hits soft 17, payout ratio) are parameters.
- `crypto.randomUUID()` ids are not modelled; hands and cards have no identity.
- `Math.random()` draws are the `shuffleRolls` and `cutRoll` parameters; `Date.now()` is the `now` parameter.
- Timers (`setTimeout`) are not modelled. Each action returns the `Continuation` it schedules, and the caller runs the matching method.
- Floating-point money, IEEE rounding and `Math.round` on floats are not modelled. Money is exact `real`, and the true count is rounded exactly (halves up).
- Object aliasing is left out. In the source, `Shoe.deal` pushes the very card object it returns onto the dealt-cards list (src/engine/deck.ts:46-53), and `dealInitialCards` marks the dealer's second card face down on that same object (src/engine/actions.ts:141-146). `resolveDealerHand` turns up copies of the dealer's cards (src/engine/actions.ts:44), so the shoe's dealt list keeps each round's hole card face down until the shoe is reset. Here every card is a value and the dealt list holds the cards face up. The Hi-Lo count reads only the rank, so `RunningCount` and `TrueCount` are the same either way.
- `getDecksRemaining` (src/engine/deck.ts:73-75) is not modelled; nothing in the core reads it.
- The game store's `dealtCards` and `cutCardPosition` copies are not modelled, and nothing in the core reads them. Its `Snapshot` records the shoe's fields instead. The two copies do not always agree with the shoe. The reshuffle in `dealCards` (src/store/gameStore.ts:76-78) resets the shoe and clears the store's `dealtCards`, but it leaves the store's `cutCardPosition` at the old shoe's value. That copy is refreshed only by `resetShoe` (src/store/gameStore.ts:272-278) and `newGame`.
- The `Dealing` phase is declared but never entered, here as in the source.
- `resetAllStats` and the persistence middleware are not modelled: the store is never reloaded.
- Stats.StatsStore.ResetSession: keeps both count histories. The source resets to the default counting object, whose arrays are the ones every record pushed onto; a store reloaded from storage would empty them instead.
- Store.GameStore.DealCards: the deal retried after a reshuffle meets the betting-phase guard and does nothing, so the round stays in `Shuffle` until something else sets the phase; the model returns `RetryDeal` and leaves the phase there.
- Store.GameStore.Split: the source throws when the shoe runs out mid-action; the model returns `EmptyShoe` instead. For `Hit` and `Double` nothing has changed by then. For `Split` a last single card may already have been dealt, so the shoe has changed and the hands have not.
- The chart display of src/components/Trainer/BasicStrategyChart.tsx is not modelled. Its hard-11-against-Ace and soft-18 cells differ from the advisor's code; the `HardRow`, `SoftRow` and `PairRow` charts are the advisor's own.
- The two-pass loop of `dealInitialCards` is modelled as two calls of `DealRound`, one per pass.
- `Shoe.Deal` and the actions do not restate the shoe invariant; `DealingKeepsValid` re-establishes it after any deal.
- The game store never calls `recordCountCheck`; it is modelled only in `Stats`.
