/** The round controller: the game store's phase-guarded commands over the
    shoe, the dealer's hand and the player's hands. A command whose phase (or
    hand) does not allow it changes nothing. What the store schedules with a
    timer is returned as a `Continuation` for the caller to invoke. */
module Store {
  import opened Common
  import opened Cards
  import opened Hands
  import opened Shoes
  import opened Actions
  import opened Stats

  /** The phases of a round; `Dealing` is declared but never entered. */
  datatype Phase = Betting | Dealing | InsurancePhase | PlayerTurn | DealerTurn | Payout | Shuffle

  /** What the store schedules after a command: nothing, `stand` (after a
      natural, a bust or a double), `resolveDealerTurn`, the step back to
      betting, or `dealCards` again after a reshuffle. */
  datatype Continuation = NoFollowUp | AutoStand | DealerTurnNext | BettingNext | RetryDeal

  /** The store's fields and the shoe's, for stating what a command leaves
      alone. */
  datatype Snapshot = Snapshot(
    shoe: Shoe,
    cards: seq<Card>,
    dealtCards: seq<Card>,
    cutCardPosition: nat,
    dealerHand: Hand,
    playerHands: seq<Hand>,
    currentHandIndex: nat,
    phase: Phase,
    roundNumber: nat,
    insuranceBet: Option<real>,
    currentBet: real)

  /** The dealer's hand of a new store: no cards, no bet, inactive. */
  function EmptyDealerHand(): (h: Hand)
    ensures h.cards == [] && h.bet == 0.0 && !h.isActive && !h.isSettled
    ensures h.result == None && h.payout == None
  {
    Hand([], 0.0, false, false, false, false, None, None)
  }

  /** The check after the initial deal, as the store makes it: a natural for
      the player or for the dealer's hand as dealt, hole card face down. */
  function AutoStandAfterDeal(playerHand: Hand, dealerHand: Hand): bool {
    HandValueOf(playerHand).isBlackjack || HandValueOf(dealerHand).isBlackjack
  }

  /** With the hole card face down only the up card is counted, so a dealt
      dealer hand is never a blackjack, however the hole card falls: the
      dealer half of the check after the deal never fires. */
  lemma DealerBlackjackCheckIsDead(dealerHand: Hand, upCard: Card, holeCard: Card)
    requires holeCard.faceDown
    ensures HandValueOf(dealerHand.(cards := [upCard, holeCard])).value <= 11
    ensures !HandValueOf(dealerHand.(cards := [upCard, holeCard])).isBlackjack
  {
    TwoCardTotals(upCard, holeCard);
  }

  /** Every hand settled against the dealer's final hand, in order. */
  function SettleAll(hands: seq<Hand>, dealerHand: Hand, ratio: PayoutRatio): (r: seq<Hand>)
    ensures |r| == |hands|
    ensures forall i :: 0 <= i < |r| ==> r[i] == ResolveHandResults(hands[i], dealerHand, ratio)
  {
    seq(|hands|, i requires 0 <= i < |hands| => ResolveHandResults(hands[i], dealerHand, ratio))
  }

  /** The stake of the hands, summed. */
  ghost function TotalBet(hands: seq<Hand>): real {
    if hands == [] then 0.0 else TotalBet(hands[..|hands| - 1]) + hands[|hands| - 1].bet
  }

  /** The hands that ended in `outcome`. */
  ghost function CountOutcome(hands: seq<Hand>, outcome: Outcome): nat {
    if hands == [] then 0
    else CountOutcome(hands[..|hands| - 1], outcome) + (if hands[|hands| - 1].result == Some(outcome) then 1 else 0)
  }

  /** What a settled hand adds to the winnings: its payout (0 when absent),
      unless it lost. */
  function Paid(hand: Hand): real {
    if hand.result == Some(Lose) then 0.0 else if hand.payout.Some? then hand.payout.value else 0.0
  }

  /** The winnings of the hands, summed. */
  ghost function TotalPaid(hands: seq<Hand>): real {
    if hands == [] then 0.0 else TotalPaid(hands[..|hands| - 1]) + Paid(hands[|hands| - 1])
  }

  /** The statistics (`s1`, `c1`) are (`s0`, `c0`) with one record per hand
      added: every hand played and its bet wagered, wins and blackjacks
      counted as won, losses as lost, pushes as pushed, blackjacks also as
      blackjacks, the winnings of every hand that did not lose, the session
      duration up to `now` once a record is made, and the same counts
      appended to the histories once per hand. The check counters are kept. */
  ghost predicate RecordedAll(s0: SessionStats, c0: CountingStats, s1: SessionStats, c1: CountingStats,
                              hands: seq<Hand>, runningCount: int, trueCount: int, now: int) {
    && s1 == s0.(handsPlayed := s0.handsPlayed + |hands|,
                 handsWon := s0.handsWon + CountOutcome(hands, Win) + CountOutcome(hands, Blackjack),
                 handsLost := s0.handsLost + CountOutcome(hands, Lose),
                 handsPushed := s0.handsPushed + CountOutcome(hands, Push),
                 blackjacks := s0.blackjacks + CountOutcome(hands, Blackjack),
                 totalWagered := s0.totalWagered + TotalBet(hands),
                 totalWinnings := s0.totalWinnings + TotalPaid(hands),
                 sessionDuration := if hands == [] then s0.sessionDuration else now - s0.sessionStartTime)
    && c1 == c0.(runningCountHistory := c0.runningCountHistory + seq(|hands|, _ => runningCount),
                 trueCountHistory := c0.trueCountHistory + seq(|hands|, _ => trueCount))
  }

  /** What a stats record is made of: the hand's total, the dealer's total,
      the result, the bet, the payout (0 when absent) and the counts. */
  function RecordOf(hand: Hand, dealerValue: int, runningCount: int, trueCount: int): (rec: HandResult)
    requires hand.result.Some?
    ensures rec.playerValue == HandValueOf(hand).value && rec.dealerValue == dealerValue
    ensures rec.result == hand.result.value && rec.bet == hand.bet
    ensures rec.payout == (if hand.payout.Some? then hand.payout.value else 0.0)
    ensures rec.runningCount == runningCount && rec.trueCount == trueCount
  {
    HandResult(HandValueOf(hand).value, dealerValue, hand.result.value, hand.bet,
               if hand.payout.Some? then hand.payout.value else 0.0, runningCount, trueCount)
  }

  /** The dealer's turn, completed: the dealer took the next `k` cards of
      the shoe after turning the hole card up, wanted no more, and every
      player hand is settled against that hand; the phase is `Payout` and
      nothing else changed. */
  ghost predicate DealerTurnDone(before: Snapshot, after: Snapshot, hitsSoft17: bool, ratio: PayoutRatio) {
    var k := |before.cards| - |after.cards|;
    && 0 <= k
    && DealtFrom(before.cards, before.dealtCards, after.cards, after.dealtCards, k)
    && after.dealerHand == DealerAfter(before.dealerHand, before.cards, k)
    && !ShouldDealerHit(after.dealerHand, hitsSoft17)
    && after == before.(cards := after.cards, dealtCards := after.dealtCards, dealerHand := after.dealerHand,
                        playerHands := SettleAll(before.playerHands, after.dealerHand, ratio), phase := Payout)
  }

  /** The dealer's turn, cut short: the dealer dealt the shoe out and still
      wanted a card; only the shoe has changed. */
  ghost predicate DealerRanOut(before: Snapshot, after: Snapshot) {
    && after.cards == []
    && DealtFrom(before.cards, before.dealtCards, after.cards, after.dealtCards, |before.cards|)
    && after == before.(cards := after.cards, dealtCards := after.dealtCards)
  }

  class GameStore {
    var shoe: Shoe
    var dealerHand: Hand
    var playerHands: seq<Hand>
    var currentHandIndex: nat
    var phase: Phase
    var roundNumber: nat
    var insuranceBet: Option<real>
    var currentBet: real

    ghost function State(): Snapshot
      reads this, shoe
    {
      Snapshot(shoe, shoe.cards, shoe.dealtCards, shoe.cutCardPosition, dealerHand, playerHands,
               currentHandIndex, phase, roundNumber, insuranceBet, currentBet)
    }

    /** The shoe is valid, and while a round is being played the current
        hand exists. */
    ghost predicate Valid()
      reads this, shoe
    {
      && shoe.Valid()
      && (phase == InsurancePhase || phase == PlayerTurn || phase == DealerTurn ==> currentHandIndex < |playerHands|)
    }

    /** `createInitialState`: a fresh shoe for the configured number of decks,
        an empty dealer hand, no player hands, round 0, betting at the
        minimum bet. */
    constructor (deckCount: nat, minBet: real, shuffleRolls: seq<real>, cutRoll: real)
      requires RollsNeeded(52 * deckCount) <= |shuffleRolls| && AreUnitRolls(shuffleRolls)
      requires IsUnitRoll(cutRoll)
      ensures Valid() && fresh(shoe)
      ensures shoe.deckCount == deckCount && shoe.Refilled(shuffleRolls, cutRoll)
      ensures dealerHand == EmptyDealerHand() && playerHands == [] && currentHandIndex == 0
      ensures phase == Betting && roundNumber == 0 && insuranceBet == None && currentBet == minBet
    {
      dealerHand := EmptyDealerHand();
      playerHands := [];
      currentHandIndex := 0;
      phase := Betting;
      roundNumber := 0;
      insuranceBet := None;
      currentBet := minBet;
      shoe := new Shoe(deckCount, shuffleRolls, cutRoll);
    }

    /** `placeBet`: only the bet changes, in any phase. */
    method PlaceBet(bet: real)
      requires Valid()
      modifies this
      ensures Valid()
      ensures State() == old(State()).(currentBet := bet)
    {
      currentBet := bet;
    }

    /** `dealCards`, in the betting phase only. A shoe at its cut card is
        reset instead, the phase becomes `Shuffle` and the deal is retried
        later; that retry meets this same guard and does nothing, so the
        round stays in `Shuffle`. Otherwise one hand at the current bet and
        the dealer's hand are dealt, round-robin, hole card face down; the
        round number rises and play starts at the first hand, with the
        insurance phase first when the dealer shows an Ace. The store's
        check for a natural after the deal can only see the player's: it
        schedules the automatic stand exactly when the player has been
        dealt a blackjack. */
    method DealCards(shuffleRolls: seq<real>, cutRoll: real) returns (r: Continuation)
      requires Valid()
      requires RollsNeeded(52 * shoe.deckCount) <= |shuffleRolls| && AreUnitRolls(shuffleRolls)
      requires IsUnitRoll(cutRoll)
      modifies this, shoe
      ensures Valid() && shoe == old(shoe)
      ensures old(phase) != Betting ==> r == NoFollowUp && State() == old(State())
      ensures old(phase) == Betting && old(shoe.NeedsReshuffle()) ==>
        && r == RetryDeal
        && shoe.Refilled(shuffleRolls, cutRoll)
        && State() == old(State()).(cards := shoe.cards, dealtCards := shoe.dealtCards,
                                    cutCardPosition := shoe.cutCardPosition, phase := Shuffle)
      ensures old(phase) == Betting && !old(shoe.NeedsReshuffle()) ==>
        var drawn := Drawn(old(shoe.cards), 4);
        && DealtFrom(old(shoe.cards), old(shoe.dealtCards), shoe.cards, shoe.dealtCards, 4)
        && playerHands == [CreateHand(old(currentBet), [drawn[0], drawn[2]])]
        && dealerHand == CreateHand(0.0, [drawn[1], drawn[3].(faceDown := true)])
        && State() == old(State()).(cards := shoe.cards, dealtCards := shoe.dealtCards,
                                    playerHands := playerHands, dealerHand := dealerHand, currentHandIndex := 0,
                                    phase := if drawn[1].rank == Ace then InsurancePhase else PlayerTurn,
                                    roundNumber := old(roundNumber) + 1)
        && (r == AutoStand <==> HandValueOf(playerHands[0]).isBlackjack)
        && (r != AutoStand ==> r == NoFollowUp)
    {
      if phase != Betting {
        return NoFollowUp;
      }
      if shoe.NeedsReshuffle() {
        shoe.Reset(shuffleRolls, cutRoll);
        phase := Shuffle;
        return RetryDeal;
      }
      r := OpenRound();
    }

    /** The deal proper of `dealCards`, once the guard and the cut card have
        let it through. */
    method OpenRound() returns (r: Continuation)
      requires Valid() && phase == Betting && !shoe.NeedsReshuffle()
      modifies this, shoe
      ensures Valid() && shoe == old(shoe)
      ensures var drawn := Drawn(old(shoe.cards), 4);
        && DealtFrom(old(shoe.cards), old(shoe.dealtCards), shoe.cards, shoe.dealtCards, 4)
        && playerHands == [CreateHand(old(currentBet), [drawn[0], drawn[2]])]
        && dealerHand == CreateHand(0.0, [drawn[1], drawn[3].(faceDown := true)])
        && State() == old(State()).(cards := shoe.cards, dealtCards := shoe.dealtCards,
                                    playerHands := playerHands, dealerHand := dealerHand, currentHandIndex := 0,
                                    phase := if drawn[1].rank == Ace then InsurancePhase else PlayerTurn,
                                    roundNumber := old(roundNumber) + 1)
        && (r == AutoStand <==> HandValueOf(playerHands[0]).isBlackjack)
        && (r != AutoStand ==> r == NoFollowUp)
    {
      ghost var s0 := State();
      ghost var c0, d0 := shoe.cards, shoe.dealtCards;
      assert |shoe.cards| > 26 * shoe.deckCount;
      var hand, dealer := DealOpeningHands(shoe, currentBet);
      DealingKeepsValid(shoe.deckCount, c0, d0, shoe.cards, shoe.dealtCards, shoe.cutCardPosition, 4);
      playerHands := [hand];
      dealerHand := dealer;
      currentHandIndex := 0;
      phase := if HasDealerAce(dealer) then InsurancePhase else PlayerTurn;
      roundNumber := roundNumber + 1;
      r := if AutoStandAfterDeal(hand, dealer) then AutoStand else NoFollowUp;
      assert State() == s0.(cards := shoe.cards, dealtCards := shoe.dealtCards,
                            playerHands := playerHands, dealerHand := dealerHand, currentHandIndex := 0,
                            phase := phase, roundNumber := roundNumber);
    }

    /** `hit`, in the player's turn and on an active current hand only: the
        current hand takes the next card of the shoe and no other hand
        changes; a bust schedules the automatic stand. */
    method Hit() returns (r: Result<Continuation>)
      requires Valid()
      modifies this, shoe
      ensures Valid() && shoe == old(shoe)
      ensures var i := old(currentHandIndex);
        var legal := old(phase) == PlayerTurn && i < old(|playerHands|) && old(playerHands)[i].isActive;
        && (!legal ==> r == Ok(NoFollowUp) && State() == old(State()))
        && (legal ==> (r.Ok? <==> old(|shoe.cards|) > 0))
        && (legal && r.EmptyShoe? ==> State() == old(State()))
        && (legal && r.Ok? ==>
              var h := old(playerHands)[i].(cards := old(playerHands)[i].cards + Drawn(old(shoe.cards), 1));
              && DealtFrom(old(shoe.cards), old(shoe.dealtCards), shoe.cards, shoe.dealtCards, 1)
              && State() == old(State()).(cards := shoe.cards, dealtCards := shoe.dealtCards,
                                          playerHands := old(playerHands)[i := h])
              && r.value == (if HandValueOf(h).isBust then AutoStand else NoFollowUp))
    {
      if phase != PlayerTurn || currentHandIndex >= |playerHands| || !playerHands[currentHandIndex].isActive {
        return Ok(NoFollowUp);
      }
      ghost var c0, d0 := shoe.cards, shoe.dealtCards;
      var newHand := PerformHit(playerHands[currentHandIndex], shoe);
      DealingKeepsValid(shoe.deckCount, c0, d0, shoe.cards, shoe.dealtCards, shoe.cutCardPosition,
                        if newHand.Ok? then 1 else 0);
      if newHand.EmptyShoe? {
        assert shoe.cards == c0[..|c0|] && shoe.dealtCards == d0 + [];
        return EmptyShoe;
      }
      playerHands := playerHands[currentHandIndex := newHand.value];
      r := Ok(if HandValueOf(newHand.value).isBust then AutoStand else NoFollowUp);
    }

    /** `stand`, in the player's turn and on an existing current hand (active
        or not): the hand is closed; play moves to the next hand, which is
        made active, or, after the last hand, to the dealer's turn, which is
        then scheduled. */
    method Stand() returns (r: Continuation)
      requires Valid()
      modifies this
      ensures Valid()
      ensures var i := old(currentHandIndex);
        var hands := old(playerHands);
        var legal := old(phase) == PlayerTurn && i < |hands|;
        && (!legal ==> r == NoFollowUp && State() == old(State()))
        && (legal && i + 1 < |hands| ==>
              && r == NoFollowUp
              && State() == old(State()).(playerHands := hands[i := PerformStand(hands[i])][i + 1 := hands[i + 1].(isActive := true)],
                                          currentHandIndex := i + 1))
        && (legal && i + 1 == |hands| ==>
              && r == DealerTurnNext
              && State() == old(State()).(playerHands := hands[i := PerformStand(hands[i])], phase := DealerTurn))
    {
      if phase != PlayerTurn || currentHandIndex >= |playerHands| {
        return NoFollowUp;
      }
      var updated := playerHands[currentHandIndex := PerformStand(playerHands[currentHandIndex])];
      var next := currentHandIndex + 1;
      if next < |playerHands| {
        updated := updated[next := updated[next].(isActive := true)];
        playerHands := updated;
        currentHandIndex := next;
        r := NoFollowUp;
      } else {
        playerHands := updated;
        phase := DealerTurn;
        r := DealerTurnNext;
      }
    }

    /** `double`, in the player's turn and on a current hand of exactly two
        cards: the hand is doubled down with the next card of the shoe, and
        the automatic stand is scheduled. */
    method Double() returns (r: Result<Continuation>)
      requires Valid()
      modifies this, shoe
      ensures Valid() && shoe == old(shoe)
      ensures var i := old(currentHandIndex);
        var legal := old(phase) == PlayerTurn && i < old(|playerHands|) && |old(playerHands)[i].cards| == 2;
        && (!legal ==> r == Ok(NoFollowUp) && State() == old(State()))
        && (legal ==> (r.Ok? <==> old(|shoe.cards|) > 0))
        && (legal && r.EmptyShoe? ==> State() == old(State()))
        && (legal && r.Ok? ==>
              var h := old(playerHands)[i];
              var doubled := h.(cards := h.cards + Drawn(old(shoe.cards), 1), bet := h.bet * 2.0,
                                isDoubled := true, isActive := false);
              && DealtFrom(old(shoe.cards), old(shoe.dealtCards), shoe.cards, shoe.dealtCards, 1)
              && State() == old(State()).(cards := shoe.cards, dealtCards := shoe.dealtCards,
                                          playerHands := old(playerHands)[i := doubled])
              && r.value == AutoStand)
    {
      if phase != PlayerTurn || currentHandIndex >= |playerHands| || |playerHands[currentHandIndex].cards| != 2 {
        return Ok(NoFollowUp);
      }
      ghost var c0, d0 := shoe.cards, shoe.dealtCards;
      var newHand := PerformDoubleDown(playerHands[currentHandIndex], shoe);
      DealingKeepsValid(shoe.deckCount, c0, d0, shoe.cards, shoe.dealtCards, shoe.cutCardPosition,
                        if newHand.Ok? then 1 else 0);
      if newHand.EmptyShoe? {
        assert shoe.cards == c0[..|c0|] && shoe.dealtCards == d0 + [];
        return EmptyShoe;
      }
      playerHands := playerHands[currentHandIndex := newHand.value];
      r := Ok(AutoStand);
    }

    /** `split`, in the player's turn and on a current hand of two cards of
        the same rank: the hand is replaced by the two split hands, the
        second inserted right after the first; every other hand keeps its
        place, so there is exactly one hand more. */
    method Split() returns (r: Result<Continuation>)
      requires Valid()
      modifies this, shoe
      ensures Valid() && shoe == old(shoe)
      ensures var i := old(currentHandIndex);
        var hands := old(playerHands);
        var legal := old(phase) == PlayerTurn && i < |hands| && |hands[i].cards| == 2
                     && hands[i].cards[0].rank == hands[i].cards[1].rank;
        && (!legal ==> r == Ok(NoFollowUp) && State() == old(State()))
        && (legal ==> (r.Ok? <==> old(|shoe.cards|) >= 2))
        && (legal && r.EmptyShoe? ==>
              State() == old(State()).(cards := shoe.cards, dealtCards := shoe.dealtCards)
              && DealtFrom(old(shoe.cards), old(shoe.dealtCards), shoe.cards, shoe.dealtCards, old(|shoe.cards|)))
        && (legal && r.Ok? ==>
              var drawn := Drawn(old(shoe.cards), 2);
              var h := hands[i];
              var hand1 := CreateHand(h.bet, [h.cards[0], drawn[0]]).(isSplit := true);
              var hand2 := CreateHand(h.bet, [h.cards[1], drawn[1]]).(isSplit := true, isActive := false);
              && DealtFrom(old(shoe.cards), old(shoe.dealtCards), shoe.cards, shoe.dealtCards, 2)
              && |playerHands| == |hands| + 1
              && State() == old(State()).(cards := shoe.cards, dealtCards := shoe.dealtCards,
                                          playerHands := hands[..i] + [hand1, hand2] + hands[i + 1..])
              && r.value == NoFollowUp)
    {
      if phase != PlayerTurn || currentHandIndex >= |playerHands| || |playerHands[currentHandIndex].cards| != 2 {
        return Ok(NoFollowUp);
      }
      var current := playerHands[currentHandIndex];
      if current.cards[0].rank != current.cards[1].rank {
        return Ok(NoFollowUp);
      }
      ghost var c0, d0 := shoe.cards, shoe.dealtCards;
      var split := PerformSplit(current, shoe);
      DealingKeepsValid(shoe.deckCount, c0, d0, shoe.cards, shoe.dealtCards, shoe.cutCardPosition,
                        if split.Ok? then 2 else |c0|);
      if split.EmptyShoe? {
        return EmptyShoe;
      }
      var i := currentHandIndex;
      playerHands := playerHands[..i] + [split.value.0, split.value.1] + playerHands[i + 1..];
      r := Ok(NoFollowUp);
    }

    /** `insurance`, in the insurance phase only: the insurance bet is half
        the current bet and play goes on to the player's turn. */
    method Insurance()
      requires Valid()
      modifies this
      ensures Valid()
      ensures old(phase) != InsurancePhase ==> State() == old(State())
      ensures old(phase) == InsurancePhase ==>
        State() == old(State()).(insuranceBet := Some(old(currentBet) / 2.0), phase := PlayerTurn)
    {
      if phase != InsurancePhase {
        return;
      }
      insuranceBet := Some(currentBet / 2.0);
      phase := PlayerTurn;
    }

    /** `resolveDealerTurn`, in any phase: the dealer plays out, every player
        hand is settled against the dealer's final hand, the phase becomes
        `Payout` and the step back to betting is scheduled. One stats record
        per hand is made, in order, each with the counts after the dealer's
        play; `now` stands for the clock. If the shoe runs out while the
        dealer still wants a card, only the shoe has changed. */
    method ResolveDealerTurn(hitsSoft17: bool, ratio: PayoutRatio, stats: StatsStore, now: int)
      returns (r: Result<Continuation>)
      requires Valid() && stats.Valid()
      modifies this, shoe, stats
      ensures Valid() && stats.Valid() && shoe == old(shoe)
      ensures r.EmptyShoe? ==>
        && DealerRanOut(old(State()), State())
        && stats.session == old(stats.session) && stats.counting == old(stats.counting)
      ensures r.Ok? ==>
        && r.value == BettingNext
        && DealerTurnDone(old(State()), State(), hitsSoft17, ratio)
        && RecordedAll(old(stats.session), old(stats.counting), stats.session, stats.counting,
                       playerHands, shoe.RunningCount(), shoe.TrueCount(), now)
    {
      var settled := SettleRound(hitsSoft17, ratio);
      if !settled {
        return EmptyShoe;
      }
      RecordAll(stats, playerHands, HandValueOf(dealerHand).value, shoe.RunningCount(), shoe.TrueCount(), now);
      r := Ok(BettingNext);
    }

    /** The store half of `resolveDealerTurn`: the dealer's play and the
        settlement of every hand. */
    method SettleRound(hitsSoft17: bool, ratio: PayoutRatio) returns (settled: bool)
      requires Valid()
      modifies this, shoe
      ensures Valid() && shoe == old(shoe)
      ensures settled ==> DealerTurnDone(old(State()), State(), hitsSoft17, ratio)
      ensures settled ==> forall i :: 0 <= i < |playerHands| ==> playerHands[i].result.Some?
      ensures !settled ==> DealerRanOut(old(State()), State())
    {
      ghost var s0 := State();
      ghost var c0, d0 := shoe.cards, shoe.dealtCards;
      var finalDealerHand := ResolveDealerHand(dealerHand, shoe, hitsSoft17);
      DealingKeepsValid(shoe.deckCount, c0, d0, shoe.cards, shoe.dealtCards, shoe.cutCardPosition, |c0| - |shoe.cards|);
      if finalDealerHand.EmptyShoe? {
        assert State() == s0.(cards := shoe.cards, dealtCards := shoe.dealtCards);
        return false;
      }
      dealerHand := finalDealerHand.value;
      playerHands := SettleAll(playerHands, dealerHand, ratio);
      phase := Payout;
      assert State() == s0.(cards := shoe.cards, dealtCards := shoe.dealtCards, dealerHand := dealerHand,
                            playerHands := playerHands, phase := Payout);
      settled := true;
    }

    /** The timer after `resolveDealerTurn`: back to betting, nothing else. */
    method StartBetting()
      requires Valid()
      modifies this
      ensures Valid()
      ensures State() == old(State()).(phase := Betting)
    {
      phase := Betting;
    }

    /** `newGame`: the initial state again, with a fresh shoe. The insurance
        bet is not part of the initial state, so it keeps its value. */
    method NewGame(deckCount: nat, minBet: real, shuffleRolls: seq<real>, cutRoll: real)
      requires RollsNeeded(52 * deckCount) <= |shuffleRolls| && AreUnitRolls(shuffleRolls)
      requires IsUnitRoll(cutRoll)
      modifies this
      ensures Valid() && fresh(shoe)
      ensures shoe.deckCount == deckCount && shoe.Refilled(shuffleRolls, cutRoll)
      ensures dealerHand == EmptyDealerHand() && playerHands == [] && currentHandIndex == 0
      ensures phase == Betting && roundNumber == 0 && currentBet == minBet
      ensures insuranceBet == old(insuranceBet)
    {
      var newShoe := new Shoe(deckCount, shuffleRolls, cutRoll);
      shoe, dealerHand, playerHands, currentHandIndex := newShoe, EmptyDealerHand(), [], 0;
      phase, roundNumber, currentBet := Betting, 0, minBet;
    }

    /** `resetShoe`, in any phase: the shoe is reshuffled whole with a new cut
        card; nothing else changes. */
    method ResetShoe(shuffleRolls: seq<real>, cutRoll: real)
      requires Valid()
      requires RollsNeeded(52 * shoe.deckCount) <= |shuffleRolls| && AreUnitRolls(shuffleRolls)
      requires IsUnitRoll(cutRoll)
      modifies shoe
      ensures Valid()
      ensures shoe.Refilled(shuffleRolls, cutRoll)
      ensures State() == old(State()).(cards := shoe.cards, dealtCards := shoe.dealtCards,
                                       cutCardPosition := shoe.cutCardPosition)
    {
      shoe.Reset(shuffleRolls, cutRoll);
    }
  }

  /** The initial deal of `dealCards`: one player hand at the bet and the
      dealer's hand, by `dealInitialCards`. The shoe has the four cards, so
      the deal cannot fail; the store's check for a natural then comes down
      to the player's hand. */
  method DealOpeningHands(shoe: Shoe, bet: real) returns (hand: Hand, dealer: Hand)
    requires |shoe.cards| >= 4
    modifies shoe
    ensures shoe.cutCardPosition == old(shoe.cutCardPosition)
    ensures DealtFrom(old(shoe.cards), old(shoe.dealtCards), shoe.cards, shoe.dealtCards, 4)
    ensures var drawn := Drawn(old(shoe.cards), 4);
      && hand == CreateHand(bet, [drawn[0], drawn[2]])
      && dealer == CreateHand(0.0, [drawn[1], drawn[3].(faceDown := true)])
    ensures AutoStandAfterDeal(hand, dealer) <==> HandValueOf(hand).isBlackjack
  {
    var dealt := DealInitialCards(shoe, 1, bet);
    hand, dealer := dealt.value.0[0], dealt.value.1;
    DealerBlackjackCheckIsDead(dealer, dealer.cards[0], dealer.cards[1]);
    assert dealer == dealer.(cards := [dealer.cards[0], dealer.cards[1]]);
  }

  /** The stats loop of `resolveDealerTurn`: one record per settled hand, in
      order, with the dealer's total and the same counts. */
  method RecordAll(stats: StatsStore, hands: seq<Hand>, dealerValue: int, runningCount: int, trueCount: int, now: int)
    requires stats.Valid()
    requires forall i :: 0 <= i < |hands| ==> hands[i].result.Some?
    modifies stats
    ensures stats.Valid()
    ensures RecordedAll(old(stats.session), old(stats.counting), stats.session, stats.counting,
                        hands, runningCount, trueCount, now)
  {
    ghost var s0, c0 := stats.session, stats.counting;
    for i := 0 to |hands|
      invariant stats.Valid()
      invariant RecordedAll(s0, c0, stats.session, stats.counting, hands[..i], runningCount, trueCount, now)
    {
      ghost var sb, cb := stats.session, stats.counting;
      stats.RecordHandResult(RecordOf(hands[i], dealerValue, runningCount, trueCount), now);
      ExtendRecords(s0, c0, sb, cb, stats.session, stats.counting, hands, i, dealerValue, runningCount, trueCount, now);
    }
    assert hands[..|hands|] == hands;
  }

  /** One more hand in the stats loop: the tallies of the first `i + 1`
      hands are those of the first `i` and hand `i`, and the histories grow
      by one entry. */
  lemma RecordStep(hands: seq<Hand>, i: nat, runningCount: int, trueCount: int)
    requires i < |hands|
    ensures forall o: Outcome ::
      CountOutcome(hands[..i + 1], o) == CountOutcome(hands[..i], o) + (if hands[i].result == Some(o) then 1 else 0)
    ensures TotalBet(hands[..i + 1]) == TotalBet(hands[..i]) + hands[i].bet
    ensures TotalPaid(hands[..i + 1]) == TotalPaid(hands[..i]) + Paid(hands[i])
    ensures seq(i + 1, _ => runningCount) == seq(i, _ => runningCount) + [runningCount]
    ensures seq(i + 1, _ => trueCount) == seq(i, _ => trueCount) + [trueCount]
  {
    assert hands[..i + 1][..i] == hands[..i];
  }

  /** The records so far, followed by the one `recordHandResult` makes for
      hand `i`, are the records of the first `i + 1` hands. */
  lemma ExtendRecords(s0: SessionStats, c0: CountingStats, sb: SessionStats, cb: CountingStats,
                      s1: SessionStats, c1: CountingStats, hands: seq<Hand>, i: nat,
                      dealerValue: int, runningCount: int, trueCount: int, now: int)
    requires i < |hands| && hands[i].result.Some?
    requires RecordedAll(s0, c0, sb, cb, hands[..i], runningCount, trueCount, now)
    requires var rec := RecordOf(hands[i], dealerValue, runningCount, trueCount);
      && s1.handsPlayed == sb.handsPlayed + 1
      && s1.totalWagered == sb.totalWagered + rec.bet
      && s1.handsWon == sb.handsWon + (if rec.result == Win || rec.result == Blackjack then 1 else 0)
      && s1.handsLost == sb.handsLost + (if rec.result == Lose then 1 else 0)
      && s1.handsPushed == sb.handsPushed + (if rec.result == Push then 1 else 0)
      && s1.blackjacks == sb.blackjacks + (if rec.result == Blackjack then 1 else 0)
      && s1.totalWinnings == sb.totalWinnings + (if rec.result == Lose then 0.0 else rec.payout)
      && s1.sessionStartTime == sb.sessionStartTime
      && s1.sessionDuration == now - sb.sessionStartTime
      && c1 == cb.(runningCountHistory := cb.runningCountHistory + [rec.runningCount],
                   trueCountHistory := cb.trueCountHistory + [rec.trueCount])
    ensures RecordedAll(s0, c0, s1, c1, hands[..i + 1], runningCount, trueCount, now)
  {
    RecordStep(hands, i, runningCount, trueCount);
  }
}
