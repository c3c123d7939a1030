/** The round actions: hand transformers that deal from the shoe (hit,
    double, split, the dealer's play, the initial deal) and the pure ones
    (stand, settlement). */
module Actions {
  import opened Common
  import opened Cards
  import opened Hands
  import opened Shoes

  /** The table's blackjack payout: 6:5 or 3:2. */
  datatype PayoutRatio = SixToFive | ThreeToTwo

  /** `performHit`: the hand with one more card, the one the shoe deals. */
  method PerformHit(hand: Hand, shoe: Shoe) returns (r: Result<Hand>)
    modifies shoe
    ensures shoe.cutCardPosition == old(shoe.cutCardPosition)
    ensures r.Ok? <==> old(|shoe.cards|) > 0
    ensures DealtFrom(old(shoe.cards), old(shoe.dealtCards), shoe.cards, shoe.dealtCards, if r.Ok? then 1 else 0)
    ensures r.Ok? ==> r.value == hand.(cards := hand.cards + Drawn(old(shoe.cards), 1))
  {
    var card := shoe.Deal();
    if card.EmptyShoe? {
      return EmptyShoe;
    }
    r := Ok(hand.(cards := hand.cards + [card.value]));
  }

  /** `performStand`: the hand, no longer active; nothing else changes. */
  function PerformStand(hand: Hand): (r: Hand)
    ensures !r.isActive
    ensures r.(isActive := hand.isActive) == hand
  {
    hand.(isActive := false)
  }

  /** `performDoubleDown`: exactly one more card, the bet doubled, and the
      hand closed. */
  method PerformDoubleDown(hand: Hand, shoe: Shoe) returns (r: Result<Hand>)
    modifies shoe
    ensures shoe.cutCardPosition == old(shoe.cutCardPosition)
    ensures r.Ok? <==> old(|shoe.cards|) > 0
    ensures DealtFrom(old(shoe.cards), old(shoe.dealtCards), shoe.cards, shoe.dealtCards, if r.Ok? then 1 else 0)
    ensures r.Ok? ==> r.value == hand.(cards := hand.cards + Drawn(old(shoe.cards), 1),
                                       bet := hand.bet * 2.0, isDoubled := true, isActive := false)
  {
    var newHand := PerformHit(hand, shoe);
    if newHand.EmptyShoe? {
      return EmptyShoe;
    }
    r := Ok(newHand.value.(bet := hand.bet * 2.0, isDoubled := true, isActive := false));
  }

  /** `performSplit`: each of the two cards starts a new split hand at the same
      bet and is dealt one more card, the first hand first; only the first hand
      is active. When the shoe runs out part way, the cards already dealt stay
      dealt. */
  method PerformSplit(hand: Hand, shoe: Shoe) returns (r: Result<(Hand, Hand)>)
    requires |hand.cards| >= 2
    modifies shoe
    ensures shoe.cutCardPosition == old(shoe.cutCardPosition)
    ensures r.Ok? <==> old(|shoe.cards|) >= 2
    ensures DealtFrom(old(shoe.cards), old(shoe.dealtCards), shoe.cards, shoe.dealtCards,
                      if r.Ok? then 2 else old(|shoe.cards|))
    ensures r.Ok? ==>
      var drawn := Drawn(old(shoe.cards), 2);
      && r.value.0 == CreateHand(hand.bet, [hand.cards[0], drawn[0]]).(isSplit := true)
      && r.value.1 == CreateHand(hand.bet, [hand.cards[1], drawn[1]]).(isSplit := true, isActive := false)
  {
    ghost var c0, d0 := shoe.cards, shoe.dealtCards;
    var first := shoe.Deal();
    if first.EmptyShoe? {
      return EmptyShoe;
    }
    ghost var c1, d1 := shoe.cards, shoe.dealtCards;
    var hand1 := CreateHand(hand.bet, [hand.cards[0], first.value]).(isSplit := true);
    var second := shoe.Deal();
    DealtFromChain(c0, d0, c1, d1, shoe.cards, shoe.dealtCards, 1, if second.Ok? then 1 else 0);
    if second.EmptyShoe? {
      return EmptyShoe;
    }
    var hand2 := CreateHand(hand.bet, [hand.cards[1], second.value]).(isSplit := true, isActive := false);
    r := Ok((hand1, hand2));
  }

  /** The dealer's cards with the hole card turned up: every card face up,
      each still the same suit and rank. */
  function RevealAll(cards: seq<Card>): (r: seq<Card>)
    ensures |r| == |cards|
    ensures forall i :: 0 <= i < |r| ==> !r[i].faceDown && r[i].suit == cards[i].suit && r[i].rank == cards[i].rank
  {
    seq(|cards|, i requires 0 <= i < |cards| => cards[i].(faceDown := false))
  }

  /** `shouldDealerHit`: the dealer draws below 17, and on a soft 17 when the
      table's rule says so. */
  function ShouldDealerHit(hand: Hand, hitsSoft17: bool): (b: bool)
    ensures b <==> HandValueOf(hand).value < 17
                   || (HandValueOf(hand).value == 17 && HandValueOf(hand).isSoft && hitsSoft17)
  {
    var hv := HandValueOf(hand);
    if hv.isBust then false
    else if hv.value < 17 then true
    else if hv.value == 17 && hv.isSoft && hitsSoft17 then true
    else false
  }

  /** A dealer who stops drawing has busted or reached at least 17, and does
      not stop on a soft 17 at a table that hits soft 17. */
  lemma DealerStandsOnSeventeen(hand: Hand, hitsSoft17: bool)
    requires !ShouldDealerHit(hand, hitsSoft17)
    ensures HandValueOf(hand).isBust || HandValueOf(hand).value >= 17
    ensures hitsSoft17 ==> !(HandValueOf(hand).value == 17 && HandValueOf(hand).isSoft)
  {
  }

  /** The dealer's hand after the reveal and `k` more cards from `cards`. */
  ghost function DealerAfter(dealerHand: Hand, cards: seq<Card>, k: nat): Hand
    requires k <= |cards|
  {
    dealerHand.(cards := RevealAll(dealerHand.cards) + Drawn(cards, k))
  }

  lemma DealerAfterStep(dealerHand: Hand, cards: seq<Card>, k: nat)
    requires k < |cards|
    ensures var h := DealerAfter(dealerHand, cards, k);
      DealerAfter(dealerHand, cards, k + 1) == h.(cards := h.cards + Drawn(cards[..|cards| - k], 1))
  {
    DrawnSplit(cards, k, 1);
  }

  /** Dealt from a valid shoe, the dealer's resolved hand lies all face up. */
  lemma DealerAfterFaceUp(dealerHand: Hand, deckCount: nat, cards: seq<Card>, dealt: seq<Card>, cut: nat, k: nat)
    requires k <= |cards| && ValidShoe(deckCount, cards, dealt, cut)
    ensures forall i :: 0 <= i < |DealerAfter(dealerHand, cards, k).cards| ==> !DealerAfter(dealerHand, cards, k).cards[i].faceDown
  {
    ValidShoeFaceUp(deckCount, cards, dealt, cut);
    var revealed: seq<Card>, drawn: seq<Card> := RevealAll(dealerHand.cards), Drawn(cards, k);
    forall i | 0 <= i < |revealed + drawn|
      ensures !(revealed + drawn)[i].faceDown
    {
      if i >= |revealed| {
        assert (revealed + drawn)[i] == cards[|cards| - 1 - (i - |revealed|)];
      }
    }
  }

  /** `resolveDealerHand`: reveal the hole card, then hit while the dealer
      should. The dealer draws exactly the cards it wants: it wanted a card at
      every earlier point and, on success, it does not want one at the end, so
      it has busted or stands on 17 or more, and not on a soft 17 when it hits
      those. If the shoe runs out the dealer still wanted a card. */
  method ResolveDealerHand(dealerHand: Hand, shoe: Shoe, hitsSoft17: bool) returns (r: Result<Hand>)
    modifies shoe
    ensures shoe.cutCardPosition == old(shoe.cutCardPosition)
    ensures |shoe.cards| <= old(|shoe.cards|)
    ensures var k := old(|shoe.cards|) - |shoe.cards|;
      && DealtFrom(old(shoe.cards), old(shoe.dealtCards), shoe.cards, shoe.dealtCards, k)
      && (forall j :: 0 <= j < k ==> ShouldDealerHit(DealerAfter(dealerHand, old(shoe.cards), j), hitsSoft17))
      && (r.Ok? ==> r.value == DealerAfter(dealerHand, old(shoe.cards), k))
      && (r.EmptyShoe? ==> shoe.cards == [] && ShouldDealerHit(DealerAfter(dealerHand, old(shoe.cards), k), hitsSoft17))
    ensures r.Ok? ==> !ShouldDealerHit(r.value, hitsSoft17)
  {
    ghost var c0, d0 := shoe.cards, shoe.dealtCards;
    var hand := dealerHand.(cards := RevealAll(dealerHand.cards));
    ghost var k: nat := 0;
    assert hand == DealerAfter(dealerHand, c0, 0) by {
      assert RevealAll(dealerHand.cards) + [] == RevealAll(dealerHand.cards);
    }
    assert DealtFrom(c0, d0, shoe.cards, shoe.dealtCards, 0) by {
      assert c0[..|c0|] == c0 && d0 + [] == d0;
    }
    while ShouldDealerHit(hand, hitsSoft17)
      invariant shoe.cutCardPosition == old(shoe.cutCardPosition)
      invariant k <= |c0| && DealtFrom(c0, d0, shoe.cards, shoe.dealtCards, k)
      invariant hand == DealerAfter(dealerHand, c0, k)
      invariant forall j :: 0 <= j < k ==> ShouldDealerHit(DealerAfter(dealerHand, c0, j), hitsSoft17)
      decreases |shoe.cards|
    {
      ghost var c1, d1 := shoe.cards, shoe.dealtCards;
      var next := PerformHit(hand, shoe);
      DealtFromChain(c0, d0, c1, d1, shoe.cards, shoe.dealtCards, k, if next.Ok? then 1 else 0);
      if next.EmptyShoe? {
        assert shoe.cards == [] && |c0| - |shoe.cards| == k;
        return EmptyShoe;
      }
      DealerAfterStep(dealerHand, c0, k);
      forall j | 0 <= j < k + 1
        ensures ShouldDealerHit(DealerAfter(dealerHand, c0, j), hitsSoft17)
      {
        if j == k {
          assert DealerAfter(dealerHand, c0, j) == hand;
        }
      }
      hand := next.value;
      k := k + 1;
    }
    r := Ok(hand);
  }

  /** What a settled hand returns to the player, stake included. */
  function PayoutFor(outcome: Outcome, bet: real, ratio: PayoutRatio): real {
    match outcome
    case Win => bet * 2.0
    case Push => bet
    case Lose => 0.0
    case Blackjack => bet * (if ratio == ThreeToTwo then 2.5 else 2.2)
  }

  /** `resolveHandResults`: settle the player's hand against the dealer's
      final hand. The first matching case wins: player bust, dealer bust,
      player blackjack (a push against a dealer blackjack), dealer
      blackjack, then the totals. Only `result`, `payout` and `isSettled`
      change, and the payout is the one the result calls for. */
  function ResolveHandResults(playerHand: Hand, dealerHand: Hand, ratio: PayoutRatio): (r: Hand)
    ensures r == playerHand.(result := r.result, payout := r.payout, isSettled := true)
    ensures r.result.Some? && r.payout.Some?
    ensures r.payout.value == PayoutFor(r.result.value, playerHand.bet, ratio)
    ensures var p, d := HandValueOf(playerHand), HandValueOf(dealerHand);
      && (p.isBust ==> r.result == Some(Lose))
      && (!p.isBust && d.isBust ==> r.result == Some(Win))
      && (!p.isBust && !d.isBust && p.isBlackjack ==> r.result == Some(if d.isBlackjack then Push else Blackjack))
      && (!p.isBust && !d.isBust && !p.isBlackjack && d.isBlackjack ==> r.result == Some(Lose))
      && (!p.isBust && !d.isBust && !p.isBlackjack && !d.isBlackjack ==>
            r.result == Some(if p.value > d.value then Win else if p.value < d.value then Lose else Push))
  {
    var playerValue := HandValueOf(playerHand);
    var dealerValue := HandValueOf(dealerHand);
    var (result, payout) :=
      if playerValue.isBust then (Lose, 0.0)
      else if dealerValue.isBust then (Win, playerHand.bet * 2.0)
      else if playerValue.isBlackjack then
        (if dealerValue.isBlackjack then (Push, playerHand.bet)
         else (Blackjack, playerHand.bet * (if ratio == ThreeToTwo then 2.5 else 2.2)))
      else if dealerValue.isBlackjack then (Lose, 0.0)
      else if playerValue.value > dealerValue.value then (Win, playerHand.bet * 2.0)
      else if playerValue.value < dealerValue.value then (Lose, 0.0)
      else (Push, playerHand.bet);
    playerHand.(result := Some(result), payout := Some(payout), isSettled := true)
  }

  /** The hands, each with one more card: hand `g` gets `cards[g]`. */
  function AddCards(hands: seq<Hand>, cards: seq<Card>): (r: seq<Hand>)
    requires |hands| <= |cards|
    ensures |r| == |hands|
    ensures forall g :: 0 <= g < |r| ==> r[g] == hands[g].(cards := hands[g].cards + [cards[g]])
  {
    seq(|hands|, g requires 0 <= g < |hands| => hands[g].(cards := hands[g].cards + [cards[g]]))
  }

  /** One pass of `dealInitialCards`: a card to each player hand in order,
      then one to the dealer, face down when it is the hole card. When the
      shoe runs out part way, the cards already dealt stay dealt. */
  method DealRound(shoe: Shoe, playerHands: seq<Hand>, dealerHand: Hand, holeCard: bool)
    returns (r: Result<(seq<Hand>, Hand)>)
    modifies shoe
    ensures shoe.cutCardPosition == old(shoe.cutCardPosition)
    ensures r.Ok? <==> old(|shoe.cards|) >= |playerHands| + 1
    ensures DealtFrom(old(shoe.cards), old(shoe.dealtCards), shoe.cards, shoe.dealtCards,
                      if r.Ok? then |playerHands| + 1 else old(|shoe.cards|))
    ensures r.Ok? ==>
      var drawn := Drawn(old(shoe.cards), |playerHands| + 1);
      && r.value.0 == AddCards(playerHands, drawn)
      && r.value.1 == dealerHand.(cards := dealerHand.cards
                                  + [if holeCard then drawn[|playerHands|].(faceDown := true) else drawn[|playerHands|]])
  {
    ghost var c0, d0 := shoe.cards, shoe.dealtCards;
    assert DealtFrom(c0, d0, shoe.cards, shoe.dealtCards, 0) by {
      assert c0[..|c0|] == c0 && d0 + [] == d0;
    }
    var hands := playerHands;
    for h := 0 to |hands|
      invariant shoe.cutCardPosition == old(shoe.cutCardPosition)
      invariant h <= |c0| && DealtFrom(c0, d0, shoe.cards, shoe.dealtCards, h)
      invariant |hands| == |playerHands|
      invariant forall g :: 0 <= g < h ==> hands[g] == playerHands[g].(cards := playerHands[g].cards + [c0[|c0| - 1 - g]])
      invariant forall g :: h <= g < |hands| ==> hands[g] == playerHands[g]
    {
      ghost var c1, d1 := shoe.cards, shoe.dealtCards;
      var card := shoe.Deal();
      DealtFromChain(c0, d0, c1, d1, shoe.cards, shoe.dealtCards, h, if card.Ok? then 1 else 0);
      if card.EmptyShoe? {
        return EmptyShoe;
      }
      hands := hands[h := hands[h].(cards := hands[h].cards + [card.value])];
    }
    ghost var c1, d1 := shoe.cards, shoe.dealtCards;
    var dealt := shoe.Deal();
    DealtFromChain(c0, d0, c1, d1, shoe.cards, shoe.dealtCards, |hands|, if dealt.Ok? then 1 else 0);
    if dealt.EmptyShoe? {
      return EmptyShoe;
    }
    ghost var drawn := Drawn(c0, |hands| + 1);
    assert drawn[|hands|] == dealt.value;
    var card := dealt.value;
    if holeCard {
      card := card.(faceDown := true);
    }
    r := Ok((hands, dealerHand.(cards := dealerHand.cards + [card])));
  }

  /** The first loop of `dealInitialCards`: `numHands` new hands at the bet. */
  method NewHands(numHands: nat, bet: real) returns (hands: seq<Hand>)
    ensures |hands| == numHands
    ensures forall h :: 0 <= h < numHands ==> hands[h] == CreateHand(bet)
  {
    hands := [];
    for i := 0 to numHands
      invariant |hands| == i
      invariant forall h :: 0 <= h < i ==> hands[h] == CreateHand(bet)
    {
      hands := hands + [CreateHand(bet)];
    }
  }

  /** The last loop of `dealInitialCards`: only the first hand is active. */
  method ActivateFirst(hands: seq<Hand>) returns (r: seq<Hand>)
    ensures |r| == |hands|
    ensures forall g :: 0 <= g < |r| ==> r[g] == hands[g].(isActive := g == 0)
  {
    r := hands;
    for h := 0 to |r|
      invariant |r| == |hands|
      invariant forall g :: 0 <= g < h ==> r[g] == hands[g].(isActive := g == 0)
      invariant forall g :: h <= g < |r| ==> r[g] == hands[g]
    {
      r := r[h := r[h].(isActive := h == 0)];
    }
  }

  /** After the two passes each player hand holds its two cards, and the
      dealer's hand its up card and its hole card. */
  lemma TwoPassesDealt(blank: seq<Hand>, bet: real, cards: seq<Card>, numHands: nat)
    requires |blank| == numHands && 2 * (numHands + 1) <= |cards|
    requires forall g :: 0 <= g < numHands ==> blank[g] == CreateHand(bet)
    ensures var n, both := numHands + 1, Drawn(cards, 2 * (numHands + 1));
      && (forall g :: 0 <= g < numHands ==>
            AddCards(AddCards(blank, Drawn(cards, n)), Drawn(cards[..|cards| - n], n))[g]
              == CreateHand(bet, [both[g], both[n + g]]))
      && Drawn(cards, n)[numHands] == both[numHands]
      && Drawn(cards[..|cards| - n], n)[numHands] == both[n + numHands]
  {
    var n, both := numHands + 1, Drawn(cards, 2 * (numHands + 1));
    var once := AddCards(blank, Drawn(cards, n));
    var twice := AddCards(once, Drawn(cards[..|cards| - n], n));
    forall g | 0 <= g < numHands
      ensures twice[g] == CreateHand(bet, [both[g], both[n + g]])
    {
      assert once[g].cards == [both[g]];
      assert twice[g].cards == [both[g]] + [both[n + g]];
    }
  }

  /** `dealInitialCards`: two passes round the table, one card to each player
      hand and then one to the dealer, whose second card is dealt face down.
      The player hands carry the bet, the dealer's hand bets 0, and only the
      first player hand is active. When the shoe runs out part way, the cards
      already dealt stay dealt. */
  method DealInitialCards(shoe: Shoe, numHands: nat, bet: real) returns (r: Result<(seq<Hand>, Hand)>)
    modifies shoe
    ensures shoe.cutCardPosition == old(shoe.cutCardPosition)
    ensures r.Ok? <==> old(|shoe.cards|) >= 2 * (numHands + 1)
    ensures DealtFrom(old(shoe.cards), old(shoe.dealtCards), shoe.cards, shoe.dealtCards,
                      if r.Ok? then 2 * (numHands + 1) else old(|shoe.cards|))
    ensures r.Ok? ==>
      var drawn := Drawn(old(shoe.cards), 2 * (numHands + 1));
      && |r.value.0| == numHands
      && (forall h :: 0 <= h < numHands ==>
            r.value.0[h] == CreateHand(bet, [drawn[h], drawn[numHands + 1 + h]]).(isActive := h == 0))
      && r.value.1 == CreateHand(0.0, [drawn[numHands], drawn[2 * numHands + 1].(faceDown := true)])
  {
    var playerHands := NewHands(numHands, bet);
    var dealerHand := CreateHand(0.0);
    ghost var c0, d0 := shoe.cards, shoe.dealtCards;
    ghost var n := numHands + 1;
    ghost var blank := playerHands;
    var first := DealRound(shoe, playerHands, dealerHand, false);
    if first.EmptyShoe? {
      return EmptyShoe;
    }
    ghost var c1, d1 := shoe.cards, shoe.dealtCards;
    var second := DealRound(shoe, first.value.0, first.value.1, true);
    DealtFromChain(c0, d0, c1, d1, shoe.cards, shoe.dealtCards, n, if second.Ok? then n else |c1|);
    if second.EmptyShoe? {
      return EmptyShoe;
    }
    playerHands, dealerHand := second.value.0, second.value.1;
    TwoPassesDealt(blank, bet, c0, numHands);
    playerHands := ActivateFirst(playerHands);
    r := Ok((playerHands, dealerHand));
  }

  /** The dealer stands on a soft 17 unless the table hits soft 17. */
  lemma DealerSoft17Example(h: Hand, s: Suit)
    ensures !ShouldDealerHit(h.(cards := [Card(s, Ace, false), Card(s, Six, false)]), false)
    ensures ShouldDealerHit(h.(cards := [Card(s, Ace, false), Card(s, Six, false)]), true)
  {
    TwoCardTotals(Card(s, Ace, false), Card(s, Six, false));
  }

  /** Worked settlements: 19 against 18 wins double the bet; a bust loses even
      against a busted dealer; a natural pays 3:2 on top of the stake; two
      naturals push. */
  lemma SettlementExamples(p: Hand, d: Hand, s: Suit)
    ensures var r := ResolveHandResults(p.(cards := [Card(s, Ten, false), Card(s, Nine, false)], bet := 10.0),
                                        d.(cards := [Card(s, Ten, false), Card(s, Eight, false)]), ThreeToTwo);
      r.result == Some(Win) && r.payout == Some(20.0)
    ensures var r := ResolveHandResults(p.(cards := [Card(s, Ten, false), Card(s, Nine, false), Card(s, Five, false)], bet := 10.0),
                                        d.(cards := [Card(s, Ten, false), Card(s, Six, false), Card(s, King, false)]), ThreeToTwo);
      r.result == Some(Lose) && r.payout == Some(0.0)
    ensures var r := ResolveHandResults(p.(cards := [Card(s, Ace, false), Card(s, King, false)], bet := 10.0, isSplit := false),
                                        d.(cards := [Card(s, Ten, false), Card(s, Eight, false)]), ThreeToTwo);
      r.result == Some(Blackjack) && r.payout == Some(25.0)
    ensures var r := ResolveHandResults(p.(cards := [Card(s, Ace, false), Card(s, King, false)], bet := 10.0, isSplit := false),
                                        d.(cards := [Card(s, Ace, false), Card(s, Queen, false)], isSplit := false), ThreeToTwo);
      r.result == Some(Push) && r.payout == Some(10.0)
  {
    TwoCardTotals(Card(s, Ten, false), Card(s, Nine, false));
    TwoCardTotals(Card(s, Ten, false), Card(s, Eight, false));
    ThreeCardTotals(Card(s, Ten, false), Card(s, Nine, false), Card(s, Five, false));
    ThreeCardTotals(Card(s, Ten, false), Card(s, Six, false), Card(s, King, false));
    TwoCardTotals(Card(s, Ace, false), Card(s, King, false));
    TwoCardTotals(Card(s, Ace, false), Card(s, Queen, false));
  }

  /** Read back from the outcome: a win means the dealer busted or the player
      is higher, a loss means the player busted, the dealer has a natural the
      player lacks, or the player is lower; a push is two naturals or equal
      totals; a blackjack is a player natural against a dealer without one. */
  lemma OutcomeJustified(p: Hand, d: Hand, ratio: PayoutRatio)
    ensures var r, pv, dv := ResolveHandResults(p, d, ratio), HandValueOf(p), HandValueOf(d);
      && (r.result == Some(Win) ==> !pv.isBust && (dv.isBust || pv.value > dv.value))
      && (r.result == Some(Lose) ==> pv.isBust || (dv.isBlackjack && !pv.isBlackjack) || pv.value < dv.value)
      && (r.result == Some(Push) ==> (pv.isBlackjack && dv.isBlackjack) || pv.value == dv.value)
      && (r.result == Some(Blackjack) ==> pv.isBlackjack && !dv.isBlackjack && !dv.isBust)
  {
  }
}
