/** A hand of cards, its value (total, soft, blackjack, bust) and what the
    player may still do with it. */
module Hands {
  import opened Common
  import opened Cards

  /** How a settled hand ended. */
  datatype Outcome = Win | Lose | Push | Blackjack

  /** A hand, as the TypeScript `Hand` type. Its `id` is left out; the
      optional flags `isDoubled` and `isSplit` are `false` when absent. `result` and `payout` are set
      when the hand is settled. */
  datatype Hand = Hand(
    cards: seq<Card>,
    bet: real,
    isActive: bool,
    isSettled: bool,
    isDoubled: bool,
    isSplit: bool,
    result: Option<Outcome>,
    payout: Option<real>)

  datatype HandValue = HandValue(value: int, isSoft: bool, isBlackjack: bool, isBust: bool)

  /** The blackjack value a card adds to a total: nothing while it is face down. */
  function Contribution(card: Card): (v: nat)
    ensures v <= 11
  {
    if card.faceDown then 0 else CardValue(card.rank)
  }

  /** Whether a card adds an Ace to the count of Aces worth 11. */
  function AceContribution(card: Card): (n: nat)
    ensures n <= 1
  {
    if !card.faceDown && card.rank == Ace then 1 else 0
  }

  /** The total of the face-up cards with every Ace counted as 11. */
  function FaceUpTotal(cards: seq<Card>): (t: nat)
    ensures t <= 11 * |cards|
  {
    if cards == [] then 0 else FaceUpTotal(cards[..|cards| - 1]) + Contribution(cards[|cards| - 1])
  }

  /** The number of face-up Aces. */
  function FaceUpAces(cards: seq<Card>): (n: nat)
    ensures n <= |cards|
    ensures 11 * n <= FaceUpTotal(cards)
  {
    if cards == [] then 0 else FaceUpAces(cards[..|cards| - 1]) + AceContribution(cards[|cards| - 1])
  }

  /** The total with every face-up Ace counted as 1. */
  function HardTotal(cards: seq<Card>): (t: int)
    ensures t >= FaceUpAces(cards)
  {
    FaceUpTotal(cards) - 10 * FaceUpAces(cards)
  }

  /** The ace loop: starting from `value` with `aces` Aces counted as 11, demote
      one Ace to 1 (subtract 10) as long as the total is over 21. The result is
      the final total and the number of Aces still counted as 11. It demotes
      no Ace it did not need to: before the last demotion the total was over 21. */
  function Demote(value: int, aces: nat): (r: (int, nat))
    ensures r.1 <= aces
    ensures r.0 == value - 10 * (aces - r.1)
    ensures r.0 <= 21 || r.1 == 0
    ensures r.1 < aces ==> r.0 > 11
    decreases aces
  {
    if value > 21 && aces > 0 then Demote(value - 10, aces - 1) else (value, aces)
  }

  /** The value of a hand, as `getHandValue` computes it. */
  function HandValueOf(hand: Hand): (hv: HandValue)
    ensures HardTotal(hand.cards) <= hv.value <= FaceUpTotal(hand.cards)
    ensures (FaceUpTotal(hand.cards) - hv.value) % 10 == 0
    ensures (FaceUpTotal(hand.cards) - hv.value) / 10 <= FaceUpAces(hand.cards)
    ensures hv.value > 21 ==> hv.value == HardTotal(hand.cards)
    ensures hv.value < FaceUpTotal(hand.cards) ==> hv.value > 11
    ensures hv.isBust <==> hv.value > 21
    ensures hv.isSoft <==> hv.value <= 21 && hv.value >= HardTotal(hand.cards) + 10
    ensures hv.isBlackjack <==> |hand.cards| == 2 && hv.value == 21 && !hand.isSplit
  {
    var (value, aces) := Demote(FaceUpTotal(hand.cards), FaceUpAces(hand.cards));
    HandValue(value, aces > 0 && value <= 21, |hand.cards| == 2 && value == 21 && !hand.isSplit, value > 21)
  }

  /** `getHandValue`: one pass over the cards skipping the face-down ones, then
      the ace loop. */
  method GetHandValue(hand: Hand) returns (hv: HandValue)
    ensures hv == HandValueOf(hand)
  {
    var value := 0;
    var aces := 0;
    for i := 0 to |hand.cards|
      invariant value == FaceUpTotal(hand.cards[..i])
      invariant aces == FaceUpAces(hand.cards[..i])
    {
      assert hand.cards[..i + 1][..i] == hand.cards[..i];
      var card := hand.cards[i];
      if card.faceDown {
        continue;
      }
      value := value + CardValue(card.rank);
      if card.rank == Ace {
        aces := aces + 1;
      }
    }
    assert hand.cards[..|hand.cards|] == hand.cards;
    while value > 21 && aces > 0
      invariant Demote(value, aces) == Demote(FaceUpTotal(hand.cards), FaceUpAces(hand.cards))
      decreases aces
    {
      value := value - 10;
      aces := aces - 1;
    }
    hv := HandValue(value, aces > 0 && value <= 21, |hand.cards| == 2 && value == 21 && !hand.isSplit, value > 21);
  }

  /** The contract of `HandValueOf` determines the value: any total that
      counts some aces low, busts only with every ace low, and counts an ace
      low only above 11 is the hand's value. */
  lemma HandValueIsDetermined(hand: Hand, v: int)
    requires HardTotal(hand.cards) <= v <= FaceUpTotal(hand.cards)
    requires (FaceUpTotal(hand.cards) - v) % 10 == 0
    requires (FaceUpTotal(hand.cards) - v) / 10 <= FaceUpAces(hand.cards)
    requires v > 21 ==> v == HardTotal(hand.cards)
    requires v < FaceUpTotal(hand.cards) ==> v > 11
    ensures v == HandValueOf(hand).value
  {
  }

  /** The total is the best one: any way of counting some Aces as 1 that does
      not bust gives at most the hand's value. */
  lemma ValueIsBestTotal(hand: Hand, k: nat)
    requires k <= FaceUpAces(hand.cards)
    requires FaceUpTotal(hand.cards) - 10 * k <= 21
    ensures FaceUpTotal(hand.cards) - 10 * k <= HandValueOf(hand).value
  {
  }

  lemma {:induction false} FaceDownAddsNothing(a: seq<Card>, c: Card, b: seq<Card>)
    requires c.faceDown
    ensures FaceUpTotal(a + [c] + b) == FaceUpTotal(a + b)
    ensures FaceUpAces(a + [c] + b) == FaceUpAces(a + b)
    decreases |b|
  {
    if b == [] {
      assert (a + [c] + b)[..|a + [c] + b| - 1] == a;
      assert a + b == a;
    } else {
      var b' := b[..|b| - 1];
      assert (a + [c] + b)[..|a + [c] + b| - 1] == a + [c] + b';
      assert (a + b)[..|a + b| - 1] == a + b';
      FaceDownAddsNothing(a, c, b');
    }
  }

  /** A face-down card, wherever it lies, changes neither the total nor the
      soft and bust flags (only the card count that blackjack looks at). */
  lemma FaceDownCardIgnored(hand: Hand, a: seq<Card>, c: Card, b: seq<Card>)
    requires c.faceDown
    ensures HandValueOf(hand.(cards := a + [c] + b)).value == HandValueOf(hand.(cards := a + b)).value
    ensures HandValueOf(hand.(cards := a + [c] + b)).isSoft == HandValueOf(hand.(cards := a + b)).isSoft
    ensures HandValueOf(hand.(cards := a + [c] + b)).isBust == HandValueOf(hand.(cards := a + b)).isBust
  {
    FaceDownAddsNothing(a, c, b);
  }

  lemma TwoCardTotals(c0: Card, c1: Card)
    ensures FaceUpTotal([c0, c1]) == Contribution(c0) + Contribution(c1)
    ensures FaceUpAces([c0, c1]) == AceContribution(c0) + AceContribution(c1)
  {
    assert [c0, c1][..1] == [c0];
    assert [c0][..0] == [];
  }

  lemma ThreeCardTotals(c0: Card, c1: Card, c2: Card)
    ensures FaceUpTotal([c0, c1, c2]) == Contribution(c0) + Contribution(c1) + Contribution(c2)
    ensures FaceUpAces([c0, c1, c2]) == AceContribution(c0) + AceContribution(c1) + AceContribution(c2)
  {
    assert [c0, c1, c2][..2] == [c0, c1];
    TwoCardTotals(c0, c1);
  }

  /** The player may split exactly two cards of the same rank. */
  function CanSplit(hand: Hand): (b: bool)
    ensures b <==> |hand.cards| == 2 && hand.cards[0].rank == hand.cards[1].rank
    ensures b ==> CardValue(hand.cards[0].rank) == CardValue(hand.cards[1].rank)
  {
    if |hand.cards| != 2 then false else hand.cards[0].rank == hand.cards[1].rank
  }

  function CanDoubleDown(hand: Hand): (b: bool)
    ensures b <==> |hand.cards| == 2 && !hand.isDoubled
  {
    |hand.cards| == 2 && !hand.isDoubled
  }

  /** The player may hit a hand that is below 21 and not doubled; so never a
      blackjack, and never a bust hand. */
  function CanHit(hand: Hand): (b: bool)
    ensures b ==> !HandValueOf(hand).isBust && !HandValueOf(hand).isBlackjack
    ensures b <==> HandValueOf(hand).value < 21 && !hand.isDoubled
  {
    var hv := HandValueOf(hand);
    !hv.isBust && hv.value < 21 && !hand.isDoubled
  }

  /** A new hand: active, unsettled, not doubled, not split. */
  function CreateHand(bet: real, cards: seq<Card> := []): (h: Hand)
    ensures h.cards == cards && h.bet == bet
    ensures h.isActive && !h.isSettled && !h.isDoubled && !h.isSplit
    ensures h.result == None && h.payout == None
  {
    Hand(cards, bet, true, false, false, false, None, None)
  }

  /** The dealer's up card is the first card (absent for an empty hand). */
  function DealerUpCard(dealerHand: Hand): (c: Option<Card>)
    ensures c.Some? <==> |dealerHand.cards| > 0
    ensures c.Some? ==> c.value == dealerHand.cards[0]
  {
    if |dealerHand.cards| > 0 then Some(dealerHand.cards[0]) else None
  }

  /** Whether the dealer shows an Ace; only the first card is looked at. */
  function HasDealerAce(dealerHand: Hand): (b: bool)
    requires |dealerHand.cards| > 0
    ensures b <==> dealerHand.cards[0].rank == Ace
  {
    DealerUpCard(dealerHand).value.rank == Ace
  }

  /** Worked cases of the hand evaluator. */
  lemma HandValueExamples(h: Hand, s: Suit)
    ensures var hv := HandValueOf(h.(cards := [Card(s, Ace, false), Card(s, Ace, false), Card(s, Nine, false)]));
      hv.value == 21 && hv.isSoft && !hv.isBust
    ensures var hv := HandValueOf(h.(cards := [Card(s, Ten, false), Card(s, Nine, false), Card(s, Five, false)]));
      hv.value == 24 && hv.isBust && !hv.isSoft
    ensures HandValueOf(h.(cards := [Card(s, King, false), Card(s, Ace, false)], isSplit := false)).isBlackjack
    ensures var hv := HandValueOf(h.(cards := [Card(s, Ten, false), Card(s, Ace, false)], isSplit := true));
      hv.value == 21 && !hv.isBlackjack
    ensures !CanSplit(h.(cards := [Card(s, King, false), Card(s, Queen, false)]))
  {
    ThreeCardTotals(Card(s, Ace, false), Card(s, Ace, false), Card(s, Nine, false));
    ThreeCardTotals(Card(s, Ten, false), Card(s, Nine, false), Card(s, Five, false));
    TwoCardTotals(Card(s, King, false), Card(s, Ace, false));
    TwoCardTotals(Card(s, Ten, false), Card(s, Ace, false));
  }
}
