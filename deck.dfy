/** The shoe: several decks shuffled together, dealt one card at a time from
    the end, with the Hi-Lo running and true counts of what has been dealt. */
module Shoes {
  import opened Common
  import opened Cards

  /** A draw of `Math.random()`: a real in [0, 1). The shuffle and the cut
      card take their randomness from sequences of such draws. */
  predicate IsUnitRoll(r: real) {
    0.0 <= r < 1.0
  }

  predicate AreUnitRolls(rolls: seq<real>) {
    forall i :: 0 <= i < |rolls| ==> IsUnitRoll(rolls[i])
  }

  /** `Math.floor(r * m)`: an index below `m`. */
  function ScaledIndex(r: real, m: nat): (j: nat)
    requires IsUnitRoll(r) && m > 0
    ensures j < m
  {
    assert 0.0 <= r * m as real < m as real by {
      assert r * m as real <= r * m as real + (1.0 - r) * m as real;
      assert (1.0 - r) * m as real > 0.0;
    }
    (r * m as real).Floor
  }

  /** `deckCount` decks one after the other, before shuffling. */
  function OrderedShoe(deckCount: nat): (cards: seq<Card>)
    ensures |cards| == 52 * deckCount
  {
    if deckCount == 0 then [] else OrderedShoe(deckCount - 1) + OneDeck()
  }

  /** The sequence with the cards at `i` and `j` exchanged. */
  function Swap(s: seq<Card>, i: nat, j: nat): (r: seq<Card>)
    requires i < |s| && j < |s|
    ensures |r| == |s| && multiset(r) == multiset(s)
    ensures r[i] == s[j] && r[j] == s[i]
    ensures forall k :: 0 <= k < |s| && k != i && k != j ==> r[k] == s[k]
  {
    s[i := s[j]][j := s[i]]
  }

  /** The Fisher-Yates steps for positions `i`, `i - 1`, ..., 1: step `i`
      exchanges position `i` with a position drawn from [0, i] by the next
      roll. The result is a permutation of `s`. */
  function ShuffleSteps(s: seq<Card>, i: nat, rolls: seq<real>): (r: seq<Card>)
    requires i < |s| || i == 0
    requires i <= |rolls| && AreUnitRolls(rolls)
    ensures |r| == |s| && multiset(r) == multiset(s)
    decreases i
  {
    if i == 0 then s else ShuffleSteps(Swap(s, i, ScaledIndex(rolls[0], i + 1)), i - 1, rolls[1..])
  }

  /** One Fisher-Yates step, unfolded. */
  lemma ShuffleStep(s: seq<Card>, i: nat, rolls: seq<real>)
    requires 0 < i < |s| && i <= |rolls| && AreUnitRolls(rolls)
    ensures AreUnitRolls(rolls[1..]) && IsUnitRoll(rolls[0])
    ensures ShuffleSteps(s, i, rolls) == ShuffleSteps(Swap(s, i, ScaledIndex(rolls[0], i + 1)), i - 1, rolls[1..])
  {
  }

  /** The number of rolls a shuffle of `n` cards draws. */
  function RollsNeeded(n: nat): nat {
    if n == 0 then 0 else n - 1
  }

  /** The shuffle of `s` that the rolls determine. */
  function Shuffled(s: seq<Card>, rolls: seq<real>): (r: seq<Card>)
    requires RollsNeeded(|s|) <= |rolls| && AreUnitRolls(rolls)
    ensures |r| == |s| && multiset(r) == multiset(s)
  {
    ShuffleSteps(s, RollsNeeded(|s|), rolls)
  }

  /** Where the cut card goes: a draw from the whole numbers between half and
      three quarters of the shoe, both included. */
  function CutPosition(deckCount: nat, roll: real): (p: nat)
    requires IsUnitRoll(roll)
    ensures 26 * deckCount <= p <= 39 * deckCount
  {
    var shoeSize := deckCount * 52;
    var minPosition := (shoeSize as real * 0.5).Floor;
    var maxPosition := (shoeSize as real * 0.75).Floor;
    assert minPosition == 26 * deckCount && maxPosition == 39 * deckCount by {
      assert shoeSize as real * 0.5 == (26 * deckCount) as real;
      assert shoeSize as real * 0.75 == (39 * deckCount) as real;
    }
    ScaledIndex(roll, maxPosition - minPosition + 1) + minPosition
  }

  predicate CutInRange(deckCount: nat, cutCardPosition: nat) {
    26 * deckCount <= cutCardPosition <= 39 * deckCount
  }

  /** The first `k` cards dealt from the end of `cards`, in the order dealt. */
  function Drawn(cards: seq<Card>, k: nat): (d: seq<Card>)
    requires k <= |cards|
    ensures |d| == k
    ensures forall i :: 0 <= i < k ==> d[i] == cards[|cards| - 1 - i]
  {
    seq(k, i requires 0 <= i < k => cards[|cards| - 1 - i])
  }

  /** The shoe went from (`cards0`, `dealt0`) to (`cards1`, `dealt1`) by
      dealing `k` cards. */
  ghost predicate DealtFrom(cards0: seq<Card>, dealt0: seq<Card>, cards1: seq<Card>, dealt1: seq<Card>, k: nat) {
    k <= |cards0| && cards1 == cards0[..|cards0| - k] && dealt1 == dealt0 + Drawn(cards0, k)
  }

  lemma {:induction false} DrawnSplit(cards: seq<Card>, k: nat, m: nat)
    requires k + m <= |cards|
    ensures Drawn(cards, k + m) == Drawn(cards, k) + Drawn(cards[..|cards| - k], m)
    decreases m
  {
    if m > 0 {
      DrawnSplit(cards, k, m - 1);
    }
  }

  /** Dealing `k` cards and then `m` more is dealing `k + m`. */
  lemma DealtFromChain(c0: seq<Card>, d0: seq<Card>, c1: seq<Card>, d1: seq<Card>, c2: seq<Card>, d2: seq<Card>, k: nat, m: nat)
    requires DealtFrom(c0, d0, c1, d1, k) && DealtFrom(c1, d1, c2, d2, m)
    ensures DealtFrom(c0, d0, c2, d2, k + m)
  {
    DrawnSplit(c0, k, m);
  }

  /** Dealing preserves the cards of the shoe as a whole. */
  lemma {:induction false} DealtFromConserves(c0: seq<Card>, d0: seq<Card>, c1: seq<Card>, d1: seq<Card>, k: nat)
    requires DealtFrom(c0, d0, c1, d1, k)
    ensures multiset(c1) + multiset(d1) == multiset(c0) + multiset(d0)
    decreases k
  {
    if k == 0 {
      assert c1 == c0 && d1 == d0 + [];
      assert d0 + [] == d0;
    } else {
      var n := |c0|;
      ghost var cMid := c0[..n - (k - 1)];
      ghost var dMid := d0 + Drawn(c0, k - 1);
      DealtFromConserves(c0, d0, cMid, dMid, k - 1);
      assert cMid == c1 + [c0[n - k]];
      assert d1 == dMid + [c0[n - k]];
    }
  }

  /** `Math.round(runningCount / (remaining / 52))` computed exactly:
      the whole number nearest to 52 * runningCount / remaining, ties
      rounded up; zero when nothing remains. */
  function TrueCountOf(runningCount: int, remaining: nat): (t: int)
    ensures remaining == 0 ==> t == 0
    ensures remaining > 0 ==>
      2 * remaining * t - remaining <= 104 * runningCount < 2 * remaining * t + remaining
  {
    if remaining == 0 then 0
    else
      var q := (104 * runningCount + remaining) / (2 * remaining);
      assert 2 * remaining * q <= 104 * runningCount + remaining < 2 * remaining * q + 2 * remaining by {
        DivBounds(104 * runningCount + remaining, 2 * remaining);
      }
      q
  }

  lemma DivBounds(a: int, b: int)
    requires b > 0
    ensures b * (a / b) <= a < b * (a / b) + b
  {
  }

  /** The cards of a shoe, dealt or not, are the `deckCount` decks, and the
      cut card lies between half and three quarters of the shoe. */
  ghost predicate ValidShoe(deckCount: nat, cards: seq<Card>, dealt: seq<Card>, cutCardPosition: nat) {
    && HoldsDecks(multiset(cards) + multiset(dealt), deckCount)
    && |cards| + |dealt| == 52 * deckCount
    && CutInRange(deckCount, cutCardPosition)
  }

  /** Dealing keeps a valid shoe valid: no card appears or disappears. */
  lemma DealingKeepsValid(deckCount: nat, c0: seq<Card>, d0: seq<Card>, c1: seq<Card>, d1: seq<Card>, cut: nat, k: nat)
    requires ValidShoe(deckCount, c0, d0, cut)
    requires DealtFrom(c0, d0, c1, d1, k)
    ensures ValidShoe(deckCount, c1, d1, cut)
  {
    DealtFromConserves(c0, d0, c1, d1, k);
  }

  class Shoe {
    /** The undealt cards; the next card dealt is the last one. */
    var cards: seq<Card>
    /** The dealt cards, in the order they were dealt. */
    var dealtCards: seq<Card>
    /** Reshuffle once this many cards or fewer remain. */
    var cutCardPosition: nat
    const deckCount: nat

    /** The cards of the shoe, dealt or not, are the `deckCount` decks, and the
        cut card lies between half and three quarters of the shoe. */
    ghost predicate Valid()
      reads this
    {
      ValidShoe(deckCount, cards, dealtCards, cutCardPosition)
    }

    /** The shoe as a shuffle by `shuffleRolls` leaves it: all the decks
        shuffled, nothing dealt, the cut card placed by `cutRoll`. */
    ghost predicate Refilled(shuffleRolls: seq<real>, cutRoll: real)
      reads this
    {
      && RollsNeeded(52 * deckCount) <= |shuffleRolls| && AreUnitRolls(shuffleRolls) && IsUnitRoll(cutRoll)
      && cards == Shuffled(OrderedShoe(deckCount), shuffleRolls)
      && dealtCards == []
      && cutCardPosition == CutPosition(deckCount, cutRoll)
    }

    constructor (deckCount: nat, shuffleRolls: seq<real>, cutRoll: real)
      requires RollsNeeded(52 * deckCount) <= |shuffleRolls| && AreUnitRolls(shuffleRolls)
      requires IsUnitRoll(cutRoll)
      ensures Valid() && this.deckCount == deckCount
      ensures Refilled(shuffleRolls, cutRoll)
    {
      this.deckCount := deckCount;
      var shuffled := CreateShoe(deckCount, shuffleRolls);
      cards := shuffled;
      dealtCards := [];
      cutCardPosition := CutPosition(deckCount, cutRoll);
      FreshShoeHoldsDecks(deckCount, shuffleRolls);
    }

    /** `createShoe`: push the decks in order, then shuffle them in place
        with Fisher-Yates. */
    static method CreateShoe(deckCount: nat, rolls: seq<real>) returns (shoe: seq<Card>)
      requires RollsNeeded(52 * deckCount) <= |rolls| && AreUnitRolls(rolls)
      ensures shoe == Shuffled(OrderedShoe(deckCount), rolls)
    {
      var built := OrderedDecks(deckCount);
      var a := new Card[|built|](k requires 0 <= k < |built| => built[k]);
      assert a[..] == built;
      ShuffleInPlace(a, rolls);
      shoe := a[..];
    }

    /** The building loops of `createShoe`: for each deck, each suit, each
        rank, push the face-up card. */
    static method OrderedDecks(deckCount: nat) returns (built: seq<Card>)
      ensures built == OrderedShoe(deckCount)
    {
      built := [];
      for d := 0 to deckCount
        invariant built == OrderedShoe(d)
      {
        built := AppendDeck(built);
      }
    }

    /** One deck's worth of the building loops: suit by suit. */
    static method AppendDeck(prefix: seq<Card>) returns (built: seq<Card>)
      ensures built == prefix + OneDeck()
    {
      built := prefix;
      for si := 0 to |Suits|
        invariant built == prefix + DeckPrefix(si)
      {
        built := AppendSuit(built, Suits[si]);
      }
    }

    /** The rank loop for one suit: push its thirteen cards, Ace to King. */
    static method AppendSuit(prefix: seq<Card>, suit: Suit) returns (built: seq<Card>)
      ensures built == prefix + SuitRun(suit)
    {
      built := prefix;
      for ri := 0 to |Ranks|
        invariant built == prefix + SuitRun(suit)[..ri]
      {
        assert SuitRun(suit)[..ri + 1] == SuitRun(suit)[..ri] + [CreateCard(suit, Ranks[ri])];
        built := built + [CreateCard(suit, Ranks[ri])];
      }
      assert SuitRun(suit)[..|Ranks|] == SuitRun(suit);
    }

    /** The Fisher-Yates loop of `createShoe`, in place: for `i` from the last
        position down to 1, exchange positions `i` and `Math.floor(r * (i + 1))`
        for the next roll `r`. */
    static method ShuffleInPlace(a: array<Card>, rolls: seq<real>)
      requires RollsNeeded(a.Length) <= |rolls| && AreUnitRolls(rolls)
      modifies a
      ensures a[..] == Shuffled(old(a[..]), rolls)
    {
      ghost var target := Shuffled(a[..], rolls);
      var i: int := a.Length - 1;
      var used := 0;
      while i > 0
        invariant -1 <= i < a.Length
        invariant a.Length > 0 ==> 0 <= i && used + i == a.Length - 1
        invariant a.Length > 0 ==> ShuffleSteps(a[..], i, rolls[used..]) == target
        invariant a.Length == 0 ==> a[..] == target
      {
        var j := ScaledIndex(rolls[used], i + 1);
        ghost var before := a[..];
        ShuffleStep(before, i, rolls[used..]);
        assert rolls[used..][1..] == rolls[used + 1..];
        var t := a[i];
        a[i] := a[j];
        a[j] := t;
        assert a[..] == Swap(before, i, j);
        i := i - 1;
        used := used + 1;
      }
    }

    /** `deal`: move the last undealt card to the dealt cards and return it;
        fail with "Shoe is empty" when nothing is left. What it does to the
        shoe is `DealtFrom`, which keeps a valid shoe valid
        (`DealingKeepsValid`). */
    method Deal() returns (r: Result<Card>)
      modifies this
      ensures cutCardPosition == old(cutCardPosition)
      ensures r.Ok? <==> old(|cards|) > 0
      ensures r.Ok? ==> r.value == old(cards[|cards| - 1])
      ensures DealtFrom(old(cards), old(dealtCards), cards, dealtCards, if r.Ok? then 1 else 0)
    {
      if |cards| == 0 {
        assert cards == cards[..|cards|] && dealtCards == dealtCards + [];
        return EmptyShoe;
      }
      ghost var c0 := cards;
      var card := cards[|cards| - 1];
      cards := cards[..|cards| - 1];
      dealtCards := dealtCards + [card];
      assert Drawn(c0, 1) == [card];
      r := Ok(card);
    }

    /** `needsReshuffle`: the undealt cards have reached the cut card. A
        shoe that needs no reshuffle still holds more than half its cards;
        one that does has dealt at least a quarter of them. */
    predicate NeedsReshuffle()
      reads this
      ensures NeedsReshuffle() <==> |cards| <= cutCardPosition
      ensures Valid() && !NeedsReshuffle() ==> |cards| > 26 * deckCount
      ensures Valid() && NeedsReshuffle() ==> |dealtCards| >= 13 * deckCount
    {
      |cards| <= cutCardPosition
    }

    /** `getRunningCount`: the Hi-Lo sum of the dealt cards, face down or up. */
    function RunningCount(): (rc: int)
      reads this
      ensures -|dealtCards| <= rc <= |dealtCards|
    {
      HiLoSum(dealtCards)
    }

    /** `getTrueCount`: the running count per remaining deck, rounded. */
    function TrueCount(): (tc: int)
      reads this
      ensures |cards| == 0 ==> tc == 0
      ensures |cards| > 0 ==>
        2 * |cards| * tc - |cards| <= 104 * RunningCount() < 2 * |cards| * tc + |cards|
    {
      TrueCountOf(RunningCount(), |cards|)
    }

    /** `getCardsRemaining`: what is left of the shoe once the dealt cards are
        taken out. */
    function CardsRemaining(): (n: nat)
      reads this
      requires Valid()
      ensures n == 52 * deckCount - |dealtCards|
    {
      |cards|
    }

    /** `reset`: a fresh shuffle of all the decks, nothing dealt, a new cut card. */
    method Reset(shuffleRolls: seq<real>, cutRoll: real)
      requires RollsNeeded(52 * deckCount) <= |shuffleRolls| && AreUnitRolls(shuffleRolls)
      requires IsUnitRoll(cutRoll)
      modifies this
      ensures Valid()
      ensures Refilled(shuffleRolls, cutRoll)
    {
      var shuffled := CreateShoe(deckCount, shuffleRolls);
      cards := shuffled;
      dealtCards := [];
      cutCardPosition := CutPosition(deckCount, cutRoll);
      FreshShoeHoldsDecks(deckCount, shuffleRolls);
    }
  }

  lemma {:induction false} OrderedShoeIsBalanced(deckCount: nat)
    ensures HiLoSum(OrderedShoe(deckCount)) == 0
  {
    if deckCount > 0 {
      OrderedShoeIsBalanced(deckCount - 1);
      OneDeckIsBalanced();
      HiLoSumAppend(OrderedShoe(deckCount - 1), OneDeck());
    }
  }

  /** Whatever has been dealt, the dealt and the undealt counts cancel out. */
  lemma CountBalance(deckCount: nat, cards: seq<Card>, dealt: seq<Card>)
    requires HoldsDecks(multiset(cards) + multiset(dealt), deckCount)
    ensures HiLoSum(dealt) == -HiLoSum(cards)
  {
    HoldsDecksIsOrderedShoe(multiset(cards) + multiset(dealt), deckCount);
    HiLoSumPermutation(cards + dealt, OrderedShoe(deckCount));
    HiLoSumAppend(cards, dealt);
    OrderedShoeIsBalanced(deckCount);
  }

  /** In a valid shoe the running count is minus the Hi-Lo sum of the cards
      still to come; so once the whole shoe is dealt it is back to zero. */
  lemma RunningCountMirrorsUndealt(shoe: Shoe)
    requires shoe.Valid()
    ensures shoe.RunningCount() == -HiLoSum(shoe.cards)
    ensures shoe.cards == [] ==> shoe.RunningCount() == 0
  {
    CountBalance(shoe.deckCount, shoe.cards, shoe.dealtCards);
  }

  /** A fresh shoe with at least one deck never needs a reshuffle. */
  lemma FreshShoeNeedsNoReshuffle(deckCount: nat, cutRoll: real)
    requires deckCount > 0 && IsUnitRoll(cutRoll)
    ensures CutPosition(deckCount, cutRoll) < 52 * deckCount
  {
  }

  lemma {:induction false} OrderedShoeCount(deckCount: nat, c: Card)
    ensures multiset(OrderedShoe(deckCount))[c] == if c.faceDown then 0 else deckCount
  {
    if deckCount > 0 {
      OrderedShoeCount(deckCount - 1, c);
      OneDeckCount(c);
    }
  }

  /** The cards are exactly the `deckCount` decks: every face-up card once
      per deck, and no face-down card. */
  ghost predicate HoldsDecks(m: multiset<Card>, deckCount: nat) {
    forall c: Card {:trigger CardCount(m, c)} :: CardCount(m, c) == if c.faceDown then 0 else deckCount
  }

  /** How often a card occurs in a collection of cards. */
  ghost function CardCount(m: multiset<Card>, c: Card): nat {
    m[c]
  }

  /** Holding the decks is holding the cards of the ordered shoe. */
  lemma HoldsDecksIsOrderedShoe(m: multiset<Card>, deckCount: nat)
    ensures HoldsDecks(m, deckCount) <==> m == multiset(OrderedShoe(deckCount))
  {
    forall c: Card
      ensures multiset(OrderedShoe(deckCount))[c] == if c.faceDown then 0 else deckCount
    {
      OrderedShoeCount(deckCount, c);
    }
    if HoldsDecks(m, deckCount) {
      forall c: Card
        ensures m[c] == multiset(OrderedShoe(deckCount))[c]
      {
        assert CardCount(m, c) == if c.faceDown then 0 else deckCount;
      }
    }
    if m == multiset(OrderedShoe(deckCount)) {
      forall c: Card
        ensures CardCount(m, c) == if c.faceDown then 0 else deckCount
      {
      }
    }
  }

  /** A freshly shuffled shoe holds the decks, nothing dealt yet. */
  lemma FreshShoeHoldsDecks(deckCount: nat, rolls: seq<real>)
    requires RollsNeeded(52 * deckCount) <= |rolls| && AreUnitRolls(rolls)
    ensures HoldsDecks(multiset(Shuffled(OrderedShoe(deckCount), rolls)) + multiset([]), deckCount)
  {
    HoldsDecksIsOrderedShoe(multiset(OrderedShoe(deckCount)), deckCount);
    assert multiset(Shuffled(OrderedShoe(deckCount), rolls)) + multiset([]) == multiset(OrderedShoe(deckCount));
  }

  /** Every card of a valid shoe, dealt or not, is face up. */
  lemma ValidShoeFaceUp(deckCount: nat, cards: seq<Card>, dealt: seq<Card>, cut: nat)
    requires ValidShoe(deckCount, cards, dealt, cut)
    ensures forall i :: 0 <= i < |cards| ==> !cards[i].faceDown
    ensures forall i :: 0 <= i < |dealt| ==> !dealt[i].faceDown
  {
    forall c: Card | c.faceDown ensures c !in cards && c !in dealt {
      assert CardCount(multiset(cards) + multiset(dealt), c) == 0;
    }
  }
}
