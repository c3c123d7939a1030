/** Cards, ranks and suits, with the blackjack value and the Hi-Lo weight of a rank. */
module Cards {

  datatype Suit = Hearts | Diamonds | Clubs | Spades

  datatype Rank = Ace | Two | Three | Four | Five | Six | Seven | Eight | Nine | Ten | Jack | Queen | King

  /** A card; `faceDown` hides it from the hand total (the dealer's hole card). */
  datatype Card = Card(suit: Suit, rank: Rank, faceDown: bool)

  datatype Color = Red | Black

  /** The four suits in the order a fresh deck is built. */
  const Suits: seq<Suit> := [Hearts, Diamonds, Clubs, Spades]

  /** The thirteen ranks in the order a fresh deck is built. */
  const Ranks: seq<Rank> := [Ace, Two, Three, Four, Five, Six, Seven, Eight, Nine, Ten, Jack, Queen, King]

  /** Every suit and every rank is listed, and listed once. */
  lemma SuitsAndRanksEnumerate()
    ensures |Suits| == 4 && |Ranks| == 13
    ensures forall i, j :: 0 <= i < j < |Suits| ==> Suits[i] != Suits[j]
    ensures forall i, j :: 0 <= i < j < |Ranks| ==> Ranks[i] != Ranks[j]
    ensures forall s: Suit :: s in Suits
    ensures forall r: Rank :: r in Ranks
  {
    forall s: Suit ensures s in Suits {
      match s
      case Hearts => assert Suits[0] == s;
      case Diamonds => assert Suits[1] == s;
      case Clubs => assert Suits[2] == s;
      case Spades => assert Suits[3] == s;
    }
    forall r: Rank ensures r in Ranks {
      match r
      case Ace => assert Ranks[0] == r;
      case Two => assert Ranks[1] == r;
      case Three => assert Ranks[2] == r;
      case Four => assert Ranks[3] == r;
      case Five => assert Ranks[4] == r;
      case Six => assert Ranks[5] == r;
      case Seven => assert Ranks[6] == r;
      case Eight => assert Ranks[7] == r;
      case Nine => assert Ranks[8] == r;
      case Ten => assert Ranks[9] == r;
      case Jack => assert Ranks[10] == r;
      case Queen => assert Ranks[11] == r;
      case King => assert Ranks[12] == r;
    }
  }

  /** The blackjack value of a rank: an Ace counts 11, a picture 10, the rest
      their number. */
  function CardValue(rank: Rank): (v: nat)
    ensures 2 <= v <= 11
    ensures v == 11 <==> rank == Ace
    ensures v == 10 <==> rank in {Ten, Jack, Queen, King}
  {
    match rank
    case Ace => 11
    case Jack | Queen | King => 10
    case Two => 2
    case Three => 3
    case Four => 4
    case Five => 5
    case Six => 6
    case Seven => 7
    case Eight => 8
    case Nine => 9
    case Ten => 10
  }

  /** The Hi-Lo weight of a card: +1 for the low cards 2-6, 0 for 7-9 and -1
      for the ten-valued cards and the Ace. It ignores `faceDown`. */
  function HiLoValue(card: Card): (w: int)
    ensures -1 <= w <= 1
    ensures w == 1 <==> CardValue(card.rank) <= 6
    ensures w == 0 <==> 7 <= CardValue(card.rank) <= 9
    ensures w == -1 <==> CardValue(card.rank) >= 10
  {
    if card.rank in {Two, Three, Four, Five, Six} then 1
    else if card.rank in {Seven, Eight, Nine} then 0
    else -1
  }

  /** The symbol printed on a card of the suit. */
  function SuitSymbol(suit: Suit): (c: char)
  {
    match suit
    case Hearts => '♥'
    case Diamonds => '♦'
    case Clubs => '♣'
    case Spades => '♠'
  }

  /** Different suits have different symbols. */
  lemma SuitSymbolInjective(a: Suit, b: Suit)
    requires a != b
    ensures SuitSymbol(a) != SuitSymbol(b)
  {
  }

  function SuitColor(suit: Suit): (c: Color)
    ensures c == Red <==> suit == Hearts || suit == Diamonds
  {
    if suit == Hearts || suit == Diamonds then Red else Black
  }

  /** A card of the given suit and rank, face up unless asked otherwise. */
  function CreateCard(suit: Suit, rank: Rank, faceDown: bool := false): (c: Card)
    ensures c.suit == suit && c.rank == rank && c.faceDown == faceDown
  {
    Card(suit, rank, faceDown)
  }

  /** The sum of the Hi-Lo weights of `cards`, folded from the left like
      `reduce` does. */
  function HiLoSum(cards: seq<Card>): (total: int)
    ensures -|cards| <= total <= |cards|
  {
    if cards == [] then 0 else HiLoSum(cards[..|cards| - 1]) + HiLoValue(cards[|cards| - 1])
  }

  lemma {:induction false} HiLoSumAppend(a: seq<Card>, b: seq<Card>)
    ensures HiLoSum(a + b) == HiLoSum(a) + HiLoSum(b)
    decreases |b|
  {
    if b == [] {
      assert a + b == a;
    } else {
      var b' := b[..|b| - 1];
      assert (a + b)[..|a + b| - 1] == a + b';
      HiLoSumAppend(a, b');
    }
  }

  /** The Hi-Lo total does not depend on the order of the cards. */
  lemma {:induction false} HiLoSumPermutation(a: seq<Card>, b: seq<Card>)
    requires multiset(a) == multiset(b)
    ensures HiLoSum(a) == HiLoSum(b)
    decreases |a|
  {
    if a == [] {
      assert |b| == |multiset(b)| == 0;
    } else {
      var x := a[|a| - 1];
      var a' := a[..|a| - 1];
      assert a == a' + [x];
      assert x in multiset(b);
      var i :| 0 <= i < |b| && b[i] == x;
      var b' := b[..i] + b[i + 1..];
      assert b == b[..i] + [x] + b[i + 1..];
      assert multiset(b) == multiset(b[..i]) + multiset{x} + multiset(b[i + 1..]);
      assert multiset(a) == multiset(a') + multiset{x};
      assert multiset(b') == multiset(b[..i]) + multiset(b[i + 1..]);
      assert multiset(b) == multiset(b') + multiset{x};
      assert multiset(a') == multiset(a) - multiset{x};
      assert multiset(b') == multiset(b) - multiset{x};
      HiLoSumPermutation(a', b');
      HiLoSumAppend(b[..i] + [x], b[i + 1..]);
      HiLoSumAppend(b[..i], [x]);
      HiLoSumAppend(b[..i], b[i + 1..]);
      assert HiLoSum([x]) == HiLoValue(x) by {
        assert [x][..0] == [];
      }
    }
  }

  /** The thirteen cards of one suit, Ace to King, face up. */
  function SuitRun(s: Suit): (run: seq<Card>)
    ensures |run| == 13
    ensures forall k :: 0 <= k < 13 ==> run[k] == CreateCard(s, Ranks[k])
  {
    seq(13, k requires 0 <= k < 13 => CreateCard(s, Ranks[k]))
  }

  /** The runs of the first `n` suits of `Suits`, one after the other. */
  function DeckPrefix(n: nat): (cards: seq<Card>)
    requires n <= 4
    ensures |cards| == 13 * n
  {
    if n == 0 then [] else DeckPrefix(n - 1) + SuitRun(Suits[n - 1])
  }

  /** One deck in the order it is built: suit by suit, and within a suit
      rank by rank, all face up. */
  function OneDeck(): (deck: seq<Card>)
    ensures |deck| == 52
  {
    DeckPrefix(|Suits|)
  }

  lemma HiLoSumStep(s: seq<Card>, k: nat)
    requires k < |s|
    ensures HiLoSum(s[..k + 1]) == HiLoSum(s[..k]) + HiLoValue(s[k])
  {
    assert s[..k + 1][..k] == s[..k];
  }

  /** The Hi-Lo weights of the first `k` ranks, summed. */
  function RankWeights(k: nat): int
    requires k <= 13
  {
    if k == 0 then 0 else RankWeights(k - 1) + HiLoValue(CreateCard(Hearts, Ranks[k - 1]))
  }

  /** The first `k` cards of a suit weigh what the first `k` ranks do. */
  lemma {:induction false} SuitRunPrefix(s: Suit, k: nat)
    requires k <= 13
    ensures HiLoSum(SuitRun(s)[..k]) == RankWeights(k)
  {
    if k == 0 {
      assert SuitRun(s)[..0] == [];
    } else {
      SuitRunPrefix(s, k - 1);
      HiLoSumStep(SuitRun(s), k - 1);
    }
  }

  /** Within a suit the thirteen weights cancel out. */
  lemma SuitIsBalanced(s: Suit)
    ensures HiLoSum(SuitRun(s)) == 0
  {
    SuitRunPrefix(s, 13);
    assert SuitRun(s)[..13] == SuitRun(s);
    assert RankWeights(6) == 4 by {
      assert RankWeights(1) == -1;
      assert RankWeights(2) == 0;
      assert RankWeights(4) == 2;
    }
    assert RankWeights(9) == 4;
    assert RankWeights(13) == 0;
  }

  /** The Hi-Lo count is balanced: one full deck sums to zero. */
  lemma {:induction false} DeckPrefixIsBalanced(n: nat)
    requires n <= 4
    ensures HiLoSum(DeckPrefix(n)) == 0
  {
    if n > 0 {
      DeckPrefixIsBalanced(n - 1);
      SuitIsBalanced(Suits[n - 1]);
      HiLoSumAppend(DeckPrefix(n - 1), SuitRun(Suits[n - 1]));
    }
  }

  lemma OneDeckIsBalanced()
    ensures HiLoSum(OneDeck()) == 0
  {
    DeckPrefixIsBalanced(4);
  }

  /** In a sequence without repeats every element occurs once. */
  lemma {:induction false} DistinctCount(q: seq<Card>, x: Card)
    requires forall i, j :: 0 <= i < j < |q| ==> q[i] != q[j]
    ensures multiset(q)[x] == if x in q then 1 else 0
  {
    if q != [] {
      var q' := q[1..];
      assert q == [q[0]] + q';
      DistinctCount(q', x);
      assert q[0] !in q' by {
        forall k | 0 <= k < |q'| ensures q'[k] != q[0] {
          assert q'[k] == q[k + 1];
        }
      }
    }
  }

  /** A suit run holds each face-up card of its suit once and nothing else. */
  lemma SuitRunCount(s: Suit, c: Card)
    ensures multiset(SuitRun(s))[c] == if c.suit == s && !c.faceDown then 1 else 0
  {
    SuitsAndRanksEnumerate();
    var run := SuitRun(s);
    DistinctCount(run, c);
    if c.suit == s && !c.faceDown {
      assert c.rank in Ranks;
      var k :| 0 <= k < |Ranks| && Ranks[k] == c.rank;
      assert run[k] == c;
    }
  }

  lemma {:induction false} DeckPrefixCount(n: nat, c: Card)
    requires n <= 4
    ensures multiset(DeckPrefix(n))[c] == if !c.faceDown && c.suit in Suits[..n] then 1 else 0
  {
    SuitsAndRanksEnumerate();
    if n > 0 {
      DeckPrefixCount(n - 1, c);
      SuitRunCount(Suits[n - 1], c);
      assert Suits[..n] == Suits[..n - 1] + [Suits[n - 1]];
      assert c.suit in Suits[..n - 1] ==> c.suit != Suits[n - 1];
    }
  }

  /** One deck holds every face-up card exactly once. */
  lemma OneDeckCount(c: Card)
    ensures multiset(OneDeck())[c] == if c.faceDown then 0 else 1
  {
    DeckPrefixCount(4, c);
    SuitsAndRanksEnumerate();
    assert Suits[..4] == Suits;
  }
}
