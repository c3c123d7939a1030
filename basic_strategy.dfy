/** The basic-strategy advisor: the recommended play for a player hand
    against the dealer's up card, read off the pair, soft and hard tables. */
module Strategy {
  import opened Cards
  import opened Hands

  /** A recommendation. `Double` means double if allowed, otherwise hit;
      `DoubleOrStand` double if allowed, otherwise stand; `SplitOrHit` split
      if doubling after a split is allowed, otherwise hit; `SurrenderOrHit`
      surrender if allowed, otherwise hit. */
  datatype Action = Hit | Stand | Double | DoubleOrStand | Split | SplitOrHit | SurrenderOrHit

  /** `getDealerCardValue`: Ace 11, face cards 10, the others their number. */
  function DealerCardValue(card: Card): (v: int)
    ensures 2 <= v <= 11
    ensures v == CardValue(card.rank)
  {
    match card.rank
    case Ace => 11
    case Jack | Queen | King => 10
    case Two => 2
    case Three => 3
    case Four => 4
    case Five => 5
    case Six => 6
    case Seven => 7
    case Eight => 8
    case Nine => 9
    case Ten => 10
  }

  /** `getHardHandStrategy`. Stand on 17 or more; stand on 13 to 16 against
      a weak dealer (2 to 6) and on 12 against 4 to 6, hitting otherwise;
      double 11 against everything, 10 against 2 to 9 and 9 against 3 to 6;
      hit 8 or less. */
  function HardHandStrategy(value: int, dealerValue: int): (a: Action)
    ensures a == Hit || a == Stand || a == Double
    ensures a == Stand <==> value >= 17 || (13 <= value <= 16 && 2 <= dealerValue <= 6)
                            || (value == 12 && 4 <= dealerValue <= 6)
    ensures a == Double <==> value == 11 || (value == 10 && 2 <= dealerValue <= 9)
                             || (value == 9 && 3 <= dealerValue <= 6)
  {
    if value >= 17 then Stand
    else if value >= 13 && value <= 16 then
      (if dealerValue >= 2 && dealerValue <= 6 then Stand else Hit)
    else if value == 12 then
      (if dealerValue >= 4 && dealerValue <= 6 then Stand else Hit)
    else if value == 11 then Double
    else if value == 10 then
      (if dealerValue >= 2 && dealerValue <= 9 then Double else Hit)
    else if value == 9 then
      (if dealerValue >= 3 && dealerValue <= 6 then Double else Hit)
    else Hit
  }

  /** `getSoftHandStrategy`. Stand on soft 19 or more; soft 18 doubles
      (standing if it may not) against 2 to 6, stands against 7 and 8 and
      hits against 9, 10 and Ace; soft 17 doubles against 3 to 6, soft 15
      and 16 against 4 to 6, soft 13 and 14 against 5 and 6; every other
      case hits. */
  function SoftHandStrategy(value: int, dealerValue: int): (a: Action)
    ensures a == Hit || a == Stand || a == Double || a == DoubleOrStand
    ensures a == Stand <==> value >= 19 || (value == 18 && (dealerValue == 7 || dealerValue == 8))
    ensures a == DoubleOrStand <==> value == 18 && 2 <= dealerValue <= 6
    ensures a == Double <==> (value == 17 && 3 <= dealerValue <= 6)
                             || ((value == 15 || value == 16) && 4 <= dealerValue <= 6)
                             || ((value == 13 || value == 14) && (dealerValue == 5 || dealerValue == 6))
  {
    if value >= 19 then Stand
    else if value == 18 then
      (if dealerValue >= 2 && dealerValue <= 6 then DoubleOrStand
       else if dealerValue == 7 || dealerValue == 8 then Stand
       else Hit)
    else if value == 17 then
      (if dealerValue >= 3 && dealerValue <= 6 then Double else Hit)
    else if value == 15 || value == 16 then
      (if dealerValue >= 4 && dealerValue <= 6 then Double else Hit)
    else if value == 13 || value == 14 then
      (if dealerValue == 5 || dealerValue == 6 then Double else Hit)
    else Hit
  }

  /** `getPairStrategy`. Always split Aces and 8s; never split 10-valued
      cards (stand) or 5s (play them as a hard 10); split 2s, 3s and 7s
      against 2 to 7, 4s against 5 and 6, 6s against 2 to 6; split 9s
      against 2 to 9 except 7, standing otherwise; hit the other cases. */
  function PairStrategy(rank: Rank, dealerValue: int): (a: Action)
    ensures a == Hit || a == Stand || a == Double || a == Split
    ensures rank == Ace || rank == Eight ==> a == Split
    ensures CardValue(rank) == 10 ==> a == Stand
    ensures rank == Five ==> a == HardHandStrategy(10, dealerValue)
    ensures a == Split <==>
      || rank == Ace || rank == Eight
      || ((rank == Two || rank == Three || rank == Seven) && 2 <= dealerValue <= 7)
      || (rank == Four && (dealerValue == 5 || dealerValue == 6))
      || (rank == Six && 2 <= dealerValue <= 6)
      || (rank == Nine && 2 <= dealerValue <= 9 && dealerValue != 7)
    ensures a == Double ==> rank == Five
  {
    if rank == Ace || rank == Eight then Split
    else if rank == Five || rank == Ten || rank == Jack || rank == Queen || rank == King then
      (if rank == Five then HardHandStrategy(10, dealerValue) else Stand)
    else if rank == Two || rank == Three || rank == Seven then
      (if dealerValue >= 2 && dealerValue <= 7 then Split else Hit)
    else if rank == Four then
      (if dealerValue == 5 || dealerValue == 6 then Split else Hit)
    else if rank == Six then
      (if dealerValue >= 2 && dealerValue <= 6 then Split else Hit)
    else if rank == Nine then
      (if dealerValue == 7 || dealerValue == 10 || dealerValue == 11 then Stand
       else if dealerValue >= 2 && dealerValue <= 9 then Split
       else Stand)
    else Hit
  }

  /** `getBasicStrategyAction`: a pair goes to the pair table, otherwise a
      soft total to the soft table, otherwise the hard table. The advisor
      never recommends the surrender or double-after-split plays, splits
      only a pair, and recommends "double, else stand" exactly for a soft 18
      that is not a pair against 2 to 6. */
  function BasicStrategyAction(playerHand: Hand, dealerUpCard: Card): (a: Action)
    ensures a != SplitOrHit && a != SurrenderOrHit
    ensures a == Split ==> CanSplit(playerHand)
    ensures a == DoubleOrStand <==>
      !CanSplit(playerHand) && HandValueOf(playerHand).isSoft && HandValueOf(playerHand).value == 18
      && 2 <= CardValue(dealerUpCard.rank) <= 6
    ensures CanSplit(playerHand) ==> a == PairStrategy(playerHand.cards[0].rank, CardValue(dealerUpCard.rank))
    ensures !CanSplit(playerHand) && HandValueOf(playerHand).isSoft ==>
      a == SoftHandStrategy(HandValueOf(playerHand).value, CardValue(dealerUpCard.rank))
    ensures !CanSplit(playerHand) && !HandValueOf(playerHand).isSoft ==>
      a == HardHandStrategy(HandValueOf(playerHand).value, CardValue(dealerUpCard.rank))
  {
    var hv := HandValueOf(playerHand);
    var dealerValue := DealerCardValue(dealerUpCard);
    if CanSplit(playerHand) then PairStrategy(playerHand.cards[0].rank, dealerValue)
    else if hv.isSoft then SoftHandStrategy(hv.value, dealerValue)
    else HardHandStrategy(hv.value, dealerValue)
  }

  /** `getActionLabel`: a distinct, non-empty label for every action. */
  function ActionLabel(action: Action): (s: string)
    ensures |s| > 0
  {
    match action
    case Hit => "Hit"
    case Stand => "Stand"
    case Double => "Double"
    case DoubleOrStand => "Double/Stand"
    case Split => "Split"
    case SplitOrHit => "Split/Hit"
    case SurrenderOrHit => "Surrender/Hit"
  }

  lemma ActionLabelInjective(a: Action, b: Action)
    ensures ActionLabel(a) == ActionLabel(b) ==> a == b
  {
  }

  const Green := "#00cc00"
  const Red := "#cc0000"
  const Yellow := "#ffd700"
  const Blue := "#0066cc"
  const Grey := "#999999"

  /** `getActionColor`: green for the plays that stand when they cannot
      double, red for the plays that hit, yellow for doubling, blue for
      splitting. Every action has one of these, so the grey fallback is never
      returned. */
  function ActionColor(action: Action): (s: string)
    ensures s != Grey
    ensures s == Green <==> action == Stand || action == DoubleOrStand
    ensures s == Red <==> action == Hit || action == SplitOrHit || action == SurrenderOrHit
    ensures s == Yellow <==> action == Double
    ensures s == Blue <==> action == Split
  {
    match action
    case Stand | DoubleOrStand => Green
    case Hit | SplitOrHit | SurrenderOrHit => Red
    case Double => Yellow
    case Split => Blue
  }

  /** The printed strategy chart, one row per player total and one column per
      dealer up card from 2 to Ace: H hit, S stand, D double (else hit),
      d double (else stand), P split. */
  function ChartAction(c: char): Action {
    match c
    case 'S' => Stand
    case 'D' => Double
    case 'd' => DoubleOrStand
    case 'P' => Split
    case _ => Hit
  }

  function HardRow(value: int): (row: string)
    ensures |row| == 10
  {
    if value >= 17 then "SSSSSSSSSS"
    else if value >= 13 then "SSSSSHHHHH"
    else if value == 12 then "HHSSSHHHHH"
    else if value == 11 then "DDDDDDDDDD"
    else if value == 10 then "DDDDDDDDHH"
    else if value == 9 then "HDDDDHHHHH"
    else "HHHHHHHHHH"
  }

  function SoftRow(value: int): (row: string)
    ensures |row| == 10
  {
    if value >= 19 then "SSSSSSSSSS"
    else if value == 18 then "dddddSSHHH"
    else if value == 17 then "HDDDDHHHHH"
    else if value == 15 || value == 16 then "HHDDDHHHHH"
    else if value == 13 || value == 14 then "HHHDDHHHHH"
    else "HHHHHHHHHH"
  }

  function PairRow(rank: Rank): (row: string)
    ensures |row| == 10
  {
    match rank
    case Ace => "PPPPPPPPPP"
    case Eight => "PPPPPPPPPP"
    case Ten | Jack | Queen | King => "SSSSSSSSSS"
    case Five => "DDDDDDDDHH"
    case Two | Three | Seven => "PPPPPPHHHH"
    case Four => "HHHPPHHHHH"
    case Six => "PPPPPHHHHH"
    case Nine => "PPPPPSPPSS"
  }

  /** The hard table agrees with the printed chart in every cell. */
  lemma HardTableIsChart(value: int, dealerValue: int)
    requires 2 <= dealerValue <= 11
    ensures HardHandStrategy(value, dealerValue) == ChartAction(HardRow(value)[dealerValue - 2])
  {
  }

  /** The soft table agrees with the printed chart in every cell. */
  lemma SoftTableIsChart(value: int, dealerValue: int)
    requires 2 <= dealerValue <= 11
    ensures SoftHandStrategy(value, dealerValue) == ChartAction(SoftRow(value)[dealerValue - 2])
  {
  }

  /** The pair table agrees with the printed chart in every cell. */
  lemma PairTableIsChart(rank: Rank, dealerValue: int)
    requires 2 <= dealerValue <= 11
    ensures PairStrategy(rank, dealerValue) == ChartAction(PairRow(rank)[dealerValue - 2])
  {
  }

  /** The advisor reads the chart: the pair row for a pair, otherwise the
      soft or hard row for the hand's total, in the dealer's column. */
  lemma AdvisorReadsChart(playerHand: Hand, dealerUpCard: Card)
    ensures var column := CardValue(dealerUpCard.rank) - 2;
      var hv := HandValueOf(playerHand);
      BasicStrategyAction(playerHand, dealerUpCard) == ChartAction(
        if CanSplit(playerHand) then PairRow(playerHand.cards[0].rank)[column]
        else if hv.isSoft then SoftRow(hv.value)[column]
        else HardRow(hv.value)[column])
  {
    var dv := CardValue(dealerUpCard.rank);
    var hv := HandValueOf(playerHand);
    if CanSplit(playerHand) {
      PairTableIsChart(playerHand.cards[0].rank, dv);
    } else if hv.isSoft {
      SoftTableIsChart(hv.value, dv);
    } else {
      HardTableIsChart(hv.value, dv);
    }
  }

  /** Worked advice: hard 16 against a 10 hits; 5,5 against a 9 doubles and
      against a 10 hits; 9,9 against a 7 stands; A,7 against a 2 doubles or
      stands; 8,8 against an Ace splits. */
  lemma AdviceExamples(h: Hand, s: Suit)
    ensures BasicStrategyAction(h.(cards := [Card(s, Ten, false), Card(s, Six, false)]), Card(s, King, false)) == Hit
    ensures BasicStrategyAction(h.(cards := [Card(s, Five, false), Card(s, Five, false)]), Card(s, Nine, false)) == Double
    ensures BasicStrategyAction(h.(cards := [Card(s, Five, false), Card(s, Five, false)]), Card(s, Ten, false)) == Hit
    ensures BasicStrategyAction(h.(cards := [Card(s, Nine, false), Card(s, Nine, false)]), Card(s, Seven, false)) == Stand
    ensures BasicStrategyAction(h.(cards := [Card(s, Ace, false), Card(s, Seven, false)]), Card(s, Two, false)) == DoubleOrStand
    ensures BasicStrategyAction(h.(cards := [Card(s, Eight, false), Card(s, Eight, false)]), Card(s, Ace, false)) == Split
  {
    TwoCardTotals(Card(s, Ten, false), Card(s, Six, false));
    TwoCardTotals(Card(s, Ace, false), Card(s, Seven, false));
  }
}
