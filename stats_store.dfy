/** The session statistics: hand tallies per settled hand and the accuracy of
    the player's count checks. */
module Stats {
  import opened Hands

  /** The per-session counters. Times are milliseconds supplied by the caller. */
  datatype SessionStats = SessionStats(
    handsPlayed: nat,
    handsWon: nat,
    handsLost: nat,
    handsPushed: nat,
    blackjacks: nat,
    totalWagered: real,
    totalWinnings: real,
    sessionStartTime: int,
    sessionDuration: int)

  /** The counting-practice counters and the count recorded with every hand. */
  datatype CountingStats = CountingStats(
    countChecks: nat,
    countErrors: nat,
    accuracy: real,
    runningCountHistory: seq<int>,
    trueCountHistory: seq<int>)

  /** What the round controller reports for one settled hand. */
  datatype HandResult = HandResult(
    playerValue: int,
    dealerValue: int,
    result: Outcome,
    bet: real,
    payout: real,
    runningCount: int,
    trueCount: int)

  /** The zeroed session counters, started at `now`. */
  function NewSession(now: int): (s: SessionStats)
    ensures s.handsPlayed == 0 && s.handsWon == 0 && s.handsLost == 0 && s.handsPushed == 0
    ensures s.blackjacks == 0 && s.totalWagered == 0.0 && s.totalWinnings == 0.0
    ensures s.sessionStartTime == now && s.sessionDuration == 0
  {
    SessionStats(0, 0, 0, 0, 0, 0.0, 0.0, now, 0)
  }

  /** The share of correct checks as a percentage, 0 before any check. */
  function AccuracyOf(countChecks: nat, countErrors: nat): (a: real)
    requires countErrors <= countChecks
    ensures 0.0 <= a <= 100.0
    ensures countChecks > 0 && countErrors == 0 ==> a == 100.0
    ensures countErrors == countChecks ==> a == 0.0
  {
    if countChecks > 0 then
      var right := (countChecks - countErrors) as real;
      var all := countChecks as real;
      assert right / all <= 1.0 by {
        assert right <= all;
      }
      right / all * 100.0
    else 0.0
  }

  class StatsStore {
    var session: SessionStats
    var counting: CountingStats

    /** The tallies agree (every hand played was won, lost or pushed, and
        every blackjack is also a win), there are no more errors than checks,
        and the accuracy is the one they give. */
    ghost predicate Valid()
      reads this
    {
      && session.handsPlayed == session.handsWon + session.handsLost + session.handsPushed
      && session.blackjacks <= session.handsWon
      && counting.countErrors <= counting.countChecks
      && counting.accuracy == AccuracyOf(counting.countChecks, counting.countErrors)
    }

    /** The default statistics: every counter zero, both histories empty. */
    constructor(now: int)
      ensures session == NewSession(now)
      ensures counting == CountingStats(0, 0, 0.0, [], [])
      ensures Valid()
    {
      session := NewSession(now);
      counting := CountingStats(0, 0, 0.0, [], []);
    }

    /** `recordHandResult`: one more hand played and its bet wagered; a win
        or a blackjack counts as won (a blackjack also as a blackjack), a loss
        as lost, a push as pushed; the payout is added to the winnings unless
        the hand lost; the counts at the time are appended to the histories. */
    method RecordHandResult(result: HandResult, now: int)
      requires Valid()
      modifies this
      ensures Valid()
      ensures session.handsPlayed == old(session.handsPlayed) + 1
      ensures session.totalWagered == old(session.totalWagered) + result.bet
      ensures session.handsWon == old(session.handsWon) + (if result.result == Win || result.result == Blackjack then 1 else 0)
      ensures session.handsLost == old(session.handsLost) + (if result.result == Lose then 1 else 0)
      ensures session.handsPushed == old(session.handsPushed) + (if result.result == Push then 1 else 0)
      ensures session.blackjacks == old(session.blackjacks) + (if result.result == Blackjack then 1 else 0)
      ensures session.totalWinnings == old(session.totalWinnings) + (if result.result == Lose then 0.0 else result.payout)
      ensures session.sessionStartTime == old(session.sessionStartTime)
      ensures session.sessionDuration == now - old(session.sessionStartTime)
      ensures counting == old(counting).(
        runningCountHistory := old(counting.runningCountHistory) + [result.runningCount],
        trueCountHistory := old(counting.trueCountHistory) + [result.trueCount])
    {
      var s := session;
      s := s.(handsPlayed := s.handsPlayed + 1);
      s := s.(totalWagered := s.totalWagered + result.bet);
      match result.result {
        case Win =>
          s := s.(handsWon := s.handsWon + 1);
          s := s.(totalWinnings := s.totalWinnings + result.payout);
        case Lose =>
          s := s.(handsLost := s.handsLost + 1);
        case Push =>
          s := s.(handsPushed := s.handsPushed + 1);
          s := s.(totalWinnings := s.totalWinnings + result.payout);
        case Blackjack =>
          s := s.(blackjacks := s.blackjacks + 1);
          s := s.(handsWon := s.handsWon + 1);
          s := s.(totalWinnings := s.totalWinnings + result.payout);
      }
      s := s.(sessionDuration := now - session.sessionStartTime);

      var c := counting;
      c := c.(runningCountHistory := c.runningCountHistory + [result.runningCount]);
      c := c.(trueCountHistory := c.trueCountHistory + [result.trueCount]);

      session := s;
      counting := c;
    }

    /** `recordCountCheck`: one more check, one more error exactly when the
        player's count differs from the actual one, and the accuracy
        recomputed from the two. */
    method RecordCountCheck(userCount: int, actualCount: int)
      requires Valid()
      modifies this
      ensures Valid()
      ensures session == old(session)
      ensures counting.countChecks == old(counting.countChecks) + 1
      ensures counting.countErrors == old(counting.countErrors) + (if userCount != actualCount then 1 else 0)
      ensures counting.accuracy == AccuracyOf(counting.countChecks, counting.countErrors)
      ensures counting.runningCountHistory == old(counting.runningCountHistory)
      ensures counting.trueCountHistory == old(counting.trueCountHistory)
    {
      var c := counting;
      c := c.(countChecks := c.countChecks + 1);
      if userCount != actualCount {
        c := c.(countErrors := c.countErrors + 1);
      }
      c := c.(accuracy := AccuracyOf(c.countChecks, c.countErrors));
      counting := c;
    }

    /** `resetSession`: zeroed session counters started at `now`, and the
        check counters and accuracy back to zero. The histories are the
        default object's arrays, which are the very arrays every recorded
        hand was pushed onto, so they keep their entries. */
    method ResetSession(now: int)
      modifies this
      ensures Valid()
      ensures session == NewSession(now)
      ensures counting == old(counting).(countChecks := 0, countErrors := 0, accuracy := 0.0)
    {
      session := NewSession(now);
      counting := counting.(countChecks := 0, countErrors := 0, accuracy := 0.0);
    }
  }

  /** Once checks have been made, the accuracy is 100 exactly when none was
      wrong and 0 exactly when all were. */
  lemma AccuracyExtremes(countChecks: nat, countErrors: nat)
    requires countErrors <= countChecks && countChecks > 0
    ensures AccuracyOf(countChecks, countErrors) == 100.0 <==> countErrors == 0
    ensures AccuracyOf(countChecks, countErrors) == 0.0 <==> countErrors == countChecks
  {
    var a := AccuracyOf(countChecks, countErrors);
    var n := countChecks as real;
    assert a * n == 100.0 * ((countChecks - countErrors) as real);
    if a == 100.0 {
      assert 100.0 * n == 100.0 * ((countChecks - countErrors) as real);
    }
  }

  /** Worked accuracies: three checks with one error give 200/3, four with
      one error give 75. */
  lemma AccuracyExamples()
    ensures AccuracyOf(3, 1) * 3.0 == 200.0
    ensures AccuracyOf(4, 1) == 75.0
  {
  }

  /** A worked session: a win and a blackjack on 10 each, paid 20 and 25,
      leave two hands played and won, one blackjack, 20 wagered, 45 won and
      one entry per hand in each history. */
  method ExampleSession() returns (s: SessionStats, c: CountingStats)
    ensures s.handsPlayed == 2 && s.handsWon == 2 && s.handsLost == 0 && s.handsPushed == 0
    ensures s.blackjacks == 1 && s.totalWagered == 20.0 && s.totalWinnings == 45.0
    ensures c.runningCountHistory == [1, -2] && c.trueCountHistory == [0, -1]
  {
    var store := new StatsStore(0);
    store.RecordHandResult(HandResult(19, 18, Win, 10.0, 20.0, 1, 0), 5);
    store.RecordHandResult(HandResult(21, 20, Blackjack, 10.0, 25.0, -2, -1), 9);
    s := store.session;
    c := store.counting;
  }
}
