/** A run whose spike is reported with a score of 60 and the grade Reject, with the
    production thresholds: one old trade and nine equal buys by nine wallets. The score is
    2/9 of a millionth short of 60. */
module UnderstatedGrade {
  import opened Text
  import opened Clock
  import opened TradeLog
  import opened OrderStatistics
  import opened Scoring
  import opened RollingHistory

  const PRODUCTION := Config(12.0, 5)
  const OLD_VOLUME := 165.0
  const BUY_VOLUME := 49.597222

  function Trade(mint: string, wallet: string, volume: real, at: int): TradeEvent {
    TradeEvent(mint, "", "", wallet, volume, 0.0, "buy", at)
  }

  /** One trade half an hour ago by a wallet without a name, then n buys now. */
  function Rush(mint: string, now: int, n: nat): Log {
    if n == 0 then [Trade(mint, "", OLD_VOLUME, now - 30 * MINUTE)]
    else Rush(mint, now, n - 1) + [Trade(mint, Digits(n), BUY_VOLUME, now)]
  }

  /** The run that adds the events of a log. */
  function Adding(log: Log): Run {
    if log == [] then Start else Then(Adding(Init(log)), Add(Last(log)))
  }

  function Buyers(n: nat): set<string> {
    set k | 1 <= k <= n :: Digits(k)
  }

  lemma {:induction false} BuyersCount(n: nat)
    ensures |Buyers(n)| == n
  {
    if n == 0 {
      assert Buyers(0) == {};
    } else {
      BuyersCount(n - 1);
      forall k | 1 <= k <= n - 1 ensures Digits(k) != Digits(n) {
        if Digits(k) == Digits(n) { DigitsInjective(k, n); }
      }
      assert Buyers(n) == Buyers(n - 1) + {Digits(n)};
    }
  }

  lemma {:induction false} AddingLogs(log: Log, now: int)
    requires SortedUpTo(log, now)
    ensures LogOf(Adding(log)) == log && OrderedUpTo(Adding(log), now)
  {
    if log != [] {
      var t := Last(log).at;
      assert SortedUpTo(Init(log), t);
      AddingLogs(Init(log), t);
      assert log == Init(log) + [Last(log)];
    }
  }

  lemma {:induction false} RushTimes(mint: string, now: int, n: nat)
    ensures |Rush(mint, now, n)| == n + 1
    ensures SortedUpTo(Rush(mint, now, n), now)
    ensures forall i :: 0 <= i <= n ==> now - HORIZON <= Rush(mint, now, n)[i].at
  {
    if 0 < n {
      RushTimes(mint, now, n - 1);
      SortedSnoc(Rush(mint, now, n - 1), Trade(mint, Digits(n), BUY_VOLUME, now));
    }
  }

  lemma {:induction false} RushHasNoCaps(mint: string, now: int, n: nat)
    ensures Caps(Rush(mint, now, n)) == [] && MaxCap(Rush(mint, now, n)) == 0.0
  {
    var log := Rush(mint, now, n);
    if 0 < n {
      RushHasNoCaps(mint, now, n - 1);
      assert Init(log) == Rush(mint, now, n - 1);
    } else {
      assert Init(log) == [];
    }
  }

  lemma {:induction false} RushFlow(mint: string, now: int, n: nat)
    ensures var log := Rush(mint, now, n);
            && VolumeSince(log, now - WINDOW) == n as real * BUY_VOLUME
            && VolumeBetween(log, now - HORIZON, now - WINDOW) == OLD_VOLUME
            && WalletsSince(log, now - WINDOW) == Buyers(n)
  {
    if n == 0 {
      assert Init(Rush(mint, now, 0)) == [];
    } else {
      var before, e := Rush(mint, now, n - 1), Trade(mint, Digits(n), BUY_VOLUME, now);
      RushFlow(mint, now, n - 1);
      AggregatesOfOneMore(before, e, now - HORIZON, now - WINDOW);
      AggregatesOfOneMore(before, e, now - WINDOW, now - WINDOW);
      assert Buyers(n) == Buyers(n - 1) + {Digits(n)};
    }
  }

  lemma {:induction false} RushBuyers(mint: string, now: int, n: nat)
    ensures NamedBuyers(Rush(mint, now, n)) == Buyers(n)
  {
    var log := Rush(mint, now, n);
    if n == 0 {
      assert log[0].wallet == "";
    } else {
      RushBuyers(mint, now, n - 1);
      DigitsAreDigits(n);
      assert NamedBuyers(log) == NamedBuyers(Rush(mint, now, n - 1)) + {Digits(n)};
      assert Buyers(n) == Buyers(n - 1) + {Digits(n)};
    }
  }

  lemma {:induction false} RushShares(mint: string, now: int, n: nat, w: string)
    ensures VolumeOf(Rush(mint, now, n), {w}) == if w in Buyers(n) then BUY_VOLUME else 0.0
  {
    var log := Rush(mint, now, n);
    if n == 0 {
      assert Init(log) == [];
    } else {
      RushShares(mint, now, n - 1, w);
      assert Init(log) == Rush(mint, now, n - 1);
      DigitsAreDigits(n);
      assert Buyers(n) == Buyers(n - 1) + {Digits(n)};
      if w == Digits(n) {
        forall k | 1 <= k <= n - 1 ensures Digits(k) != w {
          if Digits(k) == w { DigitsInjective(k, n); }
        }
      }
    }
  }

  lemma {:induction false} RushTotal(mint: string, now: int, n: nat, all: nat)
    requires n <= all
    ensures VolumeOf(Rush(mint, now, n), Buyers(all)) == n as real * BUY_VOLUME
  {
    var log := Rush(mint, now, n);
    if n == 0 {
      assert Init(log) == [];
    } else {
      RushTotal(mint, now, n - 1, all);
      assert Init(log) == Rush(mint, now, n - 1);
      DigitsAreDigits(n);
      assert Digits(n) in Buyers(all);
    }
  }

  /** The inputs of the verdict on the rush's whole history. */
  lemma RushInputs(mint: string, now: int, n: nat)
    ensures var x := HistoryInputs(Rush(mint, now, n), mint, now);
            && x.cap == 0.0 && x.samples == [] && x.events == Rush(mint, now, n)
            && x.window == n as real * BUY_VOLUME && x.baseline == OLD_VOLUME && x.wallets == n
  {
    RushTimes(mint, now, n);
    RushFlow(mint, now, n);
    BuyersCount(n);
    RushHasNoCaps(mint, now, n);
    FreshKeepsAll(Rush(mint, now, n), now - HORIZON);
  }

  lemma RushQuality(mint: string, now: int, n: nat)
    requires 5 <= n <= 20
    ensures DepthScore(Rush(mint, now, n)) == n as real / 20.0
    ensures ConcentrationScore(Rush(mint, now, n)) == 0.8
    ensures StructureScore(Rush(mint, now, n), 0.0) == 0.5
  {
    var log := Rush(mint, now, n);
    RushBuyers(mint, now, n);
    BuyersCount(n);
    RushTotal(mint, now, n, n);
    RushTimes(mint, now, n);
    RushHasNoCaps(mint, now, n);
    assert 5.0 <= n as real <= 20.0;
    forall w ensures VolumeOf(log, {w}) <= BUY_VOLUME { RushShares(mint, now, n, w); }
  }

  lemma RushScores(x: Inputs)
    requires x.cap == 0.0 && x.samples == [] && x.window == 9.0 * BUY_VOLUME && x.baseline == OLD_VOLUME && x.wallets == 9
    requires DepthScore(x.events) == 0.45 && ConcentrationScore(x.events) == 0.8 && StructureScore(x.events, 0.0) == 0.5
    ensures Detected(PRODUCTION, x)
    ensures Floor(x) == 0.475
    ensures Entry(PRODUCTION, x).0 == 60.0 - 2.0 / 9_000_000.0
  {
    assert Per5m(x.baseline) == 15.0 && Ratio(x) == 29.7583332;
    assert Floor(x) == 0.475;
    assert RatioImpulse(PRODUCTION, Ratio(x)) == 17.7583332 / 18.0;
    assert UniqueGrowth(9) == 4.0 / 45.0;
    assert Persistence(x.window, 15.0) == 0.8;
  }

  /** The reported grade can fall short of the reported numbers: after this run, in order of
      time, the spike is reported with score 60 and floor confidence 0.475, whose grade is
      C, and with the grade Reject. */
  lemma GradeMayUnderstate(mint: string, now: int)
    ensures var run := Adding(Rush(mint, now, 9));
            var (r, detected) := Verdict(PRODUCTION, StateInputs(StateAfter(Then(run, Evaluate(now))), mint, now));
            && OrderedUpTo(run, now) && detected
            && r.entryScore == 60.0 && r.floorConfidence == 0.475
            && GradeOf(r.entryScore, r.floorConfidence) == C && r.entryGrade == Reject
  {
    var log := Rush(mint, now, 9);
    var x := HistoryInputs(log, mint, now);
    RushTimes(mint, now, 9);
    AddingLogs(log, now);
    OrderedStateAgreesWithHistory(PRODUCTION, Adding(log), mint, now);
    RushInputs(mint, now, 9);
    RushQuality(mint, now, 9);
    RushScores(x);
    assert Rounded(0.475) == 0.475;
    assert Rounded(60.0 - 2.0 / 9_000_000.0) == 60.0;
  }
}
