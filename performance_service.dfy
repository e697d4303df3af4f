/**
 * The risk guard (`PerformanceService`): a daily-loss limit of 3 % of the
 * initial capital, a limit of three consecutive losses, and the running
 * profit totals.
 */
module PerformanceService {
  import opened JsNumber

  const MaxDailyLoss: real := 0.03
  const MaxConsecutiveLosses: nat := 3

  /** A closed trade, as far as the statistics read it. */
  datatype Trade = Trade(profit: real)

  /** The `profits` record the trading loop passes around and the update mutates. */
  class Profits {
    var total: real
    var daily: real
    var weekly: real

    constructor (total: real, daily: real, weekly: real)
      ensures this.total == total && this.daily == daily && this.weekly == weekly
    {
      this.total := total;
      this.daily := daily;
      this.weekly := weekly;
    }
  }

  /** The streak after one more closed trade: a loss extends it, anything else resets it. */
  function NextStreak(streak: nat, profit: real): nat
  {
    if profit < 0.0 then streak + 1 else 0
  }

  /** The streak after a run of trades. */
  function StreakAfter(streak: nat, profits: seq<real>): nat
  {
    if profits == [] then streak else NextStreak(StreakAfter(streak, profits[..|profits| - 1]), profits[|profits| - 1])
  }

  /** The number of losses at the end of `profits`. */
  function TrailingLosses(profits: seq<real>): nat
  {
    if profits == [] || profits[|profits| - 1] >= 0.0 then 0
    else TrailingLosses(profits[..|profits| - 1]) + 1
  }

  /**
   * From a fresh start the streak is the length of the run of losses that
   * ends the history: any non-negative trade wipes what came before.
   */
  lemma {:induction false} StreakCountsTrailingLosses(profits: seq<real>)
    ensures StreakAfter(0, profits) == TrailingLosses(profits)
  {
    if profits != [] {
      StreakCountsTrailingLosses(profits[..|profits| - 1]);
    }
  }

  /** Three losses in a row, from any streak, reach the limit. */
  lemma ThreeLossesReachLimit(streak: nat, a: real, b: real, c: real)
    requires a < 0.0 && b < 0.0 && c < 0.0
    ensures StreakAfter(streak, [a, b, c]) >= MaxConsecutiveLosses
  {
    assert [a][..0] == [];
    assert StreakAfter(streak, [a]) == streak + 1;
    assert [a, b][..1] == [a];
    assert StreakAfter(streak, [a, b]) == streak + 2;
    assert [a, b, c][..2] == [a, b];
  }

  /** The fraction of winning trades, in percent; 0 without trades. */
  function WinRate(trades: seq<Trade>): (rate: real)
    ensures 0.0 <= rate <= 100.0
    ensures trades == [] ==> rate == 0.0
  {
    if |trades| > 0 then
      WinsAtMost(trades);
      (Wins(trades) as real / |trades| as real) * 100.0
    else 0.0
  }

  /** The trades whose `profit > 0`. */
  function Wins(trades: seq<Trade>): nat
  {
    if trades == [] then 0
    else Wins(trades[..|trades| - 1]) + (if trades[|trades| - 1].profit > 0.0 then 1 else 0)
  }

  lemma {:induction false} WinsAtMost(trades: seq<Trade>)
    ensures Wins(trades) <= |trades|
  {
    if trades != [] {
      WinsAtMost(trades[..|trades| - 1]);
    }
  }

  /** The win rate is 100 exactly when every trade won, and 0 exactly when none did. */
  lemma {:induction false} WinRateExtremes(trades: seq<Trade>)
    requires trades != []
    ensures WinRate(trades) == 100.0 <==> forall i :: 0 <= i < |trades| ==> trades[i].profit > 0.0
    ensures WinRate(trades) == 0.0 <==> forall i :: 0 <= i < |trades| ==> trades[i].profit <= 0.0
  {
    WinsAllIff(trades);
    WinsNoneIff(trades);
    var w := Wins(trades) as real;
    var n := |trades| as real;
    WinsAtMost(trades);
    assert WinRate(trades) == (w / n) * 100.0;
    if w == n {
      assert w / n == 1.0;
    } else {
      assert w / n < 1.0;
    }
  }

  lemma {:induction false} WinsAllIff(trades: seq<Trade>)
    ensures Wins(trades) == |trades| <==> forall i :: 0 <= i < |trades| ==> trades[i].profit > 0.0
  {
    if trades != [] {
      var init := trades[..|trades| - 1];
      WinsAllIff(init);
      WinsAtMost(init);
      assert forall i :: 0 <= i < |init| ==> init[i] == trades[i];
    }
  }

  lemma {:induction false} WinsNoneIff(trades: seq<Trade>)
    ensures Wins(trades) == 0 <==> forall i :: 0 <= i < |trades| ==> trades[i].profit <= 0.0
  {
    if trades != [] {
      var init := trades[..|trades| - 1];
      WinsNoneIff(init);
      assert forall i :: 0 <= i < |init| ==> init[i] == trades[i];
    }
  }

  /** What `getPerformanceStats` returns. */
  datatype Stats = Stats(consecutiveLosses: nat, roi: Num, winRate: real)

  /** `(total / initialCapital) * 100` in double arithmetic. */
  function Roi(total: real, initialCapital: real): (roi: Num)
    ensures initialCapital != 0.0 ==> roi == Finite(total / initialCapital * 100.0)
    ensures initialCapital == 0.0 && total == 0.0 ==> roi.NaN?
  {
    Mul(Div(Finite(total), Finite(initialCapital)), Finite(100.0))
  }

  /** The condition under which `checkPerformanceMetrics` lets trading go on. */
  predicate WithinLimits(daily: real, initialCapital: real, streak: nat)
  {
    !(daily < -MaxDailyLoss * initialCapital) && streak < MaxConsecutiveLosses
  }

  class PerformanceService {
    var consecutiveLosses: nat

    constructor ()
      ensures consecutiveLosses == 0
    {
      consecutiveLosses := 0;
    }

    /**
     * `checkPerformanceMetrics`: false once the day's loss is strictly below
     * −3 % of the capital or the streak has reached three; true otherwise.
     * The ROI and win rate it computes are only logged.
     */
    method CheckPerformanceMetrics(daily: real, initialCapital: real) returns (ok: bool)
      ensures ok == WithinLimits(daily, initialCapital, consecutiveLosses)
    {
      if daily < -MaxDailyLoss * initialCapital {
        return false;
      }
      if consecutiveLosses >= MaxConsecutiveLosses {
        return false;
      }
      return true;
    }

    /** `updateProfitMetrics`: adds the profit to all three totals of the same record and moves the streak. */
    method UpdateProfitMetrics(profit: real, profits: Profits) returns (r: Profits)
      modifies this, profits
      ensures r == profits
      ensures profits.total == old(profits.total) + profit
      ensures profits.daily == old(profits.daily) + profit
      ensures profits.weekly == old(profits.weekly) + profit
      ensures consecutiveLosses == NextStreak(old(consecutiveLosses), profit)
    {
      profits.total := profits.total + profit;
      profits.daily := profits.daily + profit;
      profits.weekly := profits.weekly + profit;
      if profit < 0.0 {
        consecutiveLosses := consecutiveLosses + 1;
      } else {
        consecutiveLosses := 0;
      }
      return profits;
    }

    /** `getPerformanceStats`. */
    method GetPerformanceStats(trades: seq<Trade>, total: real, initialCapital: real) returns (s: Stats)
      ensures s == Stats(consecutiveLosses, Roi(total, initialCapital), WinRate(trades))
    {
      s := Stats(consecutiveLosses, Roi(total, initialCapital), WinRate(trades));
    }
  }

  /**
   * The daily-loss bound is strict: a loss of exactly 3 % of the capital
   * keeps trading, any larger loss halts it.
   */
  lemma DailyLossBoundary(initialCapital: real, extra: real)
    requires extra > 0.0
    ensures WithinLimits(-MaxDailyLoss * initialCapital, initialCapital, 0)
    ensures !WithinLimits(-MaxDailyLoss * initialCapital - extra, initialCapital, 0)
  {
  }

  /** Three losses in a row halt trading whatever the day's total. */
  lemma ThreeLossesHalt(streak: nat, a: real, b: real, c: real, daily: real, initialCapital: real)
    requires a < 0.0 && b < 0.0 && c < 0.0
    ensures !WithinLimits(daily, initialCapital, StreakAfter(streak, [a, b, c]))
  {
    ThreeLossesReachLimit(streak, a, b, c);
  }
}
