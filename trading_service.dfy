/**
 * The trading loop (`tradingService`): a start guard on the initial capital,
 * and a scan that merges the arbitrage and sandwich candidates, sorts them by
 * expected profit (highest first, stably) and executes at most the head.
 */
module TradingService {
  import opened Common
  import opened Constants
  import opened JsNumber
  import ArbitrageService
  import SandwichService

  /** A candidate of the merged list. */
  datatype Offer =
    | ArbitrageOffer(arbitrage: ArbitrageService.Opportunity)
    | SandwichOffer(sandwich: SandwichService.SandwichOpportunity)

  /**
   * The `expectedProfit` the comparator reads. A triangular profit that is
   * not finite reads as zero here; from reported quotes none is ever emitted
   * (`ArbitrageService.TriangularNeverEmits`).
   */
  function Profit(o: Offer): real
  {
    match o
    case ArbitrageOffer(a) =>
      if a.Direct? then a.expectedProfit as real
      else if a.profit.Finite? then a.profit.v else 0.0
    case SandwichOffer(s) => s.expectedProfit as real
  }

  /** A profit read off a candidate. */
  type Key<!T> = T -> real

  /** Highest profit first. */
  predicate SortedDesc<T>(s: seq<T>, key: Key<T>)
  {
    forall i, j :: 0 <= i < j < |s| ==> key(s[i]) >= key(s[j])
  }

  /** Puts `x` after every element whose profit is at least its own. */
  function Insert<T>(x: T, t: seq<T>, key: Key<T>): (r: seq<T>)
    ensures |r| == |t| + 1
  {
    if t == [] then [x]
    else if key(t[0]) < key(x) then [x] + t
    else [t[0]] + Insert(x, t[1..], key)
  }

  /** `sort((a, b) => b.expectedProfit - a.expectedProfit)`: a stable descending sort. */
  function SortByProfit<T>(s: seq<T>, key: Key<T>): (r: seq<T>)
    ensures |r| == |s|
  {
    if s == [] then [] else Insert(s[|s| - 1], SortByProfit(s[..|s| - 1], key), key)
  }

  /** The elements of `s` whose profit is `v`, in order. */
  function WithProfit<T>(s: seq<T>, key: Key<T>, v: real): seq<T>
  {
    if s == [] then []
    else WithProfit(s[..|s| - 1], key, v) + (if key(s[|s| - 1]) == v then [s[|s| - 1]] else [])
  }

  /** Inserting adds exactly `x`. */
  lemma {:induction false} InsertPermutes<T>(x: T, t: seq<T>, key: Key<T>)
    ensures multiset(Insert(x, t, key)) == multiset(t) + multiset{x}
    ensures |Insert(x, t, key)| == |t| + 1
    decreases |t|
  {
    if t != [] && key(t[0]) >= key(x) {
      InsertPermutes(x, t[1..], key);
      assert t == [t[0]] + t[1..];
    }
  }

  /** Inserting brings in no element other than `x`. */
  lemma {:induction false} InsertMembers<T>(x: T, t: seq<T>, key: Key<T>)
    ensures forall y :: y in Insert(x, t, key) ==> y in t || y == x
    decreases |t|
  {
    if t != [] && key(t[0]) >= key(x) {
      InsertMembers(x, t[1..], key);
    }
  }

  /** A sorted list headed by an element at least as large as all the rest. */
  lemma ConsSorted<T>(a: T, r: seq<T>, key: Key<T>)
    requires SortedDesc(r, key)
    requires forall y :: y in r ==> key(a) >= key(y)
    ensures SortedDesc([a] + r, key)
  {
    var s := [a] + r;
    forall i, j | 0 <= i < j < |s|
      ensures key(s[i]) >= key(s[j])
    {
      assert s[j] == r[j - 1];
      if i > 0 {
        assert s[i] == r[i - 1];
      }
    }
  }

  /** Inserting into a sorted list keeps it sorted. */
  lemma {:induction false} InsertSorted<T>(x: T, t: seq<T>, key: Key<T>)
    requires SortedDesc(t, key)
    ensures SortedDesc(Insert(x, t, key), key)
    decreases |t|
  {
    if t == [] {
    } else if key(t[0]) < key(x) {
      ConsSorted(x, t, key);
    } else {
      var rest := Insert(x, t[1..], key);
      InsertSorted(x, t[1..], key);
      InsertMembers(x, t[1..], key);
      assert forall y :: y in t[1..] ==> key(t[0]) >= key(y);
      ConsSorted(t[0], rest, key);
    }
  }

  /** The sort orders by profit, highest first, and is a permutation of its input. */
  lemma {:induction false} SortByProfitCorrect<T>(s: seq<T>, key: Key<T>)
    ensures SortedDesc(SortByProfit(s, key), key)
    ensures multiset(SortByProfit(s, key)) == multiset(s)
    ensures |SortByProfit(s, key)| == |s|
  {
    if s != [] {
      var init := s[..|s| - 1];
      SortByProfitCorrect(init, key);
      InsertSorted(s[|s| - 1], SortByProfit(init, key), key);
      InsertPermutes(s[|s| - 1], SortByProfit(init, key), key);
      assert s == init + [s[|s| - 1]];
    }
  }

  /** Inserting into a sorted list keeps the relative order of equal-profit elements, `x` last among them. */
  lemma {:induction false} InsertStable<T>(x: T, t: seq<T>, key: Key<T>, v: real)
    requires SortedDesc(t, key)
    ensures WithProfit(Insert(x, t, key), key, v) == WithProfit(t, key, v) + (if key(x) == v then [x] else [])
    decreases |t|
  {
    if t == [] {
      assert Insert(x, t, key) == [x];
      assert [x][..0] == [];
    } else if key(t[0]) < key(x) {
      WithProfitPrepend(x, t, key, v);
      if key(x) == v {
        NoneWithProfit(t, key, v);
      }
    } else {
      InsertStable(x, t[1..], key, v);
      WithProfitPrepend(t[0], Insert(x, t[1..], key), key, v);
      WithProfitPrepend(t[0], t[1..], key, v);
      assert t == [t[0]] + t[1..];
    }
  }

  /** A sorted list whose head is below `v` has no element of profit `v`. */
  lemma {:induction false} NoneWithProfit<T>(t: seq<T>, key: Key<T>, v: real)
    requires SortedDesc(t, key) && t != [] && key(t[0]) < v
    ensures WithProfit(t, key, v) == []
  {
    var init := t[..|t| - 1];
    if init != [] {
      NoneWithProfit(init, key, v);
    }
    assert key(t[0]) >= key(t[|t| - 1]) || |t| == 1;
  }

  /** Selecting by profit distributes over putting an element in front. */
  lemma {:induction false} WithProfitPrepend<T>(y: T, t: seq<T>, key: Key<T>, v: real)
    ensures WithProfit([y] + t, key, v) == (if key(y) == v then [y] else []) + WithProfit(t, key, v)
    decreases |t|
  {
    if t != [] {
      var init := t[..|t| - 1];
      WithProfitPrepend(y, init, key, v);
      assert ([y] + t)[..|[y] + t| - 1] == [y] + init;
    } else {
      assert [y] + t == [y];
      assert [y][..0] == [];
    }
  }

  /** The sort is stable: candidates of equal profit keep their merged order. */
  lemma {:induction false} SortByProfitStable<T>(s: seq<T>, key: Key<T>, v: real)
    ensures WithProfit(SortByProfit(s, key), key, v) == WithProfit(s, key, v)
  {
    if s != [] {
      var init := s[..|s| - 1];
      SortByProfitStable(init, key, v);
      SortByProfitCorrect(init, key);
      InsertStable(s[|s| - 1], SortByProfit(init, key), key, v);
    }
  }

  /** The candidate a scan executes: the head of the ranking, when its profit is positive. */
  function BestOffer(ranked: seq<Offer>): Option<Offer>
  {
    if |ranked| > 0 && Profit(ranked[0]) > 0.0 then Some(ranked[0]) else None
  }

  /**
   * A scan executes a candidate iff some candidate has a positive profit;
   * the executed one has the highest profit of all.
   */
  lemma ScanPicksBest(merged: seq<Offer>)
    ensures BestOffer(SortByProfit(merged, Profit)).Some? <==> exists o :: o in merged && Profit(o) > 0.0
    ensures BestOffer(SortByProfit(merged, Profit)).Some? ==>
      var b := BestOffer(SortByProfit(merged, Profit)).value;
      b in merged && forall o :: o in merged ==> Profit(o) <= Profit(b)
  {
    var ranked := SortByProfit(merged, Profit);
    SortByProfitCorrect(merged, Profit);
    forall o | o in merged
      ensures o in ranked && Profit(o) <= Profit(ranked[0])
    {
      assert o in multiset(merged);
      var k :| 0 <= k < |ranked| && ranked[k] == o;
    }
    if |ranked| > 0 {
      assert ranked[0] in multiset(ranked);
    }
  }

  /** `Minimum capital requirement is ${MIN_CAPITAL} MATIC`. */
  const CapitalError: string := "Minimum capital requirement is 10 MATIC"

  /** The module-level state of `tradingService.js`. */
  class TradingService {
    var isRunning: bool
    var capital: real
    /** Scan timers scheduled by `setInterval`; none is ever cleared. */
    var scanTimers: nat

    constructor ()
      ensures !isRunning && capital == 0.0 && scanTimers == 0
    {
      isRunning := false;
      capital := 0.0;
      scanTimers := 0;
    }

    /**
     * `startTrading`: a no-op while running; rejects a capital below 10 with
     * no change; otherwise runs with that capital and schedules one more scan
     * timer.
     */
    method StartTrading(initialCapital: real) returns (r: Result<(), string>)
      modifies this
      ensures old(isRunning) ==> r == Ok(()) && isRunning && capital == old(capital) && scanTimers == old(scanTimers)
      ensures !old(isRunning) && initialCapital < MinCapital ==>
        r == Err(CapitalError) && !isRunning && capital == old(capital) && scanTimers == old(scanTimers)
      ensures !old(isRunning) && initialCapital >= MinCapital ==>
        r == Ok(()) && isRunning && capital == initialCapital && scanTimers == old(scanTimers) + 1
    {
      if isRunning {
        return Ok(());
      }
      if initialCapital < MinCapital {
        return Err(CapitalError);
      }
      isRunning := true;
      capital := initialCapital;
      scanTimers := scanTimers + 1;
      return Ok(());
    }

    /**
     * `scanOpportunities`, with the two finders' answers as parameters and
     * the executed candidate as the result. Nothing is executed when stopped;
     * a failed execution is swallowed, so no state changes either way.
     */
    method ScanOpportunities(arbitrageOpps: seq<ArbitrageService.Opportunity>,
                             sandwichOpps: seq<SandwichService.SandwichOpportunity>)
      returns (executed: Option<Offer>)
      ensures !isRunning ==> executed == None
      ensures isRunning ==> executed == BestOffer(SortByProfit(Merge(arbitrageOpps, sandwichOpps), Profit))
    {
      if !isRunning {
        return None;
      }
      var all := SortByProfit(Merge(arbitrageOpps, sandwichOpps), Profit);
      executed := None;
      if |all| > 0 {
        var bestOpp := all[0];
        if Profit(bestOpp) > 0.0 {
          executed := Some(bestOpp);
        }
      }
    }

    /** `stopTrading`: clears `isRunning`; the capital and the timers stay. */
    method StopTrading()
      modifies this
      ensures !isRunning && capital == old(capital) && scanTimers == old(scanTimers)
    {
      isRunning := false;
    }
  }

  /** `[...arbitrageOpps, ...sandwichOpps]`. */
  function Merge(arbitrageOpps: seq<ArbitrageService.Opportunity>,
                 sandwichOpps: seq<SandwichService.SandwichOpportunity>): (m: seq<Offer>)
    ensures |m| == |arbitrageOpps| + |sandwichOpps|
    ensures forall i :: 0 <= i < |arbitrageOpps| ==> m[i] == ArbitrageOffer(arbitrageOpps[i])
    ensures forall i :: 0 <= i < |sandwichOpps| ==> m[|arbitrageOpps| + i] == SandwichOffer(sandwichOpps[i])
  {
    seq(|arbitrageOpps|, i requires 0 <= i < |arbitrageOpps| => ArbitrageOffer(arbitrageOpps[i]))
      + seq(|sandwichOpps|, i requires 0 <= i < |sandwichOpps| => SandwichOffer(sandwichOpps[i]))
  }
}
