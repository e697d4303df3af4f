/**
 * The Python cross-DEX scanner (`ArbitrageFinder.find_opportunity`): quote
 * the same pair on every DEX, buy at the lowest quote, sell at the highest.
 * The profit threshold and slippage come from the configuration and are
 * parameters here.
 */
module ArbitrageFinder {
  import opened Common

  /** `_calculate_usd_profit`'s fixed conversion rate. */
  const UsdPerUnit: real := 0.000001

  /** The `ValueError` `min` raises on an empty quote list. */
  const NoQuotes: string := "min() arg is an empty sequence"

  /** `dex.get_price(token_in, token_out, amount)`. */
  type Quote<!D> = (D, string, string, int) -> int

  datatype Opportunity<D> = Opportunity(buyDex: D, sellDex: D, profitUsd: real, amountIn: int, minOut: int)

  /**
   * `prices.index(min(prices))`: the first position holding the lowest quote.
   * Every quote is at least as high, and every earlier one is strictly higher.
   */
  function ArgMin(s: seq<int>): (i: nat)
    requires |s| > 0
    ensures i < |s| && (forall j :: 0 <= j < |s| ==> s[i] <= s[j]) && (forall j :: 0 <= j < i ==> s[j] > s[i])
  {
    if |s| == 1 then 0
    else
      var k := 1 + ArgMin(s[1..]);
      assert forall j :: 1 <= j < |s| ==> s[j] == s[1..][j - 1];
      if s[0] <= s[k] then 0 else k
  }

  /**
   * `prices.index(max(prices))`: the first position holding the highest
   * quote. Every quote is at most as high, and every earlier one is strictly lower.
   */
  function ArgMax(s: seq<int>): (i: nat)
    requires |s| > 0
    ensures i < |s| && (forall j :: 0 <= j < |s| ==> s[j] <= s[i]) && (forall j :: 0 <= j < i ==> s[j] < s[i])
  {
    if |s| == 1 then 0
    else
      var k := 1 + ArgMax(s[1..]);
      assert forall j :: 1 <= j < |s| ==> s[j] == s[1..][j - 1];
      if s[0] >= s[k] then 0 else k
  }

  /** `int(x)`: truncation toward zero. */
  function Trunc(x: real): int
  {
    if x >= 0.0 then x.Floor else -((-x).Floor)
  }

  /** Truncation never moves a number away from zero, and by less than 1. */
  lemma TruncTowardZero(x: real)
    ensures x >= 0.0 ==> 0 <= Trunc(x) && Trunc(x) as real <= x < Trunc(x) as real + 1.0
    ensures x < 0.0 ==> Trunc(x) as real - 1.0 < x <= Trunc(x) as real && Trunc(x) <= 0
  {
  }

  /** `_calculate_usd_profit`. */
  function UsdProfit(profitAmount: int): real
  {
    profitAmount as real * UsdPerUnit
  }

  /** `int(best_buy * (1 - MAX_SLIPPAGE / 100))`. */
  function MinOut(bestBuy: int, maxSlippage: real): (m: int)
    ensures maxSlippage == 0.0 ==> m == bestBuy
  {
    Trunc(bestBuy as real * (1.0 - maxSlippage / 100.0))
  }

  /** For a non-negative quote and a slippage in [0, 100], the floor lies between 0 and the quote. */
  lemma MinOutBound(bestBuy: int, maxSlippage: real)
    requires bestBuy >= 0 && 0.0 <= maxSlippage <= 100.0
    ensures 0 <= MinOut(bestBuy, maxSlippage) <= bestBuy
    ensures maxSlippage == 0.0 ==> MinOut(bestBuy, maxSlippage) == bestBuy
  {
    var f := 1.0 - maxSlippage / 100.0;
    assert 0.0 <= f <= 1.0;
    var x := bestBuy as real * f;
    assert 0.0 <= x <= bestBuy as real;
    TruncTowardZero(x);
  }

  /** The quotes `asyncio.gather` collects, one per DEX in order. */
  function Prices<D>(dexes: seq<D>, quote: Quote<D>, pair: (string, string), amount: int): (p: seq<int>)
    ensures |p| == |dexes|
  {
    seq(|dexes|, i requires 0 <= i < |dexes| => quote(dexes[i], pair.0, pair.1, amount))
  }

  /** `find_opportunity` over the gathered quotes; `min` raises on an empty list. */
  function FindIn<D>(dexes: seq<D>, prices: seq<int>, amount: int, minProfitThreshold: real, maxSlippage: real)
    : (r: Result<Option<Opportunity<D>>, string>)
    requires |prices| == |dexes|
    ensures r.Err? <==> |dexes| == 0
    ensures r.Ok? && r.value.Some? ==>
      r.value.value.profitUsd > minProfitThreshold && r.value.value.amountIn == amount
      && r.value.value.buyDex in dexes && r.value.value.sellDex in dexes
  {
    if |prices| == 0 then Err(NoQuotes)
    else
      var buy := ArgMin(prices);
      var sell := ArgMax(prices);
      var profitUsd := UsdProfit(prices[sell] - prices[buy]);
      if profitUsd > minProfitThreshold
      then Ok(Some(Opportunity(dexes[buy], dexes[sell], profitUsd, amount, MinOut(prices[buy], maxSlippage))))
      else Ok(None)
  }

  /** `find_opportunity`: gather a quote from every DEX, then pick the spread. */
  function FindOpportunity<D>(dexes: seq<D>, quote: Quote<D>, pair: (string, string), amount: int,
                              minProfitThreshold: real, maxSlippage: real): Result<Option<Opportunity<D>>, string>
  {
    FindIn(dexes, Prices(dexes, quote, pair, amount), amount, minProfitThreshold, maxSlippage)
  }

  /** The spread between the highest and lowest quote is the widest between any two, and is never negative. */
  lemma SpreadIsWidest(prices: seq<int>)
    requires |prices| > 0
    ensures var spread := prices[ArgMax(prices)] - prices[ArgMin(prices)];
      spread >= 0
      && forall i, j :: 0 <= i < |prices| && 0 <= j < |prices| ==> prices[j] - prices[i] <= spread
  {
  }

  /**
   * Without a DEX the call raises. Otherwise a record appears iff the USD
   * value of the spread exceeds the threshold, and then it buys on the first
   * DEX with the lowest quote, sells on the first with the highest, and
   * carries the spread's USD value, the amount and the slippage floor of the
   * lowest quote.
   */
  lemma FindInExact<D>(dexes: seq<D>, prices: seq<int>, amount: int, minProfitThreshold: real, maxSlippage: real)
    requires |prices| == |dexes|
    ensures FindIn(dexes, prices, amount, minProfitThreshold, maxSlippage).Err? <==> |dexes| == 0
    ensures |dexes| > 0 ==>
      var o := FindIn(dexes, prices, amount, minProfitThreshold, maxSlippage).value;
      var b := ArgMin(prices);
      var s := ArgMax(prices);
      (o.Some? <==> UsdProfit(prices[s] - prices[b]) > minProfitThreshold)
      && (o.Some? ==>
        o.value.buyDex == dexes[b] && o.value.sellDex == dexes[s]
        && o.value.profitUsd == UsdProfit(prices[s] - prices[b])
        && o.value.amountIn == amount && o.value.minOut == MinOut(prices[b], maxSlippage))
  {
  }

  /** When every DEX quotes the same, the profit is 0: a record appears only under a negative threshold. */
  lemma EqualQuotesNeedNegativeThreshold<D>(dexes: seq<D>, prices: seq<int>, amount: int,
                                            minProfitThreshold: real, maxSlippage: real)
    requires |prices| == |dexes| > 0
    requires forall i :: 0 <= i < |prices| ==> prices[i] == prices[0]
    ensures FindIn(dexes, prices, amount, minProfitThreshold, maxSlippage).Ok?
    ensures FindIn(dexes, prices, amount, minProfitThreshold, maxSlippage).value.Some? <==> minProfitThreshold < 0.0
    ensures FindIn(dexes, prices, amount, minProfitThreshold, maxSlippage).value.Some? ==>
      FindIn(dexes, prices, amount, minProfitThreshold, maxSlippage).value.value.buyDex == dexes[0]
      && FindIn(dexes, prices, amount, minProfitThreshold, maxSlippage).value.value.sellDex == dexes[0]
  {
    assert ArgMin(prices) == 0 && ArgMax(prices) == 0;
  }
}
