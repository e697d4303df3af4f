/**
 * The arbitrage scanner (`ArbitrageService`): direct arbitrage over every
 * ordered pair of distinct tokens, and triangular arbitrage over four fixed
 * three-token paths, both on the aggregator's quotes for one ether.
 */
module ArbitrageService {
  import opened Common
  import opened Constants
  import opened JsNumber
  import opened DexService

  /** The records `findArbitrageOpportunities` pushes. */
  datatype Opportunity =
    | Direct(tokenA: Token, tokenB: Token, buyDex: string, sellDex: string, expectedProfit: int, amount: nat)
    | Triangular(path: seq<Token>, profit: Num, amount: nat)

  /** The two ends of `findBestPrices`. */
  datatype Side = Side(dex: string, price: nat)

  /** `toWei('1', 'ether')`: the probe amount. */
  const ProbeAmount: nat := Ether
  /** `toWei('0.003', 'ether')`: the flat fee of `calculateProfit`. */
  const FeeWei: int := 3_000_000_000_000_000
  /** `(1 - 0.003) ** 3`: three hops at 0.3 % each. */
  const FeeFactor: real := 0.997 * 0.997 * 0.997

  /** The configured `triangularPaths`. */
  const TriangularPaths: seq<seq<Token>> := [
    [WMATIC, USDC, WETH],
    [WETH, USDC, WBTC],
    [WMATIC, USDT, WETH],
    [DAI, USDC, USDT]
  ]

  /** The first position of a smallest quote: where a stable ascending sort puts its head. */
  function FirstMinIndex(prices: Prices): (k: nat)
    requires |prices| >= 1
    ensures k < |prices|
    ensures forall i :: 0 <= i < |prices| ==> prices[k].amountOut <= prices[i].amountOut
    ensures forall i :: 0 <= i < k ==> prices[i].amountOut > prices[k].amountOut
  {
    if |prices| == 1 then 0
    else
      var k := FirstMinIndex(prices[..|prices| - 1]);
      if prices[|prices| - 1].amountOut < prices[k].amountOut then |prices| - 1 else k
  }

  /** The last position of a largest quote: where a stable ascending sort puts its tail. */
  function LastMaxIndex(prices: Prices): (k: nat)
    requires |prices| >= 1
    ensures k < |prices|
    ensures forall i :: 0 <= i < |prices| ==> prices[i].amountOut <= prices[k].amountOut
    ensures forall i :: k < i < |prices| ==> prices[i].amountOut < prices[k].amountOut
  {
    if |prices| == 1 then 0
    else
      var k := LastMaxIndex(prices[..|prices| - 1]);
      if prices[|prices| - 1].amountOut >= prices[k].amountOut then |prices| - 1 else k
  }

  /**
   * `findBestPrices`: sorting the entries by price (a stable sort) and taking
   * both ends gives the first cheapest venue as the buy side and the last
   * dearest venue as the sell side.
   */
  function FindBestPrices(prices: Prices): (r: (Side, Side))
    requires |prices| >= 1
    ensures r.0.price <= r.1.price
  {
    var b := prices[FirstMinIndex(prices)];
    var s := prices[LastMaxIndex(prices)];
    (Side(b.dex, b.amountOut), Side(s.dex, s.amountOut))
  }

  /** The buy side is a cheapest quote and the sell side a dearest one, so buy never exceeds sell. */
  lemma BestPricesOrdered(prices: Prices)
    requires |prices| >= 1
    ensures var (buy, sell) := FindBestPrices(prices);
      (forall q :: q in prices ==> buy.price <= q.amountOut <= sell.price)
      && buy.price <= sell.price
      && Quote(buy.dex, buy.price) in prices && Quote(sell.dex, sell.price) in prices
  {
    var (buy, sell) := FindBestPrices(prices);
    forall q | q in prices
      ensures buy.price <= q.amountOut <= sell.price
    {
      var i :| 0 <= i < |prices| && prices[i] == q;
    }
  }

  /** `calculateProfit`: the spread less a flat fee of 0.003 ether. */
  function CalculateProfit(buyPrice: nat, sellPrice: nat): (p: int)
    ensures p > 0 ==> buyPrice < sellPrice
  {
    sellPrice - buyPrice - FeeWei
  }

  /**
   * A profit is positive exactly when the spread beats the 0.003 ether fee;
   * it is the spread net of that fee, so never above the raw spread.
   */
  lemma CalculateProfitNetsFee(buyPrice: nat, sellPrice: nat)
    ensures CalculateProfit(buyPrice, sellPrice) > 0 <==> sellPrice - buyPrice > 3_000_000_000_000_000
    ensures CalculateProfit(buyPrice, sellPrice) + FeeWei == sellPrice - buyPrice
    ensures CalculateProfit(buyPrice, sellPrice) < sellPrice - buyPrice
  {
  }

  /** The direct candidate for one ordered pair, as the inner loop body decides it. */
  function DirectCandidate(tokenA: Token, tokenB: Token, prices: Prices): Option<Opportunity>
  {
    if |prices| < 2 then None
    else
      var (buy, sell) := FindBestPrices(prices);
      var profit := CalculateProfit(buy.price, sell.price);
      if profit > MinProfitWei as int then Some(Direct(tokenA, tokenB, buy.dex, sell.dex, profit, ProbeAmount))
      else None
  }

  /**
   * A pair yields a direct opportunity iff at least two venues reported and
   * the best spread less the fee exceeds `toWei(0.0005)`; it then carries the
   * cheapest venue as buy side, the dearest as sell side and one ether.
   */
  lemma DirectCandidateIff(tokenA: Token, tokenB: Token, prices: Prices)
    ensures DirectCandidate(tokenA, tokenB, prices).Some? <==>
      |prices| >= 2
      && CalculateProfit(FindBestPrices(prices).0.price, FindBestPrices(prices).1.price) > MinProfitWei as int
    ensures DirectCandidate(tokenA, tokenB, prices).Some? ==>
      var o := DirectCandidate(tokenA, tokenB, prices).value;
      o.Direct? && o.tokenA == tokenA && o.tokenB == tokenB && o.amount == Ether
      && o.buyDex == FindBestPrices(prices).0.dex && o.sellDex == FindBestPrices(prices).1.dex
      && o.expectedProfit > MinProfitWei as int
      && (forall q :: q in prices ==> q.amountOut - FindBestPrices(prices).0.price <= o.expectedProfit + FeeWei)
  {
    if |prices| >= 2 {
      BestPricesOrdered(prices);
    }
  }

  function OptionToSeq(o: Option<Opportunity>): seq<Opportunity>
  {
    if o.Some? then [o.value] else []
  }

  /** The inner loop over `tokenB`, for one `tokenA`. */
  function DirectRow(tokenA: Token, bs: seq<Token>, pricesOf: (Token, Token) -> Prices): seq<Opportunity>
  {
    if bs == [] then []
    else
      var b := bs[|bs| - 1];
      DirectRow(tokenA, bs[..|bs| - 1], pricesOf)
        + (if tokenA == b then [] else OptionToSeq(DirectCandidate(tokenA, b, pricesOf(tokenA, b))))
  }

  /** One more `tokenB` extends the row by that pair's candidate, unless the pair is `tokenA` with itself. */
  lemma DirectRowStep(tokenA: Token, tokens: seq<Token>, j: nat, pricesOf: (Token, Token) -> Prices)
    requires j < |tokens|
    ensures DirectRow(tokenA, tokens[..j + 1], pricesOf) == DirectRow(tokenA, tokens[..j], pricesOf)
      + (if tokenA == tokens[j] then [] else OptionToSeq(DirectCandidate(tokenA, tokens[j], pricesOf(tokenA, tokens[j]))))
  {
    assert tokens[..j + 1][..j] == tokens[..j];
  }

  /** The outer loop over `tokenA`. */
  function DirectScan(as_: seq<Token>, tokens: seq<Token>, pricesOf: (Token, Token) -> Prices): seq<Opportunity>
  {
    if as_ == [] then []
    else DirectScan(as_[..|as_| - 1], tokens, pricesOf) + DirectRow(as_[|as_| - 1], tokens, pricesOf)
  }

  /** `Math.min(...prices.values())`: +Infinity for an empty Map. */
  function MinQuote(prices: Prices): Num
  {
    if prices == [] then PosInf else OfNat(prices[FirstMinIndex(prices)].amountOut)
  }

  /** `Math.max(...prices.values())`: -Infinity for an empty Map. */
  function MaxQuote(prices: Prices): Num
  {
    if prices == [] then NegInf else OfNat(prices[LastMaxIndex(prices)].amountOut)
  }

  /** `calculateTriangularProfit`: `(1/pAB)(1/pBC)(1/pCA)(1 - 0.003)^3 - 1` in JavaScript arithmetic. */
  function CalculateTriangularProfit(pAB: Num, pBC: Num, pCA: Num): Num
  {
    var one := Finite(1.0);
    Sub(Mul(Mul(Mul(Div(one, pAB), Div(one, pBC)), Div(one, pCA)), Finite(FeeFactor)), one)
  }

  /** A hop priced `NaN` makes the whole profit `NaN`, which no threshold comparison accepts. */
  lemma TriangularProfitNaN(pAB: Num, pBC: Num, pCA: Num)
    requires pAB.NaN? || pBC.NaN? || pCA.NaN?
    ensures CalculateTriangularProfit(pAB, pBC, pCA).NaN?
    ensures !Gt(CalculateTriangularProfit(pAB, pBC, pCA), OfNat(MinProfitWei))
  {
  }

  /** On finite non-zero prices the triangular profit is the exact formula. */
  lemma TriangularProfitFinite(a: real, b: real, c: real)
    requires a != 0.0 && b != 0.0 && c != 0.0
    ensures CalculateTriangularProfit(Finite(a), Finite(b), Finite(c))
      == Finite((1.0 / a) * (1.0 / b) * (1.0 / c) * FeeFactor - 1.0)
  {
  }

  /** `checkTriangularArbitrage`: the cheapest quote of each hop, emitted iff the profit exceeds the wei threshold. */
  function CheckTriangular(path: seq<Token>, pricesOf: (Token, Token) -> Prices): Option<Opportunity>
    requires |path| == 3
  {
    var profit := CalculateTriangularProfit(
      MinQuote(pricesOf(path[0], path[1])),
      MinQuote(pricesOf(path[1], path[2])),
      MinQuote(pricesOf(path[2], path[0])));
    if Gt(profit, OfNat(MinProfitWei)) then Some(Triangular(path, profit, ProbeAmount)) else None
  }

  predicate ThreeHops(paths: seq<seq<Token>>)
  {
    forall p :: p in paths ==> |p| == 3
  }

  /** The loop over `triangularPaths`. */
  function TriangularScan(paths: seq<seq<Token>>, pricesOf: (Token, Token) -> Prices): seq<Opportunity>
    requires ThreeHops(paths)
  {
    if paths == [] then []
    else TriangularScan(paths[..|paths| - 1], pricesOf) + OptionToSeq(CheckTriangular(paths[|paths| - 1], pricesOf))
  }

  lemma TriangularPathsHaveThreeHops()
    ensures ThreeHops(TriangularPaths)
  {
  }

  /** One more path extends the scan by that path's candidate. */
  lemma TriangularScanStep(paths: seq<seq<Token>>, k: nat, pricesOf: (Token, Token) -> Prices)
    requires ThreeHops(paths) && k < |paths|
    ensures ThreeHops(paths[..k]) && ThreeHops(paths[..k + 1])
    ensures TriangularScan(paths[..k + 1], pricesOf)
      == TriangularScan(paths[..k], pricesOf) + OptionToSeq(CheckTriangular(paths[k], pricesOf))
  {
    assert paths[..k + 1][..k] == paths[..k];
    assert paths[k] in paths;
  }

  /** A hop price as whole-wei quotes give it: at least one, or +Infinity for a hop nobody quoted. */
  predicate AtLeastOne(p: Num)
  {
    p == PosInf || (p.Finite? && p.v >= 1.0)
  }

  lemma ReciprocalAtMostOne(p: Num)
    requires AtLeastOne(p)
    ensures Div(Finite(1.0), p).Finite?
    ensures 0.0 <= Div(Finite(1.0), p).v <= 1.0
  {
  }

  lemma MulMonotone(a: real, b: real, c: real)
    requires a <= b && 0.0 <= c
    ensures a * c <= b * c
  {
  }

  lemma ProductAtMostOne(x: real, y: real, z: real)
    requires 0.0 <= x <= 1.0 && 0.0 <= y <= 1.0 && 0.0 <= z <= 1.0
    ensures 0.0 <= x * y * z <= 1.0
  {
    var xy := x * y;
    MulMonotone(x, 1.0, y);
    assert xy <= 1.0 * y;
    assert 1.0 * y == y;
    MulMonotone(0.0, x, y);
    assert 0.0 * y <= xy;
    assert 0.0 * y == 0.0;
    MulMonotone(xy, 1.0, z);
    assert xy * z <= 1.0 * z;
    assert 1.0 * z == z;
    MulMonotone(0.0, xy, z);
    assert 0.0 * z <= xy * z;
    assert 0.0 * z == 0.0;
    assert 0.0 <= xy * z <= 1.0;
    assert x * y * z == xy * z;
    assert 0.0 <= x * y * z <= 1.0;
  }

  /** With every hop price at least one, the triangular profit is a finite negative number. */
  lemma TriangularProfitNegative(a: Num, b: Num, c: Num)
    requires AtLeastOne(a) && AtLeastOne(b) && AtLeastOne(c)
    ensures CalculateTriangularProfit(a, b, c).Finite?
    ensures CalculateTriangularProfit(a, b, c).v < 0.0
  {
    var one := Finite(1.0);
    ReciprocalAtMostOne(a);
    ReciprocalAtMostOne(b);
    ReciprocalAtMostOne(c);
    var ra, rb, rc := Div(one, a), Div(one, b), Div(one, c);
    var x, y, z := ra.v, rb.v, rc.v;
    assert CalculateTriangularProfit(a, b, c) == Sub(Mul(Mul(Mul(ra, rb), rc), Finite(FeeFactor)), one);
    assert Mul(ra, rb) == Finite(x * y);
    assert Mul(Finite(x * y), rc) == Finite(x * y * z);
    assert Mul(Finite(x * y * z), Finite(FeeFactor)) == Finite(x * y * z * FeeFactor);
    ProductAtMostOne(x, y, z);
    MulMonotone(x * y * z, 1.0, FeeFactor);
  }

  lemma MinQuoteAtLeastOne(prices: Prices)
    requires WellFormed(prices)
    ensures AtLeastOne(MinQuote(prices))
  {
    if prices != [] {
      assert prices[FirstMinIndex(prices)] in prices;
    }
  }

  /**
   * With whole-wei quotes the rate of every hop is at most one, so the
   * triangular profit is below zero (never above `toWei(0.0005)`): the
   * triangular path compares a relative return with an absolute threshold.
   */
  lemma TriangularNeverEmits(path: seq<Token>, pricesOf: (Token, Token) -> Prices)
    requires |path| == 3
    requires WellFormed(pricesOf(path[0], path[1]))
    requires WellFormed(pricesOf(path[1], path[2]))
    requires WellFormed(pricesOf(path[2], path[0]))
    ensures CheckTriangular(path, pricesOf).None?
  {
    MinQuoteAtLeastOne(pricesOf(path[0], path[1]));
    MinQuoteAtLeastOne(pricesOf(path[1], path[2]));
    MinQuoteAtLeastOne(pricesOf(path[2], path[0]));
    TriangularProfitNegative(
      MinQuote(pricesOf(path[0], path[1])),
      MinQuote(pricesOf(path[1], path[2])),
      MinQuote(pricesOf(path[2], path[0])));
  }

  class ArbitrageService {
    var isRunning: bool
    /** Whether the `setInterval` scan timer is scheduled. */
    var scanTimerActive: bool

    constructor ()
      ensures !isRunning && !scanTimerActive
    {
      isRunning := false;
      scanTimerActive := false;
    }

    /**
     * `findArbitrageOpportunities`: nothing when stopped; otherwise the direct
     * candidates of every ordered pair of distinct tokens, in loop order, then
     * the triangular candidates of every path. `pricesOf` is what the
     * aggregator answered for each pair during this scan.
     */
    method FindArbitrageOpportunities(pricesOf: (Token, Token) -> Prices) returns (opps: seq<Opportunity>)
      ensures !isRunning ==> opps == []
      ensures isRunning ==> opps == DirectScan(AllTokens, AllTokens, pricesOf)
                                    + TriangularScan(TriangularPaths, pricesOf)
    {
      if !isRunning {
        return [];
      }
      var tokens := AllTokens;
      opps := [];
      var i := 0;
      while i < |tokens|
        invariant 0 <= i <= |tokens|
        invariant opps == DirectScan(tokens[..i], tokens, pricesOf)
      {
        var row := ScanPairsFrom(tokens[i], tokens, pricesOf);
        opps := opps + row;
        assert tokens[..i + 1][..i] == tokens[..i];
        i := i + 1;
      }
      assert tokens[..i] == tokens;
      var triangular := ScanTriangularPaths(pricesOf);
      opps := opps + triangular;
    }

    /** The inner loop of the direct scan: every `tokenB` for one `tokenA`. */
    method ScanPairsFrom(tokenA: Token, tokens: seq<Token>, pricesOf: (Token, Token) -> Prices)
      returns (row: seq<Opportunity>)
      ensures row == DirectRow(tokenA, tokens, pricesOf)
    {
      row := [];
      var j := 0;
      while j < |tokens|
        invariant 0 <= j <= |tokens|
        invariant row == DirectRow(tokenA, tokens[..j], pricesOf)
      {
        var tokenB := tokens[j];
        DirectRowStep(tokenA, tokens, j, pricesOf);
        if tokenA != tokenB {
          var prices := pricesOf(tokenA, tokenB);
          if |prices| >= 2 {
            var best := FindBestPrices(prices);
            var profit := CalculateProfit(best.0.price, best.1.price);
            if profit > MinProfitWei as int {
              row := row + [Direct(tokenA, tokenB, best.0.dex, best.1.dex, profit, ProbeAmount)];
            }
          }
        }
        j := j + 1;
      }
      assert tokens[..j] == tokens;
    }

    /** The loop over `triangularPaths`. */
    method ScanTriangularPaths(pricesOf: (Token, Token) -> Prices) returns (found: seq<Opportunity>)
      ensures found == TriangularScan(TriangularPaths, pricesOf)
    {
      var paths := TriangularPaths;
      TriangularPathsHaveThreeHops();
      found := [];
      var k := 0;
      while k < |paths|
        invariant 0 <= k <= |paths|
        invariant found == TriangularScan(paths[..k], pricesOf)
      {
        TriangularScanStep(paths, k, pricesOf);
        var opp := CheckTriangular(paths[k], pricesOf);
        if opp.Some? {
          found := found + [opp.value];
        }
        k := k + 1;
      }
      assert paths[..k] == paths;
    }

    /** `start`: a no-op when already running; otherwise runs and schedules the scan timer. */
    method Start()
      modifies this
      ensures old(isRunning) ==> isRunning == old(isRunning) && scanTimerActive == old(scanTimerActive)
      ensures !old(isRunning) ==> isRunning && scanTimerActive
    {
      if isRunning {
        return;
      }
      isRunning := true;
      scanTimerActive := true;
    }

    /** `stop`: clears `isRunning` and cancels the scan timer. */
    method Stop()
      modifies this
      ensures !isRunning && !scanTimerActive
    {
      isRunning := false;
      scanTimerActive := false;
    }
  }

  /** Every direct opportunity of a row is for a distinct pair and clears the threshold. */
  lemma {:induction false} DirectRowSound(tokenA: Token, bs: seq<Token>, pricesOf: (Token, Token) -> Prices)
    ensures forall o :: o in DirectRow(tokenA, bs, pricesOf) ==>
      o.Direct? && o.tokenA == tokenA && o.tokenB in bs && o.tokenB != tokenA
      && |pricesOf(tokenA, o.tokenB)| >= 2 && o.expectedProfit > MinProfitWei as int
      && DirectCandidate(tokenA, o.tokenB, pricesOf(tokenA, o.tokenB)) == Some(o)
  {
    if bs != [] {
      var init := bs[..|bs| - 1];
      var b := bs[|bs| - 1];
      DirectRowSound(tokenA, init, pricesOf);
      assert bs == init + [b];
      if tokenA != b {
        DirectCandidateIff(tokenA, b, pricesOf(tokenA, b));
      }
    }
  }

  /** Every ordered pair of distinct row tokens whose candidate exists is in the row. */
  lemma {:induction false} DirectRowComplete(tokenA: Token, bs: seq<Token>, pricesOf: (Token, Token) -> Prices, b: Token)
    requires b in bs && b != tokenA
    requires DirectCandidate(tokenA, b, pricesOf(tokenA, b)).Some?
    ensures DirectCandidate(tokenA, b, pricesOf(tokenA, b)).value in DirectRow(tokenA, bs, pricesOf)
  {
    var init := bs[..|bs| - 1];
    assert bs == init + [bs[|bs| - 1]];
    if b != bs[|bs| - 1] {
      DirectRowComplete(tokenA, init, pricesOf, b);
    }
  }

  /**
   * The direct scan emits an opportunity for an ordered pair `(a, b)` of
   * scanned tokens iff `a != b` and the pair's candidate exists.
   */
  lemma {:induction false} DirectScanExact(as_: seq<Token>, tokens: seq<Token>, pricesOf: (Token, Token) -> Prices)
    ensures forall o :: o in DirectScan(as_, tokens, pricesOf) ==>
      o.Direct? && o.tokenA in as_ && o.tokenB in tokens && o.tokenA != o.tokenB
      && |pricesOf(o.tokenA, o.tokenB)| >= 2 && o.expectedProfit > MinProfitWei as int
      && DirectCandidate(o.tokenA, o.tokenB, pricesOf(o.tokenA, o.tokenB)) == Some(o)
    ensures forall a, b :: a in as_ && b in tokens && a != b && DirectCandidate(a, b, pricesOf(a, b)).Some? ==>
      DirectCandidate(a, b, pricesOf(a, b)).value in DirectScan(as_, tokens, pricesOf)
  {
    if as_ != [] {
      var init := as_[..|as_| - 1];
      var a := as_[|as_| - 1];
      assert as_ == init + [a];
      DirectScanExact(init, tokens, pricesOf);
      DirectRowSound(a, tokens, pricesOf);
      forall a', b | a' in as_ && b in tokens && a' != b && DirectCandidate(a', b, pricesOf(a', b)).Some?
        ensures DirectCandidate(a', b, pricesOf(a', b)).value in DirectScan(as_, tokens, pricesOf)
      {
        if a' == a {
          DirectRowComplete(a, tokens, pricesOf, b);
        }
      }
    }
  }
}
