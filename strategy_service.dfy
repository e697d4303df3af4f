/**
 * The multi-strategy detector (`StrategyService`): triangular rotations over
 * three fixed tokens, relative flash-loan spreads and market-making spreads
 * over four fixed pairs, and a pending-transaction sandwich scan, merged by
 * `findOpportunities`. None of its fields is ever updated, so it is modelled
 * as module-level constants and methods.
 */
module StrategyService {
  import opened Common
  import opened Constants
  import opened JsNumber
  import opened Text
  import opened DexService
  import opened ArbitrageService
  import opened Selectors

  /** The records the detectors push. */
  datatype Candidate =
    | TriangularArb(tokens: seq<Token>, profit: Num, confidence: real)
    | FlashLoan(tokenIn: Token, tokenOut: Token, amount: nat, profit: Num, confidence: real)
    | MarketMaking(tokenA: Token, tokenB: Token, bidPrice: Num, askPrice: Num, amount: nat, confidence: real)

  /** What `getOrderbook` answers for a pair. */
  datatype Orderbook = Orderbook(highestBid: real, lowestAsk: real)

  /** A pending transaction as the node reports it; `input` may be absent. */
  datatype PendingTx = PendingTx(hash: string, input: Option<string>)

  /** Why a detector rejected instead of answering. */
  datatype StrategyError =
    | InputMissing     // `tx.input.includes` on an absent input
    | DecodeUndefined  // `this.decodeSwapTransaction` is not a method of this class

  /** `strategies.triangularArbitrage.minProfit`. */
  const TriangularMinProfit: real := 0.002
  /** `strategies.flashLoan.minProfit`. */
  const FlashMinProfit: real := 0.003
  /** `strategies.flashLoan.maxAmount = toWei('1000', 'ether')`. */
  const FlashMaxAmount: nat := 1000 * Ether
  /** `strategies.marketMaking.spreadMin`. */
  const SpreadMin: real := 0.001
  /** `strategies.marketMaking.orderSize = toWei('0.1', 'ether')`. */
  const OrderSize: nat := 100_000_000_000_000_000

  /** The three tokens the triangular rotations cycle through. */
  const RotationTokens: seq<Token> := [WMATIC, USDC, WETH]
  /** `tokens.length`: the number of rotations visited. */
  const RotationCount: nat := 3

  /** `tokenPairs`. */
  const TokenPairs: seq<(Token, Token)> := [(WMATIC, USDC), (WETH, USDC), (WBTC, USDC), (DAI, USDC)]

  /** What the aggregator answers for `(tokenIn, tokenOut, amount)` during one scan. */
  type Quotes = (Token, Token, nat) -> Prices

  // ---------------------------------------------------------------- triangular

  /**
   * The value `calculateTriangularProfit` receives for one hop. The detector
   * passes the whole price Map, which `1 / map` converts to NaN.
   */
  function MapAsNumber(prices: Prices): Num
  {
    NaN
  }

  /** The `i`-th rotation `(t[i], t[(i+1) % 3], t[(i+2) % 3])` of the rotation tokens. */
  function Rotation(i: nat): (r: seq<Token>)
    requires i < 3
    ensures |r| == 3
  {
    [RotationTokens[i], RotationTokens[(i + 1) % 3], RotationTokens[(i + 2) % 3]]
  }

  /** The candidate of rotation `i`, with `hop` reading one hop's prices as a number. */
  function RotationCandidate(i: nat, hop: Prices -> Num, quotes: Quotes): Option<Candidate>
    requires i < 3
  {
    var t := Rotation(i);
    var profit := CalculateTriangularProfit(
      hop(quotes(t[0], t[1], Ether)), hop(quotes(t[1], t[2], Ether)), hop(quotes(t[2], t[0], Ether)));
    if Gt(profit, Finite(TriangularMinProfit)) then Some(TriangularArb(t, profit, 0.9)) else None
  }

  /** The candidates of rotations `0 .. k-1`, in order. */
  function RotationScan(k: nat, hop: Prices -> Num, quotes: Quotes): (r: seq<Candidate>)
    requires k <= 3
    ensures |r| <= k
  {
    if k == 0 then [] else RotationScan(k - 1, hop, quotes) + OptionToList(RotationCandidate(k - 1, hop, quotes))
  }

  function OptionToList(o: Option<Candidate>): seq<Candidate>
  {
    if o.Some? then [o.value] else []
  }

  /**
   * `findTriangularArbitrage`. Each rotation's three hops are fetched for one
   * ether and handed to `calculateTriangularProfit` as the price Maps
   * themselves, so every profit is NaN and nothing is ever pushed.
   */
  method FindTriangularArbitrage(quotes: Quotes) returns (opps: seq<Candidate>)
    ensures opps == RotationScan(RotationCount, MapAsNumber, quotes)
    ensures opps == []
  {
    opps := [];
    var i := 0;
    while i < RotationCount
      invariant 0 <= i <= RotationCount
      invariant opps == RotationScan(i, MapAsNumber, quotes)
    {
      var tokenA := RotationTokens[i];
      var tokenB := RotationTokens[(i + 1) % 3];
      var tokenC := RotationTokens[(i + 2) % 3];
      assert Rotation(i) == [tokenA, tokenB, tokenC];
      var pricesAB := quotes(tokenA, tokenB, Ether);
      var pricesBC := quotes(tokenB, tokenC, Ether);
      var pricesCA := quotes(tokenC, tokenA, Ether);
      var profit := CalculateTriangularProfit(MapAsNumber(pricesAB), MapAsNumber(pricesBC), MapAsNumber(pricesCA));
      if Gt(profit, Finite(TriangularMinProfit)) {
        opps := opps + [TriangularArb([tokenA, tokenB, tokenC], profit, 0.9)];
      }
      i := i + 1;
    }
    TriangularAsWrittenFindsNothing(quotes);
  }

  /** A rotation's candidate carries that rotation and a profit above 0.002. */
  lemma RotationCandidateShape(i: nat, hop: Prices -> Num, quotes: Quotes)
    requires i < 3
    ensures RotationCandidate(i, hop, quotes).Some? ==>
      var c := RotationCandidate(i, hop, quotes).value;
      c.TriangularArb? && c.tokens == Rotation(i) && Gt(c.profit, Finite(TriangularMinProfit))
      && c.profit == CalculateTriangularProfit(hop(quotes(c.tokens[0], c.tokens[1], Ether)),
           hop(quotes(c.tokens[1], c.tokens[2], Ether)), hop(quotes(c.tokens[2], c.tokens[0], Ether)))
  {
  }

  /**
   * The rotation scan holds exactly the candidates of the visited
   * rotations, at most one per rotation.
   */
  lemma {:induction false} RotationScanExact(k: nat, hop: Prices -> Num, quotes: Quotes)
    requires k <= 3
    ensures |RotationScan(k, hop, quotes)| <= k
    ensures forall c :: c in RotationScan(k, hop, quotes) <==>
      exists i :: 0 <= i < k && RotationCandidate(i, hop, quotes) == Some(c)
  {
    if k > 0 {
      RotationScanExact(k - 1, hop, quotes);
      var prev := RotationScan(k - 1, hop, quotes);
      var last := OptionToList(RotationCandidate(k - 1, hop, quotes));
      assert RotationScan(k, hop, quotes) == prev + last;
      forall c
        ensures c in prev + last <==> exists i :: 0 <= i < k && RotationCandidate(i, hop, quotes) == Some(c)
      {
        if c in last {
          assert RotationCandidate(k - 1, hop, quotes) == Some(c);
        }
        if exists i :: 0 <= i < k && RotationCandidate(i, hop, quotes) == Some(c) {
          var i :| 0 <= i < k && RotationCandidate(i, hop, quotes) == Some(c);
          if i < k - 1 {
            assert c in prev;
          } else {
            assert c in last;
          }
        }
      }
    }
  }

  /** The rotations cover each ordered cyclic arrangement of the three tokens once. */
  lemma RotationsAreCyclic()
    ensures Rotation(0) == [WMATIC, USDC, WETH]
    ensures Rotation(1) == [USDC, WETH, WMATIC]
    ensures Rotation(2) == [WETH, WMATIC, USDC]
  {
  }

  /** As written, every hop reads as NaN, so the profit is NaN and no rotation is ever emitted. */
  lemma TriangularAsWrittenFindsNothing(quotes: Quotes)
    ensures RotationScan(RotationCount, MapAsNumber, quotes) == []
  {
    var t := MapAsNumber;
    assert CalculateTriangularProfit(NaN, NaN, NaN) == NaN;
    assert RotationCandidate(0, t, quotes) == None;
    assert RotationCandidate(1, t, quotes) == None;
    assert RotationCandidate(2, t, quotes) == None;
  }

  // ---------------------------------------------------------------- flash loan

  /** `(bestSell - bestBuy) / bestBuy` over one pair's quotes. */
  function FlashProfit(prices: Prices): Num
  {
    Div(Sub(MaxQuote(prices), MinQuote(prices)), MinQuote(prices))
  }

  /** The flash-loan candidate of one pair. */
  function FlashCandidate(tokenA: Token, tokenB: Token, prices: Prices): Option<Candidate>
  {
    var profit := FlashProfit(prices);
    if Gt(profit, Finite(FlashMinProfit)) then Some(FlashLoan(tokenA, tokenB, FlashMaxAmount, profit, 0.85)) else None
  }

  function FlashScan(pairs: seq<(Token, Token)>, quotes: Quotes): (r: seq<Candidate>)
    ensures |r| <= |pairs|
  {
    if pairs == [] then []
    else
      var (a, b) := pairs[|pairs| - 1];
      FlashScan(pairs[..|pairs| - 1], quotes) + OptionToList(FlashCandidate(a, b, quotes(a, b, FlashMaxAmount)))
  }

  /** `findFlashLoanOpportunities`. */
  method FindFlashLoanOpportunities(quotes: Quotes) returns (opps: seq<Candidate>)
    ensures opps == FlashScan(TokenPairs, quotes)
  {
    opps := [];
    var i := 0;
    while i < |TokenPairs|
      invariant 0 <= i <= |TokenPairs|
      invariant opps == FlashScan(TokenPairs[..i], quotes)
    {
      var (tokenA, tokenB) := TokenPairs[i];
      assert TokenPairs[..i + 1][..i] == TokenPairs[..i];
      var prices := quotes(tokenA, tokenB, FlashMaxAmount);
      var bestBuy := MinQuote(prices);
      var bestSell := MaxQuote(prices);
      var profit := Div(Sub(bestSell, bestBuy), bestBuy);
      if Gt(profit, Finite(FlashMinProfit)) {
        opps := opps + [FlashLoan(tokenA, tokenB, FlashMaxAmount, profit, 0.85)];
      }
      i := i + 1;
    }
    assert TokenPairs[..i] == TokenPairs;
  }

  /** No reporting venue: `(-Infinity - Infinity) / Infinity` is NaN and nothing is emitted. */
  lemma FlashEmptyIsNaN(tokenA: Token, tokenB: Token)
    ensures FlashProfit([]) == NaN
    ensures FlashCandidate(tokenA, tokenB, []) == None
  {
  }

  /** On reported quotes both ends are finite and the cheapest is positive. */
  lemma FlashProfitValue(prices: Prices)
    requires prices != [] && WellFormed(prices)
    ensures var lo := FindBestPrices(prices).0.price as real;
      var hi := FindBestPrices(prices).1.price as real;
      lo > 0.0 && FlashProfit(prices) == Finite((hi - lo) / lo)
  {
    var lo := prices[FirstMinIndex(prices)].amountOut as real;
    var hi := prices[LastMaxIndex(prices)].amountOut as real;
    assert prices[FirstMinIndex(prices)] in prices;
    assert lo > 0.0;
    assert MinQuote(prices) == Finite(lo) && MaxQuote(prices) == Finite(hi);
    assert Sub(Finite(hi), Finite(lo)) == Finite(hi - lo);
  }

  /**
   * On reported quotes the flash profit is `(max - min) / min` over the
   * quoted amounts, where min and max bound every quote: it is never
   * negative, and the pair is emitted iff it exceeds 0.003.
   */
  lemma FlashCandidateIff(tokenA: Token, tokenB: Token, prices: Prices)
    requires prices != [] && WellFormed(prices)
    ensures var lo := FindBestPrices(prices).0.price as real;
      var hi := FindBestPrices(prices).1.price as real;
      FlashProfit(prices) == Finite((hi - lo) / lo)
      && (hi - lo) / lo >= 0.0
      && (forall q :: q in prices ==> lo <= q.amountOut as real <= hi)
      && (FlashCandidate(tokenA, tokenB, prices).Some? <==> (hi - lo) / lo > FlashMinProfit)
  {
    FlashProfitValue(prices);
    BestPricesOrdered(prices);
    var lo := FindBestPrices(prices).0.price as real;
    var hi := FindBestPrices(prices).1.price as real;
    NonnegQuotient(hi - lo, lo);
  }

  lemma NonnegQuotient(x: real, y: real)
    requires 0.0 <= x && 0.0 < y
    ensures 0.0 <= x / y
  {
  }

  /** A single venue quotes the same amount on both sides: the profit is zero. */
  lemma FlashSingleVenue(tokenA: Token, tokenB: Token, q: Quote)
    requires q.amountOut > 0
    ensures FlashProfit([q]) == Finite(0.0)
    ensures FlashCandidate(tokenA, tokenB, [q]) == None
  {
  }

  // ---------------------------------------------------------------- market making

  /** `(lowestAsk - highestBid) / highestBid`. */
  function Spread(book: Orderbook): Num
  {
    Div(Sub(Finite(book.lowestAsk), Finite(book.highestBid)), Finite(book.highestBid))
  }

  function MarketCandidate(tokenA: Token, tokenB: Token, book: Orderbook): Option<Candidate>
  {
    if Gt(Spread(book), Finite(SpreadMin)) then
      Some(MarketMaking(tokenA, tokenB, Mul(Finite(book.highestBid), Finite(1.001)),
        Mul(Finite(book.lowestAsk), Finite(0.999)), OrderSize, 0.8))
    else None
  }

  function MarketScan(pairs: seq<(Token, Token)>, books: (Token, Token) -> Orderbook): (r: seq<Candidate>)
    ensures |r| <= |pairs|
  {
    if pairs == [] then []
    else
      var (a, b) := pairs[|pairs| - 1];
      MarketScan(pairs[..|pairs| - 1], books) + OptionToList(MarketCandidate(a, b, books(a, b)))
  }

  /** One more pair extends the scan by that pair's candidate. */
  lemma MarketScanStep(pairs: seq<(Token, Token)>, i: nat, books: (Token, Token) -> Orderbook)
    requires i < |pairs|
    ensures MarketScan(pairs[..i + 1], books)
      == MarketScan(pairs[..i], books) + OptionToList(MarketCandidate(pairs[i].0, pairs[i].1, books(pairs[i].0, pairs[i].1)))
  {
    assert pairs[..i + 1][..i] == pairs[..i];
  }

  /** `findMarketMakingOpportunities`, with `getOrderbook` as the parameter `books`. */
  method FindMarketMakingOpportunities(books: (Token, Token) -> Orderbook) returns (opps: seq<Candidate>)
    ensures opps == MarketScan(TokenPairs, books)
  {
    opps := [];
    var i := 0;
    while i < |TokenPairs|
      invariant 0 <= i <= |TokenPairs|
      invariant opps == MarketScan(TokenPairs[..i], books)
    {
      var (tokenA, tokenB) := TokenPairs[i];
      MarketScanStep(TokenPairs, i, books);
      var orderbook := books(tokenA, tokenB);
      var spread := Div(Sub(Finite(orderbook.lowestAsk), Finite(orderbook.highestBid)), Finite(orderbook.highestBid));
      if Gt(spread, Finite(SpreadMin)) {
        opps := opps + [MarketMaking(tokenA, tokenB, Mul(Finite(orderbook.highestBid), Finite(1.001)),
          Mul(Finite(orderbook.lowestAsk), Finite(0.999)), OrderSize, 0.8)];
      }
      i := i + 1;
    }
    assert TokenPairs[..i] == TokenPairs;
  }

  /** The stub `getOrderbook` of the source: both sides zero. */
  function StubOrderbook(tokenA: Token, tokenB: Token): Orderbook
  {
    Orderbook(0.0, 0.0)
  }

  /** The stub orderbook's spread is `0 / 0`, NaN, which no threshold is below. */
  lemma StubOrderbookNoCandidate(a: Token, b: Token)
    ensures Spread(StubOrderbook(a, b)) == NaN
    ensures MarketCandidate(a, b, StubOrderbook(a, b)) == None
  {
    var zero := Finite(0.0);
    assert StubOrderbook(a, b) == Orderbook(0.0, 0.0);
    assert Sub(zero, zero) == zero;
    assert Div(zero, zero) == NaN;
    assert !Gt(NaN, Finite(SpreadMin));
  }

  /** With the stub orderbook no pair yields a candidate. */
  lemma {:induction false} StubOrderbookYieldsNothing(pairs: seq<(Token, Token)>)
    ensures MarketScan(pairs, StubOrderbook) == []
  {
    if pairs != [] {
      StubOrderbookYieldsNothing(pairs[..|pairs| - 1]);
      var (a, b) := pairs[|pairs| - 1];
      StubOrderbookNoCandidate(a, b);
    }
  }

  /**
   * For a positive bid a pair yields a candidate iff `(ask - bid) / bid`
   * exceeds 0.001, quoting `bid * 1.001` and `ask * 0.999`.
   */
  lemma MarketCandidateIff(tokenA: Token, tokenB: Token, book: Orderbook)
    requires book.highestBid > 0.0
    ensures MarketCandidate(tokenA, tokenB, book).Some? <==>
      (book.lowestAsk - book.highestBid) / book.highestBid > SpreadMin
    ensures MarketCandidate(tokenA, tokenB, book).Some? ==>
      var c := MarketCandidate(tokenA, tokenB, book).value;
      c.MarketMaking? && c.tokenA == tokenA && c.tokenB == tokenB && c.amount == OrderSize
      && c.bidPrice == Finite(book.highestBid * 1.001) && c.askPrice == Finite(book.lowestAsk * 0.999)
  {
  }

  /** A zero bid with a positive ask divides by zero: the spread is +Infinity and the pair is emitted. */
  lemma MarketZeroBidPositiveAsk(tokenA: Token, tokenB: Token, ask: real)
    requires ask > 0.0
    ensures Spread(Orderbook(0.0, ask)) == PosInf
    ensures MarketCandidate(tokenA, tokenB, Orderbook(0.0, ask)).Some?
  {
  }

  // ---------------------------------------------------------------- sandwich and swap detection

  /**
   * `isSwapTransaction`: whether the input contains the selector of one of
   * the four swap methods. `selectorOf` stands for the first ten characters
   * of the method name's hash; an absent input throws.
   */
  function IsSwapTransaction(tx: PendingTx, selectorOf: string -> string): Result<bool, StrategyError>
  {
    if tx.input.None? then Err(InputMissing) else Ok(AnySelectorIn(tx.input.value, SwapMethods, selectorOf))
  }

  /** A present input is a swap iff it contains the selector of a listed swap method. */
  lemma IsSwapTransactionIff(tx: PendingTx, selectorOf: string -> string)
    ensures IsSwapTransaction(tx, selectorOf).Err? <==> tx.input.None?
    ensures tx.input.Some? ==>
      (IsSwapTransaction(tx, selectorOf) == Ok(true) <==>
        exists m, k :: m in SwapMethods && OccursAt(tx.input.value, selectorOf(m), k))
  {
    if tx.input.Some? {
      AnySelectorInIff(tx.input.value, SwapMethods, selectorOf);
    }
  }

  /**
   * The sandwich loop of this class: a transaction without input throws, and
   * a swap reaches `this.decodeSwapTransaction`, which the class does not
   * define, and throws; other transactions are skipped.
   */
  function SandwichScan(txs: seq<PendingTx>, selectorOf: string -> string): (r: Result<seq<Candidate>, StrategyError>)
    ensures r.Ok? ==> r.value == []
  {
    if txs == [] then Ok([])
    else
      match IsSwapTransaction(txs[0], selectorOf)
      case Err(e) => Err(e)
      case Ok(true) => Err(DecodeUndefined)
      case Ok(false) => SandwichScan(txs[1..], selectorOf)
  }

  /** `findSandwichOpportunities`, with the pending transactions as a parameter. */
  method FindSandwichOpportunities(pendingTxs: seq<PendingTx>, selectorOf: string -> string)
    returns (r: Result<seq<Candidate>, StrategyError>)
    ensures r == SandwichScan(pendingTxs, selectorOf)
  {
    var i := 0;
    while i < |pendingTxs|
      invariant 0 <= i <= |pendingTxs|
      invariant SandwichScan(pendingTxs, selectorOf) == SandwichScan(pendingTxs[i..], selectorOf)
    {
      var tx := pendingTxs[i];
      assert pendingTxs[i..][0] == tx && pendingTxs[i..][1..] == pendingTxs[i + 1..];
      if tx.input.None? {
        return Err(InputMissing);
      }
      if AnySelectorIn(tx.input.value, SwapMethods, selectorOf) {
        return Err(DecodeUndefined);
      }
      i := i + 1;
    }
    return Ok([]);
  }

  /**
   * The sandwich scan never yields a candidate: it answers `[]` iff every
   * transaction has an input and none is a swap, and rejects otherwise.
   */
  lemma {:induction false} SandwichScanOutcome(txs: seq<PendingTx>, selectorOf: string -> string)
    ensures SandwichScan(txs, selectorOf).Ok? ==> SandwichScan(txs, selectorOf).value == []
    ensures SandwichScan(txs, selectorOf).Ok? <==>
      forall i :: 0 <= i < |txs| ==> IsSwapTransaction(txs[i], selectorOf) == Ok(false)
  {
    if txs != [] {
      SandwichScanOutcome(txs[1..], selectorOf);
      assert forall i :: 1 <= i < |txs| ==> txs[i] == txs[1..][i - 1];
    }
  }

  // ---------------------------------------------------------------- merge

  /**
   * `findOpportunities`: the four detectors' outputs concatenated in detector
   * order (no detector yields `null`, so the filter keeps everything), or the
   * sandwich scan's rejection, which rejects the whole merge.
   */
  method FindOpportunities(quotes: Quotes, pendingTxs: seq<PendingTx>, selectorOf: string -> string,
                           books: (Token, Token) -> Orderbook)
    returns (r: Result<seq<Candidate>, StrategyError>)
    ensures SandwichScan(pendingTxs, selectorOf).Err? ==> r == Err(SandwichScan(pendingTxs, selectorOf).error)
    ensures SandwichScan(pendingTxs, selectorOf).Ok? ==>
      r == Ok(RotationScan(RotationCount, MapAsNumber, quotes) + FlashScan(TokenPairs, quotes) + MarketScan(TokenPairs, books))
  {
    var triangular := FindTriangularArbitrage(quotes);
    var flash := FindFlashLoanOpportunities(quotes);
    var sandwich := FindSandwichOpportunities(pendingTxs, selectorOf);
    var market := FindMarketMakingOpportunities(books);
    if sandwich.Err? {
      return Err(sandwich.error);
    }
    SandwichScanOutcome(pendingTxs, selectorOf);
    var merged := triangular + flash + sandwich.value + market;
    assert merged == triangular + flash + market;
    r := Ok(merged);
  }

  /** With the stub orderbook the merge holds exactly the flash-loan candidates. */
  lemma MergeWithStubOrderbook(quotes: Quotes)
    ensures RotationScan(RotationCount, MapAsNumber, quotes) + FlashScan(TokenPairs, quotes) + MarketScan(TokenPairs, StubOrderbook)
      == FlashScan(TokenPairs, quotes)
  {
    StubOrderbookYieldsNothing(TokenPairs);
    TriangularAsWrittenFindsNothing(quotes);
  }
}
