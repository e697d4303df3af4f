# A verified model of the trading bot's opportunity pipeline

The repository is a multi-venue trading bot. Its JavaScript services
(Polygon) do four things:

- quote pairs across five DEX routers;
- look for direct, triangular, flash-loan, sandwich and market-making
  opportunities;
- rank the candidates and execute at most the best one;
- guard the run with a risk check, counters, a price feed and a signal table.

Three Python modules do related work:

- a mempool pre-filter with a per-chain cache;
- a cross-DEX scanner;
- a transaction analyser.

This project models that pipeline in Dafny with its I/O and timers taken
out. The clock (`now`, `fetchTime`) is passed in as a parameter. So are
venue quotes, node replies and swaps, which are functions.

The modules follow the source files:

| Dafny module | source |
|---|---|
| `Constants` | `src/utils/constants.js` |
| `DexService` | `src/services/dexService.js` |
| `ArbitrageService` | `src/services/arbitrageService.js` |
| `StrategyService` | `src/services/strategyService.js` |
| `SandwichService` | `src/services/sandwichService.js` |
| `FlashLoanService` | `src/services/flashLoanService.js` |
| `TradingService` | `src/services/tradingService.js` |
| `ExecutionService` | `src/services/executionService.js` |
| `PerformanceService` | `src/services/performanceService.js` |
| `MonitoringService` | `src/services/monitoringService.js` |
| `PriceService` | `src/services/priceService.js` |
| `AnalysisService` | `src/services/analysisService.js` |
| `ValidateEnv` | `src/utils/validateEnv.js` |
| `Settings` | `client/src/components/Settings.jsx` (`validateSettings`, `handleChange`) |
| `MempoolMonitor` | `mempool_monitor.py` |
| `OpportunityFinder` | `opportunity_finder.py` |
| `ArbitrageFinder` | `arbitrage_finder.py` |

Four helper modules back them:

- `Common`: Option and Result.
- `JsNumber`: JavaScript numbers with NaN and ±Infinity, on exact reals.
- `Text`: substring search, hexadecimal parsing, `slice`, `join`.
- `Selectors`: the swap-selector test shared by the two sandwich scanners.

The model takes the source's own form:

- Services whose fields change are classes. Their methods have `modifies`
  clauses and are proved against specification functions.
- Loops are `while` loops with invariants.
- Pure code (fee arithmetic, validators, the signal table, the Python
  finders) is written as functions, with lemmas about them.

## Where the code departs from the documented design

The model follows the code in each of these cases:

- **Daily-loss check.** It is strict. A loss of exactly 3 % of the capital
  does not halt trading (`PerformanceService.DailyLossBoundary`).
- **Minimum capital.** The engine's minimum is 10 MATIC
  (`src/utils/constants.js:16`). The dashboard checks 100.
- **Direct-arbitrage fee.** It is a flat 0.003 ether, not 0.3 % of the
  amount. The two agree only for the one-ether probe that the scanner uses.
- **Average execution time.** The monitoring service keeps no running mean:
  `averageExecutionTime` stays at its initial 0.
- **Price feed tokens.** `TOKENS` has no `QUICKSWAP_ROUTER` entry, so the
  price feed excludes only USDC from its histories and refreshes.
- **RSI thresholds.** `src/utils/constants.js` defines no `RSI_OVERSOLD` or
  `RSI_OVERBOUGHT`. The thresholds are `Option` parameters, and `None` stands
  for `undefined` (`AnalysisService.MissingThresholdsSilenceRsi`).
- **Thresholds of `arbitrage_finder.py`.** The module imports
  `MIN_PROFIT_THRESHOLD` and `MAX_SLIPPAGE` from `config.py`, which defines
  neither, so both are parameters.
- **Missing `Tuple` import.** `arbitrage_finder.py` uses `Tuple` in an
  annotation without importing it. The model describes the body of
  `find_opportunity` as evidently intended.
- **Error on an empty quote list.** `min()` of no quotes raises. The model
  uses CPython's `ValueError` message for it.
- **web3 value representation.** The model assumes the web3 1.x
  representation: `call()` results and a transaction's `gasPrice` are decimal
  strings, and `toWei` returns a decimal string. Under that reading the
  sandwich scanner's gas cap (`src/services/sandwichService.js:113`) compares
  two strings, in lexicographic order (see Findings). The lines under
  "Left out" that name `DexService.DexService.GetPrices`,
  `ArbitrageService.FindBestPrices` and
  `ArbitrageService.ArbitrageService.FindArbitrageOpportunities` say what
  the 4.x representation would change.
- **Services that cannot load.** `priceService.js`, `strategyService.js` and
  `flashLoanService.js` destructure `web3` from `src/config/web3.js` (their
  line 1). That module only has a default export, `web3Service`
  (`src/config/web3.js:134-135`), so `web3` is undefined. The constructors
  then throw at `priceService.js:23`, `strategyService.js:18` and
  `flashLoanService.js:27`. The model describes these three classes as if
  `web3` were the shared instance `web3Service.web3`. In the same way
  `strategyService.js:5` and `executionService.js:3` `require` the ES module
  `dexService.js`, whose instance is an export (`dexService.js:98-99`), so
  `dexService.getPrices` is not found on what `require` returns; the model
  treats `dexService` as that instance.
- **Price router address.** `priceService.js:23` builds the router contract
  with `TOKENS.QUICKSWAP_ROUTER`, which `TOKENS` does not hold, so the
  contract has no address. Every quote fails, and `getTokenPrice` answers 0
  (`priceService.js:116-118`). As wired, the `quote` parameter is the one
  that always fails, and every price is then 0
  (`PriceService.FailingQuotePricesZero`).
- **HTTP provider.** The shared instance is built on an HTTP provider
  (`src/config/web3.js:18`). That provider cannot subscribe, so
  `provider.on` throws inside the sandwich scanner's `start`, and the catch
  leaves the scanner stopped. `stop` clears `isRunning` and then throws at
  `removeAllListeners`. The parameters `subscribed` and `detachable` of
  `Start` and `Stop` say whether the provider supports these calls. As
  wired, both are false (`SandwichService.HttpProviderScanFindsNothing`).
- **MACD signal line.** `calculateMACD` takes the signal line as the EMA of
  the one-element list `[macdLine]` (`src/utils/indicators.js:38`). That EMA
  is `macdLine` itself, so the histogram is 0 and the MACD row never fires.
  With the RSI thresholds undefined as well, only the trend row can fire,
  and the strength stays at most 0.5 (`AnalysisService.ZeroHistogramOnlyTrend`).
- **`parseInt` of the amount word.** `parseInt(…, 16)` skips leading
  whitespace, takes a sign, and drops a `0x` prefix before reading digits.
  The model follows that (`Text.ParseInt16`).

## Model

| member | source | states |
|---|---|---|
| `Constants.AllTokensListsEachOnce` | src/utils/constants.js:1-8 | `Object.values(TOKENS)` lists the six tokens, each exactly once |
| `DexService.DexService.constructor` | src/services/dexService.js:27-33 | the quote cache starts empty |
| `DexService.DexService.GetPrices` | src/services/dexService.js:41-82 | the entry for key `tokenIn-tokenOut-amount` is returned unchanged, with no venue asked, iff it exists and is younger than 200 ms; otherwise the result is exactly the routers that reported, in router order, and it is cached with timestamp `now` whatever its size |
| `DexService.Collect` | src/services/dexService.js:55-73 | never more quotes than routers, each from a router that reported |
| `DexService.CollectExact` | src/services/dexService.js:55-73 | a router is in the result iff its call neither threw nor answered `'0'`, with the amount it quoted; there are never more entries than routers |
| `DexService.CollectWellFormed` | src/services/dexService.js:68-73 | from distinct router names, the result lists each venue at most once, and every quote is positive |
| `DexService.DexNamesDistinct` | src/services/dexService.js:5-11 | five distinct routers are configured |
| `DexService.DexService.GetDexNames` | src/services/dexService.js:84-86 | the five router names, in declaration order |
| `DexService.DexService.ClearCache` | src/services/dexService.js:88-95 | the cache becomes exactly the entries that are not strictly older than 200 ms, unchanged |
| `DexService.PrunedKeepsLive` | src/services/dexService.js:90-94 | after the sweep nothing older than 200 ms is left, and no entry that would still be served was lost |
| `DexService.BoundaryEntryKeptButStale` | src/services/dexService.js:47-52 | an entry exactly 200 ms old survives `clearCache` but is no longer served |
| `ArbitrageService.FirstMinIndex` | src/services/arbitrageService.js:99-103 | the head of the stable ascending sort: the first venue with the lowest quote |
| `ArbitrageService.LastMaxIndex` | src/services/arbitrageService.js:99-104 | the tail of the stable ascending sort: the last venue with the highest quote |
| `ArbitrageService.FindBestPrices` | src/services/arbitrageService.js:98-106 | the buy price never exceeds the sell price |
| `ArbitrageService.BestPricesOrdered` | src/services/arbitrageService.js:98-106 | the buy side is a cheapest quote and the sell side a dearest one, both taken from the map, so buy ≤ sell |
| `ArbitrageService.CalculateProfit` | src/services/arbitrageService.js:108-111 | a positive profit needs a buy price below the sell price |
| `ArbitrageService.CalculateProfitNetsFee` | src/services/arbitrageService.js:108-111 | a profit is positive iff the spread exceeds the 0.003 ether fee; the profit is the spread net of exactly that fee, so always below the raw spread |
| `ArbitrageService.DirectCandidateIff` | src/services/arbitrageService.js:36-50 | a pair yields a record iff at least two venues reported and the net spread exceeds 5·10^14 wei; the record carries the pair, the buy and sell venues and one ether |
| `ArbitrageService.DirectRowSound` | src/services/arbitrageService.js:32-51 | every record of the inner loop is for a token other than `tokenA`, with at least two venues, and is that pair's candidate |
| `ArbitrageService.DirectRowComplete` | src/services/arbitrageService.js:32-51 | every pair with a candidate appears in the inner loop's output |
| `ArbitrageService.DirectScanExact` | src/services/arbitrageService.js:31-53 | the direct scan emits a record for an ordered pair iff the tokens differ and the pair's candidate exists |
| `ArbitrageService.TriangularPathsHaveThreeHops` | src/services/arbitrageService.js:15-20 | each of the four configured paths has three tokens |
| `ArbitrageService.TriangularProfitNaN` | src/services/arbitrageService.js:113-116 | a NaN hop price makes the profit NaN, which never exceeds the threshold |
| `ArbitrageService.TriangularProfitFinite` | src/services/arbitrageService.js:113-116 | on finite non-zero prices, the triangular profit is `(1/a)(1/b)(1/c)·0.997³ − 1` |
| `ArbitrageService.TriangularProfitNegative` | src/services/arbitrageService.js:113-116 | with every hop price at least 1, or +Infinity for a hop with no quote, the triangular profit is finite and negative |
| `ArbitrageService.TriangularNeverEmits` | src/services/arbitrageService.js:70-96 | on the aggregator's whole-wei quotes, `checkTriangularArbitrage` never emits: it compares a relative return with a wei threshold |
| `ArbitrageService.ArbitrageService.constructor` | src/services/arbitrageService.js:7-21 | the scanner starts stopped, with no timer |
| `ArbitrageService.ArbitrageService.FindArbitrageOpportunities` | src/services/arbitrageService.js:23-68 | `[]` when stopped; otherwise the direct records of all ordered token pairs, in loop order, followed by the triangular records of the four paths |
| `ArbitrageService.ArbitrageService.ScanPairsFrom` | src/services/arbitrageService.js:32-52 | the inner loop over `tokenB` produces exactly that row of the direct scan |
| `ArbitrageService.ArbitrageService.ScanTriangularPaths` | src/services/arbitrageService.js:56-61 | the loop over `triangularPaths` produces exactly the triangular scan |
| `ArbitrageService.ArbitrageService.Start` | src/services/arbitrageService.js:118-131 | a no-op once running; otherwise the scanner is running and its timer scheduled |
| `ArbitrageService.ArbitrageService.Stop` | src/services/arbitrageService.js:133-139 | the scanner is stopped and its timer cleared |
| `StrategyService.FindTriangularArbitrage` | src/services/strategyService.js:58-84 | the scan over the three rotations yields nothing at all, because calculateTriangularProfit is handed each hop's price Map, which reads as NaN |
| `StrategyService.RotationsAreCyclic` | src/services/strategyService.js:60-65 | for i = 0..2 the rotations are `(t[i], t[(i+1)%3], t[(i+2)%3])` of WMATIC, USDC, WETH |
| `StrategyService.RotationCandidateShape` | src/services/strategyService.js:67-80 | a rotation's record carries that rotation and a profit above 0.002, computed from its three hops |
| `StrategyService.RotationScan` | src/services/strategyService.js:62-81 | at most one candidate per rotation visited |
| `StrategyService.RotationScanExact` | src/services/strategyService.js:62-81 | the scan holds exactly the candidates of the rotations it visited, at most one per rotation |
| `StrategyService.TriangularAsWrittenFindsNothing` | src/services/strategyService.js:67-73 | with every hop a Map, so NaN, no rotation is ever emitted |
| `StrategyService.FindFlashLoanOpportunities` | src/services/strategyService.js:86-109 | the records of the four pairs, in pair order, each as the flash candidate decides |
| `StrategyService.FlashScan` | src/services/strategyService.js:89-106 | at most one candidate per pair |
| `StrategyService.FlashEmptyIsNaN` | src/services/strategyService.js:91-96 | with no reporting venue, `(−∞ − ∞)/∞` is NaN and nothing is emitted |
| `StrategyService.FlashProfitValue` | src/services/strategyService.js:91-94 | on reported quotes, the cheapest quote is positive and the profit is the finite `(max − min)/min` |
| `StrategyService.FlashCandidateIff` | src/services/strategyService.js:90-105 | the relative spread is never negative, and min and max bound every quote; a pair is emitted iff the spread exceeds 0.003 |
| `StrategyService.FlashSingleVenue` | src/services/strategyService.js:91-96 | a single venue gives a profit of 0 and no record |
| `StrategyService.FindMarketMakingOpportunities` | src/services/strategyService.js:142-163 | the records of the four pairs, in order, each as the market-making candidate decides |
| `StrategyService.MarketScan` | src/services/strategyService.js:145-160 | at most one candidate per pair |
| `StrategyService.MarketCandidateIff` | src/services/strategyService.js:147-158 | for a positive bid, a pair is emitted iff `(ask − bid)/bid > 0.001`, quoting `bid·1.001` and `ask·0.999` with size 0.1 ether |
| `StrategyService.MarketZeroBidPositiveAsk` | src/services/strategyService.js:147-149 | a zero bid with a positive ask gives +Infinity, and the pair is emitted |
| `StrategyService.StubOrderbookNoCandidate` | src/services/strategyService.js:184-190 | the stub orderbook `(0, 0)` gives the spread `0/0`, NaN, and no record |
| `StrategyService.StubOrderbookYieldsNothing` | src/services/strategyService.js:145-149 | with the stub orderbook no pair is ever emitted |
| `StrategyService.IsSwapTransactionIff` | src/services/strategyService.js:171-182 | an absent input throws; a present one is a swap iff the selector of one of the four swap methods occurs in it |
| `StrategyService.FindSandwichOpportunities` | src/services/strategyService.js:111-140 | the loop as written: an absent input throws; the first swap throws, because `decodeSwapTransaction` is not a method of this class; otherwise nothing |
| `StrategyService.SandwichScan` | src/services/strategyService.js:115-137 | a scan that does not throw answers `[]` |
| `StrategyService.SandwichScanOutcome` | src/services/strategyService.js:115-118 | the loop never yields a record; it answers `[]` iff every transaction has an input and none is a swap |
| `StrategyService.FindOpportunities` | src/services/strategyService.js:43-56 | the four detectors' outputs concatenated in detector order; a rejection from the sandwich detector rejects the whole merge |
| `StrategyService.MergeWithStubOrderbook` | src/services/strategyService.js:47-55 | with the stub orderbook, the merge is exactly the flash-loan records |
| `Selectors.AnySelectorInIff` | src/services/sandwichService.js:106-108 | the `some(... includes(selector))` test holds iff some listed method's selector occurs at some position of the input |
| `Text.ParseInt16` | src/services/sandwichService.js:158 | on a non-empty string of hexadecimal digits, `parseInt(s, 16)` is the value those digits denote |
| `Text.ParseInt16HexPrefix` | src/services/sandwichService.js:158 | `parseInt('0x1f', 16)` is 31: the `0x` prefix is skipped |
| `Text.ParseInt16LeadingSpace` | src/services/sandwichService.js:158 | `parseInt(' 1f', 16)` is 31, although the digits alone do not start the string |
| `Text.ParseInt16Sign` | src/services/sandwichService.js:158 | `parseInt('-1f', 16)` is −31 |
| `SandwichService.DecodeSwapTransaction` | src/services/sandwichService.js:150-159 | both decoded addresses start with `0x` and have at most 40 characters after it; on hexadecimal call data those characters are hexadecimal digits |
| `SandwichService.DecodeFullCallData` | src/services/sandwichService.js:152-158 | on full call data: tokenIn is `0x` + input[34..74], tokenOut is `0x` + input[98..138], and amount is the hexadecimal value of input[138..202] |
| `SandwichService.DecodeShortCallData` | src/services/sandwichService.js:158 | call data that ends before the amount word decodes to a NaN amount |
| `SandwichService.FrontRunAmount` | src/services/sandwichService.js:121 | `Math.floor(amount·0.2)`: 5·r ≤ amount < 5·r + 5, and NaN stays NaN |
| `SandwichService.OpportunityFor` | src/services/sandwichService.js:117-143 | a record targets the transaction's hash and uses the same amount for the front-run and the back-run |
| `SandwichService.AnalyzeSandwichOpportunityAsWritten` | src/services/sandwichService.js:111-148 | as written, a record only for a present transaction whose gas-price string is not lexicographically above the cap's string `'100000000000'` |
| `SandwichService.AnalyzeSandwichOpportunity` | src/services/sandwichService.js:111-148 | with the cap compared as numbers, a record only for a present transaction within 100 gwei, targeting its hash |
| `SandwichService.GasCapAsWrittenRejects30Gwei` | src/services/sandwichService.js:113 | a swap paying 30 gwei is rejected as written, because `'30000000000' > '100000000000'` as strings, and kept by the numeric cap |
| `SandwichService.AnalyzeIff` | src/services/sandwichService.js:111-148 | a record iff the transaction exists, has an input and its gas price is within 100 gwei; it targets that hash, copies the decoded tokens, uses the same front-run and back-run amount, and has a profit above 0.05 ether and maxGas 150 gwei |
| `SandwichService.IsSwapTransaction` | src/services/sandwichService.js:96-109 | a swap always has a present, non-empty input |
| `SandwichService.IsSwapTransactionIff` | src/services/sandwichService.js:96-109 | false without a transaction or an input; otherwise true iff a swap selector occurs in the input |
| `SandwichService.UnexpiredExact` | src/services/sandwichService.js:87-94 | the sweep keeps exactly the entries at most 30 s old, in order, and keeps hashes unique |
| `SandwichService.RecentExact` | src/services/sandwichService.js:73-77 | a reported opportunity is exactly one whose entry is younger than 10 s |
| `SandwichService.SweepKeepsReport` | src/services/sandwichService.js:69-77 | sweeping before the report does not change what is reported |
| `SandwichService.SandwichService.constructor` | src/services/sandwichService.js:6-13 | the scanner starts stopped, not listening, with an empty table |
| `SandwichService.SandwichService.Start` | src/services/sandwichService.js:15-31 | a no-op once running; otherwise it runs and listens iff the provider accepts the subscription, and a throwing `provider.on` leaves it stopped; the table is kept |
| `SandwichService.SandwichService.Stop` | src/services/sandwichService.js:33-39 | always stops; the listener is detached iff the provider supports `removeAllListeners`, and otherwise the call rejects with the listener left as it was; the table is kept |
| `SandwichService.SandwichService.HandlePendingTransaction` | src/services/sandwichService.js:41-60 | a swap with a new hash and an opportunity under the corrected numeric gas cap (`AnalyzeSandwichOpportunity`) is appended, stamped `now`, only while running; in every other case the table is unchanged |
| `SandwichService.SandwichService.CleanupPendingTransactions` | src/services/sandwichService.js:87-94 | the table becomes exactly its entries that are not strictly older than 30 s |
| `SandwichService.SandwichService.FindSandwichOpportunities` | src/services/sandwichService.js:62-85 | `[]` with no change when stopped; otherwise the table is swept, then its opportunities younger than 10 s are reported in table order |
| `SandwichService.HttpProviderScanFindsNothing` | src/services/sandwichService.js:15-31 | on the HTTP provider of the shared instance, `start` leaves the scanner stopped, so a pending transaction is ignored and the scan answers `[]` |
| `FlashLoanService.TruncDiv` | src/services/flashLoanService.js:94 | big-integer division truncates toward zero |
| `FlashLoanService.BnMul` | src/services/flashLoanService.js:94 | bn.js `mul` multiplies two big numbers; a plain-number operand throws RangeError (the product's limb array gets a NaN size), and a string throws TypeError |
| `FlashLoanService.BnDiv` | src/services/flashLoanService.js:94 | bn.js `div` truncates toward zero for a non-zero big divisor, rejects a zero one, and throws on a plain number or string, which has no `isZero` |
| `FlashLoanService.BnAdd` | src/services/flashLoanService.js:96 | bn.js `add` sums two big numbers; a primitive operand throws, on the sign-flag write for a non-negative receiver and on the missing limbs otherwise |
| `FlashLoanService.FeesAsWrittenThrow` | src/services/flashLoanService.js:92-97 | as written, `calculateFees` throws RangeError at `amount.mul(9)` for every amount; `div(10000)` and the `add` of the estimate string would each throw as well; with big-number operands at all three steps it answers the corrected fee |
| `FlashLoanService.CalculateFees` | src/services/flashLoanService.js:92-97 | the corrected fee `amount.muln(9).divn(10000).add(toBN(toWei('0.05', 'ether')))`: for a non-negative loan it is at least 0.05 ether |
| `FlashLoanService.FeesOfLoan` | src/services/flashLoanService.js:92-97 | for a non-negative loan, the fee is 0.05 ether plus ⌊9·amount/10000⌋, so never below 0.05 ether |
| `FlashLoanService.FeesMonotone` | src/services/flashLoanService.js:94-96 | a larger loan never costs less |
| `FlashLoanService.CheckProfitabilityIff` | src/services/flashLoanService.js:64-90 | a full record iff the route and both quotes exist, and otherwise the bare unprofitable answer; profitable iff sell − buy > fees, i.e. iff expectedProfit > 0; the record echoes buy, sell and fees |
| `FlashLoanService.CheckProfitabilityAsWrittenAlwaysFails` | src/services/flashLoanService.js:64-97 | as written, every route, whatever the quotes, is answered with the bare `{isProfitable: false}` |
| `FlashLoanService.CheckProfitability` | src/services/flashLoanService.js:64-90 | a missing route fails; in a full record the expected profit plus the fees is sell − buy, and the route is profitable iff that profit is positive |
| `FlashLoanService.StubNeverProfitable` | src/services/flashLoanService.js:99-103 | with the zero-price stub, no non-negative loan is profitable once the fees are corrected, and the expected profit is minus the fees; as written the bare record comes back |
| `TradingService.Merge` | src/services/tradingService.js:38 | the arbitrage candidates in order, then the sandwich candidates in order |
| `TradingService.SortByProfit` | src/services/tradingService.js:38-39 | the ranking has as many candidates as the input |
| `TradingService.SortByProfitCorrect` | src/services/tradingService.js:38-39 | the ranking is in descending profit order and is a permutation of the candidates |
| `TradingService.SortByProfitStable` | src/services/tradingService.js:38-39 | candidates with equal profit keep their relative order |
| `TradingService.ScanPicksBest` | src/services/tradingService.js:41-47 | a scan executes a candidate iff some candidate has a positive profit, and the one executed has the highest profit of all |
| `TradingService.TradingService.constructor` | src/services/tradingService.js:8-9 | stopped, with capital 0 |
| `TradingService.TradingService.StartTrading` | src/services/tradingService.js:12-25 | a no-op while running; a capital below 10 is rejected with the minimum-capital message and no change; otherwise it runs with that capital and schedules one more scan timer |
| `TradingService.TradingService.ScanOpportunities` | src/services/tradingService.js:27-52 | nothing when stopped; otherwise the head of the ranking, if its profit is positive |
| `TradingService.TradingService.StopTrading` | src/services/tradingService.js:67-70 | clears `isRunning`, keeps the capital and timers |
| `ExecutionService.HopsFormCycle` | src/services/executionService.js:66-68 | hop i goes from `t[i]` to `t[(i+1) % n]`; the hops chain into a cycle ending at the first token |
| `ExecutionService.RunSwapsExact` | src/services/executionService.js:66-80 | a run succeeds iff every hop's swap does, returning one receipt per hop in order; otherwise it fails with the first failing hop's error |
| `ExecutionService.DispatchIff` | src/services/executionService.js:32-48 | a strategy fails iff its type is unknown or a triangular hop fails; the three other known types answer `null` |
| `ExecutionService.SweptExact` | src/services/executionService.js:98-106 | the sweep drops exactly the slots more than 30 s old; a slot survives at +30000 ms and is gone at +30001 ms |
| `ExecutionService.SweptSmaller` | src/services/executionService.js:100-105 | the sweep never grows the table |
| `ExecutionService.ExecutionService.constructor` | src/services/executionService.js:7-13 | empty table, `lastExecution` 0 |
| `ExecutionService.ExecutionService.ExecuteStrategy` | src/services/executionService.js:15-59 | a full table (≥ 5 slots) throws with no change; otherwise it waits iff the last execution was under 500 ms ago, sets the `type-time` slot and answers the dispatch; success deletes the slot and stamps `lastExecution`; failure leaves the slot and `lastExecution` unchanged; the table never exceeds 5 |
| `ExecutionService.ExecutionService.ExecuteTriangularArbitrage` | src/services/executionService.js:61-81 | one swap per hop, in hop order, each for the opportunity's amount, stopping at the first that throws |
| `ExecutionService.ExecutionService.Cleanup` | src/services/executionService.js:98-106 | the table becomes exactly its slots at most 30 s old |
| `PerformanceService.StreakCountsTrailingLosses` | src/services/performanceService.js:34-38 | from a fresh start, the streak is the number of losses that end the history |
| `PerformanceService.ThreeLossesReachLimit` | src/services/performanceService.js:34-35 | three losses in a row reach the limit of 3 from any streak |
| `PerformanceService.WinRate` | src/services/performanceService.js:47-48 | the win rate lies in [0, 100] and is 0 without trades |
| `PerformanceService.WinRateExtremes` | src/services/performanceService.js:47-48 | the rate is 100 iff every trade won, and 0 iff none did |
| `PerformanceService.Roi` | src/services/performanceService.js:46 | `total/capital·100` for a non-zero capital; NaN for `0/0` |
| `PerformanceService.PerformanceService.constructor` | src/services/performanceService.js:4-8 | the streak starts at 0 |
| `PerformanceService.PerformanceService.CheckPerformanceMetrics` | src/services/performanceService.js:10-27 | true iff the day's total is not strictly below −3 % of the capital and the streak is under 3 |
| `PerformanceService.PerformanceService.UpdateProfitMetrics` | src/services/performanceService.js:29-41 | adds the profit to total, daily and weekly of the same record and returns it; a loss extends the streak, anything else resets it to 0 |
| `PerformanceService.PerformanceService.GetPerformanceStats` | src/services/performanceService.js:43-50 | the streak, the ROI and the win rate |
| `PerformanceService.DailyLossBoundary` | src/services/performanceService.js:11-14 | a loss of exactly 3 % keeps trading; any larger loss halts it |
| `PerformanceService.ThreeLossesHalt` | src/services/performanceService.js:16-19 | three losses in a row halt trading, whatever the day's total |
| `MonitoringService.WinRateRange` | src/services/monitoringService.js:56-57 | the rate is 0 iff nothing was executed or nothing succeeded, and lies in [0, 100] while successes ≤ executions |
| `MonitoringService.GetMetricsAsWritten` | src/services/monitoringService.js:53-60 | as written, the call always throws |
| `MonitoringService.GetMetricsAsWrittenFails` | src/services/monitoringService.js:53-60 | as written, `getMetrics` always throws: `getRecentAlerts` does not exist |
| `MonitoringService.GetMetricsWithCopies` | src/services/monitoringService.js:54-58 | the corrected snapshot copies every counter, carries the win rate and the alerts; the initial rate is 0 |
| `MonitoringService.TimeSinceLastOpportunity` | src/services/monitoringService.js:35-38 | a gap only for a truthy opportunity time, and then the gap to `now` |
| `MonitoringService.TimeSinceIff` | src/services/monitoringService.js:35-38 | the elapsed time is `null` iff no opportunity time is recorded, or it is 0; otherwise it is the gap to `now` |
| `MonitoringService.MonitoringService.constructor` | src/services/monitoringService.js:4-19 | every counter 0, no last opportunity, no alerts, stopped, no timer |
| `MonitoringService.MonitoringService.Start` | src/services/monitoringService.js:21-25 | runs and schedules a fresh timer; earlier timers keep firing |
| `MonitoringService.MonitoringService.Stop` | src/services/monitoringService.js:27-33 | stops, and clears only the last scheduled timer |
| `MonitoringService.MonitoringService.GetMetrics` | src/services/monitoringService.js:53-60 | the corrected snapshot; nothing changes |
| `MonitoringService.StartTwiceLeaksTimer` | src/services/monitoringService.js:21-33 | two starts and a stop leave one timer firing |
| `PriceService.BoundedPushKeepsNewest` | src/services/priceService.js:100-108 | after a push, the history ends with the new point and holds at most 100 points; on overflow exactly the oldest one goes |
| `PriceService.SliceLastExact` | src/services/priceService.js:125 | a positive limit gives the newest min(limit, length) points; `slice(-0)` gives them all |
| `PriceService.GetPriceHistory` | src/services/priceService.js:122-126 | `[]` for an untracked token, and never longer than the token's history |
| `PriceService.GetPriceHistoryExact` | src/services/priceService.js:122-126 | an unknown token gives `[]`; a tracked one gives at most `limit` of its own newest points |
| `PriceService.GetLatestPrice` | src/services/priceService.js:128-130 | 0 for an absent token; a non-zero answer is the stored price |
| `PriceService.GetLatestPriceExact` | src/services/priceService.js:128-130 | the stored price, or 0 for an absent token |
| `PriceService.FetchedFromExact` | src/services/priceService.js:71-88 | a fetch over the token entries prices exactly those other than USDC, each at its quote |
| `PriceService.FetchedExact` | src/services/priceService.js:71-88 | a refresh prices exactly the tokens other than USDC, and a failed quote as 0 |
| `PriceService.FailingQuotePricesZero` | src/services/priceService.js:111-119 | with every quote failing, every refreshed price and every latest price is 0 |
| `PriceService.PushedOnValid` | src/services/priceService.js:96-108 | pushing a refresh keeps the set of histories and their bound of 100 |
| `PriceService.RefreshEndsEachHistory` | src/services/priceService.js:82-86 | after a refresh, every tracked history ends with that refresh's quote |
| `PriceService.TrackedQuoted` | src/services/priceService.js:71-76 | a refresh quotes exactly the tokens other than USDC |
| `PriceService.FetchInto` | src/services/priceService.js:78-88 | the loop installs exactly the fetched prices and pushes each quote onto its own history |
| `PriceService.PriceService.constructor` | src/services/priceService.js:20-34 | an empty history for every token but USDC, no prices, no subscribers |
| `PriceService.PriceService.Subscribe` | src/services/priceService.js:36-38 | adds the callback and returns its handle |
| `PriceService.PriceService.Unsubscribe` | src/services/priceService.js:38 | the returned function removes exactly that callback |
| `PriceService.PriceService.UpdatePriceHistory` | src/services/priceService.js:96-109 | a bounded push for a tracked token; no-op for another |
| `PriceService.PriceService.FetchPrices` | src/services/priceService.js:65-94 | installs the fetched prices, pushes them onto the histories, and sends them to subscribers |
| `PriceService.PriceService.UpdatePrices` | src/services/priceService.js:49-63 | nothing within 50 ms of the last refresh or while one is in flight; otherwise a full refresh, then `lastUpdate = now` with nothing left in flight |
| `AnalysisService.GenerateSignals` | src/services/analysisService.js:54-94 | the strength lies in [0, 2.5] and is positive iff a buy or a sell fires |
| `AnalysisService.ZeroHistogramOnlyTrend` | src/services/analysisService.js:60-94 | with the histogram at 0, as `calculateMACD` computes it, and the RSI thresholds undefined, only the trend row fires and the strength is at most 0.5 |
| `AnalysisService.GenerateSignalsTable` | src/services/analysisService.js:54-94 | buy iff some row votes buy, sell iff some row votes sell; strength is 1 per RSI or MACD row plus 0.5 for a trend, times 0.8 above 0.02 volatility, within [0, 2.5] |
| `AnalysisService.MissingThresholdsSilenceRsi` | src/services/analysisService.js:62-68 | with RSI thresholds undefined, the RSI row never fires and the strength is at most 1.5 |
| `AnalysisService.SweptExact` | src/services/analysisService.js:110-117 | the sweep keeps exactly the entries at most 30 s old, unchanged |
| `AnalysisService.GateWindow` | src/services/analysisService.js:25-27 | after a truthy last analysis at t, it refuses at t+1999 and runs at t+2000; it never refuses before a first analysis |
| `AnalysisService.AnalysisService.constructor` | src/services/analysisService.js:6-12 | empty cache, no last analysis |
| `AnalysisService.AnalysisService.AnalyzeMarket` | src/services/analysisService.js:14-52 | a cached result only for the same token in the same millisecond; the 2 s gate or a failure answers `null` with no change; a success is cached and becomes the last analysis |
| `AnalysisService.AnalysisService.ClearCache` | src/services/analysisService.js:110-117 | the cache becomes exactly its entries at most 30 s old |
| `ValidateEnv.ValidateEnvironment` | src/utils/validateEnv.js:3-33 | a pass answers `true`, with every required key set; a failure carries one of the three format messages or the missing-keys message |
| `ValidateEnv.MissingExact` | src/utils/validateEnv.js:10 | the missing keys are exactly the unset or empty ones, in order |
| `ValidateEnv.ValidateEnvironmentIff` | src/utils/validateEnv.js:3-33 | passes, with `true`, iff all three keys are set, the endpoint contains `alchemy.com`, the key is 64 hex digits and the address is `0x`/`0X` plus 40 hex digits |
| `ValidateEnv.ValidateEnvironmentOrder` | src/utils/validateEnv.js:10-29 | the first failing check is the one reported: missing keys, then endpoint, then key, then address |
| `ValidateEnv.OnlyAddressMissing` | src/utils/validateEnv.js:12-14 | with only WALLET_ADDRESS absent, the message names it alone |
| `Settings.ValidateSettings` | client/src/components/Settings.jsx:59-72 | a pass has a non-empty URL, wallet and key; a failure carries one of the four messages |
| `Settings.HandleChange` | client/src/components/Settings.jsx:52-57 | an edit never touches the networks, pairs or minimum profit, and an edit to a field validation does not read leaves every validated field unchanged (the per-field statement is `Settings.HandleChangeLocal`) |
| `Settings.ValidateSettingsIff` | client/src/components/Settings.jsx:59-72 | for finite numbers, passes iff URL, wallet and key are non-empty, capital ≥ 100 and the impact threshold is in [0.1, 5], both ends included |
| `Settings.ValidateSettingsOrder` | client/src/components/Settings.jsx:60-68 | an empty RPC URL is reported first, then a low capital, then missing credentials |
| `Settings.NaNPassesNumericChecks` | client/src/components/Settings.jsx:63-71 | a cleared numeric field, NaN, passes both numeric checks |
| `Settings.HandleChangeLocal` | client/src/components/Settings.jsx:52-57 | each of the twelve edits replaces exactly its own field with the parsed value and keeps every other field; an edit is idempotent and does not change the verdict on fields validation does not read |
| `Settings.DefaultsFailOnlyOnRpcUrl` | client/src/components/Settings.jsx:24-48 | the defaults fail on the empty RPC URL, then on the empty credentials, then pass |
| `MempoolMonitor.AllChainsComplete` | mempool_monitor.py:14-20 | every chain is listed |
| `MempoolMonitor.EmptyCache` | mempool_monitor.py:38-41 | one empty cache per chain |
| `MempoolMonitor.BoundedAppendExact` | mempool_monitor.py:39 | the appended hash is the newest, the bound of 10000 holds, and only the oldest can drop |
| `MempoolMonitor.CheckAsWritten` | mempool_monitor.py:121-143 | as written, no transaction is admitted |
| `MempoolMonitor.Check` | mempool_monitor.py:121-143 | a rejection leaves the cache unchanged; an admission needs a known chain, a new hash, both numbers parsed and a configuration for the chain |
| `MempoolMonitor.CheckAsWrittenRejectsAll` | mempool_monitor.py:121-143 | as written, every transaction is rejected and the cache never changes |
| `MempoolMonitor.ConfigFor` | mempool_monitor.py:135 | the corrected lookup is the first configuration naming the chain; `None` iff none does |
| `MempoolMonitor.CheckExact` | mempool_monitor.py:121-143 | the corrected filter admits iff the chain is known, the hash is new, both numbers parse, a configuration exists and the gas price is within its cap; a rejection leaves the cache unchanged, an admission appends the hash |
| `MempoolMonitor.CheckDeduplicates` | mempool_monitor.py:128-129 | a transaction admitted once is rejected the second time, with no change |
| `MempoolMonitor.ConfigLookupWitness` | mempool_monitor.py:121-143 | a fresh ETH transaction under its cap is admitted once corrected and rejected as written |
| `MempoolMonitor.EnhancedMempoolMonitor.constructor` | mempool_monitor.py:31-45 | keeps the configurations; empty caches; not running |
| `MempoolMonitor.EnhancedMempoolMonitor.IsProfitableOpportunity` | mempool_monitor.py:121-143 | the answer and the new cache are those of the corrected filter |
| `MempoolMonitor.EnhancedMempoolMonitor.Stop` | mempool_monitor.py:178-181 | clears `_running`; configurations and caches are unchanged |
| `OpportunityFinder.CalculatePriceImpact` | opportunity_finder.py:36-46 | an impact record iff both token keys exist, carrying those tokens |
| `OpportunityFinder.SimulateArbitrage` | opportunity_finder.py:48-54 | the simulated profit is never negative, and positive only above a 2 % impact |
| `OpportunityFinder.DetermineStrategy` | opportunity_finder.py:56-60 | a sandwich is chosen only where the simulated profit clears the 0.01 minimum |
| `OpportunityFinder.BuildExecutionParams` | opportunity_finder.py:62-73 | the impact's tokens, the fixed 0.01 and 0.5 amounts, and a sandwich method only above a 5 % impact |
| `OpportunityFinder.AnalyzeTransaction` | opportunity_finder.py:15-34 | a record only for a transaction with both token keys, and with a profit above 0.01 |
| `OpportunityFinder.SimulateArbitrageClears` | opportunity_finder.py:48-54 | the simulated profit is above 0.01 iff the impact is above 0.02; it is never negative and is below a positive impact |
| `OpportunityFinder.EvaluateExact` | opportunity_finder.py:23-30 | a record iff impact > 0.02: its profit is impact·0.5, the strategy is a sandwich iff impact > 0.05, and the parameters copy the strategy and the tokens, with 0.01 and 0.5 |
| `OpportunityFinder.AnalyzeTransactionNeverFires` | opportunity_finder.py:15-46 | missing token keys give no impact; the fixed impact of 0.01 means no transaction ever yields a record |
| `ArbitrageFinder.ArgMin` | arbitrage_finder.py:28 | `prices.index(min(prices))`: the first position of the lowest quote |
| `ArbitrageFinder.ArgMax` | arbitrage_finder.py:29 | `prices.index(max(prices))`: the first position of the highest quote |
| `ArbitrageFinder.TruncTowardZero` | arbitrage_finder.py:32 | `int()` moves toward zero by less than 1 |
| `ArbitrageFinder.MinOutBound` | arbitrage_finder.py:32 | for a slippage in [0, 100], 0 ≤ min_out ≤ best_buy, and it equals best_buy at slippage 0 |
| `ArbitrageFinder.MinOut` | arbitrage_finder.py:32 | at slippage 0, `min_out` is the best buy quote |
| `ArbitrageFinder.FindIn` | arbitrage_finder.py:14-34 | raises iff there is no DEX; a record has a USD profit above the threshold, the requested amount, and DEXes from the list |
| `ArbitrageFinder.Prices` | arbitrage_finder.py:15-18 | one gathered quote per DEX |
| `ArbitrageFinder.SpreadIsWidest` | arbitrage_finder.py:20-23 | the spread max − min is non-negative and is the widest between any two quotes |
| `ArbitrageFinder.FindInExact` | arbitrage_finder.py:14-39 | raises iff there is no DEX; otherwise a record iff the USD profit exceeds the threshold, carrying the first cheapest and dearest DEX, the USD profit, the amount and min_out |
| `ArbitrageFinder.EqualQuotesNeedNegativeThreshold` | arbitrage_finder.py:23-26 | with equal quotes, a record appears iff the threshold is negative |

## Findings

| source | as written | input that shows it | evidently intended | confidence | as-written member | corrected member |
|---|---|---|---|---|---|---|
| src/services/monitoringService.js:58 | `getMetrics` calls `this.getRecentAlerts()`, which the class never defines, so every call throws a `TypeError` | any call, e.g. on the initial metrics with no alerts | return the metrics, the win rate and the recent alerts the service keeps in `this.alerts` | high (not executed) | `MonitoringService.GetMetricsAsWrittenFails` | `MonitoringService.GetMetricsWithCopies` |
| mempool_monitor.py:135 | `self.configs[chain]` indexes the list of configurations (line 32) with a `Chain`; the `TypeError` is caught at 142-143, so every new transaction is rejected and no hash is ever cached | configs `[MempoolConfig(ETH, …, max_gas=100)]`, transaction `{hash: '0xab', chain: ETH, gasPrice: 50, value: 0}` | look up the chain's configuration and compare the gas price with its `max_gas` | high (not executed) | `MempoolMonitor.CheckAsWrittenRejectsAll` | `MempoolMonitor.CheckExact` |
| src/services/flashLoanService.js:94-96 | `amount.mul(9)` hands bn.js `mul` the plain number 9, which has no `length`, so sizing the product's limb array throws RangeError; `div(10000)` (no `isZero` on a number) and `add` of the string `toWei` returns (sign-flag write on a primitive) would throw next. `checkProfitability` therefore always answers the bare `{isProfitable: false}` | any route, e.g. the placeholder quotes of `getPriceFromDex` with amount 0 | `amount.muln(9).divn(10000).add(toBN(toWei('0.05', 'ether')))` | high (not executed) | `FlashLoanService.CheckProfitabilityAsWrittenAlwaysFails` | `FlashLoanService.CheckProfitabilityIff` |
| src/services/sandwichService.js:113 | `tx.gasPrice > this.maxGasPrice` compares the node's decimal string with the string `toWei('100', 'gwei')`, which JavaScript does in lexicographic order | a swap with `gasPrice` `'30000000000'` (30 gwei): `'30000000000' > '100000000000'` holds, so it is rejected | compare the gas prices as numbers | medium (not executed; assumes the web3 1.x string representation) | `SandwichService.GasCapAsWrittenRejects30Gwei` | `SandwichService.AnalyzeIff` |

## Left out

- JavaScript number rounding. Quotes, wei amounts and profits are exact integers or reals, and NaN and ±Infinity are modelled (`JsNumber`). Rounding of doubles, Python `float()` and `Decimal` precision are not modelled, and neither is the string-to-number coercion of quotes.
- Clocks, timers and concurrency. `Date.now()`, `setInterval`/`setTimeout`, `Promise.all`, asyncio, executors and websocket loops are not modelled. Times are parameters. Timers are flags or handle sets. Parallel fetches run one after another.
- The node and the routers. Quotes (`getAmountsOut`, `getTokenPrice`, `dex.get_price`), pending transactions, swaps (`dexService.executeSwap`, which `dexService.js` does not define), `getOrderbook` and `getPriceFromDex` are function parameters. Their stubs are modelled where the source fixes them.
- Keccak selectors. `web3.utils.sha3(method).slice(0, 10)` is the parameter `selectorOf`.
- Indicators and volatility. `calculateIndicators` and `calculateVolatility` need square roots and floating point, so their results are parameters of `AnalyzeMarket`.
- Subscriber callbacks and logging. `notifySubscribers` is modelled as the update it sends, and loggers are not modelled.
- `FlashLoanService.executeFlashLoan` and the other RPC and wallet wrappers, because they only send transactions.
- The dashboard's rendering and the `fetch` and toast calls of Settings.jsx, because they are display code.
- Mempool `start` and the websocket and polling helpers, because they are I/O loops. For `stop`, the executor shutdown is not modelled.
- Error paths that depend on malformed runtime values, such as a quote that is not a number or a Map without values, are not modelled. Errors that the model's inputs can show are modelled as Result or Option values.
- FlashLoanService.CalculateFees: is the corrected fee. As written `calculateFees` throws at `amount.mul(9)` on line 94 and never answers (`FlashLoanService.FeesAsWrittenThrow`).
- FeesOfLoan: states the corrected fee sum. As written `calculateFees` throws (see Findings and `FlashLoanService.FeesAsWrittenThrow`).
- FeesMonotone: states monotonicity of the corrected fee sum, since the fee as written is never computed.
- CheckProfitabilityIff: describes the corrected check. As written every route takes the error path (`FlashLoanService.CheckProfitabilityAsWrittenAlwaysFails`).
- StubNeverProfitable: its first clause is about the corrected check; its second states the as-written answer.
- DexService.DexService.GetPrices: under web3 4.x `call()` returns a BigInt, so a zero quote `0n` would pass the `price !== '0'` test and be kept; the model follows the 1.x strings.
- ArbitrageService.FindBestPrices: under web3 4.x the sort comparator would return a BigInt, which makes `sort` throw; the model follows the 1.x strings, where the subtraction coerces them to numbers.
- ArbitrageService.ArbitrageService.FindArbitrageOpportunities: one `pricesOf` answers both the direct pass and the triangular hops of a scan; the source calls `getPrices` again for the hops, and once the 200 ms cache entry has expired that second call can see different quotes. No property proved here depends on it (`ArbitrageService.TriangularNeverEmits` holds for any reply).
- ArbitrageService.ArbitrageService.FindArbitrageOpportunities: under web3 4.x the throwing sort and the BigInt-minus-string profit would send every scan to its catch, which answers `[]`; the model follows the 1.x strings.
- SandwichService.SandwichService.HandlePendingTransaction: admits swaps under the corrected numeric gas cap. As written `handlePendingTransaction` (`src/services/sandwichService.js:49`) calls the string-comparing analyzer, so a running scanner would also reject swaps such as one paying 30 gwei (`SandwichService.GasCapAsWrittenRejects30Gwei`); as wired the scanner never runs (`SandwichService.HttpProviderScanFindsNothing`).
- SandwichService.DecodeSwapTransaction: `parseInt` of a 64-digit word is rounded to a double; the model keeps the exact integer.
- TradingService.Profit: a non-finite triangular profit ranks as 0 here. JavaScript's `sort` with a NaN comparator result is implementation-defined, and the model never sees one, because on reported quotes no triangular record is ever emitted (`ArbitrageService.TriangularNeverEmits`).
- ExecutionService.ExecutionService.ExecuteStrategy: the 500 ms wait is reported as the flag `waited`, and the id's timestamp and the completion time are parameters instead of clock reads.
- PriceService.PriceService.UpdatePrices: the in-flight flag is set and cleared within one call; another refresh running at the same time is not modelled.
