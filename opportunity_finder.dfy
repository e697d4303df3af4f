/**
 * The Solana-side transaction analyser (`OpportunityFinder`): a price impact
 * read off a pending transaction, a simulated profit, a strategy choice and
 * the execution parameters handed on. Decimal arithmetic is exact, so it is
 * modelled on `real`.
 */
module OpportunityFinder {
  import opened Common

  /** `self.min_profit`, in SOL. */
  const MinProfit: real := 0.01
  /** Impact above which the simulation expects a profit. */
  const ArbitrageThreshold: real := 0.02
  /** Share of the impact the simulation expects to capture. */
  const CaptureRate: real := 0.5
  /** Impact above which the strategy is a sandwich. */
  const SandwichThreshold: real := 0.05
  /** `max_position`, in SOL. */
  const MaxPosition: real := 0.5
  /** The impact `_calculate_price_impact` reports for every transaction. */
  const StubImpact: real := 0.01

  /** The keys of `tx_data` the analyser reads; `None` for a missing key. */
  datatype TxData = TxData(tokenIn: Option<string>, tokenOut: Option<string>)

  datatype PriceImpact = PriceImpact(tokenIn: string, tokenOut: string, impact: real)

  datatype Strategy = Sandwich | Arbitrage

  datatype ExecutionParams = ExecutionParams(
    strategy: Strategy, tokenIn: string, tokenOut: string, minProfit: real, maxPosition: real)

  datatype OpportunityRecord = OpportunityRecord(profit: real, strategy: Strategy, params: ExecutionParams)

  /** `_calculate_price_impact`: the two tokens and the fixed impact; a missing key gives `None`. */
  function CalculatePriceImpact(tx: TxData): (r: Option<PriceImpact>)
    ensures r.Some? <==> tx.tokenIn.Some? && tx.tokenOut.Some?
    ensures r.Some? ==> r.value.tokenIn == tx.tokenIn.value && r.value.tokenOut == tx.tokenOut.value
  {
    if tx.tokenIn.None? || tx.tokenOut.None? then None
    else Some(PriceImpact(tx.tokenIn.value, tx.tokenOut.value, StubImpact))
  }

  /** `_simulate_arbitrage`: half the impact above 2 %, nothing otherwise. */
  function SimulateArbitrage(pi: PriceImpact): (profit: real)
    ensures profit >= 0.0
    ensures profit > 0.0 ==> pi.impact > ArbitrageThreshold
  {
    if pi.impact > ArbitrageThreshold then pi.impact * CaptureRate else 0.0
  }

  /**
   * The simulated profit clears the 0.01 minimum exactly when the impact
   * exceeds 2 %, and it never exceeds a positive impact.
   */
  lemma SimulateArbitrageClears(pi: PriceImpact)
    ensures SimulateArbitrage(pi) > MinProfit <==> pi.impact > ArbitrageThreshold
    ensures SimulateArbitrage(pi) >= 0.0
    ensures pi.impact > 0.0 ==> SimulateArbitrage(pi) < pi.impact
  {
  }

  /** `_determine_strategy`. */
  function DetermineStrategy(pi: PriceImpact): (st: Strategy)
    ensures st == Sandwich ==> SimulateArbitrage(pi) > MinProfit
  {
    if pi.impact > SandwichThreshold then Sandwich else Arbitrage
  }

  /** `_build_execution_params`; `strategy` is the `method` key. */
  function BuildExecutionParams(tx: TxData, pi: PriceImpact): (p: ExecutionParams)
    ensures p.tokenIn == pi.tokenIn && p.tokenOut == pi.tokenOut
    ensures p.minProfit == MinProfit && p.maxPosition == MaxPosition
    ensures p.strategy == Sandwich ==> pi.impact > SandwichThreshold
  {
    ExecutionParams(DetermineStrategy(pi), pi.tokenIn, pi.tokenOut, MinProfit, MaxPosition)
  }

  /** What `analyze_transaction` does with an impact record once it has one. */
  function Evaluate(tx: TxData, pi: PriceImpact): Option<OpportunityRecord>
  {
    var profit := SimulateArbitrage(pi);
    if profit > MinProfit
    then Some(OpportunityRecord(profit, DetermineStrategy(pi), BuildExecutionParams(tx, pi)))
    else None
  }

  /** `analyze_transaction`. */
  function AnalyzeTransaction(tx: TxData): (r: Option<OpportunityRecord>)
    ensures r.Some? ==> r.value.profit > MinProfit && tx.tokenIn.Some? && tx.tokenOut.Some?
  {
    match CalculatePriceImpact(tx)
    case None => None
    case Some(pi) => Evaluate(tx, pi)
  }

  /**
   * An impact yields a record iff it exceeds 2 %; the record carries half the
   * impact as profit, a sandwich strategy iff the impact exceeds 5 %, the same
   * strategy in its parameters, the impact's tokens, and the fixed 0.01 / 0.5
   * amounts.
   */
  lemma EvaluateExact(tx: TxData, pi: PriceImpact)
    ensures Evaluate(tx, pi).Some? <==> pi.impact > ArbitrageThreshold
    ensures Evaluate(tx, pi).Some? ==>
      var r := Evaluate(tx, pi).value;
      r.profit == pi.impact * CaptureRate
      && (r.strategy == Sandwich <==> pi.impact > SandwichThreshold)
      && r.params.strategy == r.strategy
      && r.params.tokenIn == pi.tokenIn && r.params.tokenOut == pi.tokenOut
      && r.params.minProfit == MinProfit && r.params.maxPosition == MaxPosition
  {
    SimulateArbitrageClears(pi);
  }

  /**
   * A missing token key yields no record; a well-formed transaction gets the
   * fixed 1 % impact, which is below the 2 % threshold, so no transaction
   * yields a record.
   */
  lemma AnalyzeTransactionNeverFires(tx: TxData)
    ensures tx.tokenIn.None? || tx.tokenOut.None? ==> CalculatePriceImpact(tx).None?
    ensures AnalyzeTransaction(tx) == None
  {
    if CalculatePriceImpact(tx).Some? {
      EvaluateExact(tx, CalculatePriceImpact(tx).value);
    }
  }
}
