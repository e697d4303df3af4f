/**
 * The flash-loan profitability check (`FlashLoanService`): a fee of 0.09 % of
 * the loan plus a flat gas estimate of 0.05 ether, in big-integer wei, set
 * against the spread between two venues' quotes. As written the fee
 * computation throws at its first step, a bn.js `mul` by a plain number, so
 * the check always takes its error path (`CalculateFeesAsWritten`,
 * `CheckProfitabilityAsWritten`); `CalculateFees` and `CheckProfitability`
 * are the corrected definitions.
 */
module FlashLoanService {
  import opened Common
  import opened Constants

  /** `toWei('0.05', 'ether')`: the gas estimate added to every fee, as the number it denotes. */
  const EstimatedGas: int := 50_000_000_000_000_000

  /** What `toWei('0.05', 'ether')` actually returns: a decimal string. */
  const EstimatedGasString: string := "50000000000000000"

  /** Big-integer division, which truncates toward zero. */
  function TruncDiv(a: int, d: int): (q: int)
    requires d > 0
    ensures a >= 0 ==> q == a / d
    ensures a < 0 ==> q == -((-a) / d)
  {
    if a >= 0 then a / d else -((-a) / d)
  }

  /** The JavaScript value handed to a bn.js method: a big number, a plain number or a string. */
  datatype Operand = Big(n: int) | Number(x: int) | Str(s: string)

  /** Why a bn.js call throws. */
  datatype BnError =
    | InvalidArrayLength          // RangeError: the limb array of the product is sized by an undefined `length`
    | SignFlagWrite(arg: Operand) // TypeError: writing the sign flag `negative` onto a primitive in strict mode
    | NotABigNumber(arg: Operand) // TypeError: the operand has none of the limbs (`words`) or methods of a BN
    | ZeroDivisor                 // the assertion that the divisor is not zero

  /**
   * bn.js `a.mul(b)`. It first allocates `new Array(this.length + b.length)`;
   * a plain number has no `length`, the size is NaN, and the allocation
   * throws. A string has a length, but reading its limbs then fails.
   */
  function BnMul(a: int, b: Operand): (r: Result<int, BnError>)
    ensures b.Big? ==> r == Ok(a * b.n)
    ensures b.Number? ==> r == Err(InvalidArrayLength)
    ensures b.Str? ==> r == Err(NotABigNumber(b))
  {
    match b
    case Big(n) => Ok(a * n)
    case Number(_) => Err(InvalidArrayLength)
    case Str(_) => Err(NotABigNumber(b))
  }

  /**
   * bn.js `a.div(b)`: the quotient truncated toward zero. It first asks
   * `b.isZero()`, which neither a plain number nor a string provides.
   */
  function BnDiv(a: int, b: Operand): (r: Result<int, BnError>)
    ensures b.Big? && b.n > 0 ==> r == Ok(TruncDiv(a, b.n))
    ensures b.Big? && b.n < 0 ==> r == Ok(-TruncDiv(a, -b.n))
    ensures b.Big? && b.n == 0 ==> r == Err(ZeroDivisor)
    ensures !b.Big? ==> r == Err(NotABigNumber(b))
  {
    match b
    case Big(n) => if n > 0 then Ok(TruncDiv(a, n)) else if n < 0 then Ok(-TruncDiv(a, -n)) else Err(ZeroDivisor)
    case _ => Err(NotABigNumber(b))
  }

  /**
   * bn.js `a.add(b)`. For a non-negative `a` its first step assigns
   * `b.negative = 0`, since a primitive carries no zero sign flag, and the
   * assignment throws under the library's strict mode. For a negative `a` it
   * goes on to `b.clone()` or to `b`'s limbs, which a primitive lacks (the
   * model takes this for every string; an empty string, which the program
   * never passes, would slip through).
   */
  function BnAdd(a: int, b: Operand): (r: Result<int, BnError>)
    ensures b.Big? ==> r == Ok(a + b.n)
    ensures !b.Big? && a >= 0 ==> r == Err(SignFlagWrite(b))
    ensures !b.Big? && a < 0 ==> r == Err(NotABigNumber(b))
  {
    match b
    case Big(n) => Ok(a + n)
    case _ => if a >= 0 then Err(SignFlagWrite(b)) else Err(NotABigNumber(b))
  }

  /** `amount.mul(factor).div(divisor).add(gas)`, the shape of `calculateFees`; the first throw ends it. */
  function FeeChain(amount: int, factor: Operand, divisor: Operand, gas: Operand): Result<int, BnError>
  {
    match BnMul(amount, factor)
    case Err(e) => Err(e)
    case Ok(product) =>
      match BnDiv(product, divisor)
      case Err(e) => Err(e)
      case Ok(fee) => BnAdd(fee, gas)
  }

  /**
   * `calculateFees` as written: the route's amount is a BN, but the factor 9
   * and the divisor 10000 are plain numbers and the gas estimate is the
   * string `toWei` returns.
   */
  function CalculateFeesAsWritten(amount: int): Result<int, BnError>
  {
    FeeChain(amount, Number(9), Number(10000), Str(EstimatedGasString))
  }

  /**
   * The corrected fee, `amount.muln(9).divn(10000).add(toBN(toWei('0.05',
   * 'ether')))`: `amount * 9 / 10000` (truncated) plus 0.05 ether.
   */
  function CalculateFees(amount: int): (fees: int)
    ensures amount >= 0 ==> fees >= EstimatedGas
  {
    TruncDiv(amount * 9, 10000) + EstimatedGas
  }

  /**
   * As written, the fee computation throws at `mul(9)` whatever the amount,
   * and each later step would throw too: `div(10000)` on its plain number and
   * `add` on the estimate string. With big-number operands throughout the
   * chain answers the corrected fee.
   */
  lemma FeesAsWrittenThrow(amount: int)
    ensures CalculateFeesAsWritten(amount) == Err(InvalidArrayLength)
    ensures BnDiv(amount, Number(10000)).Err?
    ensures amount >= 0 ==> BnAdd(amount, Str(EstimatedGasString)) == Err(SignFlagWrite(Str(EstimatedGasString)))
    ensures FeeChain(amount, Big(9), Big(10000), Big(EstimatedGas)) == Ok(CalculateFees(amount))
  {
  }

  /**
   * For a non-negative loan the fee is the gas estimate plus 9/10000 of the
   * amount rounded down, so it never falls below 0.05 ether.
   */
  lemma FeesOfLoan(amount: int)
    requires amount >= 0
    ensures var flash := CalculateFees(amount) - EstimatedGas;
      10000 * flash <= 9 * amount < 10000 * flash + 10000
    ensures CalculateFees(amount) >= EstimatedGas
  {
  }

  /** Truncating division by the fee divisor is monotone. */
  lemma TruncDivMonotone(a: int, b: int)
    requires a <= b
    ensures TruncDiv(a, 10000) <= TruncDiv(b, 10000)
  {
    if a >= 0 {
      assert a / 10000 <= b / 10000;
    } else if b >= 0 {
      assert TruncDiv(a, 10000) <= 0 <= TruncDiv(b, 10000);
    } else {
      assert (-b) / 10000 <= (-a) / 10000;
    }
  }

  /** A larger loan never costs less. */
  lemma FeesMonotone(a: int, b: int)
    requires a <= b
    ensures CalculateFees(a) <= CalculateFees(b)
  {
    TruncDivMonotone(a * 9, b * 9);
  }

  /** The route `checkProfitability` receives. */
  datatype Route = Route(sourceToken: Address, targetToken: Address, amount: int)

  /** What `checkProfitability` returns: the bare `{isProfitable: false}` of its error path, or the full record. */
  datatype Profitability =
    | Failed
    | Checked(isProfitable: bool, expectedProfit: int, buy: int, sell: int, fees: int)

  /** A quote `getPriceFromDex(dex, tokenIn, tokenOut, amount)`; `None` when the call rejects. */
  type PriceSource = (string, Address, Address, int) -> Option<int>

  /**
   * `checkProfitability` as written: the fees come from the throwing
   * `calculateFees`, so the catch answers the bare unprofitable record.
   */
  function CheckProfitabilityAsWritten(route: Option<Route>, priceFrom: PriceSource): Profitability
  {
    if route.None? then Failed
    else
      var r := route.value;
      var priceA := priceFrom("quickswap", r.sourceToken, r.targetToken, r.amount);
      var priceB := priceFrom("sushiswap", r.sourceToken, r.targetToken, r.amount);
      if priceA.None? || priceB.None? then Failed
      else
        var profit := priceB.value - priceA.value;
        match CalculateFeesAsWritten(r.amount)
        case Err(_) => Failed
        case Ok(fees) => Checked(profit > fees, profit - fees, priceA.value, priceB.value, fees)
  }

  /** As written, every route, whatever the quotes, is answered with the bare `{isProfitable: false}`. */
  lemma CheckProfitabilityAsWrittenAlwaysFails(route: Option<Route>, priceFrom: PriceSource)
    ensures CheckProfitabilityAsWritten(route, priceFrom) == Failed
  {
    if route.Some? {
      FeesAsWrittenThrow(route.value.amount);
    }
  }

  /**
   * `checkProfitability` with the corrected fees: the QuickSwap quote is the
   * buy side and the SushiSwap quote the sell side; the route is profitable
   * when their difference exceeds the fees. A missing route or a rejected
   * quote is an error, answered with the bare unprofitable record.
   */
  function CheckProfitability(route: Option<Route>, priceFrom: PriceSource): (c: Profitability)
    ensures route.None? ==> c.Failed?
    ensures c.Checked? ==> c.expectedProfit + c.fees == c.sell - c.buy && (c.isProfitable <==> c.expectedProfit > 0)
  {
    if route.None? then Failed
    else
      var r := route.value;
      var priceA := priceFrom("quickswap", r.sourceToken, r.targetToken, r.amount);
      var priceB := priceFrom("sushiswap", r.sourceToken, r.targetToken, r.amount);
      if priceA.None? || priceB.None? then Failed
      else
        var profit := priceB.value - priceA.value;
        var fees := CalculateFees(r.amount);
        Checked(profit > fees, profit - fees, priceA.value, priceB.value, fees)
  }

  /**
   * The check answers a full record iff the route and both quotes exist; the
   * route is then profitable iff sell − buy exceeds the fees, the expected
   * profit is the spread net of the fees (positive exactly when profitable),
   * and the record echoes both quotes and the fees.
   */
  lemma CheckProfitabilityIff(route: Option<Route>, priceFrom: PriceSource)
    ensures CheckProfitability(route, priceFrom).Failed? <==>
      route.None?
      || priceFrom("quickswap", route.value.sourceToken, route.value.targetToken, route.value.amount).None?
      || priceFrom("sushiswap", route.value.sourceToken, route.value.targetToken, route.value.amount).None?
    ensures CheckProfitability(route, priceFrom).Checked? ==>
      var c := CheckProfitability(route, priceFrom);
      var r := route.value;
      c.buy == priceFrom("quickswap", r.sourceToken, r.targetToken, r.amount).value
      && c.sell == priceFrom("sushiswap", r.sourceToken, r.targetToken, r.amount).value
      && c.fees == CalculateFees(r.amount)
      && c.expectedProfit + c.fees == c.sell - c.buy
      && (c.isProfitable <==> c.sell - c.buy > c.fees)
      && (c.isProfitable <==> c.expectedProfit > 0)
  {
  }

  /** The placeholder `getPriceFromDex`: zero for every request. */
  function StubPrice(dex: string, tokenIn: Address, tokenOut: Address, amount: int): Option<int>
  {
    Some(0)
  }

  /**
   * With the placeholder quotes the spread is zero, so once the fees are
   * corrected a non-negative loan is never profitable; as written the check
   * answers the bare record instead.
   */
  lemma StubNeverProfitable(route: Route)
    requires route.amount >= 0
    ensures var c := CheckProfitability(Some(route), StubPrice);
      c.Checked? && !c.isProfitable && c.expectedProfit == -CalculateFees(route.amount)
    ensures CheckProfitabilityAsWritten(Some(route), StubPrice) == Failed
  {
    FeesOfLoan(route.amount);
    CheckProfitabilityAsWrittenAlwaysFails(Some(route), StubPrice);
  }
}
