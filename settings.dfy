/**
 * The dashboard's settings form (`Settings`): the form state, the field edit
 * `handleChange` applies, and the `validateSettings` checks run before a save.
 */
module Settings {
  import opened Common
  import opened JsNumber

  datatype Network = Network(chainId: nat, name: string)

  /** The form state. The numeric fields hold whatever `parseInt`/`parseFloat` gave, `NaN` included. */
  datatype Settings = Settings(
    rpcUrl: string, walletAddress: string, privateKey: string,
    minProfit: real, maxTradeAmount: real, autoRestart: bool, flashLoanProvider: string,
    minCapital: Num, maxLeverage: real, slippageTolerance: real, gasLimit: Num,
    networks: seq<Network>, selectedNetwork: Num, tradingPairs: seq<string>,
    customRpcEndpoints: string, parallelExecutions: Num, maxRetries: Num,
    priceImpactThreshold: Num)

  /** The initial state of the form. */
  const Defaults: Settings := Settings(
    "", "", "", 0.5, 1000.0, false, "aave",
    Finite(100.0), 3.0, 0.5, Finite(500000.0),
    [Network(1, "Ethereum"), Network(56, "BSC"), Network(137, "Polygon"), Network(42161, "Arbitrum")],
    Finite(1.0), ["WETH/USDT", "WBTC/USDT", "USDC/USDT"],
    "", Finite(3.0), Finite(3.0), Finite(1.0))

  const RpcUrlRequired: string := "RPC URL is required"
  const CapitalTooLow: string := "Minimum capital requirement is 100 USDT"
  const CredentialsRequired: string := "Wallet address and private key are required"
  const ImpactOutOfRange: string := "Price impact threshold must be between 0.1% and 5%"

  const MinCapitalRequired: real := 100.0
  const MinPriceImpact: real := 0.1
  const MaxPriceImpact: real := 5.0

  /** `validateSettings`: the first failing check's message. */
  function ValidateSettings(s: Settings): (r: Result<(), string>)
    ensures r.Ok? ==> s.rpcUrl != "" && s.walletAddress != "" && s.privateKey != ""
    ensures r.Err? ==> r.error in {RpcUrlRequired, CapitalTooLow, CredentialsRequired, ImpactOutOfRange}
  {
    if s.rpcUrl == "" then Err(RpcUrlRequired)
    else if Lt(s.minCapital, Finite(MinCapitalRequired)) then Err(CapitalTooLow)
    else if s.walletAddress == "" || s.privateKey == "" then Err(CredentialsRequired)
    else if Lt(s.priceImpactThreshold, Finite(MinPriceImpact)) || Gt(s.priceImpactThreshold, Finite(MaxPriceImpact))
    then Err(ImpactOutOfRange)
    else Ok(())
  }

  /**
   * For finite numbers the settings pass iff the RPC URL, wallet address and
   * private key are non-empty, the capital is at least 100 and the price
   * impact threshold lies in [0.1, 5], both ends included.
   */
  lemma ValidateSettingsIff(s: Settings)
    requires s.minCapital.Finite? && s.priceImpactThreshold.Finite?
    ensures ValidateSettings(s).Ok? <==>
      s.rpcUrl != "" && s.walletAddress != "" && s.privateKey != ""
      && s.minCapital.v >= MinCapitalRequired
      && MinPriceImpact <= s.priceImpactThreshold.v <= MaxPriceImpact
  {
  }

  /**
   * The checks run in order: an empty RPC URL is reported whatever else is
   * wrong, then a low capital, then missing credentials.
   */
  lemma ValidateSettingsOrder(s: Settings)
    ensures s.rpcUrl == "" ==> ValidateSettings(s) == Err(RpcUrlRequired)
    ensures s.rpcUrl != "" && Lt(s.minCapital, Finite(MinCapitalRequired)) ==> ValidateSettings(s) == Err(CapitalTooLow)
    ensures s.rpcUrl != "" && !Lt(s.minCapital, Finite(MinCapitalRequired)) && (s.walletAddress == "" || s.privateKey == "") ==>
      ValidateSettings(s) == Err(CredentialsRequired)
  {
  }

  /** A cleared numeric field parses to `NaN`, which no comparison rejects. */
  lemma NaNPassesNumericChecks(s: Settings)
    requires s.rpcUrl != "" && s.walletAddress != "" && s.privateKey != ""
    ensures ValidateSettings(s.(minCapital := NaN, priceImpactThreshold := NaN)).Ok?
  {
  }

  /** One field edit, carrying the value the form's `onChange` parsed. */
  datatype Edit =
    | RpcUrl(text: string)
    | CustomRpcEndpoints(text: string)
    | SelectedNetwork(number: Num)
    | WalletAddress(text: string)
    | PrivateKey(text: string)
    | FlashLoanProvider(text: string)
    | MinCapital(number: Num)
    | ParallelExecutions(number: Num)
    | PriceImpactThreshold(number: Num)
    | MaxRetries(number: Num)
    | GasLimit(number: Num)
    | AutoRestart(flag: bool)

  /** `handleChange(field, value)`: `{...prev, [field]: value}`. */
  function HandleChange(s: Settings, e: Edit): (t: Settings)
    ensures t.networks == s.networks && t.tradingPairs == s.tradingPairs && t.minProfit == s.minProfit
    ensures !Validated(e) ==>
      t.rpcUrl == s.rpcUrl && t.walletAddress == s.walletAddress && t.privateKey == s.privateKey
      && t.minCapital == s.minCapital && t.priceImpactThreshold == s.priceImpactThreshold
  {
    match e
    case RpcUrl(v) => s.(rpcUrl := v)
    case CustomRpcEndpoints(v) => s.(customRpcEndpoints := v)
    case SelectedNetwork(v) => s.(selectedNetwork := v)
    case WalletAddress(v) => s.(walletAddress := v)
    case PrivateKey(v) => s.(privateKey := v)
    case FlashLoanProvider(v) => s.(flashLoanProvider := v)
    case MinCapital(v) => s.(minCapital := v)
    case ParallelExecutions(v) => s.(parallelExecutions := v)
    case PriceImpactThreshold(v) => s.(priceImpactThreshold := v)
    case MaxRetries(v) => s.(maxRetries := v)
    case GasLimit(v) => s.(gasLimit := v)
    case AutoRestart(v) => s.(autoRestart := v)
  }

  /** Whether validation reads the field an edit writes. */
  predicate Validated(e: Edit)
  {
    e.RpcUrl? || e.WalletAddress? || e.PrivateKey? || e.MinCapital? || e.PriceImpactThreshold?
  }

  /**
   * An edit is idempotent and replaces only its own field: validation gives
   * the same verdict after an edit to a field it does not read.
   */
  lemma HandleChangeLocal(s: Settings, e: Edit)
    ensures HandleChange(HandleChange(s, e), e) == HandleChange(s, e)
    ensures !Validated(e) ==> ValidateSettings(HandleChange(s, e)) == ValidateSettings(s)
    ensures e.RpcUrl? ==> HandleChange(s, e) == s.(rpcUrl := e.text)
    ensures e.CustomRpcEndpoints? ==> HandleChange(s, e) == s.(customRpcEndpoints := e.text)
    ensures e.SelectedNetwork? ==> HandleChange(s, e) == s.(selectedNetwork := e.number)
    ensures e.WalletAddress? ==> HandleChange(s, e) == s.(walletAddress := e.text)
    ensures e.PrivateKey? ==> HandleChange(s, e) == s.(privateKey := e.text)
    ensures e.FlashLoanProvider? ==> HandleChange(s, e) == s.(flashLoanProvider := e.text)
    ensures e.MinCapital? ==> HandleChange(s, e) == s.(minCapital := e.number)
    ensures e.ParallelExecutions? ==> HandleChange(s, e) == s.(parallelExecutions := e.number)
    ensures e.PriceImpactThreshold? ==> HandleChange(s, e) == s.(priceImpactThreshold := e.number)
    ensures e.MaxRetries? ==> HandleChange(s, e) == s.(maxRetries := e.number)
    ensures e.GasLimit? ==> HandleChange(s, e) == s.(gasLimit := e.number)
    ensures e.AutoRestart? ==> HandleChange(s, e) == s.(autoRestart := e.flag)
  {
  }

  /**
   * The initial form fails only on its empty RPC URL: once that is filled in,
   * the empty credentials are the next failure; capital and threshold pass.
   */
  lemma DefaultsFailOnlyOnRpcUrl(url: string, wallet: string, key: string)
    requires url != "" && wallet != "" && key != ""
    ensures ValidateSettings(Defaults) == Err(RpcUrlRequired)
    ensures ValidateSettings(HandleChange(Defaults, RpcUrl(url))) == Err(CredentialsRequired)
    ensures ValidateSettings(HandleChange(HandleChange(HandleChange(Defaults, RpcUrl(url)),
                                                       WalletAddress(wallet)), PrivateKey(key))).Ok?
  {
  }
}
