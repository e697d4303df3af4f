/** The trading constants and the token table shared by the JavaScript services. */
module Constants {

  /** A contract address, as the `0x`-prefixed hexadecimal string the node uses. */
  type Address = string

  /**
   * The entries of the `TOKENS` object. The scanners identify a token by its
   * entry; `AddressOf` gives the contract address the entry stands for.
   */
  datatype Token = WMATIC | USDC | WETH | WBTC | DAI | USDT

  /** `Object.values(TOKENS)`, in declaration order. */
  const AllTokens: seq<Token> := [WMATIC, USDC, WETH, WBTC, DAI, USDT]

  /** The key of a `TOKENS` entry. */
  function KeyOf(t: Token): string
  {
    match t
    case WMATIC => "WMATIC"
    case USDC => "USDC"
    case WETH => "WETH"
    case WBTC => "WBTC"
    case DAI => "DAI"
    case USDT => "USDT"
  }

  /** The address of a `TOKENS` entry. */
  function AddressOf(t: Token): Address
  {
    match t
    case WMATIC => "0x0d500B1d8E8eF31E21C99d1Db9A6444d3ADf1270"
    case USDC => "0x2791Bca1f2de4661ED88A30C99A7a9449Aa84174"
    case WETH => "0x7ceB23fD6bC0adD59E62ac25578270cFf1b9f619"
    case WBTC => "0x1BFD67037B42Cf73acF2047067bd4F2C47D9BfD6"
    case DAI => "0x8f3Cf7ad23Cd3CaDbD9735AFf958023239c6A063"
    case USDT => "0xc2132D05D31c914a87C6611C10748AEb04B58e8F"
  }

  /** Every token is listed once. */
  lemma AllTokensListsEachOnce()
    ensures |AllTokens| == 6
    ensures forall t: Token :: t in AllTokens
    ensures forall i, j :: 0 <= i < j < |AllTokens| ==> AllTokens[i] != AllTokens[j]
  {
    forall t: Token
      ensures t in AllTokens
    {
      match t
      case WMATIC => assert AllTokens[0] == t;
      case USDC => assert AllTokens[1] == t;
      case WETH => assert AllTokens[2] == t;
      case WBTC => assert AllTokens[3] == t;
      case DAI => assert AllTokens[4] == t;
      case USDT => assert AllTokens[5] == t;
    }
  }

  /** One ether (and one token of 18 decimals) in wei. */
  const Ether: nat := 1_000_000_000_000_000_000
  /** One gwei in wei. */
  const Gwei: nat := 1_000_000_000

  /** `MIN_PROFIT = 0.0005` ether, in wei once passed through `toWei`. */
  const MinProfitWei: nat := 500_000_000_000_000
  /** `MIN_CAPITAL = 10` (MATIC). */
  const MinCapital: real := 10.0
  /** `PRICE_UPDATE_INTERVAL = 50` ms. */
  const PriceUpdateInterval: int := 50
}
