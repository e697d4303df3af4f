/**
 * The mempool pre-filter (`EnhancedMempoolMonitor._is_profitable_opportunity`):
 * a per-chain cache of the last 10 000 transaction hashes seen, and a gas
 * price cap taken from the chain's configuration.
 */
module MempoolMonitor {
  import opened Common

  datatype Chain = ETH | BSC | POLYGON | ARBITRUM | OPTIMISM | AVALANCHE

  const AllChains: set<Chain> := {ETH, BSC, POLYGON, ARBITRUM, OPTIMISM, AVALANCHE}

  /** `for chain in Chain` visits every chain. */
  lemma AllChainsComplete()
    ensures forall c: Chain :: c in AllChains
  {
    forall c: Chain
      ensures c in AllChains
    {
      match c
      case ETH =>
      case BSC =>
      case POLYGON =>
      case ARBITRUM =>
      case OPTIMISM =>
      case AVALANCHE =>
    }
  }

  /** `deque(maxlen=10000)`. */
  const CacheLimit: nat := 10000

  /** The configuration fields the filter reads. */
  datatype MempoolConfig = MempoolConfig(chain: Chain, minProfit: real, maxGas: int)

  /** `tx_data.get('hash')`: `None` when absent, and cached as such. */
  type Hash = Option<string>

  /**
   * The fields of `tx_data` the filter reads: the hash; the chain (`None`
   * when absent or not a `Chain`, which misses the cache table); and the
   * results of `int(...)` on the gas price and value (`None` when `int` raises).
   */
  datatype TxData = TxData(hash: Hash, chain: Option<Chain>, gasPrice: Option<int>, value: Option<int>)

  type Cache = map<Chain, seq<Hash>>

  /** One entry per chain, each within the deque's bound. */
  predicate CacheValid(cache: Cache)
  {
    (forall c: Chain :: c in cache) && (forall c :: c in cache ==> |cache[c]| <= CacheLimit)
  }

  /** The empty cache `__init__` builds. */
  function EmptyCache(): (cache: Cache)
    ensures CacheValid(cache)
    ensures forall c :: c in cache ==> cache[c] == []
  {
    AllChainsComplete();
    map c | c in AllChains :: []
  }

  /** `deque.append` on a deque with `maxlen=10000`: a full deque drops its oldest hash. */
  function BoundedAppend(q: seq<Hash>, h: Hash): seq<Hash>
  {
    if |q| >= CacheLimit then q[1..] + [h] else q + [h]
  }

  /** The appended hash is the newest and the bound holds; only the oldest can be dropped. */
  lemma BoundedAppendExact(q: seq<Hash>, h: Hash)
    requires |q| <= CacheLimit
    ensures var r := BoundedAppend(q, h);
      |r| <= CacheLimit && r[|r| - 1] == h && h in r
      && (|q| < CacheLimit ==> r == q + [h])
      && (|q| == CacheLimit ==> r == q[1..] + [h])
  {
  }

  /** The filter's answer and the cache it leaves. */
  datatype Verdict = Verdict(admit: bool, cache: Cache)

  /**
   * The filter as written. After the cache and parse checks it evaluates
   * `self.configs[chain]`, indexing the list of configurations by a `Chain`,
   * which raises `TypeError`; the handler answers `False` before the append.
   */
  function CheckAsWritten(configs: seq<MempoolConfig>, cache: Cache, tx: TxData): (v: Verdict)
    ensures !v.admit
  {
    if tx.chain.None? || tx.chain.value !in cache then Verdict(false, cache)
    else if tx.hash in cache[tx.chain.value] then Verdict(false, cache)
    else if tx.gasPrice.None? || tx.value.None? then Verdict(false, cache)
    else Verdict(false, cache)
  }

  /** As written, no transaction is ever admitted and the cache never changes. */
  lemma CheckAsWrittenRejectsAll(configs: seq<MempoolConfig>, cache: Cache, tx: TxData)
    ensures CheckAsWritten(configs, cache, tx) == Verdict(false, cache)
  {
  }

  /** The configuration for `chain`: the first one naming it. */
  function ConfigFor(configs: seq<MempoolConfig>, chain: Chain): (r: Option<MempoolConfig>)
    ensures r.Some? ==> r.value in configs && r.value.chain == chain
    ensures r.None? <==> forall i :: 0 <= i < |configs| ==> configs[i].chain != chain
  {
    if configs == [] then None
    else if configs[0].chain == chain then Some(configs[0])
    else ConfigFor(configs[1..], chain)
  }

  /**
   * The filter with the configuration looked up by chain: a chain without
   * cache or configuration, a hash seen before, an unparsable number or a gas
   * price above the cap answers `False` with the cache unchanged; otherwise
   * the hash is appended and the answer is `True`.
   */
  function Check(configs: seq<MempoolConfig>, cache: Cache, tx: TxData): (v: Verdict)
    ensures !v.admit ==> v.cache == cache
    ensures v.admit ==>
      tx.chain.Some? && tx.chain.value in cache && tx.hash !in cache[tx.chain.value]
      && tx.gasPrice.Some? && tx.value.Some? && ConfigFor(configs, tx.chain.value).Some?
  {
    if tx.chain.None? || tx.chain.value !in cache then Verdict(false, cache)
    else
      var chain := tx.chain.value;
      if tx.hash in cache[chain] then Verdict(false, cache)
      else if tx.gasPrice.None? || tx.value.None? then Verdict(false, cache)
      else
        var config := ConfigFor(configs, chain);
        if config.None? then Verdict(false, cache)
        else if tx.gasPrice.value > config.value.maxGas then Verdict(false, cache)
        else Verdict(true, cache[chain := BoundedAppend(cache[chain], tx.hash)])
  }

  /** When the filter admits a transaction, and what it leaves in the cache. */
  lemma CheckExact(configs: seq<MempoolConfig>, cache: Cache, tx: TxData)
    requires CacheValid(cache)
    ensures Check(configs, cache, tx).admit <==>
      tx.chain.Some? && tx.hash !in cache[tx.chain.value]
      && tx.gasPrice.Some? && tx.value.Some?
      && ConfigFor(configs, tx.chain.value).Some?
      && tx.gasPrice.value <= ConfigFor(configs, tx.chain.value).value.maxGas
    ensures !Check(configs, cache, tx).admit ==> Check(configs, cache, tx).cache == cache
    ensures Check(configs, cache, tx).admit ==>
      Check(configs, cache, tx).cache == cache[tx.chain.value := BoundedAppend(cache[tx.chain.value], tx.hash)]
    ensures CacheValid(Check(configs, cache, tx).cache)
  {
    if tx.chain.Some? {
      BoundedAppendExact(cache[tx.chain.value], tx.hash);
    }
  }

  /** A transaction admitted once is rejected when it comes again. */
  lemma CheckDeduplicates(configs: seq<MempoolConfig>, cache: Cache, tx: TxData)
    requires CacheValid(cache) && Check(configs, cache, tx).admit
    ensures !Check(configs, Check(configs, cache, tx).cache, tx).admit
    ensures Check(configs, Check(configs, cache, tx).cache, tx).cache == Check(configs, cache, tx).cache
  {
    BoundedAppendExact(cache[tx.chain.value], tx.hash);
  }

  /** A fresh Ethereum transaction under the cap: admitted once corrected, rejected as written. */
  lemma ConfigLookupWitness()
    ensures var configs := [MempoolConfig(ETH, 0.0, 100)];
      var tx := TxData(Some("0xab"), Some(ETH), Some(50), Some(0));
      Check(configs, EmptyCache(), tx).admit && !CheckAsWritten(configs, EmptyCache(), tx).admit
  {
    var configs := [MempoolConfig(ETH, 0.0, 100)];
    assert ConfigFor(configs, ETH) == Some(configs[0]);
  }

  class EnhancedMempoolMonitor {
    var configs: seq<MempoolConfig>
    var transactionCache: Cache
    var running: bool

    predicate Valid()
      reads this
    {
      CacheValid(transactionCache)
    }

    constructor (configs: seq<MempoolConfig>)
      ensures Valid() && this.configs == configs && !running
      ensures forall c :: c in transactionCache ==> transactionCache[c] == []
    {
      this.configs := configs;
      transactionCache := EmptyCache();
      running := false;
    }

    /** `_is_profitable_opportunity`, with the configuration looked up by chain. */
    method IsProfitableOpportunity(tx: TxData) returns (ok: bool)
      requires Valid()
      modifies this
      ensures Valid()
      ensures ok == Check(configs, old(transactionCache), tx).admit
      ensures transactionCache == Check(configs, old(transactionCache), tx).cache
      ensures configs == old(configs) && running == old(running)
    {
      CheckExact(configs, transactionCache, tx);
      var v := Check(configs, transactionCache, tx);
      transactionCache := v.cache;
      ok := v.admit;
    }

    /** `stop`: clears `_running`; the executors' shutdown is not modelled. */
    method Stop()
      modifies this
      ensures !running && configs == old(configs) && transactionCache == old(transactionCache)
    {
      running := false;
    }
  }
}
