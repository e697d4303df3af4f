/**
 * The quote aggregator (`DEXService`): asks every configured router for a
 * quote, drops the routers that failed, and caches the result for 200 ms
 * under the key `tokenIn-tokenOut-amount`.
 */
module DexService {
  import opened Constants

  /** What one router's `getAmountsOut(amount, [tokenIn, tokenOut]).call()` gave: an error, or `amounts[1]`. */
  datatype Reply = Threw | Quoted(amountOut: nat)

  /**
   * The fan-out maps a thrown call to the string `'0'` and keeps a venue only
   * when its reported value is not `'0'`; a quoted zero reads as `'0'` too.
   */
  predicate Reports(r: Reply)
  {
    r.Quoted? && r.amountOut != 0
  }

  /** One entry of the per-call `prices` Map. */
  datatype Quote = Quote(dex: string, amountOut: nat)

  /** The `prices` Map, in insertion order. */
  type Prices = seq<Quote>

  /** `${tokenIn}-${tokenOut}-${amount}`; addresses contain no `-`, so the
      string key and this triple identify the same entries. */
  datatype CacheKey = CacheKey(tokenIn: Address, tokenOut: Address, amount: nat)

  datatype CacheEntry = CacheEntry(timestamp: int, prices: Prices)

  /** `cacheDuration`, in ms. */
  const CacheDuration: int := 200

  /** The keys of `DEX_ROUTERS`, in declaration order: the `dexes` Map built by `initializeDEXes`. */
  const DexNames: seq<string> := ["quickswap", "sushiswap", "apeswap", "jetswap", "polycat"]

  /** Every router's answer to one `(tokenIn, tokenOut, amount)` request. */
  type Venues = (string, Address, Address, nat) -> Reply

  /** The venues of `names` that reported, in order, with their quotes. */
  function Collect(names: seq<string>, ask: string -> Reply): (r: Prices)
    ensures |r| <= |names|
    ensures forall i :: 0 <= i < |r| ==> r[i].dex in names && Reports(ask(r[i].dex))
  {
    if names == [] then []
    else
      var last := names[|names| - 1];
      Collect(names[..|names| - 1], ask)
        + (if Reports(ask(last)) then [Quote(last, ask(last).amountOut)] else [])
  }

  /** The dex names of a price list. */
  function Dexes(prices: Prices): (names: seq<string>)
    ensures |names| == |prices|
    ensures forall i :: 0 <= i < |prices| ==> names[i] == prices[i].dex
  {
    seq(|prices|, i requires 0 <= i < |prices| => prices[i].dex)
  }

  predicate Distinct<T(==)>(s: seq<T>)
  {
    forall i, j :: 0 <= i < j < |s| ==> s[i] != s[j]
  }

  /** A price list as the aggregator returns it: distinct venues, each with a positive quote. */
  predicate WellFormed(prices: Prices)
  {
    Distinct(Dexes(prices)) && forall q :: q in prices ==> q.amountOut > 0
  }

  /** An entry is served only while it is younger than the cache duration. */
  predicate Live(entry: CacheEntry, now: int)
  {
    now - entry.timestamp < CacheDuration
  }

  /** What `clearCache` keeps: every entry that is not strictly older than the duration. */
  function Pruned(cache: map<CacheKey, CacheEntry>, now: int): map<CacheKey, CacheEntry>
  {
    map k | k in cache && !(now - cache[k].timestamp > CacheDuration) :: cache[k]
  }

  /**
   * The collected prices are exactly the reporting venues: a name is present
   * iff its call reported, with the quote it reported, and nothing else is.
   */
  lemma {:induction false} CollectExact(names: seq<string>, ask: string -> Reply)
    ensures forall q :: q in Collect(names, ask) ==>
      q.dex in names && Reports(ask(q.dex)) && q.amountOut == ask(q.dex).amountOut
    ensures forall d :: d in names && Reports(ask(d)) ==> Quote(d, ask(d).amountOut) in Collect(names, ask)
    ensures |Collect(names, ask)| <= |names|
  {
    if names != [] {
      var init := names[..|names| - 1];
      CollectExact(init, ask);
      assert names == init + [names[|names| - 1]];
    }
  }

  /** Appending a venue not yet listed keeps the venues distinct. */
  lemma AppendDistinct(prev: Prices, q: Quote)
    requires Distinct(Dexes(prev))
    requires forall p :: p in prev ==> p.dex != q.dex
    ensures Distinct(Dexes(prev + [q]))
  {
    var next := prev + [q];
    forall i, j | 0 <= i < j < |next|
      ensures Dexes(next)[i] != Dexes(next)[j]
    {
      if j == |prev| {
        assert prev[i] in prev;
      }
    }
  }

  /** Collected from distinct names, the result lists each venue once and every quote is positive. */
  lemma {:induction false} CollectWellFormed(names: seq<string>, ask: string -> Reply)
    requires Distinct(names)
    ensures WellFormed(Collect(names, ask))
  {
    if names != [] {
      var init := names[..|names| - 1];
      var last := names[|names| - 1];
      assert names == init + [last];
      CollectWellFormed(init, ask);
      CollectExact(init, ask);
      var prev := Collect(init, ask);
      if Reports(ask(last)) {
        assert last !in init;
        AppendDistinct(prev, Quote(last, ask(last).amountOut));
      }
    }
  }

  /** The configured routers are five distinct names. */
  lemma DexNamesDistinct()
    ensures |DexNames| == 5 && Distinct(DexNames)
  {
  }

  /** A 200 ms-old entry survives `clearCache` but is no longer served. */
  lemma BoundaryEntryKeptButStale(cache: map<CacheKey, CacheEntry>, k: CacheKey, now: int)
    requires k in cache && now - cache[k].timestamp == CacheDuration
    ensures k in Pruned(cache, now) && !Live(cache[k], now)
  {
  }

  /** After `clearCache` nothing that remains is more than the duration old, and no live entry was lost. */
  lemma PrunedKeepsLive(cache: map<CacheKey, CacheEntry>, now: int)
    ensures forall k :: k in Pruned(cache, now) ==> now - Pruned(cache, now)[k].timestamp <= CacheDuration
    ensures forall k :: k in cache && Live(cache[k], now) ==> k in Pruned(cache, now)
  {
  }

  class DexService {
    var priceCache: map<CacheKey, CacheEntry>

    constructor ()
      ensures priceCache == map[]
    {
      priceCache := map[];
    }

    /**
     * `getPrices`. A live entry for the key is returned as it is and the
     * venues are not consulted; otherwise every router is asked, the reporting
     * ones are collected in router order, and the result, however few venues
     * it holds, is cached with timestamp `now`.
     */
    method GetPrices(tokenIn: Address, tokenOut: Address, amount: nat, now: int, venues: Venues)
      returns (prices: Prices)
      modifies this
      ensures var key := CacheKey(tokenIn, tokenOut, amount);
        if key in old(priceCache) && Live(old(priceCache)[key], now) then
          prices == old(priceCache)[key].prices && priceCache == old(priceCache)
        else
          prices == Collect(DexNames, d => venues(d, tokenIn, tokenOut, amount))
          && priceCache == old(priceCache)[key := CacheEntry(now, prices)]
    {
      var key := CacheKey(tokenIn, tokenOut, amount);
      if key in priceCache {
        var cached := priceCache[key];
        if now - cached.timestamp < CacheDuration {
          return cached.prices;
        }
      }
      var ask := d => venues(d, tokenIn, tokenOut, amount);
      prices := [];
      var i := 0;
      while i < |DexNames|
        invariant 0 <= i <= |DexNames|
        invariant prices == Collect(DexNames[..i], ask)
      {
        var name := DexNames[i];
        var reply := venues(name, tokenIn, tokenOut, amount);
        assert DexNames[..i + 1][..i] == DexNames[..i];
        if reply.Quoted? && reply.amountOut != 0 {
          prices := prices + [Quote(name, reply.amountOut)];
        }
        i := i + 1;
      }
      assert DexNames[..i] == DexNames;
      priceCache := priceCache[key := CacheEntry(now, prices)];
    }

    /** `getDEXNames`: the keys of the router table, in order. */
    method GetDexNames() returns (names: seq<string>)
      ensures names == ["quickswap", "sushiswap", "apeswap", "jetswap", "polycat"]
    {
      names := DexNames;
    }

    /** `clearCache`: deletes exactly the entries strictly older than the duration. */
    method ClearCache(now: int)
      modifies this
      ensures priceCache == Pruned(old(priceCache), now)
    {
      var keys := priceCache.Keys;
      ghost var original := priceCache;
      while keys != {}
        invariant keys <= original.Keys
        invariant priceCache.Keys <= original.Keys
        invariant forall k :: k in original && k !in keys ==>
          (k in priceCache <==> !(now - original[k].timestamp > CacheDuration))
        invariant forall k :: k in keys ==> k in priceCache
        invariant forall k :: k in priceCache ==> priceCache[k] == original[k]
        decreases keys
      {
        var k :| k in keys;
        if now - priceCache[k].timestamp > CacheDuration {
          priceCache := map k' | k' in priceCache && k' != k :: priceCache[k'];
        }
        keys := keys - {k};
      }
      assert priceCache == Pruned(original, now);
    }
  }
}
