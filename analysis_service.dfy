/**
 * Market analysis (`AnalysisService`): a table from indicator readings to
 * buy/sell signals with a strength, an analysis gate that serves a cached
 * result or refuses to run within 2 s of the last, and a cache sweep.
 */
module AnalysisService {
  import opened Common
  import opened JsNumber

  const CacheTimeout: int := 30000
  const MinAnalysisInterval: int := 2000
  /** Volatility above which the strength is damped. */
  const HighVolatility: real := 0.02
  const VolatilityDamping: real := 0.8

  /** The readings of `calculateIndicators` the signal table consults. */
  datatype Indicators = Indicators(rsi: real, macdHistogram: real, macdSignal: real, ema20: real, ema50: real)

  datatype Signals = Signals(buy: bool, sell: bool, strength: real)

  datatype Analysis = Analysis(indicators: Indicators, volatility: Num, signals: Signals, timestamp: int)

  /**
   * `indicators.rsi < RSI_OVERSOLD` (and likewise for overbought). A threshold
   * missing from the constants is `undefined`, against which every comparison
   * is false.
   */
  predicate Below(x: real, threshold: Option<real>)
  {
    threshold.Some? && x < threshold.value
  }

  predicate Above(x: real, threshold: Option<real>)
  {
    threshold.Some? && x > threshold.value
  }

  /** The RSI row: oversold buys, otherwise overbought sells. */
  predicate RsiBuy(ind: Indicators, oversold: Option<real>)
  {
    Below(ind.rsi, oversold)
  }

  predicate RsiSell(ind: Indicators, oversold: Option<real>, overbought: Option<real>)
  {
    !Below(ind.rsi, oversold) && Above(ind.rsi, overbought)
  }

  /** The MACD row: histogram and signal line both positive buy, both negative sell. */
  predicate MacdBuy(ind: Indicators)
  {
    ind.macdHistogram > 0.0 && ind.macdSignal > 0.0
  }

  predicate MacdSell(ind: Indicators)
  {
    ind.macdHistogram < 0.0 && ind.macdSignal < 0.0
  }

  /** `generateSignals`: the three rows, then the volatility damping. */
  function GenerateSignals(ind: Indicators, volatility: Num, oversold: Option<real>, overbought: Option<real>): (r: Signals)
    ensures 0.0 <= r.strength <= 2.5
    ensures r.buy || r.sell <==> r.strength > 0.0
  {
    var s0 := Signals(false, false, 0.0);
    var s1 :=
      if Below(ind.rsi, oversold) then Signals(true, s0.sell, s0.strength + 1.0)
      else if Above(ind.rsi, overbought) then Signals(s0.buy, true, s0.strength + 1.0)
      else s0;
    var s2 :=
      if ind.macdHistogram > 0.0 && ind.macdSignal > 0.0 then Signals(true, s1.sell, s1.strength + 1.0)
      else if ind.macdHistogram < 0.0 && ind.macdSignal < 0.0 then Signals(s1.buy, true, s1.strength + 1.0)
      else s1;
    var s3 :=
      if ind.ema20 > ind.ema50 then Signals(true, s2.sell, s2.strength + 0.5)
      else if ind.ema20 < ind.ema50 then Signals(s2.buy, true, s2.strength + 0.5)
      else s2;
    if Gt(volatility, Finite(HighVolatility)) then Signals(s3.buy, s3.sell, s3.strength * VolatilityDamping) else s3
  }

  function Weight(fired: bool, w: real): real
  {
    if fired then w else 0.0
  }

  /**
   * A buy fires iff some row votes buy, a sell iff some row votes sell; the
   * strength counts 1 per firing RSI or MACD row and 0.5 for a trend, damped
   * by 0.8 when volatility exceeds 0.02, so it lies in [0, 2.5].
   */
  lemma GenerateSignalsTable(ind: Indicators, volatility: Num, oversold: Option<real>, overbought: Option<real>)
    ensures var s := GenerateSignals(ind, volatility, oversold, overbought);
      (s.buy <==> RsiBuy(ind, oversold) || MacdBuy(ind) || ind.ema20 > ind.ema50)
      && (s.sell <==> RsiSell(ind, oversold, overbought) || MacdSell(ind) || ind.ema20 < ind.ema50)
    ensures var s := GenerateSignals(ind, volatility, oversold, overbought);
      var raw := Weight(RsiBuy(ind, oversold) || RsiSell(ind, oversold, overbought), 1.0)
        + Weight(MacdBuy(ind) || MacdSell(ind), 1.0) + Weight(ind.ema20 != ind.ema50, 0.5);
      s.strength == (if Gt(volatility, Finite(HighVolatility)) then raw * VolatilityDamping else raw)
      && 0.0 <= s.strength <= 2.5
  {
  }

  /**
   * With the RSI thresholds missing from the constants, the RSI row never
   * fires, so the strength never exceeds 1.5.
   */
  lemma MissingThresholdsSilenceRsi(ind: Indicators, volatility: Num)
    ensures var s := GenerateSignals(ind, volatility, None, None);
      s.strength <= 1.5
      && (s.buy <==> MacdBuy(ind) || ind.ema20 > ind.ema50)
      && (s.sell <==> MacdSell(ind) || ind.ema20 < ind.ema50)
  {
    GenerateSignalsTable(ind, volatility, None, None);
  }

  /**
   * `calculateMACD` takes the signal line as the EMA of the one-element list
   * `[macdLine]`, which is `macdLine` itself, so the histogram is 0. With the
   * RSI thresholds undefined as well, only the trend row can fire, and the
   * strength never exceeds 0.5.
   */
  lemma ZeroHistogramOnlyTrend(ind: Indicators, volatility: Num)
    requires ind.macdHistogram == 0.0
    ensures var s := GenerateSignals(ind, volatility, None, None);
      s.strength <= 0.5
      && (s.buy <==> ind.ema20 > ind.ema50)
      && (s.sell <==> ind.ema20 < ind.ema50)
  {
    GenerateSignalsTable(ind, volatility, None, None);
  }

  /** The cache key `${token}-${now}`: a token symbol and a millisecond. */
  datatype CacheKey = CacheKey(token: string, time: int)

  datatype CacheEntry = CacheEntry(analysis: Analysis, timestamp: int)

  /** The entries `clearCache` keeps: those at most 30 s old. */
  function Swept(cache: map<CacheKey, CacheEntry>, now: int): map<CacheKey, CacheEntry>
  {
    map k | k in cache && !(now - cache[k].timestamp > CacheTimeout) :: cache[k]
  }

  /** The sweep drops exactly the entries more than 30 s old and leaves the rest untouched. */
  lemma SweptExact(cache: map<CacheKey, CacheEntry>, now: int)
    ensures forall k :: k in Swept(cache, now) <==> k in cache && now - cache[k].timestamp <= CacheTimeout
    ensures forall k :: k in Swept(cache, now) ==> Swept(cache, now)[k] == cache[k]
  {
  }

  class AnalysisService {
    var analysisCache: map<CacheKey, CacheEntry>
    /** The time of the last analysis, `null` before the first. */
    var lastAnalysis: Option<int>

    /** Every entry is stamped with the millisecond of its key. */
    predicate Valid()
      reads this
    {
      forall k :: k in analysisCache ==> analysisCache[k].timestamp == k.time
    }

    constructor ()
      ensures Valid() && analysisCache == map[] && lastAnalysis == None
    {
      analysisCache := map[];
      lastAnalysis := None;
    }

    /**
     * `analyzeMarket` at time `now`; `indicators` is what `calculateIndicators`
     * yields (`None` when it throws) and `volatility` what `calculateVolatility`
     * yields. A cached analysis is served only for the same token in the same
     * millisecond. Otherwise a last analysis under 2 s ago (by a truthy
     * timestamp) or a failure answers `null` with no change; a success is
     * cached and becomes the last analysis.
     */
    method AnalyzeMarket(token: string, now: int, indicators: Option<Indicators>, volatility: Num,
                         oversold: Option<real>, overbought: Option<real>)
      returns (r: Option<Analysis>)
      requires Valid()
      modifies this
      ensures Valid()
      ensures CacheKey(token, now) in old(analysisCache) ==>
        r == Some(old(analysisCache)[CacheKey(token, now)].analysis)
        && analysisCache == old(analysisCache) && lastAnalysis == old(lastAnalysis)
      ensures CacheKey(token, now) !in old(analysisCache) && (Gated(old(lastAnalysis), now) || indicators.None?) ==>
        r == None && analysisCache == old(analysisCache) && lastAnalysis == old(lastAnalysis)
      ensures CacheKey(token, now) !in old(analysisCache) && !Gated(old(lastAnalysis), now) && indicators.Some? ==>
        var a := Analysis(indicators.value, volatility,
                          GenerateSignals(indicators.value, volatility, oversold, overbought), now);
        r == Some(a)
        && analysisCache == old(analysisCache)[CacheKey(token, now) := CacheEntry(a, now)]
        && lastAnalysis == Some(now)
    {
      var cacheKey := CacheKey(token, now);
      if cacheKey in analysisCache && now - analysisCache[cacheKey].timestamp < CacheTimeout {
        return Some(analysisCache[cacheKey].analysis);
      }
      if lastAnalysis.Some? && lastAnalysis.value != 0 && now - lastAnalysis.value < MinAnalysisInterval {
        return None;
      }
      if indicators.None? {
        return None;
      }
      var analysis := Analysis(indicators.value, volatility,
                               GenerateSignals(indicators.value, volatility, oversold, overbought), now);
      analysisCache := analysisCache[cacheKey := CacheEntry(analysis, now)];
      lastAnalysis := Some(now);
      return Some(analysis);
    }

    /** `clearCache`: drops the entries more than 30 s old. */
    method ClearCache(now: int)
      requires Valid()
      modifies this
      ensures Valid()
      ensures analysisCache == Swept(old(analysisCache), now) && lastAnalysis == old(lastAnalysis)
    {
      var keys := analysisCache.Keys;
      ghost var original := analysisCache;
      while keys != {}
        invariant keys <= original.Keys
        invariant analysisCache.Keys <= original.Keys
        invariant forall k :: k in original && k !in keys ==>
          (k in analysisCache <==> !(now - original[k].timestamp > CacheTimeout))
        invariant forall k :: k in keys ==> k in analysisCache
        invariant forall k :: k in analysisCache ==> analysisCache[k] == original[k]
        invariant lastAnalysis == old(lastAnalysis)
        decreases keys
      {
        var k :| k in keys;
        if now - analysisCache[k].timestamp > CacheTimeout {
          analysisCache := map k' | k' in analysisCache && k' != k :: analysisCache[k'];
        }
        keys := keys - {k};
      }
      assert analysisCache == Swept(original, now);
    }
  }

  /** `this.lastAnalysis && now - this.lastAnalysis < minAnalysisInterval`. */
  predicate Gated(lastAnalysis: Option<int>, now: int)
  {
    lastAnalysis.Some? && lastAnalysis.value != 0 && now - lastAnalysis.value < MinAnalysisInterval
  }

  /**
   * The gate refuses exactly within 2 s after a truthy last analysis: at
   * `t + 1999` it refuses, at `t + 2000` it lets the analysis run, and before
   * any analysis it never refuses.
   */
  lemma GateWindow(t: int, now: int)
    requires t != 0
    ensures Gated(Some(t), t + MinAnalysisInterval - 1)
    ensures !Gated(Some(t), t + MinAnalysisInterval)
    ensures !Gated(None, now)
  {
  }
}
