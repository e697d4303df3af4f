/**
 * The price feed (`PriceService`): a throttled refresh of one USDC quote per
 * tracked token, a bounded history of the last 100 points per token, and a
 * set of subscribers told of every refresh.
 */
module PriceService {
  import opened Common
  import opened Constants

  /** Points kept per token. */
  const HistoryLimit: nat := 100

  datatype PricePoint = PricePoint(price: real, timestamp: int)

  /** What subscribers receive: the new prices and the time they were sent. */
  datatype PriceUpdate = PriceUpdate(prices: map<Token, real>, timestamp: int)

  /** `history.push(point)` then `shift()` once the history holds more than 100 points. */
  function BoundedPush(history: seq<PricePoint>, point: PricePoint): seq<PricePoint>
  {
    var h := history + [point];
    if |h| > HistoryLimit then h[1..] else h
  }

  /**
   * A push ends the history with the new point and keeps a history of at most
   * 100 points at most 100 long; on overflow exactly the oldest point goes.
   */
  lemma BoundedPushKeepsNewest(history: seq<PricePoint>, point: PricePoint)
    requires |history| <= HistoryLimit
    ensures var r := BoundedPush(history, point);
      |r| <= HistoryLimit && r[|r| - 1] == point
      && (|history| < HistoryLimit ==> r == history + [point])
      && (|history| == HistoryLimit ==> r == history[1..] + [point])
  {
    if |history| == HistoryLimit {
      assert (history + [point])[1..] == history[1..] + [point];
    }
  }

  /**
   * `history.slice(-limit)`: the last `limit` points for a positive limit (all
   * of them when there are fewer); `slice(-0)` is `slice(0)`, the whole
   * history; a negative limit drops the first `-limit` points.
   */
  function SliceLast(h: seq<PricePoint>, limit: int): seq<PricePoint>
  {
    if limit > 0 then (if limit >= |h| then h else h[|h| - limit..])
    else if -limit >= |h| then [] else h[-limit..]
  }

  /** A positive limit answers the newest `min(limit, |h|)` points; zero answers them all. */
  lemma SliceLastExact(h: seq<PricePoint>, limit: int)
    ensures limit > 0 ==> |SliceLast(h, limit)| == (if limit < |h| then limit else |h|)
    ensures limit > 0 ==> SliceLast(h, limit) == h[|h| - |SliceLast(h, limit)|..]
    ensures SliceLast(h, 0) == h
  {
  }

  /**
   * `getPriceHistory(token, limit)`. The source's default `limit = 100` is
   * not modelled: a caller that omits it passes 100 here.
   */
  function GetPriceHistory(histories: map<Token, seq<PricePoint>>, token: Token, limit: int): (r: seq<PricePoint>)
    ensures token !in histories ==> r == []
    ensures token in histories ==> |r| <= |histories[token]|
  {
    if token in histories then SliceLast(histories[token], limit) else []
  }

  /** An untracked token has no history; a tracked one answers at most `limit` of its own newest points. */
  lemma GetPriceHistoryExact(histories: map<Token, seq<PricePoint>>, token: Token, limit: int)
    ensures token !in histories ==> GetPriceHistory(histories, token, limit) == []
    ensures token in histories && limit > 0 ==>
      var r := GetPriceHistory(histories, token, limit);
      |r| <= limit && r == histories[token][|histories[token]| - |r|..]
  {
  }

  /** `getLatestPrice`: `prices[token] || 0`. */
  function GetLatestPrice(prices: map<Token, real>, token: Token): (p: real)
    ensures token !in prices ==> p == 0.0
    ensures p != 0.0 ==> token in prices && p == prices[token]
  {
    if token in prices && prices[token] != 0.0 then prices[token] else 0.0
  }

  /** The latest price is the stored one when there is one, and 0 for an absent token. */
  lemma GetLatestPriceExact(prices: map<Token, real>, token: Token)
    ensures token in prices ==> GetLatestPrice(prices, token) == prices[token]
    ensures token !in prices ==> GetLatestPrice(prices, token) == 0.0
  {
  }

  /**
   * The one-token USDC quote `getTokenPrice` fetches; `None` when the call
   * fails, which the service answers with 0.
   */
  type Quote = Token -> Option<real>

  function PriceOf(quote: Quote, t: Token): real
  {
    if quote(t).Some? then quote(t).value else 0.0
  }

  /** The prices a refresh over `tokens` installs: one per token other than USDC. */
  function FetchedFrom(tokens: seq<Token>, quote: Quote): map<Token, real>
  {
    if tokens == [] then map[]
    else
      var m := FetchedFrom(tokens[..|tokens| - 1], quote);
      var t := tokens[|tokens| - 1];
      if t != USDC then m[t := PriceOf(quote, t)] else m
  }

  /**
   * The tokens of `tokens` a refresh quotes and keeps a history for: all but
   * `USDC` (the quote currency) and `QUICKSWAP_ROUTER`, which `TOKENS` does
   * not hold.
   */
  function QuotedIn(tokens: seq<Token>): set<Token>
  {
    set t | t in tokens && t != USDC
  }

  /** One more entry adds that token to the quoted ones, unless it is USDC; distinct entries add a new one. */
  lemma QuotedInStep(tokens: seq<Token>, i: nat)
    requires i < |tokens|
    requires forall a, b :: 0 <= a < b < |tokens| ==> tokens[a] != tokens[b]
    ensures QuotedIn(tokens[..i + 1]) == QuotedIn(tokens[..i]) + (if tokens[i] != USDC then {tokens[i]} else {})
    ensures tokens[i] !in QuotedIn(tokens[..i])
  {
    assert tokens[..i + 1] == tokens[..i] + [tokens[i]];
  }

  /** The prices one refresh installs. */
  function Fetched(quote: Quote): map<Token, real>
  {
    FetchedFrom(AllTokens, quote)
  }

  lemma {:induction false} FetchedFromExact(tokens: seq<Token>, quote: Quote)
    ensures FetchedFrom(tokens, quote).Keys == QuotedIn(tokens)
    ensures forall t :: t in FetchedFrom(tokens, quote) ==> FetchedFrom(tokens, quote)[t] == PriceOf(quote, t)
  {
    if tokens != [] {
      var init := tokens[..|tokens| - 1];
      FetchedFromExact(init, quote);
      assert tokens == init + [tokens[|tokens| - 1]];
    }
  }

  /** A refresh prices exactly the tracked tokens, each at its quote and a failed quote at 0. */
  lemma FetchedExact(quote: Quote)
    ensures forall t: Token :: t in Fetched(quote) <==> t != USDC
    ensures forall t :: t in Fetched(quote) ==> Fetched(quote)[t] == PriceOf(quote, t)
    ensures forall t :: t in Fetched(quote) && quote(t).None? ==> Fetched(quote)[t] == 0.0
  {
    FetchedFromExact(AllTokens, quote);
    AllTokensListsEachOnce();
  }

  /**
   * With a quote that always fails (the router contract built without an
   * address), a refresh prices every tracked token at 0, and so does
   * `getLatestPrice` for every token.
   */
  lemma FailingQuotePricesZero(quote: Quote)
    requires forall t :: quote(t).None?
    ensures forall t :: t in Fetched(quote) ==> Fetched(quote)[t] == 0.0
    ensures forall t :: GetLatestPrice(Fetched(quote), t) == 0.0
  {
    FetchedExact(quote);
  }

  class PriceService {
    var prices: map<Token, real>
    var subscribers: set<nat>
    var priceHistory: map<Token, seq<PricePoint>>
    var lastUpdate: int
    /** `updatePromise !== null`: a refresh is in flight. */
    var updating: bool

    /** Exactly the tracked tokens have a history, none longer than 100 points. */
    predicate Valid()
      reads this
    {
      (forall t :: t in priceHistory <==> t != USDC)
      && (forall t :: t in priceHistory ==> |priceHistory[t]| <= HistoryLimit)
    }

    constructor ()
      ensures Valid()
      ensures prices == map[] && subscribers == {} && lastUpdate == 0 && !updating
      ensures forall t :: t in priceHistory ==> priceHistory[t] == []
    {
      prices := map[];
      subscribers := {};
      AllTokensListsEachOnce();
      priceHistory := map t | t in AllTokens && t != USDC :: [];
      lastUpdate := 0;
      updating := false;
    }

    /** `subscribe`; the handle it returns is the callback to hand to `Unsubscribe`. */
    method Subscribe(callback: nat) returns (handle: nat)
      modifies this
      ensures subscribers == old(subscribers) + {callback} && handle == callback
      ensures prices == old(prices) && priceHistory == old(priceHistory)
      ensures lastUpdate == old(lastUpdate) && updating == old(updating)
    {
      subscribers := subscribers + {callback};
      handle := callback;
    }

    /** The function `subscribe` returns: deletes that callback. */
    method Unsubscribe(handle: nat)
      modifies this
      ensures subscribers == old(subscribers) - {handle}
      ensures prices == old(prices) && priceHistory == old(priceHistory)
      ensures lastUpdate == old(lastUpdate) && updating == old(updating)
    {
      subscribers := subscribers - {handle};
    }

    /** `updatePriceHistory`: a bounded push for a tracked token, nothing for another. */
    method UpdatePriceHistory(token: Token, price: real, now: int)
      requires Valid()
      modifies this
      ensures Valid()
      ensures token in old(priceHistory) ==>
        priceHistory == old(priceHistory)[token := BoundedPush(old(priceHistory)[token], PricePoint(price, now))]
      ensures token !in old(priceHistory) ==> priceHistory == old(priceHistory)
      ensures prices == old(prices) && subscribers == old(subscribers)
      ensures lastUpdate == old(lastUpdate) && updating == old(updating)
    {
      if token !in priceHistory {
        return;
      }
      var history := priceHistory[token];
      BoundedPushKeepsNewest(history, PricePoint(price, now));
      priceHistory := priceHistory[token := BoundedPush(history, PricePoint(price, now))];
    }

    /**
     * `_fetchPrices` over the entries `tokens` of `TOKENS`: every token but USDC is quoted (a failed quote as 0),
     * pushed onto its history and installed as the new `prices`, which the
     * subscribers are sent.
     */
    method FetchPrices(tokens: seq<Token>, fetchTime: int, quote: Quote) returns (sent: PriceUpdate)
      requires Valid()
      requires forall i, j :: 0 <= i < j < |tokens| ==> tokens[i] != tokens[j]
      modifies this
      ensures Valid()
      ensures prices == FetchedFrom(tokens, quote) && sent == PriceUpdate(FetchedFrom(tokens, quote), fetchTime)
      ensures priceHistory == PushedOn(old(priceHistory), quote, fetchTime, QuotedIn(tokens))
      ensures subscribers == old(subscribers) && lastUpdate == old(lastUpdate) && updating == old(updating)
    {
      var histories, updates := FetchInto(priceHistory, tokens, fetchTime, quote);
      PushedOnValid(priceHistory, quote, fetchTime, QuotedIn(tokens));
      priceHistory := histories;
      prices := updates;
      sent := PriceUpdate(prices, fetchTime);
    }

    /**
     * `updatePrices`: nothing within 50 ms of the last refresh or while one is
     * in flight. Otherwise a fetch runs, `lastUpdate` becomes `now` and no
     * refresh is left in flight.
     */
    method UpdatePrices(now: int, fetchTime: int, quote: Quote) returns (sent: Option<PriceUpdate>)
      requires Valid()
      modifies this
      ensures Valid()
      ensures subscribers == old(subscribers)
      ensures now - old(lastUpdate) < PriceUpdateInterval || old(updating) ==>
        sent == None && prices == old(prices) && priceHistory == old(priceHistory)
        && lastUpdate == old(lastUpdate) && updating == old(updating)
      ensures !(now - old(lastUpdate) < PriceUpdateInterval || old(updating)) ==>
        sent == Some(PriceUpdate(Fetched(quote), fetchTime))
        && prices == Fetched(quote)
        && priceHistory == PushedOn(old(priceHistory), quote, fetchTime, QuotedIn(AllTokens))
        && lastUpdate == now && !updating
    {
      if now - lastUpdate < PriceUpdateInterval {
        return None;
      }
      if updating {
        return None;
      }
      updating := true;
      AllTokensListsEachOnce();
      var update := FetchPrices(AllTokens, fetchTime, quote);
      sent := Some(update);
      lastUpdate := now;
      updating := false;
    }
  }

  /** The histories after the tokens of `done` each received their quote at `fetchTime`. */
  function PushedOn(h: map<Token, seq<PricePoint>>, quote: Quote, fetchTime: int, done: set<Token>): map<Token, seq<PricePoint>>
  {
    map t | t in h :: if t in done then BoundedPush(h[t], PricePoint(PriceOf(quote, t), fetchTime)) else h[t]
  }

  /** Pushing keeps the histories' keys and their bound of 100 points. */
  lemma PushedOnValid(h: map<Token, seq<PricePoint>>, quote: Quote, fetchTime: int, done: set<Token>)
    requires forall t :: t in h ==> |h[t]| <= HistoryLimit
    ensures PushedOn(h, quote, fetchTime, done).Keys == h.Keys
    ensures forall t :: t in PushedOn(h, quote, fetchTime, done) ==> |PushedOn(h, quote, fetchTime, done)[t]| <= HistoryLimit
  {
    forall t | t in h && t in done
      ensures |BoundedPush(h[t], PricePoint(PriceOf(quote, t), fetchTime))| <= HistoryLimit
    {
      BoundedPushKeepsNewest(h[t], PricePoint(PriceOf(quote, t), fetchTime));
    }
  }

  /** Pushing one more token's quote extends `done` by that token. */
  lemma PushedOnStep(h: map<Token, seq<PricePoint>>, quote: Quote, fetchTime: int, done: set<Token>, token: Token)
    requires token in h && token !in done
    ensures var p := PushedOn(h, quote, fetchTime, done);
      p[token := BoundedPush(p[token], PricePoint(PriceOf(quote, token), fetchTime))]
        == PushedOn(h, quote, fetchTime, done + {token})
  {
  }

  /**
   * The loop of `_fetchPrices`: each token of `tokens` but USDC is quoted,
   * the quote pushed onto its history and recorded as its new price.
   */
  method FetchInto(h: map<Token, seq<PricePoint>>, tokens: seq<Token>, fetchTime: int, quote: Quote)
    returns (histories: map<Token, seq<PricePoint>>, updates: map<Token, real>)
    requires forall i, j :: 0 <= i < j < |tokens| ==> tokens[i] != tokens[j]
    requires forall i :: 0 <= i < |tokens| && tokens[i] != USDC ==> tokens[i] in h
    ensures updates == FetchedFrom(tokens, quote)
    ensures histories == PushedOn(h, quote, fetchTime, QuotedIn(tokens))
  {
    histories := h;
    updates := map[];
    ghost var done: set<Token> := {};
    ghost var seen: seq<Token> := [];
    var i := 0;
    assert PushedOn(h, quote, fetchTime, {}) == h;
    while i < |tokens|
      invariant 0 <= i <= |tokens| && seen == tokens[..i]
      invariant done == QuotedIn(seen)
      invariant updates == FetchedFrom(seen, quote)
      invariant histories == PushedOn(h, quote, fetchTime, done)
    {
      var token := tokens[i];
      FetchIntoAdvance(h, tokens, i, fetchTime, quote, done, histories, updates);
      seen := tokens[..i + 1];
      if token != USDC {
        var price := PriceOf(quote, token);
        histories := histories[token := BoundedPush(histories[token], PricePoint(price, fetchTime))];
        updates := updates[token := price];
        done := done + {token};
      }
      i := i + 1;
    }
    assert tokens[..i] == tokens;
  }

  /** The loop invariant of `FetchInto` carried over one more token. */
  lemma FetchIntoAdvance(h: map<Token, seq<PricePoint>>, tokens: seq<Token>, i: nat, fetchTime: int, quote: Quote,
                         done: set<Token>, histories: map<Token, seq<PricePoint>>, updates: map<Token, real>)
    requires i < |tokens|
    requires forall a, b :: 0 <= a < b < |tokens| ==> tokens[a] != tokens[b]
    requires tokens[i] != USDC ==> tokens[i] in h
    requires done == QuotedIn(tokens[..i]) && updates == FetchedFrom(tokens[..i], quote)
    requires histories == PushedOn(h, quote, fetchTime, done)
    ensures var t := tokens[i];
      t != USDC ==>
        t in histories
        && done + {t} == QuotedIn(tokens[..i + 1])
        && updates[t := PriceOf(quote, t)] == FetchedFrom(tokens[..i + 1], quote)
        && histories[t := BoundedPush(histories[t], PricePoint(PriceOf(quote, t), fetchTime))]
             == PushedOn(h, quote, fetchTime, done + {t})
    ensures tokens[i] == USDC ==> done == QuotedIn(tokens[..i + 1]) && updates == FetchedFrom(tokens[..i + 1], quote)
  {
    FetchIntoStep(h, tokens, i, fetchTime, quote, done);
  }

  /** One more token of the loop: its quote joins the prices and is pushed onto its history. */
  lemma FetchIntoStep(h: map<Token, seq<PricePoint>>, tokens: seq<Token>, i: nat, fetchTime: int, quote: Quote,
                      done: set<Token>)
    requires i < |tokens|
    requires forall a, b :: 0 <= a < b < |tokens| ==> tokens[a] != tokens[b]
    requires tokens[i] != USDC ==> tokens[i] in h
    requires done == QuotedIn(tokens[..i])
    ensures QuotedIn(tokens[..i + 1]) == if tokens[i] != USDC then done + {tokens[i]} else done
    ensures var t := tokens[i];
      var m := FetchedFrom(tokens[..i], quote);
      FetchedFrom(tokens[..i + 1], quote) == if t != USDC then m[t := PriceOf(quote, t)] else m
    ensures var t := tokens[i];
      var p := PushedOn(h, quote, fetchTime, done);
      t != USDC ==>
        (t in p && PushedOn(h, quote, fetchTime, done + {t})
          == p[t := BoundedPush(p[t], PricePoint(PriceOf(quote, t), fetchTime))])
  {
    QuotedInStep(tokens, i);
    assert tokens[..i + 1][..i] == tokens[..i];
    if tokens[i] != USDC {
      PushedOnStep(h, quote, fetchTime, done, tokens[i]);
    }
  }

  /**
   * After a refresh every tracked history ends with that refresh's quote and
   * holds at most 100 points; USDC has no history to touch.
   */
  lemma RefreshEndsEachHistory(h: map<Token, seq<PricePoint>>, quote: Quote, fetchTime: int)
    requires forall t :: t in h ==> |h[t]| <= HistoryLimit
    ensures var p := PushedOn(h, quote, fetchTime, QuotedIn(AllTokens));
      forall t :: t in p && t != USDC ==>
        |p[t]| <= HistoryLimit && |p[t]| > 0 && p[t][|p[t]| - 1] == PricePoint(PriceOf(quote, t), fetchTime)
  {
    TrackedQuoted();
    forall t | t in h && t != USDC
      ensures var r := BoundedPush(h[t], PricePoint(PriceOf(quote, t), fetchTime));
        |r| <= HistoryLimit && |r| > 0 && r[|r| - 1] == PricePoint(PriceOf(quote, t), fetchTime)
    {
      BoundedPushKeepsNewest(h[t], PricePoint(PriceOf(quote, t), fetchTime));
    }
  }

  /** A refresh quotes exactly the tokens other than USDC. */
  lemma TrackedQuoted()
    ensures forall t :: t in QuotedIn(AllTokens) <==> t != USDC
  {
    AllTokensListsEachOnce();
  }
}
