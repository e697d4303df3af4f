/**
 * The sandwich scanner (`SandwichService`): pending transactions that look
 * like swaps are decoded at fixed offsets of their call data, filtered by a
 * gas cap, and kept in a table keyed by hash; the table is swept after 30 s
 * and read back for entries younger than 10 s.
 *
 * As written the gas cap compares decimal strings
 * (`AnalyzeSandwichOpportunityAsWritten`); the scanner below uses the
 * corrected numeric cap (`AnalyzeSandwichOpportunity`), and
 * `GasCapAsWrittenRejects30Gwei` exhibits an input on which the two differ.
 */
module SandwichService {
  import opened Common
  import opened Constants
  import opened Text
  import opened Selectors

  /**
   * A transaction as `getTransaction` returns it; `input` may be absent. The
   * node reports `gasPrice` as the decimal string `Decimal(gasPrice)`.
   */
  datatype Transaction = Transaction(hash: string, input: Option<string>, gasPrice: nat)

  /**
   * What `decodeSwapTransaction` returns. `amount` is `None` where
   * `parseInt(…, 16)` gives NaN.
   */
  datatype Decoded = Decoded(tokenIn: string, tokenOut: string, amount: Option<int>)

  /** The record `analyzeSandwichOpportunity` returns; a NaN amount is `None`. */
  datatype SandwichOpportunity = SandwichOpportunity(
    targetTx: string, tokenIn: string, tokenOut: string,
    frontRunAmount: Option<int>, backRunAmount: Option<int>, expectedProfit: nat, maxGas: nat)

  /** One value of the `pendingTxs` Map, with its key. */
  datatype PendingEntry = PendingEntry(hash: string, opportunity: SandwichOpportunity, timestamp: int)

  /** `minProfitThreshold = toWei('0.05', 'ether')`. */
  const MinProfitThreshold: nat := 50_000_000_000_000_000
  /** `maxGasPrice = toWei('100', 'gwei')`. */
  const MaxGasPrice: nat := 100 * Gwei
  /** `maxGas` of an opportunity: `toWei('150', 'gwei')`. */
  const OpportunityMaxGas: nat := 150 * Gwei
  /** What `simulateSandwichProfit` returns for every input: `toWei('0.06', 'ether')`. */
  const SimulatedProfit: nat := 60_000_000_000_000_000
  /** Entries older than this are swept, in ms. */
  const PendingLifetime: int := 30000
  /** Entries younger than this are reported, in ms. */
  const ReportWindow: int := 10000

  /**
   * `decodeSwapTransaction`: the parameters start after the ten-character
   * `0x`-prefixed selector; the first address is the low 40 digits of word 0,
   * the second those of word 1, and the amount is word 2 read as hexadecimal.
   */
  function DecodeSwapTransaction(input: string): (d: Decoded)
    ensures 2 <= |d.tokenIn| <= 42 && 2 <= |d.tokenOut| <= 42
    ensures d.tokenIn[..2] == "0x" && d.tokenOut[..2] == "0x"
    ensures |input| >= 2 && AllHex(input[2..]) ==> AllHex(d.tokenIn[2..]) && AllHex(d.tokenOut[2..])
  {
    var params := SliceFrom(input, 10);
    AddressWordsHex(input);
    var tokenIn := "0x" + Slice(params, 24, 64);
    var tokenOut := "0x" + Slice(params, 88, 128);
    assert tokenIn[2..] == Slice(params, 24, 64) && tokenOut[2..] == Slice(params, 88, 128);
    Decoded(tokenIn, tokenOut, ParseInt16(Slice(params, 128, 192)))
  }

  /** The address words of hexadecimal call data are hexadecimal. */
  lemma AddressWordsHex(input: string)
    ensures |input| >= 2 && AllHex(input[2..]) ==>
      AllHex(Slice(SliceFrom(input, 10), 24, 64)) && AllHex(Slice(SliceFrom(input, 10), 88, 128))
  {
    if |input| >= 2 && AllHex(input[2..]) {
      SliceAllHex(input[2..], 8, 8);
      assert SliceFrom(input[2..], 8) == SliceFrom(input, 10);
      SliceAllHex(SliceFrom(input, 10), 24, 64);
      SliceAllHex(SliceFrom(input, 10), 88, 128);
    }
  }

  /**
   * On call data holding three full words whose third word is hexadecimal,
   * decoding reads exactly characters 34..74 and 98..138 as the addresses and
   * characters 138..202 as the amount.
   */
  lemma DecodeFullCallData(input: string)
    requires |input| >= 202 && AllHex(input[138..202])
    ensures DecodeSwapTransaction(input) ==
      Decoded("0x" + input[34..74], "0x" + input[98..138], Some(HexValue(input[138..202])))
  {
    var params := input[10..];
    assert SliceFrom(input, 10) == params;
    SliceInRange(params, 24, 64);
    SliceInRange(params, 88, 128);
    SliceInRange(params, 128, 192);
    DropSlice(input, 10, 24, 64);
    DropSlice(input, 10, 88, 128);
    DropSlice(input, 10, 128, 192);
  }

  /** Call data that stops before the amount word decodes to a NaN amount. */
  lemma DecodeShortCallData(input: string)
    requires |input| <= 138
    ensures DecodeSwapTransaction(input).amount.None?
  {
  }

  /** `Math.floor(amount * 0.2)`, with NaN staying NaN; a negative amount rounds down too. */
  function FrontRunAmount(amount: Option<int>): (r: Option<int>)
    ensures r.None? <==> amount.None?
    ensures amount.Some? ==> 5 * r.value <= amount.value < 5 * r.value + 5
  {
    if amount.None? then None else Some(amount.value / 5)
  }

  /**
   * What `analyzeSandwichOpportunity` does once the gas check has passed:
   * nothing when decoding throws on an absent input; otherwise the decoded
   * swap with a fifth of its amount on both legs, emitted when the simulated
   * profit clears the threshold.
   */
  function OpportunityFor(tx: Transaction): (r: Option<SandwichOpportunity>)
    ensures r.Some? ==> r.value.targetTx == tx.hash && r.value.frontRunAmount == r.value.backRunAmount
  {
    if tx.input.None? then None
    else
      var decoded := DecodeSwapTransaction(tx.input.value);
      var frontRun := FrontRunAmount(decoded.amount);
      var profit := SimulatedProfit;
      if profit > MinProfitThreshold then
        Some(SandwichOpportunity(tx.hash, decoded.tokenIn, decoded.tokenOut, frontRun, frontRun, profit, OpportunityMaxGas))
      else None
  }

  /**
   * `analyzeSandwichOpportunity` as written: `tx.gasPrice > this.maxGasPrice`
   * compares the node's decimal string with the string `toWei` returns, so
   * the cap is applied in lexicographic order.
   */
  function AnalyzeSandwichOpportunityAsWritten(tx: Option<Transaction>): (r: Option<SandwichOpportunity>)
    ensures r.Some? ==> tx.Some? && !StringGreater(Decimal(tx.value.gasPrice), Decimal(MaxGasPrice))
  {
    if tx.None? || StringGreater(Decimal(tx.value.gasPrice), Decimal(MaxGasPrice)) then None
    else OpportunityFor(tx.value)
  }

  /** `analyzeSandwichOpportunity` with the gas cap compared as numbers. */
  function AnalyzeSandwichOpportunity(tx: Option<Transaction>): (r: Option<SandwichOpportunity>)
    ensures r.Some? ==> tx.Some? && tx.value.gasPrice <= MaxGasPrice && r.value.targetTx == tx.value.hash
  {
    if tx.None? || tx.value.gasPrice > MaxGasPrice then None
    else OpportunityFor(tx.value)
  }

  /**
   * A swap paying 30 gwei, well under the 100 gwei cap, is rejected as
   * written, because `"30000000000" > "100000000000"` as strings; the
   * numeric comparison accepts it.
   */
  lemma GasCapAsWrittenRejects30Gwei(hash: string, input: string)
    ensures var tx := Some(Transaction(hash, Some(input), 30 * Gwei));
      AnalyzeSandwichOpportunityAsWritten(tx).None? && AnalyzeSandwichOpportunity(tx).Some?
  {
    DecimalShift(3); DecimalShift(30); DecimalShift(300); DecimalShift(3000); DecimalShift(30000);
    DecimalShift(300000); DecimalShift(3000000); DecimalShift(30000000); DecimalShift(300000000);
    DecimalShift(3000000000);
    DecimalShift(1); DecimalShift(10); DecimalShift(100); DecimalShift(1000); DecimalShift(10000);
    DecimalShift(100000); DecimalShift(1000000); DecimalShift(10000000); DecimalShift(100000000);
    DecimalShift(1000000000); DecimalShift(10000000000);
    assert Decimal(30 * Gwei) == "30000000000";
    assert Decimal(MaxGasPrice) == "100000000000";
    assert StringGreater("30000000000", "100000000000");
  }

  /**
   * An opportunity is returned iff the transaction is present, has an input
   * and is within the gas cap (the simulated 0.06 ether always clears 0.05
   * ether); it targets that transaction, carries the decoded tokens and uses
   * the same front-run and back-run amount, a fifth of the victim's amount
   * rounded down.
   */
  lemma AnalyzeIff(tx: Option<Transaction>)
    ensures AnalyzeSandwichOpportunity(tx).Some? <==>
      tx.Some? && tx.value.input.Some? && tx.value.gasPrice <= MaxGasPrice
    ensures AnalyzeSandwichOpportunity(tx).Some? ==>
      var o := AnalyzeSandwichOpportunity(tx).value;
      var d := DecodeSwapTransaction(tx.value.input.value);
      o.targetTx == tx.value.hash && o.tokenIn == d.tokenIn && o.tokenOut == d.tokenOut
      && o.frontRunAmount == o.backRunAmount == FrontRunAmount(d.amount)
      && o.expectedProfit > MinProfitThreshold && o.maxGas == OpportunityMaxGas
  {
  }

  /** `isSwapTransaction`: false without a transaction or a non-empty input; otherwise the selector test. */
  function IsSwapTransaction(tx: Option<Transaction>, selectorOf: string -> string): (r: bool)
    ensures r ==> tx.Some? && tx.value.input.Some? && |tx.value.input.value| >= 1
  {
    tx.Some? && tx.value.input.Some? && tx.value.input.value != ""
    && AnySelectorIn(tx.value.input.value, SwapMethods, selectorOf)
  }

  /**
   * A transaction is a swap iff it has a non-empty input in which the
   * selector of a listed swap method occurs.
   */
  lemma IsSwapTransactionIff(tx: Option<Transaction>, selectorOf: string -> string)
    ensures tx.None? || tx.value.input.None? ==> !IsSwapTransaction(tx, selectorOf)
    ensures IsSwapTransaction(tx, selectorOf) <==>
      tx.Some? && tx.value.input.Some? && tx.value.input.value != ""
      && exists m, k :: m in SwapMethods && OccursAt(tx.value.input.value, selectorOf(m), k)
  {
    if tx.Some? && tx.value.input.Some? {
      AnySelectorInIff(tx.value.input.value, SwapMethods, selectorOf);
    }
  }

  /** The table holds a given hash. */
  predicate HasHash(entries: seq<PendingEntry>, h: string)
  {
    exists i :: 0 <= i < |entries| && entries[i].hash == h
  }

  /** Map keys are unique. */
  predicate UniqueHashes(entries: seq<PendingEntry>)
  {
    forall i, j :: 0 <= i < j < |entries| ==> entries[i].hash != entries[j].hash
  }

  /** The entries `cleanupPendingTransactions` keeps, in table order. */
  function Unexpired(entries: seq<PendingEntry>, now: int): seq<PendingEntry>
  {
    if entries == [] then []
    else
      var e := entries[|entries| - 1];
      Unexpired(entries[..|entries| - 1], now) + (if now - e.timestamp > PendingLifetime then [] else [e])
  }

  /** The opportunities `findSandwichOpportunities` reports from a table, in table order. */
  function Recent(entries: seq<PendingEntry>, now: int): seq<SandwichOpportunity>
  {
    if entries == [] then []
    else
      var e := entries[|entries| - 1];
      Recent(entries[..|entries| - 1], now) + (if now - e.timestamp < ReportWindow then [e.opportunity] else [])
  }

  /** The sweep keeps exactly the entries at most 30 s old, never reorders, and keeps keys unique. */
  lemma {:induction false} UnexpiredExact(entries: seq<PendingEntry>, now: int)
    ensures forall e :: e in Unexpired(entries, now) <==> e in entries && !(now - e.timestamp > PendingLifetime)
    ensures |Unexpired(entries, now)| <= |entries|
    ensures UniqueHashes(entries) ==> UniqueHashes(Unexpired(entries, now))
  {
    if entries != [] {
      var init := entries[..|entries| - 1];
      var e := entries[|entries| - 1];
      assert entries == init + [e];
      UnexpiredExact(init, now);
      if UniqueHashes(entries) {
        assert UniqueHashes(init);
        var kept := Unexpired(init, now);
        forall x | x in kept
          ensures x.hash != e.hash
        {
          var i :| 0 <= i < |init| && init[i] == x;
        }
        ExtendUnique(kept, e);
      }
    }
  }

  /** Appending an entry whose hash is new keeps keys unique. */
  lemma ExtendUnique(entries: seq<PendingEntry>, e: PendingEntry)
    requires UniqueHashes(entries)
    requires forall x :: x in entries ==> x.hash != e.hash
    ensures UniqueHashes(entries + [e])
  {
    var next := entries + [e];
    forall i, j | 0 <= i < j < |next|
      ensures next[i].hash != next[j].hash
    {
      if j == |entries| {
        assert next[i] in entries;
      }
    }
  }

  /** A reported opportunity is one whose entry is younger than 10 s. */
  lemma {:induction false} RecentExact(entries: seq<PendingEntry>, now: int)
    ensures forall o :: o in Recent(entries, now) <==>
      exists i :: 0 <= i < |entries| && entries[i].opportunity == o && now - entries[i].timestamp < ReportWindow
  {
    if entries != [] {
      var init := entries[..|entries| - 1];
      var e := entries[|entries| - 1];
      RecentExact(init, now);
      forall o | exists i :: 0 <= i < |entries| && entries[i].opportunity == o && now - entries[i].timestamp < ReportWindow
        ensures o in Recent(entries, now)
      {
        var i :| 0 <= i < |entries| && entries[i].opportunity == o && now - entries[i].timestamp < ReportWindow;
        if i < |init| {
          assert init[i] == entries[i];
        }
      }
      forall o | o in Recent(entries, now)
        ensures exists i :: 0 <= i < |entries| && entries[i].opportunity == o && now - entries[i].timestamp < ReportWindow
      {
        if o in Recent(init, now) {
          var i :| 0 <= i < |init| && init[i].opportunity == o && now - init[i].timestamp < ReportWindow;
          assert entries[i] == init[i];
        } else {
          assert entries[|entries| - 1].opportunity == o;
        }
      }
    }
  }

  /** Sweeping first changes nothing in the report: a reported entry is far from expiry. */
  lemma {:induction false} SweepKeepsReport(entries: seq<PendingEntry>, now: int)
    ensures Recent(Unexpired(entries, now), now) == Recent(entries, now)
  {
    if entries != [] {
      var init := entries[..|entries| - 1];
      var e := entries[|entries| - 1];
      SweepKeepsReport(init, now);
      var kept := Unexpired(init, now);
      if now - e.timestamp > PendingLifetime {
        assert Unexpired(entries, now) == kept;
      } else {
        assert Unexpired(entries, now) == kept + [e];
        assert (kept + [e])[..|kept + [e]| - 1] == kept;
      }
    }
  }

  class SandwichService {
    var isRunning: bool
    /** Whether the `pending` listener is attached to the provider. */
    var listening: bool
    /** The `pendingTxs` Map, in insertion order. */
    var pendingTxs: seq<PendingEntry>

    predicate Valid()
      reads this
    {
      UniqueHashes(pendingTxs)
    }

    constructor ()
      ensures Valid() && !isRunning && !listening && pendingTxs == []
    {
      isRunning := false;
      listening := false;
      pendingTxs := [];
    }

    /**
     * `start`: a no-op when running; otherwise marks the scanner running and
     * subscribes to `pending` on the provider. `subscribed` says whether the
     * provider accepts the subscription; when `provider.on` throws, the catch
     * marks the scanner stopped again.
     */
    method Start(subscribed: bool)
      modifies this
      ensures pendingTxs == old(pendingTxs)
      ensures old(isRunning) ==> isRunning && listening == old(listening)
      ensures !old(isRunning) ==> isRunning == subscribed && listening == (old(listening) || subscribed)
    {
      if isRunning {
        return;
      }
      isRunning := true;
      if !subscribed {
        isRunning := false;
        return;
      }
      listening := true;
    }

    /**
     * `stop`: marks the scanner stopped, then detaches the `pending`
     * listeners. `detachable` says whether the provider has
     * `removeAllListeners`; when it throws, the returned promise is
     * `rejected` and the listener state is left as it was. The table is kept.
     */
    method Stop(detachable: bool) returns (rejected: bool)
      modifies this
      ensures !isRunning && pendingTxs == old(pendingTxs)
      ensures rejected <==> !detachable
      ensures listening == (old(listening) && !detachable)
    {
      isRunning := false;
      if !detachable {
        return true;
      }
      listening := false;
      rejected := false;
    }

    /**
     * `handlePendingTransaction`, with `fetched` what `getTransaction`
     * answered and `now` the insertion time. When running, a fetched swap
     * with a new hash and an opportunity under the corrected numeric gas cap
     * is appended to the table stamped `now`; in every other case nothing
     * changes.
     */
    method HandlePendingTransaction(fetched: Option<Transaction>, now: int, selectorOf: string -> string)
      requires Valid()
      modifies this
      ensures Valid()
      ensures isRunning == old(isRunning) && listening == old(listening)
      ensures if old(isRunning) && fetched.Some? && !HasHash(old(pendingTxs), fetched.value.hash)
                 && IsSwapTransaction(fetched, selectorOf) && AnalyzeSandwichOpportunity(fetched).Some?
              then pendingTxs == old(pendingTxs)
                     + [PendingEntry(fetched.value.hash, AnalyzeSandwichOpportunity(fetched).value, now)]
              else pendingTxs == old(pendingTxs)
    {
      if !isRunning {
        return;
      }
      if fetched.None? || HasHash(pendingTxs, fetched.value.hash) {
        return;
      }
      var tx := fetched.value;
      if IsSwapTransaction(fetched, selectorOf) {
        var opportunity := AnalyzeSandwichOpportunity(fetched);
        if opportunity.Some? {
          forall x | x in pendingTxs
            ensures x.hash != tx.hash
          {
            var i :| 0 <= i < |pendingTxs| && pendingTxs[i] == x;
          }
          ExtendUnique(pendingTxs, PendingEntry(tx.hash, opportunity.value, now));
          pendingTxs := pendingTxs + [PendingEntry(tx.hash, opportunity.value, now)];
        }
      }
    }

    /** `cleanupPendingTransactions`: deletes exactly the entries older than 30 s. */
    method CleanupPendingTransactions(now: int)
      requires Valid()
      modifies this
      ensures Valid()
      ensures pendingTxs == Unexpired(old(pendingTxs), now)
      ensures isRunning == old(isRunning) && listening == old(listening)
    {
      var entries := pendingTxs;
      var kept := [];
      var i := 0;
      while i < |entries|
        invariant 0 <= i <= |entries|
        invariant kept == Unexpired(entries[..i], now)
      {
        assert entries[..i + 1][..i] == entries[..i];
        var e := entries[i];
        if !(now - e.timestamp > PendingLifetime) {
          kept := kept + [e];
        }
        i := i + 1;
      }
      assert entries[..i] == entries;
      UnexpiredExact(entries, now);
      pendingTxs := kept;
    }

    /**
     * `findSandwichOpportunities`: nothing when stopped; otherwise sweeps the
     * table and reports, in table order, the opportunities younger than 10 s.
     */
    method FindSandwichOpportunities(now: int) returns (opps: seq<SandwichOpportunity>)
      requires Valid()
      modifies this
      ensures Valid()
      ensures isRunning == old(isRunning) && listening == old(listening)
      ensures !isRunning ==> opps == [] && pendingTxs == old(pendingTxs)
      ensures isRunning ==> pendingTxs == Unexpired(old(pendingTxs), now) && opps == Recent(pendingTxs, now)
    {
      if !isRunning {
        return [];
      }
      CleanupPendingTransactions(now);
      opps := [];
      var i := 0;
      while i < |pendingTxs|
        invariant 0 <= i <= |pendingTxs|
        invariant opps == Recent(pendingTxs[..i], now)
      {
        assert pendingTxs[..i + 1][..i] == pendingTxs[..i];
        var data := pendingTxs[i];
        if now - data.timestamp < ReportWindow {
          opps := opps + [data.opportunity];
        }
        i := i + 1;
      }
      assert pendingTxs[..i] == pendingTxs;
    }
  }

  /**
   * The scanner as wired: the shared provider is an HTTP provider, which has
   * no `on`, so `start` leaves the scanner stopped; every pending transaction
   * is then ignored and the scan reports nothing.
   */
  method HttpProviderScanFindsNothing(fetched: Option<Transaction>, now: int, selectorOf: string -> string)
    returns (opps: seq<SandwichOpportunity>)
    ensures opps == []
  {
    var scanner := new SandwichService();
    scanner.Start(false);
    scanner.HandlePendingTransaction(fetched, now, selectorOf);
    opps := scanner.FindSandwichOpportunities(now);
  }
}
