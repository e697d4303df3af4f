/**
 * Strategy execution bookkeeping (`ExecutionService`): a table of pending
 * executions with a capacity of five, 500 ms spacing between executions,
 * `type-timestamp` slot ids and a 30-second timeout sweep.
 */
module ExecutionService {
  import opened Common
  import opened Constants

  const MaxConcurrent: nat := 5
  /** Milliseconds after which `cleanup` drops a slot. */
  const ExecutionTimeout: int := 30000
  /** Milliseconds an execution waits when it follows the last one too closely. */
  const MinInterval: int := 500

  /** The opportunity handed to `executeStrategy`: its `type`, `tokens` and `amount`. */
  datatype Order = Order(kind: string, tokens: seq<Address>, amount: nat)

  /**
   * The slot id `${type}-${Date.now()}`. The timestamp is a decimal numeral
   * with no `-`, so the string determines the pair and the pair stands for it.
   */
  datatype ExecutionId = ExecutionId(kind: string, time: int)

  datatype Slot = Slot(order: Order, startTime: int)

  /** What one swap returns; the swap itself is a parameter (`dexService.executeSwap`). */
  type Receipt = string
  type Swap = (Address, Address, nat) -> Result<Receipt, string>

  /** What a strategy answers: the trades of a triangular run, or the stubs' `null`. */
  datatype Outcome = Trades(trades: seq<Receipt>) | Nothing

  const CapacityError: string := "Max concurrent executions reached"

  /** The hops of a triangular run: token `i` to token `i + 1`, the last back to the first. */
  function Hops(tokens: seq<Address>): seq<(Address, Address)>
  {
    seq(|tokens|, i requires 0 <= i < |tokens| => (tokens[i], tokens[(i + 1) % |tokens|]))
  }

  /** The hops chain into a cycle: each ends where the next begins, and the last ends at the start. */
  lemma HopsFormCycle(tokens: seq<Address>)
    ensures |Hops(tokens)| == |tokens|
    ensures forall i :: 0 <= i < |tokens| ==> Hops(tokens)[i].0 == tokens[i]
    ensures forall i :: 0 <= i < |tokens| - 1 ==> Hops(tokens)[i].1 == Hops(tokens)[i + 1].0
    ensures |tokens| > 0 ==> Hops(tokens)[|tokens| - 1].1 == tokens[0]
  {
    var h := Hops(tokens);
    var n := |tokens|;
    forall i | 0 <= i < n - 1
      ensures h[i].1 == h[i + 1].0
    {
      ModSmall(i + 1, n);
      assert h[i] == (tokens[i], tokens[(i + 1) % n]);
    }
    if n > 0 {
      assert (n - 1 + 1) % n == 0;
      assert h[n - 1] == (tokens[n - 1], tokens[(n - 1 + 1) % n]);
    }
  }

  lemma ModSmall(a: int, n: int)
    requires 0 <= a < n
    ensures a % n == a
  {
  }

  /** The swaps of `hops` in order, stopping at the first that fails. */
  function RunSwaps(hops: seq<(Address, Address)>, amount: nat, swap: Swap): Result<seq<Receipt>, string>
  {
    if hops == [] then Ok([])
    else
      match RunSwaps(hops[..|hops| - 1], amount, swap)
      case Err(e) => Err(e)
      case Ok(done) =>
        var last := hops[|hops| - 1];
        match swap(last.0, last.1, amount)
        case Err(e) => Err(e)
        case Ok(t) => Ok(done + [t])
  }

  /**
   * A run succeeds iff every swap does, and then returns one receipt per hop
   * in hop order; otherwise it fails with the error of the first failing hop.
   */
  lemma {:induction false} RunSwapsExact(hops: seq<(Address, Address)>, amount: nat, swap: Swap)
    ensures RunSwaps(hops, amount, swap).Ok? <==>
      forall i :: 0 <= i < |hops| ==> swap(hops[i].0, hops[i].1, amount).Ok?
    ensures RunSwaps(hops, amount, swap).Ok? ==>
      var ts := RunSwaps(hops, amount, swap).value;
      |ts| == |hops| && forall i :: 0 <= i < |hops| ==> ts[i] == swap(hops[i].0, hops[i].1, amount).value
    ensures RunSwaps(hops, amount, swap).Err? ==>
      exists k :: 0 <= k < |hops| && swap(hops[k].0, hops[k].1, amount).Err?
        && RunSwaps(hops, amount, swap).error == swap(hops[k].0, hops[k].1, amount).error
        && forall i :: 0 <= i < k ==> swap(hops[i].0, hops[i].1, amount).Ok?
  {
    if hops != [] {
      var init := hops[..|hops| - 1];
      RunSwapsExact(init, amount, swap);
      assert forall i :: 0 <= i < |init| ==> init[i] == hops[i];
    }
  }

  /** The `switch` of `executeStrategy`: what the strategy for `order.kind` answers. */
  function Dispatch(order: Order, swap: Swap): Result<Outcome, string>
  {
    if order.kind == "triangularArbitrage" then
      match RunSwaps(Hops(order.tokens), order.amount, swap)
      case Ok(trades) => Ok(Trades(trades))
      case Err(e) => Err(e)
    else if order.kind == "flashLoan" || order.kind == "sandwich" || order.kind == "marketMaking" then
      Ok(Nothing)
    else
      Err("Unknown strategy type: " + order.kind)
  }

  /**
   * A strategy fails iff its type is unknown or it is a triangular run with a
   * failing swap; the three other known strategies answer `null`.
   */
  lemma DispatchIff(order: Order, swap: Swap)
    ensures Dispatch(order, swap).Err? <==>
      (order.kind !in {"triangularArbitrage", "flashLoan", "sandwich", "marketMaking"})
      || (order.kind == "triangularArbitrage"
          && exists i :: 0 <= i < |order.tokens| && swap(Hops(order.tokens)[i].0, Hops(order.tokens)[i].1, order.amount).Err?)
    ensures order.kind in {"flashLoan", "sandwich", "marketMaking"} ==> Dispatch(order, swap) == Ok(Nothing)
    ensures order.kind == "triangularArbitrage" && Dispatch(order, swap).Ok? ==>
      |Dispatch(order, swap).value.trades| == |order.tokens|
  {
    RunSwapsExact(Hops(order.tokens), order.amount, swap);
  }

  /** The slots `cleanup` keeps: those at most 30 s old. */
  function Swept(table: map<ExecutionId, Slot>, now: int): map<ExecutionId, Slot>
  {
    map id | id in table && !(now - table[id].startTime > ExecutionTimeout) :: table[id]
  }

  /**
   * The sweep drops exactly the slots more than 30 s old and keeps every
   * other slot unchanged; a slot started at `t` survives a sweep at
   * `t + 30000` and is gone at `t + 30001`.
   */
  lemma SweptExact(table: map<ExecutionId, Slot>, now: int)
    ensures forall id :: id in Swept(table, now) <==> id in table && now - table[id].startTime <= ExecutionTimeout
    ensures forall id :: id in Swept(table, now) ==> Swept(table, now)[id] == table[id]
    ensures forall id :: id in table ==>
      (id in Swept(table, table[id].startTime + ExecutionTimeout)
       && id !in Swept(table, table[id].startTime + ExecutionTimeout + 1))
  {
  }

  /** A sweep never grows the table. */
  lemma SweptSmaller(table: map<ExecutionId, Slot>, now: int)
    ensures |Swept(table, now)| <= |table|
  {
    assert Swept(table, now).Keys <= table.Keys;
    SubsetCard(Swept(table, now).Keys, table.Keys);
  }

  lemma {:induction false} SubsetCard<K>(a: set<K>, b: set<K>)
    requires a <= b
    ensures |a| <= |b|
  {
    if a != {} {
      var x :| x in a;
      SubsetCard(a - {x}, b - {x});
    }
  }

  class ExecutionService {
    var pendingExecutions: map<ExecutionId, Slot>
    var lastExecution: int

    /** The table never holds more than `maxConcurrent` slots. */
    predicate Valid()
      reads this
    {
      |pendingExecutions| <= MaxConcurrent
    }

    constructor ()
      ensures Valid() && pendingExecutions == map[] && lastExecution == 0
    {
      pendingExecutions := map[];
      lastExecution := 0;
    }

    /**
     * `executeStrategy`. `now` is the clock before the optional wait, `idTime`
     * the clock the id is stamped with, `endTime` the clock at completion;
     * `waited` says whether the 500 ms wait ran. A full table throws with no
     * change. Otherwise the slot is set (overwriting one with the same id);
     * on success it is deleted and `lastExecution` becomes `endTime`; on a
     * failure the slot stays and `lastExecution` is untouched.
     */
    method ExecuteStrategy(order: Order, now: int, idTime: int, endTime: int, swap: Swap)
      returns (waited: bool, r: Result<Outcome, string>)
      requires Valid()
      modifies this
      ensures Valid()
      ensures |old(pendingExecutions)| >= MaxConcurrent ==>
        !waited && r == Err(CapacityError)
        && pendingExecutions == old(pendingExecutions) && lastExecution == old(lastExecution)
      ensures |old(pendingExecutions)| < MaxConcurrent ==>
        var id := ExecutionId(order.kind, idTime);
        (waited <==> now - old(lastExecution) < MinInterval)
        && r == Dispatch(order, swap)
        && (r.Ok? ==> pendingExecutions == old(pendingExecutions) - {id} && lastExecution == endTime)
        && (r.Err? ==> pendingExecutions == old(pendingExecutions)[id := Slot(order, now)]
                       && lastExecution == old(lastExecution))
    {
      if |pendingExecutions| >= MaxConcurrent {
        return false, Err(CapacityError);
      }
      waited := now - lastExecution < MinInterval;
      var executionId := ExecutionId(order.kind, idTime);
      SetCard(pendingExecutions, executionId, Slot(order, now));
      pendingExecutions := pendingExecutions[executionId := Slot(order, now)];
      var result: Outcome;
      if order.kind == "triangularArbitrage" {
        var trades := ExecuteTriangularArbitrage(order, swap);
        if trades.Err? {
          return waited, Err(trades.error);
        }
        result := Trades(trades.value);
      } else if order.kind == "flashLoan" || order.kind == "sandwich" || order.kind == "marketMaking" {
        result := Nothing;
      } else {
        return waited, Err("Unknown strategy type: " + order.kind);
      }
      SubsetCard((pendingExecutions - {executionId}).Keys, pendingExecutions.Keys);
      pendingExecutions := pendingExecutions - {executionId};
      lastExecution := endTime;
      r := Ok(result);
    }

    /** `executeTriangularArbitrage`: one swap per hop, in hop order, each of `order.amount`. */
    method ExecuteTriangularArbitrage(order: Order, swap: Swap) returns (r: Result<seq<Receipt>, string>)
      ensures r == RunSwaps(Hops(order.tokens), order.amount, swap)
    {
      var tokens := order.tokens;
      var hops := Hops(tokens);
      var trades: seq<Receipt> := [];
      var i := 0;
      while i < |tokens|
        invariant 0 <= i <= |tokens|
        invariant RunSwaps(hops[..i], order.amount, swap) == Ok(trades)
      {
        var tokenIn := tokens[i];
        var tokenOut := tokens[(i + 1) % |tokens|];
        var trade := swap(tokenIn, tokenOut, order.amount);
        assert hops[..i + 1][..i] == hops[..i];
        if trade.Err? {
          assert RunSwaps(hops[..i + 1], order.amount, swap) == Err(trade.error);
          RunSwapsStopped(hops, i + 1, order.amount, swap);
          return Err(trade.error);
        }
        trades := trades + [trade.value];
        i := i + 1;
      }
      assert hops[..i] == hops;
      r := Ok(trades);
    }

    /** `cleanup`: drops the slots more than 30 s old. */
    method Cleanup(now: int)
      requires Valid()
      modifies this
      ensures Valid()
      ensures pendingExecutions == Swept(old(pendingExecutions), now)
      ensures lastExecution == old(lastExecution)
    {
      var ids := pendingExecutions.Keys;
      ghost var original := pendingExecutions;
      while ids != {}
        invariant ids <= original.Keys
        invariant pendingExecutions.Keys <= original.Keys
        invariant forall id :: id in original && id !in ids ==>
          (id in pendingExecutions <==> !(now - original[id].startTime > ExecutionTimeout))
        invariant forall id :: id in ids ==> id in pendingExecutions
        invariant forall id :: id in pendingExecutions ==> pendingExecutions[id] == original[id]
        invariant lastExecution == old(lastExecution)
        decreases ids
      {
        var id :| id in ids;
        if now - pendingExecutions[id].startTime > ExecutionTimeout {
          pendingExecutions := map id' | id' in pendingExecutions && id' != id :: pendingExecutions[id'];
        }
        ids := ids - {id};
      }
      assert pendingExecutions == Swept(original, now);
      SweptSmaller(original, now);
    }
  }

  /** Setting a key adds at most one slot. */
  lemma SetCard(table: map<ExecutionId, Slot>, id: ExecutionId, s: Slot)
    ensures |table[id := s]| <= |table| + 1
  {
    assert table[id := s].Keys == table.Keys + {id};
  }

  /** Once a prefix of the run fails, the whole run fails with the same error. */
  lemma {:induction false} RunSwapsStopped(hops: seq<(Address, Address)>, n: nat, amount: nat, swap: Swap)
    requires 0 < n <= |hops| && RunSwaps(hops[..n], amount, swap).Err?
    ensures RunSwaps(hops, amount, swap) == RunSwaps(hops[..n], amount, swap)
    decreases |hops| - n
  {
    if n < |hops| {
      assert hops[..n + 1][..n] == hops[..n];
      RunSwapsStopped(hops, n + 1, amount, swap);
    } else {
      assert hops[..n] == hops;
    }
  }
}
