/** The batched state read: six calls per pool row in a fixed order, and the
    regrouping of the returned values six at a time into one reading per
    Uniswap pool; and the time-keyed gas-price cache. The aggregated call,
    ABI encoding and decoding, and the node are collaborators. */
module PriceFetcher {
  import opened Types

  // ---------------------------------------------------------------------
  // Batch layout

  /** The contract function a call invokes. */
  datatype CallData = Slot0 | GlobalState | BalanceOf(owner: Address)

  /** One entry of the aggregated call: target contract and function. */
  datatype Call = Call(target: Address, data: CallData)

  /** The identities recorded per row: both pools and both tokens. */
  datatype PoolIds = PoolIds(uni: Address, cam: Address, token0: Address, token1: Address)

  function IdsOf(row: PoolRow): PoolIds {
    PoolIds(row.uniPool, row.camPool, row.token0Id, row.token1Id)
  }

  /** The call that reads a given field of a pool pair. */
  function CallFor(ids: PoolIds, f: Field): Call {
    match f
    case UniswapPrice => Call(ids.uni, Slot0)
    case CamelotPrice => Call(ids.cam, GlobalState)
    case Token0BalanceUni => Call(ids.token0, BalanceOf(ids.uni))
    case Token1BalanceUni => Call(ids.token1, BalanceOf(ids.uni))
    case Token0BalanceCam => Call(ids.token0, BalanceOf(ids.cam))
    case Token1BalanceCam => Call(ids.token1, BalanceOf(ids.cam))
  }

  /** The six calls of one row: slot0 on the Uniswap pool, globalState on
      the Camelot pool, then the four balanceOf calls. */
  function RowCalls(ids: PoolIds): seq<Call> {
    [Call(ids.uni, Slot0), Call(ids.cam, GlobalState),
     Call(ids.token0, BalanceOf(ids.uni)), Call(ids.token1, BalanceOf(ids.uni)),
     Call(ids.token0, BalanceOf(ids.cam)), Call(ids.token1, BalanceOf(ids.cam))]
  }

  /** The whole call list: the rows' six-call groups in row order. */
  function CallList(rows: seq<PoolRow>): seq<Call>
  {
    if rows == [] then [] else CallList(rows[..|rows| - 1]) + RowCalls(IdsOf(rows[|rows| - 1]))
  }

  lemma {:induction false} CallListLength(rows: seq<PoolRow>)
    ensures |CallList(rows)| == 6 * |rows|
  {
    if rows != [] {
      CallListLength(rows[..|rows| - 1]);
    }
  }

  /** Slot 6k + j of the call list asks for field j of row k. */
  lemma {:induction false} CallListAt(rows: seq<PoolRow>, k: nat, j: nat)
    requires k < |rows| && j < 6
    ensures |CallList(rows)| == 6 * |rows|
    ensures CallList(rows)[6 * k + j] == CallFor(IdsOf(rows[k]), FieldAt(j))
  {
    CallListLength(rows);
    var n := |rows| - 1;
    CallListLength(rows[..n]);
    if k < n {
      CallListAt(rows[..n], k, j);
      assert rows[..n][k] == rows[k];
    }
  }

  /** The loop of get_pool_data_multicall that builds the call list and the
      per-row identities. */
  method BuildCalls(rows: seq<PoolRow>) returns (calls: seq<Call>, poolIds: seq<PoolIds>)
    ensures |calls| == 6 * |rows| && |poolIds| == |rows|
    ensures forall k :: 0 <= k < |rows| ==> poolIds[k] == IdsOf(rows[k])
    ensures forall k, j :: 0 <= k < |rows| && 0 <= j < 6 ==> calls[6 * k + j] == CallFor(poolIds[k], FieldAt(j))
  {
    calls, poolIds := [], [];
    var i := 0;
    while i < |rows|
      invariant 0 <= i <= |rows|
      invariant calls == CallList(rows[..i])
      invariant |poolIds| == i && forall k :: 0 <= k < i ==> poolIds[k] == IdsOf(rows[k])
    {
      var ids := IdsOf(rows[i]);
      calls := calls + RowCalls(ids);
      poolIds := poolIds + [ids];
      assert rows[..i + 1][..i] == rows[..i];
      i := i + 1;
    }
    assert rows[..i] == rows;
    CallListLength(rows);
    forall k, j | 0 <= k < |rows| && 0 <= j < 6
      ensures calls[6 * k + j] == CallFor(poolIds[k], FieldAt(j))
    {
      CallListAt(rows, k, j);
    }
  }

  /** The reading built from the six values starting at slot i. */
  function ReadingAt(data: seq<int>, i: nat): (r: Reading)
    requires i + 6 <= |data|
    ensures forall j :: 0 <= j < 6 ==> FieldAt(j) in r && r[FieldAt(j)] == data[i + j]
  {
    map[UniswapPrice := data[i], CamelotPrice := data[i + 1],
        Token0BalanceUni := data[i + 2], Token1BalanceUni := data[i + 3],
        Token0BalanceCam := data[i + 4], Token1BalanceCam := data[i + 5]]
  }

  /** The readings of the first |ids| groups of six, keyed by Uniswap pool;
      a later group overwrites an earlier one with the same Uniswap pool. */
  function Regrouped(data: seq<int>, ids: seq<PoolIds>): PoolData
    requires 6 * |ids| <= |data|
  {
    if ids == [] then map[]
    else
      var n := |ids| - 1;
      Regrouped(data, ids[..n])[ids[n].uni := ReadingAt(data, 6 * n)]
  }

  /** No later row has the same Uniswap pool as row k. */
  predicate LastWithUni(ids: seq<PoolIds>, k: nat)
    requires k < |ids|
  {
    forall j :: k < j < |ids| ==> ids[j].uni != ids[k].uni
  }

  /** Some row names Uniswap pool a. */
  predicate NamesUni(ids: seq<PoolIds>, a: Address) {
    exists k :: 0 <= k < |ids| && ids[k].uni == a
  }

  /** The regrouped map is keyed by exactly the rows' Uniswap pools. */
  lemma {:induction false} RegroupedKeys(data: seq<int>, ids: seq<PoolIds>, a: Address)
    requires 6 * |ids| <= |data|
    ensures a in Regrouped(data, ids) <==> NamesUni(ids, a)
  {
    if ids != [] {
      var n := |ids| - 1;
      var prefix := ids[..n];
      RegroupedKeys(data, prefix, a);
      if NamesUni(prefix, a) {
        var k :| 0 <= k < n && prefix[k].uni == a;
        assert ids[k].uni == a;
      }
      if NamesUni(ids, a) && a != ids[n].uni {
        var k :| 0 <= k < |ids| && ids[k].uni == a;
        assert k < n && prefix[k].uni == a;
      }
    }
  }

  /** Each Uniswap pool is mapped to the group of the last row naming it. */
  lemma {:induction false} RegroupedValue(data: seq<int>, ids: seq<PoolIds>, k: nat)
    requires 6 * |ids| <= |data|
    requires k < |ids| && LastWithUni(ids, k)
    ensures ids[k].uni in Regrouped(data, ids)
    ensures Regrouped(data, ids)[ids[k].uni] == ReadingAt(data, 6 * k)
  {
    var n := |ids| - 1;
    if k < n {
      var prefix := ids[..n];
      assert prefix[k] == ids[k];
      assert ids[n].uni != ids[k].uni;
      assert LastWithUni(prefix, k) by {
        forall j | k < j < |prefix| ensures prefix[j].uni != prefix[k].uni {
          assert prefix[j] == ids[j];
        }
      }
      RegroupedValue(data, prefix, k);
    }
  }

  /** The stride-6 loop of get_pool_data_multicall: group i // 6 of the
      returned values becomes the reading of pool_ids[i // 6]. The
      aggregated call returns one value per call. */
  method Regroup(returnData: seq<int>, poolIds: seq<PoolIds>) returns (poolData: PoolData)
    requires |returnData| == 6 * |poolIds|
    ensures forall a :: a in poolData <==> NamesUni(poolIds, a)
    ensures forall k :: 0 <= k < |poolIds| && LastWithUni(poolIds, k) ==>
      poolIds[k].uni in poolData && poolData[poolIds[k].uni] == ReadingAt(returnData, 6 * k)
  {
    poolData := map[];
    var i := 0;
    while i < |returnData|
      invariant 0 <= i <= |returnData| && i % 6 == 0
      invariant poolData == Regrouped(returnData, poolIds[..i / 6])
    {
      var ids := poolIds[i / 6];
      poolData := poolData[ids.uni := map[
        UniswapPrice := returnData[i], CamelotPrice := returnData[i + 1],
        Token0BalanceUni := returnData[i + 2], Token1BalanceUni := returnData[i + 3],
        Token0BalanceCam := returnData[i + 4], Token1BalanceCam := returnData[i + 5]]];
      assert poolIds[..(i + 6) / 6][..i / 6] == poolIds[..i / 6];
      i := i + 6;
    }
    assert poolIds[..i / 6] == poolIds;
    forall a
      ensures a in poolData <==> NamesUni(poolIds, a)
    {
      RegroupedKeys(returnData, poolIds, a);
    }
    forall k | 0 <= k < |poolIds| && LastWithUni(poolIds, k)
      ensures poolIds[k].uni in poolData && poolData[poolIds[k].uni] == ReadingAt(returnData, 6 * k)
    {
      RegroupedValue(returnData, poolIds, k);
    }
  }

  /** get_pool_data_multicall with the aggregated read given as the value
      each call returns: the readings are keyed by exactly the rows' Uniswap
      pools, and the value stored in field f of a pool's reading is the
      answer to the call that asks for f, taken from the last row that names
      that Uniswap pool. */
  method GetPoolData(rows: seq<PoolRow>, answer: Call -> int) returns (poolData: PoolData)
    ensures forall a :: a in poolData <==> NamesUni(Ids(rows), a)
    ensures forall k, f :: 0 <= k < |rows| && LastWithUni(Ids(rows), k) ==>
      rows[k].uniPool in poolData && f in poolData[rows[k].uniPool]
      && poolData[rows[k].uniPool][f] == answer(CallFor(IdsOf(rows[k]), f))
  {
    var calls, poolIds := BuildCalls(rows);
    var returnData := seq(|calls|, i requires 0 <= i < |calls| => answer(calls[i]));
    assert poolIds == Ids(rows);
    poolData := Regroup(returnData, poolIds);
    forall k, f | 0 <= k < |rows| && LastWithUni(Ids(rows), k)
      ensures rows[k].uniPool in poolData && f in poolData[rows[k].uniPool]
        && poolData[rows[k].uniPool][f] == answer(CallFor(IdsOf(rows[k]), f))
    {
      var j := SlotOf(f);
      assert FieldAt(j) == f;
      assert poolIds[k].uni == rows[k].uniPool;
      assert ReadingAt(returnData, 6 * k)[FieldAt(j)] == returnData[6 * k + j];
      assert calls[6 * k + j] == CallFor(poolIds[k], FieldAt(j));
    }
  }


  function Ids(rows: seq<PoolRow>): (ids: seq<PoolIds>)
    ensures |ids| == |rows| && forall k :: 0 <= k < |rows| ==> ids[k] == IdsOf(rows[k])
  {
    seq(|rows|, k requires 0 <= k < |rows| => IdsOf(rows[k]))
  }

  // ---------------------------------------------------------------------
  // Gas-price cache

  /** Seconds between refreshes of the cached gas price. */
  const GAS_UPDATE_INTERVAL: real := 600.0

  /** The cache as a value: the cached price, if any, and when it was set. */
  datatype GasState = GasState(gasPrice: Option<nat>, lastUpdate: real)

  predicate NeedsRefresh(s: GasState, now: real) {
    s.gasPrice.None? || now - s.lastUpdate > GAS_UPDATE_INTERVAL
  }

  /** get_gas_price as a function of the cache: refresh with the node's
      base fee when empty or stale, otherwise keep the cache. */
  function GasStep(s: GasState, now: real, baseFee: nat): (r: GasState)
    ensures r.gasPrice.Some?
  {
    if NeedsRefresh(s, now) then GasState(Some(baseFee), now) else s
  }

  /** A refresh happens exactly when the cache is empty or more than 600
      seconds old; 600 seconds exactly still hits the cache. */
  lemma GasRefreshRule(s: GasState, now: real, baseFee: nat)
    ensures var r := GasStep(s, now, baseFee);
      (s.gasPrice.None? || now - s.lastUpdate > 600.0 ==> r == GasState(Some(baseFee), now))
      && (s.gasPrice.Some? && now - s.lastUpdate <= 600.0 ==> r == s)
  {
  }

  /** After a refresh at time t, every call up to t + 600 returns the same
      price without touching the cache, whatever the node reports. */
  lemma GasCacheHoldsForInterval(s: GasState, t: real, baseFee: nat, now: real, laterFee: nat)
    requires NeedsRefresh(s, t) && t <= now <= t + 600.0
    ensures var r := GasStep(s, t, baseFee);
      GasStep(r, now, laterFee) == r && r.gasPrice == Some(baseFee)
  {
  }

  class GasCache {
    var gasPrice: Option<nat>
    var lastGasUpdate: real

    function State(): GasState
      reads this
    {
      GasState(gasPrice, lastGasUpdate)
    }

    /** The cache starts empty, stamped with the load time. */
    constructor (startTime: real)
      ensures State() == GasState(None, startTime)
    {
      gasPrice, lastGasUpdate := None, startTime;
    }

    /** get_gas_price at time `now`; `baseFee` is what the node would
        report for the latest block. */
    method GetGasPrice(now: real, baseFee: nat) returns (price: nat)
      modifies this
      ensures State() == GasStep(old(State()), now, baseFee)
      ensures gasPrice == Some(price)
    {
      if gasPrice.None? || now - lastGasUpdate > GAS_UPDATE_INTERVAL {
        gasPrice := Some(baseFee);
        lastGasUpdate := now;
      }
      price := gasPrice.value;
    }
  }
}
