/** The transaction sender: nonce assignment from the chain's transaction
    count and the last nonce this process used, construction of the
    executeArbitrage transaction, and the commit of the nonce after a
    successful broadcast. Signing and broadcasting are a collaborator
    passed in as a function. */
module ArbExecutor {
  import opened Types

  /** Gas limit of every arbitrage transaction. */
  const TX_GAS: nat := 550000
  /** 0.2 gwei, in wei. */
  const TX_GAS_PRICE: nat := 200000000

  /** The seven arguments of executeArbitrage, in order. */
  datatype TxParams = TxParams(
    routerA: Address, routerB: Address,
    tokenIn: Address, tokenOut: Address,
    feeA: int, feeB: int, amountIn: int)

  datatype Transaction = Transaction(
    sender: Address, nonce: nat, gas: nat, gasPrice: nat, call: TxParams)

  /** An opaque transaction hash returned by a successful broadcast. */
  type TxHash = seq<bv8>

  /** The nonce for the next transaction: the chain's count, or one past the
      last nonce used when the chain lags behind it. */
  function NextNonce(chainCount: nat, last: Option<nat>): (n: nat)
    ensures n >= chainCount
    ensures last.Some? ==> n > last.value
    ensures n == chainCount || (last.Some? && n == last.value + 1)
  {
    if last.None? then chainCount
    else if chainCount >= last.value + 1 then chainCount else last.value + 1
  }

  function BuildTx(account: Address, p: TxParams, nonce: nat): Transaction {
    Transaction(account, nonce, TX_GAS, TX_GAS_PRICE, p)
  }

  /** The outcome of one send: the new last-used nonce and the hash, if any. */
  datatype SendResult = SendResult(lastUsed: Option<nat>, txHash: Option<TxHash>)

  /** send_arbitrage_tx as a function of the old last-used nonce. The chain's
      count is None when reading it failed; `submit` signs and broadcasts,
      returning None when either step fails. A failed send keeps the
      last-used nonce; a successful one moves it past the old one and to at
      least the chain's count. */
  function SendStep(last: Option<nat>, p: TxParams, account: Address,
                    chainCount: Option<nat>, submit: Transaction -> Option<TxHash>): (r: SendResult)
    ensures r.txHash.None? ==> r.lastUsed == last
    ensures r.txHash.Some? ==>
      chainCount.Some? && r.lastUsed.Some? && r.lastUsed.value >= chainCount.value
      && (last.Some? ==> r.lastUsed.value > last.value)
  {
    if chainCount.None? then SendResult(last, None)
    else
      var nonce := NextNonce(chainCount.value, last);
      var h := submit(BuildTx(account, p, nonce));
      if h.None? then SendResult(last, None) else SendResult(Some(nonce), h)
  }

  /** The nonce is committed exactly when a hash comes back; on any failure
      the last-used nonce is unchanged and nothing is returned. A broadcast
      carries the seven arguments unchanged, the fixed gas limit and price,
      and the assigned nonce. */
  lemma SendCommitsOnlyOnSuccess(last: Option<nat>, p: TxParams, account: Address,
                                 chainCount: Option<nat>, submit: Transaction -> Option<TxHash>)
    ensures var r := SendStep(last, p, account, chainCount, submit);
      (r.txHash.None? ==> r.lastUsed == last)
      && (r.txHash.Some? ==>
            chainCount.Some?
            && r.lastUsed == Some(NextNonce(chainCount.value, last))
            && r.txHash == submit(Transaction(account, r.lastUsed.value, 550000, 200000000, p)))
  {
  }

  /** The nonces assigned by a series of successful sends, given the chain's
      count at each send. */
  function NoncesOfSuccesses(last: Option<nat>, chainCounts: seq<nat>): (ns: seq<nat>)
    ensures |ns| == |chainCounts|
    decreases |chainCounts|
  {
    if chainCounts == [] then []
    else
      var n := NextNonce(chainCounts[0], last);
      [n] + NoncesOfSuccesses(Some(n), chainCounts[1..])
  }

  /** Over any series of successful sends the nonces strictly increase, so
      none repeats, each is at least the chain's count, and each exceeds the
      nonce used before the series, however far the chain's count lags. */
  lemma {:induction false} NoncesStrictlyIncrease(last: Option<nat>, chainCounts: seq<nat>)
    ensures var ns := NoncesOfSuccesses(last, chainCounts);
      (forall i, j :: 0 <= i < j < |ns| ==> ns[i] < ns[j])
      && (forall i :: 0 <= i < |ns| ==> ns[i] >= chainCounts[i])
      && (last.Some? ==> forall i :: 0 <= i < |ns| ==> ns[i] > last.value)
    decreases |chainCounts|
  {
    if chainCounts != [] {
      var n := NextNonce(chainCounts[0], last);
      var rest := NoncesOfSuccesses(Some(n), chainCounts[1..]);
      NoncesStrictlyIncrease(Some(n), chainCounts[1..]);
      var ns := NoncesOfSuccesses(last, chainCounts);
      assert ns == [n] + rest;
      forall i, j | 0 <= i < j < |ns|
        ensures ns[i] < ns[j]
      {
        if i > 0 { assert ns[i] == rest[i - 1] && ns[j] == rest[j - 1]; }
        else { assert ns[j] == rest[j - 1]; }
      }
      forall i | 0 <= i < |ns|
        ensures ns[i] >= chainCounts[i]
      {
        if i > 0 { assert ns[i] == rest[i - 1] && chainCounts[i] == chainCounts[1..][i - 1]; }
      }
    }
  }

  /** The process-wide sender with its last-used nonce. */
  class Executor {
    const account: Address
    var lastUsedNonce: Option<nat>

    constructor (account: Address)
      ensures this.account == account && lastUsedNonce == None
    {
      this.account := account;
      lastUsedNonce := None;
    }

    /** send_arbitrage_tx: assign the nonce, build, submit, and commit the
        nonce only after the broadcast returned a hash. */
    method SendArbitrageTx(p: TxParams, chainCount: Option<nat>, submit: Transaction -> Option<TxHash>)
      returns (txHash: Option<TxHash>)
      modifies this
      ensures SendResult(lastUsedNonce, txHash) == SendStep(old(lastUsedNonce), p, account, chainCount, submit)
    {
      if chainCount.None? {
        return None;
      }
      var currentNonce := chainCount.value;
      var nonce := if lastUsedNonce.None? then currentNonce
                   else if currentNonce >= lastUsedNonce.value + 1 then currentNonce
                   else lastUsedNonce.value + 1;
      var tx := Transaction(account, nonce, TX_GAS, TX_GAS_PRICE, p);
      txHash := submit(tx);
      if txHash.Some? {
        lastUsedNonce := Some(nonce);
      }
    }
  }
}
