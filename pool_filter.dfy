/** The per-pool revert circuit breaker: three maps keyed by the pool pair
    (consecutive revert count, block of the last revert, ban-until block),
    the stale-counter sweep with its ban pass, the ban predicate, and the
    update the scanner applies after a transaction receipt. */
module PoolFilter {
  import opened Types

  /** The scanner's configuration: ban after two reverts, for 150 blocks.
      The third constant is the reset window of update_revert_counters;
      the scanner configures it but never calls that sweep, so no stale
      warning of the running bot ever expires. */
  const MAX_REVERTS_PER_POOL: int := 2
  const REVERT_BAN_BLOCKS: int := 150
  const REVERT_RESET_BLOCKS: int := 150

  /** The three maps, as a value. */
  datatype HealthState = HealthState(
    counter: map<PoolKey, nat>,
    lastBlock: map<PoolKey, Block>,
    banned: map<PoolKey, int>)

  /** `revert_counter.get(key, 0)`. */
  function Count(s: HealthState, key: PoolKey): nat {
    if key in s.counter then s.counter[key] else 0
  }

  // ---------------------------------------------------------------------
  // Specification of update_revert_counters

  /** A key whose warnings have gone stale: it has a last revert block at
      least resetBlocks behind and a positive counter. */
  predicate IsStale(s: HealthState, key: PoolKey, latest: Block, resetBlocks: int) {
    key in s.lastBlock && key in s.counter && s.counter[key] > 0
    && latest - s.lastBlock[key] >= resetBlocks
  }

  function StaleKeys(s: HealthState, latest: Block, resetBlocks: int): set<PoolKey> {
    set key | key in s.lastBlock && IsStale(s, key, latest, resetBlocks)
  }

  /** The counter map with the given keys set to zero. */
  function ZeroOut(c: map<PoolKey, nat>, keys: set<PoolKey>): (r: map<PoolKey, nat>)
    ensures r.Keys == c.Keys
    ensures forall key :: key in c ==> r[key] == if key in keys then 0 else c[key]
  {
    map key | key in c :: if key in keys then 0 else c[key]
  }

  /** Keys whose counter has reached the limit. */
  function OverLimit(c: map<PoolKey, nat>, maxReverts: int): set<PoolKey> {
    set key | key in c && c[key] >= maxReverts
  }

  /** Ban entries `key -> until` for every key of a set. */
  function BanEntries(keys: set<PoolKey>, until: int): (m: map<PoolKey, int>)
    ensures m.Keys == keys
    ensures forall key :: key in keys ==> m[key] == until
  {
    map key | key in keys :: until
  }

  /** First pass: zero the counters of stale keys. */
  function Sweep(s: HealthState, latest: Block, resetBlocks: int): (r: HealthState)
    ensures r.lastBlock == s.lastBlock && r.banned == s.banned && r.counter.Keys == s.counter.Keys
    ensures forall key :: key in s.counter ==>
      r.counter[key] == if IsStale(s, key, latest, resetBlocks) then 0 else s.counter[key]
  {
    s.(counter := ZeroOut(s.counter, StaleKeys(s, latest, resetBlocks)))
  }

  /** Second pass: ban every key at the limit until latest + banBlocks and
      zero its counter. */
  function BanPass(s: HealthState, latest: Block, banBlocks: int, maxReverts: int): (r: HealthState)
    ensures r.lastBlock == s.lastBlock && r.counter.Keys == s.counter.Keys
    ensures forall key :: key in s.counter ==>
      r.counter[key] == if s.counter[key] >= maxReverts then 0 else s.counter[key]
    ensures forall key :: key in r.banned <==>
      key in s.banned || (key in s.counter && s.counter[key] >= maxReverts)
    ensures forall key :: key in r.banned ==>
      r.banned[key] == if key in s.counter && s.counter[key] >= maxReverts then latest + banBlocks else s.banned[key]
  {
    var over := OverLimit(s.counter, maxReverts);
    s.(counter := ZeroOut(s.counter, over),
       banned := s.banned + BanEntries(over, latest + banBlocks))
  }

  /** update_revert_counters: the sweep, then the ban pass. */
  function UpdateCounters(s: HealthState, latest: Block, resetBlocks: int, banBlocks: int, maxReverts: int): (r: HealthState)
    ensures r.lastBlock == s.lastBlock && r.counter.Keys == s.counter.Keys
    ensures forall key :: key in r.counter ==> r.counter[key] <= Count(s, key)
  {
    BanPass(Sweep(s, latest, resetBlocks), latest, banBlocks, maxReverts)
  }

  /** is_pool_banned: a ban entry that is present, non-zero and still
      ahead of the current block. Blocks are never negative, so the
      non-zero test adds nothing: a pair is banned exactly while its ban
      block lies ahead. */
  predicate IsPoolBanned(key: PoolKey, banned: map<PoolKey, int>, latest: Block): (b: bool)
    ensures b <==> key in banned && latest < banned[key]
  {
    key in banned && banned[key] != 0 && latest < banned[key]
  }

  // ---------------------------------------------------------------------
  // Specification of the receipt update in the scanner

  /** Receipt status 0 is a revert: count it, remember the block, and ban
      for REVERT_BAN_BLOCKS once the count reaches MAX_REVERTS_PER_POOL.
      Any other status forgives the pool. */
  function OnReceipt(s: HealthState, key: PoolKey, latest: Block, status: int): (r: HealthState)
    ensures r.counter.Keys == s.counter.Keys + {key} && r.counter[key] < MAX_REVERTS_PER_POOL
    ensures forall k :: k in s.counter && k != key ==> r.counter[k] == s.counter[k]
    ensures status != 0 ==> r.counter[key] == 0 && r.lastBlock == s.lastBlock && r.banned == s.banned
    ensures status == 0 ==> r.lastBlock == s.lastBlock[key := latest]
    ensures r.banned == s.banned || (status == 0 && r.banned == s.banned[key := latest + REVERT_BAN_BLOCKS])
  {
    if status == 0 then
      var n := Count(s, key) + 1;
      var s1 := s.(counter := s.counter[key := n], lastBlock := s.lastBlock[key := latest]);
      if n >= MAX_REVERTS_PER_POOL then
        s1.(banned := s1.banned[key := latest + REVERT_BAN_BLOCKS], counter := s1.counter[key := 0])
      else s1
    else
      s.(counter := s.counter[key := 0])
  }

  /** Every counter is below the limit. */
  predicate CountersBelow(s: HealthState, maxReverts: int) {
    forall key :: key in s.counter ==> s.counter[key] < maxReverts
  }

  // ---------------------------------------------------------------------
  // Properties of the sweep and the ban pass

  /** After the sweep, every stale key has counter 0. */
  lemma SweepClearsStale(s: HealthState, latest: Block, resetBlocks: int, key: PoolKey)
    requires key in s.lastBlock && Count(s, key) > 0 && latest - s.lastBlock[key] >= resetBlocks
    ensures Sweep(s, latest, resetBlocks).counter[key] == 0
  {
    assert key in StaleKeys(s, latest, resetBlocks);
  }

  /** With a positive limit, no counter is at or over it afterwards. */
  lemma UpdateLeavesCountersBelow(s: HealthState, latest: Block, resetBlocks: int, banBlocks: int, maxReverts: int)
    requires maxReverts > 0
    ensures CountersBelow(UpdateCounters(s, latest, resetBlocks, banBlocks, maxReverts), maxReverts)
  {
    var s1 := Sweep(s, latest, resetBlocks);
    var r := UpdateCounters(s, latest, resetBlocks, banBlocks, maxReverts);
    forall key | key in r.counter
      ensures r.counter[key] < maxReverts
    {
      if key !in OverLimit(s1.counter, maxReverts) {
        assert s1.counter[key] < maxReverts;
      }
    }
  }

  /** A key at the limit when the ban pass runs is banned until
      latest + banBlocks and its counter is zeroed; with a positive ban
      length it is banned at the very block of the ban. */
  lemma BanPassBans(s: HealthState, latest: Block, resetBlocks: int, banBlocks: int, maxReverts: int, key: PoolKey)
    requires key in s.counter && Sweep(s, latest, resetBlocks).counter[key] >= maxReverts
    ensures var r := UpdateCounters(s, latest, resetBlocks, banBlocks, maxReverts);
      key in r.banned && r.banned[key] == latest + banBlocks && r.counter[key] == 0
      && (banBlocks > 0 ==> IsPoolBanned(key, r.banned, latest))
  {
    var s1 := Sweep(s, latest, resetBlocks);
    assert key in OverLimit(s1.counter, maxReverts);
  }

  /** The sweep runs first: a stale key already over the limit is zeroed,
      not banned, and keeps whatever ban entry it had. */
  lemma StaleKeyIsNotBanned(s: HealthState, latest: Block, resetBlocks: int, banBlocks: int, maxReverts: int, key: PoolKey)
    requires maxReverts > 0
    requires IsStale(s, key, latest, resetBlocks) && s.counter[key] >= maxReverts
    ensures var r := UpdateCounters(s, latest, resetBlocks, banBlocks, maxReverts);
      r.counter[key] == 0
      && (key in r.banned <==> key in s.banned)
      && (key in s.banned ==> r.banned[key] == s.banned[key])
  {
    var s1 := Sweep(s, latest, resetBlocks);
    assert key in StaleKeys(s, latest, resetBlocks);
    assert key !in OverLimit(s1.counter, maxReverts);
  }

  /** The last-revert map is never touched; a key that is neither stale nor
      over the limit keeps its counter and its ban entry. */
  lemma UpdateFrame(s: HealthState, latest: Block, resetBlocks: int, banBlocks: int, maxReverts: int, key: PoolKey)
    requires !IsStale(s, key, latest, resetBlocks)
    requires key in s.counter ==> s.counter[key] < maxReverts
    ensures var r := UpdateCounters(s, latest, resetBlocks, banBlocks, maxReverts);
      r.lastBlock == s.lastBlock
      && r.counter.Keys == s.counter.Keys
      && (key in s.counter ==> r.counter[key] == s.counter[key])
      && (key in r.banned <==> key in s.banned)
      && (key in s.banned ==> r.banned[key] == s.banned[key])
  {
    var s1 := Sweep(s, latest, resetBlocks);
    assert key !in StaleKeys(s, latest, resetBlocks);
    assert key !in OverLimit(s1.counter, maxReverts);
  }

  // ---------------------------------------------------------------------
  // Properties of the ban predicate

  /** A ban is an interval: it holds from any block before the ban block
      and stops at the ban block itself, with no explicit unban. */
  lemma BanWindow(key: PoolKey, banned: map<PoolKey, int>, until: int, latest: Block)
    requires key in banned && banned[key] == until && until != 0
    ensures IsPoolBanned(key, banned, latest) <==> latest < until
  {
  }

  /** An absent or zero ban entry never bans. */
  lemma NoEntryNoBan(key: PoolKey, banned: map<PoolKey, int>, latest: Block)
    requires key !in banned || banned[key] == 0
    ensures !IsPoolBanned(key, banned, latest)
  {
  }

  // ---------------------------------------------------------------------
  // Properties of the receipt update

  /** A revert records the block; it bans for REVERT_BAN_BLOCKS exactly when
      the count reaches the limit, and otherwise leaves the bans alone. */
  lemma RevertRule(s: HealthState, key: PoolKey, latest: Block)
    ensures var r := OnReceipt(s, key, latest, 0);
      r.lastBlock == s.lastBlock[key := latest]
      && (Count(s, key) + 1 >= MAX_REVERTS_PER_POOL ==>
            r.counter == s.counter[key := 0] && r.banned == s.banned[key := latest + REVERT_BAN_BLOCKS])
      && (Count(s, key) + 1 < MAX_REVERTS_PER_POOL ==>
            r.counter == s.counter[key := Count(s, key) + 1] && r.banned == s.banned)
  {
  }

  /** Any non-zero status resets the pool's counter and changes nothing
      else. */
  lemma SuccessForgives(s: HealthState, key: PoolKey, latest: Block, status: int)
    requires status != 0
    ensures OnReceipt(s, key, latest, status) == s.(counter := s.counter[key := 0])
  {
  }

  /** The receipt update keeps every counter below the limit, and any ban it
      sets lies strictly after the block that triggered it. */
  lemma OnReceiptKeepsInvariant(s: HealthState, key: PoolKey, latest: Block, status: int)
    requires CountersBelow(s, MAX_REVERTS_PER_POOL)
    ensures var r := OnReceipt(s, key, latest, status);
      CountersBelow(r, MAX_REVERTS_PER_POOL)
      && (key in r.banned && (key !in s.banned || r.banned[key] != s.banned[key]) ==> r.banned[key] > latest)
  {
  }

  /** Starting from no warnings, two consecutive reverts ban the pool for
      exactly REVERT_BAN_BLOCKS blocks from the second revert's block. */
  lemma TwoRevertsBan(s: HealthState, key: PoolKey, b1: Block, b2: Block, t: Block)
    requires Count(s, key) == 0
    ensures var r := OnReceipt(OnReceipt(s, key, b1, 0), key, b2, 0);
      r.counter[key] == 0 && r.lastBlock[key] == b2
      && (IsPoolBanned(key, r.banned, t) <==> t < b2 + REVERT_BAN_BLOCKS)
  {
    var s1 := OnReceipt(s, key, b1, 0);
    assert Count(s1, key) == 1;
  }

  /** A success between two reverts means the second revert does not ban. */
  lemma SuccessBetweenRevertsNoBan(s: HealthState, key: PoolKey, b1: Block, b2: Block, b3: Block, status: int)
    requires status != 0
    ensures var r := OnReceipt(OnReceipt(OnReceipt(s, key, b1, 0), key, b2, status), key, b3, 0);
      r.counter[key] == 1 && r.banned == OnReceipt(s, key, b1, 0).banned
  {
    var s2 := OnReceipt(OnReceipt(s, key, b1, 0), key, b2, status);
    assert Count(s2, key) == 0;
  }

  /** Reverts in blocks 100 and 101 ban the pool through block 250; at
      block 251 it is eligible again. */
  lemma RevertsAt100And101(key: PoolKey)
    ensures var r := OnReceipt(OnReceipt(HealthState(map[], map[], map[]), key, 100, 0), key, 101, 0);
      IsPoolBanned(key, r.banned, 101) && IsPoolBanned(key, r.banned, 250)
      && !IsPoolBanned(key, r.banned, 251)
  {
    TwoRevertsBan(HealthState(map[], map[], map[]), key, 100, 101, 250);
    TwoRevertsBan(HealthState(map[], map[], map[]), key, 100, 101, 251);
  }

  lemma ZeroOutStep(c: map<PoolKey, nat>, done: set<PoolKey>, key: PoolKey)
    requires key in c
    ensures ZeroOut(c, done + {key}) == ZeroOut(c, done)[key := 0]
  {
  }

  lemma BanEntriesStep(b: map<PoolKey, int>, done: set<PoolKey>, key: PoolKey, until: int)
    ensures b + BanEntries(done + {key}, until) == (b + BanEntries(done, until))[key := until]
  {
  }

  /** One step of the ban loop: scanning a key extends the handled part of
      the over-limit set by that key exactly when its counter is at the
      limit. */
  lemma BanScanStep(c: map<PoolKey, nat>, b: map<PoolKey, int>, toScan: set<PoolKey>, key: PoolKey, until: int, maxReverts: int)
    requires key in toScan && toScan <= c.Keys
    ensures var over := OverLimit(c, maxReverts);
      ZeroOut(c, over - toScan)[key] == c[key]
      && (c[key] >= maxReverts ==>
            ZeroOut(c, over - (toScan - {key})) == ZeroOut(c, over - toScan)[key := 0]
            && b + BanEntries(over - (toScan - {key}), until) == (b + BanEntries(over - toScan, until))[key := until])
      && (c[key] < maxReverts ==> over - (toScan - {key}) == over - toScan)
  {
    var over := OverLimit(c, maxReverts);
    if c[key] >= maxReverts {
      assert over - (toScan - {key}) == (over - toScan) + {key};
      ZeroOutStep(c, over - toScan, key);
      BanEntriesStep(b, over - toScan, key, until);
    }
  }

  // ---------------------------------------------------------------------
  // The maps themselves, updated in place

  class PoolHealth {
    var revertCounter: map<PoolKey, nat>
    var revertLastBlock: map<PoolKey, Block>
    var bannedPools: map<PoolKey, int>

    function State(): HealthState
      reads this
    {
      HealthState(revertCounter, revertLastBlock, bannedPools)
    }

    constructor ()
      ensures State() == HealthState(map[], map[], map[])
    {
      revertCounter, revertLastBlock, bannedPools := map[], map[], map[];
    }

    /** update_revert_counters: collect the stale keys, zero them, then ban
        every key at the limit. */
    method UpdateRevertCounters(latest: Block, resetBlocks: int, banBlocks: int, maxReverts: int)
      modifies this
      ensures State() == UpdateCounters(old(State()), latest, resetBlocks, banBlocks, maxReverts)
    {
      var toReset := CollectStale(latest, resetBlocks);
      ResetCounters(toReset);
      assert State() == Sweep(old(State()), latest, resetBlocks);
      BanOverLimit(latest, banBlocks, maxReverts);
    }

    /** The first loop: the keys of the last-revert map whose warnings are
        stale. */
    method CollectStale(latest: Block, resetBlocks: int) returns (toReset: set<PoolKey>)
      ensures toReset == StaleKeys(State(), latest, resetBlocks)
    {
      toReset := {};
      var pending := revertLastBlock.Keys;
      while pending != {}
        invariant pending <= revertLastBlock.Keys
        invariant toReset == StaleKeys(State(), latest, resetBlocks) - pending
        decreases pending
      {
        var key :| key in pending;
        if key in revertCounter && revertCounter[key] > 0 && latest - revertLastBlock[key] >= resetBlocks {
          toReset := toReset + {key};
        }
        pending := pending - {key};
      }
    }

    /** The second loop: zero the counter of every collected key. */
    method ResetCounters(toReset: set<PoolKey>)
      requires toReset <= revertCounter.Keys
      modifies this
      ensures State() == old(State()).(counter := ZeroOut(old(revertCounter), toReset))
    {
      var toZero := toReset;
      while toZero != {}
        invariant toZero <= toReset
        invariant revertCounter == ZeroOut(old(revertCounter), toReset - toZero)
        invariant revertLastBlock == old(revertLastBlock) && bannedPools == old(bannedPools)
        decreases toZero
      {
        var key :| key in toZero;
        assert toReset - (toZero - {key}) == (toReset - toZero) + {key};
        ZeroOutStep(old(revertCounter), toReset - toZero, key);
        revertCounter := revertCounter[key := 0];
        toZero := toZero - {key};
      }
    }

    /** The third loop: ban every key whose counter is at the limit and zero
        that counter. */
    method BanOverLimit(latest: Block, banBlocks: int, maxReverts: int)
      modifies this
      ensures State() == BanPass(old(State()), latest, banBlocks, maxReverts)
    {
      var toScan := revertCounter.Keys;
      var until := latest + banBlocks;
      ghost var c, b := revertCounter, bannedPools;
      ghost var over := OverLimit(c, maxReverts);
      while toScan != {}
        invariant toScan <= c.Keys
        invariant revertCounter == ZeroOut(c, over - toScan)
        invariant bannedPools == b + BanEntries(over - toScan, until)
        invariant revertLastBlock == old(revertLastBlock)
        decreases toScan
      {
        var key :| key in toScan;
        var count := revertCounter[key];
        BanScanStep(c, b, toScan, key, until, maxReverts);
        if count >= maxReverts {
          bannedPools := bannedPools[key := until];
          revertCounter := revertCounter[key := 0];
        }
        toScan := toScan - {key};
      }
      assert over - toScan == over;
    }

    /** The receipt update of the scanner: on status 0 count the revert,
        remember the block and ban at the limit; otherwise forgive. */
    method RecordReceipt(key: PoolKey, latest: Block, status: int)
      modifies this
      ensures State() == OnReceipt(old(State()), key, latest, status)
    {
      if status == 0 {
        var n := (if key in revertCounter then revertCounter[key] else 0) + 1;
        revertCounter := revertCounter[key := n];
        revertLastBlock := revertLastBlock[key := latest];
        if n >= MAX_REVERTS_PER_POOL {
          bannedPools := bannedPools[key := latest + REVERT_BAN_BLOCKS];
          revertCounter := revertCounter[key := 0];
        }
      } else {
        revertCounter := revertCounter[key := 0];
      }
    }
  }
}
