/** The enrichment of one pool (`PoolService`): liquidity, APR and volume
    computed by the SDK with fall-back to the stored value, the
    time-windowed `isNew` flag, and token expansion. Each setter is
    specified by a pure step on `PoolRecord`; the class methods apply the
    step to the pool object in place. */
module PoolServices {
  import opened Js
  import opened Apr
  import opened Pools
  import opened TokenTree

  const ElementPoolType: string := "Element"
  /** Below this liquidity (or swap volume) no APR (or volume) is computed. */
  const MaterialityThreshold: real := 100.0
  /** One week in milliseconds. */
  const WeekInMs: int := 7 * 24 * 60 * 60 * 1000

  /** The SDK's calculators and pool lookup, reduced to what they return
      for the pool as it is when they are called. */
  datatype Sdk = Sdk(
    liquidity: PoolRecord -> Outcome<string>,
    apr: PoolRecord -> Outcome<AprBreakdown>,
    volume: PoolRecord -> Outcome<string>,
    pools: Lookup)

  datatype SdkCall = LiquidityCall | AprCall | VolumeCall

  /** A calculated APR is kept only if the call succeeded and the result
      passes the NaN check of src/utils.ts. */
  predicate AcceptableApr(outcome: Outcome<AprBreakdown>)
  {
    outcome.Ok? && NaNFreeObject(AsObject(outcome.value))
  }

  /** `setTotalLiquidity` on a pool value: the new pool and the result. */
  function LiquidityStep(p: PoolRecord, outcome: Outcome<string>, now: int): (res: (PoolRecord, string))
    // Element pools are skipped and left untouched.
    ensures p.poolType == ElementPoolType ==> res == (p, "0")
    // A failure keeps a stored (truthy) liquidity.
    ensures p.poolType != ElementPoolType && outcome.Err? && TruthyString(p.totalLiquidity) ==>
              res == (p, p.totalLiquidity.value)
    // Only totalLiquidity and lastUpdate can change.
    ensures res.0 == p.(totalLiquidity := res.0.totalLiquidity, lastUpdate := res.0.lastUpdate)
    // lastUpdate advances exactly when the stored string changes.
    ensures res.0.lastUpdate == if res.0.totalLiquidity != p.totalLiquidity then Some(now) else p.lastUpdate
    // Outside Element pools the value returned is the value stored; it is never left unset.
    ensures p.poolType != ElementPoolType ==> res.0.totalLiquidity == Some(res.1)
    // A computed value is stored even when it is "0" over a positive one.
    ensures p.poolType != ElementPoolType && outcome.Ok? ==> res.1 == outcome.value
    ensures p.poolType != ElementPoolType && outcome.Err? && !TruthyString(p.totalLiquidity) ==> res.1 == "0"
  {
    if p.poolType == ElementPoolType then (p, "0")
    else if outcome.Err? && TruthyString(p.totalLiquidity) then (p, p.totalLiquidity.value)
    else
      var v := if outcome.Ok? then outcome.value else "0";
      (p.(totalLiquidity := Some(v),
          lastUpdate := if Some(v) != p.totalLiquidity then Some(now) else p.lastUpdate), v)
  }

  /** Liquidity below the threshold, read with `Number()` (NaN is not below). */
  predicate IsDust(p: PoolRecord)
  {
    LessThan(NumberOf(p.totalLiquidity), MaterialityThreshold)
  }

  /** Swap volume below the threshold, read with `Number()` (NaN is not below). */
  predicate IsLowVolume(p: PoolRecord)
  {
    LessThan(NumberOf(p.totalSwapVolume), MaterialityThreshold)
  }

  /** `setApr` on a pool value: the new pool and the result. */
  function AprStep(p: PoolRecord, outcome: Outcome<AprBreakdown>, now: int): (res: (PoolRecord, AprBreakdown))
    // Dust pools get the zero breakdown; lastUpdate is not touched.
    ensures IsDust(p) ==> res == (p.(apr := Some(ZeroApr)), ZeroApr)
    // A failed or NaN-carrying result keeps an existing APR.
    ensures !IsDust(p) && !AcceptableApr(outcome) && p.apr.Some? ==> res == (p, p.apr.value)
    ensures !IsDust(p) && !AcceptableApr(outcome) && p.apr.None? ==> res.1 == ZeroApr
    ensures !IsDust(p) && AcceptableApr(outcome) ==> res.1 == outcome.value
    // Only apr and lastUpdate can change, and the returned APR is the stored one.
    ensures res.0 == p.(apr := res.0.apr, lastUpdate := res.0.lastUpdate)
    ensures res.0.apr == Some(res.1)
    ensures !IsDust(p) ==> res.0.lastUpdate == if res.0.apr != p.apr then Some(now) else p.lastUpdate
    // A breakdown with a NaN leaf is never written over the stored one.
    ensures res.0.apr != p.apr ==> NaNFreeObject(AsObject(res.1))
  {
    ZeroAprIsValid();
    if IsDust(p) then (p.(apr := Some(ZeroApr)), ZeroApr)
    else if !AcceptableApr(outcome) && p.apr.Some? then (p, p.apr.value)
    else
      var v := if AcceptableApr(outcome) then outcome.value else ZeroApr;
      (p.(apr := Some(v), lastUpdate := if Some(v) != p.apr then Some(now) else p.lastUpdate), v)
  }

  /** `setVolumeSnapshot` on a pool value: the new pool and the result. */
  function VolumeStep(p: PoolRecord, outcome: Outcome<string>, now: int): (res: (PoolRecord, string))
    // Low-volume pools store "0" without touching lastUpdate.
    ensures IsLowVolume(p) ==> res == (p.(volumeSnapshot := Some("0")), "0")
    // A failure returns "0" and leaves the pool as it was.
    ensures !IsLowVolume(p) && outcome.Err? ==> res == (p, "0")
    ensures !IsLowVolume(p) && outcome.Ok? ==>
              res.1 == outcome.value && res.0.volumeSnapshot == Some(outcome.value)
    ensures res.0 == p.(volumeSnapshot := res.0.volumeSnapshot, lastUpdate := res.0.lastUpdate)
    // Above the threshold, lastUpdate advances exactly when the stored snapshot changes.
    ensures !IsLowVolume(p) ==>
              res.0.lastUpdate == if res.0.volumeSnapshot != p.volumeSnapshot then Some(now) else p.lastUpdate
  {
    if IsLowVolume(p) then (p.(volumeSnapshot := Some("0")), "0")
    else if outcome.Err? then (p, "0")
    else
      var v := outcome.value;
      (p.(volumeSnapshot := Some(v),
          lastUpdate := if Some(v) != p.volumeSnapshot then Some(now) else p.lastUpdate), v)
  }

  /** `setIsNew` on a pool value: a pool is new when it was created less
      than a week before `now` (`createTime` is in seconds, `now` in ms). */
  function IsNewStep(p: PoolRecord, now: int): (res: (PoolRecord, bool))
    ensures !TruthyInt(p.createTime) ==> res == (p, false)
    ensures TruthyInt(p.createTime) ==> res.0 == p.(isNew := Some(res.1))
    ensures TruthyInt(p.createTime) ==> (res.1 <==> p.createTime.value * 1000 > now - WeekInMs)
  {
    if !TruthyInt(p.createTime) then (p, false)
    else
      var isNew := now - p.createTime.value * 1000 < WeekInMs;
      (p.(isNew := Some(isNew)), isNew)
  }

  /** `expandPool` on a pool value. */
  function ExpandStep(p: PoolRecord, lookup: Lookup, ghost rank: map<string, nat>, now: int): (q: PoolRecord)
    requires Ranked(p.address, lookup, rank) && Covers(p.address, lookup, rank, p.tokens)
    ensures q.tokens == ExpandTokens(p.address, lookup, rank, p.tokens)
    ensures q == p.(tokens := q.tokens, lastUpdate := q.lastUpdate)
    ensures |q.tokens| == |p.tokens|
    ensures forall i :: 0 <= i < |p.tokens| ==> q.tokens[i].(token := p.tokens[i].token) == p.tokens[i]
    ensures q.lastUpdate == if q.tokens != p.tokens then Some(now) else p.lastUpdate
    ensures (forall i :: 0 <= i < |p.tokens| ==> !Expands(p.address, lookup, p.tokens[i])) ==> q == p
  {
    var tokens := ExpandTokens(p.address, lookup, rank, p.tokens);
    p.(tokens := tokens, lastUpdate := if tokens != p.tokens then Some(now) else p.lastUpdate)
  }

  /** Running a step a second time with the same calculator outcome does
      not advance `lastUpdate` again. */
  lemma LiquidityStepSettles(p: PoolRecord, outcome: Outcome<string>, now: int, later: int)
    ensures var q := LiquidityStep(p, outcome, now).0;
            LiquidityStep(q, outcome, later).0 == q
  {
  }

  class PoolService {
    const pool: Pool
    const sdk: Sdk
    /** The calculator calls made so far, in order. */
    ghost var calls: seq<SdkCall>

    constructor (pool: Pool, sdk: Sdk)
      ensures this.pool == pool && this.sdk == sdk && calls == []
    {
      this.pool := pool;
      this.sdk := sdk;
      calls := [];
    }

    method SetTotalLiquidity(now: int) returns (r: string)
      modifies this, pool
      ensures (pool.Snapshot(), r) == LiquidityStep(old(pool.Snapshot()), sdk.liquidity(old(pool.Snapshot())), now)
      ensures calls == old(calls) + if pool.poolType == ElementPoolType then [] else [LiquidityCall]
    {
      if pool.poolType == ElementPoolType {
        return "0";
      }
      var poolLiquidity := "0";
      calls := calls + [LiquidityCall];
      var calculated := sdk.liquidity(pool.Snapshot());
      if calculated.Ok? {
        poolLiquidity := calculated.value;
      } else if TruthyString(pool.totalLiquidity) {
        return pool.totalLiquidity.value;
      }
      if Some(poolLiquidity) != pool.totalLiquidity {
        pool.lastUpdate := Some(now);
      }
      pool.totalLiquidity := Some(poolLiquidity);
      r := poolLiquidity;
    }

    method SetApr(now: int) returns (r: AprBreakdown)
      modifies this, pool
      ensures (pool.Snapshot(), r) == AprStep(old(pool.Snapshot()), sdk.apr(old(pool.Snapshot())), now)
      ensures calls == old(calls) + if IsDust(old(pool.Snapshot())) then [] else [AprCall]
    {
      var poolApr := ZeroApr;
      if LessThan(NumberOf(pool.totalLiquidity), MaterialityThreshold) {
        pool.apr := Some(poolApr);
        return poolApr;
      }
      calls := calls + [AprCall];
      var computed := sdk.apr(pool.Snapshot());
      var failed := computed.Err?;
      if !failed {
        var valid := IsValidApr(AsObject(computed.value));
        if valid {
          poolApr := computed.value;
        } else {
          failed := true;
        }
      }
      if failed && pool.apr.Some? {
        return pool.apr.value;
      }
      if Some(poolApr) != pool.apr {
        pool.lastUpdate := Some(now);
      }
      pool.apr := Some(poolApr);
      r := poolApr;
    }

    method SetVolumeSnapshot(now: int) returns (r: string)
      modifies this, pool
      ensures (pool.Snapshot(), r) == VolumeStep(old(pool.Snapshot()), sdk.volume(old(pool.Snapshot())), now)
      ensures calls == old(calls) +
                if IsLowVolume(old(pool.Snapshot())) then [] else [VolumeCall]
    {
      var volumeSnapshot := "0";
      if LessThan(NumberOf(pool.totalSwapVolume), MaterialityThreshold) {
        pool.volumeSnapshot := Some(volumeSnapshot);
        return volumeSnapshot;
      }
      calls := calls + [VolumeCall];
      var volume := sdk.volume(pool.Snapshot());
      if volume.Err? {
        return volumeSnapshot;
      }
      volumeSnapshot := volume.value;
      if Some(volumeSnapshot) != pool.volumeSnapshot {
        pool.lastUpdate := Some(now);
      }
      pool.volumeSnapshot := Some(volumeSnapshot);
      r := volumeSnapshot;
    }

    method SetIsNew(now: int) returns (r: bool)
      modifies pool
      ensures (pool.Snapshot(), r) == IsNewStep(old(pool.Snapshot()), now)
    {
      if !TruthyInt(pool.createTime) {
        return false;
      }
      r := now - pool.createTime.value * 1000 < WeekInMs;
      pool.isNew := Some(r);
    }

    /** Replaces the pool's tokens by their expansion and returns the
        same pool object. */
    method ExpandPool(now: int, ghost rank: map<string, nat>) returns (p: Pool)
      requires Ranked(pool.address, sdk.pools, rank) && Covers(pool.address, sdk.pools, rank, pool.tokens)
      modifies pool
      ensures p == pool
      ensures pool.Snapshot() == ExpandStep(old(pool.Snapshot()), sdk.pools, rank, now)
    {
      var tokens := ExpandTokens(pool.address, sdk.pools, rank, pool.tokens);
      if tokens != pool.tokens {
        pool.lastUpdate := Some(now);
      }
      pool.tokens := tokens;
      p := pool;
    }
  }
}
