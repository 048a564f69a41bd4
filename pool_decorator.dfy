/** `PoolDecorator.decorate`: liquidity, then APR, on each pool object in
    place; a pool whose service cannot be built yields no entry. */
module Decorator {
  import opened Js
  import opened Apr
  import opened Pools
  import opened PoolServices

  /** What decorating does to one pool value. The APR step sees the
      liquidity the first step just stored. */
  function DecorateStep(p: PoolRecord, sdk: Sdk, canConstruct: PoolRecord -> bool, now: int): (r: PoolRecord)
    ensures !canConstruct(p) ==> r == p
    // Otherwise APR runs on the pool as the liquidity step left it.
    ensures canConstruct(p) ==>
              var withLiquidity := LiquidityStep(p, sdk.liquidity(p), now).0;
              r == AprStep(withLiquidity, sdk.apr(withLiquidity), now).0
    // Only liquidity, APR and lastUpdate change: no volume snapshot, no expansion, no isNew.
    ensures r == p.(totalLiquidity := r.totalLiquidity, apr := r.apr, lastUpdate := r.lastUpdate)
    // Every decorated pool ends with an APR, and outside Element pools with a liquidity.
    ensures canConstruct(p) ==> r.apr.Some?
    ensures canConstruct(p) && p.poolType != ElementPoolType ==> r.totalLiquidity.Some?
    // A freshly computed dust liquidity zeroes the APR, whatever was stored before.
    ensures canConstruct(p) && p.poolType != ElementPoolType && sdk.liquidity(p).Ok?
            && LessThan(ParseNumber(sdk.liquidity(p).value), MaterialityThreshold) ==>
              r.apr == Some(ZeroApr)
  {
    if !canConstruct(p) then p
    else
      var withLiquidity := LiquidityStep(p, sdk.liquidity(p), now).0;
      AprStep(withLiquidity, sdk.apr(withLiquidity), now).0
  }

  class PoolDecorator {
    var pools: seq<Pool>
    const chainId: int

    constructor (pools: seq<Pool>, chainId: int)
      ensures this.pools == pools && this.chainId == chainId
    {
      this.pools := pools;
      this.chainId := chainId;
    }

    /** The callback run for each pool: build its service, then set
        liquidity and APR on the pool object. */
    method DecorateOne(pool: Pool, sdk: Sdk, canConstruct: PoolRecord -> bool, now: int) returns (entry: Option<Pool>)
      modifies pool
      ensures entry == if canConstruct(old(pool.Snapshot())) then Some(pool) else None
      ensures pool.Snapshot() == DecorateStep(old(pool.Snapshot()), sdk, canConstruct, now)
    {
      if !canConstruct(pool.Snapshot()) {
        return None;
      }
      var service := new PoolService(pool, sdk);
      var _ := service.SetTotalLiquidity(now);
      var _ := service.SetApr(now);
      entry := Some(service.pool);
    }

    /** One entry per pool, in order: the same pool object, decorated in
        place, or `None` when its service could not be constructed. */
    method Decorate(sdk: Sdk, canConstruct: PoolRecord -> bool, now: int) returns (decorated: seq<Option<Pool>>)
      requires forall i, j :: 0 <= i < j < |pools| ==> pools[i] != pools[j]
      modifies pools
      ensures |decorated| == |pools|
      ensures forall i :: 0 <= i < |pools| ==>
                decorated[i] == if canConstruct(old(pools[i].Snapshot())) then Some(pools[i]) else None
      ensures forall i :: 0 <= i < |pools| ==>
                pools[i].Snapshot() == DecorateStep(old(pools[i].Snapshot()), sdk, canConstruct, now)
    {
      decorated := [];
      var i := 0;
      while i < |pools|
        invariant 0 <= i <= |pools|
        invariant |decorated| == i
        invariant forall j :: 0 <= j < i ==>
                    decorated[j] == if canConstruct(old(pools[j].Snapshot())) then Some(pools[j]) else None
        invariant forall j :: 0 <= j < i ==>
                    pools[j].Snapshot() == DecorateStep(old(pools[j].Snapshot()), sdk, canConstruct, now)
        invariant forall j :: i <= j < |pools| ==> pools[j].Snapshot() == old(pools[j].Snapshot())
      {
        var entry := DecorateOne(pools[i], sdk, canConstruct, now);
        decorated := decorated + [entry];
        i := i + 1;
      }
    }
  }
}
