/** The APR breakdown record the SDK's APR calculator returns, its view as
    a plain JavaScript object, and the two validity checks over it: the
    one in src/utils.ts (rejects NaN only) and the one the pool-module
    tests pin down (rejects NaN and the infinities). */
module Apr {
  import opened Js

  /** A JavaScript value as `isValidApr` sees it: a number or an object
      whose own enumerable properties are given by `fields`. */
  datatype JsValue = JsNum(n: Num) | JsObj(fields: map<string, JsValue>)

  datatype AprTotal = AprTotal(total: Num, breakdown: map<string, Num>)
  datatype StakingApr = StakingApr(min: Num, max: Num)
  datatype AprBreakdown = AprBreakdown(
    swapFees: Num,
    tokenAprs: AprTotal,
    stakingApr: StakingApr,
    rewardAprs: AprTotal,
    protocolApr: Num,
    min: Num,
    max: Num)

  const Zero: Num := Finite(0.0)

  /** The canonical all-zero breakdown stored for dust pools and as the
      first value when the calculator fails. */
  const ZeroApr: AprBreakdown := AprBreakdown(
    Zero, AprTotal(Zero, map[]), StakingApr(Zero, Zero), AprTotal(Zero, map[]), Zero, Zero, Zero)

  function TotalObject(t: AprTotal): JsValue
  {
    JsObj(map[
      "total" := JsNum(t.total),
      "breakdown" := JsObj(map k | k in t.breakdown :: JsNum(t.breakdown[k]))])
  }

  /** The breakdown as the object literal the SDK builds. */
  function AsObject(a: AprBreakdown): map<string, JsValue>
  {
    map[
      "swapFees" := JsNum(a.swapFees),
      "tokenAprs" := TotalObject(a.tokenAprs),
      "stakingApr" := JsObj(map["min" := JsNum(a.stakingApr.min), "max" := JsNum(a.stakingApr.max)]),
      "rewardAprs" := TotalObject(a.rewardAprs),
      "protocolApr" := JsNum(a.protocolApr),
      "min" := JsNum(a.min),
      "max" := JsNum(a.max)]
  }

  /** No numeric leaf, at any depth, is NaN. */
  predicate NaNFree(v: JsValue)
  {
    match v
    case JsNum(n) => !n.NaN?
    case JsObj(f) => forall k :: k in f ==> NaNFree(f[k])
  }

  predicate NaNFreeObject(o: map<string, JsValue>)
  {
    NaNFree(JsObj(o))
  }

  /** `isValidApr` of src/utils.ts: walks `Object.values`, recursing into
      objects and failing on the first value for which `isNaN` holds. The
      order in which the values are visited does not matter to the result. */
  method IsValidApr(apr: map<string, JsValue>) returns (valid: bool)
    ensures valid <==> NaNFreeObject(apr)
    decreases JsObj(apr)
  {
    var pending := apr.Keys;
    while pending != {}
      invariant pending <= apr.Keys
      invariant forall k :: k in apr.Keys - pending ==> NaNFree(apr[k])
      decreases pending
    {
      var k :| k in pending;
      match apr[k] {
        case JsObj(inner) =>
          var ok := IsValidApr(inner);
          if !ok {
            assert !NaNFree(apr[k]);
            return false;
          }
        case JsNum(n) =>
          if n.NaN? {
            assert !NaNFree(apr[k]);
            return false;
          }
      }
      pending := pending - {k};
    }
    return true;
  }

  /** Every numeric leaf, at any depth, is finite. */
  predicate AllFinite(v: JsValue)
  {
    match v
    case JsNum(n) => n.Finite?
    case JsObj(f) => forall k :: k in f ==> AllFinite(f[k])
  }

  /** The validity the pool-module tests demand of `isValidApr`:
      NaN and both infinities are rejected at any depth. */
  predicate IsFiniteApr(a: AprBreakdown)
  {
    AllFinite(JsObj(AsObject(a)))
  }

  /** The same NaN check, stated directly on the typed breakdown. */
  predicate TotalNaNFree(t: AprTotal)
  {
    !t.total.NaN? && forall k :: k in t.breakdown ==> !t.breakdown[k].NaN?
  }

  predicate LeavesNaNFree(a: AprBreakdown)
  {
    && !a.swapFees.NaN? && TotalNaNFree(a.tokenAprs)
    && !a.stakingApr.min.NaN? && !a.stakingApr.max.NaN?
    && TotalNaNFree(a.rewardAprs)
    && !a.protocolApr.NaN? && !a.min.NaN? && !a.max.NaN?
  }

  lemma TotalObjectNaNFree(t: AprTotal)
    ensures NaNFree(TotalObject(t)) <==> TotalNaNFree(t)
  {
    var f := TotalObject(t).fields;
    var b := f["breakdown"];
    if TotalNaNFree(t) {
      assert forall k :: k in b.fields ==> NaNFree(b.fields[k]);
    }
    if NaNFree(TotalObject(t)) {
      assert NaNFree(f["total"]) && NaNFree(b);
      forall k | k in t.breakdown ensures !t.breakdown[k].NaN? {
        assert b.fields[k] == JsNum(t.breakdown[k]);
        assert NaNFree(b.fields[k]);
      }
    }
  }

  /** The generic walk over the object view judges exactly the typed leaves. */
  lemma NaNFreeObjectIsLeafCheck(a: AprBreakdown)
    ensures NaNFreeObject(AsObject(a)) <==> LeavesNaNFree(a)
  {
    var o := AsObject(a);
    TotalObjectNaNFree(a.tokenAprs);
    TotalObjectNaNFree(a.rewardAprs);
    if NaNFreeObject(o) {
      assert NaNFree(o["swapFees"]) && NaNFree(o["tokenAprs"]) && NaNFree(o["stakingApr"]);
      assert NaNFree(o["rewardAprs"]) && NaNFree(o["protocolApr"]) && NaNFree(o["min"]) && NaNFree(o["max"]);
      var s := o["stakingApr"].fields;
      assert NaNFree(s["min"]) && NaNFree(s["max"]);
    }
    if LeavesNaNFree(a) {
      var s := o["stakingApr"].fields;
      assert forall k :: k in s ==> NaNFree(s[k]);
      assert forall k :: k in o ==> NaNFree(o[k]);
    }
  }

  /** A finite breakdown passes the NaN check of src/utils.ts. */
  lemma {:induction false} AllFiniteIsNaNFree(v: JsValue)
    ensures AllFinite(v) ==> NaNFree(v)
  {
    match v
    case JsNum(_) =>
    case JsObj(f) =>
      forall k | k in f ensures AllFinite(f[k]) ==> NaNFree(f[k]) {
        AllFiniteIsNaNFree(f[k]);
      }
  }

  /** The two checks differ on infinity: an infinite `swapFees` passes the
      check of src/utils.ts (`isNaN(Infinity)` is false) and fails the
      tested one. */
  lemma InfiniteSwapFeesSplitsTheChecks()
    ensures NaNFreeObject(AsObject(ZeroApr.(swapFees := PosInfinity)))
    ensures !IsFiniteApr(ZeroApr.(swapFees := PosInfinity))
  {
    var a := ZeroApr.(swapFees := PosInfinity);
    NaNFreeObjectIsLeafCheck(a);
    assert !AllFinite(AsObject(a)["swapFees"]);
  }

  /** The default breakdown is valid under both checks. */
  lemma ZeroAprIsValid()
    ensures IsFiniteApr(ZeroApr) && NaNFreeObject(AsObject(ZeroApr))
  {
    var o := AsObject(ZeroApr);
    assert forall k :: k in o ==> AllFinite(o[k]);
    AllFiniteIsNaNFree(JsObj(o));
  }

  /** A NaN `rewardAprs.total` (with NaN `min` and `max`) is invalid. */
  lemma NaNRewardTotalIsInvalid()
    ensures !NaNFreeObject(AsObject(ZeroApr.(rewardAprs := AprTotal(NaN, map[]), min := NaN, max := NaN)))
  {
    NaNFreeObjectIsLeafCheck(ZeroApr.(rewardAprs := AprTotal(NaN, map[]), min := NaN, max := NaN));
  }

  /** A NaN nested at `stakingApr.min` is invalid. */
  lemma NaNStakingMinIsInvalid()
    ensures !NaNFreeObject(AsObject(ZeroApr.(stakingApr := StakingApr(NaN, Zero))))
  {
    NaNFreeObjectIsLeafCheck(ZeroApr.(stakingApr := StakingApr(NaN, Zero)));
  }

  /** A breakdown of finite non-zero numbers is valid under both checks. */
  lemma FilledAprIsValid()
    ensures var a := ZeroApr.(stakingApr := StakingApr(Finite(123.0), Finite(456.0)),
                              protocolApr := Finite(88.0), min := Finite(145.0), max := Finite(556.0));
            IsFiniteApr(a) && NaNFreeObject(AsObject(a))
  {
    var a := ZeroApr.(stakingApr := StakingApr(Finite(123.0), Finite(456.0)),
                      protocolApr := Finite(88.0), min := Finite(145.0), max := Finite(556.0));
    var o := AsObject(a);
    assert forall k :: k in o ==> AllFinite(o[k]);
    AllFiniteIsNaNFree(JsObj(o));
  }
}
