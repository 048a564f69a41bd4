/** The pool-module helpers pinned down by their tests: the snapshot
    differ `isSame` and the schema filter `getNonStaticSchemaFields`. */
module PoolUtils {
  import opened Js
  import opened Pools

  // ----- Snapshot differ -----

  /** Deep comparison of token lists, token by token and through nested
      trees, as a deep-equality helper walks them. */
  predicate SameTokens(a: seq<PoolToken>, b: seq<PoolToken>)
    decreases a
  {
    |a| == |b| && (a == [] || (SameToken(a[0], b[0]) && SameTokens(a[1..], b[1..])))
  }

  predicate SameToken(x: PoolToken, y: PoolToken)
    decreases x
  {
    && x.address == y.address && x.balance == y.balance && x.weight == y.weight
    && x.priceRate == y.priceRate && x.decimals == y.decimals && x.symbol == y.symbol
    && x.token.Some? == y.token.Some?
    && (x.token.Some? ==> SameTree(x.token.value, y.token.value))
  }

  predicate SameTree(p: TokenTreePool, q: TokenTreePool)
    decreases p
  {
    && p.id == q.id && p.address == q.address && p.poolType == q.poolType
    && p.totalShares == q.totalShares && p.mainIndex == q.mainIndex
    && SameTokens(p.tokens, q.tokens)
  }

  /** `isSame(newPool, oldPool?)`: false on first sighting, otherwise a
      deep comparison of every stored field, strings compared as stored. */
  predicate IsSame(candidate: PoolRecord, previous: Option<PoolRecord>)
  {
    && previous.Some?
    && var p := previous.value;
    && candidate.id == p.id && candidate.chainId == p.chainId && candidate.address == p.address
    && candidate.poolType == p.poolType && candidate.totalShares == p.totalShares
    && candidate.mainIndex == p.mainIndex && candidate.totalSwapVolume == p.totalSwapVolume
    && candidate.createTime == p.createTime && candidate.tokensList == p.tokensList
    && SameTokens(candidate.tokens, p.tokens)
    && candidate.totalLiquidity == p.totalLiquidity && candidate.apr == p.apr
    && candidate.volumeSnapshot == p.volumeSnapshot && candidate.isNew == p.isNew
    && candidate.lastUpdate == p.lastUpdate
  }

  lemma {:induction false} SameTokensIsEquality(a: seq<PoolToken>, b: seq<PoolToken>)
    ensures SameTokens(a, b) <==> a == b
    decreases a
  {
    if |a| == |b| && a != [] {
      SameTokenIsEquality(a[0], b[0]);
      SameTokensIsEquality(a[1..], b[1..]);
      assert a == [a[0]] + a[1..] && b == [b[0]] + b[1..];
    }
  }

  lemma {:induction false} SameTokenIsEquality(x: PoolToken, y: PoolToken)
    ensures SameToken(x, y) <==> x == y
    decreases x
  {
    if x.token.Some? && y.token.Some? {
      SameTreeIsEquality(x.token.value, y.token.value);
    }
  }

  lemma {:induction false} SameTreeIsEquality(p: TokenTreePool, q: TokenTreePool)
    ensures SameTree(p, q) <==> p == q
    decreases p
  {
    SameTokensIsEquality(p.tokens, q.tokens);
  }

  /** The deep comparison is exactly equality of the stored records. */
  lemma IsSameIsEquality(candidate: PoolRecord, previous: PoolRecord)
    ensures IsSame(candidate, Some(previous)) <==> candidate == previous
  {
    SameTokensIsEquality(candidate.tokens, previous.tokens);
  }

  /** No previous record: never the same. */
  lemma IsSameWithoutPrevious(candidate: PoolRecord)
    ensures !IsSame(candidate, None)
  {
  }

  /** A copy of a record is the same. */
  lemma IsSameOnCopy(p: PoolRecord)
    ensures IsSame(p, Some(p))
  {
    IsSameIsEquality(p, p);
  }

  /** A different balance on any one token is a change. */
  lemma BalanceChangeIsDetected(p: PoolRecord, i: nat, balance: string)
    requires i < |p.tokens| && balance != p.tokens[i].balance
    ensures !IsSame(p, Some(p.(tokens := p.tokens[i := p.tokens[i].(balance := balance)])))
  {
    var q := p.(tokens := p.tokens[i := p.tokens[i].(balance := balance)]);
    IsSameIsEquality(p, q);
    assert q.tokens[i] != p.tokens[i];
  }

  // ----- Schema filter -----

  /** One entry of a table schema, in declaration order. */
  datatype SchemaField = SchemaField(name: string, fieldType: string, isStatic: bool)

  /** `getNonStaticSchemaFields`: the names of the non-static fields, in
      schema order. */
  function GetNonStaticSchemaFields(schema: seq<SchemaField>): (names: seq<string>)
    ensures |names| <= |schema|
    ensures forall n :: n in names <==> exists i :: 0 <= i < |schema| && schema[i].name == n && !schema[i].isStatic
  {
    if schema == [] then []
    else
      var rest := GetNonStaticSchemaFields(schema[1..]);
      assert forall i :: 0 <= i < |schema[1..]| ==> schema[1..][i] == schema[i + 1];
      if schema[0].isStatic then rest else [schema[0].name] + rest
  }

  /** The filter keeps schema order: it distributes over concatenation. */
  lemma {:induction false} NonStaticFieldsKeepOrder(a: seq<SchemaField>, b: seq<SchemaField>)
    ensures GetNonStaticSchemaFields(a + b) == GetNonStaticSchemaFields(a) + GetNonStaticSchemaFields(b)
  {
    if a != [] {
      assert (a + b)[1..] == a[1..] + b;
      NonStaticFieldsKeepOrder(a[1..], b);
    } else {
      assert a + b == b;
    }
  }

  /** The schema of the test: two static and two non-static fields. */
  lemma NonStaticFieldsOfTestSchema()
    ensures GetNonStaticSchemaFields([
              SchemaField("id", "String", true),
              SchemaField("totalSwapVolume", "BigDecimal", false),
              SchemaField("createTime", "Int", true),
              SchemaField("swapsCount", "BigInt", false)]) == ["totalSwapVolume", "swapsCount"]
  {
  }
}
