/** Expansion of pool tokens that are themselves the share token of
    another pool (`expandToken`), as pure functions over a lookup of pools
    by share-token address. */
module TokenTree {
  import opened Js
  import opened Pools

  /** The pools the SDK's `findBy('address', ...)` can find, by address. */
  type Lookup = map<string, PoolRecord>

  /** The expansion terminates: a ghost ranking of the pools the
      expansion reaches, closed under "a found pool holds the share token
      of another found pool". Tokens equal to the root pool's address or
      to the found pool's own address are exempt, as the code skips them.
      Pools the expansion never reaches need no rank, so a cycle among
      them does not matter; only a cycle the expansion would walk forever
      is excluded. */
  ghost predicate Ranked(root: string, lookup: Lookup, rank: map<string, nat>)
  {
    forall a, i :: a in rank && a in lookup && 0 <= i < |lookup[a].tokens| ==>
      var u := lookup[a].tokens[i];
      u.address != root && u.address != lookup[a].address && u.address in lookup ==>
        u.address in rank && rank[u.address] < rank[a]
  }

  /** Whether `expandToken` looks the token up and finds a pool. */
  predicate Expands(root: string, lookup: Lookup, t: PoolToken)
  {
    t.address != root && t.address in lookup
  }

  /** Every token of `ts` that expands names a ranked pool. */
  ghost predicate Covers(root: string, lookup: Lookup, rank: map<string, nat>, ts: seq<PoolToken>)
  {
    forall i :: 0 <= i < |ts| && Expands(root, lookup, ts[i]) ==> ts[i].address in rank
  }

  ghost function Height(root: string, lookup: Lookup, rank: map<string, nat>, t: PoolToken): nat
  {
    if Expands(root, lookup, t) && t.address in rank then rank[t.address] + 1 else 0
  }

  /** The token with its nested pool, if any, expanded (`expandToken`). */
  function ExpandToken(root: string, lookup: Lookup, ghost rank: map<string, nat>, t: PoolToken): (r: PoolToken)
    requires Ranked(root, lookup, rank)
    requires Expands(root, lookup, t) ==> t.address in rank
    ensures r.(token := t.token) == t
    ensures !Expands(root, lookup, t) ==> r == t
    ensures Expands(root, lookup, t) ==>
      var sub := lookup[t.address];
      && r.token.Some?
      && r.token.value.(tokens := sub.tokens)
         == TokenTreePool(sub.id, sub.address, sub.poolType, sub.totalShares, sub.mainIndex, sub.tokens)
      && |r.token.value.tokens| == |sub.tokens|
      && (forall i :: 0 <= i < |sub.tokens| ==>
            r.token.value.tokens[i].(token := sub.tokens[i].token) == sub.tokens[i])
      && (forall i :: 0 <= i < |sub.tokens| && (sub.tokens[i].address == sub.address ||
                                                 !Expands(root, lookup, sub.tokens[i])) ==>
            r.token.value.tokens[i] == sub.tokens[i])
      && (forall i :: 0 <= i < |sub.tokens| && sub.tokens[i].address != sub.address &&
                      Expands(root, lookup, sub.tokens[i]) ==>
            r.token.value.tokens[i].token.Some? &&
            r.token.value.tokens[i].token.value.address == lookup[sub.tokens[i].address].address)
    decreases Height(root, lookup, rank, t), 1, 0
  {
    if !Expands(root, lookup, t) then t
    else
      var sub := lookup[t.address];
      var tree := TokenTreePool(sub.id, sub.address, sub.poolType, sub.totalShares, sub.mainIndex,
                                ExpandChildren(root, lookup, rank, sub.address, rank[t.address] + 1, sub.tokens));
      t.(token := Some(tree))
  }

  /** The tokens of a found pool: its own share token is kept as it is,
      every other token is expanded (the `map` inside `expandToken`). */
  function ExpandChildren(root: string, lookup: Lookup, ghost rank: map<string, nat>, subAddress: string,
                          ghost bound: nat, ts: seq<PoolToken>): (r: seq<PoolToken>)
    requires Ranked(root, lookup, rank)
    requires forall i :: 0 <= i < |ts| && ts[i].address != subAddress ==>
               (Expands(root, lookup, ts[i]) ==> ts[i].address in rank) && Height(root, lookup, rank, ts[i]) < bound
    ensures |r| == |ts|
    ensures forall i :: 0 <= i < |ts| && ts[i].address == subAddress ==> r[i] == ts[i]
    ensures forall i :: 0 <= i < |ts| && ts[i].address != subAddress ==> r[i] == ExpandToken(root, lookup, rank, ts[i])
    decreases bound, 0, |ts|
  {
    if ts == [] then []
    else
      var head := if ts[0].address == subAddress then ts[0] else ExpandToken(root, lookup, rank, ts[0]);
      assert forall i :: 0 <= i < |ts[1..]| ==> ts[1..][i] == ts[i + 1];
      [head] + ExpandChildren(root, lookup, rank, subAddress, bound, ts[1..])
  }

  /** The tree attached to an expanding token holds the found pool's
      tokens expanded by the same rules: every token other than the
      pool's own share token is `ExpandToken` of that token. */
  lemma ExpandedTree(root: string, lookup: Lookup, rank: map<string, nat>, t: PoolToken)
    requires Ranked(root, lookup, rank)
    requires Expands(root, lookup, t) && t.address in rank
    ensures var sub := lookup[t.address];
            forall i :: 0 <= i < |sub.tokens| && sub.tokens[i].address != sub.address ==>
              && (Expands(root, lookup, sub.tokens[i]) ==> sub.tokens[i].address in rank)
              && ExpandToken(root, lookup, rank, t).token.value.tokens[i] == ExpandToken(root, lookup, rank, sub.tokens[i])
  {
    var sub := lookup[t.address];
    assert ExpandToken(root, lookup, rank, t).token.value.tokens
        == ExpandChildren(root, lookup, rank, sub.address, rank[t.address] + 1, sub.tokens);
  }

  /** The token list `expandPool` computes for the root pool: the same
      tokens in the same order, each one `ExpandToken` of the original. */
  function ExpandTokens(root: string, lookup: Lookup, ghost rank: map<string, nat>, ts: seq<PoolToken>): (r: seq<PoolToken>)
    requires Ranked(root, lookup, rank) && Covers(root, lookup, rank, ts)
    ensures |r| == |ts|
    ensures forall i :: 0 <= i < |ts| ==> r[i] == ExpandToken(root, lookup, rank, ts[i])
    ensures (forall i :: 0 <= i < |ts| ==> !Expands(root, lookup, ts[i])) ==> r == ts
  {
    if ts == [] then []
    else
      assert forall i :: 0 <= i < |ts[1..]| ==> ts[1..][i] == ts[i + 1];
      [ExpandToken(root, lookup, rank, ts[0])] + ExpandTokens(root, lookup, rank, ts[1..])
  }

  // ----- Which lookups the ranking admits -----

  function ShareToken(address: string): PoolToken
  {
    PoolToken(address, "0", Undefined, Undefined, None, None, None)
  }

  function PoolHolding(address: string, tokens: seq<PoolToken>): PoolRecord
  {
    PoolRecord(address, 1, address, "ComposableStable", "0", None, None, None, [], tokens,
               None, None, None, None, None)
  }

  /** Two pools holding each other's share token, "A" and "B". */
  function CycleLookup(): Lookup
  {
    map["A" := PoolHolding("A", [ShareToken("B")]), "B" := PoolHolding("B", [ShareToken("A")])]
  }

  /** A cycle the expansion never reaches does not stand in the way: a
      pool whose tokens have no pool behind them is ranked. */
  lemma UnreachableCycleIsRanked()
    ensures Ranked("R", CycleLookup(), map[]) && Covers("R", CycleLookup(), map[], [ShareToken("X")])
  {
  }

  /** A cycle the expansion would walk forever admits no ranking. */
  lemma ReachableCycleIsNotRanked(rank: map<string, nat>)
    ensures !(Ranked("R", CycleLookup(), rank) && Covers("R", CycleLookup(), rank, [ShareToken("A")]))
  {
    var lookup := CycleLookup();
    assert lookup["A"].tokens[0] == ShareToken("B") && lookup["A"].address == "A";
    assert lookup["B"].tokens[0] == ShareToken("A") && lookup["B"].address == "B";
    assert [ShareToken("A")][0] == ShareToken("A");
  }
}
