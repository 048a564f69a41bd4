# Balancer API pool enrichment, in Dafny

This project models the core of the Balancer pools API backend.

- **Enrichment of a pool** (`PoolService`). It sets total liquidity, APR, volume snapshot and the `isNew` flag. It also expands the pool's tokens into nested sub-pool trees. When the SDK calculator fails, liquidity and APR keep a stored value if there is one and otherwise store zero; the volume setter returns "0" and leaves the pool as it was. `lastUpdate` moves only when a stored value really changes.
- **The decorator** (`PoolDecorator.decorate`). It runs liquidity and then APR on every pool object of a batch.
- **The helpers of `src/utils.ts`**: chain-id tables, endpoint URLs, order kinds, the conversion for the order router, the token addresses of a pool set, token metadata, and the NaN check on APR breakdowns.
- **The behaviour the tests of `src/modules/pools/utils.spec.ts` require** of the pools module's helpers: the Infinity-rejecting APR check, the snapshot comparison `isSame`, and the schema filter `getNonStaticSchemaFields`.
- **The worker** (`src/worker.ts`). It starts per-chain loops. Each fetch cycle is gated on a new block number. The decorate loop does not write its result back.

Modules:

- `Js`: the JavaScript semantics the code relies on.
  - `Number()` of a string (the empty string is 0, a malformed one is NaN).
  - Comparisons with NaN are false.
  - Truthiness.
  - `toString()` of an integer.
  - `substr`.
- `Apr`: APR breakdowns as nested JavaScript values, and both validity checks.
- `Pools`: pool, token and token-tree records, and the `Pool` object whose fields the services assign in place.
- `TokenTree`: token expansion.
- `PoolServices`: the setters. Each one is a pure step on a `PoolRecord`, plus a `PoolService` class whose methods apply the step to the `Pool` object.
- `Decorator`: the decorator.
- `Utils`: `src/utils.ts`.
- `PoolUtils`: `isSame` and `getNonStaticSchemaFields`.
- `Worker`: the worker process.

External effects are parameters:

- **SDK calculators.** Each calculator's outcome on the pool's current value is passed in as a function (`Sdk`).
- **Sub-pool lookup.** The SDK's `findBy('address', …)` is a map from pool address to pool.
- **The clock.** `Date.now()` is a `now` argument.
- **RPC and database results.** The block number, the fetched pools and the write results are a `CycleIo` value. The pools in the store and the cached token are arguments too.
- **Contract calls** (`symbol()` and `decimals()`) are `Outcome` arguments.

The model follows the code as written:

- **Failures end a loop.** `fetchAndSavePools` and `decorateAndSavePools` have no `try`/`catch`. A call that rejects ends that cycle before its `setTimeout`: nothing is rescheduled, and in the fetch loop `lastBlockNumber` is not updated. The model takes Node.js's `--unhandled-rejections=warn` behaviour (the default before Node 15), in which only that chain's loop stops. Under the default of later versions the unhandled rejection ends the whole process.
- **No diff on write.** The worker writes the whole fetched pool set on every new block, with no `isSame` check.
- **Decorated pools are not saved.** `decorateAndSavePools` computes decorated pools and drops them, because the write at src/worker.ts:79 is commented out.
- **Two APR checks.** `setApr` uses the NaN-only `isValidApr` of `src/utils.ts`. The stricter check that also rejects Infinity is the one the tests in `utils.spec.ts` exercise. Both are modelled. `InfiniteSwapFeesSplitsTheChecks` exhibits an input on which they differ.

Constants whose definitions are not part of this model were fixed as follows:

- `Network`: MAINNET = 1, KOVAN = 42, POLYGON = 137, ARBITRUM = 42161. These are the keys of the `getPlatformId` table.
- `WEEK_IN_MS` = 7 × 24 × 60 × 60 × 1000.
- `NativeAssetAddress.ETH` and `.MATIC` are the zero address and `0x…1010`.
- `NativeAssetPriceSymbol` is `"eth"` and `"matic"`.

## Model

| member | source | states |
|---|---|---|
| Js.NumberOf | src/pools/pool.service.ts:100 | `Number()` of an unset (`undefined`) field is NaN, so an unset liquidity or volume is never below a threshold. |
| Js.ParseIntToString | src/utils.ts:149 | Parsing `toString()` of an integer gives that integer back. |
| Js.IntToStringInjective | src/utils.ts:149 | Distinct chain ids have distinct `toString()` keys. |
| Js.NatToStringValue | src/utils.ts:149 | The decimal digits printed for n denote n. |
| Js.Substr | src/utils.ts:47 | `substr(start, length)` is never longer than `length`. Within bounds it is the slice of `length` characters at `start`. When it runs past the end it is the rest of the string, and from the end onwards it is empty. |
| Js.SubstrFrom | src/utils.ts:47 | `substr(start)` is the suffix from `start`, or empty past the end. |
| Apr.IsValidApr | src/utils.ts:200-208 | The loop over the object's values returns true exactly when no leaf at any depth is NaN. Infinity passes. |
| Apr.TotalObjectNaNFree | src/utils.ts:200-208 | A `{total, breakdown}` object passes exactly when its total and every breakdown entry are not NaN. |
| Apr.NaNFreeObjectIsLeafCheck | src/utils.ts:200-208 | An APR breakdown passes exactly when each of its numeric leaves is not NaN. |
| Apr.AllFiniteIsNaNFree | src/modules/pools/utils.spec.ts:17-84 | The Infinity-rejecting check implies the NaN check, so it also rejects every NaN case. |
| Apr.InfiniteSwapFeesSplitsTheChecks | src/modules/pools/utils.spec.ts:63-84 | With Infinity swap fees the tested check rejects the breakdown, but the `src/utils.ts` check accepts it. |
| Apr.NaNRewardTotalIsInvalid | src/modules/pools/utils.spec.ts:17-38 | A NaN reward total and NaN min/max are rejected. |
| Apr.NaNStakingMinIsInvalid | src/modules/pools/utils.spec.ts:40-61 | A NaN staking minimum is rejected. |
| Apr.ZeroAprIsValid | src/modules/pools/utils.spec.ts:86-107 | The default all-zero breakdown passes both checks. |
| Apr.FilledAprIsValid | src/modules/pools/utils.spec.ts:109-130 | A breakdown filled with finite numbers passes both checks. |
| Pools.Pool.constructor | src/pools/pool.service.ts:20-21 | A pool object's fields hold the record it was built from. |
| TokenTree.ExpandToken | src/pools/pool.service.ts:168-193 | Only `token` changes. BPT tokens of this pool and tokens with no pool behind them are returned as they are. Any other token gets a tree with the sub-pool's id, address, type, shares and main index, and one entry per sub-pool token, in order. In that tree, the sub-pool's own BPT, this pool's BPT and tokens with no pool behind them are unchanged, and every other token differs only in carrying the tree of its own sub-pool. |
| TokenTree.ExpandedTree | src/pools/pool.service.ts:180-183 | The tree's entries are the same recursion applied again: every sub-pool token other than the sub-pool's own BPT is `ExpandToken` of that token. |
| TokenTree.ExpandChildren | src/pools/pool.service.ts:180-183 | A sub-pool's tokens keep their number and order. Its own BPT token is kept as it is, and every other token is `ExpandToken` of it, so this pool's BPT and pool-less tokens also stay unchanged at every depth. |
| TokenTree.ExpandTokens | src/pools/pool.service.ts:201-203 | Same length and order, and each token is `ExpandToken` of the original. When no token expands, the list is unchanged. |
| TokenTree.UnreachableCycleIsRanked | src/pools/pool.service.ts:168-193 | Two pools holding each other's BPT do not stop the expansion of a pool that never reaches them. |
| TokenTree.ReachableCycleIsNotRanked | src/pools/pool.service.ts:168-193 | A pool that reaches such a cycle admits no ranking; `expandToken` would recurse forever on it. |
| PoolServices.LiquidityStep | src/pools/pool.service.ts:31-76 | Element pools give "0" and are left untouched. A failure keeps a truthy stored liquidity. Otherwise the computed value (or "0") is stored and returned, and only `totalLiquidity` and `lastUpdate` change. `lastUpdate` moves exactly when the stored string changes. |
| PoolServices.AprStep | src/pools/pool.service.ts:78-131 | Liquidity below 100, read with `Number()`, stores the zero breakdown. A failed or NaN-carrying result keeps an existing APR, or else stores zero. Only `apr` and `lastUpdate` change. The APR returned is the one stored, and a breakdown with a NaN leaf is never written. |
| PoolServices.VolumeStep | src/pools/pool.service.ts:133-158 | Swap volume below 100 stores "0". A failure returns "0" and leaves the pool as it was. A computed snapshot is stored and returned, and `lastUpdate` moves exactly when it differs. |
| PoolServices.IsNewStep | src/pools/pool.service.ts:160-166 | A falsy `createTime` gives false and changes nothing. Otherwise `isNew` is set to "created less than a week before now". |
| PoolServices.ExpandStep | src/pools/pool.service.ts:200-212 | The new tokens are the expansion of the old ones. Only `tokens` and `lastUpdate` change, and the tokens keep their count and differ only in their trees. `lastUpdate` moves exactly when the tokens change. With nothing to expand, the pool is unchanged. |
| PoolServices.LiquidityStepSettles | src/pools/pool.service.ts:71-75 | Recomputing with the same calculator outcome does not move `lastUpdate` again. |
| PoolServices.PoolService.constructor | src/pools/pool.service.ts:20-26 | The service holds the pool object and the SDK, and no calculator has been called yet. |
| PoolServices.PoolService.SetTotalLiquidity | src/pools/pool.service.ts:31-76 | The pool object ends as `LiquidityStep` of its old value. The liquidity calculator is called once, except for Element pools. |
| PoolServices.PoolService.SetApr | src/pools/pool.service.ts:78-131 | The pool object ends as `AprStep` of its old value. The APR calculator is called exactly when the liquidity is not below 100. |
| PoolServices.PoolService.SetVolumeSnapshot | src/pools/pool.service.ts:133-158 | The pool object ends as `VolumeStep` of its old value. The volume calculator is called exactly when the swap volume is not below 100. |
| PoolServices.PoolService.SetIsNew | src/pools/pool.service.ts:160-166 | The pool object ends as `IsNewStep` of its old value. |
| PoolServices.PoolService.ExpandPool | src/pools/pool.service.ts:200-212 | It returns the same pool object, whose value is now `ExpandStep` of its old value. |
| Decorator.DecorateStep | src/pools/pool.decorator.ts:46-59 | A pool whose service cannot be built is untouched. Otherwise the result is `AprStep` applied to what `LiquidityStep` left, and only those two fields and `lastUpdate` change. The pool ends with an APR, and with a liquidity outside Element pools. A fresh dust liquidity zeroes the APR. |
| Decorator.PoolDecorator.constructor | src/pools/pool.decorator.ts:13-16 | The decorator holds the pools and the chain id. |
| Decorator.PoolDecorator.DecorateOne | src/pools/pool.decorator.ts:46-59 | The per-pool callback. It yields the same pool object, or none when construction fails. The object ends as `DecorateStep` of its old value. |
| Decorator.PoolDecorator.Decorate | src/pools/pool.decorator.ts:46-65 | There is one entry per pool, in order. The entry is the same object, or none when construction fails. Each pool object ends as `DecorateStep` of its old value. |
| Utils.GetInfuraUrl | src/utils.ts:109-121 | The Kovan, Polygon and Arbitrum endpoints each embed the project id. Every other id gets the mainnet endpoint. |
| Utils.GetSubgraphUrl | src/utils.ts:123-135 | The subgraph per network. Every other id gets the mainnet subgraph. |
| Utils.EndpointsSeparateTheNetworks | src/utils.ts:109-135 | Distinct networks get distinct endpoints. An unknown id is served exactly as mainnet. |
| Utils.GetPlatformId | src/utils.ts:141-150 | Defined exactly for the mapped `toString()` keys, and equal to the table entry. |
| Utils.GetNativeAssetAddress | src/utils.ts:152-163 | The table entry for a mapped key, "eth" otherwise. |
| Utils.GetNativeAssetPriceSymbol | src/utils.ts:165-176 | The table entry for a mapped key, "eth" otherwise. |
| Utils.LookupOrEth | src/utils.ts:162 | `mapping[key] \|\| 'eth'`: a non-empty entry is returned, and a missing or empty entry gives "eth". |
| Utils.TablesCoverExactlyTheNetworks | src/utils.ts:137-176 | For a numeric id, a platform exists exactly when `isValidChainId` holds. Any other id gets "eth" from both native-asset tables. |
| Utils.OrderKindToSwapType | src/utils.ts:98-107 | Succeeds exactly for "sell" and "buy". Otherwise it fails with "invalid order kind " followed by the kind. |
| Utils.OrderKindRoundTrip | src/utils.ts:98-107 | Swap type to order kind and back is the identity, and every accepted kind is the image of its swap type. |
| Utils.OrNull | src/utils.ts:189-190 | `v \|\| null`: a non-empty string is kept, anything else becomes null. |
| Utils.ConvertToken | src/utils.ts:184-192 | Only decimals, price rate and weight change. Decimals default to 18. A non-empty price rate or weight is kept, and a falsy one becomes null. The result is router-ready, and a router-ready token is unchanged. |
| Utils.ConvertPoolToSubgraphPoolBase | src/utils.ts:183-198 | Only the tokens change. Each one is converted, with count and order kept. |
| Utils.ConvertIsIdempotent | src/utils.ts:183-198 | Converting twice is converting once. |
| Utils.DedupProperties | src/utils.ts:71-79 | The distinct addresses have no repeats and hold exactly the input's addresses. |
| Utils.InFlatten | src/utils.ts:73-77 | An address is in the flattened lists exactly when some pool lists it. |
| Utils.DistinctTokenAddresses | src/utils.ts:71-79 | The distinct addresses of a pool set have no repeats and are exactly the addresses some pool lists. |
| Utils.GetTokenAddressesFromPools | src/utils.ts:71-79 | The keys of the address map, in first-insertion order. They have no repeats and are exactly the addresses some pool lists. |
| Utils.PlaceholderSymbol | src/utils.ts:47 | For a 42-character address: its first four characters, "..", and its last two. |
| Utils.GetTokenInfo | src/utils.ts:27-69 | A cached token is returned as it is. Otherwise symbol and decimals come from the contract, each falling back to the placeholder or 18 on its own, with an empty price. |
| PoolUtils.SameTokensIsEquality | src/modules/pools/utils.spec.ts:153-160 | The deep token comparison holds exactly when the token lists are equal. |
| PoolUtils.SameTokenIsEquality | src/modules/pools/utils.spec.ts:153-160 | The deep comparison of one token, its tree included, holds exactly when the tokens are equal. |
| PoolUtils.SameTreeIsEquality | src/modules/pools/utils.spec.ts:153-160 | The deep comparison of a token tree holds exactly when the trees are equal. |
| PoolUtils.IsSameIsEquality | src/modules/pools/utils.spec.ts:147-160 | Against a previous snapshot, `isSame` holds exactly when the two pools are equal. |
| PoolUtils.IsSameWithoutPrevious | src/modules/pools/utils.spec.ts:142-145 | Without a previous snapshot the pool is never the same. |
| PoolUtils.IsSameOnCopy | src/modules/pools/utils.spec.ts:147-151 | A copy is the same. |
| PoolUtils.BalanceChangeIsDetected | src/modules/pools/utils.spec.ts:153-160 | Changing one token's balance makes the pools differ. |
| PoolUtils.GetNonStaticSchemaFields | src/modules/pools/utils.spec.ts:163-176 | The names are exactly those of the non-static fields, with no more entries than the schema. |
| PoolUtils.NonStaticFieldsKeepOrder | src/modules/pools/utils.spec.ts:163-176 | The filter distributes over concatenation, so the schema order is kept. |
| PoolUtils.NonStaticFieldsOfTestSchema | src/modules/pools/utils.spec.ts:165-174 | The test schema yields `totalSwapVolume` and then `swapsCount`. |
| Worker.UpsertPools | src/worker.ts:56 | The stored keys are the old keys plus `(id, chainId)` of each fetched pool. Pools not in the batch keep their value. |
| Worker.UpsertLastWriterWins | src/worker.ts:56 | A pool whose key does not recur later in the batch is what the store holds afterwards. |
| Worker.UnknownTokens | src/worker.ts:60 | The addresses kept are exactly those with no token stored for the chain. |
| Worker.FetchCycle | src/worker.ts:45-69 | See the notes below the table. |
| Worker.StartupTasksCoverChains | src/worker.ts:34-41 | Every network gets a fetch loop. Every network except Kovan gets a decorate loop. The price loop is not started per chain. |
| Worker.WorkerProcess.constructor | src/worker.ts:25 | The block-number map starts empty and nothing is scheduled. |
| Worker.WorkerProcess.DoWork | src/worker.ts:27-43 | If the store is down, the process exits and nothing else changes. Otherwise each network's block number is set to 0 and others are kept. The scheduled loops are each chain's fetch and decorate loops in network order, then the price loop. |
| Worker.WorkerProcess.FetchAndSavePools | src/worker.ts:45-69 | The worker's state and the completion flag end as `FetchCycle` of the old state. |
| Worker.WorkerProcess.DecorateAndSavePools | src/worker.ts:71-82 | Pool and token stores and block numbers are unchanged, since there is no write-back. The cycle completes, and the next decorate loop is scheduled, exactly when both store reads succeed. Otherwise nothing changes. |

`Worker.FetchCycle` states:

- A failed block query changes nothing and reschedules nothing.
- An unchanged block writes nothing, keeps the map and reschedules.
- The next cycle is scheduled exactly when the cycle completes.
- Other chains' block numbers never change.
- The block number is recorded only when every write has succeeded.
- On a new block, the cycle completes exactly when both the pool write and the token step succeed.
- A failed pool write ends the cycle with nothing changed. A failed token step leaves the pools written and writes no token.
- A new block writes the whole fetched set.
- Known tokens are never overwritten. New ones belong to the chain and to a fetched pool.
- A completed new-block cycle stores every token of the fetched pools that was not yet known for the chain, as the token resolved for its address.

## Left out

- Logging (`debug`, `console`) and the `graphData` branch of `setTotalLiquidity` only log, so they are not modelled.
- `getTokenInfo`'s `ethers.utils.getAddress` checksumming and its throw on a malformed address are not modelled. The model takes the address as already checksummed.
- The `BigNumber` round trip of the decimals in `getTokenInfo` is not modelled.
- `getSymbol` and `getDecimals` are not modelled. They only project `getTokenInfo`.
- `formatPrice` is not modelled. It relies on big-number decimal formatting.
- `localAWSConfig` is a constant record with no behaviour.
- The `Network` enum, `WEEK_IN_MS` and the native-asset constants are not part of this model. Their values are fixed above.
- `Worker.WorkerProcess.DoWork` takes `Object.values(Network)` (src/worker.ts:34) to be exactly the four chain ids. If `Network` is a numeric TypeScript enum, its reverse mapping also yields the member names. The source would then also start fetch and decorate loops for those strings, and the model does not capture that.
- `Utils.GetPlatformId`, `Utils.GetNativeAssetAddress` and `Utils.GetNativeAssetPriceSymbol` look keys up in plain object literals (src/utils.ts:149, 162, 175). A key inherited from the object prototype, such as "constructor", finds a function there rather than `undefined` or "eth". The model's tables hold only the four listed keys.
- `Js.NumberOf`: whitespace, exponents, hexadecimal and other forms that `Number()` accepts are read as NaN. Only optional signs, digits, one decimal point, `Infinity` and the empty string are parsed. The value is kept as an exact decimal, without rounding to a double. For example, `Number("99.99999999999999999")` is 100 in JavaScript, so that pool is not dust at src/pools/pool.service.ts:100, but the model reads it as below 100.
- `Utils.GetTokenAddressesFromPools`: JavaScript orders integer-like object keys before the others. The model keeps plain insertion order, which is what token addresses (`0x…`) get.
- `isEqual` (src/pools/pool.service.ts:125) ignores key order. The model compares breakdown values, whose breakdown maps have no order.
- `PoolServices.VolumeStep`: the calculator's number and its `toString()` are one string outcome.
- `PoolServices.PoolService.ExpandPool`: the `JSON.stringify` comparison (src/pools/pool.service.ts:205) is taken as value equality.
- `PoolServices.PoolService.ExpandPool` requires a ranking of the pools its expansion reaches through `findBy`. Only a cycle the expansion would walk, on which `expandToken` recurses without end, is excluded. Cycles among pools it never reaches are allowed (`TokenTree.UnreachableCycleIsRanked`).
- `Worker.FetchCycle`: a failed `updatePools` or `updateTokens` (src/worker.ts:56, 63) is taken to write nothing. The store writes in batches of 25 (`MAX_BATCH_WRITE_SIZE`, src/constants.ts:7), so a failure part-way through would leave the earlier batches written. The model does not capture such a partial write.
- `Decorator.PoolDecorator.Decorate`: the per-pool `Promise.all` tasks run one after another in pool order.
- `Decorator.PoolDecorator.Decorate` requires distinct pool objects. An array holding the same object twice, which the source would decorate twice in interleaved fashion, is excluded.
- SDK construction and repositories (src/pools/pool.decorator.ts:21-44) are left out. The calculators, which see the pool's current value, are the `Sdk` argument. The worker builds every decorator with the default chain id 1 (src/worker.ts:76). The SDK configuration that depends on it is part of that argument.
- Whether a `PoolService` can be built for a pool is the `canConstruct` argument.
- `fetchPoolsFromChain`, `fetchTokens`, `removeKnownTokens`' store query, and the DynamoDB calls (src/sor, src/dynamodb) are not part of this model. Their results are inputs of a cycle: `Worker.UnknownTokens` filters against the modelled token store, and fetched tokens come from the `resolve` argument.
- `updatePrices` and `updateTokenPrices` are left out beyond scheduling the price loop. They depend on a price feed that is not part of this model.
- Timer intervals (500 ms, 60 s) are left out. A `setTimeout` is recorded as the next scheduled invocation.
- The interleaving of the concurrent per-chain loops is left out. Each cycle is modelled as one atomic step on the worker's state.
- `Worker.WorkerProcess.DoWork`: `exit(1)` is a flag. The process ending is not otherwise modelled.
