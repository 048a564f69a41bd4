/** The helpers of src/utils.ts: chain-id tables, order kinds, the pool
    conversion for the order router, token addresses of a pool set, and
    the token metadata fallback. */
module Utils {
  import opened Js
  import opened Pools

  // ----- Networks and chain-id tables -----

  const Mainnet: int := 1
  const Kovan: int := 42
  const Polygon: int := 137
  const Arbitrum: int := 42161

  /** The values of the `Network` enum, in declaration order. */
  const Networks: seq<int> := [Mainnet, Kovan, Polygon, Arbitrum]

  /** `isValidChainId`: the id is one of the `Network` values. */
  predicate IsValidChainId(networkId: int)
  {
    networkId in Networks
  }

  /** The text a template literal prints for the `INFURA_PROJECT_ID`
      environment variable, which may be unset. */
  function EnvText(v: Option<string>): string
  {
    if v.Some? then v.value else "undefined"
  }

  /** `getInfuraUrl`: Kovan, Polygon and Arbitrum have their own
      endpoints; every other id, known or not, gets mainnet's. */
  function GetInfuraUrl(chainId: int, projectId: Option<string>): (url: string)
    ensures chainId == Kovan ==> url == "https://kovan.infura.io/v3/" + EnvText(projectId)
    ensures chainId == Polygon ==> url == "https://polygon-mainnet.infura.io/v3/" + EnvText(projectId)
    ensures chainId == Arbitrum ==> url == "https://arbitrum-mainnet.infura.io/v3/" + EnvText(projectId)
    ensures chainId !in {Kovan, Polygon, Arbitrum} ==> url == "https://mainnet.infura.io/v3/" + EnvText(projectId)
  {
    if chainId == Kovan then "https://kovan.infura.io/v3/" + EnvText(projectId)
    else if chainId == Polygon then "https://polygon-mainnet.infura.io/v3/" + EnvText(projectId)
    else if chainId == Arbitrum then "https://arbitrum-mainnet.infura.io/v3/" + EnvText(projectId)
    else "https://mainnet.infura.io/v3/" + EnvText(projectId)
  }

  const SubgraphBase: string := "https://api.thegraph.com/subgraphs/name/balancer-labs/"

  /** `getSubgraphURL`, with the same fall-back to mainnet. */
  function GetSubgraphUrl(chainId: int): (url: string)
    ensures chainId == Kovan ==> url == SubgraphBase + "balancer-kovan-v2"
    ensures chainId == Polygon ==> url == SubgraphBase + "balancer-polygon-v2"
    ensures chainId == Arbitrum ==> url == SubgraphBase + "balancer-arbitrum-v2-beta"
    ensures chainId !in {Kovan, Polygon, Arbitrum} ==> url == SubgraphBase + "balancer-v2"
  {
    if chainId == Kovan then SubgraphBase + "balancer-kovan-v2"
    else if chainId == Polygon then SubgraphBase + "balancer-polygon-v2"
    else if chainId == Arbitrum then SubgraphBase + "balancer-arbitrum-v2-beta"
    else SubgraphBase + "balancer-v2"
  }

  /** The four networks have four different endpoints, and every id
      outside them shares mainnet's. */
  lemma EndpointsSeparateTheNetworks(projectId: Option<string>, other: int)
    requires other !in Networks
    ensures forall a, b :: a in Networks && b in Networks && a != b ==>
              GetInfuraUrl(a, projectId) != GetInfuraUrl(b, projectId) && GetSubgraphUrl(a) != GetSubgraphUrl(b)
    ensures GetInfuraUrl(other, projectId) == GetInfuraUrl(Mainnet, projectId)
    ensures GetSubgraphUrl(other) == GetSubgraphUrl(Mainnet)
  {
    var tail := ".infura.io/v3/" + EnvText(projectId);
    var urls := ["https://mainnet" + tail, "https://kovan" + tail,
                 "https://polygon-mainnet" + tail, "https://arbitrum-mainnet" + tail];
    assert urls[0][8] != urls[1][8] && urls[0][8] != urls[2][8] && urls[0][8] != urls[3][8];
    assert urls[1][8] != urls[2][8] && urls[1][8] != urls[3][8] && urls[2][8] != urls[3][8];
    var names := ["balancer-v2", "balancer-kovan-v2", "balancer-polygon-v2", "balancer-arbitrum-v2-beta"];
    assert (SubgraphBase + names[0])[|SubgraphBase| + 9] != (SubgraphBase + names[1])[|SubgraphBase| + 9];
    assert (SubgraphBase + names[0])[|SubgraphBase| + 9] != (SubgraphBase + names[2])[|SubgraphBase| + 9];
    assert (SubgraphBase + names[0])[|SubgraphBase| + 9] != (SubgraphBase + names[3])[|SubgraphBase| + 9];
    assert (SubgraphBase + names[1])[|SubgraphBase| + 9] != (SubgraphBase + names[2])[|SubgraphBase| + 9];
    assert (SubgraphBase + names[1])[|SubgraphBase| + 9] != (SubgraphBase + names[3])[|SubgraphBase| + 9];
    assert (SubgraphBase + names[2])[|SubgraphBase| + 9] != (SubgraphBase + names[3])[|SubgraphBase| + 9];
  }

  /** A chain id as the callers pass it: a number or a string. */
  datatype ChainRef = ChainNumber(n: int) | ChainString(s: string)

  /** `chainId.toString()`, the key of the mapping tables. */
  function ChainKey(c: ChainRef): string
  {
    match c
    case ChainNumber(n) => IntToString(n)
    case ChainString(s) => s
  }

  const PlatformIds: map<string, string> :=
    map["1" := "ethereum", "42" := "ethereum", "137" := "polygon-pos", "42161" := "arbitrum-one"]

  /** `getPlatformId`: the CoinGecko platform of a chain, `undefined`
      (None) for an unmapped key. */
  function GetPlatformId(chainId: ChainRef): (r: Option<string>)
    ensures r.Some? <==> ChainKey(chainId) in PlatformIds
    ensures r.Some? ==> r.value == PlatformIds[ChainKey(chainId)]
  {
    var key := ChainKey(chainId);
    if key in PlatformIds then Some(PlatformIds[key]) else None
  }

  const EthAddress: string := "0x0000000000000000000000000000000000000000"
  const MaticAddress: string := "0x0000000000000000000000000000000000001010"
  const EthPriceSymbol: string := "eth"
  const MaticPriceSymbol: string := "matic"

  const NativeAssetAddresses: map<string, string> :=
    map["1" := EthAddress, "42" := EthAddress, "137" := MaticAddress, "42161" := EthAddress]
  const NativeAssetPriceSymbols: map<string, string> :=
    map["1" := EthPriceSymbol, "42" := EthPriceSymbol, "137" := MaticPriceSymbol, "42161" := EthPriceSymbol]

  /** `mapping[key] || 'eth'`: a missing or empty entry gives "eth". */
  function LookupOrEth(mapping: map<string, string>, key: string): (r: string)
    ensures r != ""
    ensures key in mapping && mapping[key] != "" ==> r == mapping[key]
    ensures key !in mapping ==> r == "eth"
    ensures key in mapping && mapping[key] == "" ==> r == "eth"
  {
    if key in mapping && mapping[key] != "" then mapping[key] else "eth"
  }

  function GetNativeAssetAddress(chainId: ChainRef): (r: string)
    ensures ChainKey(chainId) in NativeAssetAddresses ==> r == NativeAssetAddresses[ChainKey(chainId)]
    ensures ChainKey(chainId) !in NativeAssetAddresses ==> r == "eth"
  {
    LookupOrEth(NativeAssetAddresses, ChainKey(chainId))
  }

  function GetNativeAssetPriceSymbol(chainId: ChainRef): (r: string)
    ensures ChainKey(chainId) in NativeAssetPriceSymbols ==> r == NativeAssetPriceSymbols[ChainKey(chainId)]
    ensures ChainKey(chainId) !in NativeAssetPriceSymbols ==> r == "eth"
  {
    LookupOrEth(NativeAssetPriceSymbols, ChainKey(chainId))
  }

  /** For a numeric chain id the three tables agree with `Network`: a
      platform id exists exactly for the valid chain ids, and every other
      id gets the "eth" fall-backs. */
  lemma TablesCoverExactlyTheNetworks(n: int)
    ensures GetPlatformId(ChainNumber(n)).Some? <==> IsValidChainId(n)
    ensures !IsValidChainId(n) ==>
              GetNativeAssetAddress(ChainNumber(n)) == "eth" && GetNativeAssetPriceSymbol(ChainNumber(n)) == "eth"
  {
    var key := IntToString(n);
    assert IntToString(1) == "1";
    assert IntToString(42) == "42";
    assert IntToString(137) == "137";
    assert IntToString(42161) == "42161" by {
      assert NatToString(4) == "4";
      assert NatToString(42) == "42";
      assert NatToString(421) == "421";
      assert NatToString(4216) == "4216";
    }
    if key == "1" { IntToStringInjective(n, 1); }
    if key == "42" { IntToStringInjective(n, 42); }
    if key == "137" { IntToStringInjective(n, 137); }
    if key == "42161" { IntToStringInjective(n, 42161); }
  }

  // ----- Order kinds -----

  datatype SwapType = SwapExactIn | SwapExactOut

  /** `orderKindToSwapType`: "sell" and "buy"; anything else throws. */
  function OrderKindToSwapType(orderKind: string): (r: Outcome<SwapType>)
    ensures r.Ok? <==> orderKind == "sell" || orderKind == "buy"
    ensures r.Err? ==> r.message == "invalid order kind " + orderKind
  {
    if orderKind == "sell" then Ok(SwapExactIn)
    else if orderKind == "buy" then Ok(SwapExactOut)
    else Err("invalid order kind " + orderKind)
  }

  /** The order kind a swap type comes from. */
  function SwapTypeToOrderKind(t: SwapType): string
  {
    if t == SwapExactIn then "sell" else "buy"
  }

  /** The two are inverse on the accepted kinds. */
  lemma OrderKindRoundTrip(t: SwapType, orderKind: string)
    ensures OrderKindToSwapType(SwapTypeToOrderKind(t)) == Ok(t)
    ensures OrderKindToSwapType(orderKind).Ok? ==>
              SwapTypeToOrderKind(OrderKindToSwapType(orderKind).value) == orderKind
  {
  }

  // ----- Conversion to the order router's pool shape -----

  /** A token as the order router expects it: decimals set and non-zero,
      price rate and weight either a non-empty value or `null`. */
  predicate RouterReady(t: PoolToken)
  {
    && TruthyInt(t.decimals)
    && (t.priceRate == Null || (t.priceRate.Present? && t.priceRate.value != ""))
    && (t.weight == Null || (t.weight.Present? && t.weight.value != ""))
  }

  /** `x || null` for an optional string field. */
  function OrNull(v: Nullable<string>): (r: Nullable<string>)
    ensures v.Present? && v.value != "" ==> r == v
    ensures !(v.Present? && v.value != "") ==> r == Null
  {
    if v.Present? && v.value != "" then v else Null
  }

  function ConvertToken(t: PoolToken): (r: PoolToken)
    ensures RouterReady(r)
    ensures r.(decimals := t.decimals, priceRate := t.priceRate, weight := t.weight) == t
    ensures r.decimals == if TruthyInt(t.decimals) then t.decimals else Some(18)
    ensures r.priceRate == OrNull(t.priceRate) && r.weight == OrNull(t.weight)
    ensures RouterReady(t) ==> r == t
  {
    t.(decimals := if TruthyInt(t.decimals) then t.decimals else Some(18),
       priceRate := OrNull(t.priceRate),
       weight := OrNull(t.weight))
  }

  /** `convertPoolToSubgraphPoolBase`: the same pool with its tokens, in
      order, made router-ready; nothing else changes. */
  function ConvertPoolToSubgraphPoolBase(p: PoolRecord): (r: PoolRecord)
    ensures r.(tokens := p.tokens) == p
    ensures |r.tokens| == |p.tokens|
    ensures forall i :: 0 <= i < |p.tokens| ==> r.tokens[i] == ConvertToken(p.tokens[i])
  {
    p.(tokens := seq(|p.tokens|, i requires 0 <= i < |p.tokens| => ConvertToken(p.tokens[i])))
  }

  /** Converting twice is converting once. */
  lemma ConvertIsIdempotent(p: PoolRecord)
    ensures ConvertPoolToSubgraphPoolBase(ConvertPoolToSubgraphPoolBase(p)) == ConvertPoolToSubgraphPoolBase(p)
  {
    var once := ConvertPoolToSubgraphPoolBase(p);
    var twice := ConvertPoolToSubgraphPoolBase(once);
    assert twice.tokens == once.tokens;
  }

  // ----- Token addresses of a set of pools -----

  /** All `tokensList` entries, pool after pool. */
  function Flatten(pools: seq<PoolRecord>): seq<string>
  {
    if pools == [] then [] else Flatten(pools[..|pools| - 1]) + pools[|pools| - 1].tokensList
  }

  /** First occurrences, in order of first appearance. */
  function Dedup(s: seq<string>): seq<string>
  {
    if s == [] then []
    else
      var d := Dedup(s[..|s| - 1]);
      if s[|s| - 1] in d then d else d + [s[|s| - 1]]
  }

  predicate NoDuplicates(s: seq<string>)
  {
    forall i, j :: 0 <= i < j < |s| ==> s[i] != s[j]
  }

  lemma {:induction false} DedupProperties(s: seq<string>)
    ensures NoDuplicates(Dedup(s))
    ensures forall x :: x in Dedup(s) <==> x in s
  {
    if s != [] {
      DedupProperties(s[..|s| - 1]);
      assert s == s[..|s| - 1] + [s[|s| - 1]];
    }
  }

  lemma {:induction false} InFlatten(pools: seq<PoolRecord>, a: string)
    ensures a in Flatten(pools) <==> exists k :: 0 <= k < |pools| && a in pools[k].tokensList
  {
    if pools != [] {
      var init := pools[..|pools| - 1];
      InFlatten(init, a);
      if a in pools[|pools| - 1].tokensList {
        assert a in Flatten(pools);
      }
      if exists k :: 0 <= k < |pools| && a in pools[k].tokensList {
        var k :| 0 <= k < |pools| && a in pools[k].tokensList;
        if k < |pools| - 1 {
          assert init[k] == pools[k];
        }
      }
      if a in Flatten(init) {
        var k :| 0 <= k < |init| && a in init[k].tokensList;
        assert pools[k] == init[k];
      }
    }
  }

  lemma DedupSnoc(s: seq<string>, x: string)
    ensures Dedup(s + [x]) == if x in Dedup(s) then Dedup(s) else Dedup(s) + [x]
  {
    assert (s + [x])[..|s|] == s;
  }

  lemma AppendAddress(before: seq<string>, list: seq<string>, j: nat)
    requires j < |list|
    ensures var d := Dedup(before + list[..j]);
            Dedup(before + list[..j + 1]) == if list[j] in d then d else d + [list[j]]
  {
    assert before + list[..j + 1] == (before + list[..j]) + [list[j]];
    DedupSnoc(before + list[..j], list[j]);
  }

  lemma FlattenSnoc(pools: seq<PoolRecord>, i: nat)
    requires i < |pools|
    ensures Flatten(pools[..i + 1]) == Flatten(pools[..i]) + pools[i].tokensList
  {
    assert pools[..i + 1][..i] == pools[..i];
  }

  /** The distinct addresses of a pool set have no repeats and are
      exactly the addresses some pool lists. */
  lemma DistinctTokenAddresses(pools: seq<PoolRecord>)
    ensures NoDuplicates(Dedup(Flatten(pools)))
    ensures forall a :: a in Dedup(Flatten(pools)) <==> exists k :: 0 <= k < |pools| && a in pools[k].tokensList
  {
    DedupProperties(Flatten(pools));
    InFlattenAll(pools);
  }

  /** `InFlatten` for every address at once. */
  lemma InFlattenAll(pools: seq<PoolRecord>)
    ensures forall a :: a in Flatten(pools) <==> exists k :: 0 <= k < |pools| && a in pools[k].tokensList
  {
    forall a ensures a in Flatten(pools) <==> exists k :: 0 <= k < |pools| && a in pools[k].tokensList {
      InFlatten(pools, a);
    }
  }

  /** `getTokenAddressesFromPools`: fills a dictionary keyed by address
      pool by pool, then returns its keys in insertion order. */
  method GetTokenAddressesFromPools(pools: seq<PoolRecord>) returns (addresses: seq<string>)
    ensures addresses == Dedup(Flatten(pools))
    ensures NoDuplicates(addresses)
    ensures forall a :: a in addresses <==> exists k :: 0 <= k < |pools| && a in pools[k].tokensList
  {
    var tokenAddressMap: map<string, bool> := map[];
    var keys: seq<string> := [];
    var i := 0;
    while i < |pools|
      invariant 0 <= i <= |pools|
      invariant keys == Dedup(Flatten(pools[..i]))
      invariant forall a :: a in tokenAddressMap <==> a in keys
    {
      var list := pools[i].tokensList;
      ghost var before := Flatten(pools[..i]);
      var j := 0;
      assert before + list[..0] == before;
      while j < |list|
        invariant 0 <= j <= |list|
        invariant keys == Dedup(before + list[..j])
        invariant forall a :: a in tokenAddressMap <==> a in keys
      {
        var address := list[j];
        AppendAddress(before, list, j);
        if address !in tokenAddressMap {
          keys := keys + [address];
        }
        tokenAddressMap := tokenAddressMap[address := true];
        j := j + 1;
      }
      assert list[..|list|] == list;
      FlattenSnoc(pools, i);
      i := i + 1;
    }
    assert pools[..|pools|] == pools;
    addresses := keys;
    DistinctTokenAddresses(pools);
  }

  // ----- Token metadata -----

  /** The symbol shown for a token whose `symbol()` call fails. */
  function PlaceholderSymbol(address: string): (s: string)
    ensures |address| == 42 ==> s == address[..4] + ".." + address[40..] && |s| == 8
  {
    Substr(address, 0, 4) + ".." + SubstrFrom(address, 40)
  }

  /** `getTokenInfo` after address checksumming: a cached token is
      returned as it is; otherwise `symbol()` and `decimals()` are read,
      each falling back on its own when the call fails. */
  method GetTokenInfo(chainId: int, tokenAddress: string, cachedInfo: Option<Token>,
                      symbolCall: Outcome<string>, decimalsCall: Outcome<int>) returns (info: Token)
    ensures cachedInfo.Some? ==> info == cachedInfo.value
    ensures cachedInfo.None? ==>
              && info.chainId == chainId && info.address == tokenAddress && info.price == map[]
              && info.symbol == (if symbolCall.Ok? then symbolCall.value else PlaceholderSymbol(tokenAddress))
              && info.decimals == (if decimalsCall.Ok? then decimalsCall.value else 18)
  {
    if cachedInfo.Some? {
      return cachedInfo.value;
    }
    var symbol := PlaceholderSymbol(tokenAddress);
    if symbolCall.Ok? {
      symbol := symbolCall.value;
    }
    var decimals := 18;
    if decimalsCall.Ok? {
      decimals := decimalsCall.value;
    }
    info := Token(chainId, tokenAddress, symbol, decimals, map[]);
  }
}
