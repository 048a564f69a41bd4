/** The pool and token records the service reads and writes. `PoolRecord`
    is the value of a pool at one moment; `Pool` is the object whose fields
    the enrichment methods overwrite in place. */
module Pools {
  import opened Js
  import opened Apr

  /** A token of a pool. `token` holds the expansion `{ pool: ... }` of a
      token that is the share token of another pool. */
  datatype PoolToken = PoolToken(
    address: string,
    balance: string,
    weight: Nullable<string>,
    priceRate: Nullable<string>,
    decimals: Option<int>,
    symbol: Option<string>,
    token: Option<TokenTreePool>)

  /** The projection of a nested pool embedded in the token that is its
      share token. */
  datatype TokenTreePool = TokenTreePool(
    id: string,
    address: string,
    poolType: string,
    totalShares: string,
    mainIndex: Option<int>,
    tokens: seq<PoolToken>)

  datatype PoolRecord = PoolRecord(
    id: string,
    chainId: int,
    address: string,
    poolType: string,
    totalShares: string,
    mainIndex: Option<int>,
    totalSwapVolume: Option<string>,
    createTime: Option<int>,
    tokensList: seq<string>,
    tokens: seq<PoolToken>,
    totalLiquidity: Option<string>,
    apr: Option<AprBreakdown>,
    volumeSnapshot: Option<string>,
    isNew: Option<bool>,
    lastUpdate: Option<int>)

  /** A token's metadata as stored in the token table. */
  datatype Token = Token(
    chainId: int,
    address: string,
    symbol: string,
    decimals: int,
    price: map<string, string>)

  /** A pool object. The fields the enrichment code assigns are `var`;
      the ones it only reads are `const`. */
  class Pool {
    const id: string
    const chainId: int
    const address: string
    const poolType: string
    const totalShares: string
    const mainIndex: Option<int>
    const totalSwapVolume: Option<string>
    const createTime: Option<int>
    const tokensList: seq<string>
    var tokens: seq<PoolToken>
    var totalLiquidity: Option<string>
    var apr: Option<AprBreakdown>
    var volumeSnapshot: Option<string>
    var isNew: Option<bool>
    var lastUpdate: Option<int>

    /** The pool's current value. */
    function Snapshot(): PoolRecord
      reads this
    {
      PoolRecord(id, chainId, address, poolType, totalShares, mainIndex, totalSwapVolume,
                 createTime, tokensList, tokens, totalLiquidity, apr, volumeSnapshot, isNew, lastUpdate)
    }

    /** An object holding the record `r`, as the store hands it out. */
    constructor (r: PoolRecord)
      ensures Snapshot() == r
    {
      id, chainId, address, poolType := r.id, r.chainId, r.address, r.poolType;
      totalShares, mainIndex, totalSwapVolume := r.totalShares, r.mainIndex, r.totalSwapVolume;
      createTime, tokensList, tokens := r.createTime, r.tokensList, r.tokens;
      totalLiquidity, apr, volumeSnapshot := r.totalLiquidity, r.apr, r.volumeSnapshot;
      isNew, lastUpdate := r.isNew, r.lastUpdate;
    }

  }
}
