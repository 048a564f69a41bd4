/** The long-running worker: start-up over every network, the per-chain
    fetch loop gated on the block number, and the per-chain decorate loop.
    RPC, store and timer calls are the parameters of one cycle; every
    loop invocation the worker issues (directly or through `setTimeout`)
    is recorded in `scheduled`. */
module Worker {
  import opened Js
  import opened Pools
  import opened Utils
  import opened PoolServices
  import opened Decorator

  datatype Task = FetchLoop(chainId: int) | DecorateLoop(chainId: int) | PricesLoop

  type PoolKey = (string, int)
  type TokenKey = (string, int)

  function Key(p: PoolRecord): PoolKey
  {
    (p.id, p.chainId)
  }

  function KeysOf(pools: seq<PoolRecord>): set<PoolKey>
  {
    set p | p in pools :: Key(p)
  }

  /** `updatePools`: each pool upserted under `(id, chainId)`, in order. */
  function UpsertPools(store: map<PoolKey, PoolRecord>, pools: seq<PoolRecord>): (r: map<PoolKey, PoolRecord>)
    ensures r.Keys == store.Keys + KeysOf(pools)
    ensures forall k :: k in store && k !in KeysOf(pools) ==> r[k] == store[k]
  {
    if pools == [] then store
    else
      var init := pools[..|pools| - 1];
      var last := pools[|pools| - 1];
      assert pools == init + [last];
      assert KeysOf(pools) == KeysOf(init) + {Key(last)};
      UpsertPools(store, init)[Key(last) := last]
  }

  /** A pool whose key does not recur later in the batch is what the store
      holds afterwards. */
  lemma {:induction false} UpsertLastWriterWins(store: map<PoolKey, PoolRecord>, pools: seq<PoolRecord>, i: int)
    requires 0 <= i < |pools|
    requires forall j :: i < j < |pools| ==> Key(pools[j]) != Key(pools[i])
    ensures UpsertPools(store, pools)[Key(pools[i])] == pools[i]
  {
    var init := pools[..|pools| - 1];
    var last := pools[|pools| - 1];
    assert UpsertPools(store, pools) == UpsertPools(store, init)[Key(last) := last];
    if i < |pools| - 1 {
      assert forall j :: i < j < |init| ==> init[j] == pools[j];
      UpsertLastWriterWins(store, init, i);
      assert init[i] == pools[i];
      assert Key(last) != Key(pools[i]);
    }
  }

  /** `removeKnownTokens`: the addresses with no token stored for the chain. */
  function UnknownTokens(store: map<TokenKey, Token>, chainId: int, addresses: seq<string>): (r: seq<string>)
    ensures forall a :: a in r <==> a in addresses && (a, chainId) !in store
  {
    if addresses == [] then []
    else
      var rest := UnknownTokens(store, chainId, addresses[1..]);
      assert forall a :: a in addresses <==> a == addresses[0] || a in addresses[1..];
      if (addresses[0], chainId) in store then rest else [addresses[0]] + rest
  }

  /** `fetchTokens` then `updateTokens`: each address resolved and stored. */
  function SaveTokens(store: map<TokenKey, Token>, chainId: int, addresses: seq<string>, resolve: string -> Token)
    : map<TokenKey, Token>
  {
    store + map a | a in addresses :: (a, chainId) := resolve(a)
  }

  /** The worker's state: the block last seen per chain, the two tables,
      and the loop invocations issued so far. */
  datatype WorkerState = WorkerState(
    lastBlockNumber: map<int, int>,
    poolStore: map<PoolKey, PoolRecord>,
    tokenStore: map<TokenKey, Token>,
    scheduled: seq<Task>)

  /** What the RPC and store calls of one fetch cycle return; a `false`
      write flag is a write that throws. */
  datatype CycleIo = CycleIo(
    blockNumber: Outcome<int>,
    fetched: Outcome<seq<PoolRecord>>,
    poolsWritten: bool,
    tokensWritten: bool,
    resolve: string -> Token)

  /** `currentBlockNo !== lastBlockNumber[chainId]`; a chain with no entry
      (`undefined`) always sees a new block. */
  predicate IsNewBlock(lastBlockNumber: map<int, int>, chainId: int, block: int)
  {
    chainId !in lastBlockNumber || lastBlockNumber[chainId] != block
  }

  /** One run of `fetchAndSavePools(chainId)`. The result flag says
      whether the cycle completed; a call that throws ends the cycle
      there, without rescheduling. */
  function FetchCycle(s: WorkerState, chainId: int, io: CycleIo): (res: (WorkerState, bool))
    ensures io.blockNumber.Err? ==> res == (s, false)
    // An unchanged block: no fetch, no write, the map as it was, and the next cycle scheduled.
    ensures io.blockNumber.Ok? && !IsNewBlock(s.lastBlockNumber, chainId, io.blockNumber.value) ==>
              res == (s.(scheduled := s.scheduled + [FetchLoop(chainId)]), true)
    // The next cycle is scheduled exactly when this one completes.
    ensures res.0.scheduled == if res.1 then s.scheduled + [FetchLoop(chainId)] else s.scheduled
    // Other chains' entries never change.
    ensures forall c :: c != chainId ==>
              (c in res.0.lastBlockNumber <==> c in s.lastBlockNumber) &&
              (c in s.lastBlockNumber ==> res.0.lastBlockNumber[c] == s.lastBlockNumber[c])
    // The block is recorded only once every write is done.
    ensures !res.1 ==> res.0.lastBlockNumber == s.lastBlockNumber
    ensures res.1 ==>
              chainId in res.0.lastBlockNumber && io.blockNumber.Ok? &&
              res.0.lastBlockNumber[chainId] == io.blockNumber.value
    // A new block writes the whole fetched set, without diffing.
    ensures res.0.poolStore != s.poolStore ==>
              io.fetched.Ok? && res.0.poolStore == UpsertPools(s.poolStore, io.fetched.value)
    ensures res.1 && io.blockNumber.Ok? && IsNewBlock(s.lastBlockNumber, chainId, io.blockNumber.value) ==>
              io.fetched.Ok? && res.0.poolStore == UpsertPools(s.poolStore, io.fetched.value)
    // Only tokens not already known are written.
    ensures forall k :: k in s.tokenStore ==> k in res.0.tokenStore && res.0.tokenStore[k] == s.tokenStore[k]
    ensures forall k :: k in res.0.tokenStore && k !in s.tokenStore ==>
              io.fetched.Ok? && k.1 == chainId &&
              exists i :: 0 <= i < |io.fetched.value| && k.0 in io.fetched.value[i].tokensList
    // On a new block, the cycle completes exactly when both writes succeed.
    ensures io.blockNumber.Ok? && IsNewBlock(s.lastBlockNumber, chainId, io.blockNumber.value) && io.fetched.Ok? ==>
              (res.1 <==> io.poolsWritten && io.tokensWritten)
    // A failed pool write ends the cycle with nothing changed.
    ensures (io.blockNumber.Ok? && IsNewBlock(s.lastBlockNumber, chainId, io.blockNumber.value) && io.fetched.Ok? &&
             !io.poolsWritten) ==>
              res == (s, false)
    // A successful pool write stays, even when the token step then fails.
    ensures (io.blockNumber.Ok? && IsNewBlock(s.lastBlockNumber, chainId, io.blockNumber.value) && io.fetched.Ok? &&
             io.poolsWritten) ==>
              res.0.poolStore == UpsertPools(s.poolStore, io.fetched.value)
    // A failed token step writes no token.
    ensures !io.tokensWritten ==> res.0.tokenStore == s.tokenStore
    // A completed new-block cycle stores every token of the fetched pools that was unknown.
    ensures res.1 && io.blockNumber.Ok? && IsNewBlock(s.lastBlockNumber, chainId, io.blockNumber.value) ==>
              io.fetched.Ok? &&
              forall a :: a in Flatten(io.fetched.value) && (a, chainId) !in s.tokenStore ==>
                (a, chainId) in res.0.tokenStore && res.0.tokenStore[(a, chainId)] == io.resolve(a)
  {
    if io.blockNumber.Err? then (s, false)
    else if !IsNewBlock(s.lastBlockNumber, chainId, io.blockNumber.value) then
      (s.(scheduled := s.scheduled + [FetchLoop(chainId)]), true)
    else if io.fetched.Err? || !io.poolsWritten then (s, false)
    else
      var pools := io.fetched.value;
      var written := s.(poolStore := UpsertPools(s.poolStore, pools));
      if !io.tokensWritten then (written, false)
      else
        var addresses := Dedup(Flatten(pools));
        var unknown := UnknownTokens(s.tokenStore, chainId, addresses);
        DedupProperties(Flatten(pools));
        InFlattenAll(pools);
        (written.(tokenStore := SaveTokens(s.tokenStore, chainId, unknown, io.resolve),
                  lastBlockNumber := s.lastBlockNumber[chainId := io.blockNumber.value],
                  scheduled := s.scheduled + [FetchLoop(chainId)]), true)
  }

  /** The invocations `doWork` issues for the given chains, in order: each
      chain's fetch loop, and its decorate loop unless it is Kovan. */
  function StartupTasks(chains: seq<int>): seq<Task>
  {
    if chains == [] then []
    else
      var last := chains[|chains| - 1];
      StartupTasks(chains[..|chains| - 1]) + [FetchLoop(last)] + (if last != Kovan then [DecorateLoop(last)] else [])
  }

  /** Every chain gets a fetch loop, every chain but Kovan a decorate loop,
      and nothing else is started per chain. */
  lemma {:induction false} StartupTasksCoverChains(chains: seq<int>)
    ensures forall c :: FetchLoop(c) in StartupTasks(chains) <==> c in chains
    ensures forall c :: DecorateLoop(c) in StartupTasks(chains) <==> c in chains && c != Kovan
    ensures PricesLoop !in StartupTasks(chains)
  {
    if chains != [] {
      var init := chains[..|chains| - 1];
      StartupTasksCoverChains(init);
      assert chains == init + [chains[|chains| - 1]];
    }
  }

  class WorkerProcess {
    var lastBlockNumber: map<int, int>
    var poolStore: map<PoolKey, PoolRecord>
    var tokenStore: map<TokenKey, Token>
    var scheduled: seq<Task>
    var exited: bool

    function State(): WorkerState
      reads this
    {
      WorkerState(lastBlockNumber, poolStore, tokenStore, scheduled)
    }

    constructor (poolStore: map<PoolKey, PoolRecord>, tokenStore: map<TokenKey, Token>)
      ensures State() == WorkerState(map[], poolStore, tokenStore, []) && !exited
    {
      lastBlockNumber := map[];
      this.poolStore := poolStore;
      this.tokenStore := tokenStore;
      scheduled := [];
      exited := false;
    }

    /** `doWork`: stop if the store is not alive; otherwise, per network,
        zero its block number and start its loops, then the price loop. */
    method DoWork(storeAlive: bool)
      modifies this
      ensures !storeAlive ==> exited && State() == old(State())
      ensures storeAlive ==> exited == old(exited)
      ensures storeAlive ==> forall c :: c in Networks ==> c in lastBlockNumber && lastBlockNumber[c] == 0
      ensures storeAlive ==> forall c :: c !in Networks ==>
                (c in lastBlockNumber <==> c in old(lastBlockNumber)) &&
                (c in lastBlockNumber ==> lastBlockNumber[c] == old(lastBlockNumber)[c])
      ensures storeAlive ==> scheduled == old(scheduled) + StartupTasks(Networks) + [PricesLoop]
      ensures poolStore == old(poolStore) && tokenStore == old(tokenStore)
    {
      if !storeAlive {
        exited := true;
        return;
      }
      var i := 0;
      while i < |Networks|
        invariant 0 <= i <= |Networks|
        invariant forall c :: c in Networks[..i] ==> c in lastBlockNumber && lastBlockNumber[c] == 0
        invariant forall c :: c !in Networks[..i] ==>
                    (c in lastBlockNumber <==> c in old(lastBlockNumber)) &&
                    (c in lastBlockNumber ==> lastBlockNumber[c] == old(lastBlockNumber)[c])
        invariant scheduled == old(scheduled) + StartupTasks(Networks[..i])
        invariant poolStore == old(poolStore) && tokenStore == old(tokenStore) && exited == old(exited)
      {
        var chainId := Networks[i];
        assert Networks[..i + 1][..i] == Networks[..i];
        lastBlockNumber := lastBlockNumber[chainId := 0];
        scheduled := scheduled + [FetchLoop(chainId)];
        if chainId != Kovan {
          scheduled := scheduled + [DecorateLoop(chainId)];
        }
        i := i + 1;
      }
      assert Networks[..|Networks|] == Networks;
      scheduled := scheduled + [PricesLoop];
    }

    /** `fetchAndSavePools(chainId)`, one cycle. */
    method FetchAndSavePools(chainId: int, io: CycleIo) returns (completed: bool)
      modifies this
      ensures (State(), completed) == FetchCycle(old(State()), chainId, io)
      ensures exited == old(exited)
    {
      if io.blockNumber.Err? {
        return false;
      }
      var currentBlockNo := io.blockNumber.value;
      if chainId !in lastBlockNumber || lastBlockNumber[chainId] != currentBlockNo {
        if io.fetched.Err? || !io.poolsWritten {
          return false;
        }
        var pools := io.fetched.value;
        poolStore := UpsertPools(poolStore, pools);
        var tokenAddresses := GetTokenAddressesFromPools(pools);
        if !io.tokensWritten {
          return false;
        }
        var filteredTokenAddresses := UnknownTokens(tokenStore, chainId, tokenAddresses);
        tokenStore := SaveTokens(tokenStore, chainId, filteredTokenAddresses, io.resolve);
        lastBlockNumber := lastBlockNumber[chainId := currentBlockNo];
      }
      scheduled := scheduled + [FetchLoop(chainId)];
      completed := true;
    }

    /** `decorateAndSavePools(chainId)`, one cycle: the stored pools are
        decorated as fresh objects, and the result is not written back.
        `tokensRead` and `stored` are the results of the two store reads;
        a rejected read ends the cycle before the next one is scheduled. */
    method DecorateAndSavePools(chainId: int, tokensRead: bool, stored: Outcome<seq<PoolRecord>>, sdk: Sdk,
                                canConstruct: PoolRecord -> bool, now: int) returns (completed: bool)
      modifies this
      ensures completed <==> tokensRead && stored.Ok?
      ensures State() == if completed then old(State()).(scheduled := old(scheduled) + [DecorateLoop(chainId)])
                         else old(State())
      ensures exited == old(exited)
    {
      if !tokensRead || stored.Err? {
        return false;
      }
      var storedPools := stored.value;
      var pools: seq<Pool> := [];
      var i := 0;
      while i < |storedPools|
        invariant 0 <= i <= |storedPools|
        invariant |pools| == i
        invariant forall k :: 0 <= k < i ==> fresh(pools[k])
        invariant forall a, b :: 0 <= a < b < i ==> pools[a] != pools[b]
        invariant State() == old(State()) && exited == old(exited)
      {
        var pool := new Pool(storedPools[i]);
        pools := pools + [pool];
        i := i + 1;
      }
      var poolDecorator := new PoolDecorator(pools, Mainnet);
      var _ := poolDecorator.Decorate(sdk, canConstruct, now);
      scheduled := scheduled + [DecorateLoop(chainId)];
      completed := true;
    }
  }
}
