// The exported actions over the flat store (main.go, blocklist.go). Each takes the
// represented state where the state machine says: a call that fails leaves no writes.

module Contract {
  import opened Wrappers
  import opened Int64
  import opened Bytes
  import opened Text
  import opened World
  import opened Accounts
  import opened State
  import opened Mapping
  import opened Blocklist
  import opened Machine
  import opened StateStore
  import opened Handlers
  import opened Deposits

  // ---------------------------------------------------------------- headers

  class HeaderChain {
    const store: StateStore

    constructor (store: StateStore)
      ensures this.store == store
    {
      this.store := store;
    }

    /** HandleAddBlocks: headers already written stay when a later one fails. */
    method HandleAddBlocks(w: Btc, rawHeaders: seq<RawHeader>)
      returns (lastHeight: Uint32, added: Uint32, err: Option<Error>)
      requires store.Valid()
      modifies store
      ensures store.Valid()
      ensures var r := Blocklist.HandleAddBlocks(w, old(store.view).headers, old(store.view).lastHeight, rawHeaders);
        && store.view == old(store.view).(headers := r.headers)
        && AddResult(r.headers, lastHeight, added, err) == r
    {
      ghost var v := store.view;
      var stored := store.LastHeightFromState();
      if stored.None? {
        return 0, 0, Some(ErrStateAccess);
      }
      lastHeight, added, err := stored.value, 0, None;
      var lastBlockHeader := store.GetHeader(lastHeight);
      if |lastBlockHeader| < HEADER_SIZE {
        return 0, 0, Some(ErrInput);
      }
      hide Represents;
      for i := 0 to |rawHeaders|
        invariant store.Valid() && store.view == v.(headers := store.view.headers)
        invariant |lastBlockHeader| >= HEADER_SIZE
        invariant Extend(w, v.headers, stored.value, v.headers[stored.value], rawHeaders)
               == Extend(w, store.view.headers, lastHeight, lastBlockHeader, rawHeaders[i..])
      {
        assert rawHeaders[i..][0] == rawHeaders[i] && rawHeaders[i..][1..] == rawHeaders[i + 1..];
        if lastHeight == MAX_UINT32 {
          return 0, 0, Some(ErrArithmetic);
        }
        var blockHeight: Uint32 := lastHeight + 1;
        if !w.passesPoW(rawHeaders[i]) {
          return 0, 0, Some(ErrInput);
        }
        if PrevBlock(rawHeaders[i]) != BlockHash(w, lastBlockHeader) {
          return 0, 0, Some(ErrSequence);
        }
        store.SetHeader(blockHeight, rawHeaders[i]);
        lastHeight := blockHeight;
        lastBlockHeader := rawHeaders[i];
      }
      assert rawHeaders[|rawHeaders|..] == [];
      var grown: int := lastHeight as int - stored.value as int;
      added := grown % 0x1_0000_0000;
    }

    method HandleSeedBlocks(blockHeader: string, blockHeight: Uint32, allowReseed: bool) returns (r: Result<Uint32>)
      requires store.Valid()
      modifies store
      ensures store.Valid()
      ensures match Blocklist.SeedBlocks(old(store.view), blockHeader, blockHeight, allowReseed)
        case Ok(s) => r == Ok(blockHeight) && store.view == s
        case Err(e) => r == Err(e) && store.view == old(store.view)
    {
      hide Represents, DecodeHex;
      var lastHeight := store.LastHeightFromState();
      if lastHeight.Some? && !allowReseed {
        return Err(ErrInitialization);
      }
      var last := if lastHeight.Some? then lastHeight.value else 0;
      if last == 0 || last < blockHeight {
        var headerBytes := DecodeHex(blockHeader);
        if headerBytes.None? {
          return Err(ErrInvalidHex);
        }
        store.SetHeader(blockHeight, headerBytes.value);
        store.LastHeightToState(blockHeight);
        return Ok(blockHeight);
      }
      r := Err(ErrInput);
    }
  }

  // ---------------------------------------------------------------- actions

  /** addBlocks */
  method AddBlocks(w: Btc, store: StateStore, blocksHex: string, latestFee: Int64) returns (err: Option<Error>)
    requires store.Valid() && Sane(w) && CountersInRange(store.view)
    modifies store
    ensures store.Valid() && store.view == Next(w, old(store.view), AddBlocksAction(blocksHex, latestFee))
    ensures err == Failure(Step(w, old(store.view), AddBlocksAction(blocksHex, latestFee)))
  {
    hide Represents, Sane, HeadersOfHex, Blocklist.HandleAddBlocks;
    var saved := store.data;
    ghost var v := store.view;
    var blockHeaders := DivideHeaderList(blocksHex);
    if blockHeaders.Err? {
      return Some(ErrInput);
    }
    var chain := new HeaderChain(store);
    var lastHeight, added;
    lastHeight, added, err := chain.HandleAddBlocks(w, blockHeaders.value);
    if err.Some? && err.value != ErrSequence {
      store.Rollback(saved, v);
      return;
    }
    store.LastHeightToState(lastHeight);
    var systemSupply := store.SupplyFromState();
    store.SaveSupplyToState(systemSupply.value.(baseFeeRate := latestFee));
    err := None;
  }

  /** seedBlocks */
  method SeedBlocks(w: Btc, store: StateStore, headerHex: string, height: Uint32, allowReseed: bool)
    returns (err: Option<Error>)
    requires store.Valid() && Sane(w) && CountersInRange(store.view)
    modifies store
    ensures store.Valid() && store.view == Next(w, old(store.view), SeedBlocksAction(headerHex, height, allowReseed))
    ensures err == Failure(Step(w, old(store.view), SeedBlocksAction(headerHex, height, allowReseed)))
  {
    hide Represents, Sane, Blocklist.SeedBlocks;
    var chain := new HeaderChain(store);
    var newLastHeight := chain.HandleSeedBlocks(headerHex, height, allowReseed);
    err := if newLastHeight.Err? then Some(newLastHeight.error) else None;
  }

  /** registerRouter */
  method RegisterRouter(w: Btc, store: StateStore, routerId: Bytes, testnet: bool)
    requires store.Valid() && Sane(w) && CountersInRange(store.view)
    modifies store
    ensures store.Valid() && store.view == Next(w, old(store.view), RegisterRouterAction(routerId, testnet))
  {
    hide Represents, Sane;
    if routerId != [] {
      var existing := store.GetRouter();
      if existing == [] || testnet {
        store.SetRouter(routerId);
      }
    }
  }

  /** map */
  method Map(w: Btc, store: StateStore, req: MapRequest) returns (err: Option<Error>)
    requires store.Valid() && Sane(w) && CountersInRange(store.view) && WellFormed(w, req)
    modifies store
    ensures store.Valid() && store.view == Next(w, old(store.view), MapAction(req))
    ensures err == Failure(Step(w, old(store.view), MapAction(req)))
  {
    hide Represents, Sane, MapTx, WellFormed;
    var saved := store.data;
    ghost var v := store.view;
    var contractState := ContractState.Load(store);
    if contractState.Err? {
      return Some(ErrStateAccess);
    }
    var mappingState := new MappingState(contractState.value, req.registry);
    err := mappingState.HandleMap(w, req);
    if err.Some? {
      store.Rollback(saved, v);
      return;
    }
    mappingState.cs.SaveToState();
  }

  /** unmap */
  method Unmap(w: Btc, store: StateStore, env: Env, p: TransferParams) returns (err: Option<Error>)
    requires store.Valid() && Sane(w) && CountersInRange(store.view) && |store.view.utxoList| < 0x1_0000_0000
    modifies store
    ensures store.Valid() && store.view == Next(w, old(store.view), UnmapAction(env, p))
    ensures err == Failure(Step(w, old(store.view), UnmapAction(env, p)))
  {
    hide Represents, Sane, Unmapping.Unmap;
    var saved := store.data;
    ghost var v := store.view;
    if |p.to| < 26 {
      return Some(ErrInput);
    }
    var contractState := ContractState.Load(store);
    if contractState.Err? {
      return Some(ErrStateAccess);
    }
    err := contractState.value.HandleUnmap(w, env, p);
    if err.Some? {
      store.Rollback(saved, v);
      return;
    }
    contractState.value.SaveToState();
  }

  /** transfer and transferFrom, which differ in name only */
  method Transfer(w: Btc, store: StateStore, env: Env, p: TransferParams) returns (err: Option<Error>)
    requires store.Valid() && Sane(w) && CountersInRange(store.view)
    modifies store
    ensures store.Valid() && store.view == Next(w, old(store.view), TransferAction(env, p))
    ensures err == Failure(Step(w, old(store.view), TransferAction(env, p)))
  {
    hide Represents, Sane, Accounts.Transfer;
    var saved := store.data;
    ghost var v := store.view;
    err := HandleTransfer(w, store, env, p);
    if err.Some? {
      store.Rollback(saved, v);
    }
  }

  function Failure(r: Result<State>): Option<Error> {
    if r.Err? then Some(r.error) else None
  }
}
