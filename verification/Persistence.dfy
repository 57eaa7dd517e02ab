/** What was written stays until its own entry changes again, through every other change of the ledger. */
module Persistence {
  import opened Options
  import opened Keys
  import opened Slices
  import opened Reserves
  import opened Reflector
  import opened Mirror
  import opened Carry
  import opened Reference
  import opened Confinement
  import opened Writes

  // ---- other changes leave it alone ------------------------------------------------------------

  predicate IsInstance(c: Change) { c.payload.Decoded? && c.payload.value.InstanceValue? }

  predicate SamePrice(x: Oracle, y: Oracle, i: int) {
    (i in x.priceByIndex <==> i in y.priceByIndex) && (i in x.priceByIndex && i in y.priceByIndex ==>
                                                        x.priceByIndex[i] == y.priceByIndex[i])
  }

  /** An oracle keeps every price but the one at the key's index, and without an instance its listing. */
  ghost predicate OracleKept(x: Oracle, y: Oracle, key: EntryKey, instance: bool) {
    && (forall i :: !(key.U128Key? && key.hi == 0 && key.lo == i) ==> SamePrice(x, y, i))
    && (!instance ==> OracleSays(y, OracleInstance(x.decimals, x.assetToIndex, Some(x.baseKey), Some(x.resolution), Some(x.admin))))
  }

  predicate InstanceKept(x: BackstopInstance, y: BackstopInstance, key: EntryKey) {
    && y.token == x.token && y.blnd == x.blnd && y.usdc == x.usdc && y.emitter == x.emitter && y.factory == x.factory
    && (key != Symbol(RewardZone) ==> y.rewardZone == x.rewardZone) && (key != Symbol(DropList) ==> y.dropList == x.dropList)
  }

  predicate InfoKept(x: PoolInfo, y: PoolInfo, key: EntryKey) {
    && y.oracle == x.oracle && y.status == x.status && y.fields == x.fields && y.wasmHash == x.wasmHash
    && (key != Symbol(Backstop) ==> y.backstop == x.backstop) && (key != Symbol(PoolEmis) ==> y.emissions == x.emissions)
  }

  /** The change may drop or rewrite the contract's own record. */
  predicate Rewrites(key: EntryKey, instance: bool) { instance || key == InstanceEntry }

  predicate DropsPool(key: EntryKey) { key == Symbol(Config) || key == Symbol(ResList) }

  /** What a change keeps of its own contract's records. */
  ghost predicate OwnKept(b: Mirror, d: Mirror, id: string, key: EntryKey, instance: bool) {
    var k := Contract(id);
    && (k in b.oracles ==> k in d.oracles && OracleKept(b.oracles[k], d.oracles[k], key, instance))
    && (k in b.aggregators && !Rewrites(key, instance) ==> At(d.aggregators, k, b.aggregators[k]))
    && (k in b.instances && !Rewrites(key, instance) ==> k in d.instances && InstanceKept(b.instances[k], d.instances[k], key))
    && (k in b.pools && !Rewrites(key, instance) && !DropsPool(key) ==>
          k in d.pools && InfoKept(b.pools[k].info, d.pools[k].info, key))
  }

  lemma RecordsKept(b: Mirror, d: Mirror, id: string, key: EntryKey, instance: bool)
    requires d.oracles == b.oracles && d.aggregators == b.aggregators && d.instances == b.instances && d.pools == b.pools
    ensures OwnKept(b, d, id, key, instance)
  {
  }

  lemma PoolKept(b: Mirror, id: string, p: Pool, key: EntryKey, instance: bool)
    requires Rewrites(key, instance) || DropsPool(key) ||
             (Contract(id) in b.pools ==> InfoKept(b.pools[Contract(id)].info, p.info, key))
    ensures OwnKept(b, PutPool(b, id, p), id, key, instance)
  {
  }

  lemma PoolDropKept(b: Mirror, id: string, key: EntryKey, instance: bool)
    requires DropsPool(key)
    ensures OwnKept(b, b.(pools := b.pools - {Contract(id)}), id, key, instance)
  {
    RecordsKept(b, b, id, key, instance);
    hide OracleKept;
  }

  lemma InstancePutKept(b: Mirror, id: string, i: BackstopInstance, key: EntryKey, instance: bool)
    requires Rewrites(key, instance) || (Contract(id) in b.instances ==> InstanceKept(b.instances[Contract(id)], i, key))
    ensures OwnKept(b, PutInstance(b, id, i), id, key, instance)
  {
  }

  lemma OraclePutKept(b: Mirror, id: string, o: Oracle, priced: set<string>, key: EntryKey, instance: bool)
    requires Contract(id) in b.oracles ==> OracleKept(b.oracles[Contract(id)], o, key, instance)
    ensures OwnKept(b, PutOracle(b, id, o), id, key, instance)
    ensures OwnKept(b, PutOracle(b, id, o).(changedPriceAssets := priced), id, key, instance)
  {
    hide OracleKept;
  }

  lemma StampKept(o: Oracle, stamp: Option<int>, key: EntryKey, instance: bool)
    ensures OracleKept(o, o.(lastTimestamp := stamp), key, instance)
  {
  }

  lemma PoolSymbolKept(p: Pool, name: SymbolName, v: Value)
    ensures !DropsPool(Symbol(name)) ==> InfoKept(p.info, PoolSymbol(p, name, v).info, Symbol(name))
  {
    hide ListReserves, WithConfig;
  }

  lemma SymbolKept(b: Mirror, id: string, name: SymbolName, v: Value, instance: bool)
    ensures OwnKept(b, ApplySymbol(b, id, name, v), id, Symbol(name), instance)
  {
    hide OwnKept, InfoKept, OracleKept, PutPool, PutInstance, PutOracle, PoolSymbol;
    RecordsKept(b, b, id, Symbol(name), instance);
    if name == RewardZone {
      if v.AddressListValue? {
        InstancePutKept(b, id, EnsureInstance(b, id).(rewardZone := v.addresses), Symbol(name), instance);
      }
    } else if name == DropList {
      if v.DropListValue? {
        InstancePutKept(b, id, EnsureInstance(b, id).(dropList := v.entries), Symbol(name), instance);
      }
    } else if name == Timestamp {
      if Contract(id) in b.oracles && v.IntValue? {
        StampKept(b.oracles[Contract(id)], Some(v.n), Symbol(name), instance);
        OraclePutKept(b, id, b.oracles[Contract(id)].(lastTimestamp := Some(v.n)), {}, Symbol(name), instance);
      }
    } else {
      PoolSymbolKept(EnsurePool(b, id), name, v);
      PoolKept(b, id, PoolSymbol(EnsurePool(b, id), name, v), Symbol(name), instance);
    }
  }

  lemma DroppedSymbolKept(b: Mirror, id: string, name: SymbolName, instance: bool)
    ensures OwnKept(b, DeleteSymbol(b, id, name), id, Symbol(name), instance)
  {
    hide OwnKept, OracleKept, PutPool, PutInstance, PutOracle;
    var k, key := Contract(id), Symbol(name);
    RecordsKept(b, b, id, key, instance);
    if name == Config || name == ResList {
      PoolDropKept(b, id, key, instance);
    } else if name == Backstop && k in b.pools {
      PoolKept(b, id, b.pools[k].(info := b.pools[k].info.(backstop := "")), key, instance);
    } else if name == PoolEmis && k in b.pools {
      PoolKept(b, id, b.pools[k].(info := b.pools[k].info.(emissions := None)), key, instance);
    } else if name == RewardZone && k in b.instances {
      InstancePutKept(b, id, b.instances[k].(rewardZone := []), key, instance);
    } else if name == DropList && k in b.instances {
      InstancePutKept(b, id, b.instances[k].(dropList := []), key, instance);
    } else if name == Timestamp && k in b.oracles {
      StampKept(b.oracles[k], None, key, instance);
      OraclePutKept(b, id, b.oracles[k].(lastTimestamp := None), {}, key, instance);
    }
  }

  lemma PutReserveInfo(p: Pool, asset: string, r: Reserve)
    ensures PutReserve(p, asset, r).info == p.info && DropReserve(p, asset).info == p.info
  {
    hide Published, Ambiguous, Unknown, ReserveSlice;
  }

  lemma ReserveChangesKept(b: Mirror, c: Change, asset: string, isConfig: bool, v: Value, seqNum: int, key: EntryKey, instance: bool)
    ensures OwnKept(b, ApplyReserve(b, c.contract, asset, isConfig, v), c.contract, key, instance)
    ensures OwnKept(b, DeleteReserve(b, c, asset, isConfig, seqNum), c.contract, key, instance)
  {
    hide OwnKept, PutPool, PutReserve, DropReserve, EnsureReserve, ReserveWith;
    var id := c.contract;
    RecordsKept(b, b, id, key, instance);
    var p := EnsurePool(b, id);
    var r := ReserveWith(EnsureReserve(p, asset), isConfig, v).(archived := false, archivedSeq := 0);
    PutReserveInfo(p, asset, r);
    PoolKept(b, id, PutReserve(p, asset, r), key, instance);
    if c.removed {
      PoolKept(b, id, DropReserve(p, asset), key, instance);
    } else {
      ArchivedInfo(p, c.payload, asset, isConfig, seqNum);
      PoolKept(b, id, ArchiveReserve(p, c.payload, asset, isConfig, seqNum), key, instance);
    }
  }

  lemma ArchivedInfo(p: Pool, payload: Payload, asset: string, isConfig: bool, seqNum: int)
    ensures ArchiveReserve(p, payload, asset, isConfig, seqNum).info == p.info
  {
    hide Published, Ambiguous, Unknown, ReserveSlice, EnsureReserve, ReserveWith;
  }

  lemma EmissionWriteKept(b: Mirror, id: string, token: nat, isConfig: bool, v: Value, key: EntryKey, instance: bool)
    ensures OwnKept(b, ApplyEmission(b, id, token, isConfig, v), id, key, instance)
  {
    hide OwnKept, PutPool, PutReserve, EnsureReserve, EmissionFields, EmissionTarget;
    var p := EnsurePool(b, id);
    PoolKept(b, id, p, key, instance);
    var target := EmissionTarget(p, token);
    if target.Some? {
      var r := EnsureReserve(p, target.value);
      var written := r.(fields := r.fields + EmissionFields(token % 2, v, isConfig));
      PutReserveInfo(p, target.value, written);
      PoolKept(b, id, PutReserve(p, target.value, written), key, instance);
    }
  }

  lemma EmissionDropKept(b: Mirror, id: string, token: nat, isConfig: bool, key: EntryKey, instance: bool)
    ensures OwnKept(b, DeleteEmission(b, id, token, isConfig), id, key, instance)
  {
    hide OwnKept, PutPool, PutReserve, ClearedEmission, EmissionTarget;
    RecordsKept(b, b, id, key, instance);
    if Contract(id) in b.pools {
      var p := b.pools[Contract(id)];
      var target := EmissionTarget(p, token);
      if target.Some? && Contract(target.value) in p.reserves {
        var r := p.reserves[Contract(target.value)];
        var cleared := r.(fields := r.fields - ClearedEmission(token % 2, isConfig));
        PutReserveInfo(p, target.value, cleared);
        PoolKept(b, id, PutReserve(p, target.value, cleared), key, instance);
      }
    }
  }

  /** The mirrors differ in no contract's own record. */
  predicate SameRecords(b: Mirror, d: Mirror) {
    d.oracles == b.oracles && d.aggregators == b.aggregators && d.instances == b.instances && d.pools == b.pools
  }

  lemma HoldersRecords(b: Mirror, k: Key, u: UserBalance)
    ensures SameRecords(b, PutUser(b, u)) && SameRecords(b, SetUser(b, k, u)) && SameRecords(b, DropUser(b, k))
    ensures SameRecords(b, b)
  {
  }

  lemma HolderRecords(b: Mirror, poolId: string, user: string, v: Value)
    ensures SameRecords(b, ApplyUserBalance(b, poolId, user, v)) && SameRecords(b, DeleteUserBalance(b, poolId, user))
    ensures SameRecords(b, DeleteUserEmission(b, poolId, user))
  {
    hide EnsureUser, PutUser, SetUser, DropUser, SameRecords;
    var k, e := Pair(user, poolId), EnsureUser(b, poolId, user);
    var shares, q4w := if v.UserSharesValue? then v.userShares else "", if v.UserSharesValue? then v.q4w else [];
    HoldersRecords(b, k, UserBalance(user, poolId, shares, q4w, e.emisIndex, e.emisAccrued));
    HoldersRecords(b, k, e.(shares := "", q4w := []));
    if k in b.backstopUsers { HoldersRecords(b, k, b.backstopUsers[k].(emisIndex := "", emisAccrued := "")); }
  }

  lemma PendingRecords(b: Mirror, m: map<Key, Pending>, dirty: set<Key>)
    ensures SameRecords(b, b.(pending := m, dirtyUsers := dirty)) && SameRecords(b, b.(dirtyUsers := dirty).(pending := m))
    ensures SameRecords(b, b.(dirtyUsers := dirty))
  {
  }

  lemma PositionRecords(b: Mirror, c: Change, user: string, v: Value, seqNum: int)
    ensures SameRecords(b, ApplyPositions(b, c.contract, user, v)) && SameRecords(b, DeletePositions(b, c, user, seqNum))
  {
    hide ArchivedBlob, PositionsIn, SameRecords;
    forall m, dirty { PendingRecords(b, m, dirty); }
  }

  lemma BackstopRecords(b: Mirror, balances: map<Key, Balance>, emissions: map<Key, Emis>, poolId: string)
    ensures SameRecords(b, MarkPool(b.(backstopPools := balances), poolId)) && SameRecords(b, b.(backstopEmis := emissions))
  {
    hide Holders;
  }

  lemma TemporaryRecords(b: Mirror, auctions: map<Key, Auction>, queued: map<Key, QueuedReserve>,
                         emissions: map<Key, UserEmission>, dirty: set<Key>)
    ensures SameRecords(b, b.(auctions := auctions, dirtyTemporary := dirty))
    ensures SameRecords(b, b.(queued := queued, dirtyTemporary := dirty)) && SameRecords(b, b.(userEmis := emissions))
  {
  }

  predicate ReserveKeyed(key: EntryKey) { key.ResConfigKey? || key.ResDataKey? || key.EmisConfigKey? || key.EmisDataKey? }

  lemma BackstopEntryRecords(b: Mirror, c: Change, key: EntryKey, v: Value, seqNum: int)
    requires key.PoolBalanceKey? || key.UserBalanceEntry? || key.BEmisDataKey? || key.UEmisDataKey?
    ensures SameRecords(b, ApplyEntry(b, c.contract, key, v)) && SameRecords(b, DeleteEntry(b, c, key, seqNum))
  {
    hide SameRecords, EnsureUser, PutUser, MarkPool, BalanceIn, ApplyUserBalance, DeleteUserBalance, DeleteUserEmission;
    SameRecordsItself(b);
    match key
    case PoolBalanceKey(poolId) =>
      BackstopRecords(b, b.backstopPools[Contract(poolId) := BalanceIn(v)], map[], poolId);
      BackstopRecords(b, b.backstopPools - {Contract(poolId)}, map[], poolId);
    case BEmisDataKey(poolId) =>
      BackstopRecords(b, map[], b.backstopEmis - {Contract(poolId)}, poolId);
      if v.BackstopEmisValue? { BackstopRecords(b, map[], b.backstopEmis[Contract(poolId) := v.emis], poolId); }
    case UserBalanceEntry(poolId, user) => HolderRecords(b, poolId, user, v);
    case UEmisDataKey(poolId, user) =>
      HolderRecords(b, poolId, user, v);
      if v.UserEmisValue? {
        HoldersRecords(b, Pair(user, poolId), EnsureUser(b, poolId, user).(user := user, pool := poolId,
                                                                           emisIndex := v.userIndex, emisAccrued := v.accrued));
      }
  }

  lemma SameRecordsItself(b: Mirror)
    ensures SameRecords(b, b)
  {
  }

  lemma TemporaryEntryRecords(b: Mirror, c: Change, key: EntryKey, v: Value, seqNum: int)
    requires key.AuctionEntry? || key.UserEmisKey? || key.ResInitKey?
    ensures SameRecords(b, ApplyEntry(b, c.contract, key, v)) && SameRecords(b, DeleteEntry(b, c, key, seqNum))
  {
    hide SameRecords;
    SameRecordsItself(b);
    var id := c.contract;
    match key
    case AuctionEntry(user, t) =>
      var k, dirty := AuctionOf(id, user, t), b.dirtyTemporary + {TemporaryAuction(id, user, t)};
      TemporaryRecords(b, b.auctions - {k}, map[], map[], dirty);
      if v.AuctionValue? {
        TemporaryRecords(b, b.auctions[k := Auction(id, user, t, v.block, v.lot, v.bid)], map[], map[], dirty);
      }
    case UserEmisKey(user, token) =>
      var k := EmissionOf(user, id, token);
      TemporaryRecords(b, map[], map[], b.userEmis - {k}, {});
      if v.UserEmisValue? {
        TemporaryRecords(b, map[], map[], b.userEmis[k := UserEmission(user, id, token, v.userIndex, v.accrued)], {});
      }
    case ResInitKey(asset) =>
      var k, dirty := ReserveOf(id, asset), b.dirtyTemporary + {TemporaryQueued(id, asset)};
      TemporaryRecords(b, map[], b.queued - {k}, map[], dirty);
      if v.QueuedValue? {
        TemporaryRecords(b, map[], b.queued[k := QueuedReserve(id, asset, v.unlockTime, v.newConfig)], map[], dirty);
      }
  }

  lemma EntryRecords(b: Mirror, c: Change, key: EntryKey, v: Value, seqNum: int)
    requires !ReserveKeyed(key)
    ensures SameRecords(b, ApplyEntry(b, c.contract, key, v)) && SameRecords(b, DeleteEntry(b, c, key, seqNum))
  {
    hide SameRecords;
    SameRecordsItself(b);
    if key.PositionsKey? {
      hide ApplyPositions, DeletePositions;
      PositionRecords(b, c, key.user, v, seqNum);
    } else if key.AuctionEntry? || key.UserEmisKey? || key.ResInitKey? {
      hide ApplyEntry, DeleteEntry;
      TemporaryEntryRecords(b, c, key, v, seqNum);
    } else if key.PoolBalanceKey? || key.UserBalanceEntry? || key.BEmisDataKey? || key.UEmisDataKey? {
      hide ApplyEntry, DeleteEntry;
      BackstopEntryRecords(b, c, key, v, seqNum);
    }
  }

  lemma EntryKept(b: Mirror, c: Change, key: EntryKey, v: Value, seqNum: int, instance: bool)
    ensures OwnKept(b, ApplyEntry(b, c.contract, key, v), c.contract, key, instance)
    ensures OwnKept(b, DeleteEntry(b, c, key, seqNum), c.contract, key, instance)
  {
    hide OwnKept, ApplyReserve, DeleteReserve, ApplyEmission, DeleteEmission;
    match key
    case ResConfigKey(asset) => ReserveChangesKept(b, c, asset, true, v, seqNum, key, instance);
    case ResDataKey(asset) => ReserveChangesKept(b, c, asset, false, v, seqNum, key, instance);
    case EmisConfigKey(token) =>
      EmissionWriteKept(b, c.contract, token, true, v, key, instance);
      EmissionDropKept(b, c.contract, token, true, key, instance);
    case EmisDataKey(token) =>
      EmissionWriteKept(b, c.contract, token, false, v, key, instance);
      EmissionDropKept(b, c.contract, token, false, key, instance);
    case _ =>
      hide ApplyEntry, DeleteEntry;
      EntryRecords(b, c, key, v, seqNum);
      RecordsKept(b, ApplyEntry(b, c.contract, key, v), c.contract, key, instance);
      RecordsKept(b, DeleteEntry(b, c, key, seqNum), c.contract, key, instance);
  }

  lemma PriceChangeKept(o: Oracle, key: EntryKey, n: int, instance: bool)
    requires key.U128Key? && OracleIndex(key.hi, key.lo).Some?
    ensures var i := OracleIndex(key.hi, key.lo).value;
      && OracleKept(o, o.(priceByIndex := o.priceByIndex[i := n]), key, instance)
      && OracleKept(o, o.(priceByIndex := o.priceByIndex - {i}), key, instance)
  {
  }

  lemma OracleChangeKept(b: Mirror, id: string, key: EntryKey, v: Value)
    ensures ApplyOracle(b, id, key, v).Some? ==> OwnKept(b, ApplyOracle(b, id, key, v).value, id, key, v.InstanceValue?)
  {
    hide OwnKept, OracleKept, PutOracle, OracleIndex, AssetsAt;
    RecordsKept(b, b, id, key, v.InstanceValue?);
    var o := EnsureOracle(b, id);
    if v.InstanceValue? && v.oracle.Some? {
      ListingKept(o, v.oracle.value, key);
      OraclePutKept(b, id, WithOracleInstance(o, v.oracle.value), {}, key, true);
    } else if v.InstanceValue? && v.aggregator.Some? {
      AggregatorPutKept(b, id, AggregatorState(id, v.aggregator.value), key);
    } else if key.U128Key? && OracleIndex(key.hi, key.lo).Some? && v.IntValue? {
      var i := OracleIndex(key.hi, key.lo).value;
      PriceChangeKept(o, key, v.n, false);
      OraclePutKept(b, id, o.(priceByIndex := o.priceByIndex[i := v.n]), b.changedPriceAssets + AssetsAt(o, i), key, false);
    }
  }

  lemma ListingKept(o: Oracle, x: OracleInstance, key: EntryKey)
    ensures OracleKept(o, WithOracleInstance(o, x), key, true)
  {
  }

  lemma AggregatorPutKept(b: Mirror, id: string, a: AggregatorState, key: EntryKey)
    ensures OwnKept(b, b.(aggregators := b.aggregators[Contract(id) := a]), id, key, true)
  {
    RecordsKept(b, b, id, key, true);
    hide OracleKept;
  }

  lemma InstanceChangeKept(b: Mirror, id: string, key: EntryKey, v: Value)
    ensures ApplyInstance(b, id, v).Some? ==> OwnKept(b, ApplyInstance(b, id, v).value, id, key, true)
  {
    hide OwnKept, PutInstance, PutPool, EnsureInstance, EnsurePool, WithAddresses, WithInstance;
    forall p { PoolKept(b, id, p, key, true); }
    forall i { InstancePutKept(b, id, i, key, true); }
  }

  lemma ContractKept(b: Mirror, c: Change, key: EntryKey, v: Value, seqNum: int)
    ensures OwnKept(b, ApplyContract(b, c.contract, key, v), c.contract, key, v.InstanceValue?)
  {
    hide OwnKept, ApplySymbol, ApplyEntry;
    InstanceChangeKept(b, c.contract, key, v);
    if key.Symbol? { SymbolKept(b, c.contract, key.name, v, v.InstanceValue?); }
    EntryKept(b, c, key, v, seqNum, v.InstanceValue?);
  }

  lemma AssetRecords(b: Mirror, assets: map<Key, Asset>)
    ensures SameRecords(b, b.(assets := assets)) && SameRecords(b, b)
  {
  }

  lemma FeedRecords(b: Mirror, id: string, op: FeedOp)
    ensures SameRecords(b, ChangeFeed(b, id, op))
  {
    hide ApplyFeed;
  }

  lemma TokenKept(cfg: Owned, b: Mirror, c: Change, key: EntryKey, v: Value, seqNum: int)
    ensures OwnKept(b, ApplyToken(cfg, b, c.contract, key, v), c.contract, key, v.InstanceValue?)
  {
    hide OwnKept, ApplyContract;
    ContractKept(b, c, key, v, seqNum);
    RecordsKept(b, b, c.contract, key, v.InstanceValue?);
    if v.InstanceValue? && v.asset.Some? {
      var assets := b.assets[Contract(c.contract) := v.asset.value.(contract := c.contract)];
      AssetRecords(b, assets);
      RecordsKept(b, b.(assets := assets), c.contract, key, true);
    }
  }

  lemma LiveKept(cfg: Owned, b: Mirror, c: Change, key: EntryKey, v: Value, seqNum: int)
    ensures OwnKept(b, ApplyLive(cfg, b, c.contract, key, v), c.contract, key, v.InstanceValue?)
  {
    hide OwnKept, ApplyOracle, ApplyToken, ChangeFeed, FeedWrite;
    OracleChangeKept(b, c.contract, key, v);
    TokenKept(cfg, b, c, key, v, seqNum);
    FeedRecords(b, c.contract, FeedWrite(key, v));
    RecordsKept(b, ChangeFeed(b, c.contract, FeedWrite(key, v)), c.contract, key, v.InstanceValue?);
  }

  lemma InstanceDropKept(b: Mirror, id: string, instance: bool)
    ensures OwnKept(b, b.(aggregators := b.aggregators - {Contract(id)}, instances := b.instances - {Contract(id)}), id,
                    InstanceEntry, instance)
  {
    RecordsKept(b, b, id, InstanceEntry, instance);
    hide OracleKept;
  }

  lemma DropKept(cfg: Owned, b: Mirror, c: Change, key: EntryKey, seqNum: int, instance: bool)
    ensures OwnKept(b, ApplyDelete(cfg, b, c, key, seqNum), c.contract, key, instance)
  {
    hide OwnKept, OracleKept, PutOracle, OracleIndex, AssetsAt, ChangeFeed, FeedDelete, DeleteSymbol, DeleteEntry, SameRecords;
    var id, k := c.contract, Contract(c.contract);
    RecordsKept(b, b, id, key, instance);
    if id in cfg.feeds {
      FeedRecords(b, id, FeedDelete(key));
      SameKept(b, ChangeFeed(b, id, FeedDelete(key)), id, key, instance);
    } else if id in cfg.assets {
      AssetRecords(b, b.assets - {k});
      SameKept(b, b.(assets := b.assets - {k}), id, key, instance);
    } else if id in cfg.contracts && key.U128Key? {
      var i := OracleIndex(key.hi, key.lo);
      if i.Some? && k in b.oracles {
        var o := b.oracles[k];
        PriceChangeKept(o, key, 0, instance);
        OraclePutKept(b, id, o.(priceByIndex := o.priceByIndex - {i.value}), b.changedPriceAssets + AssetsAt(o, i.value), key,
                      instance);
      }
    } else if key == InstanceEntry {
      InstanceDropKept(b, id, instance);
    } else if key.Symbol? {
      DroppedSymbolKept(b, id, key.name, instance);
    } else {
      EntryKept(b, c, key, OtherValue, seqNum, instance);
    }
  }

  lemma SameKept(b: Mirror, d: Mirror, id: string, key: EntryKey, instance: bool)
    requires SameRecords(b, d)
    ensures OwnKept(b, d, id, key, instance)
  {
    hide OwnKept;
    RecordsKept(b, d, id, key, instance);
  }

  /** What every change keeps of its own contract's records. */
  lemma EveryChangeKeeps(cfg: Owned, b: Mirror, c: Change, seqNum: int)
    requires c.key.Some?
    ensures OwnKept(b, Apply(cfg, b, c, seqNum), c.contract, c.key.value, IsInstance(c))
  {
    hide OwnKept, ApplyLive, ApplyDelete, IsLive;
    RecordsKept(b, b, c.contract, c.key.value, IsInstance(c));
    DropKept(cfg, b, c, c.key.value, seqNum, IsInstance(c));
    if c.payload.Decoded? { LiveKept(cfg, b, c, c.key.value, c.payload.value, seqNum); }
  }

  // ---- the last write stays --------------------------------------------------------------------

  predicate BackstopKeyed(key: EntryKey) {
    key.PoolBalanceKey? || key.UserBalanceEntry? || key.BEmisDataKey? || key.UEmisDataKey?
  }

  /** The change is of the same entry. A contract's own record is also reached by its instance, by the symbols that drop
      its pool, and a pool instance's backstop by the symbol of that name. */
  predicate Disturbs(c: Change, id: string, key: EntryKey) {
    && c.key.Some?
    && var k := c.key.value;
       || (k == key && (BackstopKeyed(key) || c.contract == id))
       || (&& c.contract == id && (key == InstanceEntry || key.Symbol?)
           && (IsInstance(c) || k == InstanceEntry || DropsPool(k) || (key == InstanceEntry && k == Symbol(Backstop))))
  }

  lemma ContractReaches(b: Mirror, id: string, key: EntryKey, v: Value)
    requires !key.Symbol?
    ensures var d := ApplyContract(b, id, key, v); Confined(b, d, id, OtherKey) || d == ApplyEntry(b, id, key, v)
  {
    hide Confined, ApplyEntry, ApplyInstance;
    InstanceChangeConfined(b, id, OtherKey, v);
  }

  lemma TokenReaches(cfg: Owned, b: Mirror, id: string, key: EntryKey, v: Value)
    requires !key.Symbol?
    ensures var d := ApplyToken(cfg, b, id, key, v); Confined(b, d, id, OtherKey) || d == ApplyEntry(b, id, key, v)
  {
    hide Confined, ApplyEntry, ApplyContract;
    ContractReaches(b, id, key, v);
    Confinement.Untouched(b, id, OtherKey);
    if v.InstanceValue? && v.asset.Some? { AssetConfined(b, id, OtherKey, v.asset.value.(contract := id)); }
  }

  lemma OracleReaches(b: Mirror, id: string, key: EntryKey, v: Value)
    requires !key.U128Key?
    ensures ApplyOracle(b, id, key, v).Some? ==> Confined(b, ApplyOracle(b, id, key, v).value, id, OtherKey)
  {
    hide Confined, PutOracle, EnsureOracle, WithOracleInstance;
    OracleChangeConfined(b, id, OtherKey, v);
  }

  /** An entry of a contract reaches its maps as the live or the removed entry, or the change touches no entry at all. */
  lemma LiveReaches(cfg: Owned, b: Mirror, id: string, key: EntryKey, v: Value)
    requires !key.Symbol? && !key.U128Key?
    ensures var d := ApplyLive(cfg, b, id, key, v); Confined(b, d, id, OtherKey) || d == ApplyEntry(b, id, key, v)
  {
    hide Confined, ApplyEntry, ApplyOracle, ApplyToken, ChangeFeed, FeedWrite;
    FeedConfined(b, id, OtherKey, FeedWrite(key, v));
    OracleReaches(b, id, key, v);
    TokenReaches(cfg, b, id, key, v);
  }

  lemma DropReaches(cfg: Owned, b: Mirror, c: Change, key: EntryKey, seqNum: int)
    requires !key.Symbol? && !key.U128Key? && !key.InstanceEntry?
    ensures var d := ApplyDelete(cfg, b, c, key, seqNum);
      Confined(b, d, c.contract, OtherKey) || d == DeleteEntry(b, c, key, seqNum)
  {
    hide Confined, DeleteEntry, ChangeFeed, FeedDelete;
    FeedConfined(b, c.contract, OtherKey, FeedDelete(key));
    Confinement.Untouched(b, c.contract, OtherKey);
  }

  lemma EntryReached(cfg: Owned, b: Mirror, c: Change, seqNum: int)
    requires c.key.Some? && (c.key.value.UserBalanceEntry? || c.key.value.UEmisDataKey?)
    ensures var key, d := c.key.value, Apply(cfg, b, c, seqNum);
      || Confined(b, d, c.contract, OtherKey) || d == DeleteEntry(b, c, key, seqNum)
      || (c.payload.Decoded? && d == ApplyEntry(b, c.contract, key, c.payload.value))
  {
    hide Confined, ApplyEntry, DeleteEntry, ApplyLive, ApplyDelete, IsLive;
    DropReaches(cfg, b, c, c.key.value, seqNum);
    Confinement.Untouched(b, c.contract, OtherKey);
    if c.payload.Decoded? { LiveReaches(cfg, b, c.contract, c.key.value, c.payload.value); }
  }

  /** The shares of a holder, if any, are those they were. */
  predicate KeepsShares(b: Mirror, d: Mirror, k: Key) {
    k in b.backstopUsers && b.backstopUsers[k].shares != "" ==>
      k in d.backstopUsers && d.backstopUsers[k].shares == b.backstopUsers[k].shares && d.backstopUsers[k].q4w == b.backstopUsers[k].q4w
  }

  /** The accrual of a holder, if any, is what it was. */
  predicate KeepsAccrual(b: Mirror, d: Mirror, k: Key) {
    k in b.backstopUsers && (b.backstopUsers[k].emisIndex != "" || b.backstopUsers[k].emisAccrued != "") ==>
      && k in d.backstopUsers && d.backstopUsers[k].emisIndex == b.backstopUsers[k].emisIndex
      && d.backstopUsers[k].emisAccrued == b.backstopUsers[k].emisAccrued
  }

  lemma AccrualKept(b: Mirror, poolId: string, user: string, v: Value)
    ensures KeepsAccrual(b, ApplyUserBalance(b, poolId, user, v), Pair(user, poolId))
    ensures KeepsAccrual(b, DeleteUserBalance(b, poolId, user), Pair(user, poolId))
  {
  }

  lemma SharesKept(b: Mirror, c: Change, poolId: string, user: string, v: Value, seqNum: int)
    ensures KeepsShares(b, ApplyEntry(b, c.contract, UEmisDataKey(poolId, user), v), Pair(user, poolId))
    ensures KeepsShares(b, DeleteEntry(b, c, UEmisDataKey(poolId, user), seqNum), Pair(user, poolId))
  {
    hide KeepsShares, DeleteUserEmission, PutUser, EnsureUser;
    EmissionDropKeepsShares(b, poolId, user);
    if v.UserEmisValue? { EmissionWriteKeepsShares(b, poolId, user, v); }
    SameShares(b, Pair(user, poolId));
  }

  lemma SameShares(b: Mirror, k: Key)
    ensures KeepsShares(b, b, k)
  {
  }

  lemma EmissionDropKeepsShares(b: Mirror, poolId: string, user: string)
    ensures KeepsShares(b, DeleteUserEmission(b, poolId, user), Pair(user, poolId))
  {
  }

  lemma EmissionWriteKeepsShares(b: Mirror, poolId: string, user: string, v: Value)
    requires v.UserEmisValue?
    ensures KeepsShares(b, PutUser(b, EnsureUser(b, poolId, user).(user := user, pool := poolId, emisIndex := v.userIndex,
                                                                   emisAccrued := v.accrued)), Pair(user, poolId))
  {
  }

  lemma HolderUndisturbed(cfg: Owned, b: Mirror, c: Change, seqNum: int, owned: bool, id: string, key: EntryKey, v: Value)
    requires key.UserBalanceEntry? || key.UEmisDataKey?
    requires c.key.Some? && Confined(b, Apply(cfg, b, c, seqNum), c.contract, c.key.value)
    requires Holds(b, owned, id, key, v) && !Disturbs(c, id, key)
    ensures Holds(Apply(cfg, b, c, seqNum), owned, id, key, v)
  {
    hide Apply, ApplyUserBalance, DeleteUserBalance, ApplyEntry, DeleteEntry, KeepsShares, KeepsAccrual;
    var k, d := Pair(key.user, key.poolId), Apply(cfg, b, c, seqNum);
    if HolderAt(c.key.value) != Some(k) {
      assert SameAt(b.backstopUsers, d.backstopUsers, k);
    } else {
      SiblingKept(cfg, b, c, seqNum, key.poolId, key.user);
      SaidStill(b, d, owned, id, key, v);
    }
  }

  lemma SaidStill(b: Mirror, d: Mirror, owned: bool, id: string, key: EntryKey, v: Value)
    requires key.UserBalanceEntry? || key.UEmisDataKey?
    requires key.UserBalanceEntry? ==> KeepsShares(b, d, Pair(key.user, key.poolId))
    requires key.UEmisDataKey? ==> KeepsAccrual(b, d, Pair(key.user, key.poolId))
    requires Holds(b, owned, id, key, v)
    ensures Holds(d, owned, id, key, v)
  {
  }

  /** A holder's two entries leave each other alone. */
  lemma SiblingKept(cfg: Owned, b: Mirror, c: Change, seqNum: int, poolId: string, user: string)
    ensures c.key == Some(UEmisDataKey(poolId, user)) ==> KeepsShares(b, Apply(cfg, b, c, seqNum), Pair(user, poolId))
    ensures c.key == Some(UserBalanceEntry(poolId, user)) ==> KeepsAccrual(b, Apply(cfg, b, c, seqNum), Pair(user, poolId))
  {
    hide Apply, ApplyUserBalance, DeleteUserBalance, DeleteUserEmission, KeepsShares, KeepsAccrual, Confined;
    if c.key == Some(UEmisDataKey(poolId, user)) {
      hide ApplyEntry, DeleteEntry;
      EntryReached(cfg, b, c, seqNum);
      ConfinedHolder(b, Apply(cfg, b, c, seqNum), c.contract, Pair(user, poolId));
      SharesKept(b, c, poolId, user, if c.payload.Decoded? then c.payload.value else OtherValue, seqNum);
    } else if c.key == Some(UserBalanceEntry(poolId, user)) {
      EntryReached(cfg, b, c, seqNum);
      ConfinedHolder(b, Apply(cfg, b, c, seqNum), c.contract, Pair(user, poolId));
      AccrualKept(b, poolId, user, if c.payload.Decoded? then c.payload.value else OtherValue);
    }
  }

  lemma ConfinedHolder(b: Mirror, d: Mirror, id: string, k: Key)
    ensures Confined(b, d, id, OtherKey) ==> KeepsShares(b, d, k) && KeepsAccrual(b, d, k)
  {
    if Confined(b, d, id, OtherKey) { assert SameAt(b.backstopUsers, d.backstopUsers, k); }
  }

  /** Entries filed under their own key. */
  lemma EntryUndisturbed(b: Mirror, d: Mirror, c: Change, owned: bool, id: string, key: EntryKey, v: Value)
    requires key != InstanceEntry && !key.Symbol? && !key.U128Key? && !key.UserBalanceEntry? && !key.UEmisDataKey?
    requires c.key.Some? && Confined(b, d, c.contract, c.key.value)
    requires Holds(b, owned, id, key, v) && !Disturbs(c, id, key)
    ensures Holds(d, owned, id, key, v)
  {
    match key
    case PositionsKey(user) => assert SameAt(b.pending, d.pending, Pair(user, id));
    case PoolBalanceKey(poolId) => assert SameAt(b.backstopPools, d.backstopPools, Contract(poolId));
    case BEmisDataKey(poolId) => assert SameAt(b.backstopEmis, d.backstopEmis, Contract(poolId));
    case AuctionEntry(user, t) => assert SameAt(b.auctions, d.auctions, AuctionOf(id, user, t));
    case UserEmisKey(user, token) => assert SameAt(b.userEmis, d.userEmis, EmissionOf(user, id, token));
    case ResInitKey(asset) => assert SameAt(b.queued, d.queued, ReserveOf(id, asset));
    case _ =>
  }

  lemma PriceUndisturbed(b: Mirror, d: Mirror, c: Change, owned: bool, id: string, key: EntryKey, v: Value)
    requires key.U128Key? && c.contract == id && c.key.Some?
    requires OwnKept(b, d, c.contract, c.key.value, IsInstance(c))
    requires Holds(b, owned, id, key, v) && !Disturbs(c, id, key)
    ensures Holds(d, owned, id, key, v)
  {
    var k := Contract(id);
    if key.hi == 0 && k in b.oracles { assert SamePrice(b.oracles[k], d.oracles[k], key.lo); }
  }

  lemma InstanceUndisturbed(b: Mirror, d: Mirror, c: Change, owned: bool, id: string, v: Value)
    requires v.InstanceValue? && c.contract == id && c.key.Some?
    requires OwnKept(b, d, c.contract, c.key.value, IsInstance(c))
    requires InstanceHolds(b, owned, id, v) && !Disturbs(c, id, InstanceEntry)
    ensures InstanceHolds(d, owned, id, v)
  {
  }

  lemma SymbolUndisturbed(b: Mirror, d: Mirror, c: Change, id: string, name: SymbolName, v: Value)
    requires c.contract == id && c.key.Some?
    requires OwnKept(b, d, c.contract, c.key.value, IsInstance(c))
    requires SymbolHolds(b, id, name, v) && !Disturbs(c, id, Symbol(name))
    ensures SymbolHolds(d, id, name, v)
  {
    hide OracleKept;
  }

  lemma OtherContract(b: Mirror, d: Mirror, other: string, k: EntryKey, owned: bool, id: string, key: EntryKey, v: Value)
    requires key == InstanceEntry || key.Symbol? || key.U128Key?
    requires other != id && Confined(b, d, other, k) && Holds(b, owned, id, key, v)
    ensures Holds(d, owned, id, key, v)
  {
    var own := Contract(id);
    assert SameAt(b.oracles, d.oracles, own) && SameAt(b.aggregators, d.aggregators, own)
        && SameAt(b.instances, d.instances, own) && SameAt(b.pools, d.pools, own);
    hide Confined, OracleSays, AddressesSay, PoolSays, SymbolSays;
  }

  /** A contract's own records. */
  lemma OwnUndisturbed(b: Mirror, d: Mirror, c: Change, owned: bool, id: string, key: EntryKey, v: Value)
    requires key == InstanceEntry || key.Symbol? || key.U128Key?
    requires c.key.Some? && Confined(b, d, c.contract, c.key.value)
    requires OwnKept(b, d, c.contract, c.key.value, IsInstance(c))
    requires Holds(b, owned, id, key, v) && !Disturbs(c, id, key)
    ensures Holds(d, owned, id, key, v)
  {
    hide OwnKept, Confined, InstanceHolds, SymbolHolds, Disturbs;
    if c.contract != id {
      OtherContract(b, d, c.contract, c.key.value, owned, id, key, v);
    } else if key.U128Key? {
      PriceUndisturbed(b, d, c, owned, id, key, v);
    } else if key.Symbol? {
      SymbolUndisturbed(b, d, c, id, key.name, v);
    } else if v.InstanceValue? {
      InstanceUndisturbed(b, d, c, owned, id, v);
    }
  }

  lemma Undisturbed(cfg: Owned, b: Mirror, c: Change, seqNum: int, owned: bool, id: string, key: EntryKey, v: Value)
    requires Holds(b, owned, id, key, v) && !Disturbs(c, id, key)
    ensures Holds(Apply(cfg, b, c, seqNum), owned, id, key, v)
  {
    hide Apply, Holds, Disturbs, OwnKept, Confined;
    EveryChangeIsConfined(cfg, b, c, seqNum);
    if c.key.Some? {
      EveryChangeKeeps(cfg, b, c, seqNum);
      if key == InstanceEntry || key.Symbol? || key.U128Key? {
        OwnUndisturbed(b, Apply(cfg, b, c, seqNum), c, owned, id, key, v);
      } else if key.UserBalanceEntry? || key.UEmisDataKey? {
        HolderUndisturbed(cfg, b, c, seqNum, owned, id, key, v);
      } else {
        EntryUndisturbed(b, Apply(cfg, b, c, seqNum), c, owned, id, key, v);
      }
    }
  }

  /** The nth change writes the entry and no later change of the ledger disturbs it. */
  ghost predicate LastWrite(changes: seq<Change>, n: nat, seqNum: int, key: EntryKey, v: Value) {
    && n < |changes| && IsWrite(changes[n], seqNum, key, v) && (v.InstanceValue? ==> key == InstanceEntry)
    && forall m :: n < m < |changes| ==> !Disturbs(changes[m], changes[n].contract, key)
  }

  /** The mirror a ledger's changes leave holds the last write of every entry. */
  lemma {:induction false} LastWriteHolds(cfg: Owned, b: Mirror, changes: seq<Change>, n: nat, seqNum: int, key: EntryKey,
                                          v: Value)
    requires LastWrite(changes, n, seqNum, key, v)
    requires changes[n].contract !in cfg.feeds && changes[n].contract !in cfg.assets
    ensures var id := changes[n].contract; Holds(ApplyAll(cfg, b, changes, seqNum), id in cfg.contracts, id, key, v)
    decreases |changes|
  {
    hide Apply, Holds, Disturbs, IsWrite;
    var init, last := changes[..|changes| - 1], changes[|changes| - 1];
    var id := changes[n].contract;
    if n == |init| {
      WriteStored(cfg, ApplyAll(cfg, b, init, seqNum), last, seqNum, key, v);
    } else {
      assert init[n] == changes[n];
      assert forall m :: n < m < |init| ==> init[m] == changes[m];
      LastWriteHolds(cfg, b, init, n, seqNum, key, v);
      Undisturbed(cfg, ApplyAll(cfg, b, init, seqNum), last, seqNum, id in cfg.contracts, id, key, v);
    }
  }
}
