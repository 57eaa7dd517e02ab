/** A change reaches its own contract's records and the one record its key names, and nothing else of the mirror. */
module Confinement {
  import opened Options
  import opened Keys
  import opened Slices
  import opened Reserves
  import opened Reflector
  import opened Mirror
  import opened Carry
  import opened Reference

  // ---- a change touches its own entry only -----------------------------------------------------

  /** The maps agree everywhere but at the target. */
  ghost predicate Only<V>(m: map<Key, V>, n: map<Key, V>, target: Option<Key>) {
    forall k :: Some(k) != target ==> SameAt(m, n, k)
  }

  lemma OnlyPut<V>(m: map<Key, V>, k: Key, v: V)
    ensures Only(m, m[k := v], Some(k))
  {
  }

  lemma OnlyDropped<V>(m: map<Key, V>, k: Key)
    ensures Only(m, m - {k}, Some(k))
  {
  }

  function PositionsAt(id: string, key: EntryKey): Option<Key> {
    if key.PositionsKey? then Some(Pair(key.user, id)) else None
  }

  function HolderAt(key: EntryKey): Option<Key> {
    if key.UserBalanceEntry? || key.UEmisDataKey? then Some(Pair(key.user, key.poolId)) else None
  }

  function BalanceAt(key: EntryKey): Option<Key> { if key.PoolBalanceKey? then Some(Contract(key.poolId)) else None }

  function EmisAt(key: EntryKey): Option<Key> { if key.BEmisDataKey? then Some(Contract(key.poolId)) else None }

  function AuctionAt(id: string, key: EntryKey): Option<Key> {
    if key.AuctionEntry? then Some(AuctionOf(id, key.user, key.auctionType)) else None
  }

  function EmissionAt(id: string, key: EntryKey): Option<Key> {
    if key.UserEmisKey? then Some(EmissionOf(key.user, id, key.reserveToken)) else None
  }

  function QueuedAt(id: string, key: EntryKey): Option<Key> {
    if key.ResInitKey? then Some(ReserveOf(id, key.asset)) else None
  }

  /** A change of one contract's entry reaches that contract's own records and the one record the key names. */
  ghost predicate Confined(b: Mirror, d: Mirror, id: string, key: EntryKey) {
    var own := Some(Contract(id));
    && Only(b.pending, d.pending, PositionsAt(id, key)) && Only(b.auctions, d.auctions, AuctionAt(id, key))
    && Only(b.userEmis, d.userEmis, EmissionAt(id, key)) && Only(b.queued, d.queued, QueuedAt(id, key))
    && Only(b.backstopUsers, d.backstopUsers, HolderAt(key)) && Only(b.backstopPools, d.backstopPools, BalanceAt(key))
    && Only(b.backstopEmis, d.backstopEmis, EmisAt(key))
    && Only(b.pools, d.pools, own) && Only(b.instances, d.instances, own) && Only(b.oracles, d.oracles, own)
    && Only(b.feeds, d.feeds, own) && Only(b.aggregators, d.aggregators, own) && Only(b.assets, d.assets, own)
    && (forall k :: k in d.dirtyUsers ==> k in b.dirtyUsers || Some(k) == PositionsAt(id, key))
    && Marks(b, d) && MarksOnly(b, d, id, key)
  }

  /** The holders a change marks are its own or those of the pool whose balance it is of; only a feed's own change marks the
      feed, and only an oracle's price marks an asset. */
  ghost predicate MarksOnly(b: Mirror, d: Mirror, id: string, key: EntryKey) {
    && (forall k :: k in d.dirtyBackstops ==> k in b.dirtyBackstops || HolderReached(key, k))
    && d.changedFeeds <= b.changedFeeds + {id}
    && (!key.U128Key? ==> d.changedPriceAssets == b.changedPriceAssets)
  }

  predicate HolderReached(key: EntryKey, k: Key) {
    Some(k) == HolderAt(key) || (key.PoolBalanceKey? && k.Pair? && k.pool == key.poolId)
  }

  /** Nothing a ledger marked is unmarked, and a holder whose balance changes is marked. */
  ghost predicate Marks(b: Mirror, d: Mirror) {
    && b.dirtyBackstops <= d.dirtyBackstops && b.changedPriceAssets <= d.changedPriceAssets && b.changedFeeds <= d.changedFeeds
    && forall k :: k !in d.dirtyBackstops ==> SameAt(b.backstopUsers, d.backstopUsers, k)
  }

  lemma Untouched(b: Mirror, id: string, key: EntryKey)
    ensures Confined(b, b, id, key)
  {
  }

  lemma PoolConfined(b: Mirror, id: string, key: EntryKey, p: Pool)
    ensures Confined(b, PutPool(b, id, p), id, key)
  {
    Untouched(b, id, key);
    OnlyPut(b.pools, Contract(id), p);
    hide Only;
  }

  lemma NoPoolConfined(b: Mirror, id: string, key: EntryKey)
    ensures Confined(b, b.(pools := b.pools - {Contract(id)}), id, key)
  {
    Untouched(b, id, key);
    OnlyDropped(b.pools, Contract(id));
    hide Only;
  }

  lemma InstanceConfined(b: Mirror, id: string, key: EntryKey, i: BackstopInstance)
    ensures Confined(b, PutInstance(b, id, i), id, key)
  {
    Untouched(b, id, key);
    OnlyPut(b.instances, Contract(id), i);
    hide Only;
  }

  lemma OracleConfined(b: Mirror, id: string, key: EntryKey, o: Oracle, priced: set<string>)
    requires b.changedPriceAssets <= priced && (!key.U128Key? ==> priced == b.changedPriceAssets)
    ensures Confined(b, PutOracle(b, id, o), id, key)
    ensures Confined(b, PutOracle(b, id, o).(changedPriceAssets := priced), id, key)
  {
    Untouched(b, id, key);
    OnlyPut(b.oracles, Contract(id), o);
    hide Only;
  }

  lemma SymbolConfined(b: Mirror, id: string, name: SymbolName, v: Value, key: EntryKey)
    ensures Confined(b, ApplySymbol(b, id, name, v), id, key)
    ensures Confined(b, DeleteSymbol(b, id, name), id, key)
  {
    hide Confined, PutPool, PutInstance, PutOracle, PoolSymbol, EnsurePool, EnsureInstance;
    Untouched(b, id, key);
    NoPoolConfined(b, id, key);
    forall p { PoolConfined(b, id, key, p); }
    forall i { InstanceConfined(b, id, key, i); }
    forall o { OracleConfined(b, id, key, o, b.changedPriceAssets); }
  }

  lemma ReserveConfined(b: Mirror, id: string, asset: string, isConfig: bool, v: Value, c: Change, seqNum: int, key: EntryKey)
    ensures Confined(b, ApplyReserve(b, id, asset, isConfig, v), id, key)
    ensures c.contract == id ==> Confined(b, DeleteReserve(b, c, asset, isConfig, seqNum), id, key)
  {
    hide Confined, PutPool, PutReserve, EnsurePool, EnsureReserve, ReserveWith, DropReserve, ArchiveReserve;
    Untouched(b, id, key);
    forall p { PoolConfined(b, id, key, p); }
  }

  lemma EmissionConfined(b: Mirror, id: string, token: nat, isConfig: bool, v: Value, key: EntryKey)
    ensures Confined(b, ApplyEmission(b, id, token, isConfig, v), id, key)
    ensures Confined(b, DeleteEmission(b, id, token, isConfig), id, key)
  {
    hide Confined, PutPool, PutReserve, EnsurePool, EnsureReserve, EmissionFields, ClearedEmission, EmissionTarget;
    Untouched(b, id, key);
    forall p { PoolConfined(b, id, key, p); }
  }

  lemma PendingConfined(b: Mirror, id: string, user: string, p: Pending)
    ensures var k, key := Pair(user, id), PositionsKey(user); var marked := b.(dirtyUsers := b.dirtyUsers + {k});
      && Confined(b, marked, id, key) && Confined(b, marked.(pending := b.pending[k := p]), id, key)
      && Confined(b, marked.(pending := b.pending - {k}), id, key)
  {
    Untouched(b, id, PositionsKey(user));
    OnlyPut(b.pending, Pair(user, id), p);
    OnlyDropped(b.pending, Pair(user, id));
    hide Only;
  }

  lemma PositionsConfined(b: Mirror, c: Change, user: string, v: Value, seqNum: int)
    ensures Confined(b, ApplyPositions(b, c.contract, user, v), c.contract, PositionsKey(user))
    ensures Confined(b, DeletePositions(b, c, user, seqNum), c.contract, PositionsKey(user))
  {
    hide Confined, ArchivedBlob, PositionsIn;
    var id := c.contract;
    PendingConfined(b, id, user, Pending(user, id, Some(PositionsIn(v)), false, 0));
    PendingConfined(b, id, user, Pending(user, id, ArchivedBlob(b, c, Pair(user, id)), true, seqNum));
  }

  lemma HolderConfined(b: Mirror, id: string, key: EntryKey, u: UserBalance, k: Key)
    requires HolderAt(key) == Some(k)
    ensures UserBalanceKey(u) == k ==> Confined(b, PutUser(b, u), id, key)
    ensures Confined(b, SetUser(b, k, u), id, key) && Confined(b, DropUser(b, k), id, key)
  {
    Untouched(b, id, key);
    OnlyPut(b.backstopUsers, k, u);
    OnlyDropped(b.backstopUsers, k);
    hide Only;
  }

  lemma MarkedHolders(b: Mirror, poolId: string)
    ensures forall k <- Holders(b, {poolId}) :: k.Pair? && k.pool == poolId
  {
  }

  lemma BalanceConfined(b: Mirror, id: string, poolId: string, x: Balance)
    ensures Confined(b, MarkPool(b.(backstopPools := b.backstopPools[Contract(poolId) := x]), poolId), id, PoolBalanceKey(poolId))
    ensures Confined(b, MarkPool(b.(backstopPools := b.backstopPools - {Contract(poolId)}), poolId), id, PoolBalanceKey(poolId))
  {
    Untouched(b, id, PoolBalanceKey(poolId));
    OnlyPut(b.backstopPools, Contract(poolId), x);
    OnlyDropped(b.backstopPools, Contract(poolId));
    forall c: Mirror | c.backstopUsers == b.backstopUsers { MarkedHolders(c, poolId); }
    hide Only, Holders;
  }

  lemma UserConfined(b: Mirror, id: string, poolId: string, user: string, v: Value)
    ensures Confined(b, ApplyUserBalance(b, poolId, user, v), id, UserBalanceEntry(poolId, user))
    ensures Confined(b, DeleteUserBalance(b, poolId, user), id, UserBalanceEntry(poolId, user))
    ensures Confined(b, DeleteUserEmission(b, poolId, user), id, UEmisDataKey(poolId, user))
  {
    hide Confined, PutUser, SetUser, DropUser, EnsureUser;
    Untouched(b, id, UEmisDataKey(poolId, user));
    forall u { HolderConfined(b, id, UserBalanceEntry(poolId, user), u, Pair(user, poolId)); }
    forall u { HolderConfined(b, id, UEmisDataKey(poolId, user), u, Pair(user, poolId)); }
  }

  lemma BackstopEmisConfined(b: Mirror, id: string, poolId: string, x: Emis)
    ensures Confined(b, b.(backstopEmis := b.backstopEmis[Contract(poolId) := x]), id, BEmisDataKey(poolId))
    ensures Confined(b, b.(backstopEmis := b.backstopEmis - {Contract(poolId)}), id, BEmisDataKey(poolId))
  {
    Untouched(b, id, BEmisDataKey(poolId));
    OnlyPut(b.backstopEmis, Contract(poolId), x);
    OnlyDropped(b.backstopEmis, Contract(poolId));
    hide Only;
  }

  lemma BackstopEntryConfined(b: Mirror, c: Change, key: EntryKey, v: Value, seqNum: int)
    requires key.PoolBalanceKey? || key.UserBalanceEntry? || key.BEmisDataKey? || key.UEmisDataKey?
    ensures Confined(b, ApplyEntry(b, c.contract, key, v), c.contract, key)
    ensures Confined(b, DeleteEntry(b, c, key, seqNum), c.contract, key)
  {
    hide Confined, MarkPool, PutUser, EnsureUser, ApplyUserBalance, DeleteUserBalance, DeleteUserEmission, BalanceIn;
    var id := c.contract;
    Untouched(b, id, key);
    match key
    case PoolBalanceKey(poolId) => BalanceConfined(b, id, poolId, BalanceIn(v));
    case UserBalanceEntry(poolId, user) => UserConfined(b, id, poolId, user, v);
    case BEmisDataKey(poolId) => BackstopEmisConfined(b, id, poolId, if v.BackstopEmisValue? then v.emis else NO_EMIS);
    case UEmisDataKey(poolId, user) =>
      UserConfined(b, id, poolId, user, v);
      if v.UserEmisValue? {
        HolderConfined(b, id, key, EnsureUser(b, poolId, user).(user := user, pool := poolId, emisIndex := v.userIndex,
                                                                emisAccrued := v.accrued), Pair(user, poolId));
      }
  }

  lemma AuctionConfined(b: Mirror, id: string, user: string, auctionType: int, x: Auction, dirty: set<Key>)
    ensures var key := AuctionEntry(user, auctionType); var k := AuctionOf(id, user, auctionType);
      && Confined(b, b.(auctions := b.auctions[k := x], dirtyTemporary := dirty), id, key)
      && Confined(b, b.(auctions := b.auctions - {k}, dirtyTemporary := dirty), id, key)
  {
    Untouched(b, id, AuctionEntry(user, auctionType));
    OnlyPut(b.auctions, AuctionOf(id, user, auctionType), x);
    OnlyDropped(b.auctions, AuctionOf(id, user, auctionType));
    hide Only;
  }

  lemma UserEmisConfined(b: Mirror, id: string, user: string, token: int, x: UserEmission)
    ensures var key := UserEmisKey(user, token); var k := EmissionOf(user, id, token);
      && Confined(b, b.(userEmis := b.userEmis[k := x]), id, key) && Confined(b, b.(userEmis := b.userEmis - {k}), id, key)
  {
    Untouched(b, id, UserEmisKey(user, token));
    OnlyPut(b.userEmis, EmissionOf(user, id, token), x);
    OnlyDropped(b.userEmis, EmissionOf(user, id, token));
    hide Only;
  }

  lemma QueuedConfined(b: Mirror, id: string, asset: string, x: QueuedReserve, dirty: set<Key>)
    ensures var key := ResInitKey(asset); var k := ReserveOf(id, asset);
      && Confined(b, b.(queued := b.queued[k := x], dirtyTemporary := dirty), id, key)
      && Confined(b, b.(queued := b.queued - {k}, dirtyTemporary := dirty), id, key)
  {
    Untouched(b, id, ResInitKey(asset));
    OnlyPut(b.queued, ReserveOf(id, asset), x);
    OnlyDropped(b.queued, ReserveOf(id, asset));
    hide Only;
  }

  lemma PoolEntryConfined(b: Mirror, c: Change, key: EntryKey, v: Value, seqNum: int)
    requires key.AuctionEntry? || key.UserEmisKey? || key.ResInitKey?
    ensures Confined(b, ApplyEntry(b, c.contract, key, v), c.contract, key)
    ensures Confined(b, DeleteEntry(b, c, key, seqNum), c.contract, key)
  {
    hide Confined;
    var id := c.contract;
    Untouched(b, id, key);
    match key
    case AuctionEntry(user, auctionType) =>
      var x := if v.AuctionValue? then Auction(id, user, auctionType, v.block, v.lot, v.bid) else Auction(id, user, 0, 0, [], []);
      AuctionConfined(b, id, user, auctionType, x, b.dirtyTemporary + {TemporaryAuction(id, user, auctionType)});
    case UserEmisKey(user, token) =>
      UserEmisConfined(b, id, user, token,
                       if v.UserEmisValue? then UserEmission(user, id, token, v.userIndex, v.accrued)
                       else UserEmission(user, id, token, "", ""));
    case ResInitKey(asset) =>
      var x := if v.QueuedValue? then QueuedReserve(id, asset, v.unlockTime, v.newConfig) else QueuedReserve(id, asset, "", map[]);
      QueuedConfined(b, id, asset, x, b.dirtyTemporary + {TemporaryQueued(id, asset)});
  }

  lemma EntryConfined(b: Mirror, c: Change, key: EntryKey, v: Value, seqNum: int)
    ensures Confined(b, ApplyEntry(b, c.contract, key, v), c.contract, key)
    ensures Confined(b, DeleteEntry(b, c, key, seqNum), c.contract, key)
  {
    hide Confined, ApplyReserve, ApplyEmission, ApplyPositions, DeleteReserve, DeleteEmission, DeletePositions;
    var id := c.contract;
    Untouched(b, id, key);
    match key
    case ResConfigKey(asset) => ReserveConfined(b, id, asset, true, v, c, seqNum, key);
    case ResDataKey(asset) => ReserveConfined(b, id, asset, false, v, c, seqNum, key);
    case EmisConfigKey(token) => EmissionConfined(b, id, token, true, v, key);
    case EmisDataKey(token) => EmissionConfined(b, id, token, false, v, key);
    case PositionsKey(user) => PositionsConfined(b, c, user, v, seqNum);
    case PoolBalanceKey(_) => BackstopEntryConfined(b, c, key, v, seqNum);
    case UserBalanceEntry(_, _) => BackstopEntryConfined(b, c, key, v, seqNum);
    case BEmisDataKey(_) => BackstopEntryConfined(b, c, key, v, seqNum);
    case UEmisDataKey(_, _) => BackstopEntryConfined(b, c, key, v, seqNum);
    case AuctionEntry(_, _) => PoolEntryConfined(b, c, key, v, seqNum);
    case UserEmisKey(_, _) => PoolEntryConfined(b, c, key, v, seqNum);
    case ResInitKey(_) => PoolEntryConfined(b, c, key, v, seqNum);
    case _ =>
  }

  lemma AggregatorConfined(b: Mirror, id: string, key: EntryKey, a: AggregatorState)
    ensures Confined(b, b.(aggregators := b.aggregators[Contract(id) := a]), id, key)
    ensures Confined(b, b.(aggregators := b.aggregators - {Contract(id)}, instances := b.instances - {Contract(id)}), id, key)
  {
    Untouched(b, id, key);
    OnlyPut(b.aggregators, Contract(id), a);
    OnlyDropped(b.aggregators, Contract(id));
    OnlyDropped(b.instances, Contract(id));
    hide Only;
  }

  lemma FeedConfined(b: Mirror, id: string, key: EntryKey, op: FeedOp)
    ensures Confined(b, ChangeFeed(b, id, op), id, key)
  {
    hide ApplyFeed;
    var f := ApplyFeed(FeedAt(b, id), op);
    Untouched(b, id, key);
    OnlyDropped(b.feeds, Contract(id));
    if f.Some? { OnlyPut(b.feeds, Contract(id), FeedState(id, f.value)); }
    hide Only;
  }

  lemma AssetConfined(b: Mirror, id: string, key: EntryKey, a: Asset)
    ensures Confined(b, b.(assets := b.assets[Contract(id) := a]), id, key)
    ensures Confined(b, b.(assets := b.assets - {Contract(id)}), id, key)
  {
    Untouched(b, id, key);
    OnlyPut(b.assets, Contract(id), a);
    OnlyDropped(b.assets, Contract(id));
    hide Only;
  }

  lemma OracleChangeConfined(b: Mirror, id: string, key: EntryKey, v: Value)
    ensures ApplyOracle(b, id, key, v).Some? ==> Confined(b, ApplyOracle(b, id, key, v).value, id, key)
  {
    hide Confined, PutOracle, EnsureOracle, WithOracleInstance, AssetsAt, OracleIndex;
    Untouched(b, id, key);
    var o := EnsureOracle(b, id);
    if v.InstanceValue? && v.oracle.Some? {
      OracleConfined(b, id, key, WithOracleInstance(o, v.oracle.value), b.changedPriceAssets);
    } else if v.InstanceValue? && v.aggregator.Some? {
      AggregatorConfined(b, id, key, AggregatorState(id, v.aggregator.value));
    } else if key.U128Key? && OracleIndex(key.hi, key.lo).Some? && v.IntValue? {
      var i := OracleIndex(key.hi, key.lo).value;
      OracleConfined(b, id, key, o.(priceByIndex := o.priceByIndex[i := v.n]), b.changedPriceAssets + AssetsAt(o, i));
    }
  }

  lemma InstanceChangeConfined(b: Mirror, id: string, key: EntryKey, v: Value)
    ensures ApplyInstance(b, id, v).Some? ==> Confined(b, ApplyInstance(b, id, v).value, id, key)
  {
    hide Confined, PutInstance, PutPool, EnsureInstance, EnsurePool, WithAddresses, WithInstance;
    forall p { PoolConfined(b, id, key, p); }
    forall i { InstanceConfined(b, id, key, i); }
  }

  lemma ContractConfined(b: Mirror, c: Change, key: EntryKey, v: Value, seqNum: int)
    ensures Confined(b, ApplyContract(b, c.contract, key, v), c.contract, key)
  {
    hide Confined, ApplyInstance, ApplySymbol, ApplyEntry;
    InstanceChangeConfined(b, c.contract, key, v);
    if key.Symbol? { SymbolConfined(b, c.contract, key.name, v, key); }
    EntryConfined(b, c, key, v, seqNum);
  }

  lemma TokenConfined(cfg: Owned, b: Mirror, c: Change, key: EntryKey, v: Value, seqNum: int)
    ensures Confined(b, ApplyToken(cfg, b, c.contract, key, v), c.contract, key)
  {
    hide Confined, ApplyContract;
    Untouched(b, c.contract, key);
    if v.InstanceValue? && v.asset.Some? {
      AssetConfined(b, c.contract, key, v.asset.value.(contract := c.contract));
    }
    ContractConfined(b, c, key, v, seqNum);
  }

  lemma LiveConfined(cfg: Owned, b: Mirror, c: Change, key: EntryKey, v: Value, seqNum: int)
    ensures Confined(b, ApplyLive(cfg, b, c.contract, key, v), c.contract, key)
  {
    hide Confined, ApplyOracle, ApplyToken, ChangeFeed, FeedWrite;
    OracleChangeConfined(b, c.contract, key, v);
    TokenConfined(cfg, b, c, key, v, seqNum);
    FeedConfined(b, c.contract, key, FeedWrite(key, v));
  }

  lemma PriceDropConfined(b: Mirror, id: string, key: EntryKey, i: int)
    requires Contract(id) in b.oracles && key.U128Key?
    ensures var o := b.oracles[Contract(id)];
      Confined(b, PutOracle(b, id, o.(priceByIndex := o.priceByIndex - {i}))
                  .(changedPriceAssets := b.changedPriceAssets + AssetsAt(o, i)), id, key)
  {
    hide Confined, PutOracle, AssetsAt;
    var o := b.oracles[Contract(id)];
    OracleConfined(b, id, key, o.(priceByIndex := o.priceByIndex - {i}), b.changedPriceAssets + AssetsAt(o, i));
  }

  lemma DeleteConfined(cfg: Owned, b: Mirror, c: Change, key: EntryKey, seqNum: int)
    ensures Confined(b, ApplyDelete(cfg, b, c, key, seqNum), c.contract, key)
  {
    hide Confined, DeleteEntry, DeleteSymbol, PutOracle, AssetsAt, OracleIndex, ChangeFeed, FeedDelete;
    var id := c.contract;
    Untouched(b, id, key);
    if id in cfg.feeds {
      FeedConfined(b, id, key, FeedDelete(key));
    } else if id in cfg.assets {
      AssetConfined(b, id, key, Asset(id, "", "", 0));
    } else if id in cfg.contracts && key.U128Key? {
      if Contract(id) in b.oracles && OracleIndex(key.hi, key.lo).Some? {
        PriceDropConfined(b, id, key, OracleIndex(key.hi, key.lo).value);
      }
    } else if key == InstanceEntry {
      AggregatorConfined(b, id, key, AggregatorState(id, Aggregator(0, 0, "", [], map[], map[])));
    } else if key.Symbol? {
      SymbolConfined(b, id, key.name, OtherValue, key);
    } else {
      EntryConfined(b, c, key, OtherValue, seqNum);
    }
  }

  /** Whatever a change says and whether it is live, it reaches its own contract's records and the one record its key
      names; a change without a decodable key reaches nothing. */
  lemma EveryChangeIsConfined(cfg: Owned, b: Mirror, c: Change, seqNum: int)
    ensures c.key.None? ==> Apply(cfg, b, c, seqNum) == b
    ensures c.key.Some? ==> Confined(b, Apply(cfg, b, c, seqNum), c.contract, c.key.value)
  {
    hide Confined, ApplyLive, ApplyDelete, IsLive;
    if c.key.Some? {
      Untouched(b, c.contract, c.key.value);
      DeleteConfined(cfg, b, c, c.key.value, seqNum);
      if c.payload.Decoded? { LiveConfined(cfg, b, c, c.key.value, c.payload.value, seqNum); }
    }
  }
}
