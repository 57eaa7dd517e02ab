/** What every change keeps of the mirror, and why the carried mirror is the one a reload would build. */
module Carry {
  import opened Options
  import opened Keys
  import opened Slices
  import opened Reserves
  import opened Reflector
  import opened Mirror

  // ---- the invariant of a mirror during a ledger -----------------------------------------------

  ghost predicate PoolOk(k: Key, p: Pool) {
    k == Contract(p.info.contract) && Fresh(p) && KeyedBy(p.reserves, ReserveKey)
  }

  ghost predicate PoolsOk(m: map<Key, Pool>) { forall k :: k in m ==> PoolOk(k, m[k]) }

  ghost predicate NoneSynthesized(m: map<Key, Oracle>) { forall k :: k in m ==> !m[k].synthesized }

  ghost predicate PairsOnly(s: set<Key>) { forall k :: k in s ==> k.Pair? }

  /** Entries are filed under their own keys, each pool's index maps are those of its current reserves, and no oracle
      is a synthesized one. */
  ghost predicate Coherent(b: Mirror) {
    && PoolsOk(b.pools) && NoneSynthesized(b.oracles) && PairsOnly(b.dirtyUsers)
    && KeyedBy(b.pending, PendingKey) && KeyedBy(b.backstopUsers, UserBalanceKey) && KeyedBy(b.auctions, AuctionKey)
    && KeyedBy(b.userEmis, UserEmissionKey) && KeyedBy(b.queued, QueuedKey) && KeyedBy(b.instances, InstanceKeyOf)
    && KeyedBy(b.oracles, OracleKey) && KeyedBy(b.feeds, FeedKey) && KeyedBy(b.aggregators, AggregatorKey)
    && KeyedBy(b.assets, AssetKey)
  }

  predicate SameAt<V(==)>(m: map<Key, V>, n: map<Key, V>, k: Key) {
    (k in m <==> k in n) && (k in m && k in n ==> m[k] == n[k])
  }

  /** A Positions entry outside the dirty set is untouched. */
  ghost predicate PendingFrame(b: Mirror, c: Mirror) {
    b.dirtyUsers <= c.dirtyUsers && forall k :: k !in c.dirtyUsers ==> SameAt(b.pending, c.pending, k)
  }

  /** An auction or queued reserve outside the dirty set is untouched. */
  ghost predicate TemporaryFrame(b: Mirror, c: Mirror) {
    && b.dirtyTemporary <= c.dirtyTemporary
    && (forall p, u, t :: TemporaryAuction(p, u, t) !in c.dirtyTemporary ==> SameAt(b.auctions, c.auctions, AuctionOf(p, u, t)))
    && (forall p, a :: TemporaryQueued(p, a) !in c.dirtyTemporary ==> SameAt(b.queued, c.queued, ReserveOf(p, a)))
  }

  ghost predicate Step(b: Mirror, c: Mirror) {
    Coherent(c) && PendingFrame(b, c) && TemporaryFrame(b, c)
  }

  lemma StepTransitive(a: Mirror, b: Mirror, c: Mirror)
    requires Step(a, b) && Step(b, c)
    ensures Step(a, c)
  {
    forall k | k !in c.dirtyUsers ensures SameAt(a.pending, c.pending, k) {
      assert k !in b.dirtyUsers;
      assert SameAt(a.pending, b.pending, k) && SameAt(b.pending, c.pending, k);
    }
    forall p, u, t | TemporaryAuction(p, u, t) !in c.dirtyTemporary
      ensures SameAt(a.auctions, c.auctions, AuctionOf(p, u, t))
    {
      assert TemporaryAuction(p, u, t) !in b.dirtyTemporary;
      assert SameAt(a.auctions, b.auctions, AuctionOf(p, u, t)) && SameAt(b.auctions, c.auctions, AuctionOf(p, u, t));
    }
    forall p, x | TemporaryQueued(p, x) !in c.dirtyTemporary ensures SameAt(a.queued, c.queued, ReserveOf(p, x)) {
      assert TemporaryQueued(p, x) !in b.dirtyTemporary;
      assert SameAt(a.queued, b.queued, ReserveOf(p, x)) && SameAt(b.queued, c.queued, ReserveOf(p, x));
    }
  }

  // ---- every change is such a step -------------------------------------------------------------

  lemma EnsurePoolOk(b: Mirror, id: string)
    requires PoolsOk(b.pools)
    ensures PoolOk(Contract(id), EnsurePool(b, id)) && EnsurePool(b, id).info.contract == id
    ensures KeyedBy(EnsurePool(b, id).reserves, ReserveKey)
  {
    NewPoolFresh(id);
  }

  lemma KeyedUpdate<V>(m: map<Key, V>, keyOf: V -> Key, k: Key, v: V)
    requires KeyedBy(m, keyOf)
    ensures keyOf(v) == k ==> KeyedBy(m[k := v], keyOf)
    ensures KeyedBy(m - {k}, keyOf)
  {
  }

  lemma PutPoolStep(b: Mirror, id: string, p: Pool)
    requires Coherent(b) && PoolOk(Contract(id), p)
    ensures Step(b, PutPool(b, id, p))
  {
    hide PoolOk, KeyedBy;
  }

  lemma PutInstanceStep(b: Mirror, id: string, i: BackstopInstance)
    requires Coherent(b) && i.contract == id
    ensures Step(b, PutInstance(b, id, i))
  {
    hide PoolsOk;
  }

  lemma PutOracleStep(b: Mirror, id: string, o: Oracle, priced: set<string>)
    requires Coherent(b) && o.contract == id && !o.synthesized
    ensures Step(b, PutOracle(b, id, o))
    ensures Step(b, PutOracle(b, id, o).(changedPriceAssets := priced))
  {
    hide PoolsOk;
  }

  lemma EnsuredOwn(b: Mirror, id: string)
    requires Coherent(b)
    ensures EnsureInstance(b, id).contract == id
    ensures EnsureOracle(b, id).contract == id && !EnsureOracle(b, id).synthesized
    ensures forall poolId, user :: UserBalanceKey(EnsureUser(b, poolId, user)) == Pair(user, poolId)
  {
    hide PoolsOk;
  }

  lemma PutUserStep(b: Mirror, u: UserBalance)
    requires Coherent(b)
    ensures Step(b, PutUser(b, u))
  {
    hide PoolsOk;
  }

  lemma SetUsersStep(b: Mirror, users: map<Key, UserBalance>, dirty: set<Key>)
    requires Coherent(b) && KeyedBy(users, UserBalanceKey)
    ensures Step(b, b.(backstopUsers := users, dirtyBackstops := dirty))
  {
    hide PoolsOk;
  }

  lemma SetBackstopStep(b: Mirror, balances: map<Key, Balance>, emis: map<Key, Emis>, dirty: set<Key>)
    requires Coherent(b)
    ensures Step(b, b.(backstopPools := balances, dirtyBackstops := dirty))
    ensures Step(b, b.(backstopEmis := emis))
  {
    hide PoolsOk, KeyedBy;
  }

  lemma SetEmissionsStep(b: Mirror, m: map<Key, UserEmission>)
    requires Coherent(b) && KeyedBy(m, UserEmissionKey)
    ensures Step(b, b.(userEmis := m))
  {
    hide PoolsOk, KeyedBy;
  }

  lemma SetAssetsStep(b: Mirror, m: map<Key, Asset>)
    requires Coherent(b) && KeyedBy(m, AssetKey)
    ensures Step(b, b.(assets := m))
  {
    hide PoolsOk, KeyedBy;
  }

  lemma SetConfigsStep(b: Mirror, m: map<Key, AggregatorState>, n: map<Key, BackstopInstance>)
    requires Coherent(b) && KeyedBy(m, AggregatorKey) && KeyedBy(n, InstanceKeyOf)
    ensures Step(b, b.(aggregators := m)) && Step(b, b.(aggregators := m, instances := n))
  {
    hide PoolsOk, KeyedBy;
  }

  lemma SetAuctionStep(b: Mirror, id: string, user: string, auctionType: int, a: Option<Auction>)
    requires Coherent(b) && (a.Some? ==> AuctionKey(a.value) == AuctionOf(id, user, auctionType))
    ensures var k := AuctionOf(id, user, auctionType);
            Step(b, b.(auctions := if a.Some? then b.auctions[k := a.value] else b.auctions - {k},
                       dirtyTemporary := b.dirtyTemporary + {TemporaryAuction(id, user, auctionType)}))
  {
    var k := AuctionOf(id, user, auctionType);
    KeyedUpdate(b.auctions, AuctionKey, k, if a.Some? then a.value else Auction(id, user, auctionType, 0, [], []));
    hide PoolsOk, KeyedBy;
  }

  lemma SetQueuedStep(b: Mirror, id: string, asset: string, q: Option<QueuedReserve>)
    requires Coherent(b) && (q.Some? ==> QueuedKey(q.value) == ReserveOf(id, asset))
    ensures var k := ReserveOf(id, asset);
            Step(b, b.(queued := if q.Some? then b.queued[k := q.value] else b.queued - {k},
                       dirtyTemporary := b.dirtyTemporary + {TemporaryQueued(id, asset)}))
  {
    var k := ReserveOf(id, asset);
    KeyedUpdate(b.queued, QueuedKey, k, if q.Some? then q.value else QueuedReserve(id, asset, "", map[]));
    hide PoolsOk, KeyedBy;
  }

  lemma SetPendingStep(b: Mirror, user: string, id: string, p: Option<Pending>)
    requires Coherent(b) && (p.Some? ==> PendingKey(p.value) == Pair(user, id))
    ensures var k := Pair(user, id);
            && Step(b, b.(dirtyUsers := b.dirtyUsers + {k}))
            && Step(b, b.(pending := if p.Some? then b.pending[k := p.value] else b.pending - {k},
                          dirtyUsers := b.dirtyUsers + {k}))
  {
    hide PoolsOk;
  }

  lemma ChangeFeedStep(b: Mirror, id: string, op: FeedOp)
    requires Coherent(b)
    ensures Step(b, ChangeFeed(b, id, op))
  {
    hide PoolsOk, ApplyFeed;
  }

  lemma DropPoolStep(b: Mirror, id: string)
    requires Coherent(b)
    ensures Step(b, b.(pools := b.pools - {Contract(id)}))
  {
    hide PoolOk, KeyedBy;
  }

  lemma StepRefl(b: Mirror)
    requires Coherent(b)
    ensures Step(b, b)
  {
    hide Coherent;
  }

  lemma FinalizeOk(k: Key, p: Pool)
    requires k == Contract(p.info.contract) && KeyedBy(p.reserves, ReserveKey)
    ensures PoolOk(k, Finalize(p))
  {
  }

  lemma PutReserveOk(k: Key, p: Pool, asset: string, r: Reserve)
    requires PoolOk(k, p) && r.asset == asset
    ensures PoolOk(k, PutReserve(p, asset, r))
  {
    KeyedUpdate(p.reserves, ReserveKey, Contract(asset), r);
    FinalizeOk(k, p.(reserves := p.reserves[Contract(asset) := r]));
  }

  lemma EnsuredReserve(k: Key, p: Pool, asset: string)
    requires PoolOk(k, p)
    ensures EnsureReserve(p, asset).asset == asset
  {
    hide Fresh;
  }

  lemma {:induction false} EnsureReservesKeyed(p: Pool, list: seq<string>)
    requires KeyedBy(p.reserves, ReserveKey)
    ensures KeyedBy(EnsureReserves(p, list).reserves, ReserveKey) && EnsureReserves(p, list).info == p.info
  {
    if list != [] { EnsureReservesKeyed(p, list[..|list| - 1]); }
  }

  lemma ApplyReserveStep(b: Mirror, id: string, asset: string, isConfig: bool, v: Value)
    requires Coherent(b)
    ensures Step(b, ApplyReserve(b, id, asset, isConfig, v))
  {
    EnsurePoolOk(b, id);
    hide Coherent, Step, PoolOk, PutReserve;
    var p := EnsurePool(b, id);
    EnsuredReserve(Contract(id), p, asset);
    var r := ReserveWith(EnsureReserve(p, asset), isConfig, v).(archived := false, archivedSeq := 0);
    PutReserveOk(Contract(id), p, asset, r);
    PutPoolStep(b, id, PutReserve(p, asset, r));
  }

  lemma ApplyEmissionStep(b: Mirror, id: string, token: nat, isConfig: bool, v: Value)
    requires Coherent(b)
    ensures Step(b, ApplyEmission(b, id, token, isConfig, v))
  {
    EnsurePoolOk(b, id);
    hide Coherent, Step, PoolOk, PutReserve, EmissionFields, EmissionTarget;
    var p := EnsurePool(b, id);
    var target := EmissionTarget(p, token);
    if target.None? {
      PutPoolStep(b, id, p);
    } else {
      EnsuredReserve(Contract(id), p, target.value);
      var e := EnsureReserve(p, target.value);
      var r := e.(fields := e.fields + EmissionFields(token % 2, v, isConfig));
      PutReserveOk(Contract(id), p, target.value, r);
      PutPoolStep(b, id, PutReserve(p, target.value, r));
    }
  }

  /** A pool whose description alone changes keeps its reserves and index maps. */
  lemma InfoOk(k: Key, p: Pool, info: PoolInfo)
    requires PoolOk(k, p) && info.contract == p.info.contract
    ensures PoolOk(k, p.(info := info))
  {
    hide KeyedBy, Published, Ambiguous, Unknown, ReserveSlice;
  }

  lemma PutInfoStep(b: Mirror, id: string, p: Pool, info: PoolInfo)
    requires Coherent(b) && PoolOk(Contract(id), p) && info.contract == id
    ensures Step(b, PutPool(b, id, p.(info := info)))
  {
    hide Coherent, Step, KeyedBy, Fresh;
    InfoOk(Contract(id), p, info);
    PutPoolStep(b, id, p.(info := info));
  }

  lemma WithConfigContract(info: PoolInfo, config: PoolConfig)
    ensures WithConfig(info, config).contract == info.contract
  {
  }

  lemma ListReservesOk(k: Key, p: Pool, v: Value)
    requires PoolOk(k, p)
    ensures PoolOk(k, ListReserves(p, v))
  {
    if v.ReserveListValue? {
      EnsureReservesKeyed(p, v.list);
      FinalizeOk(k, EnsureReserves(p, v.list));
    }
  }

  lemma PoolSymbolOk(k: Key, p: Pool, name: SymbolName, v: Value)
    requires PoolOk(k, p)
    ensures PoolOk(k, PoolSymbol(p, name, v))
  {
    hide PoolOk, ListReserves, WithConfig;
    if name == ResList {
      ListReservesOk(k, p, v);
    } else if name == Config && v.PoolConfigValue? {
      WithConfigContract(p.info, v.config);
      InfoOk(k, p, WithConfig(p.info, v.config));
    } else if name == Backstop && v.AddressValue? {
      InfoOk(k, p, p.info.(backstop := v.address));
    } else if name == PoolEmis && v.PoolEmissionsValue? {
      InfoOk(k, p, p.info.(emissions := Some(v.shares)));
    }
  }

  lemma PoolSymbolStep(b: Mirror, id: string, name: SymbolName, v: Value)
    requires Coherent(b) && name != RewardZone && name != DropList && name != Timestamp
    ensures Step(b, ApplySymbol(b, id, name, v))
  {
    EnsurePoolOk(b, id);
    hide Coherent, Step, PoolOk, EnsurePool, PutPool, PoolSymbol;
    PoolSymbolOk(Contract(id), EnsurePool(b, id), name, v);
    PutPoolStep(b, id, PoolSymbol(EnsurePool(b, id), name, v));
  }

  lemma ApplySymbolStep(b: Mirror, id: string, name: SymbolName, v: Value)
    requires Coherent(b)
    ensures Step(b, ApplySymbol(b, id, name, v))
  {
    EnsuredOwn(b, id);
    StepRefl(b);
    if name == RewardZone || name == DropList {
      hide Coherent, Step, PutInstance, EnsureInstance, PutPool, Finalize;
      if v.AddressListValue? { PutInstanceStep(b, id, EnsureInstance(b, id).(rewardZone := v.addresses)); }
      if v.DropListValue? { PutInstanceStep(b, id, EnsureInstance(b, id).(dropList := v.entries)); }
    } else if name == Timestamp {
      hide Coherent, Step, PutPool, Finalize;
      if Contract(id) in b.oracles && v.IntValue? {
        PutOracleStep(b, id, EnsureOracle(b, id).(lastTimestamp := Some(v.n)), {});
      }
    } else {
      hide Coherent, Step, ApplySymbol;
      PoolSymbolStep(b, id, name, v);
    }
  }

  lemma MarkedPoolStep(b: Mirror, balances: map<Key, Balance>, id: string)
    requires Coherent(b)
    ensures Step(b, MarkPool(b.(backstopPools := balances), id))
  {
    hide Coherent, Step;
    var c := b.(backstopPools := balances);
    SetBackstopStep(b, balances, b.backstopEmis, c.dirtyBackstops + Holders(c, {id}));
  }

  lemma ApplyBackstopEntryStep(b: Mirror, id: string, key: EntryKey, v: Value)
    requires Coherent(b)
    requires key.PoolBalanceKey? || key.UserBalanceEntry? || key.BEmisDataKey? || key.UEmisDataKey?
    ensures Step(b, ApplyEntry(b, id, key, v))
  {
    hide Coherent, Step, ApplyReserve, ApplyEmission, ApplyPositions, MarkPool, EnsureUser, PutUser, UserBalanceKey;
    StepRefl(b);
    EnsuredOwn(b, id);
    match key
    case PoolBalanceKey(poolId) =>
      MarkedPoolStep(b, b.backstopPools[Contract(poolId) := BalanceIn(v)], poolId);
    case UserBalanceEntry(poolId, user) =>
      var e := EnsureUser(b, poolId, user);
      var shares, q4w := if v.UserSharesValue? then v.userShares else "", if v.UserSharesValue? then v.q4w else [];
      PutUserStep(b, UserBalance(user, poolId, shares, q4w, e.emisIndex, e.emisAccrued));
    case BEmisDataKey(poolId) =>
      if v.BackstopEmisValue? { SetBackstopStep(b, b.backstopPools, b.backstopEmis[Contract(poolId) := v.emis], {}); }
    case UEmisDataKey(poolId, user) =>
      if v.UserEmisValue? {
        PutUserStep(b, EnsureUser(b, poolId, user).(user := user, pool := poolId, emisIndex := v.userIndex,
                                                    emisAccrued := v.accrued));
      }
  }

  lemma ApplyPoolEntryStep(b: Mirror, id: string, key: EntryKey, v: Value)
    requires Coherent(b)
    requires key.AuctionEntry? || key.UserEmisKey? || key.ResInitKey? || key.PositionsKey?
    ensures Step(b, ApplyEntry(b, id, key, v))
  {
    StepRefl(b);
    match key
    case AuctionEntry(user, t) =>
      hide Coherent, Step;
      if v.AuctionValue? { SetAuctionStep(b, id, user, t, Some(Auction(id, user, t, v.block, v.lot, v.bid))); }
    case UserEmisKey(user, token) =>
      if v.UserEmisValue? {
        var e := UserEmission(user, id, token, v.userIndex, v.accrued);
        KeyedUpdate(b.userEmis, UserEmissionKey, EmissionOf(user, id, token), e);
        hide Coherent, Step;
        SetEmissionsStep(b, b.userEmis[EmissionOf(user, id, token) := e]);
      }
    case ResInitKey(asset) =>
      hide Coherent, Step;
      if v.QueuedValue? { SetQueuedStep(b, id, asset, Some(QueuedReserve(id, asset, v.unlockTime, v.newConfig))); }
    case PositionsKey(user) =>
      hide Coherent, Step;
      SetPendingStep(b, user, id, Some(Pending(user, id, Some(PositionsIn(v)), false, 0)));
  }

  lemma ApplyEntryStep(b: Mirror, id: string, key: EntryKey, v: Value)
    requires Coherent(b)
    ensures Step(b, ApplyEntry(b, id, key, v))
  {
    hide Coherent, Step, ApplyReserve, ApplyEmission;
    if key.PoolBalanceKey? || key.UserBalanceEntry? || key.BEmisDataKey? || key.UEmisDataKey? {
      hide ApplyEntry;
      ApplyBackstopEntryStep(b, id, key, v);
    } else if key.AuctionEntry? || key.UserEmisKey? || key.ResInitKey? || key.PositionsKey? {
      hide ApplyEntry;
      ApplyPoolEntryStep(b, id, key, v);
    } else {
      match key
      case ResConfigKey(asset) => ApplyReserveStep(b, id, asset, true, v);
      case ResDataKey(asset) => ApplyReserveStep(b, id, asset, false, v);
      case EmisConfigKey(token) => ApplyEmissionStep(b, id, token, true, v);
      case EmisDataKey(token) => ApplyEmissionStep(b, id, token, false, v);
      case _ => StepRefl(b);
    }
  }

  lemma ApplyOracleStep(b: Mirror, id: string, key: EntryKey, v: Value)
    requires Coherent(b)
    ensures ApplyOracle(b, id, key, v).Some? ==> Step(b, ApplyOracle(b, id, key, v).value)
  {
    StepRefl(b);
    EnsuredOwn(b, id);
    if v.InstanceValue? && v.oracle.None? && v.aggregator.Some? {
      KeyedUpdate(b.aggregators, AggregatorKey, Contract(id), AggregatorState(id, v.aggregator.value));
      SetConfigsStep(b, b.aggregators[Contract(id) := AggregatorState(id, v.aggregator.value)], b.instances);
    } else {
      hide Coherent, Step, AssetsAt;
      var o := EnsureOracle(b, id);
      if v.InstanceValue? && v.oracle.Some? {
        PutOracleStep(b, id, WithOracleInstance(o, v.oracle.value), {});
      } else if key.U128Key? {
        var index := OracleIndex(key.hi, key.lo);
        if index.Some? && v.IntValue? {
          PutOracleStep(b, id, o.(priceByIndex := o.priceByIndex[index.value := v.n]),
                        b.changedPriceAssets + AssetsAt(o, index.value));
        }
      }
    }
  }

  lemma ApplyInstanceStep(b: Mirror, id: string, v: Value)
    requires Coherent(b)
    ensures ApplyInstance(b, id, v).Some? ==> Step(b, ApplyInstance(b, id, v).value)
  {
    EnsurePoolOk(b, id);
    EnsuredOwn(b, id);
    hide Coherent, Step, Finalize, Fresh, PoolOk, KeyedBy, EnsurePool, EnsureInstance, PutPool, PutInstance, WithInstance,
      WithAddresses;
    if v.InstanceValue? && v.backstop.Some? {
      WithAddressesContract(EnsureInstance(b, id), v.backstop.value);
      PutInstanceStep(b, id, WithAddresses(EnsureInstance(b, id), v.backstop.value));
    } else if v.InstanceValue? && v.wasmHash.Some? {
      var p := EnsurePool(b, id);
      WithInstanceContract(p.info, v.wasmHash.value, v.pool);
      PutInfoStep(b, id, p, WithInstance(p.info, v.wasmHash.value, v.pool));
    }
  }

  lemma WithAddressesContract(i: BackstopInstance, a: BackstopAddresses)
    ensures WithAddresses(i, a).contract == i.contract
  {
  }

  lemma WithInstanceContract(info: PoolInfo, hash: string, inst: PoolInstance)
    ensures WithInstance(info, hash, inst).contract == info.contract
  {
  }

  lemma ApplyAssetStep(b: Mirror, id: string, a: Asset)
    requires Coherent(b)
    ensures Step(b, b.(assets := b.assets[Contract(id) := a.(contract := id)]))
    ensures Step(b, b.(assets := b.assets - {Contract(id)}))
  {
    KeyedUpdate(b.assets, AssetKey, Contract(id), a.(contract := id));
    SetAssetsStep(b, b.assets[Contract(id) := a.(contract := id)]);
    SetAssetsStep(b, b.assets - {Contract(id)});
  }

  lemma ApplyContractStep(b: Mirror, id: string, key: EntryKey, v: Value)
    requires Coherent(b)
    ensures Step(b, ApplyContract(b, id, key, v))
  {
    hide Coherent, Step, ApplyInstance, ApplySymbol, ApplyEntry;
    ApplyInstanceStep(b, id, v);
    if key.Symbol? { ApplySymbolStep(b, id, key.name, v); } else { ApplyEntryStep(b, id, key, v); }
  }

  lemma ApplyTokenStep(cfg: Owned, b: Mirror, id: string, key: EntryKey, v: Value)
    requires Coherent(b)
    ensures Step(b, ApplyToken(cfg, b, id, key, v))
  {
    hide Coherent, Step, ApplyContract;
    if v.InstanceValue? && v.asset.Some? { ApplyAssetStep(b, id, v.asset.value); }
    StepRefl(b);
    ApplyContractStep(b, id, key, v);
  }

  lemma ApplyOwnedStep(cfg: Owned, b: Mirror, id: string, key: EntryKey, v: Value)
    requires Coherent(b)
    ensures Step(b, ApplyOwned(cfg, b, id, key, v))
  {
    hide Coherent, Step, ApplyOracle, ApplyToken;
    ApplyOracleStep(b, id, key, v);
    ApplyTokenStep(cfg, b, id, key, v);
  }

  lemma ApplyLiveStep(cfg: Owned, b: Mirror, id: string, key: EntryKey, v: Value)
    requires Coherent(b)
    ensures Step(b, ApplyLive(cfg, b, id, key, v))
  {
    hide Coherent, Step, ChangeFeed, ApplyOwned, ApplyToken, FeedWrite;
    ChangeFeedStep(b, id, FeedWrite(key, v));
    ApplyOwnedStep(cfg, b, id, key, v);
    ApplyTokenStep(cfg, b, id, key, v);
  }

  lemma HeldOk(b: Mirror, k: Key)
    requires Coherent(b)
    ensures k in b.pools ==> PoolOk(k, b.pools[k]) && k.Contract? && b.pools[k].info.contract == k.id
    ensures k in b.instances ==> Contract(b.instances[k].contract) == k
    ensures k in b.oracles ==> Contract(b.oracles[k].contract) == k && !b.oracles[k].synthesized
  {
    hide Fresh;
  }

  lemma DeleteSymbolStep(b: Mirror, id: string, name: SymbolName)
    requires Coherent(b)
    ensures Step(b, DeleteSymbol(b, id, name))
  {
    hide Coherent, Step, PoolOk, PutPool, PutInstance, PutOracle;
    var k := Contract(id);
    HeldOk(b, k);
    StepRefl(b);
    DropPoolStep(b, id);
    if k in b.pools {
      PutInfoStep(b, id, b.pools[k], b.pools[k].info.(backstop := ""));
      PutInfoStep(b, id, b.pools[k], b.pools[k].info.(emissions := None));
    }
    if k in b.instances {
      PutInstanceStep(b, id, b.instances[k].(rewardZone := []));
      PutInstanceStep(b, id, b.instances[k].(dropList := []));
    }
    if k in b.oracles { PutOracleStep(b, id, b.oracles[k].(lastTimestamp := None), {}); }
  }

  lemma DeleteReserveStep(b: Mirror, c: Change, asset: string, isConfig: bool, seqNum: int)
    requires Coherent(b)
    ensures Step(b, DeleteReserve(b, c, asset, isConfig, seqNum))
  {
    var k := Contract(c.contract);
    StepRefl(b);
    HeldOk(b, k);
    if k in b.pools {
      hide Coherent, Step, PoolOk, DropReserve, ArchiveReserve, PutPool;
      var p := b.pools[k];
      DropReserveOk(k, p, asset);
      ArchiveReserveOk(k, p, c.payload, asset, isConfig, seqNum);
      PutPoolStep(b, c.contract, DropReserve(p, asset));
      PutPoolStep(b, c.contract, ArchiveReserve(p, c.payload, asset, isConfig, seqNum));
    }
  }

  lemma DropReserveOk(k: Key, p: Pool, asset: string)
    requires PoolOk(k, p)
    ensures PoolOk(k, DropReserve(p, asset))
  {
    KeyedUpdate(p.reserves, ReserveKey, Contract(asset), NewReserve(asset));
    FinalizeOk(k, p.(reserves := p.reserves - {Contract(asset)}));
  }

  lemma ArchiveReserveOk(k: Key, p: Pool, payload: Payload, asset: string, isConfig: bool, seqNum: int)
    requires PoolOk(k, p)
    ensures PoolOk(k, ArchiveReserve(p, payload, asset, isConfig, seqNum))
  {
    hide PoolOk, PutReserve;
    EnsuredReserve(k, p, asset);
    var e := EnsureReserve(p, asset);
    var r := if payload.Decoded? then ReserveWith(e, isConfig, payload.value) else e;
    PutReserveOk(k, p, asset, r.(archived := true, archivedSeq := seqNum));
  }

  lemma DeleteEmissionStep(b: Mirror, id: string, token: nat, isConfig: bool)
    requires Coherent(b)
    ensures Step(b, DeleteEmission(b, id, token, isConfig))
  {
    hide Coherent, Step, PoolOk, PutReserve, PutPool, EmissionTarget, ClearedEmission;
    var k := Contract(id);
    StepRefl(b);
    HeldOk(b, k);
    if k in b.pools {
      var p := b.pools[k];
      var target := EmissionTarget(p, token);
      if target.Some? && Contract(target.value) in p.reserves {
        EnsuredReserve(k, p, target.value);
        var e := p.reserves[Contract(target.value)];
        var r := e.(fields := e.fields - ClearedEmission(token % 2, isConfig));
        PutReserveOk(k, p, target.value, r);
        PutPoolStep(b, id, PutReserve(p, target.value, r));
      }
    }
  }

  lemma DeletePositionsStep(b: Mirror, c: Change, user: string, seqNum: int)
    requires Coherent(b)
    ensures Step(b, DeletePositions(b, c, user, seqNum))
  {
    hide Coherent, Step;
    SetPendingStep(b, user, c.contract, None);
    SetPendingStep(b, user, c.contract,
                   Some(Pending(user, c.contract, ArchivedBlob(b, c, Pair(user, c.contract)), true, seqNum)));
  }

  lemma SetUserStep(b: Mirror, k: Key, u: UserBalance)
    requires Coherent(b)
    ensures Step(b, b.(backstopUsers := b.backstopUsers - {k}, dirtyBackstops := b.dirtyBackstops + {k}))
    ensures UserBalanceKey(u) == k ==>
              Step(b, b.(backstopUsers := b.backstopUsers[k := u], dirtyBackstops := b.dirtyBackstops + {k}))
  {
    KeyedUpdate(b.backstopUsers, UserBalanceKey, k, u);
    hide Coherent, Step, KeyedBy;
    SetUsersStep(b, b.backstopUsers - {k}, b.dirtyBackstops + {k});
    if UserBalanceKey(u) == k { SetUsersStep(b, b.backstopUsers[k := u], b.dirtyBackstops + {k}); }
  }

  lemma DeleteBackstopUserStep(b: Mirror, poolId: string, user: string)
    requires Coherent(b)
    ensures Step(b, DeleteUserBalance(b, poolId, user)) && Step(b, DeleteUserEmission(b, poolId, user))
  {
    hide Coherent, Step;
    var k := Pair(user, poolId);
    EnsuredOwn(b, poolId);
    StepRefl(b);
    var u := EnsureUser(b, poolId, user);
    SetUserStep(b, k, u.(shares := "", q4w := []));
    SetUserStep(b, k, u.(emisIndex := "", emisAccrued := ""));
  }

  lemma DropEmissionStep(b: Mirror, k: Key)
    requires Coherent(b)
    ensures Step(b, b.(userEmis := b.userEmis - {k}))
  {
    hide Step;
    SetEmissionsStep(b, b.userEmis - {k});
  }

  lemma DeleteEntryStep(b: Mirror, c: Change, key: EntryKey, seqNum: int)
    requires Coherent(b)
    ensures Step(b, DeleteEntry(b, c, key, seqNum))
  {
    hide Coherent, Step, KeyedBy, DeleteReserve, DeleteEmission, DeletePositions, DeleteUserBalance, DeleteUserEmission, MarkPool;
    match key
    case UserEmisKey(user, token) => DropEmissionStep(b, EmissionOf(user, c.contract, token));
    case ResConfigKey(asset) => DeleteReserveStep(b, c, asset, true, seqNum);
    case ResDataKey(asset) => DeleteReserveStep(b, c, asset, false, seqNum);
    case EmisConfigKey(token) => DeleteEmissionStep(b, c.contract, token, true);
    case EmisDataKey(token) => DeleteEmissionStep(b, c.contract, token, false);
    case PositionsKey(user) => DeletePositionsStep(b, c, user, seqNum);
    case PoolBalanceKey(poolId) => MarkedPoolStep(b, b.backstopPools - {Contract(poolId)}, poolId);
    case UserBalanceEntry(poolId, user) => DeleteBackstopUserStep(b, poolId, user);
    case UEmisDataKey(poolId, user) => DeleteBackstopUserStep(b, poolId, user);
    case BEmisDataKey(poolId) => SetBackstopStep(b, b.backstopPools, b.backstopEmis - {Contract(poolId)}, {});
    case AuctionEntry(user, t) => SetAuctionStep(b, c.contract, user, t, None);
    case ResInitKey(asset) => SetQueuedStep(b, c.contract, asset, None);
    case _ => StepRefl(b);
  }

  lemma DropInstanceStep(b: Mirror, id: string)
    requires Coherent(b)
    ensures Step(b, b.(aggregators := b.aggregators - {Contract(id)}, instances := b.instances - {Contract(id)}))
  {
    var k := Contract(id);
    KeyedUpdate(b.instances, InstanceKeyOf, k, EnsureInstance(b, id));
    KeyedUpdate(b.aggregators, AggregatorKey, k, AggregatorState(id, Aggregator(0, 0, "", [], map[], map[])));
    SetConfigsStep(b, b.aggregators - {k}, b.instances - {k});
  }

  lemma ApplyDeleteStep(cfg: Owned, b: Mirror, c: Change, key: EntryKey, seqNum: int)
    requires Coherent(b)
    ensures Step(b, ApplyDelete(cfg, b, c, key, seqNum))
  {
    hide Coherent, Step, ChangeFeed, DeleteSymbol, DeleteEntry, AssetsAt, FeedDelete, PutOracle;
    var id := c.contract;
    var k := Contract(id);
    StepRefl(b);
    HeldOk(b, k);
    ApplyAssetStep(b, id, Asset(id, "", "", 0));
    DropInstanceStep(b, id);
    ChangeFeedStep(b, id, FeedDelete(key));
    if key.U128Key? && k in b.oracles {
      var index := OracleIndex(key.hi, key.lo);
      if index.Some? {
        var o := b.oracles[k];
        PutOracleStep(b, id, o.(priceByIndex := o.priceByIndex - {index.value}),
                      b.changedPriceAssets + AssetsAt(o, index.value));
      }
    }
    if key.Symbol? { DeleteSymbolStep(b, id, key.name); } else { DeleteEntryStep(b, c, key, seqNum); }
  }

  /** Every change keeps the mirror coherent, and what it does not mark dirty it does not touch. */
  lemma ApplyStep(cfg: Owned, b: Mirror, c: Change, seqNum: int)
    requires Coherent(b)
    ensures Step(b, Apply(cfg, b, c, seqNum))
  {
    StepRefl(b);
    hide Coherent, Step, ApplyDelete, ApplyLive;
    if c.key.Some? {
      ApplyDeleteStep(cfg, b, c, c.key.value, seqNum);
      if c.payload.Decoded? { ApplyLiveStep(cfg, b, c.contract, c.key.value, c.payload.value); }
    }
  }

  /** The same for a whole ledger of changes. */
  lemma {:induction false} ApplyAllStep(cfg: Owned, b: Mirror, changes: seq<Change>, seqNum: int)
    requires Coherent(b)
    ensures Step(b, ApplyAll(cfg, b, changes, seqNum))
  {
    StepRefl(b);
    hide Coherent, Apply;
    if changes != [] {
      var head := changes[..|changes| - 1];
      ApplyAllStep(cfg, b, head, seqNum);
      ApplyStep(cfg, ApplyAll(cfg, b, head, seqNum), changes[|changes| - 1], seqNum);
      StepTransitive(b, ApplyAll(cfg, b, head, seqNum), ApplyAll(cfg, b, changes, seqNum));
    }
  }

  // ---- decodability of the carried blobs -------------------------------------------------------

  ghost predicate AllDecodable(b: Mirror) { forall k :: k in b.pending ==> b.pending[k].blob.Some? }

  /** The one branch that stores an empty blob: archiving an entry whose present value does not decode and that has no
      carried blob to keep. */
  predicate LossyArchive(cfg: Owned, b: Mirror, c: Change, seqNum: int) {
    && c.key.Some? && c.key.value.PositionsKey? && !IsLive(c, seqNum) && !c.removed && c.payload.Undecodable?
    && Pair(c.key.value.user, c.contract) !in b.pending
    && c.contract !in cfg.feeds && c.contract !in cfg.assets
  }

  lemma EntryDecodable(b: Mirror, id: string, key: EntryKey, v: Value)
    requires AllDecodable(b)
    ensures AllDecodable(ApplyEntry(b, id, key, v))
  {
    if key.PositionsKey? {
      assert ApplyEntry(b, id, key, v) == ApplyPositions(b, id, key.user, v);
    } else {
      hide ApplyEntry;
    }
  }

  lemma ContractDecodable(b: Mirror, id: string, key: EntryKey, v: Value)
    requires AllDecodable(b)
    ensures AllDecodable(ApplyContract(b, id, key, v))
  {
    hide ApplySymbol, ApplyInstance, ApplyEntry, AllDecodable;
    SamePendingDecodable(b, ApplyContract(b, id, key, v));
    EntryDecodable(b, id, key, v);
  }

  lemma LiveDecodable(cfg: Owned, b: Mirror, id: string, key: EntryKey, v: Value)
    requires AllDecodable(b)
    ensures AllDecodable(ApplyLive(cfg, b, id, key, v))
  {
    hide ApplyOracle, ApplyContract, ApplyAsset, ChangeFeed, FeedWrite, AllDecodable;
    SamePendingDecodable(b, ApplyLive(cfg, b, id, key, v));
    ContractDecodable(b, id, key, v);
  }

  lemma PutPendingDecodable(b: Mirror, d: Mirror, k: Key, p: Pending)
    requires AllDecodable(b) && d.pending == b.pending[k := p]
    ensures AllDecodable(d) <==> p.blob.Some?
  {
    assert k in d.pending && d.pending[k] == p;
  }

  lemma DropPendingDecodable(b: Mirror, d: Mirror, k: Key)
    requires AllDecodable(b) && d.pending == b.pending - {k}
    ensures AllDecodable(d)
  {
  }

  lemma DeletedPositionsDecodable(b: Mirror, c: Change, user: string, seqNum: int)
    requires AllDecodable(b)
    ensures AllDecodable(DeletePositions(b, c, user, seqNum)) <==>
            !(!c.removed && c.payload.Undecodable? && Pair(user, c.contract) !in b.pending)
  {
    var d, k := DeletePositions(b, c, user, seqNum), Pair(user, c.contract);
    assert k in b.pending ==> b.pending[k].blob.Some?;
    hide AllDecodable;
    if c.removed {
      DropPendingDecodable(b, d, k);
    } else if c.payload == Absent && k !in b.pending {
      SamePendingDecodable(b, d);
    } else {
      PutPendingDecodable(b, d, k, d.pending[k]);
    }
  }

  lemma DeletedEntryDecodable(b: Mirror, c: Change, key: EntryKey, seqNum: int)
    requires AllDecodable(b)
    ensures AllDecodable(DeleteEntry(b, c, key, seqNum)) <==>
            !(key.PositionsKey? && !c.removed && c.payload.Undecodable? && Pair(key.user, c.contract) !in b.pending)
  {
    hide AllDecodable, DeletePositions;
    if key.PositionsKey? {
      DeletedPositionsDecodable(b, c, key.user, seqNum);
      assert DeleteEntry(b, c, key, seqNum) == DeletePositions(b, c, key.user, seqNum);
    } else {
      hide DeleteEntry;
      SamePendingDecodable(b, DeleteEntry(b, c, key, seqNum));
    }
  }

  lemma DeletedDecodable(cfg: Owned, b: Mirror, c: Change, key: EntryKey, seqNum: int)
    requires AllDecodable(b)
    ensures AllDecodable(ApplyDelete(cfg, b, c, key, seqNum)) <==>
            !(key.PositionsKey? && !c.removed && c.payload.Undecodable? && Pair(key.user, c.contract) !in b.pending
              && c.contract !in cfg.feeds && c.contract !in cfg.assets)
  {
    hide DeleteEntry, AllDecodable;
    if key.PositionsKey? && c.contract !in cfg.feeds && c.contract !in cfg.assets {
      assert ApplyDelete(cfg, b, c, key, seqNum) == DeleteEntry(b, c, key, seqNum);
      DeletedEntryDecodable(b, c, key, seqNum);
    } else {
      hide ApplyDelete;
      SamePendingDecodable(b, ApplyDelete(cfg, b, c, key, seqNum));
    }
  }

  lemma SamePendingDecodable(b: Mirror, d: Mirror)
    ensures d.pending == b.pending ==> (AllDecodable(d) <==> AllDecodable(b))
  {
  }

  lemma ApplyDecodable(cfg: Owned, b: Mirror, c: Change, seqNum: int)
    requires AllDecodable(b)
    ensures AllDecodable(Apply(cfg, b, c, seqNum)) <==> !LossyArchive(cfg, b, c, seqNum)
  {
    hide ApplyLive, ApplyDelete, AllDecodable;
    if c.key.Some? {
      DeletedDecodable(cfg, b, c, c.key.value, seqNum);
      if c.payload.Decoded? { LiveDecodable(cfg, b, c.contract, c.key.value, c.payload.value); }
    }
  }

  /** What a caller can check of a ledger before decoding it: no present Positions value fails to decode. */
  predicate PositionsDecode(changes: seq<Change>) {
    forall i | 0 <= i < |changes| ::
      !(changes[i].key.Some? && changes[i].key.value.PositionsKey? && changes[i].payload.Undecodable?)
  }

  lemma {:induction false} ApplyAllDecodable(cfg: Owned, b: Mirror, changes: seq<Change>, seqNum: int)
    requires AllDecodable(b) && PositionsDecode(changes)
    ensures AllDecodable(ApplyAll(cfg, b, changes, seqNum))
  {
    if changes != [] {
      ApplyAllDecodable(cfg, b, changes[..|changes| - 1], seqNum);
      ApplyDecodable(cfg, ApplyAll(cfg, b, changes[..|changes| - 1], seqNum), changes[|changes| - 1], seqNum);
    }
  }

  // ---- building does not move the index maps ---------------------------------------------------

  ghost predicate SameClaims(m: map<Key, Reserve>, n: map<Key, Reserve>) {
    m.Keys == n.Keys &&
    forall k :: k in m ==> m[k].asset == n[k].asset && m[k].index == n[k].index && m[k].indexKnown == n[k].indexKnown
  }

  lemma ClaimsCarry(m: map<Key, Reserve>, n: map<Key, Reserve>, i: int, a: string)
    requires SameClaims(m, n) && ClaimedBy(m, i, a)
    ensures ClaimedBy(n, i, a)
  {
    var k :| k in m && m[k].indexKnown && m[k].index == i && m[k].asset == a &&
             forall j :: j in m && m[j].indexKnown && m[j].index == i ==> j == k;
    assert k in n;
  }

  lemma ClaimUnique(m: map<Key, Reserve>, i: int, a: string, b: string)
    requires ClaimedBy(m, i, a) && ClaimedBy(m, i, b)
    ensures a == b
  {
  }

  lemma SamePublished(m: map<Key, Reserve>, rs: seq<Reserve>, n: map<Key, Reserve>, ss: seq<Reserve>)
    requires KeyedBy(m, ReserveKey) && KeyedBy(n, ReserveKey) && SameClaims(m, n)
    requires DistinctKeys(rs, ReserveKey) && DistinctKeys(ss, ReserveKey)
    requires forall r :: r in rs <==> ReserveKey(r) in m && m[ReserveKey(r)] == r
    requires forall r :: r in ss <==> ReserveKey(r) in n && n[ReserveKey(r)] == r
    ensures Published(rs) == Published(ss)
  {
    hide Published, ClaimedBy, KeyedBy, DistinctKeys, SameClaims;
    var p, q := Published(rs), Published(ss);
    SameClaimsBack(m, n);
    forall i | i in p ensures i in q && q[i] == p[i] {
      ResolvedIsClaimed(rs, m, i);
      ClaimsCarry(m, n, i, p[i]);
      ClaimedIsResolved(ss, n, i, p[i]);
      ResolvedIsClaimed(ss, n, i);
      ClaimUnique(n, i, p[i], q[i]);
    }
    forall i | i in q ensures i in p {
      ResolvedIsClaimed(ss, n, i);
      ClaimsCarry(n, m, i, q[i]);
      ClaimedIsResolved(rs, m, i, q[i]);
    }
    assert p.Keys == q.Keys;
  }

  lemma SameClaimsBack(m: map<Key, Reserve>, n: map<Key, Reserve>)
    requires SameClaims(m, n)
    ensures SameClaims(n, m)
  {
  }

  lemma PricedClaim(o: Oracle, r: Reserve)
    ensures var q := PriceReserve(o, r); q.asset == r.asset && q.index == r.index && q.indexKnown == r.indexKnown
    ensures ReserveKey(PriceReserve(o, r)) == ReserveKey(r)
  {
  }

  lemma PricedClaims(oracles: map<Key, Oracle>, p: Pool)
    requires KeyedBy(p.reserves, ReserveKey)
    ensures KeyedBy(PricePool(oracles, p).reserves, ReserveKey) && SameClaims(p.reserves, PricePool(oracles, p).reserves)
    ensures PricePool(oracles, p).info == p.info
  {
    hide PriceReserve, ReserveKey;
    if Contract(p.info.oracle) in oracles {
      forall r { PricedClaim(oracles[Contract(p.info.oracle)], r); }
    }
  }

  /** Pricing, merging and finalizing a pool leave its published index map as the changes left it. */
  lemma BuildPoolOk(b: Mirror, oracles: map<Key, Oracle>, k: Key, p: Pool)
    requires PoolOk(k, p)
    ensures PoolOk(k, BuildPool(b, oracles, p))
    ensures BuildPool(b, oracles, p).byIndex == p.byIndex
    ensures BuildPool(b, oracles, p).info.backstop == p.info.backstop
  {
    var q := PricePool(oracles, p);
    PricedClaims(oracles, p);
    ReserveSliceFacts(p.reserves);
    ReserveSliceFacts(q.reserves);
    hide PricePool, ReserveSlice, KeyedBy, DistinctKeys, SameClaims, Claimants, Ambiguous, Unknown;
    SamePublished(p.reserves, ReserveSlice(p.reserves), q.reserves, ReserveSlice(q.reserves));
    hide Published;
  }

  lemma BuiltPools(b: Mirror, closeTime: Option<int>)
    requires Coherent(b)
    ensures var c := Built(b, closeTime);
            && PoolsOk(c.pools) && c.pools.Keys == b.pools.Keys
            && (forall k :: k in b.pools ==> c.pools[k].byIndex == b.pools[k].byIndex)
  {
    hide BuildPool, ResolveAggregators, KeyedBy, PoolOk;
    var oracles := ResolveAggregators(b, closeTime);
    forall k | k in b.pools ensures PoolOk(k, BuildPool(b, oracles, b.pools[k]))
                                    && BuildPool(b, oracles, b.pools[k]).byIndex == b.pools[k].byIndex {
      BuildPoolOk(b, oracles, k, b.pools[k]);
    }
  }

  // ---- carry equals reload ---------------------------------------------------------------------

  lemma PoolsReload(pools: map<Key, Pool>)
    requires PoolsOk(pools)
    ensures var s := Slice(map k | k in pools :: PublishPool(pools[k]));
            && Collect(s, PoolKey, PoolOf) == pools
            && Collect(s, PoolKey, BalanceOf) == (map k | k in pools && !pools[k].info.balance.Empty() :: pools[k].info.balance)
            && Collect(s, PoolKey, EmisOf) == (map k | k in pools && !pools[k].info.emis.Empty() :: pools[k].info.emis)
  {
    hide Fresh, LoadPool, ReserveSlice, Slice, Collect, PoolsOk, KeyedBy;
    var m := map k | k in pools :: PublishPool(pools[k]);
    PublishedKeyed(pools);
    PoolsRestored(pools);
    CollectIs(m, PoolKey, PoolOf, pools);
    hide PoolOf;
    CollectIs(m, PoolKey, BalanceOf, map k | k in pools && !pools[k].info.balance.Empty() :: pools[k].info.balance);
    hide BalanceOf;
    CollectIs(m, PoolKey, EmisOf, map k | k in pools && !pools[k].info.emis.Empty() :: pools[k].info.emis);
  }

  lemma PublishedKeyed(pools: map<Key, Pool>)
    requires PoolsOk(pools)
    ensures KeyedBy(map k | k in pools :: PublishPool(pools[k]), PoolKey)
  {
    hide Fresh, ReserveSlice;
  }

  lemma PoolsRestored(pools: map<Key, Pool>)
    requires PoolsOk(pools)
    ensures forall k :: k in pools ==> LoadPool(PublishPool(pools[k])) == pools[k]
  {
    hide Fresh, LoadPool, PublishPool, KeyedBy;
    forall k | k in pools ensures LoadPool(PublishPool(pools[k])) == pools[k] {
      PoolRoundTrip(pools[k]);
    }
  }

  lemma KeptReload<V>(m: map<Key, V>, keyOf: V -> Key)
    requires KeyedBy(m, keyOf)
    ensures Collect(Slice(m), keyOf, Keep<V>) == m
  {
    CollectIs(m, keyOf, Keep<V>, m);
  }

  lemma BackstopsReload(b: Mirror)
    requires KeyedBy(b.backstopUsers, UserBalanceKey)
    ensures Collect(Slice(map k | k in b.backstopUsers :: BackstopPosition(b, b.backstopUsers[k])), BackstopRowKey, UserOf)
            == b.backstopUsers
  {
    hide Slice, Collect, BackstopPosition;
    var m := map k | k in b.backstopUsers :: BackstopPosition(b, b.backstopUsers[k]);
    assert KeyedBy(m, BackstopRowKey);
    CollectIs(m, BackstopRowKey, UserOf, b.backstopUsers);
  }

  lemma OraclesReload(oracles: map<Key, Oracle>)
    requires KeyedBy(oracles, OracleKey)
    ensures var m := map k | k in oracles && !oracles[k].synthesized :: oracles[k];
            Collect(Slice(m), OracleKey, OracleOf) == m
  {
    hide Slice, Collect;
    var m := map k | k in oracles && !oracles[k].synthesized :: oracles[k];
    assert KeyedBy(m, OracleKey);
    CollectIs(m, OracleKey, OracleOf, m);
  }

  /** A position blob survives the reload exactly when its text decodes. */
  lemma PendingReload(pending: map<Key, Pending>)
    requires KeyedBy(pending, PendingKey)
    ensures Collect(Slice(pending), PendingKey, PendingOf) == DecodablePart(pending)
    ensures Collect(Slice(pending), PendingKey, PendingOf) == pending <==> forall k :: k in pending ==> pending[k].blob.Some?
  {
    hide Slice, Collect, KeyedBy;
    CollectIs(pending, PendingKey, PendingOf, DecodablePart(pending));
    hide DecodablePart;
    DecodableAll(pending);
  }

  function DecodablePart(pending: map<Key, Pending>): map<Key, Pending> {
    map k | k in pending && pending[k].blob.Some? :: pending[k]
  }

  lemma DecodableAll(pending: map<Key, Pending>)
    ensures DecodablePart(pending) == pending <==> forall k :: k in pending ==> pending[k].blob.Some?
  {
    var d := DecodablePart(pending);
    if d == pending {
      forall k | k in pending ensures pending[k].blob.Some? { assert k in d; }
    }
  }

  lemma BuiltKeyed(b: Mirror, closeTime: Option<int>)
    requires Coherent(b)
    ensures KeyedBy(Built(b, closeTime).oracles, OracleKey) && KeyedBy(Built(b, closeTime).feeds, FeedKey)
  {
  }

  /** Carry equals reload. After a ledger is published, normalizeCarry makes the live mirror the one loadPrior would
      reconstruct from the published state exactly when every carried Positions blob decodes. */
  lemma CarryEqualsReload(b: Mirror, closeTime: Option<int>, users: seq<Row>)
    requires Coherent(b)
    ensures NormalizeCarry(Built(b, closeTime)) == Load(Publish(Built(b, closeTime), users, Slice(b.pending)))
            <==> AllDecodable(b)
  {
    var c := Built(b, closeTime);
    var s := Publish(c, users, Slice(b.pending));
    var n, l := NormalizeCarry(c), Load(s);
    BuiltPools(b, closeTime);
    BuiltKeyed(b, closeTime);
    PoolsReload(c.pools);
    BackstopsReload(c);
    OraclesReload(c.oracles);
    PendingReload(b.pending);
    KeptReload(c.auctions, AuctionKey);
    KeptReload(c.userEmis, UserEmissionKey);
    KeptReload(c.queued, QueuedKey);
    KeptReload(c.instances, InstanceKeyOf);
    KeptReload(c.feeds, FeedKey);
    KeptReload(c.aggregators, AggregatorKey);
    KeptReload(c.assets, AssetKey);
    assert n == l.(pending := b.pending);
  }

  /** A mirror that has just been loaded from a published state is coherent. */
  lemma ReloadCoherent(b: Mirror, closeTime: Option<int>)
    requires Coherent(b)
    ensures Coherent(NormalizeCarry(Built(b, closeTime)))
  {
    BuiltPools(b, closeTime);
    BuiltKeyed(b, closeTime);
  }
}
