/** The builder of the reducer as the decoder runs it: maps on the heap, updated in place by one change at a time. Every
    method is tied to the function of the same name on the builder's view. */
module Builder {
  import opened Options
  import opened Keys
  import opened Slices
  import opened Entries
  import opened Reserves
  import opened Reflector
  import opened M = Mirror
  import Reference

  /** The entries a loop over a map has not visited change nothing; the visited ones are those of the result. */
  ghost predicate Visited<V>(now: map<Key, V>, was: map<Key, V>, done: map<Key, V>, todo: set<Key>) {
    && now.Keys == was.Keys + (done.Keys - todo)
    && forall k :: k in now ==> now[k] == if k in done && k !in todo then done[k] else was[k]
  }

  lemma NothingVisited<V>(was: map<Key, V>, done: map<Key, V>)
    ensures Visited(was, was, done, done.Keys)
  {
  }

  lemma OneVisited<V>(now: map<Key, V>, was: map<Key, V>, done: map<Key, V>, todo: set<Key>, k: Key)
    requires Visited(now, was, done, todo) && k in todo && k in done
    ensures Visited(now[k := done[k]], was, done, todo - {k})
  {
  }

  lemma AllVisited<V>(now: map<Key, V>, was: map<Key, V>, done: map<Key, V>)
    requires Visited(now, was, done, {})
    ensures now == was + done
  {
  }

  /** blendStateBuilder */
  class StateBuilder {
    var pools: map<Key, Pool>
    var pending: map<Key, Pending>
    var backstopPools: map<Key, Balance>
    var backstopUsers: map<Key, UserBalance>
    var backstopEmis: map<Key, Emis>
    var auctions: map<Key, Auction>
    var userEmis: map<Key, UserEmission>
    var queued: map<Key, QueuedReserve>
    var instances: map<Key, BackstopInstance>
    var oracles: map<Key, Oracle>
    var feeds: map<Key, FeedState>
    var aggregators: map<Key, AggregatorState>
    var assets: map<Key, Asset>
    var dirtyUsers: set<Key>
    var dirtyTemporary: set<Key>
    var dirtyBackstops: set<Key>
    var changedFeeds: set<string>
    var changedPriceAssets: set<string>

    function View(): Mirror
      reads this
    {
      Mirror(pools, pending, backstopPools, backstopUsers, backstopEmis, auctions, userEmis, queued, instances, oracles,
             feeds, aggregators, assets, dirtyUsers, dirtyTemporary, dirtyBackstops, changedFeeds, changedPriceAssets)
    }

    constructor ()
      ensures View() == EMPTY_MIRROR
    {
      pools, pending, backstopPools, backstopUsers, backstopEmis := map[], map[], map[], map[], map[];
      auctions, userEmis, queued, instances := map[], map[], map[], map[];
      oracles, feeds, aggregators, assets := map[], map[], map[], map[];
      dirtyUsers, dirtyTemporary, dirtyBackstops, changedFeeds, changedPriceAssets := {}, {}, {}, {}, {};
    }

    // ---- live changes --------------------------------------------------------------------------

    method SetPool(id: string, p: Pool)
      modifies this`pools
      ensures View() == PutPool(old(View()), id, p)
    {
      pools := pools[Contract(id) := p];
    }

    method SetInstance(id: string, i: BackstopInstance)
      modifies this`instances
      ensures View() == PutInstance(old(View()), id, i)
    {
      instances := instances[Contract(id) := i];
    }

    method SetOracle(id: string, o: Oracle)
      modifies this`oracles
      ensures View() == PutOracle(old(View()), id, o)
    {
      oracles := oracles[Contract(id) := o];
    }

    method ApplySymbol(id: string, name: SymbolName, v: Value)
      modifies this`pools, this`instances, this`oracles
      ensures View() == M.ApplySymbol(old(View()), id, name, v)
    {
      hide PoolSymbol, PutPool, PutInstance, PutOracle;
      if name == RewardZone {
        if v.AddressListValue? {
          SetInstance(id, EnsureInstance(View(), id).(rewardZone := v.addresses));
        }
      } else if name == DropList {
        if v.DropListValue? {
          SetInstance(id, EnsureInstance(View(), id).(dropList := v.entries));
        }
      } else if name == Timestamp {
        if Contract(id) in oracles && v.IntValue? {
          SetOracle(id, oracles[Contract(id)].(lastTimestamp := Some(v.n)));
        }
      } else {
        SetPool(id, PoolSymbol(EnsurePool(View(), id), name, v));
      }
    }

    method ApplyReserve(id: string, asset: string, isConfig: bool, v: Value)
      modifies this`pools
      ensures View() == M.ApplyReserve(old(View()), id, asset, isConfig, v)
    {
      hide PutPool, PutReserve, EnsureReserve, ReserveWith, EnsurePool;
      var p := EnsurePool(View(), id);
      var r := ReserveWith(EnsureReserve(p, asset), isConfig, v).(archived := false, archivedSeq := 0);
      SetPool(id, PutReserve(p, asset, r));
    }

    method ApplyEmission(id: string, token: nat, isConfig: bool, v: Value)
      modifies this`pools
      ensures View() == M.ApplyEmission(old(View()), id, token, isConfig, v)
    {
      hide PutPool, PutReserve, EnsureReserve, EmissionFields, EnsurePool, EmissionTarget;
      var p := EnsurePool(View(), id);
      var target := EmissionTarget(p, token);
      if target.Some? {
        var r := EnsureReserve(p, target.value);
        p := PutReserve(p, target.value, r.(fields := r.fields + EmissionFields(token % 2, v, isConfig)));
      }
      SetPool(id, p);
    }

    method ApplyPositions(id: string, user: string, v: Value)
      modifies this`pending, this`dirtyUsers
      ensures View() == M.ApplyPositions(old(View()), id, user, v)
    {
      var k := Pair(user, id);
      pending := pending[k := Pending(user, id, Some(PositionsIn(v)), false, 0)];
      dirtyUsers := dirtyUsers + {k};
    }

    method PutHolder(u: UserBalance)
      modifies this`backstopUsers, this`dirtyBackstops
      ensures View() == PutUser(old(View()), u)
    {
      backstopUsers := backstopUsers[UserBalanceKey(u) := u];
      dirtyBackstops := dirtyBackstops + {UserBalanceKey(u)};
    }

    /** markBackstopPoolDirty: every holder of one pool's backstop. */
    method MarkBackstopPoolDirty(id: string)
      modifies this`dirtyBackstops
      ensures View() == MarkPool(old(View()), id)
    {
      var todo := backstopUsers.Keys;
      ghost var was := dirtyBackstops;
      while todo != {}
        invariant todo <= backstopUsers.Keys
        invariant dirtyBackstops == was + set k | k in backstopUsers && k !in todo && backstopUsers[k].pool in {id} ::
                                            UserBalanceKey(backstopUsers[k])
        decreases |todo|
      {
        var k :| k in todo;
        if backstopUsers[k].pool == id {
          dirtyBackstops := dirtyBackstops + {UserBalanceKey(backstopUsers[k])};
        }
        todo := todo - {k};
      }
    }

    method ApplyUserBalance(poolId: string, user: string, v: Value)
      modifies this`backstopUsers, this`dirtyBackstops
      ensures View() == M.ApplyUserBalance(old(View()), poolId, user, v)
    {
      hide PutUser, EnsureUser;
      var e := EnsureUser(View(), poolId, user);
      var shares, q4w := "", [];
      if v.UserSharesValue? {
        shares, q4w := v.userShares, v.q4w;
      }
      PutHolder(UserBalance(user, poolId, shares, q4w, e.emisIndex, e.emisAccrued));
    }

    method SetBalance(poolId: string, balance: Balance)
      modifies this`backstopPools, this`dirtyBackstops
      ensures View() == MarkPool(old(View()).(backstopPools := old(View()).backstopPools[Contract(poolId) := balance]), poolId)
    {
      backstopPools := backstopPools[Contract(poolId) := balance];
      MarkBackstopPoolDirty(poolId);
    }

    method DropBalance(poolId: string)
      modifies this`backstopPools, this`dirtyBackstops
      ensures View() == MarkPool(old(View()).(backstopPools := old(View()).backstopPools - {Contract(poolId)}), poolId)
    {
      backstopPools := backstopPools - {Contract(poolId)};
      MarkBackstopPoolDirty(poolId);
    }

    /** The backstop's entries. */
    method ApplyBackstopEntry(id: string, key: EntryKey, v: Value)
      requires key.PoolBalanceKey? || key.UserBalanceEntry? || key.BEmisDataKey? || key.UEmisDataKey?
      modifies this`backstopPools, this`backstopUsers, this`backstopEmis, this`dirtyBackstops
      ensures View() == M.ApplyEntry(old(View()), id, key, v)
    {
      hide MarkPool, PutUser, EnsureUser, M.ApplyUserBalance, BalanceIn, View;
      match key
      case PoolBalanceKey(poolId) =>
        SetBalance(poolId, BalanceIn(v));
      case UserBalanceEntry(poolId, user) =>
        ApplyUserBalance(poolId, user, v);
      case BEmisDataKey(poolId) =>
        if v.BackstopEmisValue? && !v.emis.Empty() {
          SetBackstopEmissions(View().backstopEmis[Contract(poolId) := v.emis]);
        }
      case UEmisDataKey(poolId, user) =>
        if v.UserEmisValue? {
          PutHolder(EnsureUser(View(), poolId, user)
                    .(user := user, pool := poolId, emisIndex := v.userIndex, emisAccrued := v.accrued));
        }
    }

    method PutAuction(k: Key, a: Auction, temporary: Key)
      modifies this`auctions, this`dirtyTemporary
      ensures View() == old(View()).(auctions := old(View()).auctions[k := a], dirtyTemporary := old(View()).dirtyTemporary + {temporary})
    {
      auctions := auctions[k := a];
      dirtyTemporary := dirtyTemporary + {temporary};
    }

    method DropAuction(k: Key, temporary: Key)
      modifies this`auctions, this`dirtyTemporary
      ensures View() == old(View()).(auctions := old(View()).auctions - {k}, dirtyTemporary := old(View()).dirtyTemporary + {temporary})
    {
      auctions := auctions - {k};
      dirtyTemporary := dirtyTemporary + {temporary};
    }

    method PutQueued(k: Key, q: QueuedReserve, temporary: Key)
      modifies this`queued, this`dirtyTemporary
      ensures View() == old(View()).(queued := old(View()).queued[k := q], dirtyTemporary := old(View()).dirtyTemporary + {temporary})
    {
      queued := queued[k := q];
      dirtyTemporary := dirtyTemporary + {temporary};
    }

    method DropQueued(k: Key, temporary: Key)
      modifies this`queued, this`dirtyTemporary
      ensures View() == old(View()).(queued := old(View()).queued - {k}, dirtyTemporary := old(View()).dirtyTemporary + {temporary})
    {
      queued := queued - {k};
      dirtyTemporary := dirtyTemporary + {temporary};
    }

    method SetUserEmissions(m: map<Key, UserEmission>)
      modifies this`userEmis
      ensures View() == old(View()).(userEmis := m)
    {
      userEmis := m;
    }

    method SetBackstopEmissions(m: map<Key, Emis>)
      modifies this`backstopEmis
      ensures View() == old(View()).(backstopEmis := m)
    {
      backstopEmis := m;
    }

    /** A pool's auctions, user emissions and queued reserves. */
    method ApplyPoolEntry(id: string, key: EntryKey, v: Value)
      requires key.AuctionEntry? || key.UserEmisKey? || key.ResInitKey?
      modifies this`auctions, this`userEmis, this`queued, this`dirtyTemporary
      ensures View() == M.ApplyEntry(old(View()), id, key, v)
    {
      hide TemporaryAuction, TemporaryQueued, View;
      match key
      case AuctionEntry(user, auctionType) =>
        if v.AuctionValue? {
          PutAuction(AuctionOf(id, user, auctionType), Auction(id, user, auctionType, v.block, v.lot, v.bid),
                     TemporaryAuction(id, user, auctionType));
        }
      case UserEmisKey(user, token) =>
        if v.UserEmisValue? {
          SetUserEmissions(View().userEmis[EmissionOf(user, id, token) :=
                                           UserEmission(user, id, token, v.userIndex, v.accrued)]);
        }
      case ResInitKey(asset) =>
        if v.QueuedValue? {
          PutQueued(ReserveOf(id, asset), QueuedReserve(id, asset, v.unlockTime, v.newConfig), TemporaryQueued(id, asset));
        }
    }

    method ApplyEntry(id: string, key: EntryKey, v: Value)
      modifies this
      ensures View() == M.ApplyEntry(old(View()), id, key, v)
    {
      hide M.ApplyReserve, M.ApplyEmission, M.ApplyPositions;
      if key.PoolBalanceKey? || key.UserBalanceEntry? || key.BEmisDataKey? || key.UEmisDataKey? {
        hide M.ApplyEntry;
        ApplyBackstopEntry(id, key, v);
      } else if key.AuctionEntry? || key.UserEmisKey? || key.ResInitKey? {
        hide M.ApplyEntry;
        ApplyPoolEntry(id, key, v);
      } else {
        match key
        case ResConfigKey(asset) => ApplyReserve(id, asset, true, v);
        case ResDataKey(asset) => ApplyReserve(id, asset, false, v);
        case EmisConfigKey(token) => ApplyEmission(id, token, true, v);
        case EmisDataKey(token) => ApplyEmission(id, token, false, v);
        case PositionsKey(user) => ApplyPositions(id, user, v);
        case _ =>
      }
    }

    /** An owned contract's oracle instance, aggregator instance or oracle price; false when it is none of them. */
    method ApplyOracle(id: string, key: EntryKey, v: Value) returns (handled: bool)
      modifies this`oracles, this`aggregators, this`changedPriceAssets
      ensures var c := M.ApplyOracle(old(View()), id, key, v);
        handled == c.Some? && View() == if c.Some? then c.value else old(View())
    {
      hide WithOracleInstance, PutOracle, EnsureOracle, AssetsAt, OracleIndex;
      handled := true;
      if v.InstanceValue? && v.oracle.Some? {
        SetOracle(id, WithOracleInstance(EnsureOracle(View(), id), v.oracle.value));
      } else if v.InstanceValue? && v.aggregator.Some? {
        aggregators := aggregators[Contract(id) := AggregatorState(id, v.aggregator.value)];
      } else if key.U128Key? {
        var index := OracleIndex(key.hi, key.lo);
        if index.Some? && v.IntValue? {
          var o := EnsureOracle(View(), id);
          SetOracle(id, o.(priceByIndex := o.priceByIndex[index.value := v.n]));
          changedPriceAssets := changedPriceAssets + AssetsAt(o, index.value);
        }
      } else {
        handled := false;
      }
    }

    method ApplyInstance(id: string, v: Value) returns (handled: bool)
      modifies this`pools, this`instances
      ensures var c := M.ApplyInstance(old(View()), id, v);
        handled == c.Some? && View() == if c.Some? then c.value else old(View())
    {
      hide PutPool, PutInstance, EnsurePool, EnsureInstance, WithInstance, WithAddresses;
      handled := true;
      if v.InstanceValue? && v.backstop.Some? {
        SetInstance(id, WithAddresses(EnsureInstance(View(), id), v.backstop.value));
      } else if v.InstanceValue? && v.wasmHash.Some? {
        var p := EnsurePool(View(), id);
        SetPool(id, p.(info := WithInstance(p.info, v.wasmHash.value, v.pool)));
      } else {
        handled := false;
      }
    }

    /** applyFeedChange and applyFeedDelete */
    method ChangeFeed(id: string, op: FeedOp)
      modifies this`feeds, this`changedFeeds
      ensures View() == M.ChangeFeed(old(View()), id, op)
    {
      hide ApplyFeed;
      var f := ApplyFeed(FeedAt(View(), id), op);
      if f.Some? {
        feeds := feeds[Contract(id) := FeedState(id, f.value)];
      } else {
        feeds := feeds - {Contract(id)};
      }
      changedFeeds := changedFeeds + {id};
    }

    method ApplyAsset(id: string, v: Value)
      modifies this`assets
      ensures View() == M.ApplyAsset(old(View()), id, v)
    {
      if v.InstanceValue? && v.asset.Some? {
        assets := assets[Contract(id) := v.asset.value.(contract := id)];
      }
    }

    method ApplyContract(id: string, key: EntryKey, v: Value)
      modifies this
      ensures View() == M.ApplyContract(old(View()), id, key, v)
    {
      hide M.ApplyInstance, M.ApplySymbol, M.ApplyEntry, View;
      var handled := ApplyInstance(id, v);
      if !handled {
        if key.Symbol? {
          ApplySymbol(id, key.name, v);
        } else {
          ApplyEntry(id, key, v);
        }
      }
    }

    method ApplyToken(cfg: Owned, id: string, key: EntryKey, v: Value)
      modifies this
      ensures View() == M.ApplyToken(cfg, old(View()), id, key, v)
    {
      hide M.ApplyAsset, M.ApplyContract, View;
      if id in cfg.assets {
        ApplyAsset(id, v);
      } else {
        ApplyContract(id, key, v);
      }
    }

    method ApplyOwned(cfg: Owned, id: string, key: EntryKey, v: Value)
      modifies this
      ensures View() == M.ApplyOwned(cfg, old(View()), id, key, v)
    {
      hide M.ApplyOracle, M.ApplyToken, View;
      var handled := ApplyOracle(id, key, v);
      if !handled {
        ApplyToken(cfg, id, key, v);
      }
    }

    method ApplyLive(cfg: Owned, id: string, key: EntryKey, v: Value)
      modifies this
      ensures View() == M.ApplyLive(cfg, old(View()), id, key, v)
    {
      hide M.ChangeFeed, FeedWrite, M.ApplyOwned, M.ApplyToken, View;
      if id in cfg.feeds {
        ChangeFeed(id, FeedWrite(key, v));
      } else if id in cfg.contracts {
        ApplyOwned(cfg, id, key, v);
      } else {
        ApplyToken(cfg, id, key, v);
      }
    }

    // ---- not-live changes ----------------------------------------------------------------------

    method DeleteSymbol(id: string, name: SymbolName)
      modifies this`pools, this`instances, this`oracles
      ensures View() == M.DeleteSymbol(old(View()), id, name)
    {
      hide PutPool, PutInstance, PutOracle;
      var k := Contract(id);
      if name == Config || name == ResList {
        pools := pools - {k};
      } else if name == Backstop && k in pools {
        SetPool(id, pools[k].(info := pools[k].info.(backstop := "")));
      } else if name == PoolEmis && k in pools {
        SetPool(id, pools[k].(info := pools[k].info.(emissions := None)));
      } else if name == RewardZone && k in instances {
        SetInstance(id, instances[k].(rewardZone := []));
      } else if name == DropList && k in instances {
        SetInstance(id, instances[k].(dropList := []));
      } else if name == Timestamp && k in oracles {
        SetOracle(id, oracles[k].(lastTimestamp := None));
      }
    }

    method DeleteReserve(c: Change, asset: string, isConfig: bool, seqNum: int)
      modifies this`pools
      ensures View() == M.DeleteReserve(old(View()), c, asset, isConfig, seqNum)
    {
      hide PutPool, DropReserve, ArchiveReserve;
      if Contract(c.contract) !in pools { return; }
      var p := pools[Contract(c.contract)];
      if c.removed {
        SetPool(c.contract, DropReserve(p, asset));
      } else {
        SetPool(c.contract, ArchiveReserve(p, c.payload, asset, isConfig, seqNum));
      }
    }

    method DeleteEmission(id: string, token: nat, isConfig: bool)
      modifies this`pools
      ensures View() == M.DeleteEmission(old(View()), id, token, isConfig)
    {
      hide PutPool, PutReserve, EmissionTarget, ClearedEmission;
      if Contract(id) !in pools { return; }
      var p := pools[Contract(id)];
      var target := EmissionTarget(p, token);
      if target.None? || Contract(target.value) !in p.reserves { return; }
      var r := p.reserves[Contract(target.value)];
      SetPool(id, PutReserve(p, target.value, r.(fields := r.fields - ClearedEmission(token % 2, isConfig))));
    }

    method MarkUser(k: Key)
      modifies this`dirtyUsers
      ensures View() == old(View()).(dirtyUsers := old(View()).dirtyUsers + {k})
    {
      dirtyUsers := dirtyUsers + {k};
    }

    method PutPending(k: Key, p: Pending)
      modifies this`pending
      ensures View() == old(View()).(pending := old(View()).pending[k := p])
    {
      pending := pending[k := p];
    }

    method DropPending(k: Key)
      modifies this`pending
      ensures View() == old(View()).(pending := old(View()).pending - {k})
    {
      pending := pending - {k};
    }

    method DeletePositions(c: Change, user: string, seqNum: int)
      modifies this`pending, this`dirtyUsers
      ensures View() == M.DeletePositions(old(View()), c, user, seqNum)
    {
      hide ArchivedBlob;
      var k := Pair(user, c.contract);
      var blob := ArchivedBlob(View(), c, k);
      MarkUser(k);
      if c.removed {
        DropPending(k);
      } else if c.payload != Absent || k in pending {
        PutPending(k, Pending(user, c.contract, blob, true, seqNum));
      }
    }

    method SetHolder(k: Key, u: UserBalance)
      modifies this`backstopUsers, this`dirtyBackstops
      ensures View() == SetUser(old(View()), k, u)
    {
      backstopUsers := backstopUsers[k := u];
      dirtyBackstops := dirtyBackstops + {k};
    }

    method DropHolder(k: Key)
      modifies this`backstopUsers, this`dirtyBackstops
      ensures View() == DropUser(old(View()), k)
    {
      backstopUsers := backstopUsers - {k};
      dirtyBackstops := dirtyBackstops + {k};
    }

    method DeleteUserBalance(poolId: string, user: string)
      modifies this`backstopUsers, this`dirtyBackstops
      ensures View() == M.DeleteUserBalance(old(View()), poolId, user)
    {
      hide SetUser, DropUser, EnsureUser;
      var u := EnsureUser(View(), poolId, user);
      if u.emisIndex != "" || u.emisAccrued != "" {
        SetHolder(Pair(user, poolId), u.(shares := "", q4w := []));
      } else {
        DropHolder(Pair(user, poolId));
      }
    }

    method DeleteUserEmission(poolId: string, user: string)
      modifies this`backstopUsers, this`dirtyBackstops
      ensures View() == M.DeleteUserEmission(old(View()), poolId, user)
    {
      hide SetUser, DropUser;
      var k := Pair(user, poolId);
      if k !in backstopUsers { return; }
      var u := backstopUsers[k];
      if u.shares == "" && u.q4w == [] {
        DropHolder(k);
      } else {
        SetHolder(k, u.(emisIndex := "", emisAccrued := ""));
      }
    }

    method DeleteBackstopEntry(c: Change, key: EntryKey, seqNum: int)
      requires key.PoolBalanceKey? || key.UserBalanceEntry? || key.BEmisDataKey? || key.UEmisDataKey?
      modifies this`backstopPools, this`backstopUsers, this`backstopEmis, this`dirtyBackstops
      ensures View() == M.DeleteEntry(old(View()), c, key, seqNum)
    {
      hide MarkPool, M.DeleteUserBalance, M.DeleteUserEmission, View;
      match key
      case PoolBalanceKey(poolId) => DropBalance(poolId);
      case UserBalanceEntry(poolId, user) => DeleteUserBalance(poolId, user);
      case BEmisDataKey(poolId) => SetBackstopEmissions(View().backstopEmis - {Contract(poolId)});
      case UEmisDataKey(poolId, user) => DeleteUserEmission(poolId, user);
    }

    method DeletePoolEntry(c: Change, key: EntryKey, seqNum: int)
      requires key.AuctionEntry? || key.UserEmisKey? || key.ResInitKey?
      modifies this`auctions, this`userEmis, this`queued, this`dirtyTemporary
      ensures View() == M.DeleteEntry(old(View()), c, key, seqNum)
    {
      hide TemporaryAuction, TemporaryQueued, View;
      var id := c.contract;
      match key
      case AuctionEntry(user, auctionType) =>
        DropAuction(AuctionOf(id, user, auctionType), TemporaryAuction(id, user, auctionType));
      case UserEmisKey(user, token) =>
        SetUserEmissions(View().userEmis - {EmissionOf(user, id, token)});
      case ResInitKey(asset) =>
        DropQueued(ReserveOf(id, asset), TemporaryQueued(id, asset));
    }

    method DeleteEntry(c: Change, key: EntryKey, seqNum: int)
      modifies this
      ensures View() == M.DeleteEntry(old(View()), c, key, seqNum)
    {
      hide M.DeleteReserve, M.DeleteEmission, M.DeletePositions;
      if key.PoolBalanceKey? || key.UserBalanceEntry? || key.BEmisDataKey? || key.UEmisDataKey? {
        hide M.DeleteEntry;
        DeleteBackstopEntry(c, key, seqNum);
      } else if key.AuctionEntry? || key.UserEmisKey? || key.ResInitKey? {
        hide M.DeleteEntry;
        DeletePoolEntry(c, key, seqNum);
      } else {
        match key
        case ResConfigKey(asset) => DeleteReserve(c, asset, true, seqNum);
        case ResDataKey(asset) => DeleteReserve(c, asset, false, seqNum);
        case EmisConfigKey(token) => DeleteEmission(c.contract, token, true);
        case EmisDataKey(token) => DeleteEmission(c.contract, token, false);
        case PositionsKey(user) => DeletePositions(c, user, seqNum);
        case _ =>
      }
    }

    method DeleteOraclePrice(id: string, hi: nat, lo: nat)
      modifies this`oracles, this`changedPriceAssets
      ensures var index, b := OracleIndex(hi, lo), old(View());
        View() == if index.None? || Contract(id) !in b.oracles then b
                  else
                    var o := b.oracles[Contract(id)];
                    PutOracle(b, id, o.(priceByIndex := o.priceByIndex - {index.value}))
                    .(changedPriceAssets := b.changedPriceAssets + AssetsAt(o, index.value))
    {
      hide OracleIndex, AssetsAt;
      var index := OracleIndex(hi, lo);
      if index.None? || Contract(id) !in oracles { return; }
      var o := oracles[Contract(id)];
      oracles := oracles[Contract(id) := o.(priceByIndex := o.priceByIndex - {index.value})];
      changedPriceAssets := changedPriceAssets + AssetsAt(o, index.value);
    }

    method ApplyDelete(cfg: Owned, c: Change, key: EntryKey, seqNum: int)
      modifies this
      ensures View() == M.ApplyDelete(cfg, old(View()), c, key, seqNum)
    {
      hide M.ChangeFeed, FeedDelete, M.DeleteSymbol, M.DeleteEntry, OracleIndex, AssetsAt, PutOracle;
      var id := c.contract;
      if id in cfg.feeds {
        ChangeFeed(id, FeedDelete(key));
      } else if id in cfg.assets {
        if key == InstanceEntry {
          assets := assets - {Contract(id)};
        }
      } else if id in cfg.contracts && key.U128Key? {
        DeleteOraclePrice(id, key.hi, key.lo);
      } else if key == InstanceEntry {
        aggregators := aggregators - {Contract(id)};
        instances := instances - {Contract(id)};
      } else if key.Symbol? {
        DeleteSymbol(id, key.name);
      } else {
        DeleteEntry(c, key, seqNum);
      }
    }

    /** apply */
    method Apply(cfg: Owned, c: Change, seqNum: int)
      modifies this
      ensures View() == M.Apply(cfg, old(View()), c, seqNum)
    {
      hide M.ApplyDelete, M.ApplyLive, IsLive;
      if c.key.None? { return; }
      if !IsLive(c, seqNum) {
        ApplyDelete(cfg, c, c.key.value, seqNum);
        return;
      }
      if c.payload.Decoded? {
        ApplyLive(cfg, c.contract, c.key.value, c.payload.value);
      }
    }

    /** The change loop of both strategies. */
    method ApplyChanges(cfg: Owned, changes: seq<Change>, seqNum: int)
      modifies this
      ensures View() == ApplyAll(cfg, old(View()), changes, seqNum)
    {
      hide M.Apply;
      for n := 0 to |changes|
        invariant View() == ApplyAll(cfg, old(View()), changes[..n], seqNum)
      {
        assert changes[..n + 1][..n] == changes[..n];
        Apply(cfg, changes[n], seqNum);
      }
      assert changes[..|changes|] == changes;
    }

    // ---- loading and normalizing ---------------------------------------------------------------

    /** Fill a map from a slice, a later row replacing an earlier one. */
    static method Gather<V, W>(rows: seq<V>, keyOf: V -> Key, f: V -> Option<W>) returns (m: map<Key, W>)
      ensures m == Collect(rows, keyOf, f)
    {
      m := map[];
      for n := 0 to |rows|
        invariant m == Collect(rows[..n], keyOf, f)
      {
        assert rows[..n + 1][..n] == rows[..n];
        var w := f(rows[n]);
        if w.Some? {
          m := m[keyOf(rows[n]) := w.value];
        }
      }
      assert rows[..|rows|] == rows;
    }

    /** The pools of a prior, and the backstop's shares in them. */
    method LoadPools(rows: seq<PoolState>)
      modifies this`pools, this`backstopPools, this`backstopEmis
      ensures pools == Collect(rows, PoolKey, PoolOf)
      ensures backstopPools == Collect(rows, PoolKey, BalanceOf) && backstopEmis == Collect(rows, PoolKey, EmisOf)
    {
      hide Collect;
      pools := Gather(rows, PoolKey, PoolOf);
      backstopPools := Gather(rows, PoolKey, BalanceOf);
      backstopEmis := Gather(rows, PoolKey, EmisOf);
    }

    /** The users of a prior. */
    method LoadUsers(s: LedgerState)
      modifies this`pending, this`backstopUsers, this`auctions, this`userEmis
      ensures pending == Collect(s.pending, PendingKey, PendingOf)
      ensures backstopUsers == Collect(s.backstops, BackstopRowKey, UserOf)
      ensures auctions == Collect(s.auctions, AuctionKey, Keep<Auction>)
      ensures userEmis == Collect(s.userEmissions, UserEmissionKey, Keep<UserEmission>)
    {
      hide Collect;
      pending := Gather(s.pending, PendingKey, PendingOf);
      backstopUsers := Gather(s.backstops, BackstopRowKey, UserOf);
      auctions := Gather(s.auctions, AuctionKey, Keep<Auction>);
      userEmis := Gather(s.userEmissions, UserEmissionKey, Keep<UserEmission>);
    }

    /** The oracles, feeds and registered contracts of a prior. */
    method LoadContracts(s: LedgerState)
      modifies this`queued, this`instances, this`oracles, this`feeds, this`aggregators, this`assets
      ensures queued == Collect(s.queued, QueuedKey, Keep<QueuedReserve>)
      ensures instances == Collect(s.instances, InstanceKeyOf, Keep<BackstopInstance>)
      ensures oracles == Collect(s.oracles, OracleKey, OracleOf)
      ensures feeds == Collect(s.feeds, FeedKey, Keep<FeedState>)
      ensures aggregators == Collect(s.aggregators, AggregatorKey, Keep<AggregatorState>)
      ensures assets == Collect(s.assets, AssetKey, Keep<Asset>)
    {
      hide Collect;
      queued := Gather(s.queued, QueuedKey, Keep<QueuedReserve>);
      instances := Gather(s.instances, InstanceKeyOf, Keep<BackstopInstance>);
      oracles := Gather(s.oracles, OracleKey, OracleOf);
      feeds := Gather(s.feeds, FeedKey, Keep<FeedState>);
      aggregators := Gather(s.aggregators, AggregatorKey, Keep<AggregatorState>);
      assets := Gather(s.assets, AssetKey, Keep<Asset>);
    }

    /** loadPrior, on a new builder */
    method LoadPrior(s: LedgerState)
      requires View() == EMPTY_MIRROR
      modifies this
      ensures View() == Load(s)
    {
      hide Collect;
      LoadPools(s.pools);
      LoadUsers(s);
      LoadContracts(s);
    }

    /** The synthesized oracles are dropped. */
    method DropSynthesized()
      modifies this`oracles
      ensures View() == old(View()).(oracles := DecodedOracles(old(View()).oracles))
    {
      var todo := oracles.Keys;
      while todo != {}
        invariant todo <= old(oracles).Keys
        invariant oracles == map k | k in old(oracles) && (k in todo || !old(oracles)[k].synthesized) :: old(oracles)[k]
        decreases |todo|
      {
        var k :| k in todo;
        if oracles[k].synthesized {
          oracles := oracles - {k};
        }
        todo := todo - {k};
      }
    }

    /** The backstop's pool maps are rebuilt from what the pools carry. */
    method RebuildBackstop()
      modifies this`backstopPools, this`backstopEmis
      ensures View() == old(View()).(backstopPools := CarriedBalances(old(View()).pools),
                                     backstopEmis := CarriedEmissions(old(View()).pools))
    {
      hide CarriedBalances, CarriedEmissions;
      backstopPools, backstopEmis := CarriedFrom(pools);
    }

    static method CarriedFrom(pools: map<Key, Pool>) returns (balances: map<Key, Balance>, emissions: map<Key, Emis>)
      ensures balances == CarriedBalances(pools) && emissions == CarriedEmissions(pools)
    {
      hide CarriedBalances, CarriedEmissions, Visited;
      balances, emissions := map[], map[];
      var todo := pools.Keys;
      while todo != {}
        invariant todo <= pools.Keys
        invariant forall k :: k in balances <==> k in pools && k !in todo && !pools[k].info.balance.Empty()
        invariant forall k :: k in balances ==> balances[k] == pools[k].info.balance
        invariant forall k :: k in emissions <==> k in pools && k !in todo && !pools[k].info.emis.Empty()
        invariant forall k :: k in emissions ==> emissions[k] == pools[k].info.emis
        decreases |todo|
      {
        var k :| k in todo;
        if !pools[k].info.balance.Empty() {
          balances := balances[k := pools[k].info.balance];
        }
        if !pools[k].info.emis.Empty() {
          emissions := emissions[k := pools[k].info.emis];
        }
        todo := todo - {k};
      }
      AllCarried(pools, balances, emissions);
    }

    method ClearDirty()
      modifies this`dirtyUsers, this`dirtyTemporary, this`dirtyBackstops
      ensures View() == old(View()).(dirtyUsers := {}, dirtyTemporary := {}, dirtyBackstops := {})
    {
      dirtyUsers, dirtyTemporary, dirtyBackstops := {}, {}, {};
    }

    method ClearChanged()
      modifies this`changedFeeds, this`changedPriceAssets
      ensures View() == old(View()).(changedFeeds := {}, changedPriceAssets := {})
    {
      changedFeeds, changedPriceAssets := {}, {};
    }

    /** normalizeCarry */
    method NormalizeCarry()
      modifies this
      ensures View() == M.NormalizeCarry(old(View()))
    {
      hide View, DecodedOracles, CarriedBalances, CarriedEmissions;
      DropSynthesized();
      RebuildBackstop();
      ClearDirty();
      ClearChanged();
    }

    // ---- build ---------------------------------------------------------------------------------

    /** The assets an aggregator answers for with the constant one. */
    static method ConstantsOf(g: Aggregator) returns (constants: set<string>)
      ensures constants == ConstantAssets(g)
    {
      hide StellarAsset;
      constants := {StellarAsset(g.baseKey)} - {""};
      for n := 0 to |g.baseAssets|
        invariant constants == (set k | k in g.baseAssets[..n] :: StellarAsset(k)) + {StellarAsset(g.baseKey)} - {""}
      {
        assert g.baseAssets[..n + 1] == g.baseAssets[..n] + [g.baseAssets[n]];
        var asset := StellarAsset(g.baseAssets[n]);
        if asset != "" {
          constants := constants + {asset};
        }
      }
      assert g.baseAssets[..|g.baseAssets|] == g.baseAssets;
    }

    /** resolveFeedPrice */
    method ResolveFeedPrice(g: Aggregator, cfg: AssetConfig, closeTime: Option<int>) returns (r: Option<int>)
      ensures r == ResolvedPrice(View(), g, cfg, closeTime)
    {
      hide FeedPrice;
      if cfg.oracleIndex !in g.feeds { return None; }
      var ref := g.feeds[cfg.oracleIndex];
      if ref.resolutionS <= 0 || Contract(ref.contract) !in feeds { return None; }
      var f := feeds[Contract(ref.contract)].feed;
      if cfg.feedAssetKey !in f.assetToIndex { return None; }
      r := WalkFeedPrice(f, f.assetToIndex[cfg.feedAssetKey], ref, g.maxAgeS, cfg.maxDev, g.decimals, closeTime);
    }

    /** The asset loop of resolveAggregatorPrices: an index for every served asset, a price for every priced one. */
    method PriceAssets(g: Aggregator, ids: seq<string>, constants: set<string>, closeTime: Option<int>)
      returns (indexes: map<string, int>, prices: map<int, int>)
      requires constants == ConstantAssets(g)
      ensures indexes == IndexesFor(ids) && prices == PricesFor(View(), g, ids, closeTime)
    {
      hide ConstantAssets, ResolvedPrice, View;
      indexes, prices := map[], map[];
      for n := 0 to |ids|
        invariant indexes == IndexesFor(ids[..n]) && prices == PricesFor(View(), g, ids[..n], closeTime)
      {
        assert ids[..n + 1][..n] == ids[..n];
        indexes := indexes[ids[n] := n];
        if ids[n] in constants {
          prices := prices[n := if g.decimals >= 0 then Power10(g.decimals) else 1];
        } else if ids[n] in g.assets {
          var price := ResolveFeedPrice(g, g.assets[ids[n]], closeTime);
          if price.Some? {
            prices := prices[n := price.value];
          }
        }
      }
      assert ids[..|ids|] == ids;
    }

    /** One aggregator of resolveAggregatorPrices. */
    method SynthesizeOracle(a: AggregatorState, closeTime: Option<int>) returns (o: Oracle)
      ensures o == Synthesize(View(), a, closeTime)
    {
      hide ConstantAssets, SortedAssets, IndexesFor, PricesFor, EnsureOracle, View;
      var constants := ConstantsOf(a.config);
      var ids := SortedAssets(a.config.assets.Keys + constants);
      var indexes, prices := PriceAssets(a.config, ids, constants, closeTime);
      o := EnsureOracle(View(), a.contract).(synthesized := true, decimals := a.config.decimals, assetToIndex := indexes,
                                             priceByIndex := prices);
    }

    /** One aggregator's oracle, on a builder whose other aggregators may already have theirs. */
    method PriceAggregator(k: Key, ghost b: Mirror, closeTime: Option<int>)
      requires k in aggregators && AggregatorKey(aggregators[k]) == k
      requires View() == b.(oracles := oracles)
      requires (k in oracles <==> k in b.oracles) && (k in oracles ==> oracles[k] == b.oracles[k])
      modifies this`oracles
      ensures View() == b.(oracles := oracles)
      ensures oracles == old(oracles)[k := Synthesize(b, b.aggregators[k], closeTime)]
    {
      hide Synthesize;
      SameSynthesis(b, View(), aggregators[k], closeTime);
      var o := SynthesizeOracle(aggregators[k], closeTime);
      oracles := oracles[k := o];
    }

    /** resolveAggregatorPrices */
    method ResolveAggregatorPrices(closeTime: Option<int>)
      requires KeyedBy(View().aggregators, AggregatorKey)
      modifies this`oracles
      ensures View() == old(View()).(oracles := ResolveAggregators(old(View()), closeTime))
    {
      hide Synthesize, Visited, KeyedBy;
      ghost var b := View();
      ghost var priced := map k | k in aggregators :: Synthesize(b, aggregators[k], closeTime);
      assert priced.Keys == aggregators.Keys;
      NothingVisited(oracles, priced);
      var todo := aggregators.Keys;
      while todo != {}
        invariant todo <= aggregators.Keys && View() == b.(oracles := oracles)
        invariant Visited(oracles, b.oracles, priced, todo)
        decreases |todo|
      {
        var k :| k in todo;
        NotYet(oracles, b.oracles, priced, todo, k);
        OneVisited(oracles, b.oracles, priced, todo, k);
        KeyedAt(b.aggregators, AggregatorKey, k);
        PriceAggregator(k, b, closeTime);
        todo := todo - {k};
      }
      AllVisited(oracles, b.oracles, priced);
    }

    /** resolveOraclePrices on the reserves of one pool, in whatever order they are iterated. */
    static method PriceReserves(o: Oracle, reserves: map<Key, Reserve>) returns (priced: map<Key, Reserve>)
      ensures priced == map k | k in reserves :: PriceReserve(o, reserves[k])
    {
      hide PriceReserve, Visited;
      priced := reserves;
      ghost var done := map k | k in reserves :: PriceReserve(o, reserves[k]);
      assert done.Keys == reserves.Keys;
      NothingVisited(priced, done);
      var todo := reserves.Keys;
      while todo != {}
        invariant todo <= reserves.Keys && Visited(priced, reserves, done, todo)
        decreases |todo|
      {
        var k :| k in todo;
        OneVisited(priced, reserves, done, todo, k);
        priced := priced[k := PriceReserve(o, reserves[k])];
        todo := todo - {k};
      }
      AllVisited(priced, reserves, done);
      assert reserves + done == done;
    }

    /** finalizePoolReserves: list the reserves in whatever order they are iterated, sort them by index and asset, and file
        every index of the sorted slice. */
    static method FinalizePoolReserves(p: Pool) returns (q: Pool)
      requires KeyedBy(p.reserves, ReserveKey)
      ensures q == Finalize(p)
    {
      hide Published, Ambiguous, Unknown, SortBy, Slice, KeyDetermines;
      ReservesOrdered(p.reserves);
      var rs := EntriesBy(p.reserves, ReserveOrder);
      var byIndex, ambiguous, unknown := IndexReserves(rs);
      q := p.(byIndex := byIndex, ambiguous := ambiguous, unknown := unknown);
    }

    /** One pool of resolveOraclePrices and of the pool loop of build. */
    method BuildOnePool(p: Pool) returns (q: Pool)
      requires KeyedBy(p.reserves, ReserveKey)
      ensures q == BuildPool(View(), oracles, p)
    {
      hide Finalize, PriceReserve, KeyedBy;
      PricedKeyed(oracles, p);
      q := p;
      if Contract(p.info.oracle) in oracles {
        var priced := PriceReserves(oracles[Contract(p.info.oracle)], p.reserves);
        q := p.(reserves := priced);
      }
      q := FinalizePoolReserves(q);
      var k := Contract(p.info.contract);
      if k in backstopPools {
        q := q.(info := q.info.(balance := backstopPools[k]));
      }
      q := q.(info := q.info.(emis := if k in backstopEmis then backstopEmis[k] else NO_EMIS));
    }

    /** One pool's turn, on a builder whose other pools may already have had theirs. */
    method RebuildPool(k: Key, ghost b: Mirror)
      requires k in pools && k in b.pools && pools[k] == b.pools[k] && KeyedBy(pools[k].reserves, ReserveKey)
      requires View() == b.(pools := pools)
      modifies this`pools
      ensures View() == b.(pools := pools)
      ensures pools == old(pools)[k := BuildPool(b, b.oracles, b.pools[k])]
    {
      hide BuildPool, KeyedBy;
      SameBuild(b, View(), oracles, pools[k]);
      var built := BuildOnePool(pools[k]);
      pools := pools[k := built];
    }

    /** resolveOraclePrices and the pool loop of build. */
    method BuildPools()
      requires ReservesKeyed(View().pools)
      modifies this`pools
      ensures View() == old(View()).(pools := PricedPools(old(View()), old(View()).oracles))
    {
      hide Visited, BuildPool, ReservesKeyed, KeyedBy;
      ghost var b := View();
      ghost var done := PricedPools(b, oracles);
      assert done.Keys == pools.Keys;
      NothingVisited(pools, done);
      var todo := pools.Keys;
      while todo != {}
        invariant todo <= b.pools.Keys && View() == b.(pools := pools)
        invariant Visited(pools, b.pools, done, todo)
        decreases |todo|
      {
        var k :| k in todo;
        NotYet(pools, b.pools, done, todo, k);
        OneVisited(pools, b.pools, done, todo, k);
        ReservesKeyedAt(b.pools, k);
        RebuildPool(k, b);
        todo := todo - {k};
      }
      AllVisited(pools, b.pools, done);
      assert b.pools + done == done;
    }

    method TrimFeeds()
      modifies this`feeds
      ensures View() == old(View()).(feeds := TrimmedFeeds(old(View()).feeds))
    {
      hide Visited, Trim;
      ghost var was := feeds;
      ghost var done := TrimmedFeeds(feeds);
      assert done.Keys == feeds.Keys;
      NothingVisited(feeds, done);
      var todo := feeds.Keys;
      while todo != {}
        invariant todo <= was.Keys && Visited(feeds, was, done, todo)
        decreases |todo|
      {
        var k :| k in todo;
        NotYet(feeds, was, done, todo, k);
        OneVisited(feeds, was, done, todo, k);
        var trimmed := TrimRounds(feeds[k].feed);
        feeds := feeds[k := feeds[k].(feed := trimmed)];
        todo := todo - {k};
      }
      AllVisited(feeds, was, done);
      assert was + done == done;
    }

    /** The part of build that changes the builder: prices, pools, the carried rounds. */
    method Build(closeTime: Option<int>)
      requires KeyedBy(View().aggregators, AggregatorKey) && ReservesKeyed(View().pools)
      modifies this`oracles, this`pools, this`feeds
      ensures View() == Built(old(View()), closeTime)
    {
      hide ResolveAggregators, PricedPools, TrimmedFeeds, View;
      ghost var b := View();
      ResolveAggregatorPrices(closeTime);
      SamePools(b, ResolveAggregators(b, closeTime));
      BuildPools();
      TrimFeeds();
    }

    // ---- affected backstop holders -------------------------------------------------------------

    /** propagateFeedPriceDirty: the assets priced from a changed feed. */
    method FeedPriced() returns (affected: set<string>)
      ensures affected == FeedPricedAssets(View())
    {
      affected := {};
      var todo := aggregators.Keys;
      while todo != {}
        invariant todo <= aggregators.Keys
        invariant forall a :: a in affected <==> exists k :: k in aggregators && k !in todo && PricedBy(aggregators[k], changedFeeds, a)
        decreases |todo|
      {
        var k :| k in todo;
        var g := aggregators[k].config;
        ghost var before := affected;
        var left := g.assets.Keys;
        while left != {}
          invariant left <= g.assets.Keys
          invariant forall a :: a in affected <==> a in before || (a !in left && PricedBy(aggregators[k], changedFeeds, a))
          decreases |left|
        {
          var a :| a in left;
          var cfg := g.assets[a];
          if cfg.oracleIndex in g.feeds && g.feeds[cfg.oracleIndex].contract in changedFeeds {
            affected := affected + {a};
          }
          left := left - {a};
        }
        todo := todo - {k};
      }
    }

    /** markPriceAssetDirty for a set of assets, and the holders of the pools it marks. */
    method AffectedHolders() returns (dirty: set<Key>)
      ensures dirty == BackstopDirty(View())
    {
      hide FeedPricedAssets;
      var affected := FeedPriced();
      affected := affected + changedPriceAssets;
      var linked := LinkedPools(affected);
      dirty := dirtyBackstops;
      var todo := backstopUsers.Keys;
      while todo != {}
        invariant todo <= backstopUsers.Keys
        invariant dirty == dirtyBackstops + set k | k in backstopUsers && k !in todo && backstopUsers[k].pool in linked ::
                                               UserBalanceKey(backstopUsers[k])
        decreases |todo|
      {
        var k :| k in todo;
        if backstopUsers[k].pool in linked {
          dirty := dirty + {UserBalanceKey(backstopUsers[k])};
        }
        todo := todo - {k};
      }
    }

    /** The pools whose backstop instance prices one of its legs from an affected asset. */
    method LinkedPools(affected: set<string>) returns (linked: set<string>)
      ensures linked == PoolsPricedBy(View(), affected)
    {
      linked := {};
      var todo := pools.Keys;
      while todo != {}
        invariant todo <= pools.Keys
        invariant linked == set k | k in pools && k !in todo && Linked(pools[k], instances, affected) :: pools[k].info.contract
        decreases |todo|
      {
        var k :| k in todo;
        if Linked(pools[k], instances, affected) {
          linked := linked + {pools[k].info.contract};
        }
        todo := todo - {k};
      }
    }
  }

  ghost predicate ReservesKeyed(pools: map<Key, Pool>) { forall k :: k in pools ==> KeyedBy(pools[k].reserves, ReserveKey) }

  lemma ReservesKeyedAt(pools: map<Key, Pool>, k: Key)
    requires ReservesKeyed(pools) && k in pools
    ensures KeyedBy(pools[k].reserves, ReserveKey)
  {
  }

  /** No two reserves of a pool compare equal: their assets differ. */
  lemma ReservesOrdered(m: map<Key, Reserve>)
    requires KeyedBy(m, ReserveKey)
    ensures KeyDetermines(Slice(m), ReserveOrder)
  {
    SliceFacts(m, ReserveKey);
    DistinctDetermines(Slice(m), ReserveKey);
  }

  lemma PricedKeyed(oracles: map<Key, Oracle>, p: Pool)
    requires KeyedBy(p.reserves, ReserveKey)
    ensures KeyedBy(PricePool(oracles, p).reserves, ReserveKey)
  {
    hide PriceReserve;
    if Contract(p.info.oracle) in oracles {
      var o := oracles[Contract(p.info.oracle)];
      forall k | k in p.reserves ensures ReserveKey(PriceReserve(o, p.reserves[k])) == k {
        PricedAsset(o, p.reserves[k]);
      }
    }
  }

  lemma PricedAsset(o: Oracle, r: Reserve)
    ensures PriceReserve(o, r).asset == r.asset
  {
  }

  predicate PricedBy(a: AggregatorState, changed: set<string>, asset: string) {
    && asset in a.config.assets
    && a.config.assets[asset].oracleIndex in a.config.feeds
    && a.config.feeds[a.config.assets[asset].oracleIndex].contract in changed
  }

  predicate Linked(p: Pool, instances: map<Key, BackstopInstance>, affected: set<string>) {
    && Contract(p.info.backstop) in instances
    && var i := instances[Contract(p.info.backstop)];
       (i.blnd != "" && i.blnd in affected) || (i.usdc != "" && i.usdc in affected)
  }

  lemma AllCarried(pools: map<Key, Pool>, balances: map<Key, Balance>, emissions: map<Key, Emis>)
    requires forall k :: k in balances <==> k in pools && !pools[k].info.balance.Empty()
    requires forall k :: k in balances ==> balances[k] == pools[k].info.balance
    requires forall k :: k in emissions <==> k in pools && !pools[k].info.emis.Empty()
    requires forall k :: k in emissions ==> emissions[k] == pools[k].info.emis
    ensures balances == CarriedBalances(pools) && emissions == CarriedEmissions(pools)
  {
  }

  lemma KeyedAt<V>(m: map<Key, V>, keyOf: V -> Key, k: Key)
    requires KeyedBy(m, keyOf) && k in m
    ensures keyOf(m[k]) == k
  {
  }

  lemma NotYet<V>(now: map<Key, V>, was: map<Key, V>, done: map<Key, V>, todo: set<Key>, k: Key)
    requires Visited(now, was, done, todo) && k in todo && todo <= done.Keys
    ensures (k in now <==> k in was) && (k in now && k in was ==> now[k] == was[k])
  {
  }

  /** Neither the pools nor the oracles of the builder enter the building of a pool. */
  lemma SameBuild(b: Mirror, c: Mirror, oracles: map<Key, Oracle>, p: Pool)
    requires c.backstopPools == b.backstopPools && c.backstopEmis == b.backstopEmis
    ensures BuildPool(c, oracles, p) == BuildPool(b, oracles, p)
  {
    hide PricePool, Finalize;
  }

  lemma SamePools(b: Mirror, oracles: map<Key, Oracle>)
    ensures PricedPools(b.(oracles := oracles), oracles) == PricedPools(b, oracles)
  {
    hide BuildPool;
    forall k | k in b.pools
      ensures BuildPool(b.(oracles := oracles), oracles, b.pools[k]) == BuildPool(b, oracles, b.pools[k])
    {
      SameBuild(b, b.(oracles := oracles), oracles, b.pools[k]);
    }
  }

  /** An aggregator's prices are read from the feeds, and its carried fields from its own oracle. */
  lemma SameSynthesis(b: Mirror, c: Mirror, a: AggregatorState, closeTime: Option<int>)
    requires c.feeds == b.feeds
    requires Contract(a.contract) in c.oracles <==> Contract(a.contract) in b.oracles
    requires Contract(a.contract) in b.oracles ==> c.oracles[Contract(a.contract)] == b.oracles[Contract(a.contract)]
    ensures Synthesize(c, a, closeTime) == Synthesize(b, a, closeTime)
  {
    SamePrices(b, c, a.config, SortedAssets(ServedAssets(a.config)), closeTime);
  }

  lemma {:induction false} SamePrices(b: Mirror, c: Mirror, g: Aggregator, ids: seq<string>, closeTime: Option<int>)
    requires c.feeds == b.feeds
    ensures PricesFor(c, g, ids, closeTime) == PricesFor(b, g, ids, closeTime)
  {
    if ids != [] { SamePrices(b, c, g, ids[..|ids| - 1], closeTime); }
  }

  /** newBlendStateBuilder, loaded from the prior state if there is one. */
  method LoadedBuilder(prior: Option<LedgerState>) returns (b: StateBuilder)
    ensures fresh(b) && b.View() == Reference.LoadPrior(prior)
  {
    hide Load;
    b := new StateBuilder();
    if prior.Some? {
      b.LoadPrior(prior.value);
    }
  }
}
