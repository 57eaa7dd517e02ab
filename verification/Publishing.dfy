/** What a ledger exposes, as the decoder assembles it from a built mirror: every component is appended in whatever order
    its map is iterated and sorted afterwards. Both strategies publish through these methods. */
module Publishing {
  import opened Options
  import opened Keys
  import opened Slices
  import opened Entries
  import opened Reserves
  import opened Mirror
  import opened Carry
  import opened Reference
  import opened Builder

  /** Everything published is filed under its own key, so each sort has one result. */
  ghost predicate Publishable(b: Mirror) {
    && PoolsOk(b.pools)
    && KeyedBy(b.backstopUsers, UserBalanceKey) && KeyedBy(b.auctions, AuctionKey)
    && KeyedBy(b.userEmis, UserEmissionKey) && KeyedBy(b.queued, QueuedKey) && KeyedBy(b.instances, InstanceKeyOf)
    && KeyedBy(b.oracles, OracleKey) && KeyedBy(b.feeds, FeedKey) && KeyedBy(b.aggregators, AggregatorKey)
    && KeyedBy(b.assets, AssetKey)
  }

  lemma BuiltPublishable(b: Mirror, closeTime: Option<int>)
    requires Coherent(b)
    ensures Publishable(Built(b, closeTime))
  {
    BuiltPools(b, closeTime);
    BuiltKeyed(b, closeTime);
  }

  // ---- the pools -------------------------------------------------------------------------------

  lemma PoolsKeyed(pools: map<Key, Pool>)
    requires PoolsOk(pools)
    ensures ReservesKeyed(pools)
  {
    hide Fresh, KeyedBy;
  }

  method PublishPool(p: Pool) returns (s: PoolState)
    requires KeyedBy(p.reserves, ReserveKey)
    ensures s == Reserves.PublishPool(p)
  {
    hide KeyDetermines, SortBy, Slice;
    ReservesOrdered(p.reserves);
    var reserves := EntriesBy(p.reserves, ReserveOrder);
    s := PoolState(p.info, reserves);
  }

  method PublishPools(pools: map<Key, Pool>) returns (rows: seq<PoolState>)
    requires PoolsOk(pools)
    ensures rows == Slice(map k | k in pools :: Reserves.PublishPool(pools[k]))
  {
    hide KeyedBy, PoolsOk, ReservesKeyed, Reserves.PublishPool, Slice, Visited;
    PublishedKeyed(pools);
    PoolsKeyed(pools);
    ghost var done := map k | k in pools :: Reserves.PublishPool(pools[k]);
    assert done.Keys == pools.Keys;
    var typed: map<Key, PoolState> := map[];
    var todo := pools.Keys;
    NothingVisited(typed, done);
    while todo != {}
      invariant todo <= pools.Keys && Visited(typed, map[], done, todo)
      decreases |todo|
    {
      var k :| k in todo;
      ReservesKeyedAt(pools, k);
      var row := PublishPool(pools[k]);
      OneVisited(typed, map[], done, todo, k);
      typed := typed[k := row];
      todo := todo - {k};
    }
    AllVisited(typed, map[], done);
    assert map[] + done == done;
    rows := SortedEntries(typed, PoolKey);
  }

  // ---- the backstop rows -----------------------------------------------------------------------

  /** tokenPriceUSD: the first pool, in contract order, holding a priced reserve of the token. */
  method TokenPriceUSD(pools: map<Key, Pool>, asset: string) returns (price: Option<Price>)
    ensures price == TokenPrice(pools, Ascending(pools.Keys), asset)
  {
    if asset == "" { return None; }
    var order := Ascending(pools.Keys);
    for n := 0 to |order|
      invariant TokenPrice(pools, order, asset) == TokenPrice(pools, order[n..], asset)
    {
      assert order[n..][0] == order[n] && order[n..][1..] == order[n + 1..];
      var reserves := if order[n] in pools then pools[order[n]].reserves else map[];
      if Contract(asset) in reserves {
        var r := reserves[Contract(asset)];
        if r.price.Some? && r.price.value > 0 {
          return Some(Price(r.price.value, r.priceDecimals));
        }
      }
    }
    price := None;
  }

  method PriceBackstop(b: Mirror, u: UserBalance) returns (row: BackstopRow)
    ensures row == BackstopPosition(b, u)
  {
    hide TokenPrice;
    var k := Contract(u.pool);
    var balance := if k in b.backstopPools then b.backstopPools[k] else Balance("", "", "");
    var blnd, usdc := None, None;
    if k in b.pools && b.pools[k].info.backstop != "" && Contract(b.pools[k].info.backstop) in b.instances {
      var i := b.instances[Contract(b.pools[k].info.backstop)];
      blnd := TokenPriceUSD(b.pools, i.blnd);
      usdc := TokenPriceUSD(b.pools, i.usdc);
    }
    row := BackstopRow(u, balance.shares, balance.tokens, blnd, usdc);
  }

  lemma BackstopsKeyed(b: Mirror)
    requires KeyedBy(b.backstopUsers, UserBalanceKey)
    ensures KeyedBy(map k | k in b.backstopUsers :: BackstopPosition(b, b.backstopUsers[k]), BackstopRowKey)
  {
    hide BackstopPosition;
  }

  method PublishBackstops(b: Mirror) returns (rows: seq<BackstopRow>)
    requires KeyedBy(b.backstopUsers, UserBalanceKey)
    ensures rows == Slice(map k | k in b.backstopUsers :: BackstopPosition(b, b.backstopUsers[k]))
  {
    hide BackstopPosition, Slice, Visited, KeyedBy;
    ghost var done := map k | k in b.backstopUsers :: BackstopPosition(b, b.backstopUsers[k]);
    assert done.Keys == b.backstopUsers.Keys;
    var priced: map<Key, BackstopRow> := map[];
    var todo := b.backstopUsers.Keys;
    NothingVisited(priced, done);
    while todo != {}
      invariant todo <= b.backstopUsers.Keys && Visited(priced, map[], done, todo)
      decreases |todo|
    {
      var k :| k in todo;
      var row := PriceBackstop(b, b.backstopUsers[k]);
      OneVisited(priced, map[], done, todo, k);
      priced := priced[k := row];
      todo := todo - {k};
    }
    AllVisited(priced, map[], done);
    assert map[] + done == done;
    BackstopsKeyed(b);
    rows := SortedEntries(priced, BackstopRowKey);
  }

  // ---- the state -------------------------------------------------------------------------------

  lemma DecodedKeyed(oracles: map<Key, Oracle>)
    requires KeyedBy(oracles, OracleKey)
    ensures KeyedBy(DecodedOracles(oracles), OracleKey)
  {
  }

  /** buildOracles: the synthesized ones stay behind. */
  method PublishOracles(oracles: map<Key, Oracle>) returns (rows: seq<Oracle>)
    requires KeyedBy(oracles, OracleKey)
    ensures rows == Slice(map k | k in oracles && !oracles[k].synthesized :: oracles[k])
  {
    hide Slice, KeyedBy;
    var decoded: map<Key, Oracle> := map[];
    var todo := oracles.Keys;
    while todo != {}
      invariant todo <= oracles.Keys
      invariant forall k :: k in decoded <==> k in oracles && k !in todo && !oracles[k].synthesized
      invariant forall k :: k in decoded ==> decoded[k] == oracles[k]
      decreases |todo|
    {
      var k :| k in todo;
      if !oracles[k].synthesized {
        decoded := decoded[k := oracles[k]];
      }
      todo := todo - {k};
    }
    assert decoded == DecodedOracles(oracles);
    DecodedKeyed(oracles);
    rows := SortedEntries(decoded, OracleKey);
  }

  /** The ledger state build and snapshot return. */
  method PublishState(b: Mirror, users: seq<Row>, pending: seq<Pending>) returns (s: LedgerState)
    requires Publishable(b)
    ensures s == Publish(b, users, pending)
  {
    hide Slice, KeyedBy, PoolsOk, BackstopPosition, Reserves.PublishPool;
    var pools := PublishPools(b.pools);
    var backstops := PublishBackstops(b);
    var oracles := PublishOracles(b.oracles);
    var feeds := SortedEntries(b.feeds, FeedKey);
    var aggregators := SortedEntries(b.aggregators, AggregatorKey);
    var assets := SortedEntries(b.assets, AssetKey);
    var auctions := SortedEntries(b.auctions, AuctionKey);
    var userEmissions := SortedEntries(b.userEmis, UserEmissionKey);
    var queued := SortedEntries(b.queued, QueuedKey);
    var instances := SortedEntries(b.instances, InstanceKeyOf);
    s := LedgerState(pools, users, backstops, pending, oracles, feeds, aggregators, assets, auctions, userEmissions,
                     queued, instances);
  }

  // ---- the dirty lists -------------------------------------------------------------------------

  function DirtyKey(d: DirtyPosition): Key { d.pair }

  /** finalizeDirtyPositions and finalizeDirtyBackstops: whether a pair is still present is looked up afterwards. */
  method FinalizeDirty(dirty: set<Key>, live: set<Key>) returns (list: seq<DirtyPosition>)
    ensures list == DirtyList(dirty, live)
  {
    var m := map k | k in dirty :: DirtyPosition(k, k in live);
    assert m.Keys == dirty;
    list := SortedEntries(m, DirtyKey);
  }

  /** finalizeTemporaryStateChanges */
  method FinalizeTemporary(b: Mirror) returns (list: seq<DirtyPosition>)
    ensures list == TemporaryList(b)
  {
    hide TemporaryLive;
    var m := map k | k in b.dirtyTemporary :: DirtyPosition(k, TemporaryLive(b, k));
    assert m.Keys == b.dirtyTemporary;
    list := SortedEntries(m, DirtyKey);
  }

  /** reserveIndexSnapshot */
  method ReserveIndexSnapshot(prior: Option<LedgerState>) returns (indexes: map<Key, map<int, string>>)
    ensures indexes == PriorIndexes(prior)
  {
    hide Published;
    indexes := map[];
    if prior.None? { return; }
    var pools := prior.value.pools;
    for n := 0 to |pools|
      invariant indexes == Collect(pools[..n], PoolKey, IndexesOf)
    {
      assert pools[..n + 1][..n] == pools[..n];
      var published := PublishedReserveIndexes(pools[n].reserves);
      indexes := indexes[PoolKey(pools[n]) := published];
    }
    assert pools[..|pools|] == pools;
  }
}
