/** The reference reducer: rebuild the mirror from the prior state, apply the ledger's changes, resolve and re-sort
    everything. Every other strategy is correct insofar as it agrees with it. */
module Reference {
  import opened Options
  import opened Keys
  import opened Slices
  import opened Blocks
  import opened Reserves
  import opened Mirror
  import opened Carry

  // ---- user rows -------------------------------------------------------------------------------

  function RowOwner(r: Row): Key { Pair(r.address, r.pool) }

  function DiagnosticOwner(d: Diagnostic): Key { Pair(d.address, d.pool) }

  /** The rows of one Positions entry, in leg order; none while its pool is unknown. */
  function RowBlock(b: Mirror, k: Key): seq<Row> {
    if k in b.pending && Contract(b.pending[k].pool) in b.pools
    then UserRows(b.pools[Contract(b.pending[k].pool)].byIndex, b.pending[k]) else []
  }

  function RowBlocks(b: Mirror): map<Key, seq<Row>> { map k | k in b.pending :: RowBlock(b, k) }

  /** The same rows in (asset, type) order: the block the incremental strategy caches. */
  function SortedBlock(b: Mirror, k: Key): seq<Row> { SortBy(RowBlock(b, k), RowKey) }

  function SortedBlocks(b: Mirror): map<Key, seq<Row>> { map k | k in b.pending :: SortedBlock(b, k) }

  /** build's user rows: gathered in map order, then one global sort. */
  function Users(b: Mirror): seq<Row> { SortBy(Flatten(Ascending(b.pending.Keys), RowBlocks(b)), RowKey) }

  function DiagnosticBlock(b: Mirror, k: Key, n: int): seq<Diagnostic> {
    if k in b.pending && Contract(b.pending[k].pool) in b.pools
    then UserDiagnostics(b.pools[Contract(b.pending[k].pool)], b.pending[k], n) else []
  }

  function DiagnosticBlocks(b: Mirror, dirty: set<Key>, n: int): map<Key, seq<Diagnostic>> {
    map k | k in b.pending && k in dirty :: DiagnosticBlock(b, k, n)
  }

  /** The skipped-leg records of the pairs a ledger touched. */
  function Diagnostics(b: Mirror, dirty: set<Key>, n: int): seq<Diagnostic> {
    SortBy(Flatten(Ascending(dirty), DiagnosticBlocks(b, dirty, n)), DiagnosticKey)
  }

  // ---- the order of the rows is determined -----------------------------------------------------

  /** What the row lemmas need of a mirror; it holds during a ledger and after build. */
  ghost predicate Resolved(b: Mirror) { PoolsOk(b.pools) && KeyedBy(b.pending, PendingKey) }

  lemma RowBlockFacts(b: Mirror, k: Key)
    requires Resolved(b) && k in b.pending
    ensures DistinctKeys(RowBlock(b, k), RowKey)
    ensures forall r :: r in RowBlock(b, k) ==> RowOwner(r) == k
  {
    hide UserRows, Fresh, DistinctKeys, KeyedBy;
    if Contract(b.pending[k].pool) in b.pools {
      var p := b.pools[Contract(b.pending[k].pool)];
      PendingOwn(b, k);
      FinalizedInjective(p);
      UserRowsDistinct(p.byIndex, b.pending[k]);
    } else {
      NoRows();
    }
  }

  lemma NoRows()
    ensures DistinctKeys<Row>([], RowKey)
  {
  }

  lemma PendingOwn(b: Mirror, k: Key)
    requires KeyedBy(b.pending, PendingKey) && k in b.pending
    ensures k == Pair(b.pending[k].user, b.pending[k].pool)
  {
    assert PendingKey(b.pending[k]) == k;
  }

  lemma RowOwnerOrder()
    ensures forall v: Row, w: Row :: RowKey(v) == RowKey(w) ==> RowOwner(v) == RowOwner(w)
    ensures forall v: Row, w: Row :: KeyLess(RowOwner(v), RowOwner(w)) ==> !KeyLess(RowKey(w), RowKey(v))
  {
    hide KeyLess;
    forall v: Row, w: Row | KeyLess(RowOwner(v), RowOwner(w)) ensures !KeyLess(RowKey(w), RowKey(v)) {
      KeyTrichotomy(RowOwner(v), RowOwner(w));
      KeyTrichotomy(RowKey(v), RowKey(w));
      RowOrder(RowKey(v), RowKey(w));
    }
  }

  lemma RowBlocksFacts(b: Mirror)
    requires Resolved(b)
    ensures OwnedBy(RowBlocks(b), RowOwner)
    ensures forall k :: k in RowBlocks(b) ==> DistinctKeys(RowBlocks(b)[k], RowKey)
  {
    hide RowBlock, DistinctKeys, Resolved;
    forall k | k in b.pending
      ensures DistinctKeys(RowBlock(b, k), RowKey) && forall r :: r in RowBlock(b, k) ==> RowOwner(r) == k
    {
      RowBlockFacts(b, k);
    }
  }

  /** Every row of a ledger state has its own (address, pool, asset, type). */
  lemma GatheredDistinct(b: Mirror)
    requires Resolved(b)
    ensures DistinctKeys(Flatten(Ascending(b.pending.Keys), RowBlocks(b)), RowKey)
  {
    hide RowBlocks, DistinctKeys, OwnedBy, KeyLess, Flatten;
    RowBlocksFacts(b);
    RowOwnerOrder();
    FlattenDistinct(Ascending(b.pending.Keys), RowBlocks(b), RowOwner, RowKey);
  }

  /** Whatever order the Positions map is iterated in and however unstable the sort, build's user rows are the same. */
  lemma UsersAnyOrder(b: Mirror, order: seq<Key>, out: seq<Row>)
    requires Resolved(b)
    requires Enumerates(order, b.pending.Keys)
    requires IsSortOf(out, Flatten(order, RowBlocks(b)), RowKey)
    ensures out == Users(b)
  {
    var ks, blocks := Ascending(b.pending.Keys), RowBlocks(b);
    DistinctMultiset(ks, b.pending.Keys);
    FlattenAnyOrder(order, ks, blocks);
    GatheredDistinct(b);
    SortsAgree(Flatten(ks, blocks), out, RowKey);
  }

  lemma SortsAgree<V>(s: seq<V>, out: seq<V>, keyOf: V -> Key)
    requires DistinctKeys(s, keyOf) && IsSortOf(out, s, keyOf)
    ensures out == SortBy(s, keyOf)
  {
    SortBySorts(s, keyOf);
    DistinctRearranged(s, SortBy(s, keyOf), keyOf);
    DistinctDetermines(SortBy(s, keyOf), keyOf);
    SortUnique(SortBy(s, keyOf), out, keyOf);
  }

  lemma SortedBlockFacts(b: Mirror)
    requires Resolved(b)
    ensures OwnedBy(SortedBlocks(b), RowOwner)
    ensures forall k :: k in SortedBlocks(b) ==> SortedBy(SortedBlocks(b)[k], RowKey)
    ensures forall k :: multiset(BlockAt(RowBlocks(b), k)) == multiset(BlockAt(SortedBlocks(b), k))
  {
    hide RowBlock, SortBy, SortedBy, Resolved, IsSortOf;
    forall k | k in b.pending
      ensures SortedBy(SortedBlock(b, k), RowKey)
      ensures forall r :: r in SortedBlock(b, k) ==> RowOwner(r) == k
      ensures multiset(RowBlock(b, k)) == multiset(SortedBlock(b, k))
    {
      OneSortedBlock(b, k);
    }
  }

  lemma OneSortedBlock(b: Mirror, k: Key)
    requires Resolved(b) && k in b.pending
    ensures SortedBy(SortedBlock(b, k), RowKey)
    ensures forall r :: r in SortedBlock(b, k) ==> RowOwner(r) == k
    ensures multiset(RowBlock(b, k)) == multiset(SortedBlock(b, k))
  {
    hide RowBlock, SortBy, SortedBy, Resolved;
    RowBlockFacts(b, k);
    SortBySorts(RowBlock(b, k), RowKey);
    SameElements(RowBlock(b, k), SortedBlock(b, k));
  }

  /** Concatenating the sorted per-user blocks in (address, pool) order is the global sort of all rows. */
  lemma BlocksAreTheGlobalSort(b: Mirror)
    requires Resolved(b)
    ensures Flatten(Ascending(b.pending.Keys), SortedBlocks(b)) == Users(b)
  {
    hide RowBlocks, SortedBlocks, OwnedBy, SortedBy, Flatten, KeyLess, SortBy, DistinctKeys, Resolved;
    var ks := Ascending(b.pending.Keys);
    SortedBlockFacts(b);
    RowOwnerOrder();
    FlattenSorted(ks, SortedBlocks(b), RowOwner, RowKey);
    FlattenSortedBlocks(ks, RowBlocks(b), SortedBlocks(b));
    GatheredDistinct(b);
    SortsAgree(Flatten(ks, RowBlocks(b)), Flatten(ks, SortedBlocks(b)), RowKey);
  }

  /** Scanning a ledger state's rows for one (address, pool) finds that entry's sorted block. */
  lemma ScanUsers(b: Mirror, k: Key)
    requires Resolved(b)
    ensures RowsOf(Users(b), RowOwner, k) == if k in b.pending then SortedBlock(b, k) else []
  {
    hide RowBlocks, SortedBlock, SortedBy, Flatten, KeyLess, SortBy, Resolved, Users;
    SortedBlockFacts(b);
    BlocksAreTheGlobalSort(b);
    ScanFindsBlock(Ascending(b.pending.Keys), SortedBlocks(b), RowOwner, k);
  }

  // ---- diagnostics -----------------------------------------------------------------------------

  lemma {:induction false} LegDiagnosticsOwn(pool: Pool, p: Pending, legs: seq<Leg>, kind: string, n: int)
    ensures forall d :: d in LegDiagnostics(pool, p, legs, kind, n) ==>
              d.kind == kind && d.address == p.user && d.pool == p.pool
  {
    forall d | d in LegDiagnostics(pool, p, legs, kind, n)
      ensures d.kind == kind && d.address == p.user && d.pool == p.pool
    {
      LegDiagnosticsFrom(pool, p, legs, kind, n, d);
    }
  }

  lemma UserDiagnosticsDistinct(pool: Pool, p: Pending, n: int)
    ensures DistinctKeys(UserDiagnostics(pool, p, n), DiagnosticKey)
    ensures forall d :: d in UserDiagnostics(pool, p, n) ==> d.address == p.user && d.pool == p.pool
  {
    if p.blob.Some? {
      var v := p.blob.value;
      var s := LegDiagnostics(pool, p, v.supply, SUPPLY, n);
      var c := LegDiagnostics(pool, p, v.collateral, COLLATERAL, n);
      var l := LegDiagnostics(pool, p, v.liabilities, LIABILITY, n);
      LegDiagnosticsDistinct(pool, p, v.supply, SUPPLY, n);
      LegDiagnosticsDistinct(pool, p, v.collateral, COLLATERAL, n);
      LegDiagnosticsDistinct(pool, p, v.liabilities, LIABILITY, n);
      LegDiagnosticsOwn(pool, p, v.supply, SUPPLY, n);
      LegDiagnosticsOwn(pool, p, v.collateral, COLLATERAL, n);
      LegDiagnosticsOwn(pool, p, v.liabilities, LIABILITY, n);
      hide LegDiagnostics, DistinctKeys;
      assert SUPPLY[0] == 's' && COLLATERAL[0] == 'c' && LIABILITY[0] == 'l';
      DistinctConcat(s, c, DiagnosticKey);
      DistinctConcat(s + c, l, DiagnosticKey);
    }
  }

  lemma DiagnosticBlocksFacts(b: Mirror, dirty: set<Key>, n: int)
    requires KeyedBy(b.pending, PendingKey)
    ensures OwnedBy(DiagnosticBlocks(b, dirty, n), DiagnosticOwner)
    ensures forall k :: k in DiagnosticBlocks(b, dirty, n) ==> DistinctKeys(DiagnosticBlocks(b, dirty, n)[k], DiagnosticKey)
  {
    hide UserDiagnostics, DistinctKeys, KeyedBy;
    forall k | k in b.pending
      ensures DistinctKeys(DiagnosticBlock(b, k, n), DiagnosticKey)
      ensures forall d :: d in DiagnosticBlock(b, k, n) ==> DiagnosticOwner(d) == k
    {
      PendingOwn(b, k);
      if Contract(b.pending[k].pool) in b.pools {
        UserDiagnosticsDistinct(b.pools[Contract(b.pending[k].pool)], b.pending[k], n);
      } else {
        NoDiagnostics();
      }
    }
  }

  lemma NoDiagnostics()
    ensures DistinctKeys<Diagnostic>([], DiagnosticKey)
  {
  }

  /** The diagnostics of a ledger do not depend on the order the touched pairs are visited in. */
  lemma DiagnosticsAnyOrder(b: Mirror, dirty: set<Key>, n: int, order: seq<Key>, out: seq<Diagnostic>)
    requires KeyedBy(b.pending, PendingKey)
    requires Enumerates(order, dirty)
    requires IsSortOf(out, Flatten(order, DiagnosticBlocks(b, dirty, n)), DiagnosticKey)
    ensures out == Diagnostics(b, dirty, n)
  {
    hide DiagnosticBlocks, OwnedBy, DistinctKeys, Flatten, SortBy, SortedBy, KeyedBy;
    var ks, blocks := Ascending(dirty), DiagnosticBlocks(b, dirty, n);
    DistinctMultiset(ks, dirty);
    FlattenAnyOrder(order, ks, blocks);
    DiagnosticBlocksFacts(b, dirty, n);
    assert forall v: Diagnostic, w: Diagnostic :: DiagnosticKey(v) == DiagnosticKey(w) ==> DiagnosticOwner(v) == DiagnosticOwner(w);
    FlattenDistinct(ks, blocks, DiagnosticOwner, DiagnosticKey);
    SortsAgree(Flatten(ks, blocks), out, DiagnosticKey);
  }

  // ---- the dirty sets --------------------------------------------------------------------------

  /** One entry of an exposed dirty list: the pair, and whether it is still present. */
  datatype DirtyPosition = DirtyPosition(pair: Key, upsert: bool)

  /** finalizeDirtyPositions, finalizeDirtyBackstops */
  function DirtyList(dirty: set<Key>, live: set<Key>): seq<DirtyPosition> {
    var ks := Ascending(dirty);
    seq(|ks|, i requires 0 <= i < |ks| => DirtyPosition(ks[i], ks[i] in live))
  }

  function TemporaryLive(b: Mirror, k: Key): bool {
    k.Temporary? && if k.what == "auction" then AuctionOf(k.pool, k.user, k.auctionType) in b.auctions
                    else ReserveOf(k.pool, k.asset) in b.queued
  }

  /** finalizeTemporaryStateChanges */
  function TemporaryList(b: Mirror): seq<DirtyPosition> {
    var ks := Ascending(b.dirtyTemporary);
    seq(|ks|, i requires 0 <= i < |ks| => DirtyPosition(ks[i], TemporaryLive(b, ks[i])))
  }

  function IndexesOf(s: PoolState): Option<map<int, string>> { Some(Published(s.reserves)) }

  /** reserveIndexSnapshot */
  function PriorIndexes(prior: Option<LedgerState>): map<Key, map<int, string>> {
    if prior.Some? then Collect(prior.value.pools, PoolKey, IndexesOf) else map[]
  }

  /** The pool appeared, disappeared or moved its index map. */
  predicate PoolChanged(indexes: map<Key, map<int, string>>, pools: map<Key, Pool>, k: Key) {
    || (k in pools && !(k in indexes && indexes[k] == pools[k].byIndex))
    || (k in indexes && k !in pools)
  }

  /** markPoolRemapDirty */
  function RemapDirty(indexes: map<Key, map<int, string>>, b: Mirror): set<Key> {
    set k | k in b.pending && PoolChanged(indexes, b.pools, Contract(b.pending[k].pool))
  }

  // ---- the reference decode --------------------------------------------------------------------

  datatype Outcome = Outcome(state: LedgerState, dirty: seq<DirtyPosition>, dirtyBackstops: seq<DirtyPosition>,
                             diagnostics: seq<Diagnostic>, temporary: seq<DirtyPosition>)

  function LoadPrior(prior: Option<LedgerState>): Mirror {
    if prior.Some? then Load(prior.value) else EMPTY_MIRROR
  }

  function PublishAll(b: Mirror): LedgerState { Publish(b, Users(b), Slice(b.pending)) }

  /** What a ledger exposes, from the mirror its changes leave and the pairs they touch. */
  function Expose(b: Mirror, dirty: set<Key>, seqNum: int, closeTime: Option<int>): Outcome {
    var c := Built(b, closeTime);
    Outcome(PublishAll(c), DirtyList(dirty, b.pending.Keys), DirtyList(BackstopDirty(b), b.backstopUsers.Keys),
            Diagnostics(c, dirty, seqNum), TemporaryList(b))
  }

  /** decodeBlendState */
  function Decode(cfg: Owned, prior: Option<LedgerState>, changes: seq<Change>, seqNum: int, closeTime: Option<int>)
    : Outcome
  {
    var b := ApplyAll(cfg, LoadPrior(prior), changes, seqNum);
    Expose(b, b.dirtyUsers + RemapDirty(PriorIndexes(prior), b), seqNum, closeTime)
  }

  // ---- well-formed priors ----------------------------------------------------------------------

  /** What a prior state must satisfy for the strategies to agree on it: its pools have distinct ids and each pool's
      reserves distinct assets. Every state the reducer publishes does. */
  ghost predicate WellFormed(s: LedgerState) {
    && DistinctKeys(s.pools, PoolKey)
    && forall p :: p in s.pools ==> DistinctKeys(p.reserves, ReserveKey)
  }

  lemma {:induction false} CollectKeyed<V, W>(s: seq<V>, keyOf: V -> Key, f: V -> Option<W>, keyOfW: W -> Key)
    requires forall v :: f(v).Some? ==> keyOfW(f(v).value) == keyOf(v)
    ensures KeyedBy(Collect(s, keyOf, f), keyOfW)
  {
    if s != [] { CollectKeyed(s[..|s| - 1], keyOf, f, keyOfW); }
  }

  lemma IndexedMembers(s: seq<Reserve>)
    requires DistinctKeys(s, ReserveKey)
    ensures var m := IndexBy(s, ReserveKey); KeyedBy(m, ReserveKey) && SameMembers(s, m)
  {
    var m := IndexBy(s, ReserveKey);
    IndexByAt(s, ReserveKey);
    forall r ensures r in s <==> ReserveKey(r) in m && m[ReserveKey(r)] == r {
      if r in s { IndexByFind(s, ReserveKey, r); }
      if ReserveKey(r) in m && m[ReserveKey(r)] == r {
        var x := IndexByFrom(s, ReserveKey, ReserveKey(r));
        IndexByFind(s, ReserveKey, x);
      }
    }
  }

  ghost predicate SameMembers(s: seq<Reserve>, m: map<Key, Reserve>) {
    forall r :: r in s <==> ReserveKey(r) in m && m[ReserveKey(r)] == r
  }

  lemma SameIndexes(s: seq<Reserve>, m: map<Key, Reserve>)
    requires KeyedBy(m, ReserveKey) && SameMembers(s, m) && DistinctKeys(s, ReserveKey)
    ensures Published(ReserveSlice(m)) == Published(s)
  {
    hide Published, ReserveSlice, DistinctKeys, KeyedBy;
    ReserveSliceFacts(m);
    assert SameClaims(m, m);
    SamePublished(m, ReserveSlice(m), m, s);
  }

  lemma LoadPoolOk(s: PoolState)
    requires DistinctKeys(s.reserves, ReserveKey)
    ensures PoolOk(PoolKey(s), LoadPool(s))
    ensures LoadPool(s).byIndex == Published(s.reserves)
  {
    hide Published, ReserveSlice, IndexBy, DistinctKeys, KeyedBy, SameMembers;
    IndexedMembers(s.reserves);
    SameIndexes(s.reserves, IndexBy(s.reserves, ReserveKey));
  }

  lemma LoadPools(s: LedgerState)
    requires WellFormed(s)
    ensures PoolsOk(Load(s).pools)
    ensures PriorIndexes(Some(s)).Keys == Load(s).pools.Keys
    ensures forall k :: k in Load(s).pools ==> Load(s).pools[k].byIndex == PriorIndexes(Some(s))[k]
  {
    var m, n := Collect(s.pools, PoolKey, PoolOf), Collect(s.pools, PoolKey, IndexesOf);
    forall k | k in m ensures PoolOk(k, m[k]) && k in n && n[k] == m[k].byIndex {
      var p := CollectFrom(s.pools, PoolKey, PoolOf, k);
      CollectFind(s.pools, PoolKey, PoolOf, p);
      CollectFind(s.pools, PoolKey, IndexesOf, p);
      LoadPoolOk(p);
    }
    forall k | k in n ensures k in m {
      var p := CollectFrom(s.pools, PoolKey, IndexesOf, k);
      CollectFind(s.pools, PoolKey, PoolOf, p);
    }
  }

  lemma EmptyCoherent()
    ensures Coherent(EMPTY_MIRROR) && AllDecodable(EMPTY_MIRROR)
  {
  }

  lemma LoadRest(s: LedgerState)
    ensures var b := Load(s);
            && KeyedBy(b.pending, PendingKey) && KeyedBy(b.backstopUsers, UserBalanceKey) && KeyedBy(b.auctions, AuctionKey)
            && KeyedBy(b.userEmis, UserEmissionKey) && KeyedBy(b.queued, QueuedKey) && KeyedBy(b.instances, InstanceKeyOf)
            && KeyedBy(b.oracles, OracleKey) && KeyedBy(b.feeds, FeedKey) && KeyedBy(b.aggregators, AggregatorKey)
            && KeyedBy(b.assets, AssetKey)
  {
    hide KeyedBy, Collect;
    CollectKeyed(s.pending, PendingKey, PendingOf, PendingKey);
    CollectKeyed(s.backstops, BackstopRowKey, UserOf, UserBalanceKey);
    CollectKeyed(s.auctions, AuctionKey, Keep<Auction>, AuctionKey);
    CollectKeyed(s.userEmissions, UserEmissionKey, Keep<UserEmission>, UserEmissionKey);
    CollectKeyed(s.queued, QueuedKey, Keep<QueuedReserve>, QueuedKey);
    CollectKeyed(s.instances, InstanceKeyOf, Keep<BackstopInstance>, InstanceKeyOf);
    CollectKeyed(s.oracles, OracleKey, OracleOf, OracleKey);
    CollectKeyed(s.feeds, FeedKey, Keep<FeedState>, FeedKey);
    CollectKeyed(s.aggregators, AggregatorKey, Keep<AggregatorState>, AggregatorKey);
    CollectKeyed(s.assets, AssetKey, Keep<Asset>, AssetKey);
  }

  lemma {:induction false} LoadedOracles(s: seq<Oracle>)
    ensures NoneSynthesized(Collect(s, OracleKey, OracleOf))
  {
    if s != [] { LoadedOracles(s[..|s| - 1]); }
  }

  lemma {:induction false} LoadedPending(s: seq<Pending>)
    ensures forall k :: k in Collect(s, PendingKey, PendingOf) ==> Collect(s, PendingKey, PendingOf)[k].blob.Some?
  {
    if s != [] { LoadedPending(s[..|s| - 1]); }
  }

  /** Loading a well-formed prior gives a coherent mirror whose blobs all decode. */
  lemma LoadCoherent(prior: Option<LedgerState>)
    requires prior.Some? ==> WellFormed(prior.value)
    ensures Coherent(LoadPrior(prior)) && AllDecodable(LoadPrior(prior))
    ensures PriorIndexes(prior).Keys == LoadPrior(prior).pools.Keys
    ensures forall k :: k in LoadPrior(prior).pools ==> LoadPrior(prior).pools[k].byIndex == PriorIndexes(prior)[k]
    ensures LoadPrior(prior).dirtyUsers == {} && LoadPrior(prior).dirtyTemporary == {}
  {
    if prior.Some? {
      hide KeyedBy, Collect, PoolsOk, NoneSynthesized;
      LoadPools(prior.value);
      LoadRest(prior.value);
      LoadedOracles(prior.value.oracles);
      LoadedPending(prior.value.pending);
    } else {
      EmptyCoherent();
    }
  }

  /** Every published state is a well-formed prior. */
  lemma PublishedWellFormed(b: Mirror, closeTime: Option<int>)
    requires Coherent(b)
    ensures WellFormed(PublishAll(Built(b, closeTime)))
  {
    hide Coherent, PoolOk, Slice, KeyedBy, Publish, Users, Built, PublishPool, PoolsOk;
    BuiltPools(b, closeTime);
    var pools := Built(b, closeTime).pools;
    PublishedDistinct(pools);
    assert PublishAll(Built(b, closeTime)).pools == Slice(map k | k in pools :: PublishPool(pools[k])) by {
      PublishesPools(Built(b, closeTime));
    }
  }

  lemma PublishesPools(b: Mirror)
    ensures PublishAll(b).pools == Slice(map k | k in b.pools :: PublishPool(b.pools[k]))
  {
    hide Slice, Users, PublishPool;
  }

  lemma PublishedDistinct(pools: map<Key, Pool>)
    requires PoolsOk(pools)
    ensures var s := Slice(map k | k in pools :: PublishPool(pools[k]));
            DistinctKeys(s, PoolKey) && forall p :: p in s ==> DistinctKeys(p.reserves, ReserveKey)
  {
    hide Slice, KeyedBy, DistinctKeys, Fresh;
    var m := map k | k in pools :: PublishPool(pools[k]);
    PublishedKeyed(pools);
    SliceFacts(m, PoolKey);
    forall p | p in Slice(m) ensures DistinctKeys(p.reserves, ReserveKey) {
      InSlice(m, p);
      var k :| k in m && m[k] == p;
      ReserveSliceFacts(pools[k].reserves);
    }
  }
}
