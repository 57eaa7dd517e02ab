/** The last write of an entry in a ledger is what the ledger's state shows of it. */
module LastWrites {
  import opened Options
  import opened Keys
  import opened Slices
  import opened Reserves
  import opened Reflector
  import opened Mirror
  import opened Carry
  import opened Reference
  import opened Confinement
  import opened Writes
  import opened Persistence
  import opened Cache
  import Run

  // ---- and is published ------------------------------------------------------------------------

  ghost predicate PoolShown(s: LedgerState, id: string, hash: string, x: PoolInstance) {
    exists p :: p in s.pools && p.info.contract == id && PoolSays(p.info, hash, x)
  }

  ghost predicate OracleShown(s: LedgerState, id: string, x: OracleInstance) {
    exists o :: o in s.oracles && o.contract == id && OracleSays(o, x)
  }

  ghost predicate AddressesShown(s: LedgerState, id: string, x: BackstopAddresses) {
    exists i :: i in s.instances && i.contract == id && AddressesSay(i, x)
  }

  /** The contract's prices are its own, not synthesized for an aggregator of the same id. */
  ghost predicate OwnPrices(s: LedgerState, id: string) { forall a <- s.aggregators :: a.contract != id }

  ghost predicate InstanceShows(s: LedgerState, owned: bool, id: string, v: Value)
    requires v.InstanceValue?
  {
    if owned && v.oracle.Some? then OwnPrices(s, id) ==> OracleShown(s, id, v.oracle.value)
    else if owned && v.aggregator.Some? then AggregatorState(id, v.aggregator.value) in s.aggregators
    else if v.backstop.Some? then AddressesShown(s, id, v.backstop.value)
    else if v.wasmHash.Some? then PoolShown(s, id, v.wasmHash.value, v.pool)
    else true
  }

  ghost predicate SymbolShows(s: LedgerState, id: string, name: SymbolName, v: Value) {
    && (IsPoolSymbol(name, v) ==> exists p :: p in s.pools && p.info.contract == id && SymbolSays(p.info, name, v))
    && (name == RewardZone && v.AddressListValue? ==>
          exists i :: i in s.instances && i.contract == id && i.rewardZone == v.addresses)
    && (name == DropList && v.DropListValue? ==> exists i :: i in s.instances && i.contract == id && i.dropList == v.entries)
  }

  /** What a published state shows of a written entry. */
  ghost predicate Shows(s: LedgerState, owned: bool, id: string, key: EntryKey, v: Value) {
    match key
    case PositionsKey(user) =>
      Pending(user, id, Some(if v.PositionsOf? then v.positions else PositionsValue([], [], [])), false, 0) in s.pending
    case PoolBalanceKey(poolId) =>
      v.BalanceValue? ==>
        && (forall p <- s.pools :: p.info.contract == poolId ==> p.info.balance == v.balance)
        && (forall r <- s.backstops :: r.balance.pool == poolId ==>
                                         r.poolShares == v.balance.shares && r.poolTokens == v.balance.tokens)
    case UserBalanceEntry(poolId, user) =>
      v.UserSharesValue? && v.userShares != "" ==>
        exists r :: r in s.backstops && UserBalanceKey(r.balance) == Pair(user, poolId) && SharesSay(r.balance, v)
    case BEmisDataKey(poolId) =>
      v.BackstopEmisValue? && v.emis != Emis("", "", "", "") ==>
        forall p <- s.pools :: p.info.contract == poolId ==> p.info.emis == v.emis
    case UEmisDataKey(poolId, user) =>
      v.UserEmisValue? && (v.userIndex != "" || v.accrued != "") ==>
        exists r :: r in s.backstops && UserBalanceKey(r.balance) == Pair(user, poolId) && AccrualSays(r.balance, v)
    case AuctionEntry(user, t) => v.AuctionValue? ==> Auction(id, user, t, v.block, v.lot, v.bid) in s.auctions
    case UserEmisKey(user, token) => v.UserEmisValue? ==> UserEmission(user, id, token, v.userIndex, v.accrued) in s.userEmissions
    case ResInitKey(asset) => v.QueuedValue? ==> QueuedReserve(id, asset, v.unlockTime, v.newConfig) in s.queued
    case U128Key(hi, lo) =>
      owned && v.IntValue? && hi == 0 && lo < 0x8000_0000_0000_0000 && OwnPrices(s, id) ==>
        exists o :: o in s.oracles && o.contract == id && lo in o.priceByIndex && o.priceByIndex[lo] == v.n
    case InstanceEntry => v.InstanceValue? ==> InstanceShows(s, owned, id, v)
    case Symbol(name) => SymbolShows(s, id, name, v)
    case _ => true
  }

  /** A built pool shows what its own entries say, and the backstop's share of it. */
  lemma PoolPublished(b: Mirror, closeTime: Option<int>, id: string)
    requires Coherent(b) && Contract(id) in b.pools
    ensures var s, info := PublishAll(Built(b, closeTime)), b.pools[Contract(id)].info;
      exists p :: p in s.pools && p.info == info.(balance := p.info.balance, emis := p.info.emis) && p.info.contract == id
  {
    hide Slice, Users, Finalize, PricePool, ResolveAggregators, KeyedBy, Fresh, TrimmedFeeds, ReserveSlice;
    var k, c := Contract(id), Built(b, closeTime);
    var published := map k | k in c.pools :: PublishPool(c.pools[k]);
    SliceHas(published, k);
    BuiltInfo(b, ResolveAggregators(b, closeTime), b.pools[k]);
    assert published[k] in PublishAll(c).pools;
  }

  lemma BuiltInfo(b: Mirror, oracles: map<Key, Oracle>, p: Pool)
    ensures var q, k := BuildPool(b, oracles, p), Contract(p.info.contract);
      && q.info == p.info.(balance := q.info.balance, emis := q.info.emis)
      && (k in b.backstopPools ==> q.info.balance == b.backstopPools[k])
      && q.info.emis == if k in b.backstopEmis then b.backstopEmis[k] else Emis("", "", "", "")
  {
    hide ReserveSlice, Published, Ambiguous, Unknown, PriceReserve;
  }

  /** A published pool has the balance and the emissions the backstop's entries say. */
  lemma BackstopPublished(b: Mirror, closeTime: Option<int>, p: PoolState)
    requires Coherent(b) && p in PublishAll(Built(b, closeTime)).pools
    ensures var k := Contract(p.info.contract);
      && (k in b.backstopPools ==> p.info.balance == b.backstopPools[k])
      && p.info.emis == if k in b.backstopEmis then b.backstopEmis[k] else Emis("", "", "", "")
  {
    hide Slice, Users, BuildPool, ResolveAggregators, KeyedBy, Fresh, TrimmedFeeds, ReserveSlice;
    var c := Built(b, closeTime);
    var published := map k | k in c.pools :: PublishPool(c.pools[k]);
    InSlice(published, p);
    var k :| k in published && published[k] == p;
    BuiltInfo(b, ResolveAggregators(b, closeTime), b.pools[k]);
  }

  lemma HolderPublished(b: Mirror, closeTime: Option<int>, k: Key)
    requires Coherent(b) && k in b.backstopUsers
    ensures exists r :: r in PublishAll(Built(b, closeTime)).backstops && r.balance == b.backstopUsers[k] && UserBalanceKey(r.balance) == k
  {
    hide Slice, Users, BackstopPosition, PricedPools, ResolveAggregators, TrimmedFeeds;
    var c := Built(b, closeTime);
    var rows := map k | k in c.backstopUsers :: BackstopPosition(c, c.backstopUsers[k]);
    SliceHas(rows, k);
    assert rows[k] in PublishAll(c).backstops;
  }

  lemma RowsPublished(b: Mirror, closeTime: Option<int>, poolId: string)
    requires Contract(poolId) in b.backstopPools
    ensures forall r <- PublishAll(Built(b, closeTime)).backstops :: r.balance.pool == poolId ==>
              && r.poolShares == b.backstopPools[Contract(poolId)].shares
              && r.poolTokens == b.backstopPools[Contract(poolId)].tokens
  {
    hide Slice, Users, PricedPools, ResolveAggregators, TrimmedFeeds, TokenPrice;
    var c := Built(b, closeTime);
    var rows := map k | k in c.backstopUsers :: BackstopPosition(c, c.backstopUsers[k]);
    forall r | r in PublishAll(c).backstops && r.balance.pool == poolId
      ensures r.poolShares == b.backstopPools[Contract(poolId)].shares && r.poolTokens == b.backstopPools[Contract(poolId)].tokens
    {
      InSlice(rows, r);
    }
  }

  lemma AggregatorListed(c: Mirror, k: Key)
    requires k in c.aggregators
    ensures c.aggregators[k] in PublishAll(c).aggregators
  {
    hide Slice, Users;
    SliceHas(c.aggregators, k);
  }

  lemma OraclePublished(b: Mirror, closeTime: Option<int>, id: string)
    requires Coherent(b) && Contract(id) in b.oracles && OwnPrices(PublishAll(Built(b, closeTime)), id)
    ensures b.oracles[Contract(id)].contract == id && b.oracles[Contract(id)] in PublishAll(Built(b, closeTime)).oracles
  {
    hide Slice, Users, Synthesize, PricedPools, TrimmedFeeds;
    var k, c := Contract(id), Built(b, closeTime);
    if k in b.aggregators { AggregatorListed(c, k); }
    var decoded := map j | j in c.oracles && !c.oracles[j].synthesized :: c.oracles[j];
    assert c.oracles[k] == b.oracles[k];
    SliceHas(decoded, k);
  }

  lemma ListsPublished(b: Mirror, closeTime: Option<int>)
    ensures var s := PublishAll(Built(b, closeTime));
      && s.pending == Slice(b.pending) && s.auctions == Slice(b.auctions) && s.userEmissions == Slice(b.userEmis)
      && s.queued == Slice(b.queued) && s.instances == Slice(b.instances) && s.aggregators == Slice(b.aggregators)
  {
    hide Slice, Users, PricedPools, ResolveAggregators, TrimmedFeeds;
  }

  lemma InstanceIsShown(b: Mirror, closeTime: Option<int>, owned: bool, id: string, v: Value)
    requires Coherent(b) && v.InstanceValue? && InstanceHolds(b, owned, id, v)
    ensures InstanceShows(PublishAll(Built(b, closeTime)), owned, id, v)
  {
    hide Built, PublishAll, Slice, OracleSays, AddressesSay, PoolSays, Coherent;
    var k, s := Contract(id), PublishAll(Built(b, closeTime));
    ListsPublished(b, closeTime);
    CoherentOwn(b, id);
    if owned && v.oracle.Some? {
      if OwnPrices(s, id) { OraclePublished(b, closeTime, id); }
    } else if owned && v.aggregator.Some? {
      SliceHas(b.aggregators, k);
    } else if v.backstop.Some? {
      SliceHas(b.instances, k);
    } else if v.wasmHash.Some? {
      PoolPublished(b, closeTime, id);
      var p :| p in s.pools && p.info == b.pools[k].info.(balance := p.info.balance, emis := p.info.emis) && p.info.contract == id;
      SameSays(p.info, b.pools[k].info, v.wasmHash.value, v.pool);
    }
  }

  lemma CoherentOwn(b: Mirror, id: string)
    requires Coherent(b)
    ensures Contract(id) in b.instances ==> b.instances[Contract(id)].contract == id
  {
  }

  lemma SameSays(x: PoolInfo, y: PoolInfo, hash: string, pool: PoolInstance)
    requires x == y.(balance := x.balance, emis := x.emis)
    ensures PoolSays(x, hash, pool) <==> PoolSays(y, hash, pool)
  {
  }

  lemma SameSymbol(x: PoolInfo, y: PoolInfo, name: SymbolName, v: Value)
    requires x == y.(balance := x.balance, emis := x.emis)
    ensures SymbolSays(x, name, v) <==> SymbolSays(y, name, v)
  {
  }

  lemma PoolSymbolIsShown(b: Mirror, closeTime: Option<int>, id: string, name: SymbolName, v: Value)
    requires Coherent(b) && Contract(id) in b.pools && SymbolSays(b.pools[Contract(id)].info, name, v)
    ensures var s := PublishAll(Built(b, closeTime)); exists p :: p in s.pools && p.info.contract == id && SymbolSays(p.info, name, v)
  {
    hide Built, PublishAll, SymbolSays, Coherent;
    var k, s := Contract(id), PublishAll(Built(b, closeTime));
    PoolPublished(b, closeTime, id);
    var p :| p in s.pools && p.info == b.pools[k].info.(balance := p.info.balance, emis := p.info.emis) && p.info.contract == id;
    SameSymbol(p.info, b.pools[k].info, name, v);
  }

  lemma InstanceListed(b: Mirror, closeTime: Option<int>, id: string)
    requires Coherent(b) && Contract(id) in b.instances
    ensures b.instances[Contract(id)].contract == id && b.instances[Contract(id)] in PublishAll(Built(b, closeTime)).instances
  {
    hide Built, PublishAll, Slice, Coherent;
    ListsPublished(b, closeTime);
    CoherentOwn(b, id);
    SliceHas(b.instances, Contract(id));
  }

  lemma SymbolIsShown(b: Mirror, closeTime: Option<int>, id: string, name: SymbolName, v: Value)
    requires Coherent(b) && SymbolHolds(b, id, name, v)
    ensures SymbolShows(PublishAll(Built(b, closeTime)), id, name, v)
  {
    hide Built, PublishAll, SymbolSays, Coherent;
    if IsPoolSymbol(name, v) {
      PoolSymbolIsShown(b, closeTime, id, name, v);
    } else if Contract(id) in b.instances {
      InstanceListed(b, closeTime, id);
    }
  }

  lemma BackstopIsShown(b: Mirror, closeTime: Option<int>, owned: bool, id: string, key: EntryKey, v: Value)
    requires BackstopKeyed(key)
    requires Coherent(b) && Holds(b, owned, id, key, v)
    ensures Shows(PublishAll(Built(b, closeTime)), owned, id, key, v)
  {
    hide Built, PublishAll, Slice, Coherent;
    var s := PublishAll(Built(b, closeTime));
    forall p | p in s.pools { BackstopPublished(b, closeTime, p); }
    match key
    case PoolBalanceKey(poolId) => if v.BalanceValue? { RowsPublished(b, closeTime, poolId); }
    case UserBalanceEntry(poolId, user) =>
      if Pair(user, poolId) in b.backstopUsers { HolderPublished(b, closeTime, Pair(user, poolId)); }
    case UEmisDataKey(poolId, user) =>
      if Pair(user, poolId) in b.backstopUsers { HolderPublished(b, closeTime, Pair(user, poolId)); }
    case BEmisDataKey(_) =>
  }

  lemma EntryIsShown(b: Mirror, closeTime: Option<int>, owned: bool, id: string, key: EntryKey, v: Value)
    requires !BackstopKeyed(key) && key != InstanceEntry && !key.Symbol?
    requires Coherent(b) && Holds(b, owned, id, key, v)
    ensures Shows(PublishAll(Built(b, closeTime)), owned, id, key, v)
  {
    hide Built, PublishAll, Slice, Coherent;
    var s := PublishAll(Built(b, closeTime));
    ListsPublished(b, closeTime);
    match key
    case PositionsKey(user) => SliceHas(b.pending, Pair(user, id));
    case AuctionEntry(user, t) => if v.AuctionValue? { SliceHas(b.auctions, AuctionOf(id, user, t)); }
    case UserEmisKey(user, token) => if v.UserEmisValue? { SliceHas(b.userEmis, EmissionOf(user, id, token)); }
    case ResInitKey(asset) => if v.QueuedValue? { SliceHas(b.queued, ReserveOf(id, asset)); }
    case U128Key(_, _) => if Contract(id) in b.oracles && OwnPrices(s, id) { OraclePublished(b, closeTime, id); }
    case _ =>
  }

  /** The last write of an entry in a ledger is what the ledger's state shows. */
  lemma LastWriteShows(cfg: Owned, prior: Option<LedgerState>, changes: seq<Change>, n: nat, seqNum: int,
                       closeTime: Option<int>, key: EntryKey, v: Value)
    requires prior.Some? ==> WellFormed(prior.value)
    requires n < |changes| && LastWrite(changes, n, seqNum, key, v)
    requires changes[n].contract !in cfg.feeds && changes[n].contract !in cfg.assets
    ensures var id := changes[n].contract;
      Shows(Decode(cfg, prior, changes, seqNum, closeTime).state, id in cfg.contracts, id, key, v)
  {
    hide WellFormed, Decode, ApplyAll, LoadPrior, Built, PublishAll, Coherent, Holds, Shows, LastWrite, InstanceHolds,
      InstanceShows, SymbolHolds, SymbolShows;
    var b, id := ApplyAll(cfg, LoadPrior(prior), changes, seqNum), changes[n].contract;
    Run.ReferenceState(cfg, prior, changes, seqNum, closeTime);
    LastWriteHolds(cfg, LoadPrior(prior), changes, n, seqNum, key, v);
    HeldIsShown(b, closeTime, id in cfg.contracts, id, key, v);
  }

  lemma HeldIsShown(b: Mirror, closeTime: Option<int>, owned: bool, id: string, key: EntryKey, v: Value)
    requires Coherent(b) && Holds(b, owned, id, key, v)
    ensures Shows(PublishAll(Built(b, closeTime)), owned, id, key, v)
  {
    hide Built, PublishAll, Coherent, InstanceHolds, InstanceShows, SymbolHolds, SymbolShows;
    if key == InstanceEntry {
      if v.InstanceValue? { InstanceIsShown(b, closeTime, owned, id, v); }
    } else if key.Symbol? {
      SymbolIsShown(b, closeTime, id, key.name, v);
    } else if BackstopKeyed(key) {
      hide Holds, Shows;
      BackstopIsShown(b, closeTime, owned, id, key, v);
    } else {
      hide Holds, Shows;
      EntryIsShown(b, closeTime, owned, id, key, v);
    }
  }

  // ---- and nothing else is reported ------------------------------------------------------------

  /** Some change of the ledger is of the pair's Positions entry. */
  ghost predicate Named(changes: seq<Change>, k: Key) {
    exists c :: c in changes && c.key.Some? && PositionsAt(c.contract, c.key.value) == Some(k)
  }

  lemma {:induction false} MarkedOnlyIfNamed(cfg: Owned, b: Mirror, changes: seq<Change>, seqNum: int, k: Key)
    requires k in ApplyAll(cfg, b, changes, seqNum).dirtyUsers && k !in b.dirtyUsers
    ensures Named(changes, k)
    decreases |changes|
  {
    hide Apply;
    if changes != [] {
      var init, last := changes[..|changes| - 1], changes[|changes| - 1];
      assert last in changes && forall c <- init :: c in changes;
      var before := ApplyAll(cfg, b, init, seqNum);
      EveryChangeIsConfined(cfg, before, last, seqNum);
      if k in before.dirtyUsers {
        MarkedOnlyIfNamed(cfg, b, init, seqNum, k);
      }
    }
  }

  lemma PublishedIndexes(b: Mirror, closeTime: Option<int>)
    requires Coherent(b)
    ensures var indexes := PriorIndexes(Some(PublishAll(Built(b, closeTime))));
      indexes.Keys == b.pools.Keys && forall k :: k in b.pools ==> indexes[k] == b.pools[k].byIndex
  {
    hide Built, Coherent, PublishAll, Load, PriorIndexes, Collect, Slice, PublishPool;
    PublishedWellFormed(b, closeTime);
    LoadCoherent(Some(PublishAll(Built(b, closeTime))));
    LoadedParts(Built(b, closeTime));
    ReloadedPools(b, closeTime);
    BuiltPools(b, closeTime);
  }

  /** A pair is reported dirty only when a change of the ledger is of its own entry, or its pool's published index map
      moved, appeared or disappeared. */
  lemma DirtyOnlyIfTouched(cfg: Owned, prior: Option<LedgerState>, changes: seq<Change>, seqNum: int, closeTime: Option<int>,
                           k: Key, upsert: bool)
    requires prior.Some? ==> WellFormed(prior.value)
    requires DirtyPosition(k, upsert) in Decode(cfg, prior, changes, seqNum, closeTime).dirty
    ensures var s := Decode(cfg, prior, changes, seqNum, closeTime).state;
      || Named(changes, k)
      || exists p :: p in s.pending && PendingKey(p) == k
                     && !SameAt(PriorIndexes(prior), PriorIndexes(Some(s)), Contract(p.pool))
  {
    hide WellFormed, ApplyAll, LoadPrior, Built, PublishAll, Coherent, PriorIndexes, Named, Diagnostics, BackstopDirty,
      TemporaryList, DirtyList;
    var b := ApplyAll(cfg, LoadPrior(prior), changes, seqNum);
    var s := PublishAll(Built(b, closeTime));
    Run.ReferenceState(cfg, prior, changes, seqNum, closeTime);
    DirtyListHas(b.dirtyUsers + RemapDirty(PriorIndexes(prior), b), b.pending.Keys, k);
    LoadCoherent(prior);
    PublishedIndexes(b, closeTime);
    if k in b.dirtyUsers {
      MarkedOnlyIfNamed(cfg, LoadPrior(prior), changes, seqNum, k);
    } else {
      RemappedEntry(b, closeTime, PriorIndexes(prior), k);
    }
  }

  lemma RemappedEntry(b: Mirror, closeTime: Option<int>, indexes: map<Key, map<int, string>>, k: Key)
    requires Coherent(b) && k in RemapDirty(indexes, b)
    ensures var s := PublishAll(Built(b, closeTime));
      exists p :: p in s.pending && PendingKey(p) == k && !SameAt(indexes, PriorIndexes(Some(s)), Contract(p.pool))
  {
    hide Built, PublishAll, PriorIndexes, Slice;
    PublishedIndexes(b, closeTime);
    ListsPublished(b, closeTime);
    SliceHas(b.pending, k);
  }

  // ---- and every holder whose balance changes is reported --------------------------------------

  lemma {:induction false} MarksKept(cfg: Owned, b: Mirror, changes: seq<Change>, seqNum: int)
    ensures Marks(b, ApplyAll(cfg, b, changes, seqNum))
    decreases |changes|
  {
    hide Apply, Marks;
    if changes == [] {
      NothingMarked(b);
    } else {
      var init, last := changes[..|changes| - 1], changes[|changes| - 1];
      var before := ApplyAll(cfg, b, init, seqNum);
      MarksKept(cfg, b, init, seqNum);
      EveryChangeIsConfined(cfg, before, last, seqNum);
      NothingMarked(before);
      MarksCompose(b, before, Apply(cfg, before, last, seqNum));
    }
  }

  lemma NothingMarked(b: Mirror)
    ensures Marks(b, b)
  {
  }

  lemma MarksCompose(a: Mirror, b: Mirror, c: Mirror)
    requires Marks(a, b) && Marks(b, c)
    ensures Marks(a, c)
  {
    forall k | k !in c.dirtyBackstops ensures SameAt(a.backstopUsers, c.backstopUsers, k) {
      assert SameAt(b.backstopUsers, c.backstopUsers, k) && SameAt(a.backstopUsers, b.backstopUsers, k);
    }
  }

  /** The holder's balance in a state, none while it lists no row of the pair. */
  ghost predicate Balanced(s: LedgerState, k: Key, u: UserBalance) {
    exists r :: r in s.backstops && r.balance == u && UserBalanceKey(u) == k
  }

  lemma BalancedIs(b: Mirror, closeTime: Option<int>, k: Key, u: UserBalance)
    requires Coherent(b)
    ensures Balanced(PublishAll(Built(b, closeTime)), k, u) <==> k in b.backstopUsers && b.backstopUsers[k] == u
  {
    hide Slice, Users, BackstopPosition, PricedPools, ResolveAggregators, TrimmedFeeds, Coherent;
    var c := Built(b, closeTime);
    var rows := map j | j in c.backstopUsers :: BackstopPosition(c, c.backstopUsers[j]);
    assert PublishAll(c).backstops == Slice(rows);
    if k in b.backstopUsers { HolderPublished(b, closeTime, k); }
    hide PublishAll, Built;
    if Balanced(PublishAll(c), k, u) {
      var r :| r in Slice(rows) && r.balance == u;
      InSlice(rows, r);
      var j :| j in rows && rows[j] == r;
      RowBalance(c, c.backstopUsers[j]);
      HolderKey(b, j);
    }
  }

  lemma RowBalance(c: Mirror, u: UserBalance)
    ensures BackstopPosition(c, u).balance == u
  {
  }

  lemma HolderKey(b: Mirror, k: Key)
    requires Coherent(b) && k in b.backstopUsers
    ensures UserBalanceKey(b.backstopUsers[k]) == k
  {
  }

  /** Between two consecutive states, every holder whose balance entry is new, gone or different is in the list of dirty
      backstops. */
  lemma HoldersReported(cfg: Owned, b: Mirror, before: Option<int>, changes: seq<Change>, seqNum: int, closeTime: Option<int>,
                        k: Key, u: UserBalance)
    requires Coherent(b)
    ensures var prior := PublishAll(Built(b, before));
      var o := Decode(cfg, Some(prior), changes, seqNum, closeTime);
      (Balanced(prior, k, u) <==> Balanced(o.state, k, u)) || exists upsert :: DirtyPosition(k, upsert) in o.dirtyBackstops
  {
    hide Built, PublishAll, Load, ApplyAll, Coherent, Balanced, Marks, Diagnostics, TemporaryList, DirtyList, RemapDirty,
      PriorIndexes, WellFormed;
    var prior := PublishAll(Built(b, before));
    PublishedWellFormed(b, before);
    var l, c := Load(prior), ApplyAll(cfg, Load(prior), changes, seqNum);
    Run.ReferenceState(cfg, Some(prior), changes, seqNum, closeTime);
    BalancedIs(b, before, k, u);
    BalancedIs(c, closeTime, k, u);
    LoadedHolders(b, before);
    MarksKept(cfg, l, changes, seqNum);
    DirectlyMarked(l, c, k);
    DirtyListHas(BackstopDirty(c), c.backstopUsers.Keys, k);
  }

  lemma DirectlyMarked(l: Mirror, c: Mirror, k: Key)
    requires Marks(l, c)
    ensures SameAt(l.backstopUsers, c.backstopUsers, k) || k in BackstopDirty(c)
  {
    hide Holders, PoolsPricedBy, FeedPricedAssets;
  }

  lemma LoadedHolders(b: Mirror, closeTime: Option<int>)
    requires Coherent(b)
    ensures Load(PublishAll(Built(b, closeTime))).backstopUsers == b.backstopUsers
  {
    hide Slice, Users, BackstopPosition, PricedPools, ResolveAggregators, TrimmedFeeds, Collect;
    BackstopsReload(Built(b, closeTime));
  }
}
