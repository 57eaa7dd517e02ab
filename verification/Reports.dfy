/** Which backstop holders a ledger reports as dirty. */
module Reports {
  import opened Options
  import opened Keys
  import opened Slices
  import opened Reserves
  import opened Reflector
  import opened Mirror
  import opened Carry
  import opened Reference
  import opened Cache
  import opened Confinement
  import opened Writes
  import opened LastWrites
  import Prices
  import Run

  /** The list of dirty backstops names the holder. */
  ghost predicate Reported(o: Outcome, k: Key) { exists upsert :: DirtyPosition(k, upsert) in o.dirtyBackstops }

  /** A published holder whose pool's published backstop instance has the asset as one of its two tokens. */
  ghost predicate HoldsToken(s: LedgerState, k: Key, asset: string) {
    exists row, p, i :: row in s.backstops && p in s.pools && i in s.instances && HoldsIn(row, p, i, k, asset)
  }

  predicate HoldsIn(row: BackstopRow, p: PoolState, i: BackstopInstance, k: Key, asset: string) {
    && UserBalanceKey(row.balance) == k && p.info.contract == row.balance.pool && i.contract == p.info.backstop
    && asset != "" && (i.blnd == asset || i.usdc == asset)
  }

  /** A published aggregator prices the asset from the feed. */
  ghost predicate PricedFrom(s: LedgerState, asset: string, feed: string) {
    exists a :: a in s.aggregators && asset in a.config.assets
                && var n := a.config.assets[asset].oracleIndex; n in a.config.feeds && a.config.feeds[n].contract == feed
  }

  // ---- holders of a token ----------------------------------------------------------------------

  lemma PublishedParts(c: Mirror, closeTime: Option<int>)
    ensures var d, s := Built(c, closeTime), PublishAll(Built(c, closeTime));
      && s.backstops == Slice(map j | j in c.backstopUsers :: BackstopPosition(d, c.backstopUsers[j]))
      && s.pools == Slice(map k | k in d.pools :: PublishPool(d.pools[k]))
      && s.instances == Slice(c.instances) && s.aggregators == Slice(c.aggregators) && d.pools.Keys == c.pools.Keys
  {
    hide Users, BuildPool, ResolveAggregators, TrimmedFeeds, Slice, BackstopPosition, PublishPool;
    var d := Built(c, closeTime);
    assert (map j | j in c.backstopUsers :: BackstopPosition(d, c.backstopUsers[j]))
        == (map j | j in d.backstopUsers :: BackstopPosition(d, d.backstopUsers[j]));
  }

  lemma PoolLinks(c: Mirror, closeTime: Option<int>, k: Key)
    requires Coherent(c) && k in c.pools
    ensures var d := Built(c, closeTime);
      && k in d.pools && d.pools[k].info.contract == c.pools[k].info.contract
      && d.pools[k].info.backstop == c.pools[k].info.backstop && k == Contract(c.pools[k].info.contract)
  {
    hide ResolveAggregators, TrimmedFeeds, BuildPool, KeyedBy, Fresh;
    BuiltInfo(c, ResolveAggregators(c, closeTime), c.pools[k]);
    assert PoolOk(k, c.pools[k]);
  }

  /** The asset is a token leg of the backstop of the pool filed under k. */
  predicate LegOf(c: Mirror, k: Key, asset: string) {
    k in c.pools && Contract(c.pools[k].info.backstop) in c.instances && asset != ""
    && var i := c.instances[Contract(c.pools[k].info.backstop)]; i.blnd == asset || i.usdc == asset
  }

  lemma TokenHolder(c: Mirror, closeTime: Option<int>, k: Key, asset: string)
    requires Coherent(c) && HoldsToken(PublishAll(Built(c, closeTime)), k, asset)
    ensures k in c.backstopUsers && LegOf(c, Contract(c.backstopUsers[k].pool), asset)
  {
    PublishedParts(c, closeTime);
    hide Built, PublishAll, Slice, BackstopPosition, Coherent;
    var d, s := Built(c, closeTime), PublishAll(Built(c, closeTime));
    var row, p, i :| row in s.backstops && p in s.pools && i in s.instances && HoldsIn(row, p, i, k, asset);
    var rows := map j | j in c.backstopUsers :: BackstopPosition(d, c.backstopUsers[j]);
    var published := map k | k in d.pools :: PublishPool(d.pools[k]);
    InSlice(rows, row);
    InSlice(published, p);
    InSlice(c.instances, i);
    var h :| h in rows && rows[h] == row;
    var j :| j in published && published[j] == p;
    var n :| n in c.instances && c.instances[n] == i;
    RowBalance(d, c.backstopUsers[h]);
    HolderKey(c, h);
    PoolLinks(c, closeTime, j);
    Prices.InstanceKeyed(c, n);
  }

  lemma HolderOfToken(c: Mirror, closeTime: Option<int>, k: Key, asset: string)
    requires Coherent(c) && k in c.backstopUsers && LegOf(c, Contract(c.backstopUsers[k].pool), asset)
    ensures HoldsToken(PublishAll(Built(c, closeTime)), k, asset)
  {
    PublishedParts(c, closeTime);
    hide Built, PublishAll, Slice, BackstopPosition, Coherent;
    var d := Built(c, closeTime);
    var rows := map j | j in c.backstopUsers :: BackstopPosition(d, c.backstopUsers[j]);
    var published := map k | k in d.pools :: PublishPool(d.pools[k]);
    var j := Contract(c.backstopUsers[k].pool);
    var n := Contract(c.pools[j].info.backstop);
    RowBalance(d, c.backstopUsers[k]);
    HolderKey(c, k);
    PoolLinks(c, closeTime, j);
    Prices.InstanceKeyed(c, n);
    SliceHas(rows, k);
    SliceHas(published, j);
    SliceHas(c.instances, n);
    assert HoldsIn(rows[k], published[j], c.instances[n], k, asset);
  }

  lemma MarkedByAsset(c: Mirror, k: Key, asset: string)
    requires Coherent(c) && k in c.backstopUsers && LegOf(c, Contract(c.backstopUsers[k].pool), asset)
    requires asset in FeedPricedAssets(c) + c.changedPriceAssets
    ensures k in BackstopDirty(c)
  {
    HolderKey(c, k);
    var j := Contract(c.backstopUsers[k].pool);
    PoolLinks(c, None, j);
    hide FeedPricedAssets, Coherent, Built;
    assert c.pools[j].info.contract in PoolsPricedBy(c, FeedPricedAssets(c) + c.changedPriceAssets);
  }

  lemma MarkedOnlyByAsset(c: Mirror, k: Key) returns (asset: string)
    requires Coherent(c) && k in BackstopDirty(c) && k !in c.dirtyBackstops
    ensures k in c.backstopUsers && LegOf(c, Contract(c.backstopUsers[k].pool), asset)
    ensures asset in FeedPricedAssets(c) + c.changedPriceAssets
  {
    hide FeedPricedAssets;
    var moved := FeedPricedAssets(c) + c.changedPriceAssets;
    var h :| h in c.backstopUsers && c.backstopUsers[h].pool in PoolsPricedBy(c, moved) && UserBalanceKey(c.backstopUsers[h]) == k;
    HolderKey(c, h);
    var j :| j in c.pools && Contract(c.pools[j].info.backstop) in c.instances && c.pools[j].info.contract == c.backstopUsers[h].pool
             && var i := c.instances[Contract(c.pools[j].info.backstop)];
                (i.blnd != "" && i.blnd in moved) || (i.usdc != "" && i.usdc in moved);
    PoolLinks(c, None, j);
    var i := c.instances[Contract(c.pools[j].info.backstop)];
    asset := if i.blnd != "" && i.blnd in moved then i.blnd else i.usdc;
  }

  // ---- a marked asset or feed stays marked -----------------------------------------------------

  lemma {:induction false} RestOfLedger(cfg: Owned, b: Mirror, changes: seq<Change>, n: nat, seqNum: int)
    requires n <= |changes|
    ensures ApplyAll(cfg, b, changes, seqNum) == ApplyAll(cfg, ApplyAll(cfg, b, changes[..n], seqNum), changes[n..], seqNum)
    decreases |changes|
  {
    hide Apply;
    if n == |changes| {
      assert changes[..n] == changes && changes[n..] == [];
    } else {
      var init := changes[..|changes| - 1];
      RestOfLedger(cfg, b, init, n, seqNum);
      assert init[..n] == changes[..n] && changes[n..][..|changes| - n - 1] == init[n..];
    }
  }

  /** What a change marks is marked at the end of the ledger. */
  lemma MarksOfChange(cfg: Owned, b: Mirror, changes: seq<Change>, n: nat, seqNum: int)
    requires n < |changes|
    ensures Marks(Apply(cfg, ApplyAll(cfg, b, changes[..n], seqNum), changes[n], seqNum), ApplyAll(cfg, b, changes, seqNum))
  {
    hide Apply, Marks;
    assert changes[..n + 1][..n] == changes[..n];
    RestOfLedger(cfg, b, changes, n + 1, seqNum);
    MarksKept(cfg, ApplyAll(cfg, b, changes[..n + 1], seqNum), changes[n + 1..], seqNum);
  }

  lemma StillMarked(b: Mirror, d: Mirror)
    requires Marks(b, d)
    ensures b.dirtyBackstops <= d.dirtyBackstops && b.changedPriceAssets <= d.changedPriceAssets && b.changedFeeds <= d.changedFeeds
    ensures forall k :: k !in d.dirtyBackstops ==> SameAt(b.backstopUsers, d.backstopUsers, k)
  {
  }

  lemma ReportedIs(cfg: Owned, prior: Option<LedgerState>, changes: seq<Change>, seqNum: int, closeTime: Option<int>, k: Key)
    ensures Reported(Decode(cfg, prior, changes, seqNum, closeTime), k)
       <==> k in BackstopDirty(ApplyAll(cfg, LoadPrior(prior), changes, seqNum))
  {
    hide Built, PublishAll, ApplyAll, Diagnostics, TemporaryList, DirtyList, RemapDirty, PriorIndexes, LoadPrior;
    var c := ApplyAll(cfg, LoadPrior(prior), changes, seqNum);
    DirtyListHas(BackstopDirty(c), c.backstopUsers.Keys, k);
  }

  // ---- moved prices ----------------------------------------------------------------------------

  lemma PriceWriteMarks(cfg: Owned, b: Mirror, c: Change, seqNum: int, lo: nat, amount: int, asset: string)
    requires IsWrite(c, seqNum, U128Key(0, lo), IntValue(amount)) && lo < 0x8000_0000_0000_0000
    requires c.contract !in cfg.feeds && c.contract in cfg.contracts
    requires var k := Contract(c.contract);
      k in b.oracles && asset in b.oracles[k].assetToIndex && b.oracles[k].assetToIndex[asset] == lo
    ensures asset in Apply(cfg, b, c, seqNum).changedPriceAssets
  {
    PriceRouted(cfg, b, c.contract, U128Key(0, lo), IntValue(amount));
    hide ApplyLive, ApplyDelete;
  }

  /** When an oracle's price of an asset is written in the ledger, every holder of a pool with that token is reported. */
  lemma PriceMoveReported(cfg: Owned, prior: Option<LedgerState>, changes: seq<Change>, n: nat, seqNum: int,
                          closeTime: Option<int>, lo: nat, amount: int, asset: string, k: Key)
    requires prior.Some? ==> WellFormed(prior.value)
    requires n < |changes| && IsWrite(changes[n], seqNum, U128Key(0, lo), IntValue(amount)) && lo < 0x8000_0000_0000_0000
    requires changes[n].contract !in cfg.feeds && changes[n].contract !in cfg.assets && changes[n].contract in cfg.contracts
    requires var oracles := ApplyAll(cfg, LoadPrior(prior), changes[..n], seqNum).oracles;
      var o := Contract(changes[n].contract);
      o in oracles && asset in oracles[o].assetToIndex && oracles[o].assetToIndex[asset] == lo
    requires HoldsToken(Decode(cfg, prior, changes, seqNum, closeTime).state, k, asset)
    ensures Reported(Decode(cfg, prior, changes, seqNum, closeTime), k)
  {
    hide Built, PublishAll, ApplyAll, Apply, Coherent, Marks, WellFormed, LoadPrior, IsWrite, HoldsToken, Reported, Decode, LegOf,
      BackstopDirty, FeedPricedAssets;
    var b, c := LoadPrior(prior), ApplyAll(cfg, LoadPrior(prior), changes, seqNum);
    Run.ReferenceState(cfg, prior, changes, seqNum, closeTime);
    PriceWriteMarks(cfg, ApplyAll(cfg, b, changes[..n], seqNum), changes[n], seqNum, lo, amount, asset);
    MarksOfChange(cfg, b, changes, n, seqNum);
    StillMarked(Apply(cfg, ApplyAll(cfg, b, changes[..n], seqNum), changes[n], seqNum), c);
    TokenHolder(c, closeTime, k, asset);
    MarkedByAsset(c, k, asset);
    ReportedIs(cfg, prior, changes, seqNum, closeTime, k);
  }

  /** The change reaches a registered feed: it is removed, lapses, or carries a value that decodes. */
  predicate FeedChange(cfg: Owned, c: Change, seqNum: int) {
    c.contract in cfg.feeds && c.key.Some? && (!c.payload.Undecodable? || !IsLive(c, seqNum))
  }

  lemma FeedChangeMarks(cfg: Owned, b: Mirror, c: Change, seqNum: int)
    requires FeedChange(cfg, c, seqNum)
    ensures c.contract in Apply(cfg, b, c, seqNum).changedFeeds
  {
    hide FeedWrite, FeedDelete, ApplyFeed;
  }

  lemma PricedFromMoved(c: Mirror, closeTime: Option<int>, asset: string, feed: string)
    requires PricedFrom(PublishAll(Built(c, closeTime)), asset, feed) && feed in c.changedFeeds
    ensures asset in FeedPricedAssets(c)
  {
    PublishedParts(c, closeTime);
    hide Built, PublishAll, Slice;
    var a :| a in Slice(c.aggregators) && asset in a.config.assets
             && var n := a.config.assets[asset].oracleIndex; n in a.config.feeds && a.config.feeds[n].contract == feed;
    InSlice(c.aggregators, a);
  }

  /** When a feed changes in the ledger, every holder of a pool with a token an aggregator prices from that feed is
      reported. */
  lemma FeedMoveReported(cfg: Owned, prior: Option<LedgerState>, changes: seq<Change>, n: nat, seqNum: int,
                         closeTime: Option<int>, asset: string, k: Key)
    requires prior.Some? ==> WellFormed(prior.value)
    requires n < |changes| && FeedChange(cfg, changes[n], seqNum)
    requires PricedFrom(Decode(cfg, prior, changes, seqNum, closeTime).state, asset, changes[n].contract)
    requires HoldsToken(Decode(cfg, prior, changes, seqNum, closeTime).state, k, asset)
    ensures Reported(Decode(cfg, prior, changes, seqNum, closeTime), k)
  {
    hide Built, PublishAll, ApplyAll, Apply, Coherent, Marks, WellFormed, LoadPrior, HoldsToken, PricedFrom, Reported, Decode,
      LegOf, BackstopDirty, FeedPricedAssets, FeedChange;
    var b, c := LoadPrior(prior), ApplyAll(cfg, LoadPrior(prior), changes, seqNum);
    Run.ReferenceState(cfg, prior, changes, seqNum, closeTime);
    FeedChangeMarks(cfg, ApplyAll(cfg, b, changes[..n], seqNum), changes[n], seqNum);
    MarksOfChange(cfg, b, changes, n, seqNum);
    StillMarked(Apply(cfg, ApplyAll(cfg, b, changes[..n], seqNum), changes[n], seqNum), c);
    PricedFromMoved(c, closeTime, asset, changes[n].contract);
    TokenHolder(c, closeTime, k, asset);
    MarkedByAsset(c, k, asset);
    ReportedIs(cfg, prior, changes, seqNum, closeTime, k);
  }

  // ---- moved pool balances ---------------------------------------------------------------------

  /** A decodable write or a removal of the pool's balance entry. */
  predicate BalanceChange(cfg: Owned, c: Change, seqNum: int, poolId: string) {
    && c.contract !in cfg.feeds && c.contract !in cfg.assets && c.key == Some(PoolBalanceKey(poolId))
    && (!IsLive(c, seqNum) || (c.payload.Decoded? && !c.payload.value.InstanceValue?))
  }

  lemma BalanceChangeKey(cfg: Owned, c: Change, seqNum: int, poolId: string)
    requires BalanceChange(cfg, c, seqNum, poolId)
    ensures c.key == Some(PoolBalanceKey(poolId))
  {
  }

  lemma PoolMarked(b: Mirror, c: Mirror, poolId: string, k: Key)
    requires c.backstopUsers == b.backstopUsers && k in b.backstopUsers && b.backstopUsers[k].pool == poolId
    requires UserBalanceKey(b.backstopUsers[k]) == k
    ensures k in MarkPool(c, poolId).dirtyBackstops
  {
    assert k in Holders(c, {poolId});
  }

  lemma BalanceRouted(cfg: Owned, b: Mirror, c: Change, seqNum: int, poolId: string)
    requires BalanceChange(cfg, c, seqNum, poolId)
    ensures Apply(cfg, b, c, seqNum) == if IsLive(c, seqNum) then ApplyEntry(b, c.contract, PoolBalanceKey(poolId), c.payload.value)
                                        else DeleteEntry(b, c, PoolBalanceKey(poolId), seqNum)
  {
    hide ApplyLive, ApplyEntry, DeleteEntry;
    if IsLive(c, seqNum) { Routed(cfg, b, c.contract, c.key.value, c.payload.value); }
  }

  lemma BalanceChangeMarks(cfg: Owned, b: Mirror, c: Change, seqNum: int, poolId: string, k: Key)
    requires BalanceChange(cfg, c, seqNum, poolId) && Coherent(b) && k in b.backstopUsers && b.backstopUsers[k].pool == poolId
    ensures k in Apply(cfg, b, c, seqNum).dirtyBackstops
  {
    HolderKey(b, k);
    BalanceRouted(cfg, b, c, seqNum, poolId);
    hide Apply, Coherent, MarkPool, BalanceIn, BalanceChange;
    if IsLive(c, seqNum) {
      PoolMarked(b, b.(backstopPools := b.backstopPools[Contract(poolId) := BalanceIn(c.payload.value)]), poolId, k);
    } else {
      PoolMarked(b, b.(backstopPools := b.backstopPools - {Contract(poolId)}), poolId, k);
    }
  }

  lemma BalanceKeepsHolders(cfg: Owned, b: Mirror, c: Change, seqNum: int, k: Key)
    requires c.key.Some? && c.key.value.PoolBalanceKey?
    ensures SameAt(b.backstopUsers, Apply(cfg, b, c, seqNum).backstopUsers, k)
  {
    hide Apply;
    EveryChangeIsConfined(cfg, b, c, seqNum);
  }

  /** When a pool's balance in the backstop is written or removed in the ledger, every one of its holders is reported. */
  lemma BalanceMoveReported(cfg: Owned, prior: Option<LedgerState>, changes: seq<Change>, n: nat, seqNum: int,
                            closeTime: Option<int>, poolId: string, row: BackstopRow)
    requires prior.Some? ==> WellFormed(prior.value)
    requires n < |changes| && BalanceChange(cfg, changes[n], seqNum, poolId)
    requires row in Decode(cfg, prior, changes, seqNum, closeTime).state.backstops && row.balance.pool == poolId
    ensures Reported(Decode(cfg, prior, changes, seqNum, closeTime), UserBalanceKey(row.balance))
  {
    hide Built, PublishAll, ApplyAll, Apply, Coherent, Marks, WellFormed, LoadPrior, Reported, Decode, BackstopDirty, BalanceChange;
    var b, c, k := LoadPrior(prior), ApplyAll(cfg, LoadPrior(prior), changes, seqNum), UserBalanceKey(row.balance);
    Run.ReferenceState(cfg, prior, changes, seqNum, closeTime);
    assert Balanced(PublishAll(Built(c, closeTime)), k, row.balance);
    BalancedIs(c, closeTime, k, row.balance);
    var before := ApplyAll(cfg, b, changes[..n], seqNum);
    Run.ReferenceState(cfg, prior, changes[..n], seqNum, closeTime);
    MarksOfChange(cfg, b, changes, n, seqNum);
    StillMarked(Apply(cfg, before, changes[n], seqNum), c);
    BalanceChangeKey(cfg, changes[n], seqNum, poolId);
    BalanceKeepsHolders(cfg, before, changes[n], seqNum, k);
    if k in before.backstopUsers {
      HolderKey(before, k);
      BalanceChangeMarks(cfg, before, changes[n], seqNum, poolId, k);
    }
    DirectMarkCounts(c, k);
    ReportedIs(cfg, prior, changes, seqNum, closeTime, k);
  }

  lemma DirectMarkCounts(c: Mirror, k: Key)
    ensures k in c.dirtyBackstops ==> k in BackstopDirty(c)
  {
  }

  // ---- and nothing else ------------------------------------------------------------------------

  /** Some change of the ledger is of the holder's own entries or of its pool's balance. */
  ghost predicate HolderNamed(changes: seq<Change>, k: Key) {
    exists c :: c in changes && c.key.Some? && HolderReached(c.key.value, k)
  }

  /** Some change of the ledger is of a price of an oracle, or of a feed the asset is priced from. */
  ghost predicate AssetNamed(changes: seq<Change>, s: LedgerState, asset: string) {
    exists c :: c in changes && c.key.Some? && (c.key.value.U128Key? || PricedFrom(s, asset, c.contract))
  }

  /** The marks a ledger makes, traced to its changes. */
  ghost predicate Traced(changes: seq<Change>, b: Mirror, d: Mirror) {
    && (forall k :: k in d.dirtyBackstops ==> k in b.dirtyBackstops || HolderNamed(changes, k))
    && (forall f :: f in d.changedFeeds ==> f in b.changedFeeds || exists c :: c in changes && c.key.Some? && c.contract == f)
    && (d.changedPriceAssets != b.changedPriceAssets ==> exists c :: c in changes && c.key.Some? && c.key.value.U128Key?)
  }

  lemma TracedOne(b: Mirror, d: Mirror, c: Change)
    requires c.key.Some? && MarksOnly(b, d, c.contract, c.key.value)
    ensures Traced([c], b, d)
  {
    assert c in [c];
  }

  lemma TracedTogether(u: seq<Change>, v: seq<Change>, a: Mirror, b: Mirror, d: Mirror)
    requires Traced(u, a, b) && Traced(v, b, d)
    ensures Traced(u + v, a, d)
  {
    hide HolderReached;
    forall k | k in d.dirtyBackstops && k !in a.dirtyBackstops ensures HolderNamed(u + v, k) {
      var c :| (c in u || c in v) && c.key.Some? && HolderReached(c.key.value, k);
      assert c in u + v;
    }
    forall f | f in d.changedFeeds && f !in a.changedFeeds ensures exists c :: c in u + v && c.key.Some? && c.contract == f {
      var c :| (c in u || c in v) && c.key.Some? && c.contract == f;
      assert c in u + v;
    }
    if d.changedPriceAssets != a.changedPriceAssets {
      var c :| (c in u || c in v) && c.key.Some? && c.key.value.U128Key?;
      assert c in u + v;
    }
  }

  lemma TracedNone(b: Mirror, changes: seq<Change>)
    ensures Traced(changes, b, b)
  {
  }

  lemma {:induction false} EveryMarkTraced(cfg: Owned, b: Mirror, changes: seq<Change>, seqNum: int)
    ensures Traced(changes, b, ApplyAll(cfg, b, changes, seqNum))
    decreases |changes|
  {
    hide Apply, Traced;
    if changes == [] {
      TracedNone(b, changes);
    } else {
      var init, last := changes[..|changes| - 1], changes[|changes| - 1];
      var before := ApplyAll(cfg, b, init, seqNum);
      EveryMarkTraced(cfg, b, init, seqNum);
      EveryChangeIsConfined(cfg, before, last, seqNum);
      if last.key.Some? {
        TracedOne(before, Apply(cfg, before, last, seqNum), last);
      } else {
        TracedNone(before, [last]);
      }
      TracedTogether(init, [last], b, before, ApplyAll(cfg, b, changes, seqNum));
      assert init + [last] == changes;
    }
  }

  lemma MovedFeed(c: Mirror, closeTime: Option<int>, asset: string) returns (feed: string)
    requires asset in FeedPricedAssets(c)
    ensures feed in c.changedFeeds && PricedFrom(PublishAll(Built(c, closeTime)), asset, feed)
  {
    PublishedParts(c, closeTime);
    hide Built, PublishAll, Slice;
    var k :| k in c.aggregators && asset in c.aggregators[k].config.assets
             && var g := c.aggregators[k].config;
                g.assets[asset].oracleIndex in g.feeds && g.feeds[g.assets[asset].oracleIndex].contract in c.changedFeeds;
    var g := c.aggregators[k].config;
    feed := g.feeds[g.assets[asset].oracleIndex].contract;
    SliceHas(c.aggregators, k);
  }

  lemma MovedAsset(changes: seq<Change>, b: Mirror, c: Mirror, closeTime: Option<int>, asset: string)
    requires Traced(changes, b, c) && b.changedFeeds == {} && b.changedPriceAssets == {}
    requires asset in FeedPricedAssets(c) + c.changedPriceAssets
    ensures AssetNamed(changes, PublishAll(Built(c, closeTime)), asset)
  {
    hide Built, PublishAll, FeedPricedAssets, PricedFrom;
    if asset in FeedPricedAssets(c) {
      var feed := MovedFeed(c, closeTime, asset);
      var x :| x in changes && x.key.Some? && x.contract == feed;
    } else {
      var x :| x in changes && x.key.Some? && x.key.value.U128Key?;
    }
  }

  lemma NothingYet(prior: Option<LedgerState>)
    ensures var b := LoadPrior(prior); b.dirtyBackstops == {} && b.changedFeeds == {} && b.changedPriceAssets == {}
  {
  }

  /** A holder is reported only when a change of the ledger is of its own entries or of its pool's balance, or when it holds
      a token whose price a change may have moved. */
  lemma ReportedOnlyIfReached(cfg: Owned, prior: Option<LedgerState>, changes: seq<Change>, seqNum: int, closeTime: Option<int>,
                              k: Key)
    requires prior.Some? ==> WellFormed(prior.value)
    requires Reported(Decode(cfg, prior, changes, seqNum, closeTime), k)
    ensures var s := Decode(cfg, prior, changes, seqNum, closeTime).state;
      HolderNamed(changes, k) || exists asset :: HoldsToken(s, k, asset) && AssetNamed(changes, s, asset)
  {
    hide Built, PublishAll, ApplyAll, Coherent, WellFormed, LoadPrior, HoldsToken, Reported, Decode, LegOf, BackstopDirty,
      FeedPricedAssets, HolderNamed, AssetNamed;
    var b, c := LoadPrior(prior), ApplyAll(cfg, LoadPrior(prior), changes, seqNum);
    Run.ReferenceState(cfg, prior, changes, seqNum, closeTime);
    ReportedIs(cfg, prior, changes, seqNum, closeTime, k);
    NothingYet(prior);
    EveryMarkTraced(cfg, b, changes, seqNum);
    if k !in c.dirtyBackstops {
      var asset := MarkedOnlyByAsset(c, k);
      HolderOfToken(c, closeTime, k, asset);
      MovedAsset(changes, b, c, closeTime, asset);
    }
  }

  // ---- how they are listed ---------------------------------------------------------------------

  /** The list is in key order without repetition. */
  predicate InOrder(ds: seq<DirtyPosition>) { forall i, j :: 0 <= i < j < |ds| ==> KeyLess(ds[i].pair, ds[j].pair) }

  lemma ListedOnce(dirty: set<Key>, live: set<Key>)
    ensures InOrder(DirtyList(dirty, live)) && forall d <- DirtyList(dirty, live) :: d.upsert <==> d.pair in live
  {
  }

  lemma PendingIs(b: Mirror, closeTime: Option<int>, k: Key)
    requires Coherent(b)
    ensures k in b.pending <==> exists p :: p in PublishAll(Built(b, closeTime)).pending && PendingKey(p) == k
  {
    assert PublishAll(Built(b, closeTime)).pending == Slice(b.pending) by {
      hide Slice, Users, PricedPools, ResolveAggregators, TrimmedFeeds;
    }
    hide Built, PublishAll, Slice;
    if k in b.pending {
      SliceHas(b.pending, k);
    }
    if p :| p in Slice(b.pending) && PendingKey(p) == k {
      InSlice(b.pending, p);
    }
  }

  lemma HolderIs(b: Mirror, closeTime: Option<int>, k: Key)
    requires Coherent(b)
    ensures k in b.backstopUsers <==> exists r :: r in PublishAll(Built(b, closeTime)).backstops && UserBalanceKey(r.balance) == k
  {
    hide Built, PublishAll, Coherent, Balanced;
    if k in b.backstopUsers { HolderPublished(b, closeTime, k); }
    if r :| r in PublishAll(Built(b, closeTime)).backstops && UserBalanceKey(r.balance) == k {
      assert Balanced(PublishAll(Built(b, closeTime)), k, r.balance) by { BalancedBy(PublishAll(Built(b, closeTime)), r); }
      BalancedIs(b, closeTime, k, r.balance);
    }
  }

  lemma BalancedBy(s: LedgerState, r: BackstopRow)
    requires r in s.backstops
    ensures Balanced(s, UserBalanceKey(r.balance), r.balance)
  {
  }

  /** Both lists of dirty pairs are in order, each pair once, flagged as an upsert if and only if the state still has it. */
  lemma ListsExactly(cfg: Owned, prior: Option<LedgerState>, changes: seq<Change>, seqNum: int, closeTime: Option<int>)
    requires prior.Some? ==> WellFormed(prior.value)
    ensures var o := Decode(cfg, prior, changes, seqNum, closeTime);
      && InOrder(o.dirty) && InOrder(o.dirtyBackstops)
      && (forall d <- o.dirty :: d.upsert <==> exists p :: p in o.state.pending && PendingKey(p) == d.pair)
      && (forall d <- o.dirtyBackstops :: d.upsert <==> exists r :: r in o.state.backstops && UserBalanceKey(r.balance) == d.pair)
  {
    hide Built, PublishAll, ApplyAll, Coherent, WellFormed, LoadPrior, Diagnostics, TemporaryList, DirtyList, RemapDirty,
      PriorIndexes, BackstopDirty, InOrder, UserBalanceKey, PendingKey;
    var c := ApplyAll(cfg, LoadPrior(prior), changes, seqNum);
    Run.ReferenceState(cfg, prior, changes, seqNum, closeTime);
    ListedOnce(c.dirtyUsers + RemapDirty(PriorIndexes(prior), c), c.pending.Keys);
    ListedOnce(BackstopDirty(c), c.backstopUsers.Keys);
    forall k { PendingIs(c, closeTime, k); }
    forall k { HolderIs(c, closeTime, k); }
  }
}
