/** How a price reaches a published reserve: from the oracle its pool names, or through an aggregator from a feed. */
module Prices {
  import opened Options
  import opened Keys
  import opened Slices
  import opened Reserves
  import opened Reflector
  import opened Mirror
  import opened Carry
  import opened Reference
  import opened Cache
  import opened Confinement
  import opened Writes
  import opened LastWrites
  import Run

  /** The reserve is priced with the amount at that precision, or unpriced when there is none or it is not positive. */
  predicate PricedAt(r: Reserve, amount: Option<int>, decimals: int) {
    if amount.Some? && amount.value > 0 then r.price == amount && r.priceDecimals == decimals
    else r.price == None && r.priceDecimals == 0
  }

  function AmountAt(o: Oracle, index: int): Option<int> {
    if index in o.priceByIndex then Some(o.priceByIndex[index]) else None
  }

  lemma PriceReserveIs(o: Oracle, r: Reserve)
    requires r.asset in o.assetToIndex
    ensures PricedAt(PriceReserve(o, r), AmountAt(o, o.assetToIndex[r.asset]), o.decimals)
  {
  }

  lemma PriceReserveKeeps(o: Oracle, r: Reserve)
    ensures PriceReserve(o, r).asset == r.asset
    ensures r.asset !in o.assetToIndex ==> PriceReserve(o, r) == r
  {
  }

  /** A reserve of a built pool is priced by the oracle the pool names, if that oracle lists its asset. */
  lemma BuiltReservePriced(b: Mirror, oracles: map<Key, Oracle>, p: Pool, k: Key)
    requires k in BuildPool(b, oracles, p).reserves && Contract(p.info.oracle) in oracles
    ensures var o, r := oracles[Contract(p.info.oracle)], BuildPool(b, oracles, p).reserves[k];
      && BuildPool(b, oracles, p).info.oracle == p.info.oracle
      && (r.asset in o.assetToIndex ==> PricedAt(r, AmountAt(o, o.assetToIndex[r.asset]), o.decimals))
  {
    hide PriceReserve, Published, Ambiguous, Unknown, ReserveSlice, PricedAt;
    var o := oracles[Contract(p.info.oracle)];
    assert BuildPool(b, oracles, p).reserves[k] == PriceReserve(o, p.reserves[k]);
    hide BuildPool;
    PriceReserveKeeps(o, p.reserves[k]);
    if p.reserves[k].asset in o.assetToIndex { PriceReserveIs(o, p.reserves[k]); }
  }

  /** The pool and the reserve behind a published one. */
  lemma PublishedReserve(b: Mirror, closeTime: Option<int>, s: PoolState, r: Reserve) returns (k: Key, j: Key)
    requires Coherent(b) && s in PublishAll(Built(b, closeTime)).pools && r in s.reserves
    ensures var c := Built(b, closeTime);
      && k in b.pools && k in c.pools && s.info == c.pools[k].info
      && j in c.pools[k].reserves && c.pools[k].reserves[j] == r
  {
    hide Slice, Users, BuildPool, ResolveAggregators, TrimmedFeeds, Fresh, KeyedBy, ReserveSlice;
    var c := Built(b, closeTime);
    var published := map i | i in c.pools :: PublishPool(c.pools[i]);
    assert PublishAll(c).pools == Slice(published);
    InSlice(published, s);
    k :| k in published && published[k] == s;
    BuiltPools(b, closeTime);
    assert PoolOk(k, c.pools[k]);
    ReserveSliceFacts(c.pools[k].reserves);
    j := ReserveKey(r);
  }

  /** Every reserve of the mirror's published state is priced by the oracle of its pool. */
  lemma PricedByOracle(b: Mirror, closeTime: Option<int>, s: PoolState, r: Reserve)
    requires Coherent(b) && s in PublishAll(Built(b, closeTime)).pools && r in s.reserves
    ensures var oracles, k := ResolveAggregators(b, closeTime), Contract(s.info.oracle);
      k in oracles && r.asset in oracles[k].assetToIndex ==>
        PricedAt(r, AmountAt(oracles[k], oracles[k].assetToIndex[r.asset]), oracles[k].decimals)
  {
    hide PublishAll, ResolveAggregators, BuildPool, TrimmedFeeds, PricedAt, Coherent;
    var k, j := PublishedReserve(b, closeTime, s, r);
    var oracles := ResolveAggregators(b, closeTime);
    assert Built(b, closeTime).pools[k] == BuildPool(b, oracles, b.pools[k]);
    hide Built;
    SameOracleName(b, oracles, b.pools[k]);
    if Contract(s.info.oracle) in oracles { BuiltReservePriced(b, oracles, b.pools[k], j); }
  }

  lemma SameOracleName(b: Mirror, oracles: map<Key, Oracle>, p: Pool)
    ensures BuildPool(b, oracles, p).info.oracle == p.info.oracle
  {
    hide PriceReserve, Published, Ambiguous, Unknown, ReserveSlice;
  }

  /** A published oracle prices every published reserve of the pools that name it. */
  lemma PublishedOraclePrices(cfg: Owned, prior: Option<LedgerState>, changes: seq<Change>, seqNum: int, closeTime: Option<int>,
                              s: PoolState, r: Reserve, o: Oracle)
    requires prior.Some? ==> WellFormed(prior.value)
    requires var state := Decode(cfg, prior, changes, seqNum, closeTime).state;
      s in state.pools && r in s.reserves && o in state.oracles && o.contract == s.info.oracle
    requires r.asset in o.assetToIndex
    ensures PricedAt(r, AmountAt(o, o.assetToIndex[r.asset]), o.decimals)
  {
    hide WellFormed, Decode, ApplyAll, LoadPrior, Built, PublishAll, Coherent, PricedAt, ResolveAggregators;
    var b := ApplyAll(cfg, LoadPrior(prior), changes, seqNum);
    Run.ReferenceState(cfg, prior, changes, seqNum, closeTime);
    PricedByOracle(b, closeTime, s, r);
    PublishedOracle(b, closeTime, o);
  }

  lemma PublishedOracle(b: Mirror, closeTime: Option<int>, o: Oracle)
    requires Coherent(b) && o in PublishAll(Built(b, closeTime)).oracles
    ensures var oracles, k := ResolveAggregators(b, closeTime), Contract(o.contract); k in oracles && oracles[k] == o
  {
    hide Slice, Users, PricedPools, TrimmedFeeds, ResolveAggregators, KeyedBy, Coherent;
    var c := Built(b, closeTime);
    BuiltKeyed(b, closeTime);
    var decoded := map j | j in c.oracles && !c.oracles[j].synthesized :: c.oracles[j];
    assert PublishAll(c).oracles == Slice(decoded);
    hide PublishAll;
    InSlice(decoded, o);
    var j :| j in decoded && decoded[j] == o;
    KeyAt(c.oracles, j);
  }

  lemma KeyAt(oracles: map<Key, Oracle>, k: Key)
    requires KeyedBy(oracles, OracleKey) && k in oracles
    ensures Contract(oracles[k].contract) == k
  {
  }

  // ---- through an aggregator -------------------------------------------------------------------

  /** The index a synthesized oracle gives an asset is where its price is. */
  lemma {:induction false} IndexedPrice(b: Mirror, g: Aggregator, ids: seq<string>, closeTime: Option<int>, asset: string)
    ensures asset in IndexesFor(ids) <==> asset in ids
    ensures asset in ids ==>
      var i := IndexesFor(ids)[asset];
      && 0 <= i < |ids|
      && (if i in PricesFor(b, g, ids, closeTime) then Some(PricesFor(b, g, ids, closeTime)[i]) else None)
         == AssetPrice(b, g, asset, closeTime)
    ensures forall i :: i in PricesFor(b, g, ids, closeTime) ==> 0 <= i < |ids|
  {
    hide AssetPrice;
    if ids != [] {
      var init, last := ids[..|ids| - 1], ids[|ids| - 1];
      assert ids == init + [last];
      IndexedPrice(b, g, init, closeTime, asset);
    }
  }

  lemma SortedHas(s: set<string>, a: string)
    ensures a in SortedAssets(s) <==> a in s
  {
    var keys := set x | x in s :: Contract(x);
    var ks, ids := Ascending(keys), SortedAssets(s);
    if a in s {
      assert Contract(a) in ks;
      var i :| 0 <= i < |ks| && ks[i] == Contract(a);
      assert ids[i] == a;
    }
    if a in ids {
      var i :| 0 <= i < |ids| && ids[i] == a;
      assert ks[i] in keys;
    }
  }

  lemma SynthesizedPrice(b: Mirror, a: AggregatorState, closeTime: Option<int>, asset: string)
    requires asset in ServedAssets(a.config)
    ensures var o := Synthesize(b, a, closeTime);
      && asset in o.assetToIndex && o.decimals == a.config.decimals
      && AmountAt(o, o.assetToIndex[asset]) == AssetPrice(b, a.config, asset, closeTime)
  {
    hide SortedAssets, AssetPrice, ServedAssets, EnsureOracle;
    SortedHas(ServedAssets(a.config), asset);
    IndexedPrice(b, a.config, SortedAssets(ServedAssets(a.config)), closeTime, asset);
  }

  /** Every reserve of a pool priced by an aggregator, if the aggregator serves its asset, has the price the aggregator
      resolves for it, in the aggregator's precision. The feeds are those the ledger's changes leave, untrimmed. */
  lemma AggregatorPrices(cfg: Owned, prior: Option<LedgerState>, changes: seq<Change>, seqNum: int, closeTime: Option<int>,
                         s: PoolState, r: Reserve, a: AggregatorState)
    requires prior.Some? ==> WellFormed(prior.value)
    requires var state := Decode(cfg, prior, changes, seqNum, closeTime).state;
      s in state.pools && r in s.reserves && a in state.aggregators && a.contract == s.info.oracle
    requires r.asset in ServedAssets(a.config)
    ensures var b := ApplyAll(cfg, LoadPrior(prior), changes, seqNum);
      PricedAt(r, AssetPrice(b, a.config, r.asset, closeTime), a.config.decimals)
  {
    hide WellFormed, Decode, ApplyAll, LoadPrior, Built, PublishAll, Coherent, PricedAt, AssetPrice, ServedAssets, Synthesize;
    var b := ApplyAll(cfg, LoadPrior(prior), changes, seqNum);
    Run.ReferenceState(cfg, prior, changes, seqNum, closeTime);
    PricedByOracle(b, closeTime, s, r);
    PublishedAggregator(b, closeTime, a);
    SynthesizedPrice(b, a, closeTime, r.asset);
  }

  lemma PublishedAggregator(b: Mirror, closeTime: Option<int>, a: AggregatorState)
    requires Coherent(b) && a in PublishAll(Built(b, closeTime)).aggregators
    ensures var k := Contract(a.contract); k in b.aggregators && b.aggregators[k] == a
  {
    hide Slice, Users, PricedPools, TrimmedFeeds, ResolveAggregators, KeyedBy, Coherent;
    assert PublishAll(Built(b, closeTime)).aggregators == Slice(b.aggregators);
    hide PublishAll, Built;
    InSlice(b.aggregators, a);
    var j :| j in b.aggregators && b.aggregators[j] == a;
    AggregatorKeyed(b, j);
  }

  lemma AggregatorKeyed(b: Mirror, k: Key)
    requires Coherent(b) && k in b.aggregators
    ensures Contract(b.aggregators[k].contract) == k
  {
  }

  /** The base asset and the listed base assets are worth one, whatever their feed says. */
  lemma BaseIsOne(b: Mirror, g: Aggregator, asset: string, closeTime: Option<int>)
    requires asset != "" && ("stellar:" + asset == g.baseKey || "stellar:" + asset in g.baseAssets)
    ensures AssetPrice(b, g, asset, closeTime) == Some(if g.decimals >= 0 then Power10(g.decimals) else 1)
    ensures asset in ServedAssets(g)
  {
    assert StellarAsset("stellar:" + asset) == asset by {
      assert ("stellar:" + asset)[..8] == "stellar:" && ("stellar:" + asset)[8..] == asset;
    }
    assert asset in ConstantAssets(g);
  }

  /** Any other served asset is priced from the feed its config names, at the index the feed lists it under, and not at all
      while the feed, its resolution or the asset's index is missing. */
  lemma MappedAsset(b: Mirror, g: Aggregator, asset: string, closeTime: Option<int>)
    requires asset in g.assets && asset !in ConstantAssets(g)
    ensures var x := g.assets[asset];
      var known := x.oracleIndex in g.feeds && g.feeds[x.oracleIndex].resolutionS > 0
                   && Contract(g.feeds[x.oracleIndex].contract) in b.feeds
                   && x.feedAssetKey in b.feeds[Contract(g.feeds[x.oracleIndex].contract)].feed.assetToIndex;
      && (!known ==> AssetPrice(b, g, asset, closeTime) == None)
      && (known ==>
            var ref := g.feeds[x.oracleIndex];
            var f := b.feeds[Contract(ref.contract)].feed;
            AssetPrice(b, g, asset, closeTime)
            == FeedPrice(f, f.assetToIndex[x.feedAssetKey], ref, g.maxAgeS, x.maxDev, g.decimals, closeTime))
  {
    hide FeedPrice, ConstantAssets;
  }

  // ---- the token prices of a backstop row ------------------------------------------------------

  /** The reserve of the pool that prices the token. */
  predicate Prices(r: Reserve, asset: string) { r.asset == asset && r.price.Some? && r.price.value > 0 }

  ghost predicate PricedIn(p: PoolState, asset: string) { exists r :: r in p.reserves && Prices(r, asset) }

  /** The price is that of the token's reserve in the first pool that prices it; there is none when no pool does. */
  ghost predicate IsFirstPrice(pools: seq<PoolState>, asset: string, price: Option<Price>) {
    && (price.None? ==> asset == "" || forall p <- pools :: !PricedIn(p, asset))
    && (price.Some? ==> asset != "" && exists n, r :: 0 <= n < |pools| && r in pools[n].reserves && Prices(r, asset)
                                                 && price.value == Price(r.price.value, r.priceDecimals)
                                                 && forall m :: 0 <= m < n ==> !PricedIn(pools[m], asset))
  }

  /** A published pool prices the token just when the pool's reserve of that asset does. */
  lemma PricedInPool(p: Pool, asset: string)
    requires KeyedBy(p.reserves, ReserveKey)
    ensures var k := Contract(asset);
      PricedIn(PublishPool(p), asset) <==> k in p.reserves && Prices(p.reserves[k], asset)
    ensures forall r :: r in PublishPool(p).reserves && r.asset == asset ==> Contract(asset) in p.reserves && r == p.reserves[Contract(asset)]
    ensures Contract(asset) in p.reserves ==> p.reserves[Contract(asset)] in PublishPool(p).reserves && p.reserves[Contract(asset)].asset == asset
  {
    ReserveSliceFacts(p.reserves);
    hide ReserveSlice;
  }

  /** The list publishes the pools in that order. */
  ghost predicate Lists(pools: map<Key, Pool>, order: seq<Key>, listed: seq<PoolState>) {
    |order| == |listed| && forall n :: 0 <= n < |order| ==> ListedAs(pools, order[n], listed[n])
  }

  ghost predicate ListedAs(pools: map<Key, Pool>, k: Key, s: PoolState) {
    k in pools && KeyedBy(pools[k].reserves, ReserveKey) && s == PublishPool(pools[k])
  }

  lemma {:induction false} FirstPrice(pools: map<Key, Pool>, order: seq<Key>, listed: seq<PoolState>, asset: string)
    requires asset != "" && Lists(pools, order, listed)
    ensures IsFirstPrice(listed, asset, TokenPrice(pools, order, asset))
    decreases |order|
  {
    hide PublishPool, KeyedBy;
    if order != [] {
      assert ListedAs(pools, order[0], listed[0]);
      var p := pools[order[0]];
      PricedInPool(p, asset);
      assert listed == [listed[0]] + listed[1..];
      if Contract(asset) in p.reserves && Prices(p.reserves[Contract(asset)], asset) {
        var r := p.reserves[Contract(asset)];
        assert r in listed[0].reserves && TokenPrice(pools, order, asset) == Some(Price(r.price.value, r.priceDecimals));
      } else {
        FirstPrice(pools, order[1..], listed[1..], asset);
        assert TokenPrice(pools, order, asset) == TokenPrice(pools, order[1..], asset);
        LaterPrice(listed, asset, TokenPrice(pools, order[1..], asset));
      }
    }
  }

  lemma LaterPrice(pools: seq<PoolState>, asset: string, price: Option<Price>)
    requires pools != [] && !PricedIn(pools[0], asset) && IsFirstPrice(pools[1..], asset, price)
    ensures IsFirstPrice(pools, asset, price)
  {
    hide PricedIn;
    assert pools == [pools[0]] + pools[1..];
    if price.Some? {
      var n, r :| 0 <= n < |pools[1..]| && r in pools[1..][n].reserves && Prices(r, asset)
               && price.value == Price(r.price.value, r.priceDecimals) && forall m :: 0 <= m < n ==> !PricedIn(pools[1..][m], asset);
      assert pools[n + 1] == pools[1..][n];
      forall m | 0 <= m < n + 1 ensures !PricedIn(pools[m], asset) {
        if m > 0 { assert pools[m] == pools[1..][m - 1]; }
      }
    }
  }

  /** A backstop row shows, for each token of its pool's backstop, the price of the first published pool that prices it. */
  lemma BackstopRowPriced(b: Mirror, closeTime: Option<int>, row: BackstopRow, s: PoolState, i: BackstopInstance)
    requires Coherent(b)
    requires var state := PublishAll(Built(b, closeTime));
      row in state.backstops && s in state.pools && i in state.instances
    requires s.info.contract == row.balance.pool && i.contract == s.info.backstop && s.info.backstop != ""
    ensures var pools := PublishAll(Built(b, closeTime)).pools;
      IsFirstPrice(pools, i.blnd, row.blndPrice) && IsFirstPrice(pools, i.usdc, row.usdcPrice)
  {
    hide Users, PricedPools, ResolveAggregators, TrimmedFeeds, KeyedBy, Coherent, Slice, TokenPrice, IsFirstPrice;
    var c := Built(b, closeTime);
    BuiltPools(b, closeTime);
    RowOfPool(b, closeTime, row, s, i);
    ListedFirst(c, i.blnd);
    ListedFirst(c, i.usdc);
  }

  lemma SliceLists(c: Mirror)
    requires PoolsOk(c.pools)
    ensures Lists(c.pools, Ascending(c.pools.Keys), Slice(map k | k in c.pools :: PublishPool(c.pools[k])))
  {
    hide PublishPool, KeyedBy, Fresh;
    var m := map k | k in c.pools :: PublishPool(c.pools[k]);
    assert m.Keys == c.pools.Keys;
    var ks := Ascending(c.pools.Keys);
    forall n | 0 <= n < |ks| ensures ListedAs(c.pools, ks[n], Slice(m)[n]) {
      assert ks[n] in ks;
      assert PoolOk(ks[n], c.pools[ks[n]]);
    }
  }

  lemma ListedFirst(c: Mirror, asset: string)
    requires PoolsOk(c.pools)
    ensures IsFirstPrice(Slice(map k | k in c.pools :: PublishPool(c.pools[k])), asset, TokenPrice(c.pools, Ascending(c.pools.Keys), asset))
  {
    hide PublishPool, PoolsOk, PricedIn, Slice, Lists;
    SliceLists(c);
    if asset != "" {
      FirstPrice(c.pools, Ascending(c.pools.Keys), Slice(map k | k in c.pools :: PublishPool(c.pools[k])), asset);
    }
  }

  lemma RowOfPool(b: Mirror, closeTime: Option<int>, row: BackstopRow, s: PoolState, i: BackstopInstance)
    requires Coherent(b)
    requires var state := PublishAll(Built(b, closeTime));
      row in state.backstops && s in state.pools && i in state.instances
    requires s.info.contract == row.balance.pool && i.contract == s.info.backstop && s.info.backstop != ""
    ensures var c := Built(b, closeTime);
      && row.blndPrice == TokenPrice(c.pools, Ascending(c.pools.Keys), i.blnd)
      && row.usdcPrice == TokenPrice(c.pools, Ascending(c.pools.Keys), i.usdc)
      && PublishAll(c).pools == Slice(map k | k in c.pools :: PublishPool(c.pools[k]))
  {
    hide Users, PricedPools, ResolveAggregators, TrimmedFeeds, KeyedBy, Coherent, Slice, TokenPrice, Fresh, ReserveSlice;
    var c := Built(b, closeTime);
    BuiltPools(b, closeTime);
    var rows := map j | j in c.backstopUsers :: BackstopPosition(c, c.backstopUsers[j]);
    var published := map k | k in c.pools :: PublishPool(c.pools[k]);
    assert PublishAll(c).backstops == Slice(rows) && PublishAll(c).pools == Slice(published)
        && PublishAll(c).instances == Slice(b.instances) && c.instances == b.instances;
    hide PublishAll, Built;
    InSlice(rows, row);
    InSlice(published, s);
    InSlice(b.instances, i);
    var k :| k in published && published[k] == s;
    var j :| j in b.instances && b.instances[j] == i;
    InstanceKeyed(b, j);
    assert PoolOk(k, c.pools[k]);
  }

  lemma InstanceKeyed(b: Mirror, k: Key)
    requires Coherent(b) && k in b.instances
    ensures Contract(b.instances[k].contract) == k
  {
  }
}
