/** What a live write says is what the mirror holds right after it. */
module Writes {
  import opened Options
  import opened Keys
  import opened Slices
  import opened Reserves
  import opened Reflector
  import opened Mirror
  import opened Carry
  import opened Reference
  import opened Confinement

  /** A live change whose value decodes, still alive at the ledger. */
  predicate IsWrite(c: Change, seqNum: int, key: EntryKey, v: Value) {
    c.key == Some(key) && c.payload == Decoded(v) && c.live && (c.liveUntil.None? || c.liveUntil.value >= seqNum)
  }

  predicate At<V(==)>(m: map<Key, V>, k: Key, v: V) { k in m && m[k] == v }

  // ---- what a write says -----------------------------------------------------------------------

  predicate SharesSay(u: UserBalance, v: Value)
    requires v.UserSharesValue?
  {
    u.shares == v.userShares && u.q4w == v.q4w
  }

  predicate AccrualSays(u: UserBalance, v: Value)
    requires v.UserEmisValue?
  {
    u.emisIndex == v.userIndex && u.emisAccrued == v.accrued
  }

  predicate OracleSays(o: Oracle, x: OracleInstance) {
    && o.decimals == x.decimals && o.assetToIndex == x.assets
    && (x.baseKey.Some? ==> o.baseKey == x.baseKey.value) && (x.resolution.Some? ==> o.resolution == x.resolution.value)
    && (x.admin.Some? ==> o.admin == x.admin.value)
  }

  predicate AddressesSay(i: BackstopInstance, x: BackstopAddresses) {
    && (x.token.Some? ==> i.token == x.token.value) && (x.blnd.Some? ==> i.blnd == x.blnd.value)
    && (x.usdc.Some? ==> i.usdc == x.usdc.value) && (x.emitter.Some? ==> i.emitter == x.emitter.value)
    && (x.factory.Some? ==> i.factory == x.factory.value)
  }

  predicate ConfigSays(info: PoolInfo, x: PoolConfig) {
    info.oracle == x.oracle && info.status == x.status && forall f <- x.fields :: f in info.fields && info.fields[f] == x.fields[f]
  }

  predicate PoolSays(info: PoolInfo, hash: string, x: PoolInstance) {
    && info.wasmHash == hash
    && (x.config.Some? ==> ConfigSays(info, x.config.value))
    && (x.backstop.Some? ==> info.backstop == x.backstop.value)
    && (x.config.None? ==> forall f <- x.fields :: f in info.fields && info.fields[f] == x.fields[f])
  }

  predicate SymbolSays(info: PoolInfo, name: SymbolName, v: Value) {
    && (name == Config && v.PoolConfigValue? ==> ConfigSays(info, v.config))
    && (name == Backstop && v.AddressValue? ==> info.backstop == v.address)
    && (name == PoolEmis && v.PoolEmissionsValue? ==> info.emissions == Some(v.shares))
  }

  predicate IsPoolSymbol(name: SymbolName, v: Value) {
    || (name == Config && v.PoolConfigValue?) || (name == Backstop && v.AddressValue?)
    || (name == PoolEmis && v.PoolEmissionsValue?)
  }

  /** What a mirror holds once a contract's instance is written. An owned contract is asked for an oracle and for an
      aggregator first. */
  predicate InstanceHolds(d: Mirror, owned: bool, id: string, v: Value)
    requires v.InstanceValue?
  {
    var k := Contract(id);
    if owned && v.oracle.Some? then k in d.oracles && OracleSays(d.oracles[k], v.oracle.value)
    else if owned && v.aggregator.Some? then At(d.aggregators, k, AggregatorState(id, v.aggregator.value))
    else if v.backstop.Some? then k in d.instances && AddressesSay(d.instances[k], v.backstop.value)
    else if v.wasmHash.Some? then k in d.pools && PoolSays(d.pools[k].info, v.wasmHash.value, v.pool)
    else true
  }

  predicate SymbolHolds(d: Mirror, id: string, name: SymbolName, v: Value) {
    var k := Contract(id);
    && (IsPoolSymbol(name, v) ==> k in d.pools && SymbolSays(d.pools[k].info, name, v))
    && (name == RewardZone && v.AddressListValue? ==> k in d.instances && d.instances[k].rewardZone == v.addresses)
    && (name == DropList && v.DropListValue? ==> k in d.instances && d.instances[k].dropList == v.entries)
  }

  /** What a mirror holds once an entry is written. */
  predicate Holds(d: Mirror, owned: bool, id: string, key: EntryKey, v: Value) {
    match key
    case PositionsKey(user) =>
      At(d.pending, Pair(user, id),
         Pending(user, id, Some(if v.PositionsOf? then v.positions else PositionsValue([], [], [])), false, 0))
    case PoolBalanceKey(poolId) => v.BalanceValue? ==> At(d.backstopPools, Contract(poolId), v.balance)
    case UserBalanceEntry(poolId, user) =>
      v.UserSharesValue? && v.userShares != "" ==>
        Pair(user, poolId) in d.backstopUsers && SharesSay(d.backstopUsers[Pair(user, poolId)], v)
    case BEmisDataKey(poolId) =>
      v.BackstopEmisValue? && v.emis != Emis("", "", "", "") ==> At(d.backstopEmis, Contract(poolId), v.emis)
    case UEmisDataKey(poolId, user) =>
      v.UserEmisValue? && (v.userIndex != "" || v.accrued != "") ==>
        Pair(user, poolId) in d.backstopUsers && AccrualSays(d.backstopUsers[Pair(user, poolId)], v)
    case AuctionEntry(user, t) =>
      v.AuctionValue? ==> At(d.auctions, AuctionOf(id, user, t), Auction(id, user, t, v.block, v.lot, v.bid))
    case UserEmisKey(user, token) =>
      v.UserEmisValue? ==> At(d.userEmis, EmissionOf(user, id, token), UserEmission(user, id, token, v.userIndex, v.accrued))
    case ResInitKey(asset) =>
      v.QueuedValue? ==> At(d.queued, ReserveOf(id, asset), QueuedReserve(id, asset, v.unlockTime, v.newConfig))
    case U128Key(hi, lo) =>
      owned && v.IntValue? && hi == 0 && lo < 0x8000_0000_0000_0000 ==>
        Contract(id) in d.oracles && lo in d.oracles[Contract(id)].priceByIndex && d.oracles[Contract(id)].priceByIndex[lo] == v.n
    case InstanceEntry => v.InstanceValue? ==> InstanceHolds(d, owned, id, v)
    case Symbol(name) => SymbolHolds(d, id, name, v)
    case _ => true
  }

  // ---- a write is stored -----------------------------------------------------------------------

  lemma OracleWithSays(o: Oracle, x: OracleInstance)
    ensures OracleSays(WithOracleInstance(o, x), x)
  {
  }

  lemma AddressesWithSay(i: BackstopInstance, x: BackstopAddresses)
    ensures AddressesSay(WithAddresses(i, x), x)
  {
  }

  lemma PoolWithSays(info: PoolInfo, hash: string, x: PoolInstance)
    ensures PoolSays(WithInstance(info, hash, x), hash, x)
  {
  }

  lemma OracleInstanceStored(b: Mirror, id: string, v: Value)
    requires v.InstanceValue? && v.oracle.Some?
    ensures ApplyOracle(b, id, InstanceEntry, v).Some?
    ensures InstanceHolds(ApplyOracle(b, id, InstanceEntry, v).value, true, id, v)
  {
    hide EnsureOracle, WithOracleInstance, OracleSays, AddressesSay, PoolSays;
    var o := WithOracleInstance(EnsureOracle(b, id), v.oracle.value);
    OracleWithSays(EnsureOracle(b, id), v.oracle.value);
    assert ApplyOracle(b, id, InstanceEntry, v) == Some(PutOracle(b, id, o));
    hide ApplyOracle;
    assert PutOracle(b, id, o).oracles[Contract(id)] == o;
  }

  lemma AggregatorStored(b: Mirror, id: string, v: Value)
    requires v.InstanceValue? && v.oracle.None? && v.aggregator.Some?
    ensures ApplyOracle(b, id, InstanceEntry, v).Some?
    ensures InstanceHolds(ApplyOracle(b, id, InstanceEntry, v).value, true, id, v)
  {
    hide OracleSays, AddressesSay, PoolSays;
    var a := AggregatorState(id, v.aggregator.value);
    assert ApplyOracle(b, id, InstanceEntry, v) == Some(b.(aggregators := b.aggregators[Contract(id) := a]));
    hide ApplyOracle;
  }

  lemma BackstopInstanceStored(b: Mirror, id: string, v: Value)
    requires v.InstanceValue? && v.backstop.Some?
    ensures InstanceHolds(ApplyContract(b, id, InstanceEntry, v), false, id, v)
  {
    hide ApplyEntry, ApplySymbol, EnsureInstance, WithAddresses, OracleSays, AddressesSay, PoolSays;
    var i := WithAddresses(EnsureInstance(b, id), v.backstop.value);
    AddressesWithSay(EnsureInstance(b, id), v.backstop.value);
    assert ApplyContract(b, id, InstanceEntry, v) == PutInstance(b, id, i);
    hide ApplyContract;
    assert PutInstance(b, id, i).instances[Contract(id)] == i;
  }

  lemma PoolInstanceStored(b: Mirror, id: string, v: Value)
    requires v.InstanceValue? && v.backstop.None? && v.wasmHash.Some?
    ensures InstanceHolds(ApplyContract(b, id, InstanceEntry, v), false, id, v)
  {
    hide ApplyEntry, ApplySymbol, EnsurePool, WithInstance, OracleSays, AddressesSay, PoolSays;
    var p := EnsurePool(b, id);
    var q := p.(info := WithInstance(p.info, v.wasmHash.value, v.pool));
    PoolWithSays(p.info, v.wasmHash.value, v.pool);
    assert ApplyContract(b, id, InstanceEntry, v) == PutPool(b, id, q);
    hide ApplyContract;
    assert PutPool(b, id, q).pools[Contract(id)] == q;
  }

  lemma SymbolStored(b: Mirror, id: string, name: SymbolName, v: Value)
    ensures SymbolHolds(ApplySymbol(b, id, name, v), id, name, v)
  {
    hide EnsurePool, EnsureInstance, ListReserves;
  }

  lemma EntryStored(b: Mirror, id: string, key: EntryKey, v: Value)
    requires !key.InstanceEntry? && !key.Symbol? && !key.U128Key?
    ensures Holds(ApplyEntry(b, id, key, v), false, id, key, v)
    ensures Holds(ApplyEntry(b, id, key, v), true, id, key, v)
  {
    hide ApplyReserve, ApplyEmission, EnsureUser, Holders;
  }

  lemma PriceStored(b: Mirror, id: string, hi: nat, lo: nat, v: Value)
    requires v.IntValue?
    ensures ApplyOracle(b, id, U128Key(hi, lo), v).Some?
    ensures Holds(ApplyOracle(b, id, U128Key(hi, lo), v).value, true, id, U128Key(hi, lo), v)
  {
    hide EnsureOracle, AssetsAt;
  }

  /** A value other than an instance goes to the entry its key names. */
  lemma Routed(cfg: Owned, b: Mirror, id: string, key: EntryKey, v: Value)
    requires id !in cfg.feeds && id !in cfg.assets && !v.InstanceValue? && (key.U128Key? ==> id !in cfg.contracts)
    ensures ApplyLive(cfg, b, id, key, v) == if key.Symbol? then ApplySymbol(b, id, key.name, v) else ApplyEntry(b, id, key, v)
  {
    hide ApplySymbol, ApplyEntry;
    NotForTheOracle(b, id, key, v);
    hide ApplyOracle;
    assert ApplyContract(b, id, key, v) == if key.Symbol? then ApplySymbol(b, id, key.name, v) else ApplyEntry(b, id, key, v);
    hide ApplyContract;
  }

  lemma NotForTheOracle(b: Mirror, id: string, key: EntryKey, v: Value)
    requires !v.InstanceValue?
    ensures ApplyOracle(b, id, key, v).Some? <==> key.U128Key?
  {
  }

  lemma InstanceRouted(cfg: Owned, b: Mirror, id: string, v: Value)
    requires id !in cfg.feeds && id !in cfg.assets && v.InstanceValue?
    ensures InstanceHolds(ApplyLive(cfg, b, id, InstanceEntry, v), id in cfg.contracts, id, v)
  {
    if v.oracle.Some? { OracleInstanceStored(b, id, v); } else if v.aggregator.Some? { AggregatorStored(b, id, v); }
    if v.backstop.Some? { BackstopInstanceStored(b, id, v); } else if v.wasmHash.Some? { PoolInstanceStored(b, id, v); }
    hide ApplyContract, OracleSays, AddressesSay, PoolSays;
    assert v.oracle.Some? || v.aggregator.Some? || ApplyOracle(b, id, InstanceEntry, v).None?;
    hide ApplyOracle;
  }

  /** The write of an entry is in the mirror right after the change. */
  lemma WriteStored(cfg: Owned, b: Mirror, c: Change, seqNum: int, key: EntryKey, v: Value)
    requires IsWrite(c, seqNum, key, v) && c.contract !in cfg.feeds && c.contract !in cfg.assets
    requires v.InstanceValue? ==> key == InstanceEntry
    ensures Holds(Apply(cfg, b, c, seqNum), c.contract in cfg.contracts, c.contract, key, v)
  {
    hide ApplyLive, InstanceHolds, SymbolHolds;
    var id := c.contract;
    assert Apply(cfg, b, c, seqNum) == ApplyLive(cfg, b, id, key, v);
    if key == InstanceEntry && v.InstanceValue? {
      InstanceRouted(cfg, b, id, v);
    } else if key.U128Key? {
      if id in cfg.contracts && v.IntValue? {
        PriceStored(b, id, key.hi, key.lo, v);
        PriceRouted(cfg, b, id, key, v);
      }
    } else {
      Routed(cfg, b, id, key, v);
      if key.Symbol? { SymbolStored(b, id, key.name, v); } else if key != InstanceEntry { EntryStored(b, id, key, v); }
    }
  }

  lemma PriceRouted(cfg: Owned, b: Mirror, id: string, key: EntryKey, v: Value)
    requires id !in cfg.feeds && id in cfg.contracts && ApplyOracle(b, id, key, v).Some?
    ensures ApplyLive(cfg, b, id, key, v) == ApplyOracle(b, id, key, v).value
  {
  }

  // ---- registered feeds and assets -------------------------------------------------------------

  /** A round entry of a registered feed stores its prices at its stamp, a price entry its price at stamp hi and index lo, and
      the feed is marked as changed. */
  lemma FeedStored(cfg: Owned, b: Mirror, c: Change, seqNum: int, key: EntryKey, v: Value)
    requires IsWrite(c, seqNum, key, v) && c.contract in cfg.feeds
    ensures var d, k := Apply(cfg, b, c, seqNum), Contract(c.contract);
      && c.contract in d.changedFeeds
      && (key.U64Key? && key.n > 0 && v.BatchValue? ==>
            k in d.feeds && key.n in d.feeds[k].feed.rounds
            && forall i <- v.prices :: i in d.feeds[k].feed.rounds[key.n] && d.feeds[k].feed.rounds[key.n][i] == v.prices[i])
      && (key.U128Key? && 0 < key.hi < 0x8000_0000_0000_0000 && key.lo < 0x8000_0000_0000_0000 && v.IntValue? ==>
            k in d.feeds && key.hi in d.feeds[k].feed.rounds && key.lo in d.feeds[k].feed.rounds[key.hi]
            && d.feeds[k].feed.rounds[key.hi][key.lo] == v.n)
      && (key == InstanceEntry && v.InstanceValue? && v.feed.Some? && v.feed.value.Instance? ==>
            k in d.feeds
            && (v.feed.value.assets.Some? ==> d.feeds[k].feed.assetToIndex == v.feed.value.assets.value)
            && (v.feed.value.decimals.Some? ==> d.feeds[k].feed.decimals == v.feed.value.decimals.value))
  {
    hide ApplyDelete, ApplyFeed, SetRounds, FeedInstance;
    var op, f := FeedWrite(key, v), FeedAt(b, c.contract);
    assert Apply(cfg, b, c, seqNum) == ChangeFeed(b, c.contract, op);
    hide Apply;
    if op.WriteRound? { RoundWritten(f, op.ts, op.prices); }
    if op.Instance? { FeedInstanceWritten(f, op); }
  }

  /** The metadata of a registered asset is what its instance says, filed under its own contract. */
  lemma AssetStored(cfg: Owned, b: Mirror, c: Change, seqNum: int, key: EntryKey, v: Value)
    requires IsWrite(c, seqNum, key, v) && v.InstanceValue? && v.asset.Some?
    requires c.contract in cfg.assets && c.contract !in cfg.feeds && c.contract !in cfg.contracts
    ensures At(Apply(cfg, b, c, seqNum).assets, Contract(c.contract),
               Asset(c.contract, v.asset.value.symbol, v.asset.value.name, v.asset.value.decimals))
  {
    hide ApplyDelete, ApplyContract;
  }

  /** The last-update stamp of an oracle the mirror knows is the one written. */
  lemma StampStored(cfg: Owned, b: Mirror, c: Change, seqNum: int, n: int)
    requires IsWrite(c, seqNum, Symbol(Timestamp), IntValue(n)) && c.contract !in cfg.feeds && c.contract !in cfg.assets
    requires Contract(c.contract) in b.oracles
    ensures var d, k := Apply(cfg, b, c, seqNum), Contract(c.contract);
      k in d.oracles && d.oracles[k] == b.oracles[k].(lastTimestamp := Some(n))
  {
    hide ApplyLive;
    assert Apply(cfg, b, c, seqNum) == ApplyLive(cfg, b, c.contract, Symbol(Timestamp), IntValue(n));
    hide Apply;
    Routed(cfg, b, c.contract, Symbol(Timestamp), IntValue(n));
  }
}
