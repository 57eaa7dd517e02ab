/** The builder mirror of the Blend reducer: what one contract_data change does to it, how it is loaded from a typed
    ledger state, and how it is published as one. */
module Mirror {
  import opened Options
  import opened Keys
  import opened Slices
  import opened Reserves
  import opened Reflector

  // ---- entities --------------------------------------------------------------------------------

  datatype QueuedShares = QueuedShares(shares: string, unlockAt: int)

  /** A UserBalance entry with its sibling UEmisData entry. */
  datatype UserBalance = UserBalance(user: string, pool: string, shares: string, q4w: seq<QueuedShares>,
                                     emisIndex: string, emisAccrued: string)

  function UserBalanceKey(u: UserBalance): Key { Pair(u.user, u.pool) }

  datatype Auction = Auction(pool: string, user: string, auctionType: int, block: int, lot: seq<(string, string)>,
                             bid: seq<(string, string)>)

  function AuctionKey(a: Auction): Key { AuctionOf(a.pool, a.user, a.auctionType) }

  datatype UserEmission = UserEmission(address: string, pool: string, token: int, index: string, accrued: string)

  function UserEmissionKey(e: UserEmission): Key { EmissionOf(e.address, e.pool, e.token) }

  datatype QueuedReserve = QueuedReserve(pool: string, asset: string, unlockTime: string, config: map<string, string>)

  function QueuedKey(q: QueuedReserve): Key { ReserveOf(q.pool, q.asset) }

  datatype BackstopInstance = BackstopInstance(contract: string, token: string, blnd: string, usdc: string,
                                               emitter: string, factory: string, rewardZone: seq<string>,
                                               dropList: seq<(string, string)>)

  function InstanceKeyOf(i: BackstopInstance): Key { Contract(i.contract) }

  datatype Oracle = Oracle(contract: string, decimals: int, assetToIndex: map<string, int>, priceByIndex: map<int, int>,
                           baseKey: string, resolution: string, admin: string, lastTimestamp: Option<int>,
                           synthesized: bool)

  function OracleKey(o: Oracle): Key { Contract(o.contract) }

  datatype FeedState = FeedState(contract: string, feed: Feed)

  function FeedKey(f: FeedState): Key { Contract(f.contract) }

  datatype AggregatorState = AggregatorState(contract: string, config: Aggregator)

  function AggregatorKey(a: AggregatorState): Key { Contract(a.contract) }

  datatype Asset = Asset(contract: string, symbol: string, name: string, decimals: int)

  function AssetKey(a: Asset): Key { Contract(a.contract) }

  /** blendStateBuilder. The last five fields are the scratch of one ledger: the identities its changes touched. */
  datatype Mirror = Mirror(
    pools: map<Key, Pool>, pending: map<Key, Pending>, backstopPools: map<Key, Balance>,
    backstopUsers: map<Key, UserBalance>, backstopEmis: map<Key, Emis>, auctions: map<Key, Auction>,
    userEmis: map<Key, UserEmission>, queued: map<Key, QueuedReserve>, instances: map<Key, BackstopInstance>,
    oracles: map<Key, Oracle>, feeds: map<Key, FeedState>, aggregators: map<Key, AggregatorState>,
    assets: map<Key, Asset>,
    dirtyUsers: set<Key>, dirtyTemporary: set<Key>, dirtyBackstops: set<Key>, changedFeeds: set<string>,
    changedPriceAssets: set<string>)

  const EMPTY_MIRROR := Mirror(map[], map[], map[], map[], map[], map[], map[], map[], map[], map[], map[], map[], map[],
                               {}, {}, {}, {}, {})

  /** The adapter's registered contract sets, re-read at the top of every decode. */
  datatype Owned = Owned(contracts: set<string>, assets: set<string>, feeds: set<string>)

  // ---- changes ---------------------------------------------------------------------------------

  /** The top-level symbol keys the reducer tells apart. */
  datatype SymbolName = Config | Backstop | ResList | PoolEmis | RewardZone | DropList | Timestamp | OtherSymbol

  /** A contract_data key after decoding. A variant with malformed arguments is `OtherKey`. */
  datatype EntryKey =
    | InstanceEntry | Symbol(name: SymbolName) | U64Key(n: int) | U128Key(hi: nat, lo: nat)
    | ResConfigKey(asset: string) | ResDataKey(asset: string) | EmisConfigKey(token: nat) | EmisDataKey(token: nat)
    | PositionsKey(user: string) | PoolBalanceKey(poolId: string) | UserBalanceEntry(poolId: string, user: string)
    | BEmisDataKey(poolId: string) | UEmisDataKey(poolId: string, user: string)
    | AuctionEntry(user: string, auctionType: int) | UserEmisKey(user: string, reserveToken: int) | ResInitKey(asset: string)
    | OtherKey

  datatype PoolConfig = PoolConfig(oracle: string, status: string, fields: map<PoolField, string>)

  datatype PoolInstance = PoolInstance(config: Option<PoolConfig>, backstop: Option<string>,
                                       fields: map<PoolField, string>)

  datatype OracleInstance = OracleInstance(decimals: int, assets: map<string, int>, baseKey: Option<string>,
                                           resolution: Option<string>, admin: Option<string>)

  datatype BackstopAddresses = BackstopAddresses(token: Option<string>, blnd: Option<string>, usdc: Option<string>,
                                                 emitter: Option<string>, factory: Option<string>)

  /** A decoded value: what each recognizer extracts from it. A contract instance may satisfy several recognizers;
      the reducer asks them in a fixed order. */
  datatype Value =
    | InstanceValue(oracle: Option<OracleInstance>, aggregator: Option<Aggregator>, asset: Option<Asset>,
                    backstop: Option<BackstopAddresses>, wasmHash: Option<string>, pool: PoolInstance,
                    feed: Option<FeedOp>)
    | IntValue(n: int)
    | BatchValue(prices: map<int, int>)
    | AddressValue(address: string)
    | AddressListValue(addresses: seq<string>)
    | DropListValue(entries: seq<(string, string)>)
    | PoolConfigValue(config: PoolConfig)
    | ReserveListValue(list: seq<string>)
    | PoolEmissionsValue(shares: seq<(int, string)>)
    | ReserveValue(index: Option<int>, fields: Fields)
    | EmissionValue(eps: Option<string>, expiration: Option<string>, emisIndex: Option<string>, lastTime: Option<string>)
    | PositionsOf(positions: Positions)
    | BalanceValue(balance: Balance)
    | UserSharesValue(userShares: string, q4w: seq<QueuedShares>)
    | BackstopEmisValue(emis: Emis)
    | UserEmisValue(userIndex: string, accrued: string)
    | AuctionValue(block: int, lot: seq<(string, string)>, bid: seq<(string, string)>)
    | QueuedValue(unlockTime: string, newConfig: map<string, string>)
    | OtherValue

  datatype Payload = Absent | Undecodable | Decoded(value: Value)

  /** One contract_data change of a ledger. `removed` says the change is an explicit on-chain removal rather than a
      TTL lapse or an eviction. */
  datatype Change = Change(contract: string, key: Option<EntryKey>, payload: Payload, live: bool, liveUntil: Option<int>,
                           removed: bool)

  predicate IsLive(c: Change, seqNum: int) {
    c.live && c.payload != Absent && !(c.liveUntil.Some? && c.liveUntil.value < seqNum)
  }

  // ---- pools and reserves ----------------------------------------------------------------------

  function EnsurePool(b: Mirror, id: string): Pool {
    if Contract(id) in b.pools then b.pools[Contract(id)] else NewPool(id)
  }

  function PutPool(b: Mirror, id: string, p: Pool): Mirror { b.(pools := b.pools[Contract(id) := p]) }

  function EnsureReserve(p: Pool, asset: string): Reserve {
    if Contract(asset) in p.reserves then p.reserves[Contract(asset)] else NewReserve(asset)
  }

  function PutReserve(p: Pool, asset: string, r: Reserve): Pool {
    Finalize(p.(reserves := p.reserves[Contract(asset) := r]))
  }

  /** applyReserveConfig and applyReserveData. Only a decoded config index makes the index known. */
  function ReserveWith(r: Reserve, isConfig: bool, v: Value): Reserve {
    if !v.ReserveValue? then r
    else if isConfig && v.index.Some? then r.(index := v.index.value, indexKnown := true, fields := r.fields + v.fields)
    else r.(fields := r.fields + v.fields)
  }

  function OptionField(f: ReserveField, v: Option<string>): Fields {
    if v.Some? then map[f := v.value] else map[]
  }

  function EmissionFields(side: int, v: Value, isConfig: bool): Fields {
    if !v.EmissionValue? then map[]
    else
      OptionField(EmisEps(side), v.eps) + OptionField(EmisExpiration(side), v.expiration)
      + if isConfig then map[] else OptionField(EmisIndex(side), v.emisIndex) + OptionField(EmisLastTime(side), v.lastTime)
  }

  function ClearedEmission(side: int, isConfig: bool): set<ReserveField> {
    if isConfig then {EmisEps(side), EmisExpiration(side)}
    else {EmisEps(side), EmisExpiration(side), EmisIndex(side), EmisLastTime(side)}
  }

  /** The reserve a res_token_id names: token / 2 is its index, token % 2 the side. */
  function EmissionTarget(p: Pool, token: nat): Option<string> {
    if token / 2 in p.byIndex then Some(p.byIndex[token / 2]) else None
  }

  function EnsureReserves(p: Pool, list: seq<string>): Pool {
    if list == [] then p
    else
      var q := EnsureReserves(p, list[..|list| - 1]);
      var asset := list[|list| - 1];
      q.(reserves := q.reserves[Contract(asset) := EnsureReserve(q, asset)])
  }

  function ListReserves(p: Pool, v: Value): Pool { Finalize(if v.ReserveListValue? then EnsureReserves(p, v.list) else p) }

  function WithConfig(info: PoolInfo, config: PoolConfig): PoolInfo {
    info.(oracle := config.oracle, status := config.status, fields := info.fields + config.fields)
  }

  function WithInstance(info: PoolInfo, hash: string, inst: PoolInstance): PoolInfo {
    var i := info.(wasmHash := hash, fields := info.fields + inst.fields);
    var j := if inst.config.Some? then WithConfig(i, inst.config.value) else i;
    if inst.backstop.Some? then j.(backstop := inst.backstop.value) else j
  }

  // ---- oracles, feeds, instances ---------------------------------------------------------------

  function EnsureOracle(b: Mirror, id: string): Oracle {
    if Contract(id) in b.oracles then b.oracles[Contract(id)] else Oracle(id, 0, map[], map[], "", "", "", None, false)
  }

  function PutOracle(b: Mirror, id: string, o: Oracle): Mirror { b.(oracles := b.oracles[Contract(id) := o]) }

  function GetOr<T>(o: Option<T>, d: T): T { if o.Some? then o.value else d }

  function WithOracleInstance(o: Oracle, inst: OracleInstance): Oracle {
    o.(decimals := inst.decimals, assetToIndex := inst.assets, baseKey := GetOr(inst.baseKey, o.baseKey),
       resolution := GetOr(inst.resolution, o.resolution), admin := GetOr(inst.admin, o.admin))
  }

  /** The assets an oracle lists at an index: at most one when the listing is a list of distinct assets. */
  function AssetsAt(o: Oracle, index: int): set<string> {
    set a | a in o.assetToIndex && o.assetToIndex[a] == index
  }

  /** The index an oracle price key denotes, when it fits the decoder's integer. */
  function OracleIndex(hi: nat, lo: nat): Option<int> {
    if hi == 0 && lo < 0x8000_0000_0000_0000 then Some(lo) else None
  }

  /** A 64-bit word read as a signed integer. */
  function Signed(n: nat): int { if n < 0x8000_0000_0000_0000 then n else n - 0x1_0000_0000_0000_0000 }

  /** What a live change of a registered feed means. */
  function FeedWrite(key: EntryKey, v: Value): FeedOp {
    match key
    case InstanceEntry =>
      if v.InstanceValue? && v.feed.Some? && v.feed.value.Instance? then v.feed.value else OtherEntry
    case U64Key(ts) =>
      if ts <= 0 then OtherEntry else if v.BatchValue? then WriteRound(ts, v.prices) else WriteBadRound
    case U128Key(hi, lo) =>
      if Signed(hi) > 0 && Signed(lo) >= 0 && v.IntValue? then WriteRound(Signed(hi), map[Signed(lo) := v.n]) else OtherEntry
    case _ => OtherEntry
  }

  function FeedDelete(key: EntryKey): FeedOp {
    match key
    case InstanceEntry => DropInstance
    case U64Key(ts) => DropRound(ts)
    case U128Key(hi, lo) => DropPrice(Signed(hi), Signed(lo))
    case _ => OtherEntry
  }

  function FeedAt(b: Mirror, id: string): Option<Feed> {
    if Contract(id) in b.feeds then Some(b.feeds[Contract(id)].feed) else None
  }

  function ChangeFeed(b: Mirror, id: string, op: FeedOp): (c: Mirror)
    ensures c.pending == b.pending
  {
    var f := ApplyFeed(FeedAt(b, id), op);
    b.(feeds := if f.Some? then b.feeds[Contract(id) := FeedState(id, f.value)] else b.feeds - {Contract(id)},
       changedFeeds := b.changedFeeds + {id})
  }

  function EnsureInstance(b: Mirror, id: string): BackstopInstance {
    if Contract(id) in b.instances then b.instances[Contract(id)] else BackstopInstance(id, "", "", "", "", "", [], [])
  }

  function PutInstance(b: Mirror, id: string, i: BackstopInstance): Mirror {
    b.(instances := b.instances[Contract(id) := i])
  }

  function WithAddresses(i: BackstopInstance, a: BackstopAddresses): BackstopInstance {
    i.(token := GetOr(a.token, i.token), blnd := GetOr(a.blnd, i.blnd), usdc := GetOr(a.usdc, i.usdc),
       emitter := GetOr(a.emitter, i.emitter), factory := GetOr(a.factory, i.factory))
  }

  // ---- dirty marking ---------------------------------------------------------------------------

  /** markBackstopPoolDirty, for a set of pools. */
  function Holders(b: Mirror, pools: set<string>): set<Key> {
    set k | k in b.backstopUsers && b.backstopUsers[k].pool in pools :: UserBalanceKey(b.backstopUsers[k])
  }

  function MarkPool(b: Mirror, id: string): (c: Mirror)
    ensures c.pending == b.pending
  { b.(dirtyBackstops := b.dirtyBackstops + Holders(b, {id})) }

  /** The pools linked through a decoded backstop instance one of whose token legs is a marked asset. */
  function PoolsPricedBy(b: Mirror, assets: set<string>): set<string> {
    set k | k in b.pools && Contract(b.pools[k].info.backstop) in b.instances &&
            var i := b.instances[Contract(b.pools[k].info.backstop)];
            ((i.blnd != "" && i.blnd in assets) || (i.usdc != "" && i.usdc in assets))
      :: b.pools[k].info.contract
  }

  /** propagateFeedPriceDirty: the assets an aggregator prices from a changed feed. */
  function FeedPricedAssets(b: Mirror): set<string> {
    set k, a | k in b.aggregators && a in b.aggregators[k].config.assets &&
               var g := b.aggregators[k].config;
               g.assets[a].oracleIndex in g.feeds && g.feeds[g.assets[a].oracleIndex].contract in b.changedFeeds
      :: a
  }

  function BackstopDirty(b: Mirror): set<Key> {
    b.dirtyBackstops + Holders(b, PoolsPricedBy(b, FeedPricedAssets(b) + b.changedPriceAssets))
  }

  // ---- applying a live change ------------------------------------------------------------------

  function PositionsIn(v: Value): Positions {
    if v.PositionsOf? then v.positions else PositionsValue([], [], [])
  }

  /** A pool's own symbols. */
  function PoolSymbol(p: Pool, name: SymbolName, v: Value): Pool {
    if name == Config && v.PoolConfigValue? then p.(info := WithConfig(p.info, v.config))
    else if name == Backstop && v.AddressValue? then p.(info := p.info.(backstop := v.address))
    else if name == ResList then ListReserves(p, v)
    else if name == PoolEmis && v.PoolEmissionsValue? then p.(info := p.info.(emissions := Some(v.shares)))
    else p
  }

  function ApplySymbol(b: Mirror, id: string, name: SymbolName, v: Value): (c: Mirror)
    ensures c.pending == b.pending
  {
    if name == RewardZone then
      if v.AddressListValue? then PutInstance(b, id, EnsureInstance(b, id).(rewardZone := v.addresses)) else b
    else if name == DropList then
      if v.DropListValue? then PutInstance(b, id, EnsureInstance(b, id).(dropList := v.entries)) else b
    else if name == Timestamp then
      if Contract(id) in b.oracles && v.IntValue?
      then PutOracle(b, id, b.oracles[Contract(id)].(lastTimestamp := Some(v.n))) else b
    else
      PutPool(b, id, PoolSymbol(EnsurePool(b, id), name, v))
  }

  function ApplyReserve(b: Mirror, id: string, asset: string, isConfig: bool, v: Value): (c: Mirror)
    ensures c.pending == b.pending
  {
    var p := EnsurePool(b, id);
    var r := ReserveWith(EnsureReserve(p, asset), isConfig, v).(archived := false, archivedSeq := 0);
    PutPool(b, id, PutReserve(p, asset, r))
  }

  function ApplyEmission(b: Mirror, id: string, token: nat, isConfig: bool, v: Value): (c: Mirror)
    ensures c.pending == b.pending
  {
    var p := EnsurePool(b, id);
    var target := EmissionTarget(p, token);
    if target.None? then PutPool(b, id, p)
    else
      var r := EnsureReserve(p, target.value);
      PutPool(b, id, PutReserve(p, target.value, r.(fields := r.fields + EmissionFields(token % 2, v, isConfig))))
  }

  function ApplyPositions(b: Mirror, id: string, user: string, v: Value): Mirror {
    b.(pending := b.pending[Pair(user, id) := Pending(user, id, Some(PositionsIn(v)), false, 0)],
       dirtyUsers := b.dirtyUsers + {Pair(user, id)})
  }

  function BalanceIn(v: Value): Balance { if v.BalanceValue? then v.balance else Balance("", "", "") }

  function PutUser(b: Mirror, u: UserBalance): Mirror {
    b.(backstopUsers := b.backstopUsers[UserBalanceKey(u) := u], dirtyBackstops := b.dirtyBackstops + {UserBalanceKey(u)})
  }

  function EnsureUser(b: Mirror, poolId: string, user: string): UserBalance {
    if Pair(user, poolId) in b.backstopUsers then b.backstopUsers[Pair(user, poolId)]
    else UserBalance(user, poolId, "", [], "", "")
  }

  function ApplyUserBalance(b: Mirror, poolId: string, user: string, v: Value): (c: Mirror)
    ensures c.pending == b.pending
  {
    var e := EnsureUser(b, poolId, user);
    var shares, q4w := if v.UserSharesValue? then v.userShares else "", if v.UserSharesValue? then v.q4w else [];
    PutUser(b, UserBalance(user, poolId, shares, q4w, e.emisIndex, e.emisAccrued))
  }

  function TemporaryAuction(pool: string, user: string, auctionType: int): Key {
    Temporary("auction", pool, user, auctionType, "")
  }

  function TemporaryQueued(pool: string, asset: string): Key { Temporary("queued_reserve", pool, "", 0, asset) }

  function ApplyEntry(b: Mirror, id: string, key: EntryKey, v: Value): (c: Mirror)
    ensures !key.PositionsKey? ==> c.pending == b.pending
  {
    match key
    case ResConfigKey(asset) => ApplyReserve(b, id, asset, true, v)
    case ResDataKey(asset) => ApplyReserve(b, id, asset, false, v)
    case EmisConfigKey(token) => ApplyEmission(b, id, token, true, v)
    case EmisDataKey(token) => ApplyEmission(b, id, token, false, v)
    case PositionsKey(user) => ApplyPositions(b, id, user, v)
    case PoolBalanceKey(poolId) =>
      MarkPool(b.(backstopPools := b.backstopPools[Contract(poolId) := BalanceIn(v)]), poolId)
    case UserBalanceEntry(poolId, user) => ApplyUserBalance(b, poolId, user, v)
    case BEmisDataKey(poolId) =>
      if v.BackstopEmisValue? && !v.emis.Empty() then b.(backstopEmis := b.backstopEmis[Contract(poolId) := v.emis]) else b
    case UEmisDataKey(poolId, user) =>
      if v.UserEmisValue?
      then PutUser(b, EnsureUser(b, poolId, user).(user := user, pool := poolId, emisIndex := v.userIndex, emisAccrued := v.accrued))
      else b
    case AuctionEntry(user, auctionType) =>
      if v.AuctionValue? then
        b.(auctions := b.auctions[AuctionOf(id, user, auctionType) := Auction(id, user, auctionType, v.block, v.lot, v.bid)],
           dirtyTemporary := b.dirtyTemporary + {TemporaryAuction(id, user, auctionType)})
      else b
    case UserEmisKey(user, token) =>
      if v.UserEmisValue?
      then b.(userEmis := b.userEmis[EmissionOf(user, id, token) := UserEmission(user, id, token, v.userIndex, v.accrued)])
      else b
    case ResInitKey(asset) =>
      if v.QueuedValue? then
        b.(queued := b.queued[ReserveOf(id, asset) := QueuedReserve(id, asset, v.unlockTime, v.newConfig)],
           dirtyTemporary := b.dirtyTemporary + {TemporaryQueued(id, asset)})
      else b
    case _ => b
  }

  /** An owned contract's oracle instance, aggregator instance or oracle price; None when it is none of them. */
  function ApplyOracle(b: Mirror, id: string, key: EntryKey, v: Value): (c: Option<Mirror>)
    ensures c.Some? ==> c.value.pending == b.pending
  {
    if v.InstanceValue? && v.oracle.Some? then
      Some(PutOracle(b, id, WithOracleInstance(EnsureOracle(b, id), v.oracle.value)))
    else if v.InstanceValue? && v.aggregator.Some? then
      Some(b.(aggregators := b.aggregators[Contract(id) := AggregatorState(id, v.aggregator.value)]))
    else if key.U128Key? then
      var index := OracleIndex(key.hi, key.lo);
      if index.Some? && v.IntValue? then
        var o := EnsureOracle(b, id);
        Some(PutOracle(b, id, o.(priceByIndex := o.priceByIndex[index.value := v.n]))
             .(changedPriceAssets := b.changedPriceAssets + AssetsAt(o, index.value)))
      else Some(b)
    else None
  }

  function ApplyInstance(b: Mirror, id: string, v: Value): (c: Option<Mirror>)
    ensures c.Some? ==> c.value.pending == b.pending
  {
    if v.InstanceValue? && v.backstop.Some? then
      Some(PutInstance(b, id, WithAddresses(EnsureInstance(b, id), v.backstop.value)))
    else if v.InstanceValue? && v.wasmHash.Some? then
      var p := EnsurePool(b, id);
      Some(PutPool(b, id, p.(info := WithInstance(p.info, v.wasmHash.value, v.pool))))
    else None
  }

  /** A pool's or a backstop's own entries. */
  function ApplyContract(b: Mirror, id: string, key: EntryKey, v: Value): (c: Mirror)
    ensures !key.PositionsKey? ==> c.pending == b.pending
  {
    var instance := ApplyInstance(b, id, v);
    if instance.Some? then instance.value
    else if key.Symbol? then ApplySymbol(b, id, key.name, v)
    else ApplyEntry(b, id, key, v)
  }

  function ApplyAsset(b: Mirror, id: string, v: Value): (c: Mirror)
    ensures c.pending == b.pending
  {
    if v.InstanceValue? && v.asset.Some? then b.(assets := b.assets[Contract(id) := v.asset.value.(contract := id)]) else b
  }

  /** A registered asset contract is never anything else. */
  function ApplyToken(cfg: Owned, b: Mirror, id: string, key: EntryKey, v: Value): (c: Mirror)
    ensures !key.PositionsKey? ==> c.pending == b.pending
  {
    if id in cfg.assets then ApplyAsset(b, id, v) else ApplyContract(b, id, key, v)
  }

  /** An owned contract is asked for an oracle first. */
  function ApplyOwned(cfg: Owned, b: Mirror, id: string, key: EntryKey, v: Value): (c: Mirror)
    ensures !key.PositionsKey? ==> c.pending == b.pending
  {
    var oracle := ApplyOracle(b, id, key, v);
    if oracle.Some? then oracle.value else ApplyToken(cfg, b, id, key, v)
  }

  function ApplyLive(cfg: Owned, b: Mirror, id: string, key: EntryKey, v: Value): (c: Mirror)
    ensures !key.PositionsKey? ==> c.pending == b.pending
  {
    if id in cfg.feeds then ChangeFeed(b, id, FeedWrite(key, v))
    else if id in cfg.contracts then ApplyOwned(cfg, b, id, key, v)
    else ApplyToken(cfg, b, id, key, v)
  }

  // ---- applying a not-live change --------------------------------------------------------------

  function DeleteSymbol(b: Mirror, id: string, name: SymbolName): (c: Mirror)
    ensures c.pending == b.pending
  {
    var k := Contract(id);
    if name == Config || name == ResList then b.(pools := b.pools - {k})
    else if name == Backstop && k in b.pools then
      PutPool(b, id, b.pools[k].(info := b.pools[k].info.(backstop := "")))
    else if name == PoolEmis && k in b.pools then
      PutPool(b, id, b.pools[k].(info := b.pools[k].info.(emissions := None)))
    else if name == RewardZone && k in b.instances then PutInstance(b, id, b.instances[k].(rewardZone := []))
    else if name == DropList && k in b.instances then PutInstance(b, id, b.instances[k].(dropList := []))
    else if name == Timestamp && k in b.oracles then PutOracle(b, id, b.oracles[k].(lastTimestamp := None))
    else b
  }

  function DropReserve(p: Pool, asset: string): Pool { Finalize(p.(reserves := p.reserves - {Contract(asset)})) }

  function ArchiveReserve(p: Pool, payload: Payload, asset: string, isConfig: bool, seqNum: int): Pool {
    var e := EnsureReserve(p, asset);
    var r := if payload.Decoded? then ReserveWith(e, isConfig, payload.value) else e;
    PutReserve(p, asset, r.(archived := true, archivedSeq := seqNum))
  }

  /** An explicit removal drops the reserve; a lapse or an eviction archives it, with the last value when carried. */
  function DeleteReserve(b: Mirror, c: Change, asset: string, isConfig: bool, seqNum: int): (d: Mirror)
    ensures d.pending == b.pending
  {
    if Contract(c.contract) !in b.pools then b
    else
      var p := b.pools[Contract(c.contract)];
      PutPool(b, c.contract, if c.removed then DropReserve(p, asset) else ArchiveReserve(p, c.payload, asset, isConfig, seqNum))
  }

  function DeleteEmission(b: Mirror, id: string, token: nat, isConfig: bool): (c: Mirror)
    ensures c.pending == b.pending
  {
    if Contract(id) !in b.pools then b
    else
      var p := b.pools[Contract(id)];
      var target := EmissionTarget(p, token);
      if target.None? || Contract(target.value) !in p.reserves then b
      else
        var r := p.reserves[Contract(target.value)];
        PutPool(b, id, PutReserve(p, target.value, r.(fields := r.fields - ClearedEmission(token % 2, isConfig))))
  }

  /** The blob an archived Positions entry keeps. */
  function ArchivedBlob(b: Mirror, c: Change, k: Key): Option<Positions> {
    if c.payload.Decoded? then Some(PositionsIn(c.payload.value))
    else if k in b.pending then b.pending[k].blob else None
  }

  function DeletePositions(b: Mirror, c: Change, user: string, seqNum: int): Mirror {
    var k := Pair(user, c.contract);
    var marked := b.(dirtyUsers := b.dirtyUsers + {k});
    if c.removed then marked.(pending := b.pending - {k})
    else if c.payload == Absent && k !in b.pending then marked
    else marked.(pending := b.pending[k := Pending(user, c.contract, ArchivedBlob(b, c, k), true, seqNum)])
  }

  function SetUser(b: Mirror, k: Key, u: UserBalance): (c: Mirror)
    ensures c.pending == b.pending
  {
    b.(backstopUsers := b.backstopUsers[k := u], dirtyBackstops := b.dirtyBackstops + {k})
  }

  function DropUser(b: Mirror, k: Key): (c: Mirror)
    ensures c.pending == b.pending
  {
    b.(backstopUsers := b.backstopUsers - {k}, dirtyBackstops := b.dirtyBackstops + {k})
  }

  function DeleteUserBalance(b: Mirror, poolId: string, user: string): (c: Mirror)
    ensures c.pending == b.pending
  {
    var u := EnsureUser(b, poolId, user);
    if u.emisIndex != "" || u.emisAccrued != "" then SetUser(b, Pair(user, poolId), u.(shares := "", q4w := []))
    else DropUser(b, Pair(user, poolId))
  }

  function DeleteUserEmission(b: Mirror, poolId: string, user: string): (c: Mirror)
    ensures c.pending == b.pending
  {
    if Pair(user, poolId) !in b.backstopUsers then b
    else
      var u := b.backstopUsers[Pair(user, poolId)];
      if u.shares == "" && u.q4w == [] then DropUser(b, Pair(user, poolId))
      else SetUser(b, Pair(user, poolId), u.(emisIndex := "", emisAccrued := ""))
  }

  function DeleteEntry(b: Mirror, c: Change, key: EntryKey, seqNum: int): (d: Mirror)
    ensures !key.PositionsKey? ==> d.pending == b.pending
  {
    var id := c.contract;
    match key
    case ResConfigKey(asset) => DeleteReserve(b, c, asset, true, seqNum)
    case ResDataKey(asset) => DeleteReserve(b, c, asset, false, seqNum)
    case EmisConfigKey(token) => DeleteEmission(b, id, token, true)
    case EmisDataKey(token) => DeleteEmission(b, id, token, false)
    case PositionsKey(user) => DeletePositions(b, c, user, seqNum)
    case PoolBalanceKey(poolId) => MarkPool(b.(backstopPools := b.backstopPools - {Contract(poolId)}), poolId)
    case UserBalanceEntry(poolId, user) => DeleteUserBalance(b, poolId, user)
    case BEmisDataKey(poolId) => b.(backstopEmis := b.backstopEmis - {Contract(poolId)})
    case UEmisDataKey(poolId, user) => DeleteUserEmission(b, poolId, user)
    case AuctionEntry(user, auctionType) =>
      b.(auctions := b.auctions - {AuctionOf(id, user, auctionType)},
         dirtyTemporary := b.dirtyTemporary + {TemporaryAuction(id, user, auctionType)})
    case UserEmisKey(user, token) => b.(userEmis := b.userEmis - {EmissionOf(user, id, token)})
    case ResInitKey(asset) =>
      b.(queued := b.queued - {ReserveOf(id, asset)}, dirtyTemporary := b.dirtyTemporary + {TemporaryQueued(id, asset)})
    case _ => b
  }

  function ApplyDelete(cfg: Owned, b: Mirror, c: Change, key: EntryKey, seqNum: int): (d: Mirror)
    ensures (key.PositionsKey? && c.contract !in cfg.feeds && c.contract !in cfg.assets) || d.pending == b.pending
  {
    var id := c.contract;
    if id in cfg.feeds then ChangeFeed(b, id, FeedDelete(key))
    else if id in cfg.assets then
      if key == InstanceEntry then b.(assets := b.assets - {Contract(id)}) else b
    else if id in cfg.contracts && key.U128Key? then
      var index := OracleIndex(key.hi, key.lo);
      if index.None? || Contract(id) !in b.oracles then b
      else
        var o := b.oracles[Contract(id)];
        PutOracle(b, id, o.(priceByIndex := o.priceByIndex - {index.value}))
        .(changedPriceAssets := b.changedPriceAssets + AssetsAt(o, index.value))
    else if key == InstanceEntry then
      b.(aggregators := b.aggregators - {Contract(id)}, instances := b.instances - {Contract(id)})
    else if key.Symbol? then DeleteSymbol(b, id, key.name)
    else DeleteEntry(b, c, key, seqNum)
  }

  /** blendStateBuilder.apply */
  function Apply(cfg: Owned, b: Mirror, c: Change, seqNum: int): Mirror {
    if c.key.None? then b
    else if !IsLive(c, seqNum) then ApplyDelete(cfg, b, c, c.key.value, seqNum)
    else if c.payload.Undecodable? then b
    else if c.payload.Absent? then b
    else ApplyLive(cfg, b, c.contract, c.key.value, c.payload.value)
  }

  function ApplyAll(cfg: Owned, b: Mirror, changes: seq<Change>, seqNum: int): Mirror {
    if changes == [] then b
    else Apply(cfg, ApplyAll(cfg, b, changes[..|changes| - 1], seqNum), changes[|changes| - 1], seqNum)
  }

  // ---- prices ----------------------------------------------------------------------------------

  /** The pool asset a canonical key names, "" when it names none. */
  function StellarAsset(key: string): string {
    if |key| > 8 && key[..8] == "stellar:" then key[8..] else ""
  }

  function ConstantAssets(g: Aggregator): set<string> {
    (set k | k in g.baseAssets :: StellarAsset(k)) + {StellarAsset(g.baseKey)} - {""}
  }

  function ServedAssets(g: Aggregator): set<string> { g.assets.Keys + ConstantAssets(g) }

  /** resolveFeedPrice */
  function ResolvedPrice(b: Mirror, g: Aggregator, cfg: AssetConfig, closeTime: Option<int>): Option<int> {
    if cfg.oracleIndex !in g.feeds || g.feeds[cfg.oracleIndex].resolutionS <= 0 then None
    else
      var ref := g.feeds[cfg.oracleIndex];
      var f := FeedAt(b, ref.contract);
      if f.None? || cfg.feedAssetKey !in f.value.assetToIndex then None
      else FeedPrice(f.value, f.value.assetToIndex[cfg.feedAssetKey], ref, g.maxAgeS, cfg.maxDev, g.decimals, closeTime)
  }

  function AssetPrice(b: Mirror, g: Aggregator, asset: string, closeTime: Option<int>): Option<int> {
    if asset in ConstantAssets(g) then Some(if g.decimals >= 0 then Power10(g.decimals) else 1)
    else if asset in g.assets then ResolvedPrice(b, g, g.assets[asset], closeTime)
    else None
  }

  function SortedAssets(s: set<string>): seq<string> {
    var ks := Ascending(set a | a in s :: Contract(a));
    seq(|ks|, i requires 0 <= i < |ks| => if ks[i].Contract? then ks[i].id else "")
  }

  function IndexesFor(ids: seq<string>): map<string, int> {
    if ids == [] then map[] else IndexesFor(ids[..|ids| - 1])[ids[|ids| - 1] := |ids| - 1]
  }

  function PricesFor(b: Mirror, g: Aggregator, ids: seq<string>, closeTime: Option<int>): map<int, int> {
    if ids == [] then map[]
    else
      var m := PricesFor(b, g, ids[..|ids| - 1], closeTime);
      var p := AssetPrice(b, g, ids[|ids| - 1], closeTime);
      if p.Some? then m[|ids| - 1 := p.value] else m
  }

  function Synthesize(b: Mirror, a: AggregatorState, closeTime: Option<int>): Oracle {
    var ids := SortedAssets(ServedAssets(a.config));
    EnsureOracle(b, a.contract).(synthesized := true, decimals := a.config.decimals, assetToIndex := IndexesFor(ids),
                                 priceByIndex := PricesFor(b, a.config, ids, closeTime))
  }

  /** resolveAggregatorPrices */
  function ResolveAggregators(b: Mirror, closeTime: Option<int>): map<Key, Oracle> {
    b.oracles + map k | k in b.aggregators :: Synthesize(b, b.aggregators[k], closeTime)
  }

  function PriceReserve(o: Oracle, r: Reserve): Reserve {
    if r.asset !in o.assetToIndex then r
    else
      var i := o.assetToIndex[r.asset];
      if i in o.priceByIndex && o.priceByIndex[i] > 0
      then r.(price := Some(o.priceByIndex[i]), priceDecimals := o.decimals)
      else r.(price := None, priceDecimals := 0)
  }

  /** resolveOraclePrices on one pool. */
  function PricePool(oracles: map<Key, Oracle>, p: Pool): Pool {
    if Contract(p.info.oracle) !in oracles then p
    else p.(reserves := map k | k in p.reserves :: PriceReserve(oracles[Contract(p.info.oracle)], p.reserves[k]))
  }

  /** The pool loop of build and snapshot: price, finalize, merge the backstop balance and emission. */
  function BuildPool(b: Mirror, oracles: map<Key, Oracle>, p: Pool): Pool {
    var q := Finalize(PricePool(oracles, p));
    var k := Contract(p.info.contract);
    q.(info := q.info.(balance := if k in b.backstopPools then b.backstopPools[k] else q.info.balance,
                       emis := if k in b.backstopEmis then b.backstopEmis[k] else NO_EMIS))
  }

  function PricedPools(b: Mirror, oracles: map<Key, Oracle>): map<Key, Pool> {
    map k | k in b.pools :: BuildPool(b, oracles, b.pools[k])
  }

  function TrimmedFeeds(feeds: map<Key, FeedState>): map<Key, FeedState> {
    map k | k in feeds :: feeds[k].(feed := Trim(feeds[k].feed))
  }

  /** The mirror as build leaves it: prices resolved, pools finalized and merged, feeds trimmed. */
  function Built(b: Mirror, closeTime: Option<int>): Mirror {
    var oracles := ResolveAggregators(b, closeTime);
    b.(oracles := oracles, pools := PricedPools(b, oracles), feeds := TrimmedFeeds(b.feeds))
  }

  // ---- the typed ledger state ------------------------------------------------------------------

  datatype Price = Price(raw: int, decimals: int)

  datatype BackstopRow = BackstopRow(balance: UserBalance, poolShares: string, poolTokens: string,
                                     blndPrice: Option<Price>, usdcPrice: Option<Price>)

  function BackstopRowKey(r: BackstopRow): Key { UserBalanceKey(r.balance) }

  datatype LedgerState = LedgerState(
    pools: seq<PoolState>, users: seq<Row>, backstops: seq<BackstopRow>, pending: seq<Pending>, oracles: seq<Oracle>,
    feeds: seq<FeedState>, aggregators: seq<AggregatorState>, assets: seq<Asset>, auctions: seq<Auction>,
    userEmissions: seq<UserEmission>, queued: seq<QueuedReserve>, instances: seq<BackstopInstance>)

  /** tokenPriceUSD: the first pool, in contract order, holding a priced reserve of the token. */
  function TokenPrice(pools: map<Key, Pool>, order: seq<Key>, asset: string): Option<Price> {
    if order == [] || asset == "" then None
    else if order[0] in pools && Contract(asset) in pools[order[0]].reserves
            && pools[order[0]].reserves[Contract(asset)].price.Some?
            && pools[order[0]].reserves[Contract(asset)].price.value > 0
    then
      var r := pools[order[0]].reserves[Contract(asset)];
      Some(Price(r.price.value, r.priceDecimals))
    else TokenPrice(pools, order[1..], asset)
  }

  /** backstopPosition */
  function BackstopPosition(b: Mirror, u: UserBalance): (r: BackstopRow)
    ensures r.balance == u
  {
    var k := Contract(u.pool);
    var balance := if k in b.backstopPools then b.backstopPools[k] else Balance("", "", "");
    var order := Ascending(b.pools.Keys);
    if k in b.pools && b.pools[k].info.backstop != "" && Contract(b.pools[k].info.backstop) in b.instances then
      var i := b.instances[Contract(b.pools[k].info.backstop)];
      BackstopRow(u, balance.shares, balance.tokens, TokenPrice(b.pools, order, i.blnd), TokenPrice(b.pools, order, i.usdc))
    else BackstopRow(u, balance.shares, balance.tokens, None, None)
  }

  /** The components build and snapshot assemble with the same statements, from a built mirror. */
  function Publish(b: Mirror, users: seq<Row>, pending: seq<Pending>): LedgerState {
    LedgerState(
      Slice(map k | k in b.pools :: PublishPool(b.pools[k])),
      users,
      Slice(map k | k in b.backstopUsers :: BackstopPosition(b, b.backstopUsers[k])),
      pending,
      Slice(map k | k in b.oracles && !b.oracles[k].synthesized :: b.oracles[k]),
      Slice(b.feeds), Slice(b.aggregators), Slice(b.assets), Slice(b.auctions), Slice(b.userEmis), Slice(b.queued),
      Slice(b.instances))
  }

  // ---- loading ---------------------------------------------------------------------------------

  function PoolOf(s: PoolState): Option<Pool> { Some(LoadPool(s)) }
  function BalanceOf(s: PoolState): Option<Balance> { if s.info.balance.Empty() then None else Some(s.info.balance) }
  function EmisOf(s: PoolState): Option<Emis> { if s.info.emis.Empty() then None else Some(s.info.emis) }
  function PendingOf(p: Pending): Option<Pending> { if p.blob.Some? then Some(p) else None }
  function UserOf(r: BackstopRow): Option<UserBalance> { Some(r.balance) }
  function OracleOf(o: Oracle): Option<Oracle> { Some(o.(synthesized := false)) }
  function Keep<T>(x: T): Option<T> { Some(x) }

  /** loadPrior */
  function Load(s: LedgerState): Mirror {
    Mirror(
      Collect(s.pools, PoolKey, PoolOf), Collect(s.pending, PendingKey, PendingOf), Collect(s.pools, PoolKey, BalanceOf),
      Collect(s.backstops, BackstopRowKey, UserOf), Collect(s.pools, PoolKey, EmisOf),
      Collect(s.auctions, AuctionKey, Keep<Auction>), Collect(s.userEmissions, UserEmissionKey, Keep<UserEmission>),
      Collect(s.queued, QueuedKey, Keep<QueuedReserve>), Collect(s.instances, InstanceKeyOf, Keep<BackstopInstance>),
      Collect(s.oracles, OracleKey, OracleOf), Collect(s.feeds, FeedKey, Keep<FeedState>),
      Collect(s.aggregators, AggregatorKey, Keep<AggregatorState>), Collect(s.assets, AssetKey, Keep<Asset>),
      {}, {}, {}, {}, {})
  }

  // ---- normalizing the carried mirror ----------------------------------------------------------

  function DecodedOracles(oracles: map<Key, Oracle>): map<Key, Oracle> {
    map k | k in oracles && !oracles[k].synthesized :: oracles[k]
  }

  function CarriedBalances(pools: map<Key, Pool>): map<Key, Balance> {
    map k | k in pools && !pools[k].info.balance.Empty() :: pools[k].info.balance
  }

  function CarriedEmissions(pools: map<Key, Pool>): map<Key, Emis> {
    map k | k in pools && !pools[k].info.emis.Empty() :: pools[k].info.emis
  }

  /** normalizeCarry: reproduce on the live mirror what a build and a reload would lose. */
  function NormalizeCarry(b: Mirror): Mirror {
    b.(oracles := DecodedOracles(b.oracles),
       backstopPools := CarriedBalances(b.pools),
       backstopEmis := CarriedEmissions(b.pools),
       dirtyUsers := {}, dirtyTemporary := {}, dirtyBackstops := {}, changedFeeds := {}, changedPriceAssets := {})
  }
}
