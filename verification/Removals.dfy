/** What a removal, a lapse or an eviction takes away, and what it keeps. */
module Removals {
  import opened Options
  import opened Keys
  import opened Slices
  import opened Reserves
  import opened Reflector
  import opened Mirror
  import opened Carry
  import opened Reference
  import opened Confinement
  import opened LastWrites
  import Run

  /** The change is not live at the ledger: removed, without a value, or past its life. */
  predicate IsRemoval(c: Change, seqNum: int, key: EntryKey) {
    && c.key == Some(key)
    && (!c.live || c.payload.Absent? || (c.liveUntil.Some? && c.liveUntil.value < seqNum))
  }

  /** An explicit removal drops a position; a lapse keeps it as archived, with the value it carries or the one it had. */
  predicate PositionGone(b: Mirror, d: Mirror, c: Change, seqNum: int, user: string) {
    var k := Pair(user, c.contract);
    if c.removed || (c.payload.Absent? && k !in b.pending) then k !in d.pending
    else
      && k in d.pending
      && var p := d.pending[k];
         && p.user == user && p.pool == c.contract && p.archived && p.archivedSeq == seqNum
         && (c.payload.Decoded? && c.payload.value.PositionsOf? ==> p.blob == Some(c.payload.value.positions))
         && (!c.payload.Decoded? ==> p.blob == if k in b.pending then b.pending[k].blob else None)
  }

  /** A holder loses the entry's half and stays while the other half says something. */
  predicate SharesGone(b: Mirror, d: Mirror, k: Key) {
    if k in b.backstopUsers && (b.backstopUsers[k].emisIndex != "" || b.backstopUsers[k].emisAccrued != "") then
      && k in d.backstopUsers && d.backstopUsers[k].shares == "" && d.backstopUsers[k].q4w == []
      && d.backstopUsers[k].emisIndex == b.backstopUsers[k].emisIndex
      && d.backstopUsers[k].emisAccrued == b.backstopUsers[k].emisAccrued
    else k !in d.backstopUsers
  }

  predicate AccrualGone(b: Mirror, d: Mirror, k: Key) {
    if k in b.backstopUsers && (b.backstopUsers[k].shares != "" || b.backstopUsers[k].q4w != []) then
      && k in d.backstopUsers && d.backstopUsers[k].emisIndex == "" && d.backstopUsers[k].emisAccrued == ""
      && d.backstopUsers[k].shares == b.backstopUsers[k].shares && d.backstopUsers[k].q4w == b.backstopUsers[k].q4w
    else k !in d.backstopUsers
  }

  /** An explicit removal drops a reserve; a lapse archives it. A pool that is not there stays away. */
  predicate ReserveGone(b: Mirror, d: Mirror, c: Change, seqNum: int, asset: string) {
    var k := Contract(c.contract);
    if k !in b.pools then k !in d.pools
    else
      && k in d.pools
      && if c.removed then Contract(asset) !in d.pools[k].reserves
         else Contract(asset) in d.pools[k].reserves && d.pools[k].reserves[Contract(asset)].archived
              && d.pools[k].reserves[Contract(asset)].archivedSeq == seqNum
  }

  predicate SymbolGone(b: Mirror, d: Mirror, id: string, name: SymbolName) {
    var k := Contract(id);
    match name
    case Config => k !in d.pools
    case ResList => k !in d.pools
    case Backstop => k in b.pools ==> k in d.pools && d.pools[k].info.backstop == ""
    case PoolEmis => k in b.pools ==> k in d.pools && d.pools[k].info.emissions == None
    case RewardZone => k in b.instances ==> k in d.instances && d.instances[k].rewardZone == []
    case DropList => k in b.instances ==> k in d.instances && d.instances[k].dropList == []
    case Timestamp => k in b.oracles ==> k in d.oracles && d.oracles[k].lastTimestamp == None
    case OtherSymbol => true
  }

  predicate Gone(b: Mirror, d: Mirror, owned: bool, c: Change, seqNum: int, key: EntryKey) {
    var id, k := c.contract, Contract(c.contract);
    match key
    case PositionsKey(user) => PositionGone(b, d, c, seqNum, user)
    case AuctionEntry(user, t) => AuctionOf(id, user, t) !in d.auctions
    case UserEmisKey(user, token) => EmissionOf(user, id, token) !in d.userEmis
    case ResInitKey(asset) => ReserveOf(id, asset) !in d.queued
    case PoolBalanceKey(poolId) => Contract(poolId) !in d.backstopPools
    case BEmisDataKey(poolId) => Contract(poolId) !in d.backstopEmis
    case UserBalanceEntry(poolId, user) => SharesGone(b, d, Pair(user, poolId))
    case UEmisDataKey(poolId, user) => AccrualGone(b, d, Pair(user, poolId))
    case ResConfigKey(asset) => ReserveGone(b, d, c, seqNum, asset)
    case ResDataKey(asset) => ReserveGone(b, d, c, seqNum, asset)
    case InstanceEntry => k !in d.aggregators && k !in d.instances
    case Symbol(name) => SymbolGone(b, d, id, name)
    case U128Key(hi, lo) =>
      owned && hi == 0 && lo < 0x8000_0000_0000_0000 && k in d.oracles ==> lo !in d.oracles[k].priceByIndex
    case _ => true
  }

  lemma PositionDropped(b: Mirror, c: Change, seqNum: int, user: string)
    ensures PositionGone(b, DeletePositions(b, c, user, seqNum), c, seqNum, user)
  {
  }

  lemma Dropped(b: Mirror, k: Key)
    ensures k !in DropUser(b, k).backstopUsers
  {
  }

  lemma Stored(b: Mirror, k: Key, u: UserBalance)
    ensures k in SetUser(b, k, u).backstopUsers && SetUser(b, k, u).backstopUsers[k] == u
  {
  }

  lemma SharesDropped(b: Mirror, poolId: string, user: string)
    ensures SharesGone(b, DeleteUserBalance(b, poolId, user), Pair(user, poolId))
  {
    hide DropUser, SetUser;
    var k, u := Pair(user, poolId), EnsureUser(b, poolId, user);
    Dropped(b, k);
    Stored(b, k, u.(shares := "", q4w := []));
  }

  lemma AccrualDropped(b: Mirror, poolId: string, user: string)
    ensures AccrualGone(b, DeleteUserEmission(b, poolId, user), Pair(user, poolId))
  {
    hide DropUser, SetUser;
    var k := Pair(user, poolId);
    Dropped(b, k);
    if k in b.backstopUsers { Stored(b, k, b.backstopUsers[k].(emisIndex := "", emisAccrued := "")); }
  }

  lemma ReserveDropped(b: Mirror, c: Change, seqNum: int, asset: string, isConfig: bool)
    ensures ReserveGone(b, DeleteReserve(b, c, asset, isConfig, seqNum), c, seqNum, asset)
  {
    hide Published, Ambiguous, Unknown, ReserveSlice, ReserveWith, EnsureReserve;
  }

  lemma Put(b: Mirror, id: string, p: Pool, i: BackstopInstance, o: Oracle)
    ensures var k := Contract(id);
      && k in PutPool(b, id, p).pools && PutPool(b, id, p).pools[k] == p && k !in b.(pools := b.pools - {k}).pools
      && k in PutInstance(b, id, i).instances && PutInstance(b, id, i).instances[k] == i
      && k in PutOracle(b, id, o).oracles && PutOracle(b, id, o).oracles[k] == o
  {
  }

  lemma SymbolDropped(b: Mirror, id: string, name: SymbolName)
    ensures SymbolGone(b, DeleteSymbol(b, id, name), id, name)
  {
    hide PutPool, PutInstance, PutOracle;
    var k, p, i, o := Contract(id), EnsurePool(b, id), EnsureInstance(b, id), EnsureOracle(b, id);
    Put(b, id, if name == Backstop then p.(info := p.info.(backstop := "")) else p.(info := p.info.(emissions := None)),
        if name == RewardZone then i.(rewardZone := []) else i.(dropList := []), o.(lastTimestamp := None));
  }

  lemma EntryDropped(b: Mirror, c: Change, seqNum: int, key: EntryKey, owned: bool)
    requires !key.Symbol? && key != InstanceEntry && !key.U128Key?
    ensures Gone(b, DeleteEntry(b, c, key, seqNum), owned, c, seqNum, key)
  {
    hide DeletePositions, DeleteUserBalance, DeleteUserEmission, DeleteReserve, DeleteEmission, Holders, PositionGone,
      SharesGone, AccrualGone, ReserveGone;
    match key
    case PositionsKey(user) => PositionDropped(b, c, seqNum, user);
    case UserBalanceEntry(poolId, user) => SharesDropped(b, poolId, user);
    case UEmisDataKey(poolId, user) => AccrualDropped(b, poolId, user);
    case ResConfigKey(asset) => ReserveDropped(b, c, seqNum, asset, true);
    case ResDataKey(asset) => ReserveDropped(b, c, seqNum, asset, false);
    case _ =>
  }

  /** Every removal takes away what its key names and keeps what it should. */
  lemma RemovalTakesEffect(cfg: Owned, b: Mirror, c: Change, seqNum: int, key: EntryKey)
    requires IsRemoval(c, seqNum, key) && c.contract !in cfg.feeds && c.contract !in cfg.assets
    ensures Gone(b, Apply(cfg, b, c, seqNum), c.contract in cfg.contracts, c, seqNum, key)
  {
    hide ApplyDelete, ApplyLive, Gone;
    assert Apply(cfg, b, c, seqNum) == ApplyDelete(cfg, b, c, key, seqNum);
    hide Apply;
    DeleteTakesEffect(cfg, b, c, seqNum, key);
  }

  lemma DeleteTakesEffect(cfg: Owned, b: Mirror, c: Change, seqNum: int, key: EntryKey)
    requires c.contract !in cfg.feeds && c.contract !in cfg.assets
    ensures Gone(b, ApplyDelete(cfg, b, c, key, seqNum), c.contract in cfg.contracts, c, seqNum, key)
  {
    if key.Symbol? {
      hide DeleteSymbol, SymbolGone;
      SymbolDropped(b, c.contract, key.name);
    } else if key != InstanceEntry && !key.U128Key? {
      hide DeleteEntry, Gone;
      EntryDropped(b, c, seqNum, key, c.contract in cfg.contracts);
    } else {
      hide DeleteEntry, AssetsAt;
    }
  }

  // ---- a removed entry stays away --------------------------------------------------------------

  /** The mirror has no record of an entry filed under its own key. */
  predicate Missing(d: Mirror, id: string, key: EntryKey) {
    match key
    case PositionsKey(user) => Pair(user, id) !in d.pending
    case AuctionEntry(user, t) => AuctionOf(id, user, t) !in d.auctions
    case UserEmisKey(user, token) => EmissionOf(user, id, token) !in d.userEmis
    case ResInitKey(asset) => ReserveOf(id, asset) !in d.queued
    case BEmisDataKey(poolId) => Contract(poolId) !in d.backstopEmis
    case _ => true
  }

  predicate OwnKeyed(key: EntryKey) {
    key.PositionsKey? || key.AuctionEntry? || key.UserEmisKey? || key.ResInitKey? || key.BEmisDataKey?
  }

  /** The change is of the same entry; the backstop's is the same whichever contract it comes from. */
  predicate SameEntry(c: Change, id: string, key: EntryKey) { c.key == Some(key) && (key.BEmisDataKey? || c.contract == id) }

  lemma StaysMissing(cfg: Owned, b: Mirror, c: Change, seqNum: int, id: string, key: EntryKey)
    requires Missing(b, id, key) && !SameEntry(c, id, key)
    ensures Missing(Apply(cfg, b, c, seqNum), id, key)
  {
    hide Apply;
    EveryChangeIsConfined(cfg, b, c, seqNum);
    if c.key.Some? {
      var d := Apply(cfg, b, c, seqNum);
      match key
      case PositionsKey(user) => assert SameAt(b.pending, d.pending, Pair(user, id));
      case AuctionEntry(user, t) => assert SameAt(b.auctions, d.auctions, AuctionOf(id, user, t));
      case UserEmisKey(user, token) => assert SameAt(b.userEmis, d.userEmis, EmissionOf(user, id, token));
      case ResInitKey(asset) => assert SameAt(b.queued, d.queued, ReserveOf(id, asset));
      case BEmisDataKey(poolId) => assert SameAt(b.backstopEmis, d.backstopEmis, Contract(poolId));
      case _ =>
    }
  }

  /** The published state lists no record of the entry. */
  predicate Unlisted(s: LedgerState, id: string, key: EntryKey) {
    match key
    case PositionsKey(user) => forall p <- s.pending :: p.user != user || p.pool != id
    case AuctionEntry(user, t) => forall a <- s.auctions :: AuctionKey(a) != AuctionOf(id, user, t)
    case UserEmisKey(user, token) => forall e <- s.userEmissions :: UserEmissionKey(e) != EmissionOf(user, id, token)
    case ResInitKey(asset) => forall q <- s.queued :: QueuedKey(q) != ReserveOf(id, asset)
    case BEmisDataKey(poolId) => forall p <- s.pools :: p.info.contract == poolId ==> p.info.emis == Emis("", "", "", "")
    case _ => true
  }

  lemma {:induction false} LastRemovalHolds(cfg: Owned, b: Mirror, changes: seq<Change>, n: nat, seqNum: int, key: EntryKey)
    requires n < |changes| && IsRemoval(changes[n], seqNum, key) && OwnKeyed(key) && (key.PositionsKey? ==> changes[n].removed)
    requires changes[n].contract !in cfg.feeds && changes[n].contract !in cfg.assets
    requires forall m :: n < m < |changes| ==> !SameEntry(changes[m], changes[n].contract, key)
    ensures Missing(ApplyAll(cfg, b, changes, seqNum), changes[n].contract, key)
    decreases |changes|
  {
    hide Apply, IsRemoval;
    var init, last := changes[..|changes| - 1], changes[|changes| - 1];
    if n == |init| {
      RemovalTakesEffect(cfg, ApplyAll(cfg, b, init, seqNum), last, seqNum, key);
    } else {
      assert init[n] == changes[n];
      assert forall m :: n < m < |init| ==> init[m] == changes[m];
      LastRemovalHolds(cfg, b, init, n, seqNum, key);
      StaysMissing(cfg, ApplyAll(cfg, b, init, seqNum), last, seqNum, changes[n].contract, key);
    }
  }

  lemma PublishedSlices(b: Mirror, closeTime: Option<int>)
    ensures var s := PublishAll(Built(b, closeTime));
      && s.pending == Slice(b.pending) && s.auctions == Slice(b.auctions)
      && s.userEmissions == Slice(b.userEmis) && s.queued == Slice(b.queued)
  {
    hide Slice, Users, PricedPools, ResolveAggregators, TrimmedFeeds;
  }

  lemma NoEmissions(b: Mirror, closeTime: Option<int>, poolId: string)
    requires Coherent(b) && Contract(poolId) !in b.backstopEmis
    ensures forall p <- PublishAll(Built(b, closeTime)).pools :: p.info.contract == poolId ==> p.info.emis == Emis("", "", "", "")
  {
    hide Built, PublishAll, Coherent;
    forall p | p in PublishAll(Built(b, closeTime)).pools && p.info.contract == poolId ensures p.info.emis == Emis("", "", "", "") {
      BackstopPublished(b, closeTime, p);
    }
  }

  lemma CoherentSlices(b: Mirror)
    requires Coherent(b)
    ensures KeyedBy(b.pending, PendingKey) && KeyedBy(b.auctions, AuctionKey)
    ensures KeyedBy(b.userEmis, UserEmissionKey) && KeyedBy(b.queued, QueuedKey)
  {
    hide KeyedBy, PoolsOk, NoneSynthesized, PairsOnly;
  }

  lemma PositionUnlisted(b: Mirror, s: LedgerState, id: string, user: string)
    requires Missing(b, id, PositionsKey(user)) && KeyedBy(b.pending, PendingKey) && s.pending == Slice(b.pending)
    ensures Unlisted(s, id, PositionsKey(user))
  {
    hide Slice, KeyedBy;
    NoneKeyed(b.pending, PendingKey, Pair(user, id));
  }

  lemma AuctionUnlisted(b: Mirror, s: LedgerState, id: string, user: string, t: int)
    requires Missing(b, id, AuctionEntry(user, t)) && KeyedBy(b.auctions, AuctionKey) && s.auctions == Slice(b.auctions)
    ensures Unlisted(s, id, AuctionEntry(user, t))
  {
    hide Slice, KeyedBy;
    NoneKeyed(b.auctions, AuctionKey, AuctionOf(id, user, t));
  }

  lemma EmissionUnlisted(b: Mirror, s: LedgerState, id: string, user: string, token: int)
    requires Missing(b, id, UserEmisKey(user, token)) && KeyedBy(b.userEmis, UserEmissionKey) && s.userEmissions == Slice(b.userEmis)
    ensures Unlisted(s, id, UserEmisKey(user, token))
  {
    hide Slice, KeyedBy;
    NoneKeyed(b.userEmis, UserEmissionKey, EmissionOf(user, id, token));
  }

  lemma QueuedUnlisted(b: Mirror, s: LedgerState, id: string, asset: string)
    requires Missing(b, id, ResInitKey(asset)) && KeyedBy(b.queued, QueuedKey) && s.queued == Slice(b.queued)
    ensures Unlisted(s, id, ResInitKey(asset))
  {
    hide Slice, KeyedBy;
    NoneKeyed(b.queued, QueuedKey, ReserveOf(id, asset));
  }

  lemma MissingUnlisted(b: Mirror, closeTime: Option<int>, id: string, key: EntryKey)
    requires Coherent(b) && Missing(b, id, key) && OwnKeyed(key)
    ensures Unlisted(PublishAll(Built(b, closeTime)), id, key)
  {
    PublishedSlices(b, closeTime);
    CoherentSlices(b);
    var s := PublishAll(Built(b, closeTime));
    hide Slice, Built, PublishAll, Coherent, KeyedBy;
    if key.BEmisDataKey? {
      NoEmissions(b, closeTime, key.poolId);
    } else {
      hide Unlisted, Missing;
      match key
      case PositionsKey(user) => PositionUnlisted(b, s, id, user);
      case AuctionEntry(user, t) => AuctionUnlisted(b, s, id, user, t);
      case UserEmisKey(user, token) => EmissionUnlisted(b, s, id, user, token);
      case ResInitKey(asset) => QueuedUnlisted(b, s, id, asset);
    }
  }

  /** A position that is explicitly removed, or an auction, emission or queued reserve that is removed or lapses, and is not
      written again, is not in the ledger's state; nor are a pool's backstop emissions. */
  lemma LastRemovalShows(cfg: Owned, prior: Option<LedgerState>, changes: seq<Change>, n: nat, seqNum: int,
                         closeTime: Option<int>, key: EntryKey)
    requires prior.Some? ==> WellFormed(prior.value)
    requires n < |changes| && IsRemoval(changes[n], seqNum, key) && OwnKeyed(key) && (key.PositionsKey? ==> changes[n].removed)
    requires changes[n].contract !in cfg.feeds && changes[n].contract !in cfg.assets
    requires forall m :: n < m < |changes| ==> !SameEntry(changes[m], changes[n].contract, key)
    ensures Unlisted(Decode(cfg, prior, changes, seqNum, closeTime).state, changes[n].contract, key)
  {
    hide WellFormed, Decode, ApplyAll, LoadPrior, Built, PublishAll, Coherent, Missing, Unlisted, IsRemoval;
    LastRemovalHolds(cfg, LoadPrior(prior), changes, n, seqNum, key);
    Run.ReferenceState(cfg, prior, changes, seqNum, closeTime);
    MissingUnlisted(ApplyAll(cfg, LoadPrior(prior), changes, seqNum), closeTime, changes[n].contract, key);
  }
}
