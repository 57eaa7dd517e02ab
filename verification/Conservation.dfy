/** Leg conservation end to end: what becomes of every leg of a touched position in the outcome of a ledger. */
module Conservation {
  import opened Options
  import opened Keys
  import opened Slices
  import opened Blocks
  import opened Reserves
  import opened Mirror
  import opened Carry
  import opened Reference
  import opened Cache
  import Run

  const KINDS := {SUPPLY, COLLATERAL, LIABILITY}

  /** The three leg maps of a position. */
  function LegsOf(p: Positions, kind: string): seq<Leg> {
    if kind == SUPPLY then p.supply else if kind == COLLATERAL then p.collateral else p.liabilities
  }

  lemma KindsDiffer()
    ensures SUPPLY != COLLATERAL && SUPPLY != LIABILITY && COLLATERAL != LIABILITY
  {
    assert SUPPLY[0] == 's' && COLLATERAL[0] == 'c' && LIABILITY[0] == 'l';
  }

  function AllNonZero(p: Positions): nat { NonZero(p.supply) + NonZero(p.collateral) + NonZero(p.liabilities) }

  // ---- one entry -------------------------------------------------------------------------------

  /** A leg is found among the rows of its own map and among the diagnostics of its own map only. */
  lemma LegOfEntry(pool: Pool, p: Pending, kind: string, n: int, leg: Leg)
    requires Fresh(pool) && KeyedBy(pool.reserves, ReserveKey)
    requires p.blob.Some? && kind in KINDS && leg in LegsOf(p.blob.value, kind) && leg.amount != "0"
    ensures leg.index in pool.byIndex ==>
              && RowFor(pool.byIndex[leg.index], p, leg, kind) in UserRows(pool.byIndex, p)
              && forall d <- UserDiagnostics(pool, p, n) :: !(d.kind == kind && d.index == leg.index)
    ensures leg.index !in pool.byIndex ==> DiagnosticFor(pool, p, leg, kind, n) in UserDiagnostics(pool, p, n)
  {
    hide LegRows, LegDiagnostics, Fresh, KeyedBy, ClaimedBy;
    var legs := LegsOf(p.blob.value, kind);
    KindsDiffer();
    LegConservation(pool, p, legs, kind, n, leg);
    LegDiagnosticsOwn(pool, p, p.blob.value.supply, SUPPLY, n);
    LegDiagnosticsOwn(pool, p, p.blob.value.collateral, COLLATERAL, n);
    LegDiagnosticsOwn(pool, p, p.blob.value.liabilities, LIABILITY, n);
    if leg.index in pool.byIndex {
      var r := RowFor(pool.byIndex[leg.index], p, leg, kind);
      assert r in LegRows(pool.byIndex, p, legs, kind);
    } else {
      assert DiagnosticFor(pool, p, leg, kind, n) in LegDiagnostics(pool, p, legs, kind, n);
    }
  }

  lemma EntryCount(pool: Pool, p: Pending, n: int)
    requires p.blob.Some?
    ensures |UserRows(pool.byIndex, p)| + |UserDiagnostics(pool, p, n)| == AllNonZero(p.blob.value)
  {
    hide LegRows, LegDiagnostics, NonZero;
    LegCount(pool, p, p.blob.value.supply, SUPPLY, n);
    LegCount(pool, p, p.blob.value.collateral, COLLATERAL, n);
    LegCount(pool, p, p.blob.value.liabilities, LIABILITY, n);
  }

  // ---- the sorted lists of a ledger ------------------------------------------------------------

  lemma {:induction false} RowsOfCount<V>(rows: seq<V>, ownerOf: V -> Key, k: Key, v: V)
    ensures multiset(RowsOf(rows, ownerOf, k))[v] == if ownerOf(v) == k then multiset(rows)[v] else 0
  {
    if rows != [] {
      var init, last := rows[..|rows| - 1], rows[|rows| - 1];
      assert rows == init + [last];
      RowsOfCount(init, ownerOf, k, v);
    }
  }

  lemma SameCounts<V(!new)>(x: multiset<V>, y: multiset<V>)
    requires forall v :: x[v] == y[v]
    ensures x == y
  {
  }

  lemma RowsOfRearranged<V(!new)>(a: seq<V>, b: seq<V>, ownerOf: V -> Key, k: Key)
    requires multiset(a) == multiset(b)
    ensures multiset(RowsOf(a, ownerOf, k)) == multiset(RowsOf(b, ownerOf, k))
  {
    hide RowsOf;
    var x, y := multiset(RowsOf(a, ownerOf, k)), multiset(RowsOf(b, ownerOf, k));
    forall v: V ensures x[v] == y[v] {
      RowsOfCount(a, ownerOf, k, v);
      RowsOfCount(b, ownerOf, k, v);
    }
    SameCounts(x, y);
  }

  lemma {:induction false} FlattenHas<V>(ks: seq<Key>, blocks: map<Key, seq<V>>, k: Key, v: V)
    requires k in ks && v in BlockAt(blocks, k)
    ensures v in Flatten(ks, blocks)
  {
    var init, last := ks[..|ks| - 1], ks[|ks| - 1];
    assert ks == init + [last];
    if k in init { FlattenHas(init, blocks, k, v); }
  }

  /** The rows of one pair among all rows. */
  lemma PairRows(c: Mirror, k: Key)
    requires Resolved(c)
    ensures DistinctKeys(Users(c), RowKey)
    ensures forall r <- RowBlock(c, k) :: r in Users(c)
    ensures |RowsOf(Users(c), RowOwner, k)| == |RowBlock(c, k)|
  {
    hide RowBlock, Resolved, SortedBlock;
    GatheredDistinct(c);
    var rows := Flatten(Ascending(c.pending.Keys), RowBlocks(c));
    DistinctRearranged(rows, Users(c), RowKey);
    SameElements(rows, Users(c));
    ScanUsers(c, k);
    SortedPair(c, k);
    forall r | r in RowBlock(c, k) ensures r in Users(c) {
      EmptyPair(c, k);
      FlattenHas(Ascending(c.pending.Keys), RowBlocks(c), k, r);
    }
  }

  lemma EmptyPair(c: Mirror, k: Key)
    ensures RowBlock(c, k) != [] ==> k in c.pending
    ensures k in c.pending ==> BlockAt(RowBlocks(c), k) == RowBlock(c, k)
  {
  }

  lemma SortedPair(c: Mirror, k: Key)
    ensures |SortedBlock(c, k)| == |RowBlock(c, k)|
    ensures k !in c.pending ==> RowBlock(c, k) == []
  {
    hide SortBy;
    SameElements(SortBy(RowBlock(c, k), RowKey), RowBlock(c, k));
  }

  /** The diagnostics of one touched pair among all diagnostics. */
  lemma PairDiagnostics(c: Mirror, dirty: set<Key>, n: int, k: Key)
    requires KeyedBy(c.pending, PendingKey) && k in c.pending && k in dirty
    ensures DistinctKeys(Diagnostics(c, dirty, n), DiagnosticKey)
    ensures forall d <- DiagnosticBlock(c, k, n) :: d in Diagnostics(c, dirty, n)
    ensures forall d <- Diagnostics(c, dirty, n) :: DiagnosticOwner(d) == k ==> d in DiagnosticBlock(c, k, n)
    ensures |RowsOf(Diagnostics(c, dirty, n), DiagnosticOwner, k)| == |DiagnosticBlock(c, k, n)|
  {
    hide DiagnosticBlock, SortBy, OwnedBy, DistinctKeys, KeyedBy, Flatten, RowsOf, DiagnosticKey;
    var ks, blocks := Ascending(dirty), DiagnosticBlocks(c, dirty, n);
    var gathered, all := Flatten(ks, blocks), Diagnostics(c, dirty, n);
    DiagnosticBlocksFacts(c, dirty, n);
    DiagnosticOwners();
    FlattenDistinct(ks, blocks, DiagnosticOwner, DiagnosticKey);
    DistinctRearranged(gathered, all, DiagnosticKey);
    SameElements(gathered, all);
    RowsOfRearranged(gathered, all, DiagnosticOwner, k);
    SameElements(RowsOf(gathered, DiagnosticOwner, k), RowsOf(all, DiagnosticOwner, k));
    ScanFindsBlock(ks, blocks, DiagnosticOwner, k);
    assert BlockAt(blocks, k) == DiagnosticBlock(c, k, n);
    FlattenFrom(ks, blocks, DiagnosticOwner);
    forall d | d in DiagnosticBlock(c, k, n) ensures d in all {
      FlattenHas(ks, blocks, k, d);
    }
  }

  lemma DiagnosticOwners()
    ensures forall v: Diagnostic, w: Diagnostic ::
              DiagnosticKey(v) == DiagnosticKey(w) ==> DiagnosticOwner(v) == DiagnosticOwner(w)
  {
  }

  // ---- one ledger ------------------------------------------------------------------------------

  /** A pending entry and a pool of a published state are those of the mirror behind it. */
  lemma PublishedEntry(c: Mirror, p: Pending, s: PoolState)
    requires Resolved(c) && p in Slice(c.pending)
    requires s in Slice(map k | k in c.pools :: PublishPool(c.pools[k])) && s.info.contract == p.pool
    ensures var k, id := PendingKey(p), Contract(p.pool);
            && k in c.pending && c.pending[k] == p
            && id in c.pools && PoolOk(id, c.pools[id]) && LoadPool(s) == c.pools[id]
            && Published(s.reserves) == c.pools[id].byIndex && Ambiguous(s.reserves) == c.pools[id].ambiguous
            && Unknown(s.reserves) == c.pools[id].unknown && DistinctKeys(s.reserves, ReserveKey)
  {
    hide DistinctKeys, Ambiguous, Unknown, Published;
    hide Slice, LoadPool, PublishPool, KeyedBy, Fresh;
    InSlice(c.pending, p);
    var k :| k in c.pending && c.pending[k] == p;
    KeyOf(c.pending, PendingKey, k);
    var published := map k | k in c.pools :: PublishPool(c.pools[k]);
    InSlice(published, s);
    var id :| id in published && published[id] == s;
    PublishedPool(id, c.pools[id]);
  }

  lemma KeyOf<V>(m: map<Key, V>, keyOf: V -> Key, k: Key)
    requires KeyedBy(m, keyOf) && k in m
    ensures keyOf(m[k]) == k
  {
  }

  lemma PublishedPool(id: Key, p: Pool)
    requires PoolOk(id, p)
    ensures id == Contract(PublishPool(p).info.contract)
    ensures LoadPool(PublishPool(p)) == p && Published(PublishPool(p).reserves) == p.byIndex
    ensures Ambiguous(PublishPool(p).reserves) == p.ambiguous && Unknown(PublishPool(p).reserves) == p.unknown
    ensures DistinctKeys(PublishPool(p).reserves, ReserveKey)
  {
    PoolRoundTrip(p);
    ReserveSliceFacts(p.reserves);
  }

  /** A row or diagnostic that is listed and whose key is unique is listed once. */
  lemma ListedOnce<V>(rows: seq<V>, keyOf: V -> Key, v: V)
    requires DistinctKeys(rows, keyOf) && v in rows
    ensures multiset(rows)[v] == 1
  {
    DistinctCounts(rows, keyOf, v);
  }

  /** Every non-zero leg of a touched position whose pool is known is, in the outcome of the ledger, exactly one row at the
      one asset its index is published for, or, when the index is published for none, exactly one diagnostic. The rows
      and diagnostics of the pair are those and no more. */
  lemma EveryLegAccountedFor(cfg: Owned, prior: Option<LedgerState>, changes: seq<Change>, seqNum: int,
                             closeTime: Option<int>, o: Outcome, p: Pending, s: PoolState, kind: string, leg: Leg)
    requires Decodes(o, cfg, prior, changes, seqNum, closeTime)
    requires p in o.state.pending && s in o.state.pools && s.info.contract == p.pool
    requires DirtyPosition(PendingKey(p), true) in o.dirty
    requires p.blob.Some? && kind in KINDS && leg in LegsOf(p.blob.value, kind) && leg.amount != "0"
    ensures var byIndex := Published(s.reserves);
      if leg.index in byIndex then
        && multiset(o.state.users)[RowFor(byIndex[leg.index], p, leg, kind)] == 1
        && forall d <- o.diagnostics :: !(DiagnosticOwner(d) == PendingKey(p) && d.kind == kind && d.index == leg.index)
      else multiset(o.diagnostics)[DiagnosticFor(LoadPool(s), p, leg, kind, seqNum)] == 1
    ensures |RowsOf(o.state.users, RowOwner, PendingKey(p))| + |RowsOf(o.diagnostics, DiagnosticOwner, PendingKey(p))|
         == AllNonZero(p.blob.value)
  {
    hide WellFormed, Resolved, Users, Diagnostics, DistinctKeys, RowsOf, UserRows, UserDiagnostics, Published, LoadPool,
      Fresh, KeyedBy, AllNonZero, Decode, DirtyList, Built, RowFor, DiagnosticFor;
    var c, dirty := OutcomeParts(cfg, prior, changes, seqNum, closeTime, o);
    var k, id := PendingKey(p), Contract(p.pool);
    DirtyListHas(dirty, c.pending.Keys, k);
    PublishedEntry(c, p, s);
    assert RowBlock(c, k) == UserRows(c.pools[id].byIndex, p);
    assert DiagnosticBlock(c, k, seqNum) == UserDiagnostics(c.pools[id], p, seqNum);
    PairRows(c, k);
    ResolvedKeyed(c);
    PairDiagnostics(c, dirty, seqNum, k);
    EntryCount(c.pools[id], p, seqNum);
    LegOfEntry(c.pools[id], p, kind, seqNum, leg);
    if leg.index in c.pools[id].byIndex {
      ListedOnce(o.state.users, RowKey, RowFor(c.pools[id].byIndex[leg.index], p, leg, kind));
    } else {
      ListedOnce(o.diagnostics, DiagnosticKey, DiagnosticFor(c.pools[id], p, leg, kind, seqNum));
    }
  }

  lemma ResolvedKeyed(c: Mirror)
    requires Resolved(c)
    ensures KeyedBy(c.pending, PendingKey)
  {
  }

  /** o is the outcome of the ledger on a well-formed prior. */
  ghost predicate Decodes(o: Outcome, cfg: Owned, prior: Option<LedgerState>, changes: seq<Change>, seqNum: int,
                          closeTime: Option<int>) {
    (prior.Some? ==> WellFormed(prior.value)) && o == Decode(cfg, prior, changes, seqNum, closeTime)
  }

  /** The mirror and the touched pairs behind an outcome. */
  lemma OutcomeParts(cfg: Owned, prior: Option<LedgerState>, changes: seq<Change>, seqNum: int, closeTime: Option<int>,
                     o: Outcome)
    returns (c: Mirror, dirty: set<Key>)
    requires Decodes(o, cfg, prior, changes, seqNum, closeTime)
    ensures Resolved(c)
    ensures o.state.users == Users(c) && o.state.pending == Slice(c.pending)
    ensures o.state.pools == Slice(map k | k in c.pools :: PublishPool(c.pools[k]))
    ensures o.diagnostics == Diagnostics(c, dirty, seqNum) && o.dirty == DirtyList(dirty, c.pending.Keys)
  {
    hide WellFormed, Coherent, Resolved, Users, Diagnostics, Slice, DirtyList, Built, ApplyAll, LoadPrior, BackstopDirty,
      TemporaryList, RemapDirty, PriorIndexes;
    var b := ApplyAll(cfg, LoadPrior(prior), changes, seqNum);
    Run.ReferenceState(cfg, prior, changes, seqNum, closeTime);
    BuiltIndexes(b, closeTime);
    BuiltPending(b, closeTime);
    c, dirty := Built(b, closeTime), b.dirtyUsers + RemapDirty(PriorIndexes(prior), b);
    PublishedUsers(c);
    PublishesPools(c);
  }

  // ---- what the rows and diagnostics say -------------------------------------------------------

  /** r is the one reserve of a published pool whose decoded config claims the index. */
  ghost predicate Sole(reserves: seq<Reserve>, index: int, r: Reserve) {
    && r in reserves && r.indexKnown && r.index == index
    && forall q <- reserves :: q.indexKnown && q.index == index ==> q == r
  }

  lemma SoleIsPublished(reserves: seq<Reserve>, index: int)
    requires DistinctKeys(reserves, ReserveKey)
    ensures index in Published(reserves) <==> exists r :: Sole(reserves, index, r)
    ensures forall r :: Sole(reserves, index, r) ==> index in Published(reserves) && Published(reserves)[index] == r.asset
  {
    DistinctDetermines(reserves, ReserveKey);
    if index in Published(reserves) {
      PublishedUnique(reserves, index);
      var r :| r in reserves && r.indexKnown && r.index == index && r.asset == Published(reserves)[index];
      forall q | q in reserves && q.indexKnown && q.index == index ensures q == r {
        assert ReserveKey(q) == ReserveKey(r);
      }
      assert Sole(reserves, index, r);
    }
    forall r | Sole(reserves, index, r) ensures index in Published(reserves) && Published(reserves)[index] == r.asset {
      SoleResolves(reserves, index, r);
    }
  }

  lemma SoleResolves(reserves: seq<Reserve>, index: int, r: Reserve)
    requires DistinctKeys(reserves, ReserveKey) && Sole(reserves, index, r)
    ensures index in Published(reserves) && Published(reserves)[index] == r.asset
  {
    ClaimantsKnown(reserves, index);
    ClaimantsDistinct(reserves, index);
    var c := Claimants(reserves, index);
    AllAlike(c, r.asset);
    DistinctCounts(c, TextKey, r.asset);
  }

  lemma {:induction false} AllAlike(texts: seq<string>, text: string)
    requires forall t <- texts :: t == text
    ensures multiset(texts)[text] == |texts|
  {
    if texts != [] {
      var init, last := texts[..|texts| - 1], texts[|texts| - 1];
      assert texts == init + [last] && last in texts;
      assert forall t <- init :: t in texts;
      AllAlike(init, text);
    }
  }

  /** The leg is one of the entry's legs of that kind. */
  predicate IsLeg(p: Pending, kind: string, leg: Leg) {
    && p.blob.Some?
    && (|| (kind == "supply" && leg in p.blob.value.supply)
        || (kind == "collateral" && leg in p.blob.value.collateral)
        || (kind == "liability" && leg in p.blob.value.liabilities))
  }

  lemma KindsAre(p: Pending, kind: string, leg: Leg)
    ensures IsLeg(p, kind, leg) <==> p.blob.Some? && kind in KINDS && leg in LegsOf(p.blob.value, kind)
  {
    KindsDiffer();
  }

  lemma OneRow(rows: seq<Row>, r: Row) returns (i: nat)
    requires DistinctKeys(rows, RowKey) && r in rows
    ensures i < |rows| && rows[i] == r
    ensures forall j :: 0 <= j < |rows| && j != i ==> !OfKind(rows[j], r.address, r.pool, r.asset, r.kind)
  {
    i :| 0 <= i < |rows| && rows[i] == r;
    forall j | 0 <= j < |rows| && j != i ensures !OfKind(rows[j], r.address, r.pool, r.asset, r.kind) {
      assert RowKey(rows[j]) != RowKey(rows[i]);
    }
  }

  /** Every non-zero leg of a position whose index one reserve of its published pool claims is one row of the outcome: at
      that reserve's asset, its amount owed when the leg is a liability and held otherwise. */
  lemma TokensOfEveryLeg(cfg: Owned, prior: Option<LedgerState>, changes: seq<Change>, seqNum: int, closeTime: Option<int>,
                         o: Outcome, p: Pending, s: PoolState, r: Reserve, kind: string, leg: Leg)
    returns (i: nat)
    requires Decodes(o, cfg, prior, changes, seqNum, closeTime)
    requires p in o.state.pending && s in o.state.pools && s.info.contract == p.pool
    requires IsLeg(p, kind, leg) && leg.amount != "0" && Sole(s.reserves, leg.index, r)
    ensures i < |o.state.users|
    ensures OfKind(o.state.users[i], p.user, p.pool, r.asset, kind) && Carries(o.state.users[i], p, kind, leg)
    ensures forall j :: 0 <= j < |o.state.users| && j != i ==> !OfKind(o.state.users[j], p.user, p.pool, r.asset, kind)
  {
    hide WellFormed, Resolved, Users, Diagnostics, DistinctKeys, RowsOf, UserRows, UserDiagnostics, Published, LoadPool,
      Fresh, KeyedBy, Decode, DirtyList, RowFor, DiagnosticFor, Sole, Ambiguous, Unknown;
    var c, dirty := OutcomeParts(cfg, prior, changes, seqNum, closeTime, o);
    var k, id := PendingKey(p), Contract(p.pool);
    PublishedEntry(c, p, s);
    SoleIsPublished(s.reserves, leg.index);
    KindsAre(p, kind, leg);
    LegOfEntry(c.pools[id], p, kind, seqNum, leg);
    assert RowBlock(c, k) == UserRows(c.pools[id].byIndex, p);
    PairRows(c, k);
    RowForCarries(r.asset, p, leg, kind);
    i := OneRow(o.state.users, RowFor(r.asset, p, leg, kind));
  }

  /** And every row of the outcome is such a leg: nothing is owed or held that no position says. */
  lemma EveryRowIsALeg(cfg: Owned, prior: Option<LedgerState>, changes: seq<Change>, seqNum: int, closeTime: Option<int>,
                       o: Outcome, row: Row)
    returns (p: Pending, s: PoolState, r: Reserve, kind: string, leg: Leg)
    requires Decodes(o, cfg, prior, changes, seqNum, closeTime)
    requires row in o.state.users
    ensures p in o.state.pending && s in o.state.pools && s.info.contract == p.pool
    ensures IsLeg(p, kind, leg) && leg.amount != "0" && Sole(s.reserves, leg.index, r)
    ensures OfKind(row, p.user, p.pool, r.asset, kind) && Carries(row, p, kind, leg)
  {
    hide WellFormed, Resolved, Users, Diagnostics, DistinctKeys, RowsOf, UserRows, UserDiagnostics, Published, LoadPool,
      Fresh, KeyedBy, Decode, DirtyList, RowFor, DiagnosticFor, Sole, Ambiguous, Unknown, Slice, PublishPool;
    var c, dirty := OutcomeParts(cfg, prior, changes, seqNum, closeTime, o);
    var k := RowHome(c, row);
    p := c.pending[k];
    var id := Contract(p.pool);
    s := PublishPool(c.pools[id]);
    PendingListed(c, k);
    PoolListed(c, id, p.pool);
    PublishedEntry(c, p, s);
    kind, leg := RowLeg(c.pools[id].byIndex, p, row);
    KindsAre(p, kind, leg);
    SoleIsPublished(s.reserves, leg.index);
    r :| Sole(s.reserves, leg.index, r);
    RowForCarries(r.asset, p, leg, kind);
  }

  /** The entry a row was resolved from. */
  lemma RowHome(c: Mirror, row: Row) returns (k: Key)
    requires Resolved(c) && row in Users(c)
    ensures k in c.pending && Contract(c.pending[k].pool) in c.pools
    ensures row in UserRows(c.pools[Contract(c.pending[k].pool)].byIndex, c.pending[k])
  {
    hide UserRows, Resolved, SortBy;
    var ks, blocks := Ascending(c.pending.Keys), RowBlocks(c);
    SameElements(Flatten(ks, blocks), Users(c));
    k := FlattenHome(ks, blocks, row);
  }

  lemma {:induction false} FlattenHome<V>(ks: seq<Key>, blocks: map<Key, seq<V>>, v: V) returns (k: Key)
    requires v in Flatten(ks, blocks)
    ensures k in ks && k in blocks && v in blocks[k]
  {
    var init, last := ks[..|ks| - 1], ks[|ks| - 1];
    if v in BlockAt(blocks, last) {
      k := last;
    } else {
      k := FlattenHome(init, blocks, v);
      assert ks == init + [last];
    }
  }

  lemma RowLeg(byIndex: map<int, string>, p: Pending, row: Row) returns (kind: string, leg: Leg)
    requires row in UserRows(byIndex, p)
    ensures p.blob.Some? && kind in KINDS && leg in LegsOf(p.blob.value, kind)
    ensures leg.amount != "0" && leg.index in byIndex && row == RowFor(byIndex[leg.index], p, leg, kind)
  {
    hide LegRows, RowFor;
    KindsDiffer();
    var v := p.blob.value;
    LegRowsFrom(byIndex, p, v.supply, SUPPLY, row);
    LegRowsFrom(byIndex, p, v.collateral, COLLATERAL, row);
    LegRowsFrom(byIndex, p, v.liabilities, LIABILITY, row);
    kind := if row in LegRows(byIndex, p, v.supply, SUPPLY) then SUPPLY
            else if row in LegRows(byIndex, p, v.collateral, COLLATERAL) then COLLATERAL else LIABILITY;
    assert row in LegRows(byIndex, p, LegsOf(v, kind), kind);
    leg :| leg in LegsOf(v, kind) && leg.amount != "0" && leg.index in byIndex && row == RowFor(byIndex[leg.index], p, leg, kind);
  }

  lemma PendingListed(c: Mirror, k: Key)
    requires k in c.pending
    ensures c.pending[k] in Slice(c.pending)
  {
    SliceHas(c.pending, k);
  }

  lemma PoolListed(c: Mirror, id: Key, pool: string)
    requires Resolved(c) && id == Contract(pool) && id in c.pools
    ensures PublishPool(c.pools[id]) in Slice(map k | k in c.pools :: PublishPool(c.pools[k]))
    ensures PublishPool(c.pools[id]).info.contract == pool
  {
    hide Slice, KeyedBy, Fresh;
    SliceHas(map k | k in c.pools :: PublishPool(c.pools[k]), id);
  }

  /** What a diagnostic says of a leg no reserve of the pool is sure of: several reserves claim its index, and they are
      named, or none does, and the reserves whose index is unknown are. */
  ghost predicate Reports(d: Diagnostic, p: Pending, reserves: seq<Reserve>, kind: string, leg: Leg, seqNum: int) {
    && d.seqNum == seqNum && d.address == p.user && d.pool == p.pool
    && d.kind == kind && d.index == leg.index && d.amount == leg.amount
    && (Claims(reserves, leg.index) != {} ==>
          && d.code == "duplicate_reserve_index"
          && forall a :: a in d.candidates <==> a in Claims(reserves, leg.index))
    && (Claims(reserves, leg.index) == {} ==>
          && d.code == "unmapped_reserve_index"
          && forall a :: a in d.candidates <==> exists r :: r in reserves && !r.indexKnown && r.asset == a)
  }

  function Claims(reserves: seq<Reserve>, index: int): set<string> {
    set r | r in reserves && r.indexKnown && r.index == index :: r.asset
  }

  lemma {:induction false} UnknownOfAre(reserves: seq<Reserve>)
    ensures forall a :: a in UnknownOf(reserves) <==> exists r :: r in reserves && !r.indexKnown && r.asset == a
  {
    if reserves != [] {
      var init, last := reserves[..|reserves| - 1], reserves[|reserves| - 1];
      assert reserves == init + [last];
      UnknownOfAre(init);
      forall a ensures a in UnknownOf(reserves) <==> exists r :: r in reserves && !r.indexKnown && r.asset == a {
        if a in UnknownOf(init) {
          var r :| r in init && !r.indexKnown && r.asset == a;
          assert r in reserves;
        }
        if !last.indexKnown && last.asset == a { assert last in reserves; }
      }
    }
  }

  lemma ClaimsAre(reserves: seq<Reserve>, index: int)
    ensures forall a :: a in Claims(reserves, index) <==> a in Claimants(reserves, index)
    ensures Claims(reserves, index) != {} <==> index in KnownIndexes(reserves)
  {
    hide Claimants;
    ClaimantsKnown(reserves, index);
    if index in KnownIndexes(reserves) {
      var r :| r in reserves && r.indexKnown && r.index == index;
      assert r.asset in Claims(reserves, index);
    }
  }

  lemma SharedClaims(reserves: seq<Reserve>, index: int)
    requires index !in Published(reserves)
    ensures index in Ambiguous(reserves) <==> Claims(reserves, index) != {}
    ensures index in Ambiguous(reserves) ==> forall a :: a in Ambiguous(reserves)[index] <==> a in Claims(reserves, index)
  {
    hide Claims, Claimants, KnownIndexes;
    ClaimsAre(reserves, index);
  }

  lemma UnknownAre(reserves: seq<Reserve>)
    ensures forall a :: a in Unknown(reserves) <==> exists r :: r in reserves && !r.indexKnown && r.asset == a
  {
    hide SortBy;
    UnknownOfAre(reserves);
    SameElements(Unknown(reserves), UnknownOf(reserves));
  }

  lemma DiagnosticReports(pool: Pool, reserves: seq<Reserve>, p: Pending, leg: Leg, kind: string, n: int)
    requires pool.ambiguous == Ambiguous(reserves) && pool.unknown == Unknown(reserves)
    requires leg.index !in Published(reserves)
    ensures Reports(DiagnosticFor(pool, p, leg, kind, n), p, reserves, kind, leg, n)
  {
    hide Claims, Published, Ambiguous, Unknown;
    SharedClaims(reserves, leg.index);
    UnknownAre(reserves);
  }

  /** Every non-zero leg of a touched position with a known pool whose index not exactly one reserve claims is one
      diagnostic of the outcome, and the pair has no other diagnostic of that kind and index. */
  lemma EveryUnresolvedLegReported(cfg: Owned, prior: Option<LedgerState>, changes: seq<Change>, seqNum: int,
                                   closeTime: Option<int>, o: Outcome, p: Pending, s: PoolState, kind: string, leg: Leg)
    returns (i: nat)
    requires Decodes(o, cfg, prior, changes, seqNum, closeTime)
    requires p in o.state.pending && s in o.state.pools && s.info.contract == p.pool
    requires DirtyPosition(PendingKey(p), true) in o.dirty
    requires IsLeg(p, kind, leg) && leg.amount != "0" && !exists r :: Sole(s.reserves, leg.index, r)
    ensures i < |o.diagnostics| && Reports(o.diagnostics[i], p, s.reserves, kind, leg, seqNum)
    ensures forall j :: 0 <= j < |o.diagnostics| && j != i ==> !ConcernsLeg(o.diagnostics[j], p, kind, leg)
  {
    hide WellFormed, Resolved, Users, Diagnostics, DistinctKeys, RowsOf, UserRows, UserDiagnostics, Published, LoadPool,
      Fresh, KeyedBy, Decode, DirtyList, RowFor, DiagnosticFor, Sole, Ambiguous, Unknown, Reports;
    var c, dirty := OutcomeParts(cfg, prior, changes, seqNum, closeTime, o);
    var k, id := PendingKey(p), Contract(p.pool);
    DirtyListHas(dirty, c.pending.Keys, k);
    PublishedEntry(c, p, s);
    SoleIsPublished(s.reserves, leg.index);
    KindsAre(p, kind, leg);
    var d := DiagnosticFor(c.pools[id], p, leg, kind, seqNum);
    LegOfEntry(c.pools[id], p, kind, seqNum, leg);
    OnlyReport(c.pools[id], p, kind, seqNum, leg);
    DiagnosticReports(c.pools[id], s.reserves, p, leg, kind, seqNum);
    assert DiagnosticBlock(c, k, seqNum) == UserDiagnostics(c.pools[id], p, seqNum);
    ResolvedKeyed(c);
    PairDiagnostics(c, dirty, seqNum, k);
    i := OneDiagnostic(o.diagnostics, d, p, kind, leg);
  }

  predicate ConcernsLeg(d: Diagnostic, p: Pending, kind: string, leg: Leg) {
    d.address == p.user && d.pool == p.pool && d.kind == kind && d.index == leg.index
  }

  lemma OneDiagnostic(ds: seq<Diagnostic>, d: Diagnostic, p: Pending, kind: string, leg: Leg) returns (i: nat)
    requires DistinctKeys(ds, DiagnosticKey) && d in ds
    requires forall e <- ds :: ConcernsLeg(e, p, kind, leg) ==> e == d
    ensures i < |ds| && ds[i] == d
    ensures forall j :: 0 <= j < |ds| && j != i ==> !ConcernsLeg(ds[j], p, kind, leg)
  {
    hide DiagnosticKey;
    i :| 0 <= i < |ds| && ds[i] == d;
    forall j | 0 <= j < |ds| && j != i ensures !ConcernsLeg(ds[j], p, kind, leg) {
      assert ds[j] in ds && DiagnosticKey(ds[j]) != DiagnosticKey(ds[i]);
    }
  }

  /** The legs of one map have distinct indexes, so a leg has one diagnostic. */
  lemma OnlyReport(pool: Pool, p: Pending, kind: string, n: int, leg: Leg)
    requires p.blob.Some? && kind in KINDS && leg in LegsOf(p.blob.value, kind)
    ensures forall d <- UserDiagnostics(pool, p, n) ::
              d.kind == kind && d.index == leg.index ==> d == DiagnosticFor(pool, p, leg, kind, n)
  {
    hide LegDiagnostics;
    KindsDiffer();
    var v := p.blob.value;
    forall d | d in UserDiagnostics(pool, p, n) && d.kind == kind && d.index == leg.index
      ensures d == DiagnosticFor(pool, p, leg, kind, n)
    {
      LegDiagnosticsFrom(pool, p, v.supply, SUPPLY, n, d);
      LegDiagnosticsFrom(pool, p, v.collateral, COLLATERAL, n, d);
      LegDiagnosticsFrom(pool, p, v.liabilities, LIABILITY, n, d);
      var l :| l in LegsOf(v, kind) && d == DiagnosticFor(pool, p, l, kind, n) && l.index == leg.index;
      SameIndexSameLeg(LegsOf(v, kind), l, leg);
    }
  }

  lemma SameIndexSameLeg(legs: seq<Leg>, a: Leg, b: Leg)
    requires DistinctIndexes(legs) && a in legs && b in legs && a.index == b.index
    ensures a == b
  {
    var i :| 0 <= i < |legs| && legs[i] == a;
    var j :| 0 <= j < |legs| && legs[j] == b;
  }
}
