/** The paranoid strategy as the decoder runs it: loops over maps in whatever order they are iterated, and slices sorted
    afterwards. Every one of them is proved to give the reference reducer's answer. */
module Paranoid {
  import opened Options
  import opened Keys
  import opened Slices
  import opened Blocks
  import opened Reserves
  import opened Mirror
  import opened Carry
  import opened Reference
  import opened Cache
  import opened Entries
  import opened Builder
  import opened Publishing

  // ---- the remap union -------------------------------------------------------------------------

  /** The pools that appeared, disappeared or moved their index map. */
  method ChangedPools(indexes: map<Key, map<int, string>>, pools: map<Key, Pool>) returns (changed: set<Key>)
    ensures forall k :: k in changed <==> PoolChanged(indexes, pools, k)
  {
    changed := {};
    var todo := pools.Keys;
    while todo != {}
      invariant todo <= pools.Keys
      invariant forall k :: k in changed <==> k in pools && k !in todo && PoolChanged(indexes, pools, k)
      decreases |todo|
    {
      var id :| id in todo;
      if !(id in indexes && indexes[id] == pools[id].byIndex) {
        changed := changed + {id};
      }
      todo := todo - {id};
    }
    changed := changed + (indexes.Keys - pools.Keys);
  }

  /** markPoolRemapDirty */
  method MarkPoolRemapDirty(touched: set<Key>, indexes: map<Key, map<int, string>>, b: Mirror) returns (dirty: set<Key>)
    ensures dirty == touched + RemapDirty(indexes, b)
  {
    hide PoolChanged;
    var changed := ChangedPools(indexes, b.pools);
    dirty := touched;
    var todo := b.pending.Keys;
    while todo != {}
      invariant todo <= b.pending.Keys
      invariant forall k :: k in dirty <==>
                  k in touched || (k in b.pending && k !in todo && Contract(b.pending[k].pool) in changed)
      decreases |todo|
    {
      var k :| k in todo;
      if Contract(b.pending[k].pool) in changed {
        dirty := dirty + {k};
      }
      todo := todo - {k};
    }
  }

  // ---- user rows -------------------------------------------------------------------------------

  /** What the pending loop of build has gathered after visiting the entries of `order`. */
  ghost predicate Gathered(b: Mirror, dirty: set<Key>, n: int, order: seq<Key>, touched: seq<Key>,
                           pending: seq<Pending>, rows: seq<Row>, skipped: seq<Diagnostic>) {
    && pending == Flatten(order, Singles(b.pending))
    && rows == Flatten(order, RowBlocks(b))
    && skipped == Flatten(touched, DiagnosticBlocks(b, dirty, n))
  }

  lemma NothingGathered(b: Mirror, dirty: set<Key>, n: int)
    ensures Gathered(b, dirty, n, [], [], [], [], [])
    ensures Enumerates([], b.pending.Keys - b.pending.Keys) && Enumerates([], (b.pending.Keys - b.pending.Keys) * dirty)
  {
    assert b.pending.Keys - b.pending.Keys == {} && (b.pending.Keys - b.pending.Keys) * dirty == {};
  }

  lemma OneMoreGathered(b: Mirror, dirty: set<Key>, n: int, order: seq<Key>, touched: seq<Key>, pending: seq<Pending>,
                        rows: seq<Row>, skipped: seq<Diagnostic>, k: Key)
    requires Gathered(b, dirty, n, order, touched, pending, rows, skipped) && k in b.pending
    ensures Gathered(b, dirty, n, order + [k], if k in dirty then touched + [k] else touched, pending + [b.pending[k]],
                     rows + RowBlock(b, k), if k in dirty then skipped + DiagnosticBlock(b, k, n) else skipped)
  {
    hide RowBlock, DiagnosticBlock, Flatten;
    FlattenAppend(order, [k], Singles(b.pending));
    FlattenOne(k, Singles(b.pending));
    FlattenAppend(order, [k], RowBlocks(b));
    FlattenOne(k, RowBlocks(b));
    if k in dirty {
      FlattenAppend(touched, [k], DiagnosticBlocks(b, dirty, n));
      FlattenOne(k, DiagnosticBlocks(b, dirty, n));
    }
  }

  lemma {:induction false} FlattenAbsent<V>(ks: seq<Key>, blocks: map<Key, seq<V>>)
    requires forall k <- ks :: k !in blocks
    ensures Flatten(ks, blocks) == []
  {
    if ks != [] {
      assert ks[|ks| - 1] in ks && forall j <- ks[..|ks| - 1] :: j in ks;
      FlattenAbsent(ks[..|ks| - 1], blocks);
    }
  }

  /** A touched pair without an entry has nothing to report. */
  lemma TouchedEntries(b: Mirror, dirty: set<Key>, n: int, touched: seq<Key>)
    requires KeyedBy(b.pending, PendingKey)
    requires Enumerates(touched, b.pending.Keys * dirty)
    ensures SortBy(Flatten(touched, DiagnosticBlocks(b, dirty, n)), DiagnosticKey) == Diagnostics(b, dirty, n)
  {
    hide KeyedBy, SortBy, Diagnostics;
    var gone := Ascending(dirty - b.pending.Keys);
    var blocks := DiagnosticBlocks(b, dirty, n);
    DistinctMultiset(gone, dirty - b.pending.Keys);
    assert multiset(dirty) == multiset(b.pending.Keys * dirty) + multiset(dirty - b.pending.Keys);
    FlattenAppend(touched, gone, blocks);
    FlattenAbsent(gone, blocks);
    assert Flatten(touched + gone, blocks) == Flatten(touched, blocks);
    SortBySorts(Flatten(touched + gone, blocks), DiagnosticKey);
    DiagnosticsAnyOrder(b, dirty, n, touched + gone, SortBy(Flatten(touched + gone, blocks), DiagnosticKey));
  }

  /** The pending loop of build and the sorts after it. */
  method BuildUsers(b: Mirror, dirty: set<Key>, seqNum: int)
    returns (pending: seq<Pending>, users: seq<Row>, diagnostics: seq<Diagnostic>)
    requires Resolved(b)
    ensures pending == Slice(b.pending) && users == Users(b) && diagnostics == Diagnostics(b, dirty, seqNum)
  {
    hide Gathered, Enumerates, Flatten, SortBy, Resolved, KeyedBy, Users, Diagnostics, DiagnosticBlocks, RowBlocks;
    pending, users, diagnostics := [], [], [];
    ghost var order, touched: seq<Key> := [], [];
    NothingGathered(b, dirty, seqNum);
    var todo := b.pending.Keys;
    while todo != {}
      invariant todo <= b.pending.Keys
      invariant Enumerates(order, b.pending.Keys - todo) && Enumerates(touched, (b.pending.Keys - todo) * dirty)
      invariant Gathered(b, dirty, seqNum, order, touched, pending, users, diagnostics)
      decreases |todo|
    {
      var k :| k in todo;
      var rows, skipped := ResolveEntry(b, k, if k in dirty then Some(seqNum) else None);
      OneMoreGathered(b, dirty, seqNum, order, touched, pending, users, diagnostics, k);
      EnumeratesMore(order, b.pending.Keys - todo, k);
      assert b.pending.Keys - (todo - {k}) == (b.pending.Keys - todo) + {k};
      pending, users := pending + [b.pending[k]], users + rows;
      if k in dirty {
        EnumeratesMore(touched, (b.pending.Keys - todo) * dirty, k);
        assert (b.pending.Keys - (todo - {k})) * dirty == (b.pending.Keys - todo) * dirty + {k};
        diagnostics, touched := diagnostics + skipped, touched + [k];
      } else {
        assert (b.pending.Keys - (todo - {k})) * dirty == (b.pending.Keys - todo) * dirty;
      }
      todo, order := todo - {k}, order + [k];
    }
    assert b.pending.Keys - todo == b.pending.Keys;
    GatheredAll(b, dirty, seqNum, order, touched, pending, users, diagnostics);
    pending := SortBy(pending, PendingKey);
    users := SortBy(users, RowKey);
    diagnostics := SortBy(diagnostics, DiagnosticKey);
  }

  lemma GatheredAll(b: Mirror, dirty: set<Key>, n: int, order: seq<Key>, touched: seq<Key>, pending: seq<Pending>,
                    rows: seq<Row>, skipped: seq<Diagnostic>)
    requires Resolved(b) && Enumerates(order, b.pending.Keys) && Enumerates(touched, b.pending.Keys * dirty)
    requires Gathered(b, dirty, n, order, touched, pending, rows, skipped)
    ensures SortBy(pending, PendingKey) == Slice(b.pending)
    ensures SortBy(rows, RowKey) == Users(b)
    ensures SortBy(skipped, DiagnosticKey) == Diagnostics(b, dirty, n)
  {
    hide Enumerates, Flatten, SortBy, KeyedBy, Users, Diagnostics, DiagnosticBlocks, RowBlocks, Slice;
    ResolvedPending(b);
    EntriesAnyOrder(b.pending, PendingKey, order);
    SortBySorts(rows, RowKey);
    UsersAnyOrder(b, order, SortBy(rows, RowKey));
    TouchedEntries(b, dirty, n, touched);
  }

  lemma ResolvedPending(b: Mirror)
    requires Resolved(b)
    ensures KeyedBy(b.pending, PendingKey)
  {
  }

  /** buildUserPositionsForPending on one entry, nothing while its pool is unknown. */
  method ResolveEntry(b: Mirror, k: Key, sink: Option<int>) returns (rows: seq<Row>, skipped: seq<Diagnostic>)
    requires Resolved(b) && k in b.pending
    ensures rows == RowBlock(b, k)
    ensures skipped == if sink.Some? then DiagnosticBlock(b, k, sink.value) else []
  {
    var p := b.pending[k];
    if Contract(p.pool) !in b.pools {
      return [], [];
    }
    rows, skipped := BuildUserPositions(b.pools[Contract(p.pool)], p, sink);
  }

  // ---- one ledger ------------------------------------------------------------------------------

  /** decodeBlendState: a fresh builder loaded from the prior, the changes, the dirty lists, a full build. */
  method DecodeBlendState(cfg: Owned, prior: Option<LedgerState>, changes: seq<Change>, seqNum: int,
                          closeTime: Option<int>)
    returns (o: Outcome)
    requires prior.Some? ==> WellFormed(prior.value)
    ensures o == Decode(cfg, prior, changes, seqNum, closeTime)
  {
    hide WellFormed, LoadPrior, Built, Publish, Users, Slice, DirtyList, Diagnostics, TemporaryList, BackstopDirty,
      RemapDirty, PriorIndexes, ApplyAll, Resolved, Coherent, Publishable, ReservesKeyed, KeyedBy;
    var builder := LoadedBuilder(prior);
    builder.ApplyChanges(cfg, changes, seqNum);
    ReadyToBuild(cfg, prior, changes, seqNum, closeTime);
    var b := builder.View();
    var indexes := ReserveIndexSnapshot(prior);
    var dirty := MarkPoolRemapDirty(b.dirtyUsers, indexes, b);
    var holders := builder.AffectedHolders();
    builder.Build(closeTime);
    var pending, users, diagnostics := BuildUsers(builder.View(), dirty, seqNum);
    var state := PublishState(builder.View(), users, pending);
    var positions := FinalizeDirty(dirty, b.pending.Keys);
    var backstops := FinalizeDirty(holders, b.backstopUsers.Keys);
    var temporary := FinalizeTemporary(b);
    o := Outcome(state, positions, backstops, diagnostics, temporary);
  }

  lemma ReadyToBuild(cfg: Owned, prior: Option<LedgerState>, changes: seq<Change>, seqNum: int, closeTime: Option<int>)
    requires prior.Some? ==> WellFormed(prior.value)
    ensures Resolved(Built(ApplyAll(cfg, LoadPrior(prior), changes, seqNum), closeTime))
    ensures Publishable(Built(ApplyAll(cfg, LoadPrior(prior), changes, seqNum), closeTime))
    ensures KeyedBy(ApplyAll(cfg, LoadPrior(prior), changes, seqNum).aggregators, AggregatorKey)
    ensures ReservesKeyed(ApplyAll(cfg, LoadPrior(prior), changes, seqNum).pools)
  {
    hide WellFormed, LoadPrior, Built, Resolved, ApplyAll, KeyedBy, Publishable, PoolsOk, ReservesKeyed;
    LoadCoherent(prior);
    ApplyAllStep(cfg, LoadPrior(prior), changes, seqNum);
    var b := ApplyAll(cfg, LoadPrior(prior), changes, seqNum);
    BuiltIndexes(b, closeTime);
    BuiltPublishable(b, closeTime);
    PoolsKeyed(b.pools);
  }
}
