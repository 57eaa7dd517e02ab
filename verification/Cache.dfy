/** Why cached position blocks stay correct: what a ledger neither marks dirty nor remaps resolves as before. */
module Cache {
  import opened Options
  import opened Keys
  import opened Slices
  import opened Blocks
  import opened Reserves
  import opened Mirror
  import opened Carry
  import opened Reference

  /** Each pool's published index map: what the strategy snapshots at a ledger boundary. */
  function IndexMap(pools: map<Key, Pool>): map<Key, map<int, string>> { map k | k in pools :: pools[k].byIndex }

  function PoolKeyOf(k: Key): Key { Contract(if k.Pair? then k.pool else "") }

  /** The pairs a ledger dirties, from the cached entries: those its changes touched and the cached ones whose pool
      moved its index map. */
  function CachedDirty(cached: set<Key>, indexes: map<Key, map<int, string>>, b: Mirror): set<Key> {
    b.dirtyUsers + set k | k in cached && PoolChanged(indexes, b.pools, PoolKeyOf(k))
  }

  /** Marking cached entries or marking current entries gives the same dirty set: an entry that exists in only one of
      the two was itself touched. */
  lemma SameDirty(before: Mirror, b: Mirror, indexes: map<Key, map<int, string>>)
    requires PendingFrame(before, b)
    requires KeyedBy(before.pending, PendingKey) && KeyedBy(b.pending, PendingKey)
    ensures CachedDirty(before.pending.Keys, indexes, b) == b.dirtyUsers + RemapDirty(indexes, b)
  {
    forall k | k !in b.dirtyUsers
      ensures k in CachedDirty(before.pending.Keys, indexes, b) <==> k in RemapDirty(indexes, b)
    {
      assert SameAt(before.pending, b.pending, k);
      if k in b.pending { PendingOwn(b, k); }
    }
  }

  /** A pair outside the dirty set has the same entry and resolves to the same rows. */
  lemma Untouched(before: Mirror, b: Mirror, indexes: map<Key, map<int, string>>, k: Key)
    requires PendingFrame(before, b)
    requires indexes == IndexMap(before.pools)
    requires k !in b.dirtyUsers && k !in RemapDirty(indexes, b)
    ensures SameAt(before.pending, b.pending, k)
    ensures RowBlock(before, k) == RowBlock(b, k)
  {
    assert SameAt(before.pending, b.pending, k);
    if k in b.pending {
      assert !PoolChanged(indexes, b.pools, Contract(b.pending[k].pool));
    }
  }

  /** Rows depend on the pools only through their published index maps. */
  lemma SameResolution(b: Mirror, c: Mirror, k: Key)
    requires SameAt(b.pending, c.pending, k)
    requires IndexMap(b.pools) == IndexMap(c.pools)
    ensures RowBlock(b, k) == RowBlock(c, k)
  {
    hide UserRows;
    var m, n := IndexMap(b.pools), IndexMap(c.pools);
    assert forall p :: p in b.pools <==> p in m;
    assert forall p :: p in c.pools <==> p in n;
  }

  lemma BuiltIndexes(b: Mirror, closeTime: Option<int>)
    requires Coherent(b)
    ensures IndexMap(Built(b, closeTime).pools) == IndexMap(b.pools)
    ensures Resolved(Built(b, closeTime))
  {
    hide Built, PoolsOk, KeyedBy, PoolOk;
    BuiltPools(b, closeTime);
    BuiltPending(b, closeTime);
    var m, n := Built(b, closeTime).pools, b.pools;
    assert forall k :: k in n ==> m[k].byIndex == n[k].byIndex;
    assert m.Keys == n.Keys;
    hide Coherent;
  }

  /** build resolves the same rows as the mirror it starts from. */
  lemma BuiltRows(b: Mirror, closeTime: Option<int>, k: Key)
    requires Coherent(b)
    ensures RowBlock(Built(b, closeTime), k) == RowBlock(b, k)
    ensures Built(b, closeTime).pending == b.pending
    ensures IndexMap(Built(b, closeTime).pools) == IndexMap(b.pools)
    ensures Resolved(Built(b, closeTime))
  {
    hide Built, Coherent, IndexMap, RowBlock;
    BuiltIndexes(b, closeTime);
    BuiltPending(b, closeTime);
    SameResolution(Built(b, closeTime), b, k);
  }

  lemma BuiltPending(b: Mirror, closeTime: Option<int>)
    ensures Built(b, closeTime).pending == b.pending
  {
  }

  // ---- the summed block length -----------------------------------------------------------------

  function TotalLen<V>(blocks: map<Key, seq<V>>): nat { |Flatten(Ascending(blocks.Keys), blocks)| }

  lemma SameLength<V>(a: seq<V>, b: seq<V>)
    requires multiset(a) == multiset(b)
    ensures |a| == |b|
  {
    SameElements(a, b);
  }

  lemma AscendingWithout(s: set<Key>, k: Key)
    requires k in s
    ensures multiset(Ascending(s)) == multiset(Ascending(s - {k}) + [k])
  {
    DistinctMultiset(Ascending(s), s);
    DistinctMultiset(Ascending(s - {k}), s - {k});
    assert multiset(s) == multiset(s - {k}) + multiset{k};
    assert multiset(Ascending(s - {k}) + [k]) == multiset(Ascending(s - {k})) + multiset{k};
  }

  /** Dropping a block shortens the total by its length. */
  lemma TotalLenDrop<V>(blocks: map<Key, seq<V>>, k: Key)
    requires k in blocks
    ensures TotalLen(blocks) == TotalLen(blocks - {k}) + |blocks[k]|
  {
    hide Flatten;
    var rest := blocks - {k};
    var ks, js := Ascending(blocks.Keys), Ascending(rest.Keys);
    assert rest.Keys == blocks.Keys - {k};
    AscendingWithout(blocks.Keys, k);
    FlattenAnyOrder(ks, js + [k], blocks);
    SameLength(Flatten(ks, blocks), Flatten(js + [k], blocks));
    FlattenAppend(js, [k], blocks);
    FlattenOne(k, blocks);
    FlattenSame(js, blocks, rest);
  }

  lemma TotalLenPut<V>(blocks: map<Key, seq<V>>, k: Key, v: seq<V>)
    ensures TotalLen(blocks[k := v]) == TotalLen(blocks - {k}) + |v|
  {
    hide TotalLen;
    TotalLenDrop(blocks[k := v], k);
    assert blocks[k := v] - {k} == blocks - {k};
  }

  lemma TotalLenAbsent<V>(blocks: map<Key, seq<V>>, k: Key)
    requires k !in blocks
    ensures blocks - {k} == blocks
  {
  }

  // ---- dirty-set completeness ------------------------------------------------------------------

  lemma DirtyListHas(dirty: set<Key>, live: set<Key>, k: Key)
    ensures k in dirty <==> exists u :: DirtyPosition(k, u) in DirtyList(dirty, live)
    ensures k in dirty ==> DirtyPosition(k, k in live) in DirtyList(dirty, live)
  {
    var ks, ds := Ascending(dirty), DirtyList(dirty, live);
    if k in dirty {
      assert k in ks;
      var i :| 0 <= i < |ks| && ks[i] == k;
      assert ds[i] == DirtyPosition(k, k in live);
    }
    if u :| DirtyPosition(k, u) in ds {
      var i :| 0 <= i < |ds| && ds[i] == DirtyPosition(k, u);
      assert ks[i] in ks;
    }
  }

  lemma ReloadedRows(b: Mirror, closeTime: Option<int>, k: Key)
    requires Coherent(b)
    ensures var l := Load(PublishAll(Built(b, closeTime)));
            && RowBlock(l, k) == RowBlock(b, k)
            && IndexMap(l.pools) == IndexMap(b.pools)
  {
    hide RowBlock, Built, Load, PublishAll, Collect, Slice, PoolsOk, IndexMap, Coherent, KeyedBy;
    var c := Built(b, closeTime);
    BuiltRows(b, closeTime, k);
    ReloadedPools(b, closeTime);
    LoadedParts(c);
    CoherentPending(b);
    PendingReload(b.pending);
    assert Load(PublishAll(c)).pools == c.pools;
    ReloadedRow(b, Load(PublishAll(c)), k);
  }

  lemma CoherentPending(b: Mirror)
    requires Coherent(b)
    ensures KeyedBy(b.pending, PendingKey)
  {
  }

  lemma ReloadedPools(b: Mirror, closeTime: Option<int>)
    requires Coherent(b)
    ensures var pools := Built(b, closeTime).pools;
            Collect(Slice(map k | k in pools :: PublishPool(pools[k])), PoolKey, PoolOf) == pools
  {
    hide Built, Coherent, Collect, Slice, PublishPool;
    BuiltPools(b, closeTime);
    PoolsReload(Built(b, closeTime).pools);
  }

  /** An entry the reload drops had no rows. */
  lemma ReloadedRow(b: Mirror, l: Mirror, k: Key)
    requires IndexMap(l.pools) == IndexMap(b.pools) && l.pending == DecodablePart(b.pending)
    ensures RowBlock(l, k) == RowBlock(b, k)
  {
    if k in b.pending && b.pending[k].blob.None? {
      assert k !in l.pending;
    } else {
      SameResolution(l, b, k);
    }
  }

  lemma LoadedParts(c: Mirror)
    ensures Load(PublishAll(c)).pools == Collect(Slice(map k | k in c.pools :: PublishPool(c.pools[k])), PoolKey, PoolOf)
    ensures Load(PublishAll(c)).pending == Collect(Slice(c.pending), PendingKey, PendingOf)
  {
    hide Collect, Slice, Users, PublishPool;
  }

  /** Between two consecutive published states, every (address, pool) whose resolved rows differ is reported dirty,
      whether its own entry changed or only its pool's index map did. */
  lemma DirtySetComplete(b: Mirror, closeTime: Option<int>, cfg: Owned, changes: seq<Change>, seqNum: int,
                         nextClose: Option<int>, k: Key)
    requires Coherent(b)
    ensures var prior := PublishAll(Built(b, closeTime));
            var next := Decode(cfg, Some(prior), changes, seqNum, nextClose);
            RowsOf(prior.users, RowOwner, k) != RowsOf(next.state.users, RowOwner, k) ==>
              exists u :: DirtyPosition(k, u) in next.dirty
  {
    hide RowBlock, Built, Load, PublishAll, Coherent, Resolved, RowsOf, Users, ApplyAll, PriorIndexes, RemapDirty, SortedBlock, IndexMap;
    var prior := PublishAll(Built(b, closeTime));
    var l := Load(prior);
    var c := ApplyAll(cfg, l, changes, seqNum);
    var dirty := c.dirtyUsers + RemapDirty(PriorIndexes(Some(prior)), c);
    NextStep(b, closeTime, cfg, changes, seqNum);
    DirtyListHas(dirty, c.pending.Keys, k);
    BuiltRows(b, closeTime, k);
    BuiltRows(c, nextClose, k);
    PublishedUsers(Built(b, closeTime));
    PublishedUsers(Built(c, nextClose));
    if k !in dirty {
      ReloadedRows(b, closeTime, k);
      Untouched(l, c, IndexMap(l.pools), k);
      ScanUsers(Built(b, closeTime), k);
      ScanUsers(Built(c, nextClose), k);
      BlockOf(Built(b, closeTime), k);
      BlockOf(Built(c, nextClose), k);
    }
  }

  lemma NextStep(b: Mirror, closeTime: Option<int>, cfg: Owned, changes: seq<Change>, seqNum: int)
    requires Coherent(b)
    ensures var prior := PublishAll(Built(b, closeTime));
            var l := Load(prior);
            var c := ApplyAll(cfg, l, changes, seqNum);
            Coherent(c) && PendingFrame(l, c) && PriorIndexes(Some(prior)) == IndexMap(l.pools)
  {
    hide Built, Load, PublishAll, Coherent, ApplyAll, PriorIndexes;
    var prior := PublishAll(Built(b, closeTime));
    PublishedWellFormed(b, closeTime);
    LoadCoherent(Some(prior));
    ApplyAllStep(cfg, Load(prior), changes, seqNum);
  }

  lemma PublishedUsers(b: Mirror)
    ensures PublishAll(b).users == Users(b) && PublishAll(b).pending == Slice(b.pending)
  {
    hide Users, Slice;
  }

  lemma BlockOf(b: Mirror, k: Key)
    ensures SortedBlock(b, k) == SortBy(RowBlock(b, k), RowKey)
    ensures k !in b.pending ==> SortedBlock(b, k) == []
  {
  }
}
