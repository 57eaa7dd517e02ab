/** The incremental state-decode strategy: a mirror carried across ledgers, a sorted key list, cached position blocks
    and a snapshot of each pool's index map. It returns what the reference reducer returns. */
module Incremental {
  import opened Options
  import opened Keys
  import opened Slices
  import opened Blocks
  import opened Reserves
  import opened Mirror
  import opened Carry
  import opened Reference
  import opened Cache
  import opened Builder
  import opened Publishing

  // ---- computing one block ---------------------------------------------------------------------

  /** The order within one user's block: (asset, type). */
  function BlockOrder(r: Row): Key { RowOf("", "", r.asset, r.kind) }

  lemma BlockOrderAgrees(a: Row, b: Row)
    requires RowOwner(a) == RowOwner(b)
    ensures KeyLess(BlockOrder(a), BlockOrder(b)) <==> KeyLess(RowKey(a), RowKey(b))
  {
    var x, y := [Text(a.asset), Text(a.kind)], [Text(b.asset), Text(b.kind)];
    var h, i := [Num(5)] + ([Text("")] + ([Text("")] + x)), [Num(5)] + ([Text("")] + ([Text("")] + y));
    var f, g := [Num(5)] + ([Text(a.address)] + ([Text(a.pool)] + x)), [Num(5)] + ([Text(a.address)] + ([Text(a.pool)] + y));
    assert BlockOrder(a).Parts() == h && BlockOrder(b).Parts() == i;
    assert RowKey(a).Parts() == f && RowKey(b).Parts() == g;
    hide LexLess;
    LexSameHead(Num(5), [Text("")] + ([Text("")] + x), [Text("")] + ([Text("")] + y));
    LexSameHead(Text(""), [Text("")] + x, [Text("")] + y);
    LexSameHead(Text(""), x, y);
    LexSameHead(Num(5), [Text(a.address)] + ([Text(a.pool)] + x), [Text(a.address)] + ([Text(a.pool)] + y));
    LexSameHead(Text(a.address), [Text(a.pool)] + x, [Text(a.pool)] + y);
    LexSameHead(Text(a.pool), x, y);
  }

  ghost predicate OneOwner(rows: seq<Row>, owner: Key) { forall r :: r in rows ==> RowOwner(r) == owner }

  lemma {:induction false} InsertAgrees(r: Row, rows: seq<Row>, owner: Key)
    requires RowOwner(r) == owner && OneOwner(rows, owner)
    ensures Insert(r, rows, BlockOrder) == Insert(r, rows, RowKey)
  {
    hide KeyLess;
    if rows != [] {
      assert rows[0] in rows;
      BlockOrderAgrees(r, rows[0]);
      assert forall q :: q in rows[1..] ==> q in rows;
      InsertAgrees(r, rows[1..], owner);
    }
  }

  /** Within one user's rows, ordering by (asset, type) is ordering by the whole row key. */
  lemma {:induction false} BlockSortAgrees(rows: seq<Row>, owner: Key)
    requires OneOwner(rows, owner)
    ensures SortBy(rows, BlockOrder) == SortBy(rows, RowKey)
  {
    if rows != [] {
      assert rows[0] in rows;
      assert forall q :: q in rows[1..] ==> q in rows;
      BlockSortAgrees(rows[1..], owner);
      SameElements(SortBy(rows[1..], RowKey), rows[1..]);
      assert OneOwner(SortBy(rows[1..], RowKey), owner);
      InsertAgrees(rows[0], SortBy(rows[1..], RowKey), owner);
    }
  }

  /** computeBlock: resolve one pending entry against its pool and order the block. The sink, when present, collects the
      skipped legs. */
  method ComputeBlock(b: Mirror, k: Key, sink: Option<int>) returns (block: seq<Row>, diagnostics: seq<Diagnostic>)
    requires Resolved(b) && k in b.pending
    ensures block == SortedBlock(b, k)
    ensures diagnostics == if sink.Some? then DiagnosticBlock(b, k, sink.value) else []
  {
    var p := b.pending[k];
    if Contract(p.pool) !in b.pools {
      return [], [];
    }
    var rows;
    rows, diagnostics := BuildUserPositions(b.pools[Contract(p.pool)], p, sink);
    block := SortBy(rows, BlockOrder);
    RowBlockFacts(b, k);
    BlockSortAgrees(rows, k);
  }

  // ---- entries and states on the heap ----------------------------------------------------------

  /** Build the mirror and collect the backstop holders the ledger affected. */
  method BuildMirror(builder: StateBuilder, closeTime: Option<int>) returns (c: Mirror, holders: set<Key>)
    requires Coherent(builder.View())
    modifies builder
    ensures builder.View() == c == Built(old(builder.View()), closeTime) && holders == BackstopDirty(c)
    ensures Publishable(c)
  {
    hide Built, BackstopDirty, StateBuilder.View, Coherent, Publishable, PoolsOk, ReservesKeyed, KeyedBy;
    CoherentPools(builder.View());
    BuiltPublishable(builder.View(), closeTime);
    builder.Build(closeTime);
    c := builder.View();
    holders := builder.AffectedHolders();
  }

  /** The outcome of a ledger, from the built mirror and what the caches gave. */
  method Assembled(c: Mirror, users: seq<Row>, pending: seq<Pending>, dirty: set<Key>, holders: set<Key>,
                   diagnostics: seq<Diagnostic>)
    returns (o: Outcome)
    requires Publishable(c)
    ensures o == Outcome(Publish(c, users, pending), DirtyList(dirty, c.pending.Keys),
                         DirtyList(holders, c.backstopUsers.Keys), diagnostics, TemporaryList(c))
  {
    hide Publishable, Publish, DirtyList, TemporaryList;
    var state := PublishState(c, users, pending);
    var positions := FinalizeDirty(dirty, c.pending.Keys);
    var backstops := FinalizeDirty(holders, c.backstopUsers.Keys);
    var temporary := FinalizeTemporary(c);
    o := Outcome(state, positions, backstops, diagnostics, temporary);
  }

  /** userEntry: the cached view of one pending entry, shared by the key list and the index. */
  class UserEntry {
    const composite: Key
    var out: Pending
    var block: seq<Row>

    constructor (k: Key, p: Pending, rows: seq<Row>)
      ensures composite == k && out == p && block == rows
    {
      composite, out, block := k, p, rows;
    }
  }

  /** A returned ledger state. Its identity, not its content, decides whether a call continues the previous one. */
  class StateRef {
    const state: LedgerState

    constructor (s: LedgerState)
      ensures state == s
    {
      state := s;
    }
  }

  function StateOf(prior: StateRef?): Option<LedgerState> { if prior == null then None else Some(prior.state) }

  /** One ledger decoded from a mirror: apply the changes, expose against the mirror's own index maps. */
  function DecodeFrom(l: Mirror, cfg: Owned, changes: seq<Change>, seqNum: int, closeTime: Option<int>): Outcome {
    var b := ApplyAll(cfg, l, changes, seqNum);
    Expose(b, b.dirtyUsers + RemapDirty(IndexMap(l.pools), b), seqNum, closeTime)
  }

  /** The next ledger decoded from a carried mirror. */
  function CarriedDecode(m: Mirror, cfg: Owned, changes: seq<Change>, seqNum: int, closeTime: Option<int>): Outcome {
    DecodeFrom(NormalizeCarry(m), cfg, changes, seqNum, closeTime)
  }

  function Composites(es: seq<UserEntry>): seq<Key> { seq(|es|, i requires 0 <= i < |es| => es[i].composite) }

  /** The key list is sorted by (address, pool) and in bijection with the index. */
  ghost predicate Listed(keys: seq<UserEntry>, index: map<Key, UserEntry>) {
    && Ascends(Composites(keys))
    && (forall i :: 0 <= i < |keys| ==> keys[i].composite in index && index[keys[i].composite] == keys[i])
    && (forall k :: k in index ==> k in Composites(keys))
  }

  lemma ListedInsert(keys: seq<UserEntry>, index: map<Key, UserEntry>, at: nat, e: UserEntry)
    requires Listed(keys, index) && e.composite !in index && at <= |keys|
    requires Ascends(Composites(keys[..at] + [e] + keys[at..]))
    ensures Listed(keys[..at] + [e] + keys[at..], index[e.composite := e])
  {
    hide Ascends, Composites;
    var fs := keys[..at] + [e] + keys[at..];
    InsertedMembers(keys, at, e, fs);
    forall i | 0 <= i < |fs| ensures fs[i].composite in index[e.composite := e]
                                     && index[e.composite := e][fs[i].composite] == fs[i] {
      assert fs[i] in fs;
    }
  }

  lemma ListedRemove(keys: seq<UserEntry>, index: map<Key, UserEntry>, at: nat, k: Key)
    requires Listed(keys, index) && at < |keys| && k in index && index[k] == keys[at] && keys[at].composite == k
    requires Ascends(Composites(keys[..at] + keys[at + 1..]))
    ensures Listed(keys[..at] + keys[at + 1..], index - {k})
  {
    hide Ascends, Composites;
    var fs := keys[..at] + keys[at + 1..];
    RemovedMembers(keys, at, keys[at], fs);
    forall i | 0 <= i < |fs| ensures fs[i].composite in index - {k} && (index - {k})[fs[i].composite] == fs[i] {
      assert fs[i] in fs;
    }
  }

  /** The entries of the index in ascending order of their keys. */
  lemma AscendingListed(keys: seq<UserEntry>, index: map<Key, UserEntry>, ks: seq<Key>)
    requires Ascends(ks) && (forall k :: k in ks <==> k in index) && |keys| == |ks|
    requires forall k :: k in index ==> index[k].composite == k
    requires forall i :: 0 <= i < |ks| ==> ks[i] in index && keys[i] == index[ks[i]]
    ensures Listed(keys, index)
  {
    assert Composites(keys) == ks;
  }

  lemma ListedAscends(keys: seq<UserEntry>, index: map<Key, UserEntry>)
    requires Listed(keys, index)
    ensures Ascends(Composites(keys))
  {
  }

  lemma ListedMissing(keys: seq<UserEntry>, index: map<Key, UserEntry>, k: Key)
    requires Listed(keys, index) && k !in index
    ensures k !in Composites(keys)
  {
  }

  class IncrementalStrategy {
    var builder: StateBuilder?
    var lastOut: StateRef?
    var keys: seq<UserEntry>
    var index: map<Key, UserEntry>
    var usersLen: nat
    var poolIndexes: map<Key, map<int, string>>
    ghost var Repr: set<UserEntry>

    /** The carried mirror. */
    ghost function Carried(): Mirror
      reads this`builder, builder
      requires builder != null
    {
      builder.View()
    }

    /** The cached blocks and outputs by composite key. */
    ghost function Blocks(): map<Key, seq<Row>>
      reads this`index, this`Repr, Repr
      requires Indexed()
    {
      map k | k in index :: index[k].block
    }

    ghost function Outs(): map<Key, Pending>
      reads this`index, this`Repr, Repr
      requires Indexed()
    {
      map k | k in index :: index[k].out
    }

    ghost predicate Indexed()
      reads this`index, this`Repr, Repr
    {
      forall k :: k in index ==> index[k] in Repr && index[k].composite == k
    }

    /** The shape of the cache: usersLen is the summed block length. */
    ghost predicate Structured()
      reads this`keys, this`index, this`usersLen, this`Repr, Repr
    {
      Indexed() && Listed(keys, index) && usersLen == TotalLen(Blocks())
    }

    /** Every cached block is a fresh resolution and the index snapshot is current. */
    ghost predicate Caches(b: Mirror)
      reads this`index, this`poolIndexes, this`Repr, Repr
      requires Indexed()
    {
      && Outs() == b.pending && Blocks() == SortedBlocks(b) && poolIndexes == IndexMap(b.pools)
    }

    /** The invariant at a ledger boundary. Normalizing the carried mirror gives a coherent one, and while every carried
        blob decodes it is the mirror a reload of the last output would build. */
    ghost predicate Valid()
      reads this, Repr, builder
    {
      && Structured()
      && (builder == null ==> index == map[])
      && (builder != null ==> lastOut != null && Caches(Carried())
                              && (AllDecodable(Carried()) ==> NormalizeCarry(Carried()) == Load(lastOut.state))
                              && Coherent(NormalizeCarry(Carried())) && WellFormed(lastOut.state)
                              && lastOut.state.users == Users(Carried()) && Resolved(Carried()))
    }

    constructor ()
      ensures Valid() && builder == null
      ensures fresh(Repr)
    {
      NoLength();
      builder, lastOut, keys, index, usersLen, poolIndexes, Repr := null, null, [], map[], 0, map[], {};
    }

    // ---- the sorted key list -------------------------------------------------------------------

    /** sort.Search over the key list: the first position whose key is not below k. */
    method Search(k: Key) returns (at: nat)
      requires Ascends(Composites(keys))
      ensures at <= |keys|
      ensures IsPosition(Composites(keys), k, at)
    {
      hide KeyLess;
      ghost var ks := Composites(keys);
      var lo, hi := 0, |keys|;
      while lo < hi
        invariant 0 <= lo <= hi <= |keys|
        invariant forall i :: 0 <= i < lo ==> KeyLess(ks[i], k)
        invariant forall i :: hi <= i < |keys| ==> !KeyLess(ks[i], k)
      {
        var mid := (lo + hi) / 2;
        assert keys[mid].composite == ks[mid];
        if KeyLess(keys[mid].composite, k) {
          AllBelow(ks, mid, k);
          lo := mid + 1;
        } else {
          NoneBelow(ks, mid, k);
          hi := mid;
        }
      }
      at := lo;
    }

    /** insertKey: shift the tail and put the entry at its position. */
    method InsertKey(entry: UserEntry)
      requires Ascends(Composites(keys)) && entry.composite !in Composites(keys)
      modifies this`keys
      ensures Ascends(Composites(keys))
      ensures exists at :: 0 <= at <= |old(keys)| && keys == old(keys)[..at] + [entry] + old(keys)[at..]
    {
      var at := Search(entry.composite);
      InsertAscends(Composites(keys), at, entry.composite);
      assert Composites(keys[..at] + [entry] + keys[at..])
          == Composites(keys)[..at] + [entry.composite] + Composites(keys)[at..];
      keys := keys[..at] + [entry] + keys[at..];
    }

    /** removeKey: search, step to the entry itself, close the gap. */
    method RemoveKey(entry: UserEntry)
      requires Ascends(Composites(keys)) && entry in keys
      modifies this`keys
      ensures Ascends(Composites(keys))
      ensures exists at :: 0 <= at < |old(keys)| && old(keys)[at] == entry && keys == old(keys)[..at] + old(keys)[at + 1..]
    {
      hide KeyLess, IsPosition, Ascends;
      ghost var ks := Composites(keys);
      var at := Search(entry.composite);
      EntryAtOrAfter(keys, entry, at);
      while at < |keys| && keys[at] != entry
        invariant at <= |keys|
        invariant entry in keys[at..]
      {
        assert keys[at..] == [keys[at]] + keys[at + 1..];
        at := at + 1;
      }
      RemoveAscends(ks, at);
      assert Composites(keys[..at] + keys[at + 1..]) == ks[..at] + ks[at + 1..];
      keys := keys[..at] + keys[at + 1..];
    }

    // ---- one dirty pair ------------------------------------------------------------------------

    lemma ListedOnce(k: Key) returns (at: nat)
      requires Structured() && k in index
      ensures at < |keys| && keys[at] == index[k] && keys[at].composite == k
      ensures index[k] in keys
    {
      assert k in Composites(keys);
      at :| 0 <= at < |keys| && Composites(keys)[at] == k;
    }

    /** Overwrite what an indexed entry holds. */
    method SetEntry(k: Key, p: Pending, block: seq<Row>)
      requires Indexed() && k in index
      modifies Repr
      ensures Indexed()
      ensures Blocks() == old(Blocks())[k := block] && Outs() == old(Outs())[k := p]
    {
      var entry := index[k];
      assert forall j :: j in index && j != k ==> index[j] != entry;
      entry.out := p;
      entry.block := block;
    }

    /** Index a new entry. */
    method PutEntry(k: Key, p: Pending, block: seq<Row>) returns (entry: UserEntry)
      requires Indexed() && k !in index
      modifies this`index, this`Repr
      ensures fresh(entry) && entry.composite == k && index == old(index)[k := entry]
      ensures Indexed() && fresh(Repr - old(Repr)) && old(Repr) <= Repr
      ensures Blocks() == old(Blocks())[k := block] && Outs() == old(Outs())[k := p]
    {
      ghost var blocks, outs := Blocks(), Outs();
      entry := new UserEntry(k, p, block);
      assert Indexed() && Blocks() == blocks && Outs() == outs;
      EnterIndex(k, entry);
    }

    /** File an entry that nothing in the index refers to. */
    method EnterIndex(k: Key, entry: UserEntry)
      requires Indexed() && k !in index && entry.composite == k
      modifies this`index, this`Repr
      ensures index == old(index)[k := entry] && Repr == old(Repr) + {entry}
      ensures Indexed()
      ensures Blocks() == old(Blocks())[k := entry.block] && Outs() == old(Outs())[k := entry.out]
    {
      Repr := Repr + {entry};
      index := index[k := entry];
    }

    method RefreshEntry(k: Key, p: Pending, block: seq<Row>)
      requires Structured() && k in index
      modifies this`usersLen, Repr
      ensures Structured()
      ensures Blocks() == old(Blocks())[k := block] && Outs() == old(Outs())[k := p]
    {
      hide TotalLen, Listed, Outs;
      ghost var blocks := Blocks();
      assert blocks[k] == index[k].block;
      TotalLenDrop(blocks, k);
      TotalLenPut(blocks, k, block);
      usersLen := usersLen - |index[k].block|;
      SetEntry(k, p, block);
      usersLen := usersLen + |block|;
    }

    method AddEntry(k: Key, p: Pending, block: seq<Row>)
      requires Structured() && k !in index
      modifies this`usersLen, this`keys, this`index, this`Repr
      ensures Structured() && fresh(Repr - old(Repr)) && old(Repr) <= Repr
      ensures Blocks() == old(Blocks())[k := block] && Outs() == old(Outs())[k := p]
    {
      hide Listed, Ascends, TotalLen, Composites;
      ghost var blocks := Blocks();
      TotalLenPut(blocks, k, block);
      TotalLenAbsent(blocks, k);
      ListedMissing(keys, index, k);
      ListedAscends(keys, index);
      var entry := PutEntry(k, p, block);
      InsertKey(entry);
      ghost var at :| 0 <= at <= |old(keys)| && keys == old(keys)[..at] + [entry] + old(keys)[at..];
      ListedInsert(old(keys), old(index), at, entry);
      usersLen := usersLen + |block|;
    }

    method DropEntry(k: Key)
      requires Structured() && k in index
      modifies this`usersLen, this`keys, this`index
      ensures Structured()
      ensures Blocks() == old(Blocks()) - {k} && Outs() == old(Outs()) - {k}
    {
      hide Listed, Ascends, TotalLen, Composites;
      ghost var blocks := Blocks();
      TotalLenDrop(blocks, k);
      var entry := index[k];
      ghost var pos := ListedOnce(k);
      ListedAscends(keys, index);
      RemoveKey(entry);
      ghost var at :| 0 <= at < |old(keys)| && old(keys)[at] == entry && keys == old(keys)[..at] + old(keys)[at + 1..];
      ListedRemove(old(keys), index, at, k);
      index := index - {k};
      usersLen := usersLen - |entry.block|;
      assert Blocks() == blocks - {k};
    }

    lemma MissingEntry(k: Key)
      requires Indexed() && k !in index
      ensures Blocks() - {k} == Blocks() && Outs() - {k} == Outs()
    {
    }

    /** The dirty-pair update of snapshot: refresh, add or drop the cached entry, and report the skipped legs. */
    method UpdateEntry(b: Mirror, k: Key, seqNum: int) returns (diagnostics: seq<Diagnostic>)
      requires Structured() && Resolved(b)
      modifies this`usersLen, this`keys, this`index, this`Repr, Repr
      ensures Structured() && fresh(Repr - old(Repr)) && old(Repr) <= Repr
      ensures Blocks() == if k in b.pending then old(Blocks())[k := SortedBlock(b, k)] else old(Blocks()) - {k}
      ensures Outs() == if k in b.pending then old(Outs())[k := b.pending[k]] else old(Outs()) - {k}
      ensures diagnostics == DiagnosticBlock(b, k, seqNum)
    {
      hide Indexed, Listed, Resolved, SortedBlock, DiagnosticBlock, TotalLen;
      if k in b.pending {
        var block;
        block, diagnostics := ComputeBlock(b, k, Some(seqNum));
        if k in index {
          RefreshEntry(k, b.pending[k], block);
        } else {
          AddEntry(k, b.pending[k], block);
        }
      } else {
        diagnostics := [];
        NoDiagnosticBlock(b, k, seqNum);
        if k in index {
          DropEntry(k);
        } else {
          MissingEntry(k);
        }
      }
    }

    lemma StructuredIndexed()
      requires Structured()
      ensures Indexed() && Listed(keys, index)
    {
    }

    /** The loop over the dirty set, in whatever order the set is iterated. */
    method UpdateDirty(b: Mirror, dirty: set<Key>, seqNum: int) returns (diagnostics: seq<Diagnostic>, ghost order: seq<Key>)
      requires Structured() && Resolved(b)
      requires UpToDate(Outs(), Blocks(), b, dirty)
      modifies this`usersLen, this`keys, this`index, this`Repr, Repr
      ensures Structured() && fresh(Repr - old(Repr)) && old(Repr) <= Repr
      ensures Outs() == b.pending && Blocks() == SortedBlocks(b)
      ensures Enumerates(order, dirty) && diagnostics == Flatten(order, DiagnosticBlocks(b, dirty, seqNum))
    {
      hide Indexed, Listed, Resolved, SortedBlock, DiagnosticBlock, TotalLen, UpToDate, Structured, Flatten, DiagnosticBlocks, Enumerates, SortedBlocks;
      StructuredIndexed();
      NothingYet(b, dirty, seqNum);
      var todo := dirty;
      diagnostics, order := [], [];
      while todo != {}
        invariant Structured() && Indexed() && fresh(Repr - old(Repr)) && old(Repr) <= Repr
        invariant todo <= dirty && Enumerates(order, dirty - todo)
        invariant UpToDate(Outs(), Blocks(), b, todo)
        invariant diagnostics == Flatten(order, DiagnosticBlocks(b, dirty, seqNum))
        decreases |todo|
      {
        var k :| k in todo;
        ghost var outs, blocks := Outs(), Blocks();
        var skipped := UpdateEntry(b, k, seqNum);
        UpToDateStep(outs, blocks, b, todo, k);
        diagnostics := diagnostics + skipped;
        StructuredIndexed();
        OneMoreBlock(b, dirty, seqNum, order, k);
        assert dirty - (todo - {k}) == (dirty - todo) + {k};
        EnumeratesMore(order, dirty - todo, k);
        todo, order := todo - {k}, order + [k];
      }
      assert dirty - todo == dirty;
      AllUpToDate(Outs(), Blocks(), b);
    }

    // ---- the pool index snapshot ---------------------------------------------------------------

    /** Compare every pool's index map with the snapshot, refresh the snapshot, and report the pools that changed. */
    method TrackPools(pools: map<Key, Pool>) returns (changed: set<Key>)
      modifies this`poolIndexes
      ensures poolIndexes == IndexMap(pools)
      ensures forall k :: k in changed <==> PoolChanged(old(poolIndexes), pools, k)
    {
      hide Tracked, PoolChanged;
      changed := {};
      var todo := pools.Keys;
      NothingTracked(poolIndexes, pools);
      while todo != {}
        invariant todo <= pools.Keys && Tracked(old(poolIndexes), poolIndexes, pools, todo, changed)
        decreases |todo|
      {
        var id :| id in todo;
        PoolTracked(old(poolIndexes), poolIndexes, pools, todo, changed, id);
        if !(id in poolIndexes && poolIndexes[id] == pools[id].byIndex) {
          changed := changed + {id};
          poolIndexes := poolIndexes[id := pools[id].byIndex];
        }
        todo := todo - {id};
      }
      var gone := poolIndexes.Keys - pools.Keys;
      AllTracked(old(poolIndexes), poolIndexes, pools, changed);
      changed := changed + gone;
      poolIndexes := poolIndexes - gone;
    }

    /** Mark every cached entry of a changed pool. */
    method MarkChanged(touched: set<Key>, changed: set<Key>) returns (dirty: set<Key>)
      requires Structured()
      ensures dirty == touched + set k | k in index && PoolKeyOf(k) in changed
    {
      hide Ascends, TotalLen;
      dirty := touched;
      for n := 0 to |keys|
        invariant forall k :: k in dirty <==> k in touched || (k in Composites(keys)[..n] && PoolKeyOf(k) in changed)
      {
        assert Composites(keys)[..n + 1] == Composites(keys)[..n] + [keys[n].composite];
        if PoolKeyOf(keys[n].composite) in changed {
          dirty := dirty + {keys[n].composite};
        }
      }
      assert Composites(keys)[..|keys|] == Composites(keys);
      forall k | k in Composites(keys) ensures k in index {
        var i :| 0 <= i < |keys| && Composites(keys)[i] == k;
        assert keys[i].composite == k;
      }
    }

    // ---- assembling the output -----------------------------------------------------------------

    lemma ListedInOrder()
      requires Indexed() && Listed(keys, index)
      ensures |Composites(keys)| == |keys|
      ensures Composites(keys) == Ascending(Outs().Keys) && Outs().Keys == index.Keys
      ensures forall i :: 0 <= i < |keys| ==>
                var k := Composites(keys)[i];
                k in Outs() && Outs()[k] == keys[i].out && BlockAt(Blocks(), k) == keys[i].block
    {
      var ks := Composites(keys);
      forall i | 0 <= i < |keys| ensures ks[i] in index && index[ks[i]] == keys[i] {
        assert keys[i].composite == ks[i];
      }
      assert Outs().Keys == index.Keys;
      AscendsUnique(ks, Ascending(index.Keys));
    }

    lemma ListedEntry(n: nat)
      requires Indexed() && Listed(keys, index) && n < |keys|
      ensures n < |Composites(keys)|
      ensures var k := Composites(keys)[n];
        k in Outs() && Outs()[k] == keys[n].out && BlockAt(Blocks(), k) == keys[n].block
    {
      ListedInOrder();
    }

    /** Concatenate the cached entries in key order. */
    method Assemble() returns (pending: seq<Pending>, users: seq<Row>)
      requires Structured()
      ensures pending == Slice(Outs())
      ensures users == Flatten(Ascending(Outs().Keys), Blocks())
    {
      hide Listed, TotalLen, Ascends, Composites, Indexed, BlockAt, Slice;
      StructuredIndexed();
      ListedInOrder();
      ghost var ks, outs, blocks := Composites(keys), Outs(), Blocks();
      hide Outs, Blocks, Structured, Flatten, Listing;
      NothingListed(outs, blocks);
      assert ks[..0] == [];
      pending, users := [], [];
      for n := 0 to |keys|
        invariant Indexed() && Listed(keys, index) && Outs() == outs && Blocks() == blocks
        invariant pending == Listing(ks[..n], outs)
        invariant users == Flatten(ks[..n], blocks)
      {
        ListedEntry(n);
        FlattenNext(ks, n, blocks);
        ListingNext(ks, n, outs);
        pending := pending + [keys[n].out];
        users := users + keys[n].block;
      }
      assert ks[..|keys|] == ks;
      AssembledInOrder(outs, ks);
    }

    // ---- reseeding -----------------------------------------------------------------------------

    method CacheEntry(k: Key, p: Pending, block: seq<Row>)
      requires Indexed() && k !in index && usersLen == TotalLen(Blocks())
      modifies this`usersLen, this`index, this`Repr
      ensures Indexed() && fresh(Repr - old(Repr)) && old(Repr) <= Repr && usersLen == TotalLen(Blocks())
      ensures Blocks() == old(Blocks())[k := block] && Outs() == old(Outs())[k := p]
    {
      hide TotalLen;
      ghost var blocks := Blocks();
      TotalLenPut(blocks, k, block);
      TotalLenAbsent(blocks, k);
      var entry := PutEntry(k, p, block);
      usersLen := usersLen + |entry.block|;
      assert Blocks()[k] == entry.block;
    }

    /** Sort the entries of the index by (address, pool). */
    method SortKeys()
      requires Indexed()
      modifies this`keys
      ensures Listed(keys, index)
    {
      hide Ascending, Listed;
      var es := index;
      var ks := Ascending(es.Keys);
      assert forall i :: 0 <= i < |ks| ==> ks[i] in ks;
      keys := seq(|ks|, i requires 0 <= i < |ks| => es[ks[i]]);
      AscendingListed(keys, index, ks);
    }

    method ClearCache()
      modifies this`keys, this`index, this`usersLen, this`Repr
      ensures Indexed() && fresh(Repr) && usersLen == TotalLen(Blocks())
      ensures Blocks() == map[] && Outs() == map[]
    {
      keys, index, usersLen, Repr := [], map[], 0, {};
      NoLength();
      assert Blocks() == map[];
    }

    lemma OutsIndexed()
      requires Indexed()
      ensures Outs().Keys == index.Keys
    {
    }

    /** The entry loop of reseed, in whatever order the pending map is iterated. */
    method CacheAll(b: Mirror)
      requires Resolved(b)
      modifies this`keys, this`index, this`usersLen, this`Repr
      ensures Indexed() && fresh(Repr) && usersLen == TotalLen(Blocks())
      ensures Outs() == b.pending && Blocks() == SortedBlocks(b)
    {
      hide TotalLen, Resolved, SortedBlock, SortedBlocks, UpToDate, Indexed, Outs, Blocks;
      ClearCache();
      var todo := b.pending.Keys;
      NothingCached(b);
      while todo != {}
        invariant Indexed() && fresh(Repr) && usersLen == TotalLen(Blocks())
        invariant todo <= b.pending.Keys && Outs().Keys == b.pending.Keys - todo
        invariant UpToDate(Outs(), Blocks(), b, todo)
        decreases |todo|
      {
        var k :| k in todo;
        ghost var outs, blocks := Outs(), Blocks();
        OutsIndexed();
        var block, _ := ComputeBlock(b, k, None);
        CacheEntry(k, b.pending[k], block);
        UpToDateStep(outs, blocks, b, todo, k);
        todo := todo - {k};
      }
      AllUpToDate(Outs(), Blocks(), b);
    }

    /** reseed: load the mirror from the prior state and rebuild every cache from it. */
    method Reseed(prior: Option<LedgerState>)
      requires prior.Some? ==> WellFormed(prior.value)
      modifies this
      ensures Structured() && fresh(Repr)
      ensures builder != null && fresh(builder) && Carried() == LoadPrior(prior) && Caches(Carried())
      ensures lastOut == old(lastOut)
    {
      hide TotalLen, Resolved, SortedBlocks, WellFormed, IndexMap, Indexed, Listed, LoadPrior, Outs, Blocks;
      builder := LoadedBuilder(prior);
      var b := builder.View();
      LoadedResolved(prior);
      CacheAll(b);
      SortKeys();
      poolIndexes := IndexMap(b.pools);
    }

    // ---- snapshot ------------------------------------------------------------------------------

    /** The cache maintenance of snapshot: find the changed pools, union their entries into the dirty set, update the
        dirty entries. */
    method Refresh(ghost before: Mirror, ghost b: Mirror, c: Mirror, closeTime: Option<int>, seqNum: int)
      returns (dirty: set<Key>, diagnostics: seq<Diagnostic>)
      requires Structured() && Caches(before)
      requires Coherent(before) && Coherent(b) && PendingFrame(before, b) && c == Built(b, closeTime)
      modifies this`keys, this`index, this`usersLen, this`poolIndexes, this`Repr, Repr
      ensures Structured() && fresh(Repr - old(Repr))
      ensures Caches(c) && Resolved(c)
      ensures dirty == b.dirtyUsers + RemapDirty(IndexMap(before.pools), b)
      ensures diagnostics == Diagnostics(c, dirty, seqNum)
    {
      hide Built, Coherent, PendingFrame, IndexMap, Indexed, Listed, TotalLen, SortedBlocks, UpToDate, Diagnostics,
        PoolChanged, RemapDirty, Resolved, DiagnosticBlocks, Flatten, SortBy, Enumerates;
      BuiltScratch(b, closeTime);
      var changed := TrackPools(c.pools);
      dirty := MarkChanged(c.dirtyUsers, changed);
      CachedKeys();
      ReadyToUpdate(before, b, closeTime, changed, dirty);
      var skipped, order := UpdateDirty(c, dirty, seqNum);
      diagnostics := SortBy(skipped, DiagnosticKey);
      SkippedInOrder(c, dirty, seqNum, order, skipped);
    }

    /** The tail of snapshot: the outcome, from the built mirror and the caches. */
    method Output(c: Mirror, dirty: set<Key>, holders: set<Key>, diagnostics: seq<Diagnostic>) returns (o: Outcome)
      requires Structured() && Caches(c) && Resolved(c) && Publishable(c)
      ensures o == Outcome(Publish(c, Users(c), Slice(c.pending)), DirtyList(dirty, c.pending.Keys),
                           DirtyList(holders, c.backstopUsers.Keys), diagnostics, TemporaryList(c))
    {
      hide Listed, TotalLen, Indexed, SortedBlocks, IndexMap, Publish, Users, Slice, DirtyList, TemporaryList, Resolved,
        Flatten, Publishable, Outs, Blocks, Structured;
      BlocksAreTheGlobalSort(c);
      var pending, users := Assemble();
      o := Assembled(c, users, pending, dirty, holders, diagnostics);
    }

    /** snapshot: build the mirror, refresh the caches, and assemble the output from them. */
    method Snapshot(ghost before: Mirror, seqNum: int, closeTime: Option<int>) returns (o: Outcome)
      requires Structured() && Caches(before) && builder != null
      requires Coherent(before) && Coherent(Carried()) && PendingFrame(before, Carried())
      modifies this, Repr, builder
      ensures Structured() && fresh(Repr - old(Repr)) && builder == old(builder)
      ensures Carried() == Built(old(Carried()), closeTime) && Caches(Carried()) && Resolved(Carried())
      ensures o == Expose(old(Carried()), old(Carried()).dirtyUsers + RemapDirty(IndexMap(before.pools), old(Carried())),
                          seqNum, closeTime)
      ensures lastOut == old(lastOut)
    {
      hide Built, Coherent, PendingFrame, IndexMap, Indexed, Listed, TotalLen, SortedBlocks, BackstopDirty, Publish,
        Users, Slice, DirtyList, Diagnostics, TemporaryList, RemapDirty, Resolved, Flatten, Expose, StateBuilder.View,
        Publishable;
      ghost var b := Carried();
      var c, holders := BuildMirror(builder, closeTime);
      var dirty, diagnostics := Refresh(before, b, c, closeTime, seqNum);
      o := Output(c, dirty, holders, diagnostics);
      ExposedFrom(b, closeTime, dirty, seqNum);
    }

    // ---- one ledger ----------------------------------------------------------------------------

    /** The call continues the carried mirror: the prior is the very state returned last. */
    ghost predicate Continues(prior: StateRef?)
      reads this`builder, this`lastOut
    {
      builder != null && prior == lastOut
    }

    /** The mirror a ledger's changes are applied to. */
    ghost function Start(prior: StateRef?): Mirror
      reads this`builder, this`lastOut, builder
    {
      if Continues(prior) then NormalizeCarry(Carried()) else LoadPrior(StateOf(prior))
    }

    /** The head of decodeState: continue the carried mirror, or reseed it from the prior state. */
    method Prepare(prior: StateRef?)
      requires Valid()
      requires prior != null ==> WellFormed(prior.state)
      modifies this, builder
      ensures Structured() && fresh(Repr - old(Repr))
      ensures builder != null && (builder == old(builder) || fresh(builder))
      ensures Carried() == old(Start(prior)) && Caches(Carried()) && Coherent(Carried())
    {
      hide IndexMap, Listed, TotalLen, SortedBlocks, Resolved, LoadPrior, NormalizeCarry, WellFormed, Users, Load,
        AllDecodable, Coherent;
      if builder == null || prior != lastOut {
        LoadCoherent(StateOf(prior));
        Reseed(StateOf(prior));
      } else {
        SameCacheAfterNormalize(Carried());
        builder.NormalizeCarry();
      }
    }

    /** decodeState on the incremental strategy. A prior that is not the very state returned last reseeds the mirror, and
        the outcome is the reference reducer's on that prior; any other call continues the carried mirror, whether its
        blobs decode or not, and when they do the outcome is again the reference's. */
    method DecodeState(cfg: Owned, prior: StateRef?, changes: seq<Change>, seqNum: int, closeTime: Option<int>)
      returns (out: StateRef, o: Outcome)
      requires Valid()
      requires prior != null ==> WellFormed(prior.state)
      modifies this, Repr, builder
      ensures Valid() && fresh(Repr - old(Repr))
      ensures builder != null && (builder == old(builder) || fresh(builder))
      ensures Carried() == Built(ApplyAll(cfg, old(Start(prior)), changes, seqNum), closeTime)
      ensures o == if old(Continues(prior)) then CarriedDecode(old(Carried()), cfg, changes, seqNum, closeTime)
                   else Decode(cfg, StateOf(prior), changes, seqNum, closeTime)
      ensures old(Continues(prior) ==> AllDecodable(Carried())) ==>
                o == Decode(cfg, StateOf(prior), changes, seqNum, closeTime)
      ensures fresh(out) && out.state == o.state && lastOut == out
    {
      hide Built, Coherent, PendingFrame, IndexMap, Indexed, Listed, TotalLen, SortedBlocks, RemapDirty, Resolved, Expose,
        ApplyAll, NormalizeCarry, LoadPrior, WellFormed, AllDecodable, Users, Load, PublishAll, Decode, DecodeFrom,
        StateBuilder.View;
      ghost var continues := Continues(prior);
      DecodesAlike(cfg, prior, changes, seqNum, closeTime);
      Prepare(prior);
      ghost var before := Carried();
      builder.ApplyChanges(cfg, changes, seqNum);
      Ready(cfg, before, changes, seqNum, closeTime);
      o := Snapshot(before, seqNum, closeTime);
      out := new StateRef(o.state);
      lastOut := out;
    }

    /** Decoding from the start mirror is the reference decode, when the call reseeds or the carried blobs decode. */
    lemma DecodesAlike(cfg: Owned, prior: StateRef?, changes: seq<Change>, seqNum: int, closeTime: Option<int>)
      requires Valid()
      requires prior != null ==> WellFormed(prior.state)
      ensures (Continues(prior) ==> AllDecodable(Carried())) ==>
                DecodeFrom(Start(prior), cfg, changes, seqNum, closeTime)
                == Decode(cfg, StateOf(prior), changes, seqNum, closeTime)
    {
      hide Coherent, WellFormed, NormalizeCarry, Load, Users, Resolved, Listed, Indexed, TotalLen, DecodeFrom, Decode,
        AllDecodable, Caches, Structured;
      ReferenceDecodesFrom(cfg, StateOf(prior), changes, seqNum, closeTime);
    }

    lemma CachedKeys()
      requires Indexed()
      ensures Outs().Keys == index.Keys
    {
    }
  }

  lemma SameBlocks(b: Mirror, c: Mirror)
    requires b.pending == c.pending && IndexMap(b.pools) == IndexMap(c.pools)
    ensures SortedBlocks(b) == SortedBlocks(c)
  {
    hide RowBlock, SortBy, IndexMap;
    forall k | k in b.pending ensures SortedBlock(b, k) == SortedBlock(c, k) {
      SameResolution(b, c, k);
    }
  }

  lemma SortedBlockAt(b: Mirror, k: Key)
    ensures k in b.pending ==> k in SortedBlocks(b) && SortedBlocks(b)[k] == SortedBlock(b, k)
    ensures k in SortedBlocks(b) ==> k in b.pending
  {
    hide SortedBlock;
  }

  /** The dirty set of snapshot is the reference's, and outside it the cache already fits the built mirror. */
  lemma ReadyToUpdate(before: Mirror, b: Mirror, closeTime: Option<int>, changed: set<Key>, dirty: set<Key>)
    requires Coherent(before) && Coherent(b) && PendingFrame(before, b)
    requires forall k :: k in changed <==> PoolChanged(IndexMap(before.pools), Built(b, closeTime).pools, k)
    requires dirty == b.dirtyUsers + set k | k in before.pending && PoolKeyOf(k) in changed
    ensures dirty == b.dirtyUsers + RemapDirty(IndexMap(before.pools), b)
    ensures UpToDate(before.pending, SortedBlocks(before), Built(b, closeTime), dirty)
    ensures Resolved(Built(b, closeTime))
  {
    hide Coherent, Built, IndexMap, PoolChanged, RemapDirty, RowBlock, SortBy, Resolved, SortedBlocks, SortedBlock, PendingFrame;
    var indexes, c := IndexMap(before.pools), Built(b, closeTime);
    BuiltIndexes(b, closeTime);
    BuiltPending(b, closeTime);
    forall k ensures PoolChanged(indexes, c.pools, k) <==> PoolChanged(indexes, b.pools, k) {
      SameChange(indexes, b.pools, c.pools, k);
    }
    CoherentPending(before);
    CoherentPending(b);
    SameDirty(before, b, indexes);
    assert dirty == CachedDirty(before.pending.Keys, indexes, b);
    forall k | k !in dirty
      ensures SameAt(before.pending, c.pending, k) && (k in SortedBlocks(before) <==> k in c.pending)
              && (k in SortedBlocks(before) ==> SortedBlocks(before)[k] == SortedBlock(c, k))
    {
      Untouched(before, b, indexes, k);
      BuiltRows(b, closeTime, k);
      SortedBlockAt(before, k);
      BlockOf(before, k);
      BlockOf(c, k);
    }
  }

  lemma SameChange(indexes: map<Key, map<int, string>>, p: map<Key, Pool>, q: map<Key, Pool>, k: Key)
    requires IndexMap(p) == IndexMap(q)
    ensures PoolChanged(indexes, p, k) <==> PoolChanged(indexes, q, k)
  {
    var m, n := IndexMap(p), IndexMap(q);
    assert (k in p <==> k in m) && (k in q <==> k in n);
  }

  lemma SkippedInOrder(c: Mirror, dirty: set<Key>, n: int, order: seq<Key>, skipped: seq<Diagnostic>)
    requires Resolved(c) && Enumerates(order, dirty) && skipped == Flatten(order, DiagnosticBlocks(c, dirty, n))
    ensures SortBy(skipped, DiagnosticKey) == Diagnostics(c, dirty, n)
  {
    hide DiagnosticBlocks, SortBy, Diagnostics;
    SortBySorts(skipped, DiagnosticKey);
    DiagnosticsAnyOrder(c, dirty, n, order, SortBy(skipped, DiagnosticKey));
  }

  lemma BuiltBackstops(b: Mirror, closeTime: Option<int>)
    requires Coherent(b)
    ensures PoolsPricedBy(Built(b, closeTime), FeedPricedAssets(b) + b.changedPriceAssets)
         == PoolsPricedBy(b, FeedPricedAssets(b) + b.changedPriceAssets)
  {
    hide FeedPricedAssets, Finalize, PricePool, ResolveAggregators, Coherent;
    var c := Built(b, closeTime);
    forall k | k in b.pools
      ensures c.pools[k].info.backstop == b.pools[k].info.backstop && c.pools[k].info.contract == b.pools[k].info.contract
    {
      BuiltInfo(b, ResolveAggregators(b, closeTime), b.pools[k]);
    }
  }

  lemma BuiltInfo(b: Mirror, oracles: map<Key, Oracle>, p: Pool)
    ensures BuildPool(b, oracles, p).info.backstop == p.info.backstop
    ensures BuildPool(b, oracles, p).info.contract == p.info.contract
  {
    hide ReserveSlice, Published, Ambiguous, Unknown;
  }

  lemma CoherentPools(b: Mirror)
    requires Coherent(b)
    ensures KeyedBy(b.aggregators, AggregatorKey) && ReservesKeyed(b.pools)
  {
    hide KeyedBy, ReservesKeyed;
    PoolsKeyed(b.pools);
  }

  lemma SameCacheAfterNormalize(m: Mirror)
    ensures var n := NormalizeCarry(m);
            n.pending == m.pending && SortedBlocks(n) == SortedBlocks(m) && IndexMap(n.pools) == IndexMap(m.pools)
  {
    hide SortedBlocks, IndexMap;
    SameBlocks(NormalizeCarry(m), m);
  }

  /** What a ledger's changes leave is ready to be published, and publishing it reestablishes the carry. */
  lemma Ready(cfg: Owned, l: Mirror, changes: seq<Change>, seqNum: int, closeTime: Option<int>)
    requires Coherent(l)
    ensures var b := ApplyAll(cfg, l, changes, seqNum);
            && Coherent(b) && PendingFrame(l, b)
            && DecodeFrom(l, cfg, changes, seqNum, closeTime)
               == Expose(b, b.dirtyUsers + RemapDirty(IndexMap(l.pools), b), seqNum, closeTime)
            && Coherent(NormalizeCarry(Built(b, closeTime)))
            && var s := DecodeFrom(l, cfg, changes, seqNum, closeTime).state;
               && s == PublishAll(Built(b, closeTime)) && WellFormed(s)
               && (AllDecodable(Built(b, closeTime)) <==> NormalizeCarry(Built(b, closeTime)) == Load(s))
               && s.users == Users(Built(b, closeTime))
  {
    hide Built, Coherent, PendingFrame, RemapDirty, IndexMap, ApplyAll, NormalizeCarry, WellFormed, AllDecodable, Users,
      Load, Publish, Slice, Diagnostics, DirtyList, BackstopDirty, TemporaryList;
    var b := ApplyAll(cfg, l, changes, seqNum);
    ApplyAllStep(cfg, l, changes, seqNum);
    BuiltPending(b, closeTime);
    SamePendingDecodable(b, Built(b, closeTime));
    PublishedWellFormed(b, closeTime);
    PublishedUsers(Built(b, closeTime));
    ReloadCoherent(b, closeTime);
    CarryEqualsReload(b, closeTime, Users(Built(b, closeTime)));
  }

  /** The reference decodes from the mirror it loads. */
  lemma ReferenceDecodesFrom(cfg: Owned, prior: Option<LedgerState>, changes: seq<Change>, seqNum: int,
                             closeTime: Option<int>)
    requires prior.Some? ==> WellFormed(prior.value)
    ensures Decode(cfg, prior, changes, seqNum, closeTime)
         == DecodeFrom(LoadPrior(prior), cfg, changes, seqNum, closeTime)
  {
    hide WellFormed, LoadPrior, ApplyAll, Expose, RemapDirty, Coherent, AllDecodable, PriorIndexes;
    LoadCoherent(prior);
    var indexes, pools := PriorIndexes(prior), LoadPrior(prior).pools;
    assert indexes == IndexMap(pools);
  }

  lemma BuiltScratch(b: Mirror, closeTime: Option<int>)
    ensures var c := Built(b, closeTime);
            && c.pending == b.pending && c.backstopUsers == b.backstopUsers && c.aggregators == b.aggregators
            && c.changedFeeds == b.changedFeeds && c.changedPriceAssets == b.changedPriceAssets
            && c.dirtyBackstops == b.dirtyBackstops && c.dirtyTemporary == b.dirtyTemporary && c.dirtyUsers == b.dirtyUsers
            && c.auctions == b.auctions && c.queued == b.queued
  {
  }

  lemma SameFeedPriced(b: Mirror, c: Mirror)
    requires c.aggregators == b.aggregators && c.changedFeeds == b.changedFeeds
    ensures FeedPricedAssets(c) == FeedPricedAssets(b)
  {
  }

  lemma SameTemporary(b: Mirror, c: Mirror)
    requires c.dirtyTemporary == b.dirtyTemporary && c.auctions == b.auctions && c.queued == b.queued
    ensures TemporaryList(c) == TemporaryList(b)
  {
  }

  lemma SameHolders(b: Mirror, c: Mirror, pools: set<string>)
    requires c.backstopUsers == b.backstopUsers
    ensures Holders(c, pools) == Holders(b, pools)
  {
  }

  lemma BuiltBackstopDirty(b: Mirror, closeTime: Option<int>)
    requires Coherent(b)
    ensures BackstopDirty(Built(b, closeTime)) == BackstopDirty(b)
  {
    hide Built, Holders, FeedPricedAssets, PoolsPricedBy, Coherent;
    var c := Built(b, closeTime);
    BuiltScratch(b, closeTime);
    SameFeedPriced(b, c);
    BuiltBackstops(b, closeTime);
    SameHolders(b, c, PoolsPricedBy(b, FeedPricedAssets(b) + b.changedPriceAssets));
  }

  /** What the strategy reads off the built mirror is what the reference reads off the mirror before build. */
  lemma ExposedFrom(b: Mirror, closeTime: Option<int>, dirty: set<Key>, seqNum: int)
    requires Coherent(b)
    ensures var c := Built(b, closeTime);
            Expose(b, dirty, seqNum, closeTime) ==
            Outcome(Publish(c, Users(c), Slice(c.pending)), DirtyList(dirty, c.pending.Keys),
                    DirtyList(BackstopDirty(c), c.backstopUsers.Keys), Diagnostics(c, dirty, seqNum), TemporaryList(c))
  {
    hide Built, BackstopDirty, Publish, Users, Slice, DirtyList, Diagnostics, TemporaryList, Coherent;
    BuiltScratch(b, closeTime);
    BuiltBackstopDirty(b, closeTime);
    SameTemporary(b, Built(b, closeTime));
  }

  lemma LoadedResolved(prior: Option<LedgerState>)
    requires prior.Some? ==> WellFormed(prior.value)
    ensures Resolved(LoadPrior(prior))
  {
    hide WellFormed, LoadPrior;
    LoadCoherent(prior);
  }

  lemma NoLength()
    ensures TotalLen<Row>(map[]) == 0
  {
    var e: map<Key, seq<Row>> := map[];
    assert e.Keys == {};
    assert Ascending(e.Keys) == [];
  }

  lemma NothingCached(b: Mirror)
    ensures UpToDate(map[], map[], b, b.pending.Keys)
  {
    hide SortedBlock;
  }

  lemma FlattenNext(ks: seq<Key>, n: nat, blocks: map<Key, seq<Row>>)
    requires n < |ks|
    ensures Flatten(ks[..n + 1], blocks) == Flatten(ks[..n], blocks) + BlockAt(blocks, ks[n])
  {
    assert ks[..n + 1][..n] == ks[..n];
  }

  /** The outputs of a list of keys, in order. */
  function Listing(ks: seq<Key>, outs: map<Key, Pending>): seq<Pending> {
    if ks == [] then []
    else
      var k := ks[|ks| - 1];
      Listing(ks[..|ks| - 1], outs) + if k in outs then [outs[k]] else []
  }

  lemma ListingNext(ks: seq<Key>, n: nat, outs: map<Key, Pending>)
    requires n < |ks| && ks[n] in outs
    ensures Listing(ks[..n + 1], outs) == Listing(ks[..n], outs) + [outs[ks[n]]]
  {
    assert ks[..n + 1][..n] == ks[..n];
  }

  lemma NothingListed(outs: map<Key, Pending>, blocks: map<Key, seq<Row>>)
    ensures Listing([], outs) == [] && Flatten([], blocks) == []
  {
  }

  lemma {:induction false} ListingAt(ks: seq<Key>, outs: map<Key, Pending>)
    requires forall i :: 0 <= i < |ks| ==> ks[i] in outs
    ensures |Listing(ks, outs)| == |ks|
    ensures forall i :: 0 <= i < |ks| ==> Listing(ks, outs)[i] == outs[ks[i]]
  {
    if ks != [] { ListingAt(ks[..|ks| - 1], outs); }
  }

  lemma AssembledInOrder(outs: map<Key, Pending>, ks: seq<Key>)
    requires ks == Ascending(outs.Keys)
    ensures Listing(ks, outs) == Slice(outs)
  {
    assert forall i :: 0 <= i < |ks| ==> ks[i] in ks;
    ListingAt(ks, outs);
  }

  lemma NoDiagnosticBlock(b: Mirror, k: Key, n: int)
    ensures k !in b.pending ==> DiagnosticBlock(b, k, n) == []
  {
  }

  /** Outside `todo` the cache holds the mirror's entries and their fresh resolutions. */
  ghost predicate UpToDate(outs: map<Key, Pending>, blocks: map<Key, seq<Row>>, b: Mirror, todo: set<Key>) {
    forall k :: k !in todo ==>
      SameAt(outs, b.pending, k) && (k in blocks <==> k in b.pending) && (k in blocks ==> blocks[k] == SortedBlock(b, k))
  }

  lemma AllUpToDate(outs: map<Key, Pending>, blocks: map<Key, seq<Row>>, b: Mirror)
    requires UpToDate(outs, blocks, b, {})
    ensures outs == b.pending && blocks == SortedBlocks(b)
  {
    hide SortedBlock;
    assert forall k :: k in outs <==> k in b.pending by {
      forall k ensures k in outs <==> k in b.pending { assert k !in {}; }
    }
    assert outs.Keys == b.pending.Keys;
    assert blocks.Keys == b.pending.Keys;
  }

  lemma UpToDateStep(outs: map<Key, Pending>, blocks: map<Key, seq<Row>>, b: Mirror, todo: set<Key>, k: Key)
    requires UpToDate(outs, blocks, b, todo)
    ensures UpToDate(if k in b.pending then outs[k := b.pending[k]] else outs - {k},
                     if k in b.pending then blocks[k := SortedBlock(b, k)] else blocks - {k}, b, todo - {k})
  {
    hide SortedBlock;
  }

  lemma NothingYet(b: Mirror, dirty: set<Key>, n: int)
    ensures Flatten([], DiagnosticBlocks(b, dirty, n)) == [] && Enumerates([], dirty - dirty)
  {
    assert dirty - dirty == {};
  }

  lemma OneMoreBlock(b: Mirror, dirty: set<Key>, n: int, order: seq<Key>, k: Key)
    requires k in dirty
    ensures Flatten(order + [k], DiagnosticBlocks(b, dirty, n))
         == Flatten(order, DiagnosticBlocks(b, dirty, n)) + DiagnosticBlock(b, k, n)
  {
    hide UserDiagnostics;
    assert (order + [k])[..|order|] == order;
  }

  lemma InsertedMembers(es: seq<UserEntry>, at: nat, e: UserEntry, fs: seq<UserEntry>)
    requires at <= |es| && fs == es[..at] + [e] + es[at..]
    ensures forall x :: x in fs <==> x == e || x in es
    ensures forall k :: k in Composites(fs) <==> k == e.composite || k in Composites(es)
  {
    assert es == es[..at] + es[at..];
    assert Composites(fs) == Composites(es)[..at] + [e.composite] + Composites(es)[at..];
    assert Composites(es) == Composites(es)[..at] + Composites(es)[at..];
  }

  lemma RemovedMembers(es: seq<UserEntry>, at: nat, e: UserEntry, fs: seq<UserEntry>)
    requires at < |es| && es[at] == e && fs == es[..at] + es[at + 1..] && Ascends(Composites(es))
    ensures forall x :: x in fs ==> x in es && x.composite != e.composite
    ensures forall k :: k in Composites(es) ==> k in Composites(fs) || k == e.composite
  {
    var ks := Composites(es);
    AscendsDistinct(ks);
    assert Composites(fs) == ks[..at] + ks[at + 1..];
    assert ks == ks[..at] + [e.composite] + ks[at + 1..];
    forall x | x in fs ensures x in es && x.composite != e.composite {
      var i :| 0 <= i < |fs| && fs[i] == x;
      var j := if i < at then i else i + 1;
      assert es[j] == x && ks[j] == x.composite && ks[at] == e.composite;
    }
  }

  /** The snapshot and the changed pools once all but the pools left to do have been compared. */
  ghost predicate Tracked(was: map<Key, map<int, string>>, now: map<Key, map<int, string>>, pools: map<Key, Pool>,
                          todo: set<Key>, changed: set<Key>) {
    && now.Keys == was.Keys + (pools.Keys - todo)
    && (forall k :: k in now ==> now[k] == if k in pools && k !in todo then pools[k].byIndex else was[k])
    && (forall k :: k in changed <==> k in pools && k !in todo && PoolChanged(was, pools, k))
  }

  lemma NothingTracked(was: map<Key, map<int, string>>, pools: map<Key, Pool>)
    ensures Tracked(was, was, pools, pools.Keys, {})
  {
  }

  lemma PoolTracked(was: map<Key, map<int, string>>, now: map<Key, map<int, string>>, pools: map<Key, Pool>,
                    todo: set<Key>, changed: set<Key>, id: Key)
    requires Tracked(was, now, pools, todo, changed) && id in todo && todo <= pools.Keys
    ensures if id in now && now[id] == pools[id].byIndex then Tracked(was, now, pools, todo - {id}, changed)
            else Tracked(was, now[id := pools[id].byIndex], pools, todo - {id}, changed + {id})
  {
  }

  lemma AllTracked(was: map<Key, map<int, string>>, now: map<Key, map<int, string>>, pools: map<Key, Pool>,
                   changed: set<Key>)
    requires Tracked(was, now, pools, {}, changed)
    ensures now - (now.Keys - pools.Keys) == IndexMap(pools)
    ensures forall k :: k in changed + (now.Keys - pools.Keys) <==> PoolChanged(was, pools, k)
  {
  }

  /** at is where k belongs in an ascending list. */
  ghost predicate IsPosition(ks: seq<Key>, k: Key, at: nat) {
    && at <= |ks|
    && (forall i :: 0 <= i < at ==> KeyLess(ks[i], k))
    && (forall i :: at <= i < |ks| ==> !KeyLess(ks[i], k))
  }

  lemma EntryAtOrAfter(keys: seq<UserEntry>, entry: UserEntry, at: nat)
    requires entry in keys && IsPosition(Composites(keys), entry.composite, at)
    ensures entry in keys[at..]
  {
    hide KeyLess;
    var i :| 0 <= i < |keys| && keys[i] == entry;
    assert Composites(keys)[i] == entry.composite;
    KeyTrichotomy(entry.composite, entry.composite);
    assert keys[at..][i - at] == entry;
  }

  lemma AllBelow(ks: seq<Key>, mid: nat, k: Key)
    requires Ascends(ks) && mid < |ks| && KeyLess(ks[mid], k)
    ensures forall i :: 0 <= i <= mid ==> KeyLess(ks[i], k)
  {
    hide KeyLess;
    forall i | 0 <= i < mid ensures KeyLess(ks[i], k) {
      KeyTransitive(ks[i], ks[mid], k);
    }
  }

  lemma NoneBelow(ks: seq<Key>, mid: nat, k: Key)
    requires Ascends(ks) && mid < |ks| && !KeyLess(ks[mid], k)
    ensures forall i :: mid <= i < |ks| ==> !KeyLess(ks[i], k)
  {
    hide KeyLess;
    forall i | mid < i < |ks| ensures !KeyLess(ks[i], k) {
      if KeyLess(ks[i], k) { KeyTransitive(ks[mid], ks[i], k); }
    }
  }

  lemma InsertAscends(ks: seq<Key>, at: nat, k: Key)
    requires Ascends(ks) && IsPosition(ks, k, at) && k !in ks
    ensures Ascends(ks[..at] + [k] + ks[at..])
  {
    hide KeyLess;
    var r := ks[..at] + [k] + ks[at..];
    forall i | at <= i < |ks| ensures KeyLess(k, ks[i]) {
      KeyTrichotomy(k, ks[i]);
      assert ks[i] in ks;
    }
    forall i, j | 0 <= i < j < |r| ensures KeyLess(r[i], r[j]) {
      if i < at && j > at { assert KeyLess(ks[i], ks[j - 1]); }
      if i > at { assert KeyLess(ks[i - 1], ks[j - 1]); }
    }
  }

  lemma RemoveAscends(ks: seq<Key>, at: nat)
    requires Ascends(ks) && at < |ks|
    ensures Ascends(ks[..at] + ks[at + 1..])
  {
    hide KeyLess;
    var r := ks[..at] + ks[at + 1..];
    forall i, j | 0 <= i < j < |r| ensures KeyLess(r[i], r[j]) {
      var p, q := if i < at then i else i + 1, if j < at then j else j + 1;
      assert KeyLess(ks[p], ks[q]);
    }
  }
}
