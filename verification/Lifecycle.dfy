/** The auction and queued-reserve lifecycle rows of a ledger, and the replica a consumer keeps by replaying them. */
module Lifecycle {
  import opened Options
  import opened Keys
  import opened Slices
  import opened Reserves
  import opened Mirror
  import opened Carry
  import opened Reference
  import opened Run

  /** One lifecycle row: the entry as it now is, or the identity of an entry that is gone. */
  datatype LifecycleRow<V> = Active(key: Key, value: V) | Inactive(key: Key)

  /** The entry a temporary-state change is about, when it is of the given kind. */
  function Subject(d: DirtyPosition, auctions: bool): Option<Key> {
    if !d.pair.Temporary? then None
    else if d.pair.what == "auction" then
      if auctions then Some(AuctionOf(d.pair.pool, d.pair.user, d.pair.auctionType)) else None
    else if auctions then None else Some(ReserveOf(d.pair.pool, d.pair.asset))
  }

  function RowFor<V>(m: map<Key, V>, k: Key, upsert: bool): seq<LifecycleRow<V>> {
    if !upsert then [Inactive(k)] else if k in m then [Active(k, m[k])] else []
  }

  function RowsFor<V>(m: map<Key, V>, changes: seq<DirtyPosition>, auctions: bool): seq<LifecycleRow<V>> {
    if changes == [] then []
    else
      var d := changes[|changes| - 1];
      RowsFor(m, changes[..|changes| - 1], auctions)
      + if Subject(d, auctions).Some? then RowFor(m, Subject(d, auctions).value, d.upsert) else []
  }

  /** ProjectTemporaryStateChanges: index the state's entries, then emit one row per change. An upsert whose entry the
      state does not hold emits nothing. */
  method ProjectTemporaryStateChanges(state: LedgerState, changes: seq<DirtyPosition>)
    returns (auctions: seq<LifecycleRow<Auction>>, queued: seq<LifecycleRow<QueuedReserve>>)
    ensures auctions == RowsFor(IndexBy(state.auctions, AuctionKey), changes, true)
    ensures queued == RowsFor(IndexBy(state.queued, QueuedKey), changes, false)
  {
    var live := IndexBy(state.auctions, AuctionKey);
    var waiting := IndexBy(state.queued, QueuedKey);
    auctions, queued := [], [];
    for n := 0 to |changes|
      invariant auctions == RowsFor(live, changes[..n], true)
      invariant queued == RowsFor(waiting, changes[..n], false)
    {
      var d := changes[n];
      assert changes[..n + 1][..n] == changes[..n];
      if d.pair.Temporary? {
        if d.pair.what == "auction" {
          var k := AuctionOf(d.pair.pool, d.pair.user, d.pair.auctionType);
          if !d.upsert {
            auctions := auctions + [Inactive(k)];
          } else if k in live {
            auctions := auctions + [Active(k, live[k])];
          }
        } else {
          var k := ReserveOf(d.pair.pool, d.pair.asset);
          if !d.upsert {
            queued := queued + [Inactive(k)];
          } else if k in waiting {
            queued := queued + [Active(k, waiting[k])];
          }
        }
      }
    }
    assert changes[..|changes|] == changes;
  }

  /** What a consumer does with the rows: insert the active ones, delete the inactive ones. */
  function Replay<V>(replica: map<Key, V>, rows: seq<LifecycleRow<V>>): map<Key, V> {
    if rows == [] then replica
    else
      var m := Replay(replica, rows[..|rows| - 1]);
      match rows[|rows| - 1]
      case Active(k, v) => m[k := v]
      case Inactive(k) => m - {k}
  }

  lemma {:induction false} ReplayAppend<V>(replica: map<Key, V>, a: seq<LifecycleRow<V>>, b: seq<LifecycleRow<V>>)
    ensures Replay(replica, a + b) == Replay(Replay(replica, a), b)
  {
    if b == [] {
      assert a + b == a;
    } else {
      assert (a + b)[..|a + b| - 1] == a + b[..|b| - 1];
      ReplayAppend(replica, a, b[..|b| - 1]);
    }
  }

  ghost predicate Covers(changes: seq<DirtyPosition>, auctions: bool, k: Key) {
    exists d :: d in changes && Subject(d, auctions) == Some(k)
  }

  /** Replaying rows that report the current presence moves exactly the covered keys to their current value. */
  lemma {:induction false} ReplayCovers<V>(replica: map<Key, V>, m: map<Key, V>, changes: seq<DirtyPosition>, auctions: bool, k: Key)
    requires forall d :: d in changes && Subject(d, auctions).Some? ==> (d.upsert <==> Subject(d, auctions).value in m)
    ensures SameAt(Replay(replica, RowsFor(m, changes, auctions)), if Covers(changes, auctions, k) then m else replica, k)
  {
    if changes != [] {
      var t, d := changes[..|changes| - 1], changes[|changes| - 1];
      assert changes == t + [d] && d in changes;
      assert forall e :: e in t ==> e in changes;
      ReplayCovers(replica, m, t, auctions, k);
      assert Covers(changes, auctions, k) <==> Covers(t, auctions, k) || Subject(d, auctions) == Some(k);
      var s := Subject(d, auctions);
      if s.Some? {
        var one := RowFor(m, s.value, d.upsert);
        ReplayAppend(replica, RowsFor(m, t, auctions), one);
        ReplayOne(Replay(replica, RowsFor(m, t, auctions)), m, s.value, k);
      } else {
        assert RowsFor(m, changes, auctions) == RowsFor(m, t, auctions);
      }
    }
  }

  lemma ReplayOne<V>(replica: map<Key, V>, m: map<Key, V>, j: Key, k: Key)
    ensures SameAt(Replay(replica, RowFor(m, j, j in m)), if j == k then m else replica, k)
  {
    var rows := RowFor(m, j, j in m);
    assert rows[..|rows| - 1] == [];
    assert Replay(replica, rows[..|rows| - 1]) == replica;
  }

  // ---- one ledger ------------------------------------------------------------------------------

  lemma TemporaryListed(b: Mirror, k: Key)
    requires k in b.dirtyTemporary
    ensures DirtyPosition(k, TemporaryLive(b, k)) in TemporaryList(b)
  {
    hide TemporaryLive;
    var ks, ds := Ascending(b.dirtyTemporary), TemporaryList(b);
    assert k in ks;
    var i :| 0 <= i < |ks| && ks[i] == k;
    assert ds[i] == DirtyPosition(k, TemporaryLive(b, k));
  }

  lemma TemporaryUpserts(b: Mirror)
    ensures forall d :: d in TemporaryList(b) && Subject(d, true).Some? ==> (d.upsert <==> Subject(d, true).value in b.auctions)
    ensures forall d :: d in TemporaryList(b) && Subject(d, false).Some? ==> (d.upsert <==> Subject(d, false).value in b.queued)
  {
  }

  lemma TemporaryCovers(b: Mirror)
    ensures forall p, u, t :: TemporaryAuction(p, u, t) in b.dirtyTemporary ==> Covers(TemporaryList(b), true, AuctionOf(p, u, t))
    ensures forall p, a :: TemporaryQueued(p, a) in b.dirtyTemporary ==> Covers(TemporaryList(b), false, ReserveOf(p, a))
  {
    hide TemporaryList, TemporaryLive;
    var ds := TemporaryList(b);
    forall p, u, t | TemporaryAuction(p, u, t) in b.dirtyTemporary ensures Covers(ds, true, AuctionOf(p, u, t)) {
      var k := TemporaryAuction(p, u, t);
      TemporaryListed(b, k);
      assert Subject(DirtyPosition(k, TemporaryLive(b, k)), true) == Some(AuctionOf(p, u, t));
    }
    forall p, a | TemporaryQueued(p, a) in b.dirtyTemporary ensures Covers(ds, false, ReserveOf(p, a)) {
      var k := TemporaryQueued(p, a);
      TemporaryListed(b, k);
      assert "queued_reserve"[0] == 'q' && "auction"[0] == 'a';
      assert Subject(DirtyPosition(k, TemporaryLive(b, k)), false) == Some(ReserveOf(p, a));
    }
  }

  /** A ledger's changes, replayed on what was loaded, give what they left. */
  lemma ReplayLedger(before: Mirror, b: Mirror)
    requires TemporaryFrame(before, b)
    requires KeyedBy(before.auctions, AuctionKey) && KeyedBy(b.auctions, AuctionKey)
    requires KeyedBy(before.queued, QueuedKey) && KeyedBy(b.queued, QueuedKey)
    ensures Replay(before.auctions, RowsFor(b.auctions, TemporaryList(b), true)) == b.auctions
    ensures Replay(before.queued, RowsFor(b.queued, TemporaryList(b), false)) == b.queued
  {
    hide TemporaryList, RowsFor, Replay, Subject;
    var ds := TemporaryList(b);
    TemporaryUpserts(b);
    TemporaryCovers(b);
    var r, q := Replay(before.auctions, RowsFor(b.auctions, ds, true)), Replay(before.queued, RowsFor(b.queued, ds, false));
    forall k ensures SameAt(r, b.auctions, k) {
      ReplayCovers(before.auctions, b.auctions, ds, true, k);
      if !Covers(ds, true, k) {
        if k.AuctionOf? {
          assert TemporaryAuction(k.pool, k.user, k.auctionType) !in b.dirtyTemporary;
        } else {
          NotFiled(before.auctions, AuctionKey, k);
          NotFiled(b.auctions, AuctionKey, k);
        }
      }
    }
    forall k ensures SameAt(q, b.queued, k) {
      ReplayCovers(before.queued, b.queued, ds, false, k);
      if !Covers(ds, false, k) {
        if k.ReserveOf? {
          assert TemporaryQueued(k.pool, k.asset) !in b.dirtyTemporary;
        } else {
          NotFiled(before.queued, QueuedKey, k);
          NotFiled(b.queued, QueuedKey, k);
        }
      }
    }
    SameMaps(r, b.auctions);
    SameMaps(q, b.queued);
  }

  lemma NotFiled<V>(m: map<Key, V>, keyOf: V -> Key, k: Key)
    requires KeyedBy(m, keyOf) && forall v :: keyOf(v) != k
    ensures k !in m
  {
  }

  lemma SameMaps<V>(m: map<Key, V>, n: map<Key, V>)
    requires forall k :: SameAt(m, n, k)
    ensures m == n
  {
    assert forall k :: k in m <==> k in n by {
      forall k ensures k in m <==> k in n { assert SameAt(m, n, k); }
    }
    assert m.Keys == n.Keys;
    forall k | k in m ensures m[k] == n[k] { assert SameAt(m, n, k); }
  }

  // ---- whole runs ------------------------------------------------------------------------------

  /** The last outcome's rows replayed on what the replica held before. */
  function AuctionsReplayed(replica: map<Key, Auction>, o: Outcome): map<Key, Auction> {
    Replay(replica, RowsFor(IndexBy(o.state.auctions, AuctionKey), o.temporary, true))
  }

  function QueuedReplayed(replica: map<Key, QueuedReserve>, o: Outcome): map<Key, QueuedReserve> {
    Replay(replica, RowsFor(IndexBy(o.state.queued, QueuedKey), o.temporary, false))
  }

  /** The outcome of a run's last ledger. */
  function LastOutcome(prior: Option<LedgerState>, ledgers: seq<Ledger>): Outcome
    requires ledgers != []
  {
    var l, before := ledgers[|ledgers| - 1], ReferenceRun(prior, ledgers[..|ledgers| - 1]);
    Decode(l.cfg, PriorOf(prior, before, l), l.changes, l.seqNum, l.closeTime)
  }

  /** The auction replica after a run: every ledger's rows replayed, from what the initial prior holds. A caller who goes
      back to another state takes the replica back with it. */
  function AuctionReplica(prior: Option<LedgerState>, ledgers: seq<Ledger>): map<Key, Auction> {
    if ledgers == [] then AuctionsOf(prior)
    else
      var l := ledgers[|ledgers| - 1];
      var base := if l.given.Other? then AuctionsOf(l.given.state) else AuctionReplica(prior, ledgers[..|ledgers| - 1]);
      AuctionsReplayed(base, LastOutcome(prior, ledgers))
  }

  function QueuedReplica(prior: Option<LedgerState>, ledgers: seq<Ledger>): map<Key, QueuedReserve> {
    if ledgers == [] then QueuedOf(prior)
    else
      var l := ledgers[|ledgers| - 1];
      var base := if l.given.Other? then QueuedOf(l.given.state) else QueuedReplica(prior, ledgers[..|ledgers| - 1]);
      QueuedReplayed(base, LastOutcome(prior, ledgers))
  }

  function AuctionsOf(s: Option<LedgerState>): map<Key, Auction> {
    if s.Some? then IndexBy(s.value.auctions, AuctionKey) else map[]
  }

  function QueuedOf(s: Option<LedgerState>): map<Key, QueuedReserve> {
    if s.Some? then IndexBy(s.value.queued, QueuedKey) else map[]
  }

  lemma {:induction false} CollectIsIndex<V>(s: seq<V>, keyOf: V -> Key)
    ensures Collect(s, keyOf, Keep<V>) == IndexBy(s, keyOf)
  {
    if s != [] { CollectIsIndex(s[..|s| - 1], keyOf); }
  }

  lemma DecodedEntries(cfg: Owned, prior: Option<LedgerState>, changes: seq<Change>, seqNum: int, closeTime: Option<int>)
    requires prior.Some? ==> WellFormed(prior.value)
    ensures var l := LoadPrior(prior);
            var b := ApplyAll(cfg, l, changes, seqNum);
            var o := Decode(cfg, prior, changes, seqNum, closeTime);
            && Coherent(l) && Coherent(b) && TemporaryFrame(l, b)
            && l.auctions == AuctionsOf(prior) && l.queued == QueuedOf(prior)
            && IndexBy(o.state.auctions, AuctionKey) == b.auctions && IndexBy(o.state.queued, QueuedKey) == b.queued
            && o.temporary == TemporaryList(b)
  {
    hide Coherent, ApplyAll, WellFormed, Collect, IndexBy, Slice, Users, Diagnostics, DirtyList, TemporaryList,
      BackstopDirty, RemapDirty, PriorIndexes, TemporaryFrame, PendingFrame;
    var l := LoadPrior(prior);
    var b := ApplyAll(cfg, l, changes, seqNum);
    LoadCoherent(prior);
    ApplyAllStep(cfg, l, changes, seqNum);
    if prior.Some? {
      CollectIsIndex(prior.value.auctions, AuctionKey);
      CollectIsIndex(prior.value.queued, QueuedKey);
    }
    CoherentEntries(b);
    IndexOfSlice(b.auctions, AuctionKey);
    IndexOfSlice(b.queued, QueuedKey);
  }

  lemma CoherentEntries(b: Mirror)
    requires Coherent(b)
    ensures KeyedBy(b.auctions, AuctionKey) && KeyedBy(b.queued, QueuedKey)
  {
  }

  /** One ledger's rows, replayed on the entries of the prior it was decoded from, give the entries it publishes. */
  lemma ReplayDecoded(cfg: Owned, prior: Option<LedgerState>, changes: seq<Change>, seqNum: int, closeTime: Option<int>)
    requires prior.Some? ==> WellFormed(prior.value)
    ensures var o := Decode(cfg, prior, changes, seqNum, closeTime);
            && AuctionsReplayed(AuctionsOf(prior), o) == AuctionsOf(Some(o.state))
            && QueuedReplayed(QueuedOf(prior), o) == QueuedOf(Some(o.state))
  {
    hide Decode, WellFormed, Coherent, LoadPrior, ApplyAll, TemporaryFrame, TemporaryList, RowsFor, IndexBy, Replay, KeyedBy;
    DecodedEntries(cfg, prior, changes, seqNum, closeTime);
    var m := LoadPrior(prior);
    var b := ApplyAll(cfg, m, changes, seqNum);
    CoherentEntries(m);
    CoherentEntries(b);
    ReplayLedger(m, b);
  }

  /** Over every run, replaying each ledger's lifecycle rows keeps a replica equal to the published auctions and queued
      reserves, including entries created and removed within one ledger, and through restores and rewinds. */
  lemma {:induction false} ReplicaFollowsRun(prior: Option<LedgerState>, ledgers: seq<Ledger>)
    requires WellFormedRun(prior, ledgers)
    ensures var outcomes := ReferenceRun(prior, ledgers);
            && AuctionReplica(prior, ledgers) == AuctionsOf(StateAfter(prior, outcomes))
            && QueuedReplica(prior, ledgers) == QueuedOf(StateAfter(prior, outcomes))
    decreases |ledgers|
  {
    hide Decode, WellFormed, WellFormedRun, AuctionsReplayed, QueuedReplayed, AuctionsOf, QueuedOf;
    if ledgers != [] {
      var init, l := ledgers[..|ledgers| - 1], ledgers[|ledgers| - 1];
      WellFormedPrefix(prior, ledgers);
      LastPriorWellFormed(prior, ledgers);
      ReplicaFollowsRun(prior, init);
      ReplayDecoded(l.cfg, PriorOf(prior, ReferenceRun(prior, init), l), l.changes, l.seqNum, l.closeTime);
    }
  }
}
