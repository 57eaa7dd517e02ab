/** Concatenating per-key blocks of rows, in key order and in any other order. */
module Blocks {
  import opened Keys
  import opened Slices

  /** A listing of a set, each member once, in some order. */
  ghost predicate Enumerates(order: seq<Key>, s: set<Key>) { multiset(order) == multiset(s) }

  lemma EnumeratesMore(order: seq<Key>, s: set<Key>, k: Key)
    requires Enumerates(order, s) && k !in s
    ensures Enumerates(order + [k], s + {k})
  {
    assert multiset(s + {k}) == multiset(s) + multiset{k};
  }

  lemma {:induction false} DistinctMultiset(ks: seq<Key>, s: set<Key>)
    requires Ascends(ks) && (forall k :: k in ks <==> k in s)
    ensures Enumerates(ks, s)
  {
    if ks == [] {
      assert s == {};
    } else {
      var t, k := ks[..|ks| - 1], ks[|ks| - 1];
      AscendsInit(ks);
      assert ks == t + [k];
      DistinctMultiset(t, s - {k});
      assert multiset(s) == multiset(s - {k}) + multiset{k};
    }
  }

  function BlockAt<V>(blocks: map<Key, seq<V>>, k: Key): seq<V> { if k in blocks then blocks[k] else [] }

  /** The blocks of a list of keys, one after the other. */
  function Flatten<V>(ks: seq<Key>, blocks: map<Key, seq<V>>): seq<V> {
    if ks == [] then [] else Flatten(ks[..|ks| - 1], blocks) + BlockAt(blocks, ks[|ks| - 1])
  }

  /** Every row of a block belongs to the block's key. */
  ghost predicate OwnedBy<V>(blocks: map<Key, seq<V>>, ownerOf: V -> Key) {
    forall k, v :: k in blocks && v in blocks[k] ==> ownerOf(v) == k
  }

  lemma {:induction false} FlattenAppend<V>(a: seq<Key>, b: seq<Key>, blocks: map<Key, seq<V>>)
    ensures Flatten(a + b, blocks) == Flatten(a, blocks) + Flatten(b, blocks)
  {
    if b == [] {
      assert a + b == a;
    } else {
      assert (a + b)[..|a + b| - 1] == a + b[..|b| - 1];
      FlattenAppend(a, b[..|b| - 1], blocks);
    }
  }

  lemma FlattenOne<V>(k: Key, blocks: map<Key, seq<V>>)
    ensures Flatten([k], blocks) == BlockAt(blocks, k)
  {
    assert [k][..0] == [];
    assert Flatten([k][..0], blocks) == [];
  }

  /** The rows gathered do not depend on the order of the keys, only their arrangement does. */
  lemma {:induction false} FlattenAnyOrder<V>(a: seq<Key>, b: seq<Key>, blocks: map<Key, seq<V>>)
    requires multiset(a) == multiset(b)
    ensures multiset(Flatten(a, blocks)) == multiset(Flatten(b, blocks))
  {
    SameElements(a, b);
    if a != [] {
      var t, k := a[..|a| - 1], a[|a| - 1];
      assert a == t + [k] && k in b;
      var i :| 0 <= i < |b| && b[i] == k;
      var u, w := b[..i], b[i + 1..];
      assert b == (u + [k]) + w;
      CancelOne(t, u, w, k);
      FlattenAnyOrder(t, u + w, blocks);
      FlattenAppend(u + [k], w, blocks);
      FlattenAppend(u, [k], blocks);
      FlattenAppend(u, w, blocks);
      FlattenOne(k, blocks);
    }
  }

  lemma {:induction false} FlattenFrom<V>(ks: seq<Key>, blocks: map<Key, seq<V>>, ownerOf: V -> Key)
    requires OwnedBy(blocks, ownerOf)
    ensures forall v :: v in Flatten(ks, blocks) ==> ownerOf(v) in ks && ownerOf(v) in blocks && v in blocks[ownerOf(v)]
  {
    if ks != [] {
      var t, k := ks[..|ks| - 1], ks[|ks| - 1];
      FlattenFrom(t, blocks, ownerOf);
      assert forall x :: x in t ==> x in ks;
      assert k in ks;
    }
  }

  predicate BelowAll(ks: seq<Key>, last: Key) {
    forall k :: k in ks ==> KeyLess(k, last) && k != last
  }

  lemma AscendsInit(ks: seq<Key>)
    requires Ascends(ks) && ks != []
    ensures Ascends(ks[..|ks| - 1])
    ensures BelowAll(ks[..|ks| - 1], ks[|ks| - 1])
  {
    KeyTrichotomy(ks[|ks| - 1], ks[|ks| - 1]);
  }

  /** Blocks without duplicates, of different owners, concatenate without duplicates. */
  lemma {:induction false} FlattenDistinct<V>(ks: seq<Key>, blocks: map<Key, seq<V>>, ownerOf: V -> Key, keyOf: V -> Key)
    requires Ascends(ks) && OwnedBy(blocks, ownerOf)
    requires forall k :: k in blocks ==> DistinctKeys(blocks[k], keyOf)
    requires forall v, w :: keyOf(v) == keyOf(w) ==> ownerOf(v) == ownerOf(w)
    ensures DistinctKeys(Flatten(ks, blocks), keyOf)
  {
    if ks != [] {
      var t, k := ks[..|ks| - 1], ks[|ks| - 1];
      AscendsInit(ks);
      FlattenDistinct(t, blocks, ownerOf, keyOf);
      FlattenFrom(t, blocks, ownerOf);
      var f, g := Flatten(t, blocks), BlockAt(blocks, k);
      forall i, j | 0 <= i < j < |f + g| ensures keyOf((f + g)[i]) != keyOf((f + g)[j]) {
        if i < |f| <= j {
          assert f[i] in f && g[j - |f|] in g;
          assert ownerOf(f[i]) != ownerOf(g[j - |f|]);
        }
      }
    }
  }

  /** Sorted blocks concatenated in key order are sorted, when the key orders rows by owner first. */
  lemma {:induction false} FlattenSorted<V>(ks: seq<Key>, blocks: map<Key, seq<V>>, ownerOf: V -> Key, keyOf: V -> Key)
    requires Ascends(ks) && OwnedBy(blocks, ownerOf)
    requires forall k :: k in blocks ==> SortedBy(blocks[k], keyOf)
    requires forall v, w :: KeyLess(ownerOf(v), ownerOf(w)) ==> !KeyLess(keyOf(w), keyOf(v))
    ensures SortedBy(Flatten(ks, blocks), keyOf)
  {
    if ks != [] {
      var t, k := ks[..|ks| - 1], ks[|ks| - 1];
      AscendsInit(ks);
      FlattenSorted(t, blocks, ownerOf, keyOf);
      FlattenFrom(t, blocks, ownerOf);
      var f, g := Flatten(t, blocks), BlockAt(blocks, k);
      forall i, j | 0 <= i < j < |f + g| ensures !KeyLess(keyOf((f + g)[j]), keyOf((f + g)[i])) {
        if i < |f| <= j {
          assert f[i] in f && g[j - |f|] in g;
          assert KeyLess(ownerOf(f[i]), ownerOf(g[j - |f|]));
        }
      }
    }
  }

  /** Sorting every block keeps the gathered rows. */
  lemma {:induction false} FlattenSortedBlocks<V>(ks: seq<Key>, blocks: map<Key, seq<V>>, sorted: map<Key, seq<V>>)
    requires forall k :: multiset(BlockAt(blocks, k)) == multiset(BlockAt(sorted, k))
    ensures multiset(Flatten(ks, blocks)) == multiset(Flatten(ks, sorted))
  {
    if ks != [] { FlattenSortedBlocks(ks[..|ks| - 1], blocks, sorted); }
  }

  lemma {:induction false} FlattenSame<V>(ks: seq<Key>, m: map<Key, seq<V>>, n: map<Key, seq<V>>)
    requires forall k :: k in ks ==> BlockAt(m, k) == BlockAt(n, k)
    ensures Flatten(ks, m) == Flatten(ks, n)
  {
    if ks != [] {
      assert ks[|ks| - 1] in ks;
      assert forall k :: k in ks[..|ks| - 1] ==> k in ks;
      FlattenSame(ks[..|ks| - 1], m, n);
    }
  }

  // ---- selecting the rows of one owner ---------------------------------------------------------

  function RowsOf<V>(rows: seq<V>, ownerOf: V -> Key, k: Key): seq<V> {
    if rows == [] then []
    else RowsOf(rows[..|rows| - 1], ownerOf, k) + if ownerOf(rows[|rows| - 1]) == k then [rows[|rows| - 1]] else []
  }

  lemma {:induction false} RowsOfAppend<V>(a: seq<V>, b: seq<V>, ownerOf: V -> Key, k: Key)
    ensures RowsOf(a + b, ownerOf, k) == RowsOf(a, ownerOf, k) + RowsOf(b, ownerOf, k)
  {
    if b == [] {
      assert a + b == a;
    } else {
      assert (a + b)[..|a + b| - 1] == a + b[..|b| - 1];
      RowsOfAppend(a, b[..|b| - 1], ownerOf, k);
    }
  }

  lemma {:induction false} RowsOfBlock<V>(rows: seq<V>, ownerOf: V -> Key, owner: Key, k: Key)
    requires forall v :: v in rows ==> ownerOf(v) == owner
    ensures RowsOf(rows, ownerOf, k) == if k == owner then rows else []
  {
    if rows != [] {
      var init, last := rows[..|rows| - 1], rows[|rows| - 1];
      assert rows == init + [last];
      RowsOfBlock(init, ownerOf, owner, k);
    }
  }

  /** Scanning the concatenation for one owner finds exactly that owner's block. */
  lemma {:induction false} ScanFindsBlock<V>(ks: seq<Key>, blocks: map<Key, seq<V>>, ownerOf: V -> Key, k: Key)
    requires Ascends(ks) && OwnedBy(blocks, ownerOf)
    ensures RowsOf(Flatten(ks, blocks), ownerOf, k) == if k in ks then BlockAt(blocks, k) else []
  {
    if ks != [] {
      var t, l := ks[..|ks| - 1], ks[|ks| - 1];
      AscendsInit(ks);
      ScanFindsBlock(t, blocks, ownerOf, k);
      RowsOfAppend(Flatten(t, blocks), BlockAt(blocks, l), ownerOf, k);
      RowsOfBlock(BlockAt(blocks, l), ownerOf, l, k);
      assert k in ks <==> k in t || k == l;
    }
  }
}
