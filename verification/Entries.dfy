/** Listing the entries of a map, whose iteration order is arbitrary, and sorting them. */
module Entries {
  import opened Keys
  import opened Slices
  import opened Blocks

  /** One entry of a map as a block of its own. */
  function Singles<V>(m: map<Key, V>): map<Key, seq<V>> { map k | k in m :: [m[k]] }

  lemma {:induction false} SinglesInOrder<V>(m: map<Key, V>, ks: seq<Key>)
    requires forall k <- ks :: k in m
    ensures Flatten(ks, Singles(m)) == seq(|ks|, i requires 0 <= i < |ks| => m[ks[i]])
  {
    if ks != [] {
      var init, k := ks[..|ks| - 1], ks[|ks| - 1];
      assert k in ks && forall j <- init :: j in ks;
      SinglesInOrder(m, init);
    }
  }

  /** However a map is iterated and however unstable the sort, sorting its entries by their key gives its slice. */
  lemma EntriesAnyOrder<V>(m: map<Key, V>, keyOf: V -> Key, order: seq<Key>)
    requires KeyedBy(m, keyOf) && Enumerates(order, m.Keys)
    ensures SortBy(Flatten(order, Singles(m)), keyOf) == Slice(m)
  {
    ListedAnyOrder(m, order);
    SliceAscends(m, keyOf);
    SliceFacts(m, keyOf);
    DistinctDetermines(Slice(m), keyOf);
    hide Slice, Flatten, SortBy;
    SortSame(Slice(m), Flatten(order, Singles(m)), keyOf);
    SortBySorts(Slice(m), keyOf);
    SortUnique(Slice(m), SortBy(Slice(m), keyOf), keyOf);
  }

  lemma ListedAnyOrder<V>(m: map<Key, V>, order: seq<Key>)
    requires Enumerates(order, m.Keys)
    ensures multiset(Flatten(order, Singles(m))) == multiset(Slice(m))
  {
    var ks := Ascending(m.Keys);
    DistinctMultiset(ks, m.Keys);
    FlattenAnyOrder(order, ks, Singles(m));
    SinglesInOrder(m, ks);
  }

  lemma SliceAscends<V>(m: map<Key, V>, keyOf: V -> Key)
    requires KeyedBy(m, keyOf)
    ensures SortedBy(Slice(m), keyOf)
  {
    SliceFacts(m, keyOf);
    var ks, s := Ascending(m.Keys), Slice(m);
    forall i, j | 0 <= i < j < |s| ensures !KeyLess(keyOf(s[j]), keyOf(s[i])) {
      KeyTrichotomy(ks[i], ks[j]);
    }
  }

  /** Append every entry of a map, in whatever order it is iterated. */
  method ListEntries<V>(m: map<Key, V>) returns (rows: seq<V>, ghost order: seq<Key>)
    ensures Enumerates(order, m.Keys) && rows == Flatten(order, Singles(m))
  {
    hide Enumerates, Flatten;
    rows, order := [], [];
    var todo := m.Keys;
    NothingListed(m);
    while todo != {}
      invariant todo <= m.Keys && Enumerates(order, m.Keys - todo)
      invariant rows == Flatten(order, Singles(m))
      decreases |todo|
    {
      var k :| k in todo;
      FlattenAppend(order, [k], Singles(m));
      FlattenOne(k, Singles(m));
      EnumeratesMore(order, m.Keys - todo, k);
      assert m.Keys - (todo - {k}) == (m.Keys - todo) + {k};
      rows, order, todo := rows + [m[k]], order + [k], todo - {k};
    }
    assert m.Keys - todo == m.Keys;
  }

  lemma NothingListed<V>(m: map<Key, V>)
    ensures Enumerates([], m.Keys - m.Keys) && Flatten([], Singles(m)) == []
  {
    assert m.Keys - m.Keys == {};
  }

  /** Append the entries of a map and sort them by their key. */
  method SortedEntries<V>(m: map<Key, V>, keyOf: V -> Key) returns (rows: seq<V>)
    requires KeyedBy(m, keyOf)
    ensures rows == Slice(m)
  {
    hide Enumerates, Flatten, KeyedBy, SortBy, Slice;
    ghost var order;
    rows, order := ListEntries(m);
    EntriesAnyOrder(m, keyOf, order);
    rows := SortBy(rows, keyOf);
  }

  /** Append the entries of a map and sort them by another key that tells them apart. */
  method EntriesBy<V>(m: map<Key, V>, sortKey: V -> Key) returns (rows: seq<V>)
    requires KeyDetermines(Slice(m), sortKey)
    ensures rows == SortBy(Slice(m), sortKey)
  {
    hide Enumerates, Flatten, KeyDetermines, SortBy, Slice;
    ghost var order;
    rows, order := ListEntries(m);
    ListedAnyOrder(m, order);
    SortSame(Slice(m), rows, sortKey);
    rows := SortBy(rows, sortKey);
  }
}
