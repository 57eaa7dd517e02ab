/** Slices of a ledger state: sorted by key, filled from maps whose iteration order is arbitrary. */
module Slices {
  import opened Options
  import opened Keys

  // ---- a map as a slice ------------------------------------------------------------------------

  /** The values of a map in ascending key order. */
  function Slice<V>(m: map<Key, V>): (s: seq<V>)
  {
    var ks := Ascending(m.Keys);
    seq(|ks|, i requires 0 <= i < |ks| => m[ks[i]])
  }

  /** Filling a map from a slice, a later row replacing an earlier one with the same key. */
  function IndexBy<V>(s: seq<V>, keyOf: V -> Key): (m: map<Key, V>)
  {
    if s == [] then map[] else IndexBy(s[..|s| - 1], keyOf)[keyOf(s[|s| - 1]) := s[|s| - 1]]
  }

  ghost predicate KeyedBy<V>(m: map<Key, V>, keyOf: V -> Key) {
    forall k :: k in m ==> keyOf(m[k]) == k
  }

  ghost predicate DistinctKeys<V>(s: seq<V>, keyOf: V -> Key) {
    forall i, j :: 0 <= i < j < |s| ==> keyOf(s[i]) != keyOf(s[j])
  }

  lemma {:induction false} IndexByAt<V>(s: seq<V>, keyOf: V -> Key)
    requires DistinctKeys(s, keyOf)
    ensures forall i :: 0 <= i < |s| ==> keyOf(s[i]) in IndexBy(s, keyOf) && IndexBy(s, keyOf)[keyOf(s[i])] == s[i]
    ensures forall k :: k in IndexBy(s, keyOf) ==> exists i :: 0 <= i < |s| && keyOf(s[i]) == k
    ensures KeyedBy(IndexBy(s, keyOf), keyOf)
  {
    if s != [] {
      var t := s[..|s| - 1];
      IndexByAt(t, keyOf);
      forall i | 0 <= i < |s|
        ensures keyOf(s[i]) in IndexBy(s, keyOf) && IndexBy(s, keyOf)[keyOf(s[i])] == s[i]
      {
        if i < |s| - 1 { assert t[i] == s[i]; }
      }
      forall k | k in IndexBy(s, keyOf) ensures exists i :: 0 <= i < |s| && keyOf(s[i]) == k {
        if k in IndexBy(t, keyOf) {
          var i :| 0 <= i < |t| && keyOf(t[i]) == k;
          assert keyOf(s[i]) == k;
        } else {
          assert keyOf(s[|s| - 1]) == k;
        }
      }
    }
  }

  lemma SliceFacts<V>(m: map<Key, V>, keyOf: V -> Key)
    requires KeyedBy(m, keyOf)
    ensures |Slice(m)| == |m.Keys|
    ensures forall i :: 0 <= i < |m.Keys| ==> keyOf(Slice(m)[i]) == Ascending(m.Keys)[i]
    ensures DistinctKeys(Slice(m), keyOf)
  {
    AscendsDistinct(Ascending(m.Keys));
  }

  lemma SlicePosition<V>(m: map<Key, V>, k: Key) returns (i: nat)
    requires k in m
    ensures i < |Slice(m)| && Ascending(m.Keys)[i] == k && Slice(m)[i] == m[k]
  {
    var ks := Ascending(m.Keys);
    assert k in ks;
    i :| 0 <= i < |ks| && ks[i] == k;
  }

  /** A keyed map survives being written as a sorted slice and loaded back. */
  lemma IndexOfSlice<V>(m: map<Key, V>, keyOf: V -> Key)
    requires KeyedBy(m, keyOf)
    ensures IndexBy(Slice(m), keyOf) == m
  {
    hide IndexBy, Slice, Ascending, DistinctKeys;
    SliceFacts(m, keyOf);
    var s, n := Slice(m), IndexBy(Slice(m), keyOf);
    forall k ensures k in m <==> k in n {
      if k in m {
        var i := SlicePosition(m, k);
        IndexByFind(s, keyOf, s[i]);
      }
      if k in n {
        var x := IndexByFrom(s, keyOf, k);
        InSlice(m, x);
      }
    }
    forall k | k in m ensures n[k] == m[k] {
      var i := SlicePosition(m, k);
      IndexByFind(s, keyOf, s[i]);
    }
  }

  lemma {:induction false} DistinctCounts<V>(s: seq<V>, keyOf: V -> Key, x: V)
    requires DistinctKeys(s, keyOf)
    ensures multiset(s)[x] <= 1
  {
    if s != [] {
      assert s == [s[0]] + s[1..];
      assert DistinctKeys(s[1..], keyOf);
      DistinctCounts(s[1..], keyOf, x);
      forall y | y in s[1..] ensures y != s[0] {
        var i :| 0 <= i < |s[1..]| && s[1..][i] == y;
        assert keyOf(s[0]) != keyOf(s[i + 1]);
      }
    }
  }

  lemma DistinctDetermines<V>(s: seq<V>, keyOf: V -> Key)
    requires DistinctKeys(s, keyOf)
    ensures KeyDetermines(s, keyOf)
  {
    forall x, y | x in s && y in s && keyOf(x) == keyOf(y) ensures x == y {
      var i :| 0 <= i < |s| && s[i] == x;
      var j :| 0 <= j < |s| && s[j] == y;
      assert !(i < j) && !(j < i);
    }
  }

  lemma CountsDistinct<V>(s: seq<V>, keyOf: V -> Key)
    requires KeyDetermines(s, keyOf)
    requires forall x :: x in s ==> multiset(s)[x] <= 1
    ensures DistinctKeys(s, keyOf)
  {
    forall i, j | 0 <= i < j < |s| ensures keyOf(s[i]) != keyOf(s[j]) {
      if s[i] == s[j] {
        CountedTwice(s, i, j);
        assert false;
      }
    }
  }

  lemma CountedTwice<V>(s: seq<V>, i: nat, j: nat)
    requires i < j < |s| && s[i] == s[j]
    ensures s[i] in s && multiset(s)[s[i]] >= 2
  {
    assert s == s[..j] + s[j..];
    assert s[..j][i] == s[i] && s[j..][0] == s[j];
    assert multiset(s)[s[i]] == multiset(s[..j])[s[i]] + multiset(s[j..])[s[i]];
  }

  lemma DistinctRearranged<V>(s: seq<V>, t: seq<V>, keyOf: V -> Key)
    requires DistinctKeys(s, keyOf) && multiset(s) == multiset(t)
    ensures DistinctKeys(t, keyOf)
  {
    SameElements(s, t);
    DistinctDetermines(s, keyOf);
    forall x | x in t ensures multiset(t)[x] <= 1 {
      DistinctCounts(s, keyOf, x);
    }
    CountsDistinct(t, keyOf);
  }

  lemma IndexByFind<V>(s: seq<V>, keyOf: V -> Key, x: V)
    requires DistinctKeys(s, keyOf) && x in s
    ensures keyOf(x) in IndexBy(s, keyOf) && IndexBy(s, keyOf)[keyOf(x)] == x
  {
    IndexByAt(s, keyOf);
  }

  lemma IndexByFrom<V>(s: seq<V>, keyOf: V -> Key, k: Key) returns (x: V)
    requires DistinctKeys(s, keyOf) && k in IndexBy(s, keyOf)
    ensures x in s && keyOf(x) == k
  {
    IndexByAt(s, keyOf);
    var i :| 0 <= i < |s| && keyOf(s[i]) == k;
    x := s[i];
  }

  lemma IndexBySame<V>(s: seq<V>, t: seq<V>, keyOf: V -> Key)
    requires DistinctKeys(s, keyOf) && DistinctKeys(t, keyOf)
    requires forall x :: x in s <==> x in t
    ensures IndexBy(s, keyOf) == IndexBy(t, keyOf)
  {
    forall k | k in IndexBy(s, keyOf)
      ensures k in IndexBy(t, keyOf) && IndexBy(t, keyOf)[k] == IndexBy(s, keyOf)[k]
    {
      var x := IndexByFrom(s, keyOf, k);
      IndexByFind(s, keyOf, x);
      IndexByFind(t, keyOf, x);
    }
    forall k | k in IndexBy(t, keyOf) ensures k in IndexBy(s, keyOf) {
      var x := IndexByFrom(t, keyOf, k);
      IndexByFind(s, keyOf, x);
    }
  }

  /** A keyed map also survives any rearrangement of its slice. */
  lemma IndexOfRearranged<V>(m: map<Key, V>, s: seq<V>, keyOf: V -> Key)
    requires KeyedBy(m, keyOf)
    requires multiset(s) == multiset(Slice(m))
    ensures DistinctKeys(s, keyOf)
    ensures IndexBy(s, keyOf) == m
  {
    SliceFacts(m, keyOf);
    SameElements(s, Slice(m));
    DistinctRearranged(Slice(m), s, keyOf);
    IndexOfSlice(m, keyOf);
    IndexBySame(s, Slice(m), keyOf);
  }

  // ---- sorting ---------------------------------------------------------------------------------

  /** Keys never decrease along the slice. */
  ghost predicate SortedBy<V>(s: seq<V>, keyOf: V -> Key) {
    forall i, j :: 0 <= i < j < |s| ==> !KeyLess(keyOf(s[j]), keyOf(s[i]))
  }

  /** What `sort.Slice` may return: some sorted rearrangement. */
  ghost predicate IsSortOf<V>(out: seq<V>, s: seq<V>, keyOf: V -> Key) {
    SortedBy(out, keyOf) && multiset(out) == multiset(s)
  }

  /** Rows that compare equal are equal. */
  ghost predicate KeyDetermines<V>(s: seq<V>, keyOf: V -> Key) {
    forall x, y :: x in s && y in s && keyOf(x) == keyOf(y) ==> x == y
  }

  function Insert<V>(x: V, s: seq<V>, keyOf: V -> Key): (r: seq<V>)
    ensures multiset(r) == multiset(s) + multiset{x}
  {
    if s == [] || KeyLess(keyOf(x), keyOf(s[0])) then [x] + s
    else
      assert s == [s[0]] + s[1..];
      [s[0]] + Insert(x, s[1..], keyOf)
  }

  function SortBy<V>(s: seq<V>, keyOf: V -> Key): (r: seq<V>)
    ensures multiset(r) == multiset(s)
  {
    if s == [] then []
    else
      assert s == [s[0]] + s[1..];
      Insert(s[0], SortBy(s[1..], keyOf), keyOf)
  }

  lemma SameElements<V>(a: seq<V>, b: seq<V>)
    requires multiset(a) == multiset(b)
    ensures |a| == |b|
    ensures forall x :: x in a <==> x in b
  {
    assert |multiset(a)| == |multiset(b)|;
    forall x ensures x in a <==> x in b {
      assert x in a <==> x in multiset(a);
      assert x in b <==> x in multiset(b);
    }
  }

  lemma CancelOne<V>(t: seq<V>, u: seq<V>, w: seq<V>, k: V)
    requires multiset(t + [k]) == multiset((u + [k]) + w)
    ensures multiset(t) == multiset(u + w)
  {
    var m, n := multiset(t + [k]), multiset((u + [k]) + w);
    assert m == multiset(t) + multiset{k};
    assert n == multiset(u) + multiset{k} + multiset(w);
    forall x ensures multiset(t)[x] == multiset(u + w)[x] {
      assert m[x] == n[x];
    }
  }

  lemma {:induction false} InsertSorts<V>(x: V, s: seq<V>, keyOf: V -> Key)
    requires SortedBy(s, keyOf)
    ensures SortedBy(Insert(x, s, keyOf), keyOf)
  {
    var r := Insert(x, s, keyOf);
    if s == [] {
    } else if KeyLess(keyOf(x), keyOf(s[0])) {
      forall i, j | 0 <= i < j < |r| ensures !KeyLess(keyOf(r[j]), keyOf(r[i])) {
        if i == 0 {
          KeyTrichotomy(keyOf(x), keyOf(s[0]));
          KeyTrichotomy(keyOf(r[j]), keyOf(x));
          KeyTrichotomy(keyOf(r[j]), keyOf(s[0]));
          if j > 1 && KeyLess(keyOf(r[j]), keyOf(x)) { KeyTransitive(keyOf(r[j]), keyOf(x), keyOf(s[0])); }
        }
      }
    } else {
      InsertSorts(x, s[1..], keyOf);
      var t := Insert(x, s[1..], keyOf);
      forall j | 0 <= j < |t| ensures !KeyLess(keyOf(t[j]), keyOf(s[0])) {
        assert t[j] in multiset(t);
        if t[j] != x {
          assert t[j] in multiset(s[1..]);
          assert t[j] in s[1..];
        }
      }
    }
  }

  lemma {:induction false} SortBySorts<V>(s: seq<V>, keyOf: V -> Key)
    ensures IsSortOf(SortBy(s, keyOf), s, keyOf)
  {
    if s != [] {
      SortBySorts(s[1..], keyOf);
      InsertSorts(s[0], SortBy(s[1..], keyOf), keyOf);
    }
  }

  lemma SortedHead<V>(a: seq<V>, x: V, keyOf: V -> Key)
    requires SortedBy(a, keyOf) && x in a
    ensures !KeyLess(keyOf(x), keyOf(a[0]))
  {
    KeyTrichotomy(keyOf(x), keyOf(x));
    var i :| 0 <= i < |a| && a[i] == x;
    if i > 0 { assert !KeyLess(keyOf(a[i]), keyOf(a[0])); }
  }

  lemma TailElements<V>(a: seq<V>)
    requires a != []
    ensures multiset(a[1..]) == multiset(a) - multiset{a[0]}
    ensures forall x :: x in a[1..] ==> x in a
  {
    assert a == [a[0]] + a[1..];
  }

  lemma SortedTail<V>(a: seq<V>, keyOf: V -> Key)
    requires SortedBy(a, keyOf) && a != []
    ensures SortedBy(a[1..], keyOf)
  {
    forall i, j | 0 <= i < j < |a[1..]| ensures !KeyLess(keyOf(a[1..][j]), keyOf(a[1..][i])) {
      assert a[1..][j] == a[j + 1] && a[1..][i] == a[i + 1];
    }
  }

  /** A rearrangement sorted by a key that determines the row is unique, whatever the sort's stability. */
  lemma {:induction false} SortUnique<V>(a: seq<V>, b: seq<V>, keyOf: V -> Key)
    requires SortedBy(a, keyOf) && SortedBy(b, keyOf)
    requires multiset(a) == multiset(b)
    requires KeyDetermines(a, keyOf)
    ensures a == b
  {
    SameElements(a, b);
    if a != [] {
      assert a[0] in a && b[0] in b;
      SortedHead(a, b[0], keyOf);
      SortedHead(b, a[0], keyOf);
      KeyTrichotomy(keyOf(a[0]), keyOf(b[0]));
      assert a[0] == b[0];
      TailElements(a);
      TailElements(b);
      SortedTail(a, keyOf);
      SortedTail(b, keyOf);
      SortUnique(a[1..], b[1..], keyOf);
      assert a == [a[0]] + a[1..] && b == [b[0]] + b[1..];
    }
  }

  /** Sorting any two enumerations of the same rows gives the same slice. */
  lemma SortSame<V>(s: seq<V>, t: seq<V>, keyOf: V -> Key)
    requires multiset(s) == multiset(t)
    requires KeyDetermines(s, keyOf)
    ensures SortBy(s, keyOf) == SortBy(t, keyOf)
  {
    SortBySorts(s, keyOf);
    SortBySorts(t, keyOf);
    var a := SortBy(s, keyOf);
    SameElements(a, s);
    assert KeyDetermines(a, keyOf);
    SortUnique(a, SortBy(t, keyOf), keyOf);
  }

  // ---- loading from a slice --------------------------------------------------------------------

  /** Fill a map from a slice, row by row, skipping the rows `f` rejects. */
  function Collect<V, W>(s: seq<V>, keyOf: V -> Key, f: V -> Option<W>): map<Key, W>
  {
    if s == [] then map[]
    else
      var m, v := Collect(s[..|s| - 1], keyOf, f), s[|s| - 1];
      if f(v).Some? then m[keyOf(v) := f(v).value] else m
  }

  lemma InitDistinct<V>(s: seq<V>, keyOf: V -> Key)
    requires DistinctKeys(s, keyOf) && s != []
    ensures DistinctKeys(s[..|s| - 1], keyOf)
    ensures forall v :: v in s[..|s| - 1] ==> keyOf(v) != keyOf(s[|s| - 1])
    ensures forall v :: v in s ==> v in s[..|s| - 1] || v == s[|s| - 1]
  {
    forall v | v in s[..|s| - 1] ensures keyOf(v) != keyOf(s[|s| - 1]) {
      var i :| 0 <= i < |s| - 1 && s[..|s| - 1][i] == v;
      assert keyOf(s[i]) != keyOf(s[|s| - 1]);
    }
  }

  lemma {:induction false} CollectFind<V, W>(s: seq<V>, keyOf: V -> Key, f: V -> Option<W>, v: V)
    requires DistinctKeys(s, keyOf) && v in s && f(v).Some?
    ensures keyOf(v) in Collect(s, keyOf, f) && Collect(s, keyOf, f)[keyOf(v)] == f(v).value
  {
    InitDistinct(s, keyOf);
    if v in s[..|s| - 1] {
      CollectFind(s[..|s| - 1], keyOf, f, v);
    }
  }

  lemma {:induction false} CollectFrom<V, W>(s: seq<V>, keyOf: V -> Key, f: V -> Option<W>, k: Key) returns (v: V)
    requires DistinctKeys(s, keyOf) && k in Collect(s, keyOf, f)
    ensures v in s && keyOf(v) == k && f(v).Some?
  {
    InitDistinct(s, keyOf);
    if k in Collect(s[..|s| - 1], keyOf, f) {
      v := CollectFrom(s[..|s| - 1], keyOf, f, k);
    } else {
      v := s[|s| - 1];
    }
  }

  /** What loading a published map gives back: each entry that survives `f`. */
  lemma CollectOfSlice<V, W>(m: map<Key, V>, keyOf: V -> Key, f: V -> Option<W>)
    requires KeyedBy(m, keyOf)
    ensures Collect(Slice(m), keyOf, f) == map k | k in m && f(m[k]).Some? :: f(m[k]).value
  {
    hide Slice, Collect;
    var s, c := Slice(m), Collect(Slice(m), keyOf, f);
    SliceFacts(m, keyOf);
    forall k | k in m && f(m[k]).Some? ensures k in c && c[k] == f(m[k]).value {
      SliceHas(m, k);
      CollectFind(s, keyOf, f, m[k]);
    }
    forall k | k in c ensures k in m && f(m[k]).Some? {
      var v := CollectFrom(s, keyOf, f, k);
      InSlice(m, v);
    }
  }

  /** The same, against a given map. */
  lemma CollectIs<V, W>(m: map<Key, V>, keyOf: V -> Key, f: V -> Option<W>, n: map<Key, W>)
    requires KeyedBy(m, keyOf)
    requires n.Keys <= m.Keys
    requires forall k :: k in m ==> (f(m[k]).Some? <==> k in n) && (k in n ==> f(m[k]) == Some(n[k]))
    ensures Collect(Slice(m), keyOf, f) == n
  {
    CollectOfSlice(m, keyOf, f);
  }

  lemma NoneKeyed<V>(m: map<Key, V>, keyOf: V -> Key, k: Key)
    requires KeyedBy(m, keyOf) && k !in m
    ensures forall v <- Slice(m) :: keyOf(v) != k
  {
    hide Slice;
    forall v | v in Slice(m) ensures keyOf(v) != k {
      InSlice(m, v);
    }
  }

  lemma InSlice<V>(m: map<Key, V>, v: V)
    requires v in Slice(m)
    ensures exists k :: k in m && m[k] == v
  {
    var ks := Ascending(m.Keys);
    var i :| 0 <= i < |Slice(m)| && Slice(m)[i] == v;
    assert ks[i] in ks;
  }

  lemma SliceHas<V>(m: map<Key, V>, k: Key)
    requires k in m
    ensures m[k] in Slice(m)
  {
    var ks := Ascending(m.Keys);
    assert k in ks;
    var i :| 0 <= i < |ks| && ks[i] == k;
    assert Slice(m)[i] == m[k];
  }
}
