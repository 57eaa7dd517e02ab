/** The identifiers the decoder orders by.

    Every slice of a ledger state is sorted by a tuple of strings and integers, and every map of the
    builder is keyed by the concatenation of such a tuple. `Key` has one constructor per tuple shape, and
    `KeyLess` is the lexicographic comparison the `sort.Slice` callbacks write out field by field. */
module Keys {

  datatype Atom = Num(n: int) | Text(s: string)

  datatype Key =
    | Contract(id: string)
    | Pair(address: string, pool: string)
    | IndexOf(index: int, asset: string)
    | ReserveOf(pool: string, asset: string)
    | AuctionOf(pool: string, user: string, auctionType: int)
    | EmissionOf(address: string, pool: string, token: int)
    | RowOf(address: string, pool: string, asset: string, kind: string)
    | Temporary(what: string, pool: string, user: string, auctionType: int, asset: string)
    | DiagnosticOf(code: string, pool: string, address: string, kind: string, index: int, amount: string,
                   candidates: string)
  {
    function Parts(): seq<Atom> {
      match this
      case Contract(i) => [Num(0), Text(i)]
      case Pair(a, p) => [Num(1), Text(a), Text(p)]
      case IndexOf(i, a) => [Num(8), Num(i), Text(a)]
      case ReserveOf(p, a) => [Num(2), Text(p), Text(a)]
      case AuctionOf(p, u, t) => [Num(3), Text(p), Text(u), Num(t)]
      case EmissionOf(a, p, t) => [Num(4), Text(a), Text(p), Num(t)]
      case RowOf(a, p, x, k) => [Num(5), Text(a), Text(p), Text(x), Text(k)]
      case Temporary(w, p, u, t, a) => [Num(6), Text(w), Text(p), Text(u), Num(t), Text(a)]
      case DiagnosticOf(c, p, a, k, i, m, x) =>
        [Num(7), Text(c), Text(p), Text(a), Text(k), Num(i), Text(m), Text(x)]
    }
  }

  // ---- the order -------------------------------------------------------------------------------

  /** Byte order of strings. */
  predicate TextLess(a: string, b: string) {
    if b == [] then false
    else if a == [] then true
    else if a[0] != b[0] then a[0] < b[0]
    else TextLess(a[1..], b[1..])
  }

  predicate AtomLess(a: Atom, b: Atom) {
    match (a, b)
    case (Num(m), Num(n)) => m < n
    case (Num(_), Text(_)) => true
    case (Text(_), Num(_)) => false
    case (Text(s), Text(t)) => TextLess(s, t)
  }

  predicate LexLess(a: seq<Atom>, b: seq<Atom>) {
    if b == [] then false
    else if a == [] then true
    else if a[0] != b[0] then AtomLess(a[0], b[0])
    else LexLess(a[1..], b[1..])
  }

  predicate KeyLess(a: Key, b: Key) {
    LexLess(a.Parts(), b.Parts())
  }

  lemma {:induction false} TextTrichotomy(a: string, b: string)
    ensures TextLess(a, b) || a == b || TextLess(b, a)
    ensures !(TextLess(a, b) && TextLess(b, a))
  {
    if a != [] && b != [] && a[0] == b[0] {
      TextTrichotomy(a[1..], b[1..]);
      assert a == [a[0]] + a[1..] && b == [b[0]] + b[1..];
    }
  }

  lemma {:induction false} TextTransitive(a: string, b: string, c: string)
    requires TextLess(a, b) && TextLess(b, c)
    ensures TextLess(a, c)
  {
    if a != [] && a[0] == b[0] == c[0] {
      TextTransitive(a[1..], b[1..], c[1..]);
    }
  }

  lemma AtomTrichotomy(a: Atom, b: Atom)
    ensures AtomLess(a, b) || a == b || AtomLess(b, a)
    ensures !(AtomLess(a, b) && AtomLess(b, a))
  {
    if a.Text? && b.Text? {
      TextTrichotomy(a.s, b.s);
    }
  }

  lemma AtomTransitive(a: Atom, b: Atom, c: Atom)
    requires AtomLess(a, b) && AtomLess(b, c)
    ensures AtomLess(a, c)
  {
    if a.Text? && b.Text? && c.Text? {
      TextTransitive(a.s, b.s, c.s);
    }
  }

  lemma {:induction false} LexTrichotomy(a: seq<Atom>, b: seq<Atom>)
    ensures LexLess(a, b) || a == b || LexLess(b, a)
    ensures !(LexLess(a, b) && LexLess(b, a))
  {
    if a != [] && b != [] {
      AtomTrichotomy(a[0], b[0]);
      if a[0] == b[0] {
        LexTrichotomy(a[1..], b[1..]);
        assert a == [a[0]] + a[1..] && b == [b[0]] + b[1..];
      }
    }
  }

  lemma {:induction false} LexTransitive(a: seq<Atom>, b: seq<Atom>, c: seq<Atom>)
    requires LexLess(a, b) && LexLess(b, c)
    ensures LexLess(a, c)
  {
    if a != [] {
      AtomTrichotomy(a[0], b[0]);
      AtomTrichotomy(b[0], c[0]);
      if a[0] == b[0] == c[0] {
        LexTransitive(a[1..], b[1..], c[1..]);
      } else if a[0] != b[0] && b[0] != c[0] {
        AtomTransitive(a[0], b[0], c[0]);
        AtomTrichotomy(a[0], c[0]);
      }
    }
  }

  lemma PartsInjective(a: Key, b: Key)
    requires a.Parts() == b.Parts()
    ensures a == b
  {
    var p, q := a.Parts(), b.Parts();
    assert p[0] == q[0] && p[1] == q[1];
    if |p| > 2 { assert p[2] == q[2]; }
    if |p| > 3 { assert p[3] == q[3]; }
    if |p| > 4 { assert p[4] == q[4]; }
    if |p| > 5 { assert p[5] == q[5]; }
    if |p| > 6 { assert p[6] == q[6] && p[7] == q[7]; }
  }

  /** The order of keys is total and strict: the reason an unstable sort by a distinct key has one result. */
  lemma KeyTrichotomy(a: Key, b: Key)
    ensures KeyLess(a, b) || a == b || KeyLess(b, a)
    ensures !(KeyLess(a, b) && KeyLess(b, a))
    ensures !KeyLess(a, a)
  {
    LexTrichotomy(a.Parts(), b.Parts());
    LexTrichotomy(a.Parts(), a.Parts());
    if a.Parts() == b.Parts() {
      PartsInjective(a, b);
    }
  }

  lemma KeyTransitive(a: Key, b: Key, c: Key)
    requires KeyLess(a, b) && KeyLess(b, c)
    ensures KeyLess(a, c)
  {
    LexTransitive(a.Parts(), b.Parts(), c.Parts());
  }

  /** A (address, pool, asset, kind) row is ordered first by its (address, pool) pair. */
  lemma RowOrder(a: Key, b: Key)
    requires a.RowOf? && b.RowOf?
    ensures Pair(a.address, a.pool) != Pair(b.address, b.pool) ==>
              (KeyLess(a, b) <==> KeyLess(Pair(a.address, a.pool), Pair(b.address, b.pool)))
  {
    var u, v := [Text(a.address), Text(a.pool)], [Text(b.address), Text(b.pool)];
    var x, y := [Text(a.asset), Text(a.kind)], [Text(b.asset), Text(b.kind)];
    assert a.Parts() == [Num(5)] + (u + x) && b.Parts() == [Num(5)] + (v + y);
    assert Pair(a.address, a.pool).Parts() == [Num(1)] + u && Pair(b.address, b.pool).Parts() == [Num(1)] + v;
    if Pair(a.address, a.pool) != Pair(b.address, b.pool) {
      assert u[0] != v[0] || u[1] != v[1];
      LexSameHead(Num(5), u + x, v + y);
      LexSameHead(Num(1), u, v);
      LexPrefix(u, v, x, y);
    }
  }

  lemma LexSameHead(h: Atom, u: seq<Atom>, v: seq<Atom>)
    ensures LexLess([h] + u, [h] + v) <==> LexLess(u, v)
  {
    assert ([h] + u)[1..] == u && ([h] + v)[1..] == v;
  }

  lemma {:induction false} LexPrefix(u: seq<Atom>, v: seq<Atom>, x: seq<Atom>, y: seq<Atom>)
    requires |u| == |v| && u != v
    ensures LexLess(u + x, v + y) <==> LexLess(u, v)
  {
    if u[0] == v[0] {
      assert u == [u[0]] + u[1..] && v == [v[0]] + v[1..];
      assert (u + x)[1..] == u[1..] + x && (v + y)[1..] == v[1..] + y;
      LexPrefix(u[1..], v[1..], x, y);
    }
  }

  // ---- the order field by field ----------------------------------------------------------------

  /** Byte order: the first difference decides, and a prefix comes first. */
  lemma {:induction false} TextOrder(a: string, b: string)
    ensures TextLess(a, b) <==>
            exists n: nat :: n <= |a| && n < |b| && a[..n] == b[..n] && (n == |a| || (n < |a| && a[n] < b[n]))
  {
    if b != [] && a != [] && a[0] == b[0] {
      TextOrder(a[1..], b[1..]);
      forall n: nat | n < |a| && n < |b| ensures a[1..][..n] == a[..n + 1][1..] && b[1..][..n] == b[..n + 1][1..] {
      }
      if n: nat :| n <= |a[1..]| && n < |b[1..]| && a[1..][..n] == b[1..][..n]
                   && (n == |a[1..]| || (n < |a[1..]| && a[1..][n] < b[1..][n])) {
        assert a[..n + 1] == [a[0]] + a[1..][..n] && b[..n + 1] == [b[0]] + b[1..][..n];
        assert n + 1 <= |a| && n + 1 < |b|;
      }
      if n: nat :| n <= |a| && n < |b| && a[..n] == b[..n] && (n == |a| || (n < |a| && a[n] < b[n])) {
        assert n > 0;
        assert a[1..][..n - 1] == a[..n][1..] && b[1..][..n - 1] == b[..n][1..];
        assert n - 1 <= |a[1..]| && n - 1 < |b[1..]|;
      }
    } else if b != [] {
      assert a[..0] == b[..0];
    }
  }

  lemma LexStep(x: Atom, y: Atom, u: seq<Atom>, v: seq<Atom>)
    ensures LexLess([x] + u, [y] + v) <==> AtomLess(x, y) || (x == y && LexLess(u, v))
  {
    AtomTrichotomy(x, y);
    assert ([x] + u)[1..] == u && ([y] + v)[1..] == v;
  }

  lemma LexOne(x: Atom, y: Atom)
    ensures LexLess([x], [y]) <==> AtomLess(x, y)
  {
    LexStep(x, y, [], []);
    assert [x] + [] == [x] && [y] + [] == [y];
  }

  lemma LexPair(x: Atom, y: Atom, p: Atom, q: Atom)
    ensures LexLess([x, p], [y, q]) <==> AtomLess(x, y) || (x == y && AtomLess(p, q))
  {
    LexStep(x, y, [p], [q]);
    LexOne(p, q);
    assert [x] + [p] == [x, p] && [y] + [q] == [y, q];
  }

  /** The leading tag of a key's shape decides nothing between keys of one shape. */
  lemma LexTagged(tag: int, u: seq<Atom>, v: seq<Atom>)
    ensures LexLess([Num(tag)] + u, [Num(tag)] + v) <==> LexLess(u, v)
  {
    LexStep(Num(tag), Num(tag), u, v);
  }

  /** Contracts by id. */
  lemma ContractOrder(a: string, b: string)
    ensures KeyLess(Contract(a), Contract(b)) <==> TextLess(a, b)
  {
    hide LexLess;
    LexTagged(0, [Text(a)], [Text(b)]);
    LexOne(Text(a), Text(b));
    assert [Num(0)] + [Text(a)] == Contract(a).Parts() && [Num(0)] + [Text(b)] == Contract(b).Parts();
  }

  /** Positions by address and then pool. */
  lemma PairOrder(a: string, b: string, p: string, q: string)
    ensures KeyLess(Pair(a, p), Pair(b, q)) <==> TextLess(a, b) || (a == b && TextLess(p, q))
  {
    hide LexLess;
    LexTagged(1, [Text(a), Text(p)], [Text(b), Text(q)]);
    LexPair(Text(a), Text(b), Text(p), Text(q));
    assert [Num(1)] + [Text(a), Text(p)] == Pair(a, p).Parts() && [Num(1)] + [Text(b), Text(q)] == Pair(b, q).Parts();
  }

  /** Reserves of a pool by index and then asset. */
  lemma IndexOrder(i: int, j: int, p: string, q: string)
    ensures KeyLess(IndexOf(i, p), IndexOf(j, q)) <==> i < j || (i == j && TextLess(p, q))
  {
    hide LexLess;
    LexTagged(8, [Num(i), Text(p)], [Num(j), Text(q)]);
    LexPair(Num(i), Num(j), Text(p), Text(q));
    assert [Num(8)] + [Num(i), Text(p)] == IndexOf(i, p).Parts() && [Num(8)] + [Num(j), Text(q)] == IndexOf(j, q).Parts();
  }

  lemma LexThree(x: Atom, y: Atom, p: Atom, q: Atom, u: Atom, v: Atom)
    ensures LexLess([x, p, u], [y, q, v]) <==> AtomLess(x, y) || (x == y && (AtomLess(p, q) || (p == q && AtomLess(u, v))))
  {
    LexStep(x, y, [p, u], [q, v]);
    LexPair(p, q, u, v);
    assert [x] + [p, u] == [x, p, u] && [y] + [q, v] == [y, q, v];
  }

  /** Auctions by pool, user and type. */
  lemma AuctionOrder(a: string, b: string, p: string, q: string, i: int, j: int)
    ensures KeyLess(AuctionOf(a, p, i), AuctionOf(b, q, j))
       <==> TextLess(a, b) || (a == b && (TextLess(p, q) || (p == q && i < j)))
  {
    hide LexLess;
    LexTagged(3, [Text(a), Text(p), Num(i)], [Text(b), Text(q), Num(j)]);
    LexThree(Text(a), Text(b), Text(p), Text(q), Num(i), Num(j));
    assert [Num(3)] + [Text(a), Text(p), Num(i)] == AuctionOf(a, p, i).Parts();
    assert [Num(3)] + [Text(b), Text(q), Num(j)] == AuctionOf(b, q, j).Parts();
  }

  /** User rows by address, pool, asset and type. */
  lemma RowFieldOrder(a: string, b: string, p: string, q: string, x: string, y: string, k: string, l: string)
    ensures KeyLess(RowOf(a, p, x, k), RowOf(b, q, y, l))
       <==> TextLess(a, b) || (a == b && (TextLess(p, q) || (p == q && (TextLess(x, y) || (x == y && TextLess(k, l))))))
  {
    hide LexLess, TextLess;
    var u, v := [Text(p), Text(x), Text(k)], [Text(q), Text(y), Text(l)];
    LexTagged(5, [Text(a)] + u, [Text(b)] + v);
    LexStep(Text(a), Text(b), u, v);
    LexThree(Text(p), Text(q), Text(x), Text(y), Text(k), Text(l));
    assert [Num(5)] + ([Text(a)] + u) == RowOf(a, p, x, k).Parts() && [Num(5)] + ([Text(b)] + v) == RowOf(b, q, y, l).Parts();
  }

  // ---- sets of keys in order -------------------------------------------------------------------

  predicate Ascends(ks: seq<Key>) {
    forall i, j :: 0 <= i < j < |ks| ==> KeyLess(ks[i], ks[j])
  }

  predicate IsLeast(k: Key, s: set<Key>) {
    k in s && forall x | x in s :: x == k || KeyLess(k, x)
  }

  lemma {:induction false} LeastExists(s: set<Key>)
    requires s != {}
    ensures exists k :: IsLeast(k, s)
    decreases s
  {
    var x :| x in s;
    if s == {x} {
      assert IsLeast(x, s);
    } else {
      LeastExists(s - {x});
      var k :| IsLeast(k, s - {x});
      KeyTrichotomy(k, x);
      if KeyLess(k, x) {
        assert IsLeast(k, s);
      } else {
        forall y | y in s && y != x ensures KeyLess(x, y) {
          if y != k { KeyTransitive(x, k, y); }
        }
        assert IsLeast(x, s);
      }
    }
  }

  lemma LeastUnique(s: set<Key>)
    ensures forall a, b :: IsLeast(a, s) && IsLeast(b, s) ==> a == b
  {
    forall a, b | IsLeast(a, s) && IsLeast(b, s) ensures a == b {
      KeyTrichotomy(a, b);
    }
  }

  function Least(s: set<Key>): (k: Key)
    requires s != {}
    ensures IsLeast(k, s)
  {
    LeastExists(s);
    LeastUnique(s);
    var k :| k in s && IsLeast(k, s);
    k
  }

  /** The members of a set of keys in ascending order. */
  function Ascending(s: set<Key>): (ks: seq<Key>)
    ensures Ascends(ks)
    ensures forall k :: k in ks <==> k in s
    ensures |ks| == |s|
    decreases s
  {
    if s == {} then [] else
      var k := Least(s);
      var above := Ascending(s - {k});
      assert forall j :: 0 <= j < |above| ==> above[j] in above;
      [k] + above
  }

  /** Of two ascending lists the heads agree when the members do. */
  lemma SameHead(a: seq<Key>, b: seq<Key>)
    requires Ascends(a) && Ascends(b) && a != [] && b != []
    requires a[0] in b && b[0] in a
    ensures a[0] == b[0]
  {
    var i :| 0 <= i < |b| && b[i] == a[0];
    var j :| 0 <= j < |a| && a[j] == b[0];
    if i > 0 && j > 0 { KeyTrichotomy(a[0], b[0]); }
  }

  lemma AscendsTail(ks: seq<Key>, k: Key)
    requires Ascends(ks) && ks != []
    ensures Ascends(ks[1..])
    ensures k in ks[1..] <==> k in ks && k != ks[0]
  {
    AscendsDistinct(ks);
    if k in ks && k != ks[0] {
      var i :| 0 <= i < |ks| && ks[i] == k;
      assert ks[1..][i - 1] == k;
    }
  }

  lemma {:induction false} AscendsUnique(a: seq<Key>, b: seq<Key>)
    requires Ascends(a) && Ascends(b)
    requires forall k :: k in a <==> k in b
    ensures a == b
  {
    if a == [] {
      assert forall i :: 0 <= i < |b| ==> b[i] in b;
    } else {
      assert a[0] in a;
      assert b[0] in b;
      SameHead(a, b);
      hide Ascends;
      forall k ensures k in a[1..] <==> k in b[1..] {
        AscendsTail(a, k);
        AscendsTail(b, k);
      }
      AscendsTail(a, a[0]);
      AscendsTail(b, b[0]);
      AscendsUnique(a[1..], b[1..]);
      assert a == [a[0]] + a[1..] && b == [b[0]] + b[1..];
    }
  }

  lemma AscendsDistinct(ks: seq<Key>)
    requires Ascends(ks)
    ensures forall i, j :: 0 <= i < |ks| && 0 <= j < |ks| && i != j ==> ks[i] != ks[j]
  {
    forall i, j | 0 <= i < |ks| && 0 <= j < |ks| && i != j ensures ks[i] != ks[j] {
      KeyTrichotomy(ks[i], ks[i]);
      if i < j { assert KeyLess(ks[i], ks[j]); } else { assert KeyLess(ks[j], ks[i]); }
    }
  }
}
