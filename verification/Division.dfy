/** Floors of quotients of natural numbers. */
module Division {

  lemma Times(k: nat, x: nat, y: nat)
    requires x <= y
    ensures k * x <= k * y
  {
  }

  // n / d is the greatest q with q * d <= n.
  lemma QuotientHolds(n: nat, d: nat, q: nat)
    requires 0 < d && q * d <= n
    ensures q <= n / d
  {
    if n / d < q {
      Times(d, n / d + 1, q);
      assert false;
    }
  }

  lemma QuotientBelow(n: nat, d: nat, q: nat)
    requires 0 < d && n < q * d
    ensures n / d < q
  {
    if q <= n / d {
      Times(d, q, n / d);
      assert false;
    }
  }

  lemma QuotientIs(n: nat, d: nat, q: nat)
    requires 0 < d && q * d <= n < (q + 1) * d
    ensures n / d == q
  {
    QuotientHolds(n, d, q);
    QuotientBelow(n, d, q + 1);
  }

  lemma QuotientBounds(n: nat, d: nat)
    requires 0 < d
    ensures n / d * d <= n < (n / d + 1) * d
  {
  }

  lemma QuotientMonotone(n: nat, n': nat, d: nat)
    requires 0 < d && n <= n'
    ensures n / d <= n' / d
  {
    var q := n / d;
    QuotientBounds(n, d);
    assert q * d <= n';
    QuotientHolds(n', d, q);
  }

  lemma QuotientAntitone(n: nat, d: nat, d': nat)
    requires 0 < d <= d'
    ensures n / d' <= n / d
  {
    QuotientBounds(n, d');
    Times(n / d', d, d');
    QuotientHolds(n, d, n / d');
  }

  // Dividing twice, truncating both times, is dividing once by the product.
  lemma NestedFloor(n: nat, y: nat, x: nat)
    requires 0 < x && 0 < y
    ensures 0 < x * y && n / y / x == n / (x * y)
  {
    var q := n / y;
    var r := q / x;
    assert 0 < x * y by { Times(y, 1, x); }
    QuotientBounds(n, y);
    QuotientBounds(q, x);
    assert r * (x * y) <= n by {
      Times(y, r * x, q);
      assert r * (x * y) == y * (r * x);
    }
    assert n < (r + 1) * (x * y) by {
      Times(y, q + 1, (r + 1) * x);
      assert (r + 1) * (x * y) == y * ((r + 1) * x);
    }
    QuotientIs(n, x * y, r);
  }

  // When two fractions add up to a third, their floors add up to its floor or to
  // one less.
  lemma FloorsAdd(n1: nat, d1: nat, n2: nat, d2: nat, n: nat, d: nat)
    requires 0 < d1 && 0 < d2 && 0 < d
    requires n * (d1 * d2) == n1 * (d2 * d) + n2 * (d1 * d)
    ensures n1 / d1 + n2 / d2 <= n / d <= n1 / d1 + n2 / d2 + 1
  {
    var q1, q2 := n1 / d1, n2 / d2;
    QuotientBounds(n1, d1);
    QuotientBounds(n2, d2);
    BoundsAdd(q1, n1, d1, q2, n2, d2, n, d);
    StrictBoundsAdd(q1 + 1, n1, d1, q2 + 1, n2, d2, n, d);
    QuotientHolds(n, d, q1 + q2);
    QuotientBelow(n, d, q1 + q2 + 2);
  }

  lemma BoundsAdd(q1: nat, n1: nat, d1: nat, q2: nat, n2: nat, d2: nat, n: nat, d: nat)
    requires 0 < d1 && 0 < d2 && q1 * d1 <= n1 && q2 * d2 <= n2
    requires n * (d1 * d2) == n1 * (d2 * d) + n2 * (d1 * d)
    ensures (q1 + q2) * d <= n
  {
    Times(d2 * d, q1 * d1, n1);
    Times(d1 * d, q2 * d2, n2);
    CrossMultiplied(q1, d1, q2, d2, d);
    TimesLess(d1, 0, d2);
    Cancel(d1 * d2, (q1 + q2) * d, n);
  }

  lemma StrictBoundsAdd(p1: nat, n1: nat, d1: nat, p2: nat, n2: nat, d2: nat, n: nat, d: nat)
    requires 0 < d1 && 0 < d2 && 0 < d && n1 < p1 * d1 && n2 < p2 * d2
    requires n * (d1 * d2) == n1 * (d2 * d) + n2 * (d1 * d)
    ensures n < (p1 + p2) * d
  {
    TimesLess(d2, 0, d);
    TimesLess(d1, 0, d);
    TimesLess(d2 * d, n1, p1 * d1);
    TimesLess(d1 * d, n2, p2 * d2);
    CrossMultiplied(p1, d1, p2, d2, d);
    CancelLess(d1 * d2, n, (p1 + p2) * d);
  }

  lemma CrossMultiplied(q1: nat, d1: nat, q2: nat, d2: nat, d: nat)
    ensures ((q1 + q2) * d) * (d1 * d2) == (d2 * d) * (q1 * d1) + (d1 * d) * (q2 * d2)
  {
    assert (q1 * d) * (d1 * d2) == (d2 * d) * (q1 * d1);
    assert (q2 * d) * (d1 * d2) == (d1 * d) * (q2 * d2);
  }

  lemma TimesLess(k: nat, x: nat, y: nat)
    requires 0 < k && x < y
    ensures k * x < k * y
  {
  }

  lemma Cancel(k: nat, x: nat, y: nat)
    requires 0 < k && x * k <= y * k
    ensures x <= y
  {
    if y < x {
      TimesLess(k, y, x);
      assert false;
    }
  }

  lemma CancelLess(k: nat, x: nat, y: nat)
    requires x * k < y * k
    ensures x < y
  {
    if y <= x {
      Times(k, y, x);
      assert false;
    }
  }

  function Sum(s: seq<nat>): nat {
    if s == [] then 0 else s[0] + Sum(s[1..])
  }

  function Portion(share: nat, amount: nat, total: nat): nat
    requires 0 < total
  {
    share * amount / total
  }

  function Portions(shares: seq<nat>, amount: nat, total: nat): (r: seq<nat>)
    requires 0 < total
    ensures |r| == |shares|
    ensures forall i :: 0 <= i < |r| ==> r[i] == Portion(shares[i], amount, total)
  {
    if shares == [] then []
    else [Portion(shares[0], amount, total)] + Portions(shares[1..], amount, total)
  }

  // Truncated portions of the parts never exceed the truncated portion of the whole.
  lemma {:induction false} PortionsBelow(shares: seq<nat>, amount: nat, total: nat)
    requires 0 < total
    ensures Sum(Portions(shares, amount, total)) <= Portion(Sum(shares), amount, total)
  {
    if shares != [] {
      var rest := Sum(shares[1..]);
      PortionsBelow(shares[1..], amount, total);
      PortionAdds(shares[0], rest, amount, total);
      assert Portions(shares, amount, total)[1..] == Portions(shares[1..], amount, total);
    } else {
      assert 0 * amount / total == 0;
    }
  }

  lemma PortionAdds(a: nat, b: nat, amount: nat, total: nat)
    requires 0 < total
    ensures Portion(a, amount, total) + Portion(b, amount, total) <= Portion(a + b, amount, total)
    ensures Portion(a + b, amount, total) <= Portion(a, amount, total) + Portion(b, amount, total) + 1
  {
    var n1, n2, n := a * amount, b * amount, (a + b) * amount;
    assert n == n1 + n2;
    assert n * (total * total) == n1 * (total * total) + n2 * (total * total);
    FloorsAdd(n1, total, n2, total, n, total);
  }

  lemma AmountsAdd(share: nat, a: nat, b: nat, total: nat)
    requires 0 < total
    ensures Portion(share, a, total) + Portion(share, b, total) <= Portion(share, a + b, total)
    ensures Portion(share, a + b, total) <= Portion(share, a, total) + Portion(share, b, total) + 1
  {
    var n1, n2, n := share * a, share * b, share * (a + b);
    assert n == n1 + n2;
    assert n * (total * total) == n1 * (total * total) + n2 * (total * total);
    FloorsAdd(n1, total, n2, total, n, total);
  }

  lemma PortionMonotone(a: nat, b: nat, amount: nat, total: nat)
    requires 0 < total && a <= b
    ensures Portion(a, amount, total) <= Portion(b, amount, total)
  {
    Times(amount, a, b);
    QuotientMonotone(a * amount, b * amount, total);
  }

  lemma PortionOfWhole(amount: nat, total: nat)
    requires 0 < total
    ensures Portion(total, amount, total) == amount
  {
    QuotientIs(total * amount, total, amount);
  }

  // Holders whose shares sum to at most the total are owed at most the amount.
  lemma PortionsConserve(shares: seq<nat>, amount: nat, total: nat)
    requires 0 < total && Sum(shares) <= total
    ensures Sum(Portions(shares, amount, total)) <= amount
  {
    PortionsBelow(shares, amount, total);
    PortionMonotone(Sum(shares), total, amount, total);
    PortionOfWhole(amount, total);
  }
}
