/**
 * Whole-number division built on a rounded decimal quotient (blend/decimal.go).
 *
 * The decimal library keeps 48 fractional digits of a quotient and rounds half away
 * from zero; floorDiv and ceilDiv then take the floor or the ceiling of that rounded
 * value.  Rounding first can carry a quotient over the integer above it, so the
 * result is not the exact floor or ceiling for every divisor.  A quotient depends
 * only on the ratio of its operands, so operands with fractional digits are scaled
 * to integers over a common power of ten.
 */
module FixedPoint {
  import opened Division

  // 10^48: one, in units of the last digit kept.
  const SCALE: nat := 1_000000_000000_000000_000000_000000_000000_000000_000000

  // n / d rounded to the nearest integer, a half rounding up.
  function RoundHalfUp(n: nat, d: nat): nat
    requires 0 < d
  {
    if 2 * (n % d) < d then n / d else n / d + 1
  }

  function Rounded(n: nat, d: nat): nat
    requires 0 < d
  {
    RoundHalfUp(n * SCALE, d)
  }

  // n / d in units of 10^-48, rounded half away from zero.
  function Quotient(n: int, d: int): int
    requires d != 0
  {
    var size: int := Rounded(Size(n), Size(d));
    if (n < 0) != (d < 0) then -size else size
  }

  function Size(n: int): nat {
    if n < 0 then -n else n
  }

  function FloorDiv(n: int, d: int): int {
    if d == 0 then 0 else Quotient(n, d) / SCALE
  }

  function CeilDiv(n: int, d: int): int {
    if d == 0 then 0 else -(-Quotient(n, d) / SCALE)
  }

  function FixedMulFloor(x: int, y: int, scalar: int): int {
    FloorDiv(x * y, scalar)
  }

  function FixedMulCeil(x: int, y: int, scalar: int): int {
    CeilDiv(x * y, scalar)
  }

  function FixedDivCeil(x: int, y: int, scalar: int): int {
    CeilDiv(x * scalar, y)
  }

  // -------------------------------------------------------------------------
  // Exactly when rounding first is harmless.

  // Rounding n * scale / d: the rounded quotient lies from the floor of n / d, in
  // units of the scale, up to the next integer, and reaches that integer just when
  // half a unit in the last digit, or less, is missing.
  lemma RoundedParts(n: nat, d: nat, scale: nat, whole: nat, rest: nat)
    requires 0 < d && 0 < scale && n == whole * d + rest && rest < d
    ensures var q := RoundHalfUp(n * scale, d);
      && whole * scale <= q <= (whole + 1) * scale
      && (q == (whole + 1) * scale <==> 2 * (scale * (d - rest)) <= d)
      && (q == whole * scale <==> 2 * (scale * rest) < d)
  {
    hide RoundHalfUp;
    var u, r := FractionalPart(d, scale, rest);
    WholeAndPart(n, d, scale, whole, rest, u, r);
    LastUnit(d, scale, rest, u, r);
    FirstUnit(d, scale, rest, u, r);
    assert (whole + 1) * scale == whole * scale + scale;
  }

  lemma FractionalPart(d: nat, scale: nat, rest: nat) returns (u: nat, r: nat)
    requires 0 < scale && rest < d
    ensures r < d && u < scale && rest * scale == u * d + r
  {
    TimesLess(scale, rest, d);
    QuotientBelow(rest * scale, d, scale);
    u, r := rest * scale / d, rest * scale % d;
  }

  lemma WholeAndPart(n: nat, d: nat, scale: nat, whole: nat, rest: nat, u: nat, r: nat)
    requires n == whole * d + rest && rest * scale == u * d + r && r < d
    ensures RoundHalfUp(n * scale, d) == whole * scale + u + if 2 * r < d then 0 else 1
  {
    ScaleParts(n, d, scale, whole, rest, u, r);
    DivisionIs(n * scale, d, whole * scale + u, r);
  }

  lemma ScaleParts(n: nat, d: nat, scale: nat, whole: nat, rest: nat, u: nat, r: nat)
    requires n == whole * d + rest && rest * scale == u * d + r
    ensures n * scale == (whole * scale + u) * d + r
  {
    assert n * scale == (whole * d) * scale + rest * scale;
    assert (whole * d) * scale == (whole * scale) * d;
  }

  lemma LastUnit(d: nat, scale: nat, rest: nat, u: nat, r: nat)
    requires r < d && u < scale && rest < d && rest * scale == u * d + r
    ensures (u == scale - 1 && 2 * r >= d) <==> 2 * (scale * (d - rest)) <= d
  {
    assert scale * (d - rest) == scale * d - rest * scale;
    if u < scale - 1 {
      Times(d, u + 2, scale);
    } else {
      assert scale * d == u * d + d;
    }
  }

  lemma FirstUnit(d: nat, scale: nat, rest: nat, u: nat, r: nat)
    requires r < d && rest * scale == u * d + r
    ensures (u == 0 && 2 * r < d) <==> 2 * (scale * rest) < d
  {
    if u > 0 {
      Times(d, 1, u);
    }
  }

  lemma DivisionIs(n: nat, d: nat, q: nat, r: nat)
    requires 0 < d && r < d && n == q * d + r
    ensures n / d == q && n % d == r
  {
    QuotientIs(n, d, q);
  }

  // For a numerator at least zero the result is the exact floor just when the
  // distance to the next integer is more than half a unit in the last digit.
  lemma FloorExactWhen(n: nat, d: nat)
    requires 0 < d
    ensures FloorDiv(n, d) == n / d + if 2 * (SCALE * (d - n % d)) <= d then 1 else 0
  {
    hide Quotient, RoundHalfUp;
    RoundedParts(n, d, SCALE, n / d, n % d);
    QuotientOfNats(n, d);
    BetweenUnits(Quotient(n, d), n / d);
  }

  lemma QuotientOfNats(n: nat, d: nat)
    requires 0 < d
    ensures Quotient(n, d) == RoundHalfUp(n * SCALE, d)
  {
  }

  lemma BetweenUnits(q: int, whole: nat)
    requires whole * SCALE <= q <= (whole + 1) * SCALE
    ensures q / SCALE == whole + if q == (whole + 1) * SCALE then 1 else 0
    ensures -(-q / SCALE) == whole + if q == whole * SCALE then 0 else 1
  {
  }

  // The ceiling is exact just when the numerator is a multiple, or more than half a
  // unit in the last digit above one.
  lemma CeilExactWhen(n: nat, d: nat)
    requires 0 < d
    ensures CeilDiv(n, d) == n / d + if 2 * (SCALE * (n % d)) < d then 0 else 1
  {
    hide Quotient, RoundHalfUp;
    RoundedParts(n, d, SCALE, n / d, n % d);
    QuotientOfNats(n, d);
    BetweenUnits(Quotient(n, d), n / d);
  }

  // A sign moves through the rounding and turns floors into ceilings.
  lemma Negated(n: int, d: int)
    ensures FloorDiv(-n, d) == -CeilDiv(n, d)
    ensures CeilDiv(-n, d) == -FloorDiv(n, d)
  {
    hide Rounded;
    if d != 0 && n == 0 {
      ZeroQuotient(Size(d));
    }
  }

  lemma ZeroQuotient(d: nat)
    requires 0 < d
    ensures Rounded(0, d) == 0
  {
    assert 0 * SCALE == 0;
    DivisionIs(0, d, 0, 0);
  }

  function Ceiling(n: int, d: int): int
    requires 0 < d
  {
    -(-n / d)
  }

  lemma CeilingOfNat(n: nat, d: nat)
    requires 0 < d
    ensures Ceiling(n, d) == n / d + if n % d == 0 then 0 else 1
  {
    var m: int, q: int, r: int := n, n / d, n % d;
    assert n == q * d + r;
    if r == 0 {
      EuclidIs(-m, d, -q, 0);
    } else {
      EuclidIs(-m, d, -q - 1, d - r);
    }
  }

  lemma EuclidIs(n: int, d: nat, q: int, r: nat)
    requires r < d && n == q * d + r
    ensures n / d == q && n % d == r
  {
    var q', r' := n / d, n % d;
    assert n == q' * d + r';
    assert (q - q') * d == r' - r;
    SmallMultiple(q - q', d);
  }

  lemma SmallMultiple(k: int, d: nat)
    ensures k > 0 ==> d <= k * d
    ensures k < 0 ==> k * d + d <= 0
  {
    if k > 0 {
      Times(d, 1, k);
    } else if k < 0 {
      Times(d, 1, -k);
    }
  }

  // Below twice the scale, rounding to 48 digits first is invisible, whatever the
  // numerator and its sign.
  lemma DivisionExact(n: int, d: nat)
    requires 0 < d < 2 * SCALE
    ensures FloorDiv(n, d) == n / d
    ensures CeilDiv(n, d) == Ceiling(n, d)
  {
    hide FloorDiv, CeilDiv;
    var size := Size(n);
    FloorExactWhen(size, d);
    CeilExactWhen(size, d);
    CeilingOfNat(size, d);
    Negated(size, d);
    Times(2 * SCALE, 1, d - size % d);
    if n < 0 {
      assert Ceiling(size, d) == -(n / d);
      assert Ceiling(n, d) == -(size / d);
    }
  }

  ghost predicate FloorIsExact(d: nat)
    requires 0 < d
  {
    forall n: int :: FloorDiv(n, d) == n / d
  }

  ghost predicate CeilIsExact(d: nat)
    requires 0 < d
  {
    forall n: int :: CeilDiv(n, d) == Ceiling(n, d)
  }

  // The bound is sharp: the first divisor beyond it already gets a floor and a
  // ceiling wrong.
  lemma ExactJustBelowTwiceTheScale(d: nat)
    requires 0 < d
    ensures FloorIsExact(d) <==> d < 2 * SCALE
    ensures CeilIsExact(d) <==> d < 2 * SCALE
  {
    hide FloorDiv, CeilDiv;
    if d < 2 * SCALE {
      forall n: int
        ensures FloorDiv(n, d) == n / d && CeilDiv(n, d) == Ceiling(n, d)
      {
        DivisionExact(n, d);
      }
    } else {
      var n: int := d - 1;
      DivisionIs(n, d, 0, n);
      FloorExactWhen(n, d);
      assert FloorDiv(n, d) == 1;
      Negated(n, d);
      assert CeilDiv(-n, d) == -1;
      assert Ceiling(-n, d) == -(n / d);
    }
  }

  // -------------------------------------------------------------------------
  // What holds for every divisor, exact or not.

  lemma RoundedMonotone(n: nat, n': nat, d: nat)
    requires 0 < d && n <= n'
    ensures RoundHalfUp(n, d) <= RoundHalfUp(n', d)
  {
    var q, q' := n / d, n' / d;
    QuotientMonotone(n, n', d);
    assert n == q * d + n % d && n' == q' * d + n' % d;
    if q == q' {
      assert n % d <= n' % d;
    }
  }

  lemma DivisionMonotone(n: nat, n': nat, d: nat)
    requires n <= n'
    ensures 0 <= FloorDiv(n, d) <= FloorDiv(n', d)
    ensures 0 <= CeilDiv(n, d) <= CeilDiv(n', d)
    ensures FloorDiv(n, d) <= CeilDiv(n, d)
  {
    hide Quotient, RoundHalfUp;
    if d != 0 {
      QuotientOfNats(n, d);
      QuotientOfNats(n', d);
      RoundedMonotone(n * SCALE, n' * SCALE, d);
      FloorsMonotone(Quotient(n, d), Quotient(n', d));
    }
  }

  lemma FloorsMonotone(q: int, q': int)
    requires 0 <= q <= q'
    ensures 0 <= q / SCALE <= q' / SCALE
    ensures 0 <= -(-q / SCALE) <= -(-q' / SCALE)
    ensures q / SCALE <= -(-q / SCALE)
  {
  }

  lemma MultipleDivides(k: nat, d: nat)
    requires 0 < d
    ensures FloorDiv(k * d, d) == k && CeilDiv(k * d, d) == k
  {
    hide FloorDiv, CeilDiv;
    DivisionIs(k * d, d, k, 0);
    FloorExactWhen(k * d, d);
    CeilExactWhen(k * d, d);
  }
}
