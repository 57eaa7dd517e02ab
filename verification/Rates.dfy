/**
 * Utilization and interest rates of a reserve (blend/math.go).
 *
 * All amounts are raw integers; a rate is in units of 10^-7.  Every division is one
 * of the ceiling or floor helpers, each of which rounds to 48 digits first.
 */
module Rates {
  import opened Division
  import opened FixedPoint
  import opened Options

  const FACTOR: nat := 10_000_000
  const U95: nat := 9_500_000
  const LAST_STRETCH: nat := 500_000

  // The interest parameters of a reserve and the rate modifier's scale.
  datatype Curve = Curve(target: nat, modifier: nat, modifierScale: nat, rBase: nat, rOne: nat, rTwo: nat, rThree: nat)

  // None is the rate the source reports as invalid and partial.
  function BorrowRate(util: nat, curve: Curve, dSupply: nat): Option<int> {
    if util == 0 || dSupply == 0 then Some(0)
    else if curve.target == 0 then None
    else if util <= curve.target then
      var scalar := FixedDivCeil(util, curve.target, FACTOR);
      Some(Modified(curve.rBase + FixedMulCeil(scalar, curve.rOne, FACTOR), curve))
    else if util <= U95 then
      var den := U95 - curve.target;
      if den == 0 then Some(Modified(curve.rBase + curve.rOne + curve.rTwo, curve))
      else
        var scalar := FixedDivCeil(util - curve.target, den, FACTOR);
        Some(Modified(curve.rBase + curve.rOne + FixedMulCeil(scalar, curve.rTwo, FACTOR), curve))
    else
      var scalar := FixedDivCeil(util - U95, LAST_STRETCH, FACTOR);
      var extra := FixedMulCeil(scalar, curve.rThree, FACTOR);
      Some(Modified(curve.rBase + curve.rOne + curve.rTwo, curve) + extra)
  }

  function Modified(base: int, curve: Curve): int {
    FixedMulCeil(base, curve.modifier, curve.modifierScale)
  }

  // The rate with every slope used up, before and after the last kink's own slope.
  function Intersection(curve: Curve): int {
    Modified(curve.rBase + curve.rOne + curve.rTwo, curve)
  }

  // -------------------------------------------------------------------------
  // One segment of the curve.

  // How much of a slope is used up after `done` of `whole`.
  function Climb(done: nat, whole: nat, slope: nat): int {
    FixedMulCeil(FixedDivCeil(done, whole, FACTOR), slope, FACTOR)
  }

  lemma ClimbBounds(done: nat, done': nat, whole: nat, slope: nat)
    requires done <= done'
    ensures 0 <= Climb(done, whole, slope) <= Climb(done', whole, slope)
    ensures 0 < whole && done' <= whole ==> Climb(done', whole, slope) <= slope
  {
    hide CeilDiv;
    Times(FACTOR, done, done');
    DivisionMonotone(done * FACTOR, done' * FACTOR, whole);
    var s, s' := FixedDivCeil(done, whole, FACTOR), FixedDivCeil(done', whole, FACTOR);
    Times(slope, s, s');
    assert s * slope <= s' * slope && 0 <= s * slope;
    DivisionMonotone(s * slope, s' * slope, FACTOR);
    if 0 < whole && done' <= whole {
      Times(FACTOR, done', whole);
      DivisionMonotone(done' * FACTOR, whole * FACTOR, whole);
      assert whole * FACTOR == FACTOR * whole;
      MultipleDivides(FACTOR, whole);
      Times(slope, s', FACTOR);
      DivisionMonotone(s' * slope, FACTOR * slope, FACTOR);
      assert FACTOR * slope == slope * FACTOR;
      MultipleDivides(slope, FACTOR);
    }
  }

  lemma ModifiedMonotone(base: nat, base': nat, curve: Curve)
    requires base <= base'
    ensures 0 <= Modified(base, curve) <= Modified(base', curve)
  {
    hide CeilDiv;
    Times(curve.modifier, base, base');
    DivisionMonotone(base * curve.modifier, base' * curve.modifier, curve.modifierScale);
  }

  // The rate in terms of climbs: the branch in the source for a target at the second
  // kink is never reached.
  function Segment(util: nat, curve: Curve): int {
    if util <= curve.target then Modified(curve.rBase + Climb(util, curve.target, curve.rOne), curve)
    else if util <= U95 then
      Modified(curve.rBase + curve.rOne + Climb(util - curve.target, U95 - curve.target, curve.rTwo), curve)
    else Intersection(curve) + Climb(util - U95, LAST_STRETCH, curve.rThree)
  }

  lemma RateIsSegment(util: nat, curve: Curve, dSupply: nat)
    requires 0 < util && 0 < dSupply && 0 < curve.target
    ensures BorrowRate(util, curve, dSupply) == Some(Segment(util, curve))
  {
    hide FixedMulCeil, FixedDivCeil;
  }

  // Each segment stays between its two kinks.
  lemma SegmentRange(util: nat, curve: Curve)
    requires 0 < curve.target
    ensures var knee := Modified(curve.rBase + curve.rOne, curve);
      && 0 <= knee <= Intersection(curve)
      && 0 <= Segment(util, curve)
      && (util <= curve.target ==> Segment(util, curve) <= knee)
      && (curve.target < util <= U95 ==> knee <= Segment(util, curve) <= Intersection(curve))
      && (curve.target < util && U95 < util ==> Intersection(curve) <= Segment(util, curve))
      && (curve.target < util && U95 < util <= FACTOR ==> Segment(util, curve) <= Intersection(curve) + curve.rThree)
  {
    hide Modified, Climb;
    ModifiedMonotone(curve.rBase + curve.rOne, curve.rBase + curve.rOne + curve.rTwo, curve);
    if util <= curve.target {
      ClimbBounds(util, util, curve.target, curve.rOne);
      var climb := Climb(util, curve.target, curve.rOne);
      ModifiedMonotone(curve.rBase + climb, curve.rBase + curve.rOne, curve);
    } else if util <= U95 {
      ClimbBounds(util - curve.target, util - curve.target, U95 - curve.target, curve.rTwo);
      var climb := Climb(util - curve.target, U95 - curve.target, curve.rTwo);
      ModifiedMonotone(curve.rBase + curve.rOne, curve.rBase + curve.rOne + climb, curve);
      ModifiedMonotone(curve.rBase + curve.rOne + climb, curve.rBase + curve.rOne + curve.rTwo, curve);
    } else {
      ClimbBounds(util - U95, util - U95, LAST_STRETCH, curve.rThree);
    }
  }

  lemma SameSegment(util: nat, util': nat, curve: Curve)
    requires util <= util' && 0 < curve.target
    requires (util <= curve.target) == (util' <= curve.target)
    requires (util <= U95) == (util' <= U95) || util' <= curve.target
    ensures Segment(util, curve) <= Segment(util', curve)
  {
    hide Modified, Climb;
    if util' <= curve.target {
      ClimbBounds(util, util', curve.target, curve.rOne);
      ModifiedMonotone(curve.rBase + Climb(util, curve.target, curve.rOne),
                       curve.rBase + Climb(util', curve.target, curve.rOne), curve);
    } else if util' <= U95 {
      ClimbBounds(util - curve.target, util' - curve.target, U95 - curve.target, curve.rTwo);
      ModifiedMonotone(curve.rBase + curve.rOne + Climb(util - curve.target, U95 - curve.target, curve.rTwo),
                       curve.rBase + curve.rOne + Climb(util' - curve.target, U95 - curve.target, curve.rTwo), curve);
    } else {
      ClimbBounds(util - U95, util' - U95, LAST_STRETCH, curve.rThree);
    }
  }

  lemma SegmentsInOrder(util: nat, util': nat, curve: Curve)
    requires util <= util' && 0 < curve.target
    ensures 0 <= Segment(util, curve) <= Segment(util', curve)
  {
    hide Segment, Intersection, Modified;
    SegmentRange(util, curve);
    SegmentRange(util', curve);
    if (util <= curve.target) == (util' <= curve.target) && ((util <= U95) == (util' <= U95) || util' <= curve.target) {
      SameSegment(util, util', curve);
    }
  }

  // -------------------------------------------------------------------------
  // The whole curve.

  // A rate exists unless the target is zero where it is needed.
  lemma RateExists(util: nat, curve: Curve, dSupply: nat)
    ensures BorrowRate(util, curve, dSupply).Some? <==> util == 0 || dSupply == 0 || curve.target > 0
  {
  }

  lemma NoDebtNoRate(util: nat, curve: Curve, dSupply: nat)
    requires util == 0 || dSupply == 0
    ensures BorrowRate(util, curve, dSupply) == Some(0)
  {
  }

  // Higher utilization never means a lower rate: within a segment, across both
  // kinks, and wherever the target lies.
  lemma BorrowRateMonotone(util: nat, util': nat, curve: Curve, dSupply: nat)
    requires util <= util' && 0 < curve.target
    ensures var low, high := BorrowRate(util, curve, dSupply), BorrowRate(util', curve, dSupply);
      low.Some? && high.Some? && 0 <= low.value <= high.value
  {
    hide BorrowRate, Segment;
    if util == 0 || dSupply == 0 {
      NoDebtNoRate(util, curve, dSupply);
    } else {
      RateIsSegment(util, curve, dSupply);
    }
    if util' == 0 || dSupply == 0 {
      NoDebtNoRate(util', curve, dSupply);
    } else {
      RateIsSegment(util', curve, dSupply);
    }
    SegmentsInOrder(util, util', curve);
  }

  // The rate at full utilization bounds every rate.
  lemma BorrowRateBounded(util: nat, curve: Curve, dSupply: nat)
    requires util <= FACTOR
    requires BorrowRate(util, curve, dSupply).Some?
    ensures 0 <= BorrowRate(util, curve, dSupply).value <= Intersection(curve) + curve.rThree
  {
    RateExists(util, curve, dSupply);
    hide BorrowRate, Segment, Intersection;
    if util == 0 || dSupply == 0 {
      NoDebtNoRate(util, curve, dSupply);
      IntersectionNotNegative(curve);
    } else {
      RateIsSegment(util, curve, dSupply);
      SegmentRange(util, curve);
    }
  }

  lemma IntersectionNotNegative(curve: Curve)
    ensures 0 <= Intersection(curve)
  {
    ModifiedMonotone(curve.rBase + curve.rOne + curve.rTwo, curve.rBase + curve.rOne + curve.rTwo, curve);
  }

  // -------------------------------------------------------------------------
  // The values of the rate.

  // q is n / d rounded up.
  ghost predicate IsCeiling(q: int, n: int, d: nat) { (q - 1) * d < n <= q * d }

  lemma CeilingIs(n: int, d: nat)
    requires 0 < d < 2 * SCALE
    ensures IsCeiling(CeilDiv(n, d), n, d)
  {
    hide CeilDiv;
    DivisionExact(n, d);
    var q := -n / d;
    assert q * d <= -n < (q + 1) * d;
    assert (-q - 1) * d == -((q + 1) * d) && -q * d == -(q * d);
  }

  // The rate in whole numbers rounded up at each step: a climb to the target, a climb
  // from there to 95%, and the last slope over the last 5%.
  ghost predicate IsRate(rate: int, util: nat, curve: Curve, used: int, climbed: int) {
    if util <= curve.target then
      && IsCeiling(used, util * 10_000_000, curve.target)
      && IsCeiling(climbed, used * curve.rOne, 10_000_000)
      && IsCeiling(rate, (curve.rBase + climbed) * curve.modifier, curve.modifierScale)
    else if util <= 9_500_000 then
      && IsCeiling(used, (util - curve.target) * 10_000_000, 9_500_000 - curve.target)
      && IsCeiling(climbed, used * curve.rTwo, 10_000_000)
      && IsCeiling(rate, (curve.rBase + curve.rOne + climbed) * curve.modifier, curve.modifierScale)
    else
      && IsCeiling(used, (util - 9_500_000) * 10_000_000, 500_000)
      && IsCeiling(climbed, used * curve.rThree, 10_000_000)
      && IsCeiling(rate - climbed, (curve.rBase + curve.rOne + curve.rTwo) * curve.modifier, curve.modifierScale)
  }

  lemma RateExactly(util: nat, curve: Curve, dSupply: nat)
    requires 0 < util && 0 < dSupply && 0 < curve.target < 2 * SCALE && 0 < curve.modifierScale < 2 * SCALE
    ensures BorrowRate(util, curve, dSupply).Some?
    ensures exists used, climbed :: IsRate(BorrowRate(util, curve, dSupply).value, util, curve, used, climbed)
  {
    hide CeilDiv, IsCeiling, BorrowRate;
    RateIsSegment(util, curve, dSupply);
    var done, whole, slope := RateParts(util, curve);
    var used := FixedDivCeil(done, whole, FACTOR);
    var climbed := FixedMulCeil(used, slope, FACTOR);
    CeilingIs(done * FACTOR, whole);
    CeilingIs(used * slope, FACTOR);
    var base := if util <= curve.target then curve.rBase + climbed
                else if util <= U95 then curve.rBase + curve.rOne + climbed
                else curve.rBase + curve.rOne + curve.rTwo;
    CeilingIs(base * curve.modifier, curve.modifierScale);
    assert IsRate(Segment(util, curve), util, curve, used, climbed);
  }

  // What the segment climbs over.
  lemma RateParts(util: nat, curve: Curve) returns (done: nat, whole: nat, slope: nat)
    requires 0 < util && 0 < curve.target < 2 * SCALE
    ensures 0 < whole < 2 * SCALE
    ensures util <= curve.target ==> done == util && whole == curve.target && slope == curve.rOne
    ensures curve.target < util <= U95 ==> done == util - curve.target && whole == U95 - curve.target && slope == curve.rTwo
    ensures curve.target < util && U95 < util ==> done == util - U95 && whole == LAST_STRETCH && slope == curve.rThree
  {
    if util <= curve.target {
      done, whole, slope := util, curve.target, curve.rOne;
    } else if util <= U95 {
      done, whole, slope := util - curve.target, U95 - curve.target, curve.rTwo;
    } else {
      done, whole, slope := util - U95, LAST_STRETCH, curve.rThree;
    }
  }

  // A slope used up to the end of its stretch counts in full.
  lemma FullClimb(whole: nat, slope: nat)
    requires 0 < whole
    ensures Climb(whole, whole, slope) == slope
  {
    hide CeilDiv;
    assert whole * FACTOR == FACTOR * whole && FACTOR * slope == slope * FACTOR;
    MultipleDivides(FACTOR, whole);
    MultipleDivides(slope, FACTOR);
  }

  // At the kinks each slope is used up: the rate at the target, at 95% and at full
  // utilization, where the bound on every rate is attained.
  lemma RateAtTheKinks(curve: Curve, dSupply: nat)
    requires 0 < dSupply && 0 < curve.target < 9_500_000 && 0 < curve.modifierScale < 2 * SCALE
    ensures var rate := BorrowRate(curve.target, curve, dSupply);
      rate.Some? && IsCeiling(rate.value, (curve.rBase + curve.rOne) * curve.modifier, curve.modifierScale)
    ensures var rate := BorrowRate(9_500_000, curve, dSupply);
      rate.Some? && IsCeiling(rate.value, (curve.rBase + curve.rOne + curve.rTwo) * curve.modifier, curve.modifierScale)
    ensures var full := BorrowRate(10_000_000, curve, dSupply);
      full.Some? && BorrowRate(9_500_000, curve, dSupply) == Some(full.value - curve.rThree)
  {
    hide CeilDiv, IsCeiling, BorrowRate, Climb;
    RateIsSegment(curve.target, curve, dSupply);
    RateIsSegment(9_500_000, curve, dSupply);
    RateIsSegment(10_000_000, curve, dSupply);
    FullClimb(curve.target, curve.rOne);
    FullClimb(9_500_000 - curve.target, curve.rTwo);
    FullClimb(500_000, curve.rThree);
    CeilingIs((curve.rBase + curve.rOne) * curve.modifier, curve.modifierScale);
    CeilingIs((curve.rBase + curve.rOne + curve.rTwo) * curve.modifier, curve.modifierScale);
  }

  // -------------------------------------------------------------------------
  // A reserve's normalized figures.

  datatype PoolTerms = PoolTerms(rateScalar: nat, backstopTake: Option<int>)

  datatype ReserveTerms = ReserveTerms(bSupply: nat, bRate: nat, dSupply: nat, dRate: nat, maxUtil: nat, curve: Curve)

  datatype Normalized = Normalized(
    supplied: int, borrowed: int, utilization: int,
    borrowRate: Option<int>, supplyRate: Option<int>,
    borrowCap: int, remainingBorrowable: int)

  // The backstop's take, clamped to the factor scale; unreadable text counts as zero.
  function Take(pool: PoolTerms): (take: nat)
    ensures take <= FACTOR
  {
    if pool.backstopTake.None? || pool.backstopTake.value < 0 then 0
    else if pool.backstopTake.value > FACTOR then FACTOR
    else pool.backstopTake.value
  }

  function Utilization(borrowed: int, supplied: int): int {
    if borrowed == 0 then 0
    else if supplied == 0 then FACTOR
    else
      var util := FixedDivCeil(borrowed, supplied, FACTOR);
      if util > FACTOR then FACTOR else util
  }

  function SupplyRate(borrowRate: int, util: int, take: nat): int {
    FixedMulFloor(FixedMulFloor(borrowRate, util, FACTOR), FACTOR - take, FACTOR)
  }

  // What borrowers pay on the utilized share, less the backstop's take of at most all.
  ghost predicate PaidAfter(backstopTake: int, n: Normalized)
    requires n.supplyRate.Some? && n.borrowRate.Some?
  {
    var take := if backstopTake < 0 then 0 else if backstopTake > 10_000_000 then 10_000_000 else backstopTake;
    n.supplyRate.value == (n.borrowRate.value * n.utilization / 10_000_000) * (10_000_000 - take) / 10_000_000
  }

  // The figures in whole numbers: supplied rounded down and borrowed up, their ratio
  // rounded up and capped at one, and what lenders are paid of what borrowers pay after
  // the backstop's take.
  ghost predicate IsNormalized(pool: PoolTerms, reserve: ReserveTerms, n: Normalized)
    requires pool.rateScalar != 0
  {
    && n.supplied == reserve.bSupply * reserve.bRate / pool.rateScalar
    && IsCeiling(n.borrowed, reserve.dSupply * reserve.dRate, pool.rateScalar)
    && (n.borrowed == 0 ==> n.utilization == 0)
    && (n.borrowed != 0 && n.supplied == 0 ==> n.utilization == 10_000_000)
    && (n.borrowed != 0 && 0 < n.supplied < 2 * SCALE ==>
          || IsCeiling(n.utilization, n.borrowed * 10_000_000, n.supplied)
          || (n.utilization == 10_000_000 && n.borrowed > n.supplied))
    && (n.supplyRate.Some? ==> n.borrowRate.Some? && pool.backstopTake.Some?)
    && (n.supplyRate.Some? ==> PaidAfter(pool.backstopTake.value, n))
    && n.borrowCap == n.supplied * reserve.maxUtil / 10_000_000
    && n.remainingBorrowable == if n.borrowCap > n.borrowed then n.borrowCap - n.borrowed else 0
  }

  lemma UtilizationFigures(borrowed: nat, supplied: nat)
    requires borrowed != 0 && 0 < supplied < 2 * SCALE
    ensures var util := Utilization(borrowed, supplied);
      IsCeiling(util, borrowed * 10_000_000, supplied) || (util == 10_000_000 && borrowed > supplied)
  {
    hide CeilDiv;
    CeilingIs(borrowed * FACTOR, supplied);
    var q := FixedDivCeil(borrowed, supplied, FACTOR);
    if q > FACTOR && borrowed <= supplied {
      Times(FACTOR, borrowed, supplied);
      Times(supplied, FACTOR, q - 1);
      assert false;
    }
  }

  lemma NormalizedFigures(pool: PoolTerms, reserve: ReserveTerms, n: Normalized)
    requires 0 < pool.rateScalar < 2 * SCALE
    requires n.supplied == FixedMulFloor(reserve.bSupply, reserve.bRate, pool.rateScalar)
    requires n.borrowed == FixedMulCeil(reserve.dSupply, reserve.dRate, pool.rateScalar)
    requires n.utilization == Utilization(n.borrowed, n.supplied)
    requires n.supplyRate.Some? ==> n.borrowRate.Some? && pool.backstopTake.Some?
    requires n.supplyRate.Some? ==> n.supplyRate.value == SupplyRate(n.borrowRate.value, n.utilization, Take(pool))
    requires n.borrowCap == FixedMulFloor(n.supplied, reserve.maxUtil, FACTOR)
    requires n.remainingBorrowable == if n.borrowCap > n.borrowed then n.borrowCap - n.borrowed else 0
    ensures IsNormalized(pool, reserve, n)
  {
    hide CeilDiv, FloorDiv, IsCeiling;
    AmountsNotNegative(reserve, pool.rateScalar);
    DivisionExact(reserve.bSupply * reserve.bRate, pool.rateScalar);
    CeilingIs(reserve.dSupply * reserve.dRate, pool.rateScalar);
    if n.borrowed != 0 && 0 < n.supplied < 2 * SCALE {
      UtilizationFigures(n.borrowed, n.supplied);
    }
    if n.supplyRate.Some? {
      var share := FixedMulFloor(n.borrowRate.value, n.utilization, FACTOR);
      DivisionExact(n.borrowRate.value * n.utilization, FACTOR);
      DivisionExact(share * (FACTOR - Take(pool)), FACTOR);
    }
    DivisionExact(n.supplied * reserve.maxUtil, FACTOR);
  }

  method NormalizeReserve(pool: PoolTerms, reserve: ReserveTerms) returns (out: Option<Normalized>)
    ensures out.Some? <==> pool.rateScalar != 0
    ensures out.Some? ==>
      var n := out.value;
      && n.supplied == FixedMulFloor(reserve.bSupply, reserve.bRate, pool.rateScalar)
      && n.borrowed == FixedMulCeil(reserve.dSupply, reserve.dRate, pool.rateScalar)
      && n.utilization == Utilization(n.borrowed, n.supplied)
      && 0 <= n.utilization <= FACTOR
      && n.borrowRate == BorrowRate(n.utilization, reserve.curve, reserve.dSupply)
      && (n.supplyRate.Some? <==> pool.backstopTake.Some? && n.borrowRate.Some?)
      && (n.supplyRate.Some? ==>
            && n.supplyRate.value == SupplyRate(n.borrowRate.value, n.utilization, Take(pool))
            && 0 <= n.supplyRate.value <= n.borrowRate.value)
      && n.borrowCap == FixedMulFloor(n.supplied, reserve.maxUtil, FACTOR)
      && (n.borrowed <= n.borrowCap ==> n.borrowed + n.remainingBorrowable == n.borrowCap)
      && (n.borrowed >= n.borrowCap ==> n.remainingBorrowable == 0)
      && (pool.rateScalar < 2 * SCALE ==> IsNormalized(pool, reserve, n))
  {
    hide FloorDiv, CeilDiv, BorrowRate, IsNormalized;
    if pool.rateScalar == 0 {
      return None;
    }
    var supplied := FixedMulFloor(reserve.bSupply, reserve.bRate, pool.rateScalar);
    var borrowed := FixedMulCeil(reserve.dSupply, reserve.dRate, pool.rateScalar);
    AmountsNotNegative(reserve, pool.rateScalar);
    UtilizationCapped(borrowed, supplied);
    var utilization: int := 0;
    if borrowed == 0 {
      utilization := 0;
    } else if supplied == 0 {
      utilization := FACTOR;
    } else {
      utilization := FixedDivCeil(borrowed, supplied, FACTOR);
    }
    if utilization > FACTOR {
      utilization := FACTOR;
    }
    var borrowRate := BorrowRate(utilization, reserve.curve, reserve.dSupply);
    var supplyRate: Option<int> := None;
    if pool.backstopTake.Some? && borrowRate.Some? {
      BorrowRateBounded(utilization, reserve.curve, reserve.dSupply);
      SupplyAtMostBorrow(borrowRate.value, utilization, Take(pool));
      var tmp := FixedMulFloor(borrowRate.value, utilization, FACTOR);
      supplyRate := Some(FixedMulFloor(tmp, FACTOR - Take(pool), FACTOR));
    }
    var borrowCap := FixedMulFloor(supplied, reserve.maxUtil, FACTOR);
    var remaining := borrowCap - borrowed;
    if remaining < 0 {
      remaining := 0;
    }
    var n := Normalized(supplied, borrowed, utilization, borrowRate, supplyRate, borrowCap, remaining);
    if pool.rateScalar < 2 * SCALE {
      NormalizedFigures(pool, reserve, n);
    }
    out := Some(n);
  }

  lemma AmountsNotNegative(reserve: ReserveTerms, scalar: nat)
    ensures 0 <= FixedMulFloor(reserve.bSupply, reserve.bRate, scalar)
    ensures 0 <= FixedMulCeil(reserve.dSupply, reserve.dRate, scalar)
  {
    hide FloorDiv, CeilDiv;
    DivisionMonotone(reserve.bSupply * reserve.bRate, reserve.bSupply * reserve.bRate, scalar);
    DivisionMonotone(reserve.dSupply * reserve.dRate, reserve.dSupply * reserve.dRate, scalar);
  }

  lemma UtilizationCapped(borrowed: nat, supplied: nat)
    ensures 0 <= Utilization(borrowed, supplied) <= FACTOR
  {
    hide CeilDiv;
    DivisionMonotone(borrowed * FACTOR, borrowed * FACTOR, supplied);
  }

  // Below twice the scale utilization is the exact ceiling of the ratio, capped.
  lemma UtilizationExact(borrowed: nat, supplied: nat)
    requires 0 < supplied < 2 * SCALE
    ensures var exact := Ceiling(borrowed * FACTOR, supplied);
      Utilization(borrowed, supplied) == if exact > FACTOR then FACTOR else exact
  {
    hide CeilDiv;
    DivisionExact(borrowed * FACTOR, supplied);
    if borrowed == 0 {
      EuclidIs(0, supplied, 0, 0);
    }
  }

  // Suppliers are never paid at a higher rate than borrowers pay.
  lemma SupplyAtMostBorrow(borrowRate: nat, util: nat, take: nat)
    requires util <= FACTOR && take <= FACTOR
    ensures 0 <= SupplyRate(borrowRate, util, take) <= borrowRate
  {
    hide FloorDiv;
    ShareAtMostWhole(borrowRate, util);
    ShareAtMostWhole(FixedMulFloor(borrowRate, util, FACTOR), FACTOR - take);
  }

  lemma ShareAtMostWhole(x: nat, part: nat)
    requires part <= FACTOR
    ensures 0 <= FixedMulFloor(x, part, FACTOR) <= x
  {
    hide FloorDiv;
    Times(x, part, FACTOR);
    DivisionMonotone(x * part, x * FACTOR, FACTOR);
    MultipleDivides(x, FACTOR);
  }

  // More debt against the same supply never makes borrowing cheaper.
  lemma MoreDebtNeverCheaper(borrowed: nat, borrowed': nat, supplied: nat, curve: Curve, dSupply: nat)
    requires borrowed <= borrowed' && 0 < curve.target
    ensures var low, high :=
        BorrowRate(Utilization(borrowed, supplied), curve, dSupply),
        BorrowRate(Utilization(borrowed', supplied), curve, dSupply);
      low.Some? && high.Some? && low.value <= high.value
  {
    hide CeilDiv, BorrowRate;
    UtilizationCapped(borrowed, supplied);
    UtilizationCapped(borrowed', supplied);
    DivisionMonotone(borrowed * FACTOR, borrowed' * FACTOR, supplied);
    BorrowRateMonotone(Utilization(borrowed, supplied), Utilization(borrowed', supplied), curve, dSupply);
  }
}
