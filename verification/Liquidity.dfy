/**
 * The principal a concentrated position holds (rangePrincipal, aquarius/math.go).
 *
 * Between two square-root prices x < y, liquidity L holds L * (1/x - 1/y) of the
 * first token, truncated twice, and L * (y - x) of the second, truncated once.
 * Every input is parsed first, and None stands for text that is no unsigned integer.
 */
module Liquidity {
  import opened Division
  import opened Options
  import Ticks

  datatype Principal = Principal(amount0: nat, amount1: nat)

  const Q96: nat := Ticks.Q96

  function Amount0(liquidity: nat, x: nat, y: nat): nat
    requires 0 < x <= y
  {
    var scaled: nat := liquidity * Q96 * (y - x);
    var once: nat := scaled / y;
    once / x
  }

  function Amount1(liquidity: nat, x: nat, y: nat): nat
    requires x <= y
  {
    liquidity * (y - x) / Q96
  }

  predicate ValidBounds(a: nat, b: nat) {
    0 < a < b
  }

  function Held(liquidity: nat, price: nat, a: nat, b: nat): Principal
    requires ValidBounds(a, b)
  {
    if price <= a then Principal(Amount0(liquidity, a, b), 0)
    else if price < b then Principal(Amount0(liquidity, price, b), Amount1(liquidity, a, price))
    else Principal(0, Amount1(liquidity, a, b))
  }

  // The price clamped to the range: all three branches are the two amounts there.
  function Clamp(price: nat, a: nat, b: nat): nat
    requires a <= b
  {
    if price <= a then a else if price < b then price else b
  }

  lemma HeldClamped(liquidity: nat, price: nat, a: nat, b: nat)
    requires ValidBounds(a, b)
    ensures var p := Clamp(price, a, b);
      Held(liquidity, price, a, b) == Principal(Amount0(liquidity, p, b), Amount1(liquidity, a, p))
  {
    assert Amount0(liquidity, b, b) == 0 by {
      assert liquidity * Q96 * (b - b) == 0;
      assert 0 / b == 0;
    }
    assert Amount1(liquidity, a, a) == 0 by {
      assert liquidity * (a - a) == 0;
    }
  }

  // Truncating twice is truncating once: liquidity * (1/x - 1/y), rounded down.
  lemma Amount0Exact(liquidity: nat, x: nat, y: nat)
    requires 0 < x <= y
    ensures 0 < x * y && Amount0(liquidity, x, y) == liquidity * Q96 * (y - x) / (x * y)
  {
    NestedFloor(liquidity * Q96 * (y - x), y, x);
  }

  lemma HeldExact(liquidity: nat, price: nat, a: nat, b: nat)
    requires ValidBounds(a, b)
    ensures var p, held := Clamp(price, a, b), Held(liquidity, price, a, b);
      && 0 < p * b
      && held.amount0 == liquidity * Q96 * (b - p) / (p * b)
      && held.amount1 == liquidity * (p - a) / Q96
  {
    hide Held;
    HeldClamped(liquidity, price, a, b);
    Amount0Exact(liquidity, Clamp(price, a, b), b);
  }

  /**
   * What the position holds is its price clamped to the range, valued against both ends:
   * the first token rounded down once, whichever branch is taken.
   */
  function RangePrincipal(liquidity: Option<nat>, price: Option<nat>, a: Option<nat>, b: Option<nat>)
    : (r: Option<Principal>)
    ensures r.Some? <==>
      liquidity.Some? && price.Some? && a.Some? && b.Some? && ValidBounds(a.value, b.value)
    ensures r.Some? ==> var p := Clamp(price.value, a.value, b.value);
      && 0 < p * b.value
      && r.value.amount0 == liquidity.value * Q96 * (b.value - p) / (p * b.value)
      && r.value.amount1 == liquidity.value * (p - a.value) / Q96
  {
    if liquidity.None? || price.None? || a.None? || b.None? then None
    else if a.value <= 0 || a.value >= b.value then None
    else
      HeldExact(liquidity.value, price.value, a.value, b.value);
      Some(Held(liquidity.value, price.value, a.value, b.value))
  }

  lemma Amount0Antitone(liquidity: nat, x: nat, x': nat, y: nat)
    requires 0 < x <= x' <= y
    ensures Amount0(liquidity, x', y) <= Amount0(liquidity, x, y)
  {
    var scaled := liquidity * Q96;
    Times(scaled, y - x', y - x);
    QuotientMonotone(scaled * (y - x'), scaled * (y - x), y);
    QuotientAntitone(scaled * (y - x') / y, x, x');
    QuotientMonotone(scaled * (y - x') / y, scaled * (y - x) / y, x);
  }

  lemma Amount1Monotone(liquidity: nat, x: nat, y: nat, y': nat)
    requires x <= y <= y'
    ensures Amount1(liquidity, x, y) <= Amount1(liquidity, x, y')
  {
    Times(liquidity, y - x, y' - x);
    QuotientMonotone(liquidity * (y - x), liquidity * (y' - x), Q96);
  }

  // As the price rises a position only ever gives up the first token and only ever
  // takes up the second, across all three branches.
  lemma PriceMovesOneWay(liquidity: nat, price: nat, price': nat, a: nat, b: nat)
    requires ValidBounds(a, b) && price <= price'
    ensures Held(liquidity, price', a, b).amount0 <= Held(liquidity, price, a, b).amount0
    ensures Held(liquidity, price, a, b).amount1 <= Held(liquidity, price', a, b).amount1
  {
    hide Held, Amount0, Amount1;
    HeldClamped(liquidity, price, a, b);
    HeldClamped(liquidity, price', a, b);
    Amount0Antitone(liquidity, Clamp(price, a, b), Clamp(price', a, b), b);
    Amount1Monotone(liquidity, a, Clamp(price, a, b), Clamp(price', a, b));
  }

  lemma Amount0Adds(liquidity: nat, x: nat, m: nat, y: nat)
    requires 0 < x <= m <= y
    ensures Amount0(liquidity, x, m) + Amount0(liquidity, m, y) <= Amount0(liquidity, x, y)
    ensures Amount0(liquidity, x, y) <= Amount0(liquidity, x, m) + Amount0(liquidity, m, y) + 1
  {
    hide Amount0;
    Amount0Exact(liquidity, x, m);
    Amount0Exact(liquidity, m, y);
    Amount0Exact(liquidity, x, y);
    FractionsMeet(liquidity * Q96, x, m, y);
    FloorsAdd(liquidity * Q96 * (m - x), x * m, liquidity * Q96 * (y - m), m * y,
              liquidity * Q96 * (y - x), x * y);
  }

  // (1/x - 1/m) + (1/m - 1/y) = 1/x - 1/y, over common denominators.
  lemma FractionsMeet(scaled: nat, x: nat, m: nat, y: nat)
    requires 0 < x <= m <= y
    ensures (scaled * (y - x)) * ((x * m) * (m * y))
         == (scaled * (m - x)) * ((m * y) * (x * y)) + (scaled * (y - m)) * ((x * m) * (x * y))
  {
    var all := x * m * y;
    Pairs(x, m, y);
    Regroup(scaled, y - x, all, m);
    Regroup(scaled, m - x, all, y);
    Regroup(scaled, y - m, all, x);
    assert (y - x) * m == (m - x) * y + (y - m) * x;
    Distribute(scaled * all, (m - x) * y, (y - m) * x);
  }

  lemma Pairs(x: nat, m: nat, y: nat)
    ensures (x * m) * (m * y) == (x * m * y) * m
    ensures (m * y) * (x * y) == (x * m * y) * y
    ensures (x * m) * (x * y) == (x * m * y) * x
  {
  }

  lemma Regroup(s: nat, u: nat, p: nat, m: nat)
    ensures (s * u) * (p * m) == (s * p) * (u * m)
  {
  }

  lemma Distribute(k: nat, x: nat, y: nat)
    ensures k * (x + y) == k * x + k * y
  {
  }

  lemma Amount1Adds(liquidity: nat, x: nat, m: nat, y: nat)
    requires x <= m <= y
    ensures Amount1(liquidity, x, m) + Amount1(liquidity, m, y) <= Amount1(liquidity, x, y)
    ensures Amount1(liquidity, x, y) <= Amount1(liquidity, x, m) + Amount1(liquidity, m, y) + 1
  {
    var n1, n2, n := liquidity * (m - x), liquidity * (y - m), liquidity * (y - x);
    assert n == n1 + n2;
    assert n * (Q96 * Q96) == n1 * (Q96 * Q96) + n2 * (Q96 * Q96);
    FloorsAdd(n1, Q96, n2, Q96, n, Q96);
  }

  // Splitting a position at a price inside its range never adds to either amount and
  // loses at most one unit of each.
  lemma SplitLosesAtMostOne(liquidity: nat, price: nat, a: nat, m: nat, b: nat)
    requires ValidBounds(a, m) && ValidBounds(m, b)
    ensures var low, high, whole :=
        Held(liquidity, price, a, m), Held(liquidity, price, m, b), Held(liquidity, price, a, b);
      && low.amount0 + high.amount0 <= whole.amount0 <= low.amount0 + high.amount0 + 1
      && low.amount1 + high.amount1 <= whole.amount1 <= low.amount1 + high.amount1 + 1
  {
    hide Held, Amount0, Amount1;
    HeldClamped(liquidity, price, a, m);
    HeldClamped(liquidity, price, m, b);
    HeldClamped(liquidity, price, a, b);
    EmptyRange(liquidity, m);
    if price < m {
      Amount0Adds(liquidity, Clamp(price, a, m), m, b);
    } else {
      Amount1Adds(liquidity, a, m, Clamp(price, m, b));
    }
  }

  lemma EmptyRange(liquidity: nat, x: nat)
    requires 0 < x
    ensures Amount0(liquidity, x, x) == 0 && Amount1(liquidity, x, x) == 0
  {
    assert liquidity * Q96 * (x - x) == 0;
    assert liquidity * (x - x) == 0;
  }

  // Two ticks in range, in order, always give the function bounds it accepts.
  lemma TicksGiveValidBounds(liquidity: nat, price: nat, lower: int, upper: int)
    requires Ticks.InRange(lower) && Ticks.InRange(upper)
    ensures RangePrincipal(Some(liquidity), Some(price), Some(Ticks.SqrtPrice(lower)), Some(Ticks.SqrtPrice(upper))).Some?
       <==> lower < upper
  {
    hide Ticks.SqrtPrice;
    if lower < upper {
      Ticks.StrictlyIncreasing(lower, upper);
    } else if upper < lower {
      Ticks.StrictlyIncreasing(upper, lower);
    }
  }
}
