/**
 * Square-root prices of concentrated-liquidity ticks (aquarius/math.go).
 *
 * A tick is turned into a Q128.128 ratio by multiplying, and truncating, one
 * ladder constant for every set bit of its absolute value; positive ticks take the
 * reciprocal, and the result is rounded up to Q64.96.  Twenty truncations and one
 * reciprocal stand between a tick and its price, so nothing is obvious about the
 * order of the prices of two ticks.  The proofs here keep two neighbouring chains
 * side by side: whatever bits they share, their quotient stays within one part in
 * 10^18, and twenty units, of the square root of 1.0001.
 */
module Ticks {
  import opened Division
  import opened Options

  type Int32 = x: int | -0x8000_0000 <= x < 0x8000_0000

  const MAX_TICK: nat := 887272
  const TWO32: nat := 0x1_0000_0000
  const Q96: nat := 0x1_00000000_00000000_00000000
  const Q128: nat := 0x1_00000000_00000000_00000000_00000000
  const Q256: nat := 0x1_00000000_00000000_00000000_00000000_00000000_00000000_00000000_00000000

  // The constant of bit 0, and the table for the bits above it.
  const ODD_MAGIC: nat := 0xfffcb933bd6fad37aa2d162d1a594001
  const LADDER: seq<nat> := [
    0xfff97272373d413259a46990580e213a,
    0xfff2e50f5f656932ef12357cf3c7fdcc,
    0xffe5caca7e10e4e61c3624eaa0941cd0,
    0xffcb9843d60f6159c9db58835c926644,
    0xff973b41fa98c081472e6896dfb254c0,
    0xff2ea16466c96a3843ec78b326b52861,
    0xfe5dee046a99a2a811c461f1969c3053,
    0xfcbe86c7900a88aedcffc83b479aa3a4,
    0xf987a7253ac413176f2b074cf7815e54,
    0xf3392b0822b70005940c7a398e4b70f3,
    0xe7159475a2c29b7443b29c7fa6e889d9,
    0xd097f3bdfd2022b8845ad8f792aa5825,
    0xa9f746462d870fdf8a65dc1f90e061e5,
    0x70d869a156d2a1b890bb3df62baf32f7,
    0x31be135f97d08fd981231505542fcfa6,
    0x9aa508b5b7a84e1c677de54f3e99bc9,
    0x5d6af8dedb81196699c329225ee604,
    0x2216e584f5fa1ea926041bedfe98,
    0x48a170391f7dc42444e8fa2
  ]
  const BITS: nat := 20

  function Magic(k: nat): nat
    requires k < BITS
  {
    if k == 0 then ODD_MAGIC else LADDER[k - 1]
  }

  function Abs(n: int): nat {
    if n < 0 then -n else n
  }

  // n shifted right by k bits.
  function Shift(n: nat, k: nat): nat {
    if k == 0 then n else Shift(n, k - 1) / 2
  }

  function Scale(x: nat, m: nat): nat {
    x * m / Q128
  }

  // The ratio x after the ladder has been walked from bit k upwards, where rest
  // holds the bits still to look at.
  function Walk(x: nat, rest: nat, k: nat): nat
    decreases BITS - k
  {
    if k >= BITS then x
    else Walk(if rest % 2 == 1 then Scale(x, Magic(k)) else x, rest / 2, k + 1)
  }

  function Ratio(abs: nat): nat {
    Walk(Q128, abs, 0)
  }

  // The ratio with the constants of all bits below k multiplied in.
  function Full(k: nat): nat
    requires k <= BITS
  {
    if k == 0 then Q128 else Scale(Full(k - 1), Magic(k - 1))
  }

  predicate InRange(tick: int) {
    Abs(tick) <= MAX_TICK
  }

  // The Q128.128 ratio of a signed tick.
  function Signed(tick: int): nat
    requires InRange(tick)
  {
    RatioPositive(Abs(tick));
    if tick > 0 then Q256 / Ratio(tick) else Ratio(-tick)
  }

  // A Q128.128 ratio as Q64.96, rounded up.
  function ToX96(ratio: nat): nat {
    ratio / TWO32 + if ratio % TWO32 != 0 then 1 else 0
  }

  function SqrtPrice(tick: int): nat
    requires InRange(tick)
  {
    ToX96(Signed(tick))
  }

  // -------------------------------------------------------------------------
  // The ladder never reaches zero.

  lemma ScaleMonotone(x: nat, y: nat, m: nat)
    requires x <= y
    ensures Scale(x, m) <= Scale(y, m)
  {
    assert x * m <= y * m;
  }

  lemma ScaleShrinks(x: nat, m: nat)
    requires m <= Q128
    ensures Scale(x, m) <= x
  {
    assert x * m <= x * Q128;
  }

  // The value of Full(k).
  function Product(k: nat): nat
    requires k <= BITS
  {
    match k
    case 0 => Q128
    case 1 => 0xfffcb933bd6fad37aa2d162d1a594001
    case 2 => 0xfff62bbb6d458ec3c792106391dc463e
    case 3 => 0xffe9114b9cf28d394c3203dbd44eb085
    case 4 => 0xffcede6f1d8be90b88f350424e84e5b7
    case 5 => 0xff9a80c1ada7480b1daa871d7c4d9b36
    case 6 => 0xff31e58d5a53c84fc142023ec1b1dfd7
    case 7 => 0xfe612f8183b1ea21b72fb71b03542ae4
    case 8 => 0xfcc1c2f380536bc67ee1ff564d1080b2
    case 9 => 0xf98ad8c8d7ecc0a3f8a42c9724cffb6a
    case 10 => 0xf33c480189b415235ad119427d89a1f6
    case 11 => 0xe71889a85903fd03cb7cc40bdf371a9c
    case 12 => 0xd09a9f3e93db5812d4820c2fc67a3e3a
    case 13 => 0xa9f973345b9e647c4163af91d00b255f
    case 14 => 0x70d9db6485f04ddd567e07c7b89f8e7c
    case 15 => 0x31beb65d91af63ae717a760be3b374dc
    case 16 => 0x9aa7036fd2355429c4030b032e1cf71
    case 17 => 0x5d6c2af97aaa8de0e5a6bf23f5e547
    case 18 => 0x221755388a6658e120f4a3c503cf
    case 19 => 0x48a25e36942a4fc0c1f899f
    case _ => 0x149b7873d84d48
  }

  lemma ProductStep(k: nat)
    requires k < BITS
    ensures Product(k + 1) == Scale(Product(k), Magic(k))
  {
  }

  lemma {:induction false} FullIs(k: nat)
    requires k <= BITS
    ensures Full(k) == Product(k)
  {
    if k > 0 {
      FullIs(k - 1);
      ProductStep(k - 1);
    }
  }

  lemma MagicAtMostOne(k: nat)
    requires k < BITS
    ensures Magic(k) <= Q128
  {
  }

  lemma WalkBounds(x: nat, rest: nat, k: nat)
    requires k <= BITS && Full(k) <= x
    ensures Full(BITS) <= Walk(x, rest, k) <= x
    decreases BITS - k
  {
    if k < BITS {
      MagicAtMostOne(k);
      ScaleMonotone(Full(k), x, Magic(k));
      ScaleShrinks(x, Magic(k));
      ScaleShrinks(Full(k), Magic(k));
      WalkBounds(if rest % 2 == 1 then Scale(x, Magic(k)) else x, rest / 2, k + 1);
    }
  }

  lemma RatioPositive(abs: nat)
    ensures 0x10_0000_0000_0000 <= Ratio(abs) <= Q128
  {
    WalkBounds(Q128, abs, 0);
    FullIs(BITS);
  }

  // -------------------------------------------------------------------------
  // One tick is a factor of sqrt(1.0001).

  // ROOT / UNIT is sqrt(1.0001), rounded down at eighteen decimals.
  const UNIT: nat := 1_000_000_000_000_000_000
  const ROOT: nat := 1_000_049_998_750_062_496

  lemma RootOfOneBasisPoint()
    ensures 10000 * ROOT * ROOT < 10001 * UNIT * UNIT < 10000 * (ROOT + 1) * (ROOT + 1)
  {
  }

  // x is y times ROOT / UNIT, up to one part in 10^18 of y and slack truncations.
  predicate Near(x: nat, y: nat, slack: nat) {
    && UNIT * x <= ROOT * y + y + slack * (ROOT + 1)
    && ROOT * y <= UNIT * x + y + slack * (ROOT + 1)
  }

  // One multiplication by a common constant costs one more truncation.
  lemma NearScale(x: nat, y: nat, slack: nat, m: nat)
    requires Near(x, y, slack) && m <= Q128
    ensures Near(Scale(x, m), Scale(y, m), slack + 1)
  {
    var s := slack * (ROOT + 1);
    ScaledBound(UNIT, x, ROOT + 1, y, s, m);
    ScaledBound(ROOT - 1, y, UNIT, x, s, m);
  }

  // a*x <= b*y + s survives a truncating multiplication up to b.
  lemma ScaledBound(a: nat, x: nat, b: nat, y: nat, s: nat, m: nat)
    requires a * x <= b * y + s && m <= Q128
    ensures a * Scale(x, m) <= b * Scale(y, m) + s + b
  {
    var x', y' := Scale(x, m), Scale(y, m);
    assert x' * Q128 <= x * m && y * m < (y' + 1) * Q128;
    calc {
      a * x' * Q128;
    ==
      a * (x' * Q128);
    <= { Times(a, x' * Q128, x * m); }
      a * (x * m);
    ==
      (a * x) * m;
    <= { Times(m, a * x, b * y + s); }
      (b * y + s) * m;
    ==
      b * (y * m) + s * m;
    <= { Times(b, y * m, (y' + 1) * Q128); Times(s, m, Q128); }
      b * ((y' + 1) * Q128) + s * Q128;
    ==
      (b * y' + b + s) * Q128;
    }
  }

  lemma {:induction false} NearWalk(x: nat, y: nat, rest: nat, k: nat, slack: nat)
    requires k <= BITS && Near(x, y, slack)
    ensures Near(Walk(x, rest, k), Walk(y, rest, k), slack + BITS - k)
    decreases BITS - k
  {
    if k < BITS {
      if rest % 2 == 1 {
        MagicAtMostOne(k);
        NearScale(x, y, slack, Magic(k));
        NearWalk(Scale(x, Magic(k)), Scale(y, Magic(k)), rest / 2, k + 1, slack + 1);
      } else {
        NearWalk(x, y, rest / 2, k + 1, slack + 1);
      }
    }
  }

  // Multiplying in every bit below k is one tick short of multiplying in bit k.
  lemma LadderConstants(k: nat)
    requires k < BITS
    ensures Near(Full(k), Scale(Q128, Magic(k)), 0)
  {
    FullIs(k);
    MagicAtMostOne(k);
    ConstantsNear(k);
  }

  lemma ConstantsNear(k: nat)
    requires k < BITS
    ensures Near(Product(k), Scale(Q128, Magic(k)), 0)
  {
  }

  // How many values the bits from k upwards can take.
  function Values(k: nat): nat
    requires k <= BITS
    decreases BITS - k
  {
    if k == BITS then 1 else 2 * Values(k + 1)
  }

  lemma NearLoosen(x: nat, y: nat, slack: nat, more: nat)
    requires Near(x, y, slack) && slack <= more
    ensures Near(x, y, more)
  {
    Times(ROOT + 1, slack, more);
  }

  lemma WalkStep(x: nat, rest: nat, k: nat)
    requires k < BITS
    ensures rest % 2 == 0 ==> Walk(x, rest, k) == Walk(x, rest / 2, k + 1)
    ensures rest % 2 == 1 ==> Walk(x, rest, k) == Walk(Scale(x, Magic(k)), rest / 2, k + 1)
  {
  }

  // Adding one flips the run of low set bits: below it the two chains share
  // nothing, above it they share everything.
  lemma {:induction false} Neighbours(a: nat, k: nat)
    requires k <= BITS && a + 1 < Values(k)
    ensures Near(Walk(Full(k), a, k), Walk(Q128, a + 1, k), BITS)
    decreases BITS - k
  {
    hide Near, Scale, Magic, Walk;
    WalkStep(Full(k), a, k);
    WalkStep(Q128, a + 1, k);
    if a % 2 == 0 {
      LadderConstants(k);
      NearWalk(Full(k), Scale(Q128, Magic(k)), a / 2, k + 1, 0);
      NearLoosen(Walk(Full(k), a, k), Walk(Q128, a + 1, k), BITS - k - 1, BITS);
      assert (a + 1) / 2 == a / 2;
    } else {
      assert (a + 1) / 2 == a / 2 + 1;
      Neighbours(a / 2, k + 1);
    }
  }

  // The ratios of neighbouring ticks: R(a) is ROOT / UNIT * R(a+1), up to one part in
  // 10^18 and twenty truncations, and ROOT / UNIT is sqrt(1.0001) to eighteen decimals.
  lemma TickStep(a: nat)
    requires a < MAX_TICK
    ensures Near(Ratio(a), Ratio(a + 1), BITS)
    ensures 10000 * ROOT * ROOT < 10001 * UNIT * UNIT < 10000 * (ROOT + 1) * (ROOT + 1)
  {
    hide Near, Walk;
    RootOfOneBasisPoint();
    assert Full(0) == Q128;
    assert a + 1 < Values(0) by { ValuesAtZero(); }
    Neighbours(a, 0);
  }

  lemma ValuesAtZero()
    ensures Values(0) == 0x10_0000
  {
    assert Values(16) == 16;
    assert Values(12) == 256;
    assert Values(8) == 4096;
    assert Values(4) == 65536;
  }

  // -------------------------------------------------------------------------
  // Prices increase with ticks.

  lemma RatioGap(a: nat)
    requires a < MAX_TICK
    ensures Ratio(a + 1) + TWO32 <= Ratio(a)
    ensures Ratio(a + 1) <= 30000 * (Ratio(a) - Ratio(a + 1))
  {
    hide Ratio;
    TickStep(a);
    RatioPositive(a + 1);
  }

  // The reciprocal turns a relative gap around.
  lemma ReciprocalGap(x: nat, y: nat)
    requires 0 < y < x <= Q128
    requires y <= 30000 * (x - y)
    ensures Q256 / x + TWO32 <= Q256 / y
  {
    var p := Q256 / x;
    assert Q128 <= p && p * x <= Q256 by { QuotientAtLeast(x); }
    assert TWO32 * y <= p * (x - y) by {
      Times(x - y, Q128, p);
    }
    assert (p + TWO32) * y <= Q256;
    QuotientHolds(Q256, y, p + TWO32);
  }

  lemma QuotientAtLeast(x: nat)
    requires 0 < x <= Q128
    ensures Q128 <= Q256 / x && Q256 / x * x <= Q256
  {
    Times(Q128, x, Q128);
    QuotientHolds(Q256, x, Q128);
  }

  lemma SignedStep(tick: int)
    requires InRange(tick) && InRange(tick + 1)
    ensures Signed(tick) + TWO32 <= Signed(tick + 1)
  {
    hide Ratio;
    if tick >= 0 {
      RatioGap(tick);
      RatioPositive(tick);
      RatioPositive(tick + 1);
      ReciprocalGap(Ratio(tick), Ratio(tick + 1));
      ZeroTick();
    } else {
      RatioGap(-(tick + 1));
    }
  }

  lemma {:induction false} WalkZero(x: nat, k: nat)
    ensures Walk(x, 0, k) == x
    decreases BITS - k
  {
    if k < BITS {
      WalkZero(x, k + 1);
    }
  }

  lemma ZeroTick()
    ensures Ratio(0) == Q128 && Q256 / Ratio(0) == Q128
  {
    WalkZero(Q128, 0);
  }

  // The square-root price is positive and strictly increasing in the tick.
  lemma {:induction false} StrictlyIncreasing(lower: int, upper: int)
    requires InRange(lower) && InRange(upper) && lower < upper
    ensures 0 < SqrtPrice(lower) < SqrtPrice(upper)
    decreases upper - lower
  {
    hide Ratio, Signed;
    SignedPositive(lower);
    SignedPositive(upper - 1);
    SignedStep(upper - 1);
    ToX96Gap(Signed(upper - 1), Signed(upper));
    if lower < upper - 1 {
      StrictlyIncreasing(lower, upper - 1);
    }
  }

  lemma SignedPositive(tick: int)
    requires InRange(tick)
    ensures TWO32 <= Signed(tick)
  {
    hide Ratio;
    RatioPositive(Abs(tick));
    if tick > 0 {
      QuotientAtLeast(Ratio(tick));
    }
  }

  lemma ToX96Gap(low: nat, high: nat)
    requires TWO32 <= low && low + TWO32 <= high
    ensures 0 < ToX96(low) < ToX96(high)
  {
  }

  // The price recorded beside the function for tick -17652, and the unit price.
  lemma RecordedPrices()
    ensures SqrtPrice(-17652) == 32778602836627082880087502758
    ensures SqrtPrice(0) == Q96
  {
    hide Walk;
    ZeroTick();
    WalkStep(Q128, 17652, 0);
    WalkStep(Q128, 8826, 1);
    WalkStep(Q128, 4413, 2);
    WalkStep(0xfff2e50f5f656932ef12357cf3c7fdcc, 2206, 3);
    WalkStep(0xfff2e50f5f656932ef12357cf3c7fdcc, 1103, 4);
    WalkStep(0xffbe8001fdce28e9693a528072063403, 551, 5);
    WalkStep(0xff55d6124e34a7c88f6a90082dedc963, 275, 6);
    WalkStep(0xfe8502a1d2deba8e9fadb447af58e55e, 137, 7);
    WalkStep(0xfce55b929084e6e27dcf540ad5c4a7e9, 68, 8);
    WalkStep(0xfce55b929084e6e27dcf540ad5c4a7e9, 34, 9);
    WalkStep(0xfce55b929084e6e27dcf540ad5c4a7e9, 17, 10);
    WalkStep(0xf0462f8012a80dbeac7bbe1ce3d448fe, 8, 11);
    WalkStep(0xf0462f8012a80dbeac7bbe1ce3d448fe, 4, 12);
    WalkStep(0xf0462f8012a80dbeac7bbe1ce3d448fe, 2, 13);
    WalkStep(0xf0462f8012a80dbeac7bbe1ce3d448fe, 1, 14);
    WalkZero(0x69e9d3245355f05309282fa53772eb5b, 15);
  }

  // -------------------------------------------------------------------------
  // The loop.

  // The bits of abs below k have been multiplied into ratio.
  predicate OnTrack(ratio: nat, abs: nat, k: nat) {
    Walk(ratio, Shift(abs, k), k) == Ratio(abs)
  }

  method TickSqrtPriceX96(tick: Int32) returns (price: Option<nat>)
    ensures price == if InRange(tick) then Some(SqrtPrice(tick)) else None
  {
    hide Magic, Scale, Walk, Ratio, Shift, OnTrack, Signed, ToX96;
    var abs := Abs(tick);
    if abs > MAX_TICK {
      return None;
    }
    var ratio: nat := Q128;
    if abs % 2 != 0 {
      ratio := ODD_MAGIC;
    }
    FirstBit(abs);
    for i := 0 to |LADDER|
      invariant OnTrack(ratio, abs, i + 1)
    {
      NextBit(ratio, abs, i);
      if Shift(abs, i + 1) % 2 != 0 {
        ratio := ratio * LADDER[i];
        ratio := ratio / Q128;
      }
    }
    LastBit(ratio, abs);
    SignedIs(tick);
    if tick > 0 {
      ratio := Q256 / ratio;
    }
    ToX96Is(ratio);
    var rem := ratio % TWO32;
    ratio := ratio / TWO32;
    if rem != 0 {
      ratio := ratio + 1;
    }
    price := Some(ratio);
  }

  lemma FirstBit(abs: nat)
    ensures OnTrack(if abs % 2 != 0 then ODD_MAGIC else Q128, abs, 1)
  {
    hide Walk;
    WalkStep(Q128, abs, 0);
    assert Shift(abs, 0) == abs;
  }

  lemma NextBit(ratio: nat, abs: nat, i: nat)
    requires i < |LADDER| && OnTrack(ratio, abs, i + 1)
    ensures OnTrack(if Shift(abs, i + 1) % 2 != 0 then ratio * LADDER[i] / Q128 else ratio, abs, i + 2)
  {
    hide Walk, Scale;
    LadderIsMagic(i, ratio);
    WalkStep(ratio, Shift(abs, i + 1), i + 1);
  }

  lemma LastBit(ratio: nat, abs: nat)
    requires OnTrack(ratio, abs, BITS)
    ensures ratio == Ratio(abs) && 0 < Ratio(abs)
  {
    RatioPositive(abs);
  }

  lemma SignedIs(tick: int)
    requires InRange(tick)
    ensures 0 < Ratio(Abs(tick))
    ensures Signed(tick) == if tick > 0 then Q256 / Ratio(tick) else Ratio(-tick)
  {
    RatioPositive(Abs(tick));
  }

  lemma ToX96Is(ratio: nat)
    ensures ToX96(ratio) == ratio / TWO32 + if ratio % TWO32 != 0 then 1 else 0
  {
  }

  lemma LadderIsMagic(i: nat, ratio: nat)
    requires i < |LADDER|
    ensures i + 1 < BITS && Scale(ratio, Magic(i + 1)) == ratio * LADDER[i] / Q128
  {
  }
}
