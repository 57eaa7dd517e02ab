/**
 * Health factor, borrow limit and shortfall of an account (blend/math.go).
 *
 * Effective collateral and liability are kept on a grid of 10^-18, and here are
 * counted in units of it.  Health and borrow limit are rounded twice: to 48 digits
 * by the division, then to 18 digits, down for health and up for the limit.
 */
module Health {
  import opened Division
  import opened FixedPoint
  import opened Options

  // One on the 18-digit grid, and the grid's unit in units of 10^-48.
  const ONE: nat := 1_000_000_000_000_000_000
  const CUT: nat := 1_000_000_000_000_000_000_000_000_000_000

  // One pool's figures for an address.  The two flags say whether any collateral or
  // liability row was counted, whatever it was worth.
  datatype Account = Account(
    collateral: nat, liability: nat, borrowed: nat, lFactorZero: bool,
    hasCollateral: bool, hasLiability: bool)

  datatype Risk = Risk(health: Option<int>, limit: Option<int>, cap: Option<int>, shortfall: int)

  function AtLeastZero(n: int): (r: int) {
    if n > 0 then n else 0
  }

  // A rounded quotient cut to 18 digits, toward zero.
  function Truncated(n: nat, d: nat): int
    requires 0 < d
  {
    Quotient(n, d) / CUT
  }

  // A rounded quotient rounded up to 18 digits.
  function RoundedUp(n: nat, d: nat): int
    requires 0 < d
  {
    -(-Quotient(n, d) / CUT)
  }

  // The liability shortfalls are measured against when a liability factor is zero.
  function ZeroFactorLiability(account: Account): nat {
    if account.borrowed == 0 then ONE * ONE else account.borrowed
  }

  function Assess(account: Account): Risk {
    var c, l := account.collateral, account.liability;
    if account.lFactorZero then
      Risk(Some(0), Some(ONE), Some(0), AtLeastZero(ZeroFactorLiability(account) - c))
    else
      var health := if l == 0 then None else Some(Truncated(c, l));
      if c == 0 then Risk(health, None, None, 0)
      else Risk(health, Some(RoundedUp(l, c)), Some(AtLeastZero(c - l)), AtLeastZero(l - c))
  }

  // -------------------------------------------------------------------------
  // One pool.

  // A rounded quotient against one: rounding can lift it to one, never above.
  lemma QuotientAgainstOne(n: nat, d: nat)
    requires 0 < d
    ensures Quotient(n, d) >= SCALE <==> n >= d || 2 * (SCALE * (d - n)) <= d
    ensures n >= d ==> (Quotient(n, d) <= SCALE <==> 2 * (SCALE * (n - d)) < d)
    ensures n <= d ==> Quotient(n, d) <= SCALE
  {
    hide Quotient, RoundHalfUp;
    QuotientOfNats(n, d);
    RoundedParts(n, d, SCALE, n / d, n % d);
    if n < d {
      DivisionIs(n, d, 0, n);
    } else {
      QuotientHolds(n, d, 1);
      if n < 2 * d {
        DivisionIs(n, d, 1, n - d);
      } else {
        QuotientHolds(n, d, 2);
        Times(2 * SCALE, d, n - d);
      }
    }
  }

  lemma CutAgainstOne(q: int)
    requires 0 <= q
    ensures q / CUT >= ONE <==> q >= SCALE
    ensures -(-q / CUT) <= ONE <==> q <= SCALE
  {
  }

  lemma QuotientNotNegative(n: nat, d: nat)
    requires 0 < d
    ensures 0 <= Quotient(n, d)
  {
  }

  // Health reaches one just when collateral covers liability, or misses it by no more
  // than half a unit in the 48th digit.
  lemma HealthAgainstOne(c: nat, l: nat)
    requires 0 < l
    ensures Truncated(c, l) >= ONE <==> c >= l || 2 * (SCALE * (l - c)) <= l
  {
    hide Quotient;
    QuotientNotNegative(c, l);
    QuotientAgainstOne(c, l);
    CutAgainstOne(Quotient(c, l));
  }

  lemma LimitAgainstOne(c: nat, l: nat)
    requires 0 < c
    ensures RoundedUp(l, c) <= ONE <==> l <= c || 2 * (SCALE * (l - c)) < c
  {
    hide Quotient;
    QuotientNotNegative(l, c);
    QuotientAgainstOne(l, c);
    CutAgainstOne(Quotient(l, c));
  }

  // A rounded quotient in units of 10^-18: exact just when more than half a unit of the
  // 48th digit is missing to the next one, and below 2 * 10^30 always.
  lemma TruncatedExactly(n: nat, d: nat)
    requires 0 < d
    ensures var m := n * 1_000_000_000_000_000_000;
      Truncated(n, d) == m / d + if 2 * (CUT * (d - m % d)) <= d then 1 else 0
    ensures d < 2 * CUT ==> Truncated(n, d) == n * 1_000_000_000_000_000_000 / d
  {
    hide Quotient, RoundHalfUp;
    var m := n * ONE;
    assert m * CUT == n * SCALE;
    RoundedParts(m, d, CUT, m / d, m % d);
    QuotientOfNats(n, d);
    BetweenCuts(Quotient(n, d), m / d);
    Times(2 * CUT, 1, d - m % d);
  }

  // The limit rounds up: one unit less than the ceiling just when the remainder is below
  // half a unit of the 48th digit.
  lemma RoundedUpExactly(n: nat, d: nat)
    requires 0 < d
    ensures var m := n * 1_000_000_000_000_000_000;
      RoundedUp(n, d) == m / d + if 2 * (CUT * (m % d)) < d then 0 else 1
    ensures var m := n * 1_000_000_000_000_000_000;
      d <= 2 * CUT ==> RoundedUp(n, d) == m / d + if m % d == 0 then 0 else 1
  {
    hide Quotient, RoundHalfUp;
    var m := n * ONE;
    assert m * CUT == n * SCALE;
    RoundedParts(m, d, CUT, m / d, m % d);
    QuotientOfNats(n, d);
    BetweenCuts(Quotient(n, d), m / d);
    if m % d > 0 {
      Times(2 * CUT, 1, m % d);
    }
  }

  lemma BetweenCuts(q: int, whole: nat)
    requires whole * CUT <= q <= (whole + 1) * CUT
    ensures q / CUT == whole + if q == (whole + 1) * CUT then 1 else 0
    ensures -(-q / CUT) == whole + if q == whole * CUT then 0 else 1
  {
  }

  // The four figures of a pool.  A liability whose factor is zero makes the pool as
  // unhealthy as can be, short by what was borrowed, or by 10^18 when nothing priced was.
  lemma FiguresExactly(account: Account)
    ensures var c, l, one, risk := account.collateral, account.liability, 1_000_000_000_000_000_000, Assess(account);
      if account.lFactorZero then
        var owed := if account.borrowed == 0 then one * one else account.borrowed;
        risk == Risk(Some(0), Some(one), Some(0), if owed > c then owed - c else 0)
      else
        && (risk.health.Some? <==> l > 0)
        && (0 < l < 2 * CUT ==> risk.health == Some(c * one / l))
        && (risk.limit.Some? <==> c > 0) && (risk.cap.Some? <==> c > 0)
        && (0 < c <= 2 * CUT ==> risk.limit == Some((l * one) / c + if (l * one) % c == 0 then 0 else 1))
        && (c > 0 ==> risk.cap == Some(if c > l then c - l else 0))
        && risk.shortfall == if c > 0 && l > c then l - c else 0
  {
    hide Truncated, RoundedUp;
    if account.liability > 0 {
      TruncatedExactly(account.collateral, account.liability);
    }
    if account.collateral > 0 {
      RoundedUpExactly(account.liability, account.collateral);
    }
  }

  // Below 2 * 10^30 on the grid the four figures say one thing: whether collateral
  // covers liability.
  lemma FiguresAgree(account: Account)
    requires !account.lFactorZero
    requires 0 < account.collateral < 2 * SCALE && 0 < account.liability < 2 * SCALE
    ensures var risk, covered := Assess(account), account.collateral >= account.liability;
      && risk.health.Some? && risk.limit.Some? && risk.cap.Some?
      && (risk.health.value >= ONE <==> covered)
      && (risk.limit.value <= ONE <==> covered)
      && (risk.shortfall == 0 <==> covered)
      && account.collateral + risk.shortfall == account.liability + risk.cap.value
  {
    hide Truncated, RoundedUp;
    var c, l := account.collateral, account.liability;
    HealthAgainstOne(c, l);
    LimitAgainstOne(c, l);
  }

  ghost predicate HealthIsExact(l: nat)
    requires 0 < l
  {
    forall c: nat :: Truncated(c, l) >= ONE <==> c >= l
  }

  ghost predicate LimitIsExact(c: nat)
    requires 0 < c
  {
    forall l: nat :: RoundedUp(l, c) <= ONE <==> c >= l
  }

  // The bounds are sharp.
  lemma ExactBelowTwiceTheScale(d: nat)
    requires 0 < d
    ensures HealthIsExact(d) <==> d < 2 * SCALE
    ensures LimitIsExact(d) <==> d <= 2 * SCALE
  {
    hide Truncated, RoundedUp;
    forall n: nat
      ensures Truncated(n, d) >= ONE <==> n >= d || 2 * (SCALE * (d - n)) <= d
      ensures RoundedUp(n, d) <= ONE <==> n <= d || 2 * (SCALE * (n - d)) < d
    {
      HealthAgainstOne(n, d);
      LimitAgainstOne(d, n);
    }
    if 2 * SCALE <= d {
      var below: nat := d - 1;
      assert Truncated(below, d) >= ONE;
    }
    if 2 * SCALE < d {
      var above: nat := d + 1;
      assert RoundedUp(above, d) <= ONE;
    }
  }

  // With no collateral at all the reported shortfall is zero whatever the liability:
  // it is the true shortfall in every case but that one.
  lemma ShortfallExactWhen(account: Account)
    requires !account.lFactorZero
    ensures Assess(account).shortfall == AtLeastZero(account.liability - account.collateral)
       <==> account.collateral != 0 || account.liability == 0
  {
    hide Truncated, RoundedUp;
  }

  lemma NoCollateralHidesShortfall()
    ensures Assess(Account(0, ONE, ONE, false, false, true)).shortfall == 0
    ensures Assess(Account(0, ONE, ONE, false, false, true)).health == Some(0)
  {
    ZeroQuotient(ONE);
  }

  // -------------------------------------------------------------------------
  // All pools of an address.

  // The least health of the pools that have one.
  predicate IsLowest(health: Option<int>, accounts: seq<Account>) {
    && (health.Some? ==> exists i :: 0 <= i < |accounts| && Assess(accounts[i]).health == health)
    && (forall i :: 0 <= i < |accounts| && Assess(accounts[i]).health.Some? ==>
          health.Some? && health.value <= Assess(accounts[i]).health.value)
  }

  // The greatest borrow limit of the pools that have one.
  predicate IsHighest(limit: Option<int>, accounts: seq<Account>) {
    && (limit.Some? ==> exists i :: 0 <= i < |accounts| && Assess(accounts[i]).limit == limit)
    && (forall i :: 0 <= i < |accounts| && Assess(accounts[i]).limit.Some? ==>
          limit.Some? && limit.value >= Assess(accounts[i]).limit.value)
  }

  // The borrow caps of the pools that have one, added up.
  function TotalCap(accounts: seq<Account>): Option<int> {
    if accounts == [] then None
    else
      var rest, cap := TotalCap(accounts[..|accounts| - 1]), Assess(accounts[|accounts| - 1]).cap;
      if cap.None? then rest else Some((if rest.Some? then rest.value else 0) + cap.value)
  }

  predicate AnyLiability(accounts: seq<Account>) {
    exists i :: 0 <= i < |accounts| && accounts[i].hasLiability
  }

  predicate AnyCollateral(accounts: seq<Account>) {
    exists i :: 0 <= i < |accounts| && accounts[i].hasCollateral
  }

  lemma NoPools()
    ensures IsLowest(None, []) && IsHighest(None, []) && !AnyLiability([]) && !AnyCollateral([])
  {
  }

  function Lower(a: Option<int>, b: Option<int>): Option<int> {
    if b.Some? && (a.None? || b.value < a.value) then b else a
  }

  function Higher(a: Option<int>, b: Option<int>): Option<int> {
    if b.Some? && (a.None? || b.value > a.value) then b else a
  }

  lemma NextPool(accounts: seq<Account>, i: nat, health: Option<int>, limit: Option<int>)
    requires i < |accounts|
    requires IsLowest(health, accounts[..i]) && IsHighest(limit, accounts[..i])
    ensures IsLowest(Lower(health, Assess(accounts[i]).health), accounts[..i + 1])
    ensures IsHighest(Higher(limit, Assess(accounts[i]).limit), accounts[..i + 1])
    ensures AnyLiability(accounts[..i + 1]) <==> AnyLiability(accounts[..i]) || accounts[i].hasLiability
    ensures AnyCollateral(accounts[..i + 1]) <==> AnyCollateral(accounts[..i]) || accounts[i].hasCollateral
    ensures accounts[..i + 1][..i] == accounts[..i]
  {
    hide Assess;
    var before, now := accounts[..i], accounts[..i + 1];
    assert now == before + [accounts[i]];
    forall j | 0 <= j < i ensures now[j] == before[j] {
    }
    NextLowest(before, accounts[i], health);
    NextHighest(before, accounts[i], limit);
  }

  lemma NextLowest(before: seq<Account>, account: Account, health: Option<int>)
    requires IsLowest(health, before)
    ensures IsLowest(Lower(health, Assess(account).health), before + [account])
  {
    hide Assess;
    var now, least := before + [account], Lower(health, Assess(account).health);
    assert now[|before|] == account;
    if least.Some? && least == health {
      var i :| 0 <= i < |before| && Assess(before[i]).health == health;
      assert now[i] == before[i];
    }
  }

  lemma NextHighest(before: seq<Account>, account: Account, limit: Option<int>)
    requires IsHighest(limit, before)
    ensures IsHighest(Higher(limit, Assess(account).limit), before + [account])
  {
    hide Assess;
    var now, most := before + [account], Higher(limit, Assess(account).limit);
    assert now[|before|] == account;
    if most.Some? && most == limit {
      var i :| 0 <= i < |before| && Assess(before[i]).limit == limit;
      assert now[i] == before[i];
    }
  }

  // The source goes through the pools in the order of their contract ids.
  method Summarize(accounts: seq<Account>) returns (health: Option<int>, limit: Option<int>, cap: Option<int>)
    ensures if AnyLiability(accounts) then IsLowest(health, accounts) else health.None?
    ensures if AnyCollateral(accounts) then IsHighest(limit, accounts) && cap == TotalCap(accounts)
            else limit.None? && cap.None?
  {
    hide Assess, IsLowest, IsHighest, AnyLiability, AnyCollateral;
    health, limit, cap := None, None, None;
    NoPools();
    assert accounts[..0] == [];
    var collateralSeen, liabilitySeen := false, false;
    for i := 0 to |accounts|
      invariant collateralSeen == AnyCollateral(accounts[..i])
      invariant liabilitySeen == AnyLiability(accounts[..i])
      invariant IsLowest(health, accounts[..i])
      invariant IsHighest(limit, accounts[..i])
      invariant cap == TotalCap(accounts[..i])
    {
      var account, risk := accounts[i], Assess(accounts[i]);
      NextPool(accounts, i, health, limit);
      collateralSeen := collateralSeen || account.hasCollateral;
      liabilitySeen := liabilitySeen || account.hasLiability;
      if risk.health.Some? && (health.None? || risk.health.value < health.value) {
        health := risk.health;
      }
      if risk.limit.Some? && (limit.None? || risk.limit.value > limit.value) {
        limit := risk.limit;
      }
      if risk.cap.Some? {
        cap := Some((if cap.Some? then cap.value else 0) + risk.cap.value);
      }
    }
    assert accounts[..|accounts|] == accounts;
    if !liabilitySeen {
      health := None;
    }
    if !collateralSeen {
      limit, cap := None, None;
    }
  }

  predicate OnGrid(accounts: seq<Account>) {
    forall a <- accounts :: a.collateral < 2 * SCALE && a.liability < 2 * SCALE
  }

  // No pool owes more than its collateral, and none has a liability whose factor is zero.
  predicate Covered(accounts: seq<Account>) {
    forall a <- accounts :: !a.lFactorZero && (a.liability != 0 ==> a.collateral >= a.liability)
  }

  // The account's health is at least one just when every pool is covered by itself:
  // collateral in one pool never makes up for another.
  lemma HealthIsPoolIsolated(health: Option<int>, accounts: seq<Account>)
    requires OnGrid(accounts) && IsLowest(health, accounts)
    ensures (health.Some? ==> health.value >= ONE) <==> Covered(accounts)
  {
    hide Assess;
    forall i | 0 <= i < |accounts|
      ensures accounts[i] in accounts
      ensures var risk := Assess(accounts[i]);
        (risk.health.Some? ==> risk.health.value >= ONE) <==>
        !accounts[i].lFactorZero && (accounts[i].liability != 0 ==> accounts[i].collateral >= accounts[i].liability)
    {
      PoolHealth(accounts[i]);
    }
  }

  lemma PoolHealth(account: Account)
    requires account.collateral < 2 * SCALE && account.liability < 2 * SCALE
    ensures var risk := Assess(account);
      (risk.health.Some? ==> risk.health.value >= ONE) <==>
      !account.lFactorZero && (account.liability != 0 ==> account.collateral >= account.liability)
  {
    hide Truncated;
    if account.liability != 0 {
      HealthAgainstOne(account.collateral, account.liability);
    }
  }
}
