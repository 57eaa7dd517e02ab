/**
 * Pending rewards and pro-rata amounts of pool positions (aquarius/math.go).
 *
 * Every field is decimal text that may be missing or may not parse.  A position
 * without a complete checkpoint keeps the claim it was checkpointed with.
 */
module Rewards {
  import opened Division
  import opened Options

  datatype Raw = Missing | Malformed | Number(n: nat)

  datatype RewardPool = RewardPool(tps: Raw, accumulated: Raw, lastTime: Raw, workingSupply: Raw, expiredAt: Raw)

  datatype Holder = Holder(pending: Raw, workingBalance: Raw, shares: Raw, poolAccumulated: Raw)

  function ToClaim(holder: Holder): Raw {
    if holder.pending.Missing? then Number(0) else holder.pending
  }

  function WeightRaw(holder: Holder): Raw {
    if holder.workingBalance.Missing? then holder.shares else holder.workingBalance
  }

  // Every checkpoint input is there and the working supply is no zero denominator.
  predicate Checkpointed(pool: RewardPool, holder: Holder) {
    && WeightRaw(holder).Number?
    && holder.poolAccumulated.Number?
    && pool.tps.Number?
    && pool.accumulated.Number?
    && pool.lastTime.Number?
    && pool.workingSupply.Number?
    && pool.workingSupply.n > 0
  }

  // The time rewards are counted to: nothing accrues after the expiry.
  function Until(pool: RewardPool, closeTime: int): int {
    if pool.expiredAt.Number? && closeTime > pool.expiredAt.n then pool.expiredAt.n else closeTime
  }

  function Accumulated(pool: RewardPool, closeTime: int): nat
    requires pool.tps.Number? && pool.accumulated.Number? && pool.lastTime.Number?
  {
    var dt := Until(pool, closeTime) - pool.lastTime.n;
    if dt > 0 then pool.accumulated.n + pool.tps.n * dt else pool.accumulated.n
  }

  // What the pool has accumulated since the holder's checkpoint.
  function Growth(pool: RewardPool, holder: Holder, closeTime: int): nat
    requires Checkpointed(pool, holder)
  {
    var total := Accumulated(pool, closeTime);
    if total > holder.poolAccumulated.n then total - holder.poolAccumulated.n else 0
  }

  // The accrual on top of the claim.
  function Accrual(pool: RewardPool, holder: Holder, closeTime: int): nat {
    if Checkpointed(pool, holder)
    then Portion(WeightRaw(holder).n, Growth(pool, holder, closeTime), pool.workingSupply.n)
    else 0
  }

  function Pending(pool: RewardPool, holder: Holder, closeTime: int): Raw {
    var claim := ToClaim(holder);
    if claim.Number? then Number(claim.n + Accrual(pool, holder, closeTime)) else claim
  }

  lemma NothingAccrues(pool: RewardPool, holder: Holder, closeTime: int)
    requires !Checkpointed(pool, holder) || WeightRaw(holder) == Number(0)
    ensures Pending(pool, holder, closeTime) == ToClaim(holder)
  {
  }

  lemma Accrues(pool: RewardPool, holder: Holder, closeTime: int, growth: int)
    requires Checkpointed(pool, holder)
    requires growth == Accumulated(pool, closeTime) - holder.poolAccumulated.n
    ensures growth <= 0 ==> Pending(pool, holder, closeTime) == ToClaim(holder)
    ensures growth > 0 && ToClaim(holder).Number? ==>
      var share := WeightRaw(holder).n * growth / pool.workingSupply.n;
      0 <= share && Pending(pool, holder, closeTime) == Number(ToClaim(holder).n + share)
  {
    if growth > 0 {
      Times(WeightRaw(holder).n, 0, growth);
    }
  }

  // With every input there: rewards accrue at tps a second from the last update to the
  // close time or the expiry, whichever is earlier, and the holder is owed the
  // truncated share of what accrued since the checkpoint on top of the claim.  A
  // missing claim is zero, a missing working balance is the shares.
  lemma OwedExactly(pool: RewardPool, holder: Holder, closeTime: int)
    requires pool.tps.Number? && pool.accumulated.Number? && pool.lastTime.Number?
    requires pool.workingSupply.Number? && pool.workingSupply.n > 0 && holder.poolAccumulated.Number?
    requires !holder.pending.Malformed?
    requires holder.workingBalance.Number? || (holder.workingBalance.Missing? && holder.shares.Number?)
    ensures var claim := if holder.pending.Number? then holder.pending.n else 0;
            var weight := if holder.workingBalance.Number? then holder.workingBalance.n else holder.shares.n;
            var until := if pool.expiredAt.Number? && pool.expiredAt.n < closeTime then pool.expiredAt.n else closeTime;
            var seconds := if until > pool.lastTime.n then until - pool.lastTime.n else 0;
            var growth := pool.accumulated.n + pool.tps.n * seconds - holder.poolAccumulated.n;
            && (growth <= 0 ==> Pending(pool, holder, closeTime) == Number(claim))
            && (growth > 0 ==>
                  && 0 <= weight * growth / pool.workingSupply.n
                  && Pending(pool, holder, closeTime) == Number(claim + weight * growth / pool.workingSupply.n))
  {
    Accrues(pool, holder, closeTime, Accumulated(pool, closeTime) - holder.poolAccumulated.n);
  }

  // A holder with the whole working supply, checkpointed at the pool's last update, is
  // owed everything the pool has accrued since.
  lemma SoleHolderEarnsAll(claim: nat, tps: nat, stored: nat, lastTime: nat, supply: nat, expiry: nat, closeTime: int)
    requires 0 < supply && lastTime <= closeTime && lastTime <= expiry
    ensures var until := if closeTime < expiry then closeTime else expiry;
            var pool := RewardPool(Number(tps), Number(stored), Number(lastTime), Number(supply), Number(expiry));
            && 0 <= tps * (until - lastTime)
            && Pending(pool, Holder(Number(claim), Number(supply), Missing, Number(stored)), closeTime)
               == Number(claim + tps * (until - lastTime))
  {
    var until := if closeTime < expiry then closeTime else expiry;
    var pool := RewardPool(Number(tps), Number(stored), Number(lastTime), Number(supply), Number(expiry));
    var holder := Holder(Number(claim), Number(supply), Missing, Number(stored));
    Times(tps, 0, until - lastTime);
    OwedExactly(pool, holder, closeTime);
    hide Pending;
    if tps * (until - lastTime) > 0 {
      PortionOfWhole(tps * (until - lastTime), supply);
    }
  }

  // An input that is missing or does not parse, or a zero working supply, leaves the
  // claim as it was checkpointed.
  lemma IncompleteKeepsClaim(pool: RewardPool, holder: Holder, closeTime: int)
    requires
      || !pool.tps.Number? || !pool.accumulated.Number? || !pool.lastTime.Number?
      || !pool.workingSupply.Number? || pool.workingSupply.n == 0 || !holder.poolAccumulated.Number?
      || holder.workingBalance.Malformed? || (holder.workingBalance.Missing? && !holder.shares.Number?)
      || holder.pending.Malformed?
    ensures Pending(pool, holder, closeTime) == if holder.pending.Missing? then Number(0) else holder.pending
  {
  }

  method PendingReward(pool: RewardPool, holder: Holder, closeTime: int) returns (owed: Raw)
    ensures owed == Pending(pool, holder, closeTime)
  {
    hide Accrual, Growth;
    var toClaim := holder.pending;
    if toClaim == Missing {
      toClaim := Number(0);
    }
    var wbRaw := holder.workingBalance;
    if wbRaw == Missing {
      wbRaw := holder.shares;
    }
    if wbRaw == Missing || wbRaw == Number(0) || holder.poolAccumulated == Missing {
      NothingAccrues(pool, holder, closeTime);
      return toClaim;
    }
    if pool.tps == Missing || pool.accumulated == Missing || pool.lastTime == Missing
       || pool.workingSupply == Missing || pool.workingSupply == Number(0) {
      NothingAccrues(pool, holder, closeTime);
      return toClaim;
    }
    if wbRaw.Malformed? || pool.tps.Malformed? || pool.accumulated.Malformed?
       || holder.poolAccumulated.Malformed? || pool.workingSupply.Malformed? || pool.lastTime.Malformed? {
      NothingAccrues(pool, holder, closeTime);
      return toClaim;
    }
    var accStored: int := pool.accumulated.n;
    var now := closeTime;
    if pool.expiredAt != Missing {
      if pool.expiredAt.Number? && now > pool.expiredAt.n {
        now := pool.expiredAt.n;
      }
    }
    var dt := now - pool.lastTime.n;
    if dt > 0 {
      accStored := accStored + pool.tps.n * dt;
    }
    var deltaAcc := accStored - holder.poolAccumulated.n;
    Accrues(pool, holder, closeTime, deltaAcc);
    if deltaAcc <= 0 {
      return toClaim;
    }
    if toClaim.Malformed? {
      return toClaim;
    }
    owed := Number(toClaim.n + wbRaw.n * deltaAcc / pool.workingSupply.n);
  }

  lemma AccumulatedGrows(pool: RewardPool, early: int, late: int)
    requires pool.tps.Number? && pool.accumulated.Number? && pool.lastTime.Number?
    requires early <= late
    ensures Accumulated(pool, early) <= Accumulated(pool, late)
  {
    var before, after := Until(pool, early) - pool.lastTime.n, Until(pool, late) - pool.lastTime.n;
    if 0 < before {
      Times(pool.tps.n, before, after);
    }
  }

  lemma PortionGrows(share: nat, amount: nat, amount': nat, total: nat)
    requires 0 < total && amount <= amount'
    ensures Portion(share, amount, total) <= Portion(share, amount', total)
  {
    Times(share, amount, amount');
    QuotientMonotone(share * amount, share * amount', total);
  }

  // What is owed never falls below the checkpointed claim and never falls with time.
  lemma PendingGrows(pool: RewardPool, holder: Holder, early: int, late: int)
    requires early <= late
    ensures var claim, before, after :=
        ToClaim(holder), Pending(pool, holder, early), Pending(pool, holder, late);
      if claim.Number? then before.Number? && after.Number? && claim.n <= before.n <= after.n
      else before == after == claim
  {
    if Checkpointed(pool, holder) {
      AccumulatedGrows(pool, early, late);
      PortionGrows(WeightRaw(holder).n, Growth(pool, holder, early), Growth(pool, holder, late), pool.workingSupply.n);
    }
  }

  // Nothing accrues after the expiry.
  lemma PendingStopsAtExpiry(pool: RewardPool, holder: Holder, closeTime: int)
    requires pool.expiredAt.Number? && pool.expiredAt.n <= closeTime
    ensures Pending(pool, holder, closeTime) == Pending(pool, holder, pool.expiredAt.n)
  {
    assert Until(pool, closeTime) == Until(pool, pool.expiredAt.n);
  }

  function Weights(holders: seq<Holder>): (w: seq<nat>)
    requires forall h <- holders :: WeightRaw(h).Number?
    ensures |w| == |holders|
  {
    if holders == [] then [] else [WeightRaw(holders[0]).n] + Weights(holders[1..])
  }

  function Accruals(pool: RewardPool, holders: seq<Holder>, closeTime: int): (a: seq<nat>)
    ensures |a| == |holders|
  {
    if holders == [] then [] else [Accrual(pool, holders[0], closeTime)] + Accruals(pool, holders[1..], closeTime)
  }

  // The holders are checkpointed at the same accumulated total.
  predicate SharedCheckpoint(pool: RewardPool, holders: seq<Holder>, since: nat) {
    forall h <- holders :: Checkpointed(pool, h) && h.poolAccumulated == Number(since)
  }

  lemma {:induction false} AccrualsArePortions(pool: RewardPool, holders: seq<Holder>, since: nat, growth: nat,
                                               closeTime: int)
    requires SharedCheckpoint(pool, holders, since)
    requires forall h <- holders :: Growth(pool, h, closeTime) == growth
    requires pool.workingSupply.Number? && pool.workingSupply.n > 0
    ensures Accruals(pool, holders, closeTime) == Portions(Weights(holders), growth, pool.workingSupply.n)
  {
    if holders != [] {
      AccrualsArePortions(pool, holders[1..], since, growth, closeTime);
      assert Weights(holders)[1..] == Weights(holders[1..]);
    }
  }

  // Holders who share a checkpoint, with weights summing to at most the working
  // supply, together accrue at most what the pool accumulated since.
  lemma AccrualsConserve(pool: RewardPool, holders: seq<Holder>, since: nat, closeTime: int)
    requires pool.tps.Number? && pool.accumulated.Number? && pool.lastTime.Number?
    requires pool.workingSupply.Number? && pool.workingSupply.n > 0
    requires SharedCheckpoint(pool, holders, since)
    requires Sum(Weights(holders)) <= pool.workingSupply.n
    ensures var total := Accumulated(pool, closeTime);
      Sum(Accruals(pool, holders, closeTime)) <= if total > since then total - since else 0
  {
    var total := Accumulated(pool, closeTime);
    var growth := if total > since then total - since else 0;
    AccrualsArePortions(pool, holders, since, growth, closeTime);
    PortionsConserve(Weights(holders), growth, pool.workingSupply.n);
  }

  // The checkpoint a holder's next interaction leaves behind.
  function Checkpoint(pool: RewardPool, holder: Holder, at: int): Holder
    requires Checkpointed(pool, holder)
  {
    holder.(pending := Pending(pool, holder, at), poolAccumulated := Number(Accumulated(pool, at)))
  }

  // A checkpoint in between costs a holder at most one unit and never adds one.
  lemma CheckpointLosesAtMostOne(pool: RewardPool, holder: Holder, at: int, closeTime: int)
    requires Checkpointed(pool, holder) && ToClaim(holder).Number? && at <= closeTime
    requires holder.poolAccumulated.n <= Accumulated(pool, at)
    ensures var straight, split :=
        Pending(pool, holder, closeTime), Pending(pool, Checkpoint(pool, holder, at), closeTime);
      straight.Number? && split.Number? && split.n <= straight.n <= split.n + 1
  {
    AccumulatedGrows(pool, at, closeTime);
    var later := Checkpoint(pool, holder, at);
    var weight, supply := WeightRaw(holder).n, pool.workingSupply.n;
    var first, second := Growth(pool, holder, at), Growth(pool, later, closeTime);
    assert Growth(pool, holder, closeTime) == first + second;
    AmountsAdd(weight, first, second, supply);
  }

  // A share of a pool's reserve, or None when some text does not parse or there are
  // no shares at all.
  function ProRata(shares: Raw, reserve: Raw, total: Raw): Option<nat> {
    if !shares.Number? || !reserve.Number? || !total.Number? || total.n == 0 then None
    else Some(Portion(shares.n, reserve.n, total.n))
  }

  // A share is the truncated proportion, and there is none without all three numbers and some shares.
  lemma ProRataExactly(shares: Raw, reserve: Raw, total: Raw)
    ensures ProRata(shares, reserve, total).Some? <==> shares.Number? && reserve.Number? && total.Number? && total.n != 0
    ensures ProRata(shares, reserve, total).Some? ==>
      var r := ProRata(shares, reserve, total).value;
      r * total.n <= shares.n * reserve.n < r * total.n + total.n
  {
    if ProRata(shares, reserve, total).Some? {
      QuotientBounds(shares.n * reserve.n, total.n);
    }
  }

  function ProRataSum(shares: seq<nat>, reserve: Raw, total: Raw): Option<nat> {
    if shares == [] then Some(0)
    else
      var head, rest := ProRata(Number(shares[0]), reserve, total), ProRataSum(shares[1..], reserve, total);
      if head.None? || rest.None? then None else Some(head.value + rest.value)
  }

  lemma {:induction false} ProRataIsPortions(shares: seq<nat>, reserve: nat, total: nat)
    requires 0 < total
    ensures ProRataSum(shares, Number(reserve), Number(total)) == Some(Sum(Portions(shares, reserve, total)))
  {
    if shares != [] {
      ProRataIsPortions(shares[1..], reserve, total);
      assert Portions(shares, reserve, total)[1..] == Portions(shares[1..], reserve, total);
    }
  }

  // Positions whose shares sum to at most the total are given at most the reserve.
  lemma ProRataConserves(shares: seq<nat>, reserve: nat, total: nat)
    requires 0 < total && Sum(shares) <= total
    ensures ProRataSum(shares, Number(reserve), Number(total)).Some?
    ensures ProRataSum(shares, Number(reserve), Number(total)).value <= reserve
  {
    ProRataIsPortions(shares, reserve, total);
    PortionsConserve(shares, reserve, total);
  }
}
