/**
 * What backstop shares are worth (blend/math.go).
 *
 * Shares of a pool's backstop are turned into LP tokens, and LP tokens into amounts
 * of the two tokens of the liquidity pool, rounding down both times.  The pool's own
 * row goes through the second stage only.
 */
module BackstopShares {
  import opened Division
  import opened FixedPoint
  import opened Options

  datatype Backstop = Backstop(shares: nat, tokens: nat)

  datatype Holder = Holder(active: nat, queue: seq<nat>)

  // The liquidity pool behind the backstop, as far as it has been decoded.
  datatype LiquidityPool = LiquidityPool(supply: Option<nat>, blnd: Option<nat>, usdc: Option<nat>)

  datatype Components = Components(blnd: int, usdc: int)

  datatype HolderRow = HolderRow(active: int, queued: int, total: int, components: Option<Components>)

  function ConvertShares(shares: nat, backstop: Backstop): int {
    if backstop.shares == 0 then 0
    else if shares == backstop.shares then backstop.tokens
    else FixedMulFloor(shares, backstop.tokens, backstop.shares)
  }

  // Both token amounts, or nothing while an input is unknown or the supply is zero.
  function Split(tokens: int, lp: LiquidityPool): Option<Components> {
    if lp.supply.Some? && lp.supply.value != 0 && lp.blnd.Some? && lp.usdc.Some?
    then Some(Components(FixedMulFloor(tokens, lp.blnd.value, lp.supply.value),
                         FixedMulFloor(tokens, lp.usdc.value, lp.supply.value)))
    else None
  }

  function Shares(holder: Holder): nat {
    holder.active + Sum(holder.queue)
  }

  function Row(holder: Holder, backstop: Backstop, lp: LiquidityPool): HolderRow {
    var total := ConvertShares(Shares(holder), backstop);
    HolderRow(ConvertShares(holder.active, backstop), ConvertShares(Sum(holder.queue), backstop), total, Split(total, lp))
  }

  method ValueHolder(holder: Holder, backstop: Backstop, lp: LiquidityPool) returns (row: HolderRow)
    ensures row == Row(holder, backstop, lp)
  {
    hide FixedMulFloor;
    var queuedShares := 0;
    for i := 0 to |holder.queue|
      invariant queuedShares + Sum(holder.queue[i..]) == Sum(holder.queue)
    {
      assert holder.queue[i..][1..] == holder.queue[i + 1..];
      queuedShares := queuedShares + holder.queue[i];
    }
    assert holder.queue[|holder.queue|..] == [];
    var totalShares := holder.active + queuedShares;
    var activeTokens := ConvertShares(holder.active, backstop);
    var queuedTokens := ConvertShares(queuedShares, backstop);
    var totalTokens := ConvertShares(totalShares, backstop);
    row := HolderRow(activeTokens, queuedTokens, totalTokens, Split(totalTokens, lp));
  }

  // -------------------------------------------------------------------------

  // Denominators below 2 * 10^48, where division to 48 digits is exact.  Every
  // 128-bit ledger amount is.
  predicate Narrow(backstop: Backstop, lp: LiquidityPool) {
    && backstop.shares < 2 * SCALE
    && (lp.supply.Some? ==> lp.supply.value < 2 * SCALE)
  }

  function Tokens(shares: nat, backstop: Backstop): nat {
    if backstop.shares == 0 then 0 else Portion(shares, backstop.tokens, backstop.shares)
  }

  // The shortcut for a holder of all the shares changes nothing.
  lemma ConvertIsPortion(shares: nat, backstop: Backstop)
    requires backstop.shares < 2 * SCALE
    ensures ConvertShares(shares, backstop) == Tokens(shares, backstop)
  {
    hide FloorDiv;
    if backstop.shares != 0 {
      DivisionExact(shares * backstop.tokens, backstop.shares);
      PortionOfWhole(backstop.tokens, backstop.shares);
    }
  }

  lemma SplitIsPortion(tokens: nat, lp: LiquidityPool)
    requires lp.supply.Some? ==> lp.supply.value < 2 * SCALE
    ensures Split(tokens, lp).Some? ==>
      Split(tokens, lp).value == Components(Portion(tokens, lp.blnd.value, lp.supply.value),
                                            Portion(tokens, lp.usdc.value, lp.supply.value))
  {
    hide FloorDiv;
    if Split(tokens, lp).Some? {
      DivisionExact(tokens * lp.blnd.value, lp.supply.value);
      DivisionExact(tokens * lp.usdc.value, lp.supply.value);
    }
  }

  // Each figure of a holder's row is the truncated portion of its own shares, and the
  // components are truncated portions of the total.
  lemma RowExactly(active: nat, queue: seq<nat>, shares: nat, tokens: nat, supply: nat, blnd: nat, usdc: nat)
    requires 0 < shares < 2 * SCALE && 0 < supply < 2 * SCALE
    ensures var row := Row(Holder(active, queue), Backstop(shares, tokens),
                           LiquidityPool(Some(supply), Some(blnd), Some(usdc)));
      && row.active == active * tokens / shares
      && row.queued == Sum(queue) * tokens / shares
      && row.total == (active + Sum(queue)) * tokens / shares
      && row.components == Some(Components(row.total * blnd / supply, row.total * usdc / supply))
  {
    hide FixedMulFloor;
    var backstop := Backstop(shares, tokens);
    ConvertIsPortion(active, backstop);
    ConvertIsPortion(Sum(queue), backstop);
    ConvertIsPortion(active + Sum(queue), backstop);
    SplitIsPortion(Tokens(active + Sum(queue), backstop), LiquidityPool(Some(supply), Some(blnd), Some(usdc)));
  }

  // Without backstop shares nothing converts; without the liquidity pool's three amounts,
  // or with a zero supply, there are no components.
  lemma RowAbsent(holder: Holder, backstop: Backstop, lp: LiquidityPool)
    ensures var row := Row(holder, backstop, lp);
      && (backstop.shares == 0 ==> row.active == row.queued == row.total == 0)
      && (row.components.None? <==> lp.supply.None? || lp.supply.value == 0 || lp.blnd.None? || lp.usdc.None?)
  {
  }

  // Active and queued tokens add up to the total, or to one unit less.
  lemma ActivePlusQueued(holder: Holder, backstop: Backstop, lp: LiquidityPool)
    requires Narrow(backstop, lp)
    ensures var row := Row(holder, backstop, lp);
      0 <= row.active + row.queued <= row.total <= row.active + row.queued + 1
  {
    hide ConvertShares, Split;
    ConvertIsPortion(holder.active, backstop);
    ConvertIsPortion(Sum(holder.queue), backstop);
    ConvertIsPortion(Shares(holder), backstop);
    if backstop.shares != 0 {
      PortionAdds(holder.active, Sum(holder.queue), backstop.tokens, backstop.shares);
    }
  }

  function SharesOf(holders: seq<Holder>): (s: seq<nat>)
    ensures |s| == |holders|
  {
    if holders == [] then [] else [Shares(holders[0])] + SharesOf(holders[1..])
  }

  function TotalTokens(holders: seq<Holder>, backstop: Backstop): int {
    if holders == [] then 0
    else ConvertShares(Shares(holders[0]), backstop) + TotalTokens(holders[1..], backstop)
  }

  // The holders' component amounts added up.
  function TotalComponents(holders: seq<Holder>, backstop: Backstop, lp: LiquidityPool): Components {
    if holders == [] then Components(0, 0)
    else
      var row, rest := Row(holders[0], backstop, lp), TotalComponents(holders[1..], backstop, lp);
      if row.components.None? then rest
      else Components(row.components.value.blnd + rest.blnd, row.components.value.usdc + rest.usdc)
  }

  // The holders' tokens are at most what one holder of all their shares would have.
  lemma {:induction false} TokensBelow(holders: seq<Holder>, backstop: Backstop)
    requires backstop.shares < 2 * SCALE
    ensures 0 <= TotalTokens(holders, backstop) <= Tokens(Sum(SharesOf(holders)), backstop)
  {
    hide ConvertShares;
    if holders == [] {
      return;
    }
    var head, rest := Shares(holders[0]), SharesOf(holders[1..]);
    TokensBelow(holders[1..], backstop);
    ConvertIsPortion(head, backstop);
    assert SharesOf(holders)[1..] == rest;
    if backstop.shares != 0 {
      PortionAdds(head, Sum(rest), backstop.tokens, backstop.shares);
    }
  }

  // The components of the parts are at most the components of the tokens put together.
  lemma {:induction false} ComponentsBelow(holders: seq<Holder>, backstop: Backstop, lp: LiquidityPool)
    requires Narrow(backstop, lp) && Split(0, lp).Some?
    ensures 0 <= TotalTokens(holders, backstop)
    ensures var whole, parts := Split(TotalTokens(holders, backstop), lp), TotalComponents(holders, backstop, lp);
      whole.Some? && parts.blnd <= whole.value.blnd && parts.usdc <= whole.value.usdc
  {
    hide ConvertShares;
    TokensBelow(holders, backstop);
    SplitIsPortion(TotalTokens(holders, backstop), lp);
    if holders == [] {
      return;
    }
    TokensBelow(holders[1..], backstop);
    ComponentsBelow(holders[1..], backstop, lp);
    ConvertIsPortion(Shares(holders[0]), backstop);
    var head, rest := Tokens(Shares(holders[0]), backstop), TotalTokens(holders[1..], backstop);
    SplitIsPortion(head, lp);
    SplitIsPortion(rest, lp);
    PortionAdds(head, rest, lp.blnd.value, lp.supply.value);
    PortionAdds(head, rest, lp.usdc.value, lp.supply.value);
  }

  // The amounts on the pool's own row: the same split of all its tokens, left out
  // while a price is missing.
  function PoolRow(backstop: Backstop, lp: LiquidityPool, pricesKnown: bool): Option<Components> {
    if pricesKnown then Split(backstop.tokens, lp) else None
  }

  // Conservation over both stages: holders whose shares sum to at most the pool's
  // have, together, at most the tokens and the token amounts of the pool's row.
  lemma HoldersNeverExceedPool(holders: seq<Holder>, backstop: Backstop, lp: LiquidityPool)
    requires Narrow(backstop, lp)
    requires Sum(SharesOf(holders)) <= backstop.shares
    ensures TotalTokens(holders, backstop) <= backstop.tokens
    ensures var parts, row := TotalComponents(holders, backstop, lp), PoolRow(backstop, lp, true);
      row.Some? ==> parts.blnd <= row.value.blnd && parts.usdc <= row.value.usdc
  {
    hide ConvertShares;
    TokensBelow(holders, backstop);
    if backstop.shares != 0 {
      PortionMonotone(Sum(SharesOf(holders)), backstop.shares, backstop.tokens, backstop.shares);
      PortionOfWhole(backstop.tokens, backstop.shares);
    }
    if PoolRow(backstop, lp, true).Some? {
      ComponentsBelow(holders, backstop, lp);
      var together := TotalTokens(holders, backstop);
      SplitIsPortion(together, lp);
      SplitIsPortion(backstop.tokens, lp);
      PortionMonotone(together, backstop.tokens, lp.blnd.value, lp.supply.value);
      PortionMonotone(together, backstop.tokens, lp.usdc.value, lp.supply.value);
    }
  }
}
