/** The bounded round carry over whole runs: keeping only the newest eight rounds at every ledger boundary changes
    no price exactly while the staleness window is at most three resolutions, or seven without a guard. */
module RoundCarry {
  import opened Options
  import opened Reflector

  type Ledger = seq<FeedOp>

  function ApplyFeedOps(f: Option<Feed>, ops: Ledger): Option<Feed> {
    if ops == [] then f else ApplyFeed(ApplyFeedOps(f, ops[..|ops| - 1]), ops[|ops| - 1])
  }

  function TrimCarry(f: Option<Feed>): Option<Feed> { if f.Some? then Some(Trim(f.value)) else None }

  /** The feed the last ledger's prices are read from, when every earlier ledger boundary trimmed the carry. */
  function Carried(run: seq<Ledger>): Option<Feed> {
    if run == [] then None else ApplyFeedOps(TrimCarry(Carried(run[..|run| - 1])), run[|run| - 1])
  }

  /** The same feed when nothing is ever trimmed. */
  function Unbounded(run: seq<Ledger>): Option<Feed> {
    if run == [] then None else ApplyFeedOps(Unbounded(run[..|run| - 1]), run[|run| - 1])
  }

  // ---- the resolution grid ---------------------------------------------------------------------

  ghost predicate GridPoint(ts: int, origin: int, step: int, k: int) { ts == origin + k * step }

  ghost predicate OnGrid(ts: int, origin: int, step: int) { exists k :: GridPoint(ts, origin, step, k) }

  ghost predicate CacheOnGrid(cache: seq<(int, map<int, int>)>, origin: int, step: int) {
    forall i :: 0 <= i < |cache| && cache[i].0 > 0 ==> OnGrid(cache[i].0, origin, step)
  }

  ghost predicate OpOnGrid(op: FeedOp, origin: int, step: int) {
    match op
    case WriteRound(ts, _) => ts > 0 ==> OnGrid(ts, origin, step)
    case Instance(_, _, last, cache) =>
      && (last.Some? && last.value > 0 ==> OnGrid(last.value, origin, step))
      && CacheOnGrid(cache, origin, step)
    case _ => true
  }

  ghost predicate RunOnGrid(run: seq<Ledger>, origin: int, step: int) {
    forall i, j :: 0 <= i < |run| && 0 <= j < |run[i]| ==> OpOnGrid(run[i][j], origin, step)
  }

  /** Every round is a grid point in (0, last]. */
  ghost predicate GridFeed(f: Feed, origin: int, step: int) {
    && 0 <= f.lastRoundMs
    && (f.lastRoundMs > 0 ==> OnGrid(f.lastRoundMs, origin, step))
    && forall ts :: ts in f.rounds ==> 0 < ts <= f.lastRoundMs && OnGrid(ts, origin, step)
  }

  predicate SameRound(t: Feed, u: Feed, ts: int) {
    (ts in t.rounds <==> ts in u.rounds) && (ts in t.rounds && ts in u.rounds ==> t.rounds[ts] == u.rounds[ts])
  }

  /** The trimmed feed t and the unbounded feed u agree on everything but rounds more than seven steps old. */
  ghost predicate Agree(t: Feed, u: Feed, origin: int, step: int) {
    && GridFeed(t, origin, step) && GridFeed(u, origin, step)
    && t.decimals == u.decimals && t.lastRoundMs == u.lastRoundMs && t.assetToIndex == u.assetToIndex
    && forall ts :: ts >= t.lastRoundMs - 7 * step ==> SameRound(t, u, ts)
  }

  ghost predicate AgreeOption(t: Option<Feed>, u: Option<Feed>, origin: int, step: int) {
    (t.Some? <==> u.Some?) && (t.Some? && u.Some? ==> Agree(t.value, u.value, origin, step))
  }

  lemma SetRoundAgrees(t: Feed, u: Feed, ts: int, prices: map<int, int>, origin: int, step: int)
    requires step > 0 && Agree(t, u, origin, step) && ts > 0 && OnGrid(ts, origin, step)
    ensures Agree(SetRound(t, ts, prices), SetRound(u, ts, prices), origin, step)
  {
    var t', u' := SetRound(t, ts, prices), SetRound(u, ts, prices);
    forall x | x >= t'.lastRoundMs - 7 * step ensures SameRound(t', u', x) {
      assert SameRound(t, u, x);
    }
  }

  lemma {:induction false} SetRoundsAgree(t: Feed, u: Feed, cache: seq<(int, map<int, int>)>, origin: int, step: int)
    requires step > 0 && Agree(t, u, origin, step) && CacheOnGrid(cache, origin, step)
    ensures Agree(SetRounds(t, cache), SetRounds(u, cache), origin, step)
    decreases |cache|
  {
    if cache != [] {
      var r := cache[0];
      assert forall i :: 0 <= i < |cache[1..]| ==> cache[1..][i] == cache[i + 1];
      if r.0 > 0 {
        SetRoundAgrees(t, u, r.0, r.1, origin, step);
        SetRoundsAgree(SetRound(t, r.0, r.1), SetRound(u, r.0, r.1), cache[1..], origin, step);
      } else {
        SetRoundsAgree(t, u, cache[1..], origin, step);
      }
    }
  }

  lemma InstanceAgrees(t: Feed, u: Feed, op: FeedOp, origin: int, step: int)
    requires step > 0 && Agree(t, u, origin, step) && op.Instance? && OpOnGrid(op, origin, step)
    ensures Agree(FeedInstance(t, op), FeedInstance(u, op), origin, step)
  {
    var last := if op.lastTimestamp.Some? then Max(t.lastRoundMs, op.lastTimestamp.value) else t.lastRoundMs;
    var assets := if op.assets.Some? then op.assets.value else t.assetToIndex;
    var decimals := if op.decimals.Some? then op.decimals.value else t.decimals;
    var t' := t.(assetToIndex := assets, decimals := decimals, lastRoundMs := last);
    var u' := u.(assetToIndex := assets, decimals := decimals, lastRoundMs := last);
    forall x | x >= last - 7 * step ensures SameRound(t', u', x) {
      assert SameRound(t, u, x);
    }
    SetRoundsAgree(t', u', op.cache, origin, step);
  }

  lemma DropsAgree(t: Feed, u: Feed, ts: int, index: int, origin: int, step: int)
    requires step > 0 && Agree(t, u, origin, step)
    ensures Agree(t.(rounds := t.rounds - {ts}), u.(rounds := u.rounds - {ts}), origin, step)
    ensures Agree(WithoutPrice(t, ts, index), WithoutPrice(u, ts, index), origin, step)
  {
    var t', u' := t.(rounds := t.rounds - {ts}), u.(rounds := u.rounds - {ts});
    forall x | x >= t.lastRoundMs - 7 * step ensures SameRound(t', u', x) {
      assert SameRound(t, u, x);
    }
    var t2, u2 := WithoutPrice(t, ts, index), WithoutPrice(u, ts, index);
    forall x | x >= t.lastRoundMs - 7 * step ensures SameRound(t2, u2, x) {
      assert SameRound(t, u, x);
      assert ts >= t.lastRoundMs - 7 * step ==> SameRound(t, u, ts);
    }
  }

  lemma OpAgrees(t: Option<Feed>, u: Option<Feed>, op: FeedOp, origin: int, step: int)
    requires step > 0 && AgreeOption(t, u, origin, step) && OpOnGrid(op, origin, step)
    ensures AgreeOption(ApplyFeed(t, op), ApplyFeed(u, op), origin, step)
  {
    var t', u' := if t.Some? then t.value else EMPTY_FEED, if u.Some? then u.value else EMPTY_FEED;
    assert Agree(t', u', origin, step);
    match op
    case WriteRound(ts, prices) => if ts > 0 { SetRoundAgrees(t', u', ts, prices, origin, step); }
    case Instance(_, _, _, _) => InstanceAgrees(t', u', op, origin, step);
    case DropRound(ts) => DropsAgree(t', u', ts, 0, origin, step);
    case DropPrice(ts, index) => DropsAgree(t', u', ts, index, origin, step);
    case _ =>
  }

  lemma {:induction false} LedgerAgrees(t: Option<Feed>, u: Option<Feed>, ops: Ledger, origin: int, step: int)
    requires step > 0 && AgreeOption(t, u, origin, step)
    requires forall j :: 0 <= j < |ops| ==> OpOnGrid(ops[j], origin, step)
    ensures AgreeOption(ApplyFeedOps(t, ops), ApplyFeedOps(u, ops), origin, step)
  {
    if ops != [] {
      var head := ops[..|ops| - 1];
      LedgerAgrees(t, u, head, origin, step);
      OpAgrees(ApplyFeedOps(t, head), ApplyFeedOps(u, head), ops[|ops| - 1], origin, step);
    }
  }

  // ---- trimming keeps the window ---------------------------------------------------------------

  /** A grid point less than seven steps below `last` is one of seven values. */
  lemma WindowPoint(last: int, ts: int, origin: int, step: int) returns (k: int)
    requires step > 0 && OnGrid(last, origin, step) && OnGrid(ts, origin, step)
    requires last - 7 * step < ts <= last
    ensures 0 <= k < 7 && ts == last - k * step
  {
    var i :| GridPoint(last, origin, step, i);
    var j :| GridPoint(ts, origin, step, j);
    k := i - j;
    assert k * step == i * step - j * step;
    assert k * step < 7 * step && 0 <= k * step;
    if k >= 7 { MulMonotone(7, k, step); assert false; }
    if k < 0 { MulMonotone(k, -1, step); assert false; }
  }

  lemma MulMonotone(a: int, b: int, c: int)
    requires a <= b && c >= 0
    ensures a * c <= b * c
  {
  }

  lemma WindowIsRecent(f: Feed, ts: int, origin: int, step: int)
    requires step > 0 && GridFeed(f, origin, step) && ts in f.rounds
    requires ts >= f.lastRoundMs - 7 * step
    ensures Recent(f.rounds.Keys, ts)
  {
    var window := Window(f.lastRoundMs, step);
    NewerInWindow(f, ts, origin, step);
    SubsetSmaller(Newer(f.rounds.Keys, ts), window);
    assert |window| <= 7 by { SmallSet(f.lastRoundMs, step); }
  }

  function Window(last: int, step: int): set<int> {
    {last, last - step, last - 2 * step, last - 3 * step, last - 4 * step, last - 5 * step, last - 6 * step}
  }

  lemma PointInWindow(last: int, step: int, k: int)
    requires 0 <= k < 7
    ensures last - k * step in Window(last, step)
  {
  }

  lemma NewerInWindow(f: Feed, ts: int, origin: int, step: int)
    requires step > 0 && GridFeed(f, origin, step) && ts in f.rounds
    requires ts >= f.lastRoundMs - 7 * step
    ensures Newer(f.rounds.Keys, ts) <= Window(f.lastRoundMs, step)
  {
    hide Window;
    forall u | u in Newer(f.rounds.Keys, ts) ensures u in Window(f.lastRoundMs, step) {
      var k := WindowPoint(f.lastRoundMs, u, origin, step);
      PointInWindow(f.lastRoundMs, step, k);
    }
  }

  lemma SmallSet(last: int, step: int)
    ensures |Window(last, step)| <= 7
  {
  }

  lemma TrimAgrees(t: Feed, u: Feed, origin: int, step: int)
    requires step > 0 && Agree(t, u, origin, step)
    ensures Agree(Trim(t), u, origin, step)
  {
    forall ts | ts >= t.lastRoundMs - 7 * step ensures SameRound(Trim(t), u, ts) {
      assert SameRound(t, u, ts);
      if ts in t.rounds { WindowIsRecent(t, ts, origin, step); }
    }
  }

  lemma {:induction false} RunAgrees(run: seq<Ledger>, origin: int, step: int)
    requires step > 0 && RunOnGrid(run, origin, step)
    ensures AgreeOption(Carried(run), Unbounded(run), origin, step)
  {
    if run != [] {
      var before := run[..|run| - 1];
      RunAgrees(before, origin, step);
      if Carried(before).Some? {
        TrimAgrees(Carried(before).value, Unbounded(before).value, origin, step);
      }
      LedgerAgrees(TrimCarry(Carried(before)), Unbounded(before), run[|run| - 1], origin, step);
    }
  }

  // ---- the walks stay inside the window --------------------------------------------------------

  /** How many resolutions the staleness window may span: an active guard walks the window twice. */
  function Reach(maxDev: int): int { if GuardActive(maxDev) then 3 else 7 }

  /** A point of the walk that is not stale is at most reach steps back. */
  lemma InReach(last: int, k: nat, resolutionS: int, oldestS: int, reach: nat)
    requires resolutionS > 0 && reach <= 7 && last / 1000 - oldestS < (reach + 1) * resolutionS
    requires (last - k * (resolutionS * 1000)) / 1000 >= oldestS
    ensures k <= reach && k * (resolutionS * 1000) <= reach * (resolutionS * 1000) <= 7 * (resolutionS * 1000)
  {
    var p := k * resolutionS;
    assert k * (resolutionS * 1000) == p * 1000;
    assert (last - p * 1000) / 1000 == last / 1000 - p;
    if k > reach { MulMonotone(reach + 1, k, resolutionS); assert false; }
    MulMonotone(k, reach, resolutionS * 1000);
    MulMonotone(reach, 7, resolutionS * 1000);
  }

  lemma {:induction false} SeekNewestSame(t: Feed, u: Feed, index: int, k: int, resolutionS: int, oldestS: int, reach: nat,
                                          origin: int)
    requires resolutionS > 0 && Agree(t, u, origin, resolutionS * 1000) && reach <= 7
    requires k >= 0 && t.lastRoundMs / 1000 - oldestS < (reach + 1) * resolutionS
    ensures var from := t.lastRoundMs - k * (resolutionS * 1000);
            var found := SeekNewest(t, index, from, resolutionS * 1000, oldestS);
            && found == SeekNewest(u, index, from, resolutionS * 1000, oldestS)
            && (found.Some? ==> found.value >= t.lastRoundMs - reach * (resolutionS * 1000))
    decreases if k <= reach then reach + 1 - k else 0
  {
    hide GridFeed;
    var step := resolutionS * 1000;
    var from := t.lastRoundMs - k * step;
    if from > 0 && from / 1000 >= oldestS {
      InReach(t.lastRoundMs, k, resolutionS, oldestS, reach);
      assert SameRound(t, u, from);
      if PositivePrice(t, from, index).None? {
        SeekNewestSame(t, u, index, k + 1, resolutionS, oldestS, reach, origin);
        assert t.lastRoundMs - (k + 1) * step == from - step;
      }
    }
  }

  lemma {:induction false} SeekOlderSame(t: Feed, u: Feed, index: int, from: int, step: int, n: int, origin: int)
    requires step > 0 && Agree(t, u, origin, step)
    requires n > 0 ==> from - (n - 1) * step >= t.lastRoundMs - 7 * step
    ensures SeekOlder(t, index, from, step, n) == SeekOlder(u, index, from, step, n)
    ensures SeekOlder(t, index, from, step, n).Some? ==>
              SeekOlder(t, index, from, step, n).value >= t.lastRoundMs - 7 * step
    decreases if n > 0 then n else 0
  {
    if n > 0 && from > 0 {
      assert (n - 1) * step >= 0;
      assert SameRound(t, u, from);
      if PositivePrice(t, from, index).None? {
        assert from - step - (n - 2) * step == from - (n - 1) * step;
        SeekOlderSame(t, u, index, from - step, step, n - 1, origin);
      }
    }
  }

  lemma AgreeingFeedsPriceAlike(t: Feed, u: Feed, index: int, ref: FeedRef, maxAgeS: int, maxDev: int, toDecimals: int,
                                closeTime: Option<int>, origin: int)
    requires ref.resolutionS > 0 && Agree(t, u, origin, ref.resolutionS * 1000)
    requires maxAgeS / ref.resolutionS <= Reach(maxDev)
    requires closeTime.Some? ==> closeTime.value >= t.lastRoundMs / 1000
    ensures FeedPrice(t, index, ref, maxAgeS, maxDev, toDecimals, closeTime)
         == FeedPrice(u, index, ref, maxAgeS, maxDev, toDecimals, closeTime)
  {
    var step, reach := ref.resolutionS * 1000, Reach(maxDev);
    var oldestS := NowS(t, closeTime) - maxAgeS;
    WindowOf(maxAgeS, ref.resolutionS, reach);
    SeekNewestSame(t, u, index, 0, ref.resolutionS, oldestS, reach, origin);
    assert t.lastRoundMs - 0 * step == t.lastRoundMs;
    var found := SeekNewest(t, index, t.lastRoundMs, step, oldestS);
    if found.Some? {
      MulMonotone(reach, 7, step);
      assert SameRound(t, u, found.value);
      if GuardActive(maxDev) {
        OlderSame(t, u, index, found.value, step, maxAgeS / ref.resolutionS, origin);
      }
    }
  }

  lemma WindowOf(maxAgeS: int, resolutionS: int, reach: nat)
    requires resolutionS > 0
    ensures maxAgeS / resolutionS <= reach <==> maxAgeS < (reach + 1) * resolutionS
  {
    var n := maxAgeS / resolutionS;
    assert maxAgeS == n * resolutionS + maxAgeS % resolutionS;
    assert (reach + 1) * resolutionS == reach * resolutionS + resolutionS;
    if n <= reach { MulMonotone(n, reach, resolutionS); } else { MulMonotone(reach + 1, n, resolutionS); }
  }

  lemma OlderSame(t: Feed, u: Feed, index: int, found: int, step: int, n: int, origin: int)
    requires step > 0 && Agree(t, u, origin, step)
    requires found >= t.lastRoundMs - 3 * step && n <= 3
    ensures SeekOlder(t, index, found - step, step, n) == SeekOlder(u, index, found - step, step, n)
    ensures var older := SeekOlder(t, index, found - step, step, n);
            older.Some? ==> PositivePrice(t, older.value, index) == PositivePrice(u, older.value, index)
  {
    MulMonotone(n - 1, 2, step);
    SeekOlderSame(t, u, index, found - step, step, n, origin);
    var older := SeekOlder(t, index, found - step, step, n);
    if older.Some? { assert SameRound(t, u, older.value); }
  }

  /** For every run of feed writes, deletes and ledger boundaries on the resolution grid, with a close time not before
      the newest round and a staleness window within reach, the trimmed carry prices every asset as if no round had ever
      been dropped. */
  lemma CarryNeverChangesAPrice(run: seq<Ledger>, origin: int, index: int, ref: FeedRef, maxAgeS: int, maxDev: int,
                                toDecimals: int, closeTime: Option<int>)
    requires ref.resolutionS > 0 && RunOnGrid(run, origin, ref.resolutionS * 1000)
    requires maxAgeS / ref.resolutionS <= Reach(maxDev)
    requires closeTime.Some? && Unbounded(run).Some? ==> closeTime.value >= Unbounded(run).value.lastRoundMs / 1000
    ensures Carried(run).Some? <==> Unbounded(run).Some?
    ensures Carried(run).Some? ==>
              && Carried(run).value.assetToIndex == Unbounded(run).value.assetToIndex
              && FeedPrice(Carried(run).value, index, ref, maxAgeS, maxDev, toDecimals, closeTime)
                 == FeedPrice(Unbounded(run).value, index, ref, maxAgeS, maxDev, toDecimals, closeTime)
  {
    RunAgrees(run, origin, ref.resolutionS * 1000);
    if Carried(run).Some? {
      AgreeingFeedsPriceAlike(Carried(run).value, Unbounded(run).value, index, ref, maxAgeS, maxDev, toDecimals,
                              closeTime, origin);
    }
  }

  // ---- the reach is exact ----------------------------------------------------------------------

  /** The close time is not before the newest round. */
  predicate NotBefore(run: seq<Ledger>, closeTime: Option<int>) {
    closeTime.Some? && Unbounded(run).Some? ==> closeTime.value >= Unbounded(run).value.lastRoundMs / 1000
  }

  predicate SamePrice(run: seq<Ledger>, index: int, ref: FeedRef, maxAgeS: int, maxDev: int, toDecimals: int,
                      closeTime: Option<int>)
    requires ref.resolutionS > 0
  {
    && (Carried(run).Some? <==> Unbounded(run).Some?)
    && (Carried(run).Some? && Unbounded(run).Some? ==>
          var t, u := Carried(run).value, Unbounded(run).value;
          FeedPrice(t, index, ref, maxAgeS, maxDev, toDecimals, closeTime)
          == FeedPrice(u, index, ref, maxAgeS, maxDev, toDecimals, closeTime))
  }

  /** With this resolution, staleness window and guard no run on the grid can tell the trimmed carry from an unbounded
      one. */
  ghost predicate CarrySafe(resolutionS: int, maxAgeS: int, maxDev: int)
    requires resolutionS > 0
  {
    forall run, origin, index, ref: FeedRef, toDecimals, closeTime ::
      ref.resolutionS == resolutionS && RunOnGrid(run, origin, resolutionS * 1000) && NotBefore(run, closeTime) ==>
        SamePrice(run, index, ref, maxAgeS, maxDev, toDecimals, closeTime)
  }

  const P0: map<int, int> := map[0 := 100]
  const P1: map<int, int> := map[1 := 100]

  /** Of nine rounds the first prices asset 0, and the fifth as well when a guard looks for an older price. */
  function PricesAt(i: int, guarded: bool): map<int, int> { if i == 1 || (guarded && i == 5) then P0 else P1 }

  function Writes(step: int, n: nat, guarded: bool): Ledger {
    if n == 0 then [] else Writes(step, n - 1, guarded) + [WriteRound(n * step, PricesAt(n, guarded))]
  }

  function Rounds(step: int, n: nat, guarded: bool): map<int, map<int, int>> {
    if n == 0 then map[] else Rounds(step, n - 1, guarded)[n * step := PricesAt(n, guarded)]
  }

  lemma {:induction false} RoundsAt(step: int, n: nat, i: nat, guarded: bool)
    requires step > 0 && i <= n
    ensures i > 0 ==> i * step in Rounds(step, n, guarded) && Rounds(step, n, guarded)[i * step] == PricesAt(i, guarded)
    ensures forall ts :: ts in Rounds(step, n, guarded) ==> ts <= n * step
    ensures |Newer(Rounds(step, n, guarded).Keys, i * step)| == n - i
  {
    var rounds := Rounds(step, n, guarded);
    if n == 0 {
      assert Newer(rounds.Keys, 0) == {};
      return;
    }
    var before := Rounds(step, n - 1, guarded);
    RoundsAt(step, n - 1, if i < n then i else n - 1, guarded);
    if i < n {
      MulMonotone(i, n - 1, step);
      assert n * step == (n - 1) * step + step;
      assert Newer(rounds.Keys, i * step) == Newer(before.Keys, i * step) + {n * step};
    } else {
      assert n * step == (n - 1) * step + step;
      assert Newer(rounds.Keys, n * step) == {};
    }
  }

  lemma NextWrite(step: int, n: nat, guarded: bool)
    requires step > 0 && n > 0
    ensures ApplyFeed(Some(Feed(0, (n - 1) * step, map[], Rounds(step, n - 1, guarded))), WriteRound(n * step, PricesAt(n, guarded)))
         == Some(Feed(0, n * step, map[], Rounds(step, n, guarded)))
  {
    RoundsAt(step, n - 1, 0, guarded);
    MulMonotone(0, n - 1, step);
    assert n * step == (n - 1) * step + step;
    assert map[] + PricesAt(n, guarded) == PricesAt(n, guarded);
  }

  lemma {:induction false} AfterWrites(step: int, n: nat, guarded: bool)
    requires step > 0
    ensures ApplyFeedOps(None, Writes(step, n, guarded)) == if n == 0 then None else Some(Feed(0, n * step, map[], Rounds(step, n, guarded)))
  {
    hide ApplyFeed, Rounds;
    if n > 0 {
      AfterWrites(step, n - 1, guarded);
      NextWrite(step, n, guarded);
      WritesLength(step, n - 1, guarded);
      assert Writes(step, n, guarded)[..n - 1] == Writes(step, n - 1, guarded);
      if n == 1 { FirstWrite(step, guarded); }
    }
  }

  lemma FirstWrite(step: int, guarded: bool)
    requires step > 0
    ensures ApplyFeed(None, WriteRound(1 * step, PricesAt(1, guarded)))
         == ApplyFeed(Some(Feed(0, 0 * step, map[], Rounds(step, 0, guarded))), WriteRound(1 * step, PricesAt(1, guarded)))
  {
  }

  lemma {:induction false} WritesLength(step: int, n: nat, guarded: bool)
    ensures |Writes(step, n, guarded)| == n
    ensures forall i :: 0 <= i < n ==> Writes(step, n, guarded)[i] == WriteRound((i + 1) * step, PricesAt(i + 1, guarded))
  {
    if n > 0 { WritesLength(step, n - 1, guarded); }
  }

  /** Nine rounds in one ledger, then a ledger without changes. */
  function NineRun(step: int, guarded: bool): seq<Ledger> { [Writes(step, 9, guarded), []] }

  lemma NineRunFeeds(step: int, guarded: bool)
    requires step > 0
    ensures Unbounded(NineRun(step, guarded)) == Some(Feed(0, 9 * step, map[], Rounds(step, 9, guarded)))
    ensures Carried(NineRun(step, guarded)) == Some(Trim(Feed(0, 9 * step, map[], Rounds(step, 9, guarded))))
  {
    var run := NineRun(step, guarded);
    AfterWrites(step, 9, guarded);
    assert run[..1] == [Writes(step, 9, guarded)] && run[..1][..0] == [];
    assert Unbounded(run[..1]) == ApplyFeedOps(None, Writes(step, 9, guarded));
    assert Carried(run[..1]) == ApplyFeedOps(None, Writes(step, 9, guarded));
  }

  lemma NineRunOnGrid(step: int, guarded: bool)
    requires step > 0
    ensures RunOnGrid(NineRun(step, guarded), 0, step)
  {
    var run := NineRun(step, guarded);
    WritesLength(step, 9, guarded);
    forall i, j | 0 <= i < |run| && 0 <= j < |run[i]| ensures OpOnGrid(run[i][j], 0, step) {
      assert GridPoint((j + 1) * step, 0, step, j + 1);
    }
  }

  /** Rounds two to nine are there. */
  ghost predicate RecentNine(f: Feed, step: int, guarded: bool) {
    forall i :: 2 <= i <= 9 ==> PositivePrice(f, i * step, 0) == if guarded && i == 5 then Some(100) else None
  }

  /** The ninth round holds the older price; trimming drops it and nothing else. */
  lemma TrimmedNine(step: int, guarded: bool)
    requires step > 0
    ensures var f := Feed(0, 9 * step, map[], Rounds(step, 9, guarded));
            && RecentNine(f, step, guarded) && PositivePrice(f, step, 0) == Some(100)
            && RecentNine(Trim(f), step, guarded) && PositivePrice(Trim(f), step, 0) == None
  {
    var f := Feed(0, 9 * step, map[], Rounds(step, 9, guarded));
    assert f.rounds.Keys == Rounds(step, 9, guarded).Keys;
    forall i: int | 1 <= i <= 9
      ensures PositivePrice(f, i * step, 0) == if (guarded && i == 5) || i == 1 then Some(100) else None
      ensures PositivePrice(Trim(f), i * step, 0) == if guarded && i == 5 then Some(100) else None
    {
      RoundsAt(step, 9, i, guarded);
    }
    assert 1 * step == step;
  }

  lemma SkipNewer(f: Feed, i: int, step: int, resolutionS: int, oldestS: int)
    requires step == resolutionS * 1000 && resolutionS > 0 && i > 0
    requires i * resolutionS >= oldestS
    ensures SeekNewest(f, 0, i * step, step, oldestS)
         == if PositivePrice(f, i * step, 0).Some? then Some(i * step) else SeekNewest(f, 0, (i - 1) * step, step, oldestS)
  {
    assert i * step == (i * resolutionS) * 1000;
    MulMonotone(1, i, step);
    assert (i - 1) * step == i * step - step;
  }

  /** With a guard's pattern the newest price lies in the fifth round. */
  lemma NewestIsFifth(f: Feed, step: int, resolutionS: int, oldestS: int)
    requires step == resolutionS * 1000 && resolutionS > 0 && oldestS <= 5 * resolutionS
    requires RecentNine(f, step, true)
    ensures SeekNewest(f, 0, 9 * step, step, oldestS) == Some(5 * step) && PositivePrice(f, 5 * step, 0) == Some(100)
  {
    hide PositivePrice;
    SkipNewer(f, 9, step, resolutionS, oldestS);
    SkipNewer(f, 8, step, resolutionS, oldestS);
    SkipNewer(f, 7, step, resolutionS, oldestS);
    SkipNewer(f, 6, step, resolutionS, oldestS);
    SkipNewer(f, 5, step, resolutionS, oldestS);
  }

  /** Without one it lies in the first, if it is there. */
  lemma {:induction false} NewestIsFirst(f: Feed, step: int, resolutionS: int, oldestS: int, i: int)
    requires step == resolutionS * 1000 && resolutionS > 0 && oldestS <= resolutionS && 1 <= i <= 9
    requires RecentNine(f, step, false)
    ensures SeekNewest(f, 0, i * step, step, oldestS) == if PositivePrice(f, step, 0).Some? then Some(step) else None
    decreases i
  {
    hide PositivePrice;
    MulMonotone(1, i, resolutionS);
    SkipNewer(f, i, step, resolutionS, oldestS);
    if i > 1 {
      NewestIsFirst(f, step, resolutionS, oldestS, i - 1);
    } else {
      assert 1 * step == step && SeekNewest(f, 0, 0 * step, step, oldestS) == None;
    }
  }

  lemma OlderIsFirst(f: Feed, step: int, n: int)
    requires step > 0 && n >= 4 && RecentNine(f, step, true)
    ensures SeekOlder(f, 0, 4 * step, step, n) == if PositivePrice(f, step, 0).Some? then Some(step) else None
  {
    hide PositivePrice;
    assert SeekOlder(f, 0, 4 * step, step, n) == SeekOlder(f, 0, 3 * step, step, n - 1);
    assert SeekOlder(f, 0, 3 * step, step, n - 1) == SeekOlder(f, 0, 2 * step, step, n - 2);
    assert SeekOlder(f, 0, 2 * step, step, n - 2) == SeekOlder(f, 0, step, step, n - 3);
    assert SeekOlder(f, 0, 0, step, n - 4) == None;
  }

  /** Beyond the reach the ninth round decides whether a price is served. */
  lemma NinthDecides(f: Feed, ref: FeedRef, maxAgeS: int, maxDev: int, closeTime: Option<int>)
    requires ref.resolutionS > 0 && ref.decimals == 0 && maxAgeS / ref.resolutionS > Reach(maxDev)
    requires f.lastRoundMs == 9 * (ref.resolutionS * 1000) && RecentNine(f, ref.resolutionS * 1000, GuardActive(maxDev))
    requires NowS(f, closeTime) == 9 * ref.resolutionS
    ensures var p, first := FeedPrice(f, 0, ref, maxAgeS, maxDev, 0, closeTime), PositivePrice(f, ref.resolutionS * 1000, 0);
            (first == Some(100) ==> p == Some(100)) && (first == None ==> p == None)
  {
    var step := ref.resolutionS * 1000;
    var oldestS := 9 * ref.resolutionS - maxAgeS;
    WindowOf(maxAgeS, ref.resolutionS, Reach(maxDev));
    assert Rescale(100, 0, 0) == 100 by { assert Power10(0) == 1; }
    if GuardActive(maxDev) {
      NewestIsFifth(f, step, ref.resolutionS, oldestS);
      OlderIsFirst(f, step, maxAgeS / ref.resolutionS);
    } else {
      NewestIsFirst(f, step, ref.resolutionS, oldestS, 9);
    }
    hide SeekNewest, SeekOlder, PositivePrice, RecentNine;
  }

  /** Beyond the reach a run on the grid loses a price to trimming, on any resolution, for every guard, and whether the
      close time is unknown or that of the newest round. */
  lemma BeyondReach(resolutionS: int, maxAgeS: int, maxDev: int, closeTime: Option<int>)
    requires resolutionS > 0 && maxAgeS / resolutionS > Reach(maxDev)
    requires closeTime.Some? ==> closeTime.value == 9 * resolutionS
    ensures var run, ref := NineRun(resolutionS * 1000, GuardActive(maxDev)), FeedRef(0, "feed", 0, resolutionS);
            && RunOnGrid(run, 0, resolutionS * 1000) && NotBefore(run, closeTime)
            && !SamePrice(run, 0, ref, maxAgeS, maxDev, 0, closeTime)
  {
    hide FeedPrice, PositivePrice, RecentNine, Trim, RunOnGrid, Carried, Unbounded, Reach;
    var guarded, step, ref := GuardActive(maxDev), resolutionS * 1000, FeedRef(0, "feed", 0, resolutionS);
    var f := Feed(0, 9 * step, map[], Rounds(step, 9, guarded));
    NineRunFeeds(step, guarded);
    NineRunOnGrid(step, guarded);
    TrimmedNine(step, guarded);
    assert 9 * step / 1000 == 9 * resolutionS;
    NinthDecides(f, ref, maxAgeS, maxDev, closeTime);
    assert Trim(f).lastRoundMs == f.lastRoundMs by { TrimKeepsNewest(f); }
    NinthDecides(Trim(f), ref, maxAgeS, maxDev, closeTime);
  }

  lemma TrimKeepsNewest(f: Feed)
    ensures Trim(f).lastRoundMs == f.lastRoundMs
  {
  }

  /** Carrying eight rounds is invisible on every run exactly when the staleness window is at most three resolutions under
      an active deviation guard, and at most seven without one. */
  lemma CarrySafeExactly(resolutionS: int, maxAgeS: int, maxDev: int)
    requires resolutionS > 0
    ensures CarrySafe(resolutionS, maxAgeS, maxDev) <==>
            maxAgeS / resolutionS <= if GuardActive(maxDev) then 3 else 7
  {
    hide SamePrice, RunOnGrid, NotBefore;
    if maxAgeS / resolutionS <= Reach(maxDev) {
      forall run, origin, index, ref: FeedRef, toDecimals, closeTime |
        ref.resolutionS == resolutionS && RunOnGrid(run, origin, resolutionS * 1000) && NotBefore(run, closeTime)
        ensures SamePrice(run, index, ref, maxAgeS, maxDev, toDecimals, closeTime)
      {
        CarriedAlike(run, origin, index, ref, maxAgeS, maxDev, toDecimals, closeTime);
      }
    } else {
      BeyondReach(resolutionS, maxAgeS, maxDev, None);
    }
  }

  lemma CarriedAlike(run: seq<Ledger>, origin: int, index: int, ref: FeedRef, maxAgeS: int, maxDev: int,
                     toDecimals: int, closeTime: Option<int>)
    requires ref.resolutionS > 0 && RunOnGrid(run, origin, ref.resolutionS * 1000)
    requires maxAgeS / ref.resolutionS <= Reach(maxDev) && NotBefore(run, closeTime)
    ensures SamePrice(run, index, ref, maxAgeS, maxDev, toDecimals, closeTime)
  {
    hide FeedPrice, RunOnGrid, Reach;
    CarryNeverChangesAPrice(run, origin, index, ref, maxAgeS, maxDev, toDecimals, closeTime);
  }
}
