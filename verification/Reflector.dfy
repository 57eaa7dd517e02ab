/** Reflector price feeds and the oracle aggregators priced from them: batch decoding, the bounded round carry,
    and the aggregator's own price walk. Prices are the integers their raw text denotes. */
module Reflector {
  import opened Options

  /** feedBuilder: one registered feed. A round maps an asset index to its raw price. */
  datatype Feed = Feed(decimals: int, lastRoundMs: int, assetToIndex: map<string, int>, rounds: map<int, map<int, int>>)

  const EMPTY_FEED := Feed(0, 0, map[], map[])

  datatype FeedRef = FeedRef(index: int, contract: string, decimals: int, resolutionS: int)

  datatype AssetConfig = AssetConfig(asset: string, feedAssetKey: string, oracleIndex: int, maxDev: int)

  datatype Aggregator = Aggregator(decimals: int, maxAgeS: int, baseKey: string, baseAssets: seq<string>,
                                   feeds: map<int, FeedRef>, assets: map<string, AssetConfig>)

  // ---- protocol-2 batches ----------------------------------------------------------------------

  type Byte = b: int | 0 <= b < 256

  function Power2(n: nat): (p: nat)
    ensures p > 0
  {
    if n == 0 then 1 else 2 * Power2(n - 1)
  }

  /** Bit i % 8 of byte i / 8: the mask bit of asset i. */
  predicate Bit(mask: seq<Byte>, i: nat)
    requires i < 8 * |mask|
  {
    mask[i / 8] / Power2(i % 8) % 2 == 1
  }

  /** The number of set mask bits below i. */
  function Rank(mask: seq<Byte>, i: nat): nat
    requires i <= 8 * |mask|
  {
    if i == 0 then 0 else Rank(mask, i - 1) + if Bit(mask, i - 1) then 1 else 0
  }

  /** Asset i has a price when its bit is set and the item at its rank exists and decodes. */
  predicate HasPrice(mask: seq<Byte>, items: seq<Option<int>>, i: nat)
    requires i < 8 * |mask|
  {
    Bit(mask, i) && Rank(mask, i) < |items| && items[Rank(mask, i)].Some?
  }

  function DecodedBatch(mask: seq<Byte>, items: seq<Option<int>>): map<int, int> {
    map i | 0 <= i < 8 * |mask| && HasPrice(mask, items, i) :: items[Rank(mask, i)].value
  }

  ghost predicate DecodedBelow(prices: map<int, int>, mask: seq<Byte>, items: seq<Option<int>>, n: nat)
    requires n <= 8 * |mask|
  {
    && (forall i :: i in prices <==> 0 <= i < n && HasPrice(mask, items, i))
    && (forall i :: i in prices ==> prices[i] == items[Rank(mask, i)].value)
  }

  lemma DecodedBelowAll(prices: map<int, int>, mask: seq<Byte>, items: seq<Option<int>>, n: nat)
    requires n <= 8 * |mask| && DecodedBelow(prices, mask, items, n)
    requires n == 8 * |mask| || Rank(mask, n) >= |items|
    ensures prices == DecodedBatch(mask, items)
  {
    forall i | n <= i < 8 * |mask| ensures !HasPrice(mask, items, i) {
      RankMonotone(mask, n, i);
    }
  }

  lemma {:induction false} RankMonotone(mask: seq<Byte>, i: nat, j: nat)
    requires i <= j <= 8 * |mask|
    ensures Rank(mask, i) <= Rank(mask, j)
    ensures i < j && Bit(mask, i) ==> Rank(mask, i) < Rank(mask, j)
    decreases j
  {
    if i < j { RankMonotone(mask, i, j - 1); }
  }

  /** What one mask bit adds to the decoded prices. */
  function BitAdds(prices: map<int, int>, mask: seq<Byte>, items: seq<Option<int>>, i: nat): map<int, int>
    requires i < 8 * |mask|
  {
    if HasPrice(mask, items, i) then prices[i := items[Rank(mask, i)].value] else prices
  }

  lemma DecodedBelowStep(prices: map<int, int>, mask: seq<Byte>, items: seq<Option<int>>, i: nat)
    requires i < 8 * |mask| && DecodedBelow(prices, mask, items, i)
    ensures DecodedBelow(BitAdds(prices, mask, items, i), mask, items, i + 1)
    ensures Rank(mask, i + 1) == Rank(mask, i) + if Bit(mask, i) then 1 else 0
  {
  }

  lemma BitOf(mask: seq<Byte>, byteIdx: nat, bit: nat)
    requires byteIdx < |mask| && bit < 8
    ensures Bit(mask, 8 * byteIdx + bit) <==> mask[byteIdx] / Power2(bit) % 2 == 1
  {
    assert (8 * byteIdx + bit) / 8 == byteIdx && (8 * byteIdx + bit) % 8 == bit;
  }

  lemma NothingDecoded(mask: seq<Byte>, items: seq<Option<int>>)
    ensures Rank(mask, 0) == 0 && DecodedBelow(map[], mask, items, 0)
  {
  }

  /** decodeFeedRoundBatch: pair the sparse items with the set bits of the mask. */
  method DecodeFeedRoundBatch(mask: seq<Byte>, items: seq<Option<int>>) returns (prices: map<int, int>)
    ensures prices == DecodedBatch(mask, items)
  {
    hide DecodedBelow, DecodedBatch, Power2, Bit, Rank;
    prices := map[];
    var rank := 0;
    NothingDecoded(mask, items);
    for byteIdx := 0 to |mask|
      invariant rank == Rank(mask, 8 * byteIdx) <= |items|
      invariant DecodedBelow(prices, mask, items, 8 * byteIdx)
    {
      for bit := 0 to 8
        invariant rank == Rank(mask, 8 * byteIdx + bit) <= |items|
        invariant DecodedBelow(prices, mask, items, 8 * byteIdx + bit)
      {
        ghost var i := 8 * byteIdx + bit;
        BitOf(mask, byteIdx, bit);
        DecodedBelowStep(prices, mask, items, i);
        var m := mask[byteIdx];
        if m / Power2(bit) % 2 != 1 { continue; }
        if rank >= |items| {
          DecodedBelowAll(prices, mask, items, i);
          return;
        }
        if items[rank].Some? {
          prices := prices[8 * byteIdx + bit := items[rank].value];
        }
        rank := rank + 1;
      }
    }
    DecodedBelowAll(prices, mask, items, 8 * |mask|);
  }

  /** The feed's encoding of a sparse price map: one mask bit per priced asset, the prices in asset order. */
  ghost predicate Encodes(mask: seq<Byte>, items: seq<Option<int>>, prices: map<int, int>) {
    && (forall i :: i in prices <==> 0 <= i < 8 * |mask| && Bit(mask, i))
    && |items| == Rank(mask, 8 * |mask|)
    && (forall i :: i in prices ==> Rank(mask, i) < |items| && items[Rank(mask, i)] == Some(prices[i]))
  }

  function ItemsFor(mask: seq<Byte>, prices: map<int, int>, n: nat): seq<Option<int>>
    requires n <= 8 * |mask|
    requires forall i :: 0 <= i < 8 * |mask| && Bit(mask, i) ==> i in prices
  {
    if n == 0 then [] else ItemsFor(mask, prices, n - 1) + if Bit(mask, n - 1) then [Some(prices[n - 1])] else []
  }

  lemma {:induction false} ItemsForRank(mask: seq<Byte>, prices: map<int, int>, n: nat)
    requires n <= 8 * |mask|
    requires forall i :: 0 <= i < 8 * |mask| && Bit(mask, i) ==> i in prices
    ensures |ItemsFor(mask, prices, n)| == Rank(mask, n)
    ensures forall i :: 0 <= i < n && Bit(mask, i) ==>
              Rank(mask, i) < Rank(mask, n) && ItemsFor(mask, prices, n)[Rank(mask, i)] == Some(prices[i])
  {
    if n > 0 { ItemsForRank(mask, prices, n - 1); }
  }

  /** Decoding inverts the sparse encoding, and every price map over the mask's bits has one. */
  lemma BatchRoundTrip(mask: seq<Byte>, items: seq<Option<int>>, prices: map<int, int>)
    requires forall i :: i in prices <==> 0 <= i < 8 * |mask| && Bit(mask, i)
    ensures Encodes(mask, items, prices) ==> DecodedBatch(mask, items) == prices
    ensures Encodes(mask, ItemsFor(mask, prices, 8 * |mask|), prices)
  {
    ItemsForRank(mask, prices, 8 * |mask|);
    if Encodes(mask, items, prices) {
      var d := DecodedBatch(mask, items);
      forall i ensures i in d <==> i in prices {
        if i in prices { assert HasPrice(mask, items, i); }
      }
    }
  }

  // ---- feed changes ----------------------------------------------------------------------------

  function Max(a: int, b: int): int { if a > b then a else b }

  function RoundOf(f: Feed, ts: int): map<int, int> { if ts in f.rounds then f.rounds[ts] else map[] }

  /** setRound: merge one round's sparse prices and advance the newest timestamp. */
  function SetRound(f: Feed, ts: int, prices: map<int, int>): Feed {
    f.(rounds := f.rounds[ts := RoundOf(f, ts) + prices], lastRoundMs := Max(f.lastRoundMs, ts))
  }

  function SetRounds(f: Feed, rounds: seq<(int, map<int, int>)>): Feed
    decreases |rounds|
  {
    if rounds == [] then f
    else
      var r := rounds[0];
      SetRounds(if r.0 > 0 then SetRound(f, r.0, r.1) else f, rounds[1..])
  }

  /** One change of a registered feed. A protocol-1 entry writes one price of a round, a protocol-2 entry a batch;
      both merge through setRound. The instance rewrites the asset list, the decimals and the newest timestamp, and
      carries a cache of recent rounds. Entries of a shape the decoder rejects are `OtherEntry`. */
  datatype FeedOp =
    | WriteRound(ts: int, prices: map<int, int>)
    | WriteBadRound
    | Instance(assets: Option<map<string, int>>, decimals: Option<int>, lastTimestamp: Option<int>,
               cache: seq<(int, map<int, int>)>)
    | DropRound(ts: int)
    | DropPrice(ts: int, index: int)
    | DropInstance
    | OtherEntry

  function FeedInstance(f: Feed, op: FeedOp): Feed
    requires op.Instance?
  {
    var g := f.(assetToIndex := if op.assets.Some? then op.assets.value else f.assetToIndex,
                decimals := if op.decimals.Some? then op.decimals.value else f.decimals,
                lastRoundMs := if op.lastTimestamp.Some? then Max(f.lastRoundMs, op.lastTimestamp.value) else f.lastRoundMs);
    SetRounds(g, op.cache)
  }

  function WithoutPrice(f: Feed, ts: int, index: int): Feed {
    if ts !in f.rounds then f
    else
      var round := f.rounds[ts] - {index};
      if round == map[] then f.(rounds := f.rounds - {ts}) else f.(rounds := f.rounds[ts := round])
  }

  /** applyFeedChange and applyFeedDelete. A live round write creates the feed when it is new. */
  function ApplyFeed(f: Option<Feed>, op: FeedOp): Option<Feed> {
    var g := if f.Some? then f.value else EMPTY_FEED;
    match op
    case WriteRound(ts, prices) => if ts > 0 then Some(SetRound(g, ts, prices)) else f
    case WriteBadRound => Some(g)
    case Instance(_, _, _, _) => Some(FeedInstance(g, op))
    case DropRound(ts) => if f.Some? then Some(g.(rounds := g.rounds - {ts})) else None
    case DropPrice(ts, index) => if f.Some? then Some(WithoutPrice(g, ts, index)) else None
    case DropInstance => None
    case OtherEntry => f
  }

  /** A round write of a positive stamp stores every price it carries, keeps the round's other prices and every other round,
      and moves the newest stamp up to its own; a write of another stamp changes nothing. */
  lemma RoundWritten(f: Option<Feed>, ts: int, prices: map<int, int>)
    ensures ts <= 0 ==> ApplyFeed(f, WriteRound(ts, prices)) == f
    ensures ts > 0 ==> ApplyFeed(f, WriteRound(ts, prices)).Some?
    ensures ts > 0 ==>
      var was, g := if f.Some? then f.value else EMPTY_FEED, ApplyFeed(f, WriteRound(ts, prices)).value;
      && ts in g.rounds
      && (forall i :: i in g.rounds[ts] <==> i in prices || (ts in was.rounds && i in was.rounds[ts]))
      && (forall i <- prices :: i in g.rounds[ts] && g.rounds[ts][i] == prices[i])
      && (ts in was.rounds ==> forall i <- was.rounds[ts] :: i !in prices ==> g.rounds[ts][i] == was.rounds[ts][i])
      && (forall t :: t != ts ==> ((t in g.rounds <==> t in was.rounds) && (t in was.rounds ==> g.rounds[t] == was.rounds[t])))
      && g.lastRoundMs == (if ts > was.lastRoundMs then ts else was.lastRoundMs)
      && g.assetToIndex == was.assetToIndex && g.decimals == was.decimals
  {
  }

  /** A feed's instance rewrites what it carries of the asset list, the decimals and the newest stamp, and no stamp it caches
      is lost. */
  lemma FeedInstanceWritten(f: Option<Feed>, op: FeedOp)
    requires op.Instance?
    ensures ApplyFeed(f, op).Some?
    ensures var was, g := if f.Some? then f.value else EMPTY_FEED, ApplyFeed(f, op).value;
      && g.assetToIndex == (if op.assets.Some? then op.assets.value else was.assetToIndex)
      && g.decimals == (if op.decimals.Some? then op.decimals.value else was.decimals)
      && g.lastRoundMs >= was.lastRoundMs && (op.lastTimestamp.Some? ==> g.lastRoundMs >= op.lastTimestamp.value)
      && (op.cache == [] ==> g.rounds == was.rounds)
      && forall r <- op.cache :: r.0 > 0 ==> r.0 in g.rounds && g.lastRoundMs >= r.0
  {
    var was := if f.Some? then f.value else EMPTY_FEED;
    var last := if op.lastTimestamp.Some? then Max(was.lastRoundMs, op.lastTimestamp.value) else was.lastRoundMs;
    RoundsCached(was.(assetToIndex := if op.assets.Some? then op.assets.value else was.assetToIndex,
                      decimals := if op.decimals.Some? then op.decimals.value else was.decimals, lastRoundMs := last), op.cache);
    hide SetRounds;
  }

  lemma {:induction false} RoundsCached(f: Feed, rounds: seq<(int, map<int, int>)>)
    ensures var g := SetRounds(f, rounds);
      && g.assetToIndex == f.assetToIndex && g.decimals == f.decimals && g.lastRoundMs >= f.lastRoundMs
      && f.rounds.Keys <= g.rounds.Keys && forall r <- rounds :: r.0 > 0 ==> r.0 in g.rounds && g.lastRoundMs >= r.0
    decreases |rounds|
  {
    if rounds != [] {
      RoundsCached(if rounds[0].0 > 0 then SetRound(f, rounds[0].0, rounds[0].1) else f, rounds[1..]);
    }
  }

  lemma OthersRemain(round: map<int, int>, index: int)
    ensures round - {index} != map[] <==> exists i :: i in round && i != index
  {
    var rest := round - {index};
    if i :| i in round && i != index {
      assert i in rest;
    } else {
      assert forall i :: i !in rest;
      assert rest.Keys == {};
    }
  }

  /** A removed round or price goes, a round without prices goes with its last one, and nothing else changes. */
  lemma RoundDropped(f: Feed, ts: int, index: int)
    ensures var g := ApplyFeed(Some(f), DropRound(ts));
      g == Some(f.(rounds := g.value.rounds)) && ts !in g.value.rounds
      && forall t :: t != ts ==> ((t in g.value.rounds <==> t in f.rounds) && (t in f.rounds ==> g.value.rounds[t] == f.rounds[t]))
    ensures var g := ApplyFeed(Some(f), DropPrice(ts, index));
      g.Some? && g.value.lastRoundMs == f.lastRoundMs && g.value.assetToIndex == f.assetToIndex
      && (forall t :: t != ts ==> ((t in g.value.rounds <==> t in f.rounds) && (t in f.rounds ==> g.value.rounds[t] == f.rounds[t])))
      && (ts in g.value.rounds <==> ts in f.rounds && exists i :: i in f.rounds[ts] && i != index)
      && (ts in g.value.rounds ==> forall i :: (i in g.value.rounds[ts] <==> i in f.rounds[ts] && i != index)
                                             && (i in g.value.rounds[ts] ==> g.value.rounds[ts][i] == f.rounds[ts][i]))
    ensures ApplyFeed(Some(f), DropInstance) == None
  {
    if ts in f.rounds { OthersRemain(f.rounds[ts], index); }
  }

  const MAX_CARRIED_ROUNDS := 8

  function Newer(rounds: set<int>, ts: int): set<int> { set u | u in rounds && u > ts }

  /** trimRounds: the newest MAX_CARRIED_ROUNDS rounds survive. */
  function Trim(f: Feed): Feed {
    f.(rounds := map ts | ts in f.rounds && Recent(f.rounds.Keys, ts) :: f.rounds[ts])
  }

  /** Fewer than MAX_CARRIED_ROUNDS rounds are newer. */
  predicate Recent(rounds: set<int>, ts: int) { |Newer(rounds, ts)| < MAX_CARRIED_ROUNDS }

  function MaxOf(s: set<int>): (m: int)
    requires s != {}
    ensures m in s && forall x :: x in s ==> x <= m
  {
    MaxExists(s);
    var m :| m in s && forall x | x in s :: x <= m;
    m
  }

  ghost function Member<T>(s: set<T>): (x: T)
    requires s != {}
    ensures x in s
  {
    var x :| x in s; x
  }

  lemma {:induction false} MaxExists(s: set<int>)
    requires s != {}
    ensures exists m :: m in s && forall x | x in s :: x <= m
  {
    var x := Member(s);
    if s != {x} {
      MaxExists(s - {x});
      var m :| m in s - {x} && forall y | y in s - {x} :: y <= m;
      var top := Max(m, x);
      forall y | y in s ensures y <= top {
        assert y == x || y in s - {x};
      }
      assert top in s && forall y | y in s :: y <= top;
    } else {
      assert x in s && forall y | y in s :: y <= x;
    }
  }

  /** Round stamps, newest first. */
  function Descending(s: set<int>): (r: seq<int>)
    ensures |r| == |s|
    ensures forall x :: x in r <==> x in s
  {
    if s == {} then [] else [MaxOf(s)] + Descending(s - {MaxOf(s)})
  }

  lemma {:induction false} DescendingPosition(s: set<int>, i: nat)
    requires i < |s|
    ensures |Newer(s, Descending(s)[i])| == i
  {
    var m := MaxOf(s);
    var t := Descending(s)[i];
    if i == 0 {
      assert Newer(s, t) == {};
    } else {
      DescendingPosition(s - {m}, i - 1);
      assert Descending(s - {m})[i - 1] in Descending(s - {m});
      assert Newer(s, t) == Newer(s - {m}, t) + {m};
    }
  }

  /** The stamps past the first MAX_CARRIED_ROUNDS are the ones that are not recent. */
  lemma TailIsOld(s: set<int>, ts: int)
    requires ts in s && |s| >= MAX_CARRIED_ROUNDS
    ensures ts in Descending(s)[MAX_CARRIED_ROUNDS..] <==> !Recent(s, ts)
  {
    var stamps := Descending(s);
    hide Descending;
    var tail := stamps[MAX_CARRIED_ROUNDS..];
    if ts in tail {
      var j :| 0 <= j < |tail| && tail[j] == ts;
      DescendingPosition(s, MAX_CARRIED_ROUNDS + j);
    } else {
      var i :| 0 <= i < |stamps| && stamps[i] == ts;
      DescendingPosition(s, i);
      assert forall m :: MAX_CARRIED_ROUNDS <= m < |stamps| ==> stamps[m] in tail;
    }
  }

  lemma AllRecent(f: Feed)
    requires |f.rounds| <= MAX_CARRIED_ROUNDS
    ensures Trim(f) == f
  {
    assert |f.rounds.Keys| == |f.rounds|;
    forall ts | ts in f.rounds ensures Recent(f.rounds.Keys, ts) {
      FewNewer(f.rounds.Keys, ts);
    }
    assert Trim(f).rounds == f.rounds;
  }

  /** trimRounds as the decoder runs it: sort the stamps newest first and delete the tail. */
  method TrimRounds(f: Feed) returns (g: Feed)
    ensures g == Trim(f)
  {
    if |f.rounds| <= MAX_CARRIED_ROUNDS {
      AllRecent(f);
      return f;
    }
    var stamps := Descending(f.rounds.Keys);
    assert |f.rounds.Keys| == |f.rounds|;
    var rounds := DeleteRounds(f.rounds, stamps[MAX_CARRIED_ROUNDS..]);
    forall ts | ts in f.rounds ensures ts in stamps[MAX_CARRIED_ROUNDS..] <==> !Recent(f.rounds.Keys, ts) {
      TailIsOld(f.rounds.Keys, ts);
    }
    assert rounds == Trim(f).rounds;
    g := f.(rounds := rounds);
  }

  method DeleteRounds(all: map<int, map<int, int>>, stamps: seq<int>) returns (rounds: map<int, map<int, int>>)
    ensures rounds == map ts | ts in all && ts !in stamps :: all[ts]
  {
    rounds := all;
    for n := 0 to |stamps|
      invariant rounds == map ts | ts in all && ts !in stamps[..n] :: all[ts]
    {
      assert stamps[..n + 1] == stamps[..n] + [stamps[n]];
      rounds := rounds - {stamps[n]};
    }
    assert stamps[..|stamps|] == stamps;
  }

  lemma FewNewer(s: set<int>, ts: int)
    requires ts in s
    ensures |Newer(s, ts)| < |s|
  {
    assert Newer(s, ts) <= s - {ts};
    SubsetSmaller(Newer(s, ts), s - {ts});
  }

  lemma {:induction false} SubsetSmaller<T>(a: set<T>, b: set<T>)
    requires a <= b
    ensures |a| <= |b|
  {
    if x :| x in a {
      SubsetSmaller(a - {x}, b - {x});
    }
  }

  // ---- the price walk --------------------------------------------------------------------------

  /** positivePrice */
  function PositivePrice(f: Feed, ts: int, index: int): Option<int> {
    if ts in f.rounds && index in f.rounds[ts] && f.rounds[ts][index] > 0 then Some(f.rounds[ts][index]) else None
  }

  /** Walk back from t one resolution at a time while inside the staleness window. */
  function SeekNewest(f: Feed, index: int, t: int, step: int, oldestS: int): Option<int>
    requires step > 0
    decreases t
  {
    if t <= 0 || t / 1000 < oldestS then None
    else if PositivePrice(f, t, index).Some? then Some(t)
    else SeekNewest(f, index, t - step, step, oldestS)
  }

  /** Walk back at most n steps from t for an older price. */
  function SeekOlder(f: Feed, index: int, t: int, step: int, n: int): Option<int>
    decreases if n > 0 then n else 0
  {
    if n <= 0 || t <= 0 then None
    else if PositivePrice(f, t, index).Some? then Some(t)
    else SeekOlder(f, index, t - step, step, n - 1)
  }

  function Abs(x: int): int { if x < 0 then -x else x }

  function Power10(n: nat): (p: nat)
    ensures p > 0
  {
    if n == 0 then 1 else 10 * Power10(n - 1)
  }

  /** rescalePrice on a positive price. */
  function Rescale(price: int, from: int, to: int): int {
    if from > to then price / Power10(from - to) else price * Power10(to - from)
  }

  predicate GuardActive(maxDev: int) { 0 < maxDev < 100 }

  predicate WithinDeviation(price: int, base: int, maxDev: int) { Abs(price - base) <= base * maxDev / 100 }

  function NowS(f: Feed, closeTime: Option<int>): int {
    if closeTime.Some? then closeTime.value else f.lastRoundMs / 1000
  }

  /** resolveFeedPrice once the feed and the asset's index in it are known. */
  function FeedPrice(f: Feed, index: int, ref: FeedRef, maxAgeS: int, maxDev: int, toDecimals: int, closeTime: Option<int>)
    : Option<int>
    requires ref.resolutionS > 0
  {
    if f.lastRoundMs <= 0 then None
    else
      var step := ref.resolutionS * 1000;
      var found := SeekNewest(f, index, f.lastRoundMs, step, NowS(f, closeTime) - maxAgeS);
      if found.None? then None
      else
        var price := PositivePrice(f, found.value, index);
        if price.None? then None
        else if !GuardActive(maxDev) then Some(Rescale(price.value, ref.decimals, toDecimals))
        else
          var older := SeekOlder(f, index, found.value - step, step, maxAgeS / ref.resolutionS);
          if older.None? then None
          else
            var base := PositivePrice(f, older.value, index);
            if base.Some? && WithinDeviation(price.value, base.value, maxDev)
            then Some(Rescale(price.value, ref.decimals, toDecimals)) else None
  }

  /** The walk as the decoder runs it: two loops over a decreasing timestamp. */
  method WalkFeedPrice(f: Feed, index: int, ref: FeedRef, maxAgeS: int, maxDev: int, toDecimals: int,
                       closeTime: Option<int>)
    returns (r: Option<int>)
    requires ref.resolutionS > 0
    ensures r == FeedPrice(f, index, ref, maxAgeS, maxDev, toDecimals, closeTime)
  {
    if f.lastRoundMs <= 0 { return None; }
    var nowS := f.lastRoundMs / 1000;
    if closeTime.Some? { nowS := closeTime.value; }
    var oldestS := nowS - maxAgeS;
    var resolutionMs := ref.resolutionS * 1000;
    var found := None;
    var foundTs := 0;
    var t := f.lastRoundMs;
    while t > 0 && t / 1000 >= oldestS
      invariant foundTs == 0 && found == None
      invariant SeekNewest(f, index, f.lastRoundMs, resolutionMs, oldestS) == SeekNewest(f, index, t, resolutionMs, oldestS)
      decreases t
    {
      var price := PositivePrice(f, t, index);
      if price.Some? {
        found, foundTs := price, t;
        break;
      }
      t := t - resolutionMs;
    }
    if foundTs == 0 { return None; }
    if maxDev > 0 && maxDev < 100 {
      var base := None;
      var maxSteps := maxAgeS / ref.resolutionS;
      t := foundTs - resolutionMs;
      var step := 0;
      while step < maxSteps && t > 0
        invariant base == None
        invariant SeekOlder(f, index, foundTs - resolutionMs, resolutionMs, maxSteps)
                  == SeekOlder(f, index, t, resolutionMs, maxSteps - step)
      {
        base := PositivePrice(f, t, index);
        if base.Some? { break; }
        t := t - resolutionMs;
        step := step + 1;
      }
      if base == None { return None; }
      var diff := Abs(found.value - base.value);
      var limit := base.value * maxDev / 100;
      if diff > limit { return None; }
    }
    r := Some(Rescale(found.value, ref.decimals, toDecimals));
  }

  // ---- when a price is served ------------------------------------------------------------------

  /** The round at t holds a positive price of the asset. */
  predicate Priced(f: Feed, t: int, index: int) { t in f.rounds && index in f.rounds[t] && f.rounds[t][index] > 0 }

  /** t is the newest grid point at or below `from` with a positive price, and it is inside the window. */
  ghost predicate IsNewestPrice(f: Feed, index: int, from: int, step: int, oldestS: int, k: nat) {
    && from - k * step > 0 && (from - k * step) / 1000 >= oldestS
    && Priced(f, from - k * step, index)
    && forall j :: 0 <= j < k ==> !Priced(f, from - j * step, index)
  }

  lemma {:induction false} SeekNewestExact(f: Feed, index: int, from: int, step: int, oldestS: int, t: int)
    requires step > 0
    ensures SeekNewest(f, index, from, step, oldestS) == Some(t) <==>
            exists k: nat :: t == from - k * step && IsNewestPrice(f, index, from, step, oldestS, k)
    decreases from
  {
    if from <= 0 || from / 1000 < oldestS {
      forall k: nat ensures !IsNewestPrice(f, index, from, step, oldestS, k) {
        assert k * step >= 0;
      }
    } else if PositivePrice(f, from, index).Some? {
      assert from - 0 * step == from;
      assert IsNewestPrice(f, index, from, step, oldestS, 0);
      forall k: nat | k > 0 ensures !IsNewestPrice(f, index, from, step, oldestS, k) {
        assert Priced(f, from - 0 * step, index);
      }
    } else {
      SeekNewestExact(f, index, from - step, step, oldestS, t);
      assert !IsNewestPrice(f, index, from, step, oldestS, 0) by { assert from - 0 * step == from; }
      if k: nat :| t == from - step - k * step && IsNewestPrice(f, index, from - step, step, oldestS, k) {
        assert (k + 1) * step == k * step + step;
        ShiftNewest(f, index, from, step, oldestS, k);
        assert t == from - (k + 1) * step && IsNewestPrice(f, index, from, step, oldestS, k + 1);
      }
      if k: nat :| t == from - k * step && IsNewestPrice(f, index, from, step, oldestS, k) {
        assert k > 0;
        assert k * step == (k - 1) * step + step;
        ShiftNewest(f, index, from, step, oldestS, k - 1);
        assert t == from - step - (k - 1) * step && IsNewestPrice(f, index, from - step, step, oldestS, k - 1);
      }
    }
  }

  lemma ShiftNewest(f: Feed, index: int, from: int, step: int, oldestS: int, k: nat)
    requires !Priced(f, from, index)
    ensures IsNewestPrice(f, index, from, step, oldestS, k + 1) <==> IsNewestPrice(f, index, from - step, step, oldestS, k)
  {
    assert from - (k + 1) * step == from - step - k * step;
    if IsNewestPrice(f, index, from, step, oldestS, k + 1) {
      forall j | 0 <= j < k ensures !Priced(f, from - step - j * step, index) {
        assert from - (j + 1) * step == from - step - j * step;
      }
    }
    if IsNewestPrice(f, index, from - step, step, oldestS, k) {
      forall j | 0 <= j < k + 1 ensures !Priced(f, from - j * step, index) {
        if j > 0 { assert from - j * step == from - step - (j - 1) * step; } else { assert from - j * step == from; }
      }
    }
  }

  /** SeekOlder is the same walk with a step budget instead of a window. */
  ghost predicate IsNewestWithin(f: Feed, index: int, from: int, step: int, n: int, k: nat) {
    k < n && IsNewestPrice(f, index, from, step, 0, k)
  }

  lemma {:induction false} SeekOlderExact(f: Feed, index: int, from: int, step: int, n: int, t: int)
    requires step > 0
    ensures SeekOlder(f, index, from, step, n) == Some(t) <==>
            exists k: nat :: t == from - k * step && IsNewestWithin(f, index, from, step, n, k)
    decreases if n > 0 then n else 0
  {
    if n <= 0 {
    } else if from <= 0 {
      forall k: nat ensures !IsNewestPrice(f, index, from, step, 0, k) {
        assert k * step >= 0;
      }
    } else if PositivePrice(f, from, index).Some? {
      assert from - 0 * step == from;
      assert IsNewestWithin(f, index, from, step, n, 0);
      forall k: nat | k > 0 ensures !IsNewestPrice(f, index, from, step, 0, k) {
        assert Priced(f, from - 0 * step, index);
      }
    } else {
      SeekOlderExact(f, index, from - step, step, n - 1, t);
      assert !IsNewestPrice(f, index, from, step, 0, 0) by { assert from - 0 * step == from; }
      if k: nat :| t == from - step - k * step && IsNewestWithin(f, index, from - step, step, n - 1, k) {
        ShiftNewest(f, index, from, step, 0, k);
        assert t == from - (k + 1) * step && IsNewestWithin(f, index, from, step, n, k + 1);
      }
      if k: nat :| t == from - k * step && IsNewestWithin(f, index, from, step, n, k) {
        assert k > 0;
        ShiftNewest(f, index, from, step, 0, k - 1);
        assert t == from - step - (k - 1) * step && IsNewestWithin(f, index, from - step, step, n - 1, k - 1);
      }
    }
  }

  /** The deviation guard, given the newest price at t: the next older price within the step budget exists and the
      newest is within maxDev percent of it. */
  ghost predicate PassesGuard(f: Feed, index: int, t: int, step: int, budget: int, maxDev: int) {
    exists k: nat :: IsNewestWithin(f, index, t - step, step, budget, k) && Priced(f, t, index) &&
      var price, base := f.rounds[t][index], f.rounds[t - step - k * step][index];
      -(base * maxDev) <= 100 * (price - base) <= base * maxDev
  }

  /** p is the raw price in units of the other precision, cut down to whole units when that is the coarser one. */
  ghost predicate SamePriceIn(p: int, raw: int, from: int, to: int) {
    if from > to then p * Power10(from - to) <= raw < (p + 1) * Power10(from - to) else p == raw * Power10(to - from)
  }

  lemma PowersOfTen(n: nat)
    ensures Power10(0) == 1 && Power10(n + 1) == 10 * Power10(n)
    ensures Power10(7) == 10_000_000
  {
    assert Power10(3) == 1000;
  }

  lemma RescaledExactly(raw: int, from: int, to: int, p: int)
    ensures SamePriceIn(p, raw, from, to) <==> p == Rescale(raw, from, to)
  {
    if from > to { WholeUnits(raw, Power10(from - to), p); }
  }

  lemma WholeUnits(raw: int, unit: nat, p: int)
    requires unit > 0
    ensures p * unit <= raw < (p + 1) * unit <==> p == raw / unit
  {
    var q := raw / unit;
    assert q * unit <= raw < (q + 1) * unit;
    if p < q { MultiplesInOrder(p + 1, q, unit); }
    if q < p { MultiplesInOrder(q + 1, p, unit); }
  }

  lemma MultiplesInOrder(x: int, y: int, unit: nat)
    requires x <= y
    ensures x * unit <= y * unit
  {
  }

  /** resolveFeedPrice serves a price exactly when the newest positive grid price inside MaxAge exists and, under an
      active guard, the next older one does and is close enough; what it serves is that price in the aggregator's
      precision. */
  lemma PriceServedExactly(f: Feed, index: int, ref: FeedRef, maxAgeS: int, maxDev: int, toDecimals: int,
                           closeTime: Option<int>, p: int)
    requires ref.resolutionS > 0
    ensures FeedPrice(f, index, ref, maxAgeS, maxDev, toDecimals, closeTime) == Some(p) <==>
            exists k: nat ::
              var step, last := ref.resolutionS * 1000, f.lastRoundMs;
              var nowS := if closeTime.Some? then closeTime.value else last / 1000;
              && IsNewestPrice(f, index, last, step, nowS - maxAgeS, k)
              && (0 < maxDev < 100 ==> PassesGuard(f, index, last - k * step, step, maxAgeS / ref.resolutionS, maxDev))
              && SamePriceIn(p, f.rounds[last - k * step][index], ref.decimals, toDecimals)
  {
    hide Rescale, SamePriceIn;
    var step, last, oldestS := ref.resolutionS * 1000, f.lastRoundMs, NowS(f, closeTime) - maxAgeS;
    var found := SeekNewest(f, index, last, step, oldestS);
    forall k: nat | IsNewestPrice(f, index, last, step, oldestS, k) ensures last > 0 && found == Some(last - k * step) {
      assert k * step >= 0;
      SeekNewestExact(f, index, last, step, oldestS, last - k * step);
    }
    if last > 0 && found.Some? {
      var t := found.value;
      SeekNewestExact(f, index, last, step, oldestS, t);
      GuardExact(f, index, t, step, maxAgeS / ref.resolutionS, maxDev);
      RescaledExactly(f.rounds[t][index], ref.decimals, toDecimals, p);
    }
  }

  /** A price in 14 decimals is served in 7: 0.12 is 12_000_000_000_000 in the feed and 1_200_000 in the aggregator. */
  lemma FourteenDecimalsInSeven()
    ensures FeedPrice(Feed(14, 300_000, map[], map[300_000 := map[0 := 12_000_000_000_000]]), 0,
                      FeedRef(0, "feed", 14, 300), 900, 0, 7, None) == Some(1_200_000)
  {
    PowersOfTen(0);
  }

  lemma GuardExact(f: Feed, index: int, t: int, step: int, budget: int, maxDev: int)
    requires step > 0
    ensures PassesGuard(f, index, t, step, budget, maxDev) <==>
            (var older := SeekOlder(f, index, t - step, step, budget);
             older.Some? &&
             var price, base := PositivePrice(f, t, index), PositivePrice(f, older.value, index);
             price.Some? && base.Some? && WithinDeviation(price.value, base.value, maxDev))
  {
    var older := SeekOlder(f, index, t - step, step, budget);
    forall k: nat | IsNewestWithin(f, index, t - step, step, budget, k) ensures older == Some(t - step - k * step) {
      SeekOlderExact(f, index, t - step, step, budget, t - step - k * step);
    }
    if older.Some? {
      SeekOlderExact(f, index, t - step, step, budget, older.value);
    }
  }
}
