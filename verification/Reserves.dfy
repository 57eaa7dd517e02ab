/** A pool's reserves, the index map published from them, and the resolution of a user's position legs
    through that map. */
module Reserves {
  import opened Options
  import opened Keys
  import opened Slices

  /** The optional fields of ResConfig, ResData and the emission entries. A field that was never decoded is
      absent from the reserve's map. The emission fields are kept per side. */
  datatype ReserveField =
    | Decimals | CFactor | LFactor | Util | MaxUtil | RBase | ROne | RTwo | RThree | SupplyCap | Reactivity | Enabled
    | DRate | BRate | IrMod | BSupply | DSupply | BackstopCredit | LastTime
    | EmisEps(side: int) | EmisExpiration(side: int) | EmisIndex(side: int) | EmisLastTime(side: int)

  type Fields = map<ReserveField, string>

  datatype Reserve = Reserve(asset: string, index: int, indexKnown: bool, fields: Fields,
                             price: Option<int>, priceDecimals: int, archived: bool, archivedSeq: int)

  function NewReserve(asset: string): Reserve {
    Reserve(asset, 0, false, map[], None, 0, false, 0)
  }

  function ReserveKey(r: Reserve): Key { Contract(r.asset) }

  function ReserveOrder(r: Reserve): Key { IndexOf(r.index, r.asset) }

  /** The published reserve slice, ordered by (index, asset). */
  function ReserveSlice(m: map<Key, Reserve>): seq<Reserve> {
    SortBy(Slice(m), ReserveOrder)
  }

  // ---- the known-unique rule -------------------------------------------------------------------

  /** The assets of the reserves whose decoded config claims an index, in slice order. */
  function Claimants(rs: seq<Reserve>, i: int): seq<string> {
    if rs == [] then []
    else Claimants(rs[..|rs| - 1], i) +
         (var r := rs[|rs| - 1]; if r.indexKnown && r.index == i then [r.asset] else [])
  }

  function KnownIndexes(rs: seq<Reserve>): set<int> {
    set r | r in rs && r.indexKnown :: r.index
  }

  /** Only known indexes with a single claimant resolve. */
  function Published(rs: seq<Reserve>): map<int, string> {
    map i | i in KnownIndexes(rs) && |Claimants(rs, i)| == 1 :: Claimants(rs, i)[0]
  }

  function Ambiguous(rs: seq<Reserve>): map<int, seq<string>> {
    map i | i in KnownIndexes(rs) && |Claimants(rs, i)| != 1 :: Claimants(rs, i)
  }

  function TextKey(s: string): Key { Contract(s) }

  function UnknownOf(rs: seq<Reserve>): seq<string> {
    if rs == [] then []
    else UnknownOf(rs[..|rs| - 1]) + (if rs[|rs| - 1].indexKnown then [] else [rs[|rs| - 1].asset])
  }

  function Unknown(rs: seq<Reserve>): seq<string> {
    SortBy(UnknownOf(rs), TextKey)
  }

  lemma {:induction false} ClaimantsKnown(rs: seq<Reserve>, i: int)
    ensures Claimants(rs, i) != [] <==> i in KnownIndexes(rs)
    ensures forall a :: a in Claimants(rs, i) <==> exists r :: r in rs && r.indexKnown && r.index == i && r.asset == a
  {
    if rs != [] {
      var t, l := rs[..|rs| - 1], rs[|rs| - 1];
      ClaimantsKnown(t, i);
      assert rs == t + [l];
      forall a ensures a in Claimants(rs, i) <==> exists r :: r in rs && r.indexKnown && r.index == i && r.asset == a {
        if a in Claimants(t, i) {
          var r :| r in t && r.indexKnown && r.index == i && r.asset == a;
          assert r in rs;
        }
        if l.indexKnown && l.index == i && l.asset == a { assert l in rs; }
      }
    }
  }

  /** A published index belongs to exactly one reserve of the slice, and to the asset it names. */
  lemma PublishedUnique(rs: seq<Reserve>, i: int)
    requires i in Published(rs)
    ensures exists r :: r in rs && r.indexKnown && r.index == i && r.asset == Published(rs)[i]
    ensures forall r :: r in rs && r.indexKnown && r.index == i ==> r.asset == Published(rs)[i]
  {
    ClaimantsKnown(rs, i);
    var c := Claimants(rs, i);
    assert c[0] in c;
    forall r | r in rs && r.indexKnown && r.index == i ensures r.asset == c[0] {
      assert r.asset in c;
    }
  }

  /** With one reserve per asset the published map is injective: a row's asset names its leg. */
  lemma PublishedInjective(rs: seq<Reserve>, i: int, j: int)
    requires DistinctKeys(rs, ReserveKey)
    requires i in Published(rs) && j in Published(rs) && Published(rs)[i] == Published(rs)[j]
    ensures i == j
  {
    PublishedUnique(rs, i);
    PublishedUnique(rs, j);
    DistinctDetermines(rs, ReserveKey);
    var r :| r in rs && r.indexKnown && r.index == i && r.asset == Published(rs)[i];
    var q :| q in rs && q.indexKnown && q.index == j && q.asset == Published(rs)[j];
    assert ReserveKey(r) == ReserveKey(q);
  }

  // ---- the three loops of the decoder that apply the rule --------------------------------------

  method CountClaimants(rs: seq<Reserve>) returns (knownCount: map<int, nat>)
    ensures knownCount.Keys == KnownIndexes(rs)
    ensures forall i :: i in knownCount ==> knownCount[i] == |Claimants(rs, i)|
  {
    knownCount := map[];
    for n := 0 to |rs|
      invariant knownCount.Keys == KnownIndexes(rs[..n])
      invariant forall i :: i in knownCount ==> knownCount[i] == |Claimants(rs[..n], i)|
    {
      var r := rs[n];
      assert rs[..n + 1][..n] == rs[..n];
      KnownIndexesStep(rs, n);
      if r.indexKnown {
        ClaimantsKnown(rs[..n], r.index);
        knownCount := knownCount[r.index := (if r.index in knownCount then knownCount[r.index] else 0) + 1];
      }
    }
    assert rs[..|rs|] == rs;
  }

  lemma SoleClaimant(rs: seq<Reserve>, r: Reserve)
    requires r in rs && r.indexKnown
    ensures r.index in KnownIndexes(rs)
    ensures r.index in Published(rs) <==> |Claimants(rs, r.index)| == 1
    ensures r.index in Published(rs) ==> Published(rs)[r.index] == r.asset
  {
    ClaimantsKnown(rs, r.index);
    assert r.asset in Claimants(rs, r.index);
  }

  /** A map built from known reserves that agrees with the published one wherever it resolves. */
  lemma SameAsPublished(rs: seq<Reserve>, out: map<int, string>)
    requires forall i :: i in out ==> i in Published(rs) && out[i] == Published(rs)[i]
    requires forall m :: 0 <= m < |rs| && rs[m].indexKnown && rs[m].index in Published(rs) ==> rs[m].index in out
    ensures out == Published(rs)
  {
    forall i | i in Published(rs) ensures i in out {
      PublishedUnique(rs, i);
      var r :| r in rs && r.indexKnown && r.index == i && r.asset == Published(rs)[i];
      var m :| 0 <= m < |rs| && rs[m] == r;
    }
    var published := Published(rs);
    assert forall i :: i in published ==> i in out;
    assert forall i :: i in out ==> i in published;
    assert out.Keys == published.Keys;
  }

  /** publishedReserveIndexes: count the claimants, then keep the indexes with one. */
  method PublishedReserveIndexes(rs: seq<Reserve>) returns (out: map<int, string>)
    ensures out == Published(rs)
  {
    var knownCount := CountClaimants(rs);
    out := map[];
    for n := 0 to |rs|
      invariant forall i :: i in out ==> i in Published(rs) && out[i] == Published(rs)[i]
      invariant forall m :: 0 <= m < n && rs[m].indexKnown && rs[m].index in Published(rs) ==> rs[m].index in out
    {
      var r := rs[n];
      assert r in rs;
      if r.indexKnown {
        SoleClaimant(rs, r);
        if knownCount[r.index] == 1 {
          out := out[r.index := r.asset];
        }
      }
    }
    SameAsPublished(rs, out);
  }

  lemma KnownIndexesStep(rs: seq<Reserve>, n: nat)
    requires n < |rs|
    ensures KnownIndexes(rs[..n + 1]) == KnownIndexes(rs[..n]) + (if rs[n].indexKnown then {rs[n].index} else {})
    ensures KnownIndexes(rs[..n]) <= KnownIndexes(rs)
    ensures rs[n].indexKnown ==> rs[n].index in KnownIndexes(rs)
  {
    assert rs[..n + 1] == rs[..n] + [rs[n]];
    assert forall r :: r in rs[..n] ==> r in rs;
    assert rs[n] in rs;
  }

  /** The sole claims among the first n reserves of the slice are filed. */
  ghost predicate SoleFiled(rs: seq<Reserve>, n: nat, byIndex: map<int, string>)
    requires n <= |rs|
  {
    && (forall i :: i in byIndex ==> i in Published(rs) && byIndex[i] == Published(rs)[i])
    && (forall m :: 0 <= m < n && rs[m].indexKnown && rs[m].index in Published(rs) ==> rs[m].index in byIndex)
  }

  /** The shared claims among the first n reserves of the slice are filed. */
  ghost predicate SharedFiled(rs: seq<Reserve>, n: nat, ambiguous: map<int, seq<string>>)
    requires n <= |rs|
  {
    && (forall i :: i in ambiguous <==> i in KnownIndexes(rs[..n]) && |Claimants(rs, i)| != 1)
    && (forall i :: i in ambiguous ==> ambiguous[i] == Claimants(rs[..n], i))
  }

  lemma AllSharedFiled(rs: seq<Reserve>, ambiguous: map<int, seq<string>>)
    requires SharedFiled(rs, |rs|, ambiguous)
    ensures ambiguous == Ambiguous(rs)
  {
    hide Claimants, KnownIndexes;
    assert rs[..|rs|] == rs;
    var shared := Ambiguous(rs);
    assert forall i :: i in ambiguous <==> i in shared;
    assert ambiguous.Keys == shared.Keys;
  }

  /** The three products of finalizePoolReserves, from one pass over the sorted slice after counting the claimants. */
  method IndexReserves(rs: seq<Reserve>)
    returns (byIndex: map<int, string>, ambiguous: map<int, seq<string>>, unknown: seq<string>)
    ensures byIndex == Published(rs) && ambiguous == Ambiguous(rs) && unknown == Unknown(rs)
  {
    hide SharedFiled, Published, Ambiguous, Claimants;
    var knownCount := CountClaimants(rs);
    byIndex, ambiguous, unknown := map[], map[], [];
    NoneShared(rs);
    for n := 0 to |rs|
      invariant SoleFiled(rs, n, byIndex) && SharedFiled(rs, n, ambiguous) && unknown == UnknownOf(rs[..n])
    {
      var r := rs[n];
      KnownIndexesStep(rs, n);
      ShareOne(rs, n, ambiguous);
      assert rs[..n + 1][..n] == rs[..n];
      if !r.indexKnown {
        unknown := unknown + [r.asset];
      } else {
        SoleClaimant(rs, r);
        if knownCount[r.index] == 1 {
          byIndex := byIndex[r.index := r.asset];
        } else {
          ambiguous := ambiguous[r.index := (if r.index in ambiguous then ambiguous[r.index] else []) + [r.asset]];
        }
      }
    }
    assert rs[..|rs|] == rs;
    SameAsPublished(rs, byIndex);
    AllSharedFiled(rs, ambiguous);
    unknown := SortBy(unknown, TextKey);
  }

  lemma NoneShared(rs: seq<Reserve>)
    ensures SharedFiled(rs, 0, map[])
  {
  }

  lemma OneMoreClaim(rs: seq<Reserve>, n: nat, i: int)
    requires n < |rs|
    ensures Claimants(rs[..n + 1], i)
         == Claimants(rs[..n], i) + (if rs[n].indexKnown && rs[n].index == i then [rs[n].asset] else [])
    ensures i !in KnownIndexes(rs[..n]) ==> Claimants(rs[..n], i) == []
  {
    assert rs[..n + 1][..n] == rs[..n] && rs[..n + 1][n] == rs[n];
    ClaimantsKnown(rs[..n], i);
  }

  lemma ShareOne(rs: seq<Reserve>, n: nat, ambiguous: map<int, seq<string>>)
    requires n < |rs| && SharedFiled(rs, n, ambiguous)
    ensures var i := rs[n].index;
      SharedFiled(rs, n + 1,
                  if rs[n].indexKnown && |Claimants(rs, i)| != 1
                  then ambiguous[i := (if i in ambiguous then ambiguous[i] else []) + [rs[n].asset]]
                  else ambiguous)
  {
    hide Claimants, KnownIndexes;
    KnownIndexesStep(rs, n);
    forall i { OneMoreClaim(rs, n, i); }
  }

  /** config_state.go's reserveByIndex: scan for the claimants of one index. */
  method ReserveByIndex(rs: seq<Reserve>, index: int) returns (found: Option<Reserve>)
    ensures found.Some? <==> index in Published(rs)
    ensures found.Some? ==> found.value in rs && found.value.asset == Published(rs)[index] && found.value.indexKnown
                            && found.value.index == index
  {
    var last := None;
    var claimants := 0;
    for n := 0 to |rs|
      invariant claimants == |Claimants(rs[..n], index)|
      invariant claimants > 0 ==> last.Some? && last.value in rs && last.value.indexKnown && last.value.index == index
                                  && last.value.asset == Claimants(rs[..n], index)[claimants - 1]
    {
      assert rs[..n + 1][..n] == rs[..n];
      if rs[n].indexKnown && rs[n].index == index {
        last := Some(rs[n]);
        claimants := claimants + 1;
      }
    }
    assert rs[..|rs|] == rs;
    ClaimantsKnown(rs, index);
    found := if claimants != 1 then None else last;
  }

  // ---- pools -----------------------------------------------------------------------------------

  datatype PoolField = TakeRate | MaxPositions | MinCollateral | PoolName | PoolAdmin | BlndToken

  /** A pool's BEmisData entry; a field is "" when absent. */
  datatype Emis = Emis(eps: string, expiration: string, index: string, lastTime: string) {
    predicate Empty() { eps == "" && expiration == "" && index == "" && lastTime == "" }
  }

  const NO_EMIS := Emis("", "", "", "")

  /** A pool's PoolBalance entry. */
  datatype Balance = Balance(shares: string, tokens: string, q4w: string) {
    predicate Empty() { shares == "" && tokens == "" && q4w == "" }
  }

  datatype PoolInfo = PoolInfo(contract: string, backstop: string, oracle: string, wasmHash: string, status: string,
                               fields: map<PoolField, string>, emissions: Option<seq<(int, string)>>,
                               balance: Balance, emis: Emis)

  /** The typed pool of a ledger state. */
  datatype PoolState = PoolState(info: PoolInfo, reserves: seq<Reserve>)

  /** poolBuilder: the typed pool being decoded, its reserves by asset, and the three products of
      finalizePoolReserves. */
  datatype Pool = Pool(info: PoolInfo, reserves: map<Key, Reserve>, byIndex: map<int, string>,
                       ambiguous: map<int, seq<string>>, unknown: seq<string>)

  function NewPool(id: string): Pool {
    Pool(PoolInfo(id, "", "", "", "unknown", map[], None, Balance("", "", ""), NO_EMIS), map[], map[], map[], [])
  }

  /** finalizePoolReserves. */
  function Finalize(p: Pool): Pool {
    var rs := ReserveSlice(p.reserves);
    p.(byIndex := Published(rs), ambiguous := Ambiguous(rs), unknown := Unknown(rs))
  }

  /** The three products are those of the current reserves. */
  ghost predicate Fresh(p: Pool) { p == Finalize(p) }

  function PublishPool(p: Pool): PoolState { PoolState(p.info, ReserveSlice(p.reserves)) }

  function LoadPool(s: PoolState): Pool {
    Finalize(Pool(s.info, IndexBy(s.reserves, ReserveKey), map[], map[], []))
  }

  function PoolKey(s: PoolState): Key { Contract(s.info.contract) }

  lemma ReserveSliceFacts(m: map<Key, Reserve>)
    requires KeyedBy(m, ReserveKey)
    ensures DistinctKeys(ReserveSlice(m), ReserveKey)
    ensures IndexBy(ReserveSlice(m), ReserveKey) == m
    ensures forall r :: r in ReserveSlice(m) <==> ReserveKey(r) in m && m[ReserveKey(r)] == r
  {
    var s := ReserveSlice(m);
    IndexOfRearranged(m, s, ReserveKey);
    SliceFacts(m, ReserveKey);
    forall r ensures r in s <==> ReserveKey(r) in m && m[ReserveKey(r)] == r {
      if r in s { IndexByFind(s, ReserveKey, r); }
      if ReserveKey(r) in m && m[ReserveKey(r)] == r {
        var x := IndexByFrom(s, ReserveKey, ReserveKey(r));
        IndexByFind(s, ReserveKey, x);
      }
    }
  }

  /** A finalized pool is restored exactly from the typed pool it published. */
  lemma PoolRoundTrip(p: Pool)
    requires Fresh(p) && KeyedBy(p.reserves, ReserveKey)
    ensures LoadPool(PublishPool(p)) == p
  {
    ReserveSliceFacts(p.reserves);
  }

  lemma NewPoolFresh(id: string)
    ensures Fresh(NewPool(id)) && KeyedBy(NewPool(id).reserves, ReserveKey)
  {
    var e: map<Key, Reserve> := map[];
    assert Ascending(e.Keys) == [];
    assert Slice(e) == [];
    assert Published([]) == map[] && Ambiguous([]) == map[];
  }

  // ---- position legs ---------------------------------------------------------------------------

  datatype Leg = Leg(index: int, amount: string)

  datatype PositionsValue = PositionsValue(supply: seq<Leg>, collateral: seq<Leg>, liabilities: seq<Leg>)

  predicate DistinctIndexes(legs: seq<Leg>) {
    forall i, j :: 0 <= i < j < |legs| ==> legs[i].index != legs[j].index
  }

  /** A decoded Positions entry: three maps from reserve index to amount. A map has each index once. */
  type Positions = p: PositionsValue |
    DistinctIndexes(p.supply) && DistinctIndexes(p.collateral) && DistinctIndexes(p.liabilities)
    witness PositionsValue([], [], [])

  /** A carried Positions entry. `blob` is None when the carried text does not decode; "" is such a text. */
  datatype Pending = Pending(user: string, pool: string, blob: Option<Positions>, archived: bool, archivedSeq: int)

  function PendingKey(p: Pending): Key { Pair(p.user, p.pool) }

  datatype Row = Row(address: string, pool: string, asset: string, kind: string, bTokens: string, dTokens: string,
                     archived: bool, archivedSeq: int)

  function RowKey(r: Row): Key { RowOf(r.address, r.pool, r.asset, r.kind) }

  datatype Diagnostic = Diagnostic(seqNum: int, code: string, pool: string, address: string, kind: string, index: int,
                                   amount: string, candidates: seq<string>)

  const SUPPLY := "supply"
  const COLLATERAL := "collateral"
  const LIABILITY := "liability"
  const DUPLICATE_INDEX := "duplicate_reserve_index"
  const UNMAPPED_INDEX := "unmapped_reserve_index"

  function Join(parts: seq<string>): string {
    if parts == [] then "" else if |parts| == 1 then parts[0] else parts[0] + "|" + Join(parts[1..])
  }

  function DiagnosticKey(d: Diagnostic): Key {
    DiagnosticOf(d.code, d.pool, d.address, d.kind, d.index, d.amount, Join(d.candidates))
  }

  function RowFor(asset: string, p: Pending, leg: Leg, kind: string): Row {
    if kind == LIABILITY then Row(p.user, p.pool, asset, kind, "", leg.amount, p.archived, p.archivedSeq)
    else Row(p.user, p.pool, asset, kind, leg.amount, "", p.archived, p.archivedSeq)
  }

  function DiagnosticFor(pool: Pool, p: Pending, leg: Leg, kind: string, seqNum: int): Diagnostic {
    if leg.index in pool.ambiguous
    then Diagnostic(seqNum, DUPLICATE_INDEX, p.pool, p.user, kind, leg.index, leg.amount, pool.ambiguous[leg.index])
    else Diagnostic(seqNum, UNMAPPED_INDEX, p.pool, p.user, kind, leg.index, leg.amount, pool.unknown)
  }

  function LegRows(byIndex: map<int, string>, p: Pending, legs: seq<Leg>, kind: string): seq<Row> {
    if legs == [] then []
    else
      var l := legs[|legs| - 1];
      LegRows(byIndex, p, legs[..|legs| - 1], kind) +
      (if l.amount != "0" && l.index in byIndex then [RowFor(byIndex[l.index], p, l, kind)] else [])
  }

  function LegDiagnostics(pool: Pool, p: Pending, legs: seq<Leg>, kind: string, seqNum: int): seq<Diagnostic> {
    if legs == [] then []
    else
      var l := legs[|legs| - 1];
      LegDiagnostics(pool, p, legs[..|legs| - 1], kind, seqNum) +
      (if l.amount != "0" && l.index !in pool.byIndex then [DiagnosticFor(pool, p, l, kind, seqNum)] else [])
  }

  predicate OfKind(r: Row, address: string, pool: string, asset: string, kind: string) {
    r.address == address && r.pool == pool && r.asset == asset && r.kind == kind
  }

  /** A liability's amount is owed, any other leg's is held; the row is archived as its entry is. */
  predicate Carries(r: Row, p: Pending, kind: string, leg: Leg) {
    && (kind == "liability" ==> r.dTokens == leg.amount && r.bTokens == "")
    && (kind != "liability" ==> r.bTokens == leg.amount && r.dTokens == "")
    && r.archived == p.archived && r.archivedSeq == p.archivedSeq
  }

  lemma RowForCarries(asset: string, p: Pending, leg: Leg, kind: string)
    ensures OfKind(RowFor(asset, p, leg, kind), p.user, p.pool, asset, kind) && Carries(RowFor(asset, p, leg, kind), p, kind, leg)
  {
  }

  /** The rows of one leg map say exactly what its resolved non-zero legs say. */
  ghost predicate SayLegs(rows: seq<Row>, byIndex: map<int, string>, p: Pending, legs: seq<Leg>, kind: string) {
    && (forall l <- legs :: l.amount != "0" && l.index in byIndex ==> SaidIn(rows, byIndex[l.index], p, kind, l))
    && (forall r <- rows :: exists l :: l in legs && l.amount != "0" && l.index in byIndex
                                      && OfKind(r, p.user, p.pool, byIndex[l.index], kind) && Carries(r, p, kind, l))
  }

  ghost predicate SaidIn(rows: seq<Row>, asset: string, p: Pending, kind: string, l: Leg) {
    exists r :: r in rows && OfKind(r, p.user, p.pool, asset, kind) && Carries(r, p, kind, l)
  }

  lemma LegRowsSay(byIndex: map<int, string>, p: Pending, legs: seq<Leg>, kind: string)
    ensures SayLegs(LegRows(byIndex, p, legs, kind), byIndex, p, legs, kind)
  {
    hide LegRows, RowFor, Carries, OfKind;
    var rows := LegRows(byIndex, p, legs, kind);
    forall l | l in legs && l.amount != "0" && l.index in byIndex ensures SaidIn(rows, byIndex[l.index], p, kind, l) {
      var r := RowFor(byIndex[l.index], p, l, kind);
      LegRowsFrom(byIndex, p, legs, kind, r);
      RowForCarries(byIndex[l.index], p, l, kind);
    }
    forall r | r in rows
      ensures exists l :: l in legs && l.amount != "0" && l.index in byIndex
                          && OfKind(r, p.user, p.pool, byIndex[l.index], kind) && Carries(r, p, kind, l)
    {
      LegRowsFrom(byIndex, p, legs, kind, r);
      var l :| l in legs && l.amount != "0" && l.index in byIndex && r == RowFor(byIndex[l.index], p, l, kind);
      RowForCarries(byIndex[l.index], p, l, kind);
    }
  }

  /** positionsFromMap: resolve the legs of one map, reporting the skipped ones when there is a sink. */
  method PositionsFromMap(pool: Pool, p: Pending, legs: seq<Leg>, kind: string, sink: Option<int>)
    returns (rows: seq<Row>, diagnostics: seq<Diagnostic>)
    ensures rows == LegRows(pool.byIndex, p, legs, kind) && SayLegs(rows, pool.byIndex, p, legs, kind)
    ensures diagnostics == if sink.Some? then LegDiagnostics(pool, p, legs, kind, sink.value) else []
  {
    rows, diagnostics := [], [];
    for n := 0 to |legs|
      invariant rows == LegRows(pool.byIndex, p, legs[..n], kind)
      invariant diagnostics == if sink.Some? then LegDiagnostics(pool, p, legs[..n], kind, sink.value) else []
    {
      var leg := legs[n];
      assert legs[..n + 1][..n] == legs[..n];
      if leg.amount == "0" { continue; }
      if leg.index !in pool.byIndex {
        if sink.Some? {
          diagnostics := diagnostics + [DiagnosticFor(pool, p, leg, kind, sink.value)];
        }
        continue;
      }
      rows := rows + [RowFor(pool.byIndex[leg.index], p, leg, kind)];
    }
    assert legs[..|legs|] == legs;
    LegRowsSay(pool.byIndex, p, legs, kind);
  }

  /** buildUserPositionsForPending. The rows depend on the pool only through its published index map. */
  function UserRows(byIndex: map<int, string>, p: Pending): seq<Row> {
    if p.blob.None? then []
    else
      LegRows(byIndex, p, p.blob.value.supply, SUPPLY) + LegRows(byIndex, p, p.blob.value.collateral, COLLATERAL)
      + LegRows(byIndex, p, p.blob.value.liabilities, LIABILITY)
  }

  function UserDiagnostics(pool: Pool, p: Pending, seqNum: int): seq<Diagnostic> {
    if p.blob.None? then []
    else
      LegDiagnostics(pool, p, p.blob.value.supply, SUPPLY, seqNum)
      + LegDiagnostics(pool, p, p.blob.value.collateral, COLLATERAL, seqNum)
      + LegDiagnostics(pool, p, p.blob.value.liabilities, LIABILITY, seqNum)
  }

  method BuildUserPositions(pool: Pool, p: Pending, sink: Option<int>)
    returns (rows: seq<Row>, diagnostics: seq<Diagnostic>)
    ensures rows == UserRows(pool.byIndex, p)
    ensures diagnostics == if sink.Some? then UserDiagnostics(pool, p, sink.value) else []
  {
    if p.blob.None? { return [], []; }
    var s, ds := PositionsFromMap(pool, p, p.blob.value.supply, SUPPLY, sink);
    var c, dc := PositionsFromMap(pool, p, p.blob.value.collateral, COLLATERAL, sink);
    var l, dl := PositionsFromMap(pool, p, p.blob.value.liabilities, LIABILITY, sink);
    rows, diagnostics := s + c + l, ds + dc + dl;
  }

  // ---- what the legs of one map become ---------------------------------------------------------

  lemma {:induction false} LegRowsFrom(byIndex: map<int, string>, p: Pending, legs: seq<Leg>, kind: string, r: Row)
    ensures r in LegRows(byIndex, p, legs, kind) <==>
            exists l :: l in legs && l.amount != "0" && l.index in byIndex && r == RowFor(byIndex[l.index], p, l, kind)
  {
    if legs != [] {
      var t, l := legs[..|legs| - 1], legs[|legs| - 1];
      LegRowsFrom(byIndex, p, t, kind, r);
      assert legs == t + [l] && l in legs;
    }
  }

  lemma {:induction false} LegDiagnosticsFrom(pool: Pool, p: Pending, legs: seq<Leg>, kind: string, n: int, d: Diagnostic)
    ensures d in LegDiagnostics(pool, p, legs, kind, n) <==>
            exists l :: l in legs && l.amount != "0" && l.index !in pool.byIndex && d == DiagnosticFor(pool, p, l, kind, n)
  {
    if legs != [] {
      var t, l := legs[..|legs| - 1], legs[|legs| - 1];
      LegDiagnosticsFrom(pool, p, t, kind, n, d);
      assert legs == t + [l] && l in legs;
    }
  }

  /** The published map sends different indexes to different assets. */
  ghost predicate Injective(byIndex: map<int, string>) {
    forall i, j :: i in byIndex && j in byIndex && byIndex[i] == byIndex[j] ==> i == j
  }

  lemma FinalizedInjective(p: Pool)
    requires Fresh(p) && KeyedBy(p.reserves, ReserveKey)
    ensures Injective(p.byIndex)
  {
    ReserveSliceFacts(p.reserves);
    var rs := ReserveSlice(p.reserves);
    forall i, j | i in p.byIndex && j in p.byIndex && p.byIndex[i] == p.byIndex[j] ensures i == j {
      PublishedInjective(rs, i, j);
    }
  }

  lemma {:induction false} LegRowsDistinct(byIndex: map<int, string>, p: Pending, legs: seq<Leg>, kind: string)
    requires Injective(byIndex) && DistinctIndexes(legs)
    ensures DistinctKeys(LegRows(byIndex, p, legs, kind), RowKey)
  {
    if legs != [] {
      var t, l := legs[..|legs| - 1], legs[|legs| - 1];
      LegRowsDistinct(byIndex, p, t, kind);
      var rows := LegRows(byIndex, p, t, kind);
      forall i | 0 <= i < |rows| && l.index in byIndex
        ensures RowKey(rows[i]) != RowKey(RowFor(byIndex[l.index], p, l, kind))
      {
        assert rows[i] in rows;
        LegRowsFrom(byIndex, p, t, kind, rows[i]);
        var q :| q in t && q.amount != "0" && q.index in byIndex && rows[i] == RowFor(byIndex[q.index], p, q, kind);
        assert q.index != l.index;
      }
    }
  }

  lemma {:induction false} LegRowsKind(byIndex: map<int, string>, p: Pending, legs: seq<Leg>, kind: string)
    ensures forall r :: r in LegRows(byIndex, p, legs, kind) ==>
                        r.kind == kind && r.address == p.user && r.pool == p.pool
  {
    forall r | r in LegRows(byIndex, p, legs, kind) ensures r.kind == kind && r.address == p.user && r.pool == p.pool {
      LegRowsFrom(byIndex, p, legs, kind, r);
    }
  }

  lemma DistinctConcat<V>(a: seq<V>, b: seq<V>, keyOf: V -> Key)
    requires DistinctKeys(a, keyOf) && DistinctKeys(b, keyOf)
    requires forall x, y :: x in a && y in b ==> keyOf(x) != keyOf(y)
    ensures DistinctKeys(a + b, keyOf)
  {
    forall i, j | 0 <= i < j < |a + b| ensures keyOf((a + b)[i]) != keyOf((a + b)[j]) {
      if i < |a| <= j { assert a[i] in a && b[j - |a|] in b; }
    }
  }

  /** All rows of one user in one pool carry the pair, and no two share (asset, kind). */
  lemma UserRowsDistinct(byIndex: map<int, string>, p: Pending)
    requires Injective(byIndex)
    ensures DistinctKeys(UserRows(byIndex, p), RowKey)
    ensures forall r :: r in UserRows(byIndex, p) ==> r.address == p.user && r.pool == p.pool
  {
    if p.blob.Some? {
      var s := LegRows(byIndex, p, p.blob.value.supply, SUPPLY);
      var c := LegRows(byIndex, p, p.blob.value.collateral, COLLATERAL);
      var l := LegRows(byIndex, p, p.blob.value.liabilities, LIABILITY);
      LegRowsDistinct(byIndex, p, p.blob.value.supply, SUPPLY);
      LegRowsDistinct(byIndex, p, p.blob.value.collateral, COLLATERAL);
      LegRowsDistinct(byIndex, p, p.blob.value.liabilities, LIABILITY);
      LegRowsKind(byIndex, p, p.blob.value.supply, SUPPLY);
      LegRowsKind(byIndex, p, p.blob.value.collateral, COLLATERAL);
      LegRowsKind(byIndex, p, p.blob.value.liabilities, LIABILITY);
      assert SUPPLY[0] == 's' && COLLATERAL[0] == 'c' && LIABILITY[0] == 'l';
      DistinctConcat(s, c, RowKey);
      DistinctConcat(s + c, l, RowKey);
    }
  }

  lemma LegBecomesRow(pool: Pool, p: Pending, legs: seq<Leg>, kind: string, n: int, leg: Leg)
    requires Injective(pool.byIndex) && DistinctIndexes(legs)
    requires leg in legs && leg.amount != "0" && leg.index in pool.byIndex
    ensures multiset(LegRows(pool.byIndex, p, legs, kind))[RowFor(pool.byIndex[leg.index], p, leg, kind)] == 1
    ensures forall d :: d in LegDiagnostics(pool, p, legs, kind, n) ==> d.index != leg.index
  {
    LegRowsDistinct(pool.byIndex, p, legs, kind);
    var r := RowFor(pool.byIndex[leg.index], p, leg, kind);
    LegRowsFrom(pool.byIndex, p, legs, kind, r);
    DistinctCounts(LegRows(pool.byIndex, p, legs, kind), RowKey, r);
    forall d | d in LegDiagnostics(pool, p, legs, kind, n) ensures d.index != leg.index {
      LegDiagnosticsFrom(pool, p, legs, kind, n, d);
    }
  }

  lemma LegBecomesDiagnostic(pool: Pool, p: Pending, legs: seq<Leg>, kind: string, n: int, leg: Leg)
    requires DistinctIndexes(legs)
    requires leg in legs && leg.amount != "0" && leg.index !in pool.byIndex
    ensures multiset(LegDiagnostics(pool, p, legs, kind, n))[DiagnosticFor(pool, p, leg, kind, n)] == 1
  {
    var d := DiagnosticFor(pool, p, leg, kind, n);
    LegDiagnosticsFrom(pool, p, legs, kind, n, d);
    LegDiagnosticsDistinct(pool, p, legs, kind, n);
    DistinctCounts(LegDiagnostics(pool, p, legs, kind, n), DiagnosticKey, d);
  }

  /** Leg conservation. A non-zero leg becomes exactly one row, at the one reserve whose decoded config claims
      its index, or, when no reserve is the single claimant, exactly one diagnostic; nothing else is produced. */
  lemma LegConservation(pool: Pool, p: Pending, legs: seq<Leg>, kind: string, n: int, leg: Leg)
    requires Fresh(pool) && KeyedBy(pool.reserves, ReserveKey) && DistinctIndexes(legs)
    requires leg in legs && leg.amount != "0"
    ensures leg.index in pool.byIndex ==>
              && multiset(LegRows(pool.byIndex, p, legs, kind))[RowFor(pool.byIndex[leg.index], p, leg, kind)] == 1
              && (forall d :: d in LegDiagnostics(pool, p, legs, kind, n) ==> d.index != leg.index)
              && ClaimedBy(pool.reserves, leg.index, pool.byIndex[leg.index])
    ensures leg.index !in pool.byIndex ==>
              && multiset(LegDiagnostics(pool, p, legs, kind, n))[DiagnosticFor(pool, p, leg, kind, n)] == 1
              && !exists a :: ClaimedBy(pool.reserves, leg.index, a)
    ensures |LegRows(pool.byIndex, p, legs, kind)| + |LegDiagnostics(pool, p, legs, kind, n)| == NonZero(legs)
  {
    ResolvesIffClaimed(pool, leg.index);
    FinalizedInjective(pool);
    LegCount(pool, p, legs, kind, n);
    if leg.index in pool.byIndex {
      LegBecomesRow(pool, p, legs, kind, n, leg);
    } else {
      LegBecomesDiagnostic(pool, p, legs, kind, n, leg);
    }
  }

  function NonZero(legs: seq<Leg>): nat {
    if legs == [] then 0 else NonZero(legs[..|legs| - 1]) + if legs[|legs| - 1].amount != "0" then 1 else 0
  }

  lemma {:induction false} LegCount(pool: Pool, p: Pending, legs: seq<Leg>, kind: string, n: int)
    ensures |LegRows(pool.byIndex, p, legs, kind)| + |LegDiagnostics(pool, p, legs, kind, n)| == NonZero(legs)
  {
    if legs != [] { LegCount(pool, p, legs[..|legs| - 1], kind, n); }
  }

  /** Exactly one reserve has a decoded config claiming the index, and it is the asset's. */
  ghost predicate ClaimedBy(reserves: map<Key, Reserve>, i: int, asset: string) {
    exists k :: k in reserves && reserves[k].indexKnown && reserves[k].index == i && reserves[k].asset == asset &&
                forall j :: j in reserves && reserves[j].indexKnown && reserves[j].index == i ==> j == k
  }

  lemma {:induction false} ClaimantsDistinct(rs: seq<Reserve>, i: int)
    requires DistinctKeys(rs, ReserveKey)
    ensures DistinctKeys(Claimants(rs, i), TextKey)
  {
    if rs != [] {
      var t, l := rs[..|rs| - 1], rs[|rs| - 1];
      ClaimantsDistinct(t, i);
      ClaimantsKnown(t, i);
      var c := Claimants(t, i);
      forall n | 0 <= n < |c| ensures c[n] != l.asset {
        assert c[n] in c;
        var r :| r in t && r.indexKnown && r.index == i && r.asset == c[n];
        var m :| 0 <= m < |t| && t[m] == r;
        assert ReserveKey(rs[m]) != ReserveKey(rs[|rs| - 1]);
      }
    }
  }

  lemma ResolvedIsClaimed(rs: seq<Reserve>, m: map<Key, Reserve>, i: int)
    requires forall r :: r in rs <==> ReserveKey(r) in m && m[ReserveKey(r)] == r
    requires KeyedBy(m, ReserveKey)
    requires i in Published(rs)
    ensures ClaimedBy(m, i, Published(rs)[i])
  {
    PublishedUnique(rs, i);
    var r :| r in rs && r.indexKnown && r.index == i && r.asset == Published(rs)[i];
    forall j | j in m && m[j].indexKnown && m[j].index == i ensures j == ReserveKey(r) {
      assert m[j] in rs;
    }
  }

  lemma OnlyOnce(c: seq<string>, a: string)
    requires |c| > 1 && DistinctKeys(c, TextKey)
    ensures exists x :: x in c && x != a
  {
    assert TextKey(c[0]) != TextKey(c[1]);
    assert c[0] in c && c[1] in c;
  }

  lemma ClaimedIsResolved(rs: seq<Reserve>, m: map<Key, Reserve>, i: int, a: string)
    requires forall r :: r in rs <==> ReserveKey(r) in m && m[ReserveKey(r)] == r
    requires KeyedBy(m, ReserveKey) && DistinctKeys(rs, ReserveKey)
    requires ClaimedBy(m, i, a)
    ensures i in Published(rs)
  {
    ClaimantsKnown(rs, i);
    ClaimantsDistinct(rs, i);
    var k :| k in m && m[k].indexKnown && m[k].index == i && m[k].asset == a &&
             forall j :: j in m && m[j].indexKnown && m[j].index == i ==> j == k;
    var c := Claimants(rs, i);
    assert m[k] in rs;
    assert a in c;
    forall x | x in c ensures x == a {
      var r :| r in rs && r.indexKnown && r.index == i && r.asset == x;
      assert ReserveKey(r) in m;
    }
    assert forall n :: 0 <= n < |c| ==> c[n] in c;
    if |c| > 1 { OnlyOnce(c, a); }
  }

  /** The builder's map resolves an index exactly when one reserve claims it. */
  lemma ResolvesIffClaimed(p: Pool, i: int)
    requires Fresh(p) && KeyedBy(p.reserves, ReserveKey)
    ensures i in p.byIndex <==> exists a :: ClaimedBy(p.reserves, i, a)
    ensures i in p.byIndex ==> ClaimedBy(p.reserves, i, p.byIndex[i])
  {
    var rs := ReserveSlice(p.reserves);
    ReserveSliceFacts(p.reserves);
    if i in p.byIndex {
      ResolvedIsClaimed(rs, p.reserves, i);
    }
    if a :| ClaimedBy(p.reserves, i, a) {
      ClaimedIsResolved(rs, p.reserves, i, a);
    }
  }

  lemma {:induction false} LegDiagnosticsDistinct(pool: Pool, p: Pending, legs: seq<Leg>, kind: string, n: int)
    requires DistinctIndexes(legs)
    ensures DistinctKeys(LegDiagnostics(pool, p, legs, kind, n), DiagnosticKey)
  {
    if legs != [] {
      var t, l := legs[..|legs| - 1], legs[|legs| - 1];
      LegDiagnosticsDistinct(pool, p, t, kind, n);
      var ds := LegDiagnostics(pool, p, t, kind, n);
      forall i | 0 <= i < |ds| ensures DiagnosticKey(ds[i]) != DiagnosticKey(DiagnosticFor(pool, p, l, kind, n)) {
        assert ds[i] in ds;
        LegDiagnosticsFrom(pool, p, t, kind, n, ds[i]);
        var q :| q in t && q.amount != "0" && q.index !in pool.byIndex && ds[i] == DiagnosticFor(pool, p, q, kind, n);
        assert q.index != l.index;
      }
    }
  }
}
