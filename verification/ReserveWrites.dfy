/** The parts of a reserve, field by field: what each change writes, and that the last write of a part is what the ledger
    publishes. */
module ReserveWrites {
  import opened Options
  import opened Keys
  import opened Slices
  import opened Reserves
  import opened Reflector
  import opened Mirror
  import opened Carry
  import opened Reference
  import opened Confinement
  import opened Writes
  import opened Persistence
  import Run

  /** A part of a reserve is one of its decoded fields, or its index once a config entry carried it. */
  datatype Part = Field(f: ReserveField) | Index

  function PartOf(r: Reserve, part: Part): Option<Atom> {
    match part
    case Field(f) => if f in r.fields then Some(Text(r.fields[f])) else None
    case Index => if r.indexKnown then Some(Num(r.index)) else None
  }

  function PartIn(reserves: map<Key, Reserve>, asset: string, part: Part): Option<Atom> {
    if Contract(asset) in reserves then PartOf(reserves[Contract(asset)], part) else None
  }

  function PartAt(b: Mirror, id: string, asset: string, part: Part): Option<Atom> {
    if Contract(id) in b.pools then PartIn(b.pools[Contract(id)].reserves, asset, part) else None
  }

  /** What a reserve entry carries. Only a config entry carries the index. */
  function Carried(isConfig: bool, v: Value, part: Part): Option<Atom> {
    if !v.ReserveValue? then None
    else
      match part
      case Field(f) => if f in v.fields then Some(Text(v.fields[f])) else None
      case Index => if isConfig && v.index.Some? then Some(Num(v.index.value)) else None
  }

  // ---- one change ------------------------------------------------------------------------------

  /** Every part the entry carries is stored, every other part stays. */
  lemma ReserveSays(r: Reserve, isConfig: bool, v: Value, part: Part)
    ensures PartOf(ReserveWith(r, isConfig, v), part)
         == if Carried(isConfig, v, part).Some? then Carried(isConfig, v, part) else PartOf(r, part)
    ensures ReserveWith(r, isConfig, v).asset == r.asset && ReserveWith(r, isConfig, v).price == r.price
  {
  }

  lemma NothingYet(p: Pool, asset: string, part: Part)
    ensures PartOf(EnsureReserve(p, asset), part) == PartIn(p.reserves, asset, part)
  {
  }

  lemma PutReserveIs(p: Pool, asset: string, r: Reserve)
    ensures PutReserve(p, asset, r).reserves == p.reserves[Contract(asset) := r]
    ensures DropReserve(p, asset).reserves == p.reserves - {Contract(asset)}
  {
    hide Published, Ambiguous, Unknown, ReserveSlice;
  }

  /** A pool after one of its reserves was written: that reserve is as told, every other as it was. */
  lemma PartPut(p: Pool, asset: string, r: Reserve, other: string, part: Part)
    ensures PartIn(PutReserve(p, asset, r).reserves, other, part)
         == if other == asset then PartOf(r, part) else PartIn(p.reserves, other, part)
    ensures PartIn(DropReserve(p, asset).reserves, other, part) == if other == asset then None else PartIn(p.reserves, other, part)
  {
    hide PutReserve, DropReserve, PartOf;
    PutReserveIs(p, asset, r);
  }

  lemma PutAt(b: Mirror, id: string, p: Pool, asset: string, part: Part)
    ensures PartAt(PutPool(b, id, p), id, asset, part) == PartIn(p.reserves, asset, part)
    ensures PartAt(b, id, asset, part) == PartIn(EnsurePool(b, id).reserves, asset, part)
  {
  }

  lemma PartApplied(b: Mirror, id: string, asset: string, isConfig: bool, v: Value, other: string, part: Part)
    ensures PartAt(ApplyReserve(b, id, asset, isConfig, v), id, other, part)
         == if other == asset && Carried(isConfig, v, part).Some? then Carried(isConfig, v, part) else PartAt(b, id, other, part)
  {
    hide PutPool, PutReserve, EnsurePool, EnsureReserve, ReserveWith, PartOf, PartAt, PartIn, Carried;
    var p := EnsurePool(b, id);
    var with := ReserveWith(EnsureReserve(p, asset), isConfig, v);
    var r := with.(archived := false, archivedSeq := 0);
    ReserveSays(EnsureReserve(p, asset), isConfig, v, part);
    NothingYet(p, asset, part);
    SameParts(with, r, part);
    PartPut(p, asset, r, other, part);
    PutAt(b, id, PutReserve(p, asset, r), other, part);
  }

  lemma SameParts(x: Reserve, y: Reserve, part: Part)
    requires x.fields == y.fields && x.index == y.index && x.indexKnown == y.indexKnown
    ensures PartOf(x, part) == PartOf(y, part)
  {
  }

  lemma PartDropped(b: Mirror, c: Change, asset: string, isConfig: bool, seqNum: int, other: string, part: Part)
    requires Contract(c.contract) in b.pools
    ensures var v := if c.payload.Decoded? then c.payload.value else OtherValue;
      PartAt(DeleteReserve(b, c, asset, isConfig, seqNum), c.contract, other, part)
      == if other != asset then PartAt(b, c.contract, other, part)
         else if c.removed then None
         else if Carried(isConfig, v, part).Some? then Carried(isConfig, v, part) else PartAt(b, c.contract, other, part)
  {
    hide PutPool, PutReserve, DropReserve, EnsureReserve, ReserveWith, PartOf, PartAt, PartIn, Carried;
    var id, p := c.contract, b.pools[Contract(c.contract)];
    var v := if c.payload.Decoded? then c.payload.value else OtherValue;
    var e := EnsureReserve(p, asset);
    ReserveSays(e, isConfig, v, part);
    NothingCarried(e, isConfig);
    var with := ReserveWith(e, isConfig, v);
    NothingYet(p, asset, part);
    SameParts(with, with.(archived := true, archivedSeq := seqNum), part);
    PartPut(p, asset, with.(archived := true, archivedSeq := seqNum), other, part);
    PutAt(b, id, PutReserve(p, asset, with.(archived := true, archivedSeq := seqNum)), other, part);
    PutAt(b, id, DropReserve(p, asset), other, part);
    EnsuredPool(b, id);
  }

  lemma EnsuredPool(b: Mirror, id: string)
    ensures Contract(id) in b.pools ==> EnsurePool(b, id) == b.pools[Contract(id)]
  {
  }

  lemma NothingCarried(r: Reserve, isConfig: bool)
    ensures ReserveWith(r, isConfig, OtherValue) == r
  {
  }

  /** The side's emission fields an emission entry carries. */
  function CarriedEmission(side: int, isConfig: bool, v: Value, part: Part): Option<Atom> {
    if !v.EmissionValue? then None
    else if part == Field(EmisEps(side)) then AsText(v.eps)
    else if part == Field(EmisExpiration(side)) then AsText(v.expiration)
    else if part == Field(EmisIndex(side)) && !isConfig then AsText(v.emisIndex)
    else if part == Field(EmisLastTime(side)) && !isConfig then AsText(v.lastTime)
    else None
  }

  function AsText(s: Option<string>): Option<Atom> { if s.Some? then Some(Text(s.value)) else None }

  /** The side's emission fields an emission entry is about. */
  predicate Emits(side: int, isConfig: bool, part: Part) {
    || part == Field(EmisEps(side)) || part == Field(EmisExpiration(side))
    || (!isConfig && (part == Field(EmisIndex(side)) || part == Field(EmisLastTime(side))))
  }

  lemma EmissionSays(r: Reserve, side: int, isConfig: bool, v: Value, part: Part)
    ensures var carried := CarriedEmission(side, isConfig, v, part);
      PartOf(r.(fields := r.fields + EmissionFields(side, v, isConfig)), part)
      == if carried.Some? then carried else PartOf(r, part)
  {
    if part.Field? { EmissionCarried(side, isConfig, v, part.f); }
    hide EmissionFields, CarriedEmission;
  }

  lemma EmissionCarried(side: int, isConfig: bool, v: Value, f: ReserveField)
    ensures var fields, carried := EmissionFields(side, v, isConfig), CarriedEmission(side, isConfig, v, Field(f));
      (f in fields <==> carried.Some?) && (f in fields ==> carried == Some(Text(fields[f])))
  {
    if v.EmissionValue? {
      OneField(EmisEps(side), v.eps, f);
      OneField(EmisExpiration(side), v.expiration, f);
      OneField(EmisIndex(side), v.emisIndex, f);
      OneField(EmisLastTime(side), v.lastTime, f);
      hide OptionField;
    }
  }

  lemma OneField(g: ReserveField, v: Option<string>, f: ReserveField)
    ensures f in OptionField(g, v) <==> f == g && v.Some?
    ensures f in OptionField(g, v) ==> OptionField(g, v)[f] == v.value
  {
  }

  lemma EmissionCleared(r: Reserve, side: int, isConfig: bool, part: Part)
    ensures PartOf(r.(fields := r.fields - ClearedEmission(side, isConfig)), part)
         == if Emits(side, isConfig, part) then None else PartOf(r, part)
  {
  }

  /** An emission entry of token reaches the one reserve that claims index token / 2 and, of that reserve, the fields of side
      token % 2 it carries. */
  lemma EmissionApplied(b: Mirror, id: string, token: nat, isConfig: bool, v: Value, asset: string, part: Part)
    ensures var claimed := EnsurePool(b, id).byIndex;
      var carried := CarriedEmission(token % 2, isConfig, v, part);
      PartAt(ApplyEmission(b, id, token, isConfig, v), id, asset, part)
      == if token / 2 in claimed && claimed[token / 2] == asset && carried.Some? then carried else PartAt(b, id, asset, part)
  {
    hide PutPool, PutReserve, EnsurePool, EnsureReserve, EmissionFields, PartOf, PartAt, PartIn, CarriedEmission;
    var p := EnsurePool(b, id);
    PutAt(b, id, p, asset, part);
    var target := EmissionTarget(p, token);
    if target.Some? {
      var e := EnsureReserve(p, target.value);
      var r := e.(fields := e.fields + EmissionFields(token % 2, v, isConfig));
      EmissionSays(e, token % 2, isConfig, v, part);
      NothingYet(p, target.value, part);
      PartPut(p, target.value, r, asset, part);
      PutAt(b, id, PutReserve(p, target.value, r), asset, part);
    }
  }

  lemma EmissionDropped(b: Mirror, id: string, token: nat, isConfig: bool, asset: string, part: Part)
    ensures var claimed := EnsurePool(b, id).byIndex;
      PartAt(DeleteEmission(b, id, token, isConfig), id, asset, part)
      == if Contract(id) in b.pools && token / 2 in claimed && claimed[token / 2] == asset && Emits(token % 2, isConfig, part)
         then None else PartAt(b, id, asset, part)
  {
    hide PutPool, PutReserve, ClearedEmission, PartOf, Emits;
    if Contract(id) in b.pools {
      var p := b.pools[Contract(id)];
      var target := EmissionTarget(p, token);
      if target.Some? && Contract(target.value) in p.reserves {
        var e := p.reserves[Contract(target.value)];
        var r := e.(fields := e.fields - ClearedEmission(token % 2, isConfig));
        EmissionCleared(e, token % 2, isConfig, part);
        PartPut(p, target.value, r, asset, part);
        PutAt(b, id, PutReserve(p, target.value, r), asset, part);
      }
    }
  }

  /** A reserve list adds the reserves it names and changes none that is there. */
  lemma {:induction false} ListAdds(p: Pool, list: seq<string>, asset: string, part: Part)
    ensures PartIn(EnsureReserves(p, list).reserves, asset, part) == PartIn(p.reserves, asset, part)
    ensures Contract(asset) in EnsureReserves(p, list).reserves <==> Contract(asset) in p.reserves || asset in list
    ensures Contract(asset) in p.reserves ==> EnsureReserves(p, list).reserves[Contract(asset)] == p.reserves[Contract(asset)]
  {
    if list != [] {
      var init, last := list[..|list| - 1], list[|list| - 1];
      assert list == init + [last];
      ListAdds(p, init, asset, part);
      hide PartOf;
      NothingYet(EnsureReserves(p, init), last, part);
    }
  }

  // ---- other changes leave it alone ------------------------------------------------------------

  predicate IsEmission(part: Part) {
    part.Field? && (part.f.EmisEps? || part.f.EmisExpiration? || part.f.EmisIndex? || part.f.EmisLastTime?)
  }

  function Said(c: Change): Value { if c.payload.Decoded? then c.payload.value else OtherValue }

  /** The change may write or drop the part: an entry of that reserve which carries it or is removed, an emission entry of the
      pool for an emission field, the removal of the pool. */
  predicate Rewrites(c: Change, seqNum: int, id: string, asset: string, part: Part) {
    && c.contract == id && c.key.Some?
    && match c.key.value
       case ResConfigKey(a) => a == asset && (c.removed || Carried(true, Said(c), part).Some?)
       case ResDataKey(a) => a == asset && (c.removed || Carried(false, Said(c), part).Some?)
       case EmisConfigKey(_) => IsEmission(part)
       case EmisDataKey(_) => IsEmission(part)
       case Symbol(name) =>
         (name == Config || name == ResList)
         && (!c.live || c.payload == Absent || (c.liveUntil.Some? && c.liveUntil.value < seqNum))
       case _ => false
  }

  ghost predicate PartKept(b: Mirror, d: Mirror, id: string, asset: string, part: Part) {
    PartAt(d, id, asset, part) == PartAt(b, id, asset, part)
  }

  lemma RecordsKeepParts(b: Mirror, d: Mirror, id: string, asset: string, part: Part)
    requires d.pools == b.pools
    ensures PartKept(b, d, id, asset, part)
  {
  }

  lemma OtherPutsKeepParts(b: Mirror, id: string, o: Oracle, i: BackstopInstance, priced: set<string>, asset: string, part: Part)
    ensures PartKept(b, PutOracle(b, id, o), id, asset, part)
    ensures PartKept(b, PutOracle(b, id, o).(changedPriceAssets := priced), id, asset, part)
    ensures PartKept(b, PutInstance(b, id, i), id, asset, part)
  {
    hide PartOf;
  }

  lemma OraclePutKeepsParts(b: Mirror, id: string, o: Oracle, asset: string, part: Part)
    ensures PartKept(b, PutOracle(b, id, o), id, asset, part)
  {
    OtherPutsKeepParts(b, id, o, EnsureInstance(b, id), {}, asset, part);
  }

  lemma InstancePutKeepsParts(b: Mirror, id: string, i: BackstopInstance, asset: string, part: Part)
    ensures PartKept(b, PutInstance(b, id, i), id, asset, part)
  {
    OtherPutsKeepParts(b, id, EnsureOracle(b, id), i, {}, asset, part);
  }

  lemma OracleKeepsParts(b: Mirror, id: string, key: EntryKey, v: Value, asset: string, part: Part)
    ensures ApplyOracle(b, id, key, v).Some? ==> PartKept(b, ApplyOracle(b, id, key, v).value, id, asset, part)
  {
    hide PartKept, PutOracle, EnsureOracle, WithOracleInstance, AssetsAt, OracleIndex;
    RecordsKeepParts(b, b, id, asset, part);
    var o, i := EnsureOracle(b, id), EnsureInstance(b, id);
    if v.InstanceValue? && v.oracle.Some? {
      OtherPutsKeepParts(b, id, WithOracleInstance(o, v.oracle.value), i, {}, asset, part);
    } else if v.InstanceValue? && v.aggregator.Some? {
      RecordsKeepParts(b, b.(aggregators := b.aggregators[Contract(id) := AggregatorState(id, v.aggregator.value)]), id, asset, part);
    } else if key.U128Key? && OracleIndex(key.hi, key.lo).Some? && v.IntValue? {
      var n := OracleIndex(key.hi, key.lo).value;
      OtherPutsKeepParts(b, id, o.(priceByIndex := o.priceByIndex[n := v.n]), i, b.changedPriceAssets + AssetsAt(o, n), asset, part);
    }
  }

  lemma PoolKeepsParts(b: Mirror, id: string, p: Pool, asset: string, part: Part)
    requires p.reserves == EnsurePool(b, id).reserves
    ensures PartKept(b, PutPool(b, id, p), id, asset, part)
  {
    hide PutPool, EnsurePool, PartAt, PartIn;
    PutAt(b, id, p, asset, part);
  }

  lemma InstanceKeepsParts(b: Mirror, id: string, v: Value, asset: string, part: Part)
    ensures ApplyInstance(b, id, v).Some? ==> PartKept(b, ApplyInstance(b, id, v).value, id, asset, part)
  {
    hide PartKept, PutPool, EnsurePool, EnsureInstance, WithAddresses, WithInstance;
    if v.InstanceValue? && v.backstop.Some? {
      RecordsKeepParts(b, PutInstance(b, id, WithAddresses(EnsureInstance(b, id), v.backstop.value)), id, asset, part);
    } else if v.InstanceValue? && v.wasmHash.Some? {
      var p := EnsurePool(b, id);
      PoolKeepsParts(b, id, p.(info := WithInstance(p.info, v.wasmHash.value, v.pool)), asset, part);
    }
  }

  lemma ListedReserves(p: Pool, v: Value, asset: string, part: Part)
    ensures PartIn(ListReserves(p, v).reserves, asset, part) == PartIn(p.reserves, asset, part)
  {
    hide PartIn, EnsureReserves;
    FinalizedReserves(p, v);
    hide ListReserves;
    if v.ReserveListValue? { ListAdds(p, v.list, asset, part); }
  }

  lemma SymbolReserves(p: Pool, name: SymbolName, v: Value)
    ensures name == ResList ==> PoolSymbol(p, name, v) == ListReserves(p, v)
    ensures name != ResList ==> PoolSymbol(p, name, v).reserves == p.reserves
  {
    hide ListReserves, WithConfig;
  }

  lemma PoolSymbolReserves(p: Pool, name: SymbolName, v: Value, asset: string, part: Part)
    ensures PartIn(PoolSymbol(p, name, v).reserves, asset, part) == PartIn(p.reserves, asset, part)
  {
    hide PartIn, ListReserves, PoolSymbol;
    SymbolReserves(p, name, v);
    ListedReserves(p, v, asset, part);
  }

  lemma PoolSymbolKeepsParts(b: Mirror, id: string, name: SymbolName, v: Value, asset: string, part: Part)
    ensures PartKept(b, PutPool(b, id, PoolSymbol(EnsurePool(b, id), name, v)), id, asset, part)
  {
    hide PutPool, EnsurePool, PartAt, PartIn, PoolSymbol;
    var p := EnsurePool(b, id);
    PoolSymbolReserves(p, name, v, asset, part);
    PutAt(b, id, PoolSymbol(p, name, v), asset, part);
  }

  lemma FinalizedReserves(p: Pool, v: Value)
    ensures ListReserves(p, v).reserves == if v.ReserveListValue? then EnsureReserves(p, v.list).reserves else p.reserves
  {
    hide Published, Ambiguous, Unknown, ReserveSlice, EnsureReserves;
  }

  lemma SymbolKeepsParts(b: Mirror, id: string, name: SymbolName, v: Value, asset: string, part: Part)
    ensures PartKept(b, ApplySymbol(b, id, name, v), id, asset, part)
  {
    hide PartKept, PutPool, PutInstance, PutOracle, PoolSymbol, EnsurePool, EnsureInstance;
    PoolSymbolKeepsParts(b, id, name, v, asset, part);
    RecordsKeepParts(b, b, id, asset, part);
    forall o { OraclePutKeepsParts(b, id, o, asset, part); }
    forall i { InstancePutKeepsParts(b, id, i, asset, part); }
  }

  lemma DroppedSymbolKeepsParts(b: Mirror, id: string, name: SymbolName, asset: string, part: Part)
    requires name != Config && name != ResList
    ensures PartKept(b, DeleteSymbol(b, id, name), id, asset, part)
  {
    hide PartKept, PutPool, PutInstance, PutOracle, EnsurePool;
    RecordsKeepParts(b, b, id, asset, part);
    EnsuredPool(b, id);
    forall o { OraclePutKeepsParts(b, id, o, asset, part); }
    forall i { InstancePutKeepsParts(b, id, i, asset, part); }
    forall p: Pool | p.reserves == EnsurePool(b, id).reserves ensures PartKept(b, PutPool(b, id, p), id, asset, part) {
      PoolKeepsParts(b, id, p, asset, part);
    }
  }

  lemma NotCarried(token: nat, isConfig: bool, v: Value, part: Part)
    requires !IsEmission(part)
    ensures CarriedEmission(token % 2, isConfig, v, part) == None && !Emits(token % 2, isConfig, part)
  {
  }

  lemma EntryKeepsParts(b: Mirror, c: Change, seqNum: int, key: EntryKey, v: Value, asset: string, part: Part)
    requires c.key == Some(key) && (v == Said(c) || v == OtherValue) && !Rewrites(c, seqNum, c.contract, asset, part)
    ensures v == Said(c) ==> PartKept(b, ApplyEntry(b, c.contract, key, v), c.contract, asset, part)
    ensures PartKept(b, DeleteEntry(b, c, key, seqNum), c.contract, asset, part)
  {
    hide ApplyReserve, ApplyEmission, DeleteReserve, DeleteEmission, PartAt, Carried, CarriedEmission, Emits;
    var id := c.contract;
    match key
    case ResConfigKey(a) => ReserveKeepsParts(b, c, seqNum, a, true, asset, part);
    case ResDataKey(a) => ReserveKeepsParts(b, c, seqNum, a, false, asset, part);
    case EmisConfigKey(token) =>
      NotCarried(token, true, v, part);
      EmissionApplied(b, id, token, true, v, asset, part);
      EmissionDropped(b, id, token, true, asset, part);
    case EmisDataKey(token) =>
      NotCarried(token, false, v, part);
      EmissionApplied(b, id, token, false, v, asset, part);
      EmissionDropped(b, id, token, false, asset, part);
    case _ =>
      hide ApplyEntry, DeleteEntry;
      EntryRecords(b, c, key, v, seqNum);
      RecordsKeepParts(b, ApplyEntry(b, id, key, v), id, asset, part);
      RecordsKeepParts(b, DeleteEntry(b, c, key, seqNum), id, asset, part);
  }

  lemma ReserveKeepsParts(b: Mirror, c: Change, seqNum: int, a: string, isConfig: bool, asset: string, part: Part)
    requires a != asset || (!c.removed && Carried(isConfig, Said(c), part).None?)
    ensures PartKept(b, ApplyReserve(b, c.contract, a, isConfig, Said(c)), c.contract, asset, part)
    ensures PartKept(b, DeleteReserve(b, c, a, isConfig, seqNum), c.contract, asset, part)
  {
    hide ApplyReserve, PartAt, Carried, PutPool, DropReserve, ArchiveReserve;
    PartApplied(b, c.contract, a, isConfig, Said(c), asset, part);
    if Contract(c.contract) in b.pools { PartDropped(b, c, a, isConfig, seqNum, asset, part); }
  }

  lemma OtherMapsKeepParts(b: Mirror, id: string, assets: map<Key, Asset>, op: FeedOp, asset: string, part: Part)
    ensures PartKept(b, b.(assets := assets), id, asset, part) && PartKept(b, ChangeFeed(b, id, op), id, asset, part)
    ensures PartKept(b, b, id, asset, part)
    ensures PartKept(b, b.(aggregators := b.aggregators - {Contract(id)}, instances := b.instances - {Contract(id)}), id, asset, part)
  {
    hide PartOf, ApplyFeed;
  }

  lemma TokenKeepsParts(cfg: Owned, b: Mirror, c: Change, seqNum: int, key: EntryKey, asset: string, part: Part)
    requires c.key == Some(key) && c.payload.Decoded? && !Rewrites(c, seqNum, c.contract, asset, part)
    ensures PartKept(b, ApplyToken(cfg, b, c.contract, key, Said(c)), c.contract, asset, part)
  {
    hide PartKept, ApplyInstance, ApplySymbol, ApplyEntry, Rewrites;
    var v := c.payload.value;
    InstanceKeepsParts(b, c.contract, v, asset, part);
    if key.Symbol? { SymbolKeepsParts(b, c.contract, key.name, v, asset, part); }
    EntryKeepsParts(b, c, seqNum, key, v, asset, part);
    OtherMapsKeepParts(b, c.contract,
                       if v.InstanceValue? && v.asset.Some? then b.assets[Contract(c.contract) := v.asset.value.(contract := c.contract)]
                       else b.assets, OtherEntry, asset, part);
  }

  lemma LiveKeepsParts(cfg: Owned, b: Mirror, c: Change, seqNum: int, key: EntryKey, asset: string, part: Part)
    requires c.key == Some(key) && c.payload.Decoded? && !Rewrites(c, seqNum, c.contract, asset, part)
    ensures PartKept(b, ApplyLive(cfg, b, c.contract, key, Said(c)), c.contract, asset, part)
  {
    hide PartKept, ApplyOracle, ApplyToken, ChangeFeed, FeedWrite, Rewrites;
    OracleKeepsParts(b, c.contract, key, Said(c), asset, part);
    TokenKeepsParts(cfg, b, c, seqNum, key, asset, part);
    OtherMapsKeepParts(b, c.contract, b.assets, FeedWrite(key, Said(c)), asset, part);
  }

  lemma DropKeepsParts(cfg: Owned, b: Mirror, c: Change, seqNum: int, key: EntryKey, asset: string, part: Part)
    requires c.key == Some(key) && !IsLive(c, seqNum) && !Rewrites(c, seqNum, c.contract, asset, part)
    ensures PartKept(b, ApplyDelete(cfg, b, c, key, seqNum), c.contract, asset, part)
  {
    hide PartKept, PutOracle, OracleIndex, AssetsAt, ChangeFeed, FeedDelete, DeleteSymbol, DeleteEntry, Carried;
    var id := c.contract;
    OtherMapsKeepParts(b, id, b.assets - {Contract(id)}, FeedDelete(key), asset, part);
    if key.Symbol? && !(id in cfg.feeds) && !(id in cfg.assets) { DroppedSymbolKeepsParts(b, id, key.name, asset, part); }
    EntryKeepsParts(b, c, seqNum, key, OtherValue, asset, part);
    if Contract(id) in b.oracles && key.U128Key? && OracleIndex(key.hi, key.lo).Some? {
      var o, n := b.oracles[Contract(id)], OracleIndex(key.hi, key.lo).value;
      OtherPutsKeepParts(b, id, o.(priceByIndex := o.priceByIndex - {n}), EnsureInstance(b, id),
                         b.changedPriceAssets + AssetsAt(o, n), asset, part);
    }
  }

  /** A change that does not rewrite a part of a reserve keeps it. */
  lemma PartUndisturbed(cfg: Owned, b: Mirror, c: Change, seqNum: int, id: string, asset: string, part: Part)
    requires !Rewrites(c, seqNum, id, asset, part)
    ensures PartAt(Apply(cfg, b, c, seqNum), id, asset, part) == PartAt(b, id, asset, part)
  {
    hide ApplyLive, ApplyDelete, Rewrites, Confined, PartAt, IsLive;
    EveryChangeIsConfined(cfg, b, c, seqNum);
    if c.key.Some? {
      if c.contract != id {
        OtherPoolKept(b, Apply(cfg, b, c, seqNum), c.contract, c.key.value, id, asset, part);
      } else if !IsLive(c, seqNum) {
        DropKeepsParts(cfg, b, c, seqNum, c.key.value, asset, part);
      } else if c.payload.Decoded? {
        LiveKeepsParts(cfg, b, c, seqNum, c.key.value, asset, part);
      }
    }
  }

  lemma OtherPoolKept(b: Mirror, d: Mirror, other: string, key: EntryKey, id: string, asset: string, part: Part)
    requires other != id && Confined(b, d, other, key)
    ensures PartAt(d, id, asset, part) == PartAt(b, id, asset, part)
  {
    assert SameAt(b.pools, d.pools, Contract(id));
    hide Confined, PartOf;
  }

  // ---- the last write of a part is published ---------------------------------------------------

  /** A live reserve entry that carries the part. */
  predicate WritesPart(c: Change, seqNum: int, asset: string, part: Part, value: Atom) {
    || (IsWrite(c, seqNum, ResConfigKey(asset), Said(c)) && Carried(true, Said(c), part) == Some(value))
    || (IsWrite(c, seqNum, ResDataKey(asset), Said(c)) && Carried(false, Said(c), part) == Some(value))
  }

  lemma PartWritten(cfg: Owned, b: Mirror, c: Change, seqNum: int, asset: string, part: Part, value: Atom)
    requires WritesPart(c, seqNum, asset, part, value) && c.contract !in cfg.feeds && c.contract !in cfg.assets
    ensures PartAt(Apply(cfg, b, c, seqNum), c.contract, asset, part) == Some(value)
  {
    hide ApplyReserve, ApplyLive, ApplyDelete, PartAt;
    Routed(cfg, b, c.contract, c.key.value, Said(c));
    PartApplied(b, c.contract, asset, c.key.value.ResConfigKey?, Said(c), asset, part);
  }

  /** The same for an emission entry, of the reserve that claims its index when it is applied. */
  lemma EmissionWritten(cfg: Owned, b: Mirror, c: Change, seqNum: int, token: nat, isConfig: bool, asset: string, part: Part,
                        value: Atom)
    requires c.contract !in cfg.feeds && c.contract !in cfg.assets
    requires IsWrite(c, seqNum, if isConfig then EmisConfigKey(token) else EmisDataKey(token), Said(c))
    requires CarriedEmission(token % 2, isConfig, Said(c), part) == Some(value)
    requires var claimed := EnsurePool(b, c.contract).byIndex; token / 2 in claimed && claimed[token / 2] == asset
    ensures PartAt(Apply(cfg, b, c, seqNum), c.contract, asset, part) == Some(value)
  {
    hide ApplyEmission, ApplyLive, ApplyDelete, PartAt, EnsurePool;
    Routed(cfg, b, c.contract, c.key.value, Said(c));
    EmissionApplied(b, c.contract, token, isConfig, Said(c), asset, part);
  }

  lemma {:induction false} PartSettled(cfg: Owned, b: Mirror, changes: seq<Change>, n: nat, seqNum: int, id: string,
                                       asset: string, part: Part)
    requires n <= |changes|
    requires forall m :: n <= m < |changes| ==> !Rewrites(changes[m], seqNum, id, asset, part)
    ensures PartAt(ApplyAll(cfg, b, changes, seqNum), id, asset, part)
         == PartAt(ApplyAll(cfg, b, changes[..n], seqNum), id, asset, part)
    decreases |changes|
  {
    hide Apply, PartAt, Rewrites;
    if n < |changes| {
      var init, last := changes[..|changes| - 1], changes[|changes| - 1];
      assert forall m :: n <= m < |init| ==> init[m] == changes[m];
      PartSettled(cfg, b, init, n, seqNum, id, asset, part);
      assert init[..n] == changes[..n];
      PartUndisturbed(cfg, ApplyAll(cfg, b, init, seqNum), last, seqNum, id, asset, part);
    } else {
      assert changes[..n] == changes;
    }
  }

  /** The state lists a reserve of the pool with that asset and that part. */
  ghost predicate PartShown(s: LedgerState, id: string, asset: string, part: Part, value: Atom) {
    exists p, r :: p in s.pools && p.info.contract == id && r in p.reserves && r.asset == asset && PartOf(r, part) == Some(value)
  }

  lemma PricedParts(oracles: map<Key, Oracle>, p: Pool, asset: string, part: Part)
    ensures PartIn(PricePool(oracles, p).reserves, asset, part) == PartIn(p.reserves, asset, part)
  {
    hide PriceReserve;
    if Contract(p.info.oracle) in oracles && Contract(asset) in p.reserves {
      PricedPart(oracles[Contract(p.info.oracle)], p.reserves[Contract(asset)], part);
    }
  }

  lemma PricedPart(o: Oracle, r: Reserve, part: Part)
    ensures PartOf(PriceReserve(o, r), part) == PartOf(r, part) && PriceReserve(o, r).asset == r.asset
  {
  }

  lemma BuiltParts(b: Mirror, oracles: map<Key, Oracle>, p: Pool, asset: string, part: Part)
    ensures PartIn(BuildPool(b, oracles, p).reserves, asset, part) == PartIn(p.reserves, asset, part)
  {
    PricedParts(oracles, p, asset, part);
    hide PricePool, Published, Ambiguous, Unknown, ReserveSlice, PartOf;
  }

  lemma ListedReserve(p: Pool, asset: string, part: Part)
    requires KeyedBy(p.reserves, ReserveKey) && PartIn(p.reserves, asset, part).Some?
    ensures var r := p.reserves[Contract(asset)];
      r in PublishPool(p).reserves && r.asset == asset && PartOf(r, part) == PartIn(p.reserves, asset, part)
  {
    ReserveSliceFacts(p.reserves);
    hide ReserveSlice, PartOf;
  }

  lemma PartPublished(b: Mirror, closeTime: Option<int>, id: string, asset: string, part: Part, value: Atom)
    requires Coherent(b) && PartAt(b, id, asset, part) == Some(value)
    ensures PartShown(PublishAll(Built(b, closeTime)), id, asset, part, value)
  {
    hide Slice, Users, BuildPool, ResolveAggregators, TrimmedFeeds, PartOf, PartIn, KeyedBy, Fresh, ReserveSlice, Coherent;
    var k, c := Contract(id), Built(b, closeTime);
    BuiltPools(b, closeTime);
    BuiltParts(b, ResolveAggregators(b, closeTime), b.pools[k], asset, part);
    assert PoolOk(k, c.pools[k]);
    ListedReserve(c.pools[k], asset, part);
    var published := map k | k in c.pools :: PublishPool(c.pools[k]);
    SliceHas(published, k);
    assert published[k] in PublishAll(c).pools;
  }

  /** The last live reserve entry of a ledger that carries a part of a reserve is what its state shows of it. */
  lemma LastPartShows(cfg: Owned, prior: Option<LedgerState>, changes: seq<Change>, n: nat, seqNum: int, closeTime: Option<int>,
                      asset: string, part: Part, value: Atom)
    requires prior.Some? ==> WellFormed(prior.value)
    requires n < |changes| && WritesPart(changes[n], seqNum, asset, part, value)
    requires changes[n].contract !in cfg.feeds && changes[n].contract !in cfg.assets
    requires forall m :: n < m < |changes| ==> !Rewrites(changes[m], seqNum, changes[n].contract, asset, part)
    ensures PartShown(Decode(cfg, prior, changes, seqNum, closeTime).state, changes[n].contract, asset, part, value)
  {
    hide WellFormed, Decode, Apply, LoadPrior, Built, PublishAll, Coherent, PartAt, PartShown, Rewrites, WritesPart;
    var start, id := LoadPrior(prior), changes[n].contract;
    assert changes[..n + 1][..n] == changes[..n];
    PartWritten(cfg, ApplyAll(cfg, start, changes[..n], seqNum), changes[n], seqNum, asset, part, value);
    PartSettled(cfg, start, changes, n + 1, seqNum, id, asset, part);
    Run.ReferenceState(cfg, prior, changes, seqNum, closeTime);
    PartPublished(ApplyAll(cfg, start, changes, seqNum), closeTime, id, asset, part, value);
  }

  /** And the last emission entry that carries an emission field of the reserve it names. */
  lemma LastEmissionShows(cfg: Owned, prior: Option<LedgerState>, changes: seq<Change>, n: nat, seqNum: int,
                          closeTime: Option<int>, token: nat, isConfig: bool, asset: string, part: Part, value: Atom)
    requires prior.Some? ==> WellFormed(prior.value)
    requires n < |changes| && changes[n].contract !in cfg.feeds && changes[n].contract !in cfg.assets
    requires IsWrite(changes[n], seqNum, if isConfig then EmisConfigKey(token) else EmisDataKey(token), Said(changes[n]))
    requires CarriedEmission(token % 2, isConfig, Said(changes[n]), part) == Some(value)
    requires var claimed := EnsurePool(ApplyAll(cfg, LoadPrior(prior), changes[..n], seqNum), changes[n].contract).byIndex;
      token / 2 in claimed && claimed[token / 2] == asset
    requires forall m :: n < m < |changes| ==> !Rewrites(changes[m], seqNum, changes[n].contract, asset, part)
    ensures PartShown(Decode(cfg, prior, changes, seqNum, closeTime).state, changes[n].contract, asset, part, value)
  {
    hide WellFormed, Decode, Apply, LoadPrior, Built, PublishAll, Coherent, PartAt, PartShown, Rewrites, EnsurePool,
      CarriedEmission;
    var start, id := LoadPrior(prior), changes[n].contract;
    assert changes[..n + 1][..n] == changes[..n];
    EmissionWritten(cfg, ApplyAll(cfg, start, changes[..n], seqNum), changes[n], seqNum, token, isConfig, asset, part, value);
    PartSettled(cfg, start, changes, n + 1, seqNum, id, asset, part);
    Run.ReferenceState(cfg, prior, changes, seqNum, closeTime);
    PartPublished(ApplyAll(cfg, start, changes, seqNum), closeTime, id, asset, part, value);
  }
}
