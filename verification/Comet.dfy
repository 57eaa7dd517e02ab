/** One liquidity pool behind a backstop, and what its carrier keeps of it (blend/state_comet.go).

    Three facets are decoded from three entries, each known or not by itself: the token list, the record
    map and the share total. The carrier holds one merged list of tokens with reserves, so which of the
    two lists were known is lost, and so is a record of a token outside the list. The results here say
    what always survives a reload, and exactly when nothing later can tell a reloaded pool from the
    original. */
module Comet {
  import opened Keys
  import opened Options
  import opened Slices

  /** The text of a decoded integer. */
  type Digits = s: string | s != "" witness "0"

  datatype TokenReserve = TokenReserve(asset: Key, reserve: string)

  datatype Carrier = Carrier(wasmHash: string, tokens: Option<seq<TokenReserve>>, totalShares: string)

  datatype Facets = Facets(
    wasmHash: string, tokens: Option<seq<Key>>, records: Option<map<Key, Digits>>, totalShares: Option<Digits>)

  const Empty: Facets := Facets("", None, None, None)

  /** A change to one of the pool's entries; None is a value that does not decode. */
  datatype Event =
    | Instance(hash: Option<string>)
    | TokenVec(tokens: Option<seq<Key>>)
    | RecordData(records: Option<map<Key, Digits>>)
    | TotalShares(total: Option<Digits>)
    | OtherEntry
    | InstanceGone
    | TokenVecGone
    | RecordDataGone
    | TotalSharesGone

  function Apply(f: Facets, e: Event): Facets {
    match e
    case Instance(hash) => if hash.Some? then f.(wasmHash := hash.value) else f
    case TokenVec(tokens) => if tokens.Some? then f.(tokens := tokens) else f
    case RecordData(records) => if records.Some? then f.(records := records) else f
    case TotalShares(total) => if total.Some? then f.(totalShares := total) else f
    case OtherEntry => f
    case InstanceGone => f.(wasmHash := "")
    case TokenVecGone => f.(tokens := None)
    case RecordDataGone => f.(records := None)
    case TotalSharesGone => f.(totalShares := None)
  }

  /** A decoded value becomes its facet, a value that does not decode changes nothing, and a removal makes its facet
      unknown; no other facet moves. */
  lemma EveryEvent(f: Facets, hash: string, tokens: seq<Key>, records: map<Key, Digits>, total: Digits)
    ensures Apply(f, Instance(Some(hash))) == Facets(hash, f.tokens, f.records, f.totalShares)
    ensures Apply(f, TokenVec(Some(tokens))) == Facets(f.wasmHash, Some(tokens), f.records, f.totalShares)
    ensures Apply(f, RecordData(Some(records))) == Facets(f.wasmHash, f.tokens, Some(records), f.totalShares)
    ensures Apply(f, TotalShares(Some(total))) == Facets(f.wasmHash, f.tokens, f.records, Some(total))
    ensures Apply(f, Instance(None)) == Apply(f, TokenVec(None)) == Apply(f, RecordData(None))
            == Apply(f, TotalShares(None)) == Apply(f, OtherEntry) == f
    ensures Apply(f, InstanceGone) == Facets("", f.tokens, f.records, f.totalShares)
    ensures Apply(f, TokenVecGone) == Facets(f.wasmHash, None, f.records, f.totalShares)
    ensures Apply(f, RecordDataGone) == Facets(f.wasmHash, f.tokens, None, f.totalShares)
    ensures Apply(f, TotalSharesGone) == Facets(f.wasmHash, f.tokens, f.records, None)
  {
  }

  function Run(f: Facets, events: seq<Event>): Facets
    decreases |events|
  {
    if events == [] then f else Run(Apply(f, events[0]), events[1..])
  }

  /** The token's decoded reserve, empty while the records are unknown or do not name it. */
  function ReserveOf(f: Facets, asset: Key): string { ReserveIn(f.records, asset) }

  function ReserveIn(records: Option<map<Key, Digits>>, asset: Key): string {
    if records.Some? && asset in records.value then records.value[asset] else ""
  }

  // ---- the carrier -----------------------------------------------------------------------------

  function AssetOf(row: TokenReserve): Key { row.asset }

  function Priced(records: Option<map<Key, Digits>>): Key -> TokenReserve {
    asset => TokenReserve(asset, ReserveIn(records, asset))
  }

  function Map<A, B>(s: seq<A>, g: A -> B): (r: seq<B>)
    ensures |r| == |s|
    ensures forall i :: 0 <= i < |s| ==> r[i] == g(s[i])
  {
    seq(|s|, i requires 0 <= i < |s| => g(s[i]))
  }

  function Listed(f: Facets): seq<Key> { if f.tokens.Some? then f.tokens.value else [] }

  function Recorded(f: Facets): set<Key> { if f.records.Some? then f.records.value.Keys else {} }

  /** Records whose token is not on the list are emitted after it. */
  function Extras(f: Facets): seq<Key> { Ascending(Recorded(f) - (set t | t in Listed(f))) }

  function Assets(f: Facets): seq<Key> { Listed(f) + Extras(f) }

  function Built(f: Facets): Carrier {
    Carrier(
      f.wasmHash,
      if f.tokens.None? && f.records.None? then None else Some(SortBy(Map(Assets(f), Priced(f.records)), AssetOf)),
      if f.totalShares.Some? then f.totalShares.value else "")
  }

  function RecordsOf(rows: seq<TokenReserve>): map<Key, Digits> {
    if rows == [] then map[]
    else
      var m, row := RecordsOf(rows[..|rows| - 1]), rows[|rows| - 1];
      if row.reserve != "" then m[row.asset := row.reserve] else m
  }

  function Restored(c: Carrier): Facets {
    if c.tokens.None? then Facets(c.wasmHash, None, None, if c.totalShares != "" then Some(c.totalShares) else None)
    else
      var rows := c.tokens.value;
      Facets(
        c.wasmHash,
        Some(Map(rows, AssetOf)),
        if RecordsOf(rows) != map[] || rows == [] then Some(RecordsOf(rows)) else None,
        if c.totalShares != "" then Some(c.totalShares) else None)
  }

  // ---- the builder -----------------------------------------------------------------------------

  class CometPool {
    var wasmHash: string
    var tokens: seq<Key>
    var tokenKnown: bool
    var records: map<Key, Digits>
    var recordsKnown: bool
    var totalSharesRaw: string
    var totalSharesKnown: bool

    /** An unknown facet is empty. */
    ghost predicate Valid()
      reads this
    {
      && (!tokenKnown ==> tokens == [])
      && (!recordsKnown ==> records == map[])
      && (totalSharesKnown <==> totalSharesRaw != "")
    }

    ghost function View(): Facets
      reads this
      requires Valid()
    {
      Facets(
        wasmHash,
        if tokenKnown then Some(tokens) else None,
        if recordsKnown then Some(records) else None,
        if totalSharesKnown then Some(totalSharesRaw) else None)
    }

    constructor ()
      ensures Valid() && View() == Empty
    {
      wasmHash, tokens, tokenKnown, records, recordsKnown := "", [], false, map[], false;
      totalSharesRaw, totalSharesKnown := "", false;
    }

    method ApplyChange(e: Event)
      requires Valid()
      modifies this
      ensures Valid() && View() == Apply(old(View()), e)
    {
      match e
      case Instance(hash) =>
        if hash.Some? { wasmHash := hash.value; }
      case TokenVec(decoded) =>
        if decoded.Some? { tokens, tokenKnown := decoded.value, true; }
      case RecordData(decoded) =>
        if decoded.Some? { records, recordsKnown := decoded.value, true; }
      case TotalShares(total) =>
        if total.Some? { totalSharesRaw, totalSharesKnown := total.value, true; }
      case OtherEntry =>
      case InstanceGone =>
        wasmHash := "";
      case TokenVecGone =>
        tokens, tokenKnown := [], false;
      case RecordDataGone =>
        records, recordsKnown := map[], false;
      case TotalSharesGone =>
        totalSharesRaw, totalSharesKnown := "", false;
    }

    /** Fills a pool just created from its carrier. */
    method Restore(c: Carrier)
      requires Valid() && View() == Empty
      modifies this
      ensures Valid() && View() == Restored(c)
    {
      hide Map, RecordsOf;
      wasmHash := c.wasmHash;
      if c.tokens.Some? {
        RestoreRows(c.tokens.value);
      }
      if c.totalShares != "" {
        totalSharesRaw, totalSharesKnown := c.totalShares, true;
      }
    }

    /** The token list, and the records its reserves prove. */
    method RestoreRows(rows: seq<TokenReserve>)
      requires tokens == [] && records == map[] && !recordsKnown
      modifies this`tokens, this`tokenKnown, this`records, this`recordsKnown
      ensures tokenKnown && tokens == Map(rows, AssetOf) && records == RecordsOf(rows)
      ensures recordsKnown <==> RecordsOf(rows) != map[] || rows == []
    {
      tokenKnown, tokens := true, [];
      for i := 0 to |rows|
        invariant tokenKnown
        invariant tokens == Map(rows[..i], AssetOf)
        invariant records == RecordsOf(rows[..i])
        invariant recordsKnown <==> records != map[]
      {
        assert rows[..i + 1][..i] == rows[..i];
        tokens := tokens + [rows[i].asset];
        if rows[i].reserve != "" {
          records := records[rows[i].asset := rows[i].reserve];
          recordsKnown := true;
          assert rows[i].asset in records;
        }
      }
      assert rows[..|rows|] == rows;
      if |rows| == 0 {
        recordsKnown := true;
      }
    }

    method Build() returns (c: Carrier)
      requires Valid()
      ensures c == Built(View())
    {
      hide Ascending, SortBy, Map;
      var rows: Option<seq<TokenReserve>> := None;
      if tokenKnown || recordsKnown {
        var known := if recordsKnown then Some(records) else None;
        var extras := Ascending(records.Keys - set t | t in tokens);
        assert [] == Map<Key, TokenReserve>([], Priced(known)) && [] + tokens == tokens;
        var found := AppendRows([], [], tokens, known);
        found := AppendRows(found, tokens, extras, known);
        rows := Some(SortBy(found, AssetOf));
      }
      c := Carrier(wasmHash, rows, totalSharesRaw);
    }

    /** Append one row for each asset of a list, with its record's balance if it has one. */
    static method AppendRows(before: seq<TokenReserve>, ghost done: seq<Key>, assets: seq<Key>,
                             records: Option<map<Key, Digits>>)
      returns (found: seq<TokenReserve>)
      requires before == Map(done, Priced(records))
      ensures found == Map(done + assets, Priced(records))
    {
      found := before;
      assert done + assets[..0] == done;
      for i := 0 to |assets|
        invariant found == Map(done + assets[..i], Priced(records))
      {
        found := found + [TokenReserve(assets[i], ReserveIn(records, assets[i]))];
        MapAppend(done + assets[..i], assets[i], Priced(records));
        assert done + assets[..i + 1] == done + assets[..i] + [assets[i]];
      }
      assert assets[..|assets|] == assets;
    }
  }

  lemma MapAppend<A, B>(s: seq<A>, x: A, g: A -> B)
    ensures Map(s + [x], g) == Map(s, g) + [g(x)]
  {
  }

  // ---- what always survives --------------------------------------------------------------------

  /** Every row carries the decoded reserve of its token. */
  ghost predicate Faithful(rows: seq<TokenReserve>, f: Facets) {
    forall row <- rows :: row.reserve == ReserveOf(f, row.asset)
  }

  lemma BuiltRows(f: Facets)
    ensures var rows := SortBy(Map(Assets(f), Priced(f.records)), AssetOf);
      && Faithful(rows, f)
      && |rows| == |Assets(f)|
      && forall a :: (exists row :: row in rows && row.asset == a) <==> a in Listed(f) || a in Recorded(f)
  {
    hide Ascending, SortBy;
    var unsorted := Map(Assets(f), Priced(f.records));
    var rows := SortBy(unsorted, AssetOf);
    SameElements(rows, unsorted);
    forall a ensures (exists row :: row in rows && row.asset == a) <==> a in Assets(f) {
      PricedRow(f, a);
    }
    forall row | row in rows ensures row.reserve == ReserveOf(f, row.asset) {
      assert row in unsorted;
    }
    AssetsAre(f);
  }

  ghost predicate HasRow(rows: seq<TokenReserve>, asset: Key) { exists row :: row in rows && row.asset == asset }

  /** The rows are those of every listed and every recorded token, in key order, each with its decoded reserve or none. */
  ghost predicate RowsShow(rows: seq<TokenReserve>, f: Facets) {
    && (forall row <- rows ::
          row.reserve == if f.records.Some? && row.asset in f.records.value then f.records.value[row.asset] else "")
    && (forall a :: HasRow(rows, a) <==> (f.tokens.Some? && a in f.tokens.value) || (f.records.Some? && a in f.records.value))
    && forall i, j :: 0 <= i < j < |rows| ==> !KeyLess(rows[j].asset, rows[i].asset)
  }

  lemma RowsInOrder(rows: seq<TokenReserve>)
    requires SortedBy(rows, AssetOf)
    ensures forall i, j :: 0 <= i < j < |rows| ==> !KeyLess(rows[j].asset, rows[i].asset)
  {
    forall i, j | 0 <= i < j < |rows| ensures !KeyLess(rows[j].asset, rows[i].asset) {
      assert AssetOf(rows[i]) == rows[i].asset && AssetOf(rows[j]) == rows[j].asset;
    }
  }

  lemma FaithfulShow(rows: seq<TokenReserve>, f: Facets)
    requires Faithful(rows, f) && SortedBy(rows, AssetOf)
    requires forall a :: (exists row :: row in rows && row.asset == a) <==> a in Listed(f) || a in Recorded(f)
    ensures RowsShow(rows, f)
  {
    RowsInOrder(rows);
    hide KeyLess, SortedBy, Faithful;
    ReservesShow(rows, f);
    forall a ensures HasRow(rows, a) <==> (f.tokens.Some? && a in f.tokens.value) || (f.records.Some? && a in f.records.value) {
      assert (exists row :: row in rows && row.asset == a) <==> a in Listed(f) || a in Recorded(f);
    }
  }

  lemma ReservesShow(rows: seq<TokenReserve>, f: Facets)
    requires Faithful(rows, f)
    ensures forall row <- rows ::
              row.reserve == if f.records.Some? && row.asset in f.records.value then f.records.value[row.asset] else ""
  {
  }

  lemma BuiltShow(f: Facets)
    ensures RowsShow(SortBy(Map(Assets(f), Priced(f.records)), AssetOf), f)
  {
    BuiltRows(f);
    SortBySorts(Map(Assets(f), Priced(f.records)), AssetOf);
    hide SortBy, Map, Assets, RowsShow, Faithful, SortedBy;
    FaithfulShow(SortBy(Map(Assets(f), Priced(f.records)), AssetOf), f);
  }

  /** The carrier shows the wasm hash and the share total, and the rows of the tokens once a list or records are known. */
  lemma CarrierExactly(f: Facets)
    ensures var c := Built(f);
      && c.wasmHash == f.wasmHash && c.totalShares == (if f.totalShares.Some? then f.totalShares.value else "")
      && (c.tokens.None? <==> f.tokens.None? && f.records.None?)
      && (c.tokens.Some? ==> RowsShow(c.tokens.value, f))
  {
    hide SortBy, Map, Assets, RowsShow;
    BuiltShow(f);
  }

  lemma AssetsAre(f: Facets)
    ensures forall a :: a in Assets(f) <==> a in Listed(f) || a in Recorded(f)
  {
    hide Ascending;
  }

  lemma PricedRow(f: Facets, a: Key)
    ensures (exists row :: row in Map(Assets(f), Priced(f.records)) && row.asset == a) <==> a in Assets(f)
  {
    hide Assets;
    var rows := Map(Assets(f), Priced(f.records));
    if a in Assets(f) {
      var i :| 0 <= i < |Assets(f)| && Assets(f)[i] == a;
      assert rows[i] in rows;
    }
  }

  lemma {:induction false} RecordsFound(rows: seq<TokenReserve>, f: Facets)
    requires Faithful(rows, f)
    ensures forall a :: a in RecordsOf(rows) <==> a in Recorded(f) && exists row :: row in rows && row.asset == a
    ensures forall a :: a in RecordsOf(rows) ==> RecordsOf(rows)[a] == ReserveOf(f, a)
  {
    if rows != [] {
      var init, last := rows[..|rows| - 1], rows[|rows| - 1];
      assert rows == init + [last];
      RecordsFound(init, f);
      forall a | a in Recorded(f) && exists row :: row in rows && row.asset == a ensures a in RecordsOf(rows) {
        var row :| row in rows && row.asset == a;
        assert row in init || row == last;
        assert ReserveOf(f, a) != "";
      }
      forall a | a in RecordsOf(rows) ensures a in Recorded(f) && exists row :: row in rows && row.asset == a {
        if a == last.asset {
          assert last in rows;
        } else {
          var row :| row in init && row.asset == a;
          assert row in rows;
        }
      }
    }
  }

  /** The reload finds every decoded reserve again, and none that was not decoded. */
  lemma RecordsSurvive(f: Facets)
    ensures var c := Built(f);
      c.tokens.Some? ==> RecordsOf(c.tokens.value) == if f.records.Some? then f.records.value else map[]
  {
    hide SortBy, Map, RecordsOf, Assets;
    if f.tokens.Some? || f.records.Some? {
      var rows := SortBy(Map(Assets(f), Priced(f.records)), AssetOf);
      BuiltRows(f);
      RecordsFound(rows, f);
      AllFound(rows, f);
    }
  }

  lemma AllFound(rows: seq<TokenReserve>, f: Facets)
    requires forall a :: a in RecordsOf(rows) <==> a in Recorded(f) && exists row :: row in rows && row.asset == a
    requires forall a :: a in RecordsOf(rows) ==> RecordsOf(rows)[a] == ReserveOf(f, a)
    requires forall a :: (exists row :: row in rows && row.asset == a) <==> a in Listed(f) || a in Recorded(f)
    ensures RecordsOf(rows) == if f.records.Some? then f.records.value else map[]
  {
    hide RecordsOf;
  }

  /** What valuation reads is the same after every reload: each token's reserve, the share total and the
      wasm hash. */
  lemma ValuationSurvives(f: Facets, asset: Key)
    ensures var g := Restored(Built(f));
      ReserveOf(g, asset) == ReserveOf(f, asset) && g.totalShares == f.totalShares && g.wasmHash == f.wasmHash
  {
    hide SortBy, Map, RecordsOf;
    RecordsSurvive(f);
  }

  // ---- pools that differ in token order only ---------------------------------------------------

  ghost predicate Alike(f: Facets, g: Facets) {
    && f.wasmHash == g.wasmHash
    && f.totalShares == g.totalShares
    && f.records == g.records
    && (f.tokens.Some? <==> g.tokens.Some?)
    && multiset(Listed(f)) == multiset(Listed(g))
  }

  lemma MapAround<A, B>(u: seq<A>, x: A, w: seq<A>, g: A -> B)
    ensures multiset(Map((u + [x]) + w, g)) == multiset(Map(u + w, g)) + multiset{g(x)}
  {
    assert Map((u + [x]) + w, g) == Map(u, g) + [g(x)] + Map(w, g);
    assert Map(u + w, g) == Map(u, g) + Map(w, g);
  }

  lemma {:induction false} MapRearranged<A, B>(a: seq<A>, b: seq<A>, g: A -> B)
    requires multiset(a) == multiset(b)
    ensures multiset(Map(a, g)) == multiset(Map(b, g))
    decreases |a|
  {
    hide Map;
    SameElements(a, b);
    if a == [] {
      assert b == [];
    } else {
      var init, x := a[..|a| - 1], a[|a| - 1];
      assert a == init + [x] && x in b;
      var i :| 0 <= i < |b| && b[i] == x;
      var u, w := b[..i], b[i + 1..];
      assert b == (u + [x]) + w;
      CancelOne(init, u, w, x);
      MapRearranged(init, u + w, g);
      MapAround(init, x, [], g);
      MapAround(u, x, w, g);
      assert (init + [x]) + [] == a && init + [] == init;
    }
  }

  /** The carrier does not depend on the order of the token list. */
  lemma AlikeBuilt(f: Facets, g: Facets)
    requires Alike(f, g)
    ensures Built(f) == Built(g)
  {
    hide SortBy, Map, Assets;
    AssetsRearranged(f, g);
    MapRearranged(Assets(f), Assets(g), Priced(f.records));
    RowsDetermined(f);
    SortSame(Map(Assets(f), Priced(f.records)), Map(Assets(g), Priced(f.records)), AssetOf);
  }

  lemma AssetsRearranged(f: Facets, g: Facets)
    requires Alike(f, g)
    ensures multiset(Assets(f)) == multiset(Assets(g))
  {
    hide Ascending;
    SameElements(Listed(f), Listed(g));
    assert (set t | t in Listed(f)) == (set t | t in Listed(g));
  }

  lemma RowsDetermined(f: Facets)
    ensures KeyDetermines(Map(Assets(f), Priced(f.records)), AssetOf)
  {
    hide Assets;
  }

  lemma AlikeApply(f: Facets, g: Facets, e: Event)
    requires Alike(f, g)
    ensures Alike(Apply(f, e), Apply(g, e))
  {
  }

  lemma {:induction false} AlikeRun(f: Facets, g: Facets, events: seq<Event>)
    requires Alike(f, g)
    ensures Alike(Run(f, events), Run(g, events))
    decreases |events|
  {
    hide Alike, Apply;
    if events != [] {
      AlikeApply(f, g, events[0]);
      AlikeRun(Apply(f, events[0]), Apply(g, events[0]), events[1..]);
    }
  }

  // ---- exactly when a reload cannot be told from the original ----------------------------------

  /** No later run of changes makes the two pools emit different carriers. */
  ghost predicate Indistinguishable(f: Facets, g: Facets) {
    forall events: seq<Event> :: Built(Run(f, events)) == Built(Run(g, events))
  }

  /** Known records imply a known token list that covers them, and the record map is known just when it
      has a record or the list is empty. */
  predicate Carried(f: Facets) {
    && (f.records.Some? ==> f.tokens.Some?)
    && (forall a :: a in Recorded(f) ==> a in Listed(f))
    && (f.tokens.Some? ==> (f.records.Some? <==> Recorded(f) != {} || f.tokens.value == []))
  }

  lemma {:induction false} SortByRearrangesAssets(rows: seq<TokenReserve>)
    ensures multiset(Map(SortBy(rows, AssetOf), AssetOf)) == multiset(Map(rows, AssetOf))
  {
    MapRearranged(SortBy(rows, AssetOf), rows, AssetOf);
  }

  /** The reloaded token list is the listed and the recorded tokens, rearranged. */
  lemma RestoredTokens(f: Facets)
    requires Built(f).tokens.Some?
    ensures Restored(Built(f)).tokens.Some?
    ensures multiset(Listed(Restored(Built(f)))) == multiset(Assets(f))
  {
    hide SortBy, Assets, RecordsOf;
    var rows := Map(Assets(f), Priced(f.records));
    SortByRearrangesAssets(rows);
    assert Map(rows, AssetOf) == Assets(f);
  }

  lemma RestoredRecords(f: Facets)
    ensures var g := Restored(Built(f));
      && Recorded(g) == Recorded(f)
      && (g.records.Some? && f.records.Some? ==> g.records == f.records)
      && (g.tokens.Some? <==> f.tokens.Some? || f.records.Some?)
      && (g.records.Some? <==> Recorded(f) != {} || (g.tokens.Some? && Assets(f) == []))
  {
    hide SortBy, Map, RecordsOf, Assets;
    RecordsSurvive(f);
    if Built(f).tokens.Some? {
      RestoredTokens(f);
      SameElements(Listed(Restored(Built(f))), Assets(f));
      NoRows(f);
    }
  }

  lemma NoRows(f: Facets)
    requires Built(f).tokens.Some?
    ensures Built(f).tokens.value == [] <==> Assets(f) == []
  {
    hide Assets, SortBy;
    SameElements(SortBy(Map(Assets(f), Priced(f.records)), AssetOf), Map(Assets(f), Priced(f.records)));
  }

  lemma CarriedIsAlike(f: Facets)
    requires Carried(f)
    ensures Alike(f, Restored(Built(f)))
  {
    hide Restored, Built;
    ValuationSurvives(f, Contract(""));
    RestoredRecords(f);
    assert Extras(f) == [] by { NoExtras(f); }
    assert Assets(f) == Listed(f);
    if f.tokens.Some? {
      assert Built(f).tokens.Some? by { KnownTokens(f); }
      RestoredTokens(f);
    }
  }

  lemma NoExtras(f: Facets)
    ensures Extras(f) == [] <==> forall a :: a in Recorded(f) ==> a in Listed(f)
  {
    var rest := Recorded(f) - (set t | t in Listed(f));
    if Extras(f) == [] {
      forall a | a in Recorded(f) ensures a in Listed(f) {
        assert a in rest <==> a in Ascending(rest);
      }
    } else {
      assert Ascending(rest)[0] in Ascending(rest);
    }
  }

  lemma KnownTokens(f: Facets)
    ensures Built(f).tokens.Some? <==> f.tokens.Some? || f.records.Some?
  {
  }

  lemma RunOne(f: Facets, e: Event)
    ensures Run(f, [e]) == Apply(f, e)
  {
    assert [e][1..] == [];
    assert Run(Apply(f, e), []) == Apply(f, e);
  }

  /** One change after which the two carriers differ, for a pool that is not carried. */
  lemma NotCarriedShows(f: Facets) returns (e: Event)
    requires !Carried(f)
    ensures Built(Apply(f, e)) != Built(Apply(Restored(Built(f)), e))
  {
    hide Restored, Built, Assets;
    var g := Restored(Built(f));
    RestoredRecords(f);
    NoExtras(f);
    if f.records.Some? && f.tokens.None? {
      e := RecordDataGone;
      KnownTokens(Apply(f, e));
      KnownTokens(Apply(g, e));
    } else if Extras(f) != [] {
      e := RecordDataGone;
      KnownTokens(f);
      RestoredTokens(f);
      MoreTokens(f, g, e);
    } else {
      e := TokenVecGone;
      assert Assets(f) == Listed(f) by { AssetsListed(f); }
      KnownTokens(Apply(f, e));
      KnownTokens(Apply(g, e));
    }
  }

  lemma AssetsListed(f: Facets)
    requires Extras(f) == []
    ensures Assets(f) == Listed(f)
  {
  }

  lemma MoreTokens(f: Facets, g: Facets, e: Event)
    requires e == RecordDataGone && f.tokens.Some? && g.tokens.Some?
    requires multiset(Listed(g)) == multiset(Assets(f)) && Extras(f) != []
    ensures Built(Apply(f, e)) != Built(Apply(g, e))
  {
    SameElements(Listed(g), Assets(f));
    RowCount(Apply(f, e));
    RowCount(Apply(g, e));
  }

  lemma RowCount(f: Facets)
    requires f.tokens.Some? && f.records.None?
    ensures Built(f).tokens.Some? && |Built(f).tokens.value| == |f.tokens.value|
  {
    SameElements(SortBy(Map(Assets(f), Priced(f.records)), AssetOf), Map(Assets(f), Priced(f.records)));
  }

  /** A reload is indistinguishable from the pool it was taken of just when the carrier holds all of it;
      any other pool is given away by the very next change. */
  lemma ReloadIndistinguishable(f: Facets)
    ensures Indistinguishable(f, Restored(Built(f))) <==> Carried(f)
  {
    hide Restored, Built, Carried;
    var g := Restored(Built(f));
    if Carried(f) {
      CarriedIsAlike(f);
      forall events: seq<Event> ensures Built(Run(f, events)) == Built(Run(g, events)) {
        AlikeRun(f, g, events);
        AlikeBuilt(Run(f, events), Run(g, events));
      }
    } else {
      var e := NotCarriedShows(f);
      RunOne(f, e);
      RunOne(g, e);
      assert Built(Run(f, [e])) != Built(Run(g, [e]));
    }
  }

  // ---- pools that are received -----------------------------------------------------------------

  /** Changes that leave a new pool with these facets. */
  function EventsFor(f: Facets): seq<Event> {
    [Instance(Some(f.wasmHash)), TokenVec(f.tokens), RecordData(f.records), TotalShares(f.totalShares)]
  }

  /** Every combination of facets is reached from a new pool, so the condition of the reload is about pools the decoder
      holds. */
  lemma EveryPoolIsReceived(f: Facets)
    ensures Run(Empty, EventsFor(f)) == f
  {
    var es := EventsFor(f);
    var a := Apply(Empty, es[0]);
    var b := Apply(a, es[1]);
    var c := Apply(b, es[2]);
    assert es[1..][1..] == es[2..] && es[2..][1..] == es[3..] && es[3..][1..] == [];
    assert Run(a, es[1..]) == Run(b, es[2..]) == Run(c, es[3..]) == Run(Apply(c, es[3]), []);
  }

  lemma RunTwo(f: Facets, e: Event, e': Event)
    ensures Run(f, [e, e']) == Apply(Apply(f, e), e')
  {
    assert [e, e'][1..] == [e'];
    RunOne(Apply(f, e), e');
  }

  /** The record map arrives and no token list: after the records lapse the pool emits no tokens, its reload an empty
      reserve. */
  lemma RecordsWithoutList(asset: Key, reserve: Digits)
    ensures var f := Run(Empty, [RecordData(Some(map[asset := reserve]))]);
            var g := Restored(Built(f));
            && !Carried(f)
            && Built(Apply(f, RecordDataGone)).tokens == None
            && Built(Apply(g, RecordDataGone)).tokens.Some?
  {
    hide Restored, Built;
    var e := RecordData(Some(map[asset := reserve]));
    RunOne(Empty, e);
    var f := Apply(Empty, e);
    RestoredRecords(f);
    KnownTokens(Apply(f, RecordDataGone));
    KnownTokens(Apply(Restored(Built(f)), RecordDataGone));
  }

  /** A token list with a decoded empty record map, which the source calls safe to collapse: after the list lapses the
      pool emits an empty token list, its reload none. */
  lemma EmptyRecordsForgotten(asset: Key)
    ensures var f := Run(Empty, [TokenVec(Some([asset])), RecordData(Some(map[]))]);
            var g := Restored(Built(f));
            && !Carried(f)
            && Built(Apply(f, TokenVecGone)).tokens == Some([])
            && Built(Apply(g, TokenVecGone)).tokens == None
  {
    var d, e: Event := TokenVec(Some([asset])), RecordData(Some(map[]));
    RunTwo(Empty, d, e);
    var f := Apply(Apply(Empty, d), e);
    assert f.tokens == Some([asset]) && f.records == Some(map[]);
    var h := Apply(f, TokenVecGone);
    assert Extras(h) == [] && Assets(h) == [];
    hide Restored, Built;
    RestoredRecords(f);
    assert Assets(f) != [] by { assert asset in Listed(f); }
    KnownTokens(Apply(Restored(Built(f)), TokenVecGone));
    KnownTokens(h);
    NoRows(h);
  }
}
