/**
 * The services screen: a service record normalised from stored or edited
 * data, the filter dialog's criteria, the text-column sort, and the save and
 * delete edits on `state.services`.
 */
module Services {
  import opened Wrappers
  import opened Strings
  import opened Json
  import opened Seqs
  import opened Listing

  /** A service as `normalizeService` builds it. */
  datatype Service = Service(
    id: string,
    routine: string,
    tipo: string,
    servizio: string,
    operation: string,
    fallback: string,
    descrizione: string,
    ambito: string,
    applicativo: string,
    paramsIngresso: string,
    outputServizio: string,
    stato: string)

  /**
   * `String(s.tipo || "REST").toUpperCase() === "SOAP" ? "SOAP" : "REST"`:
   * the only two kinds, SOAP exactly when the upper-cased text is `SOAP`.
   */
  function TipoOf(s: Option<Json>): (r: string)
    ensures r == "SOAP" || r == "REST"
    ensures r == "SOAP" <==> Truthy(GetOpt(s, "tipo")) && Upper(ToStr(GetOpt(s, "tipo").value)) == "SOAP"
  {
    var t := if Truthy(GetOpt(s, "tipo")) then ToStr(GetOpt(s, "tipo").value) else "REST";
    assert Upper("REST")[0] == 'R';
    if Upper(t) == "SOAP" then "SOAP" else "REST"
  }

  /** The record `normalizeService(s)` returns for a value it can read; `freshId` stands for `crypto.randomUUID()`. */
  function ServiceOf(s: Option<Json>, freshId: string): (r: Service)
    ensures Truthy(GetOpt(s, "id")) ==> r.id == ToStr(GetOpt(s, "id").value)
    ensures !Truthy(GetOpt(s, "id")) ==> r.id == freshId
    ensures r.tipo == "SOAP" || r.tipo == "REST"
  {
    Service(
      id := if Truthy(GetOpt(s, "id")) then ToStr(GetOpt(s, "id").value) else freshId,
      routine := Text(s, "routine"),
      tipo := TipoOf(s),
      servizio := Text(s, "servizio"),
      operation := TextField(s, "operation", "operation / parametro"),
      fallback := TextField(s, "fallback", "fallback JDBC/SWP"),
      descrizione := Text(s, "descrizione"),
      ambito := Text(s, "ambito"),
      applicativo := Text(s, "applicativo"),
      paramsIngresso := TextField(s, "paramsIngresso", "parametriIngresso"),
      outputServizio := TextField(s, "outputServizio", "output"),
      stato := Text(s, "stato"))
  }

  /**
   * `normalizeService(s)`: `undefined` is read as `{}`; `null` makes the
   * first property access throw, which is `None` here.
   */
  function NormalizeService(s: Option<Json>, freshId: string): (r: Option<Service>)
    ensures r.None? <==> s == Some(JNull)
    ensures r.Some? ==> r.value == ServiceOf(s, freshId)
  {
    if s == Some(JNull) then None else Some(ServiceOf(s, freshId))
  }

  /** The form `normalizeService` produces: every text trimmed, one of the two kinds, a non-empty id. */
  predicate Clean(r: Service) {
    && r.id != "" && (r.tipo == "SOAP" || r.tipo == "REST")
    && Trimmed(r.routine) && Trimmed(r.servizio) && Trimmed(r.operation) && Trimmed(r.fallback)
    && Trimmed(r.descrizione) && Trimmed(r.ambito) && Trimmed(r.applicativo)
    && Trimmed(r.paramsIngresso) && Trimmed(r.outputServizio) && Trimmed(r.stato)
  }

  /** Every text comes out trimmed and the kind is SOAP or REST. */
  lemma NormalizeServiceClean(s: Option<Json>, freshId: string)
    requires ServiceOf(s, freshId).id != ""
    ensures Clean(ServiceOf(s, freshId))
  {
  }

  /** A legacy alias is read only when the canonical property is missing or falsy. */
  lemma NormalizeServiceAliases(s: Option<Json>, freshId: string)
    ensures var r := ServiceOf(s, freshId);
      && (Truthy(GetOpt(s, "operation")) ==> r.operation == Trim(ToStr(GetOpt(s, "operation").value)))
      && (!Truthy(GetOpt(s, "operation")) ==> r.operation == Trim(TextOr(GetOpt(s, "operation / parametro"))))
      && (Truthy(GetOpt(s, "fallback")) ==> r.fallback == Trim(ToStr(GetOpt(s, "fallback").value)))
      && (!Truthy(GetOpt(s, "fallback")) ==> r.fallback == Trim(TextOr(GetOpt(s, "fallback JDBC/SWP"))))
      && (!Truthy(GetOpt(s, "paramsIngresso")) ==> r.paramsIngresso == Trim(TextOr(GetOpt(s, "parametriIngresso"))))
      && (!Truthy(GetOpt(s, "outputServizio")) ==> r.outputServizio == Trim(TextOr(GetOpt(s, "output"))))
  {
  }

  /** The service as the object kept in the state and written to storage. */
  function ToJson(r: Service): Json {
    JObj(map[
      "id" := JStr(r.id),
      "routine" := JStr(r.routine),
      "tipo" := JStr(r.tipo),
      "servizio" := JStr(r.servizio),
      "operation" := JStr(r.operation),
      "fallback" := JStr(r.fallback),
      "descrizione" := JStr(r.descrizione),
      "ambito" := JStr(r.ambito),
      "applicativo" := JStr(r.applicativo),
      "paramsIngresso" := JStr(r.paramsIngresso),
      "outputServizio" := JStr(r.outputServizio),
      "stato" := JStr(r.stato)])
  }

  /** `m` holds each field of `r` under its canonical key and none of the legacy aliases. */
  predicate Stores(m: map<string, Json>, r: Service) {
    StoresFirst(m, r) && StoresSecond(m, r) && NoAliases(m)
  }

  predicate StoresFirst(m: map<string, Json>, r: Service) {
    && "id" in m && m["id"] == JStr(r.id)
    && "routine" in m && m["routine"] == JStr(r.routine)
    && "tipo" in m && m["tipo"] == JStr(r.tipo)
    && "servizio" in m && m["servizio"] == JStr(r.servizio)
    && "operation" in m && m["operation"] == JStr(r.operation)
    && "fallback" in m && m["fallback"] == JStr(r.fallback)
  }

  predicate StoresSecond(m: map<string, Json>, r: Service) {
    && "descrizione" in m && m["descrizione"] == JStr(r.descrizione)
    && "ambito" in m && m["ambito"] == JStr(r.ambito)
    && "applicativo" in m && m["applicativo"] == JStr(r.applicativo)
    && "paramsIngresso" in m && m["paramsIngresso"] == JStr(r.paramsIngresso)
    && "outputServizio" in m && m["outputServizio"] == JStr(r.outputServizio)
    && "stato" in m && m["stato"] == JStr(r.stato)
  }

  predicate NoAliases(m: map<string, Json>) {
    && "operation / parametro" !in m && "fallback JDBC/SWP" !in m
    && "parametriIngresso" !in m && "output" !in m
  }

  lemma ToJsonStores(r: Service)
    ensures Stores(ToJson(r).fields, r)
  {
    ToJsonStoresFirst(r);
    ToJsonStoresSecond(r);
    ToJsonNoAliases(r);
  }

  lemma ToJsonStoresFirst(r: Service)
    ensures StoresFirst(ToJson(r).fields, r)
  {
  }

  lemma ToJsonStoresSecond(r: Service)
    ensures StoresSecond(ToJson(r).fields, r)
  {
  }

  lemma ToJsonNoAliases(r: Service)
    ensures NoAliases(ToJson(r).fields)
  {
  }

  /** Normalising a clean service that was stored gives it back: `normalizeService` is idempotent. */
  lemma NormalizeServiceIdempotent(s: Option<Json>, freshId: string, freshId2: string)
    requires ServiceOf(s, freshId).id != ""
    ensures NormalizeService(Some(ToJson(ServiceOf(s, freshId))), freshId2) == Some(ServiceOf(s, freshId))
  {
    NormalizeServiceClean(s, freshId);
    CleanReadBack(ServiceOf(s, freshId), freshId2);
  }

  lemma CleanReadBack(r: Service, freshId: string)
    requires Clean(r)
    ensures ServiceOf(Some(ToJson(r)), freshId) == r
  {
    ToJsonStores(r);
    StoredReadBack(ToJson(r), r, freshId);
  }

  /** Any object that stores a clean service normalises back to it. */
  lemma StoredReadBack(j: Json, r: Service, freshId: string)
    requires Clean(r) && j.JObj? && Stores(j.fields, r)
    ensures ServiceOf(Some(j), freshId) == r
  {
    StoredIdTipo(j, r);
    StoredPlain(j, r);
    StoredAliased(j, r);
  }

  lemma StoredIdTipo(j: Json, r: Service)
    requires Clean(r) && j.JObj? && Stores(j.fields, r)
    ensures Truthy(GetOpt(Some(j), "id")) && ToStr(GetOpt(Some(j), "id").value) == r.id
    ensures TipoOf(Some(j)) == r.tipo
  {
    assert GetOpt(Some(j), "id") == Some(JStr(r.id));
    StoredTipo(j, r.tipo);
  }

  /** A stored `SOAP` or `REST` reads back as itself. */
  lemma StoredTipo(j: Json, t: string)
    requires j.JObj? && "tipo" in j.fields && j.fields["tipo"] == JStr(t) && (t == "SOAP" || t == "REST")
    ensures TipoOf(Some(j)) == t
  {
    assert GetOpt(Some(j), "tipo") == Some(JStr(t));
    if t == "REST" {
      assert Upper("REST") == "REST";
    }
  }

  lemma StoredPlain(j: Json, r: Service)
    requires Clean(r) && j.JObj? && Stores(j.fields, r)
    ensures Text(Some(j), "routine") == r.routine && Text(Some(j), "servizio") == r.servizio
    ensures Text(Some(j), "descrizione") == r.descrizione && Text(Some(j), "ambito") == r.ambito
    ensures Text(Some(j), "applicativo") == r.applicativo && Text(Some(j), "stato") == r.stato
  {
    TextOfTrimmed(j, "routine", r.routine);
    TextOfTrimmed(j, "servizio", r.servizio);
    TextOfTrimmed(j, "descrizione", r.descrizione);
    TextOfTrimmed(j, "ambito", r.ambito);
    TextOfTrimmed(j, "applicativo", r.applicativo);
    TextOfTrimmed(j, "stato", r.stato);
  }

  lemma StoredAliased(j: Json, r: Service)
    requires Clean(r) && j.JObj? && Stores(j.fields, r)
    ensures TextField(Some(j), "operation", "operation / parametro") == r.operation
    ensures TextField(Some(j), "fallback", "fallback JDBC/SWP") == r.fallback
    ensures TextField(Some(j), "paramsIngresso", "parametriIngresso") == r.paramsIngresso
    ensures TextField(Some(j), "outputServizio", "output") == r.outputServizio
  {
    TextFieldOfTrimmed(j, "operation", "operation / parametro", r.operation);
    TextFieldOfTrimmed(j, "fallback", "fallback JDBC/SWP", r.fallback);
    TextFieldOfTrimmed(j, "paramsIngresso", "parametriIngresso", r.paramsIngresso);
    TextFieldOfTrimmed(j, "outputServizio", "output", r.outputServizio);
  }

  /** The filter the services screen keeps (`svcFilter`), its lists already split and lower-cased by the dialog. */
  datatype SvcFilter = SvcFilter(
    text: string,
    idContains: string,
    routine: seq<string>,
    servizi: seq<string>,
    tipi: seq<string>,
    descrizioneContains: string,
    ambiti: seq<string>,
    applicativi: seq<string>,
    fallback: seq<string>,
    operations: seq<string>,
    params: seq<string>,
    outputs: seq<string>,
    stati: seq<string>)

  const SVCF_KEY := "tsa.v5.svcfilter"

  /** `defaultSvcFilter()`, as the object stored under `SVCF_KEY`. */
  function DefaultSvcFilterObject(): (r: map<string, Json>)
    ensures r.Keys == {"text", "tipi", "ambiti", "routine", "servizi", "applicativi", "fallback",
                       "operations", "params", "outputs", "stati"}
    ensures r["tipi"] == JArr([JStr("REST"), JStr("SOAP")])
  {
    map[
      "text" := JStr(""),
      "tipi" := JArr([JStr("REST"), JStr("SOAP")]),
      "ambiti" := JArr([]),
      "routine" := JArr([]),
      "servizi" := JArr([]),
      "applicativi" := JArr([]),
      "fallback" := JArr([]),
      "operations" := JArr([]),
      "params" := JArr([]),
      "outputs" := JArr([]),
      "stati" := JArr([])]
  }

  /**
   * `saveSvcFilter` then `loadSvcFilter`: the saved filter comes back laid
   * over the defaults, so every default criterion is present.
   */
  lemma SvcFilterPersists(storage: map<string, string>, f: Json,
                          stringify: Json -> string, parse: string -> Option<Json>)
    requires forall v :: parse(stringify(v)) == Some(v) && stringify(v) != ""
    ensures var loaded := LoadFilter(SaveMerged(storage, SVCF_KEY, DefaultSvcFilterObject(), f, stringify),
                                     SVCF_KEY, DefaultSvcFilterObject(), parse);
      loaded == Spread(DefaultSvcFilterObject(), f) && DefaultSvcFilterObject().Keys <= loaded.Keys
  {
    LoadAfterSaveMerged(storage, SVCF_KEY, DefaultSvcFilterObject(), f, stringify, parse);
  }

  /** The free-text bag: the eleven descriptive fields joined by spaces, lower-cased. */
  function Bag(s: Service): string {
    Lower(Join([s.routine, s.tipo, s.servizio, s.operation, s.fallback, s.descrizione, s.ambito,
                s.applicativo, s.paramsIngresso, s.outputServizio, s.stato], " "))
  }

  /** `wanted.some(x => val.includes(String(x).toLowerCase()))`. */
  predicate SomeInsideIgnoringCase(wanted: seq<string>, val: string) {
    exists x :: x in wanted && Contains(val, Lower(x))
  }

  /** `wanted.some(x => val.includes(x))`. */
  predicate SomeInside(wanted: seq<string>, val: string) {
    exists x :: x in wanted && Contains(val, x)
  }

  /** `String(v).toLowerCase().split(/[\n,]+/).map(x => x.trim()).filter(Boolean)`. */
  function Tokens(v: string): (r: seq<string>)
    ensures forall i :: 0 <= i < |r| ==> r[i] != ""
  {
    NonEmptyTrimmed(SplitRuns(Lower(v), {'\n', ','}))
  }

  /** `wanted.some(x => vals.includes(x))`: some wanted token is one of the tokens, exactly. */
  predicate SomeToken(wanted: seq<string>, v: string) {
    exists x :: x in wanted && x in Tokens(v)
  }

  /** Every criterion of the `applySvcFilters` callback. */
  predicate Matches(s: Service, f: SvcFilter) {
    && (f.text != "" ==> Contains(Bag(s), f.text))
    && (f.idContains != "" ==> Contains(s.id, f.idContains))
    && (|f.routine| > 0 ==> SomeInsideIgnoringCase(f.routine, Lower(s.routine)))
    && (|f.servizi| > 0 ==> SomeInsideIgnoringCase(f.servizi, Lower(s.servizio)))
    && (|f.tipi| > 0 ==> s.tipo in f.tipi)
    && (f.descrizioneContains != "" ==> Contains(Lower(s.descrizione), f.descrizioneContains))
    && (|f.ambiti| > 0 ==> SomeInside(f.ambiti, Lower(s.ambito)))
    && (|f.applicativi| > 0 ==> SomeInside(f.applicativi, Lower(s.applicativo)))
    && (|f.fallback| > 0 ==> SomeToken(f.fallback, s.fallback))
    && (|f.operations| > 0 ==> SomeToken(f.operations, s.operation))
    && (|f.params| > 0 ==> SomeToken(f.params, s.paramsIngresso))
    && (|f.outputs| > 0 ==> SomeToken(f.outputs, s.outputServizio))
    && (|f.stati| > 0 ==> Trim(s.stato) in f.stati)
  }

  function MatchesAll(f: SvcFilter): Service -> bool {
    (s: Service) => Matches(s, f)
  }

  /** `applySvcFilters(rows)`: the rows meeting every criterion, in their order. */
  function FilterServices(rows: seq<Service>, f: SvcFilter): (r: seq<Service>)
    ensures IsSubsequence(r, rows)
    ensures forall s :: s in r <==> s in rows && Matches(s, f)
    ensures forall s :: multiset(r)[s] == if Matches(s, f) then multiset(rows)[s] else 0
  {
    FilterIsSubsequence(rows, MatchesAll(f));
    FilterCounts(rows, MatchesAll(f));
    Filter(rows, MatchesAll(f))
  }

  /** A filter with no criterion keeps every row. */
  lemma EmptyFilterKeepsAll(rows: seq<Service>, f: SvcFilter)
    requires f.text == "" && f.idContains == "" && f.descrizioneContains == ""
    requires f.routine == [] && f.servizi == [] && f.tipi == [] && f.ambiti == [] && f.applicativi == []
    requires f.fallback == [] && f.operations == [] && f.params == [] && f.outputs == [] && f.stati == []
    ensures FilterServices(rows, f) == rows
  {
    FilterAll(rows, MatchesAll(f));
  }

  /** The default kinds `["REST", "SOAP"]` let every normalised service through. */
  lemma DefaultTipiKeepNormalised(rows: seq<Service>, f: SvcFilter)
    requires forall s :: s in rows ==> s.tipo == "SOAP" || s.tipo == "REST"
    requires f.text == "" && f.idContains == "" && f.descrizioneContains == ""
    requires f.routine == [] && f.servizi == [] && f.tipi == ["REST", "SOAP"] && f.ambiti == [] && f.applicativi == []
    requires f.fallback == [] && f.operations == [] && f.params == [] && f.outputs == [] && f.stati == []
    ensures FilterServices(rows, f) == rows
  {
    FilterAll(rows, MatchesAll(f));
  }

  /** Routine and service criteria ignore the case of what the user typed. */
  lemma RoutineIgnoresCase(wanted: seq<string>, val: string)
    ensures SomeInsideIgnoringCase(wanted, val) <==> SomeInsideIgnoringCase(LowerAll(wanted), val)
  {
    if SomeInsideIgnoringCase(wanted, val) {
      var x :| x in wanted && Contains(val, Lower(x));
      var i :| 0 <= i < |wanted| && wanted[i] == x;
      LowerIdempotent(x);
      assert LowerAll(wanted)[i] == Lower(x);
    }
    if SomeInsideIgnoringCase(LowerAll(wanted), val) {
      var y :| y in LowerAll(wanted) && Contains(val, Lower(y));
      var i :| 0 <= i < |wanted| && LowerAll(wanted)[i] == y;
      LowerIdempotent(wanted[i]);
      assert Contains(val, Lower(wanted[i]));
    }
  }

  /**
   * A token criterion matches whole tokens: `x` is a token of `v` exactly
   * when it is non-empty and is the trimmed form of a piece between
   * separators of the lower-cased text.
   */
  lemma TokenIsWholePiece(x: string, v: string)
    ensures x in Tokens(v) <==> x != "" && exists p :: p in SplitRuns(Lower(v), {'\n', ','}) && Trim(p) == x
  {
    NonEmptyTrimmedMembers(SplitRuns(Lower(v), {'\n', ','}), x);
  }

  /** A token never holds a separator. */
  lemma TokensHaveNoSeparator(v: string, i: int)
    requires 0 <= i < |Tokens(v)|
    ensures '\n' !in Tokens(v)[i] && ',' !in Tokens(v)[i]
  {
    var pieces := SplitRuns(Lower(v), {'\n', ','});
    var t := Tokens(v)[i];
    TokenIsWholePiece(t, v);
    var p :| p in pieces && Trim(p) == t;
    TrimInfix(p);
  }

  /** `String(s[k] || "")` for a column key `k`; any other key reads as the empty text. */
  function ColumnText(s: Service, k: string): string {
    match k
    case "id" => s.id
    case "routine" => s.routine
    case "tipo" => s.tipo
    case "servizio" => s.servizio
    case "operation" => s.operation
    case "fallback" => s.fallback
    case "descrizione" => s.descrizione
    case "ambito" => s.ambito
    case "applicativo" => s.applicativo
    case "paramsIngresso" => s.paramsIngresso
    case "outputServizio" => s.outputServizio
    case "stato" => s.stato
    case _ => ""
  }

  const COLUMNS: set<string> := {"id", "routine", "tipo", "servizio", "operation", "fallback", "descrizione",
                                 "ambito", "applicativo", "paramsIngresso", "outputServizio", "stato"}

  function Column(k: string): Service -> string {
    (s: Service) => ColumnText(s, k)
  }

  /** `sortSvcRows(rows)`: a sorted copy by the column's text under `localeCompare`. */
  function SortServices(rows: seq<Service>, st: SortState, locale: (string, string) -> int): (r: seq<Service>)
    ensures multiset(r) == multiset(rows) && |r| == |rows|
  {
    SortBy(rows, KeyedComparator(Column(st.key), locale, st))
  }

  /** With an antisymmetric `localeCompare` the copy is in column order. */
  lemma SortServicesSorted(rows: seq<Service>, st: SortState, locale: (string, string) -> int)
    requires AntisymmetricLocale(locale)
    ensures SortedBy(KeyedComparator(Column(st.key), locale, st), SortServices(rows, st, locale))
  {
    KeyedSortSorted(rows, Column(st.key), locale, st);
  }

  /** A key that names no column compares every row as `""`, so the order is kept. */
  lemma UnknownColumnKeepsOrder(rows: seq<Service>, st: SortState, locale: (string, string) -> int)
    requires st.key !in COLUMNS
    requires locale("", "") == 0
    ensures SortServices(rows, st, locale) == rows
  {
    KeyedSortConstant(rows, Column(st.key), locale, st, "");
  }

  /** The initial sort, and `setSvcSort`: a new column always starts ascending. */
  function InitialSvcSort(): SortState {
    SortState("routine", "asc")
  }

  const SVC_DESC_KEYS: set<string> := {}

  function IdOf(s: Service): string { s.id }

  function WithId(s: Service, id: string): Service { s.(id := id) }

  /**
   * `saveServiceDialog`, `obj` being `normalizeService` of the editor's
   * fields: without a routine or a service name nothing changes; otherwise
   * it replaces the service being edited, keeping that id, or is put at the
   * head of the list.
   */
  method SaveService(svcs: Collection<Service>, editing: string, obj: Service) returns (saved: bool)
    modifies svcs
    ensures saved <==> obj.routine != "" && obj.servizio != ""
    ensures !saved ==> svcs.items == old(svcs.items)
    ensures saved ==> svcs.items == Upserted(old(svcs.items), editing, obj, IdOf, WithId)
  {
    if obj.routine == "" || obj.servizio == "" {
      return false;
    }
    Upsert(svcs, editing, obj, IdOf, WithId);
    saved := true;
  }

  /** `deleteService(id)`, once confirmed: every service with that id is removed. */
  method DeleteService(svcs: Collection<Service>, id: string, confirmed: bool)
    modifies svcs
    ensures confirmed ==> svcs.items == WithoutId(old(svcs.items), id, IdOf)
    ensures !confirmed ==> svcs.items == old(svcs.items)
  {
    if confirmed {
      DeleteById(svcs, id, IdOf);
    }
  }
}
