/**
 * The change-request (CRQ) screen: a CRQ record normalised from stored or
 * edited data, the state-to-operator-help table, the filter dialog's
 * criteria, the column sort, and the save and delete edits on `state.crq`.
 */
module Crq {
  import opened Wrappers
  import opened Strings
  import opened Json
  import opened Seqs
  import opened Listing

  /** A change request as `normalizeCRQ` builds it. */
  datatype CRQ = CRQ(
    id: string,
    rfcAperti: string,
    stato: string,
    dataApertura: string,
    anno: string,
    bhelp: string,
    emerg: string,
    utilizzato: string,
    categoria: string,
    dataRilascio: string,
    rifNostro: string,
    prj: string,
    contenuto: string)

  /**
   * `String((o && (o.bhelp || o.bhelpOperatore || o.bhelpOperatoreRFC ||
   * o["Bhelp Operatore (RFC)"])) || "").trim()`.
   */
  function BhelpOf(o: Option<Json>): (r: string)
    ensures Trimmed(r)
    ensures Truthy(GetOpt(o, "bhelp")) ==> r == Trim(ToStr(GetOpt(o, "bhelp").value))
    ensures !Truthy(GetOpt(o, "bhelp")) && Truthy(GetOpt(o, "bhelpOperatore"))
            ==> r == Trim(ToStr(GetOpt(o, "bhelpOperatore").value))
    ensures !Truthy(GetOpt(o, "bhelp")) && !Truthy(GetOpt(o, "bhelpOperatore"))
            && Truthy(GetOpt(o, "bhelpOperatoreRFC"))
            ==> r == Trim(ToStr(GetOpt(o, "bhelpOperatoreRFC").value))
    ensures !Truthy(GetOpt(o, "bhelp")) && !Truthy(GetOpt(o, "bhelpOperatore"))
            && !Truthy(GetOpt(o, "bhelpOperatoreRFC")) && Truthy(GetOpt(o, "Bhelp Operatore (RFC)"))
            ==> r == Trim(ToStr(GetOpt(o, "Bhelp Operatore (RFC)").value))
    ensures !Truthy(GetOpt(o, "bhelp")) && !Truthy(GetOpt(o, "bhelpOperatore"))
            && !Truthy(GetOpt(o, "bhelpOperatoreRFC")) && !Truthy(GetOpt(o, "Bhelp Operatore (RFC)"))
            ==> r == ""
  {
    var v := Or(Or(Or(GetOpt(o, "bhelp"), GetOpt(o, "bhelpOperatore")), GetOpt(o, "bhelpOperatoreRFC")),
                GetOpt(o, "Bhelp Operatore (RFC)"));
    Trim(TextOr(v))
  }

  /**
   * `normalizeCRQ(o)`: every field trimmed text, `emerg` falling back to
   * `emergenza`; a `null` or `undefined` record gives empty fields.
   * `freshId` stands for `crypto.randomUUID()`.
   */
  function NormalizeCrq(o: Option<Json>, freshId: string): (r: CRQ)
    ensures Truthy(GetOpt(o, "id")) ==> r.id == ToStr(GetOpt(o, "id").value)
    ensures !Truthy(GetOpt(o, "id")) ==> r.id == freshId
    ensures Truthy(GetOpt(o, "emerg")) ==> r.emerg == Trim(ToStr(GetOpt(o, "emerg").value))
    ensures !Truthy(GetOpt(o, "emerg")) ==> r.emerg == Trim(TextOr(GetOpt(o, "emergenza")))
  {
    CRQ(
      id := if Truthy(GetOpt(o, "id")) then ToStr(GetOpt(o, "id").value) else freshId,
      rfcAperti := Text(o, "rfcAperti"),
      stato := Text(o, "stato"),
      dataApertura := Text(o, "dataApertura"),
      anno := Text(o, "anno"),
      bhelp := BhelpOf(o),
      emerg := TextField(o, "emerg", "emergenza"),
      utilizzato := Text(o, "utilizzato"),
      categoria := Text(o, "categoria"),
      dataRilascio := Text(o, "dataRilascio"),
      rifNostro := Text(o, "rifNostro"),
      prj := Text(o, "prj"),
      contenuto := Text(o, "contenuto"))
  }

  /** The form `normalizeCRQ` produces: every text trimmed and a non-empty id. */
  predicate Clean(r: CRQ) {
    && r.id != ""
    && Trimmed(r.rfcAperti) && Trimmed(r.stato) && Trimmed(r.dataApertura) && Trimmed(r.anno)
    && Trimmed(r.bhelp) && Trimmed(r.emerg) && Trimmed(r.utilizzato) && Trimmed(r.categoria)
    && Trimmed(r.dataRilascio) && Trimmed(r.rifNostro) && Trimmed(r.prj) && Trimmed(r.contenuto)
  }

  /** Every field comes out trimmed, whatever the input, `null` included. */
  lemma NormalizeCrqClean(o: Option<Json>, freshId: string)
    requires NormalizeCrq(o, freshId).id != ""
    ensures Clean(NormalizeCrq(o, freshId))
  {
  }

  /** `emerg` is read from `emergenza` only when `emerg` is missing or falsy. */
  lemma NormalizeCrqEmergAlias(o: Option<Json>, freshId: string)
    ensures Truthy(GetOpt(o, "emerg")) ==> NormalizeCrq(o, freshId).emerg == Trim(ToStr(GetOpt(o, "emerg").value))
    ensures !Truthy(GetOpt(o, "emerg")) ==> NormalizeCrq(o, freshId).emerg == Trim(TextOr(GetOpt(o, "emergenza")))
  {
  }

  /** The CRQ as the object kept in the state and written to storage. */
  function ToJson(r: CRQ): Json {
    JObj(map[
      "id" := JStr(r.id),
      "rfcAperti" := JStr(r.rfcAperti),
      "stato" := JStr(r.stato),
      "dataApertura" := JStr(r.dataApertura),
      "anno" := JStr(r.anno),
      "bhelp" := JStr(r.bhelp),
      "emerg" := JStr(r.emerg),
      "utilizzato" := JStr(r.utilizzato),
      "categoria" := JStr(r.categoria),
      "dataRilascio" := JStr(r.dataRilascio),
      "rifNostro" := JStr(r.rifNostro),
      "prj" := JStr(r.prj),
      "contenuto" := JStr(r.contenuto)])
  }

  /** `m` holds each field of `r` under its canonical key and none of the legacy aliases. */
  predicate Stores(m: map<string, Json>, r: CRQ) {
    StoresFirst(m, r) && StoresSecond(m, r) && NoAliases(m)
  }

  predicate StoresFirst(m: map<string, Json>, r: CRQ) {
    && "id" in m && m["id"] == JStr(r.id)
    && "rfcAperti" in m && m["rfcAperti"] == JStr(r.rfcAperti)
    && "stato" in m && m["stato"] == JStr(r.stato)
    && "dataApertura" in m && m["dataApertura"] == JStr(r.dataApertura)
    && "anno" in m && m["anno"] == JStr(r.anno)
    && "bhelp" in m && m["bhelp"] == JStr(r.bhelp)
    && "emerg" in m && m["emerg"] == JStr(r.emerg)
  }

  predicate StoresSecond(m: map<string, Json>, r: CRQ) {
    && "utilizzato" in m && m["utilizzato"] == JStr(r.utilizzato)
    && "categoria" in m && m["categoria"] == JStr(r.categoria)
    && "dataRilascio" in m && m["dataRilascio"] == JStr(r.dataRilascio)
    && "rifNostro" in m && m["rifNostro"] == JStr(r.rifNostro)
    && "prj" in m && m["prj"] == JStr(r.prj)
    && "contenuto" in m && m["contenuto"] == JStr(r.contenuto)
  }

  predicate NoAliases(m: map<string, Json>) {
    "bhelpOperatore" !in m && "bhelpOperatoreRFC" !in m && "Bhelp Operatore (RFC)" !in m && "emergenza" !in m
  }

  lemma ToJsonStores(r: CRQ)
    ensures Stores(ToJson(r).fields, r)
  {
    ToJsonStoresFirst(r);
    ToJsonStoresSecond(r);
    ToJsonNoAliases(r);
  }

  lemma ToJsonStoresFirst(r: CRQ)
    ensures StoresFirst(ToJson(r).fields, r)
  {
  }

  lemma ToJsonStoresSecond(r: CRQ)
    ensures StoresSecond(ToJson(r).fields, r)
  {
  }

  lemma ToJsonNoAliases(r: CRQ)
    ensures NoAliases(ToJson(r).fields)
  {
  }

  /** Normalising a clean CRQ that was stored gives it back: `normalizeCRQ` is idempotent. */
  lemma NormalizeCrqIdempotent(o: Option<Json>, freshId: string, freshId2: string)
    requires NormalizeCrq(o, freshId).id != ""
    ensures NormalizeCrq(Some(ToJson(NormalizeCrq(o, freshId))), freshId2) == NormalizeCrq(o, freshId)
  {
    NormalizeCrqClean(o, freshId);
    CleanReadBack(NormalizeCrq(o, freshId), freshId2);
  }

  lemma CleanReadBack(r: CRQ, freshId: string)
    requires Clean(r)
    ensures NormalizeCrq(Some(ToJson(r)), freshId) == r
  {
    ToJsonStores(r);
    StoredReadBack(ToJson(r), r, freshId);
  }

  /** Any object that stores a clean CRQ normalises back to it. */
  lemma StoredReadBack(j: Json, r: CRQ, freshId: string)
    requires Clean(r) && j.JObj? && Stores(j.fields, r)
    ensures NormalizeCrq(Some(j), freshId) == r
  {
    StoredIdHelp(j, r);
    StoredBhelp(j, r.bhelp);
    StoredFirstHalf(j, r);
    StoredSecondHalf(j, r);
  }

  lemma StoredIdHelp(j: Json, r: CRQ)
    requires Clean(r) && j.JObj? && Stores(j.fields, r)
    ensures Truthy(GetOpt(Some(j), "id")) && ToStr(GetOpt(Some(j), "id").value) == r.id
    ensures TextField(Some(j), "emerg", "emergenza") == r.emerg
  {
    assert GetOpt(Some(j), "id") == Some(JStr(r.id));
    TextFieldOfTrimmed(j, "emerg", "emergenza", r.emerg);
  }

  lemma StoredBhelp(j: Json, t: string)
    requires j.JObj? && "bhelp" in j.fields && j.fields["bhelp"] == JStr(t) && Trimmed(t)
    requires "bhelpOperatore" !in j.fields && "bhelpOperatoreRFC" !in j.fields
    requires "Bhelp Operatore (RFC)" !in j.fields
    ensures BhelpOf(Some(j)) == t
  {
    assert GetOpt(Some(j), "bhelp") == Some(JStr(t));
    if t == "" {
      assert GetOpt(Some(j), "bhelpOperatore") == None;
      assert GetOpt(Some(j), "bhelpOperatoreRFC") == None;
      assert GetOpt(Some(j), "Bhelp Operatore (RFC)") == None;
    } else {
      assert Truthy(GetOpt(Some(j), "bhelp")) && ToStr(JStr(t)) == t;
      TrimmedFixed(t);
    }
  }

  lemma StoredFirstHalf(j: Json, r: CRQ)
    requires Clean(r) && j.JObj? && Stores(j.fields, r)
    ensures Text(Some(j), "rfcAperti") == r.rfcAperti && Text(Some(j), "stato") == r.stato
    ensures Text(Some(j), "dataApertura") == r.dataApertura && Text(Some(j), "anno") == r.anno
    ensures Text(Some(j), "utilizzato") == r.utilizzato
  {
    TextOfTrimmed(j, "rfcAperti", r.rfcAperti);
    TextOfTrimmed(j, "stato", r.stato);
    TextOfTrimmed(j, "dataApertura", r.dataApertura);
    TextOfTrimmed(j, "anno", r.anno);
    TextOfTrimmed(j, "utilizzato", r.utilizzato);
  }

  lemma StoredSecondHalf(j: Json, r: CRQ)
    requires Clean(r) && j.JObj? && Stores(j.fields, r)
    ensures Text(Some(j), "categoria") == r.categoria && Text(Some(j), "dataRilascio") == r.dataRilascio
    ensures Text(Some(j), "rifNostro") == r.rifNostro && Text(Some(j), "prj") == r.prj
    ensures Text(Some(j), "contenuto") == r.contenuto
  {
    TextOfTrimmed(j, "categoria", r.categoria);
    TextOfTrimmed(j, "dataRilascio", r.dataRilascio);
    TextOfTrimmed(j, "rifNostro", r.rifNostro);
    TextOfTrimmed(j, "prj", r.prj);
    TextOfTrimmed(j, "contenuto", r.contenuto);
  }

  /** `CRQ_STATI`: the states offered by the editor, in workflow order. */
  const CRQ_STATI: seq<string> := [
    "Bozza", "Richiesta autorizzazione", "Pianificazione in corso", "Revisione pianificata",
    "Approvazione pianificata", "Pianificato", "Implementazione in corso", "Completato", "Chiuso"]

  /** `CRQ_BHELP_MAP`: the operator help that goes with each state. */
  const CRQ_BHELP_MAP: map<string, string> := map[
    "Bozza" := "n.a.",
    "Richiesta autorizzazione" := "Verifica Referente Servizio IT",
    "Pianificazione in corso" := "Deploy Test / Esecuzione Test",
    "Revisione pianificata" := "Completamento Test",
    "Approvazione pianificata" := "Verifica ICT",
    "Pianificato" := "n.a.",
    "Implementazione in corso" := "Preparazione Installazione / Installazione",
    "Completato" := "n.a.",
    "Chiuso" := "Chiuso Deploy"]

  /** The auto-fill on a change of state: `CRQ_BHELP_MAP[stato] || ""`. */
  function BhelpFor(stato: string): (r: string)
    ensures stato !in CRQ_BHELP_MAP ==> r == ""
  {
    if stato in CRQ_BHELP_MAP then CRQ_BHELP_MAP[stato] else ""
  }

  /** The table covers exactly the editor's states, and gives each of them some help text. */
  lemma BhelpCoversStati()
    ensures CRQ_BHELP_MAP.Keys == set s | s in CRQ_STATI
    ensures forall i :: 0 <= i < |CRQ_STATI| ==> BhelpFor(CRQ_STATI[i]) != ""
  {
    assert CRQ_STATI[0] == "Bozza" && CRQ_STATI[8] == "Chiuso";
  }

  /** The help shown when the editor opens: the record's own, else the table's for its state. */
  function InitialBhelp(item: Option<CRQ>): (r: string)
    ensures item.Some? && item.value.bhelp != "" ==> r == item.value.bhelp
    ensures (item.None? || item.value.bhelp == "") ==> r == BhelpFor(if item.Some? then item.value.stato else "")
  {
    if item.Some? && item.value.bhelp != "" then item.value.bhelp
    else BhelpFor(if item.Some? then item.value.stato else "")
  }

  /** The filter the CRQ screen keeps (`crqFilter`), its texts already lower-cased by the dialog. */
  datatype CrqFilter = CrqFilter(
    id: string,
    text: string,
    rfc: string,
    anno: string,
    emerg: seq<string>,
    util: seq<string>,
    stati: seq<string>,
    categoria: string,
    rif: string,
    prj: string,
    contenuto: string,
    aperturaFrom: string,
    aperturaTo: string,
    rilFrom: string,
    rilTo: string)

  const CRQF_KEY := "tsa.v5.crqfilter"

  /** `defaultCrqFilter()`, as the object stored under `CRQF_KEY`. */
  function DefaultCrqFilterObject(): (r: map<string, Json>)
    ensures r.Keys == {"text", "rfc", "anno", "emerg", "util", "stati", "categoria", "rif", "prj", "contenuto",
                       "aperturaFrom", "aperturaTo", "rilFrom", "rilTo", "id"}
  {
    map[
      "text" := JStr(""),
      "rfc" := JStr(""),
      "anno" := JStr(""),
      "emerg" := JArr([]),
      "util" := JArr([]),
      "stati" := JArr([]),
      "categoria" := JStr(""),
      "rif" := JStr(""),
      "prj" := JStr(""),
      "contenuto" := JStr(""),
      "aperturaFrom" := JStr(""),
      "aperturaTo" := JStr(""),
      "rilFrom" := JStr(""),
      "rilTo" := JStr(""),
      "id" := JStr("")]
  }

  /** `saveCrqFilter` then `loadCrqFilter`: the saved filter comes back laid over the defaults. */
  lemma CrqFilterPersists(storage: map<string, string>, f: Json,
                          stringify: Json -> string, parse: string -> Option<Json>)
    requires forall v :: parse(stringify(v)) == Some(v) && stringify(v) != ""
    ensures var loaded := LoadFilter(SaveMerged(storage, CRQF_KEY, DefaultCrqFilterObject(), f, stringify),
                                     CRQF_KEY, DefaultCrqFilterObject(), parse);
      loaded == Spread(DefaultCrqFilterObject(), f) && DefaultCrqFilterObject().Keys <= loaded.Keys
  {
    LoadAfterSaveMerged(storage, CRQF_KEY, DefaultCrqFilterObject(), f, stringify, parse);
  }

  /** The free-text bag: six fields joined by spaces, lower-cased. */
  function Bag(o: CRQ): string {
    Lower(Join([o.rfcAperti, o.categoria, o.contenuto, o.rifNostro, o.prj, o.anno], " "))
  }

  /** `String(o.emerg || "").replace("ì", "i").trim()`: only the first `ì` is replaced. */
  function EmergKey(emerg: string): string {
    Trim(ReplaceFirst(emerg, 'ì', 'i'))
  }

  /** Every criterion of the `applyCrqFilters` callback, the direct id filter aside. */
  predicate Matches(o: CRQ, f: CrqFilter, dayKey: string -> Option<string>) {
    && (f.text != "" ==> Contains(Bag(o), f.text))
    && (f.rfc != "" ==> Contains(Lower(o.rfcAperti), Lower(f.rfc)))
    && (f.anno != "" ==> o.anno == f.anno)
    && (|f.emerg| > 0 ==> EmergKey(o.emerg) in f.emerg)
    && (|f.util| > 0 ==> Lower(o.utilizzato) in f.util)
    && (|f.stati| > 0 ==> Trim(o.stato) in f.stati)
    && (f.categoria != "" ==> Contains(Lower(o.categoria), f.categoria))
    && (f.rif != "" ==> Contains(Lower(o.rifNostro), f.rif))
    && (f.prj != "" ==> Contains(Lower(o.prj), f.prj))
    && (f.contenuto != "" ==> Contains(Lower(o.contenuto), f.contenuto))
    && InDateRange(o.dataApertura, f.aperturaFrom, f.aperturaTo, dayKey)
    && InDateRange(o.dataRilascio, f.rilFrom, f.rilTo, dayKey)
  }

  function HasId(id: string): CRQ -> bool {
    (o: CRQ) => o.id == id
  }

  function MatchesAll(f: CrqFilter, dayKey: string -> Option<string>): CRQ -> bool {
    (o: CRQ) => Matches(o, f, dayKey)
  }

  /**
   * `applyCrqFilters(rows)`: with an id set, exactly the rows with that id;
   * otherwise the rows meeting every criterion, in their order.
   */
  function FilterCrqs(rows: seq<CRQ>, f: CrqFilter, dayKey: string -> Option<string>): (r: seq<CRQ>)
    ensures IsSubsequence(r, rows)
    ensures f.id != "" ==> forall o :: o in r <==> o in rows && o.id == f.id
    ensures f.id == "" ==> forall o :: o in r <==> o in rows && Matches(o, f, dayKey)
    ensures f.id != "" ==> forall o :: multiset(r)[o] == if o.id == f.id then multiset(rows)[o] else 0
    ensures f.id == "" ==> forall o :: multiset(r)[o] == if Matches(o, f, dayKey) then multiset(rows)[o] else 0
  {
    if f.id != "" then
      FilterIsSubsequence(rows, HasId(f.id));
      FilterCounts(rows, HasId(f.id));
      Filter(rows, HasId(f.id))
    else
      FilterIsSubsequence(rows, MatchesAll(f, dayKey));
      FilterCounts(rows, MatchesAll(f, dayKey));
      Filter(rows, MatchesAll(f, dayKey))
  }

  /** The year criterion is exact: a row passes it only with that very year. */
  lemma AnnoIsExact(rows: seq<CRQ>, f: CrqFilter, dayKey: string -> Option<string>)
    requires f.id == "" && f.anno != ""
    ensures forall o :: o in FilterCrqs(rows, f, dayKey) ==> o.anno == f.anno
  {
  }

  /** Replacing the first `c` of a text whose prefix holds no `c`. */
  lemma ReplaceFirstAt(pre: string, post: string, c: char, d: char)
    requires c !in pre
    ensures ReplaceFirst(pre + [c] + post, c, d) == pre + [d] + post
  {
    var s := pre + [c] + post;
    assert s[|pre|] == c;
    assert s[|pre| := d] == pre + [d] + post;
  }

  /** With a single accent, `emergenza` written with `ì` and with `i` select the same rows. */
  lemma EmergAccentFolded(pre: string, post: string)
    requires 'ì' !in pre && 'ì' !in post
    ensures EmergKey(pre + "ì" + post) == EmergKey(pre + "i" + post)
  {
    ReplaceFirstAt(pre, post, 'ì', 'i');
    assert 'ì' !in pre + "i" + post;
  }

  /** The date columns, compared as raw strings; the others go through `localeCompare`. */
  predicate IsDateKey(k: string) {
    k == "dataApertura" || k == "dataRilascio"
  }

  /** `String(x[k] || "")` for a column key `k`; any other key reads as the empty text. */
  function ColumnText(o: CRQ, k: string): string {
    match k
    case "id" => o.id
    case "rfcAperti" => o.rfcAperti
    case "stato" => o.stato
    case "dataApertura" => o.dataApertura
    case "anno" => o.anno
    case "bhelp" => o.bhelp
    case "emerg" => o.emerg
    case "utilizzato" => o.utilizzato
    case "categoria" => o.categoria
    case "dataRilascio" => o.dataRilascio
    case "rifNostro" => o.rifNostro
    case "prj" => o.prj
    case "contenuto" => o.contenuto
    case _ => ""
  }

  /** The comparator `sortCrqRows` hands to `sort`, `r * d`. */
  function CrqComparator(st: SortState, locale: (string, string) -> int): (CRQ, CRQ) -> int {
    (x: CRQ, y: CRQ) =>
      (if IsDateKey(st.key) then CompareStrings(ColumnText(x, st.key), ColumnText(y, st.key))
       else locale(ColumnText(x, st.key), ColumnText(y, st.key))) * Sign(st)
  }

  /** `sortCrqRows(rows)`: a sorted copy, read with `const d` at line 367 (see the findings). */
  function SortCrqRows(rows: seq<CRQ>, st: SortState, locale: (string, string) -> int): (r: seq<CRQ>)
    ensures multiset(r) == multiset(rows) && |r| == |rows|
  {
    SortBy(rows, CrqComparator(st, locale))
  }

  /**
   * The copy is in column order: on a date column always (raw string order
   * is a total order), on another column when `localeCompare` is antisymmetric.
   */
  lemma SortCrqRowsSorted(rows: seq<CRQ>, st: SortState, locale: (string, string) -> int)
    requires IsDateKey(st.key) || AntisymmetricLocale(locale)
    ensures SortedBy(CrqComparator(st, locale), SortCrqRows(rows, st, locale))
  {
    var cmp := CrqComparator(st, locale);
    forall x, y | x in multiset(rows) && y in multiset(rows) && cmp(x, y) > 0
      ensures cmp(y, x) < 0
    {
      var a, b := ColumnText(x, st.key), ColumnText(y, st.key);
      if IsDateKey(st.key) {
        assert CompareStrings(a, b) == -CompareStrings(b, a);
      } else if Sign(st) == 1 {
        assert locale(a, b) > 0;
      } else {
        assert locale(a, b) < 0;
      }
    }
    SortBySorted(rows, cmp);
  }

  /** On an ascending date column, every row's date is no later, as a string, than the next one's. */
  lemma DateColumnAscending(rows: seq<CRQ>, st: SortState, locale: (string, string) -> int, i: int)
    requires IsDateKey(st.key) && st.dir == "asc"
    requires 0 <= i < |rows| - 1
    ensures var s := SortCrqRows(rows, st, locale);
      !LexLess(ColumnText(s[i + 1], st.key), ColumnText(s[i], st.key))
  {
    SortCrqRowsSorted(rows, st, locale);
    var s := SortCrqRows(rows, st, locale);
    assert Le(CrqComparator(st, locale), s[i], s[i + 1]);
    assert Sign(st) == 1;
    assert CompareStrings(ColumnText(s[i], st.key), ColumnText(s[i + 1], st.key)) <= 0;
  }

  /**
   * `sortCrqRows` as written: line 367 declares `d` with `the` instead of
   * `const`, a syntax error, so the script never loads and no sorted copy is
   * ever produced (`None` stands for the missing function). The constant
   * body is the point: a file that does not parse defines nothing, whatever
   * the rows and the sort setting.
   */
  function SortCrqRowsAsWritten(rows: seq<CRQ>, st: SortState, locale: (string, string) -> int): (r: Option<seq<CRQ>>)
    ensures r.None?
  {
    None
  }

  /** Whatever the rows, the script as written yields nothing where the corrected one yields the sorted copy. */
  lemma SortCrqRowsAsWrittenFails(rows: seq<CRQ>, st: SortState, locale: (string, string) -> int)
    ensures SortCrqRowsAsWritten(rows, st, locale) != Some(SortCrqRows(rows, st, locale))
    ensures |SortCrqRows(rows, st, locale)| == |rows|
  {
  }

  /** `setCrqSort` on a new column: descending for `dataApertura`, ascending for any other. */
  lemma CrqNewColumnDirection(st: SortState, k: string)
    requires k != st.key
    ensures NextSort(st, k, CRQ_DESC_KEYS).key == k
    ensures NextSort(st, k, CRQ_DESC_KEYS).dir == (if k == "dataApertura" then "desc" else "asc")
  {
  }

  /** The initial sort is newest first; `setCrqSort` starts a new column descending only for `dataApertura`. */
  function InitialCrqSort(): SortState {
    SortState("dataApertura", "desc")
  }

  const CRQ_DESC_KEYS: set<string> := {"dataApertura"}

  function IdOf(o: CRQ): string { o.id }

  function WithId(o: CRQ, id: string): CRQ { o.(id := id) }

  /**
   * The CRQ editor's inputs as typed: the nine fields `saveCrqDialog` reads
   * and `#crqBhelp`, which `openCrqDialog` and the state selector fill.
   */
  datatype CrqForm = CrqForm(
    rfcAperti: string,
    stato: string,
    dataApertura: string,
    bhelp: string,
    emerg: string,
    categoria: string,
    dataRilascio: string,
    rifNostro: string,
    prj: string,
    contenuto: string)

  /** The inputs as `saveCrqDialog` reads them, each `.value.trim()`. */
  function TrimForm(f: CrqForm): CrqForm {
    CrqForm(Trim(f.rfcAperti), Trim(f.stato), Trim(f.dataApertura), Trim(f.bhelp), Trim(f.emerg),
            Trim(f.categoria), Trim(f.dataRilascio), Trim(f.rifNostro), Trim(f.prj), Trim(f.contenuto))
  }

  /** The object `saveCrqDialog` hands to `normalizeCRQ`: nine of the (trimmed) inputs, not `bhelp`. */
  function FormObjectAsWritten(g: CrqForm): (j: Json)
    ensures j.JObj?
  {
    JObj(map[
      "rfcAperti" := JStr(g.rfcAperti),
      "stato" := JStr(g.stato),
      "dataApertura" := JStr(g.dataApertura),
      "emerg" := JStr(g.emerg),
      "categoria" := JStr(g.categoria),
      "dataRilascio" := JStr(g.dataRilascio),
      "rifNostro" := JStr(g.rifNostro),
      "prj" := JStr(g.prj),
      "contenuto" := JStr(g.contenuto)])
  }

  /** The object the editor evidently means to save: the same, and `bhelp` too. */
  function FormObject(g: CrqForm): (j: Json)
    ensures j.JObj?
  {
    JObj(FormObjectAsWritten(g).fields["bhelp" := JStr(g.bhelp)])
  }

  /** `m` holds the nine inputs `saveCrqDialog` reads and no key `normalizeCRQ` would read besides `bhelp`. */
  predicate FormStores(m: map<string, Json>, g: CrqForm) {
    FormStoresFirst(m, g) && FormStoresSecond(m, g) && FormAbsent(m)
  }

  predicate FormStoresFirst(m: map<string, Json>, g: CrqForm) {
    && "rfcAperti" in m && m["rfcAperti"] == JStr(g.rfcAperti)
    && "stato" in m && m["stato"] == JStr(g.stato)
    && "dataApertura" in m && m["dataApertura"] == JStr(g.dataApertura)
    && "emerg" in m && m["emerg"] == JStr(g.emerg)
  }

  predicate FormStoresSecond(m: map<string, Json>, g: CrqForm) {
    && "categoria" in m && m["categoria"] == JStr(g.categoria)
    && "dataRilascio" in m && m["dataRilascio"] == JStr(g.dataRilascio)
    && "rifNostro" in m && m["rifNostro"] == JStr(g.rifNostro)
    && "prj" in m && m["prj"] == JStr(g.prj)
    && "contenuto" in m && m["contenuto"] == JStr(g.contenuto)
  }

  predicate FormAbsent(m: map<string, Json>) {
    && "id" !in m && "anno" !in m && "utilizzato" !in m && NoAliases(m)
  }

  lemma FormObjectAsWrittenStores(g: CrqForm)
    ensures FormStores(FormObjectAsWritten(g).fields, g) && "bhelp" !in FormObjectAsWritten(g).fields
  {
    FormAsWrittenFirst(g);
    FormAsWrittenSecond(g);
    FormAsWrittenAbsent(g);
    FormAsWrittenNoBhelp(g);
  }

  lemma FormAsWrittenFirst(g: CrqForm)
    ensures FormStoresFirst(FormObjectAsWritten(g).fields, g)
  {
  }

  lemma FormAsWrittenSecond(g: CrqForm)
    ensures FormStoresSecond(FormObjectAsWritten(g).fields, g)
  {
  }

  lemma FormAsWrittenAbsent(g: CrqForm)
    ensures FormAbsent(FormObjectAsWritten(g).fields)
  {
  }

  lemma FormAsWrittenNoBhelp(g: CrqForm)
    ensures "bhelp" !in FormObjectAsWritten(g).fields
  {
  }

  lemma FormObjectStores(g: CrqForm)
    ensures FormStores(FormObject(g).fields, g)
    ensures "bhelp" in FormObject(g).fields && FormObject(g).fields["bhelp"] == JStr(g.bhelp)
  {
    FormObjectAsWrittenStores(g);
  }

  /** Every input is already trimmed, as `TrimForm` leaves them. */
  predicate FormTrimmed(g: CrqForm) {
    && Trimmed(g.rfcAperti) && Trimmed(g.stato) && Trimmed(g.dataApertura) && Trimmed(g.bhelp)
    && Trimmed(g.emerg) && Trimmed(g.categoria) && Trimmed(g.dataRilascio) && Trimmed(g.rifNostro)
    && Trimmed(g.prj) && Trimmed(g.contenuto)
  }

  /** Any object that stores trimmed inputs normalises to them, with a fresh id and no `anno` or `utilizzato`. */
  lemma StoredFormReadBack(j: Json, g: CrqForm, freshId: string)
    requires j.JObj? && FormStores(j.fields, g) && FormTrimmed(g)
    ensures var r := NormalizeCrq(Some(j), freshId);
            && r.id == freshId
            && r.rfcAperti == g.rfcAperti && r.stato == g.stato && r.dataApertura == g.dataApertura
            && r.emerg == g.emerg && r.categoria == g.categoria && r.dataRilascio == g.dataRilascio
            && r.rifNostro == g.rifNostro && r.prj == g.prj && r.contenuto == g.contenuto
            && r.anno == "" && r.utilizzato == ""
  {
    StoredFormFirst(j, g);
    StoredFormSecond(j, g);
    StoredFormUnread(j, g);
  }

  lemma StoredFormFirst(j: Json, g: CrqForm)
    requires j.JObj? && FormStoresFirst(j.fields, g) && FormTrimmed(g)
    ensures Text(Some(j), "rfcAperti") == g.rfcAperti && Text(Some(j), "stato") == g.stato
    ensures Text(Some(j), "dataApertura") == g.dataApertura
  {
    TextOfTrimmed(j, "rfcAperti", g.rfcAperti);
    TextOfTrimmed(j, "stato", g.stato);
    TextOfTrimmed(j, "dataApertura", g.dataApertura);
  }

  lemma StoredFormSecond(j: Json, g: CrqForm)
    requires j.JObj? && FormStoresSecond(j.fields, g) && FormTrimmed(g)
    ensures Text(Some(j), "categoria") == g.categoria && Text(Some(j), "dataRilascio") == g.dataRilascio
    ensures Text(Some(j), "rifNostro") == g.rifNostro && Text(Some(j), "prj") == g.prj
    ensures Text(Some(j), "contenuto") == g.contenuto
  {
    TextOfTrimmed(j, "categoria", g.categoria);
    TextOfTrimmed(j, "dataRilascio", g.dataRilascio);
    TextOfTrimmed(j, "rifNostro", g.rifNostro);
    TextOfTrimmed(j, "prj", g.prj);
    TextOfTrimmed(j, "contenuto", g.contenuto);
  }

  /** The keys the editor has no input for read as missing; `emerg` reads as typed. */
  lemma StoredFormUnread(j: Json, g: CrqForm)
    requires j.JObj? && FormStoresFirst(j.fields, g) && FormAbsent(j.fields) && FormTrimmed(g)
    ensures !Truthy(GetOpt(Some(j), "id"))
    ensures Text(Some(j), "anno") == "" && Text(Some(j), "utilizzato") == ""
    ensures TextField(Some(j), "emerg", "emergenza") == g.emerg
  {
    var o := Some(j);
    assert GetOpt(o, "id") == None && GetOpt(o, "anno") == None && GetOpt(o, "utilizzato") == None;
    TextFieldOfTrimmed(j, "emerg", "emergenza", g.emerg);
  }

  /** The record `saveCrqDialog` saves, as written: `normalizeCRQ` of the nine inputs. */
  function CrqDraftAsWritten(f: CrqForm, freshId: string): CRQ {
    NormalizeCrq(Some(FormObjectAsWritten(TrimForm(f))), freshId)
  }

  /**
   * As written, the operator help shown in the editor is never saved: the
   * draft's `bhelp`, like `anno` and `utilizzato`, is empty whatever the form
   * holds, so a form with a non-blank `#crqBhelp` loses it.
   */
  lemma DraftAsWrittenDropsBhelp(f: CrqForm, freshId: string)
    ensures CrqDraftAsWritten(f, freshId).bhelp == ""
    ensures CrqDraftAsWritten(f, freshId).anno == "" && CrqDraftAsWritten(f, freshId).utilizzato == ""
    ensures Trim(f.bhelp) != "" ==> CrqDraftAsWritten(f, freshId).bhelp != Trim(f.bhelp)
  {
    var g := TrimForm(f);
    var j := FormObjectAsWritten(g);
    FormObjectAsWrittenStores(g);
    StoredFormReadBack(j, g, freshId);
    BhelpMissing(j);
  }

  /** With none of its four keys present, the operator help reads as empty. */
  lemma BhelpMissing(j: Json)
    requires j.JObj? && "bhelp" !in j.fields && NoAliases(j.fields)
    ensures BhelpOf(Some(j)) == ""
  {
    var o := Some(j);
    assert GetOpt(o, "bhelp") == None && GetOpt(o, "bhelpOperatore") == None;
    assert GetOpt(o, "bhelpOperatoreRFC") == None && GetOpt(o, "Bhelp Operatore (RFC)") == None;
  }

  /** The record the editor saves: `normalizeCRQ` of every input, `#crqBhelp` included. */
  function CrqDraft(f: CrqForm, freshId: string): CRQ {
    NormalizeCrq(Some(FormObject(TrimForm(f))), freshId)
  }

  /**
   * The saved record holds each input trimmed, the operator help among them,
   * and a fresh id; the editor has no inputs for `anno` and `utilizzato`.
   */
  lemma CrqDraftReadsForm(f: CrqForm, freshId: string)
    ensures var r := CrqDraft(f, freshId);
            && r.id == freshId
            && r.rfcAperti == Trim(f.rfcAperti) && r.stato == Trim(f.stato)
            && r.dataApertura == Trim(f.dataApertura) && r.bhelp == Trim(f.bhelp)
            && r.emerg == Trim(f.emerg) && r.categoria == Trim(f.categoria)
            && r.dataRilascio == Trim(f.dataRilascio) && r.rifNostro == Trim(f.rifNostro)
            && r.prj == Trim(f.prj) && r.contenuto == Trim(f.contenuto)
            && r.anno == "" && r.utilizzato == ""
  {
    var g := TrimForm(f);
    var j := FormObject(g);
    FormObjectStores(g);
    StoredFormReadBack(j, g, freshId);
    StoredBhelp(j, g.bhelp);
  }

  /**
   * `saveCrqDialog`, the record being the editor's draft: without
   * `rfcAperti` nothing changes; otherwise it replaces the CRQ being edited,
   * keeping that id, or is put at the head of the list.
   */
  method SaveCrq(crqs: Collection<CRQ>, editing: string, f: CrqForm, freshId: string) returns (saved: bool)
    modifies crqs
    ensures saved <==> Trim(f.rfcAperti) != ""
    ensures !saved ==> crqs.items == old(crqs.items)
    ensures saved ==> crqs.items == Upserted(old(crqs.items), editing, CrqDraft(f, freshId), IdOf, WithId)
  {
    var obj := CrqDraft(f, freshId);
    CrqDraftReadsForm(f, freshId);
    if obj.rfcAperti == "" {
      return false;
    }
    Upsert(crqs, editing, obj, IdOf, WithId);
    saved := true;
  }

  /** `deleteCrq(id)`, once confirmed: every CRQ with that id is removed. */
  method DeleteCrq(crqs: Collection<CRQ>, id: string, confirmed: bool)
    modifies crqs
    ensures confirmed ==> crqs.items == WithoutId(old(crqs.items), id, IdOf)
    ensures !confirmed ==> crqs.items == old(crqs.items)
  {
    if confirmed {
      DeleteById(crqs, id, IdOf);
    }
  }
}
