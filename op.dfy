/**
 * Open points (`js/op.js`): the record normaliser with its Italian legacy
 * aliases, the filter engine, the column sort and its toggle, CSV quoting,
 * and the edits on the open-point list (save from the editor, delete, clear).
 */
module OpenPoints {
  import opened Wrappers
  import opened Strings
  import opened Json
  import opened Seqs
  import opened Listing
  import Core

  /** A normalised open point. */
  datatype OP = OP(
    id: string,
    title: string,
    project: string,
    assignees: seq<string>,
    priority: string,
    status: string,
    maxPriority: bool,
    createdAt: string,
    dueAt: string,
    desc: string,
    notes: string)

  const DEFAULT_PRIORITY := "medium"
  const DEFAULT_STATUS := "Nuovo"

  /** No upper-case ASCII letter: the form `toLowerCase()` leaves. */
  predicate NoUpper(s: string) {
    forall i :: 0 <= i < |s| ==> !('A' <= s[i] <= 'Z')
  }

  /** Names that are non-empty and trimmed. */
  predicate CleanNames(a: seq<string>) {
    forall i :: 0 <= i < |a| ==> a[i] != "" && Trim(a[i]) == a[i]
  }

  /**
   * The assignee list: an array is converted element by element; any other
   * value (or the alias `assegnatari`) is read as comma-separated text. Either
   * way the names are trimmed and empty ones dropped.
   */
  function Assignees(o: Option<Json>): (r: seq<string>)
    ensures CleanNames(r)
  {
    var a := GetOpt(o, "assignees");
    if IsArray(a) then NonEmptyTrimmed(Texts(a.value.items))
    else NonEmptyTrimmed(Split(TextOr(Either(o, "assignees", "assegnatari")), ','))
  }

  /** `String((o && (o.priority || o.priorita || o["priorità"])) || "medium").toLowerCase()`. */
  function PriorityOf(o: Option<Json>): (r: string)
    ensures NoUpper(r)
    ensures !Truthy(Or(Either(o, "priority", "priorita"), GetOpt(o, "priorit\U{00E0}"))) ==> r == DEFAULT_PRIORITY
  {
    var prio := Or(Either(o, "priority", "priorita"), GetOpt(o, "priorit\U{00E0}"));
    if Truthy(prio) then Lower(ToStr(prio.value)) else DEFAULT_PRIORITY
  }

  /** `String((o && (o.status || o.stato)) || "Nuovo").trim()`. */
  function StatusOf(o: Option<Json>): (r: string)
    ensures Truthy(Either(o, "status", "stato")) ==> r == Trim(ToStr(Either(o, "status", "stato").value))
    ensures !Truthy(Either(o, "status", "stato")) ==> r == DEFAULT_STATUS
    ensures Trimmed(r)
  {
    var status := Either(o, "status", "stato");
    if Truthy(status) then Trim(ToStr(status.value)) else DEFAULT_STATUS
  }

  /**
   * `normalizeOP(o)`: every field from its canonical key or its legacy alias,
   * the canonical key winning whenever it is truthy; texts trimmed, priority
   * lower-cased with default `"medium"`, status defaulting to `"Nuovo"`.
   * `freshId` stands for `crypto.randomUUID()`.
   */
  function NormalizeOp(o: Option<Json>, freshId: string): (r: OP)
    ensures Truthy(GetOpt(o, "id")) ==> r.id == ToStr(GetOpt(o, "id").value)
    ensures !Truthy(GetOpt(o, "id")) ==> r.id == freshId
    ensures Truthy(GetOpt(o, "title")) ==> r.title == Trim(ToStr(GetOpt(o, "title").value))
    ensures !Truthy(GetOpt(o, "title")) ==> r.title == Trim(TextOr(GetOpt(o, "titolo")))
  {
    OP(
      id := if Truthy(GetOpt(o, "id")) then ToStr(GetOpt(o, "id").value) else freshId,
      title := TextField(o, "title", "titolo"),
      project := TextField(o, "project", "progetto"),
      assignees := Assignees(o),
      priority := PriorityOf(o),
      status := StatusOf(o),
      maxPriority := Truthy(Or(Either(o, "maxPriority", "max"), GetOpt(o, "priorit\U{00E0}Massima"))),
      createdAt := TextField(o, "createdAt", "dataInserimento"),
      dueAt := TextField(o, "dueAt", "dataScadenza"),
      desc := TextField(o, "desc", "descrizione"),
      notes := TextField(o, "notes", "note"))
  }

  /** The open point as the object kept in the state and written to storage. */
  function ToJson(r: OP): Json {
    JObj(map[
      "id" := JStr(r.id),
      "title" := JStr(r.title),
      "project" := JStr(r.project),
      "assignees" := JArr(Strs(r.assignees)),
      "priority" := JStr(r.priority),
      "status" := JStr(r.status),
      "maxPriority" := JBool(r.maxPriority),
      "createdAt" := JStr(r.createdAt),
      "dueAt" := JStr(r.dueAt),
      "desc" := JStr(r.desc),
      "notes" := JStr(r.notes)])
  }

  /**
   * Normalising an open point that was already normalised gives it back
   * (its id, priority and status being non-empty, which a fresh id and the
   * defaults guarantee in practice): `normalizeOP` is idempotent on the stored form.
   */
  lemma NormalizeOpIdempotent(o: Option<Json>, freshId: string, freshId2: string)
    requires NormalizeOp(o, freshId).id != ""
    requires NormalizeOp(o, freshId).priority != "" && NormalizeOp(o, freshId).status != ""
    ensures NormalizeOp(Some(ToJson(NormalizeOp(o, freshId))), freshId2) == NormalizeOp(o, freshId)
  {
    NormalizeOpClean(o, freshId);
    CleanReadBack(NormalizeOp(o, freshId), freshId2);
  }

  /** The form `normalizeOP` produces: texts trimmed, lower-case priority, a non-empty id, priority and status. */
  predicate Clean(r: OP) {
    && r.id != ""
    && Trimmed(r.title) && Trimmed(r.project) && Trimmed(r.createdAt)
    && Trimmed(r.dueAt) && Trimmed(r.desc) && Trimmed(r.notes)
    && r.priority != "" && NoUpper(r.priority)
    && r.status != "" && Trimmed(r.status)
    && CleanNames(r.assignees)
  }

  lemma NormalizeOpClean(o: Option<Json>, freshId: string)
    requires NormalizeOp(o, freshId).id != ""
    requires NormalizeOp(o, freshId).priority != "" && NormalizeOp(o, freshId).status != ""
    ensures Clean(NormalizeOp(o, freshId))
  {
    NormalizeOpTexts(o, freshId);
    NormalizeOpLists(o, freshId);
  }

  lemma NormalizeOpTexts(o: Option<Json>, freshId: string)
    ensures var r := NormalizeOp(o, freshId);
      Trimmed(r.title) && Trimmed(r.project) && Trimmed(r.createdAt)
      && Trimmed(r.dueAt) && Trimmed(r.desc) && Trimmed(r.notes) && Trimmed(r.status)
  {
    var r := NormalizeOp(o, freshId);
    assert r.title == TextField(o, "title", "titolo") && r.project == TextField(o, "project", "progetto");
    assert r.createdAt == TextField(o, "createdAt", "dataInserimento") && r.dueAt == TextField(o, "dueAt", "dataScadenza");
    assert r.desc == TextField(o, "desc", "descrizione") && r.notes == TextField(o, "notes", "note");
    assert r.status == StatusOf(o);
  }

  lemma NormalizeOpLists(o: Option<Json>, freshId: string)
    ensures var r := NormalizeOp(o, freshId);
      NoUpper(r.priority) && CleanNames(r.assignees)
  {
    NormalizeOpFields(o, freshId);
  }

  lemma NormalizeOpFields(o: Option<Json>, freshId: string)
    ensures NormalizeOp(o, freshId).priority == PriorityOf(o)
    ensures NormalizeOp(o, freshId).assignees == Assignees(o)
  {
  }

  /**
   * `m` holds each field of `r` under its canonical key and none of the
   * legacy aliases that `normalizeOP` would otherwise consult.
   */
  predicate Stores(m: map<string, Json>, r: OP) {
    StoresValues(m, r) && NoAliases(m)
  }

  predicate StoresValues(m: map<string, Json>, r: OP) {
    && "id" in m && m["id"] == JStr(r.id)
    && "title" in m && m["title"] == JStr(r.title)
    && "project" in m && m["project"] == JStr(r.project)
    && "assignees" in m && m["assignees"] == JArr(Strs(r.assignees))
    && "priority" in m && m["priority"] == JStr(r.priority)
    && "status" in m && m["status"] == JStr(r.status)
    && "maxPriority" in m && m["maxPriority"] == JBool(r.maxPriority)
    && "createdAt" in m && m["createdAt"] == JStr(r.createdAt)
    && "dueAt" in m && m["dueAt"] == JStr(r.dueAt)
    && "desc" in m && m["desc"] == JStr(r.desc)
    && "notes" in m && m["notes"] == JStr(r.notes)
  }

  predicate NoAliases(m: map<string, Json>) {
    && "titolo" !in m && "progetto" !in m && "dataInserimento" !in m && "dataScadenza" !in m
    && "descrizione" !in m && "note" !in m && "priorita" !in m && "priorit\U{00E0}" !in m
    && "stato" !in m && "max" !in m && "priorit\U{00E0}Massima" !in m
  }

  /** The stored object holds every field under its canonical key. */
  lemma ToJsonStoresValues(r: OP)
    ensures StoresValues(ToJson(r).fields, r)
  {
  }

  /** The stored object carries none of the legacy aliases. */
  lemma ToJsonNoAliases(r: OP)
    ensures NoAliases(ToJson(r).fields)
  {
  }

  /** A clean open point, stored and normalised again, is itself. */
  lemma CleanReadBack(r: OP, freshId: string)
    requires Clean(r)
    ensures NormalizeOp(Some(ToJson(r)), freshId) == r
  {
    ToJsonStoresValues(r);
    ToJsonNoAliases(r);
    StoredReadBack(ToJson(r), r, freshId);
  }

  /** Any object that stores a clean open point normalises back to it. */
  lemma StoredReadBack(j: Json, r: OP, freshId: string)
    requires Clean(r) && j.JObj? && Stores(j.fields, r)
    ensures NormalizeOp(Some(j), freshId) == r
  {
    StoredIdFlag(j, r);
    StoredTexts(j, r);
    StoredDates(j, r);
    StoredPriority(j, r);
    StoredStatus(j, r);
    StoredAssignees(j, r);
  }

  lemma StoredIdFlag(j: Json, r: OP)
    requires Clean(r) && j.JObj? && Stores(j.fields, r)
    ensures Truthy(GetOpt(Some(j), "id")) && ToStr(GetOpt(Some(j), "id").value) == r.id
    ensures Truthy(Or(Either(Some(j), "maxPriority", "max"), GetOpt(Some(j), "priorit\U{00E0}Massima"))) == r.maxPriority
  {
    assert GetOpt(Some(j), "id") == Some(JStr(r.id));
    assert GetOpt(Some(j), "max") == None;
    assert GetOpt(Some(j), "maxPriority") == Some(JBool(r.maxPriority));
  }

  lemma StoredTexts(j: Json, r: OP)
    requires Clean(r) && j.JObj? && Stores(j.fields, r)
    ensures TextField(Some(j), "title", "titolo") == r.title
    ensures TextField(Some(j), "project", "progetto") == r.project
    ensures TextField(Some(j), "desc", "descrizione") == r.desc
    ensures TextField(Some(j), "notes", "note") == r.notes
  {
    TextFieldOfTrimmed(j, "title", "titolo", r.title);
    TextFieldOfTrimmed(j, "project", "progetto", r.project);
    TextFieldOfTrimmed(j, "desc", "descrizione", r.desc);
    TextFieldOfTrimmed(j, "notes", "note", r.notes);
  }

  lemma StoredDates(j: Json, r: OP)
    requires Clean(r) && j.JObj? && Stores(j.fields, r)
    ensures TextField(Some(j), "createdAt", "dataInserimento") == r.createdAt
    ensures TextField(Some(j), "dueAt", "dataScadenza") == r.dueAt
  {
    TextFieldOfTrimmed(j, "createdAt", "dataInserimento", r.createdAt);
    TextFieldOfTrimmed(j, "dueAt", "dataScadenza", r.dueAt);
  }

  lemma StoredPriority(j: Json, r: OP)
    requires r.priority != "" && NoUpper(r.priority)
    requires j.JObj? && Stores(j.fields, r)
    ensures PriorityOf(Some(j)) == r.priority
  {
    assert GetOpt(Some(j), "priority") == Some(JStr(r.priority));
    assert Lower(r.priority) == r.priority;
  }

  lemma StoredStatus(j: Json, r: OP)
    requires r.status != "" && Trimmed(r.status)
    requires j.JObj? && Stores(j.fields, r)
    ensures StatusOf(Some(j)) == r.status
  {
    assert GetOpt(Some(j), "status") == Some(JStr(r.status));
    TrimmedFixed(r.status);
  }

  lemma StoredAssignees(j: Json, r: OP)
    requires CleanNames(r.assignees)
    requires j.JObj? && Stores(j.fields, r)
    ensures Assignees(Some(j)) == r.assignees
  {
    assert GetOpt(Some(j), "assignees") == Some(JArr(Strs(r.assignees)));
    TextsOfStrs(r.assignees);
    NonEmptyTrimmedClean(r.assignees);
  }

  /** The filter the open-point screen keeps (`opFilter`). */
  datatype OpFilter = OpFilter(
    id: string,
    text: string,
    priorities: seq<string>,
    statuses: seq<string>,
    maxOnly: bool,
    createdFrom: string,
    createdTo: string,
    dueFrom: string,
    dueTo: string,
    assignees: seq<string>,
    projects: seq<string>)

  /** `defaultOpFilter()`, as the object stored under `OPF_KEY`. */
  function DefaultOpFilterObject(): (r: map<string, Json>)
    ensures r.Keys == {"text", "priorities", "statuses", "maxOnly", "createdFrom", "createdTo",
                       "dueFrom", "dueTo", "assignees", "projects"}
  {
    map[
      "text" := JStr(""),
      "priorities" := JArr([JStr("low"), JStr("medium"), JStr("high"), JStr("critical")]),
      "statuses" := JArr([JStr("Nuovo"), JStr("Da fare"), JStr("In corso"), JStr("Schedulato"), JStr("Completato")]),
      "maxOnly" := JBool(false),
      "createdFrom" := JStr(""),
      "createdTo" := JStr(""),
      "dueFrom" := JStr(""),
      "dueTo" := JStr(""),
      "assignees" := JArr([]),
      "projects" := JArr([])]
  }

  const OPF_KEY := "tsa.v5.opfilter"

  /** The text the free-text criterion searches: the descriptive fields and the assignees, space-separated. */
  function Bag(o: OP): string {
    Join([o.title, o.project, o.desc, o.notes, Join(o.assignees, " ")], " ")
  }

  /** Some filter assignee is, exactly, one of the row's lower-cased assignees. */
  predicate AssigneeHit(wanted: seq<string>, names: seq<string>) {
    exists x :: x in wanted && x in names
  }

  /** Some non-empty filter project occurs inside the row's lower-cased project. */
  predicate ProjectHit(wanted: seq<string>, project: string) {
    exists x :: x in wanted && x != "" && Contains(project, x)
  }

  /** Every criterion of the filter callback, the direct id filter aside. */
  predicate Matches(o: OP, f: OpFilter, dayKey: string -> Option<string>) {
    && (f.text != "" ==> Contains(Lower(Bag(o)), f.text))
    && (|f.priorities| > 0 ==> Lower(if o.priority != "" then o.priority else DEFAULT_PRIORITY) in f.priorities)
    && (|f.statuses| > 0 ==> (if o.status != "" then o.status else DEFAULT_STATUS) in f.statuses)
    && (f.maxOnly ==> o.maxPriority)
    && InDateRange(o.createdAt, f.createdFrom, f.createdTo, dayKey)
    && InDateRange(o.dueAt, f.dueFrom, f.dueTo, dayKey)
    && (|f.assignees| > 0 ==> AssigneeHit(f.assignees, LowerAll(o.assignees)))
    && (|f.projects| > 0 ==> ProjectHit(f.projects, Lower(o.project)))
  }

  /** `o => o.id === id`. */
  function HasId(id: string): OP -> bool {
    (o: OP) => o.id == id
  }

  /** The filter callback as a predicate on rows. */
  function MatchesAll(f: OpFilter, dayKey: string -> Option<string>): OP -> bool {
    (o: OP) => Matches(o, f, dayKey)
  }

  /**
   * `applyOpFilters(rows)`: with an id set, exactly the rows with that id;
   * otherwise the rows meeting every criterion, in their order.
   */
  function FilterOps(rows: seq<OP>, f: OpFilter, dayKey: string -> Option<string>): (r: seq<OP>)
    ensures IsSubsequence(r, rows)
    ensures f.id != "" ==> forall o :: multiset(r)[o] == if o.id == f.id then multiset(rows)[o] else 0
    ensures f.id == "" ==> forall o :: multiset(r)[o] == if Matches(o, f, dayKey) then multiset(rows)[o] else 0
  {
    if f.id != "" then
      FilterIsSubsequence(rows, HasId(f.id));
      FilterCounts(rows, HasId(f.id));
      Filter(rows, HasId(f.id))
    else
      FilterIsSubsequence(rows, MatchesAll(f, dayKey));
      FilterCounts(rows, MatchesAll(f, dayKey));
      Filter(rows, MatchesAll(f, dayKey))
  }

  /** The direct id filter keeps exactly the rows with that id, whatever the other criteria say. */
  lemma IdFilterExact(rows: seq<OP>, f: OpFilter, dayKey: string -> Option<string>)
    requires f.id != ""
    ensures forall o :: o in FilterOps(rows, f, dayKey) <==> o in rows && o.id == f.id
  {
  }

  /** A filter with no text, no lists, no dates and no max-only flag keeps every row. */
  lemma EmptyFilterKeepsAll(rows: seq<OP>, f: OpFilter, dayKey: string -> Option<string>)
    requires f.id == "" && f.text == "" && !f.maxOnly
    requires f.priorities == [] && f.statuses == [] && f.assignees == [] && f.projects == []
    requires f.createdFrom == "" && f.createdTo == "" && f.dueFrom == "" && f.dueTo == ""
    ensures FilterOps(rows, f, dayKey) == rows
  {
    FilterAll(rows, MatchesAll(f, dayKey));
  }

  /** Adding a criterion never lets more rows through: a row passing the stricter filter passes the looser one. */
  lemma MaxOnlyNarrows(rows: seq<OP>, f: OpFilter, dayKey: string -> Option<string>)
    requires f.id == ""
    ensures IsSubsequence(FilterOps(rows, f.(maxOnly := true), dayKey), FilterOps(rows, f.(maxOnly := false), dayKey))
  {
    FilterNarrows(rows, MatchesAll(f.(maxOnly := true), dayKey), MatchesAll(f.(maxOnly := false), dayKey));
  }

  /** The `forEach` over the filter's assignees that raises the `ok` flag. */
  method AnyAssignee(wanted: seq<string>, names: seq<string>) returns (ok: bool)
    ensures ok <==> AssigneeHit(wanted, names)
  {
    ok := false;
    var i := 0;
    while i < |wanted|
      invariant 0 <= i <= |wanted|
      invariant ok <==> exists j :: 0 <= j < i && wanted[j] in names
    {
      if wanted[i] in names {
        ok := true;
      }
      i := i + 1;
    }
  }

  /** The `forEach` over the filter's projects that raises the `okp` flag. */
  method AnyProject(wanted: seq<string>, project: string) returns (okp: bool)
    ensures okp <==> ProjectHit(wanted, project)
  {
    okp := false;
    var i := 0;
    while i < |wanted|
      invariant 0 <= i <= |wanted|
      invariant okp <==> exists j :: 0 <= j < i && wanted[j] != "" && Contains(project, wanted[j])
    {
      if wanted[i] != "" && Contains(project, wanted[i]) {
        okp := true;
      }
      i := i + 1;
    }
  }

  /** The filter callback for one row, running the two flag loops. */
  method RowMatches(o: OP, f: OpFilter, dayKey: string -> Option<string>) returns (keep: bool)
    ensures keep == Matches(o, f, dayKey)
  {
    keep := true;
    if f.text != "" && !Contains(Lower(Bag(o)), f.text) { keep := false; }
    if |f.priorities| > 0 && Lower(if o.priority != "" then o.priority else DEFAULT_PRIORITY) !in f.priorities {
      keep := false;
    }
    if |f.statuses| > 0 && (if o.status != "" then o.status else DEFAULT_STATUS) !in f.statuses { keep := false; }
    if f.maxOnly && !o.maxPriority { keep := false; }
    if !InDateRange(o.createdAt, f.createdFrom, f.createdTo, dayKey) { keep := false; }
    if !InDateRange(o.dueAt, f.dueFrom, f.dueTo, dayKey) { keep := false; }
    if |f.assignees| > 0 {
      var ok := AnyAssignee(f.assignees, LowerAll(o.assignees));
      if !ok { keep := false; }
    }
    if |f.projects| > 0 {
      var okp := AnyProject(f.projects, Lower(o.project));
      if !okp { keep := false; }
    }
  }

  /** `applyOpFilters(rows)`, row by row. */
  method ApplyOpFilters(rows: seq<OP>, f: OpFilter, dayKey: string -> Option<string>) returns (r: seq<OP>)
    ensures r == FilterOps(rows, f, dayKey)
  {
    if f.id != "" {
      r := FilterById(rows, f.id);
    } else {
      r := FilterByCriteria(rows, f, dayKey);
    }
  }

  /** `rows.filter(o => o.id === id)`. */
  method FilterById(rows: seq<OP>, id: string) returns (r: seq<OP>)
    ensures r == Filter(rows, HasId(id))
  {
    r := [];
    var i := 0;
    while i < |rows|
      invariant 0 <= i <= |rows|
      invariant r == Filter(rows[..i], HasId(id))
    {
      FilterStep(rows, i, HasId(id));
      if rows[i].id == id {
        r := r + [rows[i]];
      }
      i := i + 1;
    }
    assert rows[..|rows|] == rows;
  }

  /** The criteria filter, each row checked by `RowMatches`. */
  method FilterByCriteria(rows: seq<OP>, f: OpFilter, dayKey: string -> Option<string>) returns (r: seq<OP>)
    ensures r == Filter(rows, MatchesAll(f, dayKey))
  {
    r := [];
    var i := 0;
    while i < |rows|
      invariant 0 <= i <= |rows|
      invariant r == Filter(rows[..i], MatchesAll(f, dayKey))
    {
      var keep := RowMatches(rows[i], f, dayKey);
      FilterStep(rows, i, MatchesAll(f, dayKey));
      if keep {
        r := r + [rows[i]];
      }
      i := i + 1;
    }
    assert rows[..|rows|] == rows;
  }

  /** `PRIORITY_ORDER[p]`: `low` 1 to `critical` 4, nothing for any other text. */
  function PriorityRank(p: string): (r: Option<int>)
    ensures r.Some? <==> p in {"low", "medium", "high", "critical"}
  {
    if p == "low" then Some(1)
    else if p == "medium" then Some(2)
    else if p == "high" then Some(3)
    else if p == "critical" then Some(4)
    else None
  }

  /** `STATUS_ORDER[s]`: the workflow order of the five statuses, nothing for any other text. */
  function StatusRank(s: string): (r: Option<int>)
    ensures r.Some? <==> s in {"Nuovo", "Da fare", "In corso", "Schedulato", "Completato"}
  {
    if s == "Nuovo" then Some(1)
    else if s == "Da fare" then Some(2)
    else if s == "In corso" then Some(3)
    else if s == "Schedulato" then Some(4)
    else if s == "Completato" then Some(5)
    else None
  }

  /** `cmp(a, b)` on two ranks: an `undefined` rank compares as neither less nor greater. */
  function CompareRanks(a: Option<int>, b: Option<int>): (r: int)
    ensures a.None? || b.None? ==> r == 0
    ensures a.Some? && b.Some? ==> (r == -1 <==> a.value < b.value) && (r == 1 <==> a.value > b.value)
    ensures a.Some? && b.Some? ==> (r == 0 <==> a.value == b.value)
  {
    if a.None? || b.None? then 0
    else if a.value < b.value then -1
    else if a.value > b.value then 1
    else 0
  }

  /** `cmp(!!a, !!b)`: `false` sorts before `true`. */
  function CompareFlags(a: bool, b: bool): (r: int)
    ensures r == -1 <==> !a && b
    ensures r == 1 <==> a && !b
    ensures r == 0 <==> a == b
  {
    if a == b then 0 else if b then -1 else 1
  }

  /**
   * `cmpDate(a, b)`: each non-empty value becomes its day key; when the
   * conversion of `a` throws both stay raw, when that of `b` throws only `a`
   * has been converted.
   */
  function CompareDates(a: string, b: string, dayKey: string -> Option<string>): (r: int)
    ensures r == -1 || r == 0 || r == 1
  {
    var ka := if a == "" then Some("") else dayKey(a);
    var kb := if b == "" then Some("") else dayKey(b);
    if ka.None? then CompareStrings(a, b)
    else if kb.None? then CompareStrings(ka.value, b)
    else CompareStrings(ka.value, kb.value)
  }

  /** Every non-empty value converts to a day key. */
  predicate Converts(a: string, dayKey: string -> Option<string>) {
    a == "" || dayKey(a).Some?
  }

  /** On values that convert, `cmpDate` compares the day keys, so swapping the arguments flips the sign. */
  lemma CompareDatesAntisymmetric(a: string, b: string, dayKey: string -> Option<string>)
    requires Converts(a, dayKey) && Converts(b, dayKey)
    ensures CompareDates(a, b, dayKey) == -CompareDates(b, a, dayKey)
  {
  }

  /** The comparison `sortOpRows` makes for key `k`, before the direction is applied. */
  function CompareOps(k: string, x: OP, y: OP, dayKey: string -> Option<string>): (r: int)
    ensures r == -1 || r == 0 || r == 1
    ensures k !in SORT_KEYS ==> r == 0
  {
    if k == "title" then CompareStrings(Lower(x.title), Lower(y.title))
    else if k == "project" then CompareStrings(Lower(x.project), Lower(y.project))
    else if k == "assignees" then CompareStrings(Lower(Join(x.assignees, ", ")), Lower(Join(y.assignees, ", ")))
    else if k == "priority" then
      CompareRanks(PriorityRank(if x.priority != "" then x.priority else DEFAULT_PRIORITY),
                   PriorityRank(if y.priority != "" then y.priority else DEFAULT_PRIORITY))
    else if k == "status" then
      CompareRanks(StatusRank(if x.status != "" then x.status else DEFAULT_STATUS),
                   StatusRank(if y.status != "" then y.status else DEFAULT_STATUS))
    else if k == "maxPriority" then CompareFlags(x.maxPriority, y.maxPriority)
    else if k == "createdAt" then CompareDates(x.createdAt, y.createdAt, dayKey)
    else if k == "dueAt" then CompareDates(x.dueAt, y.dueAt, dayKey)
    else if k == "id" then CompareStrings(x.id, y.id)
    else 0
  }

  const SORT_KEYS: set<string> :=
    {"title", "project", "assignees", "priority", "status", "maxPriority", "createdAt", "dueAt", "id"}

  /** The open points whose date under key `k` converts, when `k` is a date column. */
  predicate DatesConvert(rows: seq<OP>, k: string, dayKey: string -> Option<string>) {
    && (k == "createdAt" ==> forall o :: o in rows ==> Converts(o.createdAt, dayKey))
    && (k == "dueAt" ==> forall o :: o in rows ==> Converts(o.dueAt, dayKey))
  }

  lemma CompareOpsAntisymmetric(k: string, x: OP, y: OP, dayKey: string -> Option<string>)
    requires k == "createdAt" ==> Converts(x.createdAt, dayKey) && Converts(y.createdAt, dayKey)
    requires k == "dueAt" ==> Converts(x.dueAt, dayKey) && Converts(y.dueAt, dayKey)
    ensures CompareOps(k, x, y, dayKey) == -CompareOps(k, y, x, dayKey)
  {
    if k == "createdAt" {
      CompareDatesAntisymmetric(x.createdAt, y.createdAt, dayKey);
    } else if k == "dueAt" {
      CompareDatesAntisymmetric(x.dueAt, y.dueAt, dayKey);
    }
  }

  /** The comparator handed to `sort`: the key comparison times the direction. */
  function OpComparator(s: SortState, dayKey: string -> Option<string>): (OP, OP) -> int {
    (x: OP, y: OP) => CompareOps(s.key, x, y, dayKey) * Sign(s)
  }

  /** `sortOpRows(rows)`: a sorted copy; the input sequence itself is a value and cannot change. */
  function SortOpRows(rows: seq<OP>, s: SortState, dayKey: string -> Option<string>): (r: seq<OP>)
    ensures multiset(r) == multiset(rows) && |r| == |rows|
  {
    SortBy(rows, OpComparator(s, dayKey))
  }

  /** When the dates of a date column convert, the copy is in the order of the comparator. */
  lemma SortOpRowsSorted(rows: seq<OP>, s: SortState, dayKey: string -> Option<string>)
    requires DatesConvert(rows, s.key, dayKey)
    ensures SortedBy(OpComparator(s, dayKey), SortOpRows(rows, s, dayKey))
  {
    var cmp := OpComparator(s, dayKey);
    forall x, y | x in multiset(rows) && y in multiset(rows) && cmp(x, y) > 0
      ensures cmp(y, x) < 0
    {
      CompareOpsAntisymmetric(s.key, x, y, dayKey);
    }
    SortBySorted(rows, cmp);
  }

  /** Descending order reverses the sign of every comparison that ascending order makes. */
  lemma DescNegates(k: string, x: OP, y: OP, dayKey: string -> Option<string>)
    ensures OpComparator(SortState(k, "desc"), dayKey)(x, y) == -OpComparator(SortState(k, "asc"), dayKey)(x, y)
  {
    assert Sign(SortState(k, "desc")) == -1;
    assert Sign(SortState(k, "asc")) == 1;
  }

  /** A key that is not a column leaves the rows in their order. */
  lemma UnknownKeyKeepsOrder(rows: seq<OP>, s: SortState, dayKey: string -> Option<string>)
    requires s.key !in SORT_KEYS
    ensures SortOpRows(rows, s, dayKey) == rows
  {
    var cmp := OpComparator(s, dayKey);
    forall x, y ensures cmp(x, y) == 0 {
      assert CompareOps(s.key, x, y, dayKey) == 0;
    }
    SortByAllEqual(rows, cmp);
  }

  /** `setOpSort`: a new column sorts descending for the two date columns, ascending otherwise. */
  const OP_DESC_KEYS: set<string> := {"createdAt", "dueAt"}

  /** The screen's initial sort: newest first. */
  function InitialOpSort(): SortState {
    SortState("createdAt", "desc")
  }

  /** `v == null ? "" : String(v)`: the text a field is written from. */
  function CsvText(v: Option<Json>): string {
    if v.None? || v.value.JNull? then "" else ToStr(v.value)
  }

  /**
   * `quoteCSV(v)`: `null` and `undefined` become the empty field; a text
   * holding a double quote, a line feed or `;` is wrapped in double quotes
   * with its double quotes doubled; any other text is written as it is.
   */
  function QuoteCsv(v: Option<Json>): (r: string)
    ensures v.None? || v.value.JNull? ==> r == ""
    ensures (|r| >= 1 && r[0] == '"') <==> NeedsQuotes(CsvText(v))
    ensures NeedsQuotes(CsvText(v)) ==>
              |r| >= 2 && r[0] == '"' && r[|r| - 1] == '"' && r[1..|r| - 1] == ReplaceAll(CsvText(v), '"', "\"\"")
    ensures !NeedsQuotes(CsvText(v)) ==> r == CsvText(v)
  {
    var s := CsvText(v);
    if NeedsQuotes(s) then "\"" + ReplaceAll(s, '"', "\"\"") + "\"" else s
  }

  predicate NeedsQuotes(s: string) {
    '"' in s || '\n' in s || ';' in s
  }

  /** Reading a field back: quotes around it are removed and doubled quotes inside undone. */
  function UnquoteCsv(f: string): string {
    if |f| >= 2 && f[0] == '"' && f[|f| - 1] == '"' then Undouble(f[1..|f| - 1]) else f
  }

  /** `""` becomes `"`; everything else is kept. */
  function Undouble(s: string): string {
    if |s| >= 2 && s[0] == '"' && s[1] == '"' then "\"" + Undouble(s[2..])
    else if s == [] then []
    else [s[0]] + Undouble(s[1..])
  }

  lemma {:induction false} UndoubleDoubled(s: string)
    ensures Undouble(ReplaceAll(s, '"', "\"\"")) == s
  {
    if s != [] {
      UndoubleDoubled(s[1..]);
      var rest := ReplaceAll(s[1..], '"', "\"\"");
      if s[0] == '"' {
        assert ReplaceAll(s, '"', "\"\"") == "\"\"" + rest;
        assert ("\"\"" + rest)[2..] == rest;
      } else {
        assert ReplaceAll(s, '"', "\"\"") == [s[0]] + rest;
        assert ([s[0]] + rest)[1..] == rest;
      }
    }
  }

  /** Quoting is undone by reading the field back: the text of the value is recovered. */
  lemma QuoteCsvRoundTrip(v: Json)
    requires !v.JNull?
    ensures UnquoteCsv(QuoteCsv(Some(v))) == ToStr(v)
  {
    var s := ToStr(v);
    if NeedsQuotes(s) {
      var q := QuoteCsv(Some(v));
      UndoubleDoubled(s);
      assert q[1..|q| - 1] == ReplaceAll(s, '"', "\"\"");
    } else {
      assert s == [] || s[0] != '"';
    }
  }

  /** Every double quote of `t` is one of an adjacent pair `""`. */
  predicate PairedQuotes(t: string) {
    if t == [] then true
    else if t[0] == '"' then |t| >= 2 && t[1] == '"' && PairedQuotes(t[2..])
    else PairedQuotes(t[1..])
  }

  lemma {:induction false} DoubledQuotesPaired(s: string)
    ensures PairedQuotes(ReplaceAll(s, '"', "\"\""))
  {
    if s != [] {
      DoubledQuotesPaired(s[1..]);
      var rest := ReplaceAll(s[1..], '"', "\"\"");
      if s[0] == '"' {
        assert ReplaceAll(s, '"', "\"\"") == "\"\"" + rest;
        assert ("\"\"" + rest)[2..] == rest;
      } else {
        assert ReplaceAll(s, '"', "\"\"") == [s[0]] + rest;
        assert ([s[0]] + rest)[1..] == rest;
      }
    }
  }

  /**
   * A field holding a separator, a line feed or a double quote is wrapped in
   * double quotes, and inside them every double quote is doubled.
   */
  lemma QuoteCsvSeparatorSafe(v: Option<Json>)
    ensures var r := QuoteCsv(v);
            (';' in r || '\n' in r || '"' in r) ==>
              |r| >= 2 && r[0] == '"' && r[|r| - 1] == '"' && PairedQuotes(r[1..|r| - 1])
  {
    var r := QuoteCsv(v);
    if NeedsQuotes(CsvText(v)) {
      DoubledQuotesPaired(CsvText(v));
    }
  }

  /** The header line of the open-point CSV export. */
  const CSV_HEADER: seq<string> :=
    ["ID", "Titolo", "Progetto", "Assegnatari", "Priorita", "Stato", "MaxPriority",
     "InseritoIl", "Scadenza", "Descrizione", "Note"]

  /** The eleven field texts exported for an open point, before quoting. */
  function CsvFields(o: OP): (r: seq<string>)
    ensures |r| == |CSV_HEADER|
    ensures r[0] == o.id && r[4] == Upper(o.priority) && r[6] == (if o.maxPriority then "1" else "0")
  {
    [o.id, o.title, o.project, Join(o.assignees, ", "), Upper(o.priority), o.status,
     if o.maxPriority then "1" else "0", o.createdAt, o.dueAt, o.desc, o.notes]
  }

  /** One exported line: the quoted fields joined with `;`. */
  function CsvLine(o: OP): string {
    var fields := CsvFields(o);
    Join(seq(|fields|, i requires 0 <= i < |fields| => QuoteCsv(Some(JStr(fields[i])))), ";")
  }

  /**
   * The new open point built from the editor's normalised record: refused
   * (`None`) when its title is empty, its creation date defaulting to today.
   */
  function Draft(obj: OP, today: string): (r: Option<OP>)
    ensures r.Some? <==> obj.title != ""
    ensures r.Some? ==> r.value.(createdAt := obj.createdAt) == obj
    ensures r.Some? && obj.createdAt != "" ==> r.value == obj
    ensures r.Some? && obj.createdAt == "" ==> r.value.createdAt == today
  {
    if obj.title == "" then None
    else if obj.createdAt == "" then Some(obj.(createdAt := today))
    else Some(obj)
  }

  function IdOf(o: OP): string { o.id }

  function WithId(o: OP, id: string): OP { o.(id := id) }

  /**
   * `saveOpDialog`, `obj` being `normalizeOP` of the editor's fields: a
   * draft without title is refused and nothing changes;
   * otherwise it replaces the open point being edited, keeping that id, or
   * is put at the head of the list.
   */
  method SaveOp(ops: Collection<OP>, editing: string, obj: OP, today: string) returns (saved: bool)
    modifies ops
    ensures saved <==> Draft(obj, today).Some?
    ensures !saved ==> ops.items == old(ops.items)
    ensures saved ==> ops.items == Upserted(old(ops.items), editing, Draft(obj, today).value, IdOf, WithId)
  {
    if obj.title == "" {
      return false;
    }
    var draft := obj;
    if draft.createdAt == "" {
      draft := draft.(createdAt := today);
    }
    Upsert(ops, editing, draft, IdOf, WithId);
    saved := true;
  }

  /** `deleteOpenPoint(id)`, once confirmed: every open point with that id is removed. */
  method DeleteOp(ops: Collection<OP>, id: string, confirmed: bool)
    modifies ops
    ensures confirmed ==> ops.items == WithoutId(old(ops.items), id, IdOf)
    ensures !confirmed ==> ops.items == old(ops.items)
  {
    if confirmed {
      DeleteById(ops, id, IdOf);
    }
  }

  /** `clearOpenPoints()`, once confirmed: the list becomes empty. */
  method ClearOps(ops: Collection<OP>, confirmed: bool)
    modifies ops
    ensures ops.items == if confirmed then [] else old(ops.items)
  {
    if confirmed {
      ops.items := [];
    }
  }

  /*
   * The global state and the open-point screen. js/core.js builds the
   * global state with the open points under `op` and no `openPoints`
   * property (js/core.js:90-100), while the save, delete and clear of
   * js/op.js (lines 118-121, 136, 147) and the notifications of js/links.js
   * (line 101) use `state.openPoints`. The methods above edit the
   * collection the state actually holds, `state.op`; the members below
   * model the lines as written on the global state object.
   */

  /** `state.openPoints` used as an array: the array, or `None` for the TypeError when it is not one. */
  function OpenPointsProperty(state: map<string, Json>): (r: Option<seq<Json>>)
    ensures r.Some? <==> "openPoints" in state && state["openPoints"].JArr?
    ensures r.Some? ==> r.value == state["openPoints"].items
  {
    if "openPoints" in state && state["openPoints"].JArr? then Some(state["openPoints"].items) else None
  }

  /** `o.id`, when it is a string; another id never equals the non-empty id being edited. */
  function JsonId(o: Json): string {
    match Get(o, "id")
    case Some(JStr(id)) => id
    case _ => ""
  }

  /** `{ ...obj, id }`. */
  function JsonWithId(o: Json, id: string): Json {
    JObj((if o.JObj? then o.fields else map[])["id" := JStr(id)])
  }

  /**
   * `saveOpDialog` as written, on the global state: `findIndex` or
   * `unshift` on `state.openPoints`, which throws (`None`) when that is not
   * an array.
   */
  function SaveOpAsWritten(state: map<string, Json>, editing: string, obj: Json): (r: Option<map<string, Json>>)
    ensures r.None? <==> OpenPointsProperty(state).None?
    ensures r.Some? ==> r.value.Keys == state.Keys
    ensures r.Some? ==> forall k :: k in state && k != "openPoints" ==> r.value[k] == state[k]
  {
    match OpenPointsProperty(state)
    case None => None
    case Some(items) => Some(state["openPoints" := JArr(Upserted(items, editing, obj, JsonId, JsonWithId))])
  }

  /**
   * Every state js/core.js loads lacks `openPoints`, so reading it as an
   * array (the save, the delete, the notifications) throws, and the save as
   * written always fails.
   */
  lemma SaveOpAsWrittenFailsOnLoadedState(stored: map<string, string>, parse: string -> Option<Json>,
                                          editing: string, obj: Json)
    ensures OpenPointsProperty(Core.ToObject(Core.LoadState(stored, parse))) == None
    ensures SaveOpAsWritten(Core.ToObject(Core.LoadState(stored, parse)), editing, obj) == None
  {
  }

  /**
   * `clearOpenPoints` as written, then `saveState`: `state.openPoints = []`
   * is added beside `op`; when `op` is an array, as on every state
   * js/core.js builds, the canonicalisation leaves both, and only a state
   * without an `op` array gets its open points cleared.
   */
  function ClearOpsAsWritten(state: map<string, Json>): (r: map<string, Json>)
    ensures IsArray(Get(JObj(state), "op")) ==>
              "openPoints" in r && r["openPoints"] == JArr([]) && "op" in r && r["op"] == state["op"]
    ensures !IsArray(Get(JObj(state), "op")) ==> "openPoints" !in r && "op" in r && r["op"] == JArr([])
  {
    Core.CanonicalShape(state["openPoints" := JArr([])])
  }

  /** The clear as written is lost: the saved object reloads with every open point still there. */
  lemma ClearAsWrittenLostOnReload(s: Core.AppState)
    ensures Core.Shape(JObj(ClearOpsAsWritten(Core.ToObject(s)))).op == s.op
  {
    var t := Core.ToObject(s)["openPoints" := JArr([])];
    assert IsArray(Get(JObj(t), "op"));
    assert Get(JObj(ClearOpsAsWritten(Core.ToObject(s))), "op") == Some(JArr(s.op));
  }

  /**
   * The intended behaviour: an edit of `state.op` (a save, a delete, a
   * clear) survives `saveState` and a reload, whatever the other
   * collections hold.
   */
  lemma OpEditsPersist(s: Core.AppState, ops: seq<Json>)
    ensures Core.Shape(JObj(Core.CanonicalShape(Core.ToObject(s.(op := ops))))) == s.(op := ops)
  {
    Core.CanonicalPreservesLoad(Core.ToObject(s.(op := ops)));
    Core.ShapeOfObject(s.(op := ops));
  }
}
