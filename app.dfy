/**
 * The older single-file generation of the client (app.js), where it differs
 * from the js/ files: its state keeps open points under `openPoints`, its
 * remote push is gated on the time of the last local save, its pull has no
 * fallback, and its links screen moves a card next to another card or to
 * the end of a section, re-attaches imported links, and exports the CRQs as
 * `;`-separated text.
 */
module Legacy {
  import opened Wrappers
  import opened Strings
  import opened Json
  import opened Seqs
  import opened Core
  import opened Links

  /** The state as this generation reads it: the `op` field holds what is stored under `openPoints`. */
  function LegacyShape(v: Json): (r: AppState)
    ensures r.sections == ArrayOr(Get(v, "sections")) && r.links == ArrayOr(Get(v, "links"))
    ensures r.op == ArrayOr(Get(v, "openPoints"))
    ensures r.services == ArrayOr(Get(v, "services")) && r.crq == ArrayOr(Get(v, "crq"))
  {
    AppState(ArrayOr(Get(v, "sections")), ArrayOr(Get(v, "links")), ArrayOr(Get(v, "openPoints")),
             ArrayOr(Get(v, "services")), ArrayOr(Get(v, "crq")))
  }

  /** The state as this generation keeps and saves it. */
  function LegacyObject(s: AppState): (m: map<string, Json>)
    ensures m.Keys == {"sections", "links", "openPoints", "services", "crq"}
  {
    map["sections" := JArr(s.sections), "links" := JArr(s.links), "openPoints" := JArr(s.op),
        "services" := JArr(s.services), "crq" := JArr(s.crq)]
  }

  /**
   * `loadState` of app.js: a missing or empty item, text that does not
   * parse, or `null` give the empty state; anything else is read key by key.
   */
  function LegacyLoadState(storage: map<string, string>, parse: string -> Option<Json>): (r: AppState)
    ensures StoredValue(storage, parse).None? || StoredValue(storage, parse) == Some(JNull) ==> IsEmpty(r)
  {
    match StoredValue(storage, parse)
    case None => DefaultState()
    case Some(JNull) => DefaultState()
    case Some(v) => LegacyShape(v)
  }

  /** The older generation loads back what it saved. */
  lemma LegacyLoadAfterSave(s: AppState, storage: map<string, string>, parse: string -> Option<Json>, text: string)
    requires text != "" && parse(text) == Some(JObj(LegacyObject(s)))
    ensures LegacyLoadState(storage[STORAGE_KEY := text], parse) == s
  {
    assert StoredValue(storage[STORAGE_KEY := text], parse) == Some(JObj(LegacyObject(s)));
  }

  /**
   * Across generations: the js/ client reads an older save completely (it
   * falls back to `openPoints`), while this generation reading a js/ save
   * finds no `openPoints` and loses the open points.
   */
  lemma GenerationsCompatibility(s: AppState)
    ensures Shape(JObj(LegacyObject(s))) == s
    ensures LegacyShape(JObj(ToObject(s))) == s.(op := [])
  {
  }

  /**
   * The push gate of this generation reads `LAST_SAVE_KEY`, which the
   * debounced local save also writes: a push less than six seconds after a
   * local save sends nothing.
   */
  lemma LocalSaveSuppressesPush(endpoint: string, storage: map<string, string>, json: string, t: nat, now: int,
                                doneAt: nat, body: string, reply: Reply)
    requires IsHttpUrl(Trim(endpoint))
    requires now < t + MIN_PUSH_INTERVAL
    ensures var st := LocalWrite(storage, json, t);
      Push(endpoint, st, LAST_SAVE_KEY, now, doneAt, body, reply) == PushResult(PushTooSoon, None, st)
  {
    var st := LocalWrite(storage, json, t);
    LocalWriteStoresTime(storage, json, t);
    assert RecentPush(st, LAST_SAVE_KEY, now);
  }

  /** What this generation's pull does. */
  datatype LegacyPullOutcome = LegacyNotConfigured | LegacyUnavailable | LegacyLoaded(state: AppState)

  /**
   * `loadFromRepo` of app.js: one GET of the combined URL; anything but an
   * ok response whose body is an object or an array leaves the state
   * unchanged; such a body replaces every collection.
   */
  function LegacyPull(endpoint: string, fetch: string -> Fetched): (r: LegacyPullOutcome)
    ensures r == LegacyNotConfigured <==> !IsHttpUrl(Trim(endpoint))
    ensures r.LegacyLoaded? <==> IsHttpUrl(Trim(endpoint)) && CombinedBody(fetch(CombinedUrl(Trim(endpoint)))).Some?
                                 && (CombinedBody(fetch(CombinedUrl(Trim(endpoint)))).value.JObj?
                                     || CombinedBody(fetch(CombinedUrl(Trim(endpoint)))).value.JArr?)
  {
    var e := Trim(endpoint);
    if !IsHttpUrl(e) then LegacyNotConfigured
    else
      var data := CombinedBody(fetch(CombinedUrl(e)));
      if data.Some? && (data.value.JObj? || data.value.JArr?) then LegacyLoaded(LegacyShape(data.value))
      else LegacyUnavailable
  }

  /**
   * No fallback and no check of the keys: an ok response holding an object
   * without any collection empties every collection.
   */
  lemma EmptyObjectWipesState(endpoint: string, fetch: string -> Fetched)
    requires IsHttpUrl(Trim(endpoint))
    requires fetch(CombinedUrl(Trim(endpoint))) == Ok(Some(JObj(map[])))
    ensures LegacyPull(endpoint, fetch) == LegacyLoaded(DefaultState())
  {
  }

  /**
   * The older client's global `state`, its local storage, and the pending
   * call of its debounced local save (the JSON text and the time it fires).
   */
  class LegacyClient {
    var state: AppState
    var storage: map<string, string>
    var pendingLocal: Option<string>
    var localDue: int

    /** Start-up: `state = loadState(); saveState(state)`. */
    constructor (stored: map<string, string>, parse: string -> Option<Json>, stringify: Json -> string, now: int)
      ensures state == LegacyLoadState(stored, parse)
      ensures storage == stored
      ensures pendingLocal == Some(stringify(JObj(LegacyObject(state)))) && localDue == now + LOCAL_SAVE_DELAY
    {
      var s := LegacyLoadState(stored, parse);
      state := s;
      storage := stored;
      pendingLocal := Some(stringify(JObj(LegacyObject(s))));
      localDue := now + LOCAL_SAVE_DELAY;
    }

    /** The debounce timer at time `now`: a pending save that is due writes the text and the save time once. */
    method FlushLocalSave(now: nat)
      modifies this
      ensures storage == if old(pendingLocal).Some? && old(localDue) <= now
                         then LocalWrite(old(storage), old(pendingLocal).value, now) else old(storage)
      ensures pendingLocal == if old(pendingLocal).Some? && old(localDue) <= now then None else old(pendingLocal)
      ensures state == old(state) && localDue == old(localDue)
    {
      if pendingLocal.Some? && localDue <= now {
        storage := LocalWrite(storage, pendingLocal.value, now);
        pendingLocal := None;
      }
    }

    /**
     * `loadFromRepo`: the state is replaced only by a loaded one, which is
     * then saved locally through the debounced save (`saveState(state)`).
     */
    method LoadFromRepo(endpoint: string, fetch: string -> Fetched, stringify: Json -> string, now: int)
      returns (r: LegacyPullOutcome)
      modifies this
      ensures r == LegacyPull(endpoint, fetch)
      ensures r.LegacyLoaded? ==>
                state == r.state && pendingLocal == Some(stringify(JObj(LegacyObject(state))))
                && localDue == now + LOCAL_SAVE_DELAY
      ensures !r.LegacyLoaded? ==>
                state == old(state) && pendingLocal == old(pendingLocal) && localDue == old(localDue)
      ensures storage == old(storage)
    {
      r := LegacyPull(endpoint, fetch);
      if r.LegacyLoaded? {
        var s := r.state;
        var text := stringify(JObj(LegacyObject(s)));
        state := s;
        pendingLocal := Some(text);
        localDue := now + LOCAL_SAVE_DELAY;
      }
    }
  }

  /** `s.splice(i, 1)`. */
  function RemoveAt<T>(s: seq<T>, i: int): (r: seq<T>)
    requires 0 <= i < |s|
    ensures |r| == |s| - 1
    ensures multiset(r) == multiset(s) - multiset{s[i]}
  {
    assert s == s[..i] + [s[i]] + s[i + 1..];
    s[..i] + s[i + 1..]
  }

  /** `s.splice(i, 0, x)`. */
  function InsertAt<T>(s: seq<T>, i: int, x: T): (r: seq<T>)
    requires 0 <= i <= |s|
    ensures |r| == |s| + 1 && r[i] == x
    ensures multiset(r) == multiset(s) + multiset{x}
    ensures RemoveAt(r, i) == s
  {
    assert s == s[..i] + s[i..];
    assert (s[..i] + [x] + s[i..])[..i] == s[..i];
    assert (s[..i] + [x] + s[i..])[i + 1..] == s[i..];
    s[..i] + [x] + s[i..]
  }

  /** Cells before the insertion point stay where they were; those after it move up by one. */
  lemma InsertAtCells<T>(s: seq<T>, i: int, x: T)
    requires 0 <= i <= |s|
    ensures forall j :: 0 <= j < i ==> InsertAt(s, i, x)[j] == s[j]
    ensures forall j :: i < j <= |s| ==> InsertAt(s, i, x)[j] == s[j - 1]
  {
  }

  /** Cells before the removed one stay where they were; those after it move down by one. */
  lemma RemoveAtCells<T>(s: seq<T>, i: int)
    requires 0 <= i < |s|
    ensures forall j :: 0 <= j < i ==> RemoveAt(s, i)[j] == s[j]
    ensures forall j :: i <= j < |s| - 1 ==> RemoveAt(s, i)[j] == s[j + 1]
  {
  }

  function HasLinkId(id: string): Link -> bool {
    (l: Link) => l.id == id
  }

  /** The insertion point of `moveLinkRelative`, clamped to the list without the dragged link. */
  function RelativeSlot(di: int, ti: int, place: string, n: int): (k: int)
    requires n >= 0
    ensures 0 <= k <= n
  {
    var at := if place == "after" then ti + (if di < ti then 0 else 1) else ti - (if di < ti then 1 else 0);
    if at < 0 then 0 else if at > n then n else at
  }

  /** The link at `di`, given the section of the link at `ti`, taken out and put back next to it. */
  function MoveNextTo(s: seq<Link>, di: int, ti: int, place: string): (r: seq<Link>)
    requires 0 <= di < |s| && 0 <= ti < |s|
    ensures |r| == |s|
  {
    InsertAt(RemoveAt(s, di), RelativeSlot(di, ti, place, |s| - 1), s[di].(sectionId := s[ti].sectionId))
  }

  /**
   * `moveLinkRelative(dragId, targetId, where)`: nothing when either id is
   * unknown; otherwise the dragged link moves next to the target.
   */
  function MovedRelative(s: seq<Link>, dragId: string, targetId: string, place: string): (r: seq<Link>)
    ensures |r| == |s|
    ensures FirstIndex(s, HasLinkId(dragId)) < 0 || FirstIndex(s, HasLinkId(targetId)) < 0 ==> r == s
  {
    var di := FirstIndex(s, HasLinkId(dragId));
    var ti := FirstIndex(s, HasLinkId(targetId));
    if di < 0 || ti < 0 then s else MoveNextTo(s, di, ti, place)
  }

  /**
   * A move replaces the dragged link by its copy in the target's section,
   * puts it at the insertion point, and keeps the other links in order.
   */
  lemma MoveNextToPermutes(s: seq<Link>, di: int, ti: int, place: string)
    requires 0 <= di < |s| && 0 <= ti < |s|
    ensures var moved := s[di].(sectionId := s[ti].sectionId);
      var r := MoveNextTo(s, di, ti, place);
      var k := RelativeSlot(di, ti, place, |s| - 1);
      && multiset(r) == multiset(s) - multiset{s[di]} + multiset{moved}
      && r[k] == moved && RemoveAt(r, k) == RemoveAt(s, di)
  {
    var moved := s[di].(sectionId := s[ti].sectionId);
    var rest := RemoveAt(s, di);
    var k := RelativeSlot(di, ti, place, |s| - 1);
    assert multiset(rest) == multiset(s) - multiset{s[di]};
    assert multiset(InsertAt(rest, k, moved)) == multiset(rest) + multiset{moved};
  }

  /** With two different links, the dragged one ends right after or right before the target, as asked. */
  lemma MoveNextToTarget(s: seq<Link>, di: int, ti: int, place: string)
    requires 0 <= di < |s| && 0 <= ti < |s| && di != ti
    ensures var r := MoveNextTo(s, di, ti, place);
      var k := RelativeSlot(di, ti, place, |s| - 1);
      && r[k].id == s[di].id && r[k].sectionId == s[ti].sectionId
      && (place == "after" ==> 0 < k && r[k - 1] == s[ti])
      && (place != "after" ==> k + 1 < |r| && r[k + 1] == s[ti])
  {
    var rest := RemoveAt(s, di);
    var k := RelativeSlot(di, ti, place, |s| - 1);
    var moved := s[di].(sectionId := s[ti].sectionId);
    var t2 := if di < ti then ti - 1 else ti;
    RemoveAtCells(s, di);
    assert rest[t2] == s[ti];
    InsertAtCells(rest, k, moved);
    if place == "after" {
      assert k == t2 + 1;
    } else {
      assert k == t2;
    }
  }

  /** `moveLinkRelative`: two lookups and two splices of `state.links`. */
  method MoveLinkRelative(links: Collection<Link>, dragId: string, targetId: string, place: string)
    modifies links
    ensures links.items == MovedRelative(old(links.items), dragId, targetId, place)
  {
    var di := FindIndex(links.items, HasLinkId(dragId));
    var ti := FindIndex(links.items, HasLinkId(targetId));
    if di < 0 || ti < 0 {
      return;
    }
    ghost var s := links.items;
    var dragged := links.items[di];
    var target := links.items[ti];
    if dragged.sectionId != target.sectionId {
      dragged := dragged.(sectionId := target.sectionId);
    }
    links.items := RemoveAt(links.items, di);
    var insertAt;
    if place == "after" {
      insertAt := ti + (if di < ti then 0 else 1);
    } else {
      insertAt := ti - (if di < ti then 1 else 0);
    }
    insertAt := if insertAt > |links.items| then |links.items| else insertAt;
    insertAt := if insertAt < 0 then 0 else insertAt;
    assert insertAt == RelativeSlot(di, ti, place, |s| - 1);
    links.items := InsertAt(links.items, insertAt, dragged);
  }

  function InSectionOf(secId: Option<string>): Link -> bool {
    (l: Link) => l.sectionId == secId
  }

  /** The last index whose element satisfies `p`, or -1. */
  function LastIndex<T>(s: seq<T>, p: T -> bool): (r: int)
    ensures -1 <= r < |s|
    ensures r >= 0 ==> p(s[r])
    ensures forall j :: r < j < |s| ==> !p(s[j])
  {
    if s == [] then -1
    else if p(s[|s| - 1]) then |s| - 1
    else LastIndex(s[..|s| - 1], p)
  }

  /** Where `moveLinkToSectionEnd` puts the dragged link: after the section's last link, else at the end. */
  function EndSlot(rest: seq<Link>, secId: Option<string>): (k: int)
    ensures 0 <= k <= |rest|
  {
    var last := LastIndex(rest, InSectionOf(secId));
    if last == -1 then |rest| else last + 1
  }

  /** The link at `di` taken out and put back at the end of section `secId`. */
  function MoveToEnd(s: seq<Link>, di: int, secId: Option<string>): (r: seq<Link>)
    requires 0 <= di < |s|
    ensures |r| == |s|
  {
    var rest := RemoveAt(s, di);
    InsertAt(rest, EndSlot(rest, secId), s[di].(sectionId := secId))
  }

  /** `moveLinkToSectionEnd(dragId, secId)` on the list: nothing when the id is unknown. */
  function ToSectionEnd(s: seq<Link>, dragId: string, secId: Option<string>): (r: seq<Link>)
    ensures |r| == |s|
    ensures FirstIndex(s, HasLinkId(dragId)) < 0 ==> r == s
  {
    var di := FirstIndex(s, HasLinkId(dragId));
    if di < 0 then s else MoveToEnd(s, di, secId)
  }

  /**
   * The dragged link lands right after the last link of the section (at the
   * end when there is none), takes that section, no link of the section
   * comes after it, and the other links keep their order.
   */
  lemma MoveToEndPlacement(s: seq<Link>, di: int, secId: Option<string>)
    requires 0 <= di < |s|
    ensures var rest := RemoveAt(s, di);
      var k := EndSlot(rest, secId);
      var r := MoveToEnd(s, di, secId);
      && r[k] == s[di].(sectionId := secId)
      && (k < |rest| ==> r[k - 1].sectionId == secId)
      && (forall j :: k < j < |r| ==> r[j].sectionId != secId)
      && RemoveAt(r, k) == rest
  {
    var rest := RemoveAt(s, di);
    var last := LastIndex(rest, InSectionOf(secId));
    var k := EndSlot(rest, secId);
    var r := MoveToEnd(s, di, secId);
    InsertAtCells(rest, k, s[di].(sectionId := secId));
    forall j | k < j < |r|
      ensures r[j].sectionId != secId
    {
      assert r[j] == rest[j - 1];
      assert !InSectionOf(secId)(rest[j - 1]);
    }
    if last >= 0 {
      assert r[k - 1] == rest[last];
      assert InSectionOf(secId)(rest[last]);
    }
  }

  /** `moveLinkToSectionEnd`: a lookup, a splice, the loop that finds the last link of the section, a splice. */
  method MoveLinkToSectionEnd(links: Collection<Link>, dragId: string, secId: Option<string>)
    modifies links
    ensures links.items == ToSectionEnd(old(links.items), dragId, secId)
  {
    var s := links.items;
    var di := FindIndex(s, HasLinkId(dragId));
    if di < 0 {
      return;
    }
    var dragged := s[di].(sectionId := secId);
    var rest := RemoveAt(s, di);
    links.items := rest;
    var last := LastInSection(rest, secId);
    var insertAt := if last == -1 then |rest| else last + 1;
    assert insertAt == EndSlot(rest, secId);
    links.items := InsertAt(rest, insertAt, dragged);
    assert links.items == MoveToEnd(s, di, secId);
  }

  /** The loop of `moveLinkToSectionEnd` that remembers the last index of a link in section `secId`. */
  method LastInSection(links: seq<Link>, secId: Option<string>) returns (last: int)
    ensures last == LastIndex(links, InSectionOf(secId))
  {
    last := -1;
    var i := 0;
    while i < |links|
      invariant 0 <= i <= |links|
      invariant last == LastIndex(links[..i], InSectionOf(secId))
    {
      assert links[..i + 1][..i] == links[..i];
      if links[i].sectionId == secId {
        last := i;
      }
      i := i + 1;
    }
    assert links[..i] == links;
  }

  /** The ids of the sections. */
  function SectionIds(sections: seq<Section>): set<string> {
    set s | s in sections :: s.id
  }

  /** `state.sections[0]?.id ?? null`. */
  function FirstSectionId(sections: seq<Section>): Option<string> {
    if sections == [] then None else Some(sections[0].id)
  }

  /** One imported link: normalised, then sent to the first section when its section is unset or unknown. */
  function Reattached(l: Json, sections: seq<Section>, freshId: string): (r: Link)
    ensures r == NormalizeLink(Some(l), freshId).(sectionId := r.sectionId)
    ensures r.sectionId == FirstSectionId(sections)
            || (r.sectionId.Some? && r.sectionId.value in SectionIds(sections))
  {
    var x := NormalizeLink(Some(l), freshId);
    if x.sectionId.None? || x.sectionId.value == "" || x.sectionId.value !in SectionIds(sections)
    then x.(sectionId := FirstSectionId(sections))
    else x
  }

  /** The imported sections, each normalised with an id of its own. */
  function NormalizedSections(loaded: seq<Json>, ids: nat -> string): (r: seq<Section>)
    ensures |r| == |loaded|
  {
    seq(|loaded|, i requires 0 <= i < |loaded| => NormalizeSection(Some(loaded[i]), ids(i)))
  }

  /** The imported links, each re-attached to the given sections. */
  function ReattachedLinks(loaded: seq<Json>, sections: seq<Section>, ids: nat -> string): (r: seq<Link>)
    ensures |r| == |loaded|
  {
    seq(|loaded|, i requires 0 <= i < |loaded| => Reattached(loaded[i], sections, ids(i)))
  }

  /**
   * The folder import of sections and links: nothing when neither file was
   * found; the sections are replaced when a sections file was read, then
   * the links, re-attached to the sections now in the state.
   */
  method ImportFolder(sections: Collection<Section>, links: Collection<Link>,
                      loadedSections: Option<seq<Json>>, loadedLinks: Option<seq<Json>>,
                      sectionIds: nat -> string, linkIds: nat -> string)
    returns (imported: bool)
    modifies sections, links
    ensures imported <==> loadedSections.Some? || loadedLinks.Some?
    ensures sections.items == if loadedSections.Some? then NormalizedSections(loadedSections.value, sectionIds)
                              else old(sections.items)
    ensures links.items == if loadedLinks.Some? then ReattachedLinks(loadedLinks.value, sections.items, linkIds)
                           else old(links.items)
  {
    if loadedLinks.None? && loadedSections.None? {
      return false;
    }
    if loadedSections.Some? {
      sections.items := NormalizedSections(loadedSections.value, sectionIds);
    }
    if loadedLinks.Some? {
      links.items := ReattachedLinks(loadedLinks.value, sections.items, linkIds);
    }
    imported := true;
  }

  /**
   * After an import of links, every link belongs to an existing section; it
   * belongs to none only when there are no sections.
   */
  lemma ImportedLinksAttached(loaded: seq<Json>, sections: seq<Section>, linkIds: nat -> string)
    ensures var ls := ReattachedLinks(loaded, sections, linkIds);
      forall i :: 0 <= i < |ls| ==>
        if sections == [] then ls[i].sectionId.None?
        else ls[i].sectionId.Some? && ls[i].sectionId.value in SectionIds(sections)
  {
    var ls := ReattachedLinks(loaded, sections, linkIds);
    forall i | 0 <= i < |ls|
      ensures if sections == [] then ls[i].sectionId.None?
              else ls[i].sectionId.Some? && ls[i].sectionId.value in SectionIds(sections)
    {
      assert ls[i] == Reattached(loaded[i], sections, linkIds(i));
      if sections != [] {
        assert sections[0] in sections;
      }
    }
  }

  /** `v != null ? String(v).replace(/;/g, ",") : ""`. */
  function CsvField(v: Json): (r: string)
    ensures ';' !in r
    ensures v.JNull? ==> r == ""
    ensures !v.JNull? && ';' !in ToStr(v) ==> r == ToStr(v)
  {
    if v.JNull? then "" else ReplaceAll(ToStr(v), ';', ",")
  }

  /** A record as its keys and values, in property order. */
  type Row = seq<(string, Json)>

  function RowFields(row: Row): (r: seq<string>)
    ensures |r| == |row|
    ensures forall i :: 0 <= i < |r| ==> ';' !in r[i]
  {
    seq(|row|, i requires 0 <= i < |row| => CsvField(row[i].1))
  }

  function RowKeys(row: Row): seq<string> {
    seq(|row|, i requires 0 <= i < |row| => row[i].0)
  }

  /** One line of the CRQ export. */
  function CsvRow(row: Row): string {
    Join(RowFields(row), ";")
  }

  /**
   * `exportCSV`: nothing for an empty list; otherwise the first record's
   * keys, then one line per record.
   */
  function ExportCsv(rows: seq<Row>): (r: Option<string>)
    ensures r.None? <==> rows == []
  {
    if rows == [] then None
    else Some(Join(RowKeys(rows[0]), ";") + "\n" + Join(seq(|rows|, i requires 0 <= i < |rows| => CsvRow(rows[i])), "\n"))
  }

  /** No field holds the separator, so a line splits back into exactly the record's fields. */
  lemma CsvRowSplits(row: Row)
    requires |row| >= 1
    ensures Split(CsvRow(row), ';') == RowFields(row)
  {
    SplitJoin(RowFields(row), ';');
  }
}
