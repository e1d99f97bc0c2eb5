/**
 * The links screen (js/links.js): sections and links normalised from stored
 * data, the HTML escaper and the section colour, the two notification
 * classifiers, and the edits on `state.sections` and `state.links`
 * (section swap, section delete, the drop reorder).
 *
 * Clocks are integers: milliseconds since 1970-01-01 UTC for the open-point
 * deadlines, day numbers for the CRQ release dates. Date parsing,
 * `atMidnight` and `tuesdayOfPreviousWeek` are parameters.
 */
module Links {
  import opened Wrappers
  import opened Strings
  import opened Json
  import opened Seqs
  import OpenPoints
  import Crq

  const DEFAULT_SECTION_NAME := "Senza nome"
  const DEFAULT_SECTION_ICON := "\U{1F4C1}"

  /** A section as `normalizeSection` builds it; `color` is the stored value, or `null`. */
  datatype Section = Section(id: string, name: string, desc: string, icon: string, collapsed: bool, color: Json)

  /** `(o && o.k ? String(o.k) : dflt).trim()`. */
  function TextOrDefault(o: Option<Json>, k: string, dflt: string): (r: string)
    ensures Trimmed(r)
    ensures !Truthy(GetOpt(o, k)) ==> r == Trim(dflt)
    ensures Truthy(GetOpt(o, k)) ==> r == Trim(ToStr(GetOpt(o, k).value))
  {
    Trim(if Truthy(GetOpt(o, k)) then ToStr(GetOpt(o, k).value) else dflt)
  }

  /** `o && o.id ? String(o.id) : freshId`, `freshId` standing for `crypto.randomUUID()`. */
  function IdOr(o: Option<Json>, freshId: string): string {
    if Truthy(GetOpt(o, "id")) then ToStr(GetOpt(o, "id").value) else freshId
  }

  /** `normalizeSection(sec)`. */
  function NormalizeSection(o: Option<Json>, freshId: string): (r: Section)
    ensures Truthy(GetOpt(o, "id")) ==> r.id == ToStr(GetOpt(o, "id").value)
    ensures !Truthy(GetOpt(o, "id")) ==> r.id == freshId
    ensures r.collapsed == Truthy(GetOpt(o, "collapsed"))
    ensures r.color == JNull <==> !Truthy(GetOpt(o, "color"))
  {
    Section(
      id := IdOr(o, freshId),
      name := TextOrDefault(o, "name", DEFAULT_SECTION_NAME),
      desc := TextOrDefault(o, "desc", ""),
      icon := TextOrDefault(o, "icon", DEFAULT_SECTION_ICON),
      collapsed := Truthy(GetOpt(o, "collapsed")),
      color := if Truthy(GetOpt(o, "color")) then GetOpt(o, "color").value else JNull)
  }

  /**
   * A missing name or icon takes its default, `collapsed` is a boolean, the
   * colour is `null` or a truthy value, and every text is trimmed.
   */
  lemma NormalizeSectionDefaults(o: Option<Json>, freshId: string)
    ensures var s := NormalizeSection(o, freshId);
      && (!Truthy(GetOpt(o, "name")) ==> s.name == DEFAULT_SECTION_NAME)
      && (!Truthy(GetOpt(o, "icon")) ==> s.icon == DEFAULT_SECTION_ICON)
      && (s.color == JNull || Truthy(Some(s.color)))
      && Trimmed(s.name) && Trimmed(s.desc) && Trimmed(s.icon)
  {
    TrimmedFixed(DEFAULT_SECTION_NAME);
    TrimmedFixed(DEFAULT_SECTION_ICON);
  }

  /** The section as stored. */
  function SectionToJson(s: Section): Json {
    JObj(map["id" := JStr(s.id), "name" := JStr(s.name), "desc" := JStr(s.desc), "icon" := JStr(s.icon),
             "collapsed" := JBool(s.collapsed), "color" := s.color])
  }

  /** The form `normalizeSection` produces when the name and icon do not trim to nothing. */
  predicate CleanSection(s: Section) {
    && s.id != "" && s.name != "" && s.icon != ""
    && Trimmed(s.name) && Trimmed(s.desc) && Trimmed(s.icon)
    && (s.color == JNull || Truthy(Some(s.color)))
  }

  /** `m` holds each field of `s` under its key. */
  predicate SectionStores(m: map<string, Json>, s: Section) {
    && "id" in m && m["id"] == JStr(s.id)
    && "name" in m && m["name"] == JStr(s.name)
    && "desc" in m && m["desc"] == JStr(s.desc)
    && "icon" in m && m["icon"] == JStr(s.icon)
    && "collapsed" in m && m["collapsed"] == JBool(s.collapsed)
    && "color" in m && m["color"] == s.color
  }

  lemma SectionToJsonStores(s: Section)
    ensures SectionStores(SectionToJson(s).fields, s)
  {
  }

  /** A stored text that is trimmed and not empty is read back as it is, the default unused. */
  lemma TextOrDefaultOfStored(j: Json, k: string, t: string, dflt: string)
    requires j.JObj? && k in j.fields && j.fields[k] == JStr(t) && Trimmed(t) && t != ""
    ensures TextOrDefault(Some(j), k, dflt) == t
  {
    assert GetOpt(Some(j), k) == Some(JStr(t));
    TrimmedFixed(t);
  }

  /** Any object that stores a clean section normalises back to it. */
  lemma SectionStoredReadBack(j: Json, s: Section, freshId: string)
    requires CleanSection(s) && j.JObj? && SectionStores(j.fields, s)
    ensures NormalizeSection(Some(j), freshId) == s
  {
    SectionStoredFlags(j, s, freshId);
    SectionStoredTexts(j, s);
  }

  lemma SectionStoredFlags(j: Json, s: Section, freshId: string)
    requires CleanSection(s) && j.JObj? && SectionStores(j.fields, s)
    ensures IdOr(Some(j), freshId) == s.id
    ensures Truthy(GetOpt(Some(j), "collapsed")) == s.collapsed
    ensures (if Truthy(GetOpt(Some(j), "color")) then GetOpt(Some(j), "color").value else JNull) == s.color
  {
    assert GetOpt(Some(j), "id") == Some(JStr(s.id));
    assert GetOpt(Some(j), "collapsed") == Some(JBool(s.collapsed));
    assert GetOpt(Some(j), "color") == Some(s.color);
  }

  lemma SectionStoredTexts(j: Json, s: Section)
    requires CleanSection(s) && j.JObj? && SectionStores(j.fields, s)
    ensures TextOrDefault(Some(j), "name", DEFAULT_SECTION_NAME) == s.name
    ensures TextOrDefault(Some(j), "desc", "") == s.desc
    ensures TextOrDefault(Some(j), "icon", DEFAULT_SECTION_ICON) == s.icon
  {
    TextOrDefaultOfStored(j, "name", s.name, DEFAULT_SECTION_NAME);
    TextOrDefaultOfStored(j, "icon", s.icon, DEFAULT_SECTION_ICON);
    TextOrEmptyOfStored(j, "desc", s.desc);
  }

  /** A stored trimmed text, possibly empty, reads back with the empty default. */
  lemma TextOrEmptyOfStored(j: Json, k: string, t: string)
    requires j.JObj? && k in j.fields && j.fields[k] == JStr(t) && Trimmed(t)
    ensures TextOrDefault(Some(j), k, "") == t
  {
    if t == "" {
      assert GetOpt(Some(j), k) == Some(JStr(""));
    } else {
      TextOrDefaultOfStored(j, k, t, "");
    }
  }

  /** A clean section that was stored normalises back to itself. */
  lemma SectionReadBack(s: Section, freshId: string)
    requires CleanSection(s)
    ensures NormalizeSection(Some(SectionToJson(s)), freshId) == s
  {
    SectionToJsonStores(s);
    SectionStoredReadBack(SectionToJson(s), s, freshId);
  }

  /**
   * `normalizeSection` is idempotent on every section whose stored name and
   * icon are not blank.
   */
  lemma NormalizeSectionIdempotent(o: Option<Json>, freshId: string, freshId2: string)
    requires NormalizeSection(o, freshId).id != ""
    requires NormalizeSection(o, freshId).name != "" && NormalizeSection(o, freshId).icon != ""
    ensures NormalizeSection(Some(SectionToJson(NormalizeSection(o, freshId))), freshId2) == NormalizeSection(o, freshId)
  {
    NormalizeSectionDefaults(o, freshId);
    SectionReadBack(NormalizeSection(o, freshId), freshId2);
  }

  lemma TrimBlank()
    ensures Trim(" ") == ""
  {
    assert IsSpace(' ');
    assert TrimStart(" ") == TrimStart(""[..]);
  }

  /**
   * A name of spaces is trimmed to the empty name, which the next
   * normalisation replaces by the default: here the normaliser is not
   * idempotent.
   */
  lemma BlankNameNotStable(o: Json, freshId: string)
    requires o.JObj? && "name" in o.fields && o.fields["name"] == JStr(" ")
    ensures NormalizeSection(Some(o), freshId).name == ""
    ensures NormalizeSection(Some(SectionToJson(NormalizeSection(Some(o), freshId))), freshId).name
            == DEFAULT_SECTION_NAME
  {
    BlankNameTrimmed(o, freshId);
    EmptyNameDefaults(NormalizeSection(Some(o), freshId), freshId);
  }

  lemma BlankNameTrimmed(o: Json, freshId: string)
    requires o.JObj? && "name" in o.fields && o.fields["name"] == JStr(" ")
    ensures NormalizeSection(Some(o), freshId).name == ""
  {
    BlankTextTrimmed(o, "name", DEFAULT_SECTION_NAME);
  }

  lemma BlankTextTrimmed(o: Json, k: string, dflt: string)
    requires o.JObj? && k in o.fields && o.fields[k] == JStr(" ")
    ensures TextOrDefault(Some(o), k, dflt) == ""
  {
    assert GetOpt(Some(o), k) == Some(JStr(" "));
    assert ToStr(JStr(" ")) == " ";
    TrimBlank();
  }

  lemma EmptyNameDefaults(s: Section, freshId: string)
    requires s.name == ""
    ensures NormalizeSection(Some(SectionToJson(s)), freshId).name == DEFAULT_SECTION_NAME
  {
    assert GetOpt(Some(SectionToJson(s)), "name") == Some(JStr(""));
    TrimmedFixed(DEFAULT_SECTION_NAME);
  }

  /** `getSectionColor(sec)`: `null` when unset, a string as it is, else the object's `c1` when truthy. */
  function SectionColor(s: Section): (r: Option<Json>)
    ensures r.None? || Truthy(r)
    ensures !Truthy(Some(s.color)) ==> r.None?
    ensures s.color.JStr? && s.color.s != "" ==> r == Some(s.color)
    ensures r.Some? && !s.color.JStr? ==> s.color.JObj? && Get(s.color, "c1") == r
  {
    if !Truthy(Some(s.color)) then None
    else if s.color.JStr? then Some(s.color)
    else if Truthy(Get(s.color, "c1")) then Get(s.color, "c1")
    else None
  }

  /** A link as `normalizeLink` builds it; `sectionId` is `None` for `null`. */
  datatype Link = Link(id: string, title: string, url: string, desc: string, tags: seq<string>,
                       sectionId: Option<string>)

  /** `Array.isArray(x && x.tags) ? x.tags.map(t => String(t).trim()).filter(Boolean) : []`. */
  function TagsOf(o: Option<Json>): (r: seq<string>)
    ensures forall i :: 0 <= i < |r| ==> r[i] != "" && Trim(r[i]) == r[i]
    ensures !IsArray(GetOpt(o, "tags")) ==> r == []
  {
    var t := GetOpt(o, "tags");
    if IsArray(t) then NonEmptyTrimmed(Texts(t.value.items)) else []
  }

  /** `normalizeLink(x)`. */
  function NormalizeLink(o: Option<Json>, freshId: string): (r: Link)
    ensures Truthy(GetOpt(o, "id")) ==> r.id == ToStr(GetOpt(o, "id").value)
    ensures !Truthy(GetOpt(o, "id")) ==> r.id == freshId
    ensures r.sectionId.None? <==> !Truthy(GetOpt(o, "sectionId"))
  {
    Link(
      id := IdOr(o, freshId),
      title := Text(o, "title"),
      url := Text(o, "url"),
      desc := Text(o, "desc"),
      tags := TagsOf(o),
      sectionId := if Truthy(GetOpt(o, "sectionId")) then Some(ToStr(GetOpt(o, "sectionId").value)) else None)
  }

  /** The link as stored: `sectionId` `null` when unset. */
  function LinkToJson(l: Link): Json {
    JObj(map["id" := JStr(l.id), "title" := JStr(l.title), "url" := JStr(l.url), "desc" := JStr(l.desc),
             "tags" := JArr(Strs(l.tags)),
             "sectionId" := if l.sectionId.Some? then JStr(l.sectionId.value) else JNull])
  }

  /** The form `normalizeLink` produces. */
  predicate CleanLink(l: Link) {
    && l.id != "" && Trimmed(l.title) && Trimmed(l.url) && Trimmed(l.desc)
    && (forall i :: 0 <= i < |l.tags| ==> l.tags[i] != "" && Trim(l.tags[i]) == l.tags[i])
    && l.sectionId != Some("")
  }

  /** `m` holds each field of `l` under its key, `null` for no section. */
  predicate LinkStores(m: map<string, Json>, l: Link) {
    && "id" in m && m["id"] == JStr(l.id)
    && "title" in m && m["title"] == JStr(l.title)
    && "url" in m && m["url"] == JStr(l.url)
    && "desc" in m && m["desc"] == JStr(l.desc)
    && "tags" in m && m["tags"] == JArr(Strs(l.tags))
    && "sectionId" in m && m["sectionId"] == (if l.sectionId.Some? then JStr(l.sectionId.value) else JNull)
  }

  lemma LinkToJsonStores(l: Link)
    ensures LinkStores(LinkToJson(l).fields, l)
  {
  }

  /** Any object that stores a clean link normalises back to it. */
  lemma LinkStoredReadBack(j: Json, l: Link, freshId: string)
    requires CleanLink(l) && j.JObj? && LinkStores(j.fields, l)
    ensures NormalizeLink(Some(j), freshId) == l
  {
    LinkStoredIds(j, l, freshId);
    LinkStoredTexts(j, l);
    LinkStoredTags(j, l);
  }

  lemma LinkStoredIds(j: Json, l: Link, freshId: string)
    requires CleanLink(l) && j.JObj? && LinkStores(j.fields, l)
    ensures IdOr(Some(j), freshId) == l.id
    ensures (if Truthy(GetOpt(Some(j), "sectionId")) then Some(ToStr(GetOpt(Some(j), "sectionId").value)) else None)
            == l.sectionId
  {
    assert GetOpt(Some(j), "id") == Some(JStr(l.id));
    assert GetOpt(Some(j), "sectionId") == Some(j.fields["sectionId"]);
  }

  lemma LinkStoredTexts(j: Json, l: Link)
    requires CleanLink(l) && j.JObj? && LinkStores(j.fields, l)
    ensures Text(Some(j), "title") == l.title && Text(Some(j), "url") == l.url && Text(Some(j), "desc") == l.desc
  {
    TextOfTrimmed(j, "title", l.title);
    TextOfTrimmed(j, "url", l.url);
    TextOfTrimmed(j, "desc", l.desc);
  }

  lemma LinkStoredTags(j: Json, l: Link)
    requires CleanLink(l) && j.JObj? && LinkStores(j.fields, l)
    ensures TagsOf(Some(j)) == l.tags
  {
    assert GetOpt(Some(j), "tags") == Some(JArr(Strs(l.tags)));
    TextsOfStrs(l.tags);
    NonEmptyTrimmedClean(l.tags);
  }

  /** A clean link that was stored normalises back to itself. */
  lemma LinkReadBack(l: Link, freshId: string)
    requires CleanLink(l)
    ensures NormalizeLink(Some(LinkToJson(l)), freshId) == l
  {
    LinkToJsonStores(l);
    LinkStoredReadBack(LinkToJson(l), l, freshId);
  }

  /**
   * `normalizeLink` is idempotent whenever it gives an id and a section id
   * that are not empty texts (an empty array converts to the empty text).
   */
  lemma NormalizeLinkIdempotent(o: Option<Json>, freshId: string, freshId2: string)
    requires NormalizeLink(o, freshId).id != "" && NormalizeLink(o, freshId).sectionId != Some("")
    ensures NormalizeLink(Some(LinkToJson(NormalizeLink(o, freshId))), freshId2) == NormalizeLink(o, freshId)
  {
    NormalizeLinkClean(o, freshId);
    LinkReadBack(NormalizeLink(o, freshId), freshId2);
  }

  lemma NormalizeLinkClean(o: Option<Json>, freshId: string)
    requires NormalizeLink(o, freshId).id != "" && NormalizeLink(o, freshId).sectionId != Some("")
    ensures CleanLink(NormalizeLink(o, freshId))
  {
    var n := NormalizeLink(o, freshId);
    assert n.title == Text(o, "title") && n.url == Text(o, "url") && n.desc == Text(o, "desc");
    assert n.tags == TagsOf(o);
  }

  /** The entity `escapeHtml` writes for one character. */
  function EscapeChar(c: char): string {
    match c
    case '&' => "&amp;"
    case '<' => "&lt;"
    case '>' => "&gt;"
    case '"' => "&quot;"
    case '\'' => "&#39;"
    case _ => [c]
  }

  /** `escapeHtml(s)` on the text of the value (`null` and `undefined` give ""). */
  function EscapeHtml(s: string): (r: string)
    ensures '<' !in r && '>' !in r && '"' !in r && '\'' !in r
  {
    if s == [] then [] else EscapeChar(s[0]) + EscapeHtml(s[1..])
  }

  /** Decoding the five entities, the inverse of `EscapeHtml`. */
  function UnescapeHtml(s: string): string {
    if s == [] then []
    else if IsPrefix("&amp;", s) then "&" + UnescapeHtml(s[5..])
    else if IsPrefix("&lt;", s) then "<" + UnescapeHtml(s[4..])
    else if IsPrefix("&gt;", s) then ">" + UnescapeHtml(s[4..])
    else if IsPrefix("&quot;", s) then "\"" + UnescapeHtml(s[6..])
    else if IsPrefix("&#39;", s) then "'" + UnescapeHtml(s[5..])
    else [s[0]] + UnescapeHtml(s[1..])
  }

  /** An entity at the head of the text decodes to its character. */
  lemma UnescapeEntity(e: string, c: char, rest: string)
    requires e == EscapeChar(c) && c in "&<>\"'"
    ensures UnescapeHtml(e + rest) == [c] + UnescapeHtml(rest)
  {
    var t := e + rest;
    assert t[..|e|] == e && t[|e|..] == rest;
    assert t[0] == '&';
    if c != '&' {
      assert t[1] == e[1];
    }
    if c == '>' || c == '"' || c == '\'' {
      assert t[1] != 'a' && t[1] != 'l';
    }
    if c == '"' || c == '\'' {
      assert t[1] != 'g';
    }
    if c == '\'' {
      assert t[1] != 'q';
    }
  }

  lemma UnescapeEscapeChar(c: char, rest: string)
    ensures UnescapeHtml(EscapeChar(c) + rest) == [c] + UnescapeHtml(rest)
  {
    if c in "&<>\"'" {
      UnescapeEntity(EscapeChar(c), c, rest);
    } else {
      assert EscapeChar(c) == [c];
      PlainHead(c, rest);
    }
  }

  /** A character that does not start an entity decodes to itself. */
  lemma PlainHead(c: char, rest: string)
    requires c != '&'
    ensures UnescapeHtml([c] + rest) == [c] + UnescapeHtml(rest)
  {
    var t := [c] + rest;
    assert t[0] == c && t[1..] == rest;
    assert !IsPrefix("&amp;", t) && !IsPrefix("&lt;", t) && !IsPrefix("&gt;", t);
    assert !IsPrefix("&quot;", t) && !IsPrefix("&#39;", t);
  }

  /** Escaping loses nothing: decoding the entities gives the text back. */
  lemma {:induction false} EscapeHtmlRoundTrip(s: string)
    ensures UnescapeHtml(EscapeHtml(s)) == s
  {
    if s != [] {
      EscapeHtmlRoundTrip(s[1..]);
      UnescapeEscapeChar(s[0], EscapeHtml(s[1..]));
      assert s == [s[0]] + s[1..];
    }
  }

  function HasSectionId(id: string): Section -> bool {
    (s: Section) => s.id == id
  }

  function OtherSectionId(id: string): Section -> bool {
    (s: Section) => s.id != id
  }

  /** The cells `i` and `j` exchanged. */
  function Swap<T>(s: seq<T>, i: int, j: int): (r: seq<T>)
    requires 0 <= i < |s| && 0 <= j < |s|
    ensures |r| == |s| && r[i] == s[j] && r[j] == s[i]
    ensures forall k :: 0 <= k < |s| && k != i && k != j ==> r[k] == s[k]
    ensures multiset(r) == multiset(s)
  {
    var r := s[i := s[j]][j := s[i]];
    assert r == s[j := s[i]][i := s[j]] || i == j;
    r
  }

  /** `moveSection(id, delta)` on the list: the cells `idx` and `idx + delta` exchanged, or nothing. */
  function Swapped(s: seq<Section>, id: string, delta: int): (r: seq<Section>)
    ensures |r| == |s| && multiset(r) == multiset(s)
  {
    SwapAt(s, FirstIndex(s, HasSectionId(id)), delta)
  }

  /**
   * The swap once the section is found at `idx`: only the two exchanged cells
   * change, and a missing section or a target out of bounds changes nothing.
   */
  function SwapAt(s: seq<Section>, idx: int, delta: int): (r: seq<Section>)
    ensures |r| == |s| && multiset(r) == multiset(s)
    ensures idx < 0 || idx >= |s| || idx + delta < 0 || idx + delta >= |s| ==> r == s
    ensures 0 <= idx < |s| && 0 <= idx + delta < |s| ==>
              && r[idx] == s[idx + delta] && r[idx + delta] == s[idx]
              && forall k :: 0 <= k < |s| && k != idx && k != idx + delta ==> r[k] == s[k]
  {
    if idx < 0 || idx >= |s| || idx + delta < 0 || idx + delta >= |s| then s else Swap(s, idx, idx + delta)
  }

  predicate DistinctSectionIds(s: seq<Section>) {
    forall i, j :: 0 <= i < j < |s| ==> s[i].id != s[j].id
  }

  /** An index holding the first element that satisfies `p` is `findIndex`'s answer. */
  lemma FirstIndexAt<T>(s: seq<T>, p: T -> bool, j: int)
    requires 0 <= j < |s| && p(s[j])
    requires forall k :: 0 <= k < j ==> !p(s[k])
    ensures FirstIndex(s, p) == j
  {
  }

  /** After the swap the moved section is found at its new place. */
  lemma SwapFindsMoved(s: seq<Section>, id: string, idx: int, j: int)
    requires DistinctSectionIds(s)
    requires 0 <= idx < |s| && 0 <= j < |s| && s[idx].id == id
    ensures FirstIndex(Swap(s, idx, j), HasSectionId(id)) == j
  {
    var r := Swap(s, idx, j);
    forall k | 0 <= k < j
      ensures !HasSectionId(id)(r[k])
    {
      if k == idx {
        assert r[k] == s[j];
      } else {
        assert r[k] == s[k];
      }
    }
    FirstIndexAt(r, HasSectionId(id), j);
  }

  /** With distinct ids, moving a section and moving it back restores the list. */
  lemma SwappedBack(s: seq<Section>, id: string, delta: int)
    requires DistinctSectionIds(s)
    requires 0 <= FirstIndex(s, HasSectionId(id)) && 0 <= FirstIndex(s, HasSectionId(id)) + delta < |s|
    ensures Swapped(Swapped(s, id, delta), id, -delta) == s
  {
    var idx := FirstIndex(s, HasSectionId(id));
    var j := idx + delta;
    SwapFindsMoved(s, id, idx, j);
    SwapBackAt(s, id, delta, idx);
  }

  /** Moving back, once the moved section is known to be found at its new place. */
  lemma SwapBackAt(s: seq<Section>, id: string, delta: int, idx: int)
    requires idx == FirstIndex(s, HasSectionId(id)) && 0 <= idx < |s| && 0 <= idx + delta < |s|
    requires FirstIndex(Swap(s, idx, idx + delta), HasSectionId(id)) == idx + delta
    ensures Swapped(Swapped(s, id, delta), id, -delta) == s
  {
    var j := idx + delta;
    var r := Swap(s, idx, j);
    SwappedAt(s, id, delta, idx);
    SwapAtInRange(s, idx, delta);
    assert Swapped(s, id, delta) == r;
    SwappedAt(r, id, -delta, j);
    SwapAtInRange(r, j, -delta);
    assert j + -delta == idx;
    assert Swapped(r, id, -delta) == Swap(r, j, idx);
    SwapTwice(s, idx, j);
  }

  lemma SwappedAt(s: seq<Section>, id: string, delta: int, idx: int)
    requires idx == FirstIndex(s, HasSectionId(id))
    ensures Swapped(s, id, delta) == SwapAt(s, idx, delta)
  {
  }

  lemma SwapAtInRange(s: seq<Section>, idx: int, delta: int)
    requires 0 <= idx < |s| && 0 <= idx + delta < |s|
    ensures SwapAt(s, idx, delta) == Swap(s, idx, idx + delta)
  {
  }

  lemma SwapTwice<T>(s: seq<T>, i: int, j: int)
    requires 0 <= i < |s| && 0 <= j < |s|
    ensures Swap(Swap(s, i, j), j, i) == s
  {
    var r := Swap(Swap(s, i, j), j, i);
    assert forall k :: 0 <= k < |s| ==> r[k] == s[k];
  }

  /** `moveSection(id, delta)`: looks the section up, then swaps two cells in place. */
  method MoveSection(sections: Collection<Section>, id: string, delta: int)
    modifies sections
    ensures sections.items == Swapped(old(sections.items), id, delta)
  {
    var idx := FindIndex(sections.items, HasSectionId(id));
    if idx < 0 {
      return;
    }
    var j := idx + delta;
    if j < 0 || j >= |sections.items| {
      return;
    }
    var tmp := sections.items[idx];
    sections.items := sections.items[idx := sections.items[j]];
    sections.items := sections.items[j := tmp];
    assert sections.items == Swap(old(sections.items), idx, j) == SwapAt(old(sections.items), idx, delta);
  }

  /** The links after a section is deleted: those that pointed to it now point to `target`. */
  function Reassigned(links: seq<Link>, id: string, target: string): (r: seq<Link>)
    ensures |r| == |links|
  {
    seq(|links|, i requires 0 <= i < |links| =>
      if links[i].sectionId == Some(id) then links[i].(sectionId := Some(target)) else links[i])
  }

  /** Only the links of the deleted section change, and only in their section, which becomes `target`. */
  lemma ReassignedMovesOnlyThatSection(links: seq<Link>, id: string, target: string)
    requires target != id
    ensures var r := Reassigned(links, id, target);
      forall i :: 0 <= i < |links| ==>
        && r[i].sectionId != Some(id)
        && r[i] == (if links[i].sectionId == Some(id) then links[i].(sectionId := Some(target)) else links[i])
  {
  }

  /** The deletion goes ahead: not the only section, the id exists, confirmed, and another section exists. */
  predicate DeletionProceeds(sections: seq<Section>, id: string, confirmed: bool) {
    && |sections| != 1
    && FirstIndex(sections, HasSectionId(id)) >= 0
    && confirmed
    && FirstIndex(sections, OtherSectionId(id)) >= 0
  }

  /**
   * `deleteSection(id)`: refused when only one section exists or the id is
   * unknown or not confirmed; otherwise the section is removed and its links
   * go to the first other section.
   */
  method DeleteSection(sections: Collection<Section>, links: Collection<Link>, id: string, confirmed: bool)
    returns (deleted: bool)
    modifies sections, links
    ensures deleted <==> DeletionProceeds(old(sections.items), id, confirmed)
    ensures !deleted ==> sections.items == old(sections.items) && links.items == old(links.items)
    ensures deleted ==>
      var target := old(sections.items)[FirstIndex(old(sections.items), OtherSectionId(id))];
      && sections.items == Filter(old(sections.items), OtherSectionId(id))
      && links.items == Reassigned(old(links.items), id, target.id)
  {
    if |sections.items| == 1 {
      return false;
    }
    var k := FindIndex(sections.items, HasSectionId(id));
    if k < 0 || !confirmed {
      return false;
    }
    var t := FindIndex(sections.items, OtherSectionId(id));
    if t < 0 {
      return false;
    }
    var target := sections.items[t];
    links.items := Reassigned(links.items, id, target.id);
    sections.items := Filter(sections.items, OtherSectionId(id));
    deleted := true;
  }

  /**
   * After a deletion the section is gone, the links' new section is one of
   * those that remain, and no link refers to the deleted id.
   */
  lemma DeletionLeavesNoDanglingLink(sections: seq<Section>, links: seq<Link>, id: string, confirmed: bool)
    requires DeletionProceeds(sections, id, confirmed)
    ensures var target := sections[FirstIndex(sections, OtherSectionId(id))];
      var rest := Filter(sections, OtherSectionId(id));
      && target in rest
      && (forall s :: s in rest ==> s.id != id)
      && (forall i :: 0 <= i < |links| ==> Reassigned(links, id, target.id)[i].sectionId != Some(id))
      && |rest| < |sections|
  {
    var t := FirstIndex(sections, OtherSectionId(id));
    var k := FirstIndex(sections, HasSectionId(id));
    assert !OtherSectionId(id)(sections[k]);
    FilterMultiset(sections, OtherSectionId(id));
    FilterPartition(sections, OtherSectionId(id), HasSectionId(id));
    assert sections[k] in Filter(sections, HasSectionId(id));
  }

  /** `(l.sectionId || "")`: the section a link is shown in, `""` for none. */
  function SectionKey(sid: Option<string>): string {
    if sid.Some? then sid.value else ""
  }

  function InSection(target: Option<string>): Link -> bool {
    (l: Link) => SectionKey(l.sectionId) == SectionKey(target)
  }

  function NotInSection(target: Option<string>): Link -> bool {
    (l: Link) => SectionKey(l.sectionId) != SectionKey(target)
  }

  /** `ids.indexOf(x)`. */
  function IndexOf(ids: seq<string>, x: string): int {
    FirstIndex(ids, (y: string) => y == x)
  }

  /** `(a, b) => orderedIds.indexOf(a.id) - orderedIds.indexOf(b.id)`. */
  function ByPosition(ids: seq<string>): (Link, Link) -> int {
    (a: Link, b: Link) => IndexOf(ids, a.id) - IndexOf(ids, b.id)
  }

  /** `orderedIds.splice(Math.min(dropIndex, orderedIds.length), 0, id)`, a negative start counting from the end. */
  function SpliceIn(ids: seq<string>, at: int, id: string): (r: seq<string>)
    ensures |r| == |ids| + 1 && id in r
  {
    var m := if at < |ids| then at else |ids|;
    var k := if m >= 0 then m else if |ids| + m >= 0 then |ids| + m else 0;
    ids[..k] + [id] + ids[k..]
  }

  /** `state.links.map(...)`: the dragged link takes the target section. */
  function Retargeted(links: seq<Link>, dragged: string, target: Option<string>): (r: seq<Link>)
    ensures |r| == |links|
    ensures forall i :: 0 <= i < |links| ==>
      r[i] == (if links[i].id == dragged then links[i].(sectionId := target) else links[i])
  {
    seq(|links|, i requires 0 <= i < |links| =>
      if links[i].id == dragged then links[i].(sectionId := target) else links[i])
  }

  /**
   * The links after a drop into the section `target`: the links of other
   * sections in their order, then the target section's links sorted by
   * their position among the cards, the dragged card inserted at `dropIndex`.
   */
  function DropOrder(links: seq<Link>, dragged: string, target: Option<string>, orderedIds: seq<string>,
                     dropIndex: int): seq<Link>
  {
    if dragged == "" then links
    else
      var mapped := Retargeted(links, dragged, target);
      var ids := SpliceIn(orderedIds, dropIndex, dragged);
      Filter(mapped, NotInSection(target)) + SortBy(Filter(mapped, InSection(target)), ByPosition(ids))
  }

  /** The drop keeps every link: a permutation of the input with the dragged link retargeted. */
  lemma DropOrderPermutes(links: seq<Link>, dragged: string, target: Option<string>, orderedIds: seq<string>,
                          dropIndex: int)
    requires dragged != ""
    ensures multiset(DropOrder(links, dragged, target, orderedIds, dropIndex))
            == multiset(Retargeted(links, dragged, target))
    ensures |DropOrder(links, dragged, target, orderedIds, dropIndex)| == |links|
  {
    var mapped := Retargeted(links, dragged, target);
    FilterPartition(mapped, InSection(target), NotInSection(target));
  }

  /**
   * The other sections' links come first, in their order; the target
   * section's links follow, ordered by card position.
   */
  lemma DropOrderGroups(links: seq<Link>, dragged: string, target: Option<string>, orderedIds: seq<string>,
                        dropIndex: int)
    requires dragged != ""
    ensures var mapped := Retargeted(links, dragged, target);
      var r := DropOrder(links, dragged, target, orderedIds, dropIndex);
      var n := |Filter(mapped, NotInSection(target))|;
      && n <= |r|
      && r[..n] == Filter(mapped, NotInSection(target))
      && (forall i :: 0 <= i < n ==> SectionKey(r[i].sectionId) != SectionKey(target))
      && (forall i :: n <= i < |r| ==> SectionKey(r[i].sectionId) == SectionKey(target))
      && SortedBy(ByPosition(SpliceIn(orderedIds, dropIndex, dragged)), r[n..])
  {
    var mapped := Retargeted(links, dragged, target);
    var other := Filter(mapped, NotInSection(target));
    var inTarget := Filter(mapped, InSection(target));
    var cmp := ByPosition(SpliceIn(orderedIds, dropIndex, dragged));
    var sorted := SortBy(inTarget, cmp);
    var r := other + sorted;
    assert r[..|other|] == other;
    assert r[|other|..] == sorted;
    forall i | 0 <= i < |other|
      ensures SectionKey(r[i].sectionId) != SectionKey(target)
    {
      assert r[i] == other[i];
      assert other[i] in other;
    }
    forall i | |other| <= i < |r|
      ensures SectionKey(r[i].sectionId) == SectionKey(target)
    {
      var x := sorted[i - |other|];
      assert r[i] == x;
      assert x in multiset(sorted);
      assert x in inTarget;
    }
    SortBySorted(inTarget, cmp);
  }

  /** The dragged link, wherever it lands, carries the target section. */
  lemma DropOrderRetargets(links: seq<Link>, dragged: string, target: Option<string>, orderedIds: seq<string>,
                           dropIndex: int)
    requires dragged != ""
    ensures forall l :: l in DropOrder(links, dragged, target, orderedIds, dropIndex) && l.id == dragged
                        ==> l.sectionId == target
  {
    var mapped := Retargeted(links, dragged, target);
    DropOrderPermutes(links, dragged, target, orderedIds, dropIndex);
    forall l | l in DropOrder(links, dragged, target, orderedIds, dropIndex) && l.id == dragged
      ensures l.sectionId == target
    {
      assert l in multiset(mapped);
      var i :| 0 <= i < |mapped| && mapped[i] == l;
    }
  }

  /** The drop handler: `state.links` rebuilt as `DropOrder` gives it. */
  method Drop(links: Collection<Link>, dragged: string, target: Option<string>, orderedIds: seq<string>,
              dropIndex: int)
    modifies links
    ensures links.items == DropOrder(old(links.items), dragged, target, orderedIds, dropIndex)
  {
    if dragged == "" {
      return;
    }
    var ids := SpliceIn(orderedIds, dropIndex, dragged);
    var mapped := Retargeted(links.items, dragged, target);
    var inTarget := Filter(mapped, InSection(target));
    var inOther := Filter(mapped, NotInSection(target));
    links.items := inOther + SortBy(inTarget, ByPosition(ids));
  }

  /** The three notification groups. */
  datatype Group = Verde | Giallo | Rosso

  /** A classification: the group and the status text shown with it. */
  datatype Notice = Notice(group: Group, message: string)

  /** An entry of a group: icon, status text and the record it is about. */
  datatype Note<T> = Note(icon: string, message: string, item: T)

  function Icon(g: Group): string {
    match g
    case Verde => "\U{1F7E2}"
    case Giallo => "\U{1F7E1}"
    case Rosso => "\U{1F534}"
  }

  /** The entries of group `g`, in the order of `xs`. */
  function Notes<T>(xs: seq<T>, g: Group, cls: T -> Option<Notice>): (r: seq<Note<T>>)
    ensures |r| <= |xs|
  {
    if xs == [] then []
    else
      var x := xs[|xs| - 1];
      Notes(xs[..|xs| - 1], g, cls)
        + (if cls(x).Some? && cls(x).value.group == g then [Note(Icon(g), cls(x).value.message, x)] else [])
  }

  /** Every entry of group `g` is a record of `xs` classified into `g`, with that group's icon. */
  lemma {:induction false} NotesMembers<T>(xs: seq<T>, g: Group, cls: T -> Option<Notice>)
    ensures forall n :: n in Notes(xs, g, cls) ==>
      n.item in xs && cls(n.item) == Some(Notice(g, n.message)) && n.icon == Icon(g)
  {
    if xs != [] {
      NotesMembers(xs[..|xs| - 1], g, cls);
    }
  }

  /** Records with a notice. */
  function Noticed<T>(cls: T -> Option<Notice>): T -> bool {
    (x: T) => cls(x).Some?
  }

  /**
   * Each record lands in at most one group: the three groups together hold
   * exactly the records that have a notice, so no more entries than records.
   */
  lemma {:induction false} NotesPartition<T>(xs: seq<T>, cls: T -> Option<Notice>)
    ensures |Notes(xs, Verde, cls)| + |Notes(xs, Giallo, cls)| + |Notes(xs, Rosso, cls)|
            == |Filter(xs, Noticed(cls))|
  {
    if xs != [] {
      var p := xs[..|xs| - 1];
      NotesPartition(p, cls);
      assert xs == p + [xs[|xs| - 1]];
      FilterSnoc(p, xs[|xs| - 1], Noticed(cls));
    }
  }

  /** One step of the loops below: the groups of a prefix extended by one record. */
  lemma NotesStep<T>(xs: seq<T>, i: int, g: Group, cls: T -> Option<Notice>)
    requires 0 <= i < |xs|
    ensures Notes(xs[..i + 1], g, cls) == Notes(xs[..i], g, cls)
      + (if cls(xs[i]).Some? && cls(xs[i]).value.group == g then [Note(Icon(g), cls(xs[i]).value.message, xs[i])] else [])
  {
    assert xs[..i + 1][..i] == xs[..i];
  }

  const DAY_MS := 86400000

  /** The weekday of a UTC instant, 0 for Sunday (1 January 1970 was a Thursday). */
  function WeekDay(t: int): (r: int)
    ensures 0 <= r < 7
  {
    (t / DAY_MS + 4) % 7
  }

  predicate IsWorkingDay(t: int) {
    WeekDay(t) != 0 && WeekDay(t) != 6
  }

  /** The Monday-to-Friday days among `cur`, `cur` + 1 day, ... up to `due`. */
  function WorkingDays(cur: int, due: int): (r: nat)
    ensures cur > due ==> r == 0
    ensures cur <= due && IsWorkingDay(cur) ==> r >= 1
    decreases due - cur + DAY_MS
  {
    if cur > due then 0 else (if IsWorkingDay(cur) then 1 else 0) + WorkingDays(cur + DAY_MS, due)
  }

  /** `workingDaysDiff(d1, d2)`: the loop that counts working days, minus one. */
  method WorkingDaysDiff(d1: int, d2: int) returns (r: int)
    ensures r == WorkingDays(d1, d2) - 1
    ensures d1 > d2 ==> r == -1
  {
    var count := 0;
    var cur := d1;
    while cur <= d2
      invariant count + WorkingDays(cur, d2) == WorkingDays(d1, d2)
      decreases d2 - cur + DAY_MS
    {
      if IsWorkingDay(cur) {
        count := count + 1;
      }
      cur := cur + DAY_MS;
    }
    r := count - 1;
  }

  lemma NextWeekDay(t: int)
    ensures WeekDay(t + DAY_MS) == (WeekDay(t) + 1) % 7
  {
    assert (t + DAY_MS) / DAY_MS == t / DAY_MS + 1;
  }

  /** The day after a day counts as the next one, and as many of the following days as remain. */
  lemma WorkingDaysUnfold(cur: int, due: int)
    requires cur <= due
    ensures WorkingDays(cur, due) == (if IsWorkingDay(cur) then 1 else 0) + WorkingDays(cur + DAY_MS, due)
    ensures WeekDay(cur + DAY_MS) == if WeekDay(cur) == 6 then 0 else WeekDay(cur) + 1
  {
    NextWeekDay(cur);
  }

  /** Seven consecutive days hold five working days, so a deadline six days away or more is at least four working days off. */
  lemma WeekHasFiveWorkingDays(cur: int, due: int)
    requires due >= cur + 6 * DAY_MS
    ensures WorkingDays(cur, due) >= 5
  {
    var t1, t2, t3, t4, t5, t6 := cur + DAY_MS, cur + 2 * DAY_MS, cur + 3 * DAY_MS, cur + 4 * DAY_MS,
                                  cur + 5 * DAY_MS, cur + 6 * DAY_MS;
    WorkingDaysUnfold(cur, due);
    WorkingDaysUnfold(t1, due);
    WorkingDaysUnfold(t2, due);
    WorkingDaysUnfold(t3, due);
    WorkingDaysUnfold(t4, due);
    WorkingDaysUnfold(t5, due);
    WorkingDaysUnfold(t6, due);
    assert t1 + DAY_MS == t2 && t2 + DAY_MS == t3 && t3 + DAY_MS == t4 && t4 + DAY_MS == t5 && t5 + DAY_MS == t6;
  }

  const OP_DONE := "Completato"

  /**
   * The group of one open point in `computeOPNotifications` at instant
   * `now`; `dateOf` is `new Date(dueAt)`, `None` for an invalid date (for
   * which no comparison holds).
   */
  function OpNotice(now: int, dateOf: string -> Option<int>): (r: OpenPoints.OP -> Option<Notice>)
    ensures forall o: OpenPoints.OP :: r(o).Some? ==> o.status != OP_DONE
    ensures forall o: OpenPoints.OP :: r(o).Some? && r(o).value.group == Verde ==> o.dueAt == ""
  {
    (o: OpenPoints.OP) =>
      if o.status == OP_DONE then None
      else if o.dueAt == "" then Some(Notice(Verde, "DA FARE APPENA POSSIBILE"))
      else if dateOf(o.dueAt).None? then None
      else
        var due := dateOf(o.dueAt).value;
        var wd := WorkingDays(now, due) - 1;
        if 0 <= wd <= 3 then Some(Notice(Giallo, "IN SCADENZA"))
        else if due < now then Some(Notice(Rosso, "SCADUTO"))
        else None
  }

  /**
   * The rules: a completed point has no notice, one without a deadline is
   * green, an overdue one is red, one is yellow exactly when it is open and
   * due within its next four working days (so never overdue), and one due a
   * week or more away has no notice.
   */
  lemma OpNoticeRules(o: OpenPoints.OP, now: int, dateOf: string -> Option<int>)
    ensures o.status == OP_DONE ==> OpNotice(now, dateOf)(o).None?
    ensures o.status != OP_DONE && o.dueAt == "" ==> OpNotice(now, dateOf)(o) == Some(Notice(Verde, "DA FARE APPENA POSSIBILE"))
    ensures o.status != OP_DONE && o.dueAt != "" && dateOf(o.dueAt).Some? && dateOf(o.dueAt).value < now
            ==> OpNotice(now, dateOf)(o) == Some(Notice(Rosso, "SCADUTO"))
    ensures OpNotice(now, dateOf)(o).Some? && OpNotice(now, dateOf)(o).value.group == Giallo
            ==> dateOf(o.dueAt).Some? && dateOf(o.dueAt).value >= now
    ensures o.dueAt != "" && dateOf(o.dueAt).Some? && dateOf(o.dueAt).value >= now + 6 * DAY_MS
            ==> OpNotice(now, dateOf)(o).None?
    ensures (OpNotice(now, dateOf)(o) == Some(Notice(Giallo, "IN SCADENZA"))) <==>
            (o.status != OP_DONE && o.dueAt != "" && dateOf(o.dueAt).Some?
             && 0 <= WorkingDays(now, dateOf(o.dueAt).value) - 1 <= 3)
  {
    if o.dueAt != "" && dateOf(o.dueAt).Some? && dateOf(o.dueAt).value >= now + 6 * DAY_MS {
      WeekHasFiveWorkingDays(now, dateOf(o.dueAt).value);
    }
  }

  /** The body of the `forEach` callback in `computeOPNotifications`, calling `workingDaysDiff`. */
  method ClassifyOp(o: OpenPoints.OP, now: int, dateOf: string -> Option<int>) returns (n: Option<Notice>)
    ensures n == OpNotice(now, dateOf)(o)
  {
    if o.status == OP_DONE {
      return None;
    }
    if o.dueAt == "" {
      return Some(Notice(Verde, "DA FARE APPENA POSSIBILE"));
    }
    if dateOf(o.dueAt).None? {
      return None;
    }
    var due := dateOf(o.dueAt).value;
    var wd := WorkingDaysDiff(now, due);
    if wd >= 0 && wd <= 3 {
      return Some(Notice(Giallo, "IN SCADENZA"));
    }
    if due < now {
      return Some(Notice(Rosso, "SCADUTO"));
    }
    return None;
  }

  /** `computeOPNotifications()`: one pass over the open points, pushing each into its group. */
  method ComputeOpNotifications(ops: seq<OpenPoints.OP>, now: int, dateOf: string -> Option<int>)
    returns (verde: seq<Note<OpenPoints.OP>>, giallo: seq<Note<OpenPoints.OP>>, rosso: seq<Note<OpenPoints.OP>>)
    ensures verde == Notes(ops, Verde, OpNotice(now, dateOf))
    ensures giallo == Notes(ops, Giallo, OpNotice(now, dateOf))
    ensures rosso == Notes(ops, Rosso, OpNotice(now, dateOf))
  {
    var cls := OpNotice(now, dateOf);
    verde, giallo, rosso := [], [], [];
    var i := 0;
    while i < |ops|
      invariant 0 <= i <= |ops|
      invariant verde == Notes(ops[..i], Verde, cls)
      invariant giallo == Notes(ops[..i], Giallo, cls)
      invariant rosso == Notes(ops[..i], Rosso, cls)
    {
      NotesStep(ops, i, Verde, cls);
      NotesStep(ops, i, Giallo, cls);
      NotesStep(ops, i, Rosso, cls);
      var n := ClassifyOp(ops[i], now, dateOf);
      if n.Some? {
        var note := Note(Icon(n.value.group), n.value.message, ops[i]);
        match n.value.group
        case Verde => verde := verde + [note];
        case Giallo => giallo := giallo + [note];
        case Rosso => rosso := rosso + [note];
      }
      i := i + 1;
    }
    assert ops[..i] == ops;
  }

  const LOW_STATES: set<string> := {"Bozza", "Richiesta autorizzazione"}
  const REV_STATE := "Revisione pianificata"
  const LATE_OK_STATES: set<string> := {"Approvazione pianificata", "Pianificato", "Implementazione in corso"}

  /** `a < b` on dates, where `None` is an invalid date and compares false. */
  predicate Before(a: int, b: Option<int>) {
    b.Some? && a < b.value
  }

  /**
   * The group of one CRQ in `computeCRQNotifications` on day `today`;
   * `dayOf` is `atMidnight(new Date(text))` (`None` when invalid) and
   * `tuesdayBefore` is `tuesdayOfPreviousWeek`.
   */
  function CrqNotice(today: int, dayOf: string -> Option<int>, tuesdayBefore: int -> int): (r: Crq.CRQ -> Option<Notice>)
    ensures forall c: Crq.CRQ :: r(c).Some? && c.dataRilascio == "" ==> c.stato == "Bozza" && r(c).value.group == Verde
    ensures forall c: Crq.CRQ :: r(c).Some? && c.dataRilascio != "" && r(c).value.group == Verde ==>
              c.stato in LATE_OK_STATES
  {
    (c: Crq.CRQ) =>
      var stato := c.stato;
      var ril := c.dataRilascio;
      if ril == "" && stato == "Bozza" then Some(Notice(Verde, "SLOT DA PRENOTARE"))
      else if ril == "" then None
      else
        var day := dayOf(ril);
        var tue := if day.Some? then Some(tuesdayBefore(day.value)) else None;
        if stato in LOW_STATES then
          if Before(today, tue) then Some(Notice(Giallo, "PORTARE IN PIANIFICAZIONE IN CORSO"))
          else Some(Notice(Rosso, "DA RIPIANIFICARE - TERMINE CAMBIO STATO PASSATO"))
        else if stato == REV_STATE then
          if Before(today, day) then Some(Notice(Giallo, "PORTARE IN APPROVAZIONE PIANIFICATA"))
          else Some(Notice(Rosso, "RIPIANIFICARE - TERMINE CAMBIO STATO PASSATO"))
        else if stato in LATE_OK_STATES && day.Some? && today >= day.value then
          Some(Notice(Verde, "CONTROLLARE - GIORNO RILASCIO PASSATO"))
        else None
  }

  /**
   * The rules by state: a draft without a release date is green, any other
   * CRQ without one has no notice; a low state is yellow exactly while
   * today is before the Tuesday of the previous week and red otherwise; the
   * revision state is yellow exactly before the release day and red
   * otherwise; the late-ok states are green exactly from the release day.
   */
  lemma CrqNoticeRules(c: Crq.CRQ, today: int, dayOf: string -> Option<int>, tuesdayBefore: int -> int)
    ensures var n := CrqNotice(today, dayOf, tuesdayBefore)(c);
      var day := dayOf(c.dataRilascio);
      && (c.dataRilascio == "" ==> (n.Some? <==> c.stato == "Bozza") && (n.Some? ==> n.value.group == Verde))
      && (c.dataRilascio != "" && c.stato in LOW_STATES ==>
            n.Some? && (n.value.group == Giallo <==> day.Some? && today < tuesdayBefore(day.value))
            && n.value.group != Verde)
      && (c.dataRilascio != "" && c.stato == REV_STATE ==>
            n.Some? && (n.value.group == Giallo <==> day.Some? && today < day.value) && n.value.group != Verde)
      && (c.dataRilascio != "" && c.stato in LATE_OK_STATES ==>
            (n.Some? <==> day.Some? && today >= day.value) && (n.Some? ==> n.value.group == Verde))
  {
  }

  /** `computeCRQNotifications()`: one pass over the CRQs, pushing each into its group. */
  method ComputeCrqNotifications(crqs: seq<Crq.CRQ>, today: int, dayOf: string -> Option<int>,
                                 tuesdayBefore: int -> int)
    returns (verde: seq<Note<Crq.CRQ>>, giallo: seq<Note<Crq.CRQ>>, rosso: seq<Note<Crq.CRQ>>)
    ensures verde == Notes(crqs, Verde, CrqNotice(today, dayOf, tuesdayBefore))
    ensures giallo == Notes(crqs, Giallo, CrqNotice(today, dayOf, tuesdayBefore))
    ensures rosso == Notes(crqs, Rosso, CrqNotice(today, dayOf, tuesdayBefore))
  {
    var cls := CrqNotice(today, dayOf, tuesdayBefore);
    verde, giallo, rosso := [], [], [];
    var i := 0;
    while i < |crqs|
      invariant 0 <= i <= |crqs|
      invariant verde == Notes(crqs[..i], Verde, cls)
      invariant giallo == Notes(crqs[..i], Giallo, cls)
      invariant rosso == Notes(crqs[..i], Rosso, cls)
    {
      NotesStep(crqs, i, Verde, cls);
      NotesStep(crqs, i, Giallo, cls);
      NotesStep(crqs, i, Rosso, cls);
      var n := cls(crqs[i]);
      if n.Some? {
        var note := Note(Icon(n.value.group), n.value.message, crqs[i]);
        match n.value.group
        case Verde => verde := verde + [note];
        case Giallo => giallo := giallo + [note];
        case Rosso => rosso := rosso + [note];
      }
      i := i + 1;
    }
    assert crqs[..i] == crqs;
  }

  /** `getOPNotifCount() + getCRQNotifCount()`: never more than the records, one per record with a notice. */
  lemma NotificationCount(ops: seq<OpenPoints.OP>, crqs: seq<Crq.CRQ>, now: int, today: int,
                          dateOf: string -> Option<int>, dayOf: string -> Option<int>, tuesdayBefore: int -> int)
    ensures var op := OpNotice(now, dateOf);
      var cr := CrqNotice(today, dayOf, tuesdayBefore);
      |Notes(ops, Verde, op)| + |Notes(ops, Giallo, op)| + |Notes(ops, Rosso, op)|
      + |Notes(crqs, Verde, cr)| + |Notes(crqs, Giallo, cr)| + |Notes(crqs, Rosso, cr)|
      == |Filter(ops, Noticed(op))| + |Filter(crqs, Noticed(cr))|
      <= |ops| + |crqs|
  {
    NotesPartition(ops, OpNotice(now, dateOf));
    NotesPartition(crqs, CrqNotice(today, dayOf, tuesdayBefore));
  }
}
