/**
 * The pieces the open-point, service and CRQ screens share: the date-range
 * test of their filters, the column-sort state that a header click toggles,
 * the persisted filter object laid over its defaults, and the upsert and
 * delete-by-id edits on a record collection.
 */
module Listing {
  import opened Wrappers
  import opened Strings
  import opened Json
  import opened Seqs

  /**
   * `inDateRange(val, from, to)`: `dayKey` is `new Date(val).toISOString().slice(0, 10)`,
   * `None` when the conversion throws. An empty value, or one that does not
   * convert, passes; otherwise the day must not be before `from` nor after
   * `to`, an empty bound being no bound.
   */
  function InDateRange(val: string, from: string, to: string, dayKey: string -> Option<string>): (r: bool)
    ensures val == "" ==> r
    ensures dayKey(val).None? ==> r
    ensures from == "" && to == "" ==> r
    ensures r && val != "" && dayKey(val).Some? ==>
              !(from != "" && LexLess(dayKey(val).value, from)) && !(to != "" && LexLess(to, dayKey(val).value))
  {
    if val == "" then true
    else match dayKey(val)
      case None => true
      case Some(v) => !(from != "" && LexLess(v, from)) && !(to != "" && LexLess(to, v))
  }

  /** `a` is no later than `b` as a lower bound: `b` is unbounded or `a <= b`. */
  predicate NoTighterLower(a: string, b: string) {
    a == "" || (b != "" && !LexLess(b, a))
  }

  /** `a` is no earlier than `b` as an upper bound. */
  predicate NoTighterUpper(a: string, b: string) {
    a == "" || (b != "" && !LexLess(a, b))
  }

  /** Widening the range never drops a value that the narrower range kept. */
  lemma WiderRangeKeeps(val: string, from: string, to: string, from2: string, to2: string,
                        dayKey: string -> Option<string>)
    requires InDateRange(val, from, to, dayKey)
    requires NoTighterLower(from2, from) && NoTighterUpper(to2, to)
    ensures InDateRange(val, from2, to2, dayKey)
  {
    if val != "" && dayKey(val).Some? {
      var v := dayKey(val).value;
      if from2 != "" && LexLess(v, from2) {
        LexLessTotal(from2, from);
        if LexLess(from2, from) {
          LexLessTransitive(v, from2, from);
        }
        assert false;
      }
      if to2 != "" && LexLess(to2, v) {
        LexLessTotal(to, to2);
        if LexLess(to, to2) {
          LexLessTransitive(to, to2, v);
        }
        assert false;
      }
    }
  }

  /** The column a list is sorted by and the direction, `"asc"` or `"desc"`. */
  datatype SortState = SortState(key: string, dir: string)

  /** `d = dir === "desc" ? -1 : 1`: the factor applied to every comparison. */
  function Sign(s: SortState): (r: int)
    ensures r == 1 || r == -1
    ensures r == -1 <==> s.dir == "desc"
  {
    if s.dir == "desc" then -1 else 1
  }

  /**
   * A click on the header of column `k`: the same column flips the direction;
   * another column becomes the key, descending when it is one of `descKeys`
   * and ascending otherwise.
   */
  function NextSort(s: SortState, k: string, descKeys: set<string>): (r: SortState)
    ensures r.key == k
    ensures r.dir == "asc" || r.dir == "desc"
    ensures s.key == k ==> (r.dir == "asc" <==> s.dir != "asc")
    ensures s.key != k ==> (r.dir == "desc" <==> k in descKeys)
  {
    if s.key == k then SortState(k, if s.dir == "asc" then "desc" else "asc")
    else SortState(k, if k in descKeys then "desc" else "asc")
  }

  /** Two clicks on the sorted column return to where it was. */
  lemma ToggleTwice(s: SortState, descKeys: set<string>)
    requires s.dir == "asc" || s.dir == "desc"
    ensures NextSort(NextSort(s, s.key, descKeys), s.key, descKeys) == s
  {
  }

  /** Each click on the sorted column reverses the sign of every comparison. */
  lemma ToggleNegates(s: SortState, descKeys: set<string>)
    requires s.dir == "asc" || s.dir == "desc"
    ensures Sign(NextSort(s, s.key, descKeys)) == -Sign(s)
  {
  }

  /** A mutable sort setting, as each screen keeps one. */
  class SortControl {
    var state: SortState
    const descKeys: set<string>

    constructor (init: SortState, descKeys: set<string>)
      ensures state == init && this.descKeys == descKeys
    {
      state := init;
      this.descKeys := descKeys;
    }

    /** `setOpSort` / `setSvcSort` / `setCrqSort`. */
    method Set(k: string)
      modifies this
      ensures state == NextSort(old(state), k, descKeys)
    {
      if state.key == k {
        state := state.(dir := if state.dir == "asc" then "desc" else "asc");
      } else {
        state := SortState(k, if k in descKeys then "desc" else "asc");
      }
    }
  }

  /**
   * `localeCompare` as a parameter: a comparison whose sign flips when its
   * arguments are swapped.
   */
  ghost predicate AntisymmetricLocale(locale: (string, string) -> int) {
    forall a, b :: (locale(a, b) > 0 ==> locale(b, a) < 0) && (locale(a, b) < 0 ==> locale(b, a) > 0)
  }

  /** `(a, b) => key(a).localeCompare(key(b)) * d`: the comparator of a text column. */
  function KeyedComparator<T>(key: T -> string, locale: (string, string) -> int, s: SortState): (T, T) -> int {
    (x: T, y: T) => locale(key(x), key(y)) * Sign(s)
  }

  /** With an antisymmetric `localeCompare`, sorting by a text column puts the rows in its order. */
  lemma KeyedSortSorted<T(!new)>(rows: seq<T>, key: T -> string, locale: (string, string) -> int, s: SortState)
    requires AntisymmetricLocale(locale)
    ensures SortedBy(KeyedComparator(key, locale, s), SortBy(rows, KeyedComparator(key, locale, s)))
  {
    var cmp := KeyedComparator(key, locale, s);
    forall x, y | x in multiset(rows) && y in multiset(rows) && cmp(x, y) > 0
      ensures cmp(y, x) < 0
    {
      assert locale(key(x), key(y)) * Sign(s) > 0;
      if Sign(s) == 1 {
        assert locale(key(x), key(y)) > 0;
      } else {
        assert locale(key(x), key(y)) < 0;
      }
    }
    SortBySorted(rows, cmp);
  }

  /** A column under which every row has the same text leaves the rows in their order. */
  lemma KeyedSortConstant<T>(rows: seq<T>, key: T -> string, locale: (string, string) -> int, s: SortState, t: string)
    requires forall x :: key(x) == t
    requires locale(t, t) == 0
    ensures SortBy(rows, KeyedComparator(key, locale, s)) == rows
  {
    var cmp := KeyedComparator(key, locale, s);
    forall x, y ensures cmp(x, y) == 0 {
      assert locale(key(x), key(y)) == 0;
    }
    SortByAllEqual(rows, cmp);
  }

  /** Different natural numbers are written with different decimal digits. */
  lemma DecimalInjective()
    ensures forall i: nat, j: nat :: NatToDecimal(i) == NatToDecimal(j) ==> i == j
  {
    forall i: nat, j: nat | NatToDecimal(i) == NatToDecimal(j) ensures i == j {
      DecimalRoundTrip(i);
      DecimalRoundTrip(j);
    }
  }

  /** The properties of an array spread into an object: one per index, named by its decimal digits. */
  function IndexKeyed(items: seq<Json>): (r: map<string, Json>)
    ensures forall i :: 0 <= i < |items| ==> NatToDecimal(i) in r && r[NatToDecimal(i)] == items[i]
    ensures forall k :: k in r ==> exists i :: 0 <= i < |items| && k == NatToDecimal(i)
  {
    DecimalInjective();
    map i | 0 <= i < |items| :: NatToDecimal(i) := items[i]
  }

  /** The characters of a string as one-character strings, as spreading a string sees them. */
  function Chars(s: string): (r: seq<Json>)
    ensures |r| == |s| && forall i :: 0 <= i < |s| ==> r[i] == JStr([s[i]])
  {
    seq(|s|, i requires 0 <= i < |s| => JStr([s[i]]))
  }

  /**
   * The own enumerable properties that `...v` copies: the fields of an
   * object, the elements of an array and the characters of a string under
   * their indices "0", "1", ..., and none for `null`, numbers and booleans.
   */
  function OwnProperties(v: Json): (r: map<string, Json>)
    ensures v.JObj? ==> r == v.fields
    ensures v.JArr? ==> forall i :: 0 <= i < |v.items| ==> NatToDecimal(i) in r && r[NatToDecimal(i)] == v.items[i]
    ensures v.JStr? ==> forall i :: 0 <= i < |v.s| ==> NatToDecimal(i) in r && r[NatToDecimal(i)] == JStr([v.s[i]])
    ensures (v.JArr? || v.JStr?) ==> forall k :: k in r ==> |k| >= 1 && AllDigits(k)
    ensures (v.JNull? || v.JBool? || v.JNum?) ==> r == map[]
  {
    match v
    case JObj(fields) => fields
    case JArr(items) => IndexKeyed(items)
    case JStr(s) => IndexKeyed(Chars(s))
    case _ => map[]
  }

  /**
   * `{ ...base, ...v }` for a stored filter `v`: the properties `v` spreads
   * replace the defaults of the same name, and every other default stays.
   */
  function Spread(base: map<string, Json>, v: Json): (r: map<string, Json>)
    ensures r.Keys == base.Keys + OwnProperties(v).Keys
    ensures forall k :: k in OwnProperties(v) ==> r[k] == OwnProperties(v)[k]
    ensures forall k :: k in base && k !in OwnProperties(v) ==> r[k] == base[k]
  {
    base + OwnProperties(v)
  }

  /**
   * A stored array or string adds index keys but, the defaults having
   * alphabetic names, replaces none of them.
   */
  lemma SpreadIndexedKeepsDefaults(base: map<string, Json>, v: Json)
    requires v.JArr? || v.JStr?
    requires forall k :: k in base ==> k != [] && !IsDigit(k[0])
    ensures forall k :: k in base ==> Spread(base, v)[k] == base[k]
    ensures v.JArr? ==> forall i :: 0 <= i < |v.items| ==> Spread(base, v)[NatToDecimal(i)] == v.items[i]
  {
    forall k | k in OwnProperties(v) ensures k !in base {
      assert IsDigit(k[0]);
    }
  }

  /** Overlaying the defaults a second time changes nothing. */
  lemma SpreadIdempotent(base: map<string, Json>, v: Json)
    ensures Spread(base, JObj(Spread(base, v))) == Spread(base, v)
  {
  }

  /**
   * `loadSvcFilter` / `loadCrqFilter` / `loadOpFilter`: the stored text under
   * `key`, parsed, laid over the defaults; the defaults alone when nothing is
   * stored or the text does not parse.
   */
  function LoadFilter(storage: map<string, string>, key: string, defaults: map<string, Json>,
                      parse: string -> Option<Json>): (r: map<string, Json>)
    ensures defaults.Keys <= r.Keys
    ensures key !in storage || storage[key] == "" || parse(storage[key]).None? ==> r == defaults
  {
    if key !in storage || storage[key] == "" then defaults
    else match parse(storage[key])
      case None => defaults
      case Some(v) => Spread(defaults, v)
  }

  /** `saveSvcFilter` / `saveCrqFilter`: the filter laid over the defaults, written under `key`. */
  function SaveMerged(storage: map<string, string>, key: string, defaults: map<string, Json>, f: Json,
                      stringify: Json -> string): (r: map<string, string>)
    ensures r.Keys == storage.Keys + {key}
    ensures forall k :: k in storage && k != key ==> r[k] == storage[k]
  {
    storage[key := stringify(JObj(Spread(defaults, f)))]
  }

  /** `saveOpFilter`: the filter itself, or the defaults when it is falsy, written under `key`. */
  function SaveOrDefault(storage: map<string, string>, key: string, defaults: map<string, Json>, f: Json,
                         stringify: Json -> string): (r: map<string, string>)
    ensures r.Keys == storage.Keys + {key}
    ensures forall k :: k in storage && k != key ==> r[k] == storage[k]
  {
    storage[key := stringify(if Truthy(Some(f)) then f else JObj(defaults))]
  }

  /** A merged filter that was saved reads back as the same merge. */
  lemma LoadAfterSaveMerged(storage: map<string, string>, key: string, defaults: map<string, Json>, f: Json,
                            stringify: Json -> string, parse: string -> Option<Json>)
    requires forall v :: parse(stringify(v)) == Some(v) && stringify(v) != ""
    ensures LoadFilter(SaveMerged(storage, key, defaults, f, stringify), key, defaults, parse) == Spread(defaults, f)
  {
    SpreadIdempotent(defaults, f);
  }

  /** A saved open-point filter object reads back as itself over the defaults. */
  lemma LoadAfterSaveOrDefault(storage: map<string, string>, key: string, defaults: map<string, Json>, f: Json,
                               stringify: Json -> string, parse: string -> Option<Json>)
    requires forall v :: parse(stringify(v)) == Some(v) && stringify(v) != ""
    requires f.JObj?
    ensures LoadFilter(SaveOrDefault(storage, key, defaults, f, stringify), key, defaults, parse) == Spread(defaults, f)
  {
  }

  /** `x => x.id === id`. */
  function IdIs<T>(idOf: T -> string, id: string): T -> bool {
    x => idOf(x) == id
  }

  /** `names.map(x => x.toLowerCase())`. */
  function LowerAll(names: seq<string>): (r: seq<string>)
    ensures |r| == |names| && forall i :: 0 <= i < |names| ==> r[i] == Lower(names[i])
  {
    seq(|names|, i requires 0 <= i < |names| => Lower(names[i]))
  }

  /**
   * The collection after a save from the editor: with no record being edited
   * the new record goes first; otherwise the first record whose id is
   * `editing` is replaced by the new one carrying that id, and an id that is
   * no longer there leaves the collection as it was.
   */
  function Upserted<T>(items: seq<T>, editing: string, obj: T, idOf: T -> string,
                       withId: (T, string) -> T): (r: seq<T>)
    ensures editing == "" ==> |r| == |items| + 1 && r[0] == obj && r[1..] == items
    ensures editing != "" && FirstIndex(items, IdIs(idOf, editing)) >= 0 ==>
              r == items[FirstIndex(items, IdIs(idOf, editing)) := withId(obj, editing)]
    ensures editing != "" ==> |r| == |items|
    ensures editing != "" ==> forall j :: 0 <= j < |items| && idOf(items[j]) != editing ==> r[j] == items[j]
    ensures editing != "" && (forall j :: 0 <= j < |items| ==> idOf(items[j]) != editing) ==> r == items
    ensures editing != "" && (exists j :: 0 <= j < |items| && idOf(items[j]) == editing) ==> withId(obj, editing) in r
  {
    if editing == "" then [obj] + items
    else
      var i := FirstIndex(items, IdIs(idOf, editing));
      if i >= 0 then items[i := withId(obj, editing)] else items
  }

  /** An edit keeps the id of every position, so the list of ids is unchanged. */
  lemma UpsertEditKeepsIds<T>(items: seq<T>, editing: string, obj: T, idOf: T -> string,
                              withId: (T, string) -> T, j: int)
    requires editing != ""
    requires forall o, id :: idOf(withId(o, id)) == id
    requires 0 <= j < |items|
    ensures idOf(Upserted(items, editing, obj, idOf, withId)[j]) == idOf(items[j])
  {
  }

  /** An edit replaces at most one record: any two changed positions coincide. */
  lemma UpsertEditChangesOne<T>(items: seq<T>, editing: string, obj: T, idOf: T -> string,
                                withId: (T, string) -> T, j: int, k: int)
    requires editing != ""
    requires 0 <= j < |items| && 0 <= k < |items|
    requires Upserted(items, editing, obj, idOf, withId)[j] != items[j]
    requires Upserted(items, editing, obj, idOf, withId)[k] != items[k]
    ensures j == k
  {
  }

  /** `upsert` on a collection edited in place: `unshift` or an indexed replace after `findIndex`. */
  method Upsert<T>(c: Collection<T>, editing: string, obj: T, idOf: T -> string, withId: (T, string) -> T)
    modifies c
    ensures c.items == Upserted(old(c.items), editing, obj, idOf, withId)
  {
    if editing != "" {
      var i := FindIndex(c.items, IdIs(idOf, editing));
      if i >= 0 {
        c.items := c.items[i := withId(obj, editing)];
      }
    } else {
      c.items := [obj] + c.items;
    }
  }

  /** `arr.filter(x => x.id !== id)`: the records without that id, in their order. */
  function WithoutId<T>(items: seq<T>, id: string, idOf: T -> string): (r: seq<T>)
    ensures forall x :: x in r ==> x in items && idOf(x) != id
    ensures forall x :: x in items && idOf(x) != id ==> x in r
    ensures IsSubsequence(r, items)
  {
    FilterIsSubsequence(items, x => idOf(x) != id);
    Filter(items, x => idOf(x) != id)
  }

  /** Deleting removes exactly the records with that id: together they make up the old collection. */
  lemma WithoutIdRemovesOnlyThatId<T>(items: seq<T>, id: string, idOf: T -> string)
    ensures multiset(WithoutId(items, id, idOf)) + multiset(Filter(items, x => idOf(x) == id)) == multiset(items)
  {
    FilterPartition(items, x => idOf(x) != id, x => idOf(x) == id);
  }

  /** Delete by id, the collection being reassigned to the filtered copy. */
  method DeleteById<T>(c: Collection<T>, id: string, idOf: T -> string)
    modifies c
    ensures c.items == WithoutId(old(c.items), id, idOf)
  {
    c.items := Filter(c.items, x => idOf(x) != id);
  }
}
