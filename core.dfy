/**
 * The client's persistence and synchronisation decisions (js/core.js):
 * the shape of the application state, reading it back from local storage,
 * the canonical form written on every save, the guard in front of a remote
 * push, and the cascade of reads behind a pull.
 *
 * Local storage is a map from key to string. `JSON.parse` and
 * `JSON.stringify` are parameters; the network is a `fetch` function from
 * URL to outcome, or the one reply a push receives. Clocks are integers
 * (milliseconds).
 */
module Core {
  import opened Wrappers
  import opened Strings
  import opened Json

  const STORAGE_KEY := "tsa.v5.state"
  const LAST_SAVE_KEY := "tsa.v5.lastSave"
  const LAST_REMOTE_SAVE_KEY := "tsa.v5.lastRemote"
  /** Minimum time between two remote pushes, in milliseconds. */
  const MIN_PUSH_INTERVAL := 6000
  /** Delay of the debounced local save, in milliseconds. */
  const LOCAL_SAVE_DELAY := 200

  /** The five collections; their records are kept as plain JSON values here. */
  datatype AppState = AppState(
    sections: seq<Json>,
    links: seq<Json>,
    op: seq<Json>,
    services: seq<Json>,
    crq: seq<Json>)

  predicate IsEmpty(s: AppState) {
    s.sections == [] && s.links == [] && s.op == [] && s.services == [] && s.crq == []
  }

  const CANONICAL_KEYS: set<string> := {"sections", "links", "op", "services", "crq"}

  /** The state as the JavaScript object the client keeps, saves and pushes. */
  function ToObject(s: AppState): (m: map<string, Json>)
    ensures m.Keys == CANONICAL_KEYS
    ensures forall k :: k in m ==> m[k].JArr?
  {
    map["sections" := JArr(s.sections), "links" := JArr(s.links), "op" := JArr(s.op),
        "services" := JArr(s.services), "crq" := JArr(s.crq)]
  }

  function DefaultState(): (r: AppState)
    ensures IsEmpty(r)
    ensures ToObject(r).Keys == CANONICAL_KEYS
  {
    AppState([], [], [], [], [])
  }

  /**
   * The collections read from a parsed object: each one is the array stored
   * under its key, or empty; open points come from `op` when that is an
   * array and from the older key `openPoints` otherwise.
   */
  function Shape(v: Json): (r: AppState)
    ensures !v.JObj? ==> r == DefaultState()
    ensures v.JObj? && (forall k :: k in v.fields ==> !v.fields[k].JArr?) ==> r == DefaultState()
  {
    AppState(
      ArrayOr(Get(v, "sections")),
      ArrayOr(Get(v, "links")),
      if IsArray(Get(v, "op")) then Get(v, "op").value.items else ArrayOr(Get(v, "openPoints")),
      ArrayOr(Get(v, "services")),
      ArrayOr(Get(v, "crq")))
  }

  /** What parsing the stored state gives, when the item is present, non-empty and parses. */
  function StoredValue(storage: map<string, string>, parse: string -> Option<Json>): Option<Json> {
    if STORAGE_KEY in storage && storage[STORAGE_KEY] != "" then parse(storage[STORAGE_KEY]) else None
  }

  /**
   * `loadState`: never fails. A missing or empty item, text that does not
   * parse, and `null` (whose properties cannot be read) all give the
   * default state; any other value is read with `Shape`.
   */
  function LoadState(storage: map<string, string>, parse: string -> Option<Json>): (r: AppState)
    ensures StoredValue(storage, parse).None? ==> r == DefaultState()
    ensures StoredValue(storage, parse) == Some(JNull) ==> r == DefaultState()
    ensures StoredValue(storage, parse).Some? && StoredValue(storage, parse) != Some(JNull) ==>
              r == Shape(StoredValue(storage, parse).value)
  {
    match StoredValue(storage, parse)
    case None => DefaultState()
    case Some(JNull) => DefaultState()
    case Some(v) => Shape(v)
  }

  /** Reading back the object form of a state gives the state. */
  lemma ShapeOfObject(s: AppState)
    ensures Shape(JObj(ToObject(s))) == s
  {
  }

  /**
   * Local round trip: a state saved as the text of its object form (with a
   * `stringify` that `parse` inverts) loads back as the same state.
   */
  lemma LoadAfterSave(s: AppState, storage: map<string, string>, parse: string -> Option<Json>, text: string)
    requires text != "" && parse(text) == Some(JObj(ToObject(s)))
    ensures LoadState(storage[STORAGE_KEY := text], parse) == s
  {
    var st := storage[STORAGE_KEY := text];
    assert StoredValue(st, parse) == Some(JObj(ToObject(s)));
    ShapeOfObject(s);
  }

  /** `op` is preferred when both keys hold arrays. */
  lemma LoadPrefersOp(v: map<string, Json>, ops: seq<Json>, legacy: seq<Json>)
    requires "op" in v && v["op"] == JArr(ops)
    requires "openPoints" in v && v["openPoints"] == JArr(legacy)
    ensures Shape(JObj(v)).op == ops
  {
  }

  /**
   * `saveState` canonicalisation: when `openPoints` holds an array and `op`
   * does not, the array moves to `op` and `openPoints` is deleted; any other
   * object is left as it is.
   */
  function CanonicalShape(t: map<string, Json>): (r: map<string, Json>)
    ensures IsArray(Get(JObj(t), "openPoints")) && !IsArray(Get(JObj(t), "op")) ==>
              && r.Keys == t.Keys - {"openPoints"} + {"op"}
              && r["op"] == t["openPoints"]
              && forall k :: k in t && k != "op" && k != "openPoints" ==> r[k] == t[k]
    ensures !(IsArray(Get(JObj(t), "openPoints")) && !IsArray(Get(JObj(t), "op"))) ==> r == t
    ensures "openPoints" in r ==> IsArray(Get(JObj(r), "op")) || !IsArray(Get(JObj(r), "openPoints"))
  {
    if IsArray(Get(JObj(t), "openPoints")) && !IsArray(Get(JObj(t), "op")) then
      (t - {"openPoints"})["op" := t["openPoints"]]
    else t
  }

  lemma CanonicalIdempotent(t: map<string, Json>)
    ensures CanonicalShape(CanonicalShape(t)) == CanonicalShape(t)
  {
  }

  /** Canonicalising never changes what a later load reads from the object. */
  lemma CanonicalPreservesLoad(t: map<string, Json>)
    ensures Shape(JObj(CanonicalShape(t))) == Shape(JObj(t))
  {
    var r := CanonicalShape(t);
    if IsArray(Get(JObj(t), "openPoints")) && !IsArray(Get(JObj(t), "op")) {
      assert Get(JObj(r), "op") == Get(JObj(t), "openPoints");
    }
  }

  /** Local storage after the debounced local save fires at time `now`. */
  function LocalWrite(storage: map<string, string>, json: string, now: nat): (r: map<string, string>)
    ensures r.Keys == storage.Keys + {STORAGE_KEY, LAST_SAVE_KEY}
    ensures r[STORAGE_KEY] == json && r[LAST_SAVE_KEY] == NatToDecimal(now)
    ensures forall k :: k in storage && k != STORAGE_KEY && k != LAST_SAVE_KEY ==> r[k] == storage[k]
  {
    storage[STORAGE_KEY := json][LAST_SAVE_KEY := NatToDecimal(now)]
  }

  /** The save time written by the local save reads back as that time. */
  lemma LocalWriteStoresTime(storage: map<string, string>, json: string, now: nat)
    ensures ParseNumber(LocalWrite(storage, json, now)[LAST_SAVE_KEY]) == Some(now)
  {
    NumberOfString(now);
  }

  /** The endpoint starts with `http://` or `https://`, in any case. */
  predicate IsHttpUrl(s: string) {
    IsPrefix("http://", Lower(s)) || IsPrefix("https://", Lower(s))
  }

  /** A text starting with `scheme`, lower-cased, starts with `lowered`. */
  lemma SchemeLowered(scheme: string, lowered: string, s: string)
    requires |scheme| == |lowered| && forall i :: 0 <= i < |scheme| ==> LowerChar(scheme[i]) == lowered[i]
    requires IsPrefix(scheme, s)
    ensures IsPrefix(lowered, Lower(s))
  {
    assert Lower(s)[..|scheme|] == lowered;
  }

  /** Both schemes pass in lower and upper case, and whatever passes starts with `http` in some case. */
  lemma HttpUrlPrefixes(s: string)
    ensures IsPrefix("http://", s) || IsPrefix("https://", s) || IsPrefix("HTTPS://", s) ==> IsHttpUrl(s)
    ensures IsHttpUrl(s) ==> |s| >= 7 && Lower(s[..4]) == "http"
  {
    if IsPrefix("http://", s) {
      SchemeLowered("http://", "http://", s);
    } else if IsPrefix("https://", s) {
      SchemeLowered("https://", "https://", s);
    } else if IsPrefix("HTTPS://", s) {
      SchemeLowered("HTTPS://", "https://", s);
    }
    var l := Lower(s);
    if IsPrefix("http://", l) {
      assert l[..4] == l[..7][..4];
    } else if IsPrefix("https://", l) {
      assert l[..4] == l[..8][..4];
    }
    if IsHttpUrl(s) {
      assert Lower(s[..4]) == l[..4];
    }
  }

  /**
   * The stored time of the last push under `key` is less than the minimum
   * interval before `now`. A time the client wrote itself blocks exactly
   * within the interval; nothing stored never blocks.
   */
  predicate RecentPush(storage: map<string, string>, key: string, now: int): (b: bool)
    ensures key !in storage ==> !b
    ensures forall t: nat :: key in storage && storage[key] == NatToDecimal(t) ==> (b <==> now < t + MIN_PUSH_INTERVAL)
  {
    NumbersOfStrings();
    && key in storage && storage[key] != ""
    && ParseNumber(storage[key]).Some?
    && now - ParseNumber(storage[key]).value < MIN_PUSH_INTERVAL
  }

  datatype Gate = NotConfigured | TooSoon | Proceed(url: string)

  /**
   * The checks in front of a push: the trimmed endpoint must start with
   * `http://` or `https://` (any case), and the time stored under `key`
   * must be at least the minimum interval ago. A stored value that is not a
   * number never blocks.
   */
  function PushGate(endpoint: string, storage: map<string, string>, key: string, now: int): (g: Gate)
    ensures g == NotConfigured <==> !IsHttpUrl(Trim(endpoint))
    ensures g == TooSoon <==> IsHttpUrl(Trim(endpoint)) && RecentPush(storage, key, now)
    ensures g.Proceed? ==> g.url == Trim(endpoint)
  {
    var e := Trim(endpoint);
    if !IsHttpUrl(e) then NotConfigured
    else if RecentPush(storage, key, now) then TooSoon
    else Proceed(e)
  }

  /** What the network gives a request: an exception, or a response with its text when readable. */
  datatype Reply = NetworkError(message: string) | Response(status: int, statusText: string, text: Option<string>)

  predicate ReplyOk(r: Reply) {
    r.Response? && 200 <= r.status <= 299
  }

  /**
   * The message shown after a failed push: the message of the exception as
   * it is, or for a non-ok response its text (the status text when the body
   * cannot be read), with a fixed message in place of an empty one.
   */
  function FailureMessage(r: Reply): (m: string)
    ensures r.NetworkError? ==> m == r.message
    ensures r.Response? ==> m != ""
    ensures r.Response? && r.text.Some? && r.text.value != "" ==> m == r.text.value
    ensures r.Response? && r.text.None? && r.statusText != "" ==> m == r.statusText
  {
    match r
    case NetworkError(msg) => msg
    case Response(_, statusText, text) =>
      var t := text.GetOr(statusText);
      if t == "" then "Errore sconosciuto" else t
  }

  datatype Request = Post(url: string, body: string)
  datatype PushOutcome = PushNotConfigured | PushTooSoon | PushFailed(message: string) | Saved
  datatype PushResult = PushResult(outcome: PushOutcome, sent: Option<Request>, storage: map<string, string>)

  /**
   * `saveToRepo`: at most one POST of `body`, only past the gate; the time
   * of a push (`doneAt`) is stored under `key` only after an ok response.
   */
  function Push(endpoint: string, storage: map<string, string>, key: string, now: int, doneAt: nat,
                body: string, reply: Reply): (r: PushResult)
    ensures r.sent.None? <==> !PushGate(endpoint, storage, key, now).Proceed?
    ensures r.sent.Some? ==> r.sent.value == Post(Trim(endpoint), body)
    ensures r.outcome == Saved <==> PushGate(endpoint, storage, key, now).Proceed? && ReplyOk(reply)
    ensures r.outcome == Saved ==> r.storage == storage[key := NatToDecimal(doneAt)]
    ensures r.outcome != Saved ==> r.storage == storage
  {
    match PushGate(endpoint, storage, key, now)
    case NotConfigured => PushResult(PushNotConfigured, None, storage)
    case TooSoon => PushResult(PushTooSoon, None, storage)
    case Proceed(url) =>
      if ReplyOk(reply) then PushResult(Saved, Some(Post(url, body)), storage[key := NatToDecimal(doneAt)])
      else PushResult(PushFailed(FailureMessage(reply)), Some(Post(url, body)), storage)
  }

  /** After a push saved at `t`, a push attempted less than the interval later sends nothing. */
  lemma PushSuppressedAfterPush(endpoint: string, storage: map<string, string>, key: string, now: int, t: nat,
                                body: string, reply: Reply, now2: int, t2: nat, body2: string, reply2: Reply)
    requires Push(endpoint, storage, key, now, t, body, reply).outcome == Saved
    requires now2 < t + MIN_PUSH_INTERVAL
    ensures Push(endpoint, Push(endpoint, storage, key, now, t, body, reply).storage, key, now2, t2, body2, reply2)
              == PushResult(PushTooSoon, None, Push(endpoint, storage, key, now, t, body, reply).storage)
  {
    var s1 := Push(endpoint, storage, key, now, t, body, reply).storage;
    assert s1 == storage[key := NatToDecimal(t)];
    assert IsHttpUrl(Trim(endpoint));
    assert RecentPush(s1, key, now2);
  }

  /** Once the interval has passed since the stored push, the gate opens again. */
  lemma PushAllowedAfterInterval(endpoint: string, storage: map<string, string>, key: string, t: nat, now: int)
    requires IsHttpUrl(Trim(endpoint))
    requires now >= t + MIN_PUSH_INTERVAL
    ensures PushGate(endpoint, storage[key := NatToDecimal(t)], key, now) == Proceed(Trim(endpoint))
  {
    NumberOfString(t);
  }

  /** What `fetch` gives a GET: an exception, a non-ok status, or an ok response whose body may not be JSON. */
  datatype Fetched = FetchError(message: string) | NotOk(status: int) | Ok(body: Option<Json>)

  /** `combined` after the first step: the parsed body of an ok response, otherwise nothing. */
  function CombinedBody(f: Fetched): Option<Json> {
    if f.Ok? then f.body else None
  }

  /** `fetchJSON(url).catch(() => ({}))`: the parsed body of an ok response, otherwise `{}`. */
  function PackOf(f: Fetched): (v: Json)
    ensures !f.Ok? || f.body.None? ==> v == JObj(map[])
  {
    if f.Ok? && f.body.Some? then f.body.value else JObj(map[])
  }

  const RECOGNISED_KEYS: set<string> := {"sections", "links", "openPoints", "op", "services", "crq"}

  /** The combined response is a (truthy) object with an array under at least one known key. */
  predicate Recognised(v: Json) {
    (v.JObj? || v.JArr?) && exists k :: k in RECOGNISED_KEYS && IsArray(Get(v, k))
  }

  function CombinedUrl(endpoint: string): (u: string)
    ensures IsPrefix(endpoint, u)
  {
    endpoint + (if '?' in endpoint then "&" else "?") + "op=load"
  }

  /** The per-file URLs of links and sections, open points, services and change requests. */
  function FallbackUrls(endpoint: string): (us: seq<string>)
    ensures |us| == 4
  {
    var base := StripTrailing(endpoint, '/');
    [base + "/data/linkhub-links.json", base + "/data/open-points.json",
     base + "/data/services.json", base + "/data/crq.json"]
  }

  /** The four per-file bodies, each `{}` when its read fails. */
  function Packs(e: string, fetch: string -> Fetched): (ps: seq<Json>)
    ensures |ps| == 4
    ensures forall i :: 0 <= i < 4 ==> ps[i] == PackOf(fetch(FallbackUrls(e)[i]))
  {
    var urls := FallbackUrls(e);
    [PackOf(fetch(urls[0])), PackOf(fetch(urls[1])), PackOf(fetch(urls[2])), PackOf(fetch(urls[3]))]
  }

  datatype Source = Combined | PerFile
  datatype PullOutcome =
    | PullNotConfigured
    | PullFailed
    | Loaded(state: AppState, source: Source, emptyRepo: bool)
  datatype PullResult = PullResult(outcome: PullOutcome, requested: seq<string>)

  /** The state assembled from the four per-file bodies, none of them `null`. */
  function FromPacks(links: Json, ops: Json, services: Json, crq: Json): (s: AppState)
    ensures s.sections == ArrayOr(Get(links, "sections")) && s.links == ArrayOr(Get(links, "links"))
    ensures s.op == Shape(ops).op
    ensures s.services == ArrayOr(Get(services, "services")) && s.crq == ArrayOr(Get(crq, "crq"))
  {
    AppState(ArrayOr(Get(links, "sections")), ArrayOr(Get(links, "links")), Shape(ops).op,
             ArrayOr(Get(services, "services")), ArrayOr(Get(crq, "crq")))
  }

  /**
   * `loadFromRepo`: the combined read first; when its body is not
   * recognised, the four per-file reads, each degrading to `{}` on its own.
   * A per-file body that is JSON `null` makes reading its properties throw,
   * which fails the whole pull. Only the per-file path reports an empty repository.
   */
  function Pull(endpoint: string, fetch: string -> Fetched): (r: PullResult)
    ensures r.outcome == PullNotConfigured <==> !IsHttpUrl(Trim(endpoint))
    ensures r.outcome == PullNotConfigured ==> r.requested == []
    ensures IsHttpUrl(Trim(endpoint)) ==> |r.requested| >= 1 && r.requested[0] == CombinedUrl(Trim(endpoint))
    ensures r.outcome.Loaded? ==> (r.outcome.emptyRepo <==> r.outcome.source == PerFile && IsEmpty(r.outcome.state))
    ensures r.outcome.Loaded? && r.outcome.source == Combined ==>
              var c := CombinedBody(fetch(CombinedUrl(Trim(endpoint))));
              c.Some? && Recognised(c.value) && r.outcome.state == Shape(c.value) && |r.requested| == 1
    ensures IsHttpUrl(Trim(endpoint)) && !(r.outcome.Loaded? && r.outcome.source == Combined) ==>
              r.requested == [CombinedUrl(Trim(endpoint))] + FallbackUrls(Trim(endpoint))
    ensures IsHttpUrl(Trim(endpoint)) ==>
              var c := CombinedBody(fetch(CombinedUrl(Trim(endpoint))));
              c.Some? && Recognised(c.value) ==> r.outcome == Loaded(Shape(c.value), Combined, false)
    ensures IsHttpUrl(Trim(endpoint)) ==>
              var c := CombinedBody(fetch(CombinedUrl(Trim(endpoint))));
              var ps := Packs(Trim(endpoint), fetch);
              !(c.Some? && Recognised(c.value)) ==>
                (r.outcome == PullFailed <==> JNull in ps)
                && (JNull !in ps ==> r.outcome.Loaded? && r.outcome.source == PerFile
                                     && r.outcome.state == FromPacks(ps[0], ps[1], ps[2], ps[3]))
  {
    var e := Trim(endpoint);
    if !IsHttpUrl(e) then PullResult(PullNotConfigured, [])
    else
      var cu := CombinedUrl(e);
      var combined := CombinedBody(fetch(cu));
      if combined.Some? && Recognised(combined.value) then
        PullResult(Loaded(Shape(combined.value), Combined, false), [cu])
      else
        PullResult(PerFilePull(e, fetch), [cu] + FallbackUrls(e))
  }

  /** The fallback path: fails when any pack is `null`, else assembles the four. */
  function PerFilePull(e: string, fetch: string -> Fetched): (o: PullOutcome)
    ensures o == PullFailed <==> JNull in Packs(e, fetch)
    ensures o != PullFailed ==>
              var ps := Packs(e, fetch);
              var st := FromPacks(ps[0], ps[1], ps[2], ps[3]);
              o == Loaded(st, PerFile, IsEmpty(st))
  {
    var ps := Packs(e, fetch);
    var links, ops, services, crq := ps[0], ps[1], ps[2], ps[3];
    if links == JNull || ops == JNull || services == JNull || crq == JNull then
      PullFailed
    else
      var s := FromPacks(links, ops, services, crq);
      Loaded(s, PerFile, IsEmpty(s))
  }

  /**
   * Per-file independence: on the fallback path, a per-file read that fails
   * leaves its own collections empty and the pull still succeeds when the
   * other reads are not `null`.
   */
  lemma FailedReadDegrades(endpoint: string, fetch: string -> Fetched, i: nat)
    requires IsHttpUrl(Trim(endpoint)) && i < 4
    requires var c := CombinedBody(fetch(CombinedUrl(Trim(endpoint)))); !(c.Some? && Recognised(c.value))
    requires !fetch(FallbackUrls(Trim(endpoint))[i]).Ok?
    requires forall j :: 0 <= j < 4 ==> PackOf(fetch(FallbackUrls(Trim(endpoint))[j])) != JNull
    ensures var r := Pull(endpoint, fetch);
            && r.outcome.Loaded? && r.outcome.source == PerFile
            && (i == 0 ==> r.outcome.state.sections == [] && r.outcome.state.links == [])
            && (i == 1 ==> r.outcome.state.op == [])
            && (i == 2 ==> r.outcome.state.services == [])
            && (i == 3 ==> r.outcome.state.crq == [])
    ensures var ps := Packs(Trim(endpoint), fetch)[i := JObj(map[])];
            Pull(endpoint, fetch).outcome.state == FromPacks(ps[0], ps[1], ps[2], ps[3])
  {
    var ps := Packs(Trim(endpoint), fetch);
    assert ps[i] == JObj(map[]);
    assert ps[i := JObj(map[])] == ps;
    assert JNull !in ps by {
      forall j | 0 <= j < 4 ensures ps[j] != JNull { }
    }
    assert Pull(endpoint, fetch).outcome.state == FromPacks(ps[0], ps[1], ps[2], ps[3]);
    EmptyPackEmpties(ps, i);
  }

  /** A `{}` pack contributes no records: the collections it feeds are empty. */
  lemma EmptyPackEmpties(ps: seq<Json>, i: nat)
    requires |ps| == 4 && i < 4 && ps[i] == JObj(map[])
    ensures var s := FromPacks(ps[0], ps[1], ps[2], ps[3]);
            && (i == 0 ==> s.sections == [] && s.links == [])
            && (i == 1 ==> s.op == [])
            && (i == 2 ==> s.services == [])
            && (i == 3 ==> s.crq == [])
  {
    if i == 1 {
      assert Shape(ps[1]).op == [];
    }
  }

  /** A combined response with every collection empty is loaded as is, without the empty-repository report. */
  lemma EmptyCombinedNotReported(endpoint: string, fetch: string -> Fetched)
    requires IsHttpUrl(Trim(endpoint))
    requires fetch(CombinedUrl(Trim(endpoint))) == Ok(Some(JObj(ToObject(DefaultState()))))
    ensures Pull(endpoint, fetch).outcome == Loaded(DefaultState(), Combined, false)
  {
    var v := JObj(ToObject(DefaultState()));
    assert IsArray(Get(v, "sections")) && "sections" in RECOGNISED_KEYS;
    ShapeOfObject(DefaultState());
  }

  /**
   * The client: the global `state` object, local storage, and the pending
   * call of the debounced local save (its JSON text and the time it fires).
   */
  class Client {
    var state: map<string, Json>
    var storage: map<string, string>
    var pendingLocal: Option<string>
    var localDue: int

    /** Start-up: `state = loadState(); saveState(state)`. */
    constructor Boot(stored: map<string, string>, parse: string -> Option<Json>,
                     stringify: Json -> string, now: int)
      ensures state == ToObject(LoadState(stored, parse))
      ensures storage == stored
      ensures pendingLocal == Some(stringify(JObj(state))) && localDue == now + LOCAL_SAVE_DELAY
    {
      var s := ToObject(LoadState(stored, parse));
      state := s;
      storage := stored;
      pendingLocal := Some(stringify(JObj(s)));
      localDue := now + LOCAL_SAVE_DELAY;
    }

    /** `saveState(state)`: canonicalise in place, then (re)start the debounced local save. */
    method SaveState(stringify: Json -> string, now: int)
      modifies this
      ensures state == CanonicalShape(old(state))
      ensures pendingLocal == Some(stringify(JObj(state))) && localDue == now + LOCAL_SAVE_DELAY
      ensures storage == old(storage)
    {
      state := CanonicalShape(state);
      pendingLocal := Some(stringify(JObj(state)));
      localDue := now + LOCAL_SAVE_DELAY;
    }

    /** The debounce timer at time `now`: a pending save that is due writes storage once. */
    method FlushLocalSave(now: nat)
      modifies this
      ensures storage == if old(pendingLocal).Some? && old(localDue) <= now
                         then LocalWrite(old(storage), old(pendingLocal).value, now) else old(storage)
      ensures pendingLocal == if old(pendingLocal).Some? && old(localDue) <= now then None else old(pendingLocal)
      ensures state == old(state) && localDue == old(localDue)
    {
      if pendingLocal.Some? && localDue <= now {
        storage := LocalWrite(storage, pendingLocal.value, now);
        pendingLocal := None;
      }
    }

    /** `saveToRepo`: push the JSON text of the state, gated on the last remote push. */
    method SaveToRepo(endpoint: string, now: int, doneAt: nat, stringify: Json -> string, reply: Reply)
      returns (r: PushResult)
      modifies this`storage
      ensures r == Push(endpoint, old(storage), LAST_REMOTE_SAVE_KEY, now, doneAt, stringify(JObj(state)), reply)
      ensures storage == r.storage
    {
      r := Push(endpoint, storage, LAST_REMOTE_SAVE_KEY, now, doneAt, stringify(JObj(state)), reply);
      storage := r.storage;
    }

    /** `loadFromRepo`: a successful pull replaces the state wholesale and saves it locally. */
    method LoadFromRepo(endpoint: string, fetch: string -> Fetched, stringify: Json -> string, now: int)
      returns (r: PullResult)
      modifies this
      ensures r == Pull(endpoint, fetch)
      ensures r.outcome.Loaded? ==>
                state == ToObject(r.outcome.state) && pendingLocal == Some(stringify(JObj(state)))
                && localDue == now + LOCAL_SAVE_DELAY
      ensures !r.outcome.Loaded? ==>
                state == old(state) && pendingLocal == old(pendingLocal) && localDue == old(localDue)
      ensures storage == old(storage)
    {
      r := Pull(endpoint, fetch);
      if r.outcome.Loaded? {
        state := ToObject(r.outcome.state);
        SaveState(stringify, now);
      }
    }
  }
}
