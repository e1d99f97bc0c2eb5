/**
 * The autosave worker (worker.js): one request and the worker's
 * configuration map to one response, after at most one upstream
 * `dispatches` call. The worker writes no file itself.
 *
 * The CORS decision follows the origin check of section 3.2 of the WHATWG
 * Fetch Standard: the response names the one origin it allows, never `*`.
 */
module Worker {
  import opened Wrappers
  import opened Strings
  import opened Json
  import opened Seqs

  const DEFAULT_ORIGIN := "https://checcoroma91.github.io"
  const SERVICE_NAME := "linkhub-autosave"
  const VERSION := "1.1.0"

  /** The worker's environment; an unset variable is `None`. */
  datatype Env = Env(allowedOrigins: Option<string>, owner: Option<string>, repo: Option<string>, token: Option<string>)

  /** What `request.json()` gives: a value, or the exception it raises. */
  datatype BodyRead = Parsed(value: Json) | Unparsable(message: string)

  /** The request: its method, its `Origin` header (`None` when absent) and its body. */
  datatype Request = Request(verb: string, origin: Option<string>, body: BodyRead)

  /** The response headers the worker sets. */
  datatype Header = AllowOrigin | AllowMethods | AllowHeaders | MaxAge | Vary | ContentType | CacheControl
  {
    /** The header's name on the wire. */
    function Name(): string {
      match this
      case AllowOrigin => "Access-Control-Allow-Origin"
      case AllowMethods => "Access-Control-Allow-Methods"
      case AllowHeaders => "Access-Control-Allow-Headers"
      case MaxAge => "Access-Control-Max-Age"
      case Vary => "Vary"
      case ContentType => "Content-Type"
      case CacheControl => "Cache-Control"
    }
  }

  datatype Body = NoBody | Text(text: string) | JsonBody(value: Json)
  datatype Response = Response(status: int, headers: map<Header, string>, body: Body)

  /** The `dispatches` call the worker makes upstream. */
  datatype Dispatch = Dispatch(url: string, authorization: string, payload: Json)

  /** The upstream reply: an exception, or a status with its text when readable. */
  datatype Upstream = Threw(message: string) | Answered(status: int, statusText: string, text: Option<string>)

  datatype Outcome = Outcome(response: Response, sent: Option<Dispatch>)

  /** The raw allow-list text: the variable when set and non-empty, otherwise the default origin. */
  function AllowListText(env: Env): string {
    if IsSet(env.allowedOrigins) then env.allowedOrigins.value else DEFAULT_ORIGIN
  }

  /**
   * The allowed origins: the comma-separated entries of the variable,
   * trimmed, empty ones dropped; the default origin alone when the variable
   * is unset or empty (`AllowListParses` shows both cases are the one parse).
   */
  function AllowList(env: Env): (r: seq<string>)
    ensures IsSet(env.allowedOrigins) ==> forall i :: 0 <= i < |r| ==> r[i] != "" && Trim(r[i]) == r[i]
    ensures !IsSet(env.allowedOrigins) ==> r == [DEFAULT_ORIGIN]
  {
    if IsSet(env.allowedOrigins) then NonEmptyTrimmed(Split(env.allowedOrigins.value, ',')) else [DEFAULT_ORIGIN]
  }

  /** No allowed origin is empty, holds a comma or has white space around it. */
  lemma AllowListNonEmptyTrimmed(env: Env, o: string)
    requires o in AllowList(env)
    ensures o != "" && ',' !in o && Trim(o) == o
  {
    if IsSet(env.allowedOrigins) {
      NonEmptyTrimmedMembers(Split(env.allowedOrigins.value, ','), o);
      var p :| p in Split(env.allowedOrigins.value, ',') && Trim(p) == o;
      TrimInfix(p);
      TrimIdempotent(p);
    } else {
      DefaultOriginEntry();
    }
  }

  lemma {:induction false} SplitWithoutSeparator(s: string, sep: char)
    requires sep !in s
    ensures Split(s, sep) == [s]
    decreases |s|
  {
    if s != [] {
      SplitWithoutSeparator(s[1..], sep);
      assert s == [s[0]] + s[1..];
    }
  }

  /** A text without commas or surrounding white space is a list of exactly itself. */
  lemma SingleEntry(t: string)
    requires t != "" && ',' !in t && Trim(t) == t
    ensures NonEmptyTrimmed(Split(t, ',')) == [t]
  {
    SplitWithoutSeparator(t, ',');
    assert [t][1..] == [];
  }

  lemma DefaultOriginEntry()
    ensures DEFAULT_ORIGIN != "" && ',' !in DEFAULT_ORIGIN && Trim(DEFAULT_ORIGIN) == DEFAULT_ORIGIN
  {
    var t := DEFAULT_ORIGIN;
    assert ',' !in t;
    assert !IsSpace(t[0]) && !IsSpace(t[|t| - 1]);
    assert TrimStart(t) == t;
  }

  /** The allow-list is the parse of the variable's text, or of the default origin's when it is unset or empty. */
  lemma AllowListParses(env: Env)
    ensures AllowList(env) == NonEmptyTrimmed(Split(AllowListText(env), ','))
  {
    if !IsSet(env.allowedOrigins) {
      DefaultOriginEntry();
      SingleEntry(DEFAULT_ORIGIN);
    }
  }

  /** The request's origin, `''` when the header is absent. */
  function OriginOf(req: Request): string {
    req.origin.GetOr("")
  }

  /** Exact membership in the allow-list; no pattern or wildcard is interpreted. */
  predicate IsAllowed(env: Env, origin: string) {
    origin in AllowList(env)
  }

  /** An allowed origin is never empty, so the CORS headers are always added for it. */
  lemma AllowedOriginNonEmpty(env: Env, origin: string)
    ensures IsAllowed(env, origin) ==> origin != ""
  {
    if IsAllowed(env, origin) {
      AllowListNonEmptyTrimmed(env, origin);
    }
  }

  /** `withCORS(res, origin)`: the origin is echoed, with `Vary: Origin`, when it is non-empty. */
  function WithCors(res: Response, origin: string): (r: Response)
    ensures r.status == res.status && r.body == res.body
    ensures origin != "" ==> r.headers == res.headers[AllowOrigin := origin][Vary := "Origin"]
    ensures origin == "" ==> r == res
  {
    if origin != "" then
      Response(res.status, res.headers[AllowOrigin := origin][Vary := "Origin"], res.body)
    else res
  }

  function CorsIfAllowed(res: Response, env: Env, origin: string): Response {
    if IsAllowed(env, origin) then WithCors(res, origin) else res
  }

  /** The diagnostics object: configuration presence only as booleans. */
  function Info(env: Env, origin: string): (v: Json)
    ensures v.JObj? && v.fields.Keys == {"ok", "service", "version", "allowedOrigins", "originMatched", "owner", "repo", "token"}
    ensures v.fields["owner"] == JBool(IsSet(env.owner)) && v.fields["repo"] == JBool(IsSet(env.repo))
    ensures v.fields["token"] == JBool(IsSet(env.token))
    ensures v.fields["originMatched"] == JBool(IsAllowed(env, origin))
  {
    JObj(map[
      "ok" := JBool(true),
      "service" := JStr(SERVICE_NAME),
      "version" := JStr(VERSION),
      "allowedOrigins" := JArr(seq(|AllowList(env)|, i requires 0 <= i < |AllowList(env)| => JStr(AllowList(env)[i]))),
      "originMatched" := JBool(IsAllowed(env, origin)),
      "owner" := JBool(IsSet(env.owner)),
      "repo" := JBool(IsSet(env.repo)),
      "token" := JBool(IsSet(env.token))])
  }

  const PAYLOAD_KEYS: set<string> := {"sections", "links", "openPoints", "services", "crq"}

  /** `body.k || []`. */
  function FieldOrEmpty(body: Json, k: string): (v: Json)
    ensures Truthy(Get(body, k)) ==> v == Get(body, k).value
    ensures !Truthy(Get(body, k)) ==> v == JArr([])
  {
    Or(Get(body, k), Some(JArr([]))).value
  }

  /** The event sent upstream: the five collections the worker knows, each from the body or empty. */
  function Payload(body: Json): (v: Json)
    ensures v.JObj? && v.fields.Keys == {"event_type", "client_payload"}
    ensures v.fields["event_type"] == JStr("linkhub_autosave")
    ensures var cp := v.fields["client_payload"];
            cp.JObj? && cp.fields.Keys == PAYLOAD_KEYS
            && forall k :: k in PAYLOAD_KEYS ==> cp.fields[k] == FieldOrEmpty(body, k)
  {
    JObj(map[
      "event_type" := JStr("linkhub_autosave"),
      "client_payload" := JObj(map[
        "sections" := FieldOrEmpty(body, "sections"),
        "links" := FieldOrEmpty(body, "links"),
        "openPoints" := FieldOrEmpty(body, "openPoints"),
        "services" := FieldOrEmpty(body, "services"),
        "crq" := FieldOrEmpty(body, "crq")])])
  }

  function DispatchUrl(owner: string, repo: string): string {
    "https://api.github.com/repos/" + owner + "/" + repo + "/dispatches"
  }

  /** The message of the TypeError raised by reading a property of a `null` body. */
  const NULL_BODY_MESSAGE := "Cannot read properties of null (reading 'sections')"

  function TextResponse(status: int, text: string): Response {
    Response(status, map[], Text(text))
  }

  /** The caught exception, answered with 500 and CORS (the origin is allowed at that point). */
  function Failure(message: string, origin: string): Response {
    WithCors(TextResponse(500, "Error: " + message), origin)
  }

  /** A POST from an allowed origin, once its body has been read. */
  function HandlePost(body: Json, env: Env, origin: string, upstream: Upstream): (o: Outcome)
    requires origin != ""
    ensures o.sent.Some? <==> IsSet(env.owner) && IsSet(env.repo) && IsSet(env.token) && body != JNull
    ensures o.sent.Some? ==>
              o.sent.value == Dispatch(DispatchUrl(env.owner.value, env.repo.value), "Bearer " + env.token.value, Payload(body))
    ensures !(IsSet(env.owner) && IsSet(env.repo) && IsSet(env.token)) ==> o.response.status == 500
    ensures o.sent.Some? && upstream.Answered? ==>
              o.response.status == (if 200 <= upstream.status <= 299 then 200 else 502)
    ensures o.sent.Some? && upstream.Threw? ==> o.response.status == 500
    ensures AllowOrigin in o.response.headers
    ensures o.response.headers[AllowOrigin] == origin
  {
    if !IsSet(env.owner) || !IsSet(env.repo) || !IsSet(env.token) then
      Outcome(WithCors(TextResponse(500, "Server not configured"), origin), None)
    else if body == JNull then
      Outcome(Failure(NULL_BODY_MESSAGE, origin), None)
    else
      var d := Dispatch(DispatchUrl(env.owner.value, env.repo.value), "Bearer " + env.token.value, Payload(body));
      match upstream
      case Threw(m) => Outcome(Failure(m, origin), Some(d))
      case Answered(status, statusText, text) =>
        if !(200 <= status <= 299) then
          var t := text.GetOr(statusText);
          Outcome(WithCors(TextResponse(502, "GitHub API error: " + IntToDecimal(status) + " " + t), origin), Some(d))
        else
          Outcome(WithCors(Response(200, map[ContentType := "application/json"],
                                    JsonBody(JObj(map["ok" := JBool(true)]))), origin), Some(d))
  }

  /** The headers of an accepted preflight: the origin echoed, the methods and headers allowed, a one-day cache. */
  function PreflightHeaders(origin: string): (h: map<Header, string>)
    ensures h.Keys == {AllowOrigin, AllowMethods, AllowHeaders, MaxAge, Vary}
    ensures h[AllowOrigin] == origin && h[AllowMethods] == "POST, GET, OPTIONS"
    ensures h[AllowHeaders] == "Content-Type, Authorization" && h[MaxAge] == "86400" && h[Vary] == "Origin"
  {
    map[AllowOrigin := origin, AllowMethods := "POST, GET, OPTIONS", AllowHeaders := "Content-Type, Authorization",
        MaxAge := "86400", Vary := "Origin"]
  }

  /** The worker's `fetch` handler. */
  function Handle(req: Request, env: Env, upstream: Upstream): (o: Outcome)
    // Only a POST from an allowed origin with the configuration present reaches upstream.
    ensures o.sent.Some? ==>
              && req.verb == "POST" && IsAllowed(env, OriginOf(req)) && req.body.Parsed?
              && IsSet(env.owner) && IsSet(env.repo) && IsSet(env.token)
    ensures o.sent.Some? ==> o.sent.value.payload == Payload(req.body.value)
                             && o.sent.value.url == DispatchUrl(env.owner.value, env.repo.value)
    // Preflight.
    ensures req.verb == "OPTIONS" && !IsAllowed(env, OriginOf(req)) ==>
              o.response.status == 403 && o.response.headers == map[Vary := "Origin"]
    ensures req.verb == "OPTIONS" && IsAllowed(env, OriginOf(req)) ==>
              o.response == Response(204, PreflightHeaders(OriginOf(req)), NoBody)
    // Diagnostics.
    ensures req.verb == "GET" ==> o.response.status == 200 && o.response.body == JsonBody(Info(env, OriginOf(req)))
    // Every other method but POST.
    ensures req.verb != "OPTIONS" && req.verb != "GET" && req.verb != "POST" ==> o.response.status == 405
    // POST from a disallowed origin: refused before the body is read, without CORS headers.
    ensures req.verb == "POST" && !IsAllowed(env, OriginOf(req)) ==>
              o.response == TextResponse(403, "Origin not allowed")
    // Configuration missing: 500, no upstream call.
    ensures req.verb == "POST" && IsAllowed(env, OriginOf(req)) && req.body.Parsed?
            && !(IsSet(env.owner) && IsSet(env.repo) && IsSet(env.token)) ==>
              o.response.status == 500 && o.sent.None?
    // Upstream status mapping.
    ensures o.sent.Some? && upstream.Answered? ==>
              o.response.status == (if 200 <= upstream.status <= 299 then 200 else 502)
    ensures o.sent.Some? && upstream.Threw? ==> o.response.status == 500
    // CORS headers appear on a response iff the origin is allowed, except the 403 preflight's `Vary`.
    ensures AllowOrigin in o.response.headers <==> IsAllowed(env, OriginOf(req))
    ensures AllowOrigin in o.response.headers ==>
              o.response.headers[AllowOrigin] == OriginOf(req)
  {
    var origin := OriginOf(req);
    var allowed := IsAllowed(env, origin);
    AllowedOriginNonEmpty(env, origin);
    if req.verb == "OPTIONS" then
      if !allowed then
        Outcome(Response(403, map[Vary := "Origin"], Text("Origin not allowed")), None)
      else
        Outcome(Response(204, PreflightHeaders(origin), NoBody), None)
    else if req.verb == "GET" then
      var res := Response(200, map[ContentType := "application/json; charset=utf-8", CacheControl := "no-store"],
                          JsonBody(Info(env, origin)));
      Outcome(CorsIfAllowed(res, env, origin), None)
    else if req.verb != "POST" then
      Outcome(CorsIfAllowed(TextResponse(405, "Method Not Allowed"), env, origin), None)
    else if !allowed then
      Outcome(TextResponse(403, "Origin not allowed"), None)
    else
      match req.body
      case Unparsable(m) => Outcome(Failure(m, origin), None)
      case Parsed(body) => HandlePost(body, env, origin, upstream)
  }

  /**
   * A body carrying its open points under `op`, as the current client sends
   * them, reaches upstream with `openPoints` empty: the open points are not
   * forwarded, while the other collections are.
   */
  lemma OpenPointsUnderOpNotForwarded(req: Request, env: Env, upstream: Upstream, fields: map<string, Json>)
    requires req.body == Parsed(JObj(fields))
    requires "openPoints" !in fields
    requires "sections" in fields && fields["sections"].JArr?
    requires Handle(req, env, upstream).sent.Some?
    ensures var cp := Handle(req, env, upstream).sent.value.payload.fields["client_payload"];
            cp.fields["openPoints"] == JArr([]) && cp.fields["sections"] == fields["sections"]
  {
  }

  /** Whatever the body, the forwarded collections are never falsy: a missing one becomes `[]`. */
  lemma PayloadFieldsTruthy(body: Json, k: string)
    requires k in PAYLOAD_KEYS
    ensures Truthy(Some(Payload(body).fields["client_payload"].fields[k]))
  {
  }
}
