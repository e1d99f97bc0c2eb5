/**
 * The single-file save function (api/save-to-github/save-to-github-vercel.js):
 * it validates the request, composes the repository path, reads the file's
 * current version, and writes the new content with one conditional PUT that
 * carries that version, propagating the store's status.
 *
 * The GitHub contents store is modelled abstractly: a map from branch and
 * path to content and version token, answering reads and version-checked
 * writes, with a fault injected per call. JSON and base64 encoding are
 * parameters.
 */
module Gateway {
  import opened Wrappers
  import opened Strings
  import opened Json

  const DEFAULT_BRANCH := "main"

  /** The function's environment; an unset variable is `None`. */
  datatype Env = Env(owner: Option<string>, repo: Option<string>, token: Option<string>,
                     branch: Option<string>, basePath: Option<string>)

  /** `GITHUB_BRANCH || 'main'`. */
  function Branch(env: Env): (b: string)
    ensures b != ""
    ensures IsSet(env.branch) ==> b == env.branch.value
  {
    if IsSet(env.branch) then env.branch.value else DEFAULT_BRANCH
  }

  /** `s.replace(/^\/+|\/+$/g, '')`: the leading and the trailing runs of `/` removed. */
  function StripSlashes(s: string): (r: string)
    ensures |r| <= |s|
    ensures r == [] || (r[0] != '/' && r[|r| - 1] != '/')
    ensures s == [] || (s[0] != '/' && s[|s| - 1] != '/') ==> r == s
  {
    StripTrailing(StripLeading(s, '/'), '/')
  }

  lemma StripSlashesIdempotent(s: string)
    ensures StripSlashes(StripSlashes(s)) == StripSlashes(s)
  {
    var r := StripSlashes(s);
    assert StripLeading(r, '/') == r;
    assert StripTrailing(r, '/') == r;
  }

  /** The base directory: `GITHUB_BASE_PATH` without surrounding slashes, empty when unset. */
  function BasePath(env: Env): string {
    StripSlashes(env.basePath.GetOr(""))
  }

  /** `BASE ? `${BASE}/${path}` : path`: the path value itself when there is no base directory. */
  function FullPath(base: string, path: Json): (r: Json)
    ensures base != "" ==> r.JStr? && |r.s| > |base| && r.s[..|base|] == base && r.s[|base|] == '/'
                             && r.s[|base| + 1..] == ToStr(path)
    ensures base == "" ==> r == path
  {
    if base != "" then JStr(base + "/" + ToStr(path)) else path
  }

  /** The decision taken before any call upstream. */
  datatype Plan =
    | Preflight
    | MethodNotAllowed
    | MissingParameters
    | MissingConfig
    | Save(fullPath: Json, branch: string, message: string, data: Json, owner: string, repo: string, token: string)

  /** `req.body || {}`. */
  function BodyFields(body: Option<Json>): Json {
    if Truthy(body) then body.value else JObj(map[])
  }

  /**
   * The checks in order: OPTIONS, any method but POST, a falsy `path` or an
   * absent `data`, then missing owner, repository or token.
   */
  function PlanOf(verb: string, body: Option<Json>, env: Env): (p: Plan)
    ensures verb == "OPTIONS" <==> p == Preflight
    ensures verb != "OPTIONS" && verb != "POST" <==> p == MethodNotAllowed
    ensures p == MissingParameters <==>
              verb == "POST" && (!Truthy(Get(BodyFields(body), "path")) || Get(BodyFields(body), "data").None?)
    ensures p.Save? ==>
              && verb == "POST" && IsSet(env.owner) && IsSet(env.repo) && IsSet(env.token)
              && p.fullPath == FullPath(BasePath(env), Get(BodyFields(body), "path").value)
              && p.data == Get(BodyFields(body), "data").value
              && p.branch == Branch(env)
    ensures p == MissingConfig <==>
              && verb == "POST" && Truthy(Get(BodyFields(body), "path")) && Get(BodyFields(body), "data").Some?
              && !(IsSet(env.owner) && IsSet(env.repo) && IsSet(env.token))
  {
    if verb == "OPTIONS" then Preflight
    else if verb != "POST" then MethodNotAllowed
    else
      var fields := BodyFields(body);
      var path, data, message := Get(fields, "path"), Get(fields, "data"), Get(fields, "message");
      if !Truthy(path) || data.None? then MissingParameters
      else if !IsSet(env.owner) || !IsSet(env.repo) || !IsSet(env.token) then MissingConfig
      else
        var fullPath := FullPath(BasePath(env), path.value);
        var msg := if Truthy(message) then ToStr(message.value) else "chore: autosave " + ToStr(fullPath);
        Save(fullPath, Branch(env), msg, data.value, env.owner.value, env.repo.value, env.token.value)
  }

  /** A file in the store, addressed by branch and path. */
  datatype Key = Key(branch: string, path: string)
  datatype Entry = Entry(content: string, sha: string)

  /** How the store answers one call: normally, with a given failure status, or by the request throwing. */
  datatype Fault = NoFault | FailWith(status: int, text: string) | Throws(error: string)

  datatype Call = ReadCall(key: Key) | WriteCall(key: Key, content: string, sha: Option<string>, message: string)

  datatype ReadReply = ReadThrew(error: string) | ReadAnswer(status: int, sha: Option<string>)
  datatype WriteReply = WriteThrew(error: string) | WriteAnswer(status: int, text: string, commit: Option<string>)

  predicate IsOk(status: int) {
    200 <= status <= 299
  }

  /** The version token the store gives its `n`-th write. */
  function ShaOf(n: nat): string {
    "v" + NatToDecimal(n)
  }

  /** A read of `key`: the current version when the file exists, 404 otherwise. */
  function ReadResult(files: map<Key, Entry>, fault: Fault, key: Key): (r: ReadReply)
    ensures fault == NoFault ==> (r.ReadAnswer? && (IsOk(r.status) <==> key in files))
    ensures fault == NoFault && key in files ==> r == ReadAnswer(200, Some(files[key].sha))
  {
    match fault
    case Throws(e) => ReadThrew(e)
    case FailWith(status, _) => ReadAnswer(status, None)
    case NoFault => if key in files then ReadAnswer(200, Some(files[key].sha)) else ReadAnswer(404, None)
  }

  /**
   * A write of `key` carrying `sha`: a new file needs no version, an existing
   * one needs its current version; otherwise the store refuses (422 without
   * a version, 409 with a stale one) and nothing changes.
   */
  function WriteResult(files: map<Key, Entry>, fault: Fault, key: Key, content: string, sha: Option<string>, n: nat)
    : (r: (WriteReply, map<Key, Entry>))
    ensures !(r.0.WriteAnswer? && IsOk(r.0.status)) ==> r.1 == files
    ensures r.0.WriteAnswer? && IsOk(r.0.status) ==>
              r.1 == files[key := Entry(content, ShaOf(n))] || fault.FailWith?
    ensures fault == NoFault ==>
              (r.0.WriteAnswer? && IsOk(r.0.status) <==>
                 (key !in files && sha.None?) || (key in files && sha == Some(files[key].sha)))
  {
    match fault
    case Throws(e) => (WriteThrew(e), files)
    case FailWith(status, text) => (WriteAnswer(status, text, None), files)
    case NoFault =>
      if key in files then
        if sha == Some(files[key].sha) then (WriteAnswer(200, "", Some(ShaOf(n))), files[key := Entry(content, ShaOf(n))])
        else if sha.None? then (WriteAnswer(422, "sha wasn't supplied", None), files)
        else (WriteAnswer(409, "sha does not match", None), files)
      else if sha.None? then (WriteAnswer(201, "", Some(ShaOf(n))), files[key := Entry(content, ShaOf(n))])
      else (WriteAnswer(422, "sha for a missing file", None), files)
  }

  /**
   * Reading then writing with the version read always succeeds against a
   * store nobody else changes: the protocol creates a missing file and
   * updates an existing one.
   */
  lemma ReadThenWriteSucceeds(files: map<Key, Entry>, key: Key, content: string, n: nat)
    ensures var rr := ReadResult(files, NoFault, key);
            var sha := if IsOk(rr.status) then rr.sha else None;
            var w := WriteResult(files, NoFault, key, content, sha, n);
            w.0.WriteAnswer? && IsOk(w.0.status) && w.1 == files[key := Entry(content, ShaOf(n))]
  {
  }

  /**
   * A write that lands between the read and the conditional write makes the
   * version read stale: the later write is refused and the intervening
   * content is kept.
   */
  lemma InterleavedWriteRefused(files: map<Key, Entry>, key: Key, mine: string, theirs: string, n: nat)
    requires key in files && files[key].sha != ShaOf(n)
    ensures var sha := ReadResult(files, NoFault, key).sha;
            var other := WriteResult(files, NoFault, key, theirs, sha, n).1;
            var w := WriteResult(other, NoFault, key, mine, sha, n + 1);
            w.0 == WriteAnswer(409, "sha does not match", None) && w.1 == other && other[key].content == theirs
  {
  }

  datatype Body = NoBody | Text(text: string) | JsonBody(value: Json)

  function ErrorBody(message: string): Body {
    JsonBody(JObj(map["error" := JStr(message)]))
  }

  /** What one request does: the status and body sent, the calls made upstream, and the store afterwards. */
  datatype Effect = Effect(status: int, body: Body, calls: seq<Call>, files: map<Key, Entry>)

  /** The specification of a request, given the store's contents and its fault for each of the two calls. */
  function Expected(plan: Plan, files: map<Key, Entry>, readFault: Fault, writeFault: Fault, n: nat,
                    stringify: Json -> string, base64: string -> string): (e: Effect)
    // Answered before any call upstream, the store untouched.
    ensures !plan.Save? ==> e.calls == [] && e.files == files
    ensures plan == Preflight ==> e.status == 204 && e.body == NoBody
    ensures plan == MethodNotAllowed ==> e.status == 405
    ensures plan == MissingParameters ==> e.status == 400
    ensures plan == MissingConfig ==> e.status == 500
    // A save reads first; unless the read throws, exactly one PUT follows and carries the version read iff the read was ok.
    ensures plan.Save? ==> |e.calls| >= 1 && e.calls[0] == ReadCall(Key(plan.branch, ToStr(plan.fullPath)))
    ensures plan.Save? && !readFault.Throws? ==>
              var key := Key(plan.branch, ToStr(plan.fullPath));
              var rr := ReadResult(files, readFault, key);
              |e.calls| == 2 && e.calls[1].WriteCall? && e.calls[1].key == key
              && (e.calls[1].sha.Some? ==> IsOk(rr.status))
              && (IsOk(rr.status) ==> e.calls[1].sha == rr.sha)
              && e.calls[1].content == base64(stringify(plan.data))
    // Status propagation.
    ensures plan.Save? && readFault.Throws? ==> e.status == 500 && e.calls == [ReadCall(Key(plan.branch, ToStr(plan.fullPath)))] && e.files == files
    ensures plan.Save? && !readFault.Throws? && writeFault.Throws? ==> e.status == 500
    ensures e.status == 200 && plan.Save? ==>
              e.body == JsonBody(JObj(map["ok" := JBool(true), "path" := plan.fullPath,
                                          "commit" := JStr(ShaOf(n))])) || writeFault.FailWith?
  {
    match plan
    case Preflight => Effect(204, NoBody, [], files)
    case MethodNotAllowed => Effect(405, Text("Method Not Allowed"), [], files)
    case MissingParameters => Effect(400, ErrorBody("Parametri mancanti: path, data"), [], files)
    case MissingConfig => Effect(500, ErrorBody("Config mancante: GITHUB_OWNER/REPO/TOKEN"), [], files)
    case Save(fullPath, branch, message, data, _, _, _) =>
      var key := Key(branch, ToStr(fullPath));
      match ReadResult(files, readFault, key)
      case ReadThrew(err) => Effect(500, ErrorBody(err), [ReadCall(key)], files)
      case ReadAnswer(status, found) =>
        var sha := if IsOk(status) then found else None;
        var content := base64(stringify(data));
        var calls := [ReadCall(key), WriteCall(key, content, sha, message)];
        var w := WriteResult(files, writeFault, key, content, sha, n);
        match w.0
        case WriteThrew(err) => Effect(500, ErrorBody(err), calls, w.1)
        case WriteAnswer(st, text, commit) =>
          if !IsOk(st) then Effect(st, ErrorBody(text), calls, w.1)
          else
            var out := map["ok" := JBool(true), "path" := fullPath];
            Effect(200, JsonBody(JObj(if commit.Some? then out["commit" := JStr(commit.value)] else out)), calls, w.1)
  }

  /** A non-ok PUT answers the client with the store's own status. */
  lemma FailedWritePropagates(plan: Plan, files: map<Key, Entry>, readFault: Fault, status: int, text: string, n: nat,
                              stringify: Json -> string, base64: string -> string)
    requires plan.Save? && !readFault.Throws? && !IsOk(status)
    ensures Expected(plan, files, readFault, FailWith(status, text), n, stringify, base64).status == status
  {
  }

  /** The contents store, with the fault each kind of call meets and the log of calls made. */
  class ContentsStore {
    var files: map<Key, Entry>
    var writes: nat
    var readFault: Fault
    var writeFault: Fault
    var log: seq<Call>

    constructor (init: map<Key, Entry>, readFault: Fault, writeFault: Fault)
      ensures files == init && writes == 0 && this.readFault == readFault && this.writeFault == writeFault && log == []
    {
      files := init;
      writes := 0;
      this.readFault := readFault;
      this.writeFault := writeFault;
      log := [];
    }

    /** `GET /contents/{path}?ref={branch}`. */
    method Read(key: Key) returns (r: ReadReply)
      modifies this`log
      ensures r == ReadResult(files, readFault, key)
      ensures log == old(log) + [ReadCall(key)]
    {
      r := ReadResult(files, readFault, key);
      log := log + [ReadCall(key)];
    }

    /** `PUT /contents/{path}` with the content, the version (when known) and the branch. */
    method Write(key: Key, content: string, sha: Option<string>, message: string) returns (r: WriteReply)
      modifies this`files, this`writes, this`log
      ensures (r, files) == WriteResult(old(files), writeFault, key, content, sha, old(writes))
      ensures writes == old(writes) + 1
      ensures log == old(log) + [WriteCall(key, content, sha, message)]
    {
      var w := WriteResult(files, writeFault, key, content, sha, writes);
      r := w.0;
      files := w.1;
      writes := writes + 1;
      log := log + [WriteCall(key, content, sha, message)];
    }
  }

  /** The response object the handler fills in. */
  class ServerResponse {
    var status: int
    var headers: map<string, string>
    var body: Body
    var finished: bool

    constructor ()
      ensures status == 200 && headers == map[] && body == NoBody && !finished
    {
      status := 200;
      headers := map[];
      body := NoBody;
      finished := false;
    }

    method SetHeader(name: string, value: string)
      modifies this`headers
      ensures headers == old(headers)[name := value]
    {
      headers := headers[name := value];
    }

    /** `res.status(s).end()`, `.send(t)` or `.json(v)`. */
    method Finish(s: int, b: Body)
      modifies this`status, this`body, this`finished
      ensures status == s && body == b && finished
    {
      status := s;
      body := b;
      finished := true;
    }
  }

  /** The read of the current version and the conditional write that follows it. */
  method SaveFile(plan: Plan, res: ServerResponse, store: ContentsStore, stringify: Json -> string, base64: string -> string)
    requires plan.Save?
    modifies res`status, res`body, res`finished, store`files, store`writes, store`log
    ensures var e := Expected(plan, old(store.files), store.readFault, store.writeFault, old(store.writes), stringify, base64);
            res.finished && res.status == e.status && res.body == e.body
            && store.log == old(store.log) + e.calls && store.files == e.files
  {
    var key := Key(plan.branch, ToStr(plan.fullPath));
    var head := store.Read(key);
    if head.ReadThrew? {
      res.Finish(500, ErrorBody(head.error));
      return;
    }
    var sha: Option<string> := None;
    if IsOk(head.status) {
      sha := head.sha;
    }
    var content := base64(stringify(plan.data));
    var resp := store.Write(key, content, sha, plan.message);
    if resp.WriteThrew? {
      res.Finish(500, ErrorBody(resp.error));
    } else if !IsOk(resp.status) {
      res.Finish(resp.status, ErrorBody(resp.text));
    } else {
      var out := map["ok" := JBool(true), "path" := plan.fullPath];
      if resp.commit.Some? {
        out := out["commit" := JStr(resp.commit.value)];
      }
      res.Finish(200, JsonBody(JObj(out)));
    }
  }

  /** The handler: CORS headers first, then the plan, then the read and the conditional write. */
  method Handle(verb: string, reqBody: Option<Json>, env: Env, res: ServerResponse, store: ContentsStore,
                stringify: Json -> string, base64: string -> string)
    modifies res, store
    ensures res.headers == old(res.headers)["Access-Control-Allow-Origin" := "*"]
                             ["Access-Control-Allow-Methods" := "POST, OPTIONS"]["Access-Control-Allow-Headers" := "Content-Type"]
    ensures var e := Expected(PlanOf(verb, reqBody, env), old(store.files), store.readFault, store.writeFault,
                              old(store.writes), stringify, base64);
            res.finished && res.status == e.status && res.body == e.body
            && store.log == old(store.log) + e.calls && store.files == e.files
    ensures store.readFault == old(store.readFault) && store.writeFault == old(store.writeFault)
  {
    res.SetHeader("Access-Control-Allow-Origin", "*");
    res.SetHeader("Access-Control-Allow-Methods", "POST, OPTIONS");
    res.SetHeader("Access-Control-Allow-Headers", "Content-Type");
    var plan := PlanOf(verb, reqBody, env);
    match plan {
      case Preflight =>
        res.Finish(204, NoBody);
      case MethodNotAllowed =>
        res.Finish(405, Text("Method Not Allowed"));
      case MissingParameters =>
        res.Finish(400, ErrorBody("Parametri mancanti: path, data"));
      case MissingConfig =>
        res.Finish(500, ErrorBody("Config mancante: GITHUB_OWNER/REPO/TOKEN"));
      case Save(_, _, _, _, _, _, _) =>
        SaveFile(plan, res, store, stringify, base64);
    }
  }
}
