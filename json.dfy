/**
 * The loosely typed values the application stores, sends and receives:
 * parsed JSON, with JavaScript's property access, truthiness, `||`,
 * `Array.isArray` and `String(x)` conversion on them. A missing property
 * (`undefined`) is `None`.
 */
module Json {
  import opened Wrappers
  import opened Strings

  /** A JSON value. Numbers are restricted to integers. */
  datatype Json =
    | JNull
    | JBool(b: bool)
    | JNum(n: int)
    | JStr(s: string)
    | JArr(items: seq<Json>)
    | JObj(fields: map<string, Json>)

  /** `v.k` on a value that is not `null`: the property when `v` is an object holding it. */
  function Get(v: Json, k: string): (r: Option<Json>)
    ensures r.Some? <==> v.JObj? && k in v.fields
  {
    if v.JObj? && k in v.fields then Some(v.fields[k]) else None
  }

  /** `v.k` where `v` may itself be `undefined`. */
  function GetOpt(v: Option<Json>, k: string): Option<Json> {
    if v.Some? then Get(v.value, k) else None
  }

  /** JavaScript truthiness (`!!x`): false for `undefined`, `null`, `false`, `0` and `""`. */
  predicate Truthy(x: Option<Json>) {
    match x
    case None => false
    case Some(JNull) => false
    case Some(JBool(b)) => b
    case Some(JNum(n)) => n != 0
    case Some(JStr(s)) => s != []
    case Some(_) => true
  }

  /** `!!x` on an optional string, such as an environment variable. */
  predicate IsSet(x: Option<string>) {
    x.Some? && x.value != ""
  }

  /** `a || b`: `a` when it is truthy, otherwise `b`. */
  function Or(a: Option<Json>, b: Option<Json>): (r: Option<Json>)
    ensures Truthy(r) <==> Truthy(a) || Truthy(b)
  {
    if Truthy(a) then a else b
  }

  /** `Array.isArray(x)`. */
  predicate IsArray(x: Option<Json>) {
    x.Some? && x.value.JArr?
  }

  /** `Array.isArray(x) ? x : []`. */
  function ArrayOr(x: Option<Json>): (r: seq<Json>)
    ensures IsArray(x) ==> r == x.value.items
    ensures !IsArray(x) ==> r == []
  {
    if IsArray(x) then x.value.items else []
  }

  /** `String(v)` on a value. */
  function ToStr(v: Json): string {
    match v
    case JNull => "null"
    case JBool(b) => if b then "true" else "false"
    case JNum(n) => IntToDecimal(n)
    case JStr(s) => s
    case JArr(items) => ArrayToStr(items)
    case JObj(_) => "[object Object]"
  }

  /** `String(array)`: the elements converted and joined with `,`, with `null` as the empty string. */
  function ArrayToStr(items: seq<Json>): string
    decreases items
  {
    if items == [] then []
    else
      var head := if items[0].JNull? then [] else ToStr(items[0]);
      if |items| == 1 then head else head + "," + ArrayToStr(items[1..])
  }

  /** An array of strings as JSON values. */
  function Strs(xs: seq<string>): (r: seq<Json>)
    ensures |r| == |xs| && forall i :: 0 <= i < |xs| ==> r[i] == JStr(xs[i])
  {
    seq(|xs|, i requires 0 <= i < |xs| => JStr(xs[i]))
  }

  /** `xs.map(String)`. */
  function Texts(xs: seq<Json>): (r: seq<string>)
    ensures |r| == |xs| && forall i :: 0 <= i < |xs| ==> r[i] == ToStr(xs[i])
  {
    seq(|xs|, i requires 0 <= i < |xs| => ToStr(xs[i]))
  }

  /** Converting strings to JSON values and back gives the strings. */
  lemma TextsOfStrs(xs: seq<string>)
    ensures Texts(Strs(xs)) == xs
  {
  }

  /** `String(x)` where `x` may be `undefined`. */
  function StrOf(x: Option<Json>): string {
    if x.Some? then ToStr(x.value) else "undefined"
  }

  /** `String(x || "")`: the text of a truthy value, otherwise the empty string. */
  function TextOr(x: Option<Json>): (r: string)
    ensures !Truthy(x) ==> r == []
    ensures x.Some? && x.value.JStr? ==> r == x.value.s
  {
    if Truthy(x) then ToStr(x.value) else []
  }

  /** `o && (o.a || o.b)` read as a value: the canonical property, else the alias. */
  function Either(o: Option<Json>, a: string, b: string): Option<Json> {
    Or(GetOpt(o, a), GetOpt(o, b))
  }

  /** `String(o.a || "").trim()`. */
  function Text(o: Option<Json>, a: string): (r: string)
    ensures Trimmed(r)
  {
    Trim(TextOr(GetOpt(o, a)))
  }

  /** `String(o.a || o.b || "").trim()`: the canonical property when it is truthy, otherwise the alias. */
  function TextField(o: Option<Json>, a: string, b: string): (r: string)
    ensures Trimmed(r)
    ensures Truthy(GetOpt(o, a)) ==> r == Trim(ToStr(GetOpt(o, a).value))
    ensures !Truthy(GetOpt(o, a)) ==> r == Trim(TextOr(GetOpt(o, b)))
  {
    Trim(TextOr(Either(o, a, b)))
  }

  /** A trimmed text stored under `a` reads back through `Text` as itself. */
  lemma TextOfTrimmed(o: Json, a: string, t: string)
    requires o.JObj? && a in o.fields && o.fields[a] == JStr(t) && Trimmed(t)
    ensures Text(Some(o), a) == t
  {
    assert GetOpt(Some(o), a) == Some(JStr(t));
    TrimmedFixed(t);
  }

  /** A text stored under its canonical key, with no alias beside it, is what the field reads. */
  lemma StoredText(o: Json, a: string, b: string, t: string)
    requires o.JObj? && a in o.fields && o.fields[a] == JStr(t)
    requires b !in o.fields
    ensures TextOr(Either(Some(o), a, b)) == t
  {
    assert GetOpt(Some(o), a) == Some(JStr(t));
    assert GetOpt(Some(o), b) == None;
  }

  /** A trimmed text read back through `TextField` from its canonical key is itself. */
  lemma TextFieldOfTrimmed(o: Json, a: string, b: string, t: string)
    requires o.JObj? && a in o.fields && o.fields[a] == JStr(t) && Trimmed(t)
    requires b !in o.fields
    ensures TextField(Some(o), a, b) == t
  {
    StoredText(o, a, b, t);
    TrimmedFixed(t);
  }
}
