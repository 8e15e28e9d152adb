/**
 * JavaScript values as the edge functions see them: parsed JSON bodies, the
 * three states of an optional request field, and property access with the
 * TypeError that reading through `undefined` or `null` raises.
 */
module Js {
  import opened Wrappers
  import opened Text

  /** A JavaScript value reachable from a parsed JSON document. */
  datatype JsVal =
    | Undefined
    | Null
    | Bool(b: bool)
    | Num(n: int)
    | Str(s: string)
    | Arr(items: seq<JsVal>)
    | Obj(fields: map<string, JsVal>)

  /** A request field: left out of the JSON, sent as `null`, or given. */
  datatype Field<+T> = Absent | JsonNull | Given(value: T)

  /** A request or response body: missing, not JSON (with the parser's message), or parsed. */
  datatype Body<+T> = NoBody | NotJson(syntaxError: string) | Parsed(value: T)

  /** What V8's `JSON.parse` reports for an empty body. */
  const EmptyJsonMessage := "Unexpected end of JSON input"

  /** `!!x` for a string field: given and non-empty. */
  predicate Truthy(f: Field<string>) {
    f.Given? && f.value != ""
  }

  /** `!!x` for a boolean field. */
  predicate TruthyBool(f: Field<bool>) {
    f.Given? && f.value
  }

  /** `s || fallback` for a string. */
  function Or(s: string, fallback: string): (r: string)
    ensures s != "" ==> r == s
    ensures s == "" ==> r == fallback
  {
    if s != "" then s else fallback
  }

  /** `x || fallback` for a nullable text column. */
  function TextOr(stored: Option<string>, fallback: string): (r: string)
    ensures stored.Some? && stored.value != "" ==> r == stored.value
    ensures stored.None? || stored.value == "" ==> r == fallback
  {
    if stored.Some? then Or(stored.value, fallback) else fallback
  }

  /** `x || null` for a request field stored in a nullable column. */
  function OrNull(f: Field<string>): (r: Option<string>)
    ensures Truthy(f) <==> r.Some?
    ensures r.Some? ==> r.value == f.value
  {
    if Truthy(f) then Some(f.value) else None
  }

  /** A nullable column after an update whose payload holds `f`: a key left out of the
      payload is not sent and leaves the column alone, `null` clears it. */
  function Assign<T>(f: Field<T>, current: Option<T>): (r: Option<T>)
    ensures f.Absent? ==> r == current
    ensures f.JsonNull? ==> r == None
    ensures f.Given? ==> r == Some(f.value)
  {
    match f
    case Absent => current
    case JsonNull => None
    case Given(v) => Some(v)
  }

  /** A nullable column of a new row whose payload holds `f`. */
  function Stored<T>(f: Field<T>): (r: Option<T>)
    ensures r.Some? <==> f.Given?
    ensures r.Some? ==> r.value == f.value
  {
    if f.Given? then Some(f.value) else None
  }

  /** `${x}`: the text a field turns into inside a template literal or a query filter. */
  function Interpolate(f: Field<string>): (r: string)
    ensures f.Given? ==> r == f.value
    ensures f.Absent? ==> r == "undefined"
    ensures f.JsonNull? ==> r == "null"
  {
    match f
    case Absent => "undefined"
    case JsonNull => "null"
    case Given(s) => s
  }

  /** V8's message for reading a property of `undefined` or `null`. */
  function ReadError(nullish: JsVal, key: string): string
    requires nullish.Undefined? || nullish.Null?
  {
    "Cannot read properties of " + (if nullish.Undefined? then "undefined" else "null")
    + " (reading '" + key + "')"
  }

  /** The TypeError `f.key` raises when `f` is missing or `null`. */
  function MemberError<T>(f: Field<T>, key: string): string
    requires !f.Given?
  {
    ReadError(if f.Absent? then Undefined else Null, key)
  }

  /** One step of a property path: `.name` or `[i]`. */
  datatype Step = Key(name: string) | Index(i: nat)

  function StepKey(step: Step): string {
    match step
    case Key(name) => name
    case Index(i) => NatToString(i)
  }

  /** `v.name` or `v[i]`: a TypeError on `undefined`/`null`, `undefined` where nothing is stored. */
  function Read(v: JsVal, step: Step): (r: Result<JsVal, string>)
    ensures r.Failure? <==> v.Undefined? || v.Null?
    ensures v.Obj? && StepKey(step) in v.fields ==> r == Success(v.fields[StepKey(step)])
    ensures v.Arr? && step.Index? && step.i < |v.items| ==> r == Success(v.items[step.i])
  {
    match v
    case Undefined => Failure(ReadError(v, StepKey(step)))
    case Null => Failure(ReadError(v, StepKey(step)))
    case Obj(m) => Success(if StepKey(step) in m then m[StepKey(step)] else Undefined)
    case Arr(items) =>
      Success(if step.Index? && step.i < |items| then items[step.i] else Undefined)
    case Str(s) =>
      Success(if step.Index? && step.i < |s| then Str([s[step.i]]) else Undefined)
    case _ => Success(Undefined)
  }

  /** Follows a property path, stopping at the first TypeError. */
  function Walk(v: JsVal, path: seq<Step>): Result<JsVal, string>
    decreases |path|
  {
    if path == [] then Success(v)
    else match Read(v, path[0])
      case Failure(e) => Failure(e)
      case Success(w) => Walk(w, path[1..])
  }

  /** The value a path leads to when every step lands in an object or array that holds it. */
  function Nest(path: seq<Step>, leaf: JsVal): JsVal
    decreases |path|
  {
    if path == [] then leaf
    else match path[0]
      case Key(name) => Obj(map[name := Nest(path[1..], leaf)])
      case Index(i) => Arr(seq(i, _ => Null) + [Nest(path[1..], leaf)])
  }

  /** Walking a path through the document built along it finds the leaf. */
  lemma {:induction false} WalkNest(path: seq<Step>, leaf: JsVal)
    ensures Walk(Nest(path, leaf), path) == Success(leaf)
    decreases |path|
  {
    if path != [] {
      WalkNest(path[1..], leaf);
      match path[0]
      case Key(name) =>
        assert StepKey(path[0]) == name;
      case Index(i) =>
        var items := seq(i, _ => Null) + [Nest(path[1..], leaf)];
        assert items[i] == Nest(path[1..], leaf);
    }
  }
}
