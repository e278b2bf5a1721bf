/** JSON values as the JavaScript code sees them after `response.json()`, with the three
    runtime operations the core applies to them: truthiness, property access and `String(x)`. */
module Json {
  import opened Common

  /** A parsed JSON value. Numbers are integers in this model. */
  datatype Json =
    | JNull
    | JBool(b: bool)
    | JNum(n: int)
    | JStr(s: string)
    | JArr(items: seq<Json>)
    | JObj(fields: map<string, Json>)

  /** JavaScript truthiness: null, false, 0 and "" are falsy; arrays and objects are truthy. */
  predicate Truthy(v: Json) {
    match v
    case JNull => false
    case JBool(b) => b
    case JNum(n) => n != 0
    case JStr(s) => s != ""
    case JArr(_) => true
    case JObj(_) => true
  }

  /** Truthiness of a property that may be missing (a missing property reads as undefined). */
  predicate TruthyProp(p: Option<Json>) {
    p.Some? && Truthy(p.value)
  }

  /** `typeof v === 'object' && v !== null`: arrays count as objects. */
  predicate IsObjectLike(v: Json) {
    v.JObj? || v.JArr?
  }

  /** `v.name` for a non-null `v` and a property name that is neither an index nor `length`:
      only plain objects carry such properties. */
  function Prop(v: Json, name: string): (p: Option<Json>)
    ensures p.Some? <==> v.JObj? && name in v.fields
    ensures p.Some? ==> p.value == v.fields[name]
  {
    if v.JObj? && name in v.fields then Some(v.fields[name]) else None
  }

  /** `String(v)`; an array is its elements joined by commas, null elements printing as "". */
  function ToStr(v: Json): string {
    match v
    case JNull => "null"
    case JBool(b) => if b then "true" else "false"
    case JNum(n) => IntToString(n)
    case JStr(s) => s
    case JObj(_) => "[object Object]"
    case JArr(items) =>
      Join(seq(|items|, i requires 0 <= i < |items| => if items[i].JNull? then "" else ToStr(items[i])), ',')
  }

  /** `String(p || fallback)`. */
  function StrOr(p: Option<Json>, fallback: string): (s: string)
    ensures !TruthyProp(p) ==> s == fallback
  {
    if TruthyProp(p) then ToStr(p.value) else fallback
  }

  /** A JSON string value for each string of a list. */
  function Strings(xs: seq<string>): (r: seq<Json>)
    ensures |r| == |xs|
    ensures forall i :: 0 <= i < |xs| ==> r[i] == JStr(xs[i])
  {
    seq(|xs|, i requires 0 <= i < |xs| => JStr(xs[i]))
  }
}
