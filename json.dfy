/** Parsed JSON values as the proxy sees them after `express.json`, plus the
    JavaScript notions the handlers apply to them (truthiness, the `{error}`
    envelope). Numbers are modelled as integers. */
module Json {

  datatype Option<+T> = None | Some(value: T)

  /** A JSON value. Object members keep the order in which they were
      written. For the objects the handlers build (non-numeric, distinct
      names) that is the order `JSON.stringify` emits them in; JavaScript
      puts integer-like names first, and `JSON.parse` keeps the last of
      duplicate names where `Lookup` finds the first. */
  datatype Value =
    | Null
    | Bool(b: bool)
    | Num(n: int)
    | Str(s: string)
    | Arr(items: seq<Value>)
    | Obj(members: seq<(string, Value)>)

  /** JavaScript truthiness of a parsed JSON value: `null`, `false`, `0` and
      `""` are falsy; every other value, every array and every object is truthy. */
  predicate Truthy(v: Value) {
    match v
    case Null => false
    case Bool(b) => b
    case Num(n) => n != 0
    case Str(s) => s != ""
    case Arr(_) => true
    case Obj(_) => true
  }

  /** The member names of an object, in order. */
  function Names(members: seq<(string, Value)>): (r: seq<string>)
    ensures |r| == |members|
    ensures forall i :: 0 <= i < |members| ==> r[i] == members[i].0
  {
    if members == [] then [] else [members[0].0] + Names(members[1..])
  }

  /** Property access `obj[key]` on an object with these members: the first
      member of that name, or `None` (JavaScript `undefined`). */
  function Lookup(members: seq<(string, Value)>, key: string): (r: Option<Value>)
    ensures r.Some? <==> key in Names(members)
    ensures r.Some? ==> (key, r.value) in members
  {
    if members == [] then None
    else if members[0].0 == key then Some(members[0].1)
    else Lookup(members[1..], key)
  }

  /** The `{ error: message }` envelope every failing reply carries. */
  function ErrorBody(message: string): Value {
    Obj([("error", Str(message))])
  }
}
