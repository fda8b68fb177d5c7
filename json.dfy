/** JSON values as they travel between the browser pages and the Flask
    services, the two truthiness rules (JavaScript's and Python's) the code
    branches on, and the outcome of one `fetch` call. */
module Json {

  datatype Option<T> = None | Some(value: T)

  datatype Value =
    | Null
    | Bool(b: bool)
    | Num(n: real)
    | Str(s: string)
    | Arr(items: seq<Value>)
    | Obj(fields: map<string, Value>)

  /** JavaScript truthiness, as in `if (x)`, `x && …` and `x || …`.
      JSON carries no NaN, so a number is falsy exactly when it is zero. */
  predicate JsTruthy(v: Value) {
    match v
    case Null => false
    case Bool(b) => b
    case Num(n) => n != 0.0
    case Str(s) => s != ""
    case Arr(_) => true
    case Obj(_) => true
  }

  /** Python truthiness, as in `if value:`, of what `json.loads` produced. */
  predicate PyTruthy(v: Value) {
    match v
    case Null => false
    case Bool(b) => b
    case Num(n) => n != 0.0
    case Str(s) => s != ""
    case Arr(items) => items != []
    case Obj(fields) => fields != map[]
  }

  /** The two rules differ only on empty containers. */
  lemma TruthinessDiffersOnlyOnEmptyContainers(v: Value)
    ensures JsTruthy(v) != PyTruthy(v) <==> v == Arr([]) || v == Obj(map[])
  {
  }

  /** JavaScript `v.key`. Reading a property of null throws (TypeError), so
      callers test `v.Null?` first; an absent property (undefined) reads as
      Null, which the pages treat alike (both are falsy and render nothing). */
  function Member(v: Value, key: string): (r: Value)
    requires !v.Null?
    ensures v.Obj? && key in v.fields ==> r == v.fields[key]
    ensures !(v.Obj? && key in v.fields) ==> r == Null
  {
    if v.Obj? && key in v.fields then v.fields[key] else Null
  }

  /** Python `d.get(key, default)`. */
  function Get(d: map<string, Value>, key: string, default: Value): (r: Value)
    ensures key in d ==> r == d[key]
    ensures key !in d ==> r == default
  {
    if key in d then d[key] else default
  }

  /** `response.ok`: the status is in the range 200-299. */
  predicate IsOk(status: nat) {
    200 <= status <= 299
  }

  /** The body as `await response.json()` leaves it. */
  datatype Body = Parsed(json: Value) | Malformed(message: string)

  /** What one `fetch` call yields: a rejected promise (the network failed),
      or a response with its status and its body. */
  datatype Fetched =
    | NetworkError(message: string)
    | Responded(status: nat, body: Body)

  /** A Python dictionary that is shared by reference and changed in place,
      such as the `request.json` object handed to `preprocess_input`. */
  class Dict {
    var entries: map<string, Value>

    constructor (m: map<string, Value>)
      ensures entries == m
    {
      entries := m;
    }
  }
}
