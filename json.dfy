/**
 * JavaScript values as the route handlers receive them from `request.json()`,
 * with the parts of JavaScript semantics the handlers depend on: truthiness,
 * property reads and the string conversion of a template literal.
 */
module Json {
  import opened Wrappers
  import Strings

  /** A parsed JSON value; numbers are modelled as integers. */
  datatype Value =
    | Null
    | Bool(b: bool)
    | Num(n: int)
    | Str(s: string)
    | Arr(items: seq<Value>)
    | Obj(fields: map<string, Value>)

  /** JavaScript truthiness of a value. */
  predicate Truthy(v: Value) {
    match v
    case Null => false
    case Bool(b) => b
    case Num(n) => n != 0
    case Str(s) => s != ""
    case Arr(_) => true
    case Obj(_) => true
  }

  /** Truthiness of a property read, where `None` is `undefined` (falsy). */
  predicate Present(p: Option<Value>) {
    p.Some? && Truthy(p.value)
  }

  /**
   * The property read `v[key]` (or a destructuring of `key` from `v`) on a
   * value that is not `null`; `null` makes the read throw, which callers
   * handle before reading. Only objects have the keys the handlers ask for.
   */
  function Get(v: Value, key: string): (r: Option<Value>)
    requires !v.Null?
    ensures r.Some? <==> v.Obj? && key in v.fields
    ensures r.Some? ==> r.value == v.fields[key]
  {
    if v.Obj? && key in v.fields then Some(v.fields[key]) else None
  }

  /** `String(v)`, which a template literal applies to an interpolated value. */
  function ToText(v: Value): string {
    match v
    case Null => "null"
    case Bool(b) => if b then "true" else "false"
    case Num(n) => Strings.IntText(n)
    case Str(s) => s
    case Arr(items) =>
      // `Array.prototype.toString`: elements joined by "," with null shown as ""
      Strings.Join(seq(|items|, i requires 0 <= i < |items| =>
                                  if items[i].Null? then "" else ToText(items[i])), ",")
    case Obj(_) => "[object Object]"
  }

  /** The HTTP response a route handler returns: a status code and a JSON body. */
  datatype Response<+B> = Response(status: int, body: B)

  /** The status `NextResponse.json` uses when none is given. */
  const OK := 200
}
