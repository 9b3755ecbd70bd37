/**
 * The JavaScript values the proxy's handlers work on: parsed JSON returned by the
 * Docker daemon, request bodies, and the few operations the handlers apply to them
 * (truthiness, property reads, index reads and string interpolation in template
 * literals). Numbers are integers; floating point is not modelled.
 */
module JsValues {

  datatype Option<+T> = None | Some(value: T)

  /** A JSON-shaped JavaScript value, plus `undefined`. */
  datatype JsValue =
    | Undefined
    | Null
    | Bool(b: bool)
    | Num(n: int)
    | Str(s: string)
    | Arr(items: seq<JsValue>)
    | Obj(fields: map<string, JsValue>)

  /**
   * A thrown JavaScript error: its `message` and, when it is an HTTP client error
   * that carries a response, that response's status (`error.response?.status`).
   */
  datatype Failure = Failure(message: string, responseStatus: Option<int>)

  /** The outcome of code that may throw. */
  datatype Result<+T> = Ok(value: T) | Err(error: Failure) {
    predicate IsFailure() { Err? }
    function PropagateFailure<U>(): Result<U> requires Err? { Err(error) }
    function Extract(): T requires Ok? { value }
  }

  /** Continue with `f` after a computation that did not throw. */
  function Bind<T, U>(r: Result<T>, f: T -> Result<U>): Result<U> {
    match r
    case Ok(v) => f(v)
    case Err(e) => Err(e)
  }

  /** JavaScript truthiness: `undefined`, `null`, `false`, `0` and `""` are falsy. */
  predicate Truthy(v: JsValue) {
    match v
    case Undefined => false
    case Null => false
    case Bool(b) => b
    case Num(n) => n != 0
    case Str(s) => s != ""
    case Arr(_) => true
    case Obj(_) => true
  }

  /** A TypeError raised by the engine (it carries no response). */
  function TypeError(message: string): Failure {
    Failure(message, None)
  }

  /** The message V8 gives when a property is read from `null` or `undefined`. */
  function CannotRead(v: JsValue, key: string): string {
    "Cannot read properties of " + (if v.Null? then "null" else "undefined") + " (reading '" + key + "')"
  }

  /** The value of an own property, `undefined` when the object lacks it. */
  function Field(m: map<string, JsValue>, key: string): JsValue {
    if key in m then m[key] else Undefined
  }

  /**
   * `v.key`: a TypeError on `null` and `undefined`; on any other non-object the
   * result is `undefined` (prototype properties such as `length` are not modelled).
   */
  function Member(v: JsValue, key: string): (r: Result<JsValue>)
    ensures r.Err? <==> v.Undefined? || v.Null?
    ensures v.Obj? ==> r == Ok(Field(v.fields, key))
  {
    match v
    case Undefined => Err(TypeError(CannotRead(v, key)))
    case Null => Err(TypeError(CannotRead(v, key)))
    case Obj(m) => Ok(Field(m, key))
    case _ => Ok(Undefined)
  }

  /** `v[i]` for a numeric index `i`. */
  function ElementAt(v: JsValue, i: nat): (r: Result<JsValue>)
    ensures r.Err? <==> v.Undefined? || v.Null?
    ensures v.Arr? ==> r == Ok(if i < |v.items| then v.items[i] else Undefined)
  {
    match v
    case Undefined => Err(TypeError(CannotRead(v, NatToString(i))))
    case Null => Err(TypeError(CannotRead(v, NatToString(i))))
    case Arr(items) => Ok(if i < |items| then items[i] else Undefined)
    case Str(s) => Ok(if i < |s| then Str([s[i]]) else Undefined)
    case Obj(m) => Ok(Field(m, NatToString(i)))
    case _ => Ok(Undefined)
  }

  /** `toLowerCase` on one character, for the ASCII letters only. */
  function LowerChar(c: char): char {
    if 'A' <= c <= 'Z' then (c as int - 'A' as int + 'a' as int) as char else c
  }

  /** `s.toLowerCase()`, for ASCII text. */
  function LowerAscii(s: string): (r: string)
    ensures |r| == |s| && forall i :: 0 <= i < |s| ==> r[i] == LowerChar(s[i])
  {
    seq(|s|, i requires 0 <= i < |s| => LowerChar(s[i]))
  }

  function Digit(d: nat): char
    requires d < 10
  {
    "0123456789"[d]
  }

  /** The decimal numeral of `n`. */
  function NatToString(n: nat): string
    decreases n
  {
    if n < 10 then [Digit(n)] else NatToString(n / 10) + [Digit(n % 10)]
  }

  /**
   * `String(v)`, which is what a template literal `${v}` inserts: arrays are joined
   * with commas (their `null` and `undefined` elements become empty) and an object
   * is `[object Object]`. An object with an own `toString` key, for which JavaScript
   * throws instead, is not distinguished.
   */
  function ToStr(v: JsValue): string
    decreases v
  {
    match v
    case Undefined => "undefined"
    case Null => "null"
    case Bool(b) => if b then "true" else "false"
    case Num(n) => if n < 0 then "-" + NatToString(-n) else NatToString(n)
    case Str(s) => s
    case Arr(items) => Join(v, 0)
    case Obj(_) => "[object Object]"
  }

  /** `items.slice(from).join(",")` for the array `v`. */
  function Join(v: JsValue, from: nat): string
    requires v.Arr? && from <= |v.items|
    decreases v, 0, |v.items| - from
  {
    if from == |v.items| then ""
    else
      var e := v.items[from];
      var text := if e.Undefined? || e.Null? then "" else ToStr(e);
      if from + 1 == |v.items| then text else text + "," + Join(v, from + 1)
  }
}
