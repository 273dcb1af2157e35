/**
 * The JavaScript values, completions and string helpers that the fake-fetch
 * registry, the XHR stubber and the async action chain share.
 */
module Js {

  datatype Option<T> = None | Some(value: T) {
    /** The value, or `default` when absent (JavaScript's default-parameter rule). */
    function GetOr(default: T): T {
      match this
      case Some(v) => v
      case None => default
    }
  }

  /** A call that either returns a value or throws `new Error(message)`. */
  datatype Result<T> = Ok(value: T) | Err(message: string)

  /** A call that returns nothing or throws `new Error(message)`. */
  datatype Outcome = Pass | Fail(message: string)

  /**
   * The JavaScript values the helpers pass around. Numbers are integers (NaN,
   * fractions and -0 are not modelled); an object is known by its identity.
   */
  datatype JsValue =
    | Undefined
    | Null
    | Bool(b: bool)
    | Num(n: int)
    | Str(s: string)
    | Obj(id: nat)

  /** JavaScript truthiness, `!!v`. */
  predicate Truthy(v: JsValue) {
    match v
    case Undefined => false
    case Null => false
    case Bool(b) => b
    case Num(n) => n != 0
    case Str(s) => s != ""
    case Obj(_) => true
  }

  /** What a call into user code does: return a value, or throw an Error with a message. */
  datatype Completion = Return(value: JsValue) | Throw(message: string)

  predicate NoDuplicates<T(==)>(s: seq<T>) {
    forall i, j :: 0 <= i < j < |s| ==> s[i] != s[j]
  }

  /** `Array.prototype.join(sep)` on strings. */
  function Join(parts: seq<string>, sep: string): string
  {
    if |parts| == 0 then ""
    else if |parts| == 1 then parts[0]
    else Join(parts[..|parts| - 1], sep) + sep + parts[|parts| - 1]
  }

  function LowerChar(c: char): char {
    if 'A' <= c <= 'Z' then (c as int + 32) as char else c
  }

  /** `String.prototype.toLowerCase` restricted to ASCII letters. */
  function LowerAscii(s: string): (r: string)
    ensures |r| == |s|
    ensures forall i :: 0 <= i < |s| ==> r[i] == LowerChar(s[i])
  {
    if s == [] then [] else [LowerChar(s[0])] + LowerAscii(s[1..])
  }

  function DigitsOf(n: nat): string
    decreases n
  {
    var d := [(48 + n % 10) as char];
    if n < 10 then d else DigitsOf(n / 10) + d
  }

  /** The decimal text of an integer, as `${n}` prints it. */
  function IntToString(n: int): string {
    if n < 0 then "-" + DigitsOf(-n) else DigitsOf(n)
  }

  /** `String(v)` for the modelled values (an object prints as a plain object does). */
  function ToJsString(v: JsValue): string {
    match v
    case Undefined => "undefined"
    case Null => "null"
    case Bool(b) => if b then "true" else "false"
    case Num(n) => IntToString(n)
    case Str(s) => s
    case Obj(_) => "[object Object]"
  }

  /** The `message` of `new Error(v)`: empty for `undefined`, else `String(v)`. */
  function ErrorText(v: JsValue): string {
    if v.Undefined? then "" else ToJsString(v)
  }
}
