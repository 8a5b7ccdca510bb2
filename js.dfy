/**
 * JavaScript values, as far as the error-handling kit inspects them: their
 * truthiness, their conversion by `String(...)`, and Error instances.
 */
module Js {

  /** A callable value: its identity and the text `String(f)` yields for it. */
  datatype Callable = Callable(id: nat, source: string)

  /**
   * The constructor an Error instance was created by. An `HttpError` does not
   * set its own `name`, so it keeps the inherited name "Error".
   */
  datatype ErrorClass = BaseError | TypeError | HttpError

  /**
   * An Error instance: its constructor, `message`, the opaque `stack` captured
   * at construction, and its `code` property (`undefined` unless assigned).
   */
  datatype ErrorObject = ErrorObject(kind: ErrorClass, message: string, stack: string, code: JsValue)

  /**
   * The JavaScript values the kit distinguishes. Numbers are integers; `Obj`
   * is a plain object carrying what its `toString` yields.
   */
  datatype JsValue =
    | Undefined
    | Null
    | Bool(b: bool)
    | Num(n: int)
    | NaN
    | Str(s: string)
    | Obj(text: string)
    | Fn(f: Callable)
    | Err(error: ErrorObject)

  /** JavaScript truthiness: `false`, `0`, `NaN`, `""`, `null` and `undefined` are falsy. */
  predicate Truthy(v: JsValue) {
    match v
    case Undefined => false
    case Null => false
    case Bool(b) => b
    case Num(n) => n != 0
    case NaN => false
    case Str(s) => s != ""
    case _ => true
  }

  /** `v instanceof Error`. */
  predicate InstanceOfError(v: JsValue) {
    v.Err?
  }

  /** The `name` property of an Error instance. */
  function ErrorName(kind: ErrorClass): string {
    match kind
    case BaseError => "Error"
    case TypeError => "TypeError"
    case HttpError => "Error"
  }

  function DigitChar(d: nat): (c: char)
    requires d < 10
    ensures '0' <= c <= '9'
    ensures c as int - '0' as int == d
  {
    ('0' as int + d) as char
  }

  /** The decimal digits of `n`, without leading zeros. */
  function NaturalString(n: nat): (s: string)
    ensures |s| > 0
    ensures forall i :: 0 <= i < |s| ==> '0' <= s[i] <= '9'
    ensures n > 0 ==> s[0] != '0'
  {
    if n < 10 then [DigitChar(n)] else NaturalString(n / 10) + [DigitChar(n % 10)]
  }

  /** The number a string of decimal digits denotes. */
  function DecimalValue(s: string): nat
    requires forall i :: 0 <= i < |s| ==> '0' <= s[i] <= '9'
  {
    if s == [] then 0
    else DecimalValue(s[..|s| - 1]) * 10 + (s[|s| - 1] as int - '0' as int)
  }

  /** Reading the digits back gives the number: `NaturalString` loses nothing. */
  lemma {:induction false} NaturalStringValue(n: nat)
    ensures DecimalValue(NaturalString(n)) == n
    decreases n
  {
    if n >= 10 {
      var s := NaturalString(n);
      assert s[..|s| - 1] == NaturalString(n / 10);
      NaturalStringValue(n / 10);
    }
  }

  /** `String(v)`: the text `new Error(v)` takes as its message. */
  function ToJsString(v: JsValue): string {
    match v
    case Undefined => "undefined"
    case Null => "null"
    case Bool(b) => if b then "true" else "false"
    case Num(n) => if n < 0 then "-" + NaturalString(-n) else NaturalString(n)
    case NaN => "NaN"
    case Str(s) => s
    case Obj(text) => text
    case Fn(f) => f.source
    case Err(e) => if e.message == "" then ErrorName(e.kind) else ErrorName(e.kind) + ": " + e.message
  }

  /**
   * `new Error(message)` with the stack captured at that point. Every
   * `ErrorObject` is an Error instance (`InstanceOfError(Err(e))`) by its type.
   */
  function NewError(message: string, stack: string): (e: ErrorObject)
    ensures e.kind == BaseError
    ensures e.message == message && e.stack == stack && e.code == Undefined
  {
    ErrorObject(BaseError, message, stack, Undefined)
  }

  /** ASCII lower-casing, as a case-insensitive regular expression compares letters. */
  function LowerAscii(c: char): char {
    if 'A' <= c <= 'Z' then (c as int + 32) as char else c
  }

  function Lower(s: string): (r: string)
    ensures |r| == |s|
  {
    seq(|s|, i requires 0 <= i < |s| => LowerAscii(s[i]))
  }

  /** `pattern` occurs in `s` starting at index `i`. */
  predicate OccursAt(s: string, pattern: string, i: int) {
    0 <= i <= |s| - |pattern| && s[i..i + |pattern|] == pattern
  }

  /** `pattern` occurs in `s` at some position. */
  predicate Contains(s: string, pattern: string) {
    exists i :: 0 <= i <= |s| - |pattern| && OccursAt(s, pattern, i)
  }

  /** `pattern` occurs in `s` ignoring the case of ASCII letters (a regular expression with flag `i`). */
  predicate ContainsIgnoringCase(s: string, pattern: string) {
    Contains(Lower(s), Lower(pattern))
  }
}
