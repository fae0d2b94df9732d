/**
 * Values shared by every service of the backend: results and errors, the
 * JavaScript values that arrive in request bodies and HTTP responses, and the
 * three JavaScript operators the services apply to them (truthiness, property
 * access and strict equality).
 */
module Common {

  datatype Option<+T> = None | Some(value: T) {
    function GetOr(default: T): T {
      match this
      case Some(v) => v
      case None => default
    }
  }

  /** The exceptions the services throw, one constructor per exception class. */
  datatype Error =
    | NotFound(message: string)             // NotFoundException, HTTP 404
    | Unauthorized(message: string)         // UnauthorizedException, HTTP 401
    | BadRequest(message: string)           // BadRequestException, HTTP 400
    | Conflict(message: string)             // ConflictException, HTTP 409
    | InternalServerError(message: string)  // InternalServerErrorException, HTTP 500
    | HttpException(status: nat, message: string)
    | PlainError(message: string)           // `new Error(message)`
    | TypeError(message: string)            // raised by the JavaScript runtime
    | StoreError(code: string, message: string)  // a failed database request

  datatype Result<+T> = Ok(value: T) | Err(error: Error)

  /**
   * A JavaScript value as it is parsed from JSON. Numbers are exact reals: the
   * rounding to doubles, and the Infinity an out-of-range literal parses to, are not modelled.
   */
  datatype JsValue =
    | Undefined
    | Null
    | Bool(b: bool)
    | Num(n: real)
    | Str(s: string)
    | Arr(elems: seq<JsValue>)
    | Obj(props: map<string, JsValue>)

  /** What `if (v)` and `v || w` test. */
  predicate Truthy(v: JsValue) {
    match v
    case Undefined => false
    case Null => false
    case Bool(b) => b
    case Num(n) => n != 0.0
    case Str(s) => s != ""
    case Arr(_) => true
    case Obj(_) => true
  }

  /** `v || w` */
  function Or(v: JsValue, w: JsValue): (r: JsValue)
    ensures Truthy(v) ==> r == v
    ensures !Truthy(v) ==> r == w
  {
    if Truthy(v) then v else w
  }

  /**
   * `v.name`. Reading a property of undefined or null raises a TypeError; a
   * primitive or an array has none of the property names these services read,
   * so the access yields undefined.
   */
  function Prop(v: JsValue, name: string): (r: Result<JsValue>)
    ensures r.Err? <==> v == Undefined || v == Null
    ensures r.Err? ==> r.error.TypeError?
    ensures v.Obj? && name in v.props ==> r == Ok(v.props[name])
    ensures !v.Obj? && r.Ok? ==> r.value == Undefined
  {
    match v
    case Undefined => Err(TypeError("Cannot read properties of undefined (reading '" + name + "')"))
    case Null => Err(TypeError("Cannot read properties of null (reading '" + name + "')"))
    case Obj(m) => Ok(if name in m then m[name] else Undefined)
    case _ => Ok(Undefined)
  }

  /** `v?.name`: like `v.name`, except that undefined and null give undefined. */
  function OptionalProp(v: JsValue, name: string): (r: JsValue)
    ensures v == Undefined || v == Null ==> r == Undefined
    ensures v != Undefined && v != Null ==> Prop(v, name) == Ok(r)
  {
    if v == Undefined || v == Null then Undefined else Prop(v, name).value
  }

  /** A property of a parsed body: undefined when the body has no such property. */
  function Field(m: map<string, JsValue>, name: string): (r: JsValue)
    ensures name !in m ==> r == Undefined
    ensures name in m ==> r == m[name]
  {
    if name in m then m[name] else Undefined
  }

  /**
   * `a === b`. Primitives compare by value. Arrays and objects compare by
   * identity, and two properties of a parsed body never hold the same object,
   * so an array or an object is never strictly equal to anything here.
   */
  predicate StrictEquals(a: JsValue, b: JsValue) {
    match a
    case Undefined => b.Undefined?
    case Null => b.Null?
    case Bool(x) => b.Bool? && b.b == x
    case Num(x) => b.Num? && b.n == x
    case Str(x) => b.Str? && b.s == x
    case Arr(_) => false
    case Obj(_) => false
  }

  /** The first `n` elements of `s`, or all of them when there are fewer. */
  function Take<T>(s: seq<T>, n: nat): (r: seq<T>)
    ensures |r| == if n < |s| then n else |s|
    ensures r == s[..|r|]
  {
    if n < |s| then s[..n] else s
  }

  /** `s` in the opposite order: a newest-first view of an insertion-ordered table. */
  function Reverse<T>(s: seq<T>): (r: seq<T>)
    ensures |r| == |s|
    ensures forall i :: 0 <= i < |s| ==> r[i] == s[|s| - 1 - i]
  {
    seq(|s|, i requires 0 <= i < |s| => s[|s| - 1 - i])
  }

  /** The last `n` elements of `s`, latest first: a newest-first page of an insertion-ordered table. */
  function NewestFirst<T>(s: seq<T>, n: nat): (r: seq<T>)
    ensures |r| == if n < |s| then n else |s|
    ensures forall i :: 0 <= i < |r| ==> r[i] == s[|s| - 1 - i]
  {
    seq(if n < |s| then n else |s|, i requires 0 <= i < if n < |s| then n else |s| => s[|s| - 1 - i])
  }

  function DigitChar(d: nat): (c: char)
    requires d < 10
    ensures '0' <= c <= '9'
  {
    "0123456789"[d]
  }

  /** Decimal text of a natural number, without leading zeros. */
  function NatToString(n: nat): (s: string)
    ensures |s| >= 1
    ensures forall i :: 0 <= i < |s| ==> '0' <= s[i] <= '9'
    decreases n
  {
    if n < 10 then [DigitChar(n)] else NatToString(n / 10) + [DigitChar(n % 10)]
  }

  /** Decimal text of an integer with every digit written out, as JavaScript writes integers below 10^21 in magnitude. */
  function IntToString(i: int): (s: string)
    ensures |s| >= 1
    ensures (i < 0) <==> s[0] == '-'
  {
    if i < 0 then "-" + NatToString(-i) else NatToString(i)
  }

  /** `${v}`: the text JavaScript makes of a value inside a template string. */
  function ToJsString(v: JsValue): (s: string)
    ensures v.Str? ==> s == v.s
    decreases v
  {
    match v
    case Undefined => "undefined"
    case Null => "null"
    case Bool(b) => if b then "true" else "false"
    case Num(n) => if n.Floor as real == n then IntToString(n.Floor) else "<number>"
    case Str(s) => s
    case Arr(xs) => JoinTexts(seq(|xs|, i requires 0 <= i < |xs| =>
                      if xs[i].Undefined? || xs[i].Null? then "" else ToJsString(xs[i])))
    case Obj(_) => "[object Object]"
  }

  /** The elements joined by commas, as `Array.prototype.toString` does. */
  function JoinTexts(parts: seq<string>): string {
    if |parts| == 0 then ""
    else if |parts| == 1 then parts[0]
    else parts[0] + "," + JoinTexts(parts[1..])
  }
}
