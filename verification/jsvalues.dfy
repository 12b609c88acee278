/** The slice of JavaScript semantics that the GameBase helpers observe:
    values, truthiness, the `== null` test, default parameters, property
    reads and template-literal string conversion.  Objects are immutable
    property maps here; an operation that mutates an object in
    JavaScript returns the updated map instead.
 */
module JsValues {

  /** A JavaScript value.  Numbers are integers; a function value is
      identified by its name. */
  datatype Value =
    | Undefined
    | Null
    | Bool(b: bool)
    | Num(n: int)
    | Str(s: string)
    | Fn(name: string)
    | Obj(props: map<string, Value>)

  /** The own properties of an object (a component, a node, a plain object). */
  type Props = map<string, Value>

  /** The two kinds of thrown errors that the helper layer can raise. */
  datatype Error =
    | ConfigError(message: string)
    | TypeError(message: string)

  /** A synchronous call either returns a value or throws an error. */
  datatype Result<+T> = Ok(value: T) | Err(error: Error) {
    predicate IsFailure() {
      Err?
    }

    function PropagateFailure<U>(): Result<U>
      requires Err?
    {
      Err(error)
    }

    function Extract(): T
      requires Ok?
    {
      value
    }
  }

  /** `!!v`: undefined, null, false, 0 and "" are the falsy values. */
  predicate Truthy(v: Value) {
    match v
    case Undefined => false
    case Null => false
    case Bool(b) => b
    case Num(n) => n != 0
    case Str(s) => s != ""
    case Fn(_) => true
    case Obj(_) => true
  }

  /** `v == null`: loose equality with null holds for null and undefined only. */
  predicate Nullish(v: Value) {
    v.Undefined? || v.Null?
  }

  /** A default parameter `p = dflt` replaces the argument only when it is undefined. */
  function OrDefault(arg: Value, dflt: Value): (r: Value)
    ensures arg != Undefined ==> r == arg
    ensures arg == Undefined ==> r == dflt
  {
    if arg.Undefined? then dflt else arg
  }

  /** Reading an own property of an object; a missing key reads as undefined. */
  function Get(m: Props, key: string): (r: Value)
    ensures key in m ==> r == m[key]
    ensures key !in m ==> r == Undefined
  {
    if key in m then m[key] else Undefined
  }

  /** `v[key]`: throws on null and undefined; a property of any other
      non-object value reads as undefined (see README, "Left out"). */
  function ReadProp(v: Value, key: string): (r: Result<Value>)
    ensures r.Err? <==> Nullish(v)
    ensures v.Obj? ==> r == Ok(Get(v.props, key))
  {
    match v
    case Undefined => Err(TypeError("Cannot read property '" + key + "' of undefined"))
    case Null => Err(TypeError("Cannot read property '" + key + "' of null"))
    case Obj(m) => Ok(Get(m, key))
    case _ => Ok(Undefined)
  }

  predicate IsDigit(c: char) {
    '0' <= c <= '9'
  }

  predicate AllDigits(s: string) {
    forall i :: 0 <= i < |s| ==> IsDigit(s[i])
  }

  function DigitChar(d: nat): (c: char)
    requires d < 10
    ensures IsDigit(c)
  {
    ('0' as int + d) as char
  }

  function DigitValue(c: char): (d: nat)
    requires IsDigit(c)
    ensures d < 10
  {
    c as int - '0' as int
  }

  /** Decimal notation of a natural number, as `String(n)` prints it. */
  function NatToString(n: nat): (r: string)
    ensures |r| >= 1
    ensures AllDigits(r)
    ensures |r| > 1 ==> r[0] != '0'
    decreases n
  {
    if n < 10 then [DigitChar(n)] else NatToString(n / 10) + [DigitChar(n % 10)]
  }

  /** The number that a string of decimal digits denotes. */
  function DecimalValue(s: string): nat
    requires AllDigits(s)
  {
    if s == [] then 0 else 10 * DecimalValue(s[..|s| - 1]) + DigitValue(s[|s| - 1])
  }

  /** Reading back the decimal notation gives the number that was printed. */
  lemma {:induction false} DecimalRoundTrip(n: nat)
    ensures DecimalValue(NatToString(n)) == n
    decreases n
  {
    if n >= 10 {
      DecimalRoundTrip(n / 10);
      var s := NatToString(n);
      assert s[..|s| - 1] == NatToString(n / 10);
    }
  }

  /** Distinct numbers print differently, so array-index keys never collide. */
  lemma NatToStringInjective(a: nat, b: nat)
    requires NatToString(a) == NatToString(b)
    ensures a == b
  {
    DecimalRoundTrip(a);
    DecimalRoundTrip(b);
  }

  function IntToString(n: int): (r: string)
    ensures n < 0 ==> |r| > 1 && r[0] == '-' && r[1..] == NatToString(-n)
    ensures n >= 0 ==> r == NatToString(n)
  {
    if n < 0 then "-" + NatToString(-n) else NatToString(n)
  }

  /** String conversion performed by `${v}` in a template literal. */
  function ToStr(v: Value): (r: string)
    ensures v.Str? ==> r == v.s
    ensures v.Num? ==> r == IntToString(v.n)
  {
    match v
    case Undefined => "undefined"
    case Null => "null"
    case Bool(b) => if b then "true" else "false"
    case Num(n) => IntToString(n)
    case Str(s) => s
    case Fn(name) => name
    case Obj(_) => "[object Object]"
  }
}
