/** The small part of Python's value model that the drivers and the sequence
    tools depend on: dynamically typed arguments, truthiness, `'{}'.format`,
    `int()` truncation, and the exceptions they raise. */
module Python {

  datatype Option<+T> = None | Some(value: T)

  /** The exceptions the modelled code raises, by kind. */
  datatype Error =
    | InvalidArgument   // AssertionError raised by a driver's own argument check
    | BadReply          // AssertionError raised on a reply of the wrong shape
    | IndexError
    | ValueError        // float() of a text that is not a number
    | TypeError
    | KeyError
    | NameError         // an unbound name (UnboundLocalError is a NameError)
    | AttributeError
    | ZeroDivision
    | Timeout           // the instrument sent no reply
    | Unmodelled        // a branch whose behaviour this model does not define

  datatype Result<+T> = Ok(value: T) | Err(error: Error)

  /** A dynamically typed Python argument. `bool` is a subclass of `int`. */
  datatype Value =
    | PyNone
    | PyBool(b: bool)
    | PyInt(i: int)
    | PyFloat(x: real)
    | PyStr(s: string)

  /** Formatting and parsing of floating-point numbers (`str(x)`, `float(s)`)
      are left abstract: a codec is passed in wherever the source uses them. */
  datatype FloatCodec = FloatCodec(format: real -> string, parse: string -> Option<real>)

  /** `isinstance(v, int)` */
  predicate IsInt(v: Value) {
    v.PyBool? || v.PyInt?
  }

  /** The integer an int-like value compares equal to (`True == 1`). */
  function IntOf(v: Value): (n: int)
    requires IsInt(v)
    ensures v.PyInt? ==> n == v.i
    ensures v.PyBool? ==> (n == 1 <==> v.b) && 0 <= n <= 1
  {
    match v
    case PyBool(b) => if b then 1 else 0
    case PyInt(i) => i
  }

  /** The number a numeric value stands for, or None when arithmetic on it
      (`abs`, `<`) raises a TypeError. */
  function NumberOf(v: Value): (r: Option<real>)
    ensures r.Some? <==> (v.PyBool? || v.PyInt? || v.PyFloat?)
    ensures v.PyFloat? ==> r == Some(v.x)
    ensures v.PyInt? ==> r == Some(v.i as real)
  {
    match v
    case PyBool(b) => Some(if b then 1.0 else 0.0)
    case PyInt(i) => Some(i as real)
    case PyFloat(x) => Some(x)
    case _ => None
  }

  /** `bool(v)` */
  predicate Truthy(v: Value) {
    match v
    case PyNone => false
    case PyBool(b) => b
    case PyInt(i) => i != 0
    case PyFloat(x) => x != 0.0
    case PyStr(s) => s != ""
  }

  function Abs(x: real): real {
    if x < 0.0 then -x else x
  }

  function DigitChar(d: nat): (c: char)
    requires d < 10
    ensures '0' <= c <= '9'
  {
    "0123456789"[d]
  }

  function DigitValue(c: char): nat
    requires '0' <= c <= '9'
  {
    (c as int - '0' as int) as nat
  }

  /** `str(n)` for a natural number: decimal digits without leading zeros. */
  function NatToString(n: nat): (s: string)
    ensures |s| >= 1
    ensures forall k :: 0 <= k < |s| ==> '0' <= s[k] <= '9'
    ensures n >= 10 ==> s[0] != '0'
    decreases n
  {
    if n < 10 then [DigitChar(n)] else NatToString(n / 10) + [DigitChar(n % 10)]
  }

  /** The value of a string of decimal digits. */
  function ParseDigits(s: string): nat
    requires forall k :: 0 <= k < |s| ==> '0' <= s[k] <= '9'
  {
    if s == [] then 0 else 10 * ParseDigits(s[..|s| - 1]) + DigitValue(s[|s| - 1])
  }

  lemma {:induction false} DigitRoundTrip(d: nat)
    requires d < 10
    ensures DigitValue(DigitChar(d)) == d
  {
    assert "0123456789"[d] as int == '0' as int + d by {
      if d == 0 {} else if d == 1 {} else if d == 2 {} else if d == 3 {} else if d == 4 {}
      else if d == 5 {} else if d == 6 {} else if d == 7 {} else if d == 8 {} else {}
    }
  }

  /** Reading back the decimal text of a number gives the number. */
  lemma {:induction false} NatToStringRoundTrip(n: nat)
    ensures ParseDigits(NatToString(n)) == n
    decreases n
  {
    var s := NatToString(n);
    if n < 10 {
      DigitRoundTrip(n);
      assert s[..0] == [];
    } else {
      NatToStringRoundTrip(n / 10);
      DigitRoundTrip(n % 10);
      assert s[..|s| - 1] == NatToString(n / 10);
    }
  }

  /** `str(i)` for an integer. */
  function IntToString(i: int): (s: string)
    ensures |s| >= 1
    ensures i >= 0 ==> s == NatToString(i)
    ensures i < 0 ==> s == "-" + NatToString(-i)
  {
    if i < 0 then "-" + NatToString(-i) else NatToString(i)
  }

  /** `'{}'.format(v)`, i.e. `str(v)`. */
  function Format(v: Value, floats: FloatCodec): string {
    match v
    case PyNone => "None"
    case PyBool(b) => if b then "True" else "False"
    case PyInt(i) => IntToString(i)
    case PyFloat(x) => floats.format(x)
    case PyStr(s) => s
  }

  /** `int(x)` for a float: truncation toward zero. */
  function Trunc(x: real): (n: int)
    ensures x >= 0.0 ==> n as real <= x < n as real + 1.0
    ensures x < 0.0 ==> n as real - 1.0 < x <= n as real
  {
    if x >= 0.0 then x.Floor else -((-x).Floor)
  }

  /** `int(x) == 1` holds exactly for x in [1, 2). */
  lemma TruncIsOne(x: real)
    ensures Trunc(x) == 1 <==> 1.0 <= x < 2.0
  {
  }
}
