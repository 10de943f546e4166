/**
 * The JSON value universe that attribute values, defaults and definition
 * configs are drawn from, with the few JavaScript readings of a value that
 * the attribute engine relies on (truthiness, property reads, strict equality,
 * the text form of a number).
 */
module Values {
  import opened Common

  /** A finite decimal number `mant / 10^exp`. */
  datatype Dec = Dec(mant: int, exp: nat)

  /** Lowest terms: no trailing zero after the decimal point. */
  predicate Canonical(d: Dec) {
    d.exp == 0 || d.mant % 10 != 0
  }

  /**
   * A JSON number, kept with exactly the fraction digits it needs, so that two
   * numbers are equal exactly when their decimals are (as `===` compares them).
   */
  type Decimal = d: Dec | Canonical(d) witness Dec(0, 0)

  function Pow10(n: nat): (r: nat)
    ensures r >= 1
  {
    if n == 0 then 1 else 10 * Pow10(n - 1)
  }

  /** The number a decimal denotes. */
  function RealOf(d: Dec): (r: real)
    ensures r < 0.0 <==> d.mant < 0
    ensures r == 0.0 <==> d.mant == 0
  {
    var p := Pow10(d.exp) as real;
    assert d.mant as real / p * p == d.mant as real;
    d.mant as real / p
  }

  datatype Value =
    | Null
    | Bool(b: bool)
    | Num(n: Decimal)
    | Str(s: string)
    | Arr(items: seq<Value>)
    | Obj(fields: map<string, Value>)

  /** JavaScript truthiness of a JSON value. */
  predicate Truthy(v: Value) {
    match v
    case Null => false
    case Bool(b) => b
    case Num(n) => n.mant != 0
    case Str(s) => s != ""
    case Arr(_) => true
    case Obj(_) => true
  }

  /**
   * The property read `v.key` on a value that is not null: only objects carry
   * named properties of their own; `None` stands for `undefined`.
   */
  function Prop(v: Value, key: string): Option<Value> {
    if v.Obj? && key in v.fields then Some(v.fields[key]) else None
  }

  /**
   * `===` (and the SameValueZero of `includes` and `Set.has`) between two values
   * of different documents: primitives compare by content, arrays and objects
   * by reference, and no two documents share a reference.
   */
  predicate SameValueZero(a: Value, b: Value) {
    match (a, b)
    case (Null, Null) => true
    case (Bool(x), Bool(y)) => x == y
    case (Num(x), Num(y)) => x == y
    case (Str(x), Str(y)) => x == y
    case _ => false
  }

  function DigitChar(k: nat): (c: char)
    requires k < 10
    ensures '0' <= c <= '9'
  {
    "0123456789"[k]
  }

  /** The decimal digits of `n`, most significant first ("0" for zero). */
  function Digits(n: nat): (r: string)
    ensures |r| >= 1
    ensures forall i :: 0 <= i < |r| ==> '0' <= r[i] <= '9'
  {
    if n < 10 then [DigitChar(n)] else Digits(n / 10) + [DigitChar(n % 10)]
  }

  /** The last `width` decimal digits of `n`, padded with leading zeros. */
  function Padded(n: nat, width: nat): (r: string)
    ensures |r| == width
    ensures forall i :: 0 <= i < |r| ==> '0' <= r[i] <= '9'
  {
    if width == 0 then "" else Padded(n / 10, width - 1) + [DigitChar(n % 10)]
  }

  /** The magnitude of the digits of a decimal. */
  function Magnitude(d: Dec): nat {
    if d.mant < 0 then -d.mant else d.mant
  }

  function Quotient(a: nat, b: nat): nat
    requires b > 0
  {
    a / b
  }

  /** The sign and integer part of `String(x)` for a number in fixed-point notation. */
  function WholeText(d: Decimal): string {
    var whole: nat := Quotient(Magnitude(d), Pow10(d.exp));
    (if d.mant < 0 then "-" else "") + Digits(whole)
  }

  /** `String(x)` for a number in fixed-point notation: the fraction digits follow a '.' only when there are any. */
  function NumberText(d: Decimal): string {
    WholeText(d) + (if d.exp == 0 then "" else "." + Padded(Magnitude(d) % Pow10(d.exp), d.exp))
  }
}
