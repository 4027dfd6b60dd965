/**
 * JavaScript values as the source sees them after `JSON.parse`: `undefined`,
 * `null`, booleans, numbers, strings, arrays and plain objects, with the
 * language's truthiness, the `??` and `||` operators, optional-chaining
 * property access and the `String(v)` conversion.
 *
 * Numbers are exact decimals `mantissa * 10^exponent`; binary floating point
 * rounding is not modelled.
 */
module Json {
  import Strings

  /** The number `mantissa * 10^exponent`. */
  datatype Decimal = Decimal(mantissa: int, exponent: int)

  datatype Value =
    | Undef
    | Null
    | Bool(b: bool)
    | Num(n: Decimal)
    | Str(s: string)
    | Arr(items: seq<Value>)
    | Obj(fields: map<string, Value>)

  /** The outcome of `JSON.parse`: a value, or the `SyntaxError` it throws with its message. */
  datatype ParseOutcome = Parsed(value: Value) | SyntaxError(message: string)

  function Pow10Nat(k: nat): (r: nat)
    ensures r >= 1
  {
    if k == 0 then 1 else 10 * Pow10Nat(k - 1)
  }

  function Pow10(e: int): (r: real)
    ensures r > 0.0
  {
    if e >= 0 then Pow10Nat(e) as real else 1.0 / (Pow10Nat(-e) as real)
  }

  /** The real number a decimal denotes. */
  function RealOf(d: Decimal): real {
    d.mantissa as real * Pow10(d.exponent)
  }

  lemma RealOfSign(d: Decimal)
    ensures RealOf(d) > 0.0 <==> d.mantissa > 0
    ensures RealOf(d) == 0.0 <==> d.mantissa == 0
  {
    var p := Pow10(d.exponent);
    if d.mantissa > 0 {
      assert d.mantissa as real * p > 0.0;
    } else if d.mantissa < 0 {
      assert (-d.mantissa) as real * p > 0.0;
    }
  }

  predicate IsNullish(v: Value) { v.Undef? || v.Null? }

  /** JavaScript truthiness (NaN is not representable). */
  predicate Truthy(v: Value) {
    match v
    case Undef => false
    case Null => false
    case Bool(b) => b
    case Num(d) => d.mantissa != 0
    case Str(s) => s != ""
    case Arr(_) => true
    case Obj(_) => true
  }

  /** `a ?? b`: falls through on `null` and `undefined` only. */
  function Coalesce(a: Value, b: Value): (r: Value)
    ensures IsNullish(a) ==> r == b
    ensures !IsNullish(a) ==> r == a
  {
    if IsNullish(a) then b else a
  }

  /** `a || b`: falls through on every falsy value. */
  function OrElse(a: Value, b: Value): (r: Value)
    ensures Truthy(a) ==> r == a
    ensures !Truthy(a) ==> r == b
  {
    if Truthy(a) then a else b
  }

  /** `vs[0] ?? vs[1] ?? ... ?? last`, evaluated left to right. */
  function FirstDefined(vs: seq<Value>, last: Value): (r: Value)
    ensures r == last || r in vs
    ensures !IsNullish(r) || r == last
  {
    if vs == [] then last else Coalesce(vs[0], FirstDefined(vs[1..], last))
  }

  /** The chain picks the leftmost value that is neither `null` nor `undefined`, else the default. */
  lemma {:induction false} FirstDefinedPicksLeftmost(vs: seq<Value>, last: Value, k: nat)
    requires k < |vs| && !IsNullish(vs[k])
    requires forall j :: 0 <= j < k ==> IsNullish(vs[j])
    ensures FirstDefined(vs, last) == vs[k]
  {
    if k > 0 {
      FirstDefinedPicksLeftmost(vs[1..], last, k - 1);
    }
  }

  /** When every candidate is `null` or `undefined` the chain yields its default. */
  lemma {:induction false} FirstDefinedAllNullish(vs: seq<Value>, last: Value)
    requires forall j :: 0 <= j < |vs| ==> IsNullish(vs[j])
    ensures FirstDefined(vs, last) == last
  {
    if vs != [] {
      FirstDefinedAllNullish(vs[1..], last);
    }
  }

  /** `v?.[key]` on a plain object; every other value (including null) yields `undefined`. */
  function Get(v: Value, key: string): (r: Value)
    ensures !v.Obj? ==> r == Undef
    ensures v.Obj? && key !in v.fields ==> r == Undef
  {
    if v.Obj? && key in v.fields then v.fields[key] else Undef
  }

  /** `v?.length`: arrays and strings have one, an object may carry a `length` key. */
  function JsLength(v: Value): Value {
    match v
    case Arr(xs) => Num(Decimal(|xs|, 0))
    case Str(s) => Num(Decimal(Strings.Utf16Length(s), 0))
    case Obj(m) => Get(v, "length")
    case _ => Undef
  }

  function Zeros(k: nat): (r: string)
    ensures |r| == k && forall i :: 0 <= i < k ==> r[i] == '0'
  {
    seq(k, _ => '0')
  }

  /** Removes trailing zero digits from a positive mantissa, raising the exponent to match. */
  function StripTrailingZeros(m: nat, e: int): (r: (nat, int))
    requires m > 0
    ensures r.0 > 0 && r.0 % 10 != 0
    decreases m
  {
    if m % 10 == 0 then StripTrailingZeros(m / 10, e + 1) else (m, e)
  }

  /**
   * Number::toString for a positive decimal: with `k` significant digits `ds`
   * and decimal point position `n`, plain notation while `n <= 21`, a leading
   * `0.` for `-6 < n <= 0`, exponent notation otherwise.
   */
  function PositiveText(m: nat, e: int): (r: string)
    requires m > 0
    ensures forall i :: 0 <= i < |r| ==> InNumberAlphabet(r[i])
  {
    var (s, e0) := StripTrailingZeros(m, e);
    var ds := Strings.NatToString(s);
    var k := |ds|;
    var n := k + e0;
    if k <= n <= 21 then ds + Zeros(n - k)
    else if 0 < n <= 21 then ds[..n] + "." + ds[n..]
    else if -6 < n <= 0 then "0." + Zeros(-n) + ds
    else
      var ex := n - 1;
      ds[..1] + (if k > 1 then "." + ds[1..] else "") + "e" + (if ex >= 0 then "+" else "-")
      + Strings.NatToString(if ex >= 0 then ex else -ex)
  }

  predicate InNumberAlphabet(c: char) {
    Strings.IsDigit(c) || c == '.' || c == '-' || c == '+' || c == 'e'
  }

  /** `String(n)` for a number. */
  function NumberText(d: Decimal): (r: string)
    ensures |r| >= 1
    ensures forall i :: 0 <= i < |r| ==> InNumberAlphabet(r[i])
  {
    if d.mantissa == 0 then "0"
    else if d.mantissa < 0 then "-" + PositiveText(-d.mantissa, d.exponent)
    else PositiveText(d.mantissa, d.exponent)
  }

  /** The rendering of a number has no white space, so trimming it changes nothing. */
  lemma NumberTextTrimmed(d: Decimal)
    ensures Strings.Trim(NumberText(d)) == NumberText(d)
  {
    var r := NumberText(d);
    forall i | 0 <= i < |r| ensures !Strings.IsSpace(r[i]) {
      assert InNumberAlphabet(r[i]);
    }
    Strings.TrimNoSpace(r);
  }

  /** `String(v)`: arrays join their elements with `,`, rendering null and undefined elements as empty. */
  function ToJsString(v: Value): string
    decreases v
  {
    match v
    case Undef => "undefined"
    case Null => "null"
    case Bool(b) => if b then "true" else "false"
    case Num(d) => NumberText(d)
    case Str(s) => s
    case Arr(xs) =>
      Strings.Join(seq(|xs|, i requires 0 <= i < |xs| => if IsNullish(xs[i]) then "" else ToJsString(xs[i])), ",")
    case Obj(_) => "[object Object]"
  }

  /**
   * The `TypeError` that `String(v)` (or using `v` as a property key) throws
   * for an object whose own `toString` property hides the inherited method: a
   * JSON value is never callable, and `valueOf` returns the object itself.
   */
  const ConversionError := "Cannot convert object to primitive value"

  /**
   * `String(v)` returns instead of throwing: no object on the way has an own
   * `toString` key (an array converts its elements other than null and
   * undefined). `ToJsString` is the result only where this holds.
   */
  predicate Convertible(v: Value)
    decreases v
  {
    match v
    case Arr(xs) => forall i :: 0 <= i < |xs| ==> IsNullish(xs[i]) || Convertible(xs[i])
    case Obj(m) => "toString" !in m
    case _ => true
  }

  /** `String(v ?? "")` returns instead of throwing. */
  predicate TextConvertible(v: Value) {
    Convertible(Coalesce(v, Str("")))
  }

  /** Primitives always convert; an object with an own `toString` key never does, on its own or inside an array. */
  lemma ConvertibleCases(v: Value, m: map<string, Value>)
    ensures !v.Arr? && !v.Obj? ==> Convertible(v) && TextConvertible(v)
    ensures "toString" in m ==> !Convertible(Obj(m)) && !TextConvertible(Obj(m))
    ensures "toString" in m ==> !Convertible(Arr([v, Obj(m)])) && !TextConvertible(Arr([v, Obj(m)]))
  {
    if "toString" in m {
      assert Arr([v, Obj(m)]).items[1] == Obj(m);
    }
  }

  /** `String(v ?? "")`, the idiom the source uses to read a field as text. */
  function TextOf(v: Value): string {
    ToJsString(Coalesce(v, Str("")))
  }

  lemma TextOfStr(s: string)
    ensures TextOf(Str(s)) == s
  {
  }
}
