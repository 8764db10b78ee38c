/** JavaScript values as they reach the checkout handlers (a parsed JSON request
    body, a parsed gateway reply, a property that may be missing), and the few
    coercions the handlers apply to them: truthiness, property reads, `||`,
    destructuring defaults and the decimal text of a whole number. */
module Js {

  datatype Option<+T> = None | Some(value: T)

  /** A JavaScript value. Numbers are whole: fractions, NaN and the infinities
      are not part of this model. */
  datatype Value =
    | Undefined
    | Null
    | Bool(b: bool)
    | Num(n: int)
    | Str(s: string)
    | Arr(items: seq<Value>)
    | Obj(fields: map<string, Value>)

  /** The falsy values of JavaScript that a `Value` can hold. */
  const FalsyValues: set<Value> := {Undefined, Null, Bool(false), Num(0), Str("")}

  /** JavaScript truthiness: `!v` is true exactly when this is false, which is
      exactly for the five falsy values. */
  predicate Truthy(v: Value)
    ensures Truthy(v) <==> v !in FalsyValues
  {
    match v
    case Undefined => false
    case Null => false
    case Bool(b) => b
    case Num(n) => n != 0
    case Str(s) => s != ""
    case Arr(_) => true
    case Obj(_) => true
  }

  /** `a || b`: the left operand when it is truthy, otherwise the right one.
      The result is one of the operands, and truthy exactly when either is. */
  function Or(a: Value, b: Value): (r: Value)
    ensures r == a || r == b
    ensures Truthy(r) <==> Truthy(a) || Truthy(b)
    ensures Truthy(a) ==> r == a
    ensures !Truthy(a) ==> r == b
  {
    if Truthy(a) then a else b
  }

  /** A destructuring default `{ x = d } = obj`: only `undefined` is replaced,
      so every other value, `null` and falsy ones included, is kept. */
  function WithDefault(v: Value, d: Value): (r: Value)
    ensures v != Undefined ==> r == v
    ensures v == Undefined ==> r == d
    ensures r == Undefined <==> v == Undefined && d == Undefined
  {
    if v.Undefined? then d else v
  }

  predicate Nullish(v: Value) {
    v.Undefined? || v.Null?
  }

  /** The property read `v[key]`. Reading a property of `undefined` or `null`
      throws a TypeError, modelled as None; a missing own property reads as
      `undefined`. Only keys that no prototype supplies are read by the
      handlers, so primitives and arrays yield `undefined` for them. */
  function Prop(v: Value, key: string): (r: Option<Value>)
    ensures r.None? <==> Nullish(v)
    ensures v.Obj? && key in v.fields ==> r == Some(v.fields[key])
    ensures !Nullish(v) && !(v.Obj? && key in v.fields) ==> r == Some(Undefined)
  {
    match v
    case Undefined => None
    case Null => None
    case Obj(m) => Some(if key in m then m[key] else Undefined)
    case _ => Some(Undefined)
  }

  predicate IsDigit(c: char) {
    '0' <= c <= '9'
  }

  predicate IsDigits(s: string) {
    forall i :: 0 <= i < |s| ==> IsDigit(s[i])
  }

  /** A non-empty digit string without a superfluous leading zero. */
  predicate IsCanonicalDecimal(s: string) {
    |s| >= 1 && IsDigits(s) && (|s| > 1 ==> s[0] != '0')
  }

  function DigitChar(d: nat): (c: char)
    requires d < 10
    ensures IsDigit(c) && c as int - '0' as int == d
  {
    (d + '0' as int) as char
  }

  /** The text JavaScript gives a whole number below 10^21 in a template
      literal (`${n}`): its canonical decimal digits. */
  function DecimalString(n: nat): (s: string)
    ensures IsCanonicalDecimal(s)
    decreases n
  {
    if n < 10 then [DigitChar(n)] else DecimalString(n / 10) + [DigitChar(n % 10)]
  }

  /** The number a string of decimal digits denotes; leading zeros are allowed,
      as `Number("007")` is 7, and the empty string denotes 0, as `Number("")` does. */
  function DigitsValue(s: string): nat
    requires IsDigits(s)
    decreases |s|
  {
    if s == [] then 0 else 10 * DigitsValue(s[..|s| - 1]) + (s[|s| - 1] as int - '0' as int)
  }

  /** Reading back the decimal text of a number gives the number. */
  lemma {:induction false} DigitsValueOfDecimal(n: nat)
    ensures DigitsValue(DecimalString(n)) == n
    decreases n
  {
    if n >= 10 {
      var s := DecimalString(n);
      assert s[..|s| - 1] == DecimalString(n / 10);
      DigitsValueOfDecimal(n / 10);
    }
  }

  /** Two numbers have the same decimal text exactly when they are equal. */
  lemma DecimalStringInjective(m: nat, n: nat)
    ensures DecimalString(m) == DecimalString(n) <==> m == n
  {
    if DecimalString(m) == DecimalString(n) {
      DigitsValueOfDecimal(m);
      DigitsValueOfDecimal(n);
    }
  }

  lemma {:induction false} LeadingDigitPositive(s: string)
    requires IsDigits(s) && |s| >= 1 && s[0] != '0'
    ensures DigitsValue(s) >= 1
    decreases |s|
  {
    if |s| > 1 {
      var p := s[..|s| - 1];
      assert p[0] == s[0];
      LeadingDigitPositive(p);
    }
  }

  /** Every canonical digit string is the decimal text of the number it denotes,
      so DecimalString and DigitsValue are inverse bijections. */
  lemma {:induction false} DecimalOfDigitsValue(s: string)
    requires IsCanonicalDecimal(s)
    ensures DecimalString(DigitsValue(s)) == s
    decreases |s|
  {
    var last := s[|s| - 1] as int - '0' as int;
    if |s| == 1 {
      assert DigitsValue(s) == 10 * DigitsValue([]) + last;
      assert DecimalString(DigitsValue(s)) == [DigitChar(last)];
    } else {
      var p := s[..|s| - 1];
      assert p[0] == s[0];
      LeadingDigitPositive(p);
      DecimalOfDigitsValue(p);
      var v := DigitsValue(s);
      assert v == 10 * DigitsValue(p) + last;
      assert v / 10 == DigitsValue(p) && v % 10 == last;
      assert s == p + [s[|s| - 1]];
    }
  }

  /** `Number(s)` for a string: defined here for strings of decimal digits
      only (None marks any other text, whose coercion is not modelled). */
  function NumberOfString(s: string): (r: Option<int>)
    ensures r.Some? <==> IsDigits(s)
    ensures r.Some? ==> r.value >= 0 && r.value == DigitsValue(s)
  {
    if IsDigits(s) then Some(DigitsValue(s)) else None
  }
}
