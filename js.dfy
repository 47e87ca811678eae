/**
 * JavaScript values as the component code sees them, and the handful of
 * language operations the components apply to them: `typeof`, truthiness,
 * `||`, optional property access and conversion to a string (used for
 * computed class names and for `${n}px` style values).
 *
 * Numbers are modelled as integers; floating point is not part of this model.
 */
module Js {

  datatype Option<+T> = None | Some(value: T)

  /** A JavaScript value. A function value is identified by an opaque id. */
  datatype JsValue =
    | Undefined
    | Null
    | Bool(b: bool)
    | Num(n: int)
    | Str(s: string)
    | Arr(items: seq<JsValue>)
    | Obj(fields: map<string, JsValue>)
    | Fn(id: nat)

  /** The result of the `typeof` operator. */
  function TypeOf(v: JsValue): (r: string)
  {
    match v
    case Undefined => "undefined"
    case Null => "object"
    case Bool(_) => "boolean"
    case Num(_) => "number"
    case Str(_) => "string"
    case Arr(_) => "object"
    case Obj(_) => "object"
    case Fn(_) => "function"
  }

  /** `typeof v === 'object' && v !== null`: exactly the arrays and plain objects. */
  predicate IsObject(v: JsValue)
  {
    TypeOf(v) == "object" && v != Null
  }

  /** JavaScript truthiness (NaN is not modelled). */
  predicate Truthy(v: JsValue)
  {
    match v
    case Undefined => false
    case Null => false
    case Bool(b) => b
    case Num(n) => n != 0
    case Str(s) => s != ""
    case Arr(_) => true
    case Obj(_) => true
    case Fn(_) => true
  }

  /** `a || b`: the first operand if it is truthy, otherwise the second. */
  function Or(a: JsValue, b: JsValue): (r: JsValue)
    ensures r == a || r == b
    ensures Truthy(r) <==> Truthy(a) || Truthy(b)
  {
    if Truthy(a) then a else b
  }

  /**
   * `v?.name` on the values the model reads fields of: the field of an object
   * that holds it, and undefined otherwise. JavaScript also finds properties
   * on primitives (`"ab"?.length` is 2); the model does not, which agrees
   * with JavaScript for the names read here (`onClick`).
   */
  function Member(v: JsValue, name: string): (r: JsValue)
  {
    if v.Obj? && name in v.fields then v.fields[name] else Undefined
  }

  // ---------------------------------------------------------------------------
  // Decimal notation

  predicate IsDigit(c: char)
  {
    '0' <= c <= '9'
  }

  predicate AllDigits(s: string)
  {
    forall i :: 0 <= i < |s| ==> IsDigit(s[i])
  }

  function DigitChar(d: nat): (c: char)
    requires d < 10
    ensures IsDigit(c)
  {
    ('0' as int + d) as char
  }

  function DigitValue(c: char): (d: nat)
    requires IsDigit(c)
    ensures d < 10 && DigitChar(d) == c
  {
    c as int - '0' as int
  }

  /** Decimal notation of a natural number, without leading zeros. */
  function NatToString(n: nat): (r: string)
    ensures |r| >= 1 && AllDigits(r)
    ensures |r| > 1 ==> r[0] != '0'
    decreases n
  {
    if n < 10 then [DigitChar(n)] else NatToString(n / 10) + [DigitChar(n % 10)]
  }

  /** The value of a string of decimal digits. */
  function ParseNat(s: string): (r: nat)
    requires AllDigits(s)
    decreases |s|
  {
    if s == [] then 0 else ParseNat(s[..|s| - 1]) * 10 + DigitValue(s[|s| - 1])
  }

  /** Reading back the decimal notation gives the number. */
  lemma {:induction false} ParseNatToString(n: nat)
    ensures ParseNat(NatToString(n)) == n
    decreases n
  {
    var r := NatToString(n);
    if n >= 10 {
      assert r[..|r| - 1] == NatToString(n / 10);
      ParseNatToString(n / 10);
    }
  }

  /** `String(n)` for an integer-valued number. */
  function IntToString(n: int): (r: string)
  {
    if n < 0 then "-" + NatToString(-n) else NatToString(n)
  }

  /**
   * The text of an integer has a minus sign exactly when it is negative, and
   * the digits after it read back as its magnitude.
   */
  lemma IntToStringReadsBack(n: int)
    ensures var r := IntToString(n);
      |r| >= 1 && (r[0] == '-' <==> n < 0)
      && (n < 0 ==> AllDigits(r[1..]) && ParseNat(r[1..]) == -n)
      && (n >= 0 ==> AllDigits(r) && ParseNat(r) == n)
  {
    if n < 0 {
      assert IntToString(n)[1..] == NatToString(-n);
      ParseNatToString(-n);
    } else {
      ParseNatToString(n);
    }
  }

  /** The longest prefix of `s` made of digits. */
  function LeadingDigits(s: string): (r: string)
    ensures r <= s && AllDigits(r)
    ensures |r| < |s| ==> !IsDigit(s[|r|])
    decreases |s|
  {
    if s == [] || !IsDigit(s[0]) then [] else [s[0]] + LeadingDigits(s[1..])
  }

  /** The digits in front of a non-digit are exactly the leading digits. */
  lemma {:induction false} LeadingDigitsOfConcat(d: string, rest: string)
    requires AllDigits(d)
    requires rest == [] || !IsDigit(rest[0])
    ensures LeadingDigits(d + rest) == d
    decreases |d|
  {
    if d != [] {
      assert (d + rest)[1..] == d[1..] + rest;
      LeadingDigitsOfConcat(d[1..], rest);
    }
  }

  // ---------------------------------------------------------------------------
  // Conversion to a string (property keys, template literals)

  /** `String(v)`; a function's source text is not modelled and reads "function". */
  function ToStr(v: JsValue): (r: string)
    decreases v, 1
  {
    match v
    case Undefined => "undefined"
    case Null => "null"
    case Bool(b) => if b then "true" else "false"
    case Num(n) => IntToString(n)
    case Str(s) => s
    case Arr(_) => JoinFrom(v, 0)
    case Obj(_) => "[object Object]"
    case Fn(_) => "function"
  }

  /** `Array.prototype.join(',')` from index `from` on; null and undefined give "". */
  function JoinFrom(v: JsValue, from: nat): (r: string)
    requires v.Arr? && from <= |v.items|
    decreases v, 0, |v.items| - from
  {
    if from == |v.items| then ""
    else
      var item := v.items[from];
      var text := if item == Undefined || item == Null then "" else ToStr(item);
      if from + 1 == |v.items| then text else text + "," + JoinFrom(v, from + 1)
  }
}
