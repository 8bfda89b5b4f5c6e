/** The part of JavaScript's value semantics that the recorder library relies
    on: truthiness, `isNaN`, template-string conversion and `parseInt`.
    Numbers are integers: fractional values, NaN and the infinities are not
    modelled as values. */
module Js {

  datatype Option<T> = None | Some(value: T)

  /** A JavaScript value, as far as the library inspects one. */
  datatype JsValue =
    | Undefined
    | Null
    | Bool(b: bool)
    | Number(n: int)
    | Str(s: string)
    | Object
    | Function

  /** ToBoolean (ECMA-262 section 7.1.2): what `if (v)` and `v && ...` test. */
  predicate Truthy(v: JsValue)
  {
    match v
    case Undefined => false
    case Null => false
    case Bool(b) => b
    case Number(n) => n != 0
    case Str(s) => s != ""
    case Object => true
    case Function => true
  }

  predicate IsDigit(c: char)
  {
    '0' <= c <= '9'
  }

  predicate AllDigits(s: string)
  {
    forall i :: 0 <= i < |s| ==> IsDigit(s[i])
  }

  function DigitChar(d: nat): (c: char)
    requires d < 10
    ensures IsDigit(c)
  {
    ('0' as int + d) as char
  }

  function DigitValue(c: char): (d: nat)
    requires IsDigit(c)
    ensures d < 10 && DigitChar(d) == c
  {
    c as int - '0' as int
  }

  /** ToNumber (ECMA-262 section 7.1.4), `None` standing for NaN. A string
      counts as numeric here when it is made of decimal digits only (the empty
      string is 0); the white space, signs, fractions, exponents and radix
      prefixes that StringToNumber also accepts are not modelled, and every
      object converts to NaN. */
  function ToNumber(v: JsValue): Option<int>
  {
    match v
    case Undefined => None
    case Null => Some(0)
    case Bool(b) => Some(if b then 1 else 0)
    case Number(n) => Some(n)
    case Str(s) => if AllDigits(s) then Some(DigitsValue(s)) else None
    case Object => None
    case Function => None
  }

  /** The global `isNaN(v)`. */
  predicate IsNaN(v: JsValue)
  {
    ToNumber(v).None?
  }

  /** `${n}` for a natural number: its decimal digits, most significant first. */
  function NatToString(n: nat): (s: string)
    ensures |s| >= 1 && AllDigits(s)
  {
    if n < 10 then [DigitChar(n)] else NatToString(n / 10) + [DigitChar(n % 10)]
  }

  /** `${n}` for an integer (Number::toString, ECMA-262 section 6.1.6.1.20). */
  function IntToString(n: int): (s: string)
    ensures |s| >= 1
    ensures (n < 0) == (s[0] == '-')
  {
    if n < 0 then "-" + NatToString(-n) else NatToString(n)
  }

  /** `${v}` for a value that `isNaN` accepts (ToString, ECMA-262 section 7.1.17). */
  function TemplateString(v: JsValue): string
    requires !IsNaN(v)
  {
    match v
    case Null => "null"
    case Bool(b) => if b then "true" else "false"
    case Number(n) => IntToString(n)
    case Str(s) => s
  }

  /** The number a string of decimal digits denotes. */
  function DigitsValue(s: string): nat
    requires AllDigits(s)
  {
    if s == [] then 0 else DigitsValue(s[..|s| - 1]) * 10 + DigitValue(s[|s| - 1])
  }

  /** The longest prefix of `s` made of decimal digits. */
  function LeadingDigits(s: string): (p: string)
    ensures p <= s && AllDigits(p)
    ensures |p| < |s| ==> !IsDigit(s[|p|])
  {
    if s != [] && IsDigit(s[0]) then [s[0]] + LeadingDigits(s[1..]) else []
  }

  /** `parseInt(s)` with radix 10 (ECMA-262 section 19.2.5), for strings with
      no leading white space, sign or `0x` prefix; `None` is NaN. */
  function ParseInt(s: string): Option<int>
  {
    var p := LeadingDigits(s);
    if p == [] then None else Some(DigitsValue(p))
  }

  lemma {:induction false} LeadingDigitsOfDigits(s: string)
    requires AllDigits(s)
    ensures LeadingDigits(s) == s
  {
    if s != [] {
      LeadingDigitsOfDigits(s[1..]);
    }
  }

  /** The digit prefix stops at the first character that is not a digit. */
  lemma {:induction false} LeadingDigitsOfPrefix(p: string, rest: string)
    requires AllDigits(p) && (rest == [] || !IsDigit(rest[0]))
    ensures LeadingDigits(p + rest) == p
  {
    if p == [] {
      assert p + rest == rest;
    } else {
      assert (p + rest)[1..] == p[1..] + rest;
      LeadingDigitsOfPrefix(p[1..], rest);
    }
  }

  lemma {:induction false} DigitsValueOfNatToString(n: nat)
    ensures DigitsValue(NatToString(n)) == n
  {
    if n >= 10 {
      DigitsValueOfNatToString(n / 10);
    }
  }

  /** `parseInt(`${n}`) == n`: parsing undoes rendering. */
  lemma ParseIntOfNatToString(n: nat)
    ensures ParseInt(NatToString(n)) == Some(n)
  {
    LeadingDigitsOfDigits(NatToString(n));
    DigitsValueOfNatToString(n);
  }

  /** Rendering is injective; a consequence of the round trip. */
  lemma IntToStringInjective(m: int, n: int)
    requires IntToString(m) == IntToString(n)
    ensures m == n
  {
    var r := IntToString(m);
    if m < 0 {
      assert n < 0;
      assert r == "-" + NatToString(-m) == "-" + NatToString(-n);
      assert NatToString(-m) == r[1..] == NatToString(-n);
      ParseIntOfNatToString(-m);
      ParseIntOfNatToString(-n);
    } else {
      assert n >= 0;
      ParseIntOfNatToString(m);
      ParseIntOfNatToString(n);
    }
  }
}
