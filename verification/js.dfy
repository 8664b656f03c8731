/**
 The few JavaScript value semantics the console's handlers rely on: values that may be
 null/undefined, truthiness of strings, the `||` fallback, integer-to-text conversion and
 the built-in `parseInt` (no radix argument).
 */
module Js {

  /** A value that may be `null`/`undefined` (`None`) or present (`Some`). */
  datatype Option<+T> = None | Some(value: T)

  /** JavaScript truthiness of a string that may be missing: null, undefined and "" are falsy. */
  predicate Truthy(s: Option<string>) {
    s.Some? && s.value != ""
  }

  /** `a || b` where `a` may be missing and `b` is a string literal. */
  function Or(a: Option<string>, b: string): string {
    if Truthy(a) then a.value else b
  }

  /** `a || fallback` on two present strings. */
  function OrText(a: string, fallback: string): string {
    if a != "" then a else fallback
  }

  /** The string a template literal `${x}` produces for a value that may be null. */
  function Interpolate(x: Option<string>): string {
    match x
    case Some(v) => v
    case None => "null"
  }

  // ---------------------------------------------------------------------------
  // Integer to text (Number.prototype.toString for integers below 1e21)
  // ---------------------------------------------------------------------------

  function DigitChar(d: nat): char
    requires d < 10
  {
    "0123456789"[d]
  }

  /** Decimal text of a natural number, most significant digit first, no leading zeros. */
  function NatText(n: nat): (r: string)
    ensures 1 <= |r|
    ensures forall i :: 0 <= i < |r| ==> '0' <= r[i] <= '9'
    ensures r[0] == '0' ==> n == 0
  {
    if n < 10 then [DigitChar(n)] else NatText(n / 10) + [DigitChar(n % 10)]
  }

  /** Decimal text of an integer, with a leading '-' when negative. */
  function IntText(n: int): string {
    if n < 0 then "-" + NatText(-n) else NatText(n)
  }

  // ---------------------------------------------------------------------------
  // parseInt(s) with no radix
  // ---------------------------------------------------------------------------

  /** JavaScript StrWhiteSpaceChar: WhiteSpace (including every Zs space) and LineTerminator. */
  predicate IsSpace(c: char) {
    || c == ' ' || c == '\t' || c == '\n' || c == '\r'
    || c == '\U{000B}' || c == '\U{000C}' || c == '\U{00A0}' || c == '\U{FEFF}'
    || c == '\U{1680}' || ('\U{2000}' <= c <= '\U{200A}')
    || c == '\U{2028}' || c == '\U{2029}' || c == '\U{202F}' || c == '\U{205F}' || c == '\U{3000}'
  }

  /** The value of `c` as a digit in `radix` (10 or 16), if it is one. */
  function Digit(c: char, radix: nat): (r: Option<nat>)
    ensures r.Some? ==> r.value < radix
  {
    if '0' <= c <= '9' && (c as int - '0' as int) < radix then Some(c as int - '0' as int)
    else if radix == 16 && 'a' <= c <= 'f' then Some(c as int - 'a' as int + 10)
    else if radix == 16 && 'A' <= c <= 'F' then Some(c as int - 'A' as int + 10)
    else None
  }

  predicate AllDigits(s: string, radix: nat) {
    forall i :: 0 <= i < |s| ==> Digit(s[i], radix).Some?
  }

  /** Length of the longest prefix of `s` made of digits in `radix`. */
  function DigitRun(s: string, radix: nat): (n: nat)
    ensures n <= |s|
    ensures AllDigits(s[..n], radix)
    ensures n < |s| ==> Digit(s[n], radix).None?
  {
    if |s| > 0 && Digit(s[0], radix).Some? then
      var n := 1 + DigitRun(s[1..], radix);
      assert forall i :: 1 <= i < n ==> s[..n][i] == s[1..][..n - 1][i - 1];
      n
    else 0
  }

  /** Positional value of a digit string, most significant digit first. */
  function Value(s: string, radix: nat): nat
    requires AllDigits(s, radix)
  {
    if |s| == 0 then 0
    else Value(s[..|s| - 1], radix) * radix + Digit(s[|s| - 1], radix).value
  }

  /** The digits after the sign: a hexadecimal run after a `0x`/`0X` prefix, else a decimal run. */
  function ParseUnsigned(u: string): Option<nat> {
    var hex := |u| >= 2 && u[0] == '0' && (u[1] == 'x' || u[1] == 'X');
    var radix := if hex then 16 else 10;
    var body := if hex then u[2..] else u;
    var n := DigitRun(body, radix);
    if n == 0 then None else Some(Value(body[..n], radix))
  }

  /**
   `parseInt(s)`: skip leading white space, take an optional sign, then read the digits
   as `ParseUnsigned` does; no digits gives NaN (`None`).
   */
  function ParseInt(s: string): Option<int>
    decreases |s|
  {
    if |s| > 0 && IsSpace(s[0]) then ParseInt(s[1..])
    else
      var negative := |s| > 0 && s[0] == '-';
      var u := if |s| > 0 && (s[0] == '-' || s[0] == '+') then s[1..] else s;
      match ParseUnsigned(u)
      case None => None
      case Some(v) => Some(if negative then -(v as int) else v)
  }

  // ---------------------------------------------------------------------------
  // Round trip
  // ---------------------------------------------------------------------------

  lemma {:induction false} DigitRunOfDigits(s: string, radix: nat)
    requires AllDigits(s, radix)
    ensures DigitRun(s, radix) == |s|
    decreases |s|
  {
    if |s| > 0 {
      DigitRunOfDigits(s[1..], radix);
    }
  }

  lemma {:induction false} ValueOfNatText(n: nat)
    ensures AllDigits(NatText(n), 10)
    ensures Value(NatText(n), 10) == n
    decreases n
  {
    var t := NatText(n);
    if n >= 10 {
      ValueOfNatText(n / 10);
      var p := NatText(n / 10);
      assert t == p + [DigitChar(n % 10)];
      assert t[..|t| - 1] == p;
    }
  }

  lemma ParseUnsignedNatText(m: nat)
    ensures ParseUnsigned(NatText(m)) == Some(m)
  {
    var d := NatText(m);
    ValueOfNatText(m);
    DigitRunOfDigits(d, 10);
    assert d[..|d|] == d;
  }

  /** Reading back the text of an integer gives the integer: parseInt(String(n)) == n. */
  lemma ParseIntText(n: int)
    ensures ParseInt(IntText(n)) == Some(n)
  {
    var m: nat := if n < 0 then -n else n;
    ParseUnsignedNatText(m);
    var s := IntText(n);
    assert !IsSpace(s[0]);
    if n < 0 {
      assert s[1..] == NatText(m);
    }
  }
}
