/** The two JavaScript number/string conversions the toggle relies on:
  * `String(n)` for an integer `n`, and `parseInt(s, 10)`. */
module JsNumbers {
  import opened Wrappers

  predicate IsDigit(c: char) {
    '0' <= c <= '9'
  }

  predicate AllDigits(s: string) {
    forall i :: 0 <= i < |s| ==> IsDigit(s[i])
  }

  function DigitChar(d: nat): (c: char)
    requires d < 10
    ensures IsDigit(c)
  {
    (48 + d) as char
  }

  function DigitValue(c: char): (d: nat)
    requires IsDigit(c)
    ensures d < 10 && DigitChar(d) == c
  {
    c as int - 48
  }

  /** The decimal digits of `n`, most significant first, with no leading zero. */
  function Digits(n: nat): (s: string)
    ensures s != [] && AllDigits(s)
    decreases n
  {
    if n < 10 then [DigitChar(n)] else Digits(n / 10) + [DigitChar(n % 10)]
  }

  /** `String(n)` for an integer `n` of magnitude below 10^21 (larger ones switch to
    * exponent notation, which this model leaves out). */
  function IntToString(n: int): string {
    if n < 0 then "-" + Digits(-n) else Digits(n)
  }

  /** The value of a string of decimal digits. */
  function DigitsValue(s: string): nat
    requires AllDigits(s)
    decreases |s|
  {
    if s == [] then 0 else DigitsValue(s[..|s| - 1]) * 10 + DigitValue(s[|s| - 1])
  }

  /** The longest prefix of `s` made of decimal digits. */
  function LeadingDigits(s: string): (p: string)
    ensures AllDigits(p) && p <= s
    ensures |p| < |s| ==> !IsDigit(s[|p|])
    decreases |s|
  {
    if s == [] || !IsDigit(s[0]) then [] else [s[0]] + LeadingDigits(s[1..])
  }

  /** ECMAScript's WhiteSpace and LineTerminator characters, which `parseInt` skips. */
  predicate IsJsSpace(c: char) {
    c == '\t' || c == '\n' || c == '\U{B}' || c == '\U{C}' || c == '\r' || c == ' '
    || c == '\U{A0}' || c == '\U{1680}' || ('\U{2000}' <= c <= '\U{200A}')
    || c == '\U{2028}' || c == '\U{2029}' || c == '\U{202F}' || c == '\U{205F}'
    || c == '\U{3000}' || c == '\U{FEFF}'
  }

  function TrimStart(s: string): (t: string)
    ensures |t| <= |s| && t == s[|s| - |t|..]
    ensures t == [] || !IsJsSpace(t[0])
    ensures forall i :: 0 <= i < |s| - |t| ==> IsJsSpace(s[i])
    decreases |s|
  {
    if s != [] && IsJsSpace(s[0]) then
      var t := TrimStart(s[1..]);
      assert forall i :: 1 <= i < |s| - |t| ==> s[i] == s[1..][i - 1];
      t
    else s
  }

  /** `parseInt(s, 10)`: skip leading white space, read an optional sign, then the
    * longest run of decimal digits; `None` stands for NaN (no digit there). Digits
    * after the run are ignored. */
  function ParseInt10(s: string): Option<int> {
    ParseSigned(TrimStart(s))
  }

  /** The part of `parseInt` after the white space: optional sign, then digits. */
  function ParseSigned(t: string): Option<int> {
    var negative := t != [] && t[0] == '-';
    var unsigned := if t != [] && (t[0] == '-' || t[0] == '+') then t[1..] else t;
    var ds := LeadingDigits(unsigned);
    if ds == [] then None
    else
      var magnitude: int := DigitsValue(ds);
      Some(if negative then -magnitude else magnitude)
  }

  lemma {:induction false} DigitsValueOfDigits(n: nat)
    ensures DigitsValue(Digits(n)) == n
    decreases n
  {
    if n >= 10 {
      var s := Digits(n / 10) + [DigitChar(n % 10)];
      assert s[..|s| - 1] == Digits(n / 10);
      DigitsValueOfDigits(n / 10);
    }
  }

  lemma {:induction false} LeadingDigitsStopsAt(ds: string, rest: string)
    requires AllDigits(ds)
    requires rest == [] || !IsDigit(rest[0])
    ensures LeadingDigits(ds + rest) == ds
    decreases |ds|
  {
    if ds != [] {
      assert (ds + rest)[1..] == ds[1..] + rest;
      LeadingDigitsStopsAt(ds[1..], rest);
    }
  }

  lemma TrimStartKeeps(s: string)
    requires s != [] && !IsJsSpace(s[0])
    ensures TrimStart(s) == s
  {
  }

  lemma SignedUnsigned(t: string)
    requires t != [] && IsDigit(t[0])
    ensures ParseSigned(t) == Some(DigitsValue(LeadingDigits(t)) as int)
  {
  }

  lemma SignedNegative(t: string)
    requires |t| >= 2 && t[0] == '-' && IsDigit(t[1])
    ensures ParseSigned(t) == Some(-(DigitsValue(LeadingDigits(t[1..])) as int))
  {
  }

  /** A run of digits, not followed by another digit, parses to its value. */
  lemma ParseDigits(ds: string, rest: string, v: nat)
    requires AllDigits(ds) && ds != [] && DigitsValue(ds) == v
    requires rest == [] || !IsDigit(rest[0])
    ensures ParseInt10(ds + rest) == Some(v)
  {
    var s := ds + rest;
    assert s[0] == ds[0];
    TrimStartKeeps(s);
    SignedUnsigned(s);
    LeadingDigitsStopsAt(ds, rest);
  }

  /** A minus sign before such a run negates its value. */
  lemma ParseNegatedDigits(ds: string, rest: string, v: nat)
    requires AllDigits(ds) && ds != [] && DigitsValue(ds) == v
    requires rest == [] || !IsDigit(rest[0])
    ensures ParseInt10("-" + ds + rest) == Some(-(v as int))
  {
    var s := "-" + ds + rest;
    assert s[0] == '-' && s[1..] == ds + rest && s[1] == ds[0];
    TrimStartKeeps(s);
    SignedNegative(s);
    LeadingDigitsStopsAt(ds, rest);
  }

  /** `parseInt(String(n) + rest, 10)` is `n` when `rest` does not continue the digits:
    * the toggle's string value of an id parses back to the same id. */
  lemma ParseIntOfString(n: int, rest: string)
    requires rest == [] || !IsDigit(rest[0])
    ensures ParseInt10(IntToString(n) + rest) == Some(n)
  {
    if n < 0 {
      var m: nat := -n;
      assert IntToString(n) + rest == "-" + Digits(m) + rest;
      DigitsValueOfDigits(m);
      ParseNegatedDigits(Digits(m), rest, m);
    } else {
      DigitsValueOfDigits(n);
      ParseDigits(Digits(n), rest, n);
    }
  }

  /** Distinct integers have distinct decimal strings. */
  lemma IntToStringInjective(a: int, b: int)
    ensures IntToString(a) == IntToString(b) ==> a == b
  {
    ParseIntOfString(a, "");
    ParseIntOfString(b, "");
    assert IntToString(a) + "" == IntToString(a);
    assert IntToString(b) + "" == IntToString(b);
  }
}
