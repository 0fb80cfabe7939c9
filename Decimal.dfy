/** Decimal numerals: how the results label writes a count, and the part of
    `Number.parseInt(text, 10)` the max-time field relies on. */
module Decimal {
  import opened Text

  /** What `parseInt` gives back: an integer, or NaN when no digit follows
      the optional sign. */
  datatype Parsed = Number(value: int) | NaN

  predicate IsDigit(c: char) {
    '0' <= c <= '9'
  }

  predicate AllDigits(s: string) {
    forall i :: 0 <= i < |s| ==> IsDigit(s[i])
  }

  function DigitChar(d: nat): (c: char)
    requires d < 10
    ensures IsDigit(c) && c as int - '0' as int == d
  {
    ('0' as int + d) as char
  }

  function DigitValue(c: char): (d: nat)
    requires IsDigit(c)
    ensures d < 10 && DigitChar(d) == c
  {
    c as int - '0' as int
  }

  /** The decimal numeral of `n`, as template literals print a count. */
  function ShowNat(n: nat): (s: string)
    ensures s != [] && AllDigits(s)
    ensures |s| > 1 ==> s[0] != '0'
  {
    if n < 10 then [DigitChar(n)] else ShowNat(n / 10) + [DigitChar(n % 10)]
  }

  /** The decimal numeral of an integer, with a minus sign when negative. */
  function ShowInt(n: int): string {
    if n < 0 then "-" + ShowNat(-n) else ShowNat(n)
  }

  /** The longest prefix of `s` made of decimal digits. */
  function LeadingDigits(s: string): (ds: string)
    ensures |ds| <= |s| && ds == s[..|ds|] && AllDigits(ds)
    ensures |ds| < |s| ==> !IsDigit(s[|ds|])
  {
    if s != [] && IsDigit(s[0]) then [s[0]] + LeadingDigits(s[1..]) else []
  }

  /** The value of a string of digits, read most significant digit first. */
  function DigitsValue(ds: string): nat
    requires AllDigits(ds)
  {
    if ds == [] then 0 else DigitsValue(ds[..|ds| - 1]) * 10 + DigitValue(ds[|ds| - 1])
  }

  /** `Number.parseInt(s, 10)`: leading white space is skipped, then an
      optional sign, then the longest run of decimal digits; anything after
      it is ignored, and no digit right after the optional sign gives NaN. */
  function ParseInt(s: string): Parsed {
    var t := TrimStart(s);
    var negative := t != [] && t[0] == '-';
    var body := if t != [] && (t[0] == '-' || t[0] == '+') then t[1..] else t;
    var ds := LeadingDigits(body);
    if ds == [] then NaN
    else if negative then Number(-(DigitsValue(ds) as int))
    else Number(DigitsValue(ds))
  }

  /** Text that starts with neither white space, a sign nor a digit is not
      a number. */
  lemma ParseIntNonNumeric(t: string)
    requires t != [] && !IsWhiteSpace(t[0]) && !IsDigit(t[0]) && t[0] != '-' && t[0] != '+'
    ensures ParseInt(t) == NaN
  {
    assert [] + t == t;
    TrimStartSkips([], t);
  }

  /** Reading a numeral back gives the number it was printed from. */
  lemma {:induction false} DigitsValueShowNat(n: nat)
    ensures DigitsValue(ShowNat(n)) == n
    decreases n
  {
    var s := ShowNat(n);
    if n >= 10 {
      DigitsValueShowNat(n / 10);
      assert s[..|s| - 1] == ShowNat(n / 10);
    }
  }

  /** The leading digit run stops at the first character that is not a digit. */
  lemma {:induction false} LeadingDigitsStop(ds: string, rest: string)
    requires AllDigits(ds)
    requires rest == [] || !IsDigit(rest[0])
    ensures LeadingDigits(ds + rest) == ds
  {
    if ds != [] {
      assert (ds + rest)[1..] == ds[1..] + rest;
      LeadingDigitsStop(ds[1..], rest);
    } else {
      assert ds + rest == rest;
    }
  }

  /** A printed numeral followed by anything that does not start with a digit
      parses back to the number. */
  lemma {:induction false} ParseIntShowNat(n: nat, rest: string)
    requires rest == [] || !IsDigit(rest[0])
    ensures ParseInt(ShowNat(n) + rest) == Number(n)
  {
    var s := ShowNat(n) + rest;
    assert s[0] == ShowNat(n)[0];
    assert IsDigit(s[0]) && !IsWhiteSpace(s[0]);
    assert TrimStart(s) == s;
    assert s[0] != '-' && s[0] != '+';
    LeadingDigitsStop(ShowNat(n), rest);
    DigitsValueShowNat(n);
  }

  /** A minus sign before a numeral gives the negated number. */
  lemma ParseIntMinus(m: nat)
    ensures ParseInt("-" + ShowNat(m)) == Number(-(m as int))
  {
    var s := "-" + ShowNat(m);
    assert s[0] == '-' && !IsWhiteSpace(s[0]);
    assert [] + s == s;
    TrimStartSkips([], s);
    assert s[1..] == ShowNat(m) + [];
    LeadingDigitsStop(ShowNat(m), []);
    DigitsValueShowNat(m);
  }

  /** `parseInt` inverts the printing of every integer. */
  lemma {:induction false} ParseIntShowInt(n: int)
    ensures ParseInt(ShowInt(n)) == Number(n)
  {
    if n < 0 {
      ParseIntMinus(-n);
    } else {
      assert ShowNat(n) + [] == ShowNat(n);
      ParseIntShowNat(n, []);
    }
  }
}
