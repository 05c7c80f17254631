/**
 * PHP's `(int)` cast of a string, as `getMasterPid` applies it to the
 * contents of the PID file: optional leading whitespace, an optional sign,
 * then the longest run of decimal digits; anything else reads as 0.
 * `Decimal` is the text a server writes for its own PID, and the round trip
 * `CastToInt(Decimal(n)) == n` is what makes a written PID readable again.
 */
module IntCast {

  predicate IsDigit(c: char) { '0' <= c <= '9' }

  /** The whitespace PHP skips before a numeric string: space, \t, \n, \r, \v and \f. */
  predicate IsSpace(c: char) {
    c == ' ' || c == '\t' || c == '\n' || c == '\r' || c == 11 as char || c == 12 as char
  }

  predicate IsSign(c: char) { c == '-' || c == '+' }

  predicate AllDigits(s: string) { forall i :: 0 <= i < |s| ==> IsDigit(s[i]) }

  function DigitValue(c: char): (d: nat)
    requires IsDigit(c)
    ensures d < 10
  {
    c as int - '0' as int
  }

  function DigitChar(d: nat): (c: char)
    requires d < 10
    ensures IsDigit(c) && DigitValue(c) == d
  {
    ('0' as int + d) as char
  }

  /** The number a string of decimal digits denotes, most significant digit first. */
  function DigitsValue(ds: string): nat
    requires AllDigits(ds)
  {
    if ds == [] then 0 else DigitsValue(ds[..|ds| - 1]) * 10 + DigitValue(ds[|ds| - 1])
  }

  /** The longest prefix of `s` made of decimal digits. */
  function LeadingDigits(s: string): (ds: string)
    ensures AllDigits(ds)
    ensures ds <= s
    ensures |ds| < |s| ==> !IsDigit(s[|ds|])
  {
    if s == [] || !IsDigit(s[0]) then [] else [s[0]] + LeadingDigits(s[1..])
  }

  /** `s` without its leading whitespace. */
  function SkipSpace(s: string): (t: string)
    ensures |t| <= |s| && t == s[|s| - |t|..]
    ensures forall i :: 0 <= i < |s| - |t| ==> IsSpace(s[i])
    ensures t != [] ==> !IsSpace(t[0])
  {
    if s != [] && IsSpace(s[0]) then
      var rest := SkipSpace(s[1..]);
      assert forall i :: 0 < i < |s| - |rest| ==> s[i] == s[1..][i - 1];
      rest
    else
      s
  }

  /** PHP's `(int)` applied to a string (without the 64-bit saturation). */
  function CastToInt(s: string): (n: int)
    ensures n != 0 ==> HasNumericPrefix(s)
    ensures n < 0 ==> SkipSpace(s) != [] && SkipSpace(s)[0] == '-'
  {
    var t := SkipSpace(s);
    if t != [] && IsSign(t[0]) then
      var magnitude: int := DigitsValue(LeadingDigits(t[1..]));
      if t[0] == '-' then -magnitude else magnitude
    else
      DigitsValue(LeadingDigits(t))
  }

  /** True when, after the leading whitespace and an optional sign, a digit follows. */
  predicate HasNumericPrefix(s: string) {
    var t := SkipSpace(s);
    t != [] && (IsDigit(t[0]) || (IsSign(t[0]) && |t| > 1 && IsDigit(t[1])))
  }

  /** The decimal text of `n`, without sign or leading zeros. */
  function Decimal(n: nat): (s: string)
    ensures s != [] && AllDigits(s)
    ensures n > 0 ==> s[0] != '0'
  {
    if n < 10 then [DigitChar(n)] else Decimal(n / 10) + [DigitChar(n % 10)]
  }

  lemma {:induction false} DigitsValueOfDecimal(n: nat)
    ensures DigitsValue(Decimal(n)) == n
  {
    var s := Decimal(n);
    if n >= 10 {
      assert s[..|s| - 1] == Decimal(n / 10);
      DigitsValueOfDecimal(n / 10);
    }
  }

  /** The digit run of `ds + rest` is `ds` when `rest` does not continue it. */
  lemma {:induction false} DigitRunEndsAtNonDigit(ds: string, rest: string)
    requires AllDigits(ds)
    requires rest == [] || !IsDigit(rest[0])
    ensures LeadingDigits(ds + rest) == ds
  {
    if ds == [] {
      assert ds + rest == rest;
    } else {
      assert (ds + rest)[0] == ds[0];
      assert (ds + rest)[1..] == ds[1..] + rest;
      DigitRunEndsAtNonDigit(ds[1..], rest);
    }
  }

  /** A PID written in decimal, optionally followed by a non-digit (a newline, say), reads back as itself. */
  lemma CastOfDecimal(n: nat, rest: string)
    requires rest == [] || !IsDigit(rest[0])
    ensures CastToInt(Decimal(n) + rest) == n
  {
    var s := Decimal(n) + rest;
    assert s[0] == Decimal(n)[0];
    assert !IsSpace(s[0]) && !IsSign(s[0]);
    assert SkipSpace(s) == s;
    DigitRunEndsAtNonDigit(Decimal(n), rest);
    DigitsValueOfDecimal(n);
  }

  lemma CastOfNegativeDecimal(n: nat)
    ensures CastToInt("-" + Decimal(n)) == -(n as int)
  {
    var d := Decimal(n);
    var s := "-" + d;
    assert s[0] == '-' && !IsSpace(s[0]);
    assert SkipSpace(s) == s;
    assert s[1..] == d + [];
    DigitRunEndsAtNonDigit(d, []);
    assert LeadingDigits(s[1..]) == d;
    DigitsValueOfDecimal(n);
  }

  lemma {:induction false} SkipSpaceOfBlankPrefix(ws: string, s: string)
    requires forall i :: 0 <= i < |ws| ==> IsSpace(ws[i])
    ensures SkipSpace(ws + s) == SkipSpace(s)
  {
    if ws != [] {
      assert (ws + s)[1..] == ws[1..] + s;
      SkipSpaceOfBlankPrefix(ws[1..], s);
    } else {
      assert ws + s == s;
    }
  }

  /** Leading whitespace does not change what the cast reads. */
  lemma CastSkipsLeadingSpace(ws: string, s: string)
    requires forall i :: 0 <= i < |ws| ==> IsSpace(ws[i])
    ensures CastToInt(ws + s) == CastToInt(s)
  {
    SkipSpaceOfBlankPrefix(ws, s);
  }
}
