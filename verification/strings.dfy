/**
  String helpers from Go's standard library that the controller and the F5
  driver rely on: `strings.HasSuffix`, `strings.Split` (with a one-character
  separator), the first piece of such a split, `strings.ToLower` and
  `strconv.Atoi`.
 */
module Strings {

  datatype Option<+T> = None | Some(value: T)

  /** `strings.HasSuffix(s, suffix)`: a plain suffix test, no label boundary. */
  predicate HasSuffix(s: string, suffix: string) {
    |suffix| <= |s| && s[|s| - |suffix|..] == suffix
  }

  lemma SuffixOfConcat(prefix: string, suffix: string)
    ensures HasSuffix(prefix + suffix, suffix)
  {
    assert (prefix + suffix)[|prefix|..] == suffix;
  }

  /** `strings.Split(s, [c])[0]`: everything before the first `c`, or all of `s`. */
  function Before(s: string, c: char): (r: string)
    ensures r <= s
    ensures c !in r
    ensures |r| < |s| ==> s[|r|] == c
  {
    if |s| == 0 then ""
    else if s[0] == c then ""
    else [s[0]] + Before(s[1..], c)
  }

  /** Splitting `a + [c] + b` at its first `c` gives back `a` when `a` holds no `c`. */
  lemma {:induction false} BeforeJoin(a: string, c: char, b: string)
    requires c !in a
    ensures Before(a + [c] + b, c) == a
  {
    if |a| == 0 {
      assert (a + [c] + b)[0] == c;
    } else {
      assert (a + [c] + b)[1..] == a[1..] + [c] + b;
      BeforeJoin(a[1..], c, b);
    }
  }

  /** Inverse of `Split`: the pieces glued back together with the separator. */
  function Join(parts: seq<string>, c: char): string {
    if |parts| == 0 then ""
    else if |parts| == 1 then parts[0]
    else parts[0] + [c] + Join(parts[1..], c)
  }

  /** `strings.Split(s, [c])`: at least one piece, none holding `c`, and joining them gives `s` back. */
  function Split(s: string, c: char): (r: seq<string>)
    ensures |r| >= 1
    ensures forall i :: 0 <= i < |r| ==> c !in r[i]
    ensures Join(r, c) == s
    decreases |s|
  {
    var head := Before(s, c);
    if |head| == |s| then
      assert head == s;
      [s]
    else
      var rest := s[|head| + 1..];
      assert s == head + [c] + rest;
      [head] + Split(rest, c)
  }

  /** One ASCII letter lowered; every other character kept. */
  function LowerChar(ch: char): char {
    if 'A' <= ch <= 'Z' then (ch as int - 'A' as int + 'a' as int) as char else ch
  }

  predicate IsUpperAscii(ch: char) {
    'A' <= ch <= 'Z'
  }

  /** A string with no ASCII upper-case letter. */
  predicate IsLower(s: string) {
    forall i :: 0 <= i < |s| ==> !IsUpperAscii(s[i])
  }

  /** `strings.ToLower`, restricted to ASCII letters. */
  function ToLower(s: string): (r: string)
    ensures |r| == |s|
    ensures IsLower(r)
    ensures IsLower(s) ==> r == s
    ensures forall i :: 0 <= i < |s| && !IsUpperAscii(s[i]) ==> r[i] == s[i]
    ensures forall i :: 0 <= i < |s| && IsUpperAscii(s[i]) ==> r[i] as int == s[i] as int + 32
  {
    if |s| == 0 then "" else [LowerChar(s[0])] + ToLower(s[1..])
  }

  predicate IsDigit(ch: char) {
    '0' <= ch <= '9'
  }

  predicate AllDigits(s: string) {
    forall i :: 0 <= i < |s| ==> IsDigit(s[i])
  }

  /** The decimal value of a digit string, most significant digit first. */
  function DigitsValue(s: string): nat
    requires AllDigits(s)
  {
    if |s| == 0 then 0
    else DigitsValue(s[..|s| - 1]) * 10 + (s[|s| - 1] as int - '0' as int)
  }

  /** The range of Go's `int` on a 64-bit platform. */
  const MinInt: int := -0x8000_0000_0000_0000
  const MaxInt: int := 0x7fff_ffff_ffff_ffff

  /** The sign-free part of a decimal literal: `+` or `-` stripped off. */
  function Unsigned(s: string): string {
    if |s| > 0 && (s[0] == '+' || s[0] == '-') then s[1..] else s
  }

  /**
    `strconv.Atoi`: an optional sign and at least one decimal digit, nothing
    else, and a value inside the 64-bit range; anything else is a parse error.
   */
  function Atoi(s: string): (r: Option<int>)
    ensures r.Some? ==> |Unsigned(s)| > 0 && AllDigits(Unsigned(s)) && MinInt <= r.value <= MaxInt
    ensures r.Some? && r.value < 0 ==> s[0] == '-'
  {
    var digits := Unsigned(s);
    if |digits| == 0 || !AllDigits(digits) then None
    else
      var magnitude: int := DigitsValue(digits);
      var v := if s[0] == '-' then -magnitude else magnitude;
      if MinInt <= v <= MaxInt then Some(v) else None
  }

  function DigitChar(d: nat): char
    requires d < 10
  {
    ('0' as int + d) as char
  }

  /** Decimal digits of a natural number, no leading zeros (the Go `strconv.Itoa` form). */
  function NatDigits(n: nat): (r: string)
    ensures |r| >= 1 && AllDigits(r)
  {
    if n < 10 then [DigitChar(n)] else NatDigits(n / 10) + [DigitChar(n % 10)]
  }

  /** `strconv.Itoa`: a minus sign for negatives, then the digits. */
  function Itoa(n: int): string {
    if n < 0 then "-" + NatDigits(-n) else NatDigits(n)
  }

  lemma {:induction false} NatDigitsValue(n: nat)
    ensures DigitsValue(NatDigits(n)) == n
  {
    var s := NatDigits(n);
    if n >= 10 {
      var prefix := NatDigits(n / 10);
      assert s[..|s| - 1] == prefix;
      NatDigitsValue(n / 10);
    }
  }

  /** Every 64-bit integer survives `Itoa` followed by `Atoi`. */
  lemma AtoiItoa(n: int)
    requires MinInt <= n <= MaxInt
    ensures Atoi(Itoa(n)) == Some(n)
  {
    if n < 0 {
      NatDigitsValue(-n);
      assert Unsigned(Itoa(n)) == NatDigits(-n);
    } else {
      NatDigitsValue(n);
      var s := NatDigits(n);
      assert s[0] != '+' && s[0] != '-' by { assert IsDigit(s[0]); }
      assert Unsigned(s) == s;
    }
  }

  /** A leading zero does not change the value of a digit string. */
  lemma {:induction false} LeadingZeroValue(s: string)
    requires AllDigits(s)
    ensures AllDigits("0" + s) && DigitsValue("0" + s) == DigitsValue(s)
  {
    if |s| > 0 {
      var z := "0" + s;
      assert z[..|z| - 1] == "0" + s[..|s| - 1];
      LeadingZeroValue(s[..|s| - 1]);
    }
  }

  /** Like Go's parser, an explicit plus sign is accepted: `+n` reads as `n`. */
  lemma AtoiPlusSign(n: int)
    requires 0 <= n <= MaxInt
    ensures Atoi("+" + Itoa(n)) == Some(n)
  {
    NatDigitsValue(n);
    assert Unsigned("+" + Itoa(n)) == NatDigits(n);
  }

  /** Leading zeros are accepted and ignored: `0n` reads as `n`, and `-0` as 0. */
  lemma AtoiLeadingZero(n: int)
    requires 0 <= n <= MaxInt
    ensures Atoi("0" + Itoa(n)) == Some(n)
    ensures Atoi("-0") == Some(0)
  {
    NatDigitsValue(n);
    LeadingZeroValue(NatDigits(n));
    assert Unsigned("0" + Itoa(n)) == "0" + NatDigits(n);
    assert Unsigned("-0") == "0";
    assert DigitsValue("0") == DigitsValue("0"[..0]) * 10 + 0;
  }
}
