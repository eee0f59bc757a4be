/** The few operations on Ruby strings and integers that the core relies on. */
module RubyText {
  import opened Wrappers

  /** String#upcase on one character; only the ASCII letters are modelled. */
  function UpcaseChar(c: char): char
  {
    if 'a' <= c <= 'z' then (c as int - 32) as char else c
  }

  predicate IsLowerAscii(c: char)
  {
    'a' <= c <= 'z'
  }

  /** String#upcase: the string with every lower-case letter replaced by its capital. */
  function Upcase(s: string): (r: string)
    ensures |r| == |s|
    ensures forall i :: 0 <= i < |s| ==> r[i] == UpcaseChar(s[i])
  {
    if s == [] then [] else [UpcaseChar(s[0])] + Upcase(s[1..])
  }

  /** An upper-cased string has no lower-case letters, so upcasing it again changes nothing. */
  lemma UpcaseIdempotent(s: string)
    ensures forall i :: 0 <= i < |Upcase(s)| ==> !IsLowerAscii(Upcase(s)[i])
    ensures Upcase(Upcase(s)) == Upcase(s)
  {
    assert forall i :: 0 <= i < |s| ==> UpcaseChar(UpcaseChar(s[i])) == UpcaseChar(s[i]);
  }

  /** Two spellings that differ only in letter case upcase to the same string. */
  lemma UpcaseIgnoresCase(a: string, b: string)
    requires |a| == |b|
    requires forall i :: 0 <= i < |a| ==> UpcaseChar(a[i]) == UpcaseChar(b[i])
    ensures Upcase(a) == Upcase(b)
  {
  }

  predicate IsDigit(c: char)
  {
    '0' <= c <= '9'
  }

  predicate IsDigits(s: string)
  {
    forall i :: 0 <= i < |s| ==> IsDigit(s[i])
  }

  function DigitChar(d: nat): (c: char)
    requires d < 10
    ensures IsDigit(c) && c as int - '0' as int == d
  {
    (d + '0' as int) as char
  }

  /** The numeric value of a string of decimal digits, read most significant first. */
  function DigitsValue(s: string): nat
    requires IsDigits(s)
  {
    if s == [] then 0
    else 10 * DigitsValue(s[..|s| - 1]) + (s[|s| - 1] as int - '0' as int)
  }

  /** Integer#to_s for a non-negative integer: its decimal digits, without leading zeros. */
  function NatToS(n: nat): (r: string)
    ensures |r| >= 1 && IsDigits(r)
    ensures r[0] == '0' ==> n == 0
    decreases n
  {
    if n < 10 then [DigitChar(n)] else NatToS(n / 10) + [DigitChar(n % 10)]
  }

  /** Integer#to_s: a leading minus sign for negative numbers, then the decimal digits. */
  function IntToS(n: int): (r: string)
  {
    if n < 0 then "-" + NatToS(-n) else NatToS(n)
  }

  /** Reads back what IntToS writes: an optional minus sign and at least one digit. */
  function ParseInt(s: string): Option<int>
  {
    if |s| >= 2 && s[0] == '-' && IsDigits(s[1..]) then Some(-(DigitsValue(s[1..]) as int))
    else if |s| >= 1 && IsDigits(s) then Some(DigitsValue(s))
    else None
  }

  lemma {:induction false} NatToSValue(n: nat)
    ensures DigitsValue(NatToS(n)) == n
    decreases n
  {
    if n >= 10 {
      NatToSValue(n / 10);
      var r := NatToS(n);
      assert r[..|r| - 1] == NatToS(n / 10);
    }
  }

  /** Integer#to_s loses nothing: the decimal form reads back as the same integer. */
  lemma IntToSRoundTrip(n: int)
    ensures ParseInt(IntToS(n)) == Some(n)
  {
    if n < 0 {
      NatToSValue(-n);
      assert IntToS(n)[1..] == NatToS(-n);
    } else {
      NatToSValue(n);
    }
  }

  /** Distinct integers have distinct decimal forms. */
  lemma IntToSInjective(a: int, b: int)
    requires IntToS(a) == IntToS(b)
    ensures a == b
  {
    IntToSRoundTrip(a);
    IntToSRoundTrip(b);
  }

  /** Array#join: the parts with the separator between each neighbouring pair. */
  function Join(parts: seq<string>, separator: string): (joined: string)
    ensures parts == [] ==> joined == ""
    ensures |parts| == 1 ==> joined == parts[0]
    ensures |parts| >= 1 ==> |joined| >= |parts[0]| && joined[..|parts[0]|] == parts[0]
  {
    if parts == [] then ""
    else if |parts| == 1 then parts[0]
    else parts[0] + separator + Join(parts[1..], separator)
  }

  /** Joining one more part puts the separator between the old result and the new part. */
  lemma {:induction false} JoinAppend(parts: seq<string>, part: string, separator: string)
    requires parts != []
    ensures Join(parts + [part], separator) == Join(parts, separator) + separator + part
  {
    if |parts| > 1 {
      JoinAppend(parts[1..], part, separator);
      assert (parts + [part])[1..] == parts[1..] + [part];
    }
  }
}
