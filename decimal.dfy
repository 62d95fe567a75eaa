/** Decimal rendering of non-negative integers, as JavaScript's template
    literals print them (`${n}`), and the matching reader. */
module Decimal {

  predicate IsDigit(c: char) {
    '0' <= c <= '9'
  }

  predicate AllDigits(s: string) {
    forall i :: 0 <= i < |s| ==> IsDigit(s[i])
  }

  function DigitChar(d: nat): (c: char)
    requires d < 10
    ensures IsDigit(c) && (c as int) - ('0' as int) == d
  {
    (('0' as int) + d) as char
  }

  /** The value of a digit character; other characters count as 0 (the
      reader below only applies it to runs of digits). */
  function DigitValue(c: char): (d: nat)
    ensures d < 10
    ensures IsDigit(c) ==> DigitChar(d) == c
  {
    if IsDigit(c) then (c as int) - ('0' as int) else 0
  }

  /** The decimal digits of `n`, most significant first. */
  function Show(n: nat): (s: string)
    ensures 0 < |s|
  {
    if n < 10 then [DigitChar(n)] else Show(n / 10) + [DigitChar(n % 10)]
  }

  /** The rendering is made of digits and has no leading zero. */
  lemma {:induction false} ShowDigits(n: nat)
    ensures AllDigits(Show(n))
    ensures |Show(n)| > 1 ==> Show(n)[0] != '0'
  {
    if n >= 10 {
      ShowDigits(n / 10);
      var s := Show(n);
      assert s == Show(n / 10) + [DigitChar(n % 10)];
      assert n / 10 >= 1;
      assert |Show(n / 10)| > 1 || Show(n / 10) == [DigitChar(n / 10)];
    }
  }

  /** The number that a string of decimal digits denotes. */
  function DigitsValue(s: string): nat {
    if |s| == 0 then 0 else DigitsValue(s[..|s| - 1]) * 10 + DigitValue(s[|s| - 1])
  }

  /** Reading back the rendering gives the number. */
  lemma {:induction false} ShowRoundTrip(n: nat)
    ensures DigitsValue(Show(n)) == n
  {
    if n >= 10 {
      var s := Show(n);
      assert s[..|s| - 1] == Show(n / 10);
      ShowRoundTrip(n / 10);
    }
  }

  /** The length of the longest prefix of `s` made of digits. */
  function DigitRun(s: string): (k: nat)
    ensures k <= |s|
  {
    if |s| == 0 || !IsDigit(s[0]) then 0 else 1 + DigitRun(s[1..])
  }

  /** A rendered number followed by a non-digit is read back whole. */
  lemma DigitRunAfterShow(n: nat, rest: string)
    requires rest == [] || !IsDigit(rest[0])
    ensures DigitRun(Show(n) + rest) == |Show(n)|
    ensures (Show(n) + rest)[..|Show(n)|] == Show(n)
    ensures (Show(n) + rest)[|Show(n)|..] == rest
  {
    ShowDigits(n);
    DigitRunOfDigits(Show(n), rest);
  }

  lemma {:induction false} DigitRunOfDigits(d: string, rest: string)
    requires AllDigits(d)
    requires rest == [] || !IsDigit(rest[0])
    ensures DigitRun(d + rest) == |d|
  {
    if |d| > 0 {
      assert (d + rest)[1..] == d[1..] + rest;
      DigitRunOfDigits(d[1..], rest);
    }
  }
}
