// Decimal text as operator<< and std::to_string write it, and as std::stoull and strtoll read it.
module Numbers {
  import opened Wrappers
  import opened CacheEntries
  import opened Strings

  function DigitChar(d: nat): char
    requires d < 10
  {
    '0' + d as char
  }

  function DigitValue(c: char): nat
    requires IsDigit(c)
  {
    (c - '0') as nat
  }

  function NatText(n: nat): (s: string)
    ensures |s| > 0
  {
    if n < 10 then [DigitChar(n)] else NatText(n / 10) + [DigitChar(n % 10)]
  }

  function IntText(i: int): string {
    if i < 0 then "-" + NatText(-i) else NatText(i)
  }

  predicate AllDigits(s: string) {
    forall i :: 0 <= i < |s| ==> IsDigit(s[i])
  }

  function DigitsValue(s: string): nat
    requires AllDigits(s)
  {
    if s == "" then 0 else DigitsValue(s[..|s| - 1]) * 10 + DigitValue(s[|s| - 1])
  }

  // The length of the longest run of digits at the start.
  function DigitCount(s: string): (n: nat)
    ensures n <= |s| && AllDigits(s[..n]) && (n < |s| ==> !IsDigit(s[n]))
  {
    if s == "" || !IsDigit(s[0]) then 0
    else
      var n := 1 + DigitCount(s[1..]);
      assert s[..n] == [s[0]] + s[1..][..n - 1];
      n
  }

  predicate IsSpace(c: char) {
    c == ' ' || '\t' <= c <= '\r'
  }

  function SkipSpace(s: string): (r: string)
    ensures |r| <= |s|
  {
    if s != "" && IsSpace(s[0]) then SkipSpace(s[1..]) else s
  }

  function Unsigned(s: string): string {
    if s != "" && (s[0] == '-' || s[0] == '+') then s[1..] else s
  }

  // std::stoull: leading white space and a sign are accepted, what follows the digits is ignored, a minus
  // sign negates modulo 2^64; no digits or too large a number throw.
  function Stoull(text: string): (r: Option<nat>)
    ensures r.Some? ==> r.value < U64
  {
    var s := SkipSpace(text);
    var digits := Unsigned(s);
    var n := DigitCount(digits);
    if n == 0 then None
    else
      var v: int := DigitsValue(digits[..n]);
      if v >= U64 then None
      else Some(if s[0] == '-' then ToU64(-v) else v)
  }

  const LLONG_MAX: int := 0x7FFF_FFFF_FFFF_FFFF

  // strtoll: as above, but no digits give 0 and the value saturates.
  function Strtoll(text: string): int {
    var s := SkipSpace(text);
    var digits := Unsigned(s);
    var n := DigitCount(digits);
    var v: int := DigitsValue(digits[..n]);
    if s != "" && s[0] == '-' then (if v > LLONG_MAX + 1 then -LLONG_MAX - 1 else -v)
    else if v > LLONG_MAX then LLONG_MAX else v
  }

  lemma {:induction false} NatTextDigits(n: nat)
    ensures AllDigits(NatText(n)) && DigitsValue(NatText(n)) == n
  {
    if n >= 10 {
      NatTextDigits(n / 10);
      var s := NatText(n);
      assert s[..|s| - 1] == NatText(n / 10);
    }
  }

  lemma {:induction false} DigitCountAll(s: string)
    requires AllDigits(s)
    ensures DigitCount(s) == |s|
  {
    if s != "" {
      DigitCountAll(s[1..]);
    }
  }

  // What is written is what is read back.
  lemma StoullOfNat(n: nat)
    requires n < U64
    ensures Stoull(NatText(n)) == Some(n)
  {
    var s := NatText(n);
    NatTextDigits(n);
    DigitCountAll(s);
    assert IsDigit(s[0]);
    assert s[..|s|] == s;
  }

  lemma StoullOfNegative(n: nat)
    requires 0 < n < U64
    ensures Stoull("-" + NatText(n)) == Some(U64 - n)
  {
    var digits := NatText(n);
    NatTextDigits(n);
    DigitCountAll(digits);
    StoullOfMinus("-" + digits, digits, n);
  }

  lemma StoullOfMinus(s: string, digits: string, n: nat)
    requires |s| == 1 + |digits| && s[0] == '-' && s[1..] == digits && digits != ""
    requires AllDigits(digits) && DigitCount(digits) == |digits| && DigitsValue(digits) == n && 0 < n < U64
    ensures Stoull(s) == Some(U64 - n)
  {
    assert SkipSpace(s) == s && Unsigned(s) == digits && digits[..|digits|] == digits;
    Wraps(n);
  }

  lemma Wraps(n: nat)
    requires 0 < n < U64
    ensures ToU64(0 - n) == U64 - n
  {
  }

  lemma StrtollOfInt(i: int)
    requires -LLONG_MAX - 1 <= i <= LLONG_MAX
    ensures Strtoll(IntText(i)) == i
  {
    if i < 0 {
      StrtollOfNegative(-i);
    } else {
      StrtollOfNat(i);
    }
  }

  lemma StrtollOfNat(n: nat)
    requires n <= LLONG_MAX
    ensures Strtoll(NatText(n)) == n
  {
    var digits := NatText(n);
    NatTextDigits(n);
    DigitCountAll(digits);
    assert digits[..|digits|] == digits && IsDigit(digits[0]);
  }

  lemma StrtollOfNegative(n: nat)
    requires 0 < n <= LLONG_MAX + 1
    ensures Strtoll("-" + NatText(n)) == 0 - n
  {
    var digits := NatText(n);
    NatTextDigits(n);
    DigitCountAll(digits);
    assert ("-" + digits)[1..] == digits && digits[..|digits|] == digits;
  }

  // Decimal text contains no line ends.
  lemma IntTextPlain(i: int)
    ensures forall j :: 0 <= j < |IntText(i)| ==> IntText(i)[j] != '\n' && IntText(i)[j] != '\r'
    ensures '\n' !in IntText(i) && '\r' !in IntText(i)
  {
    NatTextDigits(if i < 0 then -i else i);
  }

  // ---------------------------------------------------------------------------------------------
  // What is read from any text: white space, a sign, digits, and something behind them.

  predicate Spaces(s: string) {
    forall i :: 0 <= i < |s| ==> IsSpace(s[i])
  }

  predicate NumberAt(spaces: string, sign: string, digits: string, tail: string) {
    && Spaces(spaces) && (sign == "" || sign == "+" || sign == "-") && AllDigits(digits)
    && (tail != "" ==> !IsDigit(tail[0]))
    && (digits == "" && sign == "" && tail != "" ==> !IsSpace(tail[0]) && tail[0] != '+' && tail[0] != '-')
  }

  lemma {:induction false} SpacesSkipped(spaces: string, s: string)
    requires Spaces(spaces) && (s != "" ==> !IsSpace(s[0]))
    ensures SkipSpace(spaces + s) == s
  {
    if spaces != "" {
      assert (spaces + s)[1..] == spaces[1..] + s;
      SpacesSkipped(spaces[1..], s);
    } else {
      assert spaces + s == s;
    }
  }

  lemma {:induction false} DigitsCounted(digits: string, tail: string)
    requires AllDigits(digits) && (tail != "" ==> !IsDigit(tail[0]))
    ensures DigitCount(digits + tail) == |digits| && (digits + tail)[..|digits|] == digits
  {
    if digits != "" {
      assert (digits + tail)[1..] == digits[1..] + tail;
      DigitsCounted(digits[1..], tail);
    } else {
      assert digits + tail == tail;
    }
  }

  lemma NumberRead(spaces: string, sign: string, digits: string, tail: string)
    requires NumberAt(spaces, sign, digits, tail)
    ensures var s := SkipSpace(spaces + (sign + (digits + tail)));
            && s == sign + (digits + tail) && Unsigned(s) == digits + tail
            && (sign == "-" <==> s != "" && s[0] == '-')
  {
    SpacesSkipped(spaces, sign + (digits + tail));
  }

  // std::stoull throws without digits and on 2^64 or more; a minus sign negates modulo 2^64.
  lemma StoullReads(spaces: string, sign: string, digits: string, tail: string)
    requires NumberAt(spaces, sign, digits, tail)
    ensures var v := DigitsValue(digits);
            Stoull(spaces + (sign + (digits + tail)))
            == if digits == "" || v >= 0x1_0000_0000_0000_0000 then None
               else if sign == "-" && v != 0 then Some(0x1_0000_0000_0000_0000 - v)
               else Some(v)
  {
    NumberRead(spaces, sign, digits, tail);
    DigitsCounted(digits, tail);
    if 0 < DigitsValue(digits) < U64 {
      Wraps(DigitsValue(digits));
    }
  }

  // strtoll gives 0 without digits and the nearest value of the type for a number that is too large.
  lemma StrtollReads(spaces: string, sign: string, digits: string, tail: string)
    requires NumberAt(spaces, sign, digits, tail)
    ensures var v: int := if sign == "-" then 0 - DigitsValue(digits) else DigitsValue(digits);
            Strtoll(spaces + (sign + (digits + tail)))
            == if v < -0x8000_0000_0000_0000 then -0x8000_0000_0000_0000
               else if v > 0x7FFF_FFFF_FFFF_FFFF then 0x7FFF_FFFF_FFFF_FFFF
               else v
  {
    NumberRead(spaces, sign, digits, tail);
    DigitsCounted(digits, tail);
  }
}
