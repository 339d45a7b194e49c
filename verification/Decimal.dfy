/** Decimal numbers in text: `printf("%u")`, `strtoul()` and `strtol()`. */
module Decimal {

  const ULONG_MAX: nat := 0xffff_ffff_ffff_ffff
  const LONG_MAX: nat := 0x7fff_ffff_ffff_ffff

  predicate IsDigit(c: char) {
    '0' <= c <= '9'
  }

  /** `isspace()` in the C locale. */
  predicate IsSpace(c: char) {
    c == ' ' || c == '\t' || c == '\n' || c == '\r' || c as int == 11 || c as int == 12
  }

  function DigitChar(d: nat): (c: char)
    requires d < 10
    ensures IsDigit(c) && DigitValue(c) == d
  {
    '0' + d as char
  }

  function DigitValue(c: char): (d: nat)
    requires IsDigit(c)
    ensures d < 10
  {
    c as int - '0' as int
  }

  /** What `%u` prints. */
  function Digits(n: nat): (s: string)
    ensures s != "" && forall i :: 0 <= i < |s| ==> IsDigit(s[i])
  {
    if n < 10 then [DigitChar(n)] else Digits(n / 10) + [DigitChar(n % 10)]
  }

  /** The number of leading digits. */
  function DigitCount(s: string): (k: nat)
    ensures k <= |s|
    ensures forall i :: 0 <= i < k ==> IsDigit(s[i])
    ensures k < |s| ==> !IsDigit(s[k])
  {
    if s == "" || !IsDigit(s[0]) then 0 else 1 + DigitCount(s[1..])
  }

  /** The value of a string of digits. */
  function NumberOf(s: string): nat
    requires forall i :: 0 <= i < |s| ==> IsDigit(s[i])
  {
    if s == "" then 0 else 10 * NumberOf(s[..|s| - 1]) + DigitValue(s[|s| - 1])
  }

  function SpaceCount(s: string): (k: nat)
    ensures k <= |s| && (k < |s| ==> !IsSpace(s[k]))
    ensures forall i :: 0 <= i < k ==> IsSpace(s[i])
  {
    if s == "" || !IsSpace(s[0]) then 0 else 1 + SpaceCount(s[1..])
  }

  /** The parts of a number: sign, value, and where it ends; `end == 0` means that there is none. */
  datatype Scan = Scan(negative: bool, value: nat, end: nat)

  function ScanNumber(s: string): (r: Scan)
    ensures r.end <= |s|
  {
    var i := SpaceCount(s);
    var signed := i < |s| && (s[i] == '-' || s[i] == '+');
    var j := if signed then i + 1 else i;
    var k := DigitCount(s[j..]);
    if k == 0 then Scan(false, 0, 0)
    else Scan(signed && s[i] == '-', NumberOf(s[j..][..k]), j + k)
  }

  /** `strtoul()`: the value and the end of the number. */
  function StrToUl(s: string): (r: (nat, nat))
    ensures r.0 <= ULONG_MAX && r.1 <= |s|
  {
    var n := ScanNumber(s);
    var v :=
      if n.value > ULONG_MAX then ULONG_MAX
      else if n.negative && n.value > 0 then ULONG_MAX + 1 - n.value
      else n.value;
    (v, n.end)
  }

  /** `strtol()` */
  function StrToL(s: string): (r: (int, nat))
    ensures r.1 <= |s|
  {
    var n := ScanNumber(s);
    var v: int :=
      if n.negative then (if n.value > LONG_MAX + 1 then 0 - (LONG_MAX + 1) else 0 - n.value)
      else if n.value > LONG_MAX then LONG_MAX
      else n.value;
    (v, n.end)
  }

  lemma {:induction false} NumberOfDigits(n: nat)
    ensures NumberOf(Digits(n)) == n
  {
    if n < 10 {
      assert Digits(n)[..0] == "";
    } else {
      NumberOfDigits(n / 10);
      assert Digits(n)[..|Digits(n)| - 1] == Digits(n / 10);
    }
  }

  lemma {:induction false} DigitCountOf(d: string, rest: string)
    requires forall i :: 0 <= i < |d| ==> IsDigit(d[i])
    requires rest == "" || !IsDigit(rest[0])
    ensures DigitCount(d + rest) == |d|
  {
    if d == "" {
      assert d + rest == rest;
    } else {
      assert (d + rest)[1..] == d[1..] + rest;
      DigitCountOf(d[1..], rest);
    }
  }

  /** A printed number is read back, whatever follows it, as long as that is not a digit. */
  lemma ScanDigits(n: nat, rest: string)
    requires rest == "" || !IsDigit(rest[0])
    ensures ScanNumber(Digits(n) + rest) == Scan(false, n, |Digits(n)|)
  {
    hide Digits, DigitCount, NumberOf;
    var s := Digits(n) + rest;
    assert IsDigit(s[0]);
    assert SpaceCount(s) == 0 && s[0..] == s;
    DigitCountOf(Digits(n), rest);
    NumberOfDigits(n);
    assert s[..|Digits(n)|] == Digits(n);
  }

  lemma {:induction false} SpaceCountOf(spaces: string, rest: string)
    requires forall i :: 0 <= i < |spaces| ==> IsSpace(spaces[i])
    requires rest == "" || !IsSpace(rest[0])
    ensures SpaceCount(spaces + rest) == |spaces|
  {
    if spaces == "" {
      assert spaces + rest == rest;
    } else {
      assert (spaces + rest)[1..] == spaces[1..] + rest;
      SpaceCountOf(spaces[1..], rest);
    }
  }

  /** The same for a number with space before it and a sign. */
  lemma ScanSigned(spaces: string, sign: char, n: nat, rest: string)
    requires (forall i :: 0 <= i < |spaces| ==> IsSpace(spaces[i])) && (sign == '-' || sign == '+')
    requires rest == "" || !IsDigit(rest[0])
    ensures var number := [sign] + Digits(n);
            ScanNumber(spaces + (number + rest)) == Scan(sign == '-', n, |spaces| + |number|)
  {
    hide Digits, DigitCount, NumberOf, SpaceCount;
    var tail := Digits(n) + rest;
    var s := spaces + ([sign] + Digits(n) + rest);
    assert s == spaces + ([sign] + tail);
    SpaceCountOf(spaces, [sign] + tail);
    assert s[|spaces|] == sign && s[|spaces| + 1..] == tail;
    DigitCountOf(Digits(n), rest);
    NumberOfDigits(n);
    assert tail[..|Digits(n)|] == Digits(n);
  }

  /** `strtol()` gives the nearest number that fits, and `strtoul()` negates a number with a minus sign. */
  lemma NumbersRead(spaces: string, n: nat, rest: string)
    requires forall i :: 0 <= i < |spaces| ==> IsSpace(spaces[i])
    requires rest == "" || !IsDigit(rest[0])
    ensures var s := spaces + (['-'] + Digits(n) + rest);
            && StrToL(s).0 == (if n <= LONG_MAX + 1 then 0 - n else 0 - LONG_MAX - 1)
            && (n <= ULONG_MAX ==> (StrToUl(s).0 + n) % (ULONG_MAX + 1) == 0)
            && (n > ULONG_MAX ==> StrToUl(s).0 == ULONG_MAX)
    ensures var s := spaces + (['+'] + Digits(n) + rest);
            && StrToL(s).0 == (if n <= LONG_MAX then n else LONG_MAX)
            && StrToUl(s).0 == (if n <= ULONG_MAX then n else ULONG_MAX)
  {
    hide Digits, ScanNumber;
    ScanSigned(spaces, '-', n, rest);
    ScanSigned(spaces, '+', n, rest);
  }

  /** A bound for the length of a printed number. */
  lemma {:induction false} DigitsLength(n: nat, k: nat)
    requires k > 0 && n < PowerOfTen(k)
    ensures |Digits(n)| <= k
  {
    if n >= 10 {
      assert k > 1;
      DigitsLength(n / 10, k - 1);
    }
  }

  function PowerOfTen(k: nat): nat {
    if k == 0 then 1 else 10 * PowerOfTen(k - 1)
  }
}
