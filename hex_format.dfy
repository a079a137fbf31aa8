/** The `%02X` conversion of `String(format:)` on an unsigned value:
    uppercase hexadecimal digits, no leading zeros, padded with `0` to at
    least two digits. */
module HexFormat {

  const UpperHexDigits: string := "0123456789ABCDEF"

  predicate IsUpperHexDigit(c: char) {
    c in UpperHexDigits
  }

  function Digit(d: nat): (c: char)
    requires d < 16
    ensures IsUpperHexDigit(c) && DigitValue(c) == d
  {
    UpperHexDigits[d]
  }

  /** The value of one uppercase hexadecimal digit. */
  function DigitValue(c: char): nat
    requires IsUpperHexDigit(c)
  {
    if '0' <= c <= '9' then (c - '0') as nat else (c - 'A') as nat + 10
  }

  /** The value of a string of uppercase hexadecimal digits, the last one
      least significant. */
  function ParseHex(s: string): nat
    requires forall i :: 0 <= i < |s| ==> IsUpperHexDigit(s[i])
  {
    if s == [] then 0 else ParseHex(s[..|s| - 1]) * 16 + DigitValue(s[|s| - 1])
  }

  /** Sixteen to the power `k`. */
  function Pow16(k: nat): (p: nat)
    ensures 1 <= p
  {
    if k == 0 then 1 else 16 * Pow16(k - 1)
  }

  /** The shortest uppercase hexadecimal numeral of `n`. */
  function Hex(n: nat): (s: string)
    ensures 1 <= |s|
    ensures forall i :: 0 <= i < |s| ==> IsUpperHexDigit(s[i])
    ensures ParseHex(s) == n
    ensures |s| > 1 ==> s[0] != '0'
  {
    if n < 16 then [Digit(n)]
    else
      var s := Hex(n / 16) + [Digit(n % 16)];
      assert s[..|s| - 1] == Hex(n / 16);
      s
  }

  /** `%02X`: the numeral of `n`, padded on the left with one `0` when it
      has a single digit. */
  function Format02X(n: nat): (s: string)
    ensures 2 <= |s|
    ensures forall i :: 0 <= i < |s| ==> IsUpperHexDigit(s[i])
    ensures ParseHex(s) == n
    ensures n < 16 ==> s == ['0', Digit(n)]
    ensures 16 <= n ==> s == Hex(n) && s[0] != '0'
  {
    var h := Hex(n);
    if |h| < 2 then
      var s := ['0'] + h;
      assert s[..|s| - 1] == ['0'];
      s
    else h
  }

  /** `%02X` of a 32-bit value: two to eight digits. */
  function Format32(n: nat): (s: string)
    requires n < 0x1_0000_0000
    ensures 2 <= |s| <= 8
    ensures forall i :: 0 <= i < |s| ==> IsUpperHexDigit(s[i])
    ensures ParseHex(s) == n
    ensures |s| == 2 || s[0] != '0'
  {
    assert Pow16(8) == 0x1_0000_0000;
    HexLength(n, 8);
    Format02X(n)
  }

  /** A value below `16^k` needs at most `k` digits. */
  lemma {:induction false} HexLength(n: nat, k: nat)
    requires 1 <= k && n < Pow16(k)
    ensures |Hex(n)| <= k
  {
    if 16 <= n {
      assert n / 16 < Pow16(k - 1);
      if k - 1 == 0 {
        assert false;
      } else {
        HexLength(n / 16, k - 1);
      }
    }
  }

  /** Each digit is the digit of its own value. */
  lemma DigitRoundTrip(c: char)
    requires IsUpperHexDigit(c)
    ensures DigitValue(c) < 16 && Digit(DigitValue(c)) == c
  {
  }

  /** A numeral that does not start with `0` has a non-zero value, at least
      `16` once it has two digits. */
  lemma {:induction false} LeadingNonZero(s: string)
    requires 1 <= |s| && forall i :: 0 <= i < |s| ==> IsUpperHexDigit(s[i])
    requires s[0] != '0'
    ensures 1 <= ParseHex(s)
    ensures 2 <= |s| ==> 16 <= ParseHex(s)
  {
    if |s| > 1 {
      LeadingNonZero(s[..|s| - 1]);
    } else {
      assert s[..|s| - 1] == [];
    }
  }

  /** A numeral without a leading zero is the shortest numeral of its value:
      no other string of digits reads as the same number. */
  lemma {:induction false} HexUnique(s: string, n: nat)
    requires 1 <= |s| && forall i :: 0 <= i < |s| ==> IsUpperHexDigit(s[i])
    requires ParseHex(s) == n && (|s| == 1 || s[0] != '0')
    ensures s == Hex(n)
  {
    var last := s[|s| - 1];
    DigitRoundTrip(last);
    if |s| == 1 {
      assert s[..|s| - 1] == [];
    } else {
      var front := s[..|s| - 1];
      LeadingNonZero(front);
      assert n / 16 == ParseHex(front) && n % 16 == DigitValue(last);
      HexUnique(front, n / 16);
      assert s == front + [last];
    }
  }

  /** The `%02X` conditions determine the string: two or more digits with no
      superfluous leading zero, reading as `n`, can only be `Format02X(n)`. */
  lemma Format02XCanonical(s: string, n: nat)
    requires 2 <= |s| && forall i :: 0 <= i < |s| ==> IsUpperHexDigit(s[i])
    requires ParseHex(s) == n && (|s| == 2 || s[0] != '0')
    ensures s == Format02X(n)
  {
    if s[0] != '0' {
      LeadingNonZero(s);
      HexUnique(s, n);
    } else {
      PaddedDigit(s);
    }
  }

  /** A zero followed by one digit reads as that digit. */
  lemma PaddedDigit(s: string)
    requires |s| == 2 && s[0] == '0' && IsUpperHexDigit(s[1])
    ensures ParseHex(s) == DigitValue(s[1]) < 16
    ensures s == ['0', Digit(DigitValue(s[1]))]
  {
    assert IsUpperHexDigit('0') by { assert UpperHexDigits[0] == '0'; }
    assert s[..|s| - 1] == ['0'] && ['0'][..0] == [];
    assert ParseHex(['0']) == 0;
    DigitRoundTrip(s[1]);
    assert s == [s[0], s[1]];
  }

  /** Distinct values have distinct `%02X` strings: the format loses nothing. */
  lemma Format02XInjective(n: nat, m: nat)
    ensures Format02X(n) == Format02X(m) <==> n == m
  {
  }
}
