/**
 * The two string operations the server builds its displays from:
 * `String(n)` on a non-negative integer below 10^21, where JavaScript
 * prints plain decimal digits with no sign and no leading zero (numbers
 * are unbounded here), and `String.prototype.padStart(width, fill)`.
 * `ParseDigits` reads a digit string back; it is the partner that the
 * round-trip lemmas below are stated with.
 */
module Text {

  predicate IsDigit(c: char) {
    '0' <= c <= '9'
  }

  predicate AllDigits(s: string) {
    forall i :: 0 <= i < |s| ==> IsDigit(s[i])
  }

  function DigitChar(d: nat): (c: char)
    requires d < 10
    ensures IsDigit(c)
    ensures c as int - '0' as int == d
  {
    ('0' as int + d) as char
  }

  function DigitValue(c: char): (d: nat)
    requires IsDigit(c)
    ensures d < 10
  {
    c as int - '0' as int
  }

  /** `String(n)` for a whole number n >= 0, in its plain decimal form (JavaScript's below 10^21). */
  function NatToString(n: nat): (s: string)
    ensures 1 <= |s|
    ensures AllDigits(s)
    ensures (|s| == 1) == (n < 10)
    ensures |s| > 1 ==> s[0] != '0'
    decreases n
  {
    if n < 10 then [DigitChar(n)] else NatToString(n / 10) + [DigitChar(n % 10)]
  }

  /** The number a string of decimal digits denotes; the empty string denotes 0. */
  function ParseDigits(s: string): nat
    requires AllDigits(s)
  {
    if s == [] then 0 else 10 * ParseDigits(s[..|s| - 1]) + DigitValue(s[|s| - 1])
  }

  /** A string of `k` copies of `c`. */
  function Repeat(c: char, k: nat): (r: string)
    ensures |r| == k
    ensures forall i :: 0 <= i < k ==> r[i] == c
  {
    if k == 0 then [] else [c] + Repeat(c, k - 1)
  }

  /**
   * `s.padStart(width, fill)` with a one-character fill: a string shorter
   * than `width` is prefixed with copies of `fill` up to `width`; a string
   * already that long is returned unchanged (never truncated).
   */
  function PadStart(s: string, width: nat, fill: char): (r: string)
    ensures |r| == if |s| < width then width else |s|
    ensures r[|r| - |s|..] == s
    ensures forall i :: 0 <= i < |r| - |s| ==> r[i] == fill
  {
    if |s| < width then Repeat(fill, width - |s|) + s else s
  }

  /** Reading back what `String(n)` wrote gives n. */
  lemma {:induction false} ParseNatToString(n: nat)
    ensures ParseDigits(NatToString(n)) == n
    decreases n
  {
    var s := NatToString(n);
    if n < 10 {
      assert s == [DigitChar(n)];
      assert s[..0] == [];
    } else {
      ParseNatToString(n / 10);
      assert s[..|s| - 1] == NatToString(n / 10);
      assert s[|s| - 1] == DigitChar(n % 10);
    }
  }

  /** `String` is injective on whole numbers. */
  lemma NatToStringInjective(m: nat, n: nat)
    requires NatToString(m) == NatToString(n)
    ensures m == n
  {
    ParseNatToString(m);
    ParseNatToString(n);
  }

  /** Numbers below 100 print in at most two digits. */
  lemma NatToStringShort(n: nat)
    ensures n < 100 ==> |NatToString(n)| <= 2
  {
  }

  /** Leading zeros do not change the number a digit string denotes. */
  lemma {:induction false} ParseLeadingZeros(k: nat, s: string)
    requires AllDigits(s)
    ensures AllDigits(Repeat('0', k) + s)
    ensures ParseDigits(Repeat('0', k) + s) == ParseDigits(s)
    decreases |s|, k
  {
    var z := Repeat('0', k);
    var t := z + s;
    assert AllDigits(t) by {
      forall i | 0 <= i < |t| ensures IsDigit(t[i]) {
        if i < k { assert t[i] == z[i]; } else { assert t[i] == s[i - k]; }
      }
    }
    if s == [] {
      assert t == z;
      if k > 0 {
        ParseLeadingZeros(k - 1, []);
        assert t[..|t| - 1] == Repeat('0', k - 1) + [] by {
          assert Repeat('0', k) == [ '0' ] + Repeat('0', k - 1);
          assert Repeat('0', k) == Repeat('0', k - 1) + [ '0' ];
        }
        assert t[|t| - 1] == '0';
      }
    } else {
      var s' := s[..|s| - 1];
      ParseLeadingZeros(k, s');
      assert t[..|t| - 1] == z + s';
      assert t[|t| - 1] == s[|s| - 1];
    }
  }

  /** Zero-padding a digit string keeps its value. */
  lemma PadStartZerosKeepsValue(s: string, width: nat)
    requires AllDigits(s)
    ensures AllDigits(PadStart(s, width, '0'))
    ensures ParseDigits(PadStart(s, width, '0')) == ParseDigits(s)
  {
    if |s| < width {
      ParseLeadingZeros(width - |s|, s);
    }
  }

  /** `String(n).padStart(2, '0')`: the two-digit field used for seconds, months and days. */
  function Pad2(n: nat): (r: string)
    ensures AllDigits(r)
    ensures ParseDigits(r) == n
    ensures 2 <= |r|
    ensures n < 100 ==> |r| == 2
  {
    NatToStringShort(n);
    ParseNatToString(n);
    PadStartZerosKeepsValue(NatToString(n), 2);
    PadStart(NatToString(n), 2, '0')
  }

  /** Different numbers give different two-digit fields. */
  lemma Pad2Injective(m: nat, n: nat)
    requires Pad2(m) == Pad2(n)
    ensures m == n
  {
  }
}
