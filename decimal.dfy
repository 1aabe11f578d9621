/** Decimal digits as JavaScript renders and reads them (`toString`, `padStart`). */
module Decimal {

  predicate IsDigit(c: char) {
    '0' <= c <= '9'
  }

  predicate AllDigits(s: string) {
    forall i :: 0 <= i < |s| ==> IsDigit(s[i])
  }

  function DigitChar(d: nat): (c: char)
    requires d < 10
    ensures IsDigit(c)
  {
    ('0' as int + d) as char
  }

  function DigitValue(c: char): (d: nat)
    requires IsDigit(c)
    ensures d < 10
  {
    c as int - '0' as int
  }

  /** `n.toString()` for a non-negative integer. */
  function NatToString(n: nat): (r: string)
    ensures |r| >= 1 && AllDigits(r)
    ensures n < 10 <==> |r| == 1
  {
    if n < 10 then [DigitChar(n)] else NatToString(n / 10) + [DigitChar(n % 10)]
  }

  /** `i.toString()` for any integer. */
  function IntToString(i: int): string {
    if i < 0 then "-" + NatToString(-i) else NatToString(i)
  }

  /** The number a string of decimal digits denotes (leading zeros allowed). */
  function DecimalValue(s: string): nat
    requires AllDigits(s)
  {
    if s == [] then 0 else DecimalValue(s[..|s| - 1]) * 10 + DigitValue(s[|s| - 1])
  }

  /** Reading back a rendered number gives the number. */
  lemma {:induction false} NatToStringRoundTrip(n: nat)
    ensures DecimalValue(NatToString(n)) == n
  {
    if n >= 10 {
      var s := NatToString(n);
      assert s[..|s| - 1] == NatToString(n / 10);
      NatToStringRoundTrip(n / 10);
    }
  }

  /** A leading zero does not change the value. */
  lemma {:induction false} LeadingZero(s: string)
    requires AllDigits(s)
    ensures AllDigits("0" + s) && DecimalValue("0" + s) == DecimalValue(s)
  {
    if s != [] {
      assert ("0" + s)[..|"0" + s| - 1] == "0" + s[..|s| - 1];
      LeadingZero(s[..|s| - 1]);
    }
  }

  /** `n.toString().padStart(2, '0')`. */
  function PadTwo(n: nat): (r: string)
    ensures AllDigits(r) && |r| >= 2
    ensures n < 100 ==> |r| == 2
  {
    var s := NatToString(n);
    if |s| < 2 then "0" + s else s
  }

  /** Padding loses nothing: the padded string still denotes `n`. */
  lemma {:induction false} PadTwoRoundTrip(n: nat)
    ensures DecimalValue(PadTwo(n)) == n
  {
    NatToStringRoundTrip(n);
    if n < 10 {
      LeadingZero(NatToString(n));
    }
  }

  /** `s.slice(-2)`: the last two characters, or all of a shorter string. */
  function LastTwo(s: string): (r: string)
    ensures |r| == if |s| < 2 then |s| else 2
  {
    if |s| < 2 then s else s[|s| - 2..]
  }

  /** What `LastTwo` keeps is the tail of `s`, and the rest of `s` comes before it. */
  lemma {:induction false} LastTwoIsSuffix(s: string)
    ensures LastTwo(s) == s[|s| - |LastTwo(s)|..]
    ensures s == s[..|s| - |LastTwo(s)|] + LastTwo(s)
  {
  }

  /** The last digit of a rendering is the number's last decimal digit. */
  lemma {:induction false} LastDigitRendered(n: nat)
    ensures NatToString(n)[|NatToString(n)| - 1] == DigitChar(n % 10)
  {
  }

  /** Two digits read back as a two-digit number. */
  lemma {:induction false} TwoDigitValue(a: nat, b: nat)
    requires a < 10 && b < 10
    ensures AllDigits([DigitChar(a), DigitChar(b)])
    ensures DecimalValue([DigitChar(a), DigitChar(b)]) == a * 10 + b
  {
    var t := [DigitChar(a), DigitChar(b)];
    assert DigitValue(DigitChar(a)) == a && DigitValue(DigitChar(b)) == b;
    assert t[..1] == [DigitChar(a)];
    assert [DigitChar(a)][..0] == [];
    assert DecimalValue([DigitChar(a)]) == a;
  }

  /** The last two decimal digits of `n` make up `n % 100`. */
  lemma {:induction false} LastTwoDigitsArithmetic(n: nat)
    ensures (n / 10 % 10) * 10 + n % 10 == n % 100
  {
    var q := n / 10;
    assert n == 10 * q + n % 10;
    assert q == 10 * (q / 10) + q % 10;
    assert n == 100 * (q / 10) + ((q % 10) * 10 + n % 10);
  }

  /** From ten on, the last two characters are the number's last two decimal digits. */
  lemma {:induction false} LastTwoOfLongRendering(n: nat)
    requires n >= 10
    ensures LastTwo(NatToString(n)) == [DigitChar(n / 10 % 10), DigitChar(n % 10)]
  {
    var h := NatToString(n / 10);
    assert NatToString(n) == h + [DigitChar(n % 10)];
    LastDigitRendered(n / 10);
    assert (h + [DigitChar(n % 10)])[|h| - 1..] == [h[|h| - 1], DigitChar(n % 10)];
  }

  /** `String(n).slice(-2)` reads back as the number's last two decimal digits. */
  lemma {:induction false} LastTwoOfRendering(n: nat)
    ensures AllDigits(LastTwo(NatToString(n)))
    ensures DecimalValue(LastTwo(NatToString(n))) == n % 100
  {
    if n >= 10 {
      LastTwoOfLongRendering(n);
      TwoDigitValue(n / 10 % 10, n % 10);
      LastTwoDigitsArithmetic(n);
    }
  }
}
