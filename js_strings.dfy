/**
 * The pieces of JavaScript's string library the quote-number code relies
 * on: `parseInt` with no radix, `split(c)[k]` and `includes(c)`, following
 * ECMAScript's definitions. `parseInt`'s NaN is `None`.
 */
module JsStrings {
  import opened Wrappers
  import opened Decimal

  /** ECMAScript's StrWhiteSpaceChar: WhiteSpace and LineTerminator code points. */
  predicate IsStrWhiteSpace(c: char) {
    || c == '\t' || c == '\n' || c == '\U{000B}' || c == '\U{000C}' || c == '\r' || c == ' '
    || c == '\U{00A0}' || c == '\U{1680}' || ('\U{2000}' <= c <= '\U{200A}')
    || c == '\U{2028}' || c == '\U{2029}' || c == '\U{202F}' || c == '\U{205F}'
    || c == '\U{3000}' || c == '\U{FEFF}'
  }

  /** The string without its leading white space. */
  function TrimStart(s: string): (r: string)
    ensures |r| <= |s| && r == s[|s| - |r|..]
    ensures r == [] || !IsStrWhiteSpace(r[0])
    ensures forall i :: 0 <= i < |s| - |r| ==> IsStrWhiteSpace(s[i])
  {
    if s != [] && IsStrWhiteSpace(s[0]) then
      var r := TrimStart(s[1..]);
      assert forall i :: 1 <= i < |s| - |r| ==> s[i] == s[1..][i - 1];
      r
    else s
  }

  predicate IsHexDigit(c: char) {
    IsDigit(c) || 'a' <= c <= 'f' || 'A' <= c <= 'F'
  }

  function HexDigitValue(c: char): (d: nat)
    requires IsHexDigit(c)
    ensures d < 16
  {
    if IsDigit(c) then DigitValue(c)
    else if 'a' <= c <= 'f' then c as int - 'a' as int + 10
    else c as int - 'A' as int + 10
  }

  predicate IsRadixDigit(c: char, hex: bool) {
    if hex then IsHexDigit(c) else IsDigit(c)
  }

  /** The longest prefix made of digits of the radix. */
  function DigitPrefix(s: string, hex: bool): (r: string)
    ensures |r| <= |s| && r == s[..|r|]
    ensures forall i :: 0 <= i < |r| ==> IsRadixDigit(r[i], hex)
    ensures |r| < |s| ==> !IsRadixDigit(s[|r|], hex)
  {
    if s != [] && IsRadixDigit(s[0], hex) then [s[0]] + DigitPrefix(s[1..], hex) else []
  }

  /** The number a string of hexadecimal digits denotes. */
  function HexValue(s: string): nat
    requires forall i :: 0 <= i < |s| ==> IsHexDigit(s[i])
  {
    if s == [] then 0 else HexValue(s[..|s| - 1]) * 16 + HexDigitValue(s[|s| - 1])
  }

  /** The "0x"/"0X" prefix that switches `parseInt` without a radix to base 16. */
  predicate HasHexPrefix(s: string) {
    |s| >= 2 && s[0] == '0' && (s[1] == 'x' || s[1] == 'X')
  }

  /**
   * `parseInt(s)`: skip leading white space, then read the rest as
   * `ParseTrimmed` does.
   */
  function ParseInt(s: string): Option<int> {
    ParseTrimmed(TrimStart(s))
  }

  /**
   * `parseInt` after the white space: one optional sign, base 16 after
   * "0x"/"0X", then the longest run of digits; no digits is NaN. (The sign of
   * a parsed zero is not kept.)
   */
  function ParseTrimmed(t: string): Option<int> {
    var negative := t != [] && t[0] == '-';
    var unsigned := if t != [] && (t[0] == '-' || t[0] == '+') then t[1..] else t;
    var hex := HasHexPrefix(unsigned);
    var digits := DigitPrefix(if hex then unsigned[2..] else unsigned, hex);
    if digits == [] then None
    else
      var magnitude := if hex then HexValue(digits) else DecimalValue(digits);
      Some(if negative then -magnitude else magnitude)
  }

  /** A string of decimal digits parses to the number it denotes. */
  lemma {:induction false} ParseDigits(d: string)
    requires d != [] && AllDigits(d)
    ensures ParseInt(d) == Some(DecimalValue(d))
  {
    assert !IsStrWhiteSpace(d[0]);
    assert TrimStart(d) == d;
    assert !HasHexPrefix(d) && d[0] != '-' && d[0] != '+';
    DigitPrefixOfDigits(d);
  }

  /** A run of decimal digits is its own longest digit prefix. */
  lemma {:induction false} DigitPrefixOfDigits(d: string)
    requires AllDigits(d)
    ensures DigitPrefix(d, false) == d
  {
    var r := DigitPrefix(d, false);
    assert |r| == |d| by {
      assert forall i :: 0 <= i < |d| ==> IsRadixDigit(d[i], false);
    }
  }

  /** `parseInt` reads back what `toString` writes. */
  lemma {:induction false} ParseRendered(n: nat)
    ensures ParseInt(NatToString(n)) == Some(n)
  {
    ParseDigits(NatToString(n));
    NatToStringRoundTrip(n);
  }

  /** Text that starts with neither white space, a sign nor a digit is NaN. */
  lemma {:induction false} ParseNonNumeric(t: string)
    requires t != [] && !IsStrWhiteSpace(t[0]) && !IsDigit(t[0]) && t[0] != '-' && t[0] != '+'
    ensures ParseInt(t).None?
  {
    assert TrimStart(t) == t;
    assert !HasHexPrefix(t);
    assert DigitPrefix(t, false) == [];
  }

  /** Leading white space is ignored. */
  lemma {:induction false} ParseSkipsWhiteSpace(w: string, s: string)
    requires forall i :: 0 <= i < |w| ==> IsStrWhiteSpace(w[i])
    ensures ParseInt(w + s) == ParseInt(s)
  {
    TrimStartSkips(w, s);
  }

  lemma {:induction false} TrimStartSkips(w: string, s: string)
    requires forall i :: 0 <= i < |w| ==> IsStrWhiteSpace(w[i])
    ensures TrimStart(w + s) == TrimStart(s)
  {
    if w != [] {
      assert (w + s)[0] == w[0];
      assert (w + s)[1..] == w[1..] + s;
      TrimStartSkips(w[1..], s);
    } else {
      assert w + s == s;
    }
  }

  /** `String(x)` for `parseInt(…) + 1`: a number, or "NaN". */
  function RenderNumber(n: Option<int>): string {
    if n.Some? then IntToString(n.value) else "NaN"
  }

  /** Whether `c` occurs in `s` (`s.includes(c)` for one character). */
  predicate Includes(s: string, c: char) {
    exists i :: 0 <= i < |s| && s[i] == c
  }

  /** The text before the first `c`, or all of `s`. */
  function BeforeFirst(s: string, c: char): (r: string)
    ensures |r| <= |s| && r == s[..|r|]
    ensures forall i :: 0 <= i < |r| ==> r[i] != c
    ensures |r| < |s| ==> s[|r|] == c
  {
    if s == [] || s[0] == c then [] else [s[0]] + BeforeFirst(s[1..], c)
  }

  /** `s.split(c)[k]`: the k-th piece between separators, or undefined. */
  function SplitPart(s: string, c: char, k: nat): (r: Option<string>)
    ensures k == 0 ==> r == Some(BeforeFirst(s, c))
    decreases |s|
  {
    var head := BeforeFirst(s, c);
    if k == 0 then Some(head)
    else if |head| == |s| then None
    else SplitPart(s[|head| + 1..], c, k - 1)
  }

  /** The text before the first `c` of a string whose first `c` follows `p`. */
  lemma {:induction false} BeforeFirstAt(p: string, c: char, rest: string)
    requires !Includes(p, c)
    requires rest == [] || rest[0] == c
    ensures BeforeFirst(p + rest, c) == p
  {
    if p != [] {
      assert (p + rest)[0] == p[0];
      assert (p + rest)[1..] == p[1..] + rest;
      assert !Includes(p[1..], c) by {
        forall i | 0 <= i < |p[1..]| ensures p[1..][i] != c {
          assert p[1..][i] == p[i + 1];
        }
      }
      BeforeFirstAt(p[1..], c, rest);
    }
  }

  /** A string with exactly one separator splits into the text before it and the text after it. */
  lemma {:induction false} SplitAtOnlySeparator(p: string, c: char, d: string)
    requires !Includes(p, c) && !Includes(d, c)
    ensures SplitPart(p + [c] + d, c, 0) == Some(p)
    ensures SplitPart(p + [c] + d, c, 1) == Some(d)
    ensures SplitPart(p + [c] + d, c, 2) == None
  {
    var s := p + [c] + d;
    assert s == p + ([c] + d);
    BeforeFirstAt(p, c, [c] + d);
    assert s[|p| + 1..] == d;
    BeforeFirstAt(d, c, []);
    assert d + [] == d;
  }
}
