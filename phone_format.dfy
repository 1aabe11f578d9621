/**
 * The telephone-number mask of the form input (src/components/ui/FormInput.tsx):
 * keep the ASCII digits, then lay out at most ten of them as (XXX) XXX-XXXX.
 */
module PhoneFormat {
  import opened Decimal

  /** `value.replace(/[^\d]/g, '')`: the digits of `s`, in order. */
  function Digits(s: string): (r: string)
    ensures AllDigits(r) && |r| <= |s|
  {
    if s == [] then [] else (if IsDigit(s[0]) then [s[0]] else []) + Digits(s[1..])
  }

  lemma {:induction false} DigitsAppend(a: string, b: string)
    ensures Digits(a + b) == Digits(a) + Digits(b)
  {
    if a == [] {
      assert a + b == b;
    } else {
      var head := if IsDigit(a[0]) then [a[0]] else [];
      assert (a + b)[0] == a[0];
      assert (a + b)[1..] == a[1..] + b;
      DigitsAppend(a[1..], b);
      calc {
        Digits(a + b);
        head + Digits(a[1..] + b);
        head + (Digits(a[1..]) + Digits(b));
        (head + Digits(a[1..])) + Digits(b);
        Digits(a) + Digits(b);
      }
    }
  }

  lemma {:induction false} DigitsOfDigits(d: string)
    requires AllDigits(d)
    ensures Digits(d) == d
  {
    if d != [] {
      assert IsDigit(d[0]);
      DigitsOfDigits(d[1..]);
    }
  }

  function Min(a: int, b: int): (r: int) {
    if a <= b then a else b
  }

  /** The layout the mask gives a string of digits. */
  function Layout(d: string): (r: string)
    requires AllDigits(d)
    ensures |r| <= 14
  {
    if |d| < 4 then d
    else if |d| < 7 then "(" + d[..3] + ") " + d[3..]
    else "(" + d[..3] + ") " + d[3..6] + "-" + d[6..Min(10, |d|)]
  }

  /** `formatPhoneNumber`: an empty value is returned as it is; any other is laid out from its digits. */
  function FormatPhoneNumber(value: string): (r: string)
    ensures |r| <= 14
    ensures value != "" ==> r == Layout(Digits(value))
    ensures value == "" ==> r == ""
  {
    if value == "" then value else Layout(Digits(value))
  }

  /** The separators the mask writes hold no digit. */
  lemma {:induction false} SeparatorsHaveNoDigits()
    ensures Digits("(") == [] && Digits(") ") == [] && Digits("-") == []
  {
    assert ") "[1..] == " ";
  }

  /** A separator without digits drops out when stripping. */
  lemma {:induction false} DigitsOfSeparator(a: string, sep: string, b: string)
    requires Digits(sep) == []
    ensures Digits(a + sep + b) == Digits(a) + Digits(b)
  {
    DigitsAppend(a + sep, b);
    DigitsAppend(a, sep);
    assert Digits(a) + [] == Digits(a);
  }

  /** The digits of `(abc) rest` are `abc` followed by `rest`. */
  lemma {:induction false} DigitsOfAreaCode(a: string, b: string)
    requires AllDigits(a) && AllDigits(b)
    ensures Digits("(" + a + ") " + b) == a + b
  {
    SeparatorsHaveNoDigits();
    DigitsOfSeparator([], "(", a);
    assert [] + "(" + a == "(" + a;
    DigitsOfSeparator("(" + a, ") ", b);
    DigitsOfDigits(a);
    DigitsOfDigits(b);
  }

  /** The mask keeps the first ten digits of the input and nothing else. */
  lemma {:induction false} LayoutKeepsDigits(d: string)
    requires AllDigits(d)
    ensures Digits(Layout(d)) == d[..Min(10, |d|)]
  {
    if |d| < 4 {
      DigitsOfDigits(d);
      assert d[..Min(10, |d|)] == d;
    } else if |d| < 7 {
      DigitsOfAreaCode(d[..3], d[3..]);
      assert d[..3] + d[3..] == d == d[..Min(10, |d|)];
    } else {
      var m := Min(10, |d|);
      var head := "(" + d[..3] + ") " + d[3..6];
      DigitsOfAreaCode(d[..3], d[3..6]);
      SeparatorsHaveNoDigits();
      DigitsOfSeparator(head, "-", d[6..m]);
      DigitsOfDigits(d[6..m]);
      assert d[..3] + d[3..6] + d[6..m] == d[..m];
    }
  }

  lemma {:induction false} DigitsOfFormat(value: string)
    ensures Digits(FormatPhoneNumber(value)) == Digits(value)[..Min(10, |Digits(value)|)]
  {
    if value != "" {
      LayoutKeepsDigits(Digits(value));
    }
  }

  /** The layout reads only the first ten digits. */
  lemma {:induction false} LayoutOfFirstTen(d: string)
    requires AllDigits(d)
    ensures AllDigits(d[..Min(10, |d|)]) && Layout(d[..Min(10, |d|)]) == Layout(d)
  {
    var m := Min(10, |d|);
    var t := d[..m];
    assert AllDigits(t);
    if |d| >= 7 {
      assert t[..3] == d[..3] && t[3..6] == d[3..6];
      assert t[6..Min(10, |t|)] == d[6..m];
    } else {
      assert t == d;
    }
  }

  /** Formatting a formatted value changes nothing. */
  lemma {:induction false} FormatIdempotent(value: string)
    ensures FormatPhoneNumber(FormatPhoneNumber(value)) == FormatPhoneNumber(value)
  {
    var r := FormatPhoneNumber(value);
    if value != "" && r != "" {
      var d := Digits(value);
      LayoutKeepsDigits(d);
      LayoutOfFirstTen(d);
    }
  }

  /** `handlePhoneInput`: the input's new value; only a 'tel' input is masked. */
  function PhoneInputValue(inputType: string, value: string): (r: string)
    ensures inputType == "tel" ==> r == FormatPhoneNumber(value) && |r| <= 14
    ensures inputType != "tel" ==> r == value
  {
    if inputType == "tel" then FormatPhoneNumber(value) else value
  }

  /** A value made only of digits is laid out as it stands. */
  lemma {:induction false} FormatOfDigits(d: string)
    requires d != "" && AllDigits(d)
    ensures FormatPhoneNumber(d) == Layout(d)
  {
    DigitsOfDigits(d);
  }

  /** Ten digits are laid out in full. */
  lemma {:induction false} TenDigitExample()
    ensures FormatPhoneNumber("4165551234") == "(416) 555-1234"
  {
    TenDigitLayout();
    FormatOfDigits("4165551234");
  }

  lemma {:induction false} TenDigitLayout()
    ensures AllDigits("4165551234") && Layout("4165551234") == "(416) 555-1234"
  {
    var d := "4165551234";
    assert d[..3] == "416" && d[3..6] == "555" && d[6..10] == "1234";
  }

  /** A value already in the mask's form is kept. */
  lemma {:induction false} FormattedExample()
    ensures FormatPhoneNumber("(416) 555-1234") == "(416) 555-1234"
  {
    TenDigitExample();
    FormatIdempotent("4165551234");
  }

  /** Five digits give the area code and the rest. */
  lemma {:induction false} FiveDigitExample()
    ensures FormatPhoneNumber("41655") == "(416) 55"
  {
    var d := "41655";
    assert AllDigits(d);
    FormatOfDigits(d);
    assert d[..3] == "416" && d[3..] == "55";
  }
}
