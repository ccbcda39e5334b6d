/**
 * PHP's `number_format($number, $decimals, $decimalSeparator,
 * $thousandsSeparator)` on an exact real: a negative number of decimals
 * counts as zero; the magnitude is rounded half away from zero to that
 * many decimals; the integer digits are grouped in threes from the right
 * with the thousands separator; the decimals follow the decimal separator;
 * a minus sign is written only when the rounded magnitude is not zero.
 */
module Formatting {

  /** `10` to the `n`. */
  function Pow10(n: nat): (r: nat)
    ensures r >= 1
  {
    if n == 0 then 1 else 10 * Pow10(n - 1)
  }

  predicate IsDigit(c: char)
  {
    '0' <= c <= '9'
  }

  predicate AllDigits(s: string)
  {
    forall i :: 0 <= i < |s| ==> IsDigit(s[i])
  }

  function DigitChar(d: nat): (c: char)
    requires d < 10
    ensures IsDigit(c) && (c as int) - ('0' as int) == d
  {
    ('0' as int + d) as char
  }

  /** The decimal digits of `n`, most significant first, without leading
      zeros ("0" for zero). */
  function Digits(n: nat): (s: string)
    ensures |s| >= 1 && AllDigits(s)
  {
    if n < 10 then [DigitChar(n)] else Digits(n / 10) + [DigitChar(n % 10)]
  }

  /** The number a string of decimal digits denotes. */
  function ParseDigits(s: string): (n: nat)
    requires AllDigits(s)
    ensures n < Pow10(|s|)
  {
    if s == [] then 0
    else ParseDigits(s[..|s| - 1]) * 10 + ((s[|s| - 1] as int) - ('0' as int))
  }

  /** Reading back the digits of a number gives the number. */
  lemma {:induction false} DigitsRoundTrip(n: nat)
    ensures ParseDigits(Digits(n)) == n
  {
    if n >= 10 {
      DigitsRoundTrip(n / 10);
      var s := Digits(n);
      assert s[..|s| - 1] == Digits(n / 10);
    }
  }

  /** The digits of a number below `10^w` fit in `w` characters. */
  lemma {:induction false} DigitsFit(n: nat, w: nat)
    requires w >= 1 && n < Pow10(w)
    ensures |Digits(n)| <= w
  {
    if n >= 10 {
      DigitsFit(n / 10, w - 1);
    }
  }

  /** Reading a concatenation: the left part counts `10^|b|` times. */
  lemma {:induction false} ParseAppend(a: string, b: string)
    requires AllDigits(a) && AllDigits(b)
    ensures AllDigits(a + b)
    ensures ParseDigits(a + b) == ParseDigits(a) * Pow10(|b|) + ParseDigits(b)
  {
    if b == [] {
      assert a + b == a;
    } else {
      var c := a + b;
      var b' := b[..|b| - 1];
      assert c[..|c| - 1] == a + b';
      ParseAppend(a, b');
      var l := (b[|b| - 1] as int) - ('0' as int);
      var x, y, p := ParseDigits(a), ParseDigits(b'), Pow10(|b'|);
      assert ParseDigits(c) == ParseDigits(a + b') * 10 + l;
      assert ParseDigits(b) == y * 10 + l;
      assert Pow10(|b|) == p * 10;
      Distribute(x, p, y, l);
    }
  }

  lemma ZeroTimes(a: int, b: int)
    requires a == 0
    ensures a * b == 0
  {
  }

  lemma Distribute(x: int, p: int, y: int, l: int)
    ensures (x * p + y) * 10 + l == x * (p * 10) + (y * 10 + l)
  {
  }

  /** `n` zero characters. */
  function Zeros(n: nat): (s: string)
    ensures |s| == n && AllDigits(s)
  {
    if n == 0 then "" else "0" + Zeros(n - 1)
  }

  lemma {:induction false} ZerosReadAsZero(n: nat)
    ensures ParseDigits(Zeros(n)) == 0
  {
    if n > 0 {
      ZerosReadAsZero(n - 1);
      assert Zeros(n) == Zeros(n - 1) + "0" by {
        ZerosShift(n - 1);
      }
      ParseAppend(Zeros(n - 1), "0");
    }
  }

  lemma {:induction false} ZerosShift(n: nat)
    ensures "0" + Zeros(n) == Zeros(n) + "0"
  {
    if n > 0 {
      ZerosShift(n - 1);
    }
  }

  /** `s` padded with leading zeros to `w` characters, as `%.*F` prints the
      decimals of a number. */
  function ZeroPad(s: string, w: nat): (r: string)
    requires AllDigits(s)
    ensures |r| == if |s| < w then w else |s|
    ensures AllDigits(r)
  {
    if |s| < w then Zeros(w - |s|) + s else s
  }

  /** Leading zeros do not change the number a digit string denotes. */
  lemma ZeroPadReadsTheSame(s: string, w: nat)
    requires AllDigits(s)
    ensures ParseDigits(ZeroPad(s, w)) == ParseDigits(s)
  {
    if |s| < w {
      var z := Zeros(w - |s|);
      assert ZeroPad(s, w) == z + s;
      ZerosReadAsZero(w - |s|);
      ParseAppend(z, s);
      ZeroTimes(ParseDigits(z), Pow10(|s|));
    }
  }

  /** The integer digits with the thousands separator between every group
      of three, counted from the right. */
  function Group(ds: string, sep: string): (r: string)
    decreases |ds|
  {
    if |ds| <= 3 then ds else Group(ds[..|ds| - 3], sep) + sep + ds[|ds| - 3..]
  }

  /** The digits of a string, in order, with every other character removed. */
  function DigitsOnly(s: string): (r: string)
    ensures AllDigits(r)
  {
    if s == [] then ""
    else (if IsDigit(s[0]) then [s[0]] else "") + DigitsOnly(s[1..])
  }

  lemma {:induction false} DigitsOnlyAppend(a: string, b: string)
    ensures DigitsOnly(a + b) == DigitsOnly(a) + DigitsOnly(b)
  {
    if a == [] {
      assert a + b == b;
    } else {
      assert (a + b)[0] == a[0];
      assert (a + b)[1..] == a[1..] + b;
      DigitsOnlyAppend(a[1..], b);
    }
  }

  lemma {:induction false} DigitsOnlyOfDigits(s: string)
    requires AllDigits(s)
    ensures DigitsOnly(s) == s
  {
    if s != [] {
      DigitsOnlyOfDigits(s[1..]);
    }
  }

  /** A string without digits contributes nothing to `DigitsOnly`. */
  lemma {:induction false} DigitsOnlyOfNonDigits(s: string)
    requires forall i :: 0 <= i < |s| ==> !IsDigit(s[i])
    ensures DigitsOnly(s) == ""
  {
    if s != [] {
      DigitsOnlyOfNonDigits(s[1..]);
    }
  }

  predicate NoDigits(s: string)
  {
    forall i :: 0 <= i < |s| ==> !IsDigit(s[i])
  }

  lemma AllDigitsSplit(ds: string, i: nat)
    requires AllDigits(ds) && i <= |ds|
    ensures AllDigits(ds[..i]) && AllDigits(ds[i..])
  {
    assert forall j :: 0 <= j < i ==> ds[..i][j] == ds[j];
    assert forall j :: 0 <= j < |ds| - i ==> ds[i..][j] == ds[i + j];
  }

  /** Grouping only inserts separators: the digits read in order are the
      digits grouped. */
  lemma {:induction false} GroupKeepsDigits(ds: string, sep: string)
    requires AllDigits(ds) && NoDigits(sep)
    ensures DigitsOnly(Group(ds, sep)) == ds
    decreases |ds|
  {
    if |ds| <= 3 {
      DigitsOnlyOfDigits(ds);
    } else {
      var a, b := ds[..|ds| - 3], ds[|ds| - 3..];
      AllDigitsSplit(ds, |ds| - 3);
      var g := Group(a, sep);
      assert Group(ds, sep) == g + sep + b;
      GroupKeepsDigits(a, sep);
      DigitsOnlyAround(g, sep, b);
      assert a + b == ds;
    }
  }

  /** A separator between two parts drops out of their digits. */
  lemma DigitsOnlyAround(g: string, sep: string, b: string)
    requires NoDigits(sep) && AllDigits(b)
    ensures DigitsOnly(g + sep + b) == DigitsOnly(g) + b
  {
    var front := g + sep;
    DigitsOnlyAppend(front, b);
    DigitsOnlyAppend(g, sep);
    DigitsOnlyOfNonDigits(sep);
    DigitsOnlyOfDigits(b);
    assert DigitsOnly(front) == DigitsOnly(g);
    assert DigitsOnly(front + b) == DigitsOnly(g) + b;
  }

  /** One separator goes between every two groups: `(|ds| - 1) / 3` of them. */
  lemma {:induction false} GroupLength(ds: string, sep: string)
    requires |ds| >= 1
    ensures |Group(ds, sep)| == |ds| + (|ds| - 1) / 3 * |sep|
    decreases |ds|
  {
    if |ds| > 3 {
      var a := ds[..|ds| - 3];
      GroupLength(a, sep);
      OneMoreGroup(|a|, |sep|);
    }
  }

  /** Three more digits take one more separator. */
  lemma OneMoreGroup(n: int, s: int)
    requires n >= 1
    ensures (n + 3 - 1) / 3 * s == (n - 1) / 3 * s + s
  {
    var q := (n - 1) / 3;
    assert (n + 3 - 1) / 3 == q + 1;
    assert (q + 1) * s == q * s + s;
  }

  /** The first character of a grouping is its first digit. */
  lemma {:induction false} GroupStartsWithFirstDigit(ds: string, sep: string)
    requires |ds| >= 1
    ensures |Group(ds, sep)| >= 1 && Group(ds, sep)[0] == ds[0]
    decreases |ds|
  {
    if |ds| > 3 {
      GroupStartsWithFirstDigit(ds[..|ds| - 3], sep);
    }
  }

  function Abs(x: real): (r: real)
    ensures r >= 0.0 && (r == x || r == -x)
  {
    if x < 0.0 then -x else x
  }

  /** PHP's `round(abs($x), $d)`, half away from zero, as the integer
      `abs($x)` rounds to once scaled by `10^d`. */
  function Rounded(x: real, d: nat): (n: nat)
    ensures n as real - 0.5 <= Abs(x) * Pow10(d) as real < n as real + 0.5
  {
    (Abs(x) * Pow10(d) as real + 0.5).Floor
  }

  /** The number of decimals `number_format` prints: negative counts as 0. */
  function Shown(dec: int): nat
  {
    if dec > 0 then dec else 0
  }

  /** The quotient and remainder of `n` by a positive `p`. */
  lemma DivMod(n: nat, p: nat)
    requires p >= 1
    ensures 0 <= n / p && 0 <= n % p < p && (n / p) * p + n % p == n
  {
  }

  /** How `number_format` lays out a magnitude already rounded and scaled by
      `10^d`: the grouped integer digits, then, when `d > 0`, the decimal
      separator and exactly `d` decimals. */
  function Layout(n: nat, d: nat, decimalSeparator: string, thousandsSeparator: string): string
  {
    var p := Pow10(d);
    DivMod(n, p);
    var whole := Group(Digits(n / p), thousandsSeparator);
    if d > 0 then whole + decimalSeparator + ZeroPad(Digits(n % p), d) else whole
  }

  /** `number_format($x, $dec, $decimalSeparator, $thousandsSeparator)`:
      a leading minus exactly when the number is negative and does not
      round to zero, and, whenever the separators contain no digits,
      digits that read back as the magnitude rounded half up to the
      decimals shown. */
  function NumberFormat(x: real, dec: int, decimalSeparator: string, thousandsSeparator: string): (r: string)
    ensures |r| >= 1 && (r[0] == '-' <==> x < 0.0 && Rounded(x, Shown(dec)) != 0)
    ensures NoDigits(decimalSeparator) && NoDigits(thousandsSeparator) ==>
      ParseDigits(DigitsOnly(r)) == Rounded(x, Shown(dec))
  {
    var n := Rounded(x, Shown(dec));
    SignedLayout(x < 0.0 && n != 0, n, Shown(dec), decimalSeparator, thousandsSeparator);
    (if x < 0.0 && n != 0 then "-" else "") + Layout(n, Shown(dec), decimalSeparator, thousandsSeparator)
  }

  /** A layout behind an optional minus sign: the sign is there exactly
      when asked for, and it adds no digits. */
  lemma SignedLayout(negative: bool, n: nat, d: nat, ds: string, ts: string)
    ensures var s := (if negative then "-" else "") + Layout(n, d, ds, ts);
      |s| >= 1 && (s[0] == '-' <==> negative)
    ensures NoDigits(ds) && NoDigits(ts) ==>
      ParseDigits(DigitsOnly((if negative then "-" else "") + Layout(n, d, ds, ts))) == n
  {
    var sign := if negative then "-" else "";
    var l := Layout(n, d, ds, ts);
    LayoutStartsWithDigit(n, d, ds, ts);
    if NoDigits(ds) && NoDigits(ts) {
      DigitsOnlyOfNonDigits(sign);
      DigitsOnlyAppend(sign, l);
      assert DigitsOnly(sign + l) == DigitsOnly(l);
      LayoutReadBack(n, d, ds, ts);
    }
  }

  /** A number that rounds to `n` and is printed without a sign is the
      layout of `n`. */
  lemma UnsignedFormat(x: real, dec: int, ds: string, ts: string, n: nat, l: string)
    requires Rounded(x, Shown(dec)) == n && !(x < 0.0 && n != 0)
    requires Layout(n, Shown(dec), ds, ts) == l
    ensures NumberFormat(x, dec, ds, ts) == l
  {
  }

  /** A negative number that rounds to `n > 0` is a minus sign and the
      layout of `n`. */
  lemma SignedFormat(x: real, dec: int, ds: string, ts: string, n: nat, l: string)
    requires Rounded(x, Shown(dec)) == n && x < 0.0 && n != 0
    requires Layout(n, Shown(dec), ds, ts) == l
    ensures NumberFormat(x, dec, ds, ts) == "-" + l
  {
  }

  lemma LayoutStartsWithDigit(n: nat, d: nat, ds: string, ts: string)
    ensures |Layout(n, d, ds, ts)| >= 1 && IsDigit(Layout(n, d, ds, ts)[0])
  {
    var p := Pow10(d);
    DivMod(n, p);
    GroupStartsWithFirstDigit(Digits(n / p), ts);
  }

  /** The digits of a layout read back as the magnitude laid out. */
  lemma LayoutReadBack(n: nat, d: nat, ds: string, ts: string)
    requires NoDigits(ds) && NoDigits(ts)
    ensures ParseDigits(DigitsOnly(Layout(n, d, ds, ts))) == n
  {
    if d > 0 {
      FractionLayoutReadBack(n, d, ds, ts);
    } else {
      var g := Group(Digits(n), ts);
      assert Layout(n, d, ds, ts) == g;
      GroupKeepsDigits(Digits(n), ts);
      DigitsRoundTrip(n);
    }
  }

  lemma FractionLayoutReadBack(n: nat, d: nat, ds: string, ts: string)
    requires d > 0 && NoDigits(ds) && NoDigits(ts)
    ensures ParseDigits(DigitsOnly(Layout(n, d, ds, ts))) == n
  {
    var p := Pow10(d);
    DivMod(n, p);
    var w := Digits(n / p);
    var f := ZeroPad(Digits(n % p), d);
    FractionLayoutDigits(n, d, ds, ts);
    DigitsFit(n % p, d);
    ParseAppend(w, f);
    ZeroPadReadsTheSame(Digits(n % p), d);
    DigitsRoundTrip(n % p);
    DigitsRoundTrip(n / p);
    assert ParseDigits(w + f) == (n / p) * p + n % p;
  }

  /** With decimals, the digits of a layout are the integer digits followed
      by the padded decimals. */
  lemma FractionLayoutDigits(n: nat, d: nat, ds: string, ts: string)
    requires d > 0 && NoDigits(ds) && NoDigits(ts)
    ensures var p := Pow10(d);
      DigitsOnly(Layout(n, d, ds, ts)) == Digits(n / p) + ZeroPad(Digits(n % p), d)
  {
    var p := Pow10(d);
    DivMod(n, p);
    var w := Digits(n / p);
    var g := Group(w, ts);
    var f := ZeroPad(Digits(n % p), d);
    assert Layout(n, d, ds, ts) == g + ds + f;
    DigitsOnlyAround(g, ds, f);
    GroupKeepsDigits(w, ts);
  }


  /** The rounding of `x` is the integer nearest to `|x| * 10^d`, halves
      going up. */
  lemma RoundedIs(x: real, d: nat, n: nat)
    requires n as real - 0.5 <= Abs(x) * Pow10(d) as real < n as real + 0.5
    ensures Rounded(x, d) == n
  {
  }

  /** Without decimals, a layout is the grouped digits alone. */
  lemma WholeLayout(n: nat, ds: string, ts: string)
    ensures Layout(n, 0, ds, ts) == Group(Digits(n), ts)
  {
    assert Pow10(0) == 1;
  }

  /** With three decimals, the layout of `n` is the grouped thousands, the
      decimal separator and the three last digits, zero padded. */
  lemma ThreeDecimalLayout(n: nat, ds: string, ts: string)
    ensures Layout(n, 3, ds, ts) == Group(Digits(n / 1000), ts) + ds + ZeroPad(Digits(n % 1000), 3)
  {
    assert Pow10(3) == 1000;
  }

  lemma DigitsOf1235()
    ensures Digits(1235) == "1235"
  {
  }

  lemma DigitsOf1234()
    ensures Digits(1234) == "1234"
  {
  }

  lemma DigitsOf1234567()
    ensures Digits(1234567) == "1234567"
  {
    DigitsOf1234();
    assert Digits(12345) == Digits(1234) + "5";
    assert Digits(123456) == Digits(12345) + "6";
    assert Digits(1234567) == Digits(123456) + "7";
  }

  lemma GroupOfFour(a: char, b: char, c: char, d: char, ts: string)
    ensures Group([a, b, c, d], ts) == [a] + ts + [b, c, d]
  {
    assert [a, b, c, d][..1] == [a];
    assert [a, b, c, d][1..] == [b, c, d];
  }

  lemma GroupOfSeven(s: string, ts: string)
    requires |s| == 7
    ensures Group(s, ts) == [s[0]] + ts + s[1..4] + ts + s[4..]
  {
    var a := s[..4];
    assert s[..|s| - 3] == a;
    GroupOfFour(a[0], a[1], a[2], a[3], ts);
    assert a == [a[0], a[1], a[2], a[3]];
    assert s[1..4] == [a[1], a[2], a[3]];
  }

  /** The layout of 1234567 thousandths. */
  lemma DecimalsOf1234567(ds: string, ts: string)
    ensures Layout(1234567, 3, ds, ts) == "1" + ts + "234" + ds + "567"
  {
    ThreeDecimalLayout(1234567, ds, ts);
    assert 1234567 / 1000 == 1234 && 1234567 % 1000 == 567;
    DigitsOf1234();
    GroupOfFour('1', '2', '3', '4', ts);
    assert Digits(567) == "567";
    assert ZeroPad("567", 3) == "567";
  }

  /** 1235 without decimals: the thousands, a separator, the rest. */
  lemma LayoutOf1235(ds: string, ts: string)
    ensures Layout(1235, 0, ds, ts) == "1" + ts + "235"
  {
    WholeLayout(1235, ds, ts);
    DigitsOf1235();
    GroupOfFour('1', '2', '3', '5', ts);
  }

  /** 1235 thousandths: one, the decimal separator, 235. */
  lemma LayoutOf1235Thousandths(ds: string, ts: string)
    ensures Layout(1235, 3, ds, ts) == "1" + ds + "235"
  {
    ThreeDecimalLayout(1235, ds, ts);
    assert 1235 / 1000 == 1 && 1235 % 1000 == 235;
    assert Digits(1) == "1" && Group("1", ts) == "1";
    assert Digits(235) == "235" && ZeroPad("235", 3) == "235";
  }

  /** 1234567 without decimals takes two thousands separators. */
  lemma LayoutOf1234567(ds: string, ts: string)
    ensures Layout(1234567, 0, ds, ts) == "1" + ts + "234" + ts + "567"
  {
    WholeLayout(1234567, ds, ts);
    DigitsOf1234567();
    GroupOfSeven("1234567", ts);
  }

  /** A single digit without decimals is that digit. */
  lemma LayoutOfDigit(n: nat, ds: string, ts: string)
    requires n < 10
    ensures Layout(n, 0, ds, ts) == [DigitChar(n)]
  {
    WholeLayout(n, ds, ts);
  }

  /** 1234.567 is exactly 1234567 thousandths. */
  lemma ThousandthsOf1234567()
    ensures Rounded(1234.567, Shown(3)) == 1234567
  {
    assert Pow10(3) == 1000;
    RoundedIs(1234.567, 3, 1234567);
  }

  /** 1234.567 with no decimals, ',' and '.': "1.235". */
  lemma FormatsWithoutDecimals()
    ensures NumberFormat(1234.567, 0, ",", ".") == "1.235"
  {
    RoundedIs(1234.567, 0, 1235);
    LayoutOf1235(",", ".");
    UnsignedFormat(1234.567, 0, ",", ".", 1235, "1.235");
  }

  /** The same number with three decimals: "1.234,567". */
  lemma FormatsWithDecimals()
    ensures NumberFormat(1234.567, 3, ",", ".") == "1.234,567"
  {
    ThousandthsOf1234567();
    DecimalsOf1234567(",", ".");
    UnsignedFormat(1234.567, 3, ",", ".", 1234567, "1.234,567");
  }

  /** A negative number keeps its minus sign: "-1.235". */
  lemma FormatsNegative()
    ensures NumberFormat(-1234.567, 0, ",", ".") == "-1.235"
  {
    RoundedIs(-1234.567, 0, 1235);
    LayoutOf1235(",", ".");
    SignedFormat(-1234.567, 0, ",", ".", 1235, "1.235");
  }

  /** A value that rounds to zero is printed without a sign: "0". */
  lemma FormatsZero()
    ensures NumberFormat(0.0, 0, ",", ".") == "0"
  {
    RoundedIs(0.0, 0, 0);
    LayoutOfDigit(0, ",", ".");
    UnsignedFormat(0.0, 0, ",", ".", 0, "0");
  }

  /** Zero with a space as thousands separator is still "0". */
  lemma FormatsZeroWithSpaces()
    ensures NumberFormat(0.0, 0, ",", " ") == "0"
  {
    RoundedIs(0.0, 0, 0);
    LayoutOfDigit(0, ",", " ");
    UnsignedFormat(0.0, 0, ",", " ", 0, "0");
  }

  /** A small negative value that rounds to zero loses its sign: "0". */
  lemma FormatsNegativeZero()
    ensures NumberFormat(-0.4, 0, ",", ".") == "0"
  {
    RoundedIs(-0.4, 0, 0);
    LayoutOfDigit(0, ",", ".");
    UnsignedFormat(-0.4, 0, ",", ".", 0, "0");
  }

  /** A space as thousands separator: "1 235". */
  lemma FormatsWithSpaces()
    ensures NumberFormat(1234.567, 0, ",", " ") == "1 235"
  {
    RoundedIs(1234.567, 0, 1235);
    LayoutOf1235(",", " ");
    UnsignedFormat(1234.567, 0, ",", " ", 1235, "1 235");
  }

  /** A space as thousands separator and three decimals: "1 234,567". */
  lemma FormatsWithSpacesAndDecimals()
    ensures NumberFormat(1234.567, 3, ",", " ") == "1 234,567"
  {
    ThousandthsOf1234567();
    DecimalsOf1234567(",", " ");
    UnsignedFormat(1234.567, 3, ",", " ", 1234567, "1 234,567");
  }

  /** Seven integer digits take two thousands separators. */
  lemma FormatsMillions(ts: string)
    ensures NumberFormat(1234567.0, 0, ",", ts) == "1" + ts + "234" + ts + "567"
  {
    RoundedIs(1234567.0, 0, 1234567);
    LayoutOf1234567(",", ts);
    UnsignedFormat(1234567.0, 0, ",", ts, 1234567, "1" + ts + "234" + ts + "567");
  }

  /** Rounding half away from zero at the third decimal: "1,235", whatever
      the thousands separator, as the integer part is one digit. */
  lemma FormatsRoundingHalfUp(ts: string)
    ensures NumberFormat(1.234567, 3, ",", ts) == "1,235"
  {
    RoundedIs(1.234567, 3, 1235);
    LayoutOf1235Thousandths(",", ts);
    UnsignedFormat(1.234567, 3, ",", ts, 1235, "1,235");
  }

  /** Without decimals, 1.234567 is "1". */
  lemma FormatsJustOverOne(ts: string)
    ensures NumberFormat(1.234567, 0, ",", ts) == "1"
  {
    RoundedIs(1.234567, 0, 1);
    LayoutOfDigit(1, ",", ts);
    UnsignedFormat(1.234567, 0, ",", ts, 1, "1");
  }

  /** A negative number with a space as thousands separator: "-1 235". */
  lemma FormatsNegativeWithSpaces()
    ensures NumberFormat(-1234.567, 0, ",", " ") == "-1 235"
  {
    RoundedIs(-1234.567, 0, 1235);
    LayoutOf1235(",", " ");
    SignedFormat(-1234.567, 0, ",", " ", 1235, "1 235");
  }

  /** A half rounds up: "1". */
  lemma FormatsHalf()
    ensures NumberFormat(0.5, 0, ",", ".") == "1"
  {
    RoundedIs(0.5, 0, 1);
    LayoutOfDigit(1, ",", ".");
    UnsignedFormat(0.5, 0, ",", ".", 1, "1");
  }

  /** A negative half rounds away from zero: "-1". */
  lemma FormatsNegativeHalf()
    ensures NumberFormat(-0.5, 0, ",", ".") == "-1"
  {
    RoundedIs(-0.5, 0, 1);
    LayoutOfDigit(1, ",", ".");
    SignedFormat(-0.5, 0, ",", ".", 1, "1");
  }
}
