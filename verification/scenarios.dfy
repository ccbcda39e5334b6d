/**
 * The behaviour the library's tests describe, stated about the model: unit
 * conversions of each kind, the measures a constructor builds, the add,
 * subtract, multiply and divide chains, the exception for a foreign unit,
 * and the strings `format`, `formatWithSymbol` and `__toString` produce.
 */
module Scenarios {
  import opened Wrappers
  import opened Calculatable
  import opened Kinds
  import opened Conversion
  import opened Tables
  import opened Formatting
  import opened Measures

  lemma Thousand(b: real)
    requires b == 10.0
    ensures Pow(b, 3) == 1000.0 && Pow(b, 6) == 1000000.0
  {
    assert Pow(b, 3) == b * b * b;
    assert Pow(b, 6) == b * b * b * Pow(b, 3);
  }

  lemma Once(b: real)
    ensures Pow(b, 1) == b
  {
  }

  /** Converting from the `i`-th unit `a` down to the `j`-th unit `b`
      multiplies by `p`, the radix raised to `j - i`. */
  lemma Down(k: Kind, i: nat, j: nat, a: string, b: string, p: real, v: real)
    requires i <= j < |Units(k)| && Units(k)[i] == a && Units(k)[j] == b && Pow(Rate(k) as real, j - i) == p
    ensures Convert(k, a, b, v).Success? && Scales(p, v, Convert(k, a, b, v).value)
  {
    ConvertDownward(k, i, j, v);
  }

  /** Converting from the `j`-th unit `b` up to the `i`-th unit `a`
      divides by `p`, the radix raised to `j - i`. */
  lemma Up(k: Kind, i: nat, j: nat, a: string, b: string, p: real, v: real)
    requires i <= j < |Units(k)| && Units(k)[i] == a && Units(k)[j] == b && Pow(Rate(k) as real, j - i) == p
    ensures Convert(k, b, a, v).Success? && Scales(p, Convert(k, b, a, v).value, v)
  {
    ConvertUpward(k, i, j, v);
  }

  /** A Distance in kilometres is a thousand times as many metres. */
  lemma KilometresToMetres(v: real)
    ensures Convert(Distance, "km", "m", v).Success?
    ensures Scales(1000.0, v, Convert(Distance, "km", "m", v).value)
  {
    Thousand(Rate(Distance) as real);
    Down(Distance, 0, 3, "km", "m", 1000.0, v);
  }

  /** A Distance in metres is a thousandth as many kilometres. */
  lemma MetresToKilometres(v: real)
    ensures Convert(Distance, "m", "km", v).Success?
    ensures Scales(1000.0, Convert(Distance, "m", "km", v).value, v)
  {
    Thousand(Rate(Distance) as real);
    Up(Distance, 0, 3, "km", "m", 1000.0, v);
  }

  /** A Distance in kilometres is a million times as many millimetres. */
  lemma KilometresToMillimetres(v: real)
    ensures Convert(Distance, "km", "mm", v).Success?
    ensures Scales(1000000.0, v, Convert(Distance, "km", "mm", v).value)
  {
    Thousand(Rate(Distance) as real);
    Down(Distance, 0, 6, "km", "mm", 1000000.0, v);
  }

  /** A Weight in kilograms is a thousand times as many grams. */
  lemma KilogramsToGrams(v: real)
    ensures Convert(Weight, "kg", "g", v).Success?
    ensures Scales(1000.0, v, Convert(Weight, "kg", "g", v).value)
  {
    Once(Rate(Weight) as real);
    Down(Weight, 1, 2, "kg", "g", 1000.0, v);
  }

  /** A Weight in tonnes is a thousand times as many kilograms. */
  lemma TonnesToKilograms(v: real)
    ensures Convert(Weight, "t", "kg", v).Success?
    ensures Scales(1000.0, v, Convert(Weight, "t", "kg", v).value)
  {
    Once(Rate(Weight) as real);
    Down(Weight, 0, 1, "t", "kg", 1000.0, v);
  }

  /** A LiquidVolume in kilolitres is a thousand times as many litres. */
  lemma KilolitresToLitres(v: real)
    ensures Convert(LiquidVolume, "kl", "l", v).Success?
    ensures Scales(1000.0, v, Convert(LiquidVolume, "kl", "l", v).value)
  {
    Thousand(Rate(LiquidVolume) as real);
    Down(LiquidVolume, 0, 3, "kl", "l", 1000.0, v);
  }

  /** A LiquidVolume in litres is a thousandth as many kilolitres. */
  lemma LitresToKilolitres(v: real)
    ensures Convert(LiquidVolume, "l", "kl", v).Success?
    ensures Scales(1000.0, Convert(LiquidVolume, "l", "kl", v).value, v)
  {
    Thousand(Rate(LiquidVolume) as real);
    Up(LiquidVolume, 0, 3, "kl", "l", 1000.0, v);
  }

  /** A LiquidVolume in kilolitres is a million times as many millilitres. */
  lemma KilolitresToMillilitres(v: real)
    ensures Convert(LiquidVolume, "kl", "ml", v).Success?
    ensures Scales(1000000.0, v, Convert(LiquidVolume, "kl", "ml", v).value)
  {
    Thousand(Rate(LiquidVolume) as real);
    Down(LiquidVolume, 0, 6, "kl", "ml", 1000000.0, v);
  }

  /** A FileSize in kilobytes is 1024 times as many bytes. */
  lemma KilobytesToBytes(v: real)
    ensures Convert(FileSize, "kB", "B", v).Success?
    ensures Scales(1024.0, v, Convert(FileSize, "kB", "B", v).value)
  {
    Once(Rate(FileSize) as real);
    Down(FileSize, 7, 8, "kB", "B", 1024.0, v);
  }

  /** An amount scaled from one unit is the scale itself. */
  lemma ScaledOne(p: real, w: real)
    requires Scales(p, 1.0, w)
    ensures w == p
  {
  }

  /** A yottabyte is 1024 to the eighth bytes. */
  lemma BytesPerYottabyte()
    ensures GetRatio(FileSize, "B", "YB") == Success(Pow(1024.0, 8))
  {
    RatioAt(FileSize, 0);
    RatioAt(FileSize, 8);
    assert Pow(1024.0, 0) == 1.0;
  }

  /** The sum of a list of amounts. */
  function Sum(vs: seq<real>): real
  {
    if vs == [] then 0.0 else Sum(vs[..|vs| - 1]) + vs[|vs| - 1]
  }

  /** The product of the integers from `lo` up to, not including, `hi`. */
  function RangeProduct(lo: int, hi: int): real
    decreases hi - lo
  {
    if hi <= lo then 1.0 else RangeProduct(lo, hi - 1) * (hi - 1) as real
  }

  lemma SumOfSix(a: real, b: real, c: real, d: real, e: real, f: real)
    ensures Sum([a, b, c, d, e, f]) == a + b + c + d + e + f
  {
    assert [a, b, c, d, e, f][..5] == [a, b, c, d, e];
    assert [a, b, c, d, e][..4] == [a, b, c, d];
    assert [a, b, c, d][..3] == [a, b, c];
    assert [a, b, c][..2] == [a, b];
    assert [a, b][..1] == [a];
    assert [a][..0] == [];
    assert Sum([a]) == a;
    assert Sum([a, b]) == a + b;
    assert Sum([a, b, c]) == a + b + c;
    assert Sum([a, b, c, d]) == a + b + c + d;
    assert Sum([a, b, c, d, e]) == a + b + c + d + e;
  }

  /** Ten factors from 1 to 10, or from -10 to -1, multiply to 10!. */
  lemma TenFactorial()
    ensures RangeProduct(1, 11) == 3628800.0
    ensures RangeProduct(-10, 0) == 3628800.0
  {
  }

  /** A new measure of the given kind, value and unit, made without
      options, as the add and subtract helpers make their operand. */
  method Amount(k: Kind, v: real, u: string) returns (m: UnitMeasure)
    requires u in Units(k)
    ensures fresh(m) && m.kind == k && m.value == v && m.unit == u
  {
    var r := UnitMeasure.MakeAmount(k, v, u);
    m := r.value;
  }

  /** A new measure of the given kind, value and unit, without options:
      its unit is its own symbol, its unit's name is the default one, and
      it formats with no decimals, ',' and '.'. */
  method Made(k: Kind, v: real, u: string) returns (m: UnitMeasure)
    requires u in Units(k)
    ensures fresh(m) && m.kind == k && m.Valid() && m.value == v && m.unit == u
    ensures m.Symbol() == Some(u)
    ensures forall i :: 0 <= i < |Units(k)| && Units(k)[i] == u ==> m.Name() == Success(Some(NameList(k)[i]))
    ensures m.decimals == 0 && m.decimalSeparator == "," && m.thousandsSeparator == "."
  {
    MakeWithoutOptions(k, v, u);
    var r := UnitMeasure.Make(k, v, u, NoOptions);
    m := r.value;
    MadeLookups(m);
  }

  /** In the state a constructor without options leaves, the unit is its
      own symbol and has its default name. */
  lemma MadeLookups(m: UnitMeasure)
    requires m.unit in Units(m.kind) && m.State() == MadeState(m.kind, m.value, m.unit)
    ensures m.Symbol() == Some(m.unit)
    ensures forall i :: 0 <= i < |Units(m.kind)| && Units(m.kind)[i] == m.unit ==> m.Name() == Success(Some(NameList(m.kind)[i]))
  {
  }

  /** A Distance converted to another of its units: a new Distance of the
      converted value in that unit, with the default symbols and format. */
  method DistanceIn(d: UnitMeasure, t: string) returns (c: UnitMeasure)
    requires d.kind == Distance && d.unit in Units(Distance) && t in Units(Distance) && t != d.unit
    ensures fresh(c) && c.kind == Distance && c.value == Convert(Distance, d.unit, t, d.value).value && c.unit == t
    ensures c.Symbol() == Some(t)
    ensures c.decimals == 0 && c.decimalSeparator == "," && c.thousandsSeparator == "."
  {
    var r := d.DistanceTo(t);
    c := r.value;
  }

  /** Adding amounts of the measure's own unit one after the other: the
      value is their running sum. */
  method AddEach(m: UnitMeasure, vs: seq<real>)
    requires m.unit in Units(m.kind)
    modifies m
    ensures m.State() == old(m.State()).(value := old(m.value) + Sum(vs))
  {
    var i := 0;
    while i < |vs|
      invariant i <= |vs|
      invariant m.State() == old(m.State()).(value := old(m.value) + Sum(vs[..i]))
    {
      ConvertIdentity(m.kind, m.unit, vs[i]);
      var o := m.AddAmount(vs[i], m.unit);
      SumStep(old(m.value), vs, i);
      i := i + 1;
    }
    assert vs[..i] == vs;
  }

  /** Adding the next amount to a running sum. */
  lemma SumStep(a: real, vs: seq<real>, i: nat)
    requires i < |vs|
    ensures a + Sum(vs[..i]) + vs[i] == a + Sum(vs[..i + 1])
  {
    assert vs[..i + 1][..i] == vs[..i];
  }

  /** Multiplying by `lo`, `lo + 1`, ..., `hi - 1` in turn, as PHP's
      `range($lo, $hi - 1)` lists them: the value is scaled by their
      product. */
  method MultiplyRange(m: UnitMeasure, lo: int, hi: int)
    requires lo <= hi
    modifies m
    ensures m.State() == old(m.State()).(value := old(m.value) * RangeProduct(lo, hi))
  {
    for n := lo to hi
      invariant m.State() == old(m.State()).(value := old(m.value) * RangeProduct(lo, n))
    {
      m.Multiply(n as real);
    }
  }

  /** Dividing by `lo`, `lo + 1`, ..., `hi - 1` in turn, none of them zero:
      the value is divided by their product. */
  method DivideRange(m: UnitMeasure, lo: int, hi: int)
    requires 0 < lo <= hi
    modifies m
    ensures RangeProduct(lo, hi) > 0.0
    ensures m.State() == old(m.State()).(value := old(m.value) / RangeProduct(lo, hi))
  {
    for n := lo to hi
      invariant RangeProduct(lo, n) > 0.0
      invariant m.State() == old(m.State()).(value := old(m.value) / RangeProduct(lo, n))
    {
      var o := m.Divide(n as real);
      DivideStep(old(m.value), lo, n);
    }
  }

  /** Dividing by the product so far and then by `n` is dividing by the
      product up to `n`. */
  lemma DivideStep(a: real, lo: int, n: int)
    requires 0 < lo <= n && RangeProduct(lo, n) > 0.0
    ensures RangeProduct(lo, n + 1) > 0.0
    ensures a / RangeProduct(lo, n) / (n as real) == a / RangeProduct(lo, n + 1)
  {
    assert RangeProduct(lo, n + 1) == RangeProduct(lo, n) * n as real;
    DivideTwice(a, RangeProduct(lo, n), n as real);
  }

  lemma DivideTwice(a: real, p: real, d: real)
    requires p > 0.0 && d > 0.0
    ensures p * d > 0.0 && a / p / d == a / (p * d)
  {
  }

  /** Adding 1, 10, 100, 1000, 0.1 and 0.01 metres to a new Distance. */
  method DistanceAddsUp() returns (total: real)
    ensures total == 1111.11
  {
    var d := Amount(Distance, 0.0, "m");
    SumOfSix(1.0, 10.0, 100.0, 1000.0, 0.1, 0.01);
    AddEach(d, [1.0, 10.0, 100.0, 1000.0, 0.1, 0.01]);
    total := d.value;
  }

  /** Adding a kilometre to zero metres gives a thousand metres. */
  method AddKilometre() returns (total: real)
    ensures total == 1000.0
  {
    var d := Amount(Distance, 0.0, "m");
    KilometresToMetres(1.0);
    ScaledOne(1000.0, Convert(Distance, "km", "m", 1.0).value);
    var o := d.AddAmount(1.0, "km");
    total := d.value;
  }

  /** Adding a one-kilometre Distance object to zero metres gives a
      thousand metres and leaves the added object as it was. */
  method AddKilometreObject() returns (total: real, operand: real, operandUnit: string)
    ensures total == 1000.0 && operand == 1.0 && operandUnit == "km"
  {
    var d := Amount(Distance, 0.0, "m");
    var km := Amount(Distance, 1.0, "km");
    KilometresToMetres(1.0);
    ScaledOne(1000.0, Convert(Distance, "km", "m", 1.0).value);
    var o := d.Add(km);
    total, operand, operandUnit := d.value, km.value, km.unit;
  }

  /** Adding a tonne to zero kilograms gives a thousand kilograms. */
  method AddTonne() returns (total: real)
    ensures total == 1000.0
  {
    var w := Amount(Weight, 0.0, "kg");
    TonnesToKilograms(1.0);
    ScaledOne(1000.0, Convert(Weight, "t", "kg", 1.0).value);
    var o := w.AddAmount(1.0, "t");
    total := w.value;
  }

  /** Adding a kilobyte to zero bytes gives 1024 bytes. */
  method AddKilobyte() returns (total: real)
    ensures total == 1024.0
  {
    var f := Amount(FileSize, 0.0, "B");
    KilobytesToBytes(1.0);
    ScaledOne(1024.0, Convert(FileSize, "kB", "B", 1.0).value);
    var o := f.AddAmount(1.0, "kB");
    total := f.value;
  }

  /** Subtracting 1 and then 99 from a new measure gives -1 and then -100;
      subtracting -1 and then -99 gives 1 and then 100. */
  method SubtractTwice(k: Kind, a: real, b: real) returns (first: real, second: real)
    ensures first == -a && second == -a - b
  {
    var m := Amount(k, 0.0, DefaultUnit(k));
    ConvertIdentity(k, DefaultUnit(k), a);
    ConvertIdentity(k, DefaultUnit(k), b);
    var o := m.SubAmount(a, DefaultUnit(k));
    first := m.value;
    o := m.SubAmount(b, DefaultUnit(k));
    second := m.value;
  }

  /** The subtraction chains of the Distance, Weight and FileSize tests. */
  method SubtractionChains() returns (w1: real, w2: real, f1: real, f2: real)
    ensures w1 == -1.0 && w2 == -100.0
    ensures f1 == 1.0 && f2 == 100.0
  {
    w1, w2 := SubtractTwice(Weight, 1.0, 99.0);
    f1, f2 := SubtractTwice(FileSize, -1.0, -99.0);
  }

  /** Multiplying one metre by 1, 2, ..., 10 gives 10! metres; multiplying
      by -10, ..., -1 gives 10! as well. */
  method DistanceMultiplies() returns (up: real, down: real)
    ensures up == 3628800.0 && down == 3628800.0
  {
    TenFactorial();
    var d := Amount(Distance, 1.0, "m");
    MultiplyRange(d, 1, 11);
    up := d.value;
    d.SetValue(1.0);
    MultiplyRange(d, -10, 0);
    down := d.value;
  }

  /** Dividing one metre by 1, 2, ..., 10 gives 1 / 10! metres. */
  method DistanceDivides() returns (v: real)
    ensures v == 1.0 / 3628800.0
  {
    TenFactorial();
    var d := Amount(Distance, 1.0, "m");
    DivideRange(d, 1, 11);
    v := d.value;
  }

  /** Dividing by zero throws "Division by zero" and keeps the value. */
  method DivideByZero() returns (o: Outcome<CalcError>, v: real)
    ensures o == Fail(DivisionByZero) && v == 0.0
  {
    var d := Amount(Distance, 0.0, "m");
    o := d.Divide(0.0);
    v := d.value;
  }

  /** Setting the unit of a Distance to "litre" throws, naming the unit and
      the class, and keeps the unit. */
  method DistanceRejectsLitre() returns (o: Outcome<InvalidUnit>, unit: string)
    ensures o == Fail(InvalidUnit("litre", Distance)) && unit == "m"
  {
    var d := Amount(Distance, 0.0, "m");
    o := d.SetUnit("litre");
    unit := d.unit;
  }

  /** A scaled amount is determined by the one it scales. */
  lemma ScaledIs(p: real, y: real, w: real, x: real)
    requires Scales(p, y, w) && p * y == x
    ensures w == x
  {
  }

  /** A non-zero scale can be divided back out. */
  lemma ScaledFrom(p: real, w: real, v: real, x: real)
    requires p != 0.0 && Scales(p, w, v) && p * x == v
    ensures w == x
  {
  }

  /** A new measure made with its defaults: value 0, the default unit, that
      unit as its own symbol, and the unit's default name (for a Distance,
      the one in the static names table). */
  method NewMeasure(k: Kind) returns (value: real, unit: string, symbol: Option<string>, name: Result<Option<string>, InvalidUnit>)
    ensures value == 0.0 && unit == DefaultUnit(k) && symbol == Some(DefaultUnit(k))
    ensures forall i :: 0 <= i < |Units(k)| && Units(k)[i] == DefaultUnit(k) ==> name == Success(Some(NameList(k)[i]))
  {
    var m := Made(k, 0.0, DefaultUnit(k));
    value, unit, symbol, name := m.value, m.unit, m.Symbol(), m.Name();
  }

  /** The name of the default unit of each kind: "metre", "kilogram",
      "litre" and "byte". */
  method NamesOfNewMeasures() returns (distance: Result<Option<string>, InvalidUnit>, weight: Result<Option<string>, InvalidUnit>,
                                       volume: Result<Option<string>, InvalidUnit>, fileSize: Result<Option<string>, InvalidUnit>)
    ensures distance == Success(Some("metre")) && weight == Success(Some("kilogram"))
    ensures volume == Success(Some("litre")) && fileSize == Success(Some("byte"))
  {
    var v, u, s;
    v, u, s, distance := NewMeasure(Distance);
    assert Units(Distance)[3] == DefaultUnit(Distance);
    v, u, s, weight := NewMeasure(Weight);
    assert Units(Weight)[1] == DefaultUnit(Weight);
    v, u, s, volume := NewMeasure(LiquidVolume);
    assert Units(LiquidVolume)[3] == DefaultUnit(LiquidVolume);
    v, u, s, fileSize := NewMeasure(FileSize);
    assert Units(FileSize)[8] == DefaultUnit(FileSize);
  }

  /** `format($decimals)` and `formatWithSymbol($decimals)` of a measure
      whose value formats as `f` and whose unit has the symbol `y`. */
  method Shown(m: UnitMeasure, d: Option<int>, f: string, y: string) returns (plain: string, withSymbol: string)
    requires NumberFormat(m.value, d.GetOr(m.decimals), m.decimalSeparator, m.thousandsSeparator) == f
    requires m.Symbol() == Some(y)
    ensures plain == f && withSymbol == f + " " + y
  {
    plain := m.Format(d, None, None);
    withSymbol := m.FormatWithSymbol(d, None, None);
  }

  /** `(string) $measure` of a measure whose value formats as `f` in its
      own format and whose unit has the symbol `y`. */
  method Cast(m: UnitMeasure, f: string, y: string) returns (s: string)
    requires NumberFormat(m.value, m.decimals, m.decimalSeparator, m.thousandsSeparator) == f
    requires m.Symbol() == Some(y)
    ensures s == f + " " + y
  {
    s := m.ToString();
  }

  /** A Distance shown with its symbol. */
  lemma DistanceJoins()
    ensures "0" + " " + "m" == "0 m" && "1.235" + " " + "m" == "1.235 m"
    ensures "1.234,567" + " " + "m" == "1.234,567 m" && "-1.235" + " " + "m" == "-1.235 m"
    ensures "1" + " " + "km" == "1 km" && "1,235" + " " + "km" == "1,235 km"
    ensures "1" + "." + "234" + "." + "567" == "1.234.567" && "1.234.567" + " " + "mm" == "1.234.567 mm"
  {
  }

  /** A new Distance formats as "0", and as "0 m" with its symbol or as a
      string. */
  method NewDistanceFormats() returns (plain: string, withSymbol: string, asString: string)
    ensures plain == "0" && withSymbol == "0 m" && asString == "0 m"
  {
    DistanceJoins();
    var d := Made(Distance, 0.0, "m");
    FormatsZero();
    plain, withSymbol := Shown(d, None, "0", "m");
    asString := Cast(d, "0", "m");
  }

  /** Once its value is set to 1234.567, a Distance formats as "1.235"
      ("1.235 m" with its symbol), and with three decimals as "1.234,567"
      ("1.234,567 m"). */
  method DistanceFormats() returns (plain: string, precise: string, withSymbol: string, preciseWithSymbol: string)
    ensures plain == "1.235" && precise == "1.234,567"
    ensures withSymbol == "1.235 m" && preciseWithSymbol == "1.234,567 m"
  {
    DistanceJoins();
    var d := Made(Distance, 0.0, "m");
    d.SetValue(1234.567);
    FormatsWithoutDecimals();
    plain, withSymbol := Shown(d, None, "1.235", "m");
    FormatsWithDecimals();
    precise, preciseWithSymbol := Shown(d, Some(3), "1.234,567", "m");
  }

  /** 1234.567 metres are 1.234567 kilometres. */
  lemma ThousandthOf1234567(w: real)
    requires Scales(1000.0, w, 1234.567)
    ensures w == 1.234567
  {
  }

  /** 1.234567 kilometres are 1234567 millimetres. */
  lemma MillionTimes1234567(w: real)
    requires Scales(1000000.0, 1.234567, w)
    ensures w == 1234567.0
  {
  }

  /** `to('km')` of a Distance of 1234.567 metres: 1.234567 kilometres. */
  method MetresInKilometres() returns (k: UnitMeasure)
    ensures fresh(k) && k.kind == Distance && k.value == 1.234567 && k.unit == "km" && k.Symbol() == Some("km")
    ensures k.decimals == 0 && k.decimalSeparator == "," && k.thousandsSeparator == "."
  {
    var d := Made(Distance, 1234.567, "m");
    MetresToKilometres(1234.567);
    ThousandthOf1234567(Convert(Distance, "m", "km", 1234.567).value);
    k := DistanceIn(d, "km");
  }

  /** 1234.567 metres converted to kilometres show as "1 km" and, with
      three decimals, as "1,235 km". */
  method DistanceFormatsInKilometres() returns (km: string, kmPrecise: string)
    ensures km == "1 km" && kmPrecise == "1,235 km"
  {
    DistanceJoins();
    var k := MetresInKilometres();
    var plain;
    FormatsJustOverOne(".");
    plain, km := Shown(k, None, "1", "km");
    FormatsRoundingHalfUp(".");
    plain, kmPrecise := Shown(k, Some(3), "1,235", "km");
  }

  /** The 1.234567 kilometres of that conversion, converted on to
      millimetres, show as "1.234.567 mm". */
  method KilometresFormatInMillimetres() returns (mm: string)
    ensures mm == "1.234.567 mm"
  {
    DistanceJoins();
    var k := Made(Distance, 1.234567, "km");
    KilometresToMillimetres(1.234567);
    MillionTimes1234567(Convert(Distance, "km", "mm", 1.234567).value);
    var m := DistanceIn(k, "mm");
    var plain;
    FormatsMillions(".");
    plain, mm := Shown(m, None, "1.234.567", "mm");
  }

  /** A Distance as a string: "1.235 m" at 1234.567 metres and "-1.235 m"
      at -1234.567 metres. */
  method DistanceToString() returns (positive: string, negative: string)
    ensures positive == "1.235 m" && negative == "-1.235 m"
  {
    DistanceJoins();
    var d := Made(Distance, 0.0, "m");
    d.SetValue(1234.567);
    FormatsWithoutDecimals();
    positive := Cast(d, "1.235", "m");
    d.SetValue(-1234.567);
    FormatsNegative();
    negative := Cast(d, "-1.235", "m");
  }

  /** The symbols of the package's liquid-volume configuration: every unit
      is its own symbol. */
  const ConfiguredVolumeSymbols: seq<string> := ["kl", "hl", "dal", "l", "dl", "cl", "ml"]

  /** The capitalised unit names of the package's liquid-volume
      configuration, in unit order. */
  const ConfiguredVolumeNames: seq<string> :=
    ["Kilolitre", "Hectolitre", "Decalitre", "Litre", "Decilitre", "Centilitre", "Millilitre"]

  /** The lower-case symbols of the package's file-size configuration. */
  const ConfiguredFileSizeSymbols: seq<string> := ["yb", "zb", "eb", "pb", "tb", "gb", "mb", "kb", "b"]

  /** The unit names of the package's file-size configuration. */
  const ConfiguredFileSizeNames: seq<string> :=
    ["yottabyte", "zettabyte", "exabyte", "petabyte", "terabyte", "gigabyte", "megabyte", "kilobyte", "b"]

  /** Options as the package configuration gives them: the units have the
      symbols `ss` and the names `ns` in unit order, and numbers format with
      `d` decimals and the separators `ds` and `ts`. */
  function ConfigOptions(k: Kind, ss: seq<string>, ns: seq<string>, d: int, ds: string, ts: string): Options
    requires |ss| == |Units(k)| && |ns| == |Units(k)|
  {
    Options(Combine(Units(k), ss), Combine(Units(k), ns), Some(d), Some(ds), Some(ts), None, None, None)
  }

  /** The state of a measure made with those options. */
  function ConfiguredState(k: Kind, v: real, u: string, ss: seq<string>, ns: seq<string>, d: int, ds: string, ts: string): MeasureState
    requires |ss| == |Units(k)| && |ns| == |Units(k)|
  {
    MeasureState(v, u, Assign(map[], Combine(Units(k), ss)), Assign(map[], Combine(Units(k), ns)), d, ds, ts)
  }

  /** Making a Weight, LiquidVolume or FileSize with configured options
      stores both tables in full and the configured format. */
  lemma ConfiguredConstruct(k: Kind, v: real, u: string, ss: seq<string>, ns: seq<string>, d: int, ds: string, ts: string)
    requires k != Distance && u in Units(k) && |ss| == |Units(k)| && |ns| == |Units(k)|
    ensures Construct(k, v, u, ConfigOptions(k, ss, ns, d, ds, ts)) == Success(ConfiguredState(k, v, u, ss, ns, d, ds, ts))
  {
    var opts := ConfigOptions(k, ss, ns, d, ds, ts);
    ConfiguredSymbolsStored(k, ss);
    ConfiguredNamesStored(k, ns);
    InitPasses(k, Defaults, v, u, opts, Assign(map[], Combine(Units(k), ss)), Assign(map[], Combine(Units(k), ns)));
    assert AfterInit(k, Defaults, v, u, opts) == (ConfiguredState(k, v, u, ss, ns, d, ds, ts), Pass);
  }

  /** Storing configured symbols, one per unit, never throws. */
  lemma ConfiguredSymbolsStored(k: Kind, ss: seq<string>)
    requires |ss| == |Units(k)|
    ensures Store(k, map[], SymbolsGiven(k, Combine(Units(k), ss))) == (Assign(map[], Combine(Units(k), ss)), Pass)
  {
    CombineValid(k, Units(k), ss);
    StoreAll(k, map[], Combine(Units(k), ss));
  }

  /** Storing configured names, one per unit, never throws. */
  lemma ConfiguredNamesStored(k: Kind, ns: seq<string>)
    requires |ns| == |Units(k)|
    ensures Store(k, map[], NamesGiven(k, Combine(Units(k), ns))) == (Assign(map[], Combine(Units(k), ns)), Pass)
  {
    CombineValid(k, Units(k), ns);
    StoreAll(k, map[], Combine(Units(k), ns));
  }

  /** In a configured state, the unit has its configured symbol and its
      configured name. */
  lemma ConfiguredLookups(m: UnitMeasure, ss: seq<string>, ns: seq<string>)
    requires m.kind != Distance && m.unit in Units(m.kind) && |ss| == |Units(m.kind)| && |ns| == |Units(m.kind)|
    requires m.State() == ConfiguredState(m.kind, m.value, m.unit, ss, ns, m.decimals, m.decimalSeparator, m.thousandsSeparator)
    ensures forall i :: 0 <= i < |Units(m.kind)| ==> Units(m.kind)[i] in m.symbols && m.symbols[Units(m.kind)[i]] == ss[i]
    ensures forall i :: 0 <= i < |Units(m.kind)| && Units(m.kind)[i] == m.unit ==>
      m.Symbol() == Some(ss[i]) && m.Name() == Success(Some(ns[i]))
  {
    forall i | 0 <= i < |Units(m.kind)|
      ensures Units(m.kind)[i] in m.symbols && m.symbols[Units(m.kind)[i]] == ss[i]
    {
      ConfiguredEntryAt(m.kind, ss, i);
    }
    forall i | 0 <= i < |Units(m.kind)| && Units(m.kind)[i] == m.unit
      ensures m.Name() == Success(Some(ns[i]))
    {
      ConfiguredEntryAt(m.kind, ns, i);
    }
  }

  /** A configured table gives the `i`-th unit the `i`-th text. */
  lemma ConfiguredEntryAt(k: Kind, ts: seq<string>, i: nat)
    requires |ts| == |Units(k)| && i < |Units(k)|
    ensures Units(k)[i] in Assign(map[], Combine(Units(k), ts)) && Assign(map[], Combine(Units(k), ts))[Units(k)[i]] == ts[i]
  {
    UnitsAreDistinct(k);
    CombineLookup(map[], Units(k), ts, i);
  }

  /** A Weight, LiquidVolume or FileSize made with configured options. */
  method Configured(k: Kind, v: real, u: string, ss: seq<string>, ns: seq<string>, d: int, ds: string, ts: string) returns (m: UnitMeasure)
    requires k != Distance && u in Units(k) && |ss| == |Units(k)| && |ns| == |Units(k)|
    ensures fresh(m) && m.kind == k && m.Valid() && m.value == v && m.unit == u
    ensures forall i :: 0 <= i < |Units(k)| ==> Units(k)[i] in m.symbols && m.symbols[Units(k)[i]] == ss[i]
    ensures forall i :: 0 <= i < |Units(k)| && Units(k)[i] == u ==>
      m.Symbol() == Some(ss[i]) && m.Name() == Success(Some(ns[i]))
    ensures m.decimals == d && m.decimalSeparator == ds && m.thousandsSeparator == ts
  {
    ConfiguredConstruct(k, v, u, ss, ns, d, ds, ts);
    var r := UnitMeasure.Make(k, v, u, ConfigOptions(k, ss, ns, d, ds, ts));
    m := r.value;
    ConfiguredLookups(m, ss, ns);
  }

  /** A configured measure converted to another of its units: a new
      measure of the converted value in that unit that keeps the symbols,
      names and format. */
  method ConvertedIn(m: UnitMeasure, t: string) returns (c: UnitMeasure)
    requires m.kind != Distance && m.Valid()
    requires t in Units(m.kind) && t != m.unit
    ensures fresh(c) && c.kind == m.kind && c.value == Convert(m.kind, m.unit, t, m.value).value && c.unit == t
    ensures c.symbols == m.symbols && c.names == m.names
    ensures t in m.symbols && m.symbols[t] == t ==> c.Symbol() == Some(t)
    ensures c.decimals == m.decimals && c.decimalSeparator == m.decimalSeparator && c.thousandsSeparator == m.thousandsSeparator
  {
    var r := m.BaseTo(t);
    c := r.value;
  }

  /** The LiquidVolume of the package configuration, of value `v` in unit
      `u`: every unit its own symbol, capitalised names, no decimals, ','
      and a space. */
  method ConfiguredVolume(v: real, u: string) returns (m: UnitMeasure)
    requires u in Units(LiquidVolume)
    ensures fresh(m) && m.kind == LiquidVolume && m.Valid() && m.value == v && m.unit == u
    ensures m.Symbol() == Some(u) && forall w :: w in Units(LiquidVolume) ==> w in m.symbols && m.symbols[w] == w
    ensures forall i :: 0 <= i < |Units(LiquidVolume)| && Units(LiquidVolume)[i] == u ==>
      m.Name() == Success(Some(ConfiguredVolumeNames[i]))
    ensures m.decimals == 0 && m.decimalSeparator == "," && m.thousandsSeparator == " "
  {
    assert ConfiguredVolumeSymbols == Units(LiquidVolume);
    m := Configured(LiquidVolume, v, u, ConfiguredVolumeSymbols, ConfiguredVolumeNames, 0, ",", " ");
  }

  /** The FileSize the configuration makes by default: 0 bytes, with the
      lower-case symbol "b" and the name "b". */
  method NewConfiguredFileSize() returns (value: real, unit: string, symbol: Option<string>, name: Result<Option<string>, InvalidUnit>)
    ensures value == 0.0 && unit == "B" && symbol == Some("b") && name == Success(Some("b"))
  {
    var m := Configured(FileSize, 0.0, "B", ConfiguredFileSizeSymbols, ConfiguredFileSizeNames, 0, ",", " ");
    assert Units(FileSize)[8] == "B";
    value, unit, symbol, name := m.value, m.unit, m.Symbol(), m.Name();
  }

  /** A configured LiquidVolume shown with its symbol. */
  lemma VolumeJoins()
    ensures "0" + " " + "l" == "0 l" && "1 235" + " " + "l" == "1 235 l"
    ensures "1 234,567" + " " + "l" == "1 234,567 l" && "-1 235" + " " + "l" == "-1 235 l"
    ensures "1" + " " + "kl" == "1 kl" && "1,235" + " " + "kl" == "1,235 kl"
    ensures "1" + " " + "234" + " " + "567" == "1 234 567" && "1 234 567" + " " + "ml" == "1 234 567 ml"
  {
  }

  /** The LiquidVolume the configuration makes by default: 0 litres, with
      symbol "l" and name "Litre". */
  method NewConfiguredVolume() returns (value: real, unit: string, symbol: Option<string>, name: Result<Option<string>, InvalidUnit>)
    ensures value == 0.0 && unit == "l" && symbol == Some("l") && name == Success(Some("Litre"))
  {
    var m := ConfiguredVolume(0.0, "l");
    assert Units(LiquidVolume)[3] == "l";
    value, unit, symbol, name := m.value, m.unit, m.Symbol(), m.Name();
  }

  /** A new configured LiquidVolume formats as "0", and as "0 l" with its
      symbol or as a string. */
  method NewVolumeFormats() returns (plain: string, withSymbol: string, asString: string)
    ensures plain == "0" && withSymbol == "0 l" && asString == "0 l"
  {
    VolumeJoins();
    var m := ConfiguredVolume(0.0, "l");
    FormatsZeroWithSpaces();
    plain, withSymbol := Shown(m, None, "0", "l");
    asString := Cast(m, "0", "l");
  }

  /** At 1234.567 litres, a configured LiquidVolume formats as "1 235"
      ("1 235 l" with its symbol), and with three decimals as "1 234,567"
      ("1 234,567 l"). */
  method VolumeFormats() returns (plain: string, precise: string, withSymbol: string, preciseWithSymbol: string)
    ensures plain == "1 235" && precise == "1 234,567"
    ensures withSymbol == "1 235 l" && preciseWithSymbol == "1 234,567 l"
  {
    VolumeJoins();
    var m := ConfiguredVolume(0.0, "l");
    m.SetValue(1234.567);
    FormatsWithSpaces();
    plain, withSymbol := Shown(m, None, "1 235", "l");
    FormatsWithSpacesAndDecimals();
    precise, preciseWithSymbol := Shown(m, Some(3), "1 234,567", "l");
  }

  /** `to('kl')` of a configured LiquidVolume of 1234.567 litres: 1.234567
      kilolitres in the same format. */
  method LitresInKilolitres() returns (k: UnitMeasure)
    ensures fresh(k) && k.kind == LiquidVolume && k.value == 1.234567 && k.unit == "kl" && k.Symbol() == Some("kl")
    ensures k.decimals == 0 && k.decimalSeparator == "," && k.thousandsSeparator == " "
  {
    var m := ConfiguredVolume(1234.567, "l");
    LitresToKilolitres(1234.567);
    ThousandthOf1234567(Convert(LiquidVolume, "l", "kl", 1234.567).value);
    k := ConvertedIn(m, "kl");
  }

  /** 1234.567 configured litres converted to kilolitres keep the format
      and show as "1 kl" and, with three decimals, as "1,235 kl". */
  method VolumeFormatsInKilolitres() returns (kl: string, klPrecise: string)
    ensures kl == "1 kl" && klPrecise == "1,235 kl"
  {
    VolumeJoins();
    var k := LitresInKilolitres();
    var plain;
    FormatsJustOverOne(" ");
    plain, kl := Shown(k, None, "1", "kl");
    FormatsRoundingHalfUp(" ");
    plain, klPrecise := Shown(k, Some(3), "1,235", "kl");
  }

  /** The 1.234567 configured kilolitres of that conversion, converted on
      to millilitres: "1 234 567 ml". */
  method KilolitresFormatInMillilitres() returns (ml: string)
    ensures ml == "1 234 567 ml"
  {
    VolumeJoins();
    var k := ConfiguredVolume(1.234567, "kl");
    KilolitresToMillilitres(1.234567);
    MillionTimes1234567(Convert(LiquidVolume, "kl", "ml", 1.234567).value);
    var m := ConvertedIn(k, "ml");
    var plain;
    FormatsMillions(" ");
    plain, ml := Shown(m, None, "1 234 567", "ml");
  }

  /** A configured LiquidVolume as a string: "1 235 l" at 1234.567 litres
      and "-1 235 l" at -1234.567 litres. */
  method VolumeToString() returns (positive: string, negative: string)
    ensures positive == "1 235 l" && negative == "-1 235 l"
  {
    VolumeJoins();
    var m := ConfiguredVolume(0.0, "l");
    m.SetValue(1234.567);
    FormatsWithSpaces();
    positive := Cast(m, "1 235", "l");
    m.SetValue(-1234.567);
    FormatsNegativeWithSpaces();
    negative := Cast(m, "-1 235", "l");
  }
}
