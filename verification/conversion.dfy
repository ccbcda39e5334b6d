/**
 * Unit ratios and conversion. Every unit's ratio is the kind's radix raised
 * to the unit's exponent, so ratios grow towards the smaller units; a value
 * is converted by multiplying it with the quotient of two ratios.
 */
module Conversion {
  import opened Wrappers
  import opened Calculatable
  import opened Kinds

  /** `getRatios()`: every unit of the exponent table mapped to
      `calculate($rate, '^', $e)` for its exponent `$e`. */
  function Ratios(k: Kind): (r: map<string, real>)
    ensures forall u :: u in r <==> u in Units(k)
  {
    map u | u in Units(k) :: RaisedRate(k, Exponent(k, u))
  }

  /** One entry of `getRatios()`: `calculate($rate, '^', $e)`. */
  function RaisedRate(k: Kind, e: nat): (r: real)
    ensures r == Pow(Rate(k) as real, e)
  {
    assert Integral(e as real);
    Calculate(Rate(k) as real, "^", e as real).value
  }

  /** The exponent the table gives a unit. The table lists the units in
      declaration order with their positions as exponents
      (`ExponentIsPosition`), so the exponent is the unit's position. */
  function Exponent(k: Kind, u: string): (e: nat)
    requires u in Units(k)
    ensures e < |Units(k)| && Units(k)[e] == u
  {
    IndexOf(Units(k), u)
  }

  /** The first position of `u` in `us`. */
  function IndexOf(us: seq<string>, u: string): (i: nat)
    requires u in us
    ensures i < |us| && us[i] == u && u !in us[..i]
  {
    if us[0] == u then 0
    else
      var i := 1 + IndexOf(us[1..], u);
      assert us[..i] == [us[0]] + us[1..][..i - 1];
      i
  }

  lemma IndexOfAt(us: seq<string>, i: nat)
    requires i < |us|
    requires forall j :: 0 <= j < i ==> us[j] != us[i]
    ensures IndexOf(us, us[i]) == i
  {
  }

  /** The ratio of the `i`-th unit is the radix to the power `i`; in
      particular every ratio is positive. */
  lemma RatioAt(k: Kind, i: nat)
    requires i < |Units(k)|
    ensures Units(k)[i] in Ratios(k) && Ratios(k)[Units(k)[i]] == Pow(Rate(k) as real, i)
    ensures Ratios(k)[Units(k)[i]] > 0.0
  {
    IndexOfAt(Units(k), i);
    PowPositive(Rate(k) as real, i);
  }

  lemma RatioIsPower(k: Kind, u: string)
    requires u in Units(k)
    ensures u in Ratios(k) && Ratios(k)[u] == Pow(Rate(k) as real, Exponent(k, u)) && Ratios(k)[u] > 0.0
  {
    RatioAt(k, Exponent(k, u));
  }

  /** Every entry `unit => exponent` of the literal table in `getRatios()`
      gets the ratio the radix raised to that exponent. */
  lemma RatiosFollowExponentTable(k: Kind, i: nat)
    requires i < |ExponentTable(k)|
    ensures ExponentTable(k)[i].0 in Ratios(k)
    ensures Ratios(k)[ExponentTable(k)[i].0] == Pow(Rate(k) as real, ExponentTable(k)[i].1)
  {
    ExponentIsPosition(k);
    RatioAt(k, i);
  }


  /** Ratios strictly increase down the unit list (from the largest unit to
      the smallest). */
  lemma RatiosIncreaseDownTheList(k: Kind, i: nat, j: nat)
    requires i < j < |Units(k)|
    ensures Ratios(k)[Units(k)[i]] < Ratios(k)[Units(k)[j]]
  {
    RatioAt(k, i);
    RatioAt(k, j);
    PowStrictlyIncreasing(Rate(k) as real, i, j);
  }

  /** `q` scales `y` to `x`: `q * y == x`. */
  predicate Scales(q: real, y: real, x: real)
  {
    q * y == x
  }

  /** An amount `v` of a unit with ratio `y` is the same quantity as an
      amount `w` of a unit with ratio `x`: `v / y == w / x`, written without
      division. */
  predicate SameAmount(v: real, y: real, w: real, x: real)
  {
    v * x == w * y
  }

  /** `$ratios[$u]` for a declared unit: the radix to the unit's exponent,
      always positive. */
  function RatioOf(k: Kind, u: string): (r: real)
    requires u in Units(k)
    ensures u in Ratios(k) && r == Ratios(k)[u]
    ensures r == Pow(Rate(k) as real, Exponent(k, u)) && r > 0.0
  {
    RatioAt(k, Exponent(k, u));
    Ratios(k)[u]
  }

  /** `$ratios[$to] / $ratios[$from]`. */
  function Quotient(x: real, y: real): (q: real)
    requires x > 0.0 && y > 0.0
    ensures q > 0.0 && Scales(q, y, x)
  {
    x / y
  }

  /** `getRatio($to, $from)`: `$from` is checked first, then `$to`; equal
      units give exactly 1, otherwise the ratio scales the `$from` entry of
      the table to the `$to` entry. */
  function GetRatio(k: Kind, to: string, from: string): (r: Result<real, InvalidUnit>)
    ensures from !in Units(k) ==> r == Failure(InvalidUnit(from, k))
    ensures from in Units(k) && to !in Units(k) ==> r == Failure(InvalidUnit(to, k))
    ensures from in Units(k) && to in Units(k) ==>
      r.Success? && r.value > 0.0 && Scales(r.value, RatioOf(k, from), RatioOf(k, to))
    ensures from in Units(k) && to == from ==> r == Success(1.0)
  {
    match CheckUnit(k, from)
    case Fail(e) => Failure(e)
    case Pass =>
      match CheckUnit(k, to)
      case Fail(e) => Failure(e)
      case Pass =>
        if to == from then
          OneScalesToItself(RatioOf(k, from));
          Success(1.0)
        else
          Success(Quotient(RatioOf(k, to), RatioOf(k, from)))
  }

  lemma OneScalesToItself(y: real)
    ensures Scales(1.0, y, y)
  {
  }

  /** `convert($from, $to, $value)`: the value times `getRatio($to, $from)`.
      The result is the same quantity as the input, expressed in `$to`. */
  function Convert(k: Kind, from: string, to: string, v: real): (r: Result<real, InvalidUnit>)
    ensures r.Success? <==> from in Units(k) && to in Units(k)
    ensures r.Failure? ==> r.error == (if from !in Units(k) then InvalidUnit(from, k) else InvalidUnit(to, k))
    ensures r.Success? ==> SameAmount(v, RatioOf(k, from), r.value, RatioOf(k, to))
  {
    match GetRatio(k, to, from)
    case Success(ratio) =>
      ScaledAmount(v, ratio, RatioOf(k, from), RatioOf(k, to));
      Success(v * ratio)
    case Failure(e) => Failure(e)
  }

  lemma ScaledAmount(v: real, q: real, y: real, x: real)
    requires Scales(q, y, x)
    ensures SameAmount(v, y, v * q, x)
  {
  }

  /** Converting to the same unit returns the value itself, with no rounding. */
  lemma ConvertIdentity(k: Kind, u: string, v: real)
    requires u in Units(k)
    ensures Convert(k, u, u, v) == Success(v)
  {
  }

  /** The ratio of unit `j` is the ratio of unit `i` scaled by the radix
      `j - i` times. */
  lemma PowSplit(b: real, i: nat, j: nat)
    requires i <= j
    ensures Scales(Pow(b, j - i), Pow(b, i), Pow(b, j))
  {
    PowAdd(b, i, j - i);
    assert i + (j - i) == j;
  }

  lemma ScaledDown(v: real, w: real, p: real, y: real, x: real)
    requires y > 0.0 && Scales(p, y, x) && SameAmount(v, y, w, x)
    ensures Scales(p, v, w)
  {
    assert w * y == (v * p) * y;
  }

  lemma ScaledUp(v: real, w: real, p: real, y: real, x: real)
    requires y > 0.0 && Scales(p, y, x) && SameAmount(v, x, w, y)
    ensures Scales(p, w, v)
  {
    assert (w * p) * y == v * y;
  }

  /** Converting `d` steps down the unit list multiplies by the radix `d` times. */
  lemma ConvertDownward(k: Kind, i: nat, j: nat, v: real)
    requires i <= j < |Units(k)|
    ensures Convert(k, Units(k)[i], Units(k)[j], v).Success?
    ensures Scales(Pow(Rate(k) as real, j - i), v, Convert(k, Units(k)[i], Units(k)[j], v).value)
  {
    RatioAt(k, i);
    RatioAt(k, j);
    PowSplit(Rate(k) as real, i, j);
    ScaledDown(v, Convert(k, Units(k)[i], Units(k)[j], v).value, Pow(Rate(k) as real, j - i),
      RatioOf(k, Units(k)[i]), RatioOf(k, Units(k)[j]));
  }

  /** Converting `d` steps up the unit list divides by the radix `d` times:
      the result times the radix to the `d` is the original value. */
  lemma ConvertUpward(k: Kind, i: nat, j: nat, v: real)
    requires i <= j < |Units(k)|
    ensures Convert(k, Units(k)[j], Units(k)[i], v).Success?
    ensures Scales(Pow(Rate(k) as real, j - i), Convert(k, Units(k)[j], Units(k)[i], v).value, v)
  {
    RatioAt(k, i);
    RatioAt(k, j);
    PowSplit(Rate(k) as real, i, j);
    ScaledUp(v, Convert(k, Units(k)[j], Units(k)[i], v).value, Pow(Rate(k) as real, j - i),
      RatioOf(k, Units(k)[i]), RatioOf(k, Units(k)[j]));
  }

  /** Only one amount of a unit is the same quantity as a given amount. */
  lemma SameAmountUnique(v: real, y: real, w1: real, w2: real, x: real)
    requires y > 0.0 && SameAmount(v, y, w1, x) && SameAmount(v, y, w2, x)
    ensures w1 == w2
  {
    assert w1 * y == w2 * y;
  }

  /** Being the same quantity is symmetric and transitive. */
  lemma SameAmountChain(v: real, y: real, w: real, x: real, u: real, z: real)
    requires y > 0.0 && x > 0.0 && z > 0.0
    requires SameAmount(v, y, w, x) && SameAmount(w, x, u, z)
    ensures SameAmount(v, y, u, z)
  {
    assert (v * z) * x == (u * y) * x;
  }

  lemma SameAmountBack(v: real, y: real, w: real, x: real, u: real)
    requires x > 0.0 && SameAmount(v, y, w, x) && SameAmount(w, x, u, y)
    ensures u == v
  {
    assert u * x == v * x;
  }

  /** Converting to another unit and back gives the original value. */
  lemma ConvertRoundTrip(k: Kind, a: string, b: string, v: real)
    requires a in Units(k) && b in Units(k)
    ensures Convert(k, b, a, Convert(k, a, b, v).value) == Success(v)
  {
    var w := Convert(k, a, b, v).value;
    SameAmountBack(v, RatioOf(k, a), w, RatioOf(k, b), Convert(k, b, a, w).value);
  }

  /** Converting through an intermediate unit is the same as converting directly. */
  lemma ConvertTransitive(k: Kind, a: string, b: string, c: string, v: real)
    requires a in Units(k) && b in Units(k) && c in Units(k)
    ensures Convert(k, b, c, Convert(k, a, b, v).value) == Convert(k, a, c, v)
  {
    var y, x, z := RatioOf(k, a), RatioOf(k, b), RatioOf(k, c);
    var w := Convert(k, a, b, v).value;
    var u := Convert(k, b, c, w).value;
    SameAmountChain(v, y, w, x, u, z);
    SameAmountUnique(v, y, u, Convert(k, a, c, v).value, z);
  }
}
