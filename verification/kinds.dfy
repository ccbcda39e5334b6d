/**
 * The four measurement kinds and their static tables: the ordered unit list
 * (largest unit first), the radix, the exponent of every unit, the default
 * unit and the default unit names. The list of units stands in for the
 * class constants that the library discovers by reflection.
 */
module Kinds {
  import opened Wrappers

  datatype Kind = Distance | Weight | LiquidVolume | FileSize

  /** `units()`: the unit constants in declaration order; there is at
      least one, and none is declared twice. */
  function Units(k: Kind): (us: seq<string>)
    ensures |us| > 0
    ensures forall i, j :: 0 <= i < j < |us| ==> us[i] != us[j]
  {
    match k
    case Distance => ["km", "hm", "dam", "m", "dm", "cm", "mm"]
    case Weight => ["t", "kg", "g", "mg"]
    case LiquidVolume => ["kl", "hl", "dal", "l", "dl", "cl", "ml"]
    case FileSize => ["YB", "ZB", "EB", "PB", "TB", "GB", "MB", "kB", "B"]
  }

  /** The radix used by `getRatios()`. */
  function Rate(k: Kind): nat
  {
    match k
    case Distance => 10
    case Weight => 1000
    case LiquidVolume => 10
    case FileSize => 1024
  }

  /** The exponent table literal of `getRatios()`, as the ordered list of its
      `unit => exponent` entries. */
  function ExponentTable(k: Kind): seq<(string, nat)>
  {
    match k
    case Distance => [("km", 0), ("hm", 1), ("dam", 2), ("m", 3), ("dm", 4), ("cm", 5), ("mm", 6)]
    case Weight => [("t", 0), ("kg", 1), ("g", 2), ("mg", 3)]
    case LiquidVolume => [("kl", 0), ("hl", 1), ("dal", 2), ("l", 3), ("dl", 4), ("cl", 5), ("ml", 6)]
    case FileSize => [("YB", 0), ("ZB", 1), ("EB", 2), ("PB", 3), ("TB", 4), ("GB", 5), ("MB", 6), ("kB", 7), ("B", 8)]
  }

  /** The exponent table lists the declared units in order, and each unit's
      exponent is its position in the list: 0 for the largest unit, one more
      per step down. */
  lemma ExponentIsPosition(k: Kind)
    ensures |ExponentTable(k)| == |Units(k)|
    ensures forall i :: 0 <= i < |Units(k)| ==> ExponentTable(k)[i] == (Units(k)[i], i)
  {
  }

  /** The unit a measure gets when none is given. */
  function DefaultUnit(k: Kind): (u: string)
    ensures u in Units(k)
  {
    match k
    case Distance => "m"
    case Weight => "kg"
    case LiquidVolume => "l"
    case FileSize => "B"
  }

  /** The human names, one per unit, in the order of `Units(k)`. For a
      Distance this is the static `names()` table. */
  function NameList(k: Kind): (ns: seq<string>)
    ensures |ns| == |Units(k)|
  {
    match k
    case Distance => ["kilometer", "hectometre", "decametre", "metre", "decimetre", "centimetre", "millimetre"]
    case Weight => ["ton", "kilogram", "gram", "milligram"]
    case LiquidVolume => ["kilolitre", "hectolitre", "decalitre", "litre", "decilitre", "centilitre", "millilitre"]
    case FileSize => ["yotta", "zetta", "exa", "peta", "tera", "gigabyte", "megabyte", "kilobyte", "byte"]
  }

  /** The fully qualified PHP class name, as it appears in error messages. */
  function ClassName(k: Kind): string
  {
    match k
    case Distance => "Arcanedev\\Units\\Measures\\Distance"
    case Weight => "Arcanedev\\Units\\Measures\\Weight"
    case LiquidVolume => "Arcanedev\\Units\\Measures\\LiquidVolume"
    case FileSize => "Arcanedev\\Units\\Measures\\FileSize"
  }

  /** `InvalidUnitException`, raised for a string that is not a unit of the kind. */
  datatype InvalidUnit = InvalidUnit(unit: string, kind: Kind) {
    function Message(): string
    {
      "Invalid unit of measurement [" + unit + "] in " + ClassName(kind) + "."
    }
  }

  /** `checkUnit($unit)`. */
  function CheckUnit(k: Kind, u: string): (o: Outcome<InvalidUnit>)
    ensures o.Pass? <==> u in Units(k)
    ensures o.Fail? ==> o.error.unit == u && o.error.kind == k
  {
    if u in Units(k) then Pass else Fail(InvalidUnit(u, k))
  }

  /** The exception message quotes the offending unit between brackets and
      then names the class, for example "Invalid unit of measurement [litre]
      in Arcanedev\\Units\\Measures\\Distance." */
  lemma MessageNamesUnitAndClass(e: InvalidUnit)
    ensures var m := e.Message(); var p := |"Invalid unit of measurement ["|;
      |m| == p + |e.unit| + |"] in "| + |ClassName(e.kind)| + 1 &&
      m[..p] == "Invalid unit of measurement [" &&
      m[p..p + |e.unit|] == e.unit &&
      m[p + |e.unit|..] == "] in " + ClassName(e.kind) + "."
  {
    var prefix := "Invalid unit of measurement [";
    var suffix := "] in " + ClassName(e.kind) + ".";
    assert e.Message() == prefix + e.unit + suffix;
    ThreeParts(prefix, e.unit, suffix);
  }

  /** Each part of a concatenation of three can be cut back out. */
  lemma ThreeParts(a: string, b: string, c: string)
    ensures (a + b + c)[..|a|] == a
    ensures (a + b + c)[|a|..|a| + |b|] == b
    ensures (a + b + c)[|a| + |b|..] == c
  {
  }
}
