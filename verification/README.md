# Units: a verified model of unit measures

A model, in Dafny, of the measure classes of the ARCANEDEV/Units PHP package.
The package has four kinds of measure: Distance, Weight, LiquidVolume and FileSize.
Each measure holds a value, a unit, a table of unit symbols, a table of unit names, and the three `number_format` options.
Measures can be:

- converted to another unit of the same kind;
- added to, subtracted from, multiplied and divided;
- formatted, with or without the symbol of their unit.

The project is laid out in modules:

| file | module | what it holds |
|---|---|---|
| `wrappers.dfy` | `Wrappers` | `Option`, `Result` and `Outcome`. |
| `calculatable.dfy` | `Calculatable` | The `calculate` dispatcher of the `Calculatable` trait, and integer powers. |
| `kinds.dfy` | `Kinds` | Each kind's unit constants, in declaration order, and the radix of its ratios.<br>Its default unit and its default names.<br>`checkUnit`, and the `InvalidUnitException` message. |
| `conversion.dfy` | `Conversion` | `getRatios`, `getRatio` and `convert`, with the round-trip and chaining properties of conversion. |
| `tables.dfy` | `Tables` | How an options array of `unit => text` entries is written into a symbol or name table.<br>How a table is read back out as such an array. |
| `format.dfy` | `Formatting` | PHP's `number_format`: round half up, fixed decimals, and thousands grouping.<br>The property that the digits of its output read back as the rounded magnitude. |
| `measures.dfy` | `Measures` | The measure class: its setters, `init`, the Distance constructor, `make`, `to`, the formatting members, and the arithmetic members. |
| `scenarios.dfy` | `Scenarios` | The behaviour the package's tests check, stated about the model and proved. |

**One class for the base and its subclasses.** `UnitMeasure` and its four subclasses are one Dafny class, `Measures.UnitMeasure`.
- Its constant `kind` selects the unit tables.
- Where a subclass overrides a member, the model has the two versions side by side:
  - `BaseTo` and `DistanceTo`;
  - `Init` and `DistanceConstructor`;
  - `NameTable`, which is the stored field except for a Distance.
- Each setter changes the fields it names and leaves the others alone. Its contract says so with `State() == old(State()).(…)`.
- Every member that changes a measure keeps a well-formed measure well formed (`old(Valid()) ==> Valid()`).
- The bulk setters `setSymbols` and `setNames` are loops over the entries of the options array.
  - Their contracts tie the new table to `Tables.Assign` over the stored entries.
  - The loop stops at the first entry whose unit is of another kind. The entries before it stay stored.

The specification functions that describe the results are:
- `Measures.Store`, which stores entries and may stop at an exception;
- `Measures.AfterInit` and `Measures.AfterDistanceConstructor`;
- `Measures.Construct`;
- `Conversion.Convert`;
- `Formatting.NumberFormat`.

The lemmas beside them prove:
- converting and converting back gives the starting value;
- converting twice is converting once;
- every constructed measure is well formed;
- `to()` hands the copied symbols, names and format to the new measure unchanged;
- the digits `number_format` prints read back as the rounded value.

## Model

| member | source | states |
|---|---|---|
| Calculatable.Calculate | src/Traits/Calculatable.php:20-34 | Each operator `+ - x * / ^` gives its operation.<br>Any other operator gives back `a` unchanged.<br>Dividing by zero is the division-by-zero error. |
| Calculatable.CalculateFailsOnlyForDivideOrPower | src/Traits/Calculatable.php:20-34 | Only `/` by zero and `^` can fail; the other operators always produce a value. |
| Calculatable.CalculateExamples | tests/Traits/CalculatableTest.php:18-52 | 1+2=3, 3-2=1, 3x2=6, 8/2=4 and 10^2=100.<br>An unknown operator returns the first operand. |
| Calculatable.Power | src/Traits/Calculatable.php:30 | For an integral exponent, `pow` is repeated multiplication.<br>A negative exponent gives the reciprocal.<br>It fails exactly for a fractional exponent, or for zero raised to a negative power. |
| Calculatable.PowAdd | src/Measures/Distance.php:192-208 | For every base b and exponents m and n, b^(m+n) equals b^m times b^n. |
| Calculatable.PowStrictlyIncreasing | src/Measures/Distance.php:192-208 | With a radix above 1, a larger exponent gives a strictly larger ratio. |
| Kinds.CheckUnit | src/Bases/UnitMeasure.php:464-473 | A string passes exactly when it is one of the kind's units. Otherwise the exception carries that string and the kind. |
| Kinds.MessageNamesUnitAndClass | src/Bases/UnitMeasure.php:464-473 | The exception message is made of three parts, each of which can be cut back out:<br>"Invalid unit of measurement [", then the unit, then "] in <class>.". |
| Kinds.Units | src/Bases/UnitMeasure.php:140-146 | Every kind has at least one unit constant, and no unit is listed twice. |
| Kinds.ExponentIsPosition | src/Measures/Weight.php:133-146 | The exponent table lists the units in declaration order. Each unit's exponent is its position in that order. |
| Conversion.Ratios | src/Measures/LiquidVolume.php:142-158 | `getRatios()` has exactly one entry per unit of the kind. |
| Conversion.RatioAt | src/Measures/FileSize.php:118-136 | The i-th unit's ratio is the radix to the power i, and it is positive. |
| Conversion.RatiosFollowExponentTable | src/Measures/Distance.php:192-208 | Each `unit => exponent` entry of the literal table in `getRatios()` has the ratio radix^exponent. |
| Conversion.RatiosIncreaseDownTheList | src/Measures/Distance.php:192-208 | Ratios strictly increase from the largest unit to the smallest. |
| Conversion.GetRatio | src/Bases/UnitMeasure.php:435-445 | `from` is checked first, then `to`. Each check throws for a unit of another kind.<br>The same unit has ratio 1.<br>For other units, to-ratio = ratio × from-ratio, with a positive ratio. |
| Conversion.Convert | src/Bases/UnitMeasure.php:370-373 | Conversion succeeds exactly when both units belong to the kind, and otherwise reports the first bad unit.<br>The result is the same amount: v·ratio(from) = w·ratio(to). |
| Conversion.ConvertIdentity | src/Bases/UnitMeasure.php:435-445 | Converting to the same unit returns the value unchanged. |
| Conversion.ConvertDownward | src/Measures/Distance.php:124-127 | Converting from unit i down to unit j multiplies by radix^(j−i). |
| Conversion.ConvertUpward | src/Measures/Distance.php:124-127 | Converting from unit j up to unit i divides by radix^(j−i). |
| Conversion.ConvertRoundTrip | src/Bases/UnitMeasure.php:370-373 | Converting a value from a to b and back to a gives the value back. |
| Conversion.ConvertTransitive | src/Bases/UnitMeasure.php:370-373 | Converting from a to b and then from b to c is converting from a to c. |
| Tables.Assign | src/Bases/UnitMeasure.php:201-210 | Storing entries writes exactly the keys they name, on top of the keys already there. |
| Tables.AssignLookup | src/Bases/UnitMeasure.php:263-272 | After storing, a unit holds the text of its last entry.<br>A unit without an entry keeps its old text. |
| Tables.FirstInvalid | src/Bases/UnitMeasure.php:230-237 | The first entry naming a foreign unit: all earlier entries are valid, and this one is not. |
| Tables.CombineLookup | src/Measures/Distance.php:54-65 | `array_combine` over distinct units, once stored, gives each unit its own text. |
| Tables.DefaultSymbolsAreIdentity | src/Bases/UnitMeasure.php:189-192 | Storing the default symbols makes every unit its own symbol. |
| Tables.DefaultNamesInOrder | src/Measures/LiquidVolume.php:49-60 | Storing the default names gives the i-th unit the i-th default name. |
| Tables.DefaultsAreValid | src/Measures/Weight.php:46-54 | Storing either default table never throws. |
| Tables.EntriesOf | src/Bases/UnitMeasure.php:350-358 | Turning a table into an options array, and storing that array into an empty table, rebuilds the table key for key. |
| Measures.Store | src/Bases/UnitMeasure.php:201-210 | It passes exactly when every entry names a unit of the kind. Then the table is the entries stored in full.<br>Otherwise the exception names the first foreign unit. The entries before it stay stored. |
| Measures.StoreKeepsUnits | src/Bases/UnitMeasure.php:230-237 | The checking setter never writes a key that is not a unit of the kind. |
| Measures.Construct | src/Bases/UnitMeasure.php:94-105 | Construction succeeds exactly when the unit and every given symbol (and, except for a Distance, every given name) are valid. A foreign unit is the first error.<br>A constructed measure is well formed and keeps the value and unit it was given. |
| Measures.DefaultSymbolTable | src/Bases/UnitMeasure.php:189-192 | Without options, the symbol table has exactly the kind's units, each mapped to itself. |
| Measures.DefaultNameTable | src/Measures/FileSize.php:30-43 | Without options, the name table has exactly the kind's units. The i-th unit has the i-th default name. |
| Measures.GetSymbolName | src/Measures/Distance.php:74-79 | It throws exactly for a string that is not a Distance unit. Otherwise it returns that unit's name from the static table. |
| Measures.MakeWithoutOptions | src/Bases/UnitMeasure.php:82-85 | `make($v, $u)` fails exactly for a foreign unit.<br>Otherwise it builds the default tables and the format 0, ',' and '.' (a Distance gets no stored names). |
| Measures.InitPasses | src/Bases/UnitMeasure.php:94-105 | When every check passes, `init` sets the value and the unit, both stored tables, and the format from the `format.*` keys, with their defaults. |
| Measures.RebuildFromCopy | src/Bases/UnitMeasure.php:344-359 | Rebuilding a well-formed measure from the options `to()` passes keeps its symbols, names and format. Only the value and unit change. |
| Measures.UnitMeasure.SetValue | src/Bases/UnitMeasure.php:128-133 | Only the value changes. |
| Measures.UnitMeasure.SetUnit | src/Bases/UnitMeasure.php:165-172 | For a unit of the kind, only the unit changes. A foreign unit throws and nothing changes. |
| Measures.UnitMeasure.SetSymbol | src/Bases/UnitMeasure.php:230-237 | One symbol entry changes and the rest are kept. A foreign unit throws and nothing changes. |
| Measures.UnitMeasure.SetSymbols | src/Bases/UnitMeasure.php:201-210 | The new table is `Store` of the given entries, or of the default symbols when none are given. Only the symbols change.<br>With no entries, every unit becomes its own symbol. |
| Measures.UnitMeasure.Symbol | src/Bases/UnitMeasure.php:217-220 | The symbol is present exactly when the current unit has one in the table, and then it is that entry. |
| Measures.UnitMeasure.SetName | src/Bases/UnitMeasure.php:306-313 | One name entry changes and the rest are kept. A foreign unit throws and nothing changes. |
| Measures.UnitMeasure.SetNames | src/Bases/UnitMeasure.php:263-272 | The new table is `Store` of the given entries, or of the default names when none are given. Only the names change.<br>With no entries, the i-th unit gets the i-th default name. |
| Measures.UnitMeasure.NameTable | src/Measures/Distance.php:54-65 | A Distance reads its names from the static table, which has every unit's name in order.<br>Every other kind reads the stored field (UnitMeasure.php:244-247). |
| Measures.UnitMeasure.GetName | src/Bases/UnitMeasure.php:291-296 | It throws exactly for a foreign unit. Otherwise it gives the table's entry, or null when the table has none.<br>For a Distance it gives the static name. |
| Measures.UnitMeasure.Name | src/Bases/UnitMeasure.php:279-282 | A well-formed measure's name never throws. A Distance always has a name. |
| Measures.UnitMeasure.SetFormat | src/Bases/UnitMeasure.php:324-331 | Only the three format fields change. |
| Measures.UnitMeasure.Init | src/Bases/UnitMeasure.php:94-105 | The new state and the exception are those `AfterInit` gives, including the partial state when an exception stops it. |
| Measures.UnitMeasure.DistanceConstructor | src/Measures/Distance.php:33-43 | Like `init`, but names are not stored, and the format comes from the `decimals` and `separators.*` keys. |
| Measures.UnitMeasure.Make | src/Bases/UnitMeasure.php:82-85 | It gives a fresh, well-formed measure in the state `Construct` describes, or exactly the exception `Construct` reports. |
| Measures.UnitMeasure.MakeAmount | src/Measures/Weight.php:69-72 | It succeeds exactly for a unit of the kind, with the given value and unit. Otherwise the exception names the unit. |
| Measures.UnitMeasure.BaseTo | src/Bases/UnitMeasure.php:344-359 | The same unit gives back the object itself. A foreign unit throws.<br>Otherwise the result is a fresh, well-formed measure with the converted value and the new unit. It keeps the symbols, names and format. |
| Measures.UnitMeasure.DistanceTo | src/Measures/Distance.php:106-113 | The same unit gives back the object itself. A foreign unit throws.<br>Otherwise the result is a fresh Distance with the converted value and the default symbols and format. |
| Measures.UnitMeasure.Format | src/Bases/UnitMeasure.php:384-394 | Each stored option is used exactly when its argument is null.<br>The output starts with '-' exactly when the value is negative and does not round to zero.<br>Its digits read back as the magnitude rounded to the chosen decimals. |
| Measures.UnitMeasure.FormatWithSymbol | src/Bases/UnitMeasure.php:405-411 | The result is the formatted value, one space, and the current unit's symbol (nothing when it has none); each of the three parts can be cut back out at its length. |
| Measures.UnitMeasure.ToString | src/Bases/UnitMeasure.php:418-421 | The result is the value formatted with the stored decimals and separators, a space, and the current unit's symbol. |
| Measures.UnitMeasure.Add | src/Contracts/Traits/Calculatable.php:17-23 | The other measure's value, converted to this unit, is added. A unit conversion failure throws and changes nothing. |
| Measures.UnitMeasure.Sub | src/Contracts/Traits/Calculatable.php:25-32 | The other measure's value, converted to this unit, is subtracted. A unit conversion failure throws and changes nothing. |
| Measures.UnitMeasure.Multiply | src/Contracts/Traits/Calculatable.php:34-41 | The value is multiplied, and nothing else changes. |
| Measures.UnitMeasure.Divide | src/Contracts/Traits/Calculatable.php:43-50 | Dividing by zero throws and changes nothing. Otherwise only the value is divided. |
| Measures.UnitMeasure.AddAmount | src/Measures/Distance.php:141-146 | It succeeds exactly for a unit of the kind, adding the amount converted to the measure's unit. A foreign unit throws and nothing changes. |
| Measures.UnitMeasure.SubAmount | src/Measures/Distance.php:156-161 | It succeeds exactly for a unit of the kind, subtracting the amount converted to the measure's unit. A foreign unit throws and nothing changes. |
| Formatting.DigitsRoundTrip | src/Bases/UnitMeasure.php:384-394 | Reading the printed decimal digits of a natural number gives the number back. |
| Formatting.GroupKeepsDigits | src/Bases/UnitMeasure.php:384-394 | Grouping digits by thousands with a separator free of digits only inserts separators. |
| Formatting.GroupLength | src/Bases/UnitMeasure.php:384-394 | Grouping n digits inserts one separator per three digits after the first group. |
| Formatting.Rounded | src/Bases/UnitMeasure.php:384-394 | The rounded magnitude is within one half of |x|·10^d, which is round half up. |
| Formatting.NumberFormat | src/Bases/UnitMeasure.php:384-394 | The output of `number_format` is non-empty and starts with '-' exactly for a negative value that does not round to zero.<br>With separators free of digits, its digits read back as the magnitude rounded half up to the decimals shown (negative decimals count as 0). |
| Formatting.FormatsWithoutDecimals | tests/Measures/DistanceTest.php:150-159 | `number_format(1234.567, 0, ',', '.')` is "1.235". |
| Formatting.FormatsWithDecimals | tests/Measures/DistanceTest.php:150-159 | `number_format(1234.567, 3, ',', '.')` is "1.234,567". |
| Formatting.FormatsNegativeZero | src/Bases/UnitMeasure.php:384-394 | A negative value that rounds to 0 prints as "0", not "-0". |
| Scenarios.KilometresToMetres | tests/Measures/DistanceTest.php:128-139 | Kilometres convert to a thousand times as many metres. |
| Scenarios.KilogramsToGrams | tests/Measures/WeightTest.php:123-134 | Kilograms convert to a thousand times as many grams. |
| Scenarios.KilolitresToLitres | tests/Measures/LiquidVolumeTest.php:128-139 | Kilolitres convert to a thousand times as many litres. |
| Scenarios.KilobytesToBytes | tests/Measures/FileSizeTest.php:130-141 | Kilobytes convert to 1024 times as many bytes. |
| Scenarios.BytesPerYottabyte | src/Measures/FileSize.php:118-136 | The ratio from yottabytes to bytes is 1024^8. |
| Scenarios.AddEach | tests/Measures/DistanceTest.php:199-211 | Adding amounts of the measure's own unit one by one leaves their running sum added. Nothing else changes. |
| Scenarios.DistanceAddsUp | tests/Measures/DistanceTest.php:199-211 | Adding 1, 10, 100, 1000, 0.1 and 0.01 metres to zero gives 1111.11 metres. |
| Scenarios.AddKilometreObject | tests/Measures/DistanceTest.php:238-246 | Adding a 1 km Distance to 0 m gives 1000 m. The added object is left as it was. |
| Scenarios.AddTonne | tests/Measures/WeightTest.php:224-232 | Adding a tonne to 0 kg gives 1000 kg. |
| Scenarios.AddKilobyte | tests/Measures/FileSizeTest.php:241-249 | Adding a kilobyte to 0 B gives 1024 B. |
| Scenarios.SubtractionChains | tests/Measures/WeightTest.php:234-256 | Subtracting 1 and then 99 gives -1 and then -100.<br>Subtracting -1 and then -99 gives 1 and then 100. |
| Scenarios.MultiplyRange | tests/Measures/DistanceTest.php:272-300 | Multiplying by each integer of a range in turn scales the value by their product. |
| Scenarios.DistanceMultiplies | tests/Measures/DistanceTest.php:272-300 | One metre multiplied by 1..10, or by -10..-1, is 3628800 metres. |
| Scenarios.DivideRange | tests/Measures/DistanceTest.php:302-315 | Dividing by each positive integer of a range in turn divides the value by their product. |
| Scenarios.DistanceDivides | tests/Measures/DistanceTest.php:302-315 | One metre divided by 1..10 is 1/3628800 metres. |
| Scenarios.DivideByZero | tests/Measures/DistanceTest.php:328-337 | Dividing by zero throws and keeps the value. |
| Scenarios.DistanceRejectsLitre | tests/Measures/DistanceTest.php:317-326 | Setting a Distance's unit to "litre" throws for that unit and class, and keeps "m". |
| Scenarios.NamesOfNewMeasures | tests/Measures/DistanceTest.php:46-63 | The default unit's name is "metre" for a new Distance, "kilogram" for a Weight, "litre" for a LiquidVolume and "byte" for a FileSize. |
| Scenarios.NewDistanceFormats | tests/Measures/DistanceTest.php:161-179 | A new Distance formats as "0", and as "0 m" with its symbol and as a string. |
| Scenarios.DistanceFormats | tests/Measures/DistanceTest.php:150-179 | At 1234.567 m: "1.235" and "1.234,567", and with the symbol "1.235 m" and "1.234,567 m". |
| Scenarios.DistanceFormatsInKilometres | tests/Measures/DistanceTest.php:161-179 | Converted to km, it shows "1 km", and "1,235 km" with 3 decimals. |
| Scenarios.KilometresFormatInMillimetres | tests/Measures/DistanceTest.php:161-179 | 1.234567 km converted to mm shows "1.234.567 mm". |
| Scenarios.DistanceToString | tests/Measures/DistanceTest.php:181-193 | As a string, 1234.567 m is "1.235 m" and -1234.567 m is "-1.235 m". |
| Scenarios.ConfiguredConstruct | config/units.php:44-110 | A Weight, LiquidVolume or FileSize made with any configured symbols and names (one per unit, in unit order) and a configured format stores both tables in full and the format. |
| Scenarios.ConvertedIn | src/Bases/UnitMeasure.php:344-359 | `to()` of a configured measure, to any other unit of its kind, gives a fresh measure of the converted value that keeps the symbol table, the name table and the format unchanged; where the target unit is its own symbol, that is the new symbol. |
| Scenarios.NewConfiguredVolume | tests/Laravel/Measures/LiquidVolumeTest.php:48-63 | The configured LiquidVolume is 0 l, with symbol "l" and name "Litre". |
| Scenarios.NewConfiguredFileSize | config/units.php:44-76 | The configured FileSize is 0 B, with the lower-case symbol "b" and the name "b". |
| Scenarios.VolumeFormats | tests/Laravel/Measures/LiquidVolumeTest.php:92-121 | At 1234.567 l: "1 235" and "1 234,567", and with the symbol "1 235 l" and "1 234,567 l". |
| Scenarios.VolumeFormatsInKilolitres | tests/Laravel/Measures/LiquidVolumeTest.php:103-121 | Converted to kl, it keeps the configured format and shows "1 kl", and "1,235 kl" with 3 decimals. |
| Scenarios.KilolitresFormatInMillilitres | tests/Laravel/Measures/LiquidVolumeTest.php:103-121 | 1.234567 kl converted to ml shows "1 234 567 ml". |
| Scenarios.VolumeToString | tests/Laravel/Measures/LiquidVolumeTest.php:124-135 | As a string, 1234.567 l is "1 235 l" and -1234.567 l is "-1 235 l". |

## Left out

- Numbers are exact reals.
  - PHP's `int`/`float` distinction, floating-point rounding and the float `printf` of `number_format` are not modelled. Values are rounded exactly, half up.
  - So results such as 1111.11 are the exact sums. PHP computes them in floating point.
- The unit constants are listed per kind. `units()` discovers them by reflection over the class constants, which is not modelled.
- PHP arrays given as options are ordered entry lists.
  - The stored tables are maps, so the order of keys in `symbols()` and `names()` is not kept.
  - `Tables.EntriesOf` hands back the entries in no particular order.
- Dynamic typing is not modelled: a `null` or non-string unit, or a non-array options argument.
  - The unset unit of a new object is the empty string, which is no unit.
- `getRatios()` is the map `Conversion.Ratios`. The base class's empty default is not modelled, because every kind overrides it.
- `convert()` is `Conversion.Convert` for every kind. The static override in Distance has the same body.
- Measures.UnitMeasure.SetNames: for a Distance, `setNames([])` would call `defaultNames()`, which Distance.php does not declare; the model stores the static `names()` table instead, which the source does not define.
- Measures.UnitMeasure.MakeAmount: the unit is always passed explicitly. The PHP default argument (`self::M`, `self::KG`, `self::L` or `self::B`) is `Kinds.DefaultUnit`, which a caller passes to get the default; the same holds for `AddAmount` and `SubAmount`.
- `to()` is two members, `BaseTo` and `DistanceTo`. A caller picks by kind; there is no single dispatching member.
- Measures.UnitMeasure.BaseTo: requires a well-formed measure, which every constructed measure is. It is not specified for a measure whose tables were made invalid by hand.
- Measures.UnitMeasure.DistanceTo: requires the current unit to be a Distance unit, as it is after construction.
- Measures.UnitMeasure.Add: requires the operand's unit to be one of its kind's units, as it is for every constructed measure.
  - `add`, `sub`, `multiply` and `divide` are declared in `src/Contracts/Traits/Calculatable.php`, but their bodies are not part of this model.
  - Their behaviour is taken from the declarations and the package's tests: convert the operand to this unit, then `calculate` with `+`, `-`, `x` or `/`.
- Measures.UnitMeasure.Sub: the same precondition as `Add`, for the same reason.
- Measures.UnitMeasure.Divide: division by zero, which PHP reports as a warning or a `DivisionByZeroError` depending on its version, is the error outcome `DivisionByZero`.
- Calculatable.Power: only integral exponents are computed. A fractional exponent, and zero to a negative power, are errors in the model. PHP returns a float or `INF` for them.
- Kinds.MessageNamesUnitAndClass: the message is stated as its three parts, not compared with a literal for each class.
- The Laravel manager and service provider, and config loading, are not modelled.
  - The configured options of the package's `config/units.php` appear as `Scenarios.ConfigOptions`.
- The kilometre, kilolitre and millimetre follow-ups of the format tests are split in two:
  - `MetresInKilometres` and `LitresInKilolitres` convert a freshly made measure in the same state as the test's object.
  - The next conversion starts from a fresh measure of 1.234567 km or kl.
- Where the code differs from its documented intent, the model follows the code:
  - Distance declares no `defaultNames()`. Its constructor never stores names.
  - Its static `names()` table replaces the stored one, and `getName` reads through `names()`. So a Distance's name comes from the static table: `name()` is "metre" for metres.
  - FileSize's add helper is named `addDistance`. It is modelled as the shared `AddAmount`.
  - `number_format` clamps negative decimals to 0 before rounding, as the PHP versions contemporary with the package did.
