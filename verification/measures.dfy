/**
 * The measure objects: `UnitMeasure` and its four subclasses Distance,
 * Weight, LiquidVolume and FileSize, modelled as one class whose `kind`
 * selects the unit tables and the overridden members.
 *
 * A measure holds a value, a unit, a symbol table, a name table and the
 * three `number_format` options. The setters change one field and leave the
 * others alone; the bulk setters store an options array entry by entry and
 * stop at the first unknown unit, with the entries before it already
 * stored. Construction runs those setters in order.
 */
module Measures {
  import opened Wrappers
  import opened Calculatable
  import opened Kinds
  import opened Conversion
  import opened Tables
  import opened Formatting

  /** The options array given to a constructor. An absent key is `None`
      (or no entries); the base `init` reads the `symbols`, `names` and
      `format.*` keys, the Distance constructor `symbols`, `decimals` and
      `separators.*`. */
  datatype Options = Options(
    symbols: Entries,
    names: Entries,
    formatDecimals: Option<int>,
    formatDecimalSeparator: Option<string>,
    formatThousandsSeparator: Option<string>,
    decimals: Option<int>,
    separatorsDecimal: Option<string>,
    separatorsThousands: Option<string>)

  /** `[]`: what `make($value, $unit)` passes. */
  const NoOptions: Options := Options([], [], None, None, None, None, None, None)

  /** Everything a measure stores. */
  datatype MeasureState = MeasureState(
    value: real,
    unit: string,
    symbols: map<string, string>,
    names: map<string, string>,
    decimals: int,
    decimalSeparator: string,
    thousandsSeparator: string)

  /** The property defaults of a new object, before its constructor runs
      (an unset unit is the empty string, which is no unit). */
  const Defaults: MeasureState := MeasureState(0.0, "", map[], map[], 0, ".", ",")

  /** The state every constructed measure is in: a unit of its kind, tables
      that only mention units of its kind, and a symbol table (and, except
      for a Distance, a name table) that is never empty. */
  predicate WellFormed(k: Kind, s: MeasureState)
  {
    && s.unit in Units(k)
    && (forall u :: u in s.symbols ==> u in Units(k))
    && (forall u :: u in s.names ==> u in Units(k))
    && s.symbols != map[]
    && (k != Distance ==> s.names != map[])
  }

  /** The entries `setSymbols($symbols)` stores: the given ones, or the
      default symbols when none are given. */
  function SymbolsGiven(k: Kind, es: Entries): (r: Entries)
    ensures r != []
  {
    if es == [] then DefaultSymbols(k) else es
  }

  /** The entries `setNames($names)` stores: the given ones, or the default
      names when none are given. Distance declares no `defaultNames()`; its
      static `names()` table stands in for it. */
  function NamesGiven(k: Kind, es: Entries): (r: Entries)
    ensures r != []
  {
    if es == [] then DefaultNames(k) else es
  }

  /** Storing entries one by one into table `m` through a checking setter:
      the table after the loop, and the exception that ended it early. */
  function Store(k: Kind, m: map<string, string>, es: Entries): (r: (map<string, string>, Outcome<InvalidUnit>))
    ensures r.1.Pass? <==> forall i :: 0 <= i < |es| ==> es[i].0 in Units(k)
    ensures r.1.Pass? ==> r.0 == Assign(m, es)
    ensures r.1.Fail? ==> exists i :: (0 <= i < |es| && r.1.error == InvalidUnit(es[i].0, k) && es[i].0 !in Units(k)
      && r.0 == Assign(m, es[..i]) && forall j :: 0 <= j < i ==> es[j].0 in Units(k))
  {
    var i := FirstInvalid(k, es);
    if i == |es| then
      assert es[..i] == es;
      (Assign(m, es[..i]), Pass)
    else (Assign(m, es[..i]), Fail(InvalidUnit(es[i].0, k)))
  }

  /** Storing valid entries only writes units of the kind. */
  lemma StoreKeepsUnits(k: Kind, m: map<string, string>, es: Entries)
    requires forall u :: u in m ==> u in Units(k)
    ensures forall u :: u in Store(k, m, es).0 ==> u in Units(k)
  {
    var i := FirstInvalid(k, es);
    forall u | u in KeysOf(es[..i]) ensures u in Units(k) {
      var j :| 0 <= j < i && es[..i][j].0 == u;
    }
  }

  /** Entries that are all valid are stored in full. */
  lemma StoreAll(k: Kind, m: map<string, string>, es: Entries)
    requires FirstInvalid(k, es) == |es|
    ensures Store(k, m, es) == (Assign(m, es), Pass)
  {
    assert es[..|es|] == es;
  }

  /** An empty options array stores the whole default symbol table. */
  lemma DefaultSymbolsStored(k: Kind, m: map<string, string>)
    ensures Store(k, m, SymbolsGiven(k, [])) == (Assign(m, DefaultSymbols(k)), Pass)
  {
    DefaultsAreValid(k);
    StoreAll(k, m, DefaultSymbols(k));
  }

  /** An empty options array stores the whole default name table. */
  lemma DefaultNamesStored(k: Kind, m: map<string, string>)
    ensures Store(k, m, NamesGiven(k, [])) == (Assign(m, DefaultNames(k)), Pass)
  {
    DefaultsAreValid(k);
    StoreAll(k, m, DefaultNames(k));
  }

  /** `init($value, $unit, $options)` run from state `s`: set the value,
      check and set the unit, store the symbols, store the names, set the
      format from the `format.*` keys (defaults 0, ',' and '.'). The state
      is returned also when an exception stops it half way. */
  function AfterInit(k: Kind, s: MeasureState, v: real, u: string, opts: Options): (MeasureState, Outcome<InvalidUnit>)
  {
    var s1 := s.(value := v);
    if u !in Units(k) then (s1, Fail(InvalidUnit(u, k)))
    else
      var (symbols, o) := Store(k, s1.symbols, SymbolsGiven(k, opts.symbols));
      var s2 := s1.(unit := u, symbols := symbols);
      if o.Fail? then (s2, o)
      else
        var (names, o') := Store(k, s2.names, NamesGiven(k, opts.names));
        var s3 := s2.(names := names);
        if o'.Fail? then (s3, o')
        else (s3.(decimals := opts.formatDecimals.GetOr(0),
                  decimalSeparator := opts.formatDecimalSeparator.GetOr(","),
                  thousandsSeparator := opts.formatThousandsSeparator.GetOr(".")), Pass)
  }

  /** The Distance constructor run from state `s`: as `init`, but without
      storing names, and with the format read from the `decimals` and
      `separators.*` keys (defaults 0, ',' and '.'). */
  function AfterDistanceConstructor(s: MeasureState, v: real, u: string, opts: Options): (MeasureState, Outcome<InvalidUnit>)
  {
    var s1 := s.(value := v);
    if u !in Units(Distance) then (s1, Fail(InvalidUnit(u, Distance)))
    else
      var (symbols, o) := Store(Distance, s1.symbols, SymbolsGiven(Distance, opts.symbols));
      var s2 := s1.(unit := u, symbols := symbols);
      if o.Fail? then (s2, o)
      else (s2.(decimals := opts.decimals.GetOr(0),
                decimalSeparator := opts.separatorsDecimal.GetOr(","),
                thousandsSeparator := opts.separatorsThousands.GetOr(".")), Pass)
  }

  /** `new static($value, $unit, $options)`: the state of the new measure,
      or the exception its constructor throws. */
  function Construct(k: Kind, v: real, u: string, opts: Options): (r: Result<MeasureState, InvalidUnit>)
    ensures r.Success? <==> (u in Units(k)
      && Store(k, map[], SymbolsGiven(k, opts.symbols)).1.Pass?
      && (k != Distance ==> Store(k, map[], NamesGiven(k, opts.names)).1.Pass?))
    ensures r.Success? ==> WellFormed(k, r.value) && r.value.value == v && r.value.unit == u
    ensures u !in Units(k) ==> r == Failure(InvalidUnit(u, k))
  {
    var (s, o) := if k == Distance then AfterDistanceConstructor(Defaults, v, u, opts) else AfterInit(k, Defaults, v, u, opts);
    if o.Fail? then Failure(o.error)
    else
      WellFormedAfterConstruction(k, v, u, opts);
      Success(s)
  }

  lemma WellFormedAfterConstruction(k: Kind, v: real, u: string, opts: Options)
    ensures var (s, o) := if k == Distance then AfterDistanceConstructor(Defaults, v, u, opts) else AfterInit(k, Defaults, v, u, opts);
      o.Pass? ==> WellFormed(k, s)
  {
    if k == Distance {
      WellFormedAfterDistanceConstructor(v, u, opts);
    } else {
      WellFormedAfterInit(k, v, u, opts);
    }
  }

  lemma WellFormedAfterInit(k: Kind, v: real, u: string, opts: Options)
    requires k != Distance
    ensures var (s, o) := AfterInit(k, Defaults, v, u, opts); o.Pass? ==> WellFormed(k, s)
  {
    var (s, o) := AfterInit(k, Defaults, v, u, opts);
    if o.Pass? {
      var ss := SymbolsGiven(k, opts.symbols);
      var ns := NamesGiven(k, opts.names);
      StoreKeepsUnits(k, map[], ss);
      StoreNotEmpty(k, map[], ss);
      StoreKeepsUnits(k, map[], ns);
      StoreNotEmpty(k, map[], ns);
      assert s.symbols == Store(k, map[], ss).0 && s.names == Store(k, map[], ns).0;
    }
  }

  lemma WellFormedAfterDistanceConstructor(v: real, u: string, opts: Options)
    ensures var (s, o) := AfterDistanceConstructor(Defaults, v, u, opts); o.Pass? ==> WellFormed(Distance, s)
  {
    var (s, o) := AfterDistanceConstructor(Defaults, v, u, opts);
    if o.Pass? {
      var ss := SymbolsGiven(Distance, opts.symbols);
      StoreKeepsUnits(Distance, map[], ss);
      StoreNotEmpty(Distance, map[], ss);
      assert s.symbols == Store(Distance, map[], ss).0 && s.names == map[];
    }
  }

  /** Storing a non-empty list of valid entries leaves a non-empty table. */
  lemma StoreNotEmpty(k: Kind, m: map<string, string>, es: Entries)
    requires es != []
    ensures Store(k, m, es).1.Pass? ==> Store(k, m, es).0 != map[]
  {
    if Store(k, m, es).1.Pass? {
      var last := |es| - 1;
      AssignLookup(m, es, es[last].0);
      assert LastValue(es, es[last].0).Some?;
    }
  }

  /** The symbols a measure made without options has: every unit is its
      own symbol. */
  function DefaultSymbolTable(k: Kind): (t: map<string, string>)
    ensures forall u :: u in t <==> u in Units(k)
    ensures forall u :: u in Units(k) ==> t[u] == u
  {
    CombineKeys(Units(k), Units(k));
    forall u | u in Units(k) ensures u in Assign(map[], DefaultSymbols(k)) && Assign(map[], DefaultSymbols(k))[u] == u {
      DefaultSymbolsAreIdentity(k, map[], u);
    }
    Assign(map[], DefaultSymbols(k))
  }

  /** The names a Weight, LiquidVolume or FileSize made without options
      has: the `i`-th unit has the `i`-th default name. */
  function DefaultNameTable(k: Kind): (t: map<string, string>)
    ensures forall u :: u in t <==> u in Units(k)
    ensures forall i :: 0 <= i < |Units(k)| ==> t[Units(k)[i]] == NameList(k)[i]
  {
    CombineKeys(Units(k), NameList(k));
    forall i | 0 <= i < |Units(k)| ensures Units(k)[i] in Assign(map[], DefaultNames(k))
      && Assign(map[], DefaultNames(k))[Units(k)[i]] == NameList(k)[i]
    {
      DefaultNamesInOrder(k, map[], i);
    }
    Assign(map[], DefaultNames(k))
  }

  /** The state `make($value, $unit)` without options builds: the default
      symbols, the default names except for a Distance, which has none, and
      the constructor's format defaults 0, ',' and '.'. */
  function MadeState(k: Kind, v: real, u: string): MeasureState
  {
    MeasureState(v, u, DefaultSymbolTable(k), if k == Distance then map[] else DefaultNameTable(k), 0, ",", ".")
  }

  /** Distance's static `getSymbolName($unit)`: the unit is checked, then
      its name is read from the static `names()` table, which has one. */
  function GetSymbolName(u: string): (r: Result<string, InvalidUnit>)
    ensures r.Failure? <==> u !in Units(Distance)
    ensures r.Failure? ==> r.error == InvalidUnit(u, Distance)
    ensures forall i :: 0 <= i < |Units(Distance)| && u == Units(Distance)[i] ==> r == Success(NameList(Distance)[i])
  {
    match CheckUnit(Distance, u)
    case Fail(e) => Failure(e)
    case Pass => Success(DefaultNameTable(Distance)[u])
  }

  /** `make($value, $unit)` fails exactly for a unit of another kind, and
      otherwise builds `MadeState`. */
  lemma MakeWithoutOptions(k: Kind, v: real, u: string)
    ensures u in Units(k) ==> Construct(k, v, u, NoOptions) == Success(MadeState(k, v, u))
    ensures u !in Units(k) ==> Construct(k, v, u, NoOptions) == Failure(InvalidUnit(u, k))
  {
    if u in Units(k) {
      if k == Distance {
        DistanceWithoutOptions(v, u);
      } else {
        InitWithoutOptions(k, v, u);
      }
    }
  }

  /** When the unit and every entry given are valid, `init` sets the
      value, the unit, both tables and the format from the options. */
  lemma InitPasses(k: Kind, s: MeasureState, v: real, u: string, opts: Options, symbols: map<string, string>, names: map<string, string>)
    requires u in Units(k)
    requires Store(k, s.symbols, SymbolsGiven(k, opts.symbols)) == (symbols, Pass)
    requires Store(k, s.names, NamesGiven(k, opts.names)) == (names, Pass)
    ensures AfterInit(k, s, v, u, opts) == (s.(value := v, unit := u, symbols := symbols, names := names,
      decimals := opts.formatDecimals.GetOr(0), decimalSeparator := opts.formatDecimalSeparator.GetOr(","),
      thousandsSeparator := opts.formatThousandsSeparator.GetOr(".")), Pass)
  {
  }

  lemma InitWithoutOptions(k: Kind, v: real, u: string)
    requires k != Distance && u in Units(k)
    ensures AfterInit(k, Defaults, v, u, NoOptions) == (MadeState(k, v, u), Pass)
  {
    DefaultSymbolsStored(k, map[]);
    DefaultNamesStored(k, map[]);
    var s2 := Defaults.(value := v, unit := u, symbols := DefaultSymbolTable(k));
    assert Store(k, s2.names, NamesGiven(k, [])) == (DefaultNameTable(k), Pass);
  }

  lemma DistanceWithoutOptions(v: real, u: string)
    requires u in Units(Distance)
    ensures AfterDistanceConstructor(Defaults, v, u, NoOptions) == (MadeState(Distance, v, u), Pass)
  {
    DefaultSymbolsStored(Distance, map[]);
  }

  /** The options `to()` passes: the measure's own symbols, names and
      format. */
  function CopyOf(s: MeasureState, ss: Entries, ns: Entries): Options
  {
    Options(ss, ns, Some(s.decimals), Some(s.decimalSeparator), Some(s.thousandsSeparator), None, None, None)
  }

  /** Entries whose units all lie in the kind are valid one by one. */
  lemma KeysWithin(k: Kind, es: Entries)
    requires forall u :: u in KeysOf(es) ==> u in Units(k)
    ensures forall i :: 0 <= i < |es| ==> es[i].0 in Units(k)
  {
    forall i | 0 <= i < |es| ensures es[i].0 in Units(k) {
      assert es[i].0 in KeysOf(es);
    }
  }

  /** The entries of a non-empty table of units store back into that
      table without an exception. */
  lemma CopyStored(k: Kind, m: map<string, string>, es: Entries)
    requires m != map[] && forall u :: u in m ==> u in Units(k)
    requires KeysOf(es) == m.Keys && Assign(map[], es) == m
    ensures es != [] && Store(k, map[], es) == (m, Pass)
  {
    KeysWithin(k, es);
    ValidEntries(k, es);
    StoreAll(k, map[], es);
  }

  /** Building a measure of the same kind from the options `to()` passes
      gives back the measure's tables and format, with the new value and
      unit. */
  lemma RebuildFromCopy(k: Kind, s: MeasureState, v: real, t: string, ss: Entries, ns: Entries)
    requires k != Distance && WellFormed(k, s) && t in Units(k)
    requires KeysOf(ss) == s.symbols.Keys && Assign(map[], ss) == s.symbols
    requires KeysOf(ns) == s.names.Keys && Assign(map[], ns) == s.names
    ensures Construct(k, v, t, CopyOf(s, ss, ns)) == Success(s.(value := v, unit := t))
  {
    CopyStored(k, s.symbols, ss);
    CopyStored(k, s.names, ns);
    assert AfterInit(k, Defaults, v, t, CopyOf(s, ss, ns)) == (s.(value := v, unit := t), Pass);
  }

  /** A measure. The PHP base class and its four subclasses are one class
      here; `kind` says which subclass an object belongs to. */
  class UnitMeasure {
    const kind: Kind
    var value: real
    var unit: string
    var symbols: map<string, string>
    var names: map<string, string>
    var decimals: int
    var decimalSeparator: string
    var thousandsSeparator: string

    /** The stored fields as one value. */
    function State(): MeasureState
      reads this
    {
      MeasureState(value, unit, symbols, names, decimals, decimalSeparator, thousandsSeparator)
    }

    predicate Valid()
      reads this
    {
      WellFormed(kind, State())
    }

    /** A new object with the property defaults, before its constructor
        body runs. */
    constructor Blank(k: Kind)
      ensures kind == k && State() == Defaults
    {
      kind := k;
      value, unit, symbols, names := 0.0, "", map[], map[];
      decimals, decimalSeparator, thousandsSeparator := 0, ".", ",";
    }

    /** `setValue($value)`. */
    method SetValue(v: real)
      modifies this
      ensures old(Valid()) ==> Valid()
      ensures State() == old(State()).(value := v)
    {
      value := v;
    }

    /** `setUnit($unit)`: a unit of another kind throws and changes
        nothing. */
    method SetUnit(u: string) returns (o: Outcome<InvalidUnit>)
      modifies this
      ensures old(Valid()) ==> Valid()
      ensures o == CheckUnit(kind, u)
      ensures o.Pass? ==> State() == old(State()).(unit := u)
      ensures o.Fail? ==> State() == old(State())
    {
      o := CheckUnit(kind, u);
      if o.Pass? {
        unit := u;
      }
    }

    /** `setSymbol($unit, $symbol)`: the symbol of one unit changes, every
        other entry stays; a unit of another kind throws and changes
        nothing. */
    method SetSymbol(u: string, s: string) returns (o: Outcome<InvalidUnit>)
      modifies this
      ensures old(Valid()) ==> Valid()
      ensures o == CheckUnit(kind, u)
      ensures o.Pass? ==> State() == old(State()).(symbols := old(symbols)[u := s])
      ensures o.Fail? ==> State() == old(State())
    {
      o := CheckUnit(kind, u);
      if o.Pass? {
        symbols := symbols[u := s];
      }
    }

    /** `setSymbols($symbols)`: the entries (or the default symbols when
        there are none) are stored in order until one names a unit of
        another kind. From a table of units, no entries install the
        identity table. */
    method SetSymbols(es: Entries) returns (o: Outcome<InvalidUnit>)
      modifies this
      ensures old(Valid()) ==> Valid()
      ensures (symbols, o) == Store(kind, old(symbols), SymbolsGiven(kind, es))
      ensures State() == old(State()).(symbols := symbols)
      ensures es == [] && (forall u :: u in old(symbols) ==> u in Units(kind)) ==>
        (o == Pass && forall u :: u in Units(kind) ==> u in symbols && symbols[u] == u)
    {
      var given := SymbolsGiven(kind, es);
      ghost var before := symbols;
      if es == [] {
        DefaultsAreValid(kind);
      }
      var i := 0;
      o := Pass;
      while i < |given|
        invariant i <= FirstInvalid(kind, given)
        invariant o == Pass
        invariant symbols == Assign(before, given[..i])
        invariant State() == old(State()).(symbols := symbols)
        invariant old(Valid()) ==> Valid()
      {
        o := SetSymbol(given[i].0, given[i].1);
        if o.Fail? {
          assert i == FirstInvalid(kind, given);
          return;
        }
        AssignStep(before, given, i);
        i := i + 1;
      }
      assert given[..i] == given;
      if es == [] && (forall u :: u in before ==> u in Units(kind)) {
        DefaultSymbolsStored(kind, before);
        forall u | u in Units(kind) ensures u in symbols && symbols[u] == u {
          DefaultSymbolsAreIdentity(kind, before, u);
        }
      }
    }

    /** `symbol()`: the symbol of the current unit, or null. */
    function Symbol(): (r: Option<string>)
      reads this
      ensures r.Some? <==> unit in symbols
      ensures r.Some? ==> r.value == symbols[unit]
    {
      if unit in symbols then Some(symbols[unit]) else None
    }

    /** `setName($unit, $name)`: the name of one unit changes, every other
        entry stays; a unit of another kind throws and changes nothing. */
    method SetName(u: string, n: string) returns (o: Outcome<InvalidUnit>)
      modifies this
      ensures old(Valid()) ==> Valid()
      ensures o == CheckUnit(kind, u)
      ensures o.Pass? ==> State() == old(State()).(names := old(names)[u := n])
      ensures o.Fail? ==> State() == old(State())
    {
      o := CheckUnit(kind, u);
      if o.Pass? {
        names := names[u := n];
      }
    }

    /** `setNames($names)`: the entries (or the default names when there are
        none) are stored in order until one names a unit of another kind. */
    method SetNames(es: Entries) returns (o: Outcome<InvalidUnit>)
      modifies this
      ensures old(Valid()) ==> Valid()
      ensures (names, o) == Store(kind, old(names), NamesGiven(kind, es))
      ensures State() == old(State()).(names := names)
      ensures es == [] ==> (o == Pass && forall i :: 0 <= i < |Units(kind)| ==>
        Units(kind)[i] in names && names[Units(kind)[i]] == NameList(kind)[i])
    {
      var given := NamesGiven(kind, es);
      ghost var before := names;
      if es == [] {
        DefaultsAreValid(kind);
      }
      var i := 0;
      o := Pass;
      while i < |given|
        invariant i <= FirstInvalid(kind, given)
        invariant o == Pass
        invariant names == Assign(before, given[..i])
        invariant State() == old(State()).(names := names)
        invariant old(Valid()) ==> Valid()
      {
        o := SetName(given[i].0, given[i].1);
        if o.Fail? {
          assert i == FirstInvalid(kind, given);
          return;
        }
        AssignStep(before, given, i);
        i := i + 1;
      }
      assert given[..i] == given;
      if es == [] {
        DefaultNamesStored(kind, before);
        forall i | 0 <= i < |Units(kind)|
          ensures Units(kind)[i] in names && names[Units(kind)[i]] == NameList(kind)[i]
        {
          DefaultNamesInOrder(kind, before, i);
        }
      }
    }

    /** `names()`: the name table. Distance overrides it with its static
        table of every unit's name, so a Distance reads its names from
        there and never from the stored field. */
    function NameTable(): (t: map<string, string>)
      reads this
      ensures kind != Distance ==> t == names
      ensures kind == Distance ==> forall u :: u in t <==> u in Units(Distance)
      ensures kind == Distance ==> forall i :: 0 <= i < |Units(Distance)| ==> t[Units(Distance)[i]] == NameList(Distance)[i]
    {
      if kind == Distance then DefaultNameTable(Distance) else names
    }

    /** `getName($unit)`: the unit is checked, then its name is looked up
        in `names()` (null when the table has none). */
    function GetName(u: string): (r: Result<Option<string>, InvalidUnit>)
      reads this
      ensures r.Failure? <==> u !in Units(kind)
      ensures r.Failure? ==> r.error == InvalidUnit(u, kind)
      ensures r.Success? ==> (r.value.Some? <==> u in NameTable()) && (r.value.Some? ==> r.value.value == NameTable()[u])
      ensures kind == Distance ==> forall i :: 0 <= i < |Units(Distance)| && u == Units(Distance)[i] ==>
        r == Success(Some(NameList(Distance)[i]))
    {
      match CheckUnit(kind, u)
      case Fail(e) => Failure(e)
      case Pass => if u in NameTable() then Success(Some(NameTable()[u])) else Success(None)
    }

    /** `name()`: the name of the current unit, which never throws for a
        constructed measure. */
    function Name(): (r: Result<Option<string>, InvalidUnit>)
      reads this
      ensures Valid() ==> r.Success? && (r.value.Some? <==> unit in NameTable())
      ensures Valid() && unit in NameTable() ==> r == Success(Some(NameTable()[unit]))
      ensures Valid() && kind == Distance ==> r.Success? && r.value.Some?
    {
      GetName(unit)
    }

    /** `setFormat($decimals, $decimalSeparator, $thousandsSeparator)`. */
    method SetFormat(d: int, ds: string, ts: string)
      modifies this
      ensures old(Valid()) ==> Valid()
      ensures State() == old(State()).(decimals := d, decimalSeparator := ds, thousandsSeparator := ts)
    {
      decimals, decimalSeparator, thousandsSeparator := d, ds, ts;
    }

    /** `init($value, $unit, $options)`, run by the Weight, LiquidVolume and
        FileSize constructors. */
    method Init(v: real, u: string, opts: Options) returns (o: Outcome<InvalidUnit>)
      modifies this
      ensures old(Valid()) ==> Valid()
      ensures (State(), o) == AfterInit(kind, old(State()), v, u, opts)
    {
      SetValue(v);
      o := SetUnit(u);
      if o.Fail? {
        return;
      }
      o := SetSymbols(opts.symbols);
      if o.Fail? {
        return;
      }
      o := SetNames(opts.names);
      if o.Fail? {
        return;
      }
      SetFormat(opts.formatDecimals.GetOr(0), opts.formatDecimalSeparator.GetOr(","), opts.formatThousandsSeparator.GetOr("."));
    }

    /** The body of the Distance constructor. */
    method DistanceConstructor(v: real, u: string, opts: Options) returns (o: Outcome<InvalidUnit>)
      requires kind == Distance
      modifies this
      ensures old(Valid()) ==> Valid()
      ensures (State(), o) == AfterDistanceConstructor(old(State()), v, u, opts)
    {
      SetValue(v);
      o := SetUnit(u);
      if o.Fail? {
        return;
      }
      o := SetSymbols(opts.symbols);
      if o.Fail? {
        return;
      }
      SetFormat(opts.decimals.GetOr(0), opts.separatorsDecimal.GetOr(","), opts.separatorsThousands.GetOr("."));
    }

    /** `make($value, $unit, $options)`, i.e. `new static(...)`: a new
        measure in the state `Construct` describes, or the exception its
        constructor throws. */
    static method Make(k: Kind, v: real, u: string, opts: Options) returns (r: Result<UnitMeasure, InvalidUnit>)
      ensures r.Success? <==> Construct(k, v, u, opts).Success?
      ensures r.Success? ==> (fresh(r.value) && r.value.kind == k && r.value.Valid()
        && r.value.State() == Construct(k, v, u, opts).value)
      ensures r.Failure? ==> r.error == Construct(k, v, u, opts).error
    {
      var m := new UnitMeasure.Blank(k);
      var o;
      if k == Distance {
        o := m.DistanceConstructor(v, u, opts);
      } else {
        o := m.Init(v, u, opts);
      }
      if o.Fail? {
        return Failure(o.error);
      }
      return Success(m);
    }

    /** `make($value, $unit)` without options, as the add and subtract
        helpers call it: a new measure of that value and unit, or the
        exception for a unit of another kind. */
    static method MakeAmount(k: Kind, v: real, u: string) returns (r: Result<UnitMeasure, InvalidUnit>)
      ensures r.Success? <==> u in Units(k)
      ensures r.Failure? ==> r.error == InvalidUnit(u, k)
      ensures r.Success? ==> fresh(r.value) && r.value.kind == k && r.value.value == v && r.value.unit == u
    {
      MakeWithoutOptions(k, v, u);
      r := Make(k, v, u, NoOptions);
    }

    /** `to($to)` of the base class: the measure itself for its own unit,
        otherwise a new measure of the converted value in unit `$to` with
        the same symbols, names and format. */
    method BaseTo(t: string) returns (r: Result<UnitMeasure, InvalidUnit>)
      requires kind != Distance && Valid()
      ensures t == unit ==> r == Success(this)
      ensures t != unit ==> (r.Success? <==> t in Units(kind))
      ensures t != unit && r.Failure? ==> r.error == InvalidUnit(t, kind)
      ensures t != unit && r.Success? ==> (fresh(r.value) && r.value.kind == kind && r.value.Valid()
        && r.value.State() == State().(value := Convert(kind, unit, t, value).value, unit := t))
    {
      if t == unit {
        return Success(this);
      }
      var c := Convert(kind, unit, t, value);
      if c.Failure? {
        return Failure(c.error);
      }
      var ss := EntriesOf(symbols);
      var ns := EntriesOf(names);
      RebuildFromCopy(kind, State(), c.value, t, ss, ns);
      r := Make(kind, c.value, t, CopyOf(State(), ss, ns));
    }

    /** Distance's `to($to)`: as the base one, but the new measure is made
        without options, so it has the default symbols and format and no
        names. */
    method DistanceTo(t: string) returns (r: Result<UnitMeasure, InvalidUnit>)
      requires kind == Distance && unit in Units(kind)
      ensures t == unit ==> r == Success(this)
      ensures t != unit ==> (r.Success? <==> t in Units(kind))
      ensures t != unit && r.Failure? ==> r.error == InvalidUnit(t, kind)
      ensures t != unit && r.Success? ==> (fresh(r.value) && r.value.kind == Distance && r.value.Valid()
        && r.value.State() == MadeState(Distance, Convert(kind, unit, t, value).value, t))
    {
      if t == unit {
        return Success(this);
      }
      var c := Convert(kind, unit, t, value);
      if c.Failure? {
        return Failure(c.error);
      }
      MakeWithoutOptions(kind, c.value, t);
      r := Make(kind, c.value, t, NoOptions);
    }

    /** `format($decimals, $decimalSeparator, $thousandsSeparator)`: each
        stored option is used exactly when its argument is null. */
    function Format(d: Option<int>, ds: Option<string>, ts: Option<string>): (r: string)
      reads this
      ensures r == NumberFormat(value, if d.None? then decimals else d.value,
        if ds.None? then decimalSeparator else ds.value, if ts.None? then thousandsSeparator else ts.value)
      ensures var n := Rounded(value, Shown(d.GetOr(decimals)));
        |r| >= 1 && (r[0] == '-' <==> value < 0.0 && n != 0)
      ensures NoDigits(ds.GetOr(decimalSeparator)) && NoDigits(ts.GetOr(thousandsSeparator)) ==>
        ParseDigits(DigitsOnly(r)) == Rounded(value, Shown(d.GetOr(decimals)))
    {
      NumberFormat(value, d.GetOr(decimals), ds.GetOr(decimalSeparator), ts.GetOr(thousandsSeparator))
    }

    /** `formatWithSymbol(...)`: the formatted value, a space, and the
        symbol of the current unit (nothing when it has none), each of
        which can be cut back out. */
    function FormatWithSymbol(d: Option<int>, ds: Option<string>, ts: Option<string>): (r: string)
      reads this
      ensures r == Format(d, ds, ts) + " " + Symbol().GetOr("")
      ensures var f := Format(d, ds, ts); var y := Symbol().GetOr("");
        |r| == |f| + 1 + |y| && r[..|f|] == f && r[|f|] == ' ' && r[|f| + 1..] == y
    {
      ThreeParts(Format(d, ds, ts), " ", Symbol().GetOr(""));
      Format(d, ds, ts) + " " + Symbol().GetOr("")
    }

    /** `__toString()`: the value in the stored format, with its symbol. */
    function ToString(): (r: string)
      reads this
      ensures r == NumberFormat(value, decimals, decimalSeparator, thousandsSeparator) + " " + Symbol().GetOr("")
    {
      FormatWithSymbol(None, None, None)
    }

    /** `add($unit)`: the other measure's value, converted to this
        measure's unit, is added to this measure. */
    method Add(other: UnitMeasure) returns (o: Outcome<InvalidUnit>)
      requires other.unit in Units(other.kind)
      modifies this
      ensures old(Valid()) ==> Valid()
      ensures var c := Convert(other.kind, old(other.unit), old(unit), old(other.value));
        && (o.Pass? <==> c.Success?)
        && (o.Pass? ==> State() == old(State()).(value := old(value) + c.value))
        && (o.Fail? ==> o.error == c.error && State() == old(State()))
    {
      var c := Convert(other.kind, other.unit, unit, other.value);
      if c.Failure? {
        return Fail(c.error);
      }
      value := Calculate(value, "+", c.value).value;
      o := Pass;
    }

    /** `sub($unit)`: the other measure's value, converted to this
        measure's unit, is subtracted from this measure. */
    method Sub(other: UnitMeasure) returns (o: Outcome<InvalidUnit>)
      requires other.unit in Units(other.kind)
      modifies this
      ensures old(Valid()) ==> Valid()
      ensures var c := Convert(other.kind, old(other.unit), old(unit), old(other.value));
        && (o.Pass? <==> c.Success?)
        && (o.Pass? ==> State() == old(State()).(value := old(value) - c.value))
        && (o.Fail? ==> o.error == c.error && State() == old(State()))
    {
      var c := Convert(other.kind, other.unit, unit, other.value);
      if c.Failure? {
        return Fail(c.error);
      }
      value := Calculate(value, "-", c.value).value;
      o := Pass;
    }

    /** `multiply($number)`. */
    method Multiply(n: real)
      modifies this
      ensures old(Valid()) ==> Valid()
      ensures State() == old(State()).(value := old(value) * n)
    {
      value := Calculate(value, "x", n).value;
    }

    /** `divide($number)`: dividing by zero throws and changes nothing. */
    method Divide(n: real) returns (o: Outcome<CalcError>)
      modifies this
      ensures old(Valid()) ==> Valid()
      ensures n == 0.0 ==> o == Fail(DivisionByZero) && State() == old(State())
      ensures n != 0.0 ==> o == Pass && State() == old(State()).(value := old(value) / n)
    {
      var c := Calculate(value, "/", n);
      if c.Failure? {
        return Fail(c.error);
      }
      value := c.value;
      o := Pass;
    }

    /** `addDistance`, `addWeight`, `addVolume` and FileSize's add helper:
        `add(make($value, $unit))`. */
    method AddAmount(v: real, u: string) returns (o: Outcome<InvalidUnit>)
      requires unit in Units(kind)
      modifies this
      ensures old(Valid()) ==> Valid()
      ensures o.Pass? <==> u in Units(kind)
      ensures o.Fail? ==> o.error == InvalidUnit(u, kind) && State() == old(State())
      ensures o.Pass? ==> State() == old(State()).(value := old(value) + Convert(kind, u, old(unit), v).value)
    {
      var m := MakeAmount(kind, v, u);
      if m.Failure? {
        return Fail(m.error);
      }
      o := Add(m.value);
    }

    /** `subDistance`, `subWeight`, `subVolume` and `subSize`:
        `sub(make($value, $unit))`. */
    method SubAmount(v: real, u: string) returns (o: Outcome<InvalidUnit>)
      requires unit in Units(kind)
      modifies this
      ensures old(Valid()) ==> Valid()
      ensures o.Pass? <==> u in Units(kind)
      ensures o.Fail? ==> o.error == InvalidUnit(u, kind) && State() == old(State())
      ensures o.Pass? ==> State() == old(State()).(value := old(value) - Convert(kind, u, old(unit), v).value)
    {
      var m := MakeAmount(kind, v, u);
      if m.Failure? {
        return Fail(m.error);
      }
      o := Sub(m.value);
    }
  }
}
