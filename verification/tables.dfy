/**
 * The symbol and name tables. A PHP array given as an option is an ordered
 * list of `unit => text` entries; storing it writes the entries one after
 * the other into the table, so a later entry for the same unit wins. The
 * default tables pair every unit, in declaration order, with its default
 * text.
 */
module Tables {
  import opened Wrappers
  import opened Kinds

  /** A PHP array `[unit => text, ...]`, in its written order. */
  type Entries = seq<(string, string)>

  /** The units an entry list writes. */
  function KeysOf(es: Entries): set<string>
  {
    set i | 0 <= i < |es| :: es[i].0
  }

  /** `$table[$unit] = $text` for every entry in turn. */
  function Assign(m: map<string, string>, es: Entries): (r: map<string, string>)
    ensures r.Keys == m.Keys + KeysOf(es)
  {
    if es == [] then m
    else
      var r := Assign(m, es[..|es| - 1])[es[|es| - 1].0 := es[|es| - 1].1];
      assert KeysOf(es) == KeysOf(es[..|es| - 1]) + {es[|es| - 1].0} by {
        forall u | u in KeysOf(es) ensures u in KeysOf(es[..|es| - 1]) + {es[|es| - 1].0} {
          var i :| 0 <= i < |es| && es[i].0 == u;
          if i < |es| - 1 {
            assert es[..|es| - 1][i].0 == u;
          }
        }
      }
      r
  }

  /** The text of the last entry for a unit, which is the one a table keeps. */
  function LastValue(es: Entries, u: string): (r: Option<string>)
    ensures r.None? <==> u !in KeysOf(es)
    ensures r.Some? ==> exists i :: 0 <= i < |es| && es[i] == (u, r.value)
  {
    if es == [] then None
    else if es[|es| - 1].0 == u then Some(es[|es| - 1].1)
    else
      var r := LastValue(es[..|es| - 1], u);
      assert KeysOf(es) == KeysOf(es[..|es| - 1]) + {es[|es| - 1].0} by {
        forall v | v in KeysOf(es) ensures v in KeysOf(es[..|es| - 1]) + {es[|es| - 1].0} {
          var i :| 0 <= i < |es| && es[i].0 == v;
          if i < |es| - 1 {
            assert es[..|es| - 1][i].0 == v;
          }
        }
      }
      if r.Some? then
        var i :| 0 <= i < |es| - 1 && es[..|es| - 1][i] == (u, r.value);
        assert es[i] == (u, r.value);
        r
      else r
  }

  /** After storing the entries, a unit holds the text of its last entry;
      a unit without an entry keeps what it had. */
  lemma {:induction false} AssignLookup(m: map<string, string>, es: Entries, u: string)
    ensures LastValue(es, u).Some? ==> Assign(m, es)[u] == LastValue(es, u).value
    ensures LastValue(es, u).None? && u in m ==> Assign(m, es)[u] == m[u]
  {
    if es != [] && es[|es| - 1].0 != u {
      AssignLookup(m, es[..|es| - 1], u);
    }
  }

  /** Storing entries for one prefix and then the next entry is storing the
      longer prefix: the step a `foreach` loop takes. */
  lemma AssignStep(m: map<string, string>, es: Entries, i: nat)
    requires i < |es|
    ensures Assign(m, es[..i + 1]) == Assign(m, es[..i])[es[i].0 := es[i].1]
  {
    assert es[..i + 1][..i] == es[..i];
  }

  /** The position of the first entry whose unit is not a unit of the kind,
      or `|es|` when every entry is valid: where `foreach` meets
      `checkUnit`'s exception. */
  function FirstInvalid(k: Kind, es: Entries): (i: nat)
    ensures i <= |es|
    ensures forall j :: 0 <= j < i ==> es[j].0 in Units(k)
    ensures i < |es| ==> es[i].0 !in Units(k)
  {
    if es == [] then 0
    else if es[0].0 !in Units(k) then 0
    else 1 + FirstInvalid(k, es[1..])
  }

  /** No unit occurs twice. */
  predicate Distinct(us: seq<string>)
  {
    forall i, j :: 0 <= i < j < |us| ==> us[i] != us[j]
  }

  lemma UnitsAreDistinct(k: Kind)
    ensures Distinct(Units(k))
  {
  }

  /** `array_combine($units, $texts)`. */
  function Combine(us: seq<string>, ts: seq<string>): (es: Entries)
    requires |us| == |ts|
    ensures |es| == |us|
    ensures forall i :: 0 <= i < |us| ==> es[i] == (us[i], ts[i])
  {
    if us == [] then [] else [(us[0], ts[0])] + Combine(us[1..], ts[1..])
  }

  /** Storing a combined table over distinct units gives every unit its own
      text, and writes no other key. */
  lemma CombineLookup(m: map<string, string>, us: seq<string>, ts: seq<string>, i: nat)
    requires |us| == |ts| && Distinct(us) && i < |us|
    ensures us[i] in Assign(m, Combine(us, ts)) && Assign(m, Combine(us, ts))[us[i]] == ts[i]
  {
    var es := Combine(us, ts);
    LastAt(es, i);
    AssignLookup(m, es, us[i]);
  }

  lemma {:induction false} LastAt(es: Entries, i: nat)
    requires i < |es|
    requires forall j :: i < j < |es| ==> es[j].0 != es[i].0
    ensures LastValue(es, es[i].0) == Some(es[i].1)
  {
    if i < |es| - 1 {
      LastAt(es[..|es| - 1], i);
    }
  }

  lemma CombineKeys(us: seq<string>, ts: seq<string>)
    requires |us| == |ts|
    ensures KeysOf(Combine(us, ts)) == set u | u in us
  {
    var es := Combine(us, ts);
    forall u | u in us ensures u in KeysOf(es) {
      var i :| 0 <= i < |us| && us[i] == u;
      assert es[i].0 == u;
    }
  }

  /** `defaultSymbols()`: every unit is its own symbol. */
  function DefaultSymbols(k: Kind): (es: Entries)
    ensures |es| == |Units(k)|
  {
    Combine(Units(k), Units(k))
  }

  /** `defaultNames()` of Weight, LiquidVolume and FileSize, and the static
      `names()` table of Distance. */
  function DefaultNames(k: Kind): (es: Entries)
    ensures |es| == |Units(k)|
  {
    Combine(Units(k), NameList(k))
  }

  /** Storing the default symbols makes every unit its own symbol, and
      writes only units. */
  lemma DefaultSymbolsAreIdentity(k: Kind, m: map<string, string>, u: string)
    requires u in Units(k)
    ensures u in Assign(m, DefaultSymbols(k)) && Assign(m, DefaultSymbols(k))[u] == u
  {
    var i :| 0 <= i < |Units(k)| && Units(k)[i] == u;
    UnitsAreDistinct(k);
    CombineLookup(m, Units(k), Units(k), i);
  }

  /** Storing the default names gives the `i`-th unit the `i`-th name. */
  lemma DefaultNamesInOrder(k: Kind, m: map<string, string>, i: nat)
    requires i < |Units(k)|
    ensures Units(k)[i] in Assign(m, DefaultNames(k))
    ensures Assign(m, DefaultNames(k))[Units(k)[i]] == NameList(k)[i]
  {
    UnitsAreDistinct(k);
    CombineLookup(m, Units(k), NameList(k), i);
  }

  /** Every entry of a default table is valid, so storing it never throws. */
  lemma DefaultsAreValid(k: Kind)
    ensures FirstInvalid(k, DefaultSymbols(k)) == |Units(k)|
    ensures FirstInvalid(k, DefaultNames(k)) == |Units(k)|
  {
    CombineValid(k, Units(k), Units(k));
    CombineValid(k, Units(k), NameList(k));
  }

  lemma CombineValid(k: Kind, us: seq<string>, ts: seq<string>)
    requires |us| == |ts| && forall i :: 0 <= i < |us| ==> us[i] in Units(k)
    ensures FirstInvalid(k, Combine(us, ts)) == |us|
  {
    ValidEntries(k, Combine(us, ts));
  }

  /** Entries that only name units of the kind are stored to the end. */
  lemma {:induction false} ValidEntries(k: Kind, es: Entries)
    requires forall i :: 0 <= i < |es| ==> es[i].0 in Units(k)
    ensures FirstInvalid(k, es) == |es|
  {
    if es != [] {
      assert forall i :: 0 <= i < |es[1..]| ==> es[1..][i] == es[i + 1];
      ValidEntries(k, es[1..]);
    }
  }

  /** The part of a table over some of its keys. */
  function Part(m: map<string, string>, s: set<string>): (r: map<string, string>)
    requires s <= m.Keys
    ensures r.Keys == s
  {
    map u | u in s :: m[u]
  }

  lemma PartGrows(m: map<string, string>, s: set<string>, u: string)
    requires s <= m.Keys && u in m
    ensures Part(m, s + {u}) == Part(m, s)[u := m[u]]
  {
  }

  lemma PartWhole(m: map<string, string>)
    ensures Part(m, m.Keys) == m
  {
  }

  /** Storing one more entry at the end updates that one key. */
  lemma AssignLast(m: map<string, string>, es: Entries, e: (string, string))
    ensures Assign(m, es + [e]) == Assign(m, es)[e.0 := e.1]
  {
    assert (es + [e])[..|es|] == es;
  }

  /** `es` stores, into an empty table, the part of `m` outside `left`. */
  predicate Built(m: map<string, string>, es: Entries, left: set<string>)
  {
    left <= m.Keys && Assign(map[], es) == Part(m, m.Keys - left)
  }

  lemma BuildStep(m: map<string, string>, es: Entries, left: set<string>, u: string)
    requires Built(m, es, left) && u in left
    ensures Built(m, es + [(u, m[u])], left - {u})
  {
    AssignLast(map[], es, (u, m[u]));
    PartGrows(m, m.Keys - left, u);
    assert m.Keys - (left - {u}) == (m.Keys - left) + {u};
  }

  lemma BuildDone(m: map<string, string>, es: Entries)
    requires Built(m, es, {})
    ensures KeysOf(es) == m.Keys && Assign(map[], es) == m
  {
    assert m.Keys - {} == m.Keys;
    PartWhole(m);
  }

  /** The entries of a table, one per unit, in no particular order: the
      PHP array `symbols()` or `names()` handed back as an option. Storing
      them into an empty table rebuilds the table. */
  method EntriesOf(m: map<string, string>) returns (es: Entries)
    ensures KeysOf(es) == m.Keys
    ensures Assign(map[], es) == m
  {
    es := [];
    var left := m.Keys;
    assert Part(m, m.Keys - left) == map[];
    while left != {}
      invariant Built(m, es, left)
      decreases |left|
    {
      var u :| u in left;
      BuildStep(m, es, left, u);
      es, left := es + [(u, m[u])], left - {u};
    }
    BuildDone(m, es);
  }
}
