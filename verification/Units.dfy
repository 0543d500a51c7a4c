/**
 Units of measure and exact conversion between them.

 The lookup table is a parameter of the functions below, and the lemmas hold for every sound table;
 `UnitTable` is the one the program uses.
 */
module Units {
  import opened Text
  import opened Wrappers

  datatype Family = Mass | Volume | Count | Unknown
  datatype UnitInfo = UnitInfo(family: Family, toBase: real)

  /** Units that convert have a positive factor, and no entry is of unknown family. */
  ghost predicate Sound(table: map<string, UnitInfo>) {
    forall u :: u in table ==> SoundInfo(table[u])
  }

  predicate SoundInfo(info: UnitInfo) {
    info.family != Unknown && (info.family != Count ==> info.toBase > 0.0)
  }

  type Table = t: map<string, UnitInfo> | Sound(t)

  /** What a spelling stands for: grams, millilitres and US customary units; count units never convert. */
  function InfoFor(u: string): (info: Option<UnitInfo>)
    ensures info.Some? ==> SoundInfo(info.value)
  {
    if u in ["g", "gram", "grams"] then Some(UnitInfo(Mass, 1.0))
    else if u in ["kg", "kilo", "kilogram", "kilograms"] then Some(UnitInfo(Mass, 1000.0))
    else if u in ["mg", "milligram"] then Some(UnitInfo(Mass, 0.001))
    else if u in ["oz", "ounce", "ounces"] then Some(UnitInfo(Mass, 28.349523125))
    else if u in ["lb", "lbs", "pound", "pounds"] then Some(UnitInfo(Mass, 453.59237))
    else if u in ["ml", "milliliter", "milliliters"] then Some(UnitInfo(Volume, 1.0))
    else if u in ["cl"] then Some(UnitInfo(Volume, 10.0))
    else if u in ["l", "liter", "liters", "litre", "litres"] then Some(UnitInfo(Volume, 1000.0))
    else if u in ["tsp", "teaspoon", "teaspoons"] then Some(UnitInfo(Volume, 4.92892159375))
    else if u in ["tbsp", "tablespoon", "tablespoons"] then Some(UnitInfo(Volume, 14.78676478125))
    else if u in ["floz", "fluidounce", "fluidounces"] then Some(UnitInfo(Volume, 29.5735295625))
    else if u in ["cup", "cups"] then Some(UnitInfo(Volume, 236.5882365))
    else if u in ["pt", "pint", "pints"] then Some(UnitInfo(Volume, 473.176473))
    else if u in ["qt", "quart", "quarts"] then Some(UnitInfo(Volume, 946.352946))
    else if u in ["gal", "gallon", "gallons"] then Some(UnitInfo(Volume, 3785.411784))
    else if u in ["stick", "sticks", "pack", "packs", "packet", "each", "piece", "pieces", "whole"]
    then Some(UnitInfo(Count, 0.0))
    else None
  }

  function Spellings(): seq<string> {
    ["g", "gram", "grams", "kg", "kilo", "kilogram", "kilograms", "mg", "milligram", "oz", "ounce", "ounces"]
    + ["lb", "lbs", "pound", "pounds", "ml", "milliliter", "milliliters", "cl"]
    + ["l", "liter", "liters", "litre", "litres", "tsp", "teaspoon", "teaspoons", "tbsp", "tablespoon", "tablespoons"]
    + ["floz", "fluidounce", "fluidounces", "cup", "cups", "pt", "pint", "pints", "qt", "quart", "quarts"]
    + ["gal", "gallon", "gallons", "stick", "sticks", "pack", "packs", "packet", "each", "piece", "pieces", "whole"]
  }

  lemma KnownIsSpelled(u: string)
    requires InfoFor(u).Some?
    ensures u in Spellings()
  {
  }

  function TableOf(spellings: seq<string>): (t: Table)
    ensures forall u :: u in t <==> u in spellings && InfoFor(u).Some?
    ensures forall u :: u in t ==> t[u] == InfoFor(u).value
  {
    map u | u in spellings && InfoFor(u).Some? :: InfoFor(u).value
  }

  /** The program's table. */
  function UnitTable(): Table {
    TableOf(Spellings())
  }

  lemma UnitTableHas(u: string)
    ensures u in UnitTable() <==> InfoFor(u).Some?
    ensures u in UnitTable() ==> UnitTable()[u] == InfoFor(u).value
  {
    if InfoFor(u).Some? {
      KnownIsSpelled(u);
    }
  }

  // --- Spelling ---------------------------------------------------------------------------------

  function Lower(s: string): (r: string)
    ensures |r| == |s|
  {
    seq(|s|, i requires 0 <= i < |s| => if 'A' <= s[i] <= 'Z' then s[i] - 'A' + 'a' else s[i])
  }

  function Without(s: string, c: char): string {
    if s == "" then "" else if s[0] == c then Without(s[1..], c) else [s[0]] + Without(s[1..], c)
  }

  function NormalizeUnit(unit: string): string {
    Without(Without(Lower(Trim(unit)), '.'), ' ')
  }

  // --- Conversion -------------------------------------------------------------------------------

  function Rescale(x: real, f: real, g: real): real
    requires g > 0.0
  {
    x * f / g
  }

  /** The amount in `to`, or nothing when the units do not convert. */
  function Convert(table: Table, amount: real, from: string, to: string): Option<real> {
    if from == to then Some(amount)
    else
      var f, t := NormalizeUnit(from), NormalizeUnit(to);
      if f !in table || t !in table then None
      else if table[f].family != table[t].family then None
      else if table[f].family == Count then None
      else assert SoundInfo(table[t]); Some(Rescale(amount, table[f].toBase, table[t].toBase))
  }

  /** The units convert; whether they do does not depend on the amount. */
  predicate Convertible(table: Table, from: string, to: string) {
    Convert(table, 1.0, from, to).Some?
  }

  /** When units convert: the same string, or two spellings of known units of one measured family. */
  lemma ConvertibleIff(table: Table, amount: real, from: string, to: string)
    ensures Convert(table, amount, from, to).Some? <==>
            from == to || (NormalizeUnit(from) in table && NormalizeUnit(to) in table
                           && table[NormalizeUnit(from)].family == table[NormalizeUnit(to)].family
                           && table[NormalizeUnit(from)].family in {Mass, Volume})
    ensures Convert(table, amount, from, to).Some? <==> Convertible(table, from, to)
  {
    assert NormalizeUnit(from) in table ==> SoundInfo(table[NormalizeUnit(from)]);
  }

  lemma ConvertibleIsAnEquivalence(table: Table, a: string, b: string, c: string)
    ensures Convertible(table, a, a)
    ensures Convertible(table, a, b) ==> Convertible(table, b, a)
    ensures Convertible(table, a, b) && Convertible(table, b, c) ==> Convertible(table, a, c)
  {
  }

  lemma RescaleTwice(x: real, f: real, g: real, h: real)
    requires f > 0.0 && g > 0.0 && h > 0.0
    ensures Rescale(Rescale(x, f, g), g, h) == Rescale(x, f, h)
    ensures Rescale(x, f, f) == x
  {
    assert (x * f / g) * g == x * f;
  }

  /** Converting in two steps is exact: it gives what one step gives. */
  lemma ConversionsCompose(table: Table, amount: real, a: string, b: string, c: string)
    requires Convertible(table, a, b) && Convertible(table, b, c)
    ensures var there := Convert(table, amount, a, b);
            there.Some? && Convert(table, there.value, b, c) == Convert(table, amount, a, c)
  {
    if a != b && b != c {
      var f, g, h := table[NormalizeUnit(a)], table[NormalizeUnit(b)], table[NormalizeUnit(c)];
      assert SoundInfo(f) && SoundInfo(g) && SoundInfo(h);
      RescaleTwice(amount, f.toBase, g.toBase, h.toBase);
    }
  }

  /** There and back is the identity. */
  lemma ConversionRoundTrip(table: Table, amount: real, a: string, b: string)
    requires Convertible(table, a, b)
    ensures var there := Convert(table, amount, a, b); there.Some? && Convert(table, there.value, b, a) == Some(amount)
  {
    ConvertibleIsAnEquivalence(table, a, b, a);
    ConversionsCompose(table, amount, a, b, a);
  }

  lemma RescaleIsLinear(x: real, y: real, f: real, g: real)
    requires f > 0.0 && g > 0.0
    ensures Rescale(x + y, f, g) == Rescale(x, f, g) + Rescale(y, f, g)
    ensures x >= 0.0 ==> Rescale(x, f, g) >= 0.0
  {
    var k := f / g;
    assert k > 0.0;
    assert x * f / g == x * k && y * f / g == y * k && (x + y) * f / g == (x + y) * k;
  }

  /** Conversion is additive and keeps amounts non-negative. */
  lemma ConversionIsLinear(table: Table, x: real, y: real, from: string, to: string)
    requires Convertible(table, from, to)
    ensures var cx, cy, cxy := Convert(table, x, from, to), Convert(table, y, from, to),
                            Convert(table, x + y, from, to);
            cx.Some? && cy.Some? && cxy.Some? && cxy.value == cx.value + cy.value && (x >= 0.0 ==> cx.value >= 0.0)
  {
    if from != to {
      var f, g := table[NormalizeUnit(from)], table[NormalizeUnit(to)];
      assert SoundInfo(f) && SoundInfo(g);
      RescaleIsLinear(x, y, f.toBase, g.toBase);
    }
  }

  // --- Spelling, letter by letter -------------------------------------------------------------------

  lemma LowerAt(s: string, i: nat)
    requires i < |s|
    ensures var (c, d) := (s[i] as int, Lower(s)[i] as int);
            if 65 <= c <= 90 then d == c + 32 else d == c
  {
  }

  lemma {:induction false} WithoutJoin(a: string, b: string, c: char)
    ensures Without(a + b, c) == Without(a, c) + Without(b, c)
    decreases |a|
  {
    if a == "" {
      assert a + b == b;
    } else {
      WithoutJoin(a[1..], b, c);
      assert (a + b)[1..] == a[1..] + b;
    }
  }

  /** Letter by letter: a dot vanishes, a capital becomes small, all else stays. */
  lemma NormalLetter(c: char)
    requires !IsSpace(c)
    ensures NormalizeUnit([c]) == if c == '.' then "" else Lower([c])
  {
    var s := Lower([c]);
    assert s == [s[0]] && s[1..] == "" && (s[0] == '.' <==> c == '.');
    assert Trim([c]) == [c];
    assert s[0] as int != 32;
    assert Without(s, '.') == if c == '.' then "" else s;
    assert Without(s, ' ') == s;
  }

  /** Blanks around a unit, of any kind, do not matter. */
  lemma NormalIgnoresBlanks(c: char, unit: string)
    requires IsBlank(c)
    ensures NormalizeUnit([c] + unit) == NormalizeUnit(unit) == NormalizeUnit(unit + [c])
  {
    TrimIgnores(c, unit);
  }

  lemma WithoutWords(a: string, b: string, c: char)
    ensures Without(a + " " + b, c) == Without(a, c) + (if c == ' ' then "" else " ") + Without(b, c)
  {
    WithoutJoin(a + " ", b, c);
    WithoutJoin(a, " ", c);
    assert " "[1..] == "";
  }

  lemma LowerWords(a: string, b: string)
    ensures Lower(a + " " + b) == Lower(a) + " " + Lower(b)
  {
  }

  lemma TrimWords(a: string, b: string)
    requires a != "" && b != "" && Trim(a) == a && Trim(b) == b
    ensures Trim(a + " " + b) == a + " " + b
  {
    TrimmedEnds(a);
    TrimmedEnds(b);
    var ab := a + " " + b;
    assert ab[0] == a[0] && ab[|ab| - 1] == b[|b| - 1];
  }

  /** A unit's words are run together. */
  lemma NormalWords(a: string, b: string)
    requires a != "" && b != "" && Trim(a) == a && Trim(b) == b
    ensures Trim(a + " " + b) == a + " " + b
    ensures NormalizeUnit(a + " " + b) == NormalizeUnit(a) + NormalizeUnit(b)
  {
    TrimWords(a, b);
    LowerWords(a, b);
    WithoutWords(Lower(a), Lower(b), '.');
    WithoutWords(Without(Lower(a), '.'), Without(Lower(b), '.'), ' ');
  }

  predicate IsPlain(s: string) {
    forall i :: 0 <= i < |s| ==> 'a' <= s[i] <= 'z'
  }

  lemma {:induction false} NothingLeftOut(s: string, c: char)
    requires c !in s
    ensures Without(s, c) == s
    decreases |s|
  {
    if s != "" {
      NothingLeftOut(s[1..], c);
    }
  }

  lemma PlainIsNormal(s: string)
    requires IsPlain(s)
    ensures NormalizeUnit(s) == s
  {
    assert Trim(s) == s;
    assert Lower(s) == s;
    NothingLeftOut(s, '.');
    NothingLeftOut(s, ' ');
  }

  // --- The program's units, against their definitions ---------------------------------------------------

  /** The table has this plain name with this meaning. */
  ghost predicate Has(table: Table, name: string, family: Family, toBase: real) {
    IsPlain(name) && name in table && table[name] == UnitInfo(family, toBase)
  }

  ghost predicate IsProgramTable(t: Table) {
    forall u {:trigger u in t} ::
      (u in t <==> InfoFor(u).Some?) && (u in t ==> t[u] == InfoFor(u).value)
  }

  lemma ProgramTable()
    ensures IsProgramTable(UnitTable())
  {
    forall u
      ensures (u in UnitTable() <==> InfoFor(u).Some?)
      ensures u in UnitTable() ==> UnitTable()[u] == InfoFor(u).value
    {
      UnitTableHas(u);
    }
  }

  lemma ProgramHas(t: Table, name: string, family: Family, toBase: real)
    requires IsProgramTable(t) && IsPlain(name) && InfoFor(name) == Some(UnitInfo(family, toBase))
    ensures Has(t, name, family, toBase)
  {
    assert name in t;
  }

  /** Any amount of the one unit is `k` times as many of the other. */
  ghost predicate Makes(table: Table, from: string, k: real, to: string) {
    forall x: real :: Convert(table, x, from, to) == Some(x * k)
  }

  lemma RescaleBy(x: real, k: real, g: real)
    requires g > 0.0
    ensures Rescale(x, k * g, g) == x * k
  {
    assert x * (k * g) == (x * k) * g;
  }

  lemma TableMakes(table: Table, from: string, k: real, to: string, family: Family, f: real, g: real)
    requires Has(table, from, family, f) && Has(table, to, family, g) && from != to && family != Count
    requires g > 0.0 && f == k * g
    ensures Makes(table, from, k, to)
  {
    PlainIsNormal(from);
    PlainIsNormal(to);
    forall x: real
      ensures Convert(table, x, from, to) == Some(x * k)
    {
      RescaleBy(x, k, g);
    }
  }

  ghost predicate HasMasses(table: Table) {
    && Has(table, "g", Mass, 1.0) && Has(table, "kg", Mass, 1000.0) && Has(table, "mg", Mass, 0.001)
    && Has(table, "oz", Mass, 28.349523125) && Has(table, "lb", Mass, 453.59237)
  }

  lemma ProgramMasses(t: Table)
    requires IsProgramTable(t)
    ensures HasMasses(t)
  {
    ProgramHas(t, "g", Mass, 1.0);
    ProgramHas(t, "kg", Mass, 1000.0);
    ProgramHas(t, "mg", Mass, 0.001);
    ProgramHas(t, "oz", Mass, 28.349523125);
    ProgramHas(t, "lb", Mass, 453.59237);
  }

  lemma MassesMake(t: Table)
    requires HasMasses(t)
    ensures Makes(t, "kg", 1000.0, "g") && Makes(t, "g", 1000.0, "mg")
    ensures Makes(t, "lb", 16.0, "oz") && Makes(t, "oz", 28.349523125, "g")
  {
    TableMakes(t, "kg", 1000.0, "g", Mass, 1000.0, 1.0);
    TableMakes(t, "g", 1000.0, "mg", Mass, 1.0, 0.001);
    TableMakes(t, "lb", 16.0, "oz", Mass, 453.59237, 28.349523125);
    TableMakes(t, "oz", 28.349523125, "g", Mass, 28.349523125, 1.0);
  }

  /** A kilogram, a gram, a pound of sixteen ounces, and an ounce in grams. */
  lemma MassUnits()
    ensures Makes(UnitTable(), "kg", 1000.0, "g") && Makes(UnitTable(), "g", 1000.0, "mg")
    ensures Makes(UnitTable(), "lb", 16.0, "oz") && Makes(UnitTable(), "oz", 28.349523125, "g")
  {
    ProgramTable();
    ProgramMasses(UnitTable());
    MassesMake(UnitTable());
  }

  ghost predicate HasVolumes(table: Table) {
    && Has(table, "ml", Volume, 1.0) && Has(table, "cl", Volume, 10.0) && Has(table, "l", Volume, 1000.0)
    && Has(table, "gal", Volume, 3785.411784) && Has(table, "qt", Volume, 946.352946)
    && Has(table, "pt", Volume, 473.176473) && Has(table, "cup", Volume, 236.5882365)
  }

  ghost predicate HasSpoons(table: Table) {
    && Has(table, "cup", Volume, 236.5882365) && Has(table, "floz", Volume, 29.5735295625)
    && Has(table, "tbsp", Volume, 14.78676478125) && Has(table, "tsp", Volume, 4.92892159375)
  }

  lemma ProgramMetric(t: Table)
    requires IsProgramTable(t)
    ensures Has(t, "ml", Volume, 1.0) && Has(t, "cl", Volume, 10.0) && Has(t, "l", Volume, 1000.0)
  {
    ProgramHas(t, "ml", Volume, 1.0);
    ProgramHas(t, "cl", Volume, 10.0);
    ProgramHas(t, "l", Volume, 1000.0);
  }

  lemma ProgramGallon(t: Table)
    requires IsProgramTable(t)
    ensures Has(t, "gal", Volume, 3785.411784)
  {
    ProgramHas(t, "gal", Volume, 3785.411784);
  }

  lemma ProgramQuart(t: Table)
    requires IsProgramTable(t)
    ensures Has(t, "qt", Volume, 946.352946)
  {
    ProgramHas(t, "qt", Volume, 946.352946);
  }

  lemma ProgramCups(t: Table)
    requires IsProgramTable(t)
    ensures Has(t, "pt", Volume, 473.176473) && Has(t, "cup", Volume, 236.5882365)
  {
    ProgramHas(t, "pt", Volume, 473.176473);
    ProgramHas(t, "cup", Volume, 236.5882365);
  }

  lemma ProgramFluidOunce(t: Table)
    requires IsProgramTable(t)
    ensures Has(t, "floz", Volume, 29.5735295625)
  {
    ProgramHas(t, "floz", Volume, 29.5735295625);
  }

  lemma ProgramTablespoon(t: Table)
    requires IsProgramTable(t)
    ensures Has(t, "tbsp", Volume, 14.78676478125)
  {
    ProgramHas(t, "tbsp", Volume, 14.78676478125);
  }

  lemma ProgramTeaspoon(t: Table)
    requires IsProgramTable(t)
    ensures Has(t, "tsp", Volume, 4.92892159375)
  {
    ProgramHas(t, "tsp", Volume, 4.92892159375);
  }

  lemma ProgramVolumes(t: Table)
    requires IsProgramTable(t)
    ensures HasVolumes(t) && HasSpoons(t)
  {
    ProgramMetric(t);
    ProgramGallon(t);
    ProgramQuart(t);
    ProgramCups(t);
    ProgramFluidOunce(t);
    ProgramTablespoon(t);
    ProgramTeaspoon(t);
  }

  lemma VolumesMake(t: Table)
    requires HasVolumes(t)
    ensures Makes(t, "l", 1000.0, "ml") && Makes(t, "cl", 10.0, "ml") && Makes(t, "gal", 231.0 * 16.387064, "ml")
    ensures Makes(t, "gal", 4.0, "qt") && Makes(t, "qt", 2.0, "pt") && Makes(t, "pt", 2.0, "cup")
  {
    TableMakes(t, "l", 1000.0, "ml", Volume, 1000.0, 1.0);
    TableMakes(t, "cl", 10.0, "ml", Volume, 10.0, 1.0);
    TableMakes(t, "gal", 231.0 * 16.387064, "ml", Volume, 3785.411784, 1.0);
    TableMakes(t, "gal", 4.0, "qt", Volume, 3785.411784, 946.352946);
    TableMakes(t, "qt", 2.0, "pt", Volume, 946.352946, 473.176473);
    TableMakes(t, "pt", 2.0, "cup", Volume, 473.176473, 236.5882365);
  }

  lemma SpoonsMake(t: Table)
    requires HasSpoons(t)
    ensures Makes(t, "cup", 8.0, "floz") && Makes(t, "floz", 2.0, "tbsp") && Makes(t, "tbsp", 3.0, "tsp")
  {
    TableMakes(t, "cup", 8.0, "floz", Volume, 236.5882365, 29.5735295625);
    TableMakes(t, "floz", 2.0, "tbsp", Volume, 29.5735295625, 14.78676478125);
    TableMakes(t, "tbsp", 3.0, "tsp", Volume, 14.78676478125, 4.92892159375);
  }

  /**
   Metric volumes; a gallon is 231 cubic inches of 16.387064 ml, four quarts of two pints of two cups of eight fluid
   ounces of two tablespoons of three teaspoons.
   */
  lemma VolumeUnits()
    ensures var t := UnitTable();
            && Makes(t, "l", 1000.0, "ml") && Makes(t, "cl", 10.0, "ml") && Makes(t, "gal", 231.0 * 16.387064, "ml")
            && Makes(t, "gal", 4.0, "qt") && Makes(t, "qt", 2.0, "pt") && Makes(t, "pt", 2.0, "cup")
            && Makes(t, "cup", 8.0, "floz") && Makes(t, "floz", 2.0, "tbsp") && Makes(t, "tbsp", 3.0, "tsp")
  {
    ProgramTable();
    ProgramVolumes(UnitTable());
    VolumesMake(UnitTable());
    SpoonsMake(UnitTable());
  }

  // --- Every spelling, unit by unit -----------------------------------------------------------------------

  lemma Grams(u: string)
    requires u == "g" || u == "gram" || u == "grams"
    ensures InfoFor(u) == Some(UnitInfo(Mass, 1.0))
  {
  }

  lemma Kilograms(u: string)
    requires u == "kg" || u == "kilo" || u == "kilogram" || u == "kilograms"
    ensures InfoFor(u) == Some(UnitInfo(Mass, 1000.0))
  {
  }

  lemma Milligrams(u: string)
    requires u == "mg" || u == "milligram"
    ensures InfoFor(u) == Some(UnitInfo(Mass, 0.001))
  {
  }

  lemma Ounces(u: string)
    requires u == "oz" || u == "ounce" || u == "ounces"
    ensures InfoFor(u) == Some(UnitInfo(Mass, 28.349523125))
  {
  }

  lemma Pounds(u: string)
    requires u == "lb" || u == "lbs" || u == "pound" || u == "pounds"
    ensures InfoFor(u) == Some(UnitInfo(Mass, 453.59237))
  {
  }

  lemma Millilitres(u: string)
    requires u == "ml" || u == "milliliter" || u == "milliliters"
    ensures InfoFor(u) == Some(UnitInfo(Volume, 1.0))
  {
  }

  lemma Litres(u: string)
    requires u == "l" || u == "liter" || u == "liters" || u == "litre" || u == "litres"
    ensures InfoFor(u) == Some(UnitInfo(Volume, 1000.0))
  {
  }

  lemma Teaspoons(u: string)
    requires u == "tsp" || u == "teaspoon" || u == "teaspoons"
    ensures InfoFor(u) == Some(UnitInfo(Volume, 4.92892159375))
  {
  }

  lemma Tablespoons(u: string)
    requires u == "tbsp" || u == "tablespoon" || u == "tablespoons"
    ensures InfoFor(u) == Some(UnitInfo(Volume, 14.78676478125))
  {
  }

  lemma FluidOunces(u: string)
    requires u == "floz" || u == "fluidounce" || u == "fluidounces"
    ensures InfoFor(u) == Some(UnitInfo(Volume, 29.5735295625))
  {
  }

  lemma Cups(u: string)
    requires u == "cup" || u == "cups"
    ensures InfoFor(u) == Some(UnitInfo(Volume, 236.5882365))
  {
  }

  lemma Pints(u: string)
    requires u == "pt" || u == "pint" || u == "pints"
    ensures InfoFor(u) == Some(UnitInfo(Volume, 473.176473))
  {
  }

  lemma Quarts(u: string)
    requires u == "qt" || u == "quart" || u == "quarts"
    ensures InfoFor(u) == Some(UnitInfo(Volume, 946.352946))
  {
  }

  lemma Gallons(u: string)
    requires u == "gal" || u == "gallon" || u == "gallons"
    ensures InfoFor(u) == Some(UnitInfo(Volume, 3785.411784))
  {
  }

  lemma Sticks(u: string)
    requires u == "stick" || u == "sticks"
    ensures InfoFor(u) == Some(UnitInfo(Count, 0.0))
  {
  }

  lemma Packs(u: string)
    requires u == "pack" || u == "packs" || u == "packet"
    ensures InfoFor(u) == Some(UnitInfo(Count, 0.0))
  {
  }

  lemma Each(u: string)
    requires u == "each" || u == "whole"
    ensures InfoFor(u) == Some(UnitInfo(Count, 0.0))
  {
  }

  lemma Pieces(u: string)
    requires u == "piece" || u == "pieces"
    ensures InfoFor(u) == Some(UnitInfo(Count, 0.0))
  {
  }

  /** Things that are counted convert into nothing but themselves. */
  lemma CountedNeverConvert(table: Table, u: string, to: string, x: real)
    requires NormalizeUnit(u) in table && table[NormalizeUnit(u)].family == Count && to != u
    ensures Convert(table, x, u, to) == None
  {
  }
}
