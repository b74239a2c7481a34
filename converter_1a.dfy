/** The unit converter of src/tasks/41073/1a.jsx: `convert` over a ratio table for length
  * and Kelvin offsets for temperature, the swap button, de-duplicated favourites and a
  * list of custom conversion rows. The two-decimal rounding of the result and the
  * parsing of the input are not modelled. */
module ConverterA {
  import opened Wrappers
  import opened Seqs
  import opened Measures

  /** `units`: the options of the unit selects, per category. */
  function Units(c: Category): seq<string> {
    match c
    case Length => ["m", "cm", "km", "in", "ft", "mi"]
    case Weight => ["kg", "g", "lb", "oz"]
    case Volume => ["l", "ml", "gal", "qt"]
    case Temperature => ["C", "F", "K"]
  }

  /** `ratios`: metres per unit, for length only. */
  const Ratios: map<string, real> :=
    map["m" := 1.0, "cm" := 0.01, "km" := 1000.0, "in" := 0.0254, "ft" := 0.3048, "mi" := 1609.34]

  lemma RatiosPositive(u: string)
    requires u in Ratios
    ensures Ratios[u] > 0.0
  {
  }

  /** The scale a temperature unit names, if any. */
  function ScaleOf(u: string): (r: Option<Scale>)
    ensures r.Some? <==> u in Units(Temperature)
  {
    if u == "C" then Some(Celsius) else if u == "F" then Some(Fahrenheit) else if u == "K" then Some(Kelvin) else None
  }

  // ---------------------------------------------------------------- convert, as written

  /** `convert` as the source writes it: equal units give the value back; Celsius and
    * Fahrenheit have their own formulas; every other temperature pair only subtracts
    * 273.15 from a kelvin source and adds it for a kelvin target; length multiplies by
    * `ratios[to] / ratios[from]`; a unit outside `ratios` gives NaN (`None`). */
  function ConvertAsWritten(v: real, from: string, to: string, kind: Category): (r: Option<real>)
    ensures from == to ==> r == Some(v)
    ensures r.None? <==> from != to && kind != Temperature && !(from in Ratios && to in Ratios)
  {
    if from == to then Some(v)
    else if kind == Temperature then
      if from == "C" && to == "F" then Some(v * 9.0 / 5.0 + 32.0)
      else if from == "F" && to == "C" then Some((v - 32.0) * 5.0 / 9.0)
      else Some(v - (if from == "K" then 273.15 else 0.0) + (if to == "K" then 273.15 else 0.0))
    else if from in Ratios && to in Ratios then Some(v * (Ratios[to] / Ratios[from]))
    else None
  }

  /** As written, the table is read backwards: one kilometre comes out as 0.001 metres
    * and one metre as 1000 kilometres, so the length in metres is not kept. */
  lemma LengthRatioInverted()
    ensures ConvertAsWritten(1.0, "km", "m", Length) == Some(0.001)
    ensures ConvertAsWritten(1.0, "m", "km", Length) == Some(1000.0)
    ensures ConvertAsWritten(1.0, "km", "m", Length).value * Ratios["m"] != 1.0 * Ratios["km"]
  {
  }

  /** As written, Fahrenheit and kelvin are related by the Celsius offset alone: 32 °F
    * (the freezing point) comes out as 305.15 K instead of 273.15 K. */
  lemma FahrenheitKelvinAsWritten()
    ensures ConvertAsWritten(32.0, "F", "K", Temperature) == Some(305.15)
    ensures Reference(32.0, Fahrenheit, Kelvin) == 273.15
    ensures ConvertAsWritten(273.15, "K", "F", Temperature) == Some(0.0)
    ensures Reference(273.15, Kelvin, Fahrenheit) == 32.0
  {
  }

  /** Even as written, every conversion between two units of the table is undone by the
    * conversion back, for length and for all pairs of temperature scales. */
  lemma AsWrittenRoundTrip(v: real, a: string, b: string, kind: Category)
    requires kind == Temperature ==> ScaleOf(a).Some? && ScaleOf(b).Some?
    requires kind != Temperature ==> a in Ratios && b in Ratios
    ensures ConvertAsWritten(ConvertAsWritten(v, a, b, kind).value, b, a, kind) == Some(v)
  {
    if a == b {
    } else if kind == Temperature {
      OffsetRoundTrip(v, a, b);
    } else {
      RatioRoundTrip(v, a, b);
      var w := v * (Ratios[b] / Ratios[a]);
      assert ConvertAsWritten(v, a, b, kind) == Some(w);
      assert ConvertAsWritten(w, b, a, kind) == Some(w * (Ratios[a] / Ratios[b]));
    }
  }

  lemma OffsetRoundTrip(v: real, a: string, b: string)
    requires ScaleOf(a).Some? && ScaleOf(b).Some?
    ensures ConvertAsWritten(ConvertAsWritten(v, a, b, Temperature).value, b, a, Temperature) == Some(v)
  {
  }

  lemma RatioRoundTrip(v: real, a: string, b: string)
    requires a in Ratios && b in Ratios
    ensures v * (Ratios[b] / Ratios[a]) * (Ratios[a] / Ratios[b]) == v
  {
    RatiosPositive(a);
    RatiosPositive(b);
    var there, back := Ratios[b] / Ratios[a], Ratios[a] / Ratios[b];
    assert there * back == 1.0;
    assert v * there * back == v * (there * back);
  }

  // ---------------------------------------------------------------- convert, corrected

  /** `convert` with the ratio read the right way round (`ratios[from] / ratios[to]`) and
    * with Fahrenheit-kelvin pairs converted through degrees Celsius; everything else as
    * written. This is the conversion the component below uses. */
  function Convert(v: real, from: string, to: string, kind: Category): (r: Option<real>)
    ensures r.None? <==> from != to && kind != Temperature && (from !in Ratios || to !in Ratios)
  {
    if from == to then Some(v)
    else if kind == Temperature then
      if from == "C" && to == "F" then Some(v * 9.0 / 5.0 + 32.0)
      else if from == "F" && to == "C" then Some((v - 32.0) * 5.0 / 9.0)
      else if from == "F" && to == "K" then Some((v - 32.0) * 5.0 / 9.0 + 273.15)
      else if from == "K" && to == "F" then Some((v - 273.15) * 9.0 / 5.0 + 32.0)
      else Some(v - (if from == "K" then 273.15 else 0.0) + (if to == "K" then 273.15 else 0.0))
    else if from in Ratios && to in Ratios then Some(v * Ratios[from] / Ratios[to])
    else None
  }

  /** Corrected, a length conversion keeps the length in metres. */
  lemma ConvertKeepsMetres(v: real, a: string, b: string)
    requires a in Ratios && b in Ratios
    ensures Convert(v, a, b, Length).value * Ratios[b] == v * Ratios[a]
  {
    RatiosPositive(b);
  }

  /** Corrected, every temperature conversion between the three scales is the conversion
    * through degrees Celsius. */
  lemma ConvertMatchesReference(v: real, a: string, b: string)
    requires ScaleOf(a).Some? && ScaleOf(b).Some?
    ensures Convert(v, a, b, Temperature) == Some(Reference(v, ScaleOf(a).value, ScaleOf(b).value))
  {
    ReferenceLaws(v, ScaleOf(a).value, ScaleOf(a).value, ScaleOf(a).value);
  }

  /** Corrected, converting there and back returns the input, and two conversions compose. */
  lemma ConvertLaws(v: real, a: string, b: string, d: string, kind: Category)
    requires kind == Temperature ==> ScaleOf(a).Some? && ScaleOf(b).Some? && ScaleOf(d).Some?
    requires kind != Temperature ==> a in Ratios && b in Ratios && d in Ratios
    ensures Convert(Convert(v, a, b, kind).value, b, a, kind) == Some(v)
    ensures Convert(Convert(v, a, b, kind).value, b, d, kind) == Convert(v, a, d, kind)
  {
    if kind == Temperature {
      var sa, sb, sd := ScaleOf(a).value, ScaleOf(b).value, ScaleOf(d).value;
      ConvertMatchesReference(v, a, b);
      ConvertMatchesReference(Reference(v, sa, sb), b, a);
      ConvertMatchesReference(Reference(v, sa, sb), b, d);
      ConvertMatchesReference(v, a, d);
      ReferenceLaws(v, sa, sb, sd);
    } else {
      RatiosPositive(a);
      RatiosPositive(b);
      RatiosPositive(d);
      ScaleRoundTrip(v, Ratios[a], Ratios[b]);
      ScaleCompose(v, Ratios[a], Ratios[b], Ratios[d]);
    }
  }

  /** Equal units give the value back unchanged, in every category, and weight and volume
    * units, missing from the ratio table, give NaN otherwise. */
  lemma SameUnitAndMissingUnits(v: real, u: string)
    ensures Convert(v, u, u, Weight) == Some(v) && ConvertAsWritten(v, u, u, Weight) == Some(v)
    ensures Convert(v, "kg", "g", Weight) == None && ConvertAsWritten(v, "kg", "g", Weight) == None
    ensures Convert(v, "l", "ml", Volume) == None && ConvertAsWritten(v, "l", "ml", Volume) == None
  {
  }

  // ---------------------------------------------------------------- the component

  /** A favourite: the two units and the category, without the value. */
  datatype Favorite = Favorite(fromUnit: string, toUnit: string, kind: Category)

  /** A row of the custom-conversion list. */
  datatype Custom = Custom(from: string, to: string)

  class Converter {
    var value: real
    var units: UnitPair
    var kind: Category
    var result: Option<real>
    var favorites: seq<Favorite>
    var customConversions: seq<Custom>

    /** The effect keeps `result` in step; `addFavorite` keeps the favourites distinct. */
    ghost predicate Valid()
      reads this
    {
      result == Convert(value, units.fromUnit, units.toUnit, kind) && NoDup(favorites)
    }

    /** One metre in feet, with no favourites and no custom rows. */
    constructor()
      ensures Valid()
      ensures value == 1.0 && units == UnitPair("m", "ft") && kind == Length
      ensures favorites == [] && customConversions == []
    {
      value := 1.0;
      units := UnitPair("m", "ft");
      kind := Length;
      result := Convert(1.0, "m", "ft", Length);
      favorites := [];
      customConversions := [];
    }

    /** The value input. The slider's `onValueChange` is the array `[setValue]`, not a
      * function, so the slider never sets the value. */
    method SetValue(v: real)
      requires Valid()
      modifies this`value, this`result
      ensures Valid() && value == v
    {
      value := v;
      result := Convert(value, units.fromUnit, units.toUnit, kind);
    }

    /** Either unit select. */
    method SetUnits(p: UnitPair)
      requires Valid()
      modifies this`units, this`result
      ensures Valid() && units == p
    {
      units := p;
      result := Convert(value, units.fromUnit, units.toUnit, kind);
    }

    /** The "Unit Type" select: the units are kept. */
    method SetKind(k: Category)
      requires Valid()
      modifies this`kind, this`result
      ensures Valid() && kind == k && units == old(units)
    {
      kind := k;
      result := Convert(value, units.fromUnit, units.toUnit, kind);
    }

    /** `handleSwap`: the units change places; the value stays. */
    method Swap()
      requires Valid()
      modifies this`units, this`result
      ensures Valid()
      ensures units == old(units).Swapped() && value == old(value)
      ensures result == Convert(value, old(units).toUnit, old(units).fromUnit, kind)
    {
      units := units.Swapped();
      result := Convert(value, units.fromUnit, units.toUnit, kind);
    }

    /** `addFavorite`: appended only when the same units and category are not saved yet. */
    method AddFavorite()
      requires Valid()
      modifies this`favorites
      ensures Valid()
      ensures Favorite(units.fromUnit, units.toUnit, kind) in favorites
      ensures Favorite(units.fromUnit, units.toUnit, kind) in old(favorites) ==> favorites == old(favorites)
      ensures Favorite(units.fromUnit, units.toUnit, kind) !in old(favorites) ==>
        favorites == old(favorites) + [Favorite(units.fromUnit, units.toUnit, kind)]
    {
      var f := Favorite(units.fromUnit, units.toUnit, kind);
      if f !in favorites {
        AppendAbsentNoDup(favorites, f);
        favorites := favorites + [f];
      }
    }

    /** A favourite button: its units and category, then the effect. */
    method SelectFavorite(idx: int)
      requires Valid() && 0 <= idx < |favorites|
      modifies this`units, this`kind, this`result
      ensures Valid()
      ensures units == UnitPair(favorites[idx].fromUnit, favorites[idx].toUnit) && kind == favorites[idx].kind
    {
      units := UnitPair(favorites[idx].fromUnit, favorites[idx].toUnit);
      kind := favorites[idx].kind;
      result := Convert(value, units.fromUnit, units.toUnit, kind);
    }

    /** The trash icon of a favourite: exactly that index goes. */
    method RemoveFavorite(idx: int)
      requires Valid()
      modifies this`favorites
      ensures Valid()
      ensures favorites == RemoveAt(old(favorites), idx)
    {
      RemoveAtNoDup(favorites, idx);
      favorites := RemoveAt(favorites, idx);
    }

    /** "Add Custom": an empty row at the end. */
    method AddCustom()
      modifies this`customConversions
      ensures customConversions == old(customConversions) + [Custom("", "")]
    {
      customConversions := customConversions + [Custom("", "")];
    }

    /** Typing in a row's "From" input: only that row's `from` changes. */
    method SetCustomFrom(idx: int, s: string)
      requires 0 <= idx < |customConversions|
      modifies this`customConversions
      ensures customConversions == old(customConversions)[idx := Custom(s, old(customConversions)[idx].to)]
    {
      customConversions := customConversions[idx := customConversions[idx].(from := s)];
    }

    /** Typing in a row's "To" input: only that row's `to` changes. */
    method SetCustomTo(idx: int, s: string)
      requires 0 <= idx < |customConversions|
      modifies this`customConversions
      ensures customConversions == old(customConversions)[idx := Custom(old(customConversions)[idx].from, s)]
    {
      customConversions := customConversions[idx := customConversions[idx].(to := s)];
    }

    /** A row's trash button: exactly that row goes. */
    method RemoveCustom(idx: int)
      modifies this`customConversions
      ensures customConversions == RemoveAt(old(customConversions), idx)
    {
      customConversions := RemoveAt(customConversions, idx);
    }
  }
}
