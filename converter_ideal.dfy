/** The unit converter of src/tasks/41073/1ideal.jsx: a factor table per category, an
  * affine map between the three temperature scales, and the `UnitConverter` component's
  * state (units, input, result, favourites, quick conversions). Parsing the input is not
  * modelled: an input is a number or `None` (NaN). The result is kept as the exact number
  * (or `None`, shown as the empty string); its six-decimal text is modelled where it is
  * read back as a number, by the swap. */
module ConverterIdeal {
  import opened Wrappers
  import opened Seqs
  import opened Measures

  // ---------------------------------------------------------------- tables

  /** `conversionFactors`: metres, kilograms and litres per unit; for temperature the
    * table only lists the units (its numbers are never used in a conversion). */
  function Factors(c: Category): map<string, real> {
    match c
    case Length => map["meter" := 1.0, "kilometer" := 1000.0, "centimeter" := 0.01, "millimeter" := 0.001,
                       "inch" := 0.0254, "foot" := 0.3048, "yard" := 0.9144, "mile" := 1609.34]
    case Weight => map["kilogram" := 1.0, "gram" := 0.001, "milligram" := 0.000001, "tonne" := 1000.0,
                       "pound" := 0.453592, "ounce" := 0.0283495]
    case Volume => map["liter" := 1.0, "milliliter" := 0.001, "cubicMeter" := 1000.0, "gallon" := 3.78541,
                       "quart" := 0.946353, "pint" := 0.473176, "cup" := 0.236588]
    case Temperature => map["celsius" := 0.0, "fahrenheit" := 32.0, "kelvin" := 273.15]
  }

  /** `Object.keys(conversionFactors[category])`: the units in the order of the select. */
  function Units(c: Category): (r: seq<string>)
    ensures forall u :: u in r <==> u in Factors(c)
  {
    match c
    case Length => ["meter", "kilometer", "centimeter", "millimeter", "inch", "foot", "yard", "mile"]
    case Weight => ["kilogram", "gram", "milligram", "tonne", "pound", "ounce"]
    case Volume => ["liter", "milliliter", "cubicMeter", "gallon", "quart", "pint", "cup"]
    case Temperature => ["celsius", "fahrenheit", "kelvin"]
  }

  /** Every factor of the three proportional categories is positive, so no conversion
    * divides by zero and none flips a sign. */
  lemma FactorsPositive(c: Category, u: string)
    requires c != Temperature && u in Factors(c)
    ensures Factors(c)[u] > 0.0
  {
  }

  // ---------------------------------------------------------------- conversion

  /** The scale a temperature unit names, if any. */
  function ScaleOf(u: string): (r: Option<Scale>)
    ensures r.Some? <==> u in Factors(Temperature)
  {
    if u == "celsius" then Some(Celsius)
    else if u == "fahrenheit" then Some(Fahrenheit)
    else if u == "kelvin" then Some(Kelvin)
    else None
  }

  /** `convertTemperature`: the value itself for equal units, one formula per ordered pair
    * of distinct scales, and `undefined` (`None`) for any other pair. */
  function ConvertTemperature(v: real, from: string, to: string): (r: Option<real>)
    ensures from == to ==> r == Some(v)
    ensures r.Some? <==> from == to || (ScaleOf(from).Some? && ScaleOf(to).Some?)
  {
    if from == to then Some(v)
    else if from == "celsius" && to == "fahrenheit" then Some(v * 9.0 / 5.0 + 32.0)
    else if from == "celsius" && to == "kelvin" then Some(v + 273.15)
    else if from == "fahrenheit" && to == "celsius" then Some((v - 32.0) * 5.0 / 9.0)
    else if from == "fahrenheit" && to == "kelvin" then Some((v - 32.0) * 5.0 / 9.0 + 273.15)
    else if from == "kelvin" && to == "celsius" then Some(v - 273.15)
    else if from == "kelvin" && to == "fahrenheit" then Some((v - 273.15) * 9.0 / 5.0 + 32.0)
    else None
  }

  /** Each of the six formulas is the conversion through degrees Celsius, and a result
    * exists exactly when the units are equal or both name a scale. */
  lemma TemperatureMatchesReference(v: real, from: string, to: string)
    ensures ConvertTemperature(v, from, to).Some? <==> from == to || (ScaleOf(from).Some? && ScaleOf(to).Some?)
    ensures ScaleOf(from).Some? && ScaleOf(to).Some? ==>
      ConvertTemperature(v, from, to) == Some(Reference(v, ScaleOf(from).value, ScaleOf(to).value))
  {
    if ScaleOf(from).Some? && ScaleOf(to).Some? {
      ReferenceLaws(v, ScaleOf(from).value, ScaleOf(from).value, ScaleOf(from).value);
    }
  }

  /** A unit the category can convert. */
  predicate Known(c: Category, u: string) {
    if c == Temperature then ScaleOf(u).Some? else u in Factors(c)
  }

  /** `convertValue`: the temperature formulas, or `value * factor(from) / factor(to)`;
    * NaN (`None`) when the input is not a number or a unit is not in the category. */
  function ConvertValue(c: Category, value: Option<real>, from: string, to: string): (r: Option<real>)
    ensures r.Some? ==> value.Some?
    ensures c != Temperature ==> (r.Some? <==> value.Some? && Known(c, from) && Known(c, to))
  {
    match value
    case None => None
    case Some(v) =>
      if c == Temperature then ConvertTemperature(v, from, to)
      else if from in Factors(c) && to in Factors(c) then Some(v * Factors(c)[from] / Factors(c)[to])
      else None
  }

  /** Converting a number to its own unit gives it back unchanged. */
  lemma SameUnitIsIdentity(c: Category, v: real, u: string)
    requires Known(c, u)
    ensures ConvertValue(c, Some(v), u, u) == Some(v)
  {
    if c != Temperature {
      FactorsPositive(c, u);
    }
  }

  /** Converting from `a` to `b` and back returns the input (exact arithmetic). */
  lemma ConvertRoundTrip(c: Category, v: real, a: string, b: string)
    requires Known(c, a) && Known(c, b)
    ensures ConvertValue(c, ConvertValue(c, Some(v), a, b), b, a) == Some(v)
  {
    if c == Temperature {
      TemperatureMatchesReference(v, a, b);
      var w := Reference(v, ScaleOf(a).value, ScaleOf(b).value);
      TemperatureMatchesReference(w, b, a);
      ReferenceLaws(v, ScaleOf(a).value, ScaleOf(b).value, ScaleOf(a).value);
    } else {
      FactorsPositive(c, a);
      FactorsPositive(c, b);
      ScaleRoundTrip(v, Factors(c)[a], Factors(c)[b]);
    }
  }

  /** Converting from `a` to `b` and then to `d` is converting from `a` to `d`. */
  lemma ConvertComposes(c: Category, v: real, a: string, b: string, d: string)
    requires Known(c, a) && Known(c, b) && Known(c, d)
    ensures ConvertValue(c, ConvertValue(c, Some(v), a, b), b, d) == ConvertValue(c, Some(v), a, d)
  {
    if c == Temperature {
      TemperatureMatchesReference(v, a, b);
      var w := Reference(v, ScaleOf(a).value, ScaleOf(b).value);
      TemperatureMatchesReference(w, b, d);
      TemperatureMatchesReference(v, a, d);
      ReferenceLaws(v, ScaleOf(a).value, ScaleOf(b).value, ScaleOf(d).value);
    } else {
      FactorsPositive(c, a);
      FactorsPositive(c, b);
      FactorsPositive(c, d);
      ScaleCompose(v, Factors(c)[a], Factors(c)[b], Factors(c)[d]);
    }
  }

  /** Fahrenheit to kelvin is Fahrenheit to Celsius followed by Celsius to kelvin, and
    * kelvin to Fahrenheit is kelvin to Celsius followed by Celsius to Fahrenheit. */
  lemma TemperatureChains(v: real)
    ensures ConvertTemperature(v, "fahrenheit", "kelvin")
         == ConvertTemperature(ConvertTemperature(v, "fahrenheit", "celsius").value, "celsius", "kelvin")
    ensures ConvertTemperature(v, "kelvin", "fahrenheit")
         == ConvertTemperature(ConvertTemperature(v, "kelvin", "celsius").value, "celsius", "fahrenheit")
  {
  }

  /** The component is not re-created when the category tab changes, so its units stay
    * those of the old tab: a length pair shown in the weight tab has no result. */
  lemma StaleUnitsShowNothing(v: real)
    ensures ConvertValue(Weight, Some(v), "meter", "kilometer") == None
    ensures ConvertValue(Temperature, Some(v), "meter", "kilometer") == None
  {
  }

  // ---------------------------------------------------------------- the shown result

  /** `x.toFixed(6)` read back as a number: the multiple of 0.000001 nearest to `x`, a tie
    * going away from zero (the sign is set aside before rounding). */
  function ToFixed6(x: real): (r: real)
    ensures -0.0000005 <= r - x <= 0.0000005
    ensures IsFixed6(r)
    ensures IsFixed6(x) ==> r == x
  {
    if x < 0.0 then
      FixedNegated(x);
      FixedNegated(RoundMicros(-x));
      -RoundMicros(-x)
    else RoundMicros(x)
  }

  lemma FixedNegated(x: real)
    ensures IsFixed6(-x) <==> IsFixed6(x)
  {
    var y := x * 1000000.0;
    assert -x * 1000000.0 == -y;
    if IsFixed6(x) {
      assert (-y).Floor == -(y.Floor);
    }
    if IsFixed6(-x) {
      assert y.Floor == -((-y).Floor);
    }
  }

  /** `x` has at most six decimals. */
  predicate IsFixed6(x: real) {
    (x * 1000000.0).Floor as real == x * 1000000.0
  }

  /** Half-up rounding of a non-negative number to six decimals. */
  function RoundMicros(x: real): (r: real)
    requires x >= 0.0
    ensures -0.0000005 <= x - r < 0.0000005
    ensures IsFixed6(r)
    ensures IsFixed6(x) ==> r == x
  {
    var y := x * 1000000.0;
    var n := (y + 0.5).Floor;
    assert y - 0.5 < n as real <= y + 0.5;
    assert (n as real / 1000000.0) * 1000000.0 == n as real;
    assert IsFixed6(x) ==> n == y.Floor;
    n as real / 1000000.0
  }

  /** The result text `setToValue` stores, as the number `parseFloat` reads from it. */
  function Shown(v: Option<real>): (r: Option<real>)
    ensures r.Some? <==> v.Some?
    ensures v.Some? ==> -0.0000005 <= r.value - v.value <= 0.0000005
  {
    match v
    case None => None
    case Some(x) => Some(ToFixed6(x))
  }

  /** Swapping units feeds the shown text back in: one milligram is 0.000000001 tonnes, shown
    * as "0.000000", so after the swap the input is 0 tonnes and the result 0 milligrams. */
  lemma SwapShowsZero()
    ensures ConvertValue(Weight, Some(1.0), "milligram", "tonne") == Some(0.000000001)
    ensures Shown(Some(0.000000001)) == Some(0.0)
    ensures ConvertValue(Weight, Some(0.0), "tonne", "milligram") == Some(0.0)
  {
    assert (0.000000001 * 1000000.0 + 0.5).Floor == 0;
  }

  /** When the shown result has at most six decimals, swapping back restores the input. */
  lemma SwapRoundTrip(c: Category, v: real, a: string, b: string)
    requires Known(c, a) && Known(c, b)
    requires IsFixed6(ConvertValue(c, Some(v), a, b).value)
    ensures ConvertValue(c, Shown(ConvertValue(c, Some(v), a, b)), b, a) == Some(v)
  {
    ConvertRoundTrip(c, v, a, b);
  }

  // ---------------------------------------------------------------- lists

  /** A saved favourite: a snapshot of the converter. */
  datatype Favorite = Favorite(category: Category, fromUnit: string, toUnit: string,
                               fromValue: Option<real>, toValue: Option<real>)

  /** A quick-conversion button. */
  datatype QuickConvert = QuickConvert(from: string, to: string, text: string)

  const BlankQuickConvert := QuickConvert("", "", "")

  /** `defaultQuickConversions`. */
  function DefaultQuickConversions(): (m: map<Category, seq<QuickConvert>>)
    ensures Length in m && Weight in m && Volume in m && Temperature in m
  {
    map[Length := [QuickConvert("meter", "foot", "m to ft"), QuickConvert("kilometer", "mile", "km to mi"),
                   QuickConvert("centimeter", "inch", "cm to in")],
        Weight := [QuickConvert("kilogram", "pound", "kg to lb"), QuickConvert("gram", "ounce", "g to oz"),
                   QuickConvert("tonne", "pound", "t to lb")],
        Volume := [QuickConvert("liter", "gallon", "L to gal"), QuickConvert("milliliter", "cup", "mL to cup"),
                   QuickConvert("cubicMeter", "gallon", "m¬≥ to gal")],
        Temperature := [QuickConvert("celsius", "fahrenheit", "¬∞C to ¬∞F"),
                        QuickConvert("fahrenheit", "celsius", "¬∞F to ¬∞C"),
                        QuickConvert("celsius", "kelvin", "¬∞C to K")]]
  }

  /** Every default quick conversion converts: its units belong to its category. */
  lemma DefaultQuickConversionsConvert(c: Category, k: int)
    requires 0 <= k < |DefaultQuickConversions()[c]|
    ensures Known(c, DefaultQuickConversions()[c][k].from) && Known(c, DefaultQuickConversions()[c][k].to)
  {
  }

  /** The custom-conversion form may be added only when its three fields are filled in. */
  predicate Complete(q: QuickConvert) {
    q.from != "" && q.to != "" && q.text != ""
  }

  predicate AllCategories(m: map<Category, seq<QuickConvert>>) {
    Length in m && Weight in m && Volume in m && Temperature in m
  }

  // ---------------------------------------------------------------- the component

  class UnitConverter {
    var category: Category
    var fromUnit: string
    var toUnit: string
    var fromValue: Option<real>
    var toValue: Option<real>
    var favorites: seq<Favorite>
    var sliderValue: real
    var quickConversions: map<Category, seq<QuickConvert>>
    var newQuickConvert: QuickConvert

    /** The effect keeps the shown result in step with the category, the units and the
      * input; every category has a quick-conversion list. */
    ghost predicate Valid()
      reads this
    {
      toValue == ConvertValue(category, fromValue, fromUnit, toUnit) && AllCategories(quickConversions)
    }

    /** The converter as first shown, in the "length" tab: one metre in kilometres. */
    constructor()
      ensures Valid()
      ensures category == Length && fromUnit == "meter" && toUnit == "kilometer"
      ensures fromValue == Some(1.0) && toValue == Some(0.001)
      ensures favorites == [] && quickConversions == DefaultQuickConversions()
      ensures newQuickConvert == BlankQuickConvert
    {
      category := Length;
      fromUnit := Units(Length)[0];
      toUnit := Units(Length)[1];
      fromValue := Some(1.0);
      toValue := ConvertValue(Length, Some(1.0), "meter", "kilometer");
      favorites := [];
      sliderValue := 1.0;
      quickConversions := DefaultQuickConversions();
      newQuickConvert := BlankQuickConvert;
    }

    /** A category tab of the app: the component keeps its state and recomputes. */
    method SetCategory(c: Category)
      requires Valid()
      modifies this`category, this`toValue
      ensures Valid() && category == c
    {
      category := c;
      toValue := ConvertValue(category, fromValue, fromUnit, toUnit);
    }

    /** Typing in the input. */
    method SetFromValue(v: Option<real>)
      requires Valid()
      modifies this`fromValue, this`toValue
      ensures Valid() && fromValue == v
    {
      fromValue := v;
      toValue := ConvertValue(category, fromValue, fromUnit, toUnit);
    }

    /** Either unit select. */
    method SetUnits(from: string, to: string)
      requires Valid()
      modifies this`fromUnit, this`toUnit, this`toValue
      ensures Valid() && fromUnit == from && toUnit == to
    {
      fromUnit := from;
      toUnit := to;
      toValue := ConvertValue(category, fromValue, fromUnit, toUnit);
    }

    /** `handleSwapUnits`: the units change places and the shown six-decimal result becomes
      * the input; the new result is the old input when that text lost nothing. */
    method SwapUnits()
      requires Valid()
      modifies this`fromUnit, this`toUnit, this`fromValue, this`toValue
      ensures Valid()
      ensures fromUnit == old(toUnit) && toUnit == old(fromUnit) && fromValue == Shown(old(toValue))
      ensures (old(fromValue).Some? && Known(category, fromUnit) && Known(category, toUnit) &&
               IsFixed6(old(toValue).value)) ==> toValue == old(fromValue)
    {
      if fromValue.Some? && Known(category, fromUnit) && Known(category, toUnit) && IsFixed6(toValue.value) {
        SwapRoundTrip(category, fromValue.value, fromUnit, toUnit);
      }
      fromUnit, toUnit := toUnit, fromUnit;
      fromValue := Shown(toValue);
      toValue := ConvertValue(category, fromValue, fromUnit, toUnit);
    }

    /** `handleAddFavorite`: a snapshot at the end of the list. */
    method AddFavorite()
      requires Valid()
      modifies this`favorites
      ensures Valid()
      ensures favorites == old(favorites) + [Favorite(category, fromUnit, toUnit, fromValue, toValue)]
    {
      favorites := favorites + [Favorite(category, fromUnit, toUnit, fromValue, toValue)];
    }

    /** `handleRemoveFavorite`: exactly the entry at `index` goes, the rest keep their order. */
    method RemoveFavorite(index: int)
      requires Valid()
      modifies this`favorites
      ensures Valid()
      ensures favorites == RemoveAt(old(favorites), index)
    {
      favorites := RemoveAt(favorites, index);
    }

    /** `handleSelectFavorite`: the favourite's units and input, then the effect. */
    method SelectFavorite(f: Favorite)
      requires Valid()
      modifies this`fromUnit, this`toUnit, this`fromValue, this`toValue
      ensures Valid()
      ensures fromUnit == f.fromUnit && toUnit == f.toUnit && fromValue == f.fromValue
    {
      fromUnit, toUnit, fromValue := f.fromUnit, f.toUnit, f.fromValue;
      toValue := ConvertValue(category, fromValue, fromUnit, toUnit);
    }

    /** `handleSliderChange`: the slider's value becomes the input. */
    method SetSlider(x: real)
      requires Valid()
      modifies this`sliderValue, this`fromValue, this`toValue
      ensures Valid() && sliderValue == x && fromValue == Some(x)
    {
      sliderValue := x;
      fromValue := Some(x);
      toValue := ConvertValue(category, fromValue, fromUnit, toUnit);
    }

    /** `handleQuickConvert`: a quick-conversion button selects its two units. */
    method ApplyQuickConvert(from: string, to: string)
      requires Valid()
      modifies this`fromUnit, this`toUnit, this`toValue
      ensures Valid() && fromUnit == from && toUnit == to
    {
      fromUnit, toUnit := from, to;
      toValue := ConvertValue(category, fromValue, fromUnit, toUnit);
    }

    /** The three inputs of the custom quick-conversion form. */
    method SetNewQuickConvert(q: QuickConvert)
      modifies this`newQuickConvert
      ensures newQuickConvert == q
    {
      newQuickConvert := q;
    }

    /** `handleAddCustomQuickConvert`: a complete form is appended to the active
      * category's list and reset; an incomplete one changes nothing. */
    method AddCustomQuickConvert()
      requires Valid()
      modifies this`quickConversions, this`newQuickConvert
      ensures Valid()
      ensures Complete(old(newQuickConvert)) ==>
        quickConversions == old(quickConversions)[category := old(quickConversions)[category] + [old(newQuickConvert)]]
        && newQuickConvert == BlankQuickConvert
      ensures !Complete(old(newQuickConvert)) ==>
        quickConversions == old(quickConversions) && newQuickConvert == old(newQuickConvert)
    {
      if Complete(newQuickConvert) {
        quickConversions := quickConversions[category := quickConversions[category] + [newQuickConvert]];
        newQuickConvert := BlankQuickConvert;
      }
    }

    /** `handleRemoveQuickConvert`: only the active category's list loses its entry at `index`. */
    method RemoveQuickConvert(index: int)
      requires Valid()
      modifies this`quickConversions
      ensures Valid()
      ensures quickConversions == old(quickConversions)[category := RemoveAt(old(quickConversions)[category], index)]
      ensures forall c :: c != category && c in old(quickConversions) ==> quickConversions[c] == old(quickConversions)[c]
    {
      quickConversions := quickConversions[category := RemoveAt(quickConversions[category], index)];
    }
  }
}
