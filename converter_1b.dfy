/** The unit converter of src/tasks/41073/1b.jsx: `temperatureConvert`, the index-ratio
  * conversion of `handleConversion` for the other categories, and the swap button. The
  * category has no setter in the component, so the app always converts lengths. */
module ConverterB {
  import opened Wrappers
  import opened Measures
  import ConverterA

  /** `units`: the options of the unit selects, per category. */
  function Units(c: Category): seq<string> {
    match c
    case Length => ["m", "km", "cm", "mm", "in", "ft", "yd"]
    case Weight => ["kg", "g", "lb", "oz"]
    case Volume => ["l", "ml", "gal", "qt"]
    case Temperature => ["C", "F", "K"]
  }

  /** `temperatureConvert`: equal units give the value back; from "C" the target is "F"
    * or else kelvin; from "F" it is "C" or else kelvin; any other source is read as
    * kelvin, and its target as "C" or else Fahrenheit. */
  function TemperatureConvert(v: real, from: string, to: string): (r: real)
    ensures from == to ==> r == v
    ensures from != to && from != "C" && from != "F" ==>
      r == (if to == "C" then v - 273.15 else (v - 273.15) * 9.0 / 5.0 + 32.0)
  {
    if from == to then v
    else if from == "C" then (if to == "F" then v * 9.0 / 5.0 + 32.0 else v + 273.15)
    else if from == "F" then (if to == "C" then (v - 32.0) * 5.0 / 9.0 else (v - 32.0) * 5.0 / 9.0 + 273.15)
    else if to == "C" then v - 273.15
    else (v - 273.15) * 9.0 / 5.0 + 32.0
  }

  /** Between the three scales, every branch is the conversion through degrees Celsius. */
  lemma TemperatureMatchesReference(v: real, a: string, b: string)
    requires ConverterA.ScaleOf(a).Some? && ConverterA.ScaleOf(b).Some?
    ensures TemperatureConvert(v, a, b) == Reference(v, ConverterA.ScaleOf(a).value, ConverterA.ScaleOf(b).value)
  {
    ReferenceLaws(v, ConverterA.ScaleOf(a).value, ConverterA.ScaleOf(a).value, ConverterA.ScaleOf(a).value);
  }

  /** Converting to another scale and back returns the input (exact arithmetic). */
  lemma TemperatureRoundTrip(v: real, a: string, b: string)
    requires ConverterA.ScaleOf(a).Some? && ConverterA.ScaleOf(b).Some?
    ensures TemperatureConvert(TemperatureConvert(v, a, b), b, a) == v
  {
    TemperatureMatchesReference(v, a, b);
    TemperatureMatchesReference(TemperatureConvert(v, a, b), b, a);
    ReferenceLaws(v, ConverterA.ScaleOf(a).value, ConverterA.ScaleOf(b).value, ConverterA.ScaleOf(a).value);
  }

  /** An unknown target is read as kelvin from "C" or "F", and as Fahrenheit from kelvin. */
  lemma UnknownTargets(v: real)
    ensures TemperatureConvert(v, "C", "m") == TemperatureConvert(v, "C", "K")
    ensures TemperatureConvert(v, "F", "m") == TemperatureConvert(v, "F", "K")
    ensures TemperatureConvert(v, "K", "m") == TemperatureConvert(v, "K", "F")
  {
  }

  /** `indexOf`: the position of `u` in `s`, or -1. */
  function IndexOf(s: seq<string>, u: string): (i: int)
    ensures -1 <= i < |s|
    ensures i >= 0 ==> s[i] == u && forall k :: 0 <= k < i ==> s[k] != u
    ensures i == -1 ==> u !in s
  {
    if s == [] then -1
    else if s[0] == u then 0
    else var j := IndexOf(s[1..], u); if j == -1 then -1 else j + 1
  }

  /** The outcome shown by the result line: nothing yet, a number, or a non-finite
    * value (Infinity or NaN, from dividing by the index 0). */
  datatype Outcome = NoResult | Value(x: real) | NotFinite

  /** `handleConversion`: the temperature formulas, or the value times
    * `(1 / indexOf(from)) * indexOf(to)` in the category's unit list. */
  function Conversion(v: real, from: string, to: string, c: Category): (r: Outcome)
    ensures r != NoResult
    ensures c != Temperature ==> (r == NotFinite <==> IndexOf(Units(c), from) == 0)
  {
    if c == Temperature then Value(TemperatureConvert(v, from, to)) else ByPosition(v, Units(c), from, to)
  }

  /** The proportional branch of `handleConversion` over a unit list `s`. */
  function ByPosition(v: real, s: seq<string>, from: string, to: string): (r: Outcome)
    ensures r != NoResult
    ensures r == NotFinite <==> IndexOf(s, from) == 0
  {
    Proportional(v, IndexOf(s, from), IndexOf(s, to))
  }

  /** `v * (1 / i) * j`, which is not finite when `i` is 0. */
  function Proportional(v: real, i: int, j: int): (r: Outcome)
    ensures r != NoResult
    ensures r == NotFinite <==> i == 0
  {
    if i == 0 then NotFinite else Value(v * (1.0 / i as real) * j as real)
  }

  /** The first unit of a list is index 0, so converting from it is never finite: the
    * app's initial metres-to-kilometres conversion shows no number. */
  lemma FirstUnitNotFinite(v: real)
    ensures Conversion(v, "m", "km", Length) == NotFinite
  {
  }

  /** For any source unit of the list but the first, the value is scaled by the ratio of
    * the two positions. */
  lemma IndexRatio(v: real, s: seq<string>, a: string, b: string)
    requires a in s && IndexOf(s, a) != 0
    ensures ByPosition(v, s, a, b) == Value(v * IndexOf(s, b) as real / IndexOf(s, a) as real)
  {
    ProportionalRatio(v, IndexOf(s, a), IndexOf(s, b));
  }

  /** Between two units of the list, neither of them the first, converting back returns
    * the value. */
  lemma IndexRatioRoundTrip(v: real, s: seq<string>, a: string, b: string)
    requires a in s && b in s && IndexOf(s, a) != 0 && IndexOf(s, b) != 0
    ensures ByPosition(ByPosition(v, s, a, b).x, s, b, a) == Value(v)
  {
    ProportionalRoundTrip(v, IndexOf(s, a), IndexOf(s, b));
  }

  lemma ProportionalRatio(v: real, i: int, j: int)
    requires i > 0
    ensures Proportional(v, i, j) == Value(v * j as real / i as real)
  {
  }

  lemma ProportionalRoundTrip(v: real, i: int, j: int)
    requires i > 0 && j > 0
    ensures Proportional(Proportional(v, i, j).x, j, i) == Value(v)
  {
    var x, y := i as real, j as real;
    assert (1.0 / x) * x == 1.0 && (1.0 / y) * y == 1.0;
    assert v * (1.0 / x) * y * (1.0 / y) * x == v * ((1.0 / x) * x) * ((1.0 / y) * y);
  }

  class App {
    var value: real
    var units: UnitPair
    const category: Category
    var result: Outcome

    /** One metre to kilometres, in the length category, with no result yet. */
    constructor()
      ensures value == 1.0 && units == UnitPair("m", "km") && category == Length && result == NoResult
    {
      value := 1.0;
      units := UnitPair("m", "km");
      category := Length;
      result := NoResult;
    }

    /** The number input or the slider. */
    method SetValue(v: real)
      modifies this`value
      ensures value == v
    {
      value := v;
    }

    /** Either unit select. */
    method SetUnits(p: UnitPair)
      modifies this`units
      ensures units == p
    {
      units := p;
    }

    /** The "Convert" button: the result of the current value and units. */
    method HandleConversion()
      modifies this`result
      ensures result == Conversion(value, units.fromUnit, units.toUnit, category)
      ensures result != NoResult
    {
      result := Conversion(value, units.fromUnit, units.toUnit, category);
    }

    /** `swapUnits`: the units change places, the shown result stays until "Convert". */
    method SwapUnits()
      modifies this`units
      ensures units == old(units).Swapped()
    {
      units := units.Swapped();
    }
  }
}
