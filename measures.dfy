/** What the three unit converters of src/tasks/41073 share: the four kinds of quantity
  * and a reference definition of the three temperature scales through degrees Celsius,
  * against which each converter's temperature branch is checked. */
module Measures {
  /** The category tabs: "length", "weight", "volume" and "temperature". */
  datatype Category = Length | Weight | Volume | Temperature

  /** The two unit selects of a converter. */
  datatype UnitPair = UnitPair(fromUnit: string, toUnit: string)
  {
    /** The swap button: the two units change places. */
    function Swapped(): (r: UnitPair)
      ensures r.fromUnit == toUnit && r.toUnit == fromUnit
    {
      UnitPair(toUnit, fromUnit)
    }
  }

  /** Swapping twice restores both selects. */
  lemma SwapTwiceRestores(p: UnitPair)
    ensures p.Swapped().Swapped() == p
  {
  }

  datatype Scale = Celsius | Fahrenheit | Kelvin

  /** A reading on a scale, in degrees Celsius. */
  function ToCelsius(v: real, s: Scale): real {
    match s
    case Celsius => v
    case Fahrenheit => (v - 32.0) * 5.0 / 9.0
    case Kelvin => v - 273.15
  }

  /** A reading in degrees Celsius, on a scale. */
  function FromCelsius(c: real, s: Scale): real {
    match s
    case Celsius => c
    case Fahrenheit => c * 9.0 / 5.0 + 32.0
    case Kelvin => c + 273.15
  }

  /** The two maps are inverse to each other on every scale. */
  lemma CelsiusRoundTrip(v: real, c: real, s: Scale)
    ensures ToCelsius(FromCelsius(c, s), s) == c
    ensures FromCelsius(ToCelsius(v, s), s) == v
  {
  }

  /** Converting through degrees Celsius: the reference every converter is checked against. */
  function Reference(v: real, a: Scale, b: Scale): (r: real)
    ensures ToCelsius(r, b) == ToCelsius(v, a)
  {
    CelsiusRoundTrip(v, ToCelsius(v, a), b);
    FromCelsius(ToCelsius(v, a), b)
  }

  /** The reference conversion is the identity on one scale, undoes itself, and composes. */
  lemma ReferenceLaws(v: real, a: Scale, b: Scale, c: Scale)
    ensures Reference(v, a, a) == v
    ensures Reference(Reference(v, a, b), b, a) == v
    ensures Reference(Reference(v, a, b), b, c) == Reference(v, a, c)
  {
    CelsiusRoundTrip(v, ToCelsius(v, a), a);
    CelsiusRoundTrip(v, ToCelsius(v, a), b);
  }

  /** Scaling by `a / b` and back by `b / a` returns the value: the algebra behind every
    * round trip through a factor table. */
  lemma ScaleRoundTrip(v: real, a: real, b: real)
    requires a > 0.0 && b > 0.0
    ensures v * a / b * b / a == v
  {
    var w := v * a / b;
    assert w * b == v * a;
  }

  /** Scaling by `a / b` and then by `b / c` is scaling by `a / c`. */
  lemma ScaleCompose(v: real, a: real, b: real, c: real)
    requires a > 0.0 && b > 0.0 && c > 0.0
    ensures v * a / b * b / c == v * a / c
  {
    var w := v * a / b;
    assert w * b == v * a;
  }
}
