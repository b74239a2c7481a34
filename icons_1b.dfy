/** The icon generator of src/tasks/41085/1b.jsx: named colour palettes, the contrast
  * rule that picks black or white text for a `#RRGGBB` background, where the text is
  * drawn on the canvas, and the rotations of the preview grid. */
module IconsB {
  import opened Wrappers
  import opened Hex
  import Seqs
  import Numerals

  const Black := "#000000"
  const White := "#FFFFFF"

  /** `String.prototype.slice` with non-negative bounds: both are clamped to the length,
    * and a start past the end gives the empty string. */
  function Slice(s: string, start: nat, end: nat): (r: string)
    ensures start <= end <= |s| ==> r == s[start..end]
    ensures end <= start || |s| <= start ==> r == []
  {
    var e := if end < |s| then end else |s|;
    var b := if start < e then start else e;
    s[b..e]
  }

  /** A colour written `#` and six hex digits. */
  predicate WellFormed(hex: string) {
    |hex| == 7 && hex[0] == '#' && AllHex(hex[1..])
  }

  /** The three channels `contrastColor` reads; `None` is a NaN from `parseInt`. */
  datatype Channels = Channels(r: Option<nat>, g: Option<nat>, b: Option<nat>)

  /** `parseInt` of the digit pairs at positions 1-2, 3-4 and 5-6. On a well-formed colour
    * each is a byte, and together they are the 24-bit colour the CSS notation denotes. */
  function ChannelsOf(hex: string): (c: Channels)
    ensures WellFormed(hex) ==> c.r.Some? && c.g.Some? && c.b.Some?
    ensures WellFormed(hex) ==> c.r.value < 256 && c.g.value < 256 && c.b.value < 256
    ensures WellFormed(hex) ==>
      CssHexColor(hex) == Some(Opaque(65536 * c.r.value + 256 * c.g.value + c.b.value))
  {
    WellFormedChannels(hex);
    Channels(ParseInt16(Slice(hex, 1, 3)), ParseInt16(Slice(hex, 3, 5)), ParseInt16(Slice(hex, 5, 7)))
  }

  lemma WellFormedChannels(hex: string)
    ensures WellFormed(hex) ==>
      var d := hex[1..];
      AllHex(d[..2]) && AllHex(d[2..4]) && AllHex(d[4..]) &&
      Slice(hex, 1, 3) == d[..2] && Slice(hex, 3, 5) == d[2..4] && Slice(hex, 5, 7) == d[4..] &&
      ParseDigits(d[..2]) < 256 && ParseDigits(d[2..4]) < 256 && ParseDigits(d[4..]) < 256 &&
      CssHexColor(hex) == Some(Opaque(65536 * ParseDigits(d[..2]) + 256 * ParseDigits(d[2..4]) + ParseDigits(d[4..])))
  {
    if WellFormed(hex) {
      var d := hex[1..];
      var r, g, b := d[..2], d[2..4], d[4..];
      assert d == r + (g + b) && d[2..] == g + b;
      assert Pow16(2) == 256 && Pow16(4) == 65536;
      ParseDigitsBound(r);
      ParseDigitsBound(g);
      ParseDigitsBound(b);
      ParseDigitsConcat(g, b);
      ParseDigitsConcat(r, g + b);
    }
  }

  /** The weighted brightness 0.299 r + 0.587 g + 0.114 b, in thousandths. */
  function Brightness(r: nat, g: nat, b: nat): nat {
    299 * r + 587 * g + 114 * b
  }

  /** The brightness of a 24-bit colour, read off its three bytes. */
  function Luma(rgb: nat): nat {
    Brightness(rgb / 65536, rgb / 256 % 256, rgb % 256)
  }

  /** `contrastColor`: black text when 0.299 r + 0.587 g + 0.114 b exceeds 186, white
    * otherwise; a channel that does not parse is NaN and makes the comparison false. */
  function ContrastColor(hex: string): (color: string)
    ensures color == Black || color == White
    ensures color == Black <==>
      var c := ChannelsOf(hex);
      c.r.Some? && c.g.Some? && c.b.Some? && Brightness(c.r.value, c.g.value, c.b.value) > 186000
  {
    var c := ChannelsOf(hex);
    ThresholdInThousandths(c);
    if c.r.Some? && c.g.Some? && c.b.Some? &&
       (c.r.value as real) * 0.299 + (c.g.value as real) * 0.587 + (c.b.value as real) * 0.114 > 186.0
    then Black
    else White
  }

  /** The decimal threshold and its integer form agree. */
  lemma ThresholdInThousandths(c: Channels)
    ensures c.r.Some? && c.g.Some? && c.b.Some? ==>
      (var weighted := (c.r.value as real) * 0.299 + (c.g.value as real) * 0.587 + (c.b.value as real) * 0.114;
       weighted > 186.0 <==> Brightness(c.r.value, c.g.value, c.b.value) > 186000)
  {
  }

  lemma Bytes(r: nat, g: nat, b: nat)
    requires r < 256 && g < 256 && b < 256
    ensures Luma(65536 * r + 256 * g + b) == Brightness(r, g, b)
  {
    var v := 65536 * r + 256 * g + b;
    assert v / 65536 == r;
    assert v / 256 == 256 * r + g;
    assert v / 256 % 256 == g;
    assert v % 256 == b;
  }

  /** On a well-formed colour the rule is the brightness of the colour CSS paints. */
  lemma ContrastOfWellFormed(hex: string)
    requires WellFormed(hex)
    ensures CssHexColor(hex).Some?
    ensures ContrastColor(hex) == Black <==> Luma(CssHexColor(hex).value.rgb) > 186000
  {
    var c := ChannelsOf(hex);
    Bytes(c.r.value, c.g.value, c.b.value);
  }

  /** Raising any channel never turns black text into white. */
  lemma ContrastMonotone(dark: string, light: string)
    requires WellFormed(dark) && WellFormed(light)
    requires ChannelsOf(dark).r.value <= ChannelsOf(light).r.value
    requires ChannelsOf(dark).g.value <= ChannelsOf(light).g.value
    requires ChannelsOf(dark).b.value <= ChannelsOf(light).b.value
    ensures ContrastColor(dark) == Black ==> ContrastColor(light) == Black
  {
  }

  /** White gets black text. */
  lemma WhiteGetsBlack()
    ensures ContrastColor(White) == Black
  {
    BlackAndWhite();
    assert WellFormed(White);
    ContrastOfWellFormed(White);
    Bytes(255, 255, 255);
  }

  /** Black gets white text. */
  lemma BlackGetsWhite()
    ensures ContrastColor(Black) == White
  {
    BlackAndWhite();
    assert WellFormed(Black);
    ContrastOfWellFormed(Black);
    Bytes(0, 0, 0);
  }

  /** A three-digit colour is not read as CSS reads it: `#FFF` has no blue pair, so that
    * channel is NaN and the text is white. */
  lemma ThreeDigitColourGetsWhite()
    ensures CssHexColor("#FFF") == Some(Opaque(0xFFFFFF))
    ensures ChannelsOf("#FFF").b.None?
    ensures ContrastColor("#FFF") == White
  {
    assert Slice("#FFF", 3, 5) == "F";
    assert Slice("#FFF", 5, 7) == [];
    var w := "#FFF";
    assert [w[1], w[1], w[2], w[2], w[3], w[3]] == "FFFFFF";
    assert "#FFFFFF"[1..] == "FFFFFF";
    BlackAndWhite();
  }

  const PaletteNames := ["Vibrant", "Pastel", "Monochrome", "Nature", "Sunset"]

  /** `colorPalettes[name] || colorPalettes.Vibrant`. */
  function Palette(name: string): (colors: seq<string>)
    ensures |colors| == 5
    ensures name !in PaletteNames ==> colors == Vibrant
  {
    if name == "Pastel" then Pastel
    else if name == "Monochrome" then Monochrome
    else if name == "Nature" then Nature
    else if name == "Sunset" then Sunset
    else Vibrant
  }

  const Vibrant := ["#FF6B6B", "#4ECDC4", "#45B7D1", "#FFA07A", "#98D8C8"]
  const Pastel := ["#FFD1DC", "#AEC6CF", "#FDEBD0", "#B39DDB", "#D1C4E9"]
  const Monochrome := ["#2C3E50", "#34495E", "#7F8C8D", "#BDC3C7", "#ECF0F1"]
  const Nature := ["#2ECC71", "#3498DB", "#F1C40F", "#E74C3C", "#9B59B6"]
  const Sunset := ["#FFA07A", "#FA8072", "#E9967A", "#F4A460", "#D2691E"]

  /** `randomColor`: the entry at `floor(r * length)` of the palette, for a draw `r` of
    * `Math.random()`; unknown names fall back to the Vibrant palette. */
  function RandomColor(name: string, r: real): (color: string)
    requires 0.0 <= r < 1.0
    ensures color in Palette(name)
    ensures name !in PaletteNames ==> color in Vibrant
  {
    var colors := Palette(name);
    colors[(r * 5.0).Floor]
  }

  /** Every palette entry is a well-formed `#RRGGBB` colour. */
  lemma PaletteWellFormed(name: string)
    ensures forall k :: 0 <= k < 5 ==> WellFormed(Palette(name)[k])
  {
    ColorsWellFormed(Vibrant);
    ColorsWellFormed(Pastel);
    ColorsWellFormed(Monochrome);
    ColorsWellFormed(Nature);
    ColorsWellFormed(Sunset);
  }

  lemma ColorsWellFormed(colors: seq<string>)
    requires colors in [Vibrant, Pastel, Monochrome, Nature, Sunset]
    ensures forall k :: 0 <= k < |colors| ==> WellFormed(colors[k])
  {
    forall k | 0 <= k < |colors| ensures WellFormed(colors[k]) {
      forall i | 1 <= i < 7 ensures IsHexDigit(colors[k][i]) { }
      assert colors[k][1..][0] == colors[k][1];
    }
  }

  /** So `contrastColor` reads every colour `randomColor` returns. */
  lemma RandomColorIsRead(name: string, r: real)
    requires 0.0 <= r < 1.0
    ensures WellFormed(RandomColor(name, r))
    ensures ContrastColor(RandomColor(name, r)) == Black <==>
      Luma(CssHexColor(RandomColor(name, r)).value.rgb) > 186000
  {
    PaletteWellFormed(name);
    ContrastOfWellFormed(RandomColor(name, r));
  }

  datatype Alignment = Left | Center | Right

  /** The horizontal extent of text `w` wide that `fillText` draws at `x` under the canvas
    * `textAlign` setting: `x` is its left end, its middle or its right end. */
  function Span(alignment: Alignment, x: real, w: real): (span: (real, real))
    ensures span.1 - span.0 == w
  {
    match alignment
    case Left => (x, x + w)
    case Center => (x - w / 2.0, x + w / 2.0)
    case Right => (x - w, x)
  }

  /** The x coordinate `drawIcon` passes to `fillText`, as written: `size - textWidth - 10`
    * for right-aligned text, although `textAlign` is also set to the alignment. */
  function TextXAsWritten(alignment: Alignment, size: real, textWidth: real): (x: real)
    ensures alignment == Right ==> Span(alignment, x, textWidth).1 == size - textWidth - 10.0
  {
    match alignment
    case Center => size / 2.0
    case Left => 10.0
    case Right => size - textWidth - 10.0
  }

  /** Right-aligned, the text ends a text-width plus 10 short of the right edge, and on a
    * 64-pixel icon text 40 pixels wide starts outside the canvas. */
  lemma RightAlignedTextAsWritten()
    ensures Span(Right, TextXAsWritten(Right, 64.0, 40.0), 40.0) == (-26.0, 14.0)
  {
  }

  /** The x coordinate with a margin of 10 on the side the text is aligned to. */
  function TextX(alignment: Alignment, size: real, textWidth: real): (x: real)
    ensures alignment == Left ==> x == 10.0
    ensures alignment == Right ==> size - x == 10.0
    ensures alignment == Center ==> size - x == x
  {
    match alignment
    case Center => size / 2.0
    case Left => 10.0
    case Right => size - 10.0
  }

  /** Left-aligned text starts 10 in, right-aligned text ends 10 from the edge, centred
    * text is centred; text that fits inside the margins stays inside them. */
  lemma TextPlacement(alignment: Alignment, size: real, w: real)
    ensures var span := Span(alignment, TextX(alignment, size, w), w);
      (alignment == Left ==> span.0 == 10.0) &&
      (alignment == Right ==> size - span.1 == 10.0) &&
      (alignment == Center ==> span.0 + span.1 == size) &&
      (0.0 <= w && w + 20.0 <= size ==> 10.0 <= span.0 && span.1 <= size - 10.0)
  {
  }

  /** What one preview paints: its background, its text colour and where the text goes. */
  datatype Drawing = Drawing(background: string, textColor: string, textX: real, textY: real)

  /** `drawIcon` for a draw `r` of `Math.random()` and a measured text width. */
  function Draw(palette: string, alignment: Alignment, size: real, textWidth: real, r: real): (d: Drawing)
    requires 0.0 <= r < 1.0
    ensures d.background in Palette(palette) && CssHexColor(d.background).Some?
    ensures d.textColor == Black <==> Luma(CssHexColor(d.background).value.rgb) > 186000
    ensures d.textColor != Black ==> d.textColor == White
    ensures d.textY == size / 2.0
  {
    var bg := RandomColor(palette, r);
    RandomColorIsRead(palette, r);
    Drawing(bg, ContrastColor(bg), TextX(alignment, size, textWidth), size / 2.0)
  }

  /** The rotations of the `count` grid previews: the first at `rotation`, each next one
    * 10 degrees further. */
  function GridRotations(rotation: int, count: nat): (angles: seq<int>)
    ensures |angles| == count
    ensures count > 0 ==> angles[0] == rotation
    ensures forall i :: 0 < i < count ==> angles[i] == angles[i - 1] + 10
  {
    seq(count, i => rotation + 10 * i)
  }

  /** No two previews share a rotation. */
  lemma {:induction false} GridRotationsDistinct(rotation: int, count: nat)
    ensures Seqs.NoDup(GridRotations(rotation, count))
  {
    var angles := GridRotations(rotation, count);
    forall i, j | 0 <= i < j < count ensures angles[i] < angles[j] {
      GridRotationsIncrease(rotation, count, i, j);
    }
  }

  lemma {:induction false} GridRotationsIncrease(rotation: int, count: nat, i: nat, j: nat)
    requires i < j < count
    ensures GridRotations(rotation, count)[j] == GridRotations(rotation, count)[i] + 10 * (j - i)
    decreases j - i
  {
    if j > i + 1 {
      GridRotationsIncrease(rotation, count, i, j - 1);
    }
  }

  /** A slider's state value: the number it starts with, or the one-element array `[v]`
    * the slider's `onValueChange` hands over once it is moved. */
  datatype SliderState = Initial(v: nat) | Moved(v: nat)

  /** `[...Array(numIcons)]`: a number gives that many previews, but `Array([v])` is an
    * array holding its one argument, so a moved slider gives a single preview. */
  function PreviewCount(numIcons: SliderState): (count: nat)
    ensures numIcons.Initial? ==> count == numIcons.v
    ensures numIcons.Moved? ==> count == 1
  {
    match numIcons
    case Initial(n) => n
    case Moved(_) => 1
  }

  /** The degrees the canvas turns preview `i` by: `rotation + i * 10`, multiplied by
    * `Math.PI`. A number adds; `[v] + i * 10` joins the text of `v` and of `10 i`, and the
    * multiplication reads that text back as a number: the rotation is shifted left by the
    * digits of `10 i`. */
  function PreviewDegrees(rotation: SliderState, i: nat): (degrees: nat)
    ensures rotation.Initial? ==> degrees == rotation.v + 10 * i
    ensures rotation.Moved? ==>
      degrees == rotation.v * Numerals.Pow10(|Numerals.Decimal(10 * i)|) + 10 * i
  {
    match rotation
    case Initial(r) => r + 10 * i
    case Moved(r) =>
      Numerals.DecimalRoundTrip(r);
      Numerals.DecimalRoundTrip(10 * i);
      Numerals.DecimalValueConcat(Numerals.Decimal(r), Numerals.Decimal(10 * i));
      Numerals.DecimalValue(Numerals.Decimal(r) + Numerals.Decimal(10 * i))
  }

  /** At 45 degrees the first two previews are turned by 450 and 4510 degrees. */
  lemma RotatedGridAsWritten()
    ensures PreviewDegrees(Moved(45), 0) == 450
    ensures PreviewDegrees(Moved(45), 1) == 4510
  {
    assert Numerals.Decimal(0) == "0";
    assert Numerals.Decimal(10) == "10" by {
      assert Numerals.Decimal(1) == "1";
    }
  }

  /** The state of the generator's form. */
  class App {
    var text: string
    var size: int
    var numIcons: SliderState
    var palette: string
    var shape: string
    var font: string
    var alignment: Alignment
    var rotation: SliderState

    constructor()
      ensures text == "Icon" && size == 64 && numIcons == Initial(1) && palette == "Vibrant"
      ensures shape == "circle" && font == "Arial" && alignment == Center && rotation == Initial(0)
    {
      text := "Icon";
      size := 64;
      numIcons := Initial(1);
      palette := "Vibrant";
      shape := "circle";
      font := "Arial";
      alignment := Center;
      rotation := Initial(0);
    }

    /** The shape switch shows checked exactly for a circle. */
    predicate Checked()
      reads this
    {
      shape == "circle"
    }

    /** The switch sets a circle when checked and a square otherwise. */
    method SetShape(checked: bool)
      modifies this
      ensures shape == (if checked then "circle" else "square")
      ensures Checked() == checked
      ensures text == old(text) && size == old(size) && numIcons == old(numIcons)
      ensures palette == old(palette) && font == old(font)
      ensures alignment == old(alignment) && rotation == old(rotation)
    {
      shape := if checked then "circle" else "square";
    }

    /** The slider stores the array `[n]` it hands over. */
    method SetNumIcons(n: nat)
      requires n <= 10
      modifies this
      ensures numIcons == Moved(n)
      ensures text == old(text) && size == old(size) && shape == old(shape)
      ensures palette == old(palette) && font == old(font)
      ensures alignment == old(alignment) && rotation == old(rotation)
    {
      numIcons := Moved(n);
    }

    /** The slider stores the array `[degrees]` it hands over. */
    method SetRotation(degrees: nat)
      requires degrees <= 360
      modifies this
      ensures rotation == Moved(degrees)
      ensures text == old(text) && size == old(size) && shape == old(shape)
      ensures palette == old(palette) && font == old(font)
      ensures alignment == old(alignment) && numIcons == old(numIcons)
    {
      rotation := Moved(degrees);
    }

    method SetPalette(name: string)
      modifies this
      ensures palette == name
      ensures text == old(text) && size == old(size) && shape == old(shape)
      ensures rotation == old(rotation) && font == old(font)
      ensures alignment == old(alignment) && numIcons == old(numIcons)
    {
      palette := name;
    }

    method SetAlignment(a: Alignment)
      modifies this
      ensures alignment == a
      ensures text == old(text) && size == old(size) && shape == old(shape)
      ensures rotation == old(rotation) && font == old(font)
      ensures palette == old(palette) && numIcons == old(numIcons)
    {
      alignment := a;
    }

    /** The degrees each grid preview is turned by. Until the rotation slider moves they
      * are the intended rotations, 10 degrees apart; after it moves they are not. */
    function Grid(): (angles: seq<nat>)
      reads this
      ensures |angles| == PreviewCount(numIcons)
      ensures rotation.Initial? ==> angles == GridRotations(rotation.v, |angles|)
      ensures forall i :: 0 <= i < |angles| ==> angles[i] == PreviewDegrees(rotation, i)
    {
      var r := rotation;
      seq(PreviewCount(numIcons), (i: nat) => PreviewDegrees(r, i))
    }
  }

  /** Once both sliders have moved, whatever the number of icons chosen, the grid holds a
    * single preview, turned by ten times the chosen rotation. */
  lemma GridAfterBothSliders(app: App)
    requires app.numIcons.Moved? && app.rotation.Moved?
    ensures app.Grid() == [10 * app.rotation.v]
  {
    var angles := app.Grid();
    assert Numerals.Decimal(0) == "0";
    assert angles[0] == 10 * app.rotation.v;
  }
}
