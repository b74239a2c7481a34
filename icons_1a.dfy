/** The icon generator of src/tasks/41085/1a.jsx: random backgrounds written in hex, the
  * text colour chosen against each background, the batch of icons, and the shape toggle. */
module IconsA {
  import opened Wrappers
  import opened Hex

  const Black := "#000000"
  const White := "#FFFFFF"
  const MaxColour := 0xFFFFFF

  /** `s.replace(c, "")` with a one-character pattern: the first `c` goes, nothing else. */
  function ReplaceFirst(s: string, c: char): (r: string)
    ensures c !in s ==> r == s
    ensures c in s ==> |r| == |s| - 1
    ensures s != [] && s[0] == c ==> r == s[1..]
  {
    if s == [] then []
    else if s[0] == c then s[1..]
    else
      assert c in s ==> c in s[1..] by {
        if c in s { var k :| 0 <= k < |s| && s[k] == c; assert s[1..][k - 1] == c; }
      }
      [s[0]] + ReplaceFirst(s[1..], c)
  }

  /** `generateColor`: black text when the background, read as a hex number once its `#`
    * is dropped, exceeds half of 0xFFFFFF; white otherwise, also when it does not parse. */
  function GenerateColor(bg: string): (color: string)
    ensures color == Black || color == White
    ensures color == Black <==>
      var v := ParseInt16(ReplaceFirst(bg, '#'));
      v.Some? && 2 * v.value > MaxColour
  {
    var v := ParseInt16(ReplaceFirst(bg, '#'));
    if v.Some? && (v.value as real) > (MaxColour as real) / 2.0 then Black else White
  }

  /** `Math.floor(Math.random() * 16777215)` for a draw `r`: never 0xFFFFFF itself. */
  function Draw(r: real): (n: nat)
    requires 0.0 <= r < 1.0
    ensures n < MaxColour
  {
    (r * 16777215.0).Floor
  }

  /** The background `generateIcon` writes: `#` and `n.toString(16)`, without padding. */
  function BackgroundAsWritten(n: nat): (bg: string)
    ensures |bg| >= 2 && bg[0] == '#' && AllHex(bg[1..])
  {
    var bg := "#" + ToHex(n);
    assert bg[1..] == ToHex(n);
    bg
  }

  /** Reading the written background back, as `generateColor` does, gives `n`. */
  lemma BackgroundParsesBack(n: nat)
    ensures ParseInt16(ReplaceFirst(BackgroundAsWritten(n), '#')) == Some(n)
    ensures GenerateColor(BackgroundAsWritten(n)) == Black <==> 2 * n > MaxColour
  {
    ToHexRoundTrip(n);
    assert BackgroundAsWritten(n)[1..] == ToHex(n);
  }

  /** `n = 4095` is written `#fff`, which CSS paints white, and `generateColor` picks
    * white text for it: the text cannot be seen. */
  lemma ShortBackgroundAsWritten()
    ensures BackgroundAsWritten(4095) == "#fff"
    ensures CssHexColor("#fff") == Some(Opaque(MaxColour))
    ensures GenerateColor("#fff") == White
  {
    assert ToHex(4095) == "fff" by {
      assert ToHex(15) == "f";
      assert ToHex(255) == "ff";
    }
    BackgroundParsesBack(4095);
    var w := "#fff";
    assert [w[1], w[1], w[2], w[2], w[3], w[3]] == "ffffff";
    SixFs();
  }

  /** "ffffff" is 0xFFFFFF, one digit at a time. */
  lemma SixFs()
    ensures ParseDigits("ffffff") == 0xFFFFFF
  {
    assert ParseDigits("f") == 15 by { assert "f"[..0] == []; }
    assert ParseDigits("ff") == 255 by { assert "ff"[..1] == "f"; }
    assert ParseDigits("fff") == 0xFFF by { assert "fff"[..2] == "ff"; }
    assert ParseDigits("ffff") == 0xFFFF by { assert "ffff"[..3] == "fff"; }
    assert ParseDigits("fffff") == 0xFFFFF by { assert "fffff"[..4] == "ffff"; }
    assert "ffffff"[..5] == "fffff";
  }

  /** Numbers needing one, two or five digits give backgrounds that are not a CSS hex
    * colour at all. */
  lemma ShortBackgroundUnread(n: nat)
    requires n < 0x100 || 0x10000 <= n < 0x100000
    ensures CssHexColor(BackgroundAsWritten(n)).None?
  {
    assert Pow16(2) == 0x100 && Pow16(4) == 0x10000 && Pow16(5) == 0x100000;
    if n < 0x100 {
      ToHexLength(n, 2);
    } else {
      ToHexLength(n, 5);
      ToHexLengthAtLeast(n, 4);
    }
  }

  /** Numbers needing four digits give `#rgba` backgrounds: their last digit is read as the
    * alpha, so every one but those ending in `f` is painted translucent. */
  lemma FourDigitBackgroundTranslucent(n: nat)
    requires 0x1000 <= n < 0x10000
    ensures CssHexColor(BackgroundAsWritten(n)).Some?
    ensures CssHexColor(BackgroundAsWritten(n)).value.alpha == 17 * (n % 16)
    ensures n % 16 != 15 ==> CssHexColor(BackgroundAsWritten(n)).value.alpha < 0xFF
  {
    assert Pow16(3) == 0x1000 && Pow16(4) == 0x10000;
    ToHexLength(n, 4);
    ToHexLengthAtLeast(n, 3);
    var bg := BackgroundAsWritten(n);
    var c := DigitChar(n % 16);
    assert bg[4] == c by {
      assert bg[1..] == ToHex(n) == ToHex(n / 16) + [c];
    }
    assert ParseDigits([c, c]) == 17 * (n % 16) by {
      assert [c, c][..1] == [c] && [c][..0] == [];
      assert ParseDigits([c]) == DigitValue(c) == n % 16;
    }
  }

  /** Numbers of at least `16^k` need more than `k` digits. */
  lemma {:induction false} ToHexLengthAtLeast(n: nat, k: nat)
    requires n >= Pow16(k)
    ensures |ToHex(n)| > k
    decreases k
  {
    if k > 0 {
      ToHexLengthAtLeast(n / 16, k - 1);
    }
  }

  /** The background written with six digits, as the CSS notation needs. */
  function Background(n: nat): (bg: string)
    requires n <= MaxColour
    ensures CssHexColor(bg) == Some(Opaque(n))
    ensures ParseInt16(ReplaceFirst(bg, '#')) == Some(n)
  {
    var bg := "#" + Pad6(n);
    assert bg[1..] == Pad6(n);
    bg
  }

  /** A generated icon: its background and its text colour. */
  datatype Icon = Icon(bg: string, text: string)

  /** `generateIcon` for a draw `r` of `Math.random()`, with the padded background. The
    * palette is not consulted. */
  function GenerateIcon(r: real): (icon: Icon)
    requires 0.0 <= r < 1.0
    ensures CssHexColor(icon.bg) == Some(Opaque(Draw(r)))
    ensures icon.text == GenerateColor(icon.bg)
  {
    var bg := Background(Draw(r));
    Icon(bg, GenerateColor(bg))
  }

  /** The text is black exactly on the upper half of the colours, and the colour CSS paints
    * for the text is never the colour it paints for the background. */
  lemma TextVisible(r: real)
    requires 0.0 <= r < 1.0
    ensures var icon := GenerateIcon(r);
      (icon.text == Black <==> 2 * Draw(r) > MaxColour) &&
      CssHexColor(icon.text).Some? && CssHexColor(icon.text) != CssHexColor(icon.bg)
  {
    BlackAndWhite();
  }

  /** `generateIcons`: one icon per draw, as `Array.from({length: quantity}, generateIcon)`. */
  function GenerateIcons(draws: seq<real>): (icons: seq<Icon>)
    requires forall i :: 0 <= i < |draws| ==> 0.0 <= draws[i] < 1.0
    ensures |icons| == |draws|
    ensures forall i :: 0 <= i < |icons| ==> CssHexColor(icons[i].bg) == Some(Opaque(Draw(draws[i])))
    ensures forall i :: 0 <= i < |icons| ==> icons[i].text == GenerateColor(icons[i].bg)
  {
    seq(|draws|, i requires 0 <= i < |draws| => GenerateIcon(draws[i]))
  }

  /** The shape toggle: a circle becomes a rectangle, anything else a circle. */
  function Toggle(shape: string): (next: string)
    ensures next == "circle" || next == "rectangle"
    ensures next != shape
  {
    if shape == "circle" then "rectangle" else "circle"
  }

  /** Toggling twice returns to a circle or a rectangle. */
  lemma ToggleTwice(shape: string)
    requires shape == "circle" || shape == "rectangle"
    ensures Toggle(Toggle(shape)) == shape
  {
  }

  /** The state of the generator's form and its generated icons. */
  class App {
    var text: string
    var size: string
    var quantity: nat
    var palette: string
    var shape: string
    var font: string
    var alignment: string
    var rotation: int
    var icons: seq<Icon>

    predicate Valid()
      reads this
    {
      shape == "circle" || shape == "rectangle"
    }

    constructor()
      ensures Valid()
      ensures text == "Icon" && size == "64" && quantity == 1 && palette == "Vibrant"
      ensures shape == "rectangle" && font == "Arial" && alignment == "center" && rotation == 0
      ensures icons == []
    {
      text := "Icon";
      size := "64";
      quantity := 1;
      palette := "Vibrant";
      shape := "rectangle";
      font := "Arial";
      alignment := "center";
      rotation := 0;
      icons := [];
    }

    method ToggleShape()
      requires Valid()
      modifies this
      ensures Valid()
      ensures shape == Toggle(old(shape)) && shape != old(shape)
      ensures text == old(text) && size == old(size) && quantity == old(quantity)
      ensures palette == old(palette) && font == old(font) && alignment == old(alignment)
      ensures rotation == old(rotation) && icons == old(icons)
    {
      shape := Toggle(shape);
    }

    method SetQuantity(n: nat)
      requires n <= 10
      modifies this
      ensures quantity == n
      ensures text == old(text) && size == old(size) && shape == old(shape)
      ensures palette == old(palette) && font == old(font) && alignment == old(alignment)
      ensures rotation == old(rotation) && icons == old(icons)
    {
      quantity := n;
    }

    /** Replaces the icons with `quantity` fresh ones, one per draw. */
    method Generate(draws: seq<real>)
      requires |draws| == quantity
      requires forall i :: 0 <= i < |draws| ==> 0.0 <= draws[i] < 1.0
      modifies this
      ensures icons == GenerateIcons(draws) && |icons| == quantity
      ensures text == old(text) && size == old(size) && shape == old(shape)
      ensures palette == old(palette) && font == old(font) && alignment == old(alignment)
      ensures rotation == old(rotation) && quantity == old(quantity)
    {
      icons := GenerateIcons(draws);
    }
  }
}
