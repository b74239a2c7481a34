/** Hexadecimal text: `parseInt(s, 16)`, `Number.prototype.toString(16)`, and the
  * `#rgb`, `#rgba`, `#rrggbb` and `#rrggbbaa` colour notation of section 5.2 of CSS
  * Color Module Level 4. */
module Hex {
  import opened Wrappers

  predicate IsHexDigit(c: char) {
    '0' <= c <= '9' || 'a' <= c <= 'f' || 'A' <= c <= 'F'
  }

  predicate AllHex(s: string) {
    forall k :: 0 <= k < |s| ==> IsHexDigit(s[k])
  }

  function DigitValue(c: char): (v: nat)
    requires IsHexDigit(c)
    ensures v < 16
  {
    if '0' <= c <= '9' then c as int - '0' as int
    else if 'a' <= c <= 'f' then c as int - 'a' as int + 10
    else c as int - 'A' as int + 10
  }

  /** The lower-case digit `toString(16)` writes. */
  function DigitChar(v: nat): (c: char)
    requires v < 16
    ensures IsHexDigit(c) && DigitValue(c) == v
    ensures !('A' <= c <= 'F')
  {
    if v < 10 then ('0' as int + v) as char else ('a' as int + v - 10) as char
  }

  /** The number a string of hex digits denotes, most significant first. */
  function ParseDigits(s: string): (n: nat)
    requires AllHex(s)
  {
    if s == [] then 0 else 16 * ParseDigits(s[..|s| - 1]) + DigitValue(s[|s| - 1])
  }

  /** A string of `k` hex digits denotes a number below `16^k`. */
  lemma {:induction false} ParseDigitsBound(s: string)
    requires AllHex(s)
    ensures ParseDigits(s) < Pow16(|s|)
  {
    if s != [] {
      ParseDigitsBound(s[..|s| - 1]);
    }
  }

  function Pow16(k: nat): (p: nat)
    ensures p >= 1
  {
    if k == 0 then 1 else 16 * Pow16(k - 1)
  }

  /** `n.toString(16)`: lower-case digits, no leading zeros. */
  function ToHex(n: nat): (s: string)
    ensures |s| >= 1 && AllHex(s)
    decreases n
  {
    if n < 16 then [DigitChar(n)] else ToHex(n / 16) + [DigitChar(n % 16)]
  }

  /** Reading the digits back gives the number. */
  lemma {:induction false} ToHexRoundTrip(n: nat)
    ensures ParseDigits(ToHex(n)) == n
    decreases n
  {
    if n >= 16 {
      ToHexRoundTrip(n / 16);
      var s := ToHex(n);
      assert s[..|s| - 1] == ToHex(n / 16);
    }
  }

  /** Numbers below `16^k` need at most `k` digits. */
  lemma {:induction false} ToHexLength(n: nat, k: nat)
    requires n < Pow16(k)
    ensures |ToHex(n)| <= if k == 0 then 1 else k
    decreases n
  {
    if n >= 16 {
      assert k >= 2 by {
        assert Pow16(0) == 1 && Pow16(1) == 16;
      }
      ToHexLength(n / 16, k - 1);
    }
  }

  /** The number of leading hex digits. */
  function HexPrefixLength(s: string): (p: nat)
    ensures p <= |s| && AllHex(s[..p])
    ensures p < |s| ==> !IsHexDigit(s[p])
  {
    if s == [] || !IsHexDigit(s[0]) then 0
    else
      var q := HexPrefixLength(s[1..]);
      assert s[..q + 1] == [s[0]] + s[1..][..q];
      1 + q
  }

  /** `parseInt(s, 16)`: the leading hex digits, NaN (`None`) when there are none. */
  function ParseInt16(s: string): (r: Option<nat>)
    ensures r.None? <==> (s == [] || !IsHexDigit(s[0]))
    ensures AllHex(s) && s != [] ==> r == Some(ParseDigits(s))
  {
    var p := HexPrefixLength(s);
    AllHexPrefix(s);
    if p == 0 then None else Some(ParseDigits(s[..p]))
  }

  lemma {:induction false} AllHexPrefix(s: string)
    ensures AllHex(s) ==> HexPrefixLength(s) == |s| && s[..|s|] == s
  {
    if s != [] && AllHex(s) {
      AllHexPrefix(s[1..]);
    }
  }

  /** A colour and its opacity: the 24-bit colour and the alpha byte, 0xFF when opaque. */
  datatype Rgba = Rgba(rgb: nat, alpha: nat)

  function Opaque(rgb: nat): Rgba {
    Rgba(rgb, 0xFF)
  }

  /** A colour in hex notation: `#` and three, four, six or eight digits. The short forms
    * write each digit once for two; a fourth digit or a fourth pair is the alpha, and
    * without one the colour is opaque. */
  function CssHexColor(s: string): (r: Option<Rgba>)
    ensures r.Some? <==> (|s| == 4 || |s| == 5 || |s| == 7 || |s| == 9) && s[0] == '#' && AllHex(s[1..])
    ensures r.Some? ==> r.value.rgb < 0x1000000 && r.value.alpha < 0x100
    ensures r.Some? && (|s| == 4 || |s| == 7) ==> r.value.alpha == 0xFF
  {
    if !((|s| == 4 || |s| == 5 || |s| == 7 || |s| == 9) && s[0] == '#' && AllHex(s[1..])) then None
    else if |s| == 7 then
      ParseDigitsBound(s[1..]);
      assert Pow16(6) == 0x1000000;
      Some(Opaque(ParseDigits(s[1..])))
    else if |s| == 9 then
      var rgb, alpha := s[1..7], s[7..];
      assert AllHex(rgb) && AllHex(alpha) by {
        forall k | 0 <= k < 6 ensures rgb[k] == s[1..][k] { }
        forall k | 0 <= k < 2 ensures alpha[k] == s[1..][k + 6] { }
      }
      ParseDigitsBound(rgb);
      ParseDigitsBound(alpha);
      assert Pow16(2) == 0x100 && Pow16(6) == 0x1000000;
      Some(Rgba(ParseDigits(rgb), ParseDigits(alpha)))
    else
      var rgb := [s[1], s[1], s[2], s[2], s[3], s[3]];
      assert AllHex(rgb) by {
        assert IsHexDigit(s[1..][0]) && IsHexDigit(s[1..][1]) && IsHexDigit(s[1..][2]);
      }
      ParseDigitsBound(rgb);
      assert Pow16(6) == 0x1000000;
      if |s| == 4 then Some(Opaque(ParseDigits(rgb)))
      else
        var alpha := [s[4], s[4]];
        assert AllHex(alpha) by { assert IsHexDigit(s[1..][3]); }
        ParseDigitsBound(alpha);
        assert Pow16(2) == 0x100;
        Some(Rgba(ParseDigits(rgb), ParseDigits(alpha)))
  }

  /** `n` written with exactly six digits, zeros in front. */
  function Pad6(n: nat): (s: string)
    requires n < 0x1000000
    ensures |s| == 6 && AllHex(s) && ParseDigits(s) == n
  {
    ToHexLength(n, 6);
    ToHexRoundTrip(n);
    var h := ToHex(n);
    var z := seq(6 - |h|, _ => '0');
    ZerosInFront(z, h);
    z + h
  }

  lemma {:induction false} ZerosInFront(z: string, h: string)
    requires AllHex(h) && forall k :: 0 <= k < |z| ==> z[k] == '0'
    ensures AllHex(z + h) && ParseDigits(z + h) == ParseDigits(h)
  {
    if h == [] {
      ZerosParse(z);
      assert z + h == z;
    } else {
      assert (z + h)[..|z + h| - 1] == z + h[..|h| - 1];
      ZerosInFront(z, h[..|h| - 1]);
    }
  }

  lemma {:induction false} ZerosParse(z: string)
    requires forall k :: 0 <= k < |z| ==> z[k] == '0'
    ensures AllHex(z) && ParseDigits(z) == 0
  {
    if z != [] {
      ZerosParse(z[..|z| - 1]);
    }
  }

  /** Digits written one after another: the first group is shifted left by the second. */
  lemma {:induction false} ParseDigitsConcat(a: string, b: string)
    requires AllHex(a) && AllHex(b)
    ensures AllHex(a + b)
    ensures ParseDigits(a + b) == ParseDigits(a) * Pow16(|b|) + ParseDigits(b)
  {
    AllHexConcat(a, b);
    if b == [] {
      assert a + b == a;
    } else {
      var b' := b[..|b| - 1];
      var ab := a + b;
      assert ab[..|ab| - 1] == a + b' && ab[|ab| - 1] == b[|b| - 1];
      ParseDigitsConcat(a, b');
      Shift(ParseDigits(a), ParseDigits(b'), Pow16(|b'|), DigitValue(b[|b| - 1]));
    }
  }

  lemma AllHexConcat(a: string, b: string)
    requires AllHex(a) && AllHex(b)
    ensures AllHex(a + b)
  {
    forall k | 0 <= k < |a + b| ensures IsHexDigit((a + b)[k]) {
      if k >= |a| { assert (a + b)[k] == b[k - |a|]; }
    }
  }

  lemma Shift(pa: int, pb: int, q: int, d: int)
    ensures 16 * (pa * q + pb) + d == pa * (16 * q) + (16 * pb + d)
  {
  }

  /** The two text colours the icon generators choose between. */
  lemma BlackAndWhite()
    ensures CssHexColor("#000000") == Some(Opaque(0))
    ensures CssHexColor("#FFFFFF") == Some(Opaque(0xFFFFFF))
  {
    ZerosParse("000000");
    assert "#000000"[1..] == "000000";
    var w := "#FFFFFF"[1..];
    assert w == "FFFFFF";
    assert ParseDigits("F") == 15 by { assert "F"[..0] == []; }
    assert ParseDigits("FF") == 255 by { assert "FF"[..1] == "F"; }
    assert ParseDigits("FFF") == 0xFFF by { assert "FFF"[..2] == "FF"; }
    assert ParseDigits("FFFF") == 0xFFFF by { assert "FFFF"[..3] == "FFF"; }
    assert ParseDigits("FFFFF") == 0xFFFFF by { assert "FFFFF"[..4] == "FFFF"; }
    assert ParseDigits("FFFFFF") == 0xFFFFFF by { assert "FFFFFF"[..5] == "FFFFF"; }
  }
}
