/** The colour value of the theme generator: four channels and the ranked list of
    contrasting palette neighbours, the hex codec, the WCAG 2.1 relative luminance and
    contrast ratio (alpha-weighted), and the copy-and-modify transforms. */
module Colors {
  import opened Outcomes
  import opened Text

  /** Rust's `u8`. */
  type Byte = x: int | 0 <= x < 256

  /** A colour. The channels are the source's `f32`s, modelled as exact reals.
      `contrasts` holds the palette keys of the neighbours ranked by `compute_contrasts`:
      the source shares the palette's own cells (`Rc<RefCell<Color>>`), and a palette key
      is how this model names a cell. */
  datatype Color = Color(red: real, green: real, blue: real, alpha: real, contrasts: seq<string>)

  /** A base palette: `color0`, `color1`, ... to colours. */
  type Palette = map<string, Color>

  predicate Unit(x: real)
  {
    0.0 <= x <= 1.0
  }

  predicate InRange(c: Color)
  {
    Unit(c.red) && Unit(c.green) && Unit(c.blue) && Unit(c.alpha)
  }

  /** Every neighbour `c` names is a key of `palette` (the cells it points to exist). */
  predicate RefsIn(c: Color, palette: Palette)
  {
    forall j :: 0 <= j < |c.contrasts| ==> c.contrasts[j] in palette
  }

  /** Every colour of `palette` names only keys of `palette`. */
  predicate Closed(palette: Palette)
  {
    forall k :: k in palette ==> RefsIn(palette[k], palette)
  }

  // ---------------------------------------------------------------- constructors

  /** `Color::new`: opaque black with no neighbours. */
  function New(): (c: Color)
    ensures InRange(c) && c.contrasts == []
    ensures ToHex(c) == "000000ff"
  {
    var c := Color(0.0, 0.0, 0.0, 1.0, []);
    assert U8Red(c) == 0 && U8Green(c) == 0 && U8Blue(c) == 0 && U8Alpha(c) == 255;
    assert Hex2(0) == "00" && Hex2(255) == "ff";
    c
  }

  /** `Color::from_rgb_int`: always `Some`; each byte is scaled into [0,1] and reads back. */
  function FromRgbInt(r: Byte, g: Byte, b: Byte): (c: Option<Color>)
    ensures c.Some? && InRange(c.value) && c.value.alpha == 1.0 && c.value.contrasts == []
    ensures U8Of(c.value.red) == r && U8Of(c.value.green) == g && U8Of(c.value.blue) == b
  {
    ByteScales(r);
    ByteScales(g);
    ByteScales(b);
    Some(New().(red := r as real / 255.0, green := g as real / 255.0, blue := b as real / 255.0))
  }

  /** `Color::from_rgba_int`: like `FromRgbInt`, and the alpha byte reads back too. */
  function FromRgbaInt(r: Byte, g: Byte, b: Byte, a: Byte): (c: Option<Color>)
    ensures c.Some? && InRange(c.value) && c.value.contrasts == []
    ensures U8Of(c.value.red) == r && U8Of(c.value.green) == g && U8Of(c.value.blue) == b
    ensures U8Of(c.value.alpha) == a
  {
    var col := FromRgbInt(r, g, b);
    ByteScales(a);
    if col.Some? then Some(col.value.(alpha := a as real / 255.0)) else col
  }

  /** `Color::from_rgb_float`: the channels are taken as given, without clamping. */
  function FromRgbFloat(r: real, g: real, b: real): (c: Option<Color>)
    ensures c.Some? && c.value.contrasts == []
    ensures InRange(c.value) <==> Unit(r) && Unit(g) && Unit(b)
    ensures U8Of(c.value.alpha) == 255
  {
    Some(Color(r, g, b, 1.0, []))
  }

  /** `Color::from_rgba_float`: the channels and alpha are taken as given. */
  function FromRgbaFloat(r: real, g: real, b: real, a: real): (c: Option<Color>)
    ensures c.Some? && c.value.contrasts == []
    ensures InRange(c.value) <==> Unit(r) && Unit(g) && Unit(b) && Unit(a)
  {
    var col := FromRgbFloat(r, g, b);
    if col.Some? then Some(col.value.(alpha := a)) else col
  }

  // ---------------------------------------------------------------- hex codec

  /** One channel of `from_hex`: the slice read as a hex number and scaled by 1/255; a
      slice that does not parse leaves the channel at `default`. */
  function Channel(slice: string, default: real): (r: real)
    ensures ParseUnsigned(slice, 16, U32Max).Some? ==>
      0.0 <= r && r * 255.0 == ParseUnsigned(slice, 16, U32Max).value as real
    ensures ParseUnsigned(slice, 16, U32Max).None? ==> r == default
  {
    match ParseUnsigned(slice, 16, U32Max)
    case Some(v) => v as real / 255.0
    case None => default
  }

  /** A two-byte slice holds at most two hex digits, so its channel lies in [0,1]. */
  lemma ChannelInUnit(slice: string, default: real)
    requires ByteLen(slice) == 2 && Unit(default)
    ensures Unit(Channel(slice, default))
  {
    if ParseUnsigned(slice, 16, U32Max).Some? {
      var d := if slice[0] == '+' then slice[1..] else slice;
      DigitsAscii(d, 16);
      assert |d| <= 2;
      if |d| == 2 {
        assert d[..1][..0] == [] && d[..|d| - 1] == d[..1];
        assert DigitValue(d[0]) < 16 && DigitValue(d[1]) < 16;
        assert DigitsValue(d[..1], 16) == DigitValue(d[0]);
        assert DigitsValue(d, 16) == DigitValue(d[0]) * 16 + DigitValue(d[1]);
      } else {
        assert d[..0] == [];
      }
      assert DigitsValue(d, 16) <= 255;
    }
  }

  /** `Color::from_hex`. After all leading `#` are trimmed, a text of 6 bytes gives red,
      green and blue with alpha 1; a text of 9 bytes gives red, green, blue and alpha from
      its first 8 bytes; any other length gives `None`. A byte slice that does not fall on
      char boundaries panics. */
  function FromHex(hex: string): (r: Result<Option<Color>>)
    ensures r.Abort? ==> r.failure == NotCharBoundary
    ensures r == Ok(None) <==> ByteLen(TrimStart(hex, '#')) != 6 && ByteLen(TrimStart(hex, '#')) != 9
    ensures r.Ok? && r.value.Some? ==> r.value.value.contrasts == [] && InRange(r.value.value)
    ensures r.Ok? && r.value.Some? && ByteLen(TrimStart(hex, '#')) == 6 ==> r.value.value.alpha == 1.0
  {
    DecodeTrimmed(TrimStart(hex, '#'))
  }

  /** `from_hex` once the leading `#` are gone. */
  function DecodeTrimmed(t: string): (r: Result<Option<Color>>)
    ensures r.Ok? && r.value.Some? ==> InRange(r.value.value)
  {
    var n := ByteLen(t);
    if n != 6 && n != 9 then Ok(None)
    else
      var r, g, b := ByteSlice(t, 0, 2), ByteSlice(t, 2, 4), ByteSlice(t, 4, 6);
      var a := if n == 9 then ByteSlice(t, 6, 8) else Some([]);
      if r.None? || g.None? || b.None? || a.None? then Abort(NotCharBoundary)
      else
        var alpha := if n == 9 then Channel(a.value, 1.0) else 1.0;
        ChannelInUnit(r.value, 0.0);
        ChannelInUnit(g.value, 0.0);
        ChannelInUnit(b.value, 0.0);
        assert Unit(alpha) by { if n == 9 { ChannelInUnit(a.value, 1.0); } }
        Ok(Some(Color(Channel(r.value, 0.0), Channel(g.value, 0.0), Channel(b.value, 0.0), alpha, [])))
  }

  /** On ASCII text of 6 or 9 chars the byte slices are the char slices. */
  lemma DecodeAscii(t: string)
    requires IsAscii(t) && (|t| == 6 || |t| == 9)
    ensures ByteLen(t) == |t|
    ensures DecodeTrimmed(t) == Ok(Some(Color(Channel(t[0..2], 0.0), Channel(t[2..4], 0.0),
      Channel(t[4..6], 0.0), if |t| == 9 then Channel(t[6..8], 1.0) else 1.0, [])))
  {
    AsciiByteLen(t);
    AsciiSlice(t, 0, 2);
    AsciiSlice(t, 2, 4);
    AsciiSlice(t, 4, 6);
    if |t| == 9 { AsciiSlice(t, 6, 8); }
  }

  /** Only non-ASCII text can make `from_hex` panic. */
  lemma AsciiHexNeverAborts(hex: string)
    requires IsAscii(hex)
    ensures FromHex(hex).Ok?
  {
    var t := TrimStart(hex, '#');
    assert IsAscii(t);
    AsciiByteLen(t);
    if |t| == 6 || |t| == 9 {
      DecodeAscii(t);
    }
  }

  /** `(x * 255.0).round() as u8`: round half away from zero, then saturate into a byte. */
  function U8Of(x: real): (r: Byte)
    ensures x <= 0.0 ==> r == 0
    ensures 1.0 <= x ==> r == 255
  {
    var y := x * 255.0;
    if y <= 0.0 then 0
    else if (y + 0.5).Floor > 255 then 255
    else (y + 0.5).Floor
  }

  /** `u8_red` and its siblings: the byte of one channel, saturating below 0 and above 1. */
  function U8Red(c: Color): (r: Byte)
    ensures c.red <= 0.0 ==> r == 0
    ensures 1.0 <= c.red ==> r == 255
  { U8Of(c.red) }

  function U8Green(c: Color): (r: Byte)
    ensures c.green <= 0.0 ==> r == 0
    ensures 1.0 <= c.green ==> r == 255
  { U8Of(c.green) }

  function U8Blue(c: Color): (r: Byte)
    ensures c.blue <= 0.0 ==> r == 0
    ensures 1.0 <= c.blue ==> r == 255
  { U8Of(c.blue) }

  function U8Alpha(c: Color): (r: Byte)
    ensures c.alpha <= 0.0 ==> r == 0
    ensures 1.0 <= c.alpha ==> r == 255
  { U8Of(c.alpha) }

  /** `Color::to_hex`: eight lowercase hex digits, two per channel, each pair reading back
      as that channel's byte. */
  function ToHex(c: Color): (h: string)
    ensures |h| == 8 && AllDigits(h, 16) && forall i :: 0 <= i < 8 ==> !('A' <= h[i] <= 'Z')
    ensures ParseUnsigned(h[0..2], 16, 255) == Some(U8Red(c))
    ensures ParseUnsigned(h[2..4], 16, 255) == Some(U8Green(c))
    ensures ParseUnsigned(h[4..6], 16, 255) == Some(U8Blue(c))
    ensures ParseUnsigned(h[6..8], 16, 255) == Some(U8Alpha(c))
  {
    var h := Hex2(U8Red(c)) + Hex2(U8Green(c)) + Hex2(U8Blue(c)) + Hex2(U8Alpha(c));
    assert h[0..2] == Hex2(U8Red(c)) && h[2..4] == Hex2(U8Green(c));
    assert h[4..6] == Hex2(U8Blue(c)) && h[6..8] == Hex2(U8Alpha(c));
    h
  }

  /** A byte scaled by 1/255 lies in [0,1] and rounds back to itself. */
  lemma ByteScales(v: Byte)
    ensures Unit(v as real / 255.0) && U8Of(v as real / 255.0) == v
  {
    assert v as real / 255.0 * 255.0 == v as real;
    assert (v as real + 0.5).Floor == v;
  }

  /** For a channel in [0,1], the byte is the nearest integer to `255 * x`. */
  lemma {:induction false} U8Nearest(x: real)
    requires Unit(x)
    ensures -0.5 < U8Of(x) as real - x * 255.0 <= 0.5
  {
    var y := x * 255.0;
    if y > 0.0 {
      assert (y + 0.5).Floor as real <= y + 0.5 < (y + 0.5).Floor as real + 1.0;
    }
  }

  /** The hex digit `HexDigit` writes for the value of a hex digit `c` is `c` lower-cased. */
  lemma HexDigitOfValue(c: char)
    requires DigitValue(c) < 16
    ensures HexDigit(DigitValue(c)) == LowerChar(c)
  {
  }

  /** A two-char hex slice parses to its value, at most 255. */
  lemma {:induction false} ParsePair(d: string)
    requires |d| == 2 && AllDigits(d, 16)
    ensures ParseUnsigned(d, 16, U32Max) == Some(DigitValue(d[0]) * 16 + DigitValue(d[1]))
    ensures DigitValue(d[0]) * 16 + DigitValue(d[1]) < 256
    ensures Hex2(DigitValue(d[0]) * 16 + DigitValue(d[1])) == Lower(d)
  {
    var d1 := d[..1];
    assert d1[..0] == [] && d1[0] == d[0] && d[..|d| - 1] == d1;
    assert DigitsValue(d1, 16) == DigitValue(d[0]);
    assert DigitsValue(d, 16) == DigitValue(d[0]) * 16 + DigitValue(d[1]);
    assert d[0] != '+';
    var v := DigitValue(d[0]) * 16 + DigitValue(d[1]);
    assert v / 16 == DigitValue(d[0]) && v % 16 == DigitValue(d[1]);
    HexDigitOfValue(d[0]);
    HexDigitOfValue(d[1]);
  }

  /** The channel read from a two-digit hex slice, written back by `to_hex`, is the slice
      lower-cased. */
  lemma ChannelRoundTrip(d: string, default: real)
    requires |d| == 2 && AllDigits(d, 16)
    ensures Hex2(U8Of(Channel(d, default))) == Lower(d)
  {
    ParsePair(d);
    ByteScales(DigitValue(d[0]) * 16 + DigitValue(d[1]));
  }

  /** `Lower` of a text of 6 or 8 chars, pair by pair. */
  lemma LowerPairs(s: string)
    requires |s| == 6 || |s| == 8
    ensures |s| == 6 ==> Lower(s) == Lower(s[0..2]) + Lower(s[2..4]) + Lower(s[4..6])
    ensures |s| == 8 ==> Lower(s) == Lower(s[0..2]) + Lower(s[2..4]) + Lower(s[4..6]) + Lower(s[6..8])
  {
    var t := Lower(s[0..2]) + Lower(s[2..4]) + Lower(s[4..6]);
    if |s| == 8 { t := t + Lower(s[6..8]); }
    forall i | 0 <= i < |s| ensures Lower(s)[i] == t[i] {
      if i < 2 { assert t[i] == Lower(s[0..2])[i]; }
      else if i < 4 { assert t[i] == Lower(s[2..4])[i - 2]; }
      else if i < 6 { assert t[i] == Lower(s[4..6])[i - 4]; }
      else { assert t[i] == Lower(s[6..8])[i - 6]; }
    }
  }

  /** `to_hex` is the concatenation of the four channel pairs. */
  lemma ToHexOfPairs(c: Color, r: string, g: string, b: string, a: string)
    requires Hex2(U8Red(c)) == r && Hex2(U8Green(c)) == g
    requires Hex2(U8Blue(c)) == b && Hex2(U8Alpha(c)) == a
    ensures ToHex(c) == r + g + b + a
  {
  }

  /** A colour read from hex pairs `r`, `g`, `b` and (when present) `a` writes back as those
      pairs lower-cased, with `ff` for a missing alpha. */
  lemma PairsRoundTrip(r: string, g: string, b: string, a: Option<string>)
    requires |r| == 2 && AllDigits(r, 16) && |g| == 2 && AllDigits(g, 16)
    requires |b| == 2 && AllDigits(b, 16)
    requires a.Some? ==> |a.value| == 2 && AllDigits(a.value, 16)
    ensures var alpha := if a.Some? then Channel(a.value, 1.0) else 1.0;
      ToHex(Color(Channel(r, 0.0), Channel(g, 0.0), Channel(b, 0.0), alpha, []))
        == Lower(r) + Lower(g) + Lower(b) + (if a.Some? then Lower(a.value) else "ff")
  {
    var alpha := if a.Some? then Channel(a.value, 1.0) else 1.0;
    var c := Color(Channel(r, 0.0), Channel(g, 0.0), Channel(b, 0.0), alpha, []);
    ChannelRoundTrip(r, 0.0);
    ChannelRoundTrip(g, 0.0);
    ChannelRoundTrip(b, 0.0);
    if a.Some? {
      ChannelRoundTrip(a.value, 1.0);
      ToHexOfPairs(c, Lower(r), Lower(g), Lower(b), Lower(a.value));
    } else {
      assert Hex2(U8Alpha(c)) == "ff" by { ByteScales(255); assert 255 as real / 255.0 == 1.0; }
      ToHexOfPairs(c, Lower(r), Lower(g), Lower(b), "ff");
    }
  }

  /** Six hex digits decode to an opaque colour that encodes back as the digits lower-cased
      followed by `ff`. */
  lemma HexRoundTrip6(s: string)
    requires |s| == 6 && AllDigits(s, 16)
    ensures FromHex(s).Ok? && FromHex(s).value.Some?
    ensures ToHex(FromHex(s).value.value) == Lower(s) + "ff"
  {
    assert IsAscii(s);
    assert TrimStart(s, '#') == s by { assert DigitValue(s[0]) < 16; }
    var x, y, z := s[0..2], s[2..4], s[4..6];
    assert AllDigits(x, 16) && AllDigits(y, 16) && AllDigits(z, 16);
    LowerPairs(s);
    PairsRoundTrip(x, y, z, None);
    DecodeAscii(s);
  }

  /** Nine ASCII bytes whose first eight are hex digits decode to a colour that encodes
      back as those eight digits lower-cased; the ninth byte is ignored. */
  lemma HexRoundTrip9(s: string)
    requires |s| == 9 && IsAscii(s) && AllDigits(s[..8], 16)
    ensures FromHex(s).Ok? && FromHex(s).value.Some?
    ensures ToHex(FromHex(s).value.value) == Lower(s[..8])
  {
    var e := s[..8];
    assert TrimStart(s, '#') == s by { assert DigitValue(e[0]) < 16; }
    var w, x, y, z := s[0..2], s[2..4], s[4..6], s[6..8];
    assert e[0..2] == w && e[2..4] == x && e[4..6] == y && e[6..8] == z;
    assert AllDigits(w, 16) && AllDigits(x, 16) && AllDigits(y, 16) && AllDigits(z, 16) by {
      assert forall i :: 0 <= i < 8 ==> e[i] == s[i];
    }
    LowerPairs(e);
    PairsRoundTrip(w, x, y, Some(z));
    DecodeAscii(s);
  }

  /** Leading `#` do not matter: `from_hex` trims every one of them. */
  lemma HashesIgnored(s: string)
    ensures FromHex(['#'] + s) == FromHex(s)
  {
    assert (['#'] + s)[1..] == s;
  }

  /** The eight digits `to_hex` writes are not a length `from_hex` accepts. */
  lemma ToHexNotReadBack(c: Color)
    ensures FromHex(ToHex(c)) == Ok(None)
  {
    var h := ToHex(c);
    assert IsAscii(h) by {
      forall i | 0 <= i < |h| ensures h[i] as int < 0x80 { assert DigitValue(h[i]) < 16; }
    }
    assert TrimStart(h, '#') == h by { assert DigitValue(h[0]) < 16; }
    AsciiByteLen(h);
  }

  /** A six-byte ASCII text whose first pair is not a hex number still decodes: the red
      channel keeps its default 0. */
  lemma UnparsedChannelDefaults(s: string)
    requires |s| == 6 && IsAscii(s) && s[0] != '#' && DigitValue(s[1]) >= 16
    ensures FromHex(s).Ok? && FromHex(s).value.Some?
    ensures FromHex(s).value.value.red == 0.0
  {
    assert TrimStart(s, '#') == s;
    DecodeAscii(s);
    var d := s[0..2];
    assert !AllDigits(if d[0] == '+' then d[1..] else d, 16) by {
      if d[0] == '+' { assert d[1..][0] == s[1]; } else { assert d[1] == s[1]; }
    }
    assert ParseUnsigned(d, 16, U32Max).None?;
  }

  // ---------------------------------------------------------------- luminance and contrast

  /** `fixed_for_rel_luma`: the sRGB (IEC 61966-2-1) linearisation of one channel; `pow`
      stands for `x.powf(2.4)`, which this model leaves uninterpreted. */
  function Linearise(pow: real -> real, v: real): (r: real)
    ensures v <= 0.04045 ==> r * 12.92 == v
    ensures 0.0 <= v && NonNegative(pow) ==> 0.0 <= r
  {
    if v <= 0.04045 then v / 12.92 else pow((v + 0.055) / 1.055)
  }

  /** `get_relative_luminance`: the WCAG 2.1 relative luminance, multiplied by alpha. */
  function RelativeLuminance(pow: real -> real, c: Color): (r: real)
    ensures c.alpha == 0.0 ==> r == 0.0
    ensures c.red == 0.0 && c.green == 0.0 && c.blue == 0.0 ==> r == 0.0
  {
    (0.2126 * Linearise(pow, c.red) + 0.7152 * Linearise(pow, c.green)
      + 0.0722 * Linearise(pow, c.blue)) * c.alpha
  }

  ghost predicate NonNegative(pow: real -> real)
  {
    forall x :: 0.0 <= pow(x)
  }

  /** The luminance of `c` leaves the contrast-ratio denominators positive. */
  predicate Measurable(pow: real -> real, c: Color)
  {
    RelativeLuminance(pow, c) + 0.05 > 0.0
  }

  /** `Color::get_contrast`: the WCAG 2.1 contrast ratio of the two luminances. */
  function GetContrast(pow: real -> real, a: Color, b: Color): (r: real)
    requires Measurable(pow, a) && Measurable(pow, b)
    ensures RelativeLuminance(pow, a) == RelativeLuminance(pow, b) ==> r == 1.0
    ensures RelativeLuminance(pow, a) != RelativeLuminance(pow, b) ==> r > 1.0
  {
    var la := RelativeLuminance(pow, a) + 0.05;
    var lb := RelativeLuminance(pow, b) + 0.05;
    if la > lb then
      Ratio(lb, la);
      la / lb
    else
      Ratio(la, lb);
      lb / la
  }

  /** The larger of two positive numbers over the smaller is 1 exactly when they agree. */
  lemma Ratio(small: real, large: real)
    requires 0.0 < small <= large
    ensures large / small >= 1.0 && (large / small == 1.0 <==> large == small)
  {
    assert large / small * small == large;
  }

  /** A colour in range has a non-negative luminance when the gamma curve is non-negative. */
  lemma LuminanceNonNegative(pow: real -> real, c: Color)
    requires NonNegative(pow) && InRange(c)
    ensures 0.0 <= RelativeLuminance(pow, c) && Measurable(pow, c)
  {
    assert 0.0 <= pow((c.red + 0.055) / 1.055);
    assert 0.0 <= pow((c.green + 0.055) / 1.055);
    assert 0.0 <= pow((c.blue + 0.055) / 1.055);
    var s := 0.2126 * Linearise(pow, c.red) + 0.7152 * Linearise(pow, c.green)
      + 0.0722 * Linearise(pow, c.blue);
    assert 0.0 <= s;
    MulNonNegative(s, c.alpha);
  }

  lemma MulNonNegative(x: real, y: real)
    ensures 0.0 <= x && 0.0 <= y ==> 0.0 <= x * y
  {
  }

  lemma ContrastSymmetric(pow: real -> real, a: Color, b: Color)
    requires Measurable(pow, a) && Measurable(pow, b)
    ensures GetContrast(pow, a, b) == GetContrast(pow, b, a)
  {
  }

  lemma ContrastAtLeastOne(pow: real -> real, a: Color, b: Color)
    requires Measurable(pow, a) && Measurable(pow, b)
    ensures GetContrast(pow, a, b) >= 1.0
  {
  }

  // ---------------------------------------------------------------- transforms

  function Clamp(x: real): (r: real)
    ensures Unit(r)
  {
    if x < 0.0 then 0.0 else if x > 1.0 then 1.0 else x
  }

  /** `Color::darker`: each of red, green and blue loses `percentage` per cent, clamped
      (DarkerBounds). */
  function Darker(c: Color, percentage: Byte): (d: Color)
    ensures d.alpha == c.alpha && d.contrasts == c.contrasts
  {
    var perc := percentage as real / 100.0;
    c.(red := Clamp(c.red - c.red * perc), green := Clamp(c.green - c.green * perc),
       blue := Clamp(c.blue - c.blue * perc))
  }

  /** A darker colour is in range and no lighter in any channel; from 100 per cent on it is
      black. */
  lemma DarkerBounds(c: Color, percentage: Byte)
    ensures var d := Darker(c, percentage);
      Unit(d.red) && Unit(d.green) && Unit(d.blue)
    ensures var d := Darker(c, percentage);
      InRange(c) ==> d.red <= c.red && d.green <= c.green && d.blue <= c.blue
    ensures var d := Darker(c, percentage);
      InRange(c) && percentage >= 100 ==> d.red == d.green == d.blue == 0.0
  {
    var perc := percentage as real / 100.0;
    MulNonNegative(c.red, perc);
    MulNonNegative(c.green, perc);
    MulNonNegative(c.blue, perc);
  }

  /** `Color::lighter`: each of red, green and blue gains `percentage` per cent, clamped
      (LighterBounds). */
  function Lighter(c: Color, percentage: Byte): (d: Color)
    ensures d.alpha == c.alpha && d.contrasts == c.contrasts
  {
    var perc := percentage as real / 100.0;
    c.(red := Clamp(c.red + c.red * perc), green := Clamp(c.green + c.green * perc),
       blue := Clamp(c.blue + c.blue * perc))
  }

  /** A lighter colour is in range and no darker in any channel, and a channel at zero
      stays at zero, since lightening scales it. */
  lemma LighterBounds(c: Color, percentage: Byte)
    ensures var d := Lighter(c, percentage);
      Unit(d.red) && Unit(d.green) && Unit(d.blue)
    ensures var d := Lighter(c, percentage);
      InRange(c) ==> c.red <= d.red && c.green <= d.green && c.blue <= d.blue
    ensures var d := Lighter(c, percentage);
      (c.red == 0.0 ==> d.red == 0.0) && (c.green == 0.0 ==> d.green == 0.0) && (c.blue == 0.0 ==> d.blue == 0.0)
  {
    var perc := percentage as real / 100.0;
    MulNonNegative(c.red, perc);
    MulNonNegative(c.green, perc);
    MulNonNegative(c.blue, perc);
  }

  /** `Color::alpha`: alpha becomes `min(percentage, 100)` per cent; the rest is kept
      (AlphaBounds). */
  function Alpha(c: Color, percentage: Byte): (d: Color)
    ensures d.red == c.red && d.green == c.green && d.blue == c.blue && d.contrasts == c.contrasts
  {
    var perc := (if percentage > 100 then 100 else percentage) as real / 100.0;
    c.(alpha := perc)
  }

  /** The new alpha is in range: `percentage` per cent up to 100, fully opaque beyond. */
  lemma AlphaBounds(c: Color, percentage: Byte)
    ensures Unit(Alpha(c, percentage).alpha)
    ensures percentage <= 100 ==> Alpha(c, percentage).alpha * 100.0 == percentage as real
    ensures percentage >= 100 ==> Alpha(c, percentage).alpha == 1.0
  {
  }

  /** `Color::contrast`: the `index`-th most contrasting neighbour, or a copy of `c` itself
      when the list is shorter. */
  function Contrast(c: Color, index: nat, palette: Palette): (n: Color)
    requires RefsIn(c, palette)
    ensures index < |c.contrasts| ==> n == palette[c.contrasts[index]]
    ensures index >= |c.contrasts| ==> n == c
    ensures Closed(palette) ==> RefsIn(n, palette)
  {
    if index < |c.contrasts| then palette[c.contrasts[index]] else c
  }

  /** A darkened, lightened or re-alpha'd copy keeps the original's neighbours, so asking
      it for a contrast answers with the original colour's contrast. */
  lemma ContrastSurvivesTransforms(c: Color, index: nat, percentage: Byte, palette: Palette)
    requires RefsIn(c, palette)
    ensures RefsIn(Darker(c, percentage), palette) && RefsIn(Lighter(c, percentage), palette)
    ensures RefsIn(Alpha(c, percentage), palette)
    ensures index < |c.contrasts| ==>
      Contrast(Darker(c, percentage), index, palette) == Contrast(c, index, palette) &&
      Contrast(Lighter(c, percentage), index, palette) == Contrast(c, index, palette) &&
      Contrast(Alpha(c, percentage), index, palette) == Contrast(c, index, palette)
  {
  }

  // ---------------------------------------------------------------- palette keys

  /** `format!("color{index}")`. */
  function ColorName(i: nat): (r: string)
    ensures |r| > 5 && r[..5] == "color" && AllDigits(r[5..], 10)
  {
    NatToStringDigits(i);
    "color" + NatToString(i)
  }

  /** A palette key is `color` followed by the decimal digits of its index. */
  lemma ColorNameParts(i: nat)
    ensures |ColorName(i)| > 5 && ColorName(i)[..5] == "color" && ColorName(i)[5..] == NatToString(i)
  {
  }

  lemma ColorNameInjective(i: nat, j: nat)
    requires ColorName(i) == ColorName(j)
    ensures i == j
  {
    ColorNameParts(i);
    ColorNameParts(j);
    NatToStringInjective(i, j);
  }

  /** Distinct indices give distinct palette keys. */
  lemma ColorNamesDistinct()
    ensures forall i: nat, j: nat :: i != j ==> ColorName(i) != ColorName(j)
  {
    forall i: nat, j: nat | i != j
      ensures ColorName(i) != ColorName(j)
    {
      if ColorName(i) == ColorName(j) { ColorNameInjective(i, j); }
    }
  }

  /** `color0` .. `color{n-1}`. */
  ghost function Names(n: nat): set<string>
  {
    set i | 0 <= i < n :: ColorName(i)
  }

  /** `color{n}` is not among `color0` .. `color{n-1}`, and adding it gives the next set. */
  lemma NameIsNew(n: nat)
    ensures ColorName(n) !in Names(n)
    ensures Names(n + 1) == Names(n) + {ColorName(n)}
  {
    if ColorName(n) in Names(n) {
      var i :| 0 <= i < n && ColorName(i) == ColorName(n);
      ColorNameInjective(i, n);
    }
  }

  /** There are `n` names `color0` .. `color{n-1}`. */
  lemma {:induction false} NamesCount(n: nat)
    ensures |Names(n)| == n
  {
    if n > 0 {
      NamesCount(n - 1);
      NameIsNew(n - 1);
    }
  }

  /** `order` lists distinct keys of `palette`, as many as it has: an iteration order of
      the map (`OrderCovers` finds every key in it). */
  ghost predicate IsOrderOf(order: seq<string>, palette: Palette)
  {
    (forall p :: 0 <= p < |order| ==> order[p] in palette) &&
    (forall p, q :: 0 <= p < q < |order| ==> order[p] != order[q]) &&
    |order| == |palette|
  }

  /** Distinct elements of a set `s` are at most `|s|` many. */
  lemma {:induction false} DistinctBound(xs: seq<string>, s: set<string>)
    requires forall j :: 0 <= j < |xs| ==> xs[j] in s
    requires forall j, j' :: 0 <= j < j' < |xs| ==> xs[j] != xs[j']
    ensures |xs| <= |s|
  {
    if xs != [] {
      DistinctBound(xs[1..], s - {xs[0]});
    }
  }

  /** A HashMap iteration order visits every key of the palette. */
  lemma OrderCovers(order: seq<string>, palette: Palette, k: string) returns (p: nat)
    requires IsOrderOf(order, palette) && k in palette
    ensures p < |order| && order[p] == k
  {
    if k !in order {
      DistinctBound(order, palette.Keys - {k});
    }
    p :| 0 <= p < |order| && order[p] == k;
  }

}
