/** The older `get_telegram_colors` of src/telegram_colors.rs, which no module of the
    program declares: the same registry, no palette listing, and every palette colour read
    straight from the map, so the palette names are never recorded.

    Each comment section of the source is one method below, a long section split into
    parts, and consecutive sections are grouped into `Derivation` methods; they run in the
    source's order on one shared registry. */
module TelegramColorsStale {
  import opened Outcomes
  import opened Colors
  import opened ThemeRegistry

  /** The palette keys the derivation reads with `colors[..]`. */
  predicate DirectKeys(palette: Palette)
  {
    "color0" in palette && "color1" in palette && "color2" in palette && "color3" in palette && "color4" in palette && "color5" in palette && "color6" in palette && "color7" in palette && "color8" in palette && "color10" in palette && "color15" in palette
  }

  /** The `Colors for testing purposes` section: src/telegram_colors.rs lines 44-46. */
  method ColorsForTestingPurposesSection(reg: Registry, palette: Palette) returns (r: Result<()>)
    requires Sound(reg.elements, palette) && Closed(palette)
    requires "color0" !in reg.elements
    modifies reg
    ensures Sound(reg.elements, palette) && reg.mark == old(reg.output) && old(reg.output) <= reg.output
    ensures "color0" !in reg.elements
    ensures old(reg.elements).Keys <= reg.elements.Keys
    ensures r.Ok? && reg.output == old(reg.output) + CommentLine("Colors for testing purposes") + "colorPink: #ff7fc6ff;\n" + "colorGreen: #0bd500ff;\n"
  {
    reg.mark := reg.output;
    reg.AddComment("Colors for testing purposes", palette);
    PinkLiteral();
    var c1 := HexColor("ff7fc6").value;
    PinkLine(c1);
    reg.AddColor("colorPink", c1, palette);
    GreenLiteral();
    var c2 := HexColor("0bd500").value;
    GreenLine(c2);
    reg.AddColor("colorGreen", c2, palette);
    r := Ok(());
  }

  /** The `Basic window options` section, part 1: src/telegram_colors.rs lines 48-53. */
  method BasicWindowOptionsSection1(reg: Registry, palette: Palette) returns (r: Result<()>)
    requires Sound(reg.elements, palette) && Closed(palette)
    requires "color0" !in reg.elements
    modifies reg
    ensures Sound(reg.elements, palette) && reg.mark == old(reg.output) && old(reg.output) <= reg.output
    ensures "color0" !in reg.elements
    ensures old(reg.elements).Keys <= reg.elements.Keys
    ensures r.Ok? ==> "windowBg" in reg.elements && "windowFg" in reg.elements
    ensures r.Ok? <==> "color0" in palette && "color1" in palette && "color8" in palette && "color15" in palette
    ensures r.Abort? ==> r.failure.MissingKey? && r.failure.key !in palette
  {
    reg.mark := reg.output;
    reg.AddComment("Basic window options", palette);
    var c1 :- PaletteGet(palette, "color0");
    reg.AddColor("windowBg", c1, palette);
    var c2 := PaletteGet(palette, "color0").value;
    reg.AddColor("windowFg", Contrast(c2, 0, palette), palette);
    var c3 :- PaletteGet(palette, "color8");
    reg.AddColor("windowBgOver", Darker(c3, 30), palette);
    var c4 :- PaletteGet(palette, "color1");
    reg.AddColor("windowBgRipple", c4, palette);
    var c5 :- PaletteGet(palette, "color15");
    reg.AddColor("windowFgOver", c5, palette);
    r := Ok(());
  }

  /** The `Basic window options` section, part 2: src/telegram_colors.rs lines 54-59. */
  method BasicWindowOptionsSection2(reg: Registry, palette: Palette) returns (r: Result<()>)
    requires Sound(reg.elements, palette) && Closed(palette)
    requires "color0" !in reg.elements
    modifies reg
    ensures Sound(reg.elements, palette) && reg.mark == old(reg.output) && old(reg.output) <= reg.output
    ensures "color0" !in reg.elements
    ensures old(reg.elements).Keys <= reg.elements.Keys
    ensures r.Ok? ==> "windowBgActive" in reg.elements && "windowBoldFgOver" in reg.elements && "windowSubTextFg" in reg.elements
    ensures r.Ok? <==> "color2" in palette && "color7" in palette
    ensures r.Abort? ==> r.failure.MissingKey? && r.failure.key !in palette
  {
    reg.mark := reg.output;
    var c1 :- PaletteGet(palette, "color7");
    reg.AddColor("windowSubTextFg", Darker(c1, 40), palette);
    var c2 := PaletteGet(palette, "color7").value;
    reg.AddColor("windowSubTextFgOver", c2, palette);
    var c3 := PaletteGet(palette, "color7").value;
    reg.AddColor("windowBoldFg", Lighter(c3, 20), palette);
    var c4 := PaletteGet(palette, "color7").value;
    reg.AddColor("windowBoldFg", Lighter(c4, 20), palette);
    var c5 := PaletteGet(palette, "color7").value;
    reg.AddColor("windowBoldFgOver", Lighter(c5, 40), palette);
    var c6 :- PaletteGet(palette, "color2");
    reg.AddColor("windowBgActive", c6, palette);
    r := Ok(());
  }

  /** The `Basic window options` section, part 3: src/telegram_colors.rs lines 60-64. */
  method BasicWindowOptionsSection3(reg: Registry, palette: Palette) returns (r: Result<()>)
    requires Sound(reg.elements, palette) && Closed(palette)
    requires "color0" !in reg.elements
    requires "windowBg" in reg.elements
    modifies reg
    ensures Sound(reg.elements, palette) && reg.mark == old(reg.output) && old(reg.output) <= reg.output
    ensures "color0" !in reg.elements
    ensures old(reg.elements).Keys <= reg.elements.Keys
    ensures r.Ok? ==> "windowActiveTextFg" in reg.elements && "windowFgActive" in reg.elements && "windowShadowFg" in reg.elements
    ensures r.Ok? <==> "color0" in palette && "color7" in palette && "color10" in palette
    ensures r.Abort? ==> r.failure.MissingKey? && r.failure.key !in palette
  {
    reg.mark := reg.output;
    assert ColorNamed("windowBg");
    var c1 :- PaletteGet(palette, "color7");
    reg.AddColor("windowFgActive", Lighter(c1, 40), palette);
    var c2 :- PaletteGet(palette, "color10");
    reg.AddColor("windowActiveTextFg", c2, palette);
    var c3 :- PaletteGet(palette, "color0");
    reg.AddColor("windowShadowFg", c3, palette);
    var c4 := reg.GetElement("windowBg", palette);
    reg.AddColor("windowShadowFgFallback", Contrast(c4.value, 0, palette), palette);
    r := Ok(());
  }

  /** The `Shadow` section: src/telegram_colors.rs lines 66-67. */
  method ShadowSection(reg: Registry, palette: Palette) returns (r: Result<()>)
    requires Sound(reg.elements, palette) && Closed(palette)
    requires "color0" !in reg.elements
    modifies reg
    ensures Sound(reg.elements, palette) && reg.mark == old(reg.output) && old(reg.output) <= reg.output
    ensures "color0" !in reg.elements
    ensures old(reg.elements).Keys <= reg.elements.Keys
    ensures r.Ok? ==> "shadowFg" in reg.elements
    ensures r.Ok? <==> "color1" in palette
    ensures r.Abort? ==> r.failure.MissingKey? && r.failure.key !in palette
  {
    reg.mark := reg.output;
    reg.AddComment("Shadow", palette);
    var c1 :- PaletteGet(palette, "color1");
    reg.AddColor("shadowFg", Alpha(c1, 30), palette);
    r := Ok(());
  }

  /** The `Slide` section: src/telegram_colors.rs lines 68-70. */
  method SlideSection(reg: Registry, palette: Palette) returns (r: Result<()>)
    requires Sound(reg.elements, palette) && Closed(palette)
    requires "color0" !in reg.elements
    requires "windowShadowFg" in reg.elements
    modifies reg
    ensures Sound(reg.elements, palette) && reg.mark == old(reg.output) && old(reg.output) <= reg.output
    ensures "color0" !in reg.elements
    ensures old(reg.elements).Keys <= reg.elements.Keys
    ensures r.Ok? <==> "color0" in palette
    ensures r.Abort? ==> r.failure.MissingKey? && r.failure.key !in palette
  {
    reg.mark := reg.output;
    assert ColorNamed("windowShadowFg");
    reg.AddComment("Slide", palette);
    var c1 :- PaletteGet(palette, "color0");
    reg.AddColor("slideFadeOutBg", Alpha(c1, 10), palette);
    var c2 := reg.GetElement("windowShadowFg", palette);
    reg.AddColor("slideFadeOutShadowFg", c2.value, palette);
    r := Ok(());
  }

  /** The `Image` section: src/telegram_colors.rs lines 72-74. */
  method ImageSection(reg: Registry, palette: Palette) returns (r: Result<()>)
    requires Sound(reg.elements, palette) && Closed(palette)
    requires "color0" !in reg.elements
    modifies reg
    ensures Sound(reg.elements, palette) && reg.mark == old(reg.output) && old(reg.output) <= reg.output
    ensures "color0" !in reg.elements
    ensures old(reg.elements).Keys <= reg.elements.Keys
    ensures r.Ok? ==> "imageBg" in reg.elements
    ensures r.Ok? <==> "color2" in palette && "color7" in palette
    ensures r.Abort? ==> r.failure.MissingKey? && r.failure.key !in palette
  {
    reg.mark := reg.output;
    reg.AddComment("Image", palette);
    var c1 :- PaletteGet(palette, "color2");
    reg.AddColor("imageBg", c1, palette);
    var c2 :- PaletteGet(palette, "color7");
    reg.AddColor("imageBgTransparent", c2, palette);
    r := Ok(());
  }

  /** Lines 48-74 of src/telegram_colors.rs: the sections `Basic window options`, `Shadow`, `Slide`, `Image`. */
  method Derivation1(reg: Registry, palette: Palette) returns (r: Result<()>)
    requires Sound(reg.elements, palette) && Closed(palette)
    requires "color0" !in reg.elements
    modifies reg
    ensures Sound(reg.elements, palette) && reg.mark == old(reg.output) && old(reg.output) <= reg.output
    ensures "color0" !in reg.elements
    ensures old(reg.elements).Keys <= reg.elements.Keys
    ensures r.Ok? ==> "imageBg" in reg.elements && "shadowFg" in reg.elements && "windowActiveTextFg" in reg.elements && "windowBg" in reg.elements && "windowBgActive" in reg.elements && "windowBoldFgOver" in reg.elements && "windowFg" in reg.elements && "windowFgActive" in reg.elements && "windowSubTextFg" in reg.elements
    ensures r.Ok? <==> "color0" in palette && "color1" in palette && "color2" in palette && "color7" in palette && "color8" in palette && "color10" in palette && "color15" in palette
    ensures r.Abort? ==> r.failure.MissingKey? && r.failure.key !in palette
  {
    var s: Result<()>;
    s := BasicWindowOptionsSection1(reg, palette);
    reg.Rewind(old(reg.output));
    if s.Abort? { return s; }
    s := BasicWindowOptionsSection2(reg, palette);
    reg.Rewind(old(reg.output));
    if s.Abort? { return s; }
    s := BasicWindowOptionsSection3(reg, palette);
    reg.Rewind(old(reg.output));
    if s.Abort? { return s; }
    s := ShadowSection(reg, palette);
    reg.Rewind(old(reg.output));
    s := SlideSection(reg, palette);
    reg.Rewind(old(reg.output));
    s := ImageSection(reg, palette);
    reg.Rewind(old(reg.output));
    r := Ok(());
  }

  /** The `Active` section, part 1: src/telegram_colors.rs lines 76-81. */
  method ActiveSection1(reg: Registry, palette: Palette) returns (r: Result<()>)
    requires Sound(reg.elements, palette) && Closed(palette)
    requires "color0" !in reg.elements
    modifies reg
    ensures Sound(reg.elements, palette) && reg.mark == old(reg.output) && old(reg.output) <= reg.output
    ensures "color0" !in reg.elements
    ensures old(reg.elements).Keys <= reg.elements.Keys
    ensures r.Ok? ==> "activeButtonFg" in reg.elements
    ensures r.Ok? <==> "color2" in palette && "color7" in palette
    ensures r.Abort? ==> r.failure.MissingKey? && r.failure.key !in palette
  {
    reg.mark := reg.output;
    reg.AddComment("Active", palette);
    var c1 :- PaletteGet(palette, "color2");
    reg.AddColor("activeButtonBg", c1, palette);
    var c2 := PaletteGet(palette, "color2").value;
    reg.AddColor("activeButtonBgOver", Lighter(c2, 30), palette);
    var c3 := PaletteGet(palette, "color2").value;
    reg.AddColor("activeButtonBgRipple", Lighter(c3, 50), palette);
    var c4 :- PaletteGet(palette, "color7");
    reg.AddColor("activeButtonFg", c4, palette);
    var c5 := PaletteGet(palette, "color7").value;
    reg.AddColor("activeButtonFgOver", Lighter(c5, 30), palette);
    r := Ok(());
  }

  /** The `Active` section, part 2: src/telegram_colors.rs lines 82-85. */
  method ActiveSection2(reg: Registry, palette: Palette) returns (r: Result<()>)
    requires Sound(reg.elements, palette) && Closed(palette)
    requires "color0" !in reg.elements
    modifies reg
    ensures Sound(reg.elements, palette) && reg.mark == old(reg.output) && old(reg.output) <= reg.output
    ensures "color0" !in reg.elements
    ensures old(reg.elements).Keys <= reg.elements.Keys
    ensures r.Ok? <==> "color1" in palette && "color2" in palette && "color7" in palette
    ensures r.Abort? ==> r.failure.MissingKey? && r.failure.key !in palette
  {
    reg.mark := reg.output;
    assert ColorNamed("activeButtonSecondaryFg");
    var c1 :- PaletteGet(palette, "color7");
    reg.AddColor("activeButtonSecondaryFg", Lighter(c1, 50), palette);
    var c2 := reg.GetElement("activeButtonSecondaryFg", palette);
    reg.AddColor("activeButtonSecondaryFgOver", c2.value, palette);
    var c3 :- PaletteGet(palette, "color2");
    reg.AddColor("activeLineFg", c3, palette);
    var c4 :- PaletteGet(palette, "color1");
    reg.AddColor("activeLineFgError", c4, palette);
    r := Ok(());
  }

  /** The `Light` section, part 1: src/telegram_colors.rs lines 87-91. */
  method LightSection1(reg: Registry, palette: Palette) returns (r: Result<()>)
    requires Sound(reg.elements, palette) && Closed(palette)
    requires "color0" !in reg.elements
    modifies reg
    ensures Sound(reg.elements, palette) && reg.mark == old(reg.output) && old(reg.output) <= reg.output
    ensures "color0" !in reg.elements
    ensures old(reg.elements).Keys <= reg.elements.Keys
    ensures r.Ok? ==> "lightButtonFg" in reg.elements
    ensures r.Ok? <==> "color0" in palette && "color2" in palette
    ensures r.Abort? ==> r.failure.MissingKey? && r.failure.key !in palette
  {
    reg.mark := reg.output;
    reg.AddComment("Light", palette);
    var c1 :- PaletteGet(palette, "color0");
    reg.AddColor("lightButtonBg", c1, palette);
    var c2 := PaletteGet(palette, "color0").value;
    reg.AddColor("lightButtonBgOver", Lighter(c2, 40), palette);
    var c3 := PaletteGet(palette, "color0").value;
    reg.AddColor("lightButtonBgRipple", Lighter(c3, 60), palette);
    var c4 :- PaletteGet(palette, "color2");
    reg.AddColor("lightButtonFg", c4, palette);
    r := Ok(());
  }

  /** The `Light` section, part 2: src/telegram_colors.rs lines 92-92. */
  method LightSection2(reg: Registry, palette: Palette) returns (r: Result<()>)
    requires Sound(reg.elements, palette) && Closed(palette)
    requires "color0" !in reg.elements
    requires "lightButtonFg" in reg.elements
    modifies reg
    ensures Sound(reg.elements, palette) && reg.mark == old(reg.output) && old(reg.output) <= reg.output
    ensures "color0" !in reg.elements
    ensures old(reg.elements).Keys <= reg.elements.Keys
    ensures r.Ok? ==> "lightButtonFgOver" in reg.elements
    ensures r.Ok?
  {
    reg.mark := reg.output;
    assert ColorNamed("lightButtonFg");
    var c1 := reg.GetElement("lightButtonFg", palette);
    reg.AddColor("lightButtonFgOver", c1.value, palette);
    r := Ok(());
  }

  /** The `Attention` section: src/telegram_colors.rs lines 94-98. */
  method AttentionSection(reg: Registry, palette: Palette) returns (r: Result<()>)
    requires Sound(reg.elements, palette) && Closed(palette)
    requires "color0" !in reg.elements
    modifies reg
    ensures Sound(reg.elements, palette) && reg.mark == old(reg.output) && old(reg.output) <= reg.output
    ensures "color0" !in reg.elements
    ensures old(reg.elements).Keys <= reg.elements.Keys
    ensures r.Ok? <==> "color0" in palette && "color1" in palette
    ensures r.Abort? ==> r.failure.MissingKey? && r.failure.key !in palette
  {
    reg.mark := reg.output;
    reg.AddComment("Attention", palette);
    var c1 :- PaletteGet(palette, "color1");
    reg.AddColor("attentionButtonFg", c1, palette);
    var c2 := PaletteGet(palette, "color1").value;
    reg.AddColor("attentionButtonFgOver", Lighter(c2, 30), palette);
    var c3 :- PaletteGet(palette, "color0");
    reg.AddColor("attentionButtonBgOver", Lighter(c3, 40), palette);
    var c4 := PaletteGet(palette, "color0").value;
    reg.AddColor("attentionButtonBgRipple", Lighter(c4, 60), palette);
    r := Ok(());
  }

  /** The `Outline` section: src/telegram_colors.rs lines 100-104. */
  method OutlineSection(reg: Registry, palette: Palette) returns (r: Result<()>)
    requires Sound(reg.elements, palette) && Closed(palette)
    requires "color0" !in reg.elements
    requires "windowBg" in reg.elements
    modifies reg
    ensures Sound(reg.elements, palette) && reg.mark == old(reg.output) && old(reg.output) <= reg.output
    ensures "color0" !in reg.elements
    ensures old(reg.elements).Keys <= reg.elements.Keys
    ensures r.Ok? <==> "color0" in palette && "color2" in palette
    ensures r.Abort? ==> r.failure.MissingKey? && r.failure.key !in palette
  {
    reg.mark := reg.output;
    assert ColorNamed("windowBg");
    reg.AddComment("Outline", palette);
    var c1 := reg.GetElement("windowBg", palette);
    reg.AddColor("outlineButtonBg", c1.value, palette);
    var c2 :- PaletteGet(palette, "color0");
    reg.AddColor("outlineButtonBgOver", Lighter(c2, 40), palette);
    var c3 :- PaletteGet(palette, "color2");
    reg.AddColor("outlineButtonOutlineFg", c3, palette);
    var c4 := PaletteGet(palette, "color0").value;
    reg.AddColor("outlineButtonBgRipple", Lighter(c4, 60), palette);
    r := Ok(());
  }

  /** Lines 76-104 of src/telegram_colors.rs: the sections `Active`, `Light`, `Attention`, `Outline`. */
  method Derivation2(reg: Registry, palette: Palette) returns (r: Result<()>)
    requires Sound(reg.elements, palette) && Closed(palette)
    requires "color0" !in reg.elements
    requires "windowBg" in reg.elements
    modifies reg
    ensures Sound(reg.elements, palette) && reg.mark == old(reg.output) && old(reg.output) <= reg.output
    ensures "color0" !in reg.elements
    ensures old(reg.elements).Keys <= reg.elements.Keys
    ensures r.Ok? ==> "activeButtonFg" in reg.elements && "lightButtonFg" in reg.elements && "lightButtonFgOver" in reg.elements
    ensures r.Ok? <==> "color0" in palette && "color1" in palette && "color2" in palette && "color7" in palette
    ensures r.Abort? ==> r.failure.MissingKey? && r.failure.key !in palette
  {
    var s: Result<()>;
    s := ActiveSection1(reg, palette);
    reg.Rewind(old(reg.output));
    if s.Abort? { return s; }
    s := ActiveSection2(reg, palette);
    reg.Rewind(old(reg.output));
    if s.Abort? { return s; }
    s := LightSection1(reg, palette);
    reg.Rewind(old(reg.output));
    if s.Abort? { return s; }
    s := LightSection2(reg, palette);
    reg.Rewind(old(reg.output));
    s := AttentionSection(reg, palette);
    reg.Rewind(old(reg.output));
    s := OutlineSection(reg, palette);
    reg.Rewind(old(reg.output));
    r := Ok(());
  }

  /** The `Menu` section, part 1: src/telegram_colors.rs lines 106-111. */
  method MenuSection1(reg: Registry, palette: Palette) returns (r: Result<()>)
    requires Sound(reg.elements, palette) && Closed(palette)
    requires "color0" !in reg.elements
    modifies reg
    ensures Sound(reg.elements, palette) && reg.mark == old(reg.output) && old(reg.output) <= reg.output
    ensures "color0" !in reg.elements
    ensures old(reg.elements).Keys <= reg.elements.Keys
    ensures r.Ok? ==> "menuIconFg" in reg.elements && "menuIconFgOver" in reg.elements
    ensures r.Ok? <==> "color0" in palette && "color7" in palette
    ensures r.Abort? ==> r.failure.MissingKey? && r.failure.key !in palette
  {
    reg.mark := reg.output;
    reg.AddComment("Menu", palette);
    var c1 :- PaletteGet(palette, "color0");
    reg.AddColor("menuBg", c1, palette);
    var c2 := PaletteGet(palette, "color0").value;
    reg.AddColor("menuBgOver", Lighter(c2, 40), palette);
    var c3 := PaletteGet(palette, "color0").value;
    reg.AddColor("menuBgRipple", Lighter(c3, 60), palette);
    var c4 :- PaletteGet(palette, "color7");
    reg.AddColor("menuIconFg", c4, palette);
    var c5 := PaletteGet(palette, "color7").value;
    reg.AddColor("menuIconFgOver", Lighter(c5, 40), palette);
    r := Ok(());
  }

  /** The `Menu` section, part 2: src/telegram_colors.rs lines 112-114. */
  method MenuSection2(reg: Registry, palette: Palette) returns (r: Result<()>)
    requires Sound(reg.elements, palette) && Closed(palette)
    requires "color0" !in reg.elements
    modifies reg
    ensures Sound(reg.elements, palette) && reg.mark == old(reg.output) && old(reg.output) <= reg.output
    ensures "color0" !in reg.elements
    ensures old(reg.elements).Keys <= reg.elements.Keys
    ensures r.Ok? <==> "color7" in palette
    ensures r.Abort? ==> r.failure.MissingKey? && r.failure.key !in palette
  {
    reg.mark := reg.output;
    var c1 :- PaletteGet(palette, "color7");
    reg.AddColor("menuSubmenuArrowFg", c1, palette);
    var c2 := PaletteGet(palette, "color7").value;
    reg.AddColor("menuFgDisabled", Darker(c2, 40), palette);
    var c3 := PaletteGet(palette, "color7").value;
    reg.AddColor("menuSeparatorFg", Darker(c3, 40), palette);
    r := Ok(());
  }

  /** The `Scroll` section: src/telegram_colors.rs lines 116-120. */
  method ScrollSection(reg: Registry, palette: Palette) returns (r: Result<()>)
    requires Sound(reg.elements, palette) && Closed(palette)
    requires "color0" !in reg.elements
    modifies reg
    ensures Sound(reg.elements, palette) && reg.mark == old(reg.output) && old(reg.output) <= reg.output
    ensures "color0" !in reg.elements
    ensures old(reg.elements).Keys <= reg.elements.Keys
    ensures r.Ok? <==> "color7" in palette
    ensures r.Abort? ==> r.failure.MissingKey? && r.failure.key !in palette
  {
    reg.mark := reg.output;
    reg.AddComment("Scroll", palette);
    var c1 :- PaletteGet(palette, "color7");
    reg.AddColor("scrollBarBg", Alpha(c1, 30), palette);
    var c2 := PaletteGet(palette, "color7").value;
    reg.AddColor("scrollBarBgOver", Alpha(c2, 45), palette);
    var c3 := PaletteGet(palette, "color7").value;
    reg.AddColor("scrollBg", Alpha(c3, 5), palette);
    var c4 := PaletteGet(palette, "color7").value;
    reg.AddColor("scrollBgOver", Alpha(c4, 15), palette);
    r := Ok(());
  }

  /** The `Small` section: src/telegram_colors.rs lines 122-124. */
  method SmallSection(reg: Registry, palette: Palette) returns (r: Result<()>)
    requires Sound(reg.elements, palette) && Closed(palette)
    requires "color0" !in reg.elements
    modifies reg
    ensures Sound(reg.elements, palette) && reg.mark == old(reg.output) && old(reg.output) <= reg.output
    ensures "color0" !in reg.elements
    ensures old(reg.elements).Keys <= reg.elements.Keys
    ensures r.Ok? <==> "color7" in palette
    ensures r.Abort? ==> r.failure.MissingKey? && r.failure.key !in palette
  {
    reg.mark := reg.output;
    reg.AddComment("Small", palette);
    var c1 :- PaletteGet(palette, "color7");
    reg.AddColor("smallCloseIconFg", Darker(c1, 40), palette);
    var c2 := PaletteGet(palette, "color7").value;
    reg.AddColor("smallCloseIconFgOver", c2, palette);
    r := Ok(());
  }

  /** The `Radial` section: src/telegram_colors.rs lines 126-128. */
  method RadialSection(reg: Registry, palette: Palette) returns (r: Result<()>)
    requires Sound(reg.elements, palette) && Closed(palette)
    requires "color0" !in reg.elements
    requires "windowFgActive" in reg.elements
    modifies reg
    ensures Sound(reg.elements, palette) && reg.mark == old(reg.output) && old(reg.output) <= reg.output
    ensures "color0" !in reg.elements
    ensures old(reg.elements).Keys <= reg.elements.Keys
    ensures r.Ok? <==> "color0" in palette
    ensures r.Abort? ==> r.failure.MissingKey? && r.failure.key !in palette
  {
    reg.mark := reg.output;
    assert ColorNamed("windowFgActive");
    reg.AddComment("Radial", palette);
    var c1 := reg.GetElement("windowFgActive", palette);
    reg.AddColor("radialFg", c1.value, palette);
    var c2 :- PaletteGet(palette, "color0");
    reg.AddColor("radialBg", Alpha(c2, 30), palette);
    r := Ok(());
  }

  /** The `Placeholder` section: src/telegram_colors.rs lines 130-132. */
  method PlaceholderSection(reg: Registry, palette: Palette) returns (r: Result<()>)
    requires Sound(reg.elements, palette) && Closed(palette)
    requires "color0" !in reg.elements
    modifies reg
    ensures Sound(reg.elements, palette) && reg.mark == old(reg.output) && old(reg.output) <= reg.output
    ensures "color0" !in reg.elements
    ensures old(reg.elements).Keys <= reg.elements.Keys
    ensures r.Ok? <==> "color7" in palette
    ensures r.Abort? ==> r.failure.MissingKey? && r.failure.key !in palette
  {
    reg.mark := reg.output;
    reg.AddComment("Placeholder", palette);
    var c1 :- PaletteGet(palette, "color7");
    reg.AddColor("placeholderFg", c1, palette);
    var c2 := PaletteGet(palette, "color7").value;
    reg.AddColor("placeholderFgActive", Darker(c2, 40), palette);
    r := Ok(());
  }

  /** Lines 106-132 of src/telegram_colors.rs: the sections `Menu`, `Scroll`, `Small`, `Radial`, `Placeholder`. */
  method Derivation3(reg: Registry, palette: Palette) returns (r: Result<()>)
    requires Sound(reg.elements, palette) && Closed(palette)
    requires "color0" !in reg.elements
    requires "windowFgActive" in reg.elements
    modifies reg
    ensures Sound(reg.elements, palette) && reg.mark == old(reg.output) && old(reg.output) <= reg.output
    ensures "color0" !in reg.elements
    ensures old(reg.elements).Keys <= reg.elements.Keys
    ensures r.Ok? ==> "menuIconFg" in reg.elements && "menuIconFgOver" in reg.elements
    ensures r.Ok? <==> "color0" in palette && "color7" in palette
    ensures r.Abort? ==> r.failure.MissingKey? && r.failure.key !in palette
  {
    var s: Result<()>;
    s := MenuSection1(reg, palette);
    reg.Rewind(old(reg.output));
    if s.Abort? { return s; }
    s := MenuSection2(reg, palette);
    reg.Rewind(old(reg.output));
    s := ScrollSection(reg, palette);
    reg.Rewind(old(reg.output));
    s := SmallSection(reg, palette);
    reg.Rewind(old(reg.output));
    s := RadialSection(reg, palette);
    reg.Rewind(old(reg.output));
    s := PlaceholderSection(reg, palette);
    reg.Rewind(old(reg.output));
    r := Ok(());
  }

  /** The `Input` section: src/telegram_colors.rs lines 134-135. */
  method InputSection(reg: Registry, palette: Palette) returns (r: Result<()>)
    requires Sound(reg.elements, palette) && Closed(palette)
    requires "color0" !in reg.elements
    modifies reg
    ensures Sound(reg.elements, palette) && reg.mark == old(reg.output) && old(reg.output) <= reg.output
    ensures "color0" !in reg.elements
    ensures old(reg.elements).Keys <= reg.elements.Keys
    ensures r.Ok? <==> "color7" in palette
    ensures r.Abort? ==> r.failure.MissingKey? && r.failure.key !in palette
  {
    reg.mark := reg.output;
    reg.AddComment("Input", palette);
    var c1 :- PaletteGet(palette, "color7");
    reg.AddColor("inputBorderFg", c1, palette);
    r := Ok(());
  }

  /** The `Filter` section: src/telegram_colors.rs lines 137-140. */
  method FilterSection(reg: Registry, palette: Palette) returns (r: Result<()>)
    requires Sound(reg.elements, palette) && Closed(palette)
    requires "color0" !in reg.elements
    modifies reg
    ensures Sound(reg.elements, palette) && reg.mark == old(reg.output) && old(reg.output) <= reg.output
    ensures "color0" !in reg.elements
    ensures old(reg.elements).Keys <= reg.elements.Keys
    ensures r.Ok? <==> "color0" in palette && "color8" in palette
    ensures r.Abort? ==> r.failure.MissingKey? && r.failure.key !in palette
  {
    reg.mark := reg.output;
    reg.AddComment("Filter", palette);
    var c1 :- PaletteGet(palette, "color0");
    reg.AddColor("filterInputBorderFg", Lighter(c1, 40), palette);
    var c2 :- PaletteGet(palette, "color8");
    reg.AddColor("filterInputInactiveBg", Darker(c2, 30), palette);
    var c3 := PaletteGet(palette, "color8").value;
    reg.AddColor("filterInputActiveBg", Darker(c3, 20), palette);
    r := Ok(());
  }

  /** The `Checkbox` section: src/telegram_colors.rs lines 142-143. */
  method CheckboxSection(reg: Registry, palette: Palette) returns (r: Result<()>)
    requires Sound(reg.elements, palette) && Closed(palette)
    requires "color0" !in reg.elements
    modifies reg
    ensures Sound(reg.elements, palette) && reg.mark == old(reg.output) && old(reg.output) <= reg.output
    ensures "color0" !in reg.elements
    ensures old(reg.elements).Keys <= reg.elements.Keys
    ensures r.Ok? <==> "color7" in palette
    ensures r.Abort? ==> r.failure.MissingKey? && r.failure.key !in palette
  {
    reg.mark := reg.output;
    reg.AddComment("Checkbox", palette);
    var c1 :- PaletteGet(palette, "color7");
    reg.AddColor("checkboxFg", Darker(c1, 40), palette);
    r := Ok(());
  }

  /** The `Slider` section: src/telegram_colors.rs lines 145-147. */
  method SliderSection(reg: Registry, palette: Palette) returns (r: Result<()>)
    requires Sound(reg.elements, palette) && Closed(palette)
    requires "color0" !in reg.elements
    requires "windowBgActive" in reg.elements
    modifies reg
    ensures Sound(reg.elements, palette) && reg.mark == old(reg.output) && old(reg.output) <= reg.output
    ensures "color0" !in reg.elements
    ensures old(reg.elements).Keys <= reg.elements.Keys
    ensures r.Ok? ==> "sliderBgInactive" in reg.elements
    ensures r.Ok? <==> "color7" in palette
    ensures r.Abort? ==> r.failure.MissingKey? && r.failure.key !in palette
  {
    reg.mark := reg.output;
    assert ColorNamed("windowBgActive");
    reg.AddComment("Slider", palette);
    var c1 :- PaletteGet(palette, "color7");
    reg.AddColor("sliderBgInactive", Darker(c1, 40), palette);
    var c2 := reg.GetElement("windowBgActive", palette);
    reg.AddColor("sliderBgActive", c2.value, palette);
    r := Ok(());
  }

  /** The `Tooltip` section: src/telegram_colors.rs lines 149-152. */
  method TooltipSection(reg: Registry, palette: Palette) returns (r: Result<()>)
    requires Sound(reg.elements, palette) && Closed(palette)
    requires "color0" !in reg.elements
    modifies reg
    ensures Sound(reg.elements, palette) && reg.mark == old(reg.output) && old(reg.output) <= reg.output
    ensures "color0" !in reg.elements
    ensures old(reg.elements).Keys <= reg.elements.Keys
    ensures r.Ok? <==> "color0" in palette && "color7" in palette
    ensures r.Abort? ==> r.failure.MissingKey? && r.failure.key !in palette
  {
    reg.mark := reg.output;
    reg.AddComment("Tooltip", palette);
    var c1 :- PaletteGet(palette, "color7");
    reg.AddColor("tooltipBg", c1, palette);
    var c2 :- PaletteGet(palette, "color0");
    reg.AddColor("tooltipFg", c2, palette);
    var c3 := PaletteGet(palette, "color7").value;
    reg.AddColor("tooltipBorderFg", c3, palette);
    r := Ok(());
  }

  /** The `Title` section, part 1: src/telegram_colors.rs lines 154-157. */
  method TitleSection1(reg: Registry, palette: Palette) returns (r: Result<()>)
    requires Sound(reg.elements, palette) && Closed(palette)
    requires "color0" !in reg.elements
    modifies reg
    ensures Sound(reg.elements, palette) && reg.mark == old(reg.output) && old(reg.output) <= reg.output
    ensures "color0" !in reg.elements
    ensures old(reg.elements).Keys <= reg.elements.Keys
    ensures r.Ok? ==> "titleBg" in reg.elements
    ensures r.Ok? <==> "color0" in palette
    ensures r.Abort? ==> r.failure.MissingKey? && r.failure.key !in palette
  {
    reg.mark := reg.output;
    assert ColorNamed("titleBg");
    reg.AddComment("Title", palette);
    var c1 :- PaletteGet(palette, "color0");
    reg.AddColor("titleShadow", Alpha(c1, 5), palette);
    var c2 := PaletteGet(palette, "color0").value;
    reg.AddColor("titleBg", c2, palette);
    var c3 := reg.GetElement("titleBg", palette);
    reg.AddColor("titleBgActive", c3.value, palette);
    r := Ok(());
  }

  /** Lines 134-157 of src/telegram_colors.rs: the sections `Input`, `Filter`, `Checkbox`, `Slider`, `Tooltip`, `Title`. */
  method Derivation4(reg: Registry, palette: Palette) returns (r: Result<()>)
    requires Sound(reg.elements, palette) && Closed(palette)
    requires "color0" !in reg.elements
    requires "windowBgActive" in reg.elements
    modifies reg
    ensures Sound(reg.elements, palette) && reg.mark == old(reg.output) && old(reg.output) <= reg.output
    ensures "color0" !in reg.elements
    ensures old(reg.elements).Keys <= reg.elements.Keys
    ensures r.Ok? ==> "sliderBgInactive" in reg.elements && "titleBg" in reg.elements
    ensures r.Ok? <==> "color0" in palette && "color7" in palette && "color8" in palette
    ensures r.Abort? ==> r.failure.MissingKey? && r.failure.key !in palette
  {
    var s: Result<()>;
    s := InputSection(reg, palette);
    reg.Rewind(old(reg.output));
    if s.Abort? { return s; }
    s := FilterSection(reg, palette);
    reg.Rewind(old(reg.output));
    if s.Abort? { return s; }
    s := CheckboxSection(reg, palette);
    reg.Rewind(old(reg.output));
    s := SliderSection(reg, palette);
    reg.Rewind(old(reg.output));
    s := TooltipSection(reg, palette);
    reg.Rewind(old(reg.output));
    s := TitleSection1(reg, palette);
    reg.Rewind(old(reg.output));
    r := Ok(());
  }

  /** The `Title` section, part 2: src/telegram_colors.rs lines 158-161. */
  method TitleSection2(reg: Registry, palette: Palette) returns (r: Result<()>)
    requires Sound(reg.elements, palette) && Closed(palette)
    requires "color0" !in reg.elements
    requires "titleBg" in reg.elements
    modifies reg
    ensures Sound(reg.elements, palette) && reg.mark == old(reg.output) && old(reg.output) <= reg.output
    ensures "color0" !in reg.elements
    ensures old(reg.elements).Keys <= reg.elements.Keys
    ensures r.Ok? ==> "titleButtonBg" in reg.elements && "titleButtonBgOver" in reg.elements && "titleButtonFg" in reg.elements && "titleButtonFgOver" in reg.elements
    ensures r.Ok? <==> "color0" in palette && "color7" in palette
    ensures r.Abort? ==> r.failure.MissingKey? && r.failure.key !in palette
  {
    reg.mark := reg.output;
    assert ColorNamed("titleBg");
    var c1 := reg.GetElement("titleBg", palette);
    reg.AddColor("titleButtonBg", c1.value, palette);
    var c2 :- PaletteGet(palette, "color7");
    reg.AddColor("titleButtonFg", c2, palette);
    var c3 :- PaletteGet(palette, "color0");
    reg.AddColor("titleButtonBgOver", Lighter(c3, 40), palette);
    var c4 := PaletteGet(palette, "color7").value;
    reg.AddColor("titleButtonFgOver", Lighter(c4, 40), palette);
    r := Ok(());
  }

  /** The `Title` section, part 3: src/telegram_colors.rs lines 162-164. */
  method TitleSection3(reg: Registry, palette: Palette) returns (r: Result<()>)
    requires Sound(reg.elements, palette) && Closed(palette)
    requires "color0" !in reg.elements
    requires "titleButtonBg" in reg.elements && "titleButtonBgOver" in reg.elements && "titleButtonFg" in reg.elements
    modifies reg
    ensures Sound(reg.elements, palette) && reg.mark == old(reg.output) && old(reg.output) <= reg.output
    ensures "color0" !in reg.elements
    ensures old(reg.elements).Keys <= reg.elements.Keys
    ensures r.Ok?
  {
    reg.mark := reg.output;
    assert ColorNamed("titleButtonBg");
    assert ColorNamed("titleButtonFg");
    assert ColorNamed("titleButtonBgOver");
    var c1 := reg.GetElement("titleButtonBg", palette);
    reg.AddColor("titleButtonBgActive", c1.value, palette);
    var c2 := reg.GetElement("titleButtonFg", palette);
    reg.AddColor("titleButtonFgActive", c2.value, palette);
    var c3 := reg.GetElement("titleButtonBgOver", palette);
    reg.AddColor("titleButtonBgActiveOver", c3.value, palette);
    r := Ok(());
  }

  /** The `Title` section, part 4: src/telegram_colors.rs lines 165-167. */
  method TitleSection4(reg: Registry, palette: Palette) returns (r: Result<()>)
    requires Sound(reg.elements, palette) && Closed(palette)
    requires "color0" !in reg.elements
    requires "titleButtonBg" in reg.elements && "titleButtonFg" in reg.elements && "titleButtonFgOver" in reg.elements
    modifies reg
    ensures Sound(reg.elements, palette) && reg.mark == old(reg.output) && old(reg.output) <= reg.output
    ensures "color0" !in reg.elements
    ensures old(reg.elements).Keys <= reg.elements.Keys
    ensures r.Ok? ==> "titleButtonCloseBg" in reg.elements && "titleButtonCloseFg" in reg.elements
    ensures r.Ok?
  {
    reg.mark := reg.output;
    assert ColorNamed("titleButtonFgOver");
    assert ColorNamed("titleButtonBg");
    assert ColorNamed("titleButtonFg");
    var c1 := reg.GetElement("titleButtonFgOver", palette);
    reg.AddColor("titleButtonFgActiveOver", c1.value, palette);
    var c2 := reg.GetElement("titleButtonBg", palette);
    reg.AddColor("titleButtonCloseBg", c2.value, palette);
    var c3 := reg.GetElement("titleButtonFg", palette);
    reg.AddColor("titleButtonCloseFg", c3.value, palette);
    r := Ok(());
  }

  /** The `Title` section, part 5: src/telegram_colors.rs lines 168-170. */
  method TitleSection5(reg: Registry, palette: Palette) returns (r: Result<()>)
    requires Sound(reg.elements, palette) && Closed(palette)
    requires "color0" !in reg.elements
    requires "titleButtonCloseBg" in reg.elements && "windowFgActive" in reg.elements
    modifies reg
    ensures Sound(reg.elements, palette) && reg.mark == old(reg.output) && old(reg.output) <= reg.output
    ensures "color0" !in reg.elements
    ensures old(reg.elements).Keys <= reg.elements.Keys
    ensures r.Ok? ==> "titleButtonCloseBgOver" in reg.elements && "titleButtonCloseFgOver" in reg.elements
    ensures r.Ok? <==> "color0" in palette
    ensures r.Abort? ==> r.failure.MissingKey? && r.failure.key !in palette
  {
    reg.mark := reg.output;
    assert ColorNamed("windowFgActive");
    assert ColorNamed("titleButtonCloseBg");
    var c1 :- PaletteGet(palette, "color0");
    reg.AddColor("titleButtonCloseBgOver", Lighter(c1, 40), palette);
    var c2 := reg.GetElement("windowFgActive", palette);
    reg.AddColor("titleButtonCloseFgOver", c2.value, palette);
    var c3 := reg.GetElement("titleButtonCloseBg", palette);
    reg.AddColor("titleButtonCloseBgActive", c3.value, palette);
    r := Ok(());
  }

  /** The `Title` section, part 6: src/telegram_colors.rs lines 171-173. */
  method TitleSection6(reg: Registry, palette: Palette) returns (r: Result<()>)
    requires Sound(reg.elements, palette) && Closed(palette)
    requires "color0" !in reg.elements
    requires "titleButtonCloseBgOver" in reg.elements && "titleButtonCloseFg" in reg.elements && "titleButtonCloseFgOver" in reg.elements
    modifies reg
    ensures Sound(reg.elements, palette) && reg.mark == old(reg.output) && old(reg.output) <= reg.output
    ensures "color0" !in reg.elements
    ensures old(reg.elements).Keys <= reg.elements.Keys
    ensures r.Ok?
  {
    reg.mark := reg.output;
    assert ColorNamed("titleButtonCloseFg");
    assert ColorNamed("titleButtonCloseBgOver");
    assert ColorNamed("titleButtonCloseFgOver");
    var c1 := reg.GetElement("titleButtonCloseFg", palette);
    reg.AddColor("titleButtonCloseFgActive", c1.value, palette);
    var c2 := reg.GetElement("titleButtonCloseBgOver", palette);
    reg.AddColor("titleButtonCloseBgActiveOver", c2.value, palette);
    var c3 := reg.GetElement("titleButtonCloseFgOver", palette);
    reg.AddColor("titleButtonCloseFgActiveOver", c3.value, palette);
    r := Ok(());
  }

  /** The `Title` section, part 7: src/telegram_colors.rs lines 174-175. */
  method TitleSection7(reg: Registry, palette: Palette) returns (r: Result<()>)
    requires Sound(reg.elements, palette) && Closed(palette)
    requires "color0" !in reg.elements
    modifies reg
    ensures Sound(reg.elements, palette) && reg.mark == old(reg.output) && old(reg.output) <= reg.output
    ensures "color0" !in reg.elements
    ensures old(reg.elements).Keys <= reg.elements.Keys
    ensures r.Ok? <==> "color7" in palette
    ensures r.Abort? ==> r.failure.MissingKey? && r.failure.key !in palette
  {
    reg.mark := reg.output;
    var c1 :- PaletteGet(palette, "color7");
    reg.AddColor("titleFg", c1, palette);
    var c2 := PaletteGet(palette, "color7").value;
    reg.AddColor("titleFgActive", Lighter(c2, 40), palette);
    r := Ok(());
  }

  /** Lines 158-175 of src/telegram_colors.rs: the sections `Title`. */
  method Derivation5(reg: Registry, palette: Palette) returns (r: Result<()>)
    requires Sound(reg.elements, palette) && Closed(palette)
    requires "color0" !in reg.elements
    requires "titleBg" in reg.elements && "windowFgActive" in reg.elements
    modifies reg
    ensures Sound(reg.elements, palette) && reg.mark == old(reg.output) && old(reg.output) <= reg.output
    ensures "color0" !in reg.elements
    ensures old(reg.elements).Keys <= reg.elements.Keys
    ensures r.Ok? <==> "color0" in palette && "color7" in palette
    ensures r.Abort? ==> r.failure.MissingKey? && r.failure.key !in palette
  {
    var s: Result<()>;
    s := TitleSection2(reg, palette);
    reg.Rewind(old(reg.output));
    if s.Abort? { return s; }
    s := TitleSection3(reg, palette);
    reg.Rewind(old(reg.output));
    s := TitleSection4(reg, palette);
    reg.Rewind(old(reg.output));
    s := TitleSection5(reg, palette);
    reg.Rewind(old(reg.output));
    s := TitleSection6(reg, palette);
    reg.Rewind(old(reg.output));
    s := TitleSection7(reg, palette);
    reg.Rewind(old(reg.output));
    r := Ok(());
  }

  /** The `Tray` section: src/telegram_colors.rs lines 177-182. */
  method TraySection(reg: Registry, palette: Palette) returns (r: Result<()>)
    requires Sound(reg.elements, palette) && Closed(palette)
    requires "color0" !in reg.elements
    modifies reg
    ensures Sound(reg.elements, palette) && reg.mark == old(reg.output) && old(reg.output) <= reg.output
    ensures "color0" !in reg.elements
    ensures old(reg.elements).Keys <= reg.elements.Keys
    ensures r.Ok? <==> "color0" in palette && "color2" in palette && "color7" in palette
    ensures r.Abort? ==> r.failure.MissingKey? && r.failure.key !in palette
  {
    reg.mark := reg.output;
    reg.AddComment("Tray", palette);
    var c1 :- PaletteGet(palette, "color2");
    reg.AddColor("trayCounterBg", c1, palette);
    var c2 :- PaletteGet(palette, "color0");
    reg.AddColor("trayCounterBgMute", c2, palette);
    var c3 :- PaletteGet(palette, "color7");
    reg.AddColor("trayCounterFg", c3, palette);
    var c4 := PaletteGet(palette, "color7").value;
    reg.AddColor("trayCounterBgMacInvert", c4, palette);
    var c5 := PaletteGet(palette, "color2").value;
    reg.AddColor("trayCounterFgMacInvert", c5, palette);
    r := Ok(());
  }

  /** The `Layer` section: src/telegram_colors.rs lines 184-185. */
  method LayerSection(reg: Registry, palette: Palette) returns (r: Result<()>)
    requires Sound(reg.elements, palette) && Closed(palette)
    requires "color0" !in reg.elements
    modifies reg
    ensures Sound(reg.elements, palette) && reg.mark == old(reg.output) && old(reg.output) <= reg.output
    ensures "color0" !in reg.elements
    ensures old(reg.elements).Keys <= reg.elements.Keys
    ensures r.Ok? ==> "layerBg" in reg.elements
    ensures r.Ok? <==> "color0" in palette
    ensures r.Abort? ==> r.failure.MissingKey? && r.failure.key !in palette
  {
    reg.mark := reg.output;
    reg.AddComment("Layer", palette);
    var c1 :- PaletteGet(palette, "color0");
    reg.AddColor("layerBg", Alpha(c1, 45), palette);
    r := Ok(());
  }

  /** The `Cancel` section: src/telegram_colors.rs lines 187-189. */
  method CancelSection(reg: Registry, palette: Palette) returns (r: Result<()>)
    requires Sound(reg.elements, palette) && Closed(palette)
    requires "color0" !in reg.elements
    modifies reg
    ensures Sound(reg.elements, palette) && reg.mark == old(reg.output) && old(reg.output) <= reg.output
    ensures "color0" !in reg.elements
    ensures old(reg.elements).Keys <= reg.elements.Keys
    ensures r.Ok? ==> "cancelIconFg" in reg.elements && "cancelIconFgOver" in reg.elements
    ensures r.Ok? <==> "color7" in palette
    ensures r.Abort? ==> r.failure.MissingKey? && r.failure.key !in palette
  {
    reg.mark := reg.output;
    reg.AddComment("Cancel", palette);
    var c1 :- PaletteGet(palette, "color7");
    reg.AddColor("cancelIconFg", Darker(c1, 40), palette);
    var c2 := PaletteGet(palette, "color7").value;
    reg.AddColor("cancelIconFgOver", c2, palette);
    r := Ok(());
  }

  /** The `Box` section, part 1: src/telegram_colors.rs lines 191-194. */
  method BoxSection1(reg: Registry, palette: Palette) returns (r: Result<()>)
    requires Sound(reg.elements, palette) && Closed(palette)
    requires "color0" !in reg.elements
    requires "windowBg" in reg.elements && "windowFg" in reg.elements
    modifies reg
    ensures Sound(reg.elements, palette) && reg.mark == old(reg.output) && old(reg.output) <= reg.output
    ensures "color0" !in reg.elements
    ensures old(reg.elements).Keys <= reg.elements.Keys
    ensures r.Ok? ==> "boxTextFg" in reg.elements
    ensures r.Ok? <==> "color2" in palette
    ensures r.Abort? ==> r.failure.MissingKey? && r.failure.key !in palette
  {
    reg.mark := reg.output;
    assert ColorNamed("windowBg");
    assert ColorNamed("windowFg");
    reg.AddComment("Box", palette);
    var c1 := reg.GetElement("windowBg", palette);
    reg.AddColor("boxBg", c1.value, palette);
    var c2 := reg.GetElement("windowFg", palette);
    reg.AddColor("boxTextFg", c2.value, palette);
    var c3 :- PaletteGet(palette, "color2");
    reg.AddColor("boxTextFgGood", c3, palette);
    r := Ok(());
  }

  /** The `Box` section, part 2: src/telegram_colors.rs lines 195-199. */
  method BoxSection2(reg: Registry, palette: Palette) returns (r: Result<()>)
    requires Sound(reg.elements, palette) && Closed(palette)
    requires "color0" !in reg.elements
    requires "cancelIconFg" in reg.elements
    modifies reg
    ensures Sound(reg.elements, palette) && reg.mark == old(reg.output) && old(reg.output) <= reg.output
    ensures "color0" !in reg.elements
    ensures old(reg.elements).Keys <= reg.elements.Keys
    ensures r.Ok? <==> "color0" in palette && "color1" in palette && "color7" in palette
    ensures r.Abort? ==> r.failure.MissingKey? && r.failure.key !in palette
  {
    reg.mark := reg.output;
    assert ColorNamed("cancelIconFg");
    var c1 :- PaletteGet(palette, "color1");
    reg.AddColor("boxTextFgError", c1, palette);
    var c2 :- PaletteGet(palette, "color7");
    reg.AddColor("boxTitleFg", Lighter(c2, 40), palette);
    var c3 :- PaletteGet(palette, "color0");
    reg.AddColor("boxSearchBg", c3, palette);
    var c4 := PaletteGet(palette, "color7").value;
    reg.AddColor("boxTitleAdditionalFg", Darker(c4, 40), palette);
    var c5 := reg.GetElement("cancelIconFg", palette);
    reg.AddColor("boxTitleCloseFg", c5.value, palette);
    r := Ok(());
  }

  /** The `Box` section, part 3: src/telegram_colors.rs lines 200-200. */
  method BoxSection3(reg: Registry, palette: Palette) returns (r: Result<()>)
    requires Sound(reg.elements, palette) && Closed(palette)
    requires "color0" !in reg.elements
    requires "cancelIconFgOver" in reg.elements
    modifies reg
    ensures Sound(reg.elements, palette) && reg.mark == old(reg.output) && old(reg.output) <= reg.output
    ensures "color0" !in reg.elements
    ensures old(reg.elements).Keys <= reg.elements.Keys
    ensures r.Ok?
  {
    reg.mark := reg.output;
    assert ColorNamed("cancelIconFgOver");
    var c1 := reg.GetElement("cancelIconFgOver", palette);
    reg.AddColor("boxTitleCloseFgOver", c1.value, palette);
    r := Ok(());
  }

  /** Lines 177-200 of src/telegram_colors.rs: the sections `Tray`, `Layer`, `Cancel`, `Box`. */
  method Derivation6(reg: Registry, palette: Palette) returns (r: Result<()>)
    requires Sound(reg.elements, palette) && Closed(palette)
    requires "color0" !in reg.elements
    requires "windowBg" in reg.elements && "windowFg" in reg.elements
    modifies reg
    ensures Sound(reg.elements, palette) && reg.mark == old(reg.output) && old(reg.output) <= reg.output
    ensures "color0" !in reg.elements
    ensures old(reg.elements).Keys <= reg.elements.Keys
    ensures r.Ok? ==> "boxTextFg" in reg.elements && "cancelIconFg" in reg.elements && "cancelIconFgOver" in reg.elements && "layerBg" in reg.elements
    ensures r.Ok? <==> "color0" in palette && "color1" in palette && "color2" in palette && "color7" in palette
    ensures r.Abort? ==> r.failure.MissingKey? && r.failure.key !in palette
  {
    var s: Result<()>;
    s := TraySection(reg, palette);
    reg.Rewind(old(reg.output));
    if s.Abort? { return s; }
    s := LayerSection(reg, palette);
    reg.Rewind(old(reg.output));
    s := CancelSection(reg, palette);
    reg.Rewind(old(reg.output));
    s := BoxSection1(reg, palette);
    reg.Rewind(old(reg.output));
    s := BoxSection2(reg, palette);
    reg.Rewind(old(reg.output));
    if s.Abort? { return s; }
    s := BoxSection3(reg, palette);
    reg.Rewind(old(reg.output));
    r := Ok(());
  }

  /** Lines 48-200 of src/telegram_colors.rs: in turn Derivation1, Derivation2, Derivation3, Derivation4, Derivation5, Derivation6. */
  method DerivationBlock1(reg: Registry, palette: Palette) returns (r: Result<()>)
    requires Sound(reg.elements, palette) && Closed(palette)
    requires "color0" !in reg.elements
    modifies reg
    ensures Sound(reg.elements, palette) && reg.mark == old(reg.output) && old(reg.output) <= reg.output
    ensures "color0" !in reg.elements
    ensures old(reg.elements).Keys <= reg.elements.Keys
    ensures r.Ok? ==> "activeButtonFg" in reg.elements && "boxTextFg" in reg.elements && "cancelIconFg" in reg.elements && "cancelIconFgOver" in reg.elements && "imageBg" in reg.elements && "layerBg" in reg.elements && "lightButtonFg" in reg.elements && "lightButtonFgOver" in reg.elements && "menuIconFg" in reg.elements && "menuIconFgOver" in reg.elements && "shadowFg" in reg.elements && "sliderBgInactive" in reg.elements && "windowActiveTextFg" in reg.elements && "windowBg" in reg.elements && "windowBgActive" in reg.elements && "windowBoldFgOver" in reg.elements && "windowFg" in reg.elements && "windowFgActive" in reg.elements && "windowSubTextFg" in reg.elements
    ensures r.Ok? <==> "color0" in palette && "color1" in palette && "color2" in palette && "color7" in palette && "color8" in palette && "color10" in palette && "color15" in palette
    ensures r.Abort? ==> r.failure.MissingKey? && r.failure.key !in palette
  {
    var s: Result<()>;
    s := Derivation1(reg, palette);
    reg.Rewind(old(reg.output));
    if s.Abort? { return s; }
    s := Derivation2(reg, palette);
    reg.Rewind(old(reg.output));
    s := Derivation3(reg, palette);
    reg.Rewind(old(reg.output));
    s := Derivation4(reg, palette);
    reg.Rewind(old(reg.output));
    s := Derivation5(reg, palette);
    reg.Rewind(old(reg.output));
    s := Derivation6(reg, palette);
    reg.Rewind(old(reg.output));
    r := Ok(());
  }

  /** The `Members` section: src/telegram_colors.rs lines 202-203. */
  method MembersSection(reg: Registry, palette: Palette) returns (r: Result<()>)
    requires Sound(reg.elements, palette) && Closed(palette)
    requires "color0" !in reg.elements
    modifies reg
    ensures Sound(reg.elements, palette) && reg.mark == old(reg.output) && old(reg.output) <= reg.output
    ensures "color0" !in reg.elements
    ensures old(reg.elements).Keys <= reg.elements.Keys
    ensures r.Ok? <==> "color1" in palette
    ensures r.Abort? ==> r.failure.MissingKey? && r.failure.key !in palette
  {
    reg.mark := reg.output;
    reg.AddComment("Members", palette);
    var c1 :- PaletteGet(palette, "color1");
    reg.AddColor("membersAboutLimitFg", c1, palette);
    r := Ok(());
  }

  /** The `Contacts` section, part 1: src/telegram_colors.rs lines 205-209. */
  method ContactsSection1(reg: Registry, palette: Palette) returns (r: Result<()>)
    requires Sound(reg.elements, palette) && Closed(palette)
    requires "color0" !in reg.elements
    requires "boxTextFg" in reg.elements
    modifies reg
    ensures Sound(reg.elements, palette) && reg.mark == old(reg.output) && old(reg.output) <= reg.output
    ensures "color0" !in reg.elements
    ensures old(reg.elements).Keys <= reg.elements.Keys
    ensures r.Ok? <==> "color0" in palette && "color7" in palette
    ensures r.Abort? ==> r.failure.MissingKey? && r.failure.key !in palette
  {
    reg.mark := reg.output;
    assert ColorNamed("boxTextFg");
    reg.AddComment("Contacts", palette);
    var c1 :- PaletteGet(palette, "color0");
    reg.AddColor("contactsBg", Lighter(c1, 40), palette);
    var c2 := PaletteGet(palette, "color0").value;
    reg.AddColor("contactsBgOver", c2, palette);
    var c3 := reg.GetElement("boxTextFg", palette);
    reg.AddColor("contactsNameFg", c3.value, palette);
    var c4 :- PaletteGet(palette, "color7");
    reg.AddColor("contactsStatusFg", Darker(c4, 40), palette);
    r := Ok(());
  }

  /** The `Contacts` section, part 2: src/telegram_colors.rs lines 210-211. */
  method ContactsSection2(reg: Registry, palette: Palette) returns (r: Result<()>)
    requires Sound(reg.elements, palette) && Closed(palette)
    requires "color0" !in reg.elements
    modifies reg
    ensures Sound(reg.elements, palette) && reg.mark == old(reg.output) && old(reg.output) <= reg.output
    ensures "color0" !in reg.elements
    ensures old(reg.elements).Keys <= reg.elements.Keys
    ensures r.Ok? <==> "color7" in palette && "color10" in palette
    ensures r.Abort? ==> r.failure.MissingKey? && r.failure.key !in palette
  {
    reg.mark := reg.output;
    var c1 :- PaletteGet(palette, "color7");
    reg.AddColor("contactsStatusFgOver", Darker(c1, 40), palette);
    var c2 :- PaletteGet(palette, "color10");
    reg.AddColor("contactsStatusFgOnline", c2, palette);
    r := Ok(());
  }

  /** The `Photo` section: src/telegram_colors.rs lines 213-215. */
  method PhotoSection(reg: Registry, palette: Palette) returns (r: Result<()>)
    requires Sound(reg.elements, palette) && Closed(palette)
    requires "color0" !in reg.elements
    requires "layerBg" in reg.elements
    modifies reg
    ensures Sound(reg.elements, palette) && reg.mark == old(reg.output) && old(reg.output) <= reg.output
    ensures "color0" !in reg.elements
    ensures old(reg.elements).Keys <= reg.elements.Keys
    ensures r.Ok? <==> "color7" in palette
    ensures r.Abort? ==> r.failure.MissingKey? && r.failure.key !in palette
  {
    reg.mark := reg.output;
    assert ColorNamed("layerBg");
    reg.AddComment("Photo", palette);
    var c1 := reg.GetElement("layerBg", palette);
    reg.AddColor("photoCropFadeBg", c1.value, palette);
    var c2 :- PaletteGet(palette, "color7");
    reg.AddColor("photoCropPointFg", Alpha(c2, 45), palette);
    r := Ok(());
  }

  /** The `Call` section: src/telegram_colors.rs lines 217-219. */
  method CallSection(reg: Registry, palette: Palette) returns (r: Result<()>)
    requires Sound(reg.elements, palette) && Closed(palette)
    requires "color0" !in reg.elements
    modifies reg
    ensures Sound(reg.elements, palette) && reg.mark == old(reg.output) && old(reg.output) <= reg.output
    ensures "color0" !in reg.elements
    ensures old(reg.elements).Keys <= reg.elements.Keys
    ensures r.Ok? ==> "callArrowMissedFg" in reg.elements
    ensures r.Ok? <==> "color1" in palette && "color2" in palette
    ensures r.Abort? ==> r.failure.MissingKey? && r.failure.key !in palette
  {
    reg.mark := reg.output;
    reg.AddComment("Call", palette);
    var c1 :- PaletteGet(palette, "color2");
    reg.AddColor("callArrowFg", c1, palette);
    var c2 :- PaletteGet(palette, "color1");
    reg.AddColor("callArrowMissedFg", c2, palette);
    r := Ok(());
  }

  /** The `Intro` section, part 1: src/telegram_colors.rs lines 221-225. */
  method IntroSection1(reg: Registry, palette: Palette) returns (r: Result<()>)
    requires Sound(reg.elements, palette) && Closed(palette)
    requires "color0" !in reg.elements
    requires "windowBg" in reg.elements
    modifies reg
    ensures Sound(reg.elements, palette) && reg.mark == old(reg.output) && old(reg.output) <= reg.output
    ensures "color0" !in reg.elements
    ensures old(reg.elements).Keys <= reg.elements.Keys
    ensures r.Ok? <==> "color1" in palette && "color7" in palette
    ensures r.Abort? ==> r.failure.MissingKey? && r.failure.key !in palette
  {
    reg.mark := reg.output;
    assert ColorNamed("windowBg");
    reg.AddComment("Intro", palette);
    var c1 := reg.GetElement("windowBg", palette);
    reg.AddColor("introBg", c1.value, palette);
    var c2 :- PaletteGet(palette, "color7");
    reg.AddColor("introTitleFg", Lighter(c2, 40), palette);
    var c3 := PaletteGet(palette, "color7").value;
    reg.AddColor("introDescriptionFg", c3, palette);
    var c4 :- PaletteGet(palette, "color1");
    reg.AddColor("introErrorFg", c4, palette);
    r := Ok(());
  }

  /** Lines 202-225 of src/telegram_colors.rs: the sections `Members`, `Contacts`, `Photo`, `Call`, `Intro`. */
  method Derivation7(reg: Registry, palette: Palette) returns (r: Result<()>)
    requires Sound(reg.elements, palette) && Closed(palette)
    requires "color0" !in reg.elements
    requires "boxTextFg" in reg.elements && "layerBg" in reg.elements && "windowBg" in reg.elements
    modifies reg
    ensures Sound(reg.elements, palette) && reg.mark == old(reg.output) && old(reg.output) <= reg.output
    ensures "color0" !in reg.elements
    ensures old(reg.elements).Keys <= reg.elements.Keys
    ensures r.Ok? ==> "callArrowMissedFg" in reg.elements
    ensures r.Ok? <==> "color0" in palette && "color1" in palette && "color2" in palette && "color7" in palette && "color10" in palette
    ensures r.Abort? ==> r.failure.MissingKey? && r.failure.key !in palette
  {
    var s: Result<()>;
    s := MembersSection(reg, palette);
    reg.Rewind(old(reg.output));
    if s.Abort? { return s; }
    s := ContactsSection1(reg, palette);
    reg.Rewind(old(reg.output));
    if s.Abort? { return s; }
    s := ContactsSection2(reg, palette);
    reg.Rewind(old(reg.output));
    if s.Abort? { return s; }
    s := PhotoSection(reg, palette);
    reg.Rewind(old(reg.output));
    s := CallSection(reg, palette);
    reg.Rewind(old(reg.output));
    if s.Abort? { return s; }
    s := IntroSection1(reg, palette);
    reg.Rewind(old(reg.output));
    r := Ok(());
  }

  /** The `Intro` section, part 2: src/telegram_colors.rs lines 226-231. */
  method IntroSection2(reg: Registry, palette: Palette) returns (r: Result<()>)
    requires Sound(reg.elements, palette) && Closed(palette)
    requires "color0" !in reg.elements
    modifies reg
    ensures Sound(reg.elements, palette) && reg.mark == old(reg.output) && old(reg.output) <= reg.output
    ensures "color0" !in reg.elements
    ensures old(reg.elements).Keys <= reg.elements.Keys
    ensures r.Ok? <==> "color1" in palette && "color2" in palette
    ensures r.Abort? ==> r.failure.MissingKey? && r.failure.key !in palette
  {
    reg.mark := reg.output;
    var c1 :- PaletteGet(palette, "color2");
    reg.AddColor("introCoverTopBg", c1, palette);
    var c2 := PaletteGet(palette, "color2").value;
    reg.AddColor("introCoverBottomBg", c2, palette);
    var c3 := PaletteGet(palette, "color2").value;
    reg.AddColor("introCoverIconsFg", Lighter(c3, 40), palette);
    var c4 := PaletteGet(palette, "color2").value;
    reg.AddColor("introCoverPlaneTrace", Lighter(c4, 40), palette);
    var c5 :- PaletteGet(palette, "color1");
    reg.AddColor("introCoverPlaneInner", Lighter(c5, 40), palette);
    var c6 := PaletteGet(palette, "color1").value;
    reg.AddColor("introCoverPlaneOuter", c6, palette);
    r := Ok(());
  }

  /** The `Intro` section, part 3: src/telegram_colors.rs lines 232-232. */
  method IntroSection3(reg: Registry, palette: Palette) returns (r: Result<()>)
    requires Sound(reg.elements, palette) && Closed(palette)
    requires "color0" !in reg.elements
    modifies reg
    ensures Sound(reg.elements, palette) && reg.mark == old(reg.output) && old(reg.output) <= reg.output
    ensures "color0" !in reg.elements
    ensures old(reg.elements).Keys <= reg.elements.Keys
    ensures r.Ok? <==> "color7" in palette
    ensures r.Abort? ==> r.failure.MissingKey? && r.failure.key !in palette
  {
    reg.mark := reg.output;
    var c1 :- PaletteGet(palette, "color7");
    reg.AddColor("introCoverPlaneTop", Lighter(c1, 40), palette);
    r := Ok(());
  }

  /** The `Dialogs default` section, part 1: src/telegram_colors.rs lines 234-236. */
  method DialogsDefaultSection1(reg: Registry, palette: Palette) returns (r: Result<()>)
    requires Sound(reg.elements, palette) && Closed(palette)
    requires "color0" !in reg.elements
    requires "menuIconFg" in reg.elements && "menuIconFgOver" in reg.elements
    modifies reg
    ensures Sound(reg.elements, palette) && reg.mark == old(reg.output) && old(reg.output) <= reg.output
    ensures "color0" !in reg.elements
    ensures old(reg.elements).Keys <= reg.elements.Keys
    ensures r.Ok?
  {
    reg.mark := reg.output;
    assert ColorNamed("menuIconFg");
    assert ColorNamed("menuIconFgOver");
    reg.AddComment("Dialogs default", palette);
    var c1 := reg.GetElement("menuIconFg", palette);
    reg.AddColor("dialogsMenuIconFg", c1.value, palette);
    var c2 := reg.GetElement("menuIconFgOver", palette);
    reg.AddColor("dialogsMenuIconFgOver", c2.value, palette);
    r := Ok(());
  }

  /** The `Dialogs default` section, part 2: src/telegram_colors.rs lines 237-240. */
  method DialogsDefaultSection2(reg: Registry, palette: Palette) returns (r: Result<()>)
    requires Sound(reg.elements, palette) && Closed(palette)
    requires "color0" !in reg.elements
    requires "windowBg" in reg.elements
    modifies reg
    ensures Sound(reg.elements, palette) && reg.mark == old(reg.output) && old(reg.output) <= reg.output
    ensures "color0" !in reg.elements
    ensures old(reg.elements).Keys <= reg.elements.Keys
    ensures r.Ok? <==> "color7" in palette
    ensures r.Abort? ==> r.failure.MissingKey? && r.failure.key !in palette
  {
    reg.mark := reg.output;
    assert ColorNamed("windowBg");
    assert ColorNamed("dialogsNameFg");
    var c1 := reg.GetElement("windowBg", palette);
    reg.AddColor("dialogsBg", c1.value, palette);
    var c2 :- PaletteGet(palette, "color7");
    reg.AddColor("dialogsNameFg", Lighter(c2, 40), palette);
    var c3 := reg.GetElement("dialogsNameFg", palette);
    reg.AddColor("dialogsChatIconFg", c3.value, palette);
    var c4 := PaletteGet(palette, "color7").value;
    reg.AddColor("dialogsDateFg", Darker(c4, 40), palette);
    r := Ok(());
  }

  /** The `Dialogs default` section, part 3: src/telegram_colors.rs lines 241-246. */
  method DialogsDefaultSection3(reg: Registry, palette: Palette) returns (r: Result<()>)
    requires Sound(reg.elements, palette) && Closed(palette)
    requires "color0" !in reg.elements
    modifies reg
    ensures Sound(reg.elements, palette) && reg.mark == old(reg.output) && old(reg.output) <= reg.output
    ensures "color0" !in reg.elements
    ensures old(reg.elements).Keys <= reg.elements.Keys
    ensures r.Ok? ==> "dialogsDraftFg" in reg.elements && "dialogsSendingIconFg" in reg.elements
    ensures r.Ok? <==> "color0" in palette && "color1" in palette && "color7" in palette && "color10" in palette
    ensures r.Abort? ==> r.failure.MissingKey? && r.failure.key !in palette
  {
    reg.mark := reg.output;
    var c1 :- PaletteGet(palette, "color7");
    reg.AddColor("dialogsTextFg", c1, palette);
    var c2 := PaletteGet(palette, "color7").value;
    reg.AddColor("dialogsTextFgService", c2, palette);
    var c3 :- PaletteGet(palette, "color1");
    reg.AddColor("dialogsDraftFg", c3, palette);
    var c4 :- PaletteGet(palette, "color10");
    reg.AddColor("dialogsVerifiedIconBg", c4, palette);
    var c5 :- PaletteGet(palette, "color0");
    reg.AddColor("dialogsVerifiedIconFg", c5, palette);
    var c6 := PaletteGet(palette, "color10").value;
    reg.AddColor("dialogsSendingIconFg", c6, palette);
    r := Ok(());
  }

  /** The `Dialogs default` section, part 4: src/telegram_colors.rs lines 247-250. */
  method DialogsDefaultSection4(reg: Registry, palette: Palette) returns (r: Result<()>)
    requires Sound(reg.elements, palette) && Closed(palette)
    requires "color0" !in reg.elements
    modifies reg
    ensures Sound(reg.elements, palette) && reg.mark == old(reg.output) && old(reg.output) <= reg.output
    ensures "color0" !in reg.elements
    ensures old(reg.elements).Keys <= reg.elements.Keys
    ensures r.Ok? ==> "dialogsUnreadFg" in reg.elements
    ensures r.Ok? <==> "color1" in palette && "color7" in palette && "color10" in palette
    ensures r.Abort? ==> r.failure.MissingKey? && r.failure.key !in palette
  {
    reg.mark := reg.output;
    var c1 :- PaletteGet(palette, "color10");
    reg.AddColor("dialogsSentIconFg", c1, palette);
    var c2 :- PaletteGet(palette, "color1");
    reg.AddColor("dialogsUnreadBg", c2, palette);
    var c3 :- PaletteGet(palette, "color7");
    reg.AddColor("dialogsUnreadBgMuted", Darker(c3, 40), palette);
    var c4 := PaletteGet(palette, "color7").value;
    reg.AddColor("dialogsUnreadFg", Lighter(c4, 40), palette);
    r := Ok(());
  }

  /** Lines 226-250 of src/telegram_colors.rs: the sections `Intro`, `Dialogs default`. */
  method Derivation8(reg: Registry, palette: Palette) returns (r: Result<()>)
    requires Sound(reg.elements, palette) && Closed(palette)
    requires "color0" !in reg.elements
    requires "menuIconFg" in reg.elements && "menuIconFgOver" in reg.elements && "windowBg" in reg.elements
    modifies reg
    ensures Sound(reg.elements, palette) && reg.mark == old(reg.output) && old(reg.output) <= reg.output
    ensures "color0" !in reg.elements
    ensures old(reg.elements).Keys <= reg.elements.Keys
    ensures r.Ok? ==> "dialogsDraftFg" in reg.elements && "dialogsSendingIconFg" in reg.elements && "dialogsUnreadFg" in reg.elements
    ensures r.Ok? <==> "color0" in palette && "color1" in palette && "color2" in palette && "color7" in palette && "color10" in palette
    ensures r.Abort? ==> r.failure.MissingKey? && r.failure.key !in palette
  {
    var s: Result<()>;
    s := IntroSection2(reg, palette);
    reg.Rewind(old(reg.output));
    if s.Abort? { return s; }
    s := IntroSection3(reg, palette);
    reg.Rewind(old(reg.output));
    if s.Abort? { return s; }
    s := DialogsDefaultSection1(reg, palette);
    reg.Rewind(old(reg.output));
    s := DialogsDefaultSection2(reg, palette);
    reg.Rewind(old(reg.output));
    s := DialogsDefaultSection3(reg, palette);
    reg.Rewind(old(reg.output));
    if s.Abort? { return s; }
    s := DialogsDefaultSection4(reg, palette);
    reg.Rewind(old(reg.output));
    r := Ok(());
  }

  /** The `Dialogs over` section, part 1: src/telegram_colors.rs lines 252-255. */
  method DialogsOverSection1(reg: Registry, palette: Palette) returns (r: Result<()>)
    requires Sound(reg.elements, palette) && Closed(palette)
    requires "color0" !in reg.elements
    requires "windowBoldFgOver" in reg.elements
    modifies reg
    ensures Sound(reg.elements, palette) && reg.mark == old(reg.output) && old(reg.output) <= reg.output
    ensures "color0" !in reg.elements
    ensures old(reg.elements).Keys <= reg.elements.Keys
    ensures r.Ok? <==> "color2" in palette
    ensures r.Abort? ==> r.failure.MissingKey? && r.failure.key !in palette
  {
    reg.mark := reg.output;
    assert ColorNamed("windowBoldFgOver");
    assert ColorNamed("dialogsNameFgOver");
    reg.AddComment("Dialogs over", palette);
    var c1 :- PaletteGet(palette, "color2");
    reg.AddColor("dialogsBgOver", Darker(c1, 50), palette);
    var c2 := reg.GetElement("windowBoldFgOver", palette);
    reg.AddColor("dialogsNameFgOver", c2.value, palette);
    var c3 := reg.GetElement("dialogsNameFgOver", palette);
    reg.AddColor("dialogsChatIconFgOver", c3.value, palette);
    r := Ok(());
  }

  /** The `Dialogs over` section, part 2: src/telegram_colors.rs lines 256-260. */
  method DialogsOverSection2(reg: Registry, palette: Palette) returns (r: Result<()>)
    requires Sound(reg.elements, palette) && Closed(palette)
    requires "color0" !in reg.elements
    requires "dialogsDraftFg" in reg.elements
    modifies reg
    ensures Sound(reg.elements, palette) && reg.mark == old(reg.output) && old(reg.output) <= reg.output
    ensures "color0" !in reg.elements
    ensures old(reg.elements).Keys <= reg.elements.Keys
    ensures r.Ok? <==> "color2" in palette && "color7" in palette
    ensures r.Abort? ==> r.failure.MissingKey? && r.failure.key !in palette
  {
    reg.mark := reg.output;
    assert ColorNamed("dialogsDraftFg");
    var c1 :- PaletteGet(palette, "color7");
    reg.AddColor("dialogsDateFgOver", Darker(c1, 40), palette);
    var c2 := PaletteGet(palette, "color7").value;
    reg.AddColor("dialogsTextFgOver", c2, palette);
    var c3 := PaletteGet(palette, "color7").value;
    reg.AddColor("dialogsTextFgServiceOver", c3, palette);
    var c4 := reg.GetElement("dialogsDraftFg", palette);
    reg.AddColor("dialogsDraftFgOver", c4.value, palette);
    var c5 :- PaletteGet(palette, "color2");
    reg.AddColor("dialogsVerifiedIconBgOver", c5, palette);
    r := Ok(());
  }

  /** The `Dialogs over` section, part 3: src/telegram_colors.rs lines 261-265. */
  method DialogsOverSection3(reg: Registry, palette: Palette) returns (r: Result<()>)
    requires Sound(reg.elements, palette) && Closed(palette)
    requires "color0" !in reg.elements
    requires "dialogsSendingIconFg" in reg.elements
    modifies reg
    ensures Sound(reg.elements, palette) && reg.mark == old(reg.output) && old(reg.output) <= reg.output
    ensures "color0" !in reg.elements
    ensures old(reg.elements).Keys <= reg.elements.Keys
    ensures r.Ok? <==> "color0" in palette && "color1" in palette && "color7" in palette && "color10" in palette
    ensures r.Abort? ==> r.failure.MissingKey? && r.failure.key !in palette
  {
    reg.mark := reg.output;
    assert ColorNamed("dialogsSendingIconFg");
    var c1 :- PaletteGet(palette, "color0");
    reg.AddColor("dialogsVerifiedIconFgOver", c1, palette);
    var c2 := reg.GetElement("dialogsSendingIconFg", palette);
    reg.AddColor("dialogsSendingIconFgOver", c2.value, palette);
    var c3 :- PaletteGet(palette, "color10");
    reg.AddColor("dialogsSentIconFgOver", c3, palette);
    var c4 :- PaletteGet(palette, "color1");
    reg.AddColor("dialogsUnreadBgOver", Darker(c4, 40), palette);
    var c5 :- PaletteGet(palette, "color7");
    reg.AddColor("dialogsUnreadBgMutedOver", Darker(c5, 40), palette);
    r := Ok(());
  }

  /** The `Dialogs over` section, part 4: src/telegram_colors.rs lines 266-266. */
  method DialogsOverSection4(reg: Registry, palette: Palette) returns (r: Result<()>)
    requires Sound(reg.elements, palette) && Closed(palette)
    requires "color0" !in reg.elements
    requires "dialogsUnreadFg" in reg.elements
    modifies reg
    ensures Sound(reg.elements, palette) && reg.mark == old(reg.output) && old(reg.output) <= reg.output
    ensures "color0" !in reg.elements
    ensures old(reg.elements).Keys <= reg.elements.Keys
    ensures r.Ok?
  {
    reg.mark := reg.output;
    assert ColorNamed("dialogsUnreadFg");
    var c1 := reg.GetElement("dialogsUnreadFg", palette);
    reg.AddColor("dialogsUnreadFgOver", c1.value, palette);
    r := Ok(());
  }

  /** The `Dialogs active` section, part 1: src/telegram_colors.rs lines 268-271. */
  method DialogsActiveSection1(reg: Registry, palette: Palette) returns (r: Result<()>)
    requires Sound(reg.elements, palette) && Closed(palette)
    requires "color0" !in reg.elements
    requires "windowBoldFgOver" in reg.elements
    modifies reg
    ensures Sound(reg.elements, palette) && reg.mark == old(reg.output) && old(reg.output) <= reg.output
    ensures "color0" !in reg.elements
    ensures old(reg.elements).Keys <= reg.elements.Keys
    ensures r.Ok? ==> "dialogsBgActive" in reg.elements && "dialogsNameFgActive" in reg.elements
    ensures r.Ok? <==> "color2" in palette
    ensures r.Abort? ==> r.failure.MissingKey? && r.failure.key !in palette
  {
    reg.mark := reg.output;
    assert ColorNamed("windowBoldFgOver");
    assert ColorNamed("dialogsNameFgActive");
    reg.AddComment("Dialogs active", palette);
    var c1 :- PaletteGet(palette, "color2");
    reg.AddColor("dialogsBgActive", c1, palette);
    var c2 := reg.GetElement("windowBoldFgOver", palette);
    reg.AddColor("dialogsNameFgActive", c2.value, palette);
    var c3 := reg.GetElement("dialogsNameFgActive", palette);
    reg.AddColor("dialogsChatIconFgActive", c3.value, palette);
    r := Ok(());
  }

  /** The `Dialogs active` section, part 2: src/telegram_colors.rs lines 272-276. */
  method DialogsActiveSection2(reg: Registry, palette: Palette) returns (r: Result<()>)
    requires Sound(reg.elements, palette) && Closed(palette)
    requires "color0" !in reg.elements
    modifies reg
    ensures Sound(reg.elements, palette) && reg.mark == old(reg.output) && old(reg.output) <= reg.output
    ensures "color0" !in reg.elements
    ensures old(reg.elements).Keys <= reg.elements.Keys
    ensures r.Ok? ==> "dialogsTextFgActive" in reg.elements
    ensures r.Ok? <==> "color7" in palette
    ensures r.Abort? ==> r.failure.MissingKey? && r.failure.key !in palette
  {
    reg.mark := reg.output;
    assert ColorNamed("dialogsTextFgActive");
    var c1 :- PaletteGet(palette, "color7");
    reg.AddColor("dialogsDateFgActive", Lighter(c1, 40), palette);
    var c2 := PaletteGet(palette, "color7").value;
    reg.AddColor("dialogsTextFgActive", Lighter(c2, 40), palette);
    var c3 := PaletteGet(palette, "color7").value;
    reg.AddColor("dialogsTextFgServiceActive", Lighter(c3, 40), palette);
    var c4 := PaletteGet(palette, "color7").value;
    reg.AddColor("dialogsDraftFgActive", Lighter(c4, 40), palette);
    var c5 := reg.GetElement("dialogsTextFgActive", palette);
    reg.AddColor("dialogsVerifiedIconBgActive", c5.value, palette);
    r := Ok(());
  }

  /** Lines 252-276 of src/telegram_colors.rs: the sections `Dialogs over`, `Dialogs active`. */
  method Derivation9(reg: Registry, palette: Palette) returns (r: Result<()>)
    requires Sound(reg.elements, palette) && Closed(palette)
    requires "color0" !in reg.elements
    requires "dialogsDraftFg" in reg.elements && "dialogsSendingIconFg" in reg.elements && "dialogsUnreadFg" in reg.elements && "windowBoldFgOver" in reg.elements
    modifies reg
    ensures Sound(reg.elements, palette) && reg.mark == old(reg.output) && old(reg.output) <= reg.output
    ensures "color0" !in reg.elements
    ensures old(reg.elements).Keys <= reg.elements.Keys
    ensures r.Ok? ==> "dialogsBgActive" in reg.elements && "dialogsNameFgActive" in reg.elements && "dialogsTextFgActive" in reg.elements
    ensures r.Ok? <==> "color0" in palette && "color1" in palette && "color2" in palette && "color7" in palette && "color10" in palette
    ensures r.Abort? ==> r.failure.MissingKey? && r.failure.key !in palette
  {
    var s: Result<()>;
    s := DialogsOverSection1(reg, palette);
    reg.Rewind(old(reg.output));
    if s.Abort? { return s; }
    s := DialogsOverSection2(reg, palette);
    reg.Rewind(old(reg.output));
    if s.Abort? { return s; }
    s := DialogsOverSection3(reg, palette);
    reg.Rewind(old(reg.output));
    if s.Abort? { return s; }
    s := DialogsOverSection4(reg, palette);
    reg.Rewind(old(reg.output));
    s := DialogsActiveSection1(reg, palette);
    reg.Rewind(old(reg.output));
    s := DialogsActiveSection2(reg, palette);
    reg.Rewind(old(reg.output));
    r := Ok(());
  }

  /** The `Dialogs active` section, part 3: src/telegram_colors.rs lines 277-279. */
  method DialogsActiveSection3(reg: Registry, palette: Palette) returns (r: Result<()>)
    requires Sound(reg.elements, palette) && Closed(palette)
    requires "color0" !in reg.elements
    requires "dialogsBgActive" in reg.elements && "dialogsTextFgActive" in reg.elements
    modifies reg
    ensures Sound(reg.elements, palette) && reg.mark == old(reg.output) && old(reg.output) <= reg.output
    ensures "color0" !in reg.elements
    ensures old(reg.elements).Keys <= reg.elements.Keys
    ensures r.Ok? <==> "color7" in palette
    ensures r.Abort? ==> r.failure.MissingKey? && r.failure.key !in palette
  {
    reg.mark := reg.output;
    assert ColorNamed("dialogsBgActive");
    assert ColorNamed("dialogsTextFgActive");
    var c1 := reg.GetElement("dialogsBgActive", palette);
    reg.AddColor("dialogsVerifiedIconFgActive", c1.value, palette);
    var c2 :- PaletteGet(palette, "color7");
    reg.AddColor("dialogsSendingIconFgActive", Lighter(c2, 40), palette);
    var c3 := reg.GetElement("dialogsTextFgActive", palette);
    reg.AddColor("dialogsSentIconFgActive", c3.value, palette);
    r := Ok(());
  }

  /** The `Dialogs active` section, part 4: src/telegram_colors.rs lines 280-282. */
  method DialogsActiveSection4(reg: Registry, palette: Palette) returns (r: Result<()>)
    requires Sound(reg.elements, palette) && Closed(palette)
    requires "color0" !in reg.elements
    requires "dialogsTextFgActive" in reg.elements
    modifies reg
    ensures Sound(reg.elements, palette) && reg.mark == old(reg.output) && old(reg.output) <= reg.output
    ensures "color0" !in reg.elements
    ensures old(reg.elements).Keys <= reg.elements.Keys
    ensures r.Ok? <==> "color7" in palette
    ensures r.Abort? ==> r.failure.MissingKey? && r.failure.key !in palette
  {
    reg.mark := reg.output;
    assert ColorNamed("dialogsTextFgActive");
    var c1 := reg.GetElement("dialogsTextFgActive", palette);
    reg.AddColor("dialogsUnreadBgActive", c1.value, palette);
    var c2 :- PaletteGet(palette, "color7");
    reg.AddColor("dialogsUnreadBgMutedActive", Lighter(c2, 40), palette);
    var c3 := PaletteGet(palette, "color7").value;
    reg.AddColor("dialogsUnreadFgActive", Lighter(c3, 40), palette);
    r := Ok(());
  }

  /** The `Dialogs ripple` section: src/telegram_colors.rs lines 284-286. */
  method DialogsRippleSection(reg: Registry, palette: Palette) returns (r: Result<()>)
    requires Sound(reg.elements, palette) && Closed(palette)
    requires "color0" !in reg.elements
    modifies reg
    ensures Sound(reg.elements, palette) && reg.mark == old(reg.output) && old(reg.output) <= reg.output
    ensures "color0" !in reg.elements
    ensures old(reg.elements).Keys <= reg.elements.Keys
    ensures r.Ok? ==> "dialogsRippleBgActive" in reg.elements
    ensures r.Ok? <==> "color0" in palette && "color2" in palette
    ensures r.Abort? ==> r.failure.MissingKey? && r.failure.key !in palette
  {
    reg.mark := reg.output;
    reg.AddComment("Dialogs ripple", palette);
    var c1 :- PaletteGet(palette, "color0");
    reg.AddColor("dialogsRippleBg", Lighter(c1, 60), palette);
    var c2 :- PaletteGet(palette, "color2");
    reg.AddColor("dialogsRippleBgActive", Lighter(c2, 40), palette);
    r := Ok(());
  }

  /** The `Dialogs forward` section: src/telegram_colors.rs lines 288-290. */
  method DialogsForwardSection(reg: Registry, palette: Palette) returns (r: Result<()>)
    requires Sound(reg.elements, palette) && Closed(palette)
    requires "color0" !in reg.elements
    requires "dialogsBgActive" in reg.elements && "dialogsNameFgActive" in reg.elements
    modifies reg
    ensures Sound(reg.elements, palette) && reg.mark == old(reg.output) && old(reg.output) <= reg.output
    ensures "color0" !in reg.elements
    ensures old(reg.elements).Keys <= reg.elements.Keys
    ensures r.Ok?
  {
    reg.mark := reg.output;
    assert ColorNamed("dialogsBgActive");
    assert ColorNamed("dialogsNameFgActive");
    reg.AddComment("Dialogs forward", palette);
    var c1 := reg.GetElement("dialogsBgActive", palette);
    reg.AddColor("dialogsForwardBg", c1.value, palette);
    var c2 := reg.GetElement("dialogsNameFgActive", palette);
    reg.AddColor("dialogsForwardFg", c2.value, palette);
    r := Ok(());
  }

  /** The `Searched` section: src/telegram_colors.rs lines 292-294. */
  method SearchedSection(reg: Registry, palette: Palette) returns (r: Result<()>)
    requires Sound(reg.elements, palette) && Closed(palette)
    requires "color0" !in reg.elements
    modifies reg
    ensures Sound(reg.elements, palette) && reg.mark == old(reg.output) && old(reg.output) <= reg.output
    ensures "color0" !in reg.elements
    ensures old(reg.elements).Keys <= reg.elements.Keys
    ensures r.Ok? <==> "color0" in palette && "color7" in palette
    ensures r.Abort? ==> r.failure.MissingKey? && r.failure.key !in palette
  {
    reg.mark := reg.output;
    reg.AddComment("Searched", palette);
    var c1 :- PaletteGet(palette, "color0");
    reg.AddColor("searchedBarBg", Lighter(c1, 40), palette);
    var c2 :- PaletteGet(palette, "color7");
    reg.AddColor("searchedBarFg", c2, palette);
    r := Ok(());
  }

  /** The `Top` section: src/telegram_colors.rs lines 296-297. */
  method TopSection(reg: Registry, palette: Palette) returns (r: Result<()>)
    requires Sound(reg.elements, palette) && Closed(palette)
    requires "color0" !in reg.elements
    modifies reg
    ensures Sound(reg.elements, palette) && reg.mark == old(reg.output) && old(reg.output) <= reg.output
    ensures "color0" !in reg.elements
    ensures old(reg.elements).Keys <= reg.elements.Keys
    ensures r.Ok? <==> "color0" in palette
    ensures r.Abort? ==> r.failure.MissingKey? && r.failure.key !in palette
  {
    reg.mark := reg.output;
    reg.AddComment("Top", palette);
    var c1 :- PaletteGet(palette, "color0");
    reg.AddColor("topBarBg", c1, palette);
    r := Ok(());
  }

  /** Lines 277-297 of src/telegram_colors.rs: the sections `Dialogs active`, `Dialogs ripple`, `Dialogs forward`, `Searched`, `Top`. */
  method Derivation10(reg: Registry, palette: Palette) returns (r: Result<()>)
    requires Sound(reg.elements, palette) && Closed(palette)
    requires "color0" !in reg.elements
    requires "dialogsBgActive" in reg.elements && "dialogsNameFgActive" in reg.elements && "dialogsTextFgActive" in reg.elements
    modifies reg
    ensures Sound(reg.elements, palette) && reg.mark == old(reg.output) && old(reg.output) <= reg.output
    ensures "color0" !in reg.elements
    ensures old(reg.elements).Keys <= reg.elements.Keys
    ensures r.Ok? ==> "dialogsRippleBgActive" in reg.elements
    ensures r.Ok? <==> "color0" in palette && "color2" in palette && "color7" in palette
    ensures r.Abort? ==> r.failure.MissingKey? && r.failure.key !in palette
  {
    var s: Result<()>;
    s := DialogsActiveSection3(reg, palette);
    reg.Rewind(old(reg.output));
    if s.Abort? { return s; }
    s := DialogsActiveSection4(reg, palette);
    reg.Rewind(old(reg.output));
    s := DialogsRippleSection(reg, palette);
    reg.Rewind(old(reg.output));
    if s.Abort? { return s; }
    s := DialogsForwardSection(reg, palette);
    reg.Rewind(old(reg.output));
    s := SearchedSection(reg, palette);
    reg.Rewind(old(reg.output));
    s := TopSection(reg, palette);
    reg.Rewind(old(reg.output));
    r := Ok(());
  }

  /** The `Emoji` section, part 1: src/telegram_colors.rs lines 299-303. */
  method EmojiSection1(reg: Registry, palette: Palette) returns (r: Result<()>)
    requires Sound(reg.elements, palette) && Closed(palette)
    requires "color0" !in reg.elements
    requires "windowBg" in reg.elements
    modifies reg
    ensures Sound(reg.elements, palette) && reg.mark == old(reg.output) && old(reg.output) <= reg.output
    ensures "color0" !in reg.elements
    ensures old(reg.elements).Keys <= reg.elements.Keys
    ensures r.Ok? <==> "color0" in palette && "color7" in palette
    ensures r.Abort? ==> r.failure.MissingKey? && r.failure.key !in palette
  {
    reg.mark := reg.output;
    assert ColorNamed("windowBg");
    reg.AddComment("Emoji", palette);
    var c1 := reg.GetElement("windowBg", palette);
    reg.AddColor("emojiPanBg", c1.value, palette);
    var c2 :- PaletteGet(palette, "color0");
    reg.AddColor("emojiPanCategories", c2, palette);
    var c3 :- PaletteGet(palette, "color7");
    reg.AddColor("emojiPanHeaderFg", c3, palette);
    var c4 := PaletteGet(palette, "color0").value;
    reg.AddColor("emojiPanHeaderBg", c4, palette);
    r := Ok(());
  }

  /** The `Emoji` section, part 2: src/telegram_colors.rs lines 304-305. */
  method EmojiSection2(reg: Registry, palette: Palette) returns (r: Result<()>)
    requires Sound(reg.elements, palette) && Closed(palette)
    requires "color0" !in reg.elements
    modifies reg
    ensures Sound(reg.elements, palette) && reg.mark == old(reg.output) && old(reg.output) <= reg.output
    ensures "color0" !in reg.elements
    ensures old(reg.elements).Keys <= reg.elements.Keys
    ensures r.Ok? <==> "color2" in palette && "color7" in palette
    ensures r.Abort? ==> r.failure.MissingKey? && r.failure.key !in palette
  {
    reg.mark := reg.output;
    var c1 :- PaletteGet(palette, "color7");
    reg.AddColor("emojiIconFg", c1, palette);
    var c2 :- PaletteGet(palette, "color2");
    reg.AddColor("emojiIconFgActive", c2, palette);
    r := Ok(());
  }

  /** The `Sticker` section: src/telegram_colors.rs lines 307-310. */
  method StickerSection(reg: Registry, palette: Palette) returns (r: Result<()>)
    requires Sound(reg.elements, palette) && Closed(palette)
    requires "color0" !in reg.elements
    requires "windowFgActive" in reg.elements
    modifies reg
    ensures Sound(reg.elements, palette) && reg.mark == old(reg.output) && old(reg.output) <= reg.output
    ensures "color0" !in reg.elements
    ensures old(reg.elements).Keys <= reg.elements.Keys
    ensures r.Ok? <==> "color0" in palette
    ensures r.Abort? ==> r.failure.MissingKey? && r.failure.key !in palette
  {
    reg.mark := reg.output;
    assert ColorNamed("windowFgActive");
    reg.AddComment("Sticker", palette);
    var c1 :- PaletteGet(palette, "color0");
    reg.AddColor("stickerPanDeleteBg", Alpha(c1, 75), palette);
    var c2 := reg.GetElement("windowFgActive", palette);
    reg.AddColor("stickerPanDeleteFg", c2.value, palette);
    var c3 := PaletteGet(palette, "color0").value;
    reg.AddColor("stickerPreviewBg", Alpha(c3, 65), palette);
    r := Ok(());
  }

  /** The `History` section, part 1: src/telegram_colors.rs lines 312-316. */
  method HistorySection1(reg: Registry, palette: Palette) returns (r: Result<()>)
    requires Sound(reg.elements, palette) && Closed(palette)
    requires "color0" !in reg.elements
    requires "windowFg" in reg.elements
    modifies reg
    ensures Sound(reg.elements, palette) && reg.mark == old(reg.output) && old(reg.output) <= reg.output
    ensures "color0" !in reg.elements
    ensures old(reg.elements).Keys <= reg.elements.Keys
    ensures r.Ok? ==> "historyTextInFg" in reg.elements && "historyTextOutFg" in reg.elements
    ensures r.Ok? <==> "color7" in palette
    ensures r.Abort? ==> r.failure.MissingKey? && r.failure.key !in palette
  {
    reg.mark := reg.output;
    assert ColorNamed("windowFg");
    reg.AddComment("History", palette);
    var c1 := reg.GetElement("windowFg", palette);
    reg.AddColor("historyTextInFg", c1.value, palette);
    var c2 :- PaletteGet(palette, "color7");
    reg.AddColor("historyTextInFgSelected", Lighter(c2, 40), palette);
    var c3 := PaletteGet(palette, "color7").value;
    reg.AddColor("historyTextOutFg", c3, palette);
    var c4 := PaletteGet(palette, "color7").value;
    reg.AddColor("historyTextOutFgSelected", Lighter(c4, 40), palette);
    r := Ok(());
  }

  /** The `History` section, part 2: src/telegram_colors.rs lines 317-321. */
  method HistorySection2(reg: Registry, palette: Palette) returns (r: Result<()>)
    requires Sound(reg.elements, palette) && Closed(palette)
    requires "color0" !in reg.elements
    requires "historyTextInFg" in reg.elements
    modifies reg
    ensures Sound(reg.elements, palette) && reg.mark == old(reg.output) && old(reg.output) <= reg.output
    ensures "color0" !in reg.elements
    ensures old(reg.elements).Keys <= reg.elements.Keys
    ensures r.Ok? <==> "color7" in palette && "color10" in palette
    ensures r.Abort? ==> r.failure.MissingKey? && r.failure.key !in palette
  {
    reg.mark := reg.output;
    assert ColorNamed("historyTextInFg");
    var c1 :- PaletteGet(palette, "color10");
    reg.AddColor("historyLinkInFg", c1, palette);
    var c2 :- PaletteGet(palette, "color7");
    reg.AddColor("historyLinkInFgSelected", Lighter(c2, 40), palette);
    var c3 := PaletteGet(palette, "color10").value;
    reg.AddColor("historyLinkOutFg", c3, palette);
    var c4 := PaletteGet(palette, "color7").value;
    reg.AddColor("historyLinkOutFgSelected", Lighter(c4, 40), palette);
    var c5 := reg.GetElement("historyTextInFg", palette);
    reg.AddColor("historyFileNameInFg", c5.value, palette);
    r := Ok(());
  }

  /** The `History` section, part 3: src/telegram_colors.rs lines 322-326. */
  method HistorySection3(reg: Registry, palette: Palette) returns (r: Result<()>)
    requires Sound(reg.elements, palette) && Closed(palette)
    requires "color0" !in reg.elements
    requires "historyTextOutFg" in reg.elements
    modifies reg
    ensures Sound(reg.elements, palette) && reg.mark == old(reg.output) && old(reg.output) <= reg.output
    ensures "color0" !in reg.elements
    ensures old(reg.elements).Keys <= reg.elements.Keys
    ensures r.Ok? <==> "color1" in palette && "color7" in palette
    ensures r.Abort? ==> r.failure.MissingKey? && r.failure.key !in palette
  {
    reg.mark := reg.output;
    assert ColorNamed("historyTextOutFg");
    var c1 :- PaletteGet(palette, "color7");
    reg.AddColor("historyFileNameInFgSelected", Lighter(c1, 40), palette);
    var c2 := reg.GetElement("historyTextOutFg", palette);
    reg.AddColor("historyFileNameOutFg", c2.value, palette);
    var c3 := PaletteGet(palette, "color7").value;
    reg.AddColor("historyFileNameOutFgSelected", Lighter(c3, 40), palette);
    var c4 :- PaletteGet(palette, "color1");
    reg.AddColor("historyOutIconFg", Lighter(c4, 70), palette);
    var c5 := PaletteGet(palette, "color7").value;
    reg.AddColor("historyOutIconFgSelected", Lighter(c5, 40), palette);
    r := Ok(());
  }

  /** Lines 299-326 of src/telegram_colors.rs: the sections `Emoji`, `Sticker`, `History`. */
  method Derivation11(reg: Registry, palette: Palette) returns (r: Result<()>)
    requires Sound(reg.elements, palette) && Closed(palette)
    requires "color0" !in reg.elements
    requires "windowBg" in reg.elements && "windowFg" in reg.elements && "windowFgActive" in reg.elements
    modifies reg
    ensures Sound(reg.elements, palette) && reg.mark == old(reg.output) && old(reg.output) <= reg.output
    ensures "color0" !in reg.elements
    ensures old(reg.elements).Keys <= reg.elements.Keys
    ensures r.Ok? ==> "historyTextInFg" in reg.elements
    ensures r.Ok? <==> "color0" in palette && "color1" in palette && "color2" in palette && "color7" in palette && "color10" in palette
    ensures r.Abort? ==> r.failure.MissingKey? && r.failure.key !in palette
  {
    var s: Result<()>;
    s := EmojiSection1(reg, palette);
    reg.Rewind(old(reg.output));
    if s.Abort? { return s; }
    s := EmojiSection2(reg, palette);
    reg.Rewind(old(reg.output));
    if s.Abort? { return s; }
    s := StickerSection(reg, palette);
    reg.Rewind(old(reg.output));
    s := HistorySection1(reg, palette);
    reg.Rewind(old(reg.output));
    s := HistorySection2(reg, palette);
    reg.Rewind(old(reg.output));
    if s.Abort? { return s; }
    s := HistorySection3(reg, palette);
    reg.Rewind(old(reg.output));
    if s.Abort? { return s; }
    r := Ok(());
  }

  /** The `History` section, part 4: src/telegram_colors.rs lines 327-332. */
  method HistorySection4(reg: Registry, palette: Palette) returns (r: Result<()>)
    requires Sound(reg.elements, palette) && Closed(palette)
    requires "color0" !in reg.elements
    modifies reg
    ensures Sound(reg.elements, palette) && reg.mark == old(reg.output) && old(reg.output) <= reg.output
    ensures "color0" !in reg.elements
    ensures old(reg.elements).Keys <= reg.elements.Keys
    ensures r.Ok? <==> "color1" in palette && "color2" in palette && "color7" in palette
    ensures r.Abort? ==> r.failure.MissingKey? && r.failure.key !in palette
  {
    reg.mark := reg.output;
    var c1 :- PaletteGet(palette, "color2");
    reg.AddColor("historyIconFgInverted", c1, palette);
    var c2 := PaletteGet(palette, "color2").value;
    reg.AddColor("historySendingOutIconFg", c2, palette);
    var c3 := PaletteGet(palette, "color2").value;
    reg.AddColor("historySendingInIconFg", c3, palette);
    var c4 := PaletteGet(palette, "color2").value;
    reg.AddColor("historySendingInvertedIconFg", Alpha(c4, 75), palette);
    var c5 :- PaletteGet(palette, "color1");
    reg.AddColor("historyCallArrowInFg", c5, palette);
    var c6 :- PaletteGet(palette, "color7");
    reg.AddColor("historyCallArrowInFgSelected", Lighter(c6, 40), palette);
    r := Ok(());
  }

  /** The `History` section, part 5: src/telegram_colors.rs lines 333-337. */
  method HistorySection5(reg: Registry, palette: Palette) returns (r: Result<()>)
    requires Sound(reg.elements, palette) && Closed(palette)
    requires "color0" !in reg.elements
    requires "callArrowMissedFg" in reg.elements
    modifies reg
    ensures Sound(reg.elements, palette) && reg.mark == old(reg.output) && old(reg.output) <= reg.output
    ensures "color0" !in reg.elements
    ensures old(reg.elements).Keys <= reg.elements.Keys
    ensures r.Ok? <==> "color0" in palette && "color7" in palette
    ensures r.Abort? ==> r.failure.MissingKey? && r.failure.key !in palette
  {
    reg.mark := reg.output;
    assert ColorNamed("callArrowMissedFg");
    var c1 := reg.GetElement("callArrowMissedFg", palette);
    reg.AddColor("historyCallArrowMissedInFg", c1.value, palette);
    var c2 :- PaletteGet(palette, "color7");
    reg.AddColor("historyCallArrowMissedInFgSelected", Lighter(c2, 40), palette);
    var c3 := PaletteGet(palette, "color7").value;
    reg.AddColor("historyCallArrowOutFg", Lighter(c3, 40), palette);
    var c4 := PaletteGet(palette, "color7").value;
    reg.AddColor("historyCallArrowOutFgSelected", Lighter(c4, 40), palette);
    var c5 :- PaletteGet(palette, "color0");
    reg.AddColor("historyUnreadBarBg", c5, palette);
    r := Ok(());
  }

  /** The `History` section, part 6: src/telegram_colors.rs lines 338-341. */
  method HistorySection6(reg: Registry, palette: Palette) returns (r: Result<()>)
    requires Sound(reg.elements, palette) && Closed(palette)
    requires "color0" !in reg.elements
    requires "shadowFg" in reg.elements && "windowFgActive" in reg.elements
    modifies reg
    ensures Sound(reg.elements, palette) && reg.mark == old(reg.output) && old(reg.output) <= reg.output
    ensures "color0" !in reg.elements
    ensures old(reg.elements).Keys <= reg.elements.Keys
    ensures r.Ok? <==> "color0" in palette && "color1" in palette
    ensures r.Abort? ==> r.failure.MissingKey? && r.failure.key !in palette
  {
    reg.mark := reg.output;
    assert ColorNamed("shadowFg");
    assert ColorNamed("windowFgActive");
    var c1 := reg.GetElement("shadowFg", palette);
    reg.AddColor("historyUnreadBarBorder", c1.value, palette);
    var c2 :- PaletteGet(palette, "color1");
    reg.AddColor("historyUnreadBarFg", c2, palette);
    var c3 :- PaletteGet(palette, "color0");
    reg.AddColor("historyForwardChooseBg", Alpha(c3, 25), palette);
    var c4 := reg.GetElement("windowFgActive", palette);
    reg.AddColor("historyForwardChooseFg", c4.value, palette);
    r := Ok(());
  }

  /** The `History` section, part 7: src/telegram_colors.rs lines 342-347. */
  method HistorySection7(reg: Registry, palette: Palette) returns (r: Result<()>)
    requires Sound(reg.elements, palette) && Closed(palette)
    requires "color0" !in reg.elements
    modifies reg
    ensures Sound(reg.elements, palette) && reg.mark == old(reg.output) && old(reg.output) <= reg.output
    ensures "color0" !in reg.elements
    ensures old(reg.elements).Keys <= reg.elements.Keys
    ensures r.Ok? <==> "color1" in palette && "color2" in palette && "color7" in palette
    ensures r.Abort? ==> r.failure.MissingKey? && r.failure.key !in palette
  {
    reg.mark := reg.output;
    var c1 :- PaletteGet(palette, "color1");
    reg.AddColor("historyPeer1NameFg", c1, palette);
    var c2 :- PaletteGet(palette, "color7");
    reg.AddColor("historyPeer1NameFgSelected", Lighter(c2, 40), palette);
    var c3 := PaletteGet(palette, "color1").value;
    reg.AddColor("historyPeer1UserpicBg", c3, palette);
    var c4 :- PaletteGet(palette, "color2");
    reg.AddColor("historyPeer2NameFg", c4, palette);
    var c5 := PaletteGet(palette, "color7").value;
    reg.AddColor("historyPeer2NameFgSelected", Lighter(c5, 40), palette);
    var c6 := PaletteGet(palette, "color2").value;
    reg.AddColor("historyPeer2UserpicBg", c6, palette);
    r := Ok(());
  }

  /** The `History` section, part 8: src/telegram_colors.rs lines 348-353. */
  method HistorySection8(reg: Registry, palette: Palette) returns (r: Result<()>)
    requires Sound(reg.elements, palette) && Closed(palette)
    requires "color0" !in reg.elements
    modifies reg
    ensures Sound(reg.elements, palette) && reg.mark == old(reg.output) && old(reg.output) <= reg.output
    ensures "color0" !in reg.elements
    ensures old(reg.elements).Keys <= reg.elements.Keys
    ensures r.Ok? <==> "color3" in palette && "color4" in palette && "color7" in palette
    ensures r.Abort? ==> r.failure.MissingKey? && r.failure.key !in palette
  {
    reg.mark := reg.output;
    var c1 :- PaletteGet(palette, "color3");
    reg.AddColor("historyPeer3NameFg", c1, palette);
    var c2 :- PaletteGet(palette, "color7");
    reg.AddColor("historyPeer3NameFgSelected", Lighter(c2, 40), palette);
    var c3 := PaletteGet(palette, "color3").value;
    reg.AddColor("historyPeer3UserpicBg", c3, palette);
    var c4 :- PaletteGet(palette, "color4");
    reg.AddColor("historyPeer4NameFg", c4, palette);
    var c5 := PaletteGet(palette, "color7").value;
    reg.AddColor("historyPeer4NameFgSelected", Lighter(c5, 40), palette);
    var c6 := PaletteGet(palette, "color4").value;
    reg.AddColor("historyPeer4UserpicBg", c6, palette);
    r := Ok(());
  }

  /** The `History` section, part 9: src/telegram_colors.rs lines 354-359. */
  method HistorySection9(reg: Registry, palette: Palette) returns (r: Result<()>)
    requires Sound(reg.elements, palette) && Closed(palette)
    requires "color0" !in reg.elements
    modifies reg
    ensures Sound(reg.elements, palette) && reg.mark == old(reg.output) && old(reg.output) <= reg.output
    ensures "color0" !in reg.elements
    ensures old(reg.elements).Keys <= reg.elements.Keys
    ensures r.Ok? <==> "color5" in palette && "color6" in palette && "color7" in palette
    ensures r.Abort? ==> r.failure.MissingKey? && r.failure.key !in palette
  {
    reg.mark := reg.output;
    var c1 :- PaletteGet(palette, "color5");
    reg.AddColor("historyPeer5NameFg", c1, palette);
    var c2 :- PaletteGet(palette, "color7");
    reg.AddColor("historyPeer5NameFgSelected", Lighter(c2, 40), palette);
    var c3 := PaletteGet(palette, "color5").value;
    reg.AddColor("historyPeer5UserpicBg", c3, palette);
    var c4 :- PaletteGet(palette, "color6");
    reg.AddColor("historyPeer6NameFg", c4, palette);
    var c5 := PaletteGet(palette, "color7").value;
    reg.AddColor("historyPeer6NameFgSelected", Lighter(c5, 40), palette);
    var c6 := PaletteGet(palette, "color6").value;
    reg.AddColor("historyPeer6UserpicBg", c6, palette);
    r := Ok(());
  }

  /** Lines 327-359 of src/telegram_colors.rs: the sections `History`. */
  method Derivation12(reg: Registry, palette: Palette) returns (r: Result<()>)
    requires Sound(reg.elements, palette) && Closed(palette)
    requires "color0" !in reg.elements
    requires "callArrowMissedFg" in reg.elements && "shadowFg" in reg.elements && "windowFgActive" in reg.elements
    modifies reg
    ensures Sound(reg.elements, palette) && reg.mark == old(reg.output) && old(reg.output) <= reg.output
    ensures "color0" !in reg.elements
    ensures old(reg.elements).Keys <= reg.elements.Keys
    ensures r.Ok? <==> "color0" in palette && "color1" in palette && "color2" in palette && "color3" in palette && "color4" in palette && "color5" in palette && "color6" in palette && "color7" in palette
    ensures r.Abort? ==> r.failure.MissingKey? && r.failure.key !in palette
  {
    var s: Result<()>;
    s := HistorySection4(reg, palette);
    reg.Rewind(old(reg.output));
    if s.Abort? { return s; }
    s := HistorySection5(reg, palette);
    reg.Rewind(old(reg.output));
    if s.Abort? { return s; }
    s := HistorySection6(reg, palette);
    reg.Rewind(old(reg.output));
    s := HistorySection7(reg, palette);
    reg.Rewind(old(reg.output));
    s := HistorySection8(reg, palette);
    reg.Rewind(old(reg.output));
    if s.Abort? { return s; }
    s := HistorySection9(reg, palette);
    reg.Rewind(old(reg.output));
    if s.Abort? { return s; }
    r := Ok(());
  }

  /** Lines 202-359 of src/telegram_colors.rs: in turn Derivation7, Derivation8, Derivation9, Derivation10, Derivation11, Derivation12. */
  method DerivationBlock2(reg: Registry, palette: Palette) returns (r: Result<()>)
    requires Sound(reg.elements, palette) && Closed(palette)
    requires "color0" !in reg.elements
    requires "boxTextFg" in reg.elements && "layerBg" in reg.elements && "menuIconFg" in reg.elements && "menuIconFgOver" in reg.elements && "shadowFg" in reg.elements && "windowBg" in reg.elements && "windowBoldFgOver" in reg.elements && "windowFg" in reg.elements && "windowFgActive" in reg.elements
    modifies reg
    ensures Sound(reg.elements, palette) && reg.mark == old(reg.output) && old(reg.output) <= reg.output
    ensures "color0" !in reg.elements
    ensures old(reg.elements).Keys <= reg.elements.Keys
    ensures r.Ok? ==> "dialogsBgActive" in reg.elements && "dialogsNameFgActive" in reg.elements && "dialogsRippleBgActive" in reg.elements && "historyTextInFg" in reg.elements
    ensures r.Ok? <==> "color0" in palette && "color1" in palette && "color2" in palette && "color3" in palette && "color4" in palette && "color5" in palette && "color6" in palette && "color7" in palette && "color10" in palette
    ensures r.Abort? ==> r.failure.MissingKey? && r.failure.key !in palette
  {
    var s: Result<()>;
    s := Derivation7(reg, palette);
    reg.Rewind(old(reg.output));
    if s.Abort? { return s; }
    s := Derivation8(reg, palette);
    reg.Rewind(old(reg.output));
    s := Derivation9(reg, palette);
    reg.Rewind(old(reg.output));
    s := Derivation10(reg, palette);
    reg.Rewind(old(reg.output));
    s := Derivation11(reg, palette);
    reg.Rewind(old(reg.output));
    s := Derivation12(reg, palette);
    reg.Rewind(old(reg.output));
    if s.Abort? { return s; }
    r := Ok(());
  }

  /** The `History` section, part 10: src/telegram_colors.rs lines 360-365. */
  method HistorySection10(reg: Registry, palette: Palette) returns (r: Result<()>)
    requires Sound(reg.elements, palette) && Closed(palette)
    requires "color0" !in reg.elements
    modifies reg
    ensures Sound(reg.elements, palette) && reg.mark == old(reg.output) && old(reg.output) <= reg.output
    ensures "color0" !in reg.elements
    ensures old(reg.elements).Keys <= reg.elements.Keys
    ensures r.Ok? <==> "color7" in palette && "color8" in palette
    ensures r.Abort? ==> r.failure.MissingKey? && r.failure.key !in palette
  {
    reg.mark := reg.output;
    var c1 :- PaletteGet(palette, "color7");
    reg.AddColor("historyPeer7NameFg", c1, palette);
    var c2 := PaletteGet(palette, "color7").value;
    reg.AddColor("historyPeer7NameFgSelected", Lighter(c2, 40), palette);
    var c3 := PaletteGet(palette, "color7").value;
    reg.AddColor("historyPeer7UserpicBg", c3, palette);
    var c4 :- PaletteGet(palette, "color8");
    reg.AddColor("historyPeer8NameFg", c4, palette);
    var c5 := PaletteGet(palette, "color7").value;
    reg.AddColor("historyPeer8NameFgSelected", Lighter(c5, 40), palette);
    var c6 := PaletteGet(palette, "color8").value;
    reg.AddColor("historyPeer8UserpicBg", c6, palette);
    r := Ok(());
  }

  /** The `History` section, part 11: src/telegram_colors.rs lines 366-370. */
  method HistorySection11(reg: Registry, palette: Palette) returns (r: Result<()>)
    requires Sound(reg.elements, palette) && Closed(palette)
    requires "color0" !in reg.elements
    requires "windowFgActive" in reg.elements
    modifies reg
    ensures Sound(reg.elements, palette) && reg.mark == old(reg.output) && old(reg.output) <= reg.output
    ensures "color0" !in reg.elements
    ensures old(reg.elements).Keys <= reg.elements.Keys
    ensures r.Ok? <==> "color7" in palette
    ensures r.Abort? ==> r.failure.MissingKey? && r.failure.key !in palette
  {
    reg.mark := reg.output;
    assert ColorNamed("windowFgActive");
    var c1 := reg.GetElement("windowFgActive", palette);
    reg.AddColor("historyPeerUserpicFg", c1.value, palette);
    var c2 :- PaletteGet(palette, "color7");
    reg.AddColor("historyScrollBarBg", Alpha(c2, 45), palette);
    var c3 := PaletteGet(palette, "color7").value;
    reg.AddColor("historyScrollBarBgOver", Alpha(c3, 65), palette);
    var c4 := PaletteGet(palette, "color7").value;
    reg.AddColor("historyScrollBg", Alpha(c4, 25), palette);
    var c5 := PaletteGet(palette, "color7").value;
    reg.AddColor("historyScrollBgOver", Alpha(c5, 40), palette);
    r := Ok(());
  }

  /** The `Msg` section, part 1: src/telegram_colors.rs lines 372-377. */
  method MsgSection1(reg: Registry, palette: Palette) returns (r: Result<()>)
    requires Sound(reg.elements, palette) && Closed(palette)
    requires "color0" !in reg.elements
    modifies reg
    ensures Sound(reg.elements, palette) && reg.mark == old(reg.output) && old(reg.output) <= reg.output
    ensures "color0" !in reg.elements
    ensures old(reg.elements).Keys <= reg.elements.Keys
    ensures r.Ok? <==> "color2" in palette && "color7" in palette && "color8" in palette
    ensures r.Abort? ==> r.failure.MissingKey? && r.failure.key !in palette
  {
    reg.mark := reg.output;
    reg.AddComment("Msg", palette);
    var c1 :- PaletteGet(palette, "color7");
    reg.AddColor("msgInBg", Darker(c1, 70), palette);
    var c2 :- PaletteGet(palette, "color2");
    reg.AddColor("msgInBgSelected", c2, palette);
    var c3 :- PaletteGet(palette, "color8");
    reg.AddColor("msgOutBg", Darker(c3, 60), palette);
    var c4 := PaletteGet(palette, "color2").value;
    reg.AddColor("msgOutBgSelected", c4, palette);
    var c5 := PaletteGet(palette, "color2").value;
    reg.AddColor("msgSelectOverlay", Alpha(c5, 25), palette);
    r := Ok(());
  }

  /** The `Msg` section, part 2: src/telegram_colors.rs lines 378-382. */
  method MsgSection2(reg: Registry, palette: Palette) returns (r: Result<()>)
    requires Sound(reg.elements, palette) && Closed(palette)
    requires "color0" !in reg.elements
    requires "windowActiveTextFg" in reg.elements
    modifies reg
    ensures Sound(reg.elements, palette) && reg.mark == old(reg.output) && old(reg.output) <= reg.output
    ensures "color0" !in reg.elements
    ensures old(reg.elements).Keys <= reg.elements.Keys
    ensures r.Ok? <==> "color2" in palette && "color7" in palette && "color10" in palette
    ensures r.Abort? ==> r.failure.MissingKey? && r.failure.key !in palette
  {
    reg.mark := reg.output;
    assert ColorNamed("windowActiveTextFg");
    var c1 :- PaletteGet(palette, "color2");
    reg.AddColor("msgStickerOverlay", Alpha(c1, 45), palette);
    var c2 := reg.GetElement("windowActiveTextFg", palette);
    reg.AddColor("msgInServiceFg", c2.value, palette);
    var c3 :- PaletteGet(palette, "color7");
    reg.AddColor("msgInServiceFgSelected", Lighter(c3, 40), palette);
    var c4 :- PaletteGet(palette, "color10");
    reg.AddColor("msgOutServiceFg", c4, palette);
    var c5 := PaletteGet(palette, "color7").value;
    reg.AddColor("msgOutServiceFgSelected", Lighter(c5, 40), palette);
    r := Ok(());
  }

  /** The `Msg` section, part 3: src/telegram_colors.rs lines 383-388. */
  method MsgSection3(reg: Registry, palette: Palette) returns (r: Result<()>)
    requires Sound(reg.elements, palette) && Closed(palette)
    requires "color0" !in reg.elements
    modifies reg
    ensures Sound(reg.elements, palette) && reg.mark == old(reg.output) && old(reg.output) <= reg.output
    ensures "color0" !in reg.elements
    ensures old(reg.elements).Keys <= reg.elements.Keys
    ensures r.Ok? ==> "msgInDateFg" in reg.elements && "msgInDateFgSelected" in reg.elements
    ensures r.Ok? <==> "color0" in palette && "color2" in palette && "color7" in palette
    ensures r.Abort? ==> r.failure.MissingKey? && r.failure.key !in palette
  {
    reg.mark := reg.output;
    var c1 :- PaletteGet(palette, "color0");
    reg.AddColor("msgInShadow", Alpha(c1, 0), palette);
    var c2 :- PaletteGet(palette, "color2");
    reg.AddColor("msgInShadowSelected", Alpha(c2, 0), palette);
    var c3 := PaletteGet(palette, "color0").value;
    reg.AddColor("msgOutShadow", Alpha(c3, 0), palette);
    var c4 := PaletteGet(palette, "color2").value;
    reg.AddColor("msgOutShadowSelected", Alpha(c4, 0), palette);
    var c5 :- PaletteGet(palette, "color7");
    reg.AddColor("msgInDateFg", Darker(c5, 40), palette);
    var c6 := PaletteGet(palette, "color7").value;
    reg.AddColor("msgInDateFgSelected", Lighter(c6, 40), palette);
    r := Ok(());
  }

  /** The `Msg` section, part 4: src/telegram_colors.rs lines 389-393. */
  method MsgSection4(reg: Registry, palette: Palette) returns (r: Result<()>)
    requires Sound(reg.elements, palette) && Closed(palette)
    requires "color0" !in reg.elements
    requires "windowFgActive" in reg.elements
    modifies reg
    ensures Sound(reg.elements, palette) && reg.mark == old(reg.output) && old(reg.output) <= reg.output
    ensures "color0" !in reg.elements
    ensures old(reg.elements).Keys <= reg.elements.Keys
    ensures r.Ok? ==> "msgOutDateFg" in reg.elements && "msgOutDateFgSelected" in reg.elements && "msgServiceFg" in reg.elements
    ensures r.Ok? <==> "color0" in palette && "color7" in palette && "color10" in palette
    ensures r.Abort? ==> r.failure.MissingKey? && r.failure.key !in palette
  {
    reg.mark := reg.output;
    assert ColorNamed("windowFgActive");
    var c1 :- PaletteGet(palette, "color7");
    reg.AddColor("msgOutDateFg", Darker(c1, 40), palette);
    var c2 := PaletteGet(palette, "color7").value;
    reg.AddColor("msgOutDateFgSelected", Lighter(c2, 40), palette);
    var c3 := reg.GetElement("windowFgActive", palette);
    reg.AddColor("msgServiceFg", c3.value, palette);
    var c4 :- PaletteGet(palette, "color0");
    reg.AddColor("msgServiceBg", c4, palette);
    var c5 :- PaletteGet(palette, "color10");
    reg.AddColor("msgServiceBgSelected", c5, palette);
    r := Ok(());
  }

  /** Lines 360-393 of src/telegram_colors.rs: the sections `History`, `Msg`. */
  method Derivation13(reg: Registry, palette: Palette) returns (r: Result<()>)
    requires Sound(reg.elements, palette) && Closed(palette)
    requires "color0" !in reg.elements
    requires "windowActiveTextFg" in reg.elements && "windowFgActive" in reg.elements
    modifies reg
    ensures Sound(reg.elements, palette) && reg.mark == old(reg.output) && old(reg.output) <= reg.output
    ensures "color0" !in reg.elements
    ensures old(reg.elements).Keys <= reg.elements.Keys
    ensures r.Ok? ==> "msgInDateFg" in reg.elements && "msgInDateFgSelected" in reg.elements && "msgOutDateFg" in reg.elements && "msgOutDateFgSelected" in reg.elements && "msgServiceFg" in reg.elements
    ensures r.Ok? <==> "color0" in palette && "color2" in palette && "color7" in palette && "color8" in palette && "color10" in palette
    ensures r.Abort? ==> r.failure.MissingKey? && r.failure.key !in palette
  {
    var s: Result<()>;
    s := HistorySection10(reg, palette);
    reg.Rewind(old(reg.output));
    if s.Abort? { return s; }
    s := HistorySection11(reg, palette);
    reg.Rewind(old(reg.output));
    s := MsgSection1(reg, palette);
    reg.Rewind(old(reg.output));
    if s.Abort? { return s; }
    s := MsgSection2(reg, palette);
    reg.Rewind(old(reg.output));
    if s.Abort? { return s; }
    s := MsgSection3(reg, palette);
    reg.Rewind(old(reg.output));
    if s.Abort? { return s; }
    s := MsgSection4(reg, palette);
    reg.Rewind(old(reg.output));
    r := Ok(());
  }

  /** The `Msg` section, part 5: src/telegram_colors.rs lines 394-398. */
  method MsgSection5(reg: Registry, palette: Palette) returns (r: Result<()>)
    requires Sound(reg.elements, palette) && Closed(palette)
    requires "color0" !in reg.elements
    requires "msgServiceFg" in reg.elements
    modifies reg
    ensures Sound(reg.elements, palette) && reg.mark == old(reg.output) && old(reg.output) <= reg.output
    ensures "color0" !in reg.elements
    ensures old(reg.elements).Keys <= reg.elements.Keys
    ensures r.Ok? <==> "color7" in palette && "color10" in palette
    ensures r.Abort? ==> r.failure.MissingKey? && r.failure.key !in palette
  {
    reg.mark := reg.output;
    assert ColorNamed("msgServiceFg");
    var c1 :- PaletteGet(palette, "color10");
    reg.AddColor("msgInReplyBarColor", c1, palette);
    var c2 :- PaletteGet(palette, "color7");
    reg.AddColor("msgInReplyBarSelColor", Lighter(c2, 40), palette);
    var c3 := PaletteGet(palette, "color10").value;
    reg.AddColor("msgOutReplyBarColor", c3, palette);
    var c4 := PaletteGet(palette, "color7").value;
    reg.AddColor("msgOutReplyBarSelColor", Lighter(c4, 40), palette);
    var c5 := reg.GetElement("msgServiceFg", palette);
    reg.AddColor("msgImgReplyBarColor", c5.value, palette);
    r := Ok(());
  }

  /** The `Msg` section, part 6: src/telegram_colors.rs lines 399-403. */
  method MsgSection6(reg: Registry, palette: Palette) returns (r: Result<()>)
    requires Sound(reg.elements, palette) && Closed(palette)
    requires "color0" !in reg.elements
    requires "msgServiceFg" in reg.elements
    modifies reg
    ensures Sound(reg.elements, palette) && reg.mark == old(reg.output) && old(reg.output) <= reg.output
    ensures "color0" !in reg.elements
    ensures old(reg.elements).Keys <= reg.elements.Keys
    ensures r.Ok? <==> "color7" in palette
    ensures r.Abort? ==> r.failure.MissingKey? && r.failure.key !in palette
  {
    reg.mark := reg.output;
    assert ColorNamed("msgServiceFg");
    var c1 :- PaletteGet(palette, "color7");
    reg.AddColor("msgInMonoFg", c1, palette);
    var c2 := PaletteGet(palette, "color7").value;
    reg.AddColor("msgInMonoFgSelected", Lighter(c2, 40), palette);
    var c3 := PaletteGet(palette, "color7").value;
    reg.AddColor("msgOutMonoFg", c3, palette);
    var c4 := PaletteGet(palette, "color7").value;
    reg.AddColor("msgOutMonoFgSelected", Lighter(c4, 40), palette);
    var c5 := reg.GetElement("msgServiceFg", palette);
    reg.AddColor("msgDateImgFg", c5.value, palette);
    r := Ok(());
  }

  /** The `Msg` section, part 7: src/telegram_colors.rs lines 404-407. */
  method MsgSection7(reg: Registry, palette: Palette) returns (r: Result<()>)
    requires Sound(reg.elements, palette) && Closed(palette)
    requires "color0" !in reg.elements
    requires "lightButtonFg" in reg.elements
    modifies reg
    ensures Sound(reg.elements, palette) && reg.mark == old(reg.output) && old(reg.output) <= reg.output
    ensures "color0" !in reg.elements
    ensures old(reg.elements).Keys <= reg.elements.Keys
    ensures r.Ok? <==> "color0" in palette && "color2" in palette
    ensures r.Abort? ==> r.failure.MissingKey? && r.failure.key !in palette
  {
    reg.mark := reg.output;
    assert ColorNamed("lightButtonFg");
    var c1 :- PaletteGet(palette, "color0");
    reg.AddColor("msgDateImgBg", Alpha(c1, 30), palette);
    var c2 := PaletteGet(palette, "color0").value;
    reg.AddColor("msgDateImgBgOver", Alpha(c2, 45), palette);
    var c3 :- PaletteGet(palette, "color2");
    reg.AddColor("msgDateImgBgSelected", Alpha(c3, 50), palette);
    var c4 := reg.GetElement("lightButtonFg", palette);
    reg.AddColor("msgFileThumbLinkInFg", c4.value, palette);
    r := Ok(());
  }

  /** The `Msg` section, part 8: src/telegram_colors.rs lines 408-412. */
  method MsgSection8(reg: Registry, palette: Palette) returns (r: Result<()>)
    requires Sound(reg.elements, palette) && Closed(palette)
    requires "color0" !in reg.elements
    requires "lightButtonFgOver" in reg.elements
    modifies reg
    ensures Sound(reg.elements, palette) && reg.mark == old(reg.output) && old(reg.output) <= reg.output
    ensures "color0" !in reg.elements
    ensures old(reg.elements).Keys <= reg.elements.Keys
    ensures r.Ok? <==> "color2" in palette && "color7" in palette && "color10" in palette
    ensures r.Abort? ==> r.failure.MissingKey? && r.failure.key !in palette
  {
    reg.mark := reg.output;
    assert ColorNamed("lightButtonFgOver");
    var c1 := reg.GetElement("lightButtonFgOver", palette);
    reg.AddColor("msgFileThumbLinkInFgSelected", c1.value, palette);
    var c2 :- PaletteGet(palette, "color10");
    reg.AddColor("msgFileThumbLinkOutFg", c2, palette);
    var c3 :- PaletteGet(palette, "color7");
    reg.AddColor("msgFileThumbLinkOutFgSelected", Lighter(c3, 40), palette);
    var c4 :- PaletteGet(palette, "color2");
    reg.AddColor("msgFileInBg", c4, palette);
    var c5 := PaletteGet(palette, "color2").value;
    reg.AddColor("msgFileInBgOver", Lighter(c5, 30), palette);
    r := Ok(());
  }

  /** The `Msg` section, part 9: src/telegram_colors.rs lines 413-418. */
  method MsgSection9(reg: Registry, palette: Palette) returns (r: Result<()>)
    requires Sound(reg.elements, palette) && Closed(palette)
    requires "color0" !in reg.elements
    modifies reg
    ensures Sound(reg.elements, palette) && reg.mark == old(reg.output) && old(reg.output) <= reg.output
    ensures "color0" !in reg.elements
    ensures old(reg.elements).Keys <= reg.elements.Keys
    ensures r.Ok? <==> "color1" in palette && "color2" in palette
    ensures r.Abort? ==> r.failure.MissingKey? && r.failure.key !in palette
  {
    reg.mark := reg.output;
    var c1 :- PaletteGet(palette, "color2");
    reg.AddColor("msgFileInBgSelected", Lighter(c1, 50), palette);
    var c2 := PaletteGet(palette, "color2").value;
    reg.AddColor("msgFileOutBg", c2, palette);
    var c3 := PaletteGet(palette, "color2").value;
    reg.AddColor("msgFileOutBgOver", Lighter(c3, 30), palette);
    var c4 := PaletteGet(palette, "color2").value;
    reg.AddColor("msgFileOutBgSelected", Lighter(c4, 50), palette);
    var c5 :- PaletteGet(palette, "color1");
    reg.AddColor("msgFile1Bg", c5, palette);
    var c6 := PaletteGet(palette, "color1").value;
    reg.AddColor("msgFile1BgDark", Darker(c6, 30), palette);
    r := Ok(());
  }

  /** The `Msg` section, part 10: src/telegram_colors.rs lines 419-424. */
  method MsgSection10(reg: Registry, palette: Palette) returns (r: Result<()>)
    requires Sound(reg.elements, palette) && Closed(palette)
    requires "color0" !in reg.elements
    modifies reg
    ensures Sound(reg.elements, palette) && reg.mark == old(reg.output) && old(reg.output) <= reg.output
    ensures "color0" !in reg.elements
    ensures old(reg.elements).Keys <= reg.elements.Keys
    ensures r.Ok? <==> "color1" in palette && "color2" in palette && "color7" in palette
    ensures r.Abort? ==> r.failure.MissingKey? && r.failure.key !in palette
  {
    reg.mark := reg.output;
    var c1 :- PaletteGet(palette, "color1");
    reg.AddColor("msgFile1BgOver", Lighter(c1, 40), palette);
    var c2 :- PaletteGet(palette, "color7");
    reg.AddColor("msgFile1BgSelected", Lighter(c2, 40), palette);
    var c3 :- PaletteGet(palette, "color2");
    reg.AddColor("msgFile2Bg", c3, palette);
    var c4 := PaletteGet(palette, "color2").value;
    reg.AddColor("msgFile2BgDark", Darker(c4, 30), palette);
    var c5 := PaletteGet(palette, "color2").value;
    reg.AddColor("msgFile2BgOver", Lighter(c5, 40), palette);
    var c6 := PaletteGet(palette, "color7").value;
    reg.AddColor("msgFile2BgSelected", Lighter(c6, 40), palette);
    r := Ok(());
  }

  /** Lines 394-424 of src/telegram_colors.rs: the sections `Msg`. */
  method Derivation14(reg: Registry, palette: Palette) returns (r: Result<()>)
    requires Sound(reg.elements, palette) && Closed(palette)
    requires "color0" !in reg.elements
    requires "lightButtonFg" in reg.elements && "lightButtonFgOver" in reg.elements && "msgServiceFg" in reg.elements
    modifies reg
    ensures Sound(reg.elements, palette) && reg.mark == old(reg.output) && old(reg.output) <= reg.output
    ensures "color0" !in reg.elements
    ensures old(reg.elements).Keys <= reg.elements.Keys
    ensures r.Ok? <==> "color0" in palette && "color1" in palette && "color2" in palette && "color7" in palette && "color10" in palette
    ensures r.Abort? ==> r.failure.MissingKey? && r.failure.key !in palette
  {
    var s: Result<()>;
    s := MsgSection5(reg, palette);
    reg.Rewind(old(reg.output));
    if s.Abort? { return s; }
    s := MsgSection6(reg, palette);
    reg.Rewind(old(reg.output));
    s := MsgSection7(reg, palette);
    reg.Rewind(old(reg.output));
    if s.Abort? { return s; }
    s := MsgSection8(reg, palette);
    reg.Rewind(old(reg.output));
    s := MsgSection9(reg, palette);
    reg.Rewind(old(reg.output));
    if s.Abort? { return s; }
    s := MsgSection10(reg, palette);
    reg.Rewind(old(reg.output));
    r := Ok(());
  }

  /** The `Msg` section, part 11: src/telegram_colors.rs lines 425-431. */
  method MsgSection11(reg: Registry, palette: Palette) returns (r: Result<()>)
    requires Sound(reg.elements, palette) && Closed(palette)
    requires "color0" !in reg.elements
    modifies reg
    ensures Sound(reg.elements, palette) && reg.mark == old(reg.output) && old(reg.output) <= reg.output
    ensures "color0" !in reg.elements
    ensures old(reg.elements).Keys <= reg.elements.Keys
    ensures r.Ok? <==> "color3" in palette && "color7" in palette
    ensures r.Abort? ==> r.failure.MissingKey? && r.failure.key !in palette
  {
    reg.mark := reg.output;
    var c1 :- PaletteGet(palette, "color3");
    reg.AddColor("msgFile3Bg", c1, palette);
    var c2 :- PaletteGet(palette, "color7");
    reg.AddColor("msgFile3BgDark", Darker(c2, 30), palette);
    var c3 := PaletteGet(palette, "color7").value;
    reg.AddColor("msgFile3BgOver", Lighter(c3, 40), palette);
    var c4 := PaletteGet(palette, "color7").value;
    reg.AddColor("msgFile3BgSelected", Lighter(c4, 40), palette);
    var c5 := PaletteGet(palette, "color3").value;
    reg.AddColor("msgFile4Bg", c5, palette);
    var c6 := PaletteGet(palette, "color3").value;
    reg.AddColor("msgFile4BgDark", Darker(c6, 30), palette);
    r := Ok(());
  }

  /** The `Msg` section, part 12: src/telegram_colors.rs lines 432-437. */
  method MsgSection12(reg: Registry, palette: Palette) returns (r: Result<()>)
    requires Sound(reg.elements, palette) && Closed(palette)
    requires "color0" !in reg.elements
    requires "windowBgActive" in reg.elements
    modifies reg
    ensures Sound(reg.elements, palette) && reg.mark == old(reg.output) && old(reg.output) <= reg.output
    ensures "color0" !in reg.elements
    ensures old(reg.elements).Keys <= reg.elements.Keys
    ensures r.Ok? <==> "color3" in palette && "color7" in palette
    ensures r.Abort? ==> r.failure.MissingKey? && r.failure.key !in palette
  {
    reg.mark := reg.output;
    assert ColorNamed("windowBgActive");
    var c1 :- PaletteGet(palette, "color3");
    reg.AddColor("msgFile4BgOver", Lighter(c1, 40), palette);
    var c2 :- PaletteGet(palette, "color7");
    reg.AddColor("msgFile4BgSelected", Lighter(c2, 40), palette);
    var c3 := reg.GetElement("windowBgActive", palette);
    reg.AddColor("msgWaveformInActive", c3.value, palette);
    var c4 := PaletteGet(palette, "color7").value;
    reg.AddColor("msgWaveformInActiveSelected", Lighter(c4, 40), palette);
    var c5 := PaletteGet(palette, "color7").value;
    reg.AddColor("msgWaveformInInactive", Darker(c5, 30), palette);
    r := Ok(());
  }

  /** The `Msg` section, part 13: src/telegram_colors.rs lines 438-443. */
  method MsgSection13(reg: Registry, palette: Palette) returns (r: Result<()>)
    requires Sound(reg.elements, palette) && Closed(palette)
    requires "color0" !in reg.elements
    modifies reg
    ensures Sound(reg.elements, palette) && reg.mark == old(reg.output) && old(reg.output) <= reg.output
    ensures "color0" !in reg.elements
    ensures old(reg.elements).Keys <= reg.elements.Keys
    ensures r.Ok? <==> "color2" in palette && "color7" in palette
    ensures r.Abort? ==> r.failure.MissingKey? && r.failure.key !in palette
  {
    reg.mark := reg.output;
    var c1 :- PaletteGet(palette, "color2");
    reg.AddColor("msgWaveformInInactiveSelected", Lighter(c1, 40), palette);
    var c2 := PaletteGet(palette, "color2").value;
    reg.AddColor("msgWaveformOutActive", c2, palette);
    var c3 :- PaletteGet(palette, "color7");
    reg.AddColor("msgWaveformOutActiveSelected", Lighter(c3, 40), palette);
    var c4 := PaletteGet(palette, "color7").value;
    reg.AddColor("msgWaveformOutInactive", Darker(c4, 30), palette);
    var c5 := PaletteGet(palette, "color2").value;
    reg.AddColor("msgWaveformOutInactiveSelected", Lighter(c5, 40), palette);
    var c6 := PaletteGet(palette, "color7").value;
    reg.AddColor("msgBotKbOverBgAdd", Alpha(c6, 5), palette);
    r := Ok(());
  }

  /** The `Msg` section, part 14: src/telegram_colors.rs lines 444-445. */
  method MsgSection14(reg: Registry, palette: Palette) returns (r: Result<()>)
    requires Sound(reg.elements, palette) && Closed(palette)
    requires "color0" !in reg.elements
    requires "msgServiceFg" in reg.elements
    modifies reg
    ensures Sound(reg.elements, palette) && reg.mark == old(reg.output) && old(reg.output) <= reg.output
    ensures "color0" !in reg.elements
    ensures old(reg.elements).Keys <= reg.elements.Keys
    ensures r.Ok? <==> "color1" in palette
    ensures r.Abort? ==> r.failure.MissingKey? && r.failure.key !in palette
  {
    reg.mark := reg.output;
    assert ColorNamed("msgServiceFg");
    var c1 := reg.GetElement("msgServiceFg", palette);
    reg.AddColor("msgBotKbIconFg", c1.value, palette);
    var c2 :- PaletteGet(palette, "color1");
    reg.AddColor("msgBotKbRippleBg", Alpha(c2, 5), palette);
    r := Ok(());
  }

  /** The `Download animations` section, part 1: src/telegram_colors.rs lines 447-451. */
  method DownloadAnimationsSection1(reg: Registry, palette: Palette) returns (r: Result<()>)
    requires Sound(reg.elements, palette) && Closed(palette)
    requires "color0" !in reg.elements
    modifies reg
    ensures Sound(reg.elements, palette) && reg.mark == old(reg.output) && old(reg.output) <= reg.output
    ensures "color0" !in reg.elements
    ensures old(reg.elements).Keys <= reg.elements.Keys
    ensures r.Ok? <==> "color0" in palette && "color10" in palette
    ensures r.Abort? ==> r.failure.MissingKey? && r.failure.key !in palette
  {
    reg.mark := reg.output;
    assert ColorNamed("historyFileInIconFgSelected");
    reg.AddComment("Download animations", palette);
    var c1 :- PaletteGet(palette, "color0");
    reg.AddColor("historyFileInIconFg", c1, palette);
    var c2 :- PaletteGet(palette, "color10");
    reg.AddColor("historyFileInIconFgSelected", c2, palette);
    var c3 := PaletteGet(palette, "color0").value;
    reg.AddColor("historyFileInRadialFg", c3, palette);
    var c4 := reg.GetElement("historyFileInIconFgSelected", palette);
    reg.AddColor("historyFileInRadialFgSelected", c4.value, palette);
    r := Ok(());
  }

  /** The `Download animations` section, part 2: src/telegram_colors.rs lines 452-456. */
  method DownloadAnimationsSection2(reg: Registry, palette: Palette) returns (r: Result<()>)
    requires Sound(reg.elements, palette) && Closed(palette)
    requires "color0" !in reg.elements
    modifies reg
    ensures Sound(reg.elements, palette) && reg.mark == old(reg.output) && old(reg.output) <= reg.output
    ensures "color0" !in reg.elements
    ensures old(reg.elements).Keys <= reg.elements.Keys
    ensures r.Ok? ==> "historyFileThumbIconFg" in reg.elements
    ensures r.Ok? <==> "color0" in palette && "color7" in palette && "color10" in palette
    ensures r.Abort? ==> r.failure.MissingKey? && r.failure.key !in palette
  {
    reg.mark := reg.output;
    assert ColorNamed("historyFileOutIconFg");
    var c1 :- PaletteGet(palette, "color0");
    reg.AddColor("historyFileOutIconFg", c1, palette);
    var c2 :- PaletteGet(palette, "color10");
    reg.AddColor("historyFileOutIconFgSelected", c2, palette);
    var c3 := reg.GetElement("historyFileOutIconFg", palette);
    reg.AddColor("historyFileOutRadialFg", c3.value, palette);
    var c4 := PaletteGet(palette, "color10").value;
    reg.AddColor("historyFileOutRadialFgSelected", c4, palette);
    var c5 :- PaletteGet(palette, "color7");
    reg.AddColor("historyFileThumbIconFg", Lighter(c5, 40), palette);
    r := Ok(());
  }

  /** Lines 425-456 of src/telegram_colors.rs: the sections `Msg`, `Download animations`. */
  method Derivation15(reg: Registry, palette: Palette) returns (r: Result<()>)
    requires Sound(reg.elements, palette) && Closed(palette)
    requires "color0" !in reg.elements
    requires "msgServiceFg" in reg.elements && "windowBgActive" in reg.elements
    modifies reg
    ensures Sound(reg.elements, palette) && reg.mark == old(reg.output) && old(reg.output) <= reg.output
    ensures "color0" !in reg.elements
    ensures old(reg.elements).Keys <= reg.elements.Keys
    ensures r.Ok? ==> "historyFileThumbIconFg" in reg.elements
    ensures r.Ok? <==> "color0" in palette && "color1" in palette && "color2" in palette && "color3" in palette && "color7" in palette && "color10" in palette
    ensures r.Abort? ==> r.failure.MissingKey? && r.failure.key !in palette
  {
    var s: Result<()>;
    s := MsgSection11(reg, palette);
    reg.Rewind(old(reg.output));
    if s.Abort? { return s; }
    s := MsgSection12(reg, palette);
    reg.Rewind(old(reg.output));
    s := MsgSection13(reg, palette);
    reg.Rewind(old(reg.output));
    if s.Abort? { return s; }
    s := MsgSection14(reg, palette);
    reg.Rewind(old(reg.output));
    if s.Abort? { return s; }
    s := DownloadAnimationsSection1(reg, palette);
    reg.Rewind(old(reg.output));
    if s.Abort? { return s; }
    s := DownloadAnimationsSection2(reg, palette);
    reg.Rewind(old(reg.output));
    r := Ok(());
  }

  /** The `Download animations` section, part 3: src/telegram_colors.rs lines 457-460. */
  method DownloadAnimationsSection3(reg: Registry, palette: Palette) returns (r: Result<()>)
    requires Sound(reg.elements, palette) && Closed(palette)
    requires "color0" !in reg.elements
    requires "historyFileThumbIconFg" in reg.elements
    modifies reg
    ensures Sound(reg.elements, palette) && reg.mark == old(reg.output) && old(reg.output) <= reg.output
    ensures "color0" !in reg.elements
    ensures old(reg.elements).Keys <= reg.elements.Keys
    ensures r.Ok? <==> "color7" in palette
    ensures r.Abort? ==> r.failure.MissingKey? && r.failure.key !in palette
  {
    reg.mark := reg.output;
    assert ColorNamed("historyFileThumbIconFg");
    var c1 :- PaletteGet(palette, "color7");
    reg.AddColor("historyFileThumbIconFgSelected", Lighter(c1, 40), palette);
    var c2 := reg.GetElement("historyFileThumbIconFg", palette);
    reg.AddColor("historyFileThumbRadialFg", c2.value, palette);
    var c3 := PaletteGet(palette, "color7").value;
    reg.AddColor("historyFileThumbRadialFgSelected", Lighter(c3, 40), palette);
    var c4 := reg.GetElement("historyFileThumbIconFg", palette);
    reg.AddColor("historyVideoMessageProgressFg", c4.value, palette);
    r := Ok(());
  }

  /** The `YouTube` section: src/telegram_colors.rs lines 462-464. */
  method YouTubeSection(reg: Registry, palette: Palette) returns (r: Result<()>)
    requires Sound(reg.elements, palette) && Closed(palette)
    requires "color0" !in reg.elements
    requires "windowFgActive" in reg.elements
    modifies reg
    ensures Sound(reg.elements, palette) && reg.mark == old(reg.output) && old(reg.output) <= reg.output
    ensures "color0" !in reg.elements
    ensures old(reg.elements).Keys <= reg.elements.Keys
    ensures r.Ok?
  {
    reg.mark := reg.output;
    assert ColorNamed("windowFgActive");
    reg.AddComment("YouTube", palette);
    YoutubeBgLiteral();
    var c1 := HexColor("83131c").value;
    reg.AddColor("youtubePlayIconBg", Alpha(c1, 50), palette);
    var c2 := reg.GetElement("windowFgActive", palette);
    reg.AddColor("youtubePlayIconFg", c2.value, palette);
    r := Ok(());
  }

  /** The `Video` section: src/telegram_colors.rs lines 466-468. */
  method VideoSection(reg: Registry, palette: Palette) returns (r: Result<()>)
    requires Sound(reg.elements, palette) && Closed(palette)
    requires "color0" !in reg.elements
    modifies reg
    ensures Sound(reg.elements, palette) && reg.mark == old(reg.output) && old(reg.output) <= reg.output
    ensures "color0" !in reg.elements
    ensures old(reg.elements).Keys <= reg.elements.Keys
    ensures r.Ok? <==> "color0" in palette && "color7" in palette
    ensures r.Abort? ==> r.failure.MissingKey? && r.failure.key !in palette
  {
    reg.mark := reg.output;
    reg.AddComment("Video", palette);
    var c1 :- PaletteGet(palette, "color0");
    reg.AddColor("videoPlayIconBg", Alpha(c1, 45), palette);
    var c2 :- PaletteGet(palette, "color7");
    reg.AddColor("videoPlayIconFg", Lighter(c2, 40), palette);
    r := Ok(());
  }

  /** The `Toast` section: src/telegram_colors.rs lines 470-472. */
  method ToastSection(reg: Registry, palette: Palette) returns (r: Result<()>)
    requires Sound(reg.elements, palette) && Closed(palette)
    requires "color0" !in reg.elements
    requires "windowFgActive" in reg.elements
    modifies reg
    ensures Sound(reg.elements, palette) && reg.mark == old(reg.output) && old(reg.output) <= reg.output
    ensures "color0" !in reg.elements
    ensures old(reg.elements).Keys <= reg.elements.Keys
    ensures r.Ok? ==> "toastBg" in reg.elements && "toastFg" in reg.elements
    ensures r.Ok? <==> "color0" in palette
    ensures r.Abort? ==> r.failure.MissingKey? && r.failure.key !in palette
  {
    reg.mark := reg.output;
    assert ColorNamed("windowFgActive");
    reg.AddComment("Toast", palette);
    var c1 :- PaletteGet(palette, "color0");
    reg.AddColor("toastBg", Alpha(c1, 65), palette);
    var c2 := reg.GetElement("windowFgActive", palette);
    reg.AddColor("toastFg", c2.value, palette);
    r := Ok(());
  }

  /** The `Report` section: src/telegram_colors.rs lines 474-476. */
  method ReportSection(reg: Registry, palette: Palette) returns (r: Result<()>)
    requires Sound(reg.elements, palette) && Closed(palette)
    requires "color0" !in reg.elements
    requires "windowFg" in reg.elements
    modifies reg
    ensures Sound(reg.elements, palette) && reg.mark == old(reg.output) && old(reg.output) <= reg.output
    ensures "color0" !in reg.elements
    ensures old(reg.elements).Keys <= reg.elements.Keys
    ensures r.Ok? <==> "color0" in palette
    ensures r.Abort? ==> r.failure.MissingKey? && r.failure.key !in palette
  {
    reg.mark := reg.output;
    assert ColorNamed("windowFg");
    reg.AddComment("Report", palette);
    var c1 :- PaletteGet(palette, "color0");
    reg.AddColor("reportSpamBg", c1, palette);
    var c2 := reg.GetElement("windowFg", palette);
    reg.AddColor("reportSpamFg", c2.value, palette);
    r := Ok(());
  }

  /** The `Composition area` section, part 1: src/telegram_colors.rs lines 478-482. */
  method CompositionAreaSection1(reg: Registry, palette: Palette) returns (r: Result<()>)
    requires Sound(reg.elements, palette) && Closed(palette)
    requires "color0" !in reg.elements
    modifies reg
    ensures Sound(reg.elements, palette) && reg.mark == old(reg.output) && old(reg.output) <= reg.output
    ensures "color0" !in reg.elements
    ensures old(reg.elements).Keys <= reg.elements.Keys
    ensures r.Ok? <==> "color0" in palette && "color7" in palette
    ensures r.Abort? ==> r.failure.MissingKey? && r.failure.key !in palette
  {
    reg.mark := reg.output;
    reg.AddComment("Composition area", palette);
    var c1 :- PaletteGet(palette, "color0");
    reg.AddColor("historyToDownBg", c1, palette);
    var c2 := PaletteGet(palette, "color0").value;
    reg.AddColor("historyToDownBgOver", Lighter(c2, 40), palette);
    var c3 := PaletteGet(palette, "color0").value;
    reg.AddColor("historyToDownBgRipple", Lighter(c3, 60), palette);
    var c4 :- PaletteGet(palette, "color7");
    reg.AddColor("historyToDownFg", c4, palette);
    r := Ok(());
  }

  /** Lines 457-482 of src/telegram_colors.rs: the sections `Download animations`, `YouTube`, `Video`, `Toast`, `Report`, `Composition area`. */
  method Derivation16(reg: Registry, palette: Palette) returns (r: Result<()>)
    requires Sound(reg.elements, palette) && Closed(palette)
    requires "color0" !in reg.elements
    requires "historyFileThumbIconFg" in reg.elements && "windowFg" in reg.elements && "windowFgActive" in reg.elements
    modifies reg
    ensures Sound(reg.elements, palette) && reg.mark == old(reg.output) && old(reg.output) <= reg.output
    ensures "color0" !in reg.elements
    ensures old(reg.elements).Keys <= reg.elements.Keys
    ensures r.Ok? ==> "toastBg" in reg.elements && "toastFg" in reg.elements
    ensures r.Ok? <==> "color0" in palette && "color7" in palette
    ensures r.Abort? ==> r.failure.MissingKey? && r.failure.key !in palette
  {
    var s: Result<()>;
    s := DownloadAnimationsSection3(reg, palette);
    reg.Rewind(old(reg.output));
    if s.Abort? { return s; }
    s := YouTubeSection(reg, palette);
    reg.Rewind(old(reg.output));
    s := VideoSection(reg, palette);
    reg.Rewind(old(reg.output));
    if s.Abort? { return s; }
    s := ToastSection(reg, palette);
    reg.Rewind(old(reg.output));
    s := ReportSection(reg, palette);
    reg.Rewind(old(reg.output));
    s := CompositionAreaSection1(reg, palette);
    reg.Rewind(old(reg.output));
    r := Ok(());
  }

  /** The `Composition area` section, part 2: src/telegram_colors.rs lines 483-486. */
  method CompositionAreaSection2(reg: Registry, palette: Palette) returns (r: Result<()>)
    requires Sound(reg.elements, palette) && Closed(palette)
    requires "color0" !in reg.elements
    requires "historyTextInFg" in reg.elements && "menuIconFgOver" in reg.elements
    modifies reg
    ensures Sound(reg.elements, palette) && reg.mark == old(reg.output) && old(reg.output) <= reg.output
    ensures "color0" !in reg.elements
    ensures old(reg.elements).Keys <= reg.elements.Keys
    ensures r.Ok? ==> "historyComposeAreaBg" in reg.elements
    ensures r.Ok? <==> "color0" in palette
    ensures r.Abort? ==> r.failure.MissingKey? && r.failure.key !in palette
  {
    reg.mark := reg.output;
    assert ColorNamed("menuIconFgOver");
    assert ColorNamed("historyTextInFg");
    var c1 := reg.GetElement("menuIconFgOver", palette);
    reg.AddColor("historyToDownFgOver", c1.value, palette);
    var c2 :- PaletteGet(palette, "color0");
    reg.AddColor("historyToDownShadow", Alpha(c2, 25), palette);
    var c3 := PaletteGet(palette, "color0").value;
    reg.AddColor("historyComposeAreaBg", c3, palette);
    var c4 := reg.GetElement("historyTextInFg", palette);
    reg.AddColor("historyComposeAreaFg", c4.value, palette);
    r := Ok(());
  }

  /** The `Composition area` section, part 3: src/telegram_colors.rs lines 487-489. */
  method CompositionAreaSection3(reg: Registry, palette: Palette) returns (r: Result<()>)
    requires Sound(reg.elements, palette) && Closed(palette)
    requires "color0" !in reg.elements
    requires "menuIconFg" in reg.elements && "menuIconFgOver" in reg.elements && "msgInDateFg" in reg.elements
    modifies reg
    ensures Sound(reg.elements, palette) && reg.mark == old(reg.output) && old(reg.output) <= reg.output
    ensures "color0" !in reg.elements
    ensures old(reg.elements).Keys <= reg.elements.Keys
    ensures r.Ok?
  {
    reg.mark := reg.output;
    assert ColorNamed("msgInDateFg");
    assert ColorNamed("menuIconFg");
    assert ColorNamed("menuIconFgOver");
    var c1 := reg.GetElement("msgInDateFg", palette);
    reg.AddColor("historyComposeAreaFgService", c1.value, palette);
    var c2 := reg.GetElement("menuIconFg", palette);
    reg.AddColor("historyComposeIconFg", c2.value, palette);
    var c3 := reg.GetElement("menuIconFgOver", palette);
    reg.AddColor("historyComposeIconFgOver", c3.value, palette);
    r := Ok(());
  }

  /** The `Composition area` section, part 4: src/telegram_colors.rs lines 490-492. */
  method CompositionAreaSection4(reg: Registry, palette: Palette) returns (r: Result<()>)
    requires Sound(reg.elements, palette) && Closed(palette)
    requires "color0" !in reg.elements
    requires "historyComposeAreaBg" in reg.elements && "windowBgActive" in reg.elements
    modifies reg
    ensures Sound(reg.elements, palette) && reg.mark == old(reg.output) && old(reg.output) <= reg.output
    ensures "color0" !in reg.elements
    ensures old(reg.elements).Keys <= reg.elements.Keys
    ensures r.Ok?
  {
    reg.mark := reg.output;
    assert ColorNamed("windowBgActive");
    assert ColorNamed("historyComposeAreaBg");
    var c1 := reg.GetElement("windowBgActive", palette);
    reg.AddColor("historySendIconFg", c1.value, palette);
    var c2 := reg.GetElement("windowBgActive", palette);
    reg.AddColor("historySendIconFgOver", c2.value, palette);
    var c3 := reg.GetElement("historyComposeAreaBg", palette);
    reg.AddColor("historyPinnedBg", c3.value, palette);
    r := Ok(());
  }

  /** The `Composition area` section, part 5: src/telegram_colors.rs lines 493-495. */
  method CompositionAreaSection5(reg: Registry, palette: Palette) returns (r: Result<()>)
    requires Sound(reg.elements, palette) && Closed(palette)
    requires "color0" !in reg.elements
    requires "cancelIconFg" in reg.elements && "historyComposeAreaBg" in reg.elements && "windowBgActive" in reg.elements
    modifies reg
    ensures Sound(reg.elements, palette) && reg.mark == old(reg.output) && old(reg.output) <= reg.output
    ensures "color0" !in reg.elements
    ensures old(reg.elements).Keys <= reg.elements.Keys
    ensures r.Ok?
  {
    reg.mark := reg.output;
    assert ColorNamed("historyComposeAreaBg");
    assert ColorNamed("windowBgActive");
    assert ColorNamed("cancelIconFg");
    var c1 := reg.GetElement("historyComposeAreaBg", palette);
    reg.AddColor("historyReplyBg", c1.value, palette);
    var c2 := reg.GetElement("windowBgActive", palette);
    reg.AddColor("historyReplyIconFg", c2.value, palette);
    var c3 := reg.GetElement("cancelIconFg", palette);
    reg.AddColor("historyReplyCancelFg", c3.value, palette);
    r := Ok(());
  }

  /** The `Composition area` section, part 6: src/telegram_colors.rs lines 496-499. */
  method CompositionAreaSection6(reg: Registry, palette: Palette) returns (r: Result<()>)
    requires Sound(reg.elements, palette) && Closed(palette)
    requires "color0" !in reg.elements
    requires "cancelIconFgOver" in reg.elements && "historyComposeAreaBg" in reg.elements
    modifies reg
    ensures Sound(reg.elements, palette) && reg.mark == old(reg.output) && old(reg.output) <= reg.output
    ensures "color0" !in reg.elements
    ensures old(reg.elements).Keys <= reg.elements.Keys
    ensures r.Ok? <==> "color0" in palette
    ensures r.Abort? ==> r.failure.MissingKey? && r.failure.key !in palette
  {
    reg.mark := reg.output;
    assert ColorNamed("cancelIconFgOver");
    assert ColorNamed("historyComposeAreaBg");
    var c1 := reg.GetElement("cancelIconFgOver", palette);
    reg.AddColor("historyReplyCancelFgOver", c1.value, palette);
    var c2 := reg.GetElement("historyComposeAreaBg", palette);
    reg.AddColor("historyComposeButtonBg", c2.value, palette);
    var c3 :- PaletteGet(palette, "color0");
    reg.AddColor("historyComposeButtonBgOver", Lighter(c3, 40), palette);
    var c4 := PaletteGet(palette, "color0").value;
    reg.AddColor("historyComposeButtonBgRipple", Lighter(c4, 60), palette);
    r := Ok(());
  }

  /** The `Overview` section: src/telegram_colors.rs lines 501-505. */
  method OverviewSection(reg: Registry, palette: Palette) returns (r: Result<()>)
    requires Sound(reg.elements, palette) && Closed(palette)
    requires "color0" !in reg.elements
    modifies reg
    ensures Sound(reg.elements, palette) && reg.mark == old(reg.output) && old(reg.output) <= reg.output
    ensures "color0" !in reg.elements
    ensures old(reg.elements).Keys <= reg.elements.Keys
    ensures r.Ok? <==> "color0" in palette && "color1" in palette && "color7" in palette
    ensures r.Abort? ==> r.failure.MissingKey? && r.failure.key !in palette
  {
    reg.mark := reg.output;
    reg.AddComment("Overview", palette);
    var c1 :- PaletteGet(palette, "color0");
    reg.AddColor("overviewCheckBg", Alpha(c1, 25), palette);
    var c2 :- PaletteGet(palette, "color7");
    reg.AddColor("overviewCheckFg", Lighter(c2, 40), palette);
    var c3 := PaletteGet(palette, "color7").value;
    reg.AddColor("overviewCheckFgActive", Lighter(c3, 40), palette);
    var c4 :- PaletteGet(palette, "color1");
    reg.AddColor("overviewPhotoSelectOverlay", Alpha(c4, 10), palette);
    r := Ok(());
  }

  /** Lines 483-505 of src/telegram_colors.rs: the sections `Composition area`, `Overview`. */
  method Derivation17(reg: Registry, palette: Palette) returns (r: Result<()>)
    requires Sound(reg.elements, palette) && Closed(palette)
    requires "color0" !in reg.elements
    requires "cancelIconFg" in reg.elements && "cancelIconFgOver" in reg.elements && "historyTextInFg" in reg.elements && "menuIconFg" in reg.elements && "menuIconFgOver" in reg.elements && "msgInDateFg" in reg.elements && "windowBgActive" in reg.elements
    modifies reg
    ensures Sound(reg.elements, palette) && reg.mark == old(reg.output) && old(reg.output) <= reg.output
    ensures "color0" !in reg.elements
    ensures old(reg.elements).Keys <= reg.elements.Keys
    ensures r.Ok? <==> "color0" in palette && "color1" in palette && "color7" in palette
    ensures r.Abort? ==> r.failure.MissingKey? && r.failure.key !in palette
  {
    var s: Result<()>;
    s := CompositionAreaSection2(reg, palette);
    reg.Rewind(old(reg.output));
    if s.Abort? { return s; }
    s := CompositionAreaSection3(reg, palette);
    reg.Rewind(old(reg.output));
    s := CompositionAreaSection4(reg, palette);
    reg.Rewind(old(reg.output));
    s := CompositionAreaSection5(reg, palette);
    reg.Rewind(old(reg.output));
    s := CompositionAreaSection6(reg, palette);
    reg.Rewind(old(reg.output));
    s := OverviewSection(reg, palette);
    reg.Rewind(old(reg.output));
    if s.Abort? { return s; }
    r := Ok(());
  }

  /** The `Profile` section, part 1: src/telegram_colors.rs lines 507-510. */
  method ProfileSection1(reg: Registry, palette: Palette) returns (r: Result<()>)
    requires Sound(reg.elements, palette) && Closed(palette)
    requires "color0" !in reg.elements
    requires "windowBgActive" in reg.elements && "windowFgActive" in reg.elements
    modifies reg
    ensures Sound(reg.elements, palette) && reg.mark == old(reg.output) && old(reg.output) <= reg.output
    ensures "color0" !in reg.elements
    ensures old(reg.elements).Keys <= reg.elements.Keys
    ensures r.Ok? <==> "color1" in palette
    ensures r.Abort? ==> r.failure.MissingKey? && r.failure.key !in palette
  {
    reg.mark := reg.output;
    assert ColorNamed("windowBgActive");
    assert ColorNamed("windowFgActive");
    reg.AddComment("Profile", palette);
    var c1 :- PaletteGet(palette, "color1");
    reg.AddColor("profileStatusFgOver", c1, palette);
    var c2 := reg.GetElement("windowBgActive", palette);
    reg.AddColor("profileVerifiedCheckBg", c2.value, palette);
    var c3 := reg.GetElement("windowFgActive", palette);
    reg.AddColor("profileVerifiedCheckFg", c3.value, palette);
    r := Ok(());
  }

  /** The `Profile` section, part 2: src/telegram_colors.rs lines 511-511. */
  method ProfileSection2(reg: Registry, palette: Palette) returns (r: Result<()>)
    requires Sound(reg.elements, palette) && Closed(palette)
    requires "color0" !in reg.elements
    requires "windowBgActive" in reg.elements
    modifies reg
    ensures Sound(reg.elements, palette) && reg.mark == old(reg.output) && old(reg.output) <= reg.output
    ensures "color0" !in reg.elements
    ensures old(reg.elements).Keys <= reg.elements.Keys
    ensures r.Ok?
  {
    reg.mark := reg.output;
    assert ColorNamed("windowBgActive");
    var c1 := reg.GetElement("windowBgActive", palette);
    reg.AddColor("profileAdminStartFg", c1.value, palette);
    r := Ok(());
  }

  /** The `Notifications` section, part 1: src/telegram_colors.rs lines 513-515. */
  method NotificationsSection1(reg: Registry, palette: Palette) returns (r: Result<()>)
    requires Sound(reg.elements, palette) && Closed(palette)
    requires "color0" !in reg.elements
    requires "dialogsBgActive" in reg.elements && "windowFg" in reg.elements
    modifies reg
    ensures Sound(reg.elements, palette) && reg.mark == old(reg.output) && old(reg.output) <= reg.output
    ensures "color0" !in reg.elements
    ensures old(reg.elements).Keys <= reg.elements.Keys
    ensures r.Ok?
  {
    reg.mark := reg.output;
    assert ColorNamed("windowFg");
    assert ColorNamed("dialogsBgActive");
    reg.AddComment("Notifications", palette);
    var c1 := reg.GetElement("windowFg", palette);
    reg.AddColor("notificationsBoxMonitorFg", c1.value, palette);
    var c2 := reg.GetElement("dialogsBgActive", palette);
    reg.AddColor("notificationsBoxScreenBg", c2.value, palette);
    r := Ok(());
  }

  /** The `Notifications` section, part 2: src/telegram_colors.rs lines 516-519. */
  method NotificationsSection2(reg: Registry, palette: Palette) returns (r: Result<()>)
    requires Sound(reg.elements, palette) && Closed(palette)
    requires "color0" !in reg.elements
    requires "windowBgActive" in reg.elements
    modifies reg
    ensures Sound(reg.elements, palette) && reg.mark == old(reg.output) && old(reg.output) <= reg.output
    ensures "color0" !in reg.elements
    ensures old(reg.elements).Keys <= reg.elements.Keys
    ensures r.Ok? ==> "notificationSampleNameFg" in reg.elements && "notificationSampleTextFg" in reg.elements
    ensures r.Ok? <==> "color0" in palette && "color7" in palette
    ensures r.Abort? ==> r.failure.MissingKey? && r.failure.key !in palette
  {
    reg.mark := reg.output;
    assert ColorNamed("windowBgActive");
    var c1 := reg.GetElement("windowBgActive", palette);
    reg.AddColor("notificationSampleUserpicFg", c1.value, palette);
    var c2 :- PaletteGet(palette, "color7");
    reg.AddColor("notificationSampleCloseFg", c2, palette);
    var c3 := PaletteGet(palette, "color7").value;
    reg.AddColor("notificationSampleTextFg", c3, palette);
    var c4 :- PaletteGet(palette, "color0");
    reg.AddColor("notificationSampleNameFg", Lighter(c4, 40), palette);
    r := Ok(());
  }

  /** The `Change` section: src/telegram_colors.rs lines 521-523. */
  method ChangeSection(reg: Registry, palette: Palette) returns (r: Result<()>)
    requires Sound(reg.elements, palette) && Closed(palette)
    requires "color0" !in reg.elements
    requires "notificationSampleNameFg" in reg.elements && "notificationSampleTextFg" in reg.elements
    modifies reg
    ensures Sound(reg.elements, palette) && reg.mark == old(reg.output) && old(reg.output) <= reg.output
    ensures "color0" !in reg.elements
    ensures old(reg.elements).Keys <= reg.elements.Keys
    ensures r.Ok?
  {
    reg.mark := reg.output;
    assert ColorNamed("notificationSampleTextFg");
    assert ColorNamed("notificationSampleNameFg");
    reg.AddComment("Change", palette);
    var c1 := reg.GetElement("notificationSampleTextFg", palette);
    reg.AddColor("changePhoneSimcardFrom", c1.value, palette);
    var c2 := reg.GetElement("notificationSampleNameFg", palette);
    reg.AddColor("changePhoneSimcardTo", c2.value, palette);
    r := Ok(());
  }

  /** The `Main` section, part 1: src/telegram_colors.rs lines 525-528. */
  method MainSection1(reg: Registry, palette: Palette) returns (r: Result<()>)
    requires Sound(reg.elements, palette) && Closed(palette)
    requires "color0" !in reg.elements
    requires "windowBg" in reg.elements && "windowFgActive" in reg.elements
    modifies reg
    ensures Sound(reg.elements, palette) && reg.mark == old(reg.output) && old(reg.output) <= reg.output
    ensures "color0" !in reg.elements
    ensures old(reg.elements).Keys <= reg.elements.Keys
    ensures r.Ok? <==> "color2" in palette
    ensures r.Abort? ==> r.failure.MissingKey? && r.failure.key !in palette
  {
    reg.mark := reg.output;
    assert ColorNamed("windowBg");
    assert ColorNamed("windowFgActive");
    reg.AddComment("Main", palette);
    var c1 := reg.GetElement("windowBg", palette);
    reg.AddColor("mainMenuBg", c1.value, palette);
    var c2 :- PaletteGet(palette, "color2");
    reg.AddColor("mainMenuCoverBg", c2, palette);
    var c3 := reg.GetElement("windowFgActive", palette);
    reg.AddColor("mainMenuCoverFg", c3.value, palette);
    r := Ok(());
  }

  /** Lines 507-528 of src/telegram_colors.rs: the sections `Profile`, `Notifications`, `Change`, `Main`. */
  method Derivation18(reg: Registry, palette: Palette) returns (r: Result<()>)
    requires Sound(reg.elements, palette) && Closed(palette)
    requires "color0" !in reg.elements
    requires "dialogsBgActive" in reg.elements && "windowBg" in reg.elements && "windowBgActive" in reg.elements && "windowFg" in reg.elements && "windowFgActive" in reg.elements
    modifies reg
    ensures Sound(reg.elements, palette) && reg.mark == old(reg.output) && old(reg.output) <= reg.output
    ensures "color0" !in reg.elements
    ensures old(reg.elements).Keys <= reg.elements.Keys
    ensures r.Ok? <==> "color0" in palette && "color1" in palette && "color2" in palette && "color7" in palette
    ensures r.Abort? ==> r.failure.MissingKey? && r.failure.key !in palette
  {
    var s: Result<()>;
    s := ProfileSection1(reg, palette);
    reg.Rewind(old(reg.output));
    if s.Abort? { return s; }
    s := ProfileSection2(reg, palette);
    reg.Rewind(old(reg.output));
    s := NotificationsSection1(reg, palette);
    reg.Rewind(old(reg.output));
    s := NotificationsSection2(reg, palette);
    reg.Rewind(old(reg.output));
    if s.Abort? { return s; }
    s := ChangeSection(reg, palette);
    reg.Rewind(old(reg.output));
    s := MainSection1(reg, palette);
    reg.Rewind(old(reg.output));
    if s.Abort? { return s; }
    r := Ok(());
  }

  /** Lines 360-528 of src/telegram_colors.rs: in turn Derivation13, Derivation14, Derivation15, Derivation16, Derivation17, Derivation18. */
  method DerivationBlock3(reg: Registry, palette: Palette) returns (r: Result<()>)
    requires Sound(reg.elements, palette) && Closed(palette)
    requires "color0" !in reg.elements
    requires "cancelIconFg" in reg.elements && "cancelIconFgOver" in reg.elements && "dialogsBgActive" in reg.elements && "historyTextInFg" in reg.elements && "lightButtonFg" in reg.elements && "lightButtonFgOver" in reg.elements && "menuIconFg" in reg.elements && "menuIconFgOver" in reg.elements && "windowActiveTextFg" in reg.elements && "windowBg" in reg.elements && "windowBgActive" in reg.elements && "windowFg" in reg.elements && "windowFgActive" in reg.elements
    modifies reg
    ensures Sound(reg.elements, palette) && reg.mark == old(reg.output) && old(reg.output) <= reg.output
    ensures "color0" !in reg.elements
    ensures old(reg.elements).Keys <= reg.elements.Keys
    ensures r.Ok? ==> "msgInDateFg" in reg.elements && "msgInDateFgSelected" in reg.elements && "msgOutDateFg" in reg.elements && "msgOutDateFgSelected" in reg.elements && "toastBg" in reg.elements && "toastFg" in reg.elements
    ensures r.Ok? <==> "color0" in palette && "color1" in palette && "color2" in palette && "color3" in palette && "color7" in palette && "color8" in palette && "color10" in palette
    ensures r.Abort? ==> r.failure.MissingKey? && r.failure.key !in palette
  {
    var s: Result<()>;
    s := Derivation13(reg, palette);
    reg.Rewind(old(reg.output));
    if s.Abort? { return s; }
    s := Derivation14(reg, palette);
    reg.Rewind(old(reg.output));
    if s.Abort? { return s; }
    s := Derivation15(reg, palette);
    reg.Rewind(old(reg.output));
    if s.Abort? { return s; }
    s := Derivation16(reg, palette);
    reg.Rewind(old(reg.output));
    s := Derivation17(reg, palette);
    reg.Rewind(old(reg.output));
    s := Derivation18(reg, palette);
    reg.Rewind(old(reg.output));
    r := Ok(());
  }

  /** The `Main` section, part 2: src/telegram_colors.rs lines 529-530. */
  method MainSection2(reg: Registry, palette: Palette) returns (r: Result<()>)
    requires Sound(reg.elements, palette) && Closed(palette)
    requires "color0" !in reg.elements
    modifies reg
    ensures Sound(reg.elements, palette) && reg.mark == old(reg.output) && old(reg.output) <= reg.output
    ensures "color0" !in reg.elements
    ensures old(reg.elements).Keys <= reg.elements.Keys
    ensures r.Ok? <==> "color4" in palette && "color7" in palette
    ensures r.Abort? ==> r.failure.MissingKey? && r.failure.key !in palette
  {
    reg.mark := reg.output;
    var c1 :- PaletteGet(palette, "color7");
    reg.AddColor("mainMenuCloudFg", Lighter(c1, 40), palette);
    var c2 :- PaletteGet(palette, "color4");
    reg.AddColor("mainMenuCloudBg", c2, palette);
    r := Ok(());
  }

  /** The `Media` section, part 1: src/telegram_colors.rs lines 532-534. */
  method MediaSection1(reg: Registry, palette: Palette) returns (r: Result<()>)
    requires Sound(reg.elements, palette) && Closed(palette)
    requires "color0" !in reg.elements
    requires "msgInDateFg" in reg.elements && "msgInDateFgSelected" in reg.elements
    modifies reg
    ensures Sound(reg.elements, palette) && reg.mark == old(reg.output) && old(reg.output) <= reg.output
    ensures "color0" !in reg.elements
    ensures old(reg.elements).Keys <= reg.elements.Keys
    ensures r.Ok?
  {
    reg.mark := reg.output;
    assert ColorNamed("msgInDateFg");
    assert ColorNamed("msgInDateFgSelected");
    reg.AddComment("Media", palette);
    var c1 := reg.GetElement("msgInDateFg", palette);
    reg.AddColor("mediaInFg", c1.value, palette);
    var c2 := reg.GetElement("msgInDateFgSelected", palette);
    reg.AddColor("mediaInFgSelected", c2.value, palette);
    r := Ok(());
  }

  /** The `Media` section, part 2: src/telegram_colors.rs lines 535-537. */
  method MediaSection2(reg: Registry, palette: Palette) returns (r: Result<()>)
    requires Sound(reg.elements, palette) && Closed(palette)
    requires "color0" !in reg.elements
    requires "msgOutDateFg" in reg.elements && "msgOutDateFgSelected" in reg.elements && "windowBg" in reg.elements
    modifies reg
    ensures Sound(reg.elements, palette) && reg.mark == old(reg.output) && old(reg.output) <= reg.output
    ensures "color0" !in reg.elements
    ensures old(reg.elements).Keys <= reg.elements.Keys
    ensures r.Ok?
  {
    reg.mark := reg.output;
    assert ColorNamed("msgOutDateFg");
    assert ColorNamed("msgOutDateFgSelected");
    assert ColorNamed("windowBg");
    var c1 := reg.GetElement("msgOutDateFg", palette);
    reg.AddColor("mediaOutFg", c1.value, palette);
    var c2 := reg.GetElement("msgOutDateFgSelected", palette);
    reg.AddColor("mediaOutFgSelected", c2.value, palette);
    var c3 := reg.GetElement("windowBg", palette);
    reg.AddColor("mediaPlayerBg", c3.value, palette);
    r := Ok(());
  }

  /** The `Media` section, part 3: src/telegram_colors.rs lines 538-540. */
  method MediaSection3(reg: Registry, palette: Palette) returns (r: Result<()>)
    requires Sound(reg.elements, palette) && Closed(palette)
    requires "color0" !in reg.elements
    requires "sliderBgInactive" in reg.elements && "windowBgActive" in reg.elements
    modifies reg
    ensures Sound(reg.elements, palette) && reg.mark == old(reg.output) && old(reg.output) <= reg.output
    ensures "color0" !in reg.elements
    ensures old(reg.elements).Keys <= reg.elements.Keys
    ensures r.Ok? <==> "color1" in palette
    ensures r.Abort? ==> r.failure.MissingKey? && r.failure.key !in palette
  {
    reg.mark := reg.output;
    assert ColorNamed("windowBgActive");
    assert ColorNamed("sliderBgInactive");
    var c1 := reg.GetElement("windowBgActive", palette);
    reg.AddColor("mediaPlayerActiveFg", c1.value, palette);
    var c2 := reg.GetElement("sliderBgInactive", palette);
    reg.AddColor("mediaPlayerInactiveFg", c2.value, palette);
    var c3 :- PaletteGet(palette, "color1");
    reg.AddColor("mediaPlayerDisabledFg", c3, palette);
    r := Ok(());
  }

  /** The `Mediaview` section, part 1: src/telegram_colors.rs lines 542-544. */
  method MediaviewSection1(reg: Registry, palette: Palette) returns (r: Result<()>)
    requires Sound(reg.elements, palette) && Closed(palette)
    requires "color0" !in reg.elements
    requires "windowBg" in reg.elements && "windowFg" in reg.elements
    modifies reg
    ensures Sound(reg.elements, palette) && reg.mark == old(reg.output) && old(reg.output) <= reg.output
    ensures "color0" !in reg.elements
    ensures old(reg.elements).Keys <= reg.elements.Keys
    ensures r.Ok?
  {
    reg.mark := reg.output;
    assert ColorNamed("windowBg");
    assert ColorNamed("windowFg");
    reg.AddComment("Mediaview", palette);
    var c1 := reg.GetElement("windowBg", palette);
    reg.AddColor("mediaviewFileBg", c1.value, palette);
    var c2 := reg.GetElement("windowFg", palette);
    reg.AddColor("mediaviewFileNameFg", c2.value, palette);
    r := Ok(());
  }

  /** The `Mediaview` section, part 2: src/telegram_colors.rs lines 545-549. */
  method MediaviewSection2(reg: Registry, palette: Palette) returns (r: Result<()>)
    requires Sound(reg.elements, palette) && Closed(palette)
    requires "color0" !in reg.elements
    requires "windowSubTextFg" in reg.elements
    modifies reg
    ensures Sound(reg.elements, palette) && reg.mark == old(reg.output) && old(reg.output) <= reg.output
    ensures "color0" !in reg.elements
    ensures old(reg.elements).Keys <= reg.elements.Keys
    ensures r.Ok? <==> "color1" in palette && "color2" in palette && "color3" in palette && "color4" in palette
    ensures r.Abort? ==> r.failure.MissingKey? && r.failure.key !in palette
  {
    reg.mark := reg.output;
    assert ColorNamed("windowSubTextFg");
    var c1 := reg.GetElement("windowSubTextFg", palette);
    reg.AddColor("mediaviewFileSizeFg", c1.value, palette);
    var c2 :- PaletteGet(palette, "color1");
    reg.AddColor("mediaviewFileRedCornerFg", c2, palette);
    var c3 :- PaletteGet(palette, "color2");
    reg.AddColor("mediaviewFileYellowCornerFg", c3, palette);
    var c4 :- PaletteGet(palette, "color3");
    reg.AddColor("mediaviewFileGreenCornerFg", c4, palette);
    var c5 :- PaletteGet(palette, "color4");
    reg.AddColor("mediaviewFileBlueCornerFg", c5, palette);
    r := Ok(());
  }

  /** Lines 529-549 of src/telegram_colors.rs: the sections `Main`, `Media`, `Mediaview`. */
  method Derivation19(reg: Registry, palette: Palette) returns (r: Result<()>)
    requires Sound(reg.elements, palette) && Closed(palette)
    requires "color0" !in reg.elements
    requires "msgInDateFg" in reg.elements && "msgInDateFgSelected" in reg.elements && "msgOutDateFg" in reg.elements && "msgOutDateFgSelected" in reg.elements && "sliderBgInactive" in reg.elements && "windowBg" in reg.elements && "windowBgActive" in reg.elements && "windowFg" in reg.elements && "windowSubTextFg" in reg.elements
    modifies reg
    ensures Sound(reg.elements, palette) && reg.mark == old(reg.output) && old(reg.output) <= reg.output
    ensures "color0" !in reg.elements
    ensures old(reg.elements).Keys <= reg.elements.Keys
    ensures r.Ok? <==> "color1" in palette && "color2" in palette && "color3" in palette && "color4" in palette && "color7" in palette
    ensures r.Abort? ==> r.failure.MissingKey? && r.failure.key !in palette
  {
    var s: Result<()>;
    s := MainSection2(reg, palette);
    reg.Rewind(old(reg.output));
    if s.Abort? { return s; }
    s := MediaSection1(reg, palette);
    reg.Rewind(old(reg.output));
    s := MediaSection2(reg, palette);
    reg.Rewind(old(reg.output));
    s := MediaSection3(reg, palette);
    reg.Rewind(old(reg.output));
    if s.Abort? { return s; }
    s := MediaviewSection1(reg, palette);
    reg.Rewind(old(reg.output));
    s := MediaviewSection2(reg, palette);
    reg.Rewind(old(reg.output));
    if s.Abort? { return s; }
    r := Ok(());
  }

  /** The `Mediaview` section, part 3: src/telegram_colors.rs lines 550-553. */
  method MediaviewSection3(reg: Registry, palette: Palette) returns (r: Result<()>)
    requires Sound(reg.elements, palette) && Closed(palette)
    requires "color0" !in reg.elements
    requires "activeButtonFg" in reg.elements
    modifies reg
    ensures Sound(reg.elements, palette) && reg.mark == old(reg.output) && old(reg.output) <= reg.output
    ensures "color0" !in reg.elements
    ensures old(reg.elements).Keys <= reg.elements.Keys
    ensures r.Ok? <==> "color0" in palette
    ensures r.Abort? ==> r.failure.MissingKey? && r.failure.key !in palette
  {
    reg.mark := reg.output;
    assert ColorNamed("activeButtonFg");
    var c1 := reg.GetElement("activeButtonFg", palette);
    reg.AddColor("mediaviewFileExtFg", c1.value, palette);
    var c2 :- PaletteGet(palette, "color0");
    reg.AddColor("mediaviewMenuBg", c2, palette);
    var c3 := PaletteGet(palette, "color0").value;
    reg.AddColor("mediaviewMenuBgOver", Lighter(c3, 40), palette);
    var c4 := PaletteGet(palette, "color0").value;
    reg.AddColor("mediaviewMenuBgRipple", Lighter(c4, 60), palette);
    r := Ok(());
  }

  /** The `Mediaview` section, part 4: src/telegram_colors.rs lines 554-557. */
  method MediaviewSection4(reg: Registry, palette: Palette) returns (r: Result<()>)
    requires Sound(reg.elements, palette) && Closed(palette)
    requires "color0" !in reg.elements
    requires "imageBg" in reg.elements && "windowFgActive" in reg.elements
    modifies reg
    ensures Sound(reg.elements, palette) && reg.mark == old(reg.output) && old(reg.output) <= reg.output
    ensures "color0" !in reg.elements
    ensures old(reg.elements).Keys <= reg.elements.Keys
    ensures r.Ok? <==> "color0" in palette
    ensures r.Abort? ==> r.failure.MissingKey? && r.failure.key !in palette
  {
    reg.mark := reg.output;
    assert ColorNamed("windowFgActive");
    assert ColorNamed("imageBg");
    var c1 := reg.GetElement("windowFgActive", palette);
    reg.AddColor("mediaviewMenuFg", c1.value, palette);
    var c2 :- PaletteGet(palette, "color0");
    reg.AddColor("mediaviewBg", Darker(c2, 30), palette);
    var c3 := reg.GetElement("imageBg", palette);
    reg.AddColor("mediaviewVideoBg", c3.value, palette);
    var c4 := PaletteGet(palette, "color0").value;
    reg.AddColor("mediaviewControlBg", Darker(c4, 50), palette);
    r := Ok(());
  }

  /** The `Mediaview` section, part 5: src/telegram_colors.rs lines 558-561. */
  method MediaviewSection5(reg: Registry, palette: Palette) returns (r: Result<()>)
    requires Sound(reg.elements, palette) && Closed(palette)
    requires "color0" !in reg.elements
    requires "windowFgActive" in reg.elements
    modifies reg
    ensures Sound(reg.elements, palette) && reg.mark == old(reg.output) && old(reg.output) <= reg.output
    ensures "color0" !in reg.elements
    ensures old(reg.elements).Keys <= reg.elements.Keys
    ensures r.Ok? <==> "color0" in palette && "color7" in palette
    ensures r.Abort? ==> r.failure.MissingKey? && r.failure.key !in palette
  {
    reg.mark := reg.output;
    assert ColorNamed("windowFgActive");
    assert ColorNamed("mediaviewControlFg");
    var c1 := reg.GetElement("windowFgActive", palette);
    reg.AddColor("mediaviewControlFg", c1.value, palette);
    var c2 :- PaletteGet(palette, "color0");
    reg.AddColor("mediaviewCaptionBg", Darker(c2, 50), palette);
    var c3 := reg.GetElement("mediaviewControlFg", palette);
    reg.AddColor("mediaviewCaptionFg", c3.value, palette);
    var c4 :- PaletteGet(palette, "color7");
    reg.AddColor("mediaviewTextLinkFg", c4, palette);
    r := Ok(());
  }

  /** The `Mediaview` section, part 6: src/telegram_colors.rs lines 562-565. */
  method MediaviewSection6(reg: Registry, palette: Palette) returns (r: Result<()>)
    requires Sound(reg.elements, palette) && Closed(palette)
    requires "color0" !in reg.elements
    requires "toastBg" in reg.elements && "toastFg" in reg.elements
    modifies reg
    ensures Sound(reg.elements, palette) && reg.mark == old(reg.output) && old(reg.output) <= reg.output
    ensures "color0" !in reg.elements
    ensures old(reg.elements).Keys <= reg.elements.Keys
    ensures r.Ok? ==> "mediaviewPlaybackActive" in reg.elements
    ensures r.Ok? <==> "color7" in palette
    ensures r.Abort? ==> r.failure.MissingKey? && r.failure.key !in palette
  {
    reg.mark := reg.output;
    assert ColorNamed("toastBg");
    assert ColorNamed("toastFg");
    var c1 := reg.GetElement("toastBg", palette);
    reg.AddColor("mediaviewSaveMsgBg", c1.value, palette);
    var c2 := reg.GetElement("toastFg", palette);
    reg.AddColor("mediaviewSaveMsgFg", c2.value, palette);
    var c3 :- PaletteGet(palette, "color7");
    reg.AddColor("mediaviewPlaybackActive", c3, palette);
    var c4 := PaletteGet(palette, "color7").value;
    reg.AddColor("mediaviewPlaybackInactive", Darker(c4, 50), palette);
    r := Ok(());
  }

  /** The `Mediaview` section, part 7: src/telegram_colors.rs lines 566-569. */
  method MediaviewSection7(reg: Registry, palette: Palette) returns (r: Result<()>)
    requires Sound(reg.elements, palette) && Closed(palette)
    requires "color0" !in reg.elements
    requires "mediaviewPlaybackActive" in reg.elements
    modifies reg
    ensures Sound(reg.elements, palette) && reg.mark == old(reg.output) && old(reg.output) <= reg.output
    ensures "color0" !in reg.elements
    ensures old(reg.elements).Keys <= reg.elements.Keys
    ensures r.Ok? ==> "mediaviewPlaybackActiveOver" in reg.elements
    ensures r.Ok? <==> "color7" in palette
    ensures r.Abort? ==> r.failure.MissingKey? && r.failure.key !in palette
  {
    reg.mark := reg.output;
    assert ColorNamed("mediaviewPlaybackActive");
    var c1 :- PaletteGet(palette, "color7");
    reg.AddColor("mediaviewPlaybackActiveOver", Lighter(c1, 40), palette);
    var c2 := PaletteGet(palette, "color7").value;
    reg.AddColor("mediaviewPlaybackInactiveOver", Darker(c2, 30), palette);
    var c3 := PaletteGet(palette, "color7").value;
    reg.AddColor("mediaviewPlaybackProgressFg", Lighter(c3, 40), palette);
    var c4 := reg.GetElement("mediaviewPlaybackActive", palette);
    reg.AddColor("mediaviewPlaybackIconFg", c4.value, palette);
    r := Ok(());
  }

  /** The `Mediaview` section, part 8: src/telegram_colors.rs lines 570-573. */
  method MediaviewSection8(reg: Registry, palette: Palette) returns (r: Result<()>)
    requires Sound(reg.elements, palette) && Closed(palette)
    requires "color0" !in reg.elements
    requires "mediaviewPlaybackActiveOver" in reg.elements && "windowBg" in reg.elements
    modifies reg
    ensures Sound(reg.elements, palette) && reg.mark == old(reg.output) && old(reg.output) <= reg.output
    ensures "color0" !in reg.elements
    ensures old(reg.elements).Keys <= reg.elements.Keys
    ensures r.Ok? <==> "color7" in palette
    ensures r.Abort? ==> r.failure.MissingKey? && r.failure.key !in palette
  {
    reg.mark := reg.output;
    assert ColorNamed("mediaviewPlaybackActiveOver");
    assert ColorNamed("windowBg");
    var c1 := reg.GetElement("mediaviewPlaybackActiveOver", palette);
    reg.AddColor("mediaviewPlaybackIconFgOver", c1.value, palette);
    var c2 :- PaletteGet(palette, "color7");
    reg.AddColor("mediaviewTransparentBg", Lighter(c2, 40), palette);
    var c3 := PaletteGet(palette, "color7").value;
    reg.AddColor("mediaviewTransparentFg", c3, palette);
    var c4 := reg.GetElement("windowBg", palette);
    reg.AddColor("notificationBg", c4.value, palette);
    r := Ok(());
  }

  /** Lines 550-573 of src/telegram_colors.rs: the sections `Mediaview`. */
  method Derivation20(reg: Registry, palette: Palette) returns (r: Result<()>)
    requires Sound(reg.elements, palette) && Closed(palette)
    requires "color0" !in reg.elements
    requires "activeButtonFg" in reg.elements && "imageBg" in reg.elements && "toastBg" in reg.elements && "toastFg" in reg.elements && "windowBg" in reg.elements && "windowFgActive" in reg.elements
    modifies reg
    ensures Sound(reg.elements, palette) && reg.mark == old(reg.output) && old(reg.output) <= reg.output
    ensures "color0" !in reg.elements
    ensures old(reg.elements).Keys <= reg.elements.Keys
    ensures r.Ok? <==> "color0" in palette && "color7" in palette
    ensures r.Abort? ==> r.failure.MissingKey? && r.failure.key !in palette
  {
    var s: Result<()>;
    s := MediaviewSection3(reg, palette);
    reg.Rewind(old(reg.output));
    if s.Abort? { return s; }
    s := MediaviewSection4(reg, palette);
    reg.Rewind(old(reg.output));
    s := MediaviewSection5(reg, palette);
    reg.Rewind(old(reg.output));
    if s.Abort? { return s; }
    s := MediaviewSection6(reg, palette);
    reg.Rewind(old(reg.output));
    s := MediaviewSection7(reg, palette);
    reg.Rewind(old(reg.output));
    s := MediaviewSection8(reg, palette);
    reg.Rewind(old(reg.output));
    r := Ok(());
  }

  /** The `Call` section, part 1: src/telegram_colors.rs lines 575-580. */
  method Call2Section1(reg: Registry, palette: Palette) returns (r: Result<()>)
    requires Sound(reg.elements, palette) && Closed(palette)
    requires "color0" !in reg.elements
    modifies reg
    ensures Sound(reg.elements, palette) && reg.mark == old(reg.output) && old(reg.output) <= reg.output
    ensures "color0" !in reg.elements
    ensures old(reg.elements).Keys <= reg.elements.Keys
    ensures r.Ok? <==> "color0" in palette && "color7" in palette
    ensures r.Abort? ==> r.failure.MissingKey? && r.failure.key !in palette
  {
    reg.mark := reg.output;
    reg.AddComment("Call", palette);
    var c1 :- PaletteGet(palette, "color0");
    reg.AddColor("callBg", c1, palette);
    var c2 :- PaletteGet(palette, "color7");
    reg.AddColor("callNameFg", Lighter(c2, 40), palette);
    var c3 := PaletteGet(palette, "color0").value;
    reg.AddColor("callFingerprintBg", Alpha(c3, 40), palette);
    var c4 := PaletteGet(palette, "color7").value;
    reg.AddColor("callStatusFg", c4, palette);
    var c5 := PaletteGet(palette, "color7").value;
    reg.AddColor("callIconFg", Lighter(c5, 40), palette);
    r := Ok(());
  }

  /** The `Call` section, part 2: src/telegram_colors.rs lines 581-586. */
  method Call2Section2(reg: Registry, palette: Palette) returns (r: Result<()>)
    requires Sound(reg.elements, palette) && Closed(palette)
    requires "color0" !in reg.elements
    modifies reg
    ensures Sound(reg.elements, palette) && reg.mark == old(reg.output) && old(reg.output) <= reg.output
    ensures "color0" !in reg.elements
    ensures old(reg.elements).Keys <= reg.elements.Keys
    ensures r.Ok? <==> "color1" in palette && "color2" in palette && "color7" in palette
    ensures r.Abort? ==> r.failure.MissingKey? && r.failure.key !in palette
  {
    reg.mark := reg.output;
    var c1 :- PaletteGet(palette, "color2");
    reg.AddColor("callAnswerBg", c1, palette);
    var c2 := PaletteGet(palette, "color2").value;
    reg.AddColor("callAnswerRipple", Darker(c2, 30), palette);
    var c3 := PaletteGet(palette, "color2").value;
    reg.AddColor("callAnswerBgOuter", Lighter(c3, 30), palette);
    var c4 :- PaletteGet(palette, "color1");
    reg.AddColor("callHangupBg", c4, palette);
    var c5 := PaletteGet(palette, "color1").value;
    reg.AddColor("callHangupRipple", Darker(c5, 30), palette);
    var c6 :- PaletteGet(palette, "color7");
    reg.AddColor("callCancelBg", Lighter(c6, 40), palette);
    r := Ok(());
  }

  /** The `Call` section, part 3: src/telegram_colors.rs lines 587-591. */
  method Call2Section3(reg: Registry, palette: Palette) returns (r: Result<()>)
    requires Sound(reg.elements, palette) && Closed(palette)
    requires "color0" !in reg.elements
    requires "dialogsBgActive" in reg.elements
    modifies reg
    ensures Sound(reg.elements, palette) && reg.mark == old(reg.output) && old(reg.output) <= reg.output
    ensures "color0" !in reg.elements
    ensures old(reg.elements).Keys <= reg.elements.Keys
    ensures r.Ok? <==> "color7" in palette
    ensures r.Abort? ==> r.failure.MissingKey? && r.failure.key !in palette
  {
    reg.mark := reg.output;
    assert ColorNamed("dialogsBgActive");
    var c1 :- PaletteGet(palette, "color7");
    reg.AddColor("callCancelFg", Darker(c1, 40), palette);
    var c2 := PaletteGet(palette, "color7").value;
    reg.AddColor("callCancelRipple", Lighter(c2, 40), palette);
    YoutubeBgLiteral();
    var c3 := HexColor("83131c").value;
    reg.AddColor("youtubePlayIconBg", Alpha(c3, 50), palette);
    WhiteLiteral();
    var c4 := HexColor("ffffff").value;
    reg.AddColor("callMuteRipple", Alpha(c4, 5), palette);
    var c5 := reg.GetElement("dialogsBgActive", palette);
    reg.AddColor("callBarBg", c5.value, palette);
    r := Ok(());
  }

  /** The `Call` section, part 4: src/telegram_colors.rs lines 592-595. */
  method Call2Section4(reg: Registry, palette: Palette) returns (r: Result<()>)
    requires Sound(reg.elements, palette) && Closed(palette)
    requires "color0" !in reg.elements
    requires "dialogsNameFgActive" in reg.elements && "dialogsRippleBgActive" in reg.elements
    modifies reg
    ensures Sound(reg.elements, palette) && reg.mark == old(reg.output) && old(reg.output) <= reg.output
    ensures "color0" !in reg.elements
    ensures old(reg.elements).Keys <= reg.elements.Keys
    ensures r.Ok? <==> "color0" in palette
    ensures r.Abort? ==> r.failure.MissingKey? && r.failure.key !in palette
  {
    reg.mark := reg.output;
    assert ColorNamed("dialogsRippleBgActive");
    assert ColorNamed("dialogsNameFgActive");
    var c1 := reg.GetElement("dialogsRippleBgActive", palette);
    reg.AddColor("callBarMuteRipple", c1.value, palette);
    var c2 :- PaletteGet(palette, "color0");
    reg.AddColor("callBarBgMuted", Lighter(c2, 40), palette);
    var c3 := PaletteGet(palette, "color0").value;
    reg.AddColor("callBarUnmuteRipple", Lighter(c3, 40), palette);
    var c4 := reg.GetElement("dialogsNameFgActive", palette);
    reg.AddColor("callBarFg", c4.value, palette);
    r := Ok(());
  }

  /** The `Important` section: src/telegram_colors.rs lines 597-600. */
  method ImportantSection(reg: Registry, palette: Palette) returns (r: Result<()>)
    requires Sound(reg.elements, palette) && Closed(palette)
    requires "color0" !in reg.elements
    requires "toastBg" in reg.elements && "toastFg" in reg.elements
    modifies reg
    ensures Sound(reg.elements, palette) && reg.mark == old(reg.output) && old(reg.output) <= reg.output
    ensures "color0" !in reg.elements
    ensures old(reg.elements).Keys <= reg.elements.Keys
    ensures r.Ok? <==> "color2" in palette
    ensures r.Abort? ==> r.failure.MissingKey? && r.failure.key !in palette
  {
    reg.mark := reg.output;
    assert ColorNamed("toastBg");
    assert ColorNamed("toastFg");
    reg.AddComment("Important", palette);
    var c1 := reg.GetElement("toastBg", palette);
    reg.AddColor("importantTooltipBg", c1.value, palette);
    var c2 := reg.GetElement("toastFg", palette);
    reg.AddColor("importantTooltipFg", c2.value, palette);
    var c3 :- PaletteGet(palette, "color2");
    reg.AddColor("importantTooltipFgLink", c3, palette);
    r := Ok(());
  }

  /** The `Bot` section: src/telegram_colors.rs lines 602-604. */
  method BotSection(reg: Registry, palette: Palette) returns (r: Result<()>)
    requires Sound(reg.elements, palette) && Closed(palette)
    requires "color0" !in reg.elements
    modifies reg
    ensures Sound(reg.elements, palette) && reg.mark == old(reg.output) && old(reg.output) <= reg.output
    ensures "color0" !in reg.elements
    ensures old(reg.elements).Keys <= reg.elements.Keys
    ensures r.Ok? <==> "color0" in palette
    ensures r.Abort? ==> r.failure.MissingKey? && r.failure.key !in palette
  {
    reg.mark := reg.output;
    reg.AddComment("Bot", palette);
    var c1 :- PaletteGet(palette, "color0");
    reg.AddColor("botKbBg", c1, palette);
    var c2 := PaletteGet(palette, "color0").value;
    reg.AddColor("botKbDownBg", Lighter(c2, 40), palette);
    r := Ok(());
  }

  /** Lines 575-604 of src/telegram_colors.rs: the sections `Call`, `Important`, `Bot`. */
  method Derivation21(reg: Registry, palette: Palette) returns (r: Result<()>)
    requires Sound(reg.elements, palette) && Closed(palette)
    requires "color0" !in reg.elements
    requires "dialogsBgActive" in reg.elements && "dialogsNameFgActive" in reg.elements && "dialogsRippleBgActive" in reg.elements && "toastBg" in reg.elements && "toastFg" in reg.elements
    modifies reg
    ensures Sound(reg.elements, palette) && reg.mark == old(reg.output) && old(reg.output) <= reg.output
    ensures "color0" !in reg.elements
    ensures old(reg.elements).Keys <= reg.elements.Keys
    ensures r.Ok? <==> "color0" in palette && "color1" in palette && "color2" in palette && "color7" in palette
    ensures r.Abort? ==> r.failure.MissingKey? && r.failure.key !in palette
  {
    var s: Result<()>;
    s := Call2Section1(reg, palette);
    reg.Rewind(old(reg.output));
    if s.Abort? { return s; }
    s := Call2Section2(reg, palette);
    reg.Rewind(old(reg.output));
    if s.Abort? { return s; }
    s := Call2Section3(reg, palette);
    reg.Rewind(old(reg.output));
    s := Call2Section4(reg, palette);
    reg.Rewind(old(reg.output));
    s := ImportantSection(reg, palette);
    reg.Rewind(old(reg.output));
    s := BotSection(reg, palette);
    reg.Rewind(old(reg.output));
    r := Ok(());
  }

  /** The `Overview` section: src/telegram_colors.rs lines 606-607. */
  method Overview2Section(reg: Registry, palette: Palette) returns (r: Result<()>)
    requires Sound(reg.elements, palette) && Closed(palette)
    requires "color0" !in reg.elements
    modifies reg
    ensures Sound(reg.elements, palette) && reg.mark == old(reg.output) && old(reg.output) <= reg.output
    ensures "color0" !in reg.elements
    ensures old(reg.elements).Keys <= reg.elements.Keys
    ensures r.Ok? <==> "color2" in palette
    ensures r.Abort? ==> r.failure.MissingKey? && r.failure.key !in palette
  {
    reg.mark := reg.output;
    reg.AddComment("Overview", palette);
    var c1 :- PaletteGet(palette, "color2");
    reg.AddColor("overviewCheckBorder", c1, palette);
    r := Ok(());
  }

  /** The `Sidebar` section, part 1: src/telegram_colors.rs lines 609-614. */
  method SidebarSection1(reg: Registry, palette: Palette) returns (r: Result<()>)
    requires Sound(reg.elements, palette) && Closed(palette)
    requires "color0" !in reg.elements
    modifies reg
    ensures Sound(reg.elements, palette) && reg.mark == old(reg.output) && old(reg.output) <= reg.output
    ensures "color0" !in reg.elements
    ensures old(reg.elements).Keys <= reg.elements.Keys
    ensures r.Ok? <==> "color0" in palette && "color1" in palette && "color2" in palette && "color7" in palette
    ensures r.Abort? ==> r.failure.MissingKey? && r.failure.key !in palette
  {
    reg.mark := reg.output;
    reg.AddComment("Sidebar", palette);
    var c1 :- PaletteGet(palette, "color0");
    reg.AddColor("sideBarBg", c1, palette);
    var c2 :- PaletteGet(palette, "color2");
    reg.AddColor("sideBarBgActive", c2, palette);
    var c3 :- PaletteGet(palette, "color1");
    reg.AddColor("sideBarBgRipple", c3, palette);
    var c4 := PaletteGet(palette, "color1").value;
    reg.AddColor("sideBarTextFg", c4, palette);
    var c5 :- PaletteGet(palette, "color7");
    reg.AddColor("sideBarTextFgActive", c5, palette);
    r := Ok(());
  }

  /** The `Sidebar` section, part 2: src/telegram_colors.rs lines 615-619. */
  method SidebarSection2(reg: Registry, palette: Palette) returns (r: Result<()>)
    requires Sound(reg.elements, palette) && Closed(palette)
    requires "color0" !in reg.elements
    modifies reg
    ensures Sound(reg.elements, palette) && reg.mark == old(reg.output) && old(reg.output) <= reg.output
    ensures "color0" !in reg.elements
    ensures old(reg.elements).Keys <= reg.elements.Keys
    ensures r.Ok? <==> "color1" in palette && "color7" in palette
    ensures r.Abort? ==> r.failure.MissingKey? && r.failure.key !in palette
  {
    reg.mark := reg.output;
    var c1 :- PaletteGet(palette, "color7");
    reg.AddColor("sideBarIconFg", c1, palette);
    var c2 := PaletteGet(palette, "color7").value;
    reg.AddColor("sideBarIconFgActive", Lighter(c2, 40), palette);
    var c3 :- PaletteGet(palette, "color1");
    reg.AddColor("sideBarBadgeBg", c3, palette);
    var c4 := PaletteGet(palette, "color7").value;
    reg.AddColor("sideBarBadgeBgMuted", Darker(c4, 40), palette);
    var c5 := PaletteGet(palette, "color7").value;
    reg.AddColor("sideBarBadgeFg", Lighter(c5, 40), palette);
    r := Ok(());
  }

  /** The `DUNNO` section: src/telegram_colors.rs lines 621-622. */
  method DunnoSection(reg: Registry, palette: Palette) returns (r: Result<()>)
    requires Sound(reg.elements, palette) && Closed(palette)
    requires "color0" !in reg.elements
    modifies reg
    ensures Sound(reg.elements, palette) && reg.mark == old(reg.output) && old(reg.output) <= reg.output
    ensures "color0" !in reg.elements
    ensures old(reg.elements).Keys <= reg.elements.Keys
    ensures r.Ok? <==> "color7" in palette
    ensures r.Abort? ==> r.failure.MissingKey? && r.failure.key !in palette
  {
    reg.mark := reg.output;
    reg.AddComment("DUNNO", palette);
    var c1 :- PaletteGet(palette, "color7");
    reg.AddColor("profileOtherAdminStarFg", c1, palette);
    r := Ok(());
  }

  /** Lines 606-622 of src/telegram_colors.rs: the sections `Overview`, `Sidebar`, `DUNNO`. */
  method Derivation22(reg: Registry, palette: Palette) returns (r: Result<()>)
    requires Sound(reg.elements, palette) && Closed(palette)
    requires "color0" !in reg.elements
    modifies reg
    ensures Sound(reg.elements, palette) && reg.mark == old(reg.output) && old(reg.output) <= reg.output
    ensures "color0" !in reg.elements
    ensures old(reg.elements).Keys <= reg.elements.Keys
    ensures r.Ok? <==> "color0" in palette && "color1" in palette && "color2" in palette && "color7" in palette
    ensures r.Abort? ==> r.failure.MissingKey? && r.failure.key !in palette
  {
    var s: Result<()>;
    s := Overview2Section(reg, palette);
    reg.Rewind(old(reg.output));
    if s.Abort? { return s; }
    s := SidebarSection1(reg, palette);
    reg.Rewind(old(reg.output));
    if s.Abort? { return s; }
    s := SidebarSection2(reg, palette);
    reg.Rewind(old(reg.output));
    s := DunnoSection(reg, palette);
    reg.Rewind(old(reg.output));
    r := Ok(());
  }

  /** Lines 529-622 of src/telegram_colors.rs: in turn Derivation19, Derivation20, Derivation21, Derivation22. */
  method DerivationBlock4(reg: Registry, palette: Palette) returns (r: Result<()>)
    requires Sound(reg.elements, palette) && Closed(palette)
    requires "color0" !in reg.elements
    requires "activeButtonFg" in reg.elements && "dialogsBgActive" in reg.elements && "dialogsNameFgActive" in reg.elements && "dialogsRippleBgActive" in reg.elements && "imageBg" in reg.elements && "msgInDateFg" in reg.elements && "msgInDateFgSelected" in reg.elements && "msgOutDateFg" in reg.elements && "msgOutDateFgSelected" in reg.elements && "sliderBgInactive" in reg.elements && "toastBg" in reg.elements && "toastFg" in reg.elements && "windowBg" in reg.elements && "windowBgActive" in reg.elements && "windowFg" in reg.elements && "windowFgActive" in reg.elements && "windowSubTextFg" in reg.elements
    modifies reg
    ensures Sound(reg.elements, palette) && reg.mark == old(reg.output) && old(reg.output) <= reg.output
    ensures "color0" !in reg.elements
    ensures old(reg.elements).Keys <= reg.elements.Keys
    ensures r.Ok? <==> "color0" in palette && "color1" in palette && "color2" in palette && "color3" in palette && "color4" in palette && "color7" in palette
    ensures r.Abort? ==> r.failure.MissingKey? && r.failure.key !in palette
  {
    var s: Result<()>;
    s := Derivation19(reg, palette);
    reg.Rewind(old(reg.output));
    if s.Abort? { return s; }
    s := Derivation20(reg, palette);
    reg.Rewind(old(reg.output));
    if s.Abort? { return s; }
    s := Derivation21(reg, palette);
    reg.Rewind(old(reg.output));
    s := Derivation22(reg, palette);
    reg.Rewind(old(reg.output));
    r := Ok(());
  }

  /** Lines 48-622 of src/telegram_colors.rs: in turn DerivationBlock1, DerivationBlock2, DerivationBlock3, DerivationBlock4. */
  method Derivation(reg: Registry, palette: Palette) returns (r: Result<()>)
    requires Sound(reg.elements, palette) && Closed(palette)
    requires "color0" !in reg.elements
    modifies reg
    ensures Sound(reg.elements, palette) && reg.mark == old(reg.output) && old(reg.output) <= reg.output
    ensures "color0" !in reg.elements
    ensures old(reg.elements).Keys <= reg.elements.Keys
    ensures r.Ok? <==> "color0" in palette && "color1" in palette && "color2" in palette && "color3" in palette && "color4" in palette && "color5" in palette && "color6" in palette && "color7" in palette && "color8" in palette && "color10" in palette && "color15" in palette
    ensures r.Abort? ==> r.failure.MissingKey? && r.failure.key !in palette
  {
    var s: Result<()>;
    s := DerivationBlock1(reg, palette);
    reg.Rewind(old(reg.output));
    if s.Abort? { return s; }
    s := DerivationBlock2(reg, palette);
    reg.Rewind(old(reg.output));
    if s.Abort? { return s; }
    s := DerivationBlock3(reg, palette);
    reg.Rewind(old(reg.output));
    assert s.Ok?;
    s := DerivationBlock4(reg, palette);
    reg.Rewind(old(reg.output));
    assert s.Ok?;
    r := Ok(());
  }

  /** The text the older `get_telegram_colors` starts with: the testing colours. */
  function Opening(): (r: string)
    ensures CommentLine("Colors for testing purposes") <= r && |r| == 77
  {
    CommentLine("Colors for testing purposes") + "colorPink: #ff7fc6ff;\n" + "colorGreen: #0bd500ff;\n"
  }

  /** The older `get_telegram_colors`. `elements` is what the registry holds at the end:
      the palette keys are never recorded in it, so `get_element("color0")` would abort. */
  method GetTelegramColors(palette: Palette) returns (r: Result<string>, ghost elements: map<string, Option<Color>>)
    requires Closed(palette)
    ensures r.Ok? <==> DirectKeys(palette)
    ensures r.Abort? ==> r.failure.MissingKey? && r.failure.key !in palette
    ensures r.Ok? ==> Opening() <= r.value
    ensures r.Ok? ==> Lookup(elements, "color0") == Abort(Undefined("color0"))
  {
    var reg := new Registry();
    var s := ColorsForTestingPurposesSection(reg, palette);
    assert reg.output == Opening();
    s := Derivation(reg, palette);
    elements := reg.elements;
    if s.Abort? { return Abort(s.failure), elements; }
    r := Ok(reg.output);
  }
}
