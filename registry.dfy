/** The registry `get_telegram_colors` builds its theme with: the theme text written so far
    (`ret`) and every name added so far (`elements`), mapped to its colour, or to `None`
    when the name labels a comment. `add_any` appends one line and records the name,
    `add_color` and `add_comment` are its two uses, and `get_element` reads a colour back. */
module ThemeRegistry {
  import opened Outcomes
  import opened Text
  import opened Colors

  /** The theme line of the colour `c` named `el`: `el: #rrggbbaa;`. */
  function ColorLine(el: string, c: Color): (r: string)
    ensures |r| == |el| + 13 && r[..|el|] == el && r[|el|..|el| + 3] == ": #"
    ensures r[|el| + 3..|el| + 11] == ToHex(c) && r[|el| + 11..] == ";\n"
  {
    el + ": #" + ToHex(c) + ";\n"
  }

  /** The theme line of the comment `note`: a blank line, then `// note`. */
  function CommentLine(note: string): (r: string)
    ensures |r| == |note| + 5 && r[..4] == "\n// " && r[4..|r| - 1] == note && r[|r| - 1] == '\n'
  {
    "\n// " + note + "\n"
  }

  /** What `add_any(el, col)` writes: one line ending in a newline, which starts with a
      blank line exactly when it is a comment (or the name itself starts with one). */
  function Rendered(el: string, col: Option<Color>): (r: string)
    ensures r != [] && r[|r| - 1] == '\n'
    ensures r[0] == '\n' <==> col.None? || (el != [] && el[0] == '\n')
  {
    match col
    case Some(c) => ColorLine(el, c)
    case None => CommentLine(el)
  }

  /** `get_element(el)` on the recorded `elements`. */
  function Lookup(elements: map<string, Option<Color>>, el: string): (r: Result<Color>)
    ensures r.Abort? <==> el !in elements || elements[el].None?
    ensures r.Ok? ==> elements[el] == Some(r.value)
    ensures r.Abort? ==> r.failure == (if el in elements then NotAColor(el) else Undefined(el))
  {
    if el !in elements then Abort(Undefined(el))
    else match elements[el]
      case None => Abort(NotAColor(el))
      case Some(c) => Ok(c)
  }

  /** A name starting with a lower-case ASCII letter. Every colour name of the theme starts
      with one and every comment label with an upper-case letter, which is why no lookup of
      a colour name can meet a comment. */
  predicate ColorNamed(el: string)
  {
    el != [] && 'a' <= el[0] <= 'z'
  }

  /** `colors[key]` on the palette. */
  function PaletteGet(palette: Palette, key: string): (r: Result<Color>)
    ensures r.Ok? <==> key in palette
    ensures r.Ok? ==> r.value == palette[key]
    ensures r.Abort? ==> r.failure == MissingKey(key)
  {
    if key in palette then Ok(palette[key]) else Abort(MissingKey(key))
  }

  /** `Color::from_hex(hex).unwrap()`. */
  function HexColor(hex: string): (r: Result<Color>)
    ensures r.Ok? <==> FromHex(hex).Ok? && FromHex(hex).value.Some?
    ensures r.Ok? ==> r.value == FromHex(hex).value.value && r.value.contrasts == []
  {
    match FromHex(hex)
    case Abort(f) => Abort(f)
    case Ok(None) => Abort(HexRejected)
    case Ok(Some(c)) => Ok(c)
  }

  /** Six hex digits, with or without a leading `#`, decode to an opaque colour written as
      the digits lower-cased followed by `ff`. */
  lemma HexLiteral(s: string)
    requires |s| == 6 && AllDigits(s, 16)
    ensures HexColor(s).Ok? && ToHex(HexColor(s).value) == Lower(s) + "ff"
    ensures HexColor(['#'] + s) == HexColor(s)
  {
    HexRoundTrip6(s);
    HashesIgnored(s);
  }

  // The hex literals of the theme, one lemma each: every one decodes, and those the
  // theme writes directly render as their digits followed by `ff`.

  lemma PinkLiteral()
    ensures HexColor("ff7fc6").Ok? && ToHex(HexColor("ff7fc6").value) == "ff7fc6ff"
  {
    assert AllDigits("ff7fc6", 16);
    HexLiteral("ff7fc6");
    LowerLiteralff7fc6();
  }

  lemma GreenLiteral()
    ensures HexColor("0bd500").Ok? && ToHex(HexColor("0bd500").value) == "0bd500ff"
  {
    assert AllDigits("0bd500", 16);
    HexLiteral("0bd500");
    LowerLiteral0bd500();
  }

  lemma ErrorLiteral()
    ensures HexColor("#d55070").Ok? && ToHex(HexColor("#d55070").value) == "d55070ff"
  {
    assert AllDigits("d55070", 16);
    HexLiteral("d55070");
    HashLiterald55070();
    LowerLiterald55070();
  }

  lemma SuccessLiteral()
    ensures HexColor("#6bf576").Ok? && ToHex(HexColor("#6bf576").value) == "6bf576ff"
  {
    assert AllDigits("6bf576", 16);
    HexLiteral("6bf576");
    HashLiteral6bf576();
    LowerLiteral6bf576();
  }

  lemma YoutubeBgLiteral()
    ensures HexColor("83131c").Ok?
  {
    assert AllDigits("83131c", 16);
    HexLiteral("83131c");
  }

  lemma WhiteLiteral()
    ensures HexColor("ffffff").Ok?
  {
    assert AllDigits("ffffff", 16);
    HexLiteral("ffffff");
  }

  /** The line of a colour whose hex text is known. */
  lemma ColorLineOf(el: string, c: Color, hex: string)
    requires ToHex(c) == hex
    ensures ColorLine(el, c) == el + ": #" + hex + ";\n"
  {
  }

  /** The four literal lines, spelled out. */
  lemma LineLiterals()
    ensures "colorPink" + ": #" + "ff7fc6ff" + ";\n" == "colorPink: #ff7fc6ff;\n"
    ensures "colorGreen" + ": #" + "0bd500ff" + ";\n" == "colorGreen: #0bd500ff;\n"
    ensures "colorError" + ": #" + "d55070ff" + ";\n" == "colorError: #d55070ff;\n"
    ensures "colorSuccess" + ": #" + "6bf576ff" + ";\n" == "colorSuccess: #6bf576ff;\n"
  {
  }

  /** The theme lines of the four colours written from literals. */
  lemma PinkLine(c: Color)
    requires ToHex(c) == "ff7fc6ff"
    ensures ColorLine("colorPink", c) == "colorPink: #ff7fc6ff;\n"
  {
    ColorLineOf("colorPink", c, "ff7fc6ff");
    LineLiterals();
  }

  lemma GreenLine(c: Color)
    requires ToHex(c) == "0bd500ff"
    ensures ColorLine("colorGreen", c) == "colorGreen: #0bd500ff;\n"
  {
    ColorLineOf("colorGreen", c, "0bd500ff");
    LineLiterals();
  }

  lemma ErrorLine(c: Color)
    requires ToHex(c) == "d55070ff"
    ensures ColorLine("colorError", c) == "colorError: #d55070ff;\n"
  {
    ColorLineOf("colorError", c, "d55070ff");
    LineLiterals();
  }

  lemma SuccessLine(c: Color)
    requires ToHex(c) == "6bf576ff"
    ensures ColorLine("colorSuccess", c) == "colorSuccess: #6bf576ff;\n"
  {
    ColorLineOf("colorSuccess", c, "6bf576ff");
    LineLiterals();
  }

  /** The sixteen keys `color0` .. `color15` of a terminal palette. */
  predicate HasBasePalette(palette: Palette)
  {
    "color0" in palette && "color1" in palette && "color2" in palette && "color3" in palette &&
    "color4" in palette && "color5" in palette && "color6" in palette && "color7" in palette &&
    "color8" in palette && "color9" in palette && "color10" in palette && "color11" in palette &&
    "color12" in palette && "color13" in palette && "color14" in palette && "color15" in palette
  }

  lemma LowerLiteralff7fc6()
    ensures Lower("ff7fc6") + "ff" == "ff7fc6ff"
  {
  }

  lemma LowerLiteral0bd500()
    ensures Lower("0bd500") + "ff" == "0bd500ff"
  {
  }

  lemma LowerLiterald55070()
    ensures Lower("d55070") + "ff" == "d55070ff"
  {
  }

  lemma LowerLiteral6bf576()
    ensures Lower("6bf576") + "ff" == "6bf576ff"
  {
  }

  lemma HashLiterald55070()
    ensures ['#'] + "d55070" == "#d55070"
  {
  }

  lemma HashLiteral6bf576()
    ensures ['#'] + "6bf576" == "#6bf576"
  {
  }

  /** A prefix of a prefix is a prefix. */
  lemma PrefixTrans(head: string, before: string, after: string)
    requires head <= before && before <= after
    ensures head <= after
  {
  }

  /** One more line of at least 13 chars keeps the prefix and the length bound. */
  lemma ExtendStep(head: string, before: string, line: string, n: nat)
    requires n > 0 && head <= before && |before| >= |head| + 13 * (n - 1) && |line| >= 13
    ensures head <= before + line && |before + line| >= |head| + 13 * n
  {
    PrefixAppend(head, before, line);
  }

  /** A colour line is at least 13 chars long. */
  lemma ColorLineLength(el: string, c: Color)
    ensures |ColorLine(el, c)| >= 13
  {
  }

  /** Appending text keeps a prefix. */
  lemma PrefixAppend(head: string, before: string, more: string)
    requires head <= before
    ensures head <= before + more
  {
    assert (before + more)[..|before|] == before;
  }

  /** What the derivation relies on in the names recorded so far: a name that starts like
      a colour name holds a colour, and every colour held names only keys of `palette` as
      its neighbours. */
  predicate Sound(elements: map<string, Option<Color>>, palette: Palette)
  {
    forall k :: k in elements ==>
      (ColorNamed(k) ==> elements[k].Some?) &&
      (elements[k].Some? ==> RefsIn(elements[k].value, palette))
  }

  /** Recording a colour whose neighbours are palette keys, or recording a comment under a
      name that does not start like a colour name, keeps the registry sound. */
  lemma SoundUpdate(elements: map<string, Option<Color>>, palette: Palette, el: string, col: Option<Color>)
    requires Sound(elements, palette)
    requires ColorNamed(el) ==> col.Some?
    requires col.Some? ==> RefsIn(col.value, palette)
    ensures Sound(elements[el := col], palette)
  {
    var updated := elements[el := col];
    forall k | k in updated
      ensures (ColorNamed(k) ==> updated[k].Some?) && (updated[k].Some? ==> RefsIn(updated[k].value, palette))
    {
      if k != el {
        assert updated[k] == elements[k];
      }
    }
  }

  /** The state shared by the closures of `get_telegram_colors`. */
  class Registry {
    /** `ret`: the theme text so far. */
    var output: string
    /** `elements`: every name added so far; `None` for a comment. */
    var elements: map<string, Option<Color>>
    /** The text as it stood when the section being written began: every add keeps it a
        prefix of `output`, so a section only appends. */
    ghost var mark: string

    constructor ()
      ensures output == [] && elements == map[] && mark == []
    {
      output := [];
      elements := map[];
      mark := [];
    }

    /** `add_any`: append the line of `el` and record `col` under `el`, replacing what an
        earlier add of the same name recorded. In particular the first palette key `color0`
        is recorded only by an add under that very name, and so is `color15`. */
    method AddAny(el: string, col: Option<Color>, ghost palette: Palette)
      requires Sound(elements, palette)
      requires ColorNamed(el) ==> col.Some?
      requires col.Some? ==> RefsIn(col.value, palette)
      requires mark <= output
      modifies this
      ensures output == old(output) + Rendered(el, col)
      ensures old(output) <= output
      ensures mark == old(mark) && mark <= output
      ensures elements == old(elements)[el := col]
      ensures Sound(elements, palette)
      ensures "color0" in elements <==> "color0" in old(elements) || el == "color0"
      ensures "color15" in elements <==> "color15" in old(elements) || el == "color15"
      ensures "color0" in old(elements) && el != "color0" ==> elements["color0"] == old(elements)["color0"]
      ensures "color15" in old(elements) && el != "color15" ==> elements["color15"] == old(elements)["color15"]
    {
      var line := Rendered(el, col);
      PrefixAppend(output, output, line);
      PrefixAppend(mark, output, line);
      output := output + line;
      SoundUpdate(elements, palette, el, col);
      elements := elements[el := col];
    }

    /** Moves the mark back to `start`, an earlier text that the current mark extends, so
        that a run of sections, each only appending, only appends as a whole. */
    ghost method Rewind(start: string)
      requires start <= mark && mark <= output
      modifies this
      ensures mark == start && start <= output
      ensures output == old(output) && elements == old(elements)
    {
      PrefixTrans(start, mark, output);
      mark := start;
    }

    /** `add_color`. */
    method AddColor(el: string, c: Color, ghost palette: Palette)
      requires Sound(elements, palette) && RefsIn(c, palette) && mark <= output
      modifies this
      ensures output == old(output) + ColorLine(el, c)
      ensures old(output) <= output
      ensures mark == old(mark) && mark <= output
      ensures elements == old(elements)[el := Some(c)]
      ensures Sound(elements, palette)
      ensures "color0" in elements <==> "color0" in old(elements) || el == "color0"
      ensures "color15" in elements <==> "color15" in old(elements) || el == "color15"
      ensures "color0" in old(elements) && el != "color0" ==> elements["color0"] == old(elements)["color0"]
      ensures "color15" in old(elements) && el != "color15" ==> elements["color15"] == old(elements)["color15"]
    {
      AddAny(el, Some(c), palette);
    }

    /** `add_comment`: a label never starts like a colour name. */
    method AddComment(note: string, ghost palette: Palette)
      requires Sound(elements, palette) && !ColorNamed(note) && mark <= output
      modifies this
      ensures output == old(output) + CommentLine(note)
      ensures old(output) <= output
      ensures mark == old(mark) && mark <= output
      ensures elements == old(elements)[note := None]
      ensures Sound(elements, palette)
      ensures "color0" in elements <==> "color0" in old(elements) || note == "color0"
      ensures "color15" in elements <==> "color15" in old(elements) || note == "color15"
      ensures "color0" in old(elements) && note != "color0" ==> elements["color0"] == old(elements)["color0"]
      ensures "color15" in old(elements) && note != "color15" ==> elements["color15"] == old(elements)["color15"]
    {
      AddAny(note, None, palette);
    }

    /** `get_element`: the colour last recorded under `el`; a name never added, and one last
        added as a comment, abort. */
    method GetElement(el: string, ghost palette: Palette) returns (r: Result<Color>)
      requires Sound(elements, palette)
      ensures r == Lookup(elements, el)
      ensures ColorNamed(el) && el in elements ==> r.Ok?
      ensures r.Ok? ==> RefsIn(r.value, palette)
    {
      if el !in elements {
        return Abort(Undefined(el));
      }
      match elements[el] {
        case None => return Abort(NotAColor(el));
        case Some(c) => return Ok(c);
      }
    }

    /** The loop over the sorted palette keys: each key is added with its palette colour. */
    method AddPalette(keys: seq<string>, palette: Palette)
      requires Sound(elements, palette) && Closed(palette) && mark <= output
      requires forall i :: 0 <= i < |keys| ==> keys[i] in palette
      modifies this
      ensures output == Listing(old(output), keys, |keys|, palette)
      ensures elements == Registered(old(elements), keys, |keys|, palette)
      ensures Sound(elements, palette)
      ensures mark == old(mark) && mark <= output
    {
      for n := 0 to |keys|
        invariant Sound(elements, palette) && mark == old(mark) && mark <= output
        invariant output == Listing(old(output), keys, n, palette)
        invariant elements == Registered(old(elements), keys, n, palette)
      {
        AddColor(keys[n], palette[keys[n]], palette);
      }
    }
  }

  /** `output` followed by the lines of the first `n` of `keys`, each with its palette
      colour, in order. */
  function Listing(output: string, keys: seq<string>, n: nat, palette: Palette): string
    requires n <= |keys| && forall i :: 0 <= i < |keys| ==> keys[i] in palette
  {
    if n == 0 then output else Listing(output, keys, n - 1, palette) + ColorLine(keys[n - 1], palette[keys[n - 1]])
  }

  /** The listing keeps `output` in front and adds a line of at least 13 chars per key. */
  lemma {:induction false} ListingExtends(output: string, keys: seq<string>, n: nat, palette: Palette)
    requires n <= |keys| && forall i :: 0 <= i < |keys| ==> keys[i] in palette
    ensures output <= Listing(output, keys, n, palette)
    ensures |Listing(output, keys, n, palette)| >= |output| + 13 * n
  {
    if n > 0 {
      ListingExtends(output, keys, n - 1, palette);
      ColorLineLength(keys[n - 1], palette[keys[n - 1]]);
      ExtendStep(output, Listing(output, keys, n - 1, palette), ColorLine(keys[n - 1], palette[keys[n - 1]]), n);
    }
  }

  /** `elements` after the first `n` of `keys` are added with their palette colours. */
  function Registered(elements: map<string, Option<Color>>, keys: seq<string>, n: nat, palette: Palette): map<string, Option<Color>>
    requires n <= |keys| && forall i :: 0 <= i < |keys| ==> keys[i] in palette
  {
    if n == 0 then elements
    else Registered(elements, keys, n - 1, palette)[keys[n - 1] := Some(palette[keys[n - 1]])]
  }

  /** After the loop every key is registered with its palette colour, and every other name
      keeps what it had. */
  lemma {:induction false} RegisteredMeans(elements: map<string, Option<Color>>, keys: seq<string>, n: nat, palette: Palette)
    requires n <= |keys| && forall i :: 0 <= i < |keys| ==> keys[i] in palette
    ensures forall i :: 0 <= i < n ==> keys[i] in Registered(elements, keys, n, palette)
    ensures forall i :: 0 <= i < n ==> Registered(elements, keys, n, palette)[keys[i]] == Some(palette[keys[i]])
    ensures forall k :: k in elements ==> k in Registered(elements, keys, n, palette)
    ensures forall k :: k in Registered(elements, keys, n, palette) && k !in keys[..n] ==> k in elements
    ensures forall k :: k in elements && k !in keys[..n] ==> Registered(elements, keys, n, palette)[k] == elements[k]
  {
    if n > 0 {
      RegisteredMeans(elements, keys, n - 1, palette);
      assert keys[..n] == keys[..n - 1] + [keys[n - 1]];
    }
  }
}
