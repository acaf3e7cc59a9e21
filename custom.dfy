/** `import_custom_palette`: the palette of a user file of lines such as
    `color7 = "#102030"`. Each line the entry pattern matches sets the colour of the key
    `color` + its index digits; the result must have at least 16 keys, and its largest
    parsed index must be its size minus one. */
module CustomPalette {
  import opened Outcomes
  import opened Text
  import opened Colors

  // ---------------------------------------------------------------- the entry pattern

  /** `\s` on ASCII text: space, tab, line feed, vertical tab, form feed, carriage return. */
  predicate IsSpace(c: char)
  {
    c == ' ' || c == '\t' || c == '\n' || c == '\r' || c as int == 0x0B || c as int == 0x0C
  }

  /** `\d` on ASCII text. */
  predicate IsDigit(c: char)
  {
    '0' <= c <= '9'
  }

  /** `['"]`. */
  predicate IsQuote(c: char)
  {
    c == '\'' || c == '"'
  }

  /** The length of the leading run of spaces of `s`. */
  function Spaces(s: string): (n: nat)
    ensures n <= |s| && (forall i :: 0 <= i < n ==> IsSpace(s[i])) && (n < |s| ==> !IsSpace(s[n]))
  {
    if s != [] && IsSpace(s[0]) then 1 + Spaces(s[1..]) else 0
  }

  /** The length of the leading run of digits of `s`. */
  function Digits(s: string): (n: nat)
    ensures n <= |s| && (forall i :: 0 <= i < n ==> IsDigit(s[i])) && (n < |s| ==> !IsDigit(s[n]))
  {
    if s != [] && IsDigit(s[0]) then 1 + Digits(s[1..]) else 0
  }

  /** The groups `ind` and `hex` of a match. */
  datatype Captures = Captures(ind: string, hex: string)

  /** The text after the leading spaces of `s`. */
  function SkipSpaces(s: string): (u: string)
    ensures |u| <= |s|
  {
    s[Spaces(s)..]
  }

  /** The `hex` group at the start of `h`: six digits, or else eight, before a quote. */
  function HexGroup(h: string): (g: Option<string>)
    ensures g.Some? ==> |g.value| == 6 || |g.value| == 8
    ensures g.Some? ==> forall i :: 0 <= i < |g.value| ==> IsDigit(g.value[i])
  {
    if |h| > 6 && Digits(h) >= 6 && IsQuote(h[6]) then Some(h[..6])
    else if |h| > 8 && Digits(h) >= 8 && IsQuote(h[8]) then Some(h[..8])
    else None
  }

  /** The `hex` group of `\s*=\s*['"]#(?<hex>…)['"]` at the start of `u`. */
  function Assignment(u: string): (g: Option<string>)
    ensures g.Some? ==> |g.value| == 6 || |g.value| == 8
    ensures g.Some? ==> forall i :: 0 <= i < |g.value| ==> IsDigit(g.value[i])
  {
    var u := SkipSpaces(u);
    if u == [] || u[0] != '=' then None
    else
      var u := SkipSpaces(u[1..]);
      if |u| < 2 || !IsQuote(u[0]) || u[1] != '#' then None
      else HexGroup(u[2..])
  }

  /** The match of `color(?<ind>\d+)\s*=\s*['"]#(?<hex>(?:\d{6}|\d{8}))['"]` at the start of
      `t`, if there is one. No backtracking is needed: each run of digits or spaces is
      followed by a char that cannot continue it, and `\d{6}` is tried before `\d{8}`. */
  function MatchHere(t: string): (m: Option<Captures>)
    ensures m.Some? ==> m.value.ind != [] && forall i :: 0 <= i < |m.value.ind| ==> IsDigit(m.value.ind[i])
    ensures m.Some? ==> |m.value.hex| == 6 || |m.value.hex| == 8
    ensures m.Some? ==> forall i :: 0 <= i < |m.value.hex| ==> IsDigit(m.value.hex[i])
  {
    if |t| < 5 || t[..5] != "color" then None
    else
      var d := Digits(t[5..]);
      if d == 0 then None
      else
        match Assignment(t[5 + d..])
        case None => None
        case Some(hex) => Some(Captures(t[5..5 + d], hex))
  }

  /** No offset in `j..k` of `line` starts a match. */
  predicate NoMatchBetween(line: string, j: nat, k: nat)
    requires j <= k <= |line|
  {
    forall k' :: j <= k' < k ==> MatchHere(line[k'..]).None?
  }

  /** `re.captures(line)` searching from offset `j`: the match that starts at the first
      `color` from which the pattern matches. The pattern is unanchored, and its leading and
      trailing `\s*` only move where the whole match begins and ends. */
  function Search(line: string, j: nat): (r: Option<Captures>)
    requires j <= |line|
    ensures r.Some? ==> WellFormed(r.value)
    decreases |line| - j
  {
    if j == |line| || MatchHere(line[j..]).Some? then MatchHere(line[j..])
    else Search(line, j + 1)
  }

  /** `Search` finds the first offset from `j` on where the pattern matches, and only
      reports no match when there is none. */
  lemma {:induction false} SearchFirst(line: string, j: nat)
    requires j <= |line|
    ensures Search(line, j).None? ==> NoMatchBetween(line, j, |line|) && MatchHere(line[|line|..]).None?
    ensures Search(line, j).Some? ==>
      exists k :: j <= k <= |line| && MatchHere(line[k..]) == Search(line, j) && NoMatchBetween(line, j, k)
    decreases |line| - j
  {
    if j == |line| || MatchHere(line[j..]).Some? {
      assert NoMatchBetween(line, j, j);
    } else {
      SearchFirst(line, j + 1);
      if Search(line, j).Some? {
        var k :| j + 1 <= k <= |line| && MatchHere(line[k..]) == Search(line, j + 1) && NoMatchBetween(line, j + 1, k);
        assert NoMatchBetween(line, j, k);
      }
    }
  }

  /** A leading run of digits ends where the first non-digit is. */
  lemma {:induction false} DigitsRun(d: string, rest: string)
    requires forall i :: 0 <= i < |d| ==> IsDigit(d[i])
    requires rest != [] && !IsDigit(rest[0])
    ensures Digits(d + rest) == |d|
  {
    if d != [] {
      assert (d + rest)[1..] == d[1..] + rest;
      DigitsRun(d[1..], rest);
    }
  }

  lemma OneSpace(x: string)
    requires |x| >= 2 && x[0] == ' ' && !IsSpace(x[1])
    ensures SkipSpaces(x) == x[1..]
  {
    assert x[1..][0] == x[1];
  }

  /** The part of an entry line after the index: ` = '#{hex}'`. */
  function EntryTail(hex: string): string
  {
    " = '#" + hex + "'"
  }

  /** An entry as a palette file writes it: `color{ind} = '#{hex}'`. */
  function EntryLine(ind: string, hex: string): string
  {
    "color" + ind + EntryTail(hex)
  }

  /** The pattern captures the index and the six hex digits of an entry line. */
  lemma EntryMatches(ind: string, hex: string)
    requires ind != [] && forall i :: 0 <= i < |ind| ==> IsDigit(ind[i])
    requires |hex| == 6 && forall i :: 0 <= i < |hex| ==> IsDigit(hex[i])
    ensures CapturesOf(EntryLine(ind, hex)) == Some(Captures(ind, hex))
  {
    var line := EntryLine(ind, hex);
    var after := EntryTail(hex);
    ThreeParts("color", ind, after);
    assert after[0] == ' ';
    DigitsRun(ind, after);
    AssignmentOf(hex);
    MatchAt(line, ind, hex);
    assert line[0..] == line;
  }

  /** The three parts of `p + a + b` are found back by slicing. */
  lemma ThreeParts(p: string, a: string, b: string)
    ensures (p + a + b)[..|p|] == p && (p + a + b)[|p|..] == a + b
    ensures (p + a + b)[|p|..|p| + |a|] == a && (p + a + b)[|p| + |a|..] == b
  {
  }

  /** The pattern matches at the start of `t` when `t` is `color`, the digits `ind` and
      then an assignment of `hex`. */
  lemma MatchAt(t: string, ind: string, hex: string)
    requires |t| >= 5 && t[..5] == "color" && ind != []
    requires Digits(t[5..]) == |ind| && t[5..5 + |ind|] == ind
    requires Assignment(t[5 + |ind|..]) == Some(hex)
    ensures MatchHere(t) == Some(Captures(ind, hex))
  {
  }

  /** The part of an entry line after the index. */
  lemma AssignmentOf(hex: string)
    requires |hex| == 6 && forall i :: 0 <= i < |hex| ==> IsDigit(hex[i])
    ensures Assignment(EntryTail(hex)) == Some(hex)
  {
    var after := EntryTail(hex);
    OneSpace(after);
    var u := after[2..];
    OneSpace(u);
    var h := hex + "'";
    assert u[1..][2..] == h;
    DigitsRun(hex, "'");
    assert h[..6] == hex;
  }

  /** What the entry pattern captures in `line`: the match at the first offset from which
      the pattern matches, or none when no offset does. */
  function CapturesOf(line: string): (r: Option<Captures>)
    ensures r.Some? ==> WellFormed(r.value)
    ensures r.None? <==> NoMatchBetween(line, 0, |line|) && MatchHere(line[|line|..]).None?
    ensures r.Some? ==> exists k :: 0 <= k <= |line| && MatchHere(line[k..]) == r && NoMatchBetween(line, 0, k)
  {
    SearchFirst(line, 0);
    Search(line, 0)
  }

  /** What the pattern captures in each line. */
  function Matches(lines: seq<string>): (ms: seq<Option<Captures>>)
    ensures |ms| == |lines|
  {
    seq(|lines|, i requires 0 <= i < |lines| => CapturesOf(lines[i]))
  }

  /** The shape every capture has: a non-empty run of index digits and six or eight hex
      digits. */
  predicate WellFormed(c: Captures)
  {
    c.ind != [] && (forall i :: 0 <= i < |c.ind| ==> IsDigit(c.ind[i])) &&
    (|c.hex| == 6 || |c.hex| == 8) && (forall i :: 0 <= i < |c.hex| ==> IsDigit(c.hex[i]))
  }

  predicate AllWellFormed(ms: seq<Option<Captures>>)
  {
    forall i :: 0 <= i < |ms| && ms[i].Some? ==> WellFormed(ms[i].value)
  }

  lemma MatchesWellFormed(lines: seq<string>)
    ensures AllWellFormed(Matches(lines))
  {
    forall i | 0 <= i < |lines| && Matches(lines)[i].Some?
      ensures WellFormed(Matches(lines)[i].value)
    {
      SearchFirst(lines[i], 0);
    }
  }

  // ---------------------------------------------------------------- the line loop

  /** The loop's state: the palette so far and `max_index`. */
  datatype Scanned = Scanned(palette: Palette, maxIndex: nat)

  /** The key of a capture: `color` followed by the index digits as written. */
  function KeyOf(c: Captures): string
  {
    "color" + c.ind
  }

  /** The value of the index digits. */
  function IndexOf(c: Captures): nat
  {
    DigitsValue(c.ind, 10)
  }

  /** Keys keep the index digits as written while `max_index` takes their value, so
      `color07` and `color7` are two keys with one index. */
  lemma LeadingZeroKeys(hex: string)
    ensures KeyOf(Captures("07", hex)) != KeyOf(Captures("7", hex))
    ensures IndexOf(Captures("07", hex)) == IndexOf(Captures("7", hex)) == 7
  {
    assert KeyOf(Captures("07", hex))[5] == '0';
    assert "07"[..1] == "0" && "0"[..0] == [] && "7"[..0] == [];
  }

  /** One round of the loop on a line whose captures are `m`: a captured index is parsed into
      a `usize` (`expect` aborts on overflow) and raises `max_index`; the captured hex must
      decode (`unwrap`). */
  function Step(s: Scanned, m: Option<Captures>): (r: Result<Scanned>)
    ensures r.Abort? ==> m.Some?
    ensures r.Ok? ==> s.palette.Keys <= r.value.palette.Keys && s.maxIndex <= r.value.maxIndex
    ensures r.Ok? && m.Some? ==>
      && KeyOf(m.value) in r.value.palette
      && ParseUnsigned(m.value.ind, 10, UsizeMax).Some?
      && ParseUnsigned(m.value.ind, 10, UsizeMax).value <= r.value.maxIndex
  {
    match m
    case None => Ok(s)
    case Some(c) =>
      match ParseUnsigned(c.ind, 10, UsizeMax)
      case None => Abort(BadIndex(c.ind))
      case Some(index) =>
        match FromHex(c.hex)
        case Abort(failure) => Abort(failure)
        case Ok(None) => Abort(HexRejected)
        case Ok(Some(color)) =>
          Ok(Scanned(s.palette[KeyOf(c) := color], if index > s.maxIndex then index else s.maxIndex))
  }

  /** No line captures an entry. */
  predicate NoEntries(ms: seq<Option<Captures>>)
  {
    forall i :: 0 <= i < |ms| ==> ms[i].None?
  }

  /** Lines without entries leave the palette empty and `max_index` at 0. */
  lemma {:induction false} ScanNoEntries(ms: seq<Option<Captures>>)
    ensures NoEntries(ms) ==> Scan(ms) == Ok(Scanned(map[], 0))
  {
    if ms != [] && NoEntries(ms) {
      assert NoEntries(ms[..|ms| - 1]);
      ScanNoEntries(ms[..|ms| - 1]);
    }
  }

  /** The loop over lines whose captures are `ms`. */
  function Scan(ms: seq<Option<Captures>>): (r: Result<Scanned>)
    ensures r.Ok? ==> r.value.maxIndex <= UsizeMax
  {
    if ms == [] then Ok(Scanned(map[], 0))
    else
      var s :- Scan(ms[..|ms| - 1]);
      Step(s, ms[|ms| - 1])
  }

  /** The checks after the loop over lines whose captures are `ms`. With no entries
      `palette.len() - 1` underflows, which panics under overflow checks. */
  function CustomOf(filepath: string, ms: seq<Option<Captures>>): (r: Result<Palette>)
    ensures r.Ok? ==> Scan(ms).Ok? && Scan(ms).value.maxIndex + 1 == |r.value|
    ensures filepath != [] && NoEntries(ms) ==> r == Abort(EmptyPalette)
  {
    ScanNoEntries(ms);
    if filepath == [] then Abort(EmptyFilepath)
    else
      var s :- Scan(ms);
      if |s.palette| == 0 then Abort(EmptyPalette)
      else if s.maxIndex != |s.palette| - 1 then Abort(CountProblem)
      else if |s.palette| < 16 then Abort(TooFewColors)
      else Ok(s.palette)
  }

  /** The palette `import_custom_palette` makes of the file path `filepath` and the lines of
      the file. */
  function CustomFile(filepath: string, lines: seq<string>): (r: Result<Palette>)
    ensures filepath == [] ==> r == Abort(EmptyFilepath)
    ensures filepath != [] && (forall i :: 0 <= i < |lines| ==> CapturesOf(lines[i]).None?) ==>
      r == Abort(EmptyPalette)
  {
    CustomOf(filepath, Matches(lines))
  }

  /** The custom palette of the file `filepath` whose text is `text`; reading it is I/O. */
  method ImportCustom(filepath: string, text: string) returns (r: Result<Palette>)
    ensures r == CustomFile(filepath, Lines(text))
  {
    if filepath == [] {
      return Abort(EmptyFilepath);
    }
    var lines := Lines(text);
    ghost var ms := Matches(lines);
    var palette: Palette := map[];
    var maxIndex: nat := 0;
    for num := 0 to |lines|
      invariant Scan(ms[..num]) == Ok(Scanned(palette, maxIndex))
    {
      ScanNext(ms, num);
      var color := CapturesOf(lines[num]);
      assert color == ms[num];
      if color.Some? {
        var index := ParseUnsigned(color.value.ind, 10, UsizeMax);
        if index.None? {
          ScanAbortStays(ms, num + 1);
          return Abort(BadIndex(color.value.ind));
        }
        ghost var prevMax := maxIndex;
        maxIndex := if index.value > maxIndex then index.value else maxIndex;
        var decoded := FromHex(color.value.hex);
        if decoded.Abort? {
          ScanAbortStays(ms, num + 1);
          return Abort(decoded.failure);
        }
        if decoded.value.None? {
          ScanAbortStays(ms, num + 1);
          return Abort(HexRejected);
        }
        StepEntry(Scanned(palette, prevMax), color.value, index.value, decoded.value.value);
        palette := palette[KeyOf(color.value) := decoded.value.value];
      }
    }
    assert ms[..|lines|] == ms;
    if |palette| == 0 {
      return Abort(EmptyPalette);
    }
    if maxIndex != |palette| - 1 {
      return Abort(CountProblem);
    }
    if |palette| < 16 {
      return Abort(TooFewColors);
    }
    return Ok(palette);
  }

  /** A matched line whose index parses and whose hex decodes sets its key and raises the
      maximum index. */
  lemma StepEntry(s: Scanned, c: Captures, index: nat, color: Color)
    requires ParseUnsigned(c.ind, 10, UsizeMax) == Some(index)
    requires FromHex(c.hex) == Ok(Some(color))
    ensures Step(s, Some(c)) == Ok(Scanned(s.palette[KeyOf(c) := color], if index > s.maxIndex then index else s.maxIndex))
  {
  }

  /** The loop's next round. */
  lemma ScanNext(ms: seq<Option<Captures>>, n: nat)
    requires n < |ms| && Scan(ms[..n]).Ok?
    ensures Scan(ms[..n + 1]) == Step(Scan(ms[..n]).value, ms[n])
  {
    assert ms[..n + 1][..n] == ms[..n];
  }

  /** Once a prefix of the lines aborts, so does the whole loop. */
  lemma {:induction false} ScanAbortStays(ms: seq<Option<Captures>>, n: nat)
    requires n <= |ms| && Scan(ms[..n]).Abort?
    ensures Scan(ms) == Scan(ms[..n])
    decreases |ms| - n
  {
    if n < |ms| {
      assert ms[..n + 1][..n] == ms[..n];
      ScanAbortStays(ms, n + 1);
    } else {
      assert ms[..n] == ms;
    }
  }

  // ---------------------------------------------------------------- what the loop does

  /** A captured entry the loop takes: its index fits a `usize` and its hex has six
      digits. */
  predicate Accepted(c: Captures)
  {
    IndexOf(c) <= UsizeMax && |c.hex| == 6
  }

  /** The state after an accepted entry `c`. */
  function Entered(s: Scanned, c: Captures): Scanned
    requires Accepted(c) && FromHex(c.hex).Ok? && FromHex(c.hex).value.Some?
  {
    Scanned(s.palette[KeyOf(c) := FromHex(c.hex).value.value], if IndexOf(c) > s.maxIndex then IndexOf(c) else s.maxIndex)
  }

  /** The index digits always parse unless they overflow a `usize`, and `from_hex` reads six
      digits but refuses eight (it wants six or nine chars), so an eight-digit entry makes
      `unwrap` panic. Nothing aborts on a char boundary. */
  lemma {:induction false} StepOutcome(s: Scanned, c: Captures)
    requires WellFormed(c)
    ensures IndexOf(c) > UsizeMax ==> Step(s, Some(c)) == Abort(BadIndex(c.ind))
    ensures IndexOf(c) <= UsizeMax && |c.hex| == 8 ==> Step(s, Some(c)) == Abort(HexRejected)
    ensures Accepted(c) ==> FromHex(c.hex).Ok? && FromHex(c.hex).value.Some?
    ensures Accepted(c) ==> Step(s, Some(c)) == Ok(Entered(s, c))
  {
    assert AllDigits(c.ind, 10);
    assert c.ind[0] != '+';
    assert ParseUnsigned(c.ind, 10, UsizeMax) == if IndexOf(c) <= UsizeMax then Some(IndexOf(c)) else None;
    assert AllDigits(c.hex, 10);
    DigitsAscii(c.hex, 10);
    assert TrimStart(c.hex, '#') == c.hex;
    AsciiHexNeverAborts(c.hex);
  }

  /** The loop runs to the end exactly when every captured entry is accepted. */
  lemma {:induction false} ScanSucceeds(ms: seq<Option<Captures>>)
    requires AllWellFormed(ms)
    ensures Scan(ms).Ok? <==> forall i :: 0 <= i < |ms| && ms[i].Some? ==> Accepted(ms[i].value)
  {
    if ms != [] {
      var front := ms[..|ms| - 1];
      var last := ms[|ms| - 1];
      assert AllWellFormed(front);
      ScanSucceeds(front);
      assert forall i :: 0 <= i < |front| ==> front[i] == ms[i];
      if Scan(front).Ok? && last.Some? {
        StepOutcome(Scan(front).value, last.value);
      }
    }
  }

  /** The keys captured by the lines whose captures are `ms`. */
  ghost function KeysIn(ms: seq<Option<Captures>>): set<string>
  {
    set i | 0 <= i < |ms| && ms[i].Some? :: KeyOf(ms[i].value)
  }

  /** The state before the last line and the last line's captures. */
  lemma ScanLast(ms: seq<Option<Captures>>)
    requires AllWellFormed(ms) && Scan(ms).Ok? && ms != []
    ensures AllWellFormed(ms[..|ms| - 1]) && Scan(ms[..|ms| - 1]).Ok?
    ensures ms[|ms| - 1].None? ==> Scan(ms) == Scan(ms[..|ms| - 1])
    ensures ms[|ms| - 1].Some? ==> Accepted(ms[|ms| - 1].value)
    ensures ms[|ms| - 1].Some? ==> FromHex(ms[|ms| - 1].value.hex).Ok? && FromHex(ms[|ms| - 1].value.hex).value.Some?
    ensures ms[|ms| - 1].Some? ==> Scan(ms) == Ok(Entered(Scan(ms[..|ms| - 1]).value, ms[|ms| - 1].value))
  {
    var front := ms[..|ms| - 1];
    assert AllWellFormed(front);
    ScanSucceeds(ms);
    ScanSucceeds(front);
    if ms[|ms| - 1].Some? {
      StepOutcome(Scan(front).value, ms[|ms| - 1].value);
    }
  }

  lemma KeysInSnoc(ms: seq<Option<Captures>>)
    requires ms != []
    ensures ms[|ms| - 1].None? ==> KeysIn(ms) == KeysIn(ms[..|ms| - 1])
    ensures ms[|ms| - 1].Some? ==> KeysIn(ms) == KeysIn(ms[..|ms| - 1]) + {KeyOf(ms[|ms| - 1].value)}
  {
    var front := ms[..|ms| - 1];
    assert forall i :: 0 <= i < |front| ==> front[i] == ms[i];
  }

  /** Every captured key is in the palette and nothing else is. */
  lemma {:induction false} ScanKeys(ms: seq<Option<Captures>>)
    requires AllWellFormed(ms) && Scan(ms).Ok?
    ensures Scan(ms).value.palette.Keys == KeysIn(ms)
  {
    if ms != [] {
      var front := ms[..|ms| - 1];
      ScanLast(ms);
      ScanKeys(front);
      KeysInSnoc(ms);
    }
  }

  /** Every captured index is at most `max_index`, which is 0 or one of them. */
  lemma {:induction false} ScanMax(ms: seq<Option<Captures>>)
    requires AllWellFormed(ms) && Scan(ms).Ok?
    ensures forall i :: 0 <= i < |ms| && ms[i].Some? ==> IndexOf(ms[i].value) <= Scan(ms).value.maxIndex
    ensures Scan(ms).value.maxIndex == 0 ||
      exists i :: 0 <= i < |ms| && ms[i].Some? && IndexOf(ms[i].value) == Scan(ms).value.maxIndex
  {
    if ms != [] {
      var front := ms[..|ms| - 1];
      var last := ms[|ms| - 1];
      ScanLast(ms);
      ScanMax(front);
      var before := Scan(front).value;
      var after := Scan(ms).value;
      assert before.maxIndex <= after.maxIndex;
      assert last.Some? ==> IndexOf(last.value) <= after.maxIndex;
      forall i | 0 <= i < |ms| && ms[i].Some?
        ensures IndexOf(ms[i].value) <= after.maxIndex
      {
        if i < |front| {
          assert ms[i] == front[i];
          assert IndexOf(front[i].value) <= before.maxIndex;
        } else {
          assert ms[i] == last;
        }
      }
      if after.maxIndex != 0 {
        if after.maxIndex == before.maxIndex {
          var k :| 0 <= k < |front| && front[k].Some? && IndexOf(front[k].value) == before.maxIndex;
          assert ms[k] == front[k];
        } else {
          assert IndexOf(last.value) == after.maxIndex;
        }
      }
    }
  }

  /** A key's colour is the one the last line with that key gives. */
  lemma {:induction false} ScanValues(ms: seq<Option<Captures>>)
    requires AllWellFormed(ms) && Scan(ms).Ok?
    ensures forall i :: 0 <= i < |ms| && ms[i].Some? && LastWith(ms, i) ==>
      KeyOf(ms[i].value) in Scan(ms).value.palette &&
      FromHex(ms[i].value.hex) == Ok(Some(Scan(ms).value.palette[KeyOf(ms[i].value)]))
  {
    if ms != [] {
      var front := ms[..|ms| - 1];
      ScanLast(ms);
      ScanValues(front);
      forall i | 0 <= i < |ms| && ms[i].Some? && LastWith(ms, i)
        ensures KeyOf(ms[i].value) in Scan(ms).value.palette
        ensures FromHex(ms[i].value.hex) == Ok(Some(Scan(ms).value.palette[KeyOf(ms[i].value)]))
      {
        if i < |front| {
          assert LastWith(front, i);
        }
      }
    }
  }

  /** No line after line `i` captures the key line `i` captures. */
  predicate LastWith(ms: seq<Option<Captures>>, i: nat)
    requires i < |ms| && ms[i].Some?
  {
    forall j :: i < j < |ms| && ms[j].Some? ==> KeyOf(ms[j].value) != KeyOf(ms[i].value)
  }

  // ---------------------------------------------------------------- the checks after the loop

  /** What `import_custom_palette` can end with on lines whose captures are `ms`: an empty
      path panics first; otherwise a palette comes back only with at least 16 keys, those the
      lines capture, and every captured index below its size; no entries at all end in the
      underflow; and the only panics are those the source raises on purpose or through
      `expect`/`unwrap`, never a slice off a char boundary. */
  lemma CustomOutcomes(filepath: string, ms: seq<Option<Captures>>)
    requires AllWellFormed(ms)
    ensures filepath == [] ==> CustomOf(filepath, ms) == Abort(EmptyFilepath)
    ensures CustomOf(filepath, ms).Abort? ==> CustomOf(filepath, ms).failure != NotCharBoundary
    ensures filepath != [] && Scan(ms).Ok? && KeysIn(ms) == {} ==> CustomOf(filepath, ms) == Abort(EmptyPalette)
    ensures CustomOf(filepath, ms).Ok? ==> |CustomOf(filepath, ms).value| >= 16
    ensures CustomOf(filepath, ms).Ok? ==> CustomOf(filepath, ms).value.Keys == KeysIn(ms)
    ensures CustomOf(filepath, ms).Ok? ==>
      forall i :: 0 <= i < |ms| && ms[i].Some? ==> IndexOf(ms[i].value) < |CustomOf(filepath, ms).value|
  {
    if filepath != [] {
      if Scan(ms).Ok? {
        ScanKeys(ms);
        ScanMax(ms);
      } else {
        ScanFailure(ms);
      }
    }
  }

  /** A loop that aborts does so on an index overflow or a hex `from_hex` refuses. */
  lemma {:induction false} ScanFailure(ms: seq<Option<Captures>>)
    requires AllWellFormed(ms) && Scan(ms).Abort?
    ensures Scan(ms).failure.BadIndex? || Scan(ms).failure == HexRejected
  {
    var front := ms[..|ms| - 1];
    assert AllWellFormed(front);
    if Scan(front).Abort? {
      ScanFailure(front);
    } else {
      StepOutcome(Scan(front).value, ms[|ms| - 1].value);
    }
  }

  /** Every index is written as `format!` would print it: no leading zeros, no `+`. */
  predicate Canonical(ms: seq<Option<Captures>>)
  {
    forall i :: 0 <= i < |ms| && ms[i].Some? ==> ms[i].value.ind == NatToString(IndexOf(ms[i].value))
  }

  /** A canonical index's key is the palette key `format!` makes of it. */
  lemma CanonicalKey(ms: seq<Option<Captures>>, i: nat)
    requires Canonical(ms) && i < |ms| && ms[i].Some?
    ensures KeyOf(ms[i].value) == ColorName(IndexOf(ms[i].value))
  {
  }

  /** With indices written in the canonical way, the checks after the loop accept exactly
      the file whose keys are `color0` .. `color{n-1}` for some `n >= 16` — what the panic
      message asks for: start at `color0` and miss no colour. */
  lemma CanonicalNames(filepath: string, ms: seq<Option<Captures>>)
    requires filepath != [] && AllWellFormed(ms) && Scan(ms).Ok? && Canonical(ms)
    ensures CustomOf(filepath, ms).Ok? <==>
      |Scan(ms).value.palette| >= 16 && Scan(ms).value.palette.Keys == Names(|Scan(ms).value.palette|)
  {
    if CustomOf(filepath, ms).Ok? {
      CanonicalAcceptedNamed(ms);
    }
    var n := |Scan(ms).value.palette|;
    if n >= 16 && Scan(ms).value.palette.Keys == Names(n) {
      NamedCounts(ms);
    }
  }

  /** An accepted canonical file has the keys `color0` .. `color{n-1}`. */
  lemma CanonicalAcceptedNamed(ms: seq<Option<Captures>>)
    requires AllWellFormed(ms) && Scan(ms).Ok? && Canonical(ms)
    requires Scan(ms).value.maxIndex == |Scan(ms).value.palette| - 1
    ensures Scan(ms).value.palette.Keys == Names(|Scan(ms).value.palette|)
  {
    var s := Scan(ms).value;
    var n := |s.palette|;
    ScanKeys(ms);
    ScanMax(ms);
    NamesCount(n);
    forall key | key in s.palette
      ensures key in Names(n)
    {
      assert key in KeysIn(ms);
      var i :| 0 <= i < |ms| && ms[i].Some? && KeyOf(ms[i].value) == key;
      CanonicalKey(ms, i);
      var j := IndexOf(ms[i].value);
      assert j <= s.maxIndex && key == ColorName(j);
    }
    SubsetEqual(s.palette.Keys, Names(n));
  }

  /** A canonical file with the keys `color0` .. `color{n-1}` has `max_index == n - 1`. */
  lemma NamedCounts(ms: seq<Option<Captures>>)
    requires AllWellFormed(ms) && Scan(ms).Ok? && Canonical(ms)
    requires |Scan(ms).value.palette| > 0 && Scan(ms).value.palette.Keys == Names(|Scan(ms).value.palette|)
    ensures Scan(ms).value.maxIndex == |Scan(ms).value.palette| - 1
  {
    var s := Scan(ms).value;
    var n := |s.palette|;
    ScanKeys(ms);
    ScanMax(ms);
    assert ColorName(n - 1) in Names(n);
    var top :| 0 <= top < |ms| && ms[top].Some? && KeyOf(ms[top].value) == ColorName(n - 1);
    CanonicalKey(ms, top);
    ColorNameInjective(IndexOf(ms[top].value), n - 1);
    if s.maxIndex != 0 {
      var i :| 0 <= i < |ms| && ms[i].Some? && IndexOf(ms[i].value) == s.maxIndex;
      CanonicalKey(ms, i);
      KeyCaptured(ms, i);
      var j := NameIndex(KeyOf(ms[i].value), n);
      ColorNameInjective(j, s.maxIndex);
    }
  }

  lemma KeyCaptured(ms: seq<Option<Captures>>, i: nat)
    requires i < |ms| && ms[i].Some?
    ensures KeyOf(ms[i].value) in KeysIn(ms)
  {
  }

  /** The index of one of the names `color0` .. `color{n-1}`. */
  lemma NameIndex(key: string, n: nat) returns (j: nat)
    requires key in Names(n)
    ensures j < n && ColorName(j) == key
  {
    j :| 0 <= j < n && ColorName(j) == key;
  }

  /** A subset as large as its superset is the superset. */
  lemma {:induction false} SubsetEqual(a: set<string>, b: set<string>)
    requires a <= b && |a| == |b|
    ensures a == b
  {
    if a != {} {
      var y :| y in a;
      SubsetEqual(a - {y}, b - {y});
    }
  }
}
