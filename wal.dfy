/** `import_wal_colors`: the palette of a pywal `colors` file, one hex colour per line;
    a file of fewer than 16 lines is padded to twice its size by repeating its colours. */
module WalPalette {
  import opened Outcomes
  import opened Text
  import opened Colors

  /** `perm` is the order in which the padding loop visits the `HashMap` of the first `n`
      colours, each `color{i}` given by its `i`: `n` visits, each to one of those keys.
      (A `HashMap` visits each key once; the model does not need that.) */
  predicate IsVisitOrder(perm: seq<nat>, n: nat)
  {
    |perm| == n && forall k :: 0 <= k < n ==> perm[k] < n
  }

  /** The number of colours of a palette read from `n` lines. */
  function WalSize(n: nat): (m: nat)
    ensures n < 16 ==> m == 2 * n
    ensures n >= 16 ==> m == n
  {
    if n < 16 then 2 * n else n
  }

  /** Every line decodes to a colour: `Color::from_hex(line).unwrap()` does not panic. */
  predicate AllDecode(lines: seq<string>)
  {
    forall i :: 0 <= i < |lines| ==> FromHex(lines[i]).Ok? && FromHex(lines[i]).value.Some?
  }

  /** What `Color::from_hex` makes of each line. */
  function Decodes(lines: seq<string>): (rs: seq<Result<Option<Color>>>)
    ensures |rs| == |lines|
  {
    seq(|lines|, i requires 0 <= i < |lines| => FromHex(lines[i]))
  }

  /** The colours of the decoded lines `rs`, in order, or the abort of the first one that
      `unwrap` (or `from_hex` itself) rejects. */
  function Collect(rs: seq<Result<Option<Color>>>): (r: Result<seq<Color>>)
    ensures r.Ok? ==> |r.value| == |rs|
  {
    if rs == [] then Ok([])
    else
      var init :- Collect(rs[..|rs| - 1]);
      var decoded :- rs[|rs| - 1];
      if decoded.None? then Abort(HexRejected) else Ok(init + [decoded.value])
  }

  /** Every decoded line is a colour. */
  predicate AllColors(rs: seq<Result<Option<Color>>>)
  {
    forall i :: 0 <= i < |rs| ==> rs[i].Ok? && rs[i].value.Some?
  }

  /** The palette mapping `color{i}` to `cols[i]` for each of the first `n` colours,
      inserted in index order. */
  function Listing(cols: seq<Color>, n: nat): Palette
    requires n <= |cols|
  {
    if n == 0 then map[] else Listing(cols, n - 1)[ColorName(n - 1) := cols[n - 1]]
  }

  /** The palette mapping `color{i}` to `cols[i]`. */
  function PaletteOf(cols: seq<Color>): Palette
  {
    Listing(cols, |cols|)
  }

  /** The palette read from `lines` before padding. */
  function WalColors(lines: seq<string>): Result<Palette>
  {
    match Collect(Decodes(lines))
    case Ok(cols) => Ok(PaletteOf(cols))
    case Abort(failure) => Abort(failure)
  }

  /** `color{n+k}`: the key the padding loop gives the `k`-th colour it visits in a palette
      of `n` colours. */
  function PadKey(n: nat, k: nat): string
  {
    ColorName(n + k)
  }

  /** The colours the padding loop adds: the `k`-th visited, `cols[perm[k]]`, for each `k`. */
  function Copies(cols: seq<Color>, perm: seq<nat>): (c: seq<Color>)
    requires forall k :: 0 <= k < |perm| ==> perm[k] < |cols|
    ensures |c| == |perm| && forall k :: 0 <= k < |perm| ==> c[k] == cols[perm[k]]
  {
    seq(|perm|, k requires 0 <= k < |perm| => cols[perm[k]])
  }

  /** The palette of the decoded lines `rs`: their colours, padded when there are fewer
      than 16 by the padding loop visiting the first colours in the order `perm`. */
  function WalPaletteOf(rs: seq<Result<Option<Color>>>, perm: seq<nat>): Result<Palette>
    requires |rs| < 16 ==> IsVisitOrder(perm, |rs|)
  {
    match Collect(rs)
    case Abort(failure) => Abort(failure)
    case Ok(cols) =>
      if |cols| < 16 then Ok(PaletteOf(cols + Copies(cols, perm))) else Ok(PaletteOf(cols))
  }

  /** The palette `import_wal_colors` makes of the lines `lines`. */
  function WalFile(lines: seq<string>, perm: seq<nat>): (r: Result<Palette>)
    requires |lines| < 16 ==> IsVisitOrder(perm, |lines|)
    ensures lines == [] ==> r == Ok(map[])
  {
    WalPaletteOf(Decodes(lines), perm)
  }

  /** The wal palette of the file text `text`; `perm` is the visit order of the padding
      loop. The file lookup (an XDG cache path or the given one) and the read are I/O. */
  method ImportWal(text: string, perm: seq<nat>) returns (r: Result<Palette>)
    requires |Lines(text)| < 16 ==> IsVisitOrder(perm, |Lines(text)|)
    ensures r == WalFile(Lines(text), perm)
  {
    var lines := Lines(text);
    var colors :- DecodeLines(lines);
    ghost var cols := Collect(Decodes(lines)).value;
    PaletteOfAll(cols);
    if |colors| < 16 {
      colors := Pad(colors, cols, perm);
    }
    return Ok(colors);
  }

  /** A wal palette exists exactly when every line is a colour; an abort is a line sliced
      off a char boundary or a line `from_hex` rejects. */
  lemma WalFileAborts(lines: seq<string>, perm: seq<nat>)
    requires |lines| < 16 ==> IsVisitOrder(perm, |lines|)
    ensures WalFile(lines, perm).Ok? <==> AllDecode(lines)
    ensures WalFile(lines, perm).Abort? ==>
      WalFile(lines, perm).failure == NotCharBoundary || WalFile(lines, perm).failure == HexRejected
  {
    DecodesAgree(lines);
    CollectMeans(Decodes(lines));
    CollectFailure(Decodes(lines), NotCharBoundary);
  }

  /** A wal palette holds `color0` .. `color{m-1}` for `m` its padded size. */
  lemma WalKeys(rs: seq<Result<Option<Color>>>, perm: seq<nat>)
    requires |rs| < 16 ==> IsVisitOrder(perm, |rs|)
    requires WalPaletteOf(rs, perm).Ok?
    ensures WalPaletteOf(rs, perm).value.Keys == Names(WalSize(|rs|))
  {
    var cols := Collect(rs).value;
    if |cols| < 16 {
      PaletteOfAll(cols + Copies(cols, perm));
    } else {
      PaletteOfAll(cols);
    }
  }

  /** In a wal palette `color{i}` is the colour of line `i`. */
  lemma WalFileLines(lines: seq<string>, perm: seq<nat>)
    requires |lines| < 16 ==> IsVisitOrder(perm, |lines|)
    requires WalFile(lines, perm).Ok?
    ensures forall i :: 0 <= i < |lines| ==>
      ColorName(i) in WalFile(lines, perm).value &&
      FromHex(lines[i]) == Ok(Some(WalFile(lines, perm).value[ColorName(i)]))
  {
    var rs := Decodes(lines);
    var cols := Collect(rs).value;
    DecodesAgree(lines);
    CollectMeans(rs);
    if |cols| < 16 {
      PaletteOfAll(cols + Copies(cols, perm));
    } else {
      PaletteOfAll(cols);
    }
  }

  /** In a padded wal palette each padding key `color{n+k}` holds the colour of
      `color{perm[k]}`, the `k`-th key visited. */
  lemma WalCopies(rs: seq<Result<Option<Color>>>, perm: seq<nat>)
    requires |rs| < 16 ==> IsVisitOrder(perm, |rs|)
    requires WalPaletteOf(rs, perm).Ok? && |rs| < 16
    ensures forall k :: 0 <= k < |rs| ==>
      PadKey(|rs|, k) in WalPaletteOf(rs, perm).value &&
      ColorName(perm[k]) in WalPaletteOf(rs, perm).value &&
      WalPaletteOf(rs, perm).value[PadKey(|rs|, k)] == WalPaletteOf(rs, perm).value[ColorName(perm[k])]
  {
    var cols := Collect(rs).value;
    assert |cols| == |rs|;
    assert WalPaletteOf(rs, perm).value == PaletteOf(cols + Copies(cols, perm));
    PaddedPalette(cols, perm, |rs|);
  }

  /** When the padding loop visits each of the `n` keys once, as a `HashMap` iteration does,
      every original key `color{i}` is copied to exactly one padding key `color{n+k}`. */
  lemma PadCoversEachOnce(perm: seq<nat>, n: nat)
    requires IsVisitOrder(perm, n)
    requires forall k, k' :: 0 <= k < k' < n ==> perm[k] != perm[k']
    ensures forall i :: 0 <= i < n ==> i in perm
  {
    forall i | 0 <= i < n
      ensures i in perm
    {
      if i !in perm {
        var visited := seq(n, k requires 0 <= k < n => ColorName(perm[k]));
        forall k, k' | 0 <= k < k' < n
          ensures visited[k] != visited[k']
        {
          if visited[k] == visited[k'] { ColorNameInjective(perm[k], perm[k']); }
        }
        forall k | 0 <= k < n
          ensures visited[k] in Names(n) - {ColorName(i)}
        {
          if visited[k] == ColorName(i) { ColorNameInjective(perm[k], i); }
        }
        assert ColorName(i) in Names(n);
        NamesCount(n);
        DistinctBound(visited, Names(n) - {ColorName(i)});
        assert false;
      }
    }
  }

  /** The first loop of `import_wal_colors`: line `i` becomes `color{i}`. */
  method DecodeLines(lines: seq<string>) returns (r: Result<Palette>)
    ensures r == WalColors(lines)
  {
    var colors: Palette := map[];
    ghost var rs := Decodes(lines);
    ghost var cols: seq<Color> := [];
    for index := 0 to |lines|
      invariant Collect(rs[..index]) == Ok(cols) && |cols| == index
      invariant colors == PaletteOf(cols)
    {
      var decoded := FromHex(lines[index]);
      assert rs[index] == decoded;
      CollectStep(rs, index, cols);
      if decoded.Abort? {
        return Abort(decoded.failure);
      }
      if decoded.value.None? {
        return Abort(HexRejected);
      }
      PaletteOfSnoc(cols, decoded.value.value);
      colors := colors[ColorName(index) := decoded.value.value];
      cols := cols + [decoded.value.value];
    }
    assert rs[..|lines|] == rs;
    return Ok(colors);
  }

  /** The padding loop on the palette of the colours `cols`: the `k`-th colour visited,
      `color{perm[k]}`, is inserted again as `color{n+k}`. */
  method Pad(colors: Palette, ghost cols: seq<Color>, perm: seq<nat>) returns (padded: Palette)
    requires colors == PaletteOf(cols) && IsVisitOrder(perm, |cols|)
    ensures padded == PaletteOf(cols + Copies(cols, perm))
  {
    PadStart(cols, perm);
    var len := |colors|;
    padded := colors;
    for k := 0 to len
      invariant padded == Listing(cols + Copies(cols, perm), len + k)
    {
      PadStep(cols, perm, k);
      padded := padded[ColorName(len + k) := colors[ColorName(perm[k])]];
    }
  }

  /** Before the padding loop the palette is the listing of the first `n` padded colours. */
  lemma PadStart(cols: seq<Color>, perm: seq<nat>)
    requires IsVisitOrder(perm, |cols|)
    ensures |PaletteOf(cols)| == |cols|
    ensures PaletteOf(cols) == Listing(cols + Copies(cols, perm), |cols|)
  {
    ListingKeys(cols, |cols|);
    assert (cols + Copies(cols, perm))[..|cols|] == cols[..|cols|];
    ListingPrefix(cols, cols + Copies(cols, perm), |cols|);
  }

  /** Round `k` of the padding loop lists the next padded colour, the `k`-th visited. */
  lemma PadStep(cols: seq<Color>, perm: seq<nat>, k: nat)
    requires IsVisitOrder(perm, |cols|) && k < |cols|
    ensures ColorName(perm[k]) in PaletteOf(cols)
    ensures Listing(cols + Copies(cols, perm), |cols| + k + 1) ==
      Listing(cols + Copies(cols, perm), |cols| + k)[ColorName(|cols| + k) := PaletteOf(cols)[ColorName(perm[k])]]
  {
    ListingAt(cols, |cols|, perm[k]);
    assert (cols + Copies(cols, perm))[|cols| + k] == cols[perm[k]];
  }

  /** `Collect` succeeds exactly when every line is a colour, and then keeps them all. */
  lemma {:induction false} CollectMeans(rs: seq<Result<Option<Color>>>)
    ensures Collect(rs).Ok? <==> AllColors(rs)
    ensures Collect(rs).Ok? ==> forall i :: 0 <= i < |rs| ==> rs[i] == Ok(Some(Collect(rs).value[i]))
  {
    if rs != [] {
      var init := rs[..|rs| - 1];
      CollectMeans(init);
      assert forall i :: 0 <= i < |init| ==> init[i] == rs[i];
    }
  }

  /** `Collect` aborts with the failure of a decoded line or, for a line that is no colour,
      as `unwrap` does. */
  lemma {:induction false} CollectFailure(rs: seq<Result<Option<Color>>>, f: Failure)
    requires forall i :: 0 <= i < |rs| && rs[i].Abort? ==> rs[i].failure == f
    ensures Collect(rs).Abort? ==> Collect(rs).failure == f || Collect(rs).failure == HexRejected
  {
    if rs != [] {
      var init := rs[..|rs| - 1];
      assert forall i :: 0 <= i < |init| ==> init[i] == rs[i];
      CollectFailure(init, f);
    }
  }

  /** Once a prefix of the lines aborts, so does the whole. */
  lemma {:induction false} AbortStays(rs: seq<Result<Option<Color>>>, n: nat)
    requires n <= |rs| && Collect(rs[..n]).Abort?
    ensures Collect(rs) == Collect(rs[..n])
    decreases |rs| - n
  {
    if n < |rs| {
      assert rs[..n + 1][..n] == rs[..n];
      AbortStays(rs, n + 1);
    } else {
      assert rs[..n] == rs;
    }
  }

  /** One more decoded line: an abort or a rejected line ends the collection, a colour
      extends it. */
  lemma CollectStep(rs: seq<Result<Option<Color>>>, i: nat, cols: seq<Color>)
    requires i < |rs| && Collect(rs[..i]) == Ok(cols)
    ensures rs[i].Abort? ==> Collect(rs) == Abort(rs[i].failure)
    ensures rs[i] == Ok(None) ==> Collect(rs) == Abort(HexRejected)
    ensures rs[i].Ok? && rs[i].value.Some? ==> Collect(rs[..i + 1]) == Ok(cols + [rs[i].value.value])
  {
    assert rs[..i + 1][..i] == rs[..i];
    if rs[i].Abort? || rs[i] == Ok(None) {
      AbortStays(rs, i + 1);
    }
  }

  /** `Decodes` holds `from_hex` of each line, which fails only off a char boundary. */
  lemma DecodesAgree(lines: seq<string>)
    ensures forall i :: 0 <= i < |lines| ==> Decodes(lines)[i] == FromHex(lines[i])
    ensures AllDecode(lines) <==> AllColors(Decodes(lines))
    ensures forall i :: 0 <= i < |lines| && Decodes(lines)[i].Abort? ==>
      Decodes(lines)[i].failure == NotCharBoundary
  {
  }

  /** `Listing(cols, n)` has the keys `color0` .. `color{n-1}`. */
  lemma {:induction false} ListingKeys(cols: seq<Color>, n: nat)
    requires n <= |cols|
    ensures Listing(cols, n).Keys == Names(n) && |Listing(cols, n)| == n
  {
    if n > 0 {
      ListingKeys(cols, n - 1);
      NameIsNew(n - 1);
    }
    NamesCount(n);
    assert |Listing(cols, n)| == |Listing(cols, n).Keys|;
  }

  /** `Listing(cols, n)` maps `color{i}` to `cols[i]`. */
  lemma {:induction false} ListingAt(cols: seq<Color>, n: nat, i: nat)
    requires i < n <= |cols|
    ensures ColorName(i) in Listing(cols, n) && Listing(cols, n)[ColorName(i)] == cols[i]
  {
    if i < n - 1 {
      ListingAt(cols, n - 1, i);
      if ColorName(i) == ColorName(n - 1) {
        ColorNameInjective(i, n - 1);
      }
    }
  }

  /** The listing of `n` colours depends only on those colours. */
  lemma {:induction false} ListingPrefix(a: seq<Color>, b: seq<Color>, n: nat)
    requires n <= |a| && n <= |b| && a[..n] == b[..n]
    ensures Listing(a, n) == Listing(b, n)
  {
    if n > 0 {
      assert a[..n - 1] == a[..n][..n - 1] && b[..n - 1] == b[..n][..n - 1];
      assert a[n - 1] == a[..n][n - 1] && b[n - 1] == b[..n][n - 1];
      ListingPrefix(a, b, n - 1);
    }
  }

  /** Appending a colour adds its name and nothing else. */
  lemma PaletteOfSnoc(cols: seq<Color>, c: Color)
    ensures PaletteOf(cols)[ColorName(|cols|) := c] == PaletteOf(cols + [c])
  {
    assert (cols + [c])[..|cols|] == cols[..|cols|];
    ListingPrefix(cols, cols + [c], |cols|);
  }

  /** The padded palette keeps `color0` .. `color{n-1}` and gives `color{n+k}` the colour of
      the `k`-th key visited. */
  lemma PaddedPalette(cols: seq<Color>, perm: seq<nat>, n: nat)
    requires n == |cols| && IsVisitOrder(perm, n)
    ensures forall k :: 0 <= k < n ==>
      PadKey(n, k) in PaletteOf(cols + Copies(cols, perm)) &&
      ColorName(perm[k]) in PaletteOf(cols + Copies(cols, perm)) &&
      PaletteOf(cols + Copies(cols, perm))[PadKey(n, k)] ==
      PaletteOf(cols + Copies(cols, perm))[ColorName(perm[k])]
  {
    var all := cols + Copies(cols, perm);
    PaletteOfAll(all);
    forall k | 0 <= k < n
      ensures PadKey(n, k) in PaletteOf(all) && ColorName(perm[k]) in PaletteOf(all)
      ensures PaletteOf(all)[PadKey(n, k)] == PaletteOf(all)[ColorName(perm[k])]
    {
      assert PadKey(n, k) == ColorName(n + k);
      assert all[n + k] == cols[perm[k]] == all[perm[k]];
    }
  }

  /** `PaletteOf(cols)` maps exactly `color{i}` to `cols[i]`, for each `i`. */
  lemma PaletteOfAll(cols: seq<Color>)
    ensures PaletteOf(cols).Keys == Names(|cols|) && |PaletteOf(cols)| == |cols|
    ensures forall i :: 0 <= i < |cols| ==>
      ColorName(i) in PaletteOf(cols) && PaletteOf(cols)[ColorName(i)] == cols[i]
  {
    ListingKeys(cols, |cols|);
    forall i | 0 <= i < |cols|
      ensures ColorName(i) in PaletteOf(cols) && PaletteOf(cols)[ColorName(i)] == cols[i]
    {
      ListingAt(cols, |cols|, i);
    }
  }
}
