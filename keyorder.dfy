/** The order in which `get_telegram_colors` lists the palette: the keys are sorted
    (`sort_by`, a stable sort) by the number after their first five bytes, parsed as a
    `u32`; a key whose suffix does not parse, or that is shorter than five bytes, makes the
    comparison panic. */
module PaletteKeys {
  import opened Outcomes
  import opened Text
  import opened Colors

  /** `key.split_at(5).1.parse::<u32>()`, or `None` where either step fails. */
  function KeyNumber(key: string): (r: Option<nat>)
    ensures r.Some? ==> r.value <= U32Max && ByteLen(key) > 5
  {
    match SplitAtByte(key, 5)
    case None => None
    case Some(parts) =>
      ByteLenConcat(parts.0, parts.1);
      ParseUnsigned(parts.1, 10, U32Max)
  }

  predicate Numbered(key: string)
  {
    KeyNumber(key).Some?
  }

  predicate AllNumbered(keys: seq<string>)
  {
    forall i :: 0 <= i < |keys| ==> Numbered(keys[i])
  }

  function Num(key: string): nat
    requires Numbered(key)
  {
    KeyNumber(key).value
  }

  /** Neighbours are in ascending order of their numbers. */
  predicate Ascending(keys: seq<string>)
    requires AllNumbered(keys)
  {
    forall i :: 0 < i < |keys| ==> Num(keys[i - 1]) <= Num(keys[i])
  }

  /** `sorted` with `key` placed before the first entry whose number is larger, so after
      every entry whose number is not: the insertion step of a stable sort. */
  function Insert(key: string, sorted: seq<string>): (r: seq<string>)
    requires Numbered(key) && AllNumbered(sorted)
    ensures |r| == |sorted| + 1 && AllNumbered(r)
    ensures multiset(r) == multiset(sorted) + multiset{key}
  {
    ConsNumbered(key, sorted);
    if sorted == [] || Num(key) < Num(sorted[0]) then
      [key] + sorted
    else
      UnconsNumbered(sorted);
      var tail := Insert(key, sorted[1..]);
      ConsNumbered(sorted[0], tail);
      [sorted[0]] + tail
  }

  /** A numbered key in front of numbered keys: all are numbered, one more of the key. */
  lemma ConsNumbered(head: string, tail: seq<string>)
    requires Numbered(head) && AllNumbered(tail)
    ensures AllNumbered([head] + tail)
    ensures multiset([head] + tail) == multiset{head} + multiset(tail)
  {
    var s := [head] + tail;
    forall i | 0 <= i < |s|
      ensures Numbered(s[i])
    {
      if i > 0 { assert s[i] == tail[i - 1]; }
    }
  }

  /** A non-empty list of numbered keys is its numbered first key in front of the rest. */
  lemma UnconsNumbered(keys: seq<string>)
    requires keys != [] && AllNumbered(keys)
    ensures Numbered(keys[0]) && AllNumbered(keys[1..])
    ensures multiset(keys) == multiset{keys[0]} + multiset(keys[1..])
  {
    var rest := keys[1..];
    assert keys == [keys[0]] + rest;
    forall i | 0 <= i < |rest|
      ensures Numbered(rest[i])
    {
      assert rest[i] == keys[i + 1];
    }
  }

  /** Inserting into an ascending list keeps it ascending; the new first entry is the key or
      the old first entry. */
  lemma {:induction false} InsertAscending(key: string, sorted: seq<string>)
    requires Numbered(key) && AllNumbered(sorted) && Ascending(sorted)
    ensures Ascending(Insert(key, sorted))
    ensures sorted != [] ==> Insert(key, sorted)[0] in {key, sorted[0]}
  {
    if sorted != [] && Num(key) >= Num(sorted[0]) {
      var rest := sorted[1..];
      var r := Insert(key, rest);
      assert Ascending(r) && (rest != [] ==> r[0] in {key, rest[0]}) by {
        assert Ascending(rest);
        InsertAscending(key, rest);
      }
      assert r != [] ==> Num(sorted[0]) <= Num(r[0]) by {
        if rest != [] {
          assert Num(sorted[0]) <= Num(sorted[1]);
        }
      }
      assert Insert(key, sorted) == [sorted[0]] + r;
      ConsAscending(sorted[0], r);
    }
  }

  /** An entry no larger than the first of an ascending list may go in front of it. */
  lemma ConsAscending(x: string, r: seq<string>)
    requires Numbered(x) && AllNumbered(r) && Ascending(r)
    requires r != [] ==> Num(x) <= Num(r[0])
    ensures AllNumbered([x] + r) && Ascending([x] + r)
  {
  }

  /** The keys in stable ascending order of their numbers. */
  function SortKeys(keys: seq<string>): (r: seq<string>)
    requires AllNumbered(keys)
    ensures AllNumbered(r) && Ascending(r)
    ensures multiset(r) == multiset(keys)
  {
    if keys == [] then []
    else
      var front := keys[..|keys| - 1];
      assert keys == front + [keys[|keys| - 1]];
      InsertAscending(keys[|keys| - 1], SortKeys(front));
      Insert(keys[|keys| - 1], SortKeys(front))
  }

  /** The first key of `keys` without a number. */
  function FirstUnnumbered(keys: seq<string>): (i: nat)
    requires !AllNumbered(keys)
    ensures i < |keys| && !Numbered(keys[i])
  {
    if !Numbered(keys[0]) then 0 else 1 + FirstUnnumbered(keys[1..])
  }

  /** The palette keys, taken in the map's iteration order `order`, after `sort_by`. A sort
      of fewer than two keys compares nothing and so cannot panic; any other sort compares
      every key at least once. Which unparsable key panics first depends on the sort's
      comparisons; the model names the first in iteration order. */
  function KeyOrder(order: seq<string>): (r: Result<seq<string>>)
    ensures r.Ok? <==> |order| < 2 || AllNumbered(order)
    ensures r.Ok? ==> multiset(r.value) == multiset(order)
    ensures r.Ok? && |order| >= 2 ==> AllNumbered(r.value) && Ascending(r.value)
    ensures r.Ok? ==> forall i :: 0 <= i < |r.value| ==> r.value[i] in order
    ensures r.Abort? ==> r.failure.BadPaletteKey? && r.failure.key in order && !Numbered(r.failure.key)
  {
    if |order| < 2 then Ok(order)
    else if AllNumbered(order) then
      MultisetMembers(order, SortKeys(order));
      Ok(SortKeys(order))
    else Abort(BadPaletteKey(order[FirstUnnumbered(order)]))
  }

  /** Each entry of a permutation of `a` is an entry of `a`. */
  lemma MultisetMembers(a: seq<string>, b: seq<string>)
    requires multiset(a) == multiset(b)
    ensures forall i :: 0 <= i < |b| ==> b[i] in a
  {
    forall i | 0 <= i < |b|
      ensures b[i] in a
    {
      assert b[i] in multiset(b);
    }
  }

  /** The sorted keys of a palette are exactly its keys. */
  lemma SortedPalette(order: seq<string>, palette: Palette, keys: seq<string>)
    requires IsOrderOf(order, palette) && KeyOrder(order) == Ok(keys)
    ensures forall i :: 0 <= i < |keys| ==> keys[i] in palette
    ensures forall k :: k in palette ==> k in keys
  {
    assert multiset(keys) == multiset(order);
    forall i | 0 <= i < |keys|
      ensures keys[i] in palette
    {
      assert keys[i] in multiset(order);
    }
    forall k | k in palette
      ensures k in keys
    {
      var p := OrderCovers(order, palette, k);
      assert k in multiset(keys);
    }
  }

  // ---------------------------------------------------------------- the keys `color0` ..

  /** The key of palette entry `i` is numbered `i`. */
  lemma NameNumber(i: nat)
    requires i <= U32Max
    ensures KeyNumber(ColorName(i)) == Some(i)
  {
    NatToStringDigits(i);
    DigitsAscii(NatToString(i), 10);
    ColorNameParts(i);
    assert ColorName(i) == "color" + NatToString(i);
    assert IsAscii(ColorName(i));
    AsciiSplit(ColorName(i), 5);
    ParsePrinted(i, U32Max);
  }

  /** A palette whose keys are `color0` .. `color{n-1}` is listed in exactly that order,
      whatever order the map visits them in: so `color10` follows `color9`. */
  lemma NamesSorted(order: seq<string>, palette: Palette, n: nat)
    requires IsOrderOf(order, palette) && palette.Keys == Names(n) && n <= U32Max + 1
    ensures KeyOrder(order).Ok?
    ensures KeyOrder(order).value == seq(n, i requires 0 <= i < n => ColorName(i))
  {
    NamesCount(n);
    forall i | 0 <= i < |order|
      ensures Numbered(order[i]) && order[i] == ColorName(Num(order[i])) && Num(order[i]) < n
    {
      assert order[i] in Names(n);
      var j :| 0 <= j < n && ColorName(j) == order[i];
      NameNumber(j);
    }
    assert AllNumbered(order);
    var r := KeyOrder(order).value;
    if |order| < 2 {
      NamesSmall(order, n);
    } else {
      assert multiset(r) == multiset(order);
      forall i | 0 <= i < |r|
        ensures r[i] in multiset(order)
      {
        assert r[i] in multiset(r);
      }
      assert forall i :: 0 <= i < |r| ==> r[i] in order;
      DistinctPermutation(order, r);
      AscendingNames(r, n);
    }
  }

  /** With fewer than two keys there is nothing to sort. */
  lemma NamesSmall(order: seq<string>, n: nat)
    requires |order| == n < 2
    requires forall i :: 0 <= i < |order| ==> Numbered(order[i]) && order[i] == ColorName(Num(order[i])) && Num(order[i]) < n
    ensures order == seq(n, i requires 0 <= i < n => ColorName(i))
  {
    if n == 1 {
      assert Num(order[0]) == 0;
    }
  }

  /** Ascending distinct keys `color{j}` with every `j < n`, `n` of them, are `color0` ..
      `color{n-1}`. */
  lemma AscendingNames(r: seq<string>, n: nat)
    requires |r| == n && AllNumbered(r) && Ascending(r)
    requires forall i, j :: 0 <= i < j < |r| ==> r[i] != r[j]
    requires forall i :: 0 <= i < |r| ==> r[i] == ColorName(Num(r[i])) && Num(r[i]) < n
    ensures r == seq(n, i requires 0 <= i < n => ColorName(i))
  {
    forall i | 0 < i < |r|
      ensures Num(r[i - 1]) < Num(r[i])
    {
      assert r[i - 1] != r[i];
    }
    StrictlyAscendingFromZero(r, n);
  }

  /** A strictly ascending run of `n` numbers below `n` counts 0, 1, ..:  the `i`-th is at
      least `i` and leaves room for the `n - 1 - i` after it. */
  lemma StrictlyAscendingFromZero(r: seq<string>, n: nat)
    requires |r| == n && AllNumbered(r)
    requires forall i :: 0 < i < |r| ==> Num(r[i - 1]) < Num(r[i])
    requires forall i :: 0 <= i < |r| ==> r[i] == ColorName(Num(r[i])) && Num(r[i]) < n
    ensures r == seq(n, i requires 0 <= i < n => ColorName(i))
  {
    forall i | 0 <= i < n
      ensures Num(r[i]) == i
    {
      AtLeastIndex(r, i);
      RoomAfter(r, i);
    }
  }

  lemma {:induction false} AtLeastIndex(r: seq<string>, i: nat)
    requires AllNumbered(r) && i < |r|
    requires forall k :: 0 < k < |r| ==> Num(r[k - 1]) < Num(r[k])
    ensures Num(r[i]) >= i
  {
    if i > 0 {
      AtLeastIndex(r, i - 1);
    }
  }

  lemma {:induction false} RoomAfter(r: seq<string>, i: nat)
    requires AllNumbered(r) && i < |r|
    requires forall k :: 0 < k < |r| ==> Num(r[k - 1]) < Num(r[k])
    requires forall k :: 0 <= k < |r| ==> Num(r[k]) < |r|
    ensures Num(r[i]) + (|r| - 1 - i) < |r|
    decreases |r| - i
  {
    if i < |r| - 1 {
      RoomAfter(r, i + 1);
    }
  }

  /** A permutation of a list without repetitions has none either. */
  lemma DistinctPermutation(a: seq<string>, b: seq<string>)
    requires multiset(a) == multiset(b)
    requires forall i, j :: 0 <= i < j < |a| ==> a[i] != a[j]
    ensures forall i, j :: 0 <= i < j < |b| ==> b[i] != b[j]
  {
    DistinctOnce(a);
    forall i, j | 0 <= i < j < |b|
      ensures b[i] != b[j]
    {
      if b[i] == b[j] {
        TwiceCounted(b, i, j);
      }
    }
  }

  lemma {:induction false} DistinctOnce(a: seq<string>)
    requires forall i, j :: 0 <= i < j < |a| ==> a[i] != a[j]
    ensures forall x :: multiset(a)[x] <= 1
  {
    if a != [] {
      var front := a[..|a| - 1];
      assert a == front + [a[|a| - 1]];
      DistinctOnce(front);
      assert a[|a| - 1] !in front;
    }
  }

  lemma TwiceCounted(b: seq<string>, i: nat, j: nat)
    requires i < j < |b| && b[i] == b[j]
    ensures multiset(b)[b[i]] >= 2
  {
    assert b == b[..i] + [b[i]] + b[i + 1..j] + [b[j]] + b[j + 1..];
  }
}
