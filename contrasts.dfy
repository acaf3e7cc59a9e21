/** `compute_contrasts`: for each base colour `color0` .. `color{n-2}` of an `n`-colour
    palette, the list of the other palette cells ranked from the most to the least
    contrasting, one cell per distinct contrast key. */
module ContrastRanking {
  import opened Outcomes
  import opened Text
  import opened Colors

  /** `x as u32` for an integer-valued float: saturates at both ends. */
  function SatU32(x: int): (r: nat)
    ensures r <= U32Max
    ensures 0 <= x <= U32Max ==> r == x
  {
    if x < 0 then 0 else if x > U32Max then U32Max else x
  }

  /** The `BTreeMap` key of a contrast ratio: `(ratio * 1000000.0).floor() as u32`. */
  function ContrastKey(ratio: real): (k: nat)
    ensures k <= U32Max
    ensures 0.0 <= ratio ==> k as real <= ratio * 1000000.0 || k == U32Max
  {
    SatU32((ratio * 1000000.0).Floor)
  }

  predicate AllMeasurable(pow: real -> real, palette: Palette)
  {
    forall k :: k in palette ==> Measurable(pow, palette[k])
  }

  /** The key under which `compute_contrasts` files `name` in the list of `self`. */
  function Rank(pow: real -> real, palette: Palette, self: string, name: string): nat
    requires self in palette && name in palette && AllMeasurable(pow, palette)
  {
    ContrastKey(GetContrast(pow, palette[self], palette[name]))
  }

  /** `list` is the neighbour list `compute_contrasts` gives to `self`, visiting the
      palette in `order`:
      - it names other cells of the palette;
      - their keys strictly decrease (most contrasting first, one cell per key);
      - the key of every other visited cell is there;
      - the cell kept for a key is the last one visited with that key, because inserting
        an existing key into a `BTreeMap` replaces its value. */
  ghost predicate Ranked(pow: real -> real, palette: Palette, order: seq<string>, self: string,
                         list: seq<string>)
    requires self in palette && AllMeasurable(pow, palette)
    requires forall p :: 0 <= p < |order| ==> order[p] in palette
  {
    (forall j :: 0 <= j < |list| ==> list[j] in palette && list[j] != self) &&
    (forall j, j' :: 0 <= j < j' < |list| ==>
       Rank(pow, palette, self, list[j]) > Rank(pow, palette, self, list[j'])) &&
    (forall p :: 0 <= p < |order| && order[p] != self ==>
       exists j :: 0 <= j < |list| && Rank(pow, palette, self, list[j]) == Rank(pow, palette, self, order[p])) &&
    (forall j, p, q :: 0 <= j < |list| && 0 <= p < q < |order| && order[p] == list[j] && order[q] != self ==>
       Rank(pow, palette, self, order[q]) != Rank(pow, palette, self, list[j]))
  }

  /** `c` and `d` differ at most in their neighbour lists. */
  predicate SameChannels(c: Color, d: Color)
  {
    c.red == d.red && c.green == d.green && c.blue == d.blue && c.alpha == d.alpha
  }

  lemma ContrastOfSameChannels(pow: real -> real, a: Color, a': Color, b: Color, b': Color)
    requires SameChannels(a, a') && SameChannels(b, b')
    requires Measurable(pow, a) && Measurable(pow, b)
    ensures Measurable(pow, a') && Measurable(pow, b')
    ensures GetContrast(pow, a, b) == GetContrast(pow, a', b')
  {
    assert RelativeLuminance(pow, a) == RelativeLuminance(pow, a');
    assert RelativeLuminance(pow, b) == RelativeLuminance(pow, b');
  }

  /** The least key of a non-empty set, which `BTreeMap` iteration yields first. */
  lemma {:induction false} Least(s: set<nat>) returns (m: nat)
    requires s != {}
    ensures m in s && forall x :: x in s ==> m <= x
    decreases |s|
  {
    var y :| y in s;
    var t := s - {y};
    if t == {} {
      forall x | x in s ensures x == y {
        assert x !in t;
      }
      m := y;
    } else {
      var m' := Least(t);
      m := if y < m' then y else m';
      forall x | x in s ensures m <= x {
        if x != y { assert x in t; }
      }
    }
  }

  /** `compute_contrasts(colors)`: the palette after the ranking, or the abort it runs into.
      The inner `BTreeMap` is the map `tree`; draining it in ascending key order and
      pushing each cell to the front of `list` gives the descending ranking. */
  method ComputeContrasts(pow: real -> real, palette: Palette, order: seq<string>)
    returns (r: Result<Palette>)
    requires IsOrderOf(order, palette) && AllMeasurable(pow, palette)
    ensures r.Ok? <==> |palette| >= 1 && forall i :: 0 <= i < |palette| - 1 ==> ColorName(i) in palette
    ensures r.Abort? && |palette| == 0 ==> r.failure == EmptyPalette
    ensures r.Ok? ==> r.value.Keys == palette.Keys
    ensures r.Ok? ==> forall k :: k in palette ==> SameChannels(r.value[k], palette[k])
    ensures r.Ok? ==> forall i :: 0 <= i < |palette| - 1 ==>
      Ranked(pow, palette, order, ColorName(i), r.value[ColorName(i)].contrasts)
    ensures r.Ok? ==> forall k :: k in palette && (forall i :: 0 <= i < |palette| - 1 ==> k != ColorName(i)) ==>
      r.value[k] == palette[k]
    ensures r.Ok? && Closed(palette) ==> Closed(r.value)
  {
    if |palette| == 0 {
      return Abort(EmptyPalette);
    }
    var pal := palette;
    for index := 0 to |palette| - 1
      invariant Progress(pow, palette, order, pal, index)
    {
      var self := ColorName(index);
      if self !in pal {
        return Abort(MissingKey(self));
      }
      var list := RankFor(pow, palette, pal, order, self);
      ProgressStep(pow, palette, order, pal, index, list);
      pal := pal[self := pal[self].(contrasts := list)];
    }
    forall k | k in palette && (forall i :: 0 <= i < |palette| - 1 ==> k != ColorName(i))
      ensures pal[k] == palette[k]
    {
      assert k !in Names(|palette| - 1);
    }
    r := Ok(pal);
  }

  /** The state of `compute_contrasts` after ranking `color0` .. `color{index-1}`. */
  ghost predicate Progress(pow: real -> real, palette: Palette, order: seq<string>, pal: Palette, index: nat)
    requires AllMeasurable(pow, palette) && IsOrderOf(order, palette)
  {
    Framed(palette, pal, index) && RankedUpTo(pow, palette, order, pal, index)
  }

  /** Only the channels-preserving updates of the first `index` names have happened. */
  ghost predicate Framed(palette: Palette, pal: Palette, index: nat)
  {
    pal.Keys == palette.Keys &&
    (forall k :: k in pal ==> SameChannels(pal[k], palette[k])) &&
    (forall i :: 0 <= i < index ==> ColorName(i) in palette) &&
    (forall k :: k in palette && k !in Names(index) ==> pal[k] == palette[k]) &&
    (forall k :: k in pal ==> pal[k] == palette[k] || RefsIn(pal[k], palette))
  }

  ghost predicate RankedUpTo(pow: real -> real, palette: Palette, order: seq<string>, pal: Palette, index: nat)
    requires AllMeasurable(pow, palette) && IsOrderOf(order, palette)
  {
    forall i :: 0 <= i < index ==>
      (ColorName(i) in palette && ColorName(i) in pal &&
       Ranked(pow, palette, order, ColorName(i), pal[ColorName(i)].contrasts))
  }

  lemma ProgressStep(pow: real -> real, palette: Palette, order: seq<string>, pal: Palette,
                     index: nat, list: seq<string>)
    requires AllMeasurable(pow, palette) && IsOrderOf(order, palette)
    requires Progress(pow, palette, order, pal, index)
    requires ColorName(index) in pal
    requires Ranked(pow, palette, order, ColorName(index), list)
    ensures var self := ColorName(index);
      Progress(pow, palette, order, pal[self := pal[self].(contrasts := list)], index + 1)
  {
    FramedStep(palette, pal, index, list);
    RankedUpToStep(pow, palette, order, pal, index, list);
  }

  lemma FramedStep(palette: Palette, pal: Palette, index: nat, list: seq<string>)
    requires Framed(palette, pal, index) && ColorName(index) in pal
    requires forall j :: 0 <= j < |list| ==> list[j] in palette
    ensures var self := ColorName(index);
      Framed(palette, pal[self := pal[self].(contrasts := list)], index + 1)
  {
    var self := ColorName(index);
    var pal' := pal[self := pal[self].(contrasts := list)];
    assert RefsIn(pal'[self], palette);
    assert Names(index + 1) == Names(index) + {self};
    forall k | k in palette && k !in Names(index + 1)
      ensures pal'[k] == palette[k]
    {
      assert k !in Names(index) && k != self;
    }
  }

  lemma RankedUpToStep(pow: real -> real, palette: Palette, order: seq<string>, pal: Palette,
                       index: nat, list: seq<string>)
    requires AllMeasurable(pow, palette) && IsOrderOf(order, palette)
    requires RankedUpTo(pow, palette, order, pal, index)
    requires ColorName(index) in pal && ColorName(index) in palette
    requires Ranked(pow, palette, order, ColorName(index), list)
    ensures var self := ColorName(index);
      RankedUpTo(pow, palette, order, pal[self := pal[self].(contrasts := list)], index + 1)
  {
    var self := ColorName(index);
    var pal' := pal[self := pal[self].(contrasts := list)];
    forall i | 0 <= i < index + 1
      ensures ColorName(i) in palette && ColorName(i) in pal'
      ensures Ranked(pow, palette, order, ColorName(i), pal'[ColorName(i)].contrasts)
    {
      if i < index {
        if ColorName(i) == self { ColorNameInjective(i, index); }
        assert pal'[ColorName(i)] == pal[ColorName(i)];
      }
    }
  }

  /** The ranking of `self` against the current palette cells `pal`, whose channels are
      those of `palette`. */
  method RankFor(pow: real -> real, palette: Palette, pal: Palette, order: seq<string>, self: string)
    returns (list: seq<string>)
    requires IsOrderOf(order, palette) && AllMeasurable(pow, palette)
    requires pal.Keys == palette.Keys && forall k :: k in pal ==> SameChannels(pal[k], palette[k])
    requires self in palette
    ensures Ranked(pow, palette, order, self, list)
  {
    ghost var rank := map n | n in palette :: Rank(pow, palette, self, n);
    var tree: map<nat, string> := map[];
    ghost var at: map<nat, nat> := map[];
    for p := 0 to |order|
      invariant Filed(rank, order, self, tree, at, p)
    {
      var name := order[p];
      if name == self {
        FiledSkip(rank, order, self, tree, at, p);
      } else {
        FiledInsert(rank, order, self, tree, at, p);
        ContrastOfSameChannels(pow, palette[self], pal[self], palette[name], pal[name]);
        var key := ContrastKey(GetContrast(pow, pal[self], pal[name]));
        tree := tree[key := name];
        at := at[key := p];
      }
    }
    list := Drain(tree);
    ghost var keys: seq<nat> :| DrainedAs(tree, keys, list);
    FiledRanked(pow, palette, order, self, rank, tree, at, keys, list);
  }

  /** After visiting `order[..p]`: `tree` files each visited cell other than `self` under
      its key `rank[cell]`, holding for each key the last visited cell with it; `at` is
      where in `order` that cell was visited. */
  ghost predicate Filed(rank: map<string, nat>, order: seq<string>, self: string,
                        tree: map<nat, string>, at: map<nat, nat>, p: nat)
    requires forall q :: 0 <= q < |order| ==> order[q] in rank
    requires p <= |order|
  {
    tree.Keys == at.Keys &&
    (forall k :: k in tree ==>
       at[k] < p && order[at[k]] == tree[k] && tree[k] != self && rank[tree[k]] == k &&
       forall p' :: at[k] < p' < p && order[p'] != self ==> rank[order[p']] != k) &&
    (forall p' :: 0 <= p' < p && order[p'] != self ==> rank[order[p']] in tree)
  }

  /** Visiting `self` changes nothing. */
  lemma FiledSkip(rank: map<string, nat>, order: seq<string>, self: string,
                  tree: map<nat, string>, at: map<nat, nat>, p: nat)
    requires forall q :: 0 <= q < |order| ==> order[q] in rank
    requires p < |order| && order[p] == self && Filed(rank, order, self, tree, at, p)
    ensures Filed(rank, order, self, tree, at, p + 1)
  {
  }

  /** One `BTreeMap::insert` of the visit loop keeps `Filed`. */
  lemma FiledInsert(rank: map<string, nat>, order: seq<string>, self: string,
                    tree: map<nat, string>, at: map<nat, nat>, p: nat)
    requires forall q :: 0 <= q < |order| ==> order[q] in rank
    requires p < |order| && order[p] != self && Filed(rank, order, self, tree, at, p)
    ensures Filed(rank, order, self, tree[rank[order[p]] := order[p]], at[rank[order[p]] := p], p + 1)
  {
  }

  /** Draining a tree filed over the whole of `order` gives a ranked list. */
  lemma FiledRanked(pow: real -> real, palette: Palette, order: seq<string>, self: string,
                    rank: map<string, nat>, tree: map<nat, string>, at: map<nat, nat>,
                    keys: seq<nat>, list: seq<string>)
    requires IsOrderOf(order, palette) && AllMeasurable(pow, palette) && self in palette
    requires rank == map n | n in palette :: Rank(pow, palette, self, n)
    requires Filed(rank, order, self, tree, at, |order|)
    requires DrainedAs(tree, keys, list)
    ensures Ranked(pow, palette, order, self, list)
  {
    assert forall j :: 0 <= j < |list| ==> rank[list[j]] == keys[j];
    forall j, p, q | 0 <= j < |list| && 0 <= p < q < |order| && order[p] == list[j] && order[q] != self
      ensures rank[order[q]] != rank[list[j]]
    {
      var k := keys[j];
      assert order[at[k]] == order[p];
    }
    forall p | 0 <= p < |order| && order[p] != self
      ensures exists j :: 0 <= j < |list| && rank[list[j]] == rank[order[p]]
    {
      var k := rank[order[p]];
      assert k in tree && k in keys;
      var j :| 0 <= j < |keys| && keys[j] == k;
    }
  }

  /** `for (_, c) in tree { list.push_front(c) }`: the values of `tree` in descending key order. */
  method Drain(tree: map<nat, string>) returns (list: seq<string>)
    ensures exists keys: seq<nat> :: DrainedAs(tree, keys, list)
  {
    list := [];
    ghost var keys: seq<nat> := [];
    var rest := tree.Keys;
    while rest != {}
      invariant rest <= tree.Keys
      invariant |keys| == |list| && Descending(keys)
      invariant forall j :: 0 <= j < |keys| ==> keys[j] in tree && keys[j] !in rest && tree[keys[j]] == list[j]
      invariant forall k, j :: k in rest && 0 <= j < |keys| ==> keys[j] < k
      invariant forall k :: k in tree && k !in rest ==> k in keys
      decreases |rest|
    {
      ghost var least := Least(rest);
      var m :| m in rest && forall x :: x in rest ==> m <= x;
      DescendingCons(m, keys);
      list := [tree[m]] + list;
      keys := [m] + keys;
      rest := rest - {m};
      assert forall k :: k in rest ==> m < k;
    }
    assert DrainedAs(tree, keys, list);
  }

  /** `list` holds the values of `tree` under the keys `keys`, which are all of its keys in
      descending order. */
  ghost predicate DrainedAs(tree: map<nat, string>, keys: seq<nat>, list: seq<string>)
  {
    |keys| == |list| && Descending(keys) &&
    (forall j :: 0 <= j < |keys| ==> keys[j] in tree && tree[keys[j]] == list[j]) &&
    (forall k :: k in tree ==> k in keys)
  }

  predicate Descending(keys: seq<nat>)
  {
    forall j, j' :: 0 <= j < j' < |keys| ==> keys[j] > keys[j']
  }

  lemma DescendingCons(m: nat, keys: seq<nat>)
    requires Descending(keys) && forall j :: 0 <= j < |keys| ==> keys[j] < m
    ensures Descending([m] + keys)
  {
    var ks := [m] + keys;
    forall j, j' | 0 <= j < j' < |ks| ensures ks[j] > ks[j'] {
      assert ks[j'] == keys[j' - 1];
      if j > 0 { assert ks[j] == keys[j - 1]; }
    }
  }

  // ---------------------------------------------------------------- properties of the ranking

  /** A cell has fewer neighbours than the palette has cells. */
  lemma RankedLength(pow: real -> real, palette: Palette, order: seq<string>, self: string,
                     list: seq<string>)
    requires self in palette && AllMeasurable(pow, palette) && IsOrderOf(order, palette)
    requires Ranked(pow, palette, order, self, list)
    ensures |list| <= |palette| - 1
  {
    DistinctBound(list, palette.Keys - {self});
  }

  /** Two strictly descending sequences with the same elements are equal. */
  lemma {:induction false} DescendingUnique(a: seq<nat>, b: seq<nat>)
    requires Descending(a) && Descending(b)
    requires forall x :: x in a <==> x in b
    ensures a == b
  {
    if a != [] { assert a[0] in a; }
    if b != [] { assert b[0] in b; }
    if a != [] && b != [] {
      assert a[0] in b;
      assert b[0] in a;
      assert a[0] == b[0];
      forall x
        ensures x in a[1..] <==> x in b[1..]
      {
        if x in a[1..] {
          assert x in b;
          assert x != b[0];
          assert x in b[1..];
        }
        if x in b[1..] {
          assert x in a;
          assert x != a[0];
          assert x in a[1..];
        }
      }
      DescendingUnique(a[1..], b[1..]);
      assert a == [a[0]] + a[1..] && b == [b[0]] + b[1..];
    }
  }

  /** The keys of the cells of `list`, in order. */
  ghost function Ranks(pow: real -> real, palette: Palette, self: string, list: seq<string>): (rs: seq<nat>)
    requires self in palette && AllMeasurable(pow, palette)
    requires forall j :: 0 <= j < |list| ==> list[j] in palette
    ensures |rs| == |list| && forall j :: 0 <= j < |list| ==> rs[j] == Rank(pow, palette, self, list[j])
  {
    seq(|list|, j requires 0 <= j < |list| => Rank(pow, palette, self, list[j]))
  }

  /** Every key in one ranked list is in any other. */
  lemma RanksIncluded(pow: real -> real, palette: Palette, order: seq<string>, self: string,
                      l1: seq<string>, l2: seq<string>)
    requires self in palette && AllMeasurable(pow, palette) && IsOrderOf(order, palette)
    requires Ranked(pow, palette, order, self, l1) && Ranked(pow, palette, order, self, l2)
    ensures forall x :: x in Ranks(pow, palette, self, l1) ==> x in Ranks(pow, palette, self, l2)
  {
    var r1, r2 := Ranks(pow, palette, self, l1), Ranks(pow, palette, self, l2);
    forall x | x in r1
      ensures x in r2
    {
      var j :| 0 <= j < |r1| && r1[j] == x;
      var p := OrderCovers(order, palette, l1[j]);
      var j' :| 0 <= j' < |l2| && Rank(pow, palette, self, l2[j']) == Rank(pow, palette, self, order[p]);
      assert r2[j'] == x;
    }
  }

  /** The ranking is determined by the palette and the order of the visit: `Ranked` admits
      exactly one list. */
  lemma RankedUnique(pow: real -> real, palette: Palette, order: seq<string>, self: string,
                     l1: seq<string>, l2: seq<string>)
    requires self in palette && AllMeasurable(pow, palette) && IsOrderOf(order, palette)
    requires Ranked(pow, palette, order, self, l1) && Ranked(pow, palette, order, self, l2)
    ensures l1 == l2
  {
    var r1, r2 := Ranks(pow, palette, self, l1), Ranks(pow, palette, self, l2);
    RanksIncluded(pow, palette, order, self, l1, l2);
    RanksIncluded(pow, palette, order, self, l2, l1);
    DescendingUnique(r1, r2);
    forall j | 0 <= j < |l1|
      ensures l1[j] == l2[j]
    {
      assert r1[j] == r2[j];
      SameRankSameCell(pow, palette, order, self, l1, l2, j);
    }
  }

  /** Cells at the same place of two ranked lists with equal keys are one cell: the last
      visited with that key. */
  lemma SameRankSameCell(pow: real -> real, palette: Palette, order: seq<string>, self: string,
                         l1: seq<string>, l2: seq<string>, j: nat)
    requires self in palette && AllMeasurable(pow, palette) && IsOrderOf(order, palette)
    requires Ranked(pow, palette, order, self, l1) && Ranked(pow, palette, order, self, l2)
    requires j < |l1| && j < |l2| && Rank(pow, palette, self, l1[j]) == Rank(pow, palette, self, l2[j])
    ensures l1[j] == l2[j]
  {
    var p1 := OrderCovers(order, palette, l1[j]);
    var p2 := OrderCovers(order, palette, l2[j]);
  }
}
