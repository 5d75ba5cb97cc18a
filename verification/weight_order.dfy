/**
 * The ordering step of the genre searches: each selected genre paired with its
 * weight, sorted by descending weight with the comparator `b.weight - a.weight`.
 * JavaScript's `Array.prototype.sort` is stable, so genres of equal weight keep
 * the order in which they were selected.
 */
module WeightOrder {

  /** One element of `weightedGenres`. */
  datatype WeightedGenre = WeightedGenre(genre: string, weight: int)

  /** Non-increasing by weight: what the comparator `b.weight - a.weight` asks for. */
  ghost predicate ByWeightDesc(s: seq<WeightedGenre>)
  {
    forall i, j | 0 <= i < j < |s| :: s[i].weight >= s[j].weight
  }

  /** The elements of `s` with weight `w`, in their order in `s`. */
  function WithWeight(s: seq<WeightedGenre>, w: int): seq<WeightedGenre>
  {
    if s == [] then []
    else WithWeight(s[..|s| - 1], w) + (if s[|s| - 1].weight == w then [s[|s| - 1]] else [])
  }

  /**
   * Places `x` after every element of `s` whose weight is at least `x.weight`,
   * scanning from the right; on a sorted `s` this is the stable insertion point.
   */
  function Insert(s: seq<WeightedGenre>, x: WeightedGenre): (r: seq<WeightedGenre>)
    ensures |r| == |s| + 1
  {
    if s == [] || s[|s| - 1].weight >= x.weight then s + [x]
    else
      var init := s[..|s| - 1];
      assert s == init + [s[|s| - 1]];
      Insert(init, x) + [s[|s| - 1]]
  }

  /** Stable sort by descending weight, as insertion sort. */
  function SortByWeight(s: seq<WeightedGenre>): (r: seq<WeightedGenre>)
    ensures |r| == |s|
  {
    if s == [] then []
    else
      assert s == s[..|s| - 1] + [s[|s| - 1]];
      Insert(SortByWeight(s[..|s| - 1]), s[|s| - 1])
  }

  /** Insertion adds exactly `x` to the elements. */
  lemma {:induction false} InsertPermutes(s: seq<WeightedGenre>, x: WeightedGenre)
    ensures multiset(Insert(s, x)) == multiset(s) + multiset{x}
  {
    if s != [] && s[|s| - 1].weight < x.weight {
      var init, last := s[..|s| - 1], s[|s| - 1];
      InsertPermutes(init, x);
      assert s == init + [last];
    }
  }

  /** The sorted genres are a permutation of the input genres. */
  lemma {:induction false} SortPermutes(s: seq<WeightedGenre>)
    ensures multiset(SortByWeight(s)) == multiset(s)
  {
    if s != [] {
      var init, last := s[..|s| - 1], s[|s| - 1];
      SortPermutes(init);
      InsertPermutes(SortByWeight(init), last);
      assert s == init + [last];
    }
  }

  lemma {:induction false} InsertKeepsOrder(s: seq<WeightedGenre>, x: WeightedGenre)
    requires ByWeightDesc(s)
    ensures ByWeightDesc(Insert(s, x))
  {
    if s == [] || s[|s| - 1].weight >= x.weight {
    } else {
      var init, last := s[..|s| - 1], s[|s| - 1];
      InsertKeepsOrder(init, x);
      var r := Insert(init, x);
      InsertPermutes(init, x);
      forall k | 0 <= k < |r| ensures r[k].weight >= last.weight {
        assert r[k] in multiset(r);
        if r[k] != x {
          assert r[k] in multiset(init);
          var m :| 0 <= m < |init| && init[m] == r[k];
          assert init[m] == s[m];
        }
      }
      assert Insert(s, x) == r + [last];
    }
  }

  /** The sorted genres run from the heaviest weight to the lightest. */
  lemma {:induction false} SortedByWeight(s: seq<WeightedGenre>)
    ensures ByWeightDesc(SortByWeight(s))
  {
    if s != [] {
      SortedByWeight(s[..|s| - 1]);
      InsertKeepsOrder(SortByWeight(s[..|s| - 1]), s[|s| - 1]);
    }
  }

  lemma {:induction false} WithWeightAppend(s: seq<WeightedGenre>, x: WeightedGenre, w: int)
    ensures WithWeight(s + [x], w) == WithWeight(s, w) + (if x.weight == w then [x] else [])
  {
    assert (s + [x])[..|s|] == s;
  }

  lemma {:induction false} InsertWithWeight(s: seq<WeightedGenre>, x: WeightedGenre, w: int)
    ensures WithWeight(Insert(s, x), w) == WithWeight(s, w) + (if x.weight == w then [x] else [])
  {
    if s == [] || s[|s| - 1].weight >= x.weight {
      WithWeightAppend(s, x, w);
    } else {
      var init, last := s[..|s| - 1], s[|s| - 1];
      InsertWithWeight(init, x, w);
      WithWeightAppend(Insert(init, x), last, w);
      WithWeightAppend(init, last, w);
      assert init + [last] == s;
    }
  }

  /** Stability: for every weight, the genres of that weight keep their input order. */
  lemma {:induction false} SortIsStable(s: seq<WeightedGenre>, w: int)
    ensures WithWeight(SortByWeight(s), w) == WithWeight(s, w)
  {
    if s != [] {
      var init, last := s[..|s| - 1], s[|s| - 1];
      SortIsStable(init, w);
      InsertWithWeight(SortByWeight(init), last, w);
      WithWeightAppend(init, last, w);
      assert init + [last] == s;
    }
  }

  /**
   * `weightedGenres.sort((a, b) => b.weight - a.weight)`, in place: insertion
   * sort, which leaves the array exactly as SortByWeight orders its old contents.
   */
  method SortInPlace(a: array<WeightedGenre>)
    modifies a
    ensures a[..] == SortByWeight(old(a[..]))
  {
    ghost var input := a[..];
    var i := 0;
    while i < a.Length
      invariant 0 <= i <= a.Length
      invariant a[..i] == SortByWeight(input[..i])
      invariant forall k | i <= k < a.Length :: a[k] == input[k]
    {
      ghost var prefix := input[..i + 1];
      assert prefix[..i] == input[..i] && prefix[i] == input[i];
      assert SortByWeight(prefix) == Insert(SortByWeight(input[..i]), input[i]);
      InsertInPlace(a, i);
      assert a[..i + 1] == SortByWeight(prefix);
      i := i + 1;
    }
    assert a[..] == a[..a.Length];
    assert input[..a.Length] == input;
  }

  /** One step of SortInPlace: moves `a[i]` left into the sorted prefix `a[..i]`. */
  method InsertInPlace(a: array<WeightedGenre>, i: nat)
    requires i < a.Length
    modifies a
    ensures a[..i + 1] == Insert(old(a[..i]), old(a[i]))
    ensures forall k | i < k < a.Length :: a[k] == old(a[k])
  {
    ghost var sorted := a[..i];
    var x := a[i];
    var j := OpenGap(a, i);
    a[j] := x;
    ghost var target := sorted[..j] + [x] + sorted[j..];
    forall k | 0 <= k <= i ensures a[..i + 1][k] == target[k] {
      if k < j {
        assert target[k] == sorted[k];
      } else if j < k {
        assert target[k] == sorted[k - 1];
      }
    }
    assert a[..i + 1] == target;
    InsertAtGap(sorted, x);
  }

  /**
   * The inner loop of insertion sort: shifts the elements of `a[..i]` that are
   * lighter than `a[i]` one place right and returns the gap left for `a[i]`.
   */
  method OpenGap(a: array<WeightedGenre>, i: nat) returns (j: nat)
    requires i < a.Length
    modifies a
    ensures j == Gap(old(a[..i]), old(a[i]))
    ensures forall k | 0 <= k < j :: a[k] == old(a[k])
    ensures forall k | j < k <= i :: a[k] == old(a[k - 1])
    ensures forall k | i < k < a.Length :: a[k] == old(a[k])
  {
    ghost var sorted := a[..i];
    var x := a[i];
    j := i;
    while j > 0 && a[j - 1].weight < x.weight
      invariant 0 <= j <= i
      invariant forall k | 0 <= k < j :: a[k] == sorted[k]
      invariant forall k | j < k <= i :: a[k] == sorted[k - 1]
      invariant forall k | i < k < a.Length :: a[k] == old(a[k])
      invariant forall k | j <= k < i :: sorted[k].weight < x.weight
    {
      a[j] := a[j - 1];
      j := j - 1;
    }
    GapUnique(sorted, x, j);
  }

  /** Where Insert puts `x`: after the last element of `s` that weighs at least `x.weight`. */
  function Gap(s: seq<WeightedGenre>, x: WeightedGenre): (g: nat)
    ensures g <= |s|
  {
    if s == [] || s[|s| - 1].weight >= x.weight then |s| else Gap(s[..|s| - 1], x)
  }

  /** Insert puts `x` at the gap and leaves everything else in order around it. */
  lemma {:induction false} InsertAtGap(s: seq<WeightedGenre>, x: WeightedGenre)
    ensures Insert(s, x) == s[..Gap(s, x)] + [x] + s[Gap(s, x)..]
  {
    if s != [] && s[|s| - 1].weight < x.weight {
      var init := s[..|s| - 1];
      InsertAtGap(init, x);
      var g := Gap(init, x);
      assert init[..g] == s[..g];
      assert init[g..] + [s[|s| - 1]] == s[g..];
    }
  }

  /** The gap is the one position with a heavier-or-equal element (or the start) on its
      left and only lighter elements on its right. */
  lemma {:induction false} GapUnique(s: seq<WeightedGenre>, x: WeightedGenre, j: nat)
    requires j <= |s|
    requires j == 0 || s[j - 1].weight >= x.weight
    requires forall k | j <= k < |s| :: s[k].weight < x.weight
    ensures j == Gap(s, x)
  {
    if j < |s| {
      var init := s[..|s| - 1];
      GapUnique(init, x, j);
    }
  }
}
