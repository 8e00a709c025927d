/**
 The three bubble sorts over tuples, with a tuple as a sequence: on types, on references to the
 elements, and on types paired with their positions.
 */
module TupleSort {
  import opened Prelude

  // ----- on types -----

  function Bubble<T>(s: seq<T>, less: (T, T) -> bool): (r: seq<T>)
    ensures |r| == |s|
    decreases |s|
  {
    if |s| <= 1 then s
    else if less(s[0], s[1]) then [s[0]] + Bubble(s[1..], less)
    else [s[1]] + Bubble([s[0]] + s[2..], less)
  }

  function Sort<T>(s: seq<T>, less: (T, T) -> bool): (r: seq<T>)
    ensures |r| == |s|
    decreases |s|
  {
    if s == [] then []
    else
      var b := Bubble(s, less);
      Sort(b[..|b| - 1], less) + [b[|b| - 1]]
  }

  // ----- on references; there is no base case for the empty tuple -----

  function SwapFirstTwo<T>(s: seq<T>): seq<T>
    requires |s| >= 2
  {
    [s[1], s[0]] + s[2..]
  }

  function BubbleRef<T>(s: seq<T>, less: (T, T) -> bool): (r: seq<T>)
    requires s != []
    ensures |r| == |s|
    decreases |s|
  {
    if |s| == 1 then s
    else
      var s' := if less(s[0], s[1]) then s else SwapFirstTwo(s);
      [s'[0]] + BubbleRef(s'[1..], less)
  }

  function SortRef<T>(s: seq<T>, less: (T, T) -> bool): (r: seq<T>)
    requires s != []
    decreases |s|
  {
    if |s| == 1 then s
    else
      var b := BubbleRef(s, less);
      SortRef(b[..|b| - 1], less) + [b[|b| - 1]]
  }

  // ----- on indexed types, then projected by index -----

  function Indexed<T>(s: seq<T>): (r: seq<(T, nat)>)
    ensures |r| == |s|
  {
    seq(|s|, i requires 0 <= i < |s| => (s[i], i))
  }

  function ByType<T>(less: (T, T) -> bool): ((T, nat), (T, nat)) -> bool {
    (x: (T, nat), y: (T, nat)) => less(x.0, y.0)
  }

  function SortedIndices<T>(s: seq<T>, less: (T, T) -> bool): (r: seq<nat>)
    ensures |r| == |s|
  {
    var sorted := Sort(Indexed(s), ByType(less));
    seq(|s|, i requires 0 <= i < |s| => sorted[i].1)
  }

  // ----- permutations -----

  lemma {:induction false} BubblePermutes<T>(s: seq<T>, less: (T, T) -> bool)
    ensures multiset(Bubble(s, less)) == multiset(s)
    decreases |s|
  {
    if |s| > 1 {
      Peel(s);
      if less(s[0], s[1]) {
        BubblePermutes(s[1..], less);
      } else {
        BubblePermutes([s[0]] + s[2..], less);
      }
    }
  }

  lemma Peel<T>(s: seq<T>)
    requires |s| > 1
    ensures multiset(s) == multiset{s[0]} + multiset(s[1..])
    ensures multiset(s) == multiset{s[1]} + multiset([s[0]] + s[2..])
  {
    assert s == [s[0]] + s[1..];
    assert s[1..] == [s[1]] + s[2..];
  }

  lemma {:induction false} SortPermutes<T>(s: seq<T>, less: (T, T) -> bool)
    ensures multiset(Sort(s, less)) == multiset(s)
    decreases |s|
  {
    if s != [] {
      var b := Bubble(s, less);
      BubblePermutes(s, less);
      SortPermutes(b[..|b| - 1], less);
      assert b == b[..|b| - 1] + [b[|b| - 1]];
    }
  }

  // ----- the sorts agree, whatever the comparator -----

  lemma {:induction false} BubblesAgree<T>(s: seq<T>, less: (T, T) -> bool)
    requires s != []
    ensures BubbleRef(s, less) == Bubble(s, less)
    decreases |s|
  {
    if |s| > 1 {
      var rest := if less(s[0], s[1]) then s[1..] else [s[0]] + s[2..];
      assert less(s[0], s[1]) || SwapFirstTwo(s)[1..] == rest;
      BubblesAgree(rest, less);
    }
  }

  lemma {:induction false} RefSortAgrees<T>(s: seq<T>, less: (T, T) -> bool)
    requires s != []
    ensures SortRef(s, less) == Sort(s, less)
    decreases |s|
  {
    var b := Bubble(s, less);
    BubblesAgree(s, less);
    if |s| == 1 {
      assert b[..0] == [] && s == [s[0]];
    } else {
      RefSortAgrees(b[..|b| - 1], less);
    }
  }

  function Types<T>(xs: seq<(T, nat)>): (r: seq<T>)
    ensures |r| == |xs|
  {
    seq(|xs|, i requires 0 <= i < |xs| => xs[i].0)
  }

  lemma {:induction false} BubbleForgets<T>(xs: seq<(T, nat)>, less: (T, T) -> bool)
    ensures Types(Bubble(xs, ByType(less))) == Bubble(Types(xs), less)
    decreases |xs|
  {
    if |xs| > 1 {
      var ts := Types(xs);
      if less(ts[0], ts[1]) {
        BubbleForgets(xs[1..], less);
        assert Types(xs[1..]) == ts[1..];
      } else {
        BubbleForgets([xs[0]] + xs[2..], less);
        assert Types([xs[0]] + xs[2..]) == [ts[0]] + ts[2..];
      }
    }
  }

  lemma {:induction false} SortForgets<T>(xs: seq<(T, nat)>, less: (T, T) -> bool)
    ensures Types(Sort(xs, ByType(less))) == Sort(Types(xs), less)
    decreases |xs|
  {
    if xs != [] {
      var b := Bubble(xs, ByType(less));
      BubbleForgets(xs, less);
      SortForgets(b[..|b| - 1], less);
      assert Types(b[..|b| - 1]) == Types(b)[..|b| - 1];
    }
  }

  /** Each element still carries the position it came from. */
  lemma IndicesPoint<T>(s: seq<T>, less: (T, T) -> bool, i: nat)
    requires i < |s|
    ensures var x := Sort(Indexed(s), ByType(less))[i]; x.1 < |s| && x.0 == s[x.1]
  {
    var sorted := Sort(Indexed(s), ByType(less));
    SortPermutes(Indexed(s), ByType(less));
    assert sorted[i] in multiset(sorted);
    assert sorted[i] in Indexed(s);
  }

  /** Rearranging distinct elements leaves them distinct. */
  lemma DistinctStays<T>(s: seq<T>, t: seq<T>)
    requires multiset(s) == multiset(t) && Distinct(t)
    ensures Distinct(s)
  {
    forall i, j | 0 <= i < j < |s|
      ensures s[i] != s[j]
    {
      if s[i] == s[j] {
        Twice(s, i, j);
        AtMostOnce(t, s[i]);
      }
    }
  }

  lemma Twice<T>(s: seq<T>, i: nat, j: nat)
    requires i < j < |s| && s[i] == s[j]
    ensures multiset(s)[s[i]] >= 2
  {
    assert s == s[..i] + [s[i]] + s[i + 1..];
    assert s[i + 1..][j - i - 1] == s[j];
    assert s[j] in s[i + 1..];
  }

  lemma {:induction false} AtMostOnce<T>(s: seq<T>, x: T)
    requires Distinct(s)
    ensures multiset(s)[x] <= 1
  {
    if s != [] {
      AtMostOnce(s[1..], x);
      assert s == [s[0]] + s[1..];
      assert s[0] == x ==> x !in s[1..];
    }
  }

  /** The positions the indexed sort reads are all positions, each once. */
  lemma IndicesPermute<T>(s: seq<T>, less: (T, T) -> bool)
    ensures forall i :: 0 <= i < |s| ==> SortedIndices(s, less)[i] < |s|
    ensures Distinct(SortedIndices(s, less))
    ensures forall k: nat :: k < |s| ==> k in SortedIndices(s, less)
  {
    var xs, sorted, p := Indexed(s), Sort(Indexed(s), ByType(less)), SortedIndices(s, less);
    SortPermutes(xs, ByType(less));
    DistinctStays(sorted, xs);
    forall i | 0 <= i < |s|
      ensures p[i] < |s| && sorted[i] == (s[p[i]], p[i])
    {
      IndicesPoint(s, less, i);
    }
    forall k: nat | k < |s|
      ensures k in p
    {
      assert xs[k] in multiset(sorted);
      var i :| 0 <= i < |sorted| && sorted[i] == xs[k];
      assert p[i] == k;
    }
  }

  /** For every non-empty tuple and every comparator the three sorts give the same tuple. */
  lemma SortsAgree<T>(s: seq<T>, less: (T, T) -> bool)
    requires s != []
    ensures SortRef(s, less) == Sort(s, less)
    ensures forall i :: 0 <= i < |s| ==> SortedIndices(s, less)[i] < |s|
    ensures forall i :: 0 <= i < |s| ==> s[SortedIndices(s, less)[i]] == Sort(s, less)[i]
  {
    RefSortAgrees(s, less);
    IndicesPermute(s, less);
    IndicesReadTheSort(s, less);
  }

  lemma IndicesReadTheSort<T>(s: seq<T>, less: (T, T) -> bool)
    ensures forall i :: 0 <= i < |s| ==>
              SortedIndices(s, less)[i] < |s| && s[SortedIndices(s, less)[i]] == Sort(s, less)[i]
  {
    SortForgets(Indexed(s), less);
    assert Types(Indexed(s)) == s;
    forall i | 0 <= i < |s|
      ensures SortedIndices(s, less)[i] < |s| && s[SortedIndices(s, less)[i]] == Sort(s, less)[i]
    {
      IndicesPoint(s, less, i);
      assert Types(Sort(Indexed(s), ByType(less)))[i] == Sort(s, less)[i];
    }
  }

  // ----- with a strict order the result is sorted -----

  ghost predicate StrictWeakOrder<T(!new)>(less: (T, T) -> bool) {
    && (forall x :: !less(x, x))
    && (forall x, y, z :: less(x, y) && less(y, z) ==> less(x, z))
    && (forall x, y, z :: less(x, z) ==> less(x, y) || less(y, z))
  }

  ghost predicate Sorted<T(!new)>(s: seq<T>, less: (T, T) -> bool) {
    forall i, j :: 0 <= i < j < |s| ==> !less(s[j], s[i])
  }

  /** What a pass puts first, and what it goes on with. */
  ghost function Follow<T>(s: seq<T>, less: (T, T) -> bool): (T, seq<T>)
    requires |s| > 1
  {
    if less(s[0], s[1]) then (s[0], s[1..]) else (s[1], [s[0]] + s[2..])
  }

  lemma BubbleUnfolds<T>(s: seq<T>, less: (T, T) -> bool)
    requires |s| > 1
    ensures var (first, rest) := Follow(s, less);
            && |rest| == |s| - 1 && Bubble(s, less) == [first] + Bubble(rest, less)
            && (less(first, rest[0]) || !less(rest[0], first))
  {
  }

  /** The largest element rises to the end. */
  lemma {:induction false} BubbleMax<T(!new)>(s: seq<T>, less: (T, T) -> bool, k: nat)
    requires k < |s| && StrictWeakOrder(less)
    ensures !less(Bubble(s, less)[|s| - 1], Bubble(s, less)[k])
    decreases |s|, 0
  {
    if |s| > 1 {
      BubbleUnfolds(s, less);
      var (first, rest) := Follow(s, less);
      BubbleMaxRest(first, rest, less, k);
    }
  }

  lemma {:induction false} BubbleMaxRest<T(!new)>(first: T, rest: seq<T>, less: (T, T) -> bool, k: nat)
    requires k <= |rest| && rest != [] && StrictWeakOrder(less) && (less(first, rest[0]) || !less(rest[0], first))
    ensures !less(([first] + Bubble(rest, less))[|rest|], ([first] + Bubble(rest, less))[k])
    decreases |rest|, 1
  {
    var b := Bubble(rest, less);
    if k > 0 {
      BubbleMax(rest, less, k - 1);
    } else {
      var m := IndexOf(rest, b, rest[0], less);
      BubbleMax(rest, less, m);
      NotBelow(b[|b| - 1], rest[0], first, less);
    }
  }

  lemma NotBelow<T(!new)>(x: T, y: T, z: T, less: (T, T) -> bool)
    requires StrictWeakOrder(less) && !less(x, y) && (less(z, y) || !less(y, z))
    ensures !less(x, z)
  {
    if less(y, z) {
      assert less(z, z);
    }
  }

  lemma IndexOf<T>(s: seq<T>, b: seq<T>, x: T, less: (T, T) -> bool) returns (m: nat)
    requires b == Bubble(s, less) && x in s
    ensures m < |b| && b[m] == x
  {
    BubblePermutes(s, less);
    assert x in multiset(b);
    m :| m < |b| && b[m] == x;
  }

  lemma {:induction false} SortSorts<T(!new)>(s: seq<T>, less: (T, T) -> bool)
    requires StrictWeakOrder(less)
    ensures Sorted(Sort(s, less), less)
    decreases |s|
  {
    if s != [] {
      var b := Bubble(s, less);
      var n := |b| - 1;
      SortSorts(b[..n], less);
      var front := Sort(b[..n], less);
      forall i | 0 <= i < n
        ensures !less(b[n], front[i])
      {
        SortPermutes(b[..n], less);
        assert front[i] in multiset(b[..n]);
        var k: nat :| k < n && b[k] == front[i];
        BubbleMax(s, less, k);
      }
    }
  }

  // ----- the compile-time tests on lock orders -----

  function ByOrder<T>(order: T -> int): (T, T) -> bool {
    (x: T, y: T) => order(x) < order(y)
  }

  lemma OrdersAscend<T(!new)>(s: seq<T>, order: T -> int)
    ensures var r := Sort(s, ByOrder(order)); forall i, j :: 0 <= i < j < |r| ==> order(r[i]) <= order(r[j])
    ensures multiset(Sort(s, ByOrder(order))) == multiset(s)
  {
    SortSorts(s, ByOrder(order));
    SortPermutes(s, ByOrder(order));
  }

  /** The test on neighbours of the sorted tuple; false for fewer than two elements. */
  ghost predicate IsThereRepeatingOrder<T>(s: seq<T>, order: T -> int) {
    var r := Sort(s, ByOrder(order));
    exists i :: 0 <= i < |r| - 1 && order(r[i]) == order(r[i + 1])
  }

  ghost predicate Repeats<T>(s: seq<T>, order: T -> int) {
    exists i, j :: 0 <= i < j < |s| && order(s[i]) == order(s[j])
  }

  /** The test on neighbours finds a repetition exactly when there is one anywhere. */
  lemma NeighbourTestIsExact<T(!new)>(s: seq<T>, order: T -> int)
    ensures IsThereRepeatingOrder(s, order) <==> Repeats(s, order)
  {
    OrdersAscend(s, order);
    IndicesPermute(s, ByOrder(order));
    IndicesReadTheSort(s, ByOrder(order));
    Neighbours(s, Sort(s, ByOrder(order)), SortedIndices(s, ByOrder(order)), order);
  }

  /** r is s in ascending order, and p says where each of its elements comes from. */
  lemma Neighbours<T(!new)>(s: seq<T>, r: seq<T>, p: seq<nat>, order: T -> int)
    requires |s| == |r| == |p| && Distinct(p) && forall k: nat :: k < |s| ==> k in p
    requires forall i :: 0 <= i < |s| ==> p[i] < |s| && s[p[i]] == r[i]
    requires forall i, j :: 0 <= i < j < |r| ==> order(r[i]) <= order(r[j])
    ensures (exists i :: 0 <= i < |r| - 1 && order(r[i]) == order(r[i + 1])) <==> Repeats(s, order)
  {
    if i :| 0 <= i < |r| - 1 && order(r[i]) == order(r[i + 1]) {
      RepetitionIsThere(s, p, i, i + 1, order);
    }
    if Repeats(s, order) {
      var i: nat, j: nat :| i < j < |s| && order(s[i]) == order(s[j]);
      assert i in p && j in p;
      var a: nat :| a < |p| && p[a] == i;
      var b: nat :| b < |p| && p[b] == j;
      NeighboursRepeat(r, if a < b then a else b, if a < b then b else a, order);
    }
  }

  lemma RepetitionIsThere<T>(s: seq<T>, p: seq<nat>, i: nat, j: nat, order: T -> int)
    requires i < j < |p| && p[i] != p[j] && p[i] < |s| && p[j] < |s| && order(s[p[i]]) == order(s[p[j]])
    ensures Repeats(s, order)
  {
    if p[i] < p[j] {
      assert Repeats(s, order);
    }
  }

  /** In ascending order equal elements have equal neighbours. */
  lemma NeighboursRepeat<T>(r: seq<T>, a: nat, b: nat, order: T -> int)
    requires a < b < |r| && order(r[a]) == order(r[b])
    requires forall i, j :: 0 <= i < j < |r| ==> order(r[i]) <= order(r[j])
    ensures order(r[a]) == order(r[a + 1])
  {
    if a + 1 < b {
      assert order(r[a]) <= order(r[a + 1]) <= order(r[b]);
    }
  }

  /** Last of the one sorted against first of the other; both non-empty. */
  predicate LastBelowFirst<T>(s: seq<T>, t: seq<T>, order: T -> int)
    requires s != [] && t != []
  {
    order(Sort(s, ByOrder(order))[|s| - 1]) < order(Sort(t, ByOrder(order))[0])
  }

  /** The test on last and first holds exactly when every order of the one is below every one of the other. */
  lemma LastFirstTestIsExact<T(!new)>(s: seq<T>, t: seq<T>, order: T -> int)
    requires s != [] && t != []
    ensures LastBelowFirst(s, t, order) <==> forall x, y :: x in s && y in t ==> order(x) < order(y)
  {
    var a, b := Sort(s, ByOrder(order)), Sort(t, ByOrder(order));
    OrdersAscend(s, order);
    OrdersAscend(t, order);
    assert a[|s| - 1] in multiset(a) && b[0] in multiset(b);
    assert a[|s| - 1] in s && b[0] in t;
    forall x | x in s
      ensures order(x) <= order(a[|s| - 1])
    {
      assert x in multiset(a);
      var i :| 0 <= i < |a| && a[i] == x;
    }
    forall y | y in t
      ensures order(b[0]) <= order(y)
    {
      assert y in multiset(b);
      var i :| 0 <= i < |b| && b[i] == y;
    }
  }
}
