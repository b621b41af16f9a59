/**
 * The array methods the client code is built from: `filter`, a `map` that
 * rewrites the selected elements only, `find`, and `slice(0, n)`, together
 * with the order and membership facts the rest of the model relies on.
 */
module Collections {
  import opened Wrappers

  /** `a` is obtained from `b` by dropping elements, keeping the order of the rest. */
  predicate IsSubsequence<T(==)>(a: seq<T>, b: seq<T>)
    decreases |b|
  {
    a == [] || (b != [] && ((a[0] == b[0] && IsSubsequence(a[1..], b[1..])) || IsSubsequence(a, b[1..])))
  }

  /** `xs.filter(keep)`. */
  function Filter<T(!new)>(xs: seq<T>, keep: T -> bool): (r: seq<T>)
    ensures |r| <= |xs|
    ensures forall x :: x in r <==> x in xs && keep(x)
  {
    if xs == [] then []
    else
      var rest := Filter(xs[1..], keep);
      assert forall x :: x in xs <==> x == xs[0] || x in xs[1..];
      if keep(xs[0]) then [xs[0]] + rest else rest
  }

  /** `xs.map(x => sel(x) ? f(x) : x)`. */
  function MapWhere<T>(xs: seq<T>, sel: T -> bool, f: T -> T): (r: seq<T>)
    ensures |r| == |xs|
    ensures forall i :: 0 <= i < |xs| ==> r[i] == (if sel(xs[i]) then f(xs[i]) else xs[i])
  {
    if xs == [] then []
    else [if sel(xs[0]) then f(xs[0]) else xs[0]] + MapWhere(xs[1..], sel, f)
  }

  /** The position at which `find` stops: the first position whose element passes, `None` when none does. */
  function FindIndex<T>(xs: seq<T>, p: T -> bool): (r: Option<nat>)
    ensures r.Some? ==> r.value < |xs| && p(xs[r.value])
    ensures r.Some? ==> forall j :: 0 <= j < r.value ==> !p(xs[j])
    ensures r.None? <==> forall j :: 0 <= j < |xs| ==> !p(xs[j])
  {
    if xs == [] then None
    else if p(xs[0]) then Some(0)
    else
      match FindIndex(xs[1..], p)
      case None => None
      case Some(i) => Some(i + 1)
  }

  /** `xs.find(p)`: the first element that passes, or `undefined`. */
  function Find<T(!new)>(xs: seq<T>, p: T -> bool): (r: Option<T>)
    ensures r.None? <==> forall x :: x in xs ==> !p(x)
    ensures r.Some? ==> r.value in xs && p(r.value)
    ensures r.Some? ==> (exists i :: 0 <= i < |xs| && xs[i] == r.value && forall j :: 0 <= j < i ==> !p(xs[j]))
  {
    match FindIndex(xs, p)
    case None => None
    case Some(i) => Some(xs[i])
  }

  /** `xs.slice(0, n)` for a non-negative `n`. */
  function Take<T>(xs: seq<T>, n: nat): (r: seq<T>)
    ensures |r| == (if |xs| < n then |xs| else n)
    ensures r <= xs
  {
    if |xs| < n then xs else xs[..n]
  }

  lemma {:induction false} FilterIsSubsequence<T(!new)>(xs: seq<T>, keep: T -> bool)
    ensures IsSubsequence(Filter(xs, keep), xs)
  {
    if xs != [] {
      FilterIsSubsequence(xs[1..], keep);
      var rest := Filter(xs[1..], keep);
      if keep(xs[0]) {
        assert Filter(xs, keep) == [xs[0]] + rest;
        assert ([xs[0]] + rest)[1..] == rest;
      }
    }
  }

  /** Filtering distributes over concatenation: the kept elements stay in their order. */
  lemma {:induction false} FilterConcat<T(!new)>(xs: seq<T>, ys: seq<T>, keep: T -> bool)
    ensures Filter(xs + ys, keep) == Filter(xs, keep) + Filter(ys, keep)
  {
    if xs == [] {
      assert xs + ys == ys;
    } else {
      assert (xs + ys)[0] == xs[0];
      assert (xs + ys)[1..] == xs[1..] + ys;
      FilterConcat(xs[1..], ys, keep);
    }
  }

  /** When every element passes, filtering returns the sequence itself. */
  lemma {:induction false} FilterAllKept<T(!new)>(xs: seq<T>, keep: T -> bool)
    requires forall x :: x in xs ==> keep(x)
    ensures Filter(xs, keep) == xs
  {
    if xs != [] {
      assert forall x :: x in xs[1..] ==> x in xs;
      FilterAllKept(xs[1..], keep);
      assert [xs[0]] + xs[1..] == xs;
    }
  }

  /** Filtering twice with the same test is filtering once. */
  lemma FilterIdempotent<T(!new)>(xs: seq<T>, keep: T -> bool)
    ensures Filter(Filter(xs, keep), keep) == Filter(xs, keep)
  {
  }

  /** Mapping twice is mapping once, as long as a second application of `f` changes nothing. */
  lemma MapWhereIdempotent<T>(xs: seq<T>, sel: T -> bool, f: T -> T)
    requires forall x :: sel(x) && sel(f(x)) ==> f(f(x)) == f(x)
    ensures MapWhere(MapWhere(xs, sel, f), sel, f) == MapWhere(xs, sel, f)
  {
  }

  /** `xs.filter(p).length`: how many elements pass. */
  function CountWhere<T(!new)>(xs: seq<T>, p: T -> bool): (n: nat)
    ensures n <= |xs|
    ensures n == 0 <==> forall x :: x in xs ==> !p(x)
    ensures n == |xs| <==> forall x :: x in xs ==> p(x)
  {
    FilterKeepsAllOnlyIfAllPass(xs, p);
    var kept := Filter(xs, p);
    assert |kept| != 0 ==> kept[0] in kept;
    |kept|
  }

  /** Filtering loses no element only when every element passes. */
  lemma {:induction false} FilterKeepsAllOnlyIfAllPass<T(!new)>(xs: seq<T>, keep: T -> bool)
    ensures |Filter(xs, keep)| == |xs| <==> forall x :: x in xs ==> keep(x)
  {
    if xs == [] {
    } else {
      FilterKeepsAllOnlyIfAllPass(xs[1..], keep);
      assert forall x :: x in xs <==> x == xs[0] || x in xs[1..];
      assert |Filter(xs[1..], keep)| <= |xs[1..]|;
    }
  }

  lemma {:induction false} IsSubsequenceRefl<T>(xs: seq<T>)
    ensures IsSubsequence(xs, xs)
  {
    if xs != [] {
      IsSubsequenceRefl(xs[1..]);
    }
  }

  /**
   * Filtering with a test that every sought element passes does not change
   * what `find` returns.
   */
  lemma {:induction false} FindAfterFilter<T(!new)>(xs: seq<T>, keep: T -> bool, p: T -> bool)
    requires forall x :: p(x) ==> keep(x)
    ensures Find(Filter(xs, keep), p) == Find(xs, p)
  {
    if xs != [] {
      FindAfterFilter(xs[1..], keep, p);
      FindCons(xs, p);
      var r := Filter(xs, keep);
      if keep(xs[0]) {
        assert r[0] == xs[0] && r[1..] == Filter(xs[1..], keep);
        FindCons(r, p);
      }
    }
  }

  /** `find` on a non-empty sequence looks at the head, then at the tail. */
  lemma FindCons<T(!new)>(xs: seq<T>, p: T -> bool)
    requires xs != []
    ensures Find(xs, p) == if p(xs[0]) then Some(xs[0]) else Find(xs[1..], p)
  {
    if !p(xs[0]) {
      match FindIndex(xs[1..], p)
      case None =>
      case Some(i) => assert xs[1..][i] == xs[i + 1];
    }
  }

  /** A map whose rewrite keeps elements selected finds the same first position. */
  lemma FindIndexAfterMapWhere<T>(xs: seq<T>, sel: T -> bool, f: T -> T)
    requires forall x :: sel(x) ==> sel(f(x))
    ensures FindIndex(MapWhere(xs, sel, f), sel) == FindIndex(xs, sel)
  {
  }
}
