/**
  The fleet's one averaging helper: the arithmetic mean of a numeric
  projection over a sequence of records. Both fleet managers use it; the
  projection stands for the getter the C++ code passes in (a member-function
  pointer in one version, a lambda over getSpeed in the other).
  Readings are exact reals, so the floating-point rounding of the
  C++ doubles is not modelled.
*/
module Stats {

  /** Left fold `((0.0 + f(vs[0])) + f(vs[1])) + ...`, the order in which
      `std::accumulate` adds the projected values. */
  function Sum<V>(vs: seq<V>, f: V -> real): (r: real)
    ensures r == Total(vs, f)
    decreases |vs|
  {
    if |vs| == 0 then 0.0
    else
      var n := |vs| - 1;
      TotalSnoc(vs[..n], vs[n], f);
      assert vs[..n] + [vs[n]] == vs;
      Sum(vs[..n], f) + f(vs[n])
  }

  /** Reference definition of the total, `f(vs[0]) + (f(vs[1]) + ...)`,
      taken from the front. */
  function Total<V>(vs: seq<V>, f: V -> real): real
    decreases |vs|
  {
    if |vs| == 0 then 0.0 else f(vs[0]) + Total(vs[1..], f)
  }

  /** Appending a record to the sequence adds its value to the front-first
      total. */
  lemma {:induction false} TotalSnoc<V>(vs: seq<V>, x: V, f: V -> real)
    ensures Total(vs + [x], f) == Total(vs, f) + f(x)
    decreases |vs|
  {
    if |vs| == 0 {
      assert [x][1..] == [];
    } else {
      assert (vs + [x])[1..] == vs[1..] + [x];
      TotalSnoc(vs[1..], x, f);
    }
  }

  /** Mean of `f` over `vs`: 0.0 for an empty sequence, otherwise the total
      divided by the number of records. */
  function Mean<V>(vs: seq<V>, f: V -> real): (r: real)
    ensures |vs| == 0 ==> r == 0.0
    ensures |vs| > 0 ==> r * (|vs| as real) == Sum(vs, f)
  {
    if |vs| == 0 then 0.0 else Sum(vs, f) / (|vs| as real)
  }

  /** The total over a concatenation is the sum of the two totals. */
  lemma {:induction false} SumAppend<V>(xs: seq<V>, ys: seq<V>, f: V -> real)
    ensures Sum(xs + ys, f) == Sum(xs, f) + Sum(ys, f)
    decreases |ys|
  {
    if |ys| == 0 {
      assert xs + ys == xs;
    } else {
      var n := |ys| - 1;
      assert (xs + ys)[..|xs + ys| - 1] == xs + ys[..n];
      assert (xs + ys)[|xs + ys| - 1] == ys[n];
      SumAppend(xs, ys[..n], f);
    }
  }

  /** The total of a single record is its projected value. */
  lemma SumSingleton<V>(v: V, f: V -> real)
    ensures Sum([v], f) == f(v)
  {
    assert [v][..0] == [];
  }

  /** Taking one record out of the sequence takes its value out of the total. */
  lemma SumRemove<V>(pre: seq<V>, x: V, post: seq<V>, f: V -> real)
    ensures Sum(pre + [x] + post, f) == Sum(pre + post, f) + f(x)
  {
    SumAppend(pre + [x], post, f);
    SumAppend(pre, [x], f);
    SumSingleton(x, f);
    SumAppend(pre, post, f);
  }

  /** Taking one record out of the sequence takes one occurrence out of its multiset. */
  lemma MultisetRemoveAt<V>(ys: seq<V>, j: nat)
    requires j < |ys|
    ensures multiset(ys[..j] + ys[j + 1..]) == multiset(ys) - multiset{ys[j]}
  {
    assert ys == ys[..j] + ([ys[j]] + ys[j + 1..]);
    assert multiset(ys) == multiset(ys[..j] + ys[j + 1..]) + multiset{ys[j]};
  }

  /** Taking the last record out of one sequence and a copy of it out of a
      permutation of that sequence leaves two permutations of each other. */
  lemma PermutationRemoveLast<V>(xs: seq<V>, ys: seq<V>, j: nat)
    requires multiset(xs) == multiset(ys)
    requires |xs| > 0 && j < |ys| && ys[j] == xs[|xs| - 1]
    ensures multiset(xs[..|xs| - 1]) == multiset(ys[..j] + ys[j + 1..])
  {
    var n := |xs| - 1;
    MultisetRemoveAt(xs, n);
    MultisetRemoveAt(ys, j);
    assert xs[..n] + xs[n + 1..] == xs[..n];
  }

  /** The total does not depend on the order of the records: any
      permutation of the sequence has the same total. */
  lemma {:induction false} SumPermutation<V>(xs: seq<V>, ys: seq<V>, f: V -> real)
    requires multiset(xs) == multiset(ys)
    ensures Sum(xs, f) == Sum(ys, f)
    decreases |xs|
  {
    if |xs| == 0 {
      assert |ys| == |multiset(ys)| == 0;
    } else {
      var n := |xs| - 1;
      var x := xs[n];
      assert x in multiset(ys);
      var j :| 0 <= j < |ys| && ys[j] == x;
      PermutationRemoveLast(xs, ys, j);
      SumPermutation(xs[..n], ys[..j] + ys[j + 1..], f);
      assert ys == ys[..j] + [ys[j]] + ys[j + 1..];
      SumRemove(ys[..j], ys[j], ys[j + 1..], f);
    }
  }

  /** The mean does not depend on the order of the records. */
  lemma MeanPermutation<V>(xs: seq<V>, ys: seq<V>, f: V -> real)
    requires multiset(xs) == multiset(ys)
    ensures Mean(xs, f) == Mean(ys, f)
  {
    assert |xs| == |multiset(xs)| == |multiset(ys)| == |ys|;
    SumPermutation(xs, ys, f);
  }

  /** When every record projects to `c`, the total is `|vs| * c`. */
  lemma {:induction false} SumConstant<V>(vs: seq<V>, f: V -> real, c: real)
    requires forall k :: 0 <= k < |vs| ==> f(vs[k]) == c
    ensures Sum(vs, f) == (|vs| as real) * c
    decreases |vs|
  {
    if |vs| > 0 {
      SumConstant(vs[..|vs| - 1], f, c);
    }
  }

  /** A non-empty fleet whose records all share one value averages to
      exactly that value. */
  lemma MeanConstant<V>(vs: seq<V>, f: V -> real, c: real)
    requires |vs| > 0
    requires forall k :: 0 <= k < |vs| ==> f(vs[k]) == c
    ensures Mean(vs, f) == c
  {
    SumConstant(vs, f, c);
  }

  /** Lower and upper bounds on every record bound the total. */
  lemma {:induction false} SumBounds<V>(vs: seq<V>, f: V -> real, lo: real, hi: real)
    requires forall k :: 0 <= k < |vs| ==> lo <= f(vs[k]) <= hi
    ensures (|vs| as real) * lo <= Sum(vs, f) <= (|vs| as real) * hi
    decreases |vs|
  {
    if |vs| > 0 {
      var n := |vs| - 1;
      SumBounds(vs[..n], f, lo, hi);
      assert Sum(vs, f) == Sum(vs[..n], f) + f(vs[n]);
      assert (|vs| as real) * lo == (n as real) * lo + lo;
      assert (|vs| as real) * hi == (n as real) * hi + hi;
    }
  }

  /** The mean of a non-empty fleet lies between the smallest and the
      largest possible reading. */
  lemma MeanBounds<V>(vs: seq<V>, f: V -> real, lo: real, hi: real)
    requires |vs| > 0
    requires forall k :: 0 <= k < |vs| ==> lo <= f(vs[k]) <= hi
    ensures lo <= Mean(vs, f) <= hi
  {
    SumBounds(vs, f, lo, hi);
    var n := |vs| as real;
    var m := Mean(vs, f);
    assert m * n >= lo * n;
    assert m * n <= hi * n;
  }

  /** Readings that are never negative have a total that is never negative. */
  lemma {:induction false} SumNonNegative<V>(vs: seq<V>, f: V -> real)
    requires forall k :: 0 <= k < |vs| ==> 0.0 <= f(vs[k])
    ensures 0.0 <= Sum(vs, f)
    decreases |vs|
  {
    if |vs| > 0 {
      SumNonNegative(vs[..|vs| - 1], f);
    }
  }

  /** Readings that are never negative have a mean that is never negative. */
  lemma MeanNonNegative<V>(vs: seq<V>, f: V -> real)
    requires forall k :: 0 <= k < |vs| ==> 0.0 <= f(vs[k])
    ensures 0.0 <= Mean(vs, f)
  {
    SumNonNegative(vs, f);
  }

  /** The mean of two records is half their total. */
  lemma MeanOfTwo<V>(a: V, b: V, f: V -> real)
    ensures Mean([a, b], f) == (f(a) + f(b)) / 2.0
  {
    assert [a, b][..1] == [a];
    SumSingleton(a, f);
  }
}
