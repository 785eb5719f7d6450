/** Sequence helpers shared by the pages: JavaScript's `Array.filter` and
    the sum of a chart's data. */
module Seqs {

  /** `xs.filter(keep)`: the elements of `xs` that satisfy `keep`, in order. */
  function Filter<T(!new)>(xs: seq<T>, keep: T -> bool): (r: seq<T>)
    ensures |r| <= |xs|
  {
    if xs == [] then []
    else
      var rest := Filter(xs[1..], keep);
      if keep(xs[0]) then [xs[0]] + rest else rest
  }

  /** An element survives `Filter` exactly when it occurs in the input and
      satisfies `keep`. */
  lemma {:induction false} FilterMembers<T(!new)>(xs: seq<T>, keep: T -> bool)
    ensures forall x :: x in Filter(xs, keep) <==> x in xs && keep(x)
  {
    if xs != [] {
      FilterMembers(xs[1..], keep);
      assert forall x :: x in xs <==> x == xs[0] || x in xs[1..];
    }
  }

  /** The positions of `xs` that `Filter` keeps, in increasing order, each
      counted from `base`. */
  ghost function KeptFrom<T>(xs: seq<T>, keep: T -> bool, base: int): (idx: seq<int>)
  {
    if xs == [] then []
    else (if keep(xs[0]) then [base] else []) + KeptFrom(xs[1..], keep, base + 1)
  }

  /** `r` lists the elements of `xs` at the strictly increasing positions
      `idx`, each counted from `base`. */
  ghost predicate SelectsInOrder<T>(r: seq<T>, xs: seq<T>, idx: seq<int>, base: int)
  {
    && |idx| == |r|
    && (forall i :: 0 <= i < |idx| ==> base <= idx[i] < base + |xs| && r[i] == xs[idx[i] - base])
    && (forall i, j :: 0 <= i < j < |idx| ==> idx[i] < idx[j])
  }

  lemma {:induction false} FilterSelectsFrom<T(!new)>(xs: seq<T>, keep: T -> bool, base: int)
    ensures SelectsInOrder(Filter(xs, keep), xs, KeptFrom(xs, keep, base), base)
  {
    if xs != [] {
      var tail := xs[1..];
      FilterSelectsFrom(tail, keep, base + 1);
      assert forall j :: 0 <= j < |tail| ==> tail[j] == xs[j + 1];
    }
  }

  lemma {:induction false} KeptFromExactly<T>(xs: seq<T>, keep: T -> bool, base: int)
    ensures forall k :: 0 <= k < |xs| ==> (base + k in KeptFrom(xs, keep, base) <==> keep(xs[k]))
    ensures forall j :: j in KeptFrom(xs, keep, base) ==> base <= j < base + |xs|
  {
    if xs != [] {
      var tail := xs[1..];
      KeptFromExactly(tail, keep, base + 1);
      var rest := KeptFrom(tail, keep, base + 1);
      assert KeptFrom(xs, keep, base) == (if keep(xs[0]) then [base] else []) + rest;
      assert base !in rest;
      forall k | 1 <= k < |xs|
        ensures base + k in KeptFrom(xs, keep, base) <==> keep(xs[k])
      {
        assert xs[k] == tail[k - 1];
        assert base + 1 + (k - 1) == base + k;
      }
    }
  }

  /** `Filter` keeps exactly the positions whose element satisfies `keep`,
      and keeps them in their original order. */
  lemma {:induction false} FilterSelectsInOrder<T(!new)>(xs: seq<T>, keep: T -> bool)
    ensures SelectsInOrder(Filter(xs, keep), xs, KeptFrom(xs, keep, 0), 0)
    ensures forall k :: 0 <= k < |xs| ==> (k in KeptFrom(xs, keep, 0) <==> keep(xs[k]))
  {
    FilterSelectsFrom(xs, keep, 0);
    KeptFromExactly(xs, keep, 0);
  }

  /** What `Filter` keeps of a single element. */
  function KeepOne<T>(x: T, keep: T -> bool): seq<T>
  {
    if keep(x) then [x] else []
  }

  /** `Filter` unrolled over a six-element list. */
  lemma {:induction false} FilterSix<T(!new)>(a: T, b: T, c: T, d: T, e: T, f: T, keep: T -> bool)
    ensures Filter([a, b, c, d, e, f], keep) ==
              KeepOne(a, keep) + (KeepOne(b, keep) + (KeepOne(c, keep)
              + (KeepOne(d, keep) + (KeepOne(e, keep) + KeepOne(f, keep)))))
  {
    FilterStep(f, [], keep);
    assert [f] + [] == [f];
    FilterStep(e, [f], keep);
    assert [e] + [f] == [e, f];
    FilterStep(d, [e, f], keep);
    assert [d] + [e, f] == [d, e, f];
    FilterStep(c, [d, e, f], keep);
    assert [c] + [d, e, f] == [c, d, e, f];
    FilterStep(b, [c, d, e, f], keep);
    assert [b] + [c, d, e, f] == [b, c, d, e, f];
    FilterStep(a, [b, c, d, e, f], keep);
    assert [a] + [b, c, d, e, f] == [a, b, c, d, e, f];
  }

  lemma FilterStep<T(!new)>(x: T, xs: seq<T>, keep: T -> bool)
    ensures Filter([x] + xs, keep) == KeepOne(x, keep) + Filter(xs, keep)
  {
    assert ([x] + xs)[1..] == xs;
  }

  /** When `keep` holds of every element, `Filter` returns its input. */
  lemma {:induction false} FilterKeepsAll<T(!new)>(xs: seq<T>, keep: T -> bool)
    requires forall x :: x in xs ==> keep(x)
    ensures Filter(xs, keep) == xs
  {
    if xs != [] {
      assert forall x :: x in xs[1..] ==> x in xs;
      FilterKeepsAll(xs[1..], keep);
      assert [xs[0]] + xs[1..] == xs;
    }
  }

  /** The sum of a chart's data points. */
  function Sum(s: seq<int>): int
  {
    if s == [] then 0 else s[0] + Sum(s[1..])
  }
}
