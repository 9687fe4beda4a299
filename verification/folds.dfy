/** Left-to-right passes over a sequence in which every step may fail, the
    shape of the printer's loops: the first failing element aborts the pass
    with its own error. Both folds recurse on the prefix, so step `i` of a
    loop is the fold over `xs[..i + 1]`. */
module Folds {
  import opened Wrappers

  /** Every element of `xs` passes `g`. */
  ghost predicate AllSucceed<T, U, E>(xs: seq<T>, g: T -> Result<U, E>) {
    forall i :: 0 <= i < |xs| ==> g(xs[i]).Success?
  }

  /** `i` is the first position of `xs` at which `g` fails. */
  ghost predicate FirstFailureAt<T, U, E>(xs: seq<T>, g: T -> Result<U, E>, i: int) {
    && 0 <= i < |xs|
    && g(xs[i]).Failure?
    && forall j :: 0 <= j < i ==> g(xs[j]).Success?
  }

  /** Applies `g` to every element in order; the result lists the values in
      the same order, or is the error of the first element that fails. */
  function MapAll<T, U, E>(xs: seq<T>, g: T -> Result<U, E>): (r: Result<seq<U>, E>)
    ensures r.Success? <==> AllSucceed(xs, g)
    ensures r.Success? ==> |r.value| == |xs|
    ensures r.Success? ==> forall i :: 0 <= i < |xs| ==> r.value[i] == g(xs[i]).value
  {
    if |xs| == 0 then Success([])
    else
      var init :- MapAll(xs[..|xs| - 1], g);
      var last :- g(xs[|xs| - 1]);
      Success(init + [last])
  }

  /** Adds up `f` over `xs` in order, or is the error of the first element
      that fails. */
  function SumOf<T, E>(xs: seq<T>, f: T -> Result<int, E>): (r: Result<int, E>)
    ensures r.Success? <==> AllSucceed(xs, f)
  {
    if |xs| == 0 then Success(0)
    else
      var init :- SumOf(xs[..|xs| - 1], f);
      var last :- f(xs[|xs| - 1]);
      Success(init + last)
  }

  /** Plain sum of a sequence of integers, added up from the front. */
  function Sum(s: seq<int>): int {
    if |s| == 0 then 0 else s[0] + Sum(s[1..])
  }

  lemma {:induction false} SumSnoc(s: seq<int>, x: int)
    ensures Sum(s + [x]) == Sum(s) + x
  {
    if |s| != 0 {
      assert (s + [x])[1..] == s[1..] + [x];
      SumSnoc(s[1..], x);
    }
  }

  /** The error a failing `MapAll` reports is that of the first failing
      element. */
  lemma {:induction false} MapAllFirstFailure<T, U, E>(xs: seq<T>, g: T -> Result<U, E>, i: int)
    requires FirstFailureAt(xs, g, i)
    ensures MapAll(xs, g) == Failure(g(xs[i]).error)
  {
    var n := |xs| - 1;
    if i < n {
      assert FirstFailureAt(xs[..n], g, i);
      MapAllFirstFailure(xs[..n], g, i);
    } else {
      assert AllSucceed(xs[..n], g);
    }
  }

  /** The error a failing `SumOf` reports is that of the first failing
      element. */
  lemma {:induction false} SumOfFirstFailure<T, E>(xs: seq<T>, f: T -> Result<int, E>, i: int)
    requires FirstFailureAt(xs, f, i)
    ensures SumOf(xs, f) == Failure(f(xs[i]).error)
  {
    var n := |xs| - 1;
    if i < n {
      assert FirstFailureAt(xs[..n], f, i);
      SumOfFirstFailure(xs[..n], f, i);
    } else {
      assert AllSucceed(xs[..n], f);
    }
  }

  /** A pass that fails has a first failing element. */
  lemma FirstFailureExists<T, U, E>(xs: seq<T>, g: T -> Result<U, E>) returns (i: int)
    requires !AllSucceed(xs, g)
    ensures FirstFailureAt(xs, g, i)
  {
    i := 0;
    while g(xs[i]).Success?
      invariant 0 <= i < |xs|
      invariant forall j :: 0 <= j < i ==> g(xs[j]).Success?
      invariant exists j :: i <= j < |xs| && g(xs[j]).Failure?
      decreases |xs| - i
    {
      i := i + 1;
    }
  }

  /** A successful `SumOf` is the plain sum of the values `MapAll` lists. */
  lemma {:induction false} SumOfIsSumOfValues<T, E>(xs: seq<T>, f: T -> Result<int, E>)
    requires AllSucceed(xs, f)
    ensures SumOf(xs, f) == Success(Sum(MapAll(xs, f).value))
  {
    if |xs| != 0 {
      var n := |xs| - 1;
      assert AllSucceed(xs[..n], f);
      SumOfIsSumOfValues(xs[..n], f);
      assert MapAll(xs, f).value == MapAll(xs[..n], f).value + [f(xs[n]).value];
      SumSnoc(MapAll(xs[..n], f).value, f(xs[n]).value);
    }
  }

  /** Summing a concatenation: the first failure of `xs` wins, then that of
      `ys`; otherwise the two sums add up. */
  lemma {:induction false} SumOfAppend<T, E>(xs: seq<T>, ys: seq<T>, f: T -> Result<int, E>)
    ensures SumOf(xs + ys, f)
         == if SumOf(xs, f).Failure? then SumOf(xs, f)
            else if SumOf(ys, f).Failure? then SumOf(ys, f)
            else Success(SumOf(xs, f).value + SumOf(ys, f).value)
    decreases |ys|
  {
    if |ys| == 0 {
      assert xs + ys == xs;
    } else {
      var m := |ys| - 1;
      assert (xs + ys)[..|xs + ys| - 1] == xs + ys[..m];
      assert (xs + ys)[|xs + ys| - 1] == ys[m];
      SumOfAppend(xs, ys[..m], f);
    }
  }

  /** Reordering the elements changes neither whether the sum succeeds nor
      its value. */
  lemma {:induction false} SumOfPermutation<T, E>(xs: seq<T>, ys: seq<T>, f: T -> Result<int, E>)
    requires multiset(xs) == multiset(ys)
    ensures SumOf(xs, f).Success? <==> SumOf(ys, f).Success?
    ensures SumOf(xs, f).Success? ==> SumOf(xs, f).value == SumOf(ys, f).value
    decreases |xs|
  {
    if |xs| == 0 {
      assert |ys| == |multiset(ys)| == 0;
    } else {
      var n := |xs| - 1;
      var x := xs[n];
      assert xs == xs[..n] + [x];
      assert x in multiset(ys);
      var j :| 0 <= j < |ys| && ys[j] == x;
      var front, back := ys[..j], ys[j + 1..];
      assert ys == front + [x] + back;
      MultisetCancel(xs[..n], front, back, x);
      SumOfPermutation(xs[..n], front + back, f);
      assert [x][..0] == [];
      SumOfAppend(front, [x], f);
      SumOfAppend(front + [x], back, f);
      SumOfAppend(front, back, f);
    }
  }

  lemma MultisetCancel<T>(a: seq<T>, front: seq<T>, back: seq<T>, x: T)
    requires multiset(a + [x]) == multiset(front + [x] + back)
    ensures multiset(a) == multiset(front + back)
  {
    calc {
      multiset(a);
      multiset(a + [x]) - multiset{x};
      multiset(front + [x] + back) - multiset{x};
      { assert multiset(front + [x] + back) == multiset(front + back) + multiset{x}; }
      multiset(front + back);
    }
  }
}
