/** Order-preserving selection from a sequence, and keeping what a partial step accepts. */
module Sequences {
  import opened Wrappers

  /**
   * `xs` can be obtained from `ys` by deleting elements, keeping the order of
   * the rest. Matching the last elements greedily decides this.
   */
  predicate IsSubsequence<T(==)>(xs: seq<T>, ys: seq<T>)
    decreases |ys|
  {
    if xs == [] then true
    else if ys == [] then false
    else if xs[|xs| - 1] == ys[|ys| - 1] then IsSubsequence(xs[..|xs| - 1], ys[..|ys| - 1])
    else IsSubsequence(xs, ys[..|ys| - 1])
  }

  /** Keeping the same last element on both sides preserves the relation. */
  lemma SubsequenceAppendBoth<T>(xs: seq<T>, ys: seq<T>, y: T)
    requires IsSubsequence(xs, ys)
    ensures IsSubsequence(xs + [y], ys + [y])
  {
    assert (xs + [y])[..|xs|] == xs;
    assert (ys + [y])[..|ys|] == ys;
  }

  /** One more element of the larger sequence may always be skipped. */
  lemma {:induction false} SubsequenceExtend<T>(xs: seq<T>, ys: seq<T>, y: T)
    requires IsSubsequence(xs, ys)
    ensures IsSubsequence(xs, ys + [y])
    decreases |ys|, 1
  {
    var zs := ys + [y];
    assert zs[..|zs| - 1] == ys;
    if xs != [] && xs[|xs| - 1] == y {
      SubsequenceDropLast(xs, ys);
    }
  }

  /** Dropping the last element of the smaller sequence preserves the relation. */
  lemma {:induction false} SubsequenceDropLast<T>(xs: seq<T>, ys: seq<T>)
    requires xs != [] && IsSubsequence(xs, ys)
    ensures IsSubsequence(xs[..|xs| - 1], ys)
    decreases |ys|, 0
  {
    var ys' := ys[..|ys| - 1];
    assert ys == ys' + [ys[|ys| - 1]];
    if xs[|xs| - 1] == ys[|ys| - 1] {
      SubsequenceExtend(xs[..|xs| - 1], ys', ys[|ys| - 1]);
    } else {
      SubsequenceDropLast(xs, ys');
      SubsequenceExtend(xs[..|xs| - 1], ys', ys[|ys| - 1]);
    }
  }

  /** The values `f` yields on the elements of `xs` where it succeeds, in order; failures are dropped. */
  function FilterMap<A, B, E>(f: A -> Result<B, E>, xs: seq<A>): (ys: seq<B>)
    ensures |ys| <= |xs|
  {
    if xs == [] then []
    else
      var x := xs[|xs| - 1];
      FilterMap(f, xs[..|xs| - 1]) + (if f(x).Success? then [f(x).value] else [])
  }

  /** Taking in one more element extends the result by that element's value, if any. */
  lemma FilterMapStep<A, B, E>(f: A -> Result<B, E>, xs: seq<A>, i: nat)
    requires i < |xs|
    ensures FilterMap(f, xs[..i + 1]) == FilterMap(f, xs[..i]) + (if f(xs[i]).Success? then [f(xs[i]).value] else [])
  {
    assert xs[..i + 1][..i] == xs[..i];
  }

  /** The selection distributes over concatenation, so it keeps the input order. */
  lemma {:induction false} FilterMapAppend<A, B, E>(f: A -> Result<B, E>, xs: seq<A>, ys: seq<A>)
    ensures FilterMap(f, xs + ys) == FilterMap(f, xs) + FilterMap(f, ys)
    decreases |ys|
  {
    if ys == [] {
      assert xs + ys == xs;
    } else {
      var ys' := ys[..|ys| - 1];
      assert (xs + ys)[..|xs + ys| - 1] == xs + ys';
      assert (xs + ys)[|xs + ys| - 1] == ys[|ys| - 1];
      FilterMapAppend(f, xs, ys');
    }
  }

  /** A value is kept exactly when `f` yields it on some element. */
  lemma {:induction false} FilterMapMembers<A, B, E>(f: A -> Result<B, E>, xs: seq<A>, y: B)
    ensures y in FilterMap(f, xs) <==> exists i :: 0 <= i < |xs| && f(xs[i]) == Success(y)
  {
    if xs != [] {
      var n := |xs| - 1;
      var init := xs[..n];
      FilterMapMembers(f, init, y);
      if y in FilterMap(f, xs) {
        if y in FilterMap(f, init) {
          var i :| 0 <= i < |init| && f(init[i]) == Success(y);
          assert init[i] == xs[i];
        } else {
          assert f(xs[n]) == Success(y);
        }
      }
      if exists i :: 0 <= i < |xs| && f(xs[i]) == Success(y) {
        var i :| 0 <= i < |xs| && f(xs[i]) == Success(y);
        if i < n {
          assert init[i] == xs[i];
        }
      }
    }
  }

  /** Every kept value satisfies what every success of `f` satisfies. */
  lemma {:induction false} FilterMapAll<A, B, E>(f: A -> Result<B, E>, p: B -> bool, xs: seq<A>)
    requires forall x :: f(x).Success? ==> p(f(x).value)
    ensures forall y :: y in FilterMap(f, xs) ==> p(y)
  {
    if xs != [] {
      FilterMapAll(f, p, xs[..|xs| - 1]);
    }
  }
}
