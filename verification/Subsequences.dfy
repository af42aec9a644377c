/** Order-preserving containment of one sequence in another. */
module Subsequences {

  /** `at` places every element of `xs` at its own position of `ys`, in order. */
  ghost predicate Embeds<T>(at: seq<nat>, xs: seq<T>, ys: seq<T>) {
    && |at| == |xs|
    && (forall i :: 0 <= i < |at| ==> at[i] < |ys| && xs[i] == ys[at[i]])
    && (forall i, j :: 0 <= i < j < |at| ==> at[i] < at[j])
  }

  ghost predicate Subsequence<T>(xs: seq<T>, ys: seq<T>) {
    exists at: seq<nat> :: Embeds(at, xs, ys)
  }

  lemma {:induction false} Extend<T>(xs: seq<T>, ys: seq<T>, tail: seq<T>)
    requires Subsequence(xs, ys)
    ensures Subsequence(xs, ys + tail)
  {
    var at: seq<nat> :| Embeds(at, xs, ys);
    assert Embeds(at, xs, ys + tail);
  }

  lemma {:induction false} Append<T>(xs: seq<T>, ys: seq<T>, x: T)
    requires Subsequence(xs, ys)
    ensures Subsequence(xs + [x], ys + [x])
  {
    var at: seq<nat> :| Embeds(at, xs, ys);
    var grown: seq<nat> := at + [|ys|];
    assert Embeds(grown, xs + [x], ys + [x]);
  }

  lemma {:induction false} Members<T>(xs: seq<T>, ys: seq<T>)
    requires Subsequence(xs, ys)
    ensures forall x <- xs :: x in ys
  {
    var at: seq<nat> :| Embeds(at, xs, ys);
    forall x | x in xs
      ensures x in ys
    {
      var i :| 0 <= i < |xs| && xs[i] == x;
      assert ys[at[i]] == x;
    }
  }

  /** Dropping a stretch of a subsequence leaves a subsequence. */
  lemma {:induction false} Drop<T>(xs: seq<T>, ys: seq<T>, lo: nat, hi: nat)
    requires lo <= hi <= |xs|
    requires Subsequence(xs, ys)
    ensures Subsequence(xs[..lo] + xs[hi..], ys)
  {
    var at: seq<nat> :| Embeds(at, xs, ys);
    assert Embeds(at[..lo] + at[hi..], xs[..lo] + xs[hi..], ys);
  }

  lemma {:induction false} Empty<T>(ys: seq<T>)
    ensures Subsequence([], ys)
  {
    assert Embeds<T>([], [], ys);
  }

  /** A last element is either unused or matched by the last needed element. */
  lemma {:induction false} LastStep<T>(xs: seq<T>, ys: seq<T>, y: T)
    requires Subsequence(xs, ys + [y])
    ensures Subsequence(xs, ys) || (xs != [] && xs[|xs| - 1] == y && Subsequence(xs[..|xs| - 1], ys))
  {
    var at: seq<nat> :| Embeds(at, xs, ys + [y]);
    if xs == [] {
      Empty(ys);
    } else if at[|at| - 1] == |ys| {
      assert Embeds(at[..|at| - 1], xs[..|xs| - 1], ys);
    } else {
      assert Embeds(at, xs, ys);
    }
  }
}
