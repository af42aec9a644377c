/**
 Delivery evidence of SDK reply frames (consumedSteerOutcome in
 claude-bridge/bridge.ts): one pass over the consumed UUIDs decides whether a whole
 composite input was consumed in order.
 */
module ConsumedSteer {
  import opened Basics
  import opened InputMessages
  import opened Subsequences
  import SteerSession

  /**
   Delivered exactly when the recorded ids are usable and all of them occur, in
   order, among the consumed ones: a partial composite input is not enough.
   */
  method ConsumedSteerOutcome<T(==)>(nativeIds: Option<seq<T>>, nativeId: Option<T>, consumed: seq<T>)
    returns (delivered: bool)
    ensures delivered <==>
            && NativeInputIds(nativeIds, nativeId).Some?
            && Subsequence(NativeInputIds(nativeIds, nativeId).value, consumed)
  {
    var found := NativeInputIds(nativeIds, nativeId);
    if found.None? {
      return false;
    }
    var ids := found.value;
    var position := 0;
    var i := 0;
    assert consumed[..0] == [];
    OnlyEmpty(ids);
    while i < |consumed|
      invariant 0 <= i <= |consumed| && 0 <= position <= |ids|
      invariant Subsequence(ids[..position], consumed[..i])
      invariant forall k :: position < k <= |ids| ==> !Subsequence(ids[..k], consumed[..i])
    {
      GreedyStep(ids, consumed, position, i);
      if position < |ids| && consumed[i] == ids[position] {
        position := position + 1;
      }
      i := i + 1;
    }
    assert consumed[..i] == consumed && ids[..|ids|] == ids;
    delivered := position == |ids|;
  }

  /** Nothing has been consumed yet: only the empty prefix is matched. */
  lemma {:induction false} OnlyEmpty<T>(ids: seq<T>)
    ensures Subsequence(ids[..0], [])
    ensures forall k :: 0 < k <= |ids| ==> !Subsequence(ids[..k], [])
  {
    Empty<T>([]);
    assert ids[..0] == [];
    forall k, at: seq<nat> | 0 < k <= |ids|
      ensures !Embeds(at, ids[..k], [])
    {
      assert |at| == 0 || at[0] >= 0;
    }
  }

  /** Matching the next needed id as soon as it appears keeps the matched prefix longest. */
  lemma {:induction false} GreedyStep<T>(ids: seq<T>, consumed: seq<T>, position: nat, i: nat)
    requires i < |consumed| && position <= |ids|
    requires Subsequence(ids[..position], consumed[..i])
    requires forall k :: position < k <= |ids| ==> !Subsequence(ids[..k], consumed[..i])
    ensures var next := if position < |ids| && consumed[i] == ids[position] then position + 1 else position;
            && Subsequence(ids[..next], consumed[..i + 1])
            && forall k :: next < k <= |ids| ==> !Subsequence(ids[..k], consumed[..i + 1])
  {
    var next := if position < |ids| && consumed[i] == ids[position] then position + 1 else position;
    assert consumed[..i + 1] == consumed[..i] + [consumed[i]];
    if next == position {
      Extend(ids[..position], consumed[..i], [consumed[i]]);
    } else {
      Append(ids[..position], consumed[..i], consumed[i]);
      assert ids[..next] == ids[..position] + [ids[position]];
    }
    forall k | next < k <= |ids|
      ensures !Subsequence(ids[..k], consumed[..i + 1])
    {
      assert ids[..k][..k - 1] == ids[..k - 1];
      if Subsequence(ids[..k], consumed[..i + 1]) {
        LastStep(ids[..k], consumed[..i], consumed[i]);
      }
    }
  }

  /** The evidence predicate of the thread model is the same relation. */
  lemma {:induction false} ConsumedIsSubsequence(ids: seq<Uuid>, consumed: seq<Uuid>)
    ensures SteerSession.Consumed(ids, consumed) <==> Subsequence(ids, consumed)
    decreases |consumed|
  {
    if ids == [] {
      Empty(consumed);
    } else if consumed == [] {
      OnlyEmpty(ids);
      assert ids[..|ids|] == ids;
    } else {
      if ids[0] == consumed[0] {
        ConsumedIsSubsequence(ids[1..], consumed[1..]);
        FirstMatches(ids, consumed);
      } else {
        ConsumedIsSubsequence(ids, consumed[1..]);
        FirstSkipped(ids, consumed);
      }
    }
  }

  lemma {:induction false} FirstMatches<T>(xs: seq<T>, ys: seq<T>)
    requires xs != [] && ys != [] && xs[0] == ys[0]
    ensures Subsequence(xs, ys) <==> Subsequence(xs[1..], ys[1..])
  {
    if Subsequence(xs, ys) {
      var at: seq<nat> :| Embeds(at, xs, ys);
      Shifted(at[1..], xs[1..], ys);
    }
    if Subsequence(xs[1..], ys[1..]) {
      var at: seq<nat> :| Embeds(at, xs[1..], ys[1..]);
      var grown: seq<nat> := [0] + seq(|at|, i requires 0 <= i < |at| => at[i] + 1);
      assert Embeds(grown, xs, ys);
    }
  }

  lemma {:induction false} FirstSkipped<T>(xs: seq<T>, ys: seq<T>)
    requires xs != [] && ys != [] && xs[0] != ys[0]
    ensures Subsequence(xs, ys) <==> Subsequence(xs, ys[1..])
  {
    if Subsequence(xs, ys) {
      var at: seq<nat> :| Embeds(at, xs, ys);
      Shifted(at, xs, ys);
    }
    if Subsequence(xs, ys[1..]) {
      var at: seq<nat> :| Embeds(at, xs, ys[1..]);
      assert Embeds(seq(|at|, i requires 0 <= i < |at| => at[i] + 1), xs, ys);
    }
  }

  lemma {:induction false} Shifted<T>(at: seq<nat>, xs: seq<T>, ys: seq<T>)
    requires Embeds(at, xs, ys) && forall i :: 0 <= i < |at| ==> 1 <= at[i]
    ensures |ys| > 0 ==> Subsequence(xs, ys[1..])
  {
    if |ys| > 0 {
      var down: seq<nat> := seq(|at|, i requires 0 <= i < |at| => at[i] - 1);
      assert Embeds(down, xs, ys[1..]);
    }
  }
}
