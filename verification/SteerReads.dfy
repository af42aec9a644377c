/** Exactly which inputs of a Claude thread the SDK can still read, in every run. */
module SteerReads {
  import opened Basics
  import opened InputMessages
  import opened SteerSession
  import opened SteerInvariant
  import opened SteerChange
  import opened SteerExact
  import SteerAlways
  import SteerRuns
  import Q = InputQueues

  // ------------------------------------------------------------------ what stops waiting never waits again

  /** The input waits only where it waited, and no queue becomes readable again. */
  predicate FewerWait(s: State, n: State, i: nat) {
    && |s.queries| <= |n.queries|
    && (forall q :: 0 <= q < |n.queries| && Queued(n.queries[q].queue, i) ==>
          q < |s.queries| && Queued(s.queries[q].queue, i))
    && (forall q :: 0 <= q < |s.queries| && Readable(n, q) ==> Readable(s, q))
  }

  lemma {:induction false} NarrowWaits(s: State, n: State, i: nat)
    requires NarrowsAll(s.queries, n.queries)
    ensures FewerWait(s, n, i)
  {
    forall q | 0 <= q < |n.queries| && Queued(n.queries[q].queue, i)
      ensures Queued(s.queries[q].queue, i)
    {
      if !Queued(s.queries[q].queue, i) {
        SteerAlways.StillUnqueued(s.queries[q].queue, n.queries[q].queue, i);
      }
    }
    assert forall q :: 0 <= q < |s.queries| ==> QueryNarrows(s.queries[q], n.queries[q]);
  }

  lemma {:induction false} PushWaits(queue: Q.Queue, value: Q.Value, i: nat)
    requires !queue.closed && value.message.attempt != i && Queued(Q.Push(queue, value), i)
    ensures Queued(queue, i)
  {
    var next := Q.Push(queue, value);
    if k :| 0 <= k < |next.values| && next.values[k].message.attempt == i {
      assert queue.values[k] == next.values[k];
    }
  }

  lemma {:induction false} OneQueueWaits(s: State, n: State, q: nat, i: nat)
    requires q < |s.queries| == |n.queries| && n.queries == s.queries[q := n.queries[q]]
    requires n.queries[q].phase == s.queries[q].phase && n.queries[q].queue.closed == s.queries[q].queue.closed
    requires Queued(n.queries[q].queue, i) ==> Queued(s.queries[q].queue, i)
    ensures FewerWait(s, n, i)
  {
  }

  lemma {:induction false} PulledQuery(s: State, q: nat)
    requires q < |s.queries| && s.queries[q].phase.Ready?
    ensures var n := ApplyPulled(s, q);
            && |n.queries| == |s.queries| && n.queries == s.queries[q := n.queries[q]]
            && n.queries[q].phase == s.queries[q].phase && n.queries[q].queue == Q.Pull(s.queries[q].queue).0
  {
  }

  lemma {:induction false} PullWaits(s: State, q: nat, i: nat)
    requires Base(s) && q < |s.queries| && s.queries[q].phase.Ready?
    ensures FewerWait(s, ApplyPulled(s, q), i)
  {
    assert QueueBase(s.items, s.turns, q, s.queries[q].queue);
    SteerAlways.PullOwned(s.items, s.turns, q, s.queries[q].queue);
    PulledQuery(s, q);
    OneQueueWaits(s, ApplyPulled(s, q), q, i);
  }

  lemma {:induction false} PullReadsWaiting(s: State, q: nat, i: nat)
    requires Base(s) && q < |s.queries| && s.queries[q].phase.Ready? && i < |s.items|
    requires |ApplyPulled(s, q).items| == |s.items| && ApplyPulled(s, q).items[i].given != s.items[i].given
    ensures Waiting(s, i)
  {
    SteerAlways.PullOwned(s.items, s.turns, q, s.queries[q].queue);
    assert Readable(s, q);
  }

  /** A pull hands over only what waited. */
  lemma {:induction false} PulledWaits(s: State, q: nat, i: nat)
    requires Base(s) && i < |s.items|
    ensures var n := ApplyPulled(s, q);
            && FewerWait(s, n, i) && n.op == s.op && n.turns == s.turns && |n.items| == |s.items|
            && (n.items[i].given != s.items[i].given ==> Waiting(s, i))
  {
    if q < |s.queries| && s.queries[q].phase.Ready? {
      SteerAlways.PullItems(s, q);
      PullWaits(s, q, i);
      if ApplyPulled(s, q).items[i].given != s.items[i].given {
        PullReadsWaiting(s, q, i);
      }
    } else {
      SteerAlways.NarrowSelf(s.queries);
      NarrowWaits(s, s, i);
    }
  }

  lemma {:induction false} SavedWaits(s: State, ok: bool, i: nat)
    requires Base(s) && i < |s.items| && !MayEnter(s, i)
    ensures FewerWait(s, ApplySteerSaved(s, ok), i)
  {
    var n := ApplySteerSaved(s, ok);
    SteerAlways.NarrowSelf(s.queries);
    if n.queries == s.queries {
      NarrowWaits(s, n, i);
    } else {
      var q := s.current.value;
      var value := Submission(s.items[s.op.item], s.op.item);
      if Queued(n.queries[q].queue, i) {
        PushWaits(s.queries[q].queue, value, i);
      }
    }
  }

  lemma {:induction false} LaunchWaits(s: State, j: nat, i: nat)
    requires j < |s.items| && s.items[j].turn < |s.turns| && s.items[j].parts >= 1 && i != j
    ensures FewerWait(s, LaunchQuery(s, j), i)
  {
    var value := Submission(s.items[j], j);
    if Queued(Q.Push(Q.EmptyQueue, value), i) {
      PushWaits(Q.EmptyQueue, value, i);
    }
  }

  lemma {:induction false} ReservationWaits(s: State, j: nat, q: nat, ok: bool, i: nat)
    requires j < |s.items| && q < |s.queries| && s.items[j].parts >= 1 && i != j
    ensures FewerWait(s, FinishReservation(s, j, q, ok), i)
  {
    var n := FinishReservation(s, j, q, ok);
    if n.queries[q].queue == s.queries[q].queue {
      SteerAlways.NarrowOne(s.queries, q, n.queries[q]);
      assert n.queries == s.queries[q := n.queries[q]];
      NarrowWaits(s, n, i);
    } else {
      var value := Submission(s.items[j], j);
      if Queued(n.queries[q].queue, i) {
        PushWaits(s.queries[q].queue, value, i);
      }
    }
  }

  lemma {:induction false} StartSavedWaits(s: State, ok: bool, i: nat)
    requires Base(s) && i < |s.items| && !MayEnter(s, i)
    ensures FewerWait(s, ApplyStartSaved(s, ok), i)
  {
    SteerAlways.NarrowSelf(s.queries);
    NarrowWaits(s, s, i);
    if s.op.SavingStart? && s.op.item < |s.items| && s.items[s.op.item].turn < |s.turns|
       && s.items[s.op.item].parts > 0 {
      match s.turns[s.items[s.op.item].turn].query
      case None => if ok { LaunchWaits(s, s.op.item, i); } else { NarrowWaits(s, ApplyStartSaved(s, ok), i); }
      case Some(q) => if q < |s.queries| { ReservationWaits(s, s.op.item, q, ok, i); }
    }
  }

  lemma {:induction false} CreateNarrows(s: State, step: Step)
    requires Creates(step)
    ensures NarrowsAll(s.queries, Apply(s, step).queries)
  {
    SteerAlways.NarrowSelf(s.queries);
    if step.StartPrepared? && s.current.Some? && ActiveQuery(s) {
      var q := s.current.value;
      SteerAlways.NarrowOne(s.queries, q, s.queries[q].(turn := Some(|s.turns|), reserving := true));
    }
  }

  lemma {:induction false} RequestWaits(s: State, step: Step, i: nat)
    requires Base(s) && RequestStep(step) && i < |s.items| && !MayEnter(s, i)
    ensures FewerWait(s, Apply(s, step), i)
  {
    if Creates(step) {
      CreateNarrows(s, step);
      NarrowWaits(s, Apply(s, step), i);
    } else if step.SteerSaved? {
      SavedWaits(s, step.ok, i);
    } else if step.StartSaved? {
      StartSavedWaits(s, step.ok, i);
    } else {
      SteerAlways.NarrowSelf(s.queries);
      NarrowWaits(s, Apply(s, step), i);
    }
  }

  /** A request begins to save only a new item. */
  lemma {:induction false} RequestSaves(s: State, step: Step, i: nat)
    requires RequestStep(step) && i < |s.items| && BeingSaved(Apply(s, step), i)
    ensures BeingSaved(s, i)
  {
  }

  lemma {:induction false} StaysOutside(s: State, n: State, i: nat)
    requires Progress(s, n) && i < |s.items| && !MayEnter(s, i) && (BeingSaved(n, i) ==> BeingSaved(s, i))
    requires ItemsBase(s.items, s.turns)
    ensures !MayEnter(n, i)
  {
    assert ItemProgress(s.items[i], n.items[i]);
    assert TurnProgress(s.turns[s.items[i].turn], n.turns[s.items[i].turn]);
  }

  lemma {:induction false} EventWaits(s: State, step: Step, i: nat) returns (n: State)
    requires Base(s) && !RequestStep(step) && !step.Pulled? && i < |s.items|
    ensures n == Apply(s, step)
    ensures FewerWait(s, n, i)
    ensures n.op == s.op
  {
    n := SteerAlways.EventSettles(s, step);
    NarrowWaits(s, n, i);
  }

  lemma {:induction false} StepWaits(s: State, step: Step, i: nat)
    requires Base(s) && i < |s.items| && !MayEnter(s, i)
    ensures FewerWait(s, Apply(s, step), i) && (BeingSaved(Apply(s, step), i) ==> BeingSaved(s, i))
  {
    if RequestStep(step) {
      RequestWaits(s, step, i);
      if BeingSaved(Apply(s, step), i) {
        RequestSaves(s, step, i);
      }
    } else if step.Pulled? {
      PulledWaits(s, step.query, i);
    } else {
      var n := EventWaits(s, step, i);
    }
  }

  lemma {:induction false} StepReads(s: State, step: Step, i: nat) returns (n: State)
    requires Base(s) && i < |s.items|
    ensures n == Apply(s, step)
    ensures Base(n) && Progress(s, n)
    ensures n.items[i].given != s.items[i].given ==> Waiting(s, i)
  {
    n := SteerAlways.StepBase(s, step);
    if step.Pulled? {
      PulledWaits(s, step.query, i);
    }
  }

  /** An input that no request may still push waits only where it waited, and only a waiting one is read. */
  lemma {:induction false} StepLeaves(s: State, step: Step, i: nat) returns (n: State)
    requires Base(s) && i < |s.items| && !MayEnter(s, i)
    ensures n == Apply(s, step)
    ensures Base(n) && i < |n.items| && !MayEnter(n, i)
    ensures FewerWait(s, n, i)
    ensures n.items[i].given != s.items[i].given ==> Waiting(s, i)
  {
    n := StepReads(s, step, i);
    StepWaits(s, step, i);
    StaysOutside(s, n, i);
  }

  lemma {:induction false} FewerStill(s: State, m: State, n: State, i: nat)
    requires FewerWait(s, m, i) && FewerWait(m, n, i)
    ensures FewerWait(s, n, i)
  {
  }

  lemma {:induction false} WaitsNowhere(s: State, n: State, i: nat)
    requires FewerWait(s, n, i) && !Waiting(s, i)
    ensures !Waiting(n, i)
  {
  }

  lemma {:induction false} LeavesFrom(s: State, m: State, after: seq<Step>, i: nat) returns (n: State)
    requires Base(m) && i < |s.items| && i < |m.items| && !MayEnter(m, i) && FewerWait(s, m, i)
    requires !Waiting(s, i) ==> m.items[i].given == s.items[i].given
    ensures n == RunFrom(m, after)
    ensures i < |n.items| && !MayEnter(n, i) && FewerWait(s, n, i)
    ensures !Waiting(s, i) ==> n.items[i].given == s.items[i].given
    decreases |after|
  {
    if after == [] {
      n := m;
    } else {
      var next := StepLeaves(m, after[0], i);
      FewerStill(s, m, next, i);
      if !Waiting(s, i) {
        WaitsNowhere(s, m, i);
      }
      n := LeavesFrom(s, next, after[1..], i);
    }
  }

  /** The same over any further steps of a run. */
  lemma {:induction false} RunLeaves(before: seq<Step>, after: seq<Step>, i: nat) returns (s: State, n: State)
    requires i < |Run(before).items| && !MayEnter(Run(before), i)
    ensures s == Run(before) && n == Run(before + after)
    ensures i < |n.items| && !MayEnter(n, i) && FewerWait(s, n, i)
    ensures !Waiting(s, i) ==> n.items[i].given == s.items[i].given
  {
    s := SteerAlways.RunBase(before);
    SteerRuns.RunAppends(before + after, before, after, s);
    SteerAlways.NarrowSelf(s.queries);
    NarrowWaits(s, s, i);
    n := LeavesFrom(s, s, after, i);
  }

  // ------------------------------------------------------------------ what waits can be read

  function Pulls(q: nat, n: nat): seq<Step> {
    if n == 0 then [] else [Pulled(q)] + Pulls(q, n - 1)
  }

  lemma {:induction false} PullReads(s: State, q: nat)
    requires Base(s) && q < |s.queries| && s.queries[q].phase.Ready? && !s.queries[q].queue.closed
    requires Q.Unread(s.queries[q].queue) != []
    ensures var n, unread := ApplyPulled(s, q), Q.Unread(s.queries[q].queue);
            var a := unread[0].attempt;
            && a < |s.items| && n.items == s.items[a := s.items[a].(given := s.items[a].given + 1)]
            && |n.queries| == |s.queries| && n.queries[q].phase.Ready? && !n.queries[q].queue.closed
            && Q.Unread(n.queries[q].queue) == unread[1..]
  {
    Q.PullTakesFirst(s.queries[q].queue);
    SteerAlways.PullOwned(s.items, s.turns, q, s.queries[q].queue);
  }

  /** The query is ready and the input is the p-th unread message of its queue. */
  predicate InLine(s: State, q: nat, i: nat, p: nat) {
    && q < |s.queries| && s.queries[q].phase.Ready? && !s.queries[q].queue.closed && i < |s.items|
    && p < |Q.Unread(s.queries[q].queue)| && Q.Unread(s.queries[q].queue)[p].attempt == i
  }

  /** A pull moves the input up, or reads it. */
  lemma {:induction false} PullAdvances(s: State, q: nat, i: nat, p: nat) returns (n: State)
    requires Base(s) && InLine(s, q, i, p)
    ensures n == Apply(s, Pulled(q))
    ensures Base(n)
    ensures i < |n.items| && s.items[i].given + (if p == 0 then 1 else 0) <= n.items[i].given
    ensures p > 0 ==> InLine(n, q, i, p - 1)
  {
    n := ApplyPulled(s, q);
    SteerAlways.PullKeepsBase(s, q);
    PullReads(s, q);
  }

  lemma {:induction false} PullsReach(s: State, q: nat, i: nat, p: nat) returns (n: State)
    requires Base(s) && InLine(s, q, i, p)
    ensures n == RunFrom(s, Pulls(q, p + 1))
    ensures i < |n.items| && n.items[i].given > s.items[i].given
    decreases p
  {
    var m := PullAdvances(s, q, i, p);
    assert Pulls(q, p + 1)[0] == Pulled(q) && Pulls(q, p + 1)[1..] == Pulls(q, p);
    if p == 0 {
      n := m;
    } else {
      n := PullsReach(m, q, i, p - 1);
    }
  }

  lemma {:induction false} FlattenHolds(values: seq<Q.Value>, k: nat) returns (p: nat)
    requires k < |values| && Q.Parts(values[k]) != []
    ensures p < |Q.Flatten(values)| && Q.Flatten(values)[p] == Q.Parts(values[k])[0]
  {
    var first := Q.Parts(values[0]);
    if k == 0 {
      p := 0;
    } else {
      p := FlattenHolds(values[1..], k - 1);
      p := |first| + p;
    }
  }

  /** A queued input has a place among the unread messages. */
  lemma {:induction false} QueuedAt(s: State, q: nat, i: nat) returns (p: nat)
    requires QueuesBase(s.items, s.turns, s.queries) && q < |s.queries| && Queued(s.queries[q].queue, i)
    ensures i < |s.items|
    ensures p < |Q.Unread(s.queries[q].queue)| && Q.Unread(s.queries[q].queue)[p].attempt == i
  {
    var queue := s.queries[q].queue;
    assert QueueBase(s.items, s.turns, q, queue);
    if k :| 0 <= k < |queue.pending| && queue.pending[k].attempt == i {
      p := k;
      assert queue.pending[k] in queue.pending;
    } else {
      var k :| 0 <= k < |queue.values| && queue.values[k].message.attempt == i;
      assert queue.values[k] in queue.values && ValueBase(s.items, s.turns, q, queue.values[k]);
      p := FlattenHolds(queue.values, k);
      p := |queue.pending| + p;
      assert Q.Parts(queue.values[k])[0] in Q.Parts(queue.values[k]);
    }
  }

  lemma {:induction false} BecomesReady(s: State, q: nat, i: nat, p: nat) returns (n: State)
    requires Base(s) && Readable(s, q) && !s.queries[q].phase.Ready? && i < |s.items|
    requires p < |Q.Unread(s.queries[q].queue)| && Q.Unread(s.queries[q].queue)[p].attempt == i
    ensures n == Apply(s, QueryReady(q))
    ensures Base(n)
    ensures InLine(n, q, i, p) && n.items == s.items
  {
    n := SteerAlways.StepBase(s, QueryReady(q));
  }

  lemma {:induction false} WaitingReads(s: State, i: nat) returns (after: seq<Step>, n: State)
    requires Base(s) && Waiting(s, i)
    ensures n == RunFrom(s, after)
    ensures i < |s.items| && i < |n.items| && n.items[i].given > s.items[i].given
  {
    var q :| 0 <= q < |s.queries| && Readable(s, q) && Queued(s.queries[q].queue, i);
    var p := QueuedAt(s, q, i);
    if s.queries[q].phase.Ready? {
      after := Pulls(q, p + 1);
      n := PullsReach(s, q, i, p);
    } else {
      var m := BecomesReady(s, q, i, p);
      after := [QueryReady(q)] + Pulls(q, p + 1);
      assert after[0] == QueryReady(q) && after[1..] == Pulls(q, p + 1);
      n := PullsReach(m, q, i, p);
    }
  }

  /** A waiting input is read by some continuation: the query becomes ready and the SDK pulls. */
  lemma {:induction false} WaitingIsRead(before: seq<Step>, i: nat) returns (after: seq<Step>)
    requires Waiting(Run(before), i)
    ensures ReadsMore(before, after, i)
  {
    var s := SteerAlways.RunBase(before);
    var n: State;
    after, n := WaitingReads(s, i);
    SteerRuns.RunAppends(before + after, before, after, s);
  }

  lemma {:induction false} OutIsNotRead(before: seq<Step>, after: seq<Step>, i: nat)
    requires i < |Run(before).items| && !MayEnter(Run(before), i) && !Waiting(Run(before), i)
    ensures !ReadsMore(before, after, i)
  {
    var s, n := RunLeaves(before, after, i);
  }

  /** An input that no request may still push is read by some continuation exactly when it waits. */
  lemma {:induction false} ReadLaterExactly(before: seq<Step>, i: nat)
    requires i < |Run(before).items| && !MayEnter(Run(before), i)
    ensures (exists after :: ReadsMore(before, after, i)) <==> Waiting(Run(before), i)
  {
    if Waiting(Run(before), i) {
      var after := WaitingIsRead(before, i);
    } else {
      forall after
        ensures !ReadsMore(before, after, i)
      {
        OutIsNotRead(before, after, i);
      }
    }
  }

  /** An input that is not applied is read later exactly when it still waits. */
  lemma {:induction false} NotAppliedIsReadExactly(before: seq<Step>, i: nat)
    requires i < |Run(before).items| && Run(before).items[i].status.NotApplied?
    ensures (exists after :: ReadsMore(before, after, i)) <==> Waiting(Run(before), i)
  {
    var s := SteerAlways.RunBase(before);
    ReadLaterExactly(before, i);
  }

  /** A steer of an ended turn is read later exactly when it still waits. */
  lemma {:induction false} EndedSteerIsReadExactly(before: seq<Step>, i: nat)
    requires EndedSteer(Run(before), i)
    ensures (exists after :: ReadsMore(before, after, i)) <==> Waiting(Run(before), i)
  {
    ReadLaterExactly(before, i);
  }

  /** No steer enters a queue after its turn began to finish. */
  lemma {:induction false} NothingQueuedAfterFinish(before: seq<Step>, after: seq<Step>, i: nat, q: nat)
    requires i < |Run(before).items| && Run(before).items[i].steer
    requires !StillRunning(Run(before).turns, Run(before).items[i].turn)
    requires q < |Run(before + after).queries| && Queued(Run(before + after).queries[q].queue, i)
    ensures q < |Run(before).queries| && Queued(Run(before).queries[q].queue, i)
  {
    var s, n := RunLeaves(before, after, i);
  }

  // ------------------------------------------------------------------ inputs refused before submission

  predicate RefusedOut(s: State, i: nat) {
    i < |s.items| && s.items[i].status == NotApplied(Refused) ==>
      s.items[i].given == 0 && !MayEnter(s, i) && !Waiting(s, i)
  }

  lemma {:induction false} SaveRefuses(s: State, step: Step, i: nat)
    requires Base(s) && i < |s.items| && (step.SteerSaved? || step.StartSaved?)
    requires i < |Apply(s, step).items| && Apply(s, step).items[i].status == NotApplied(Refused)
    requires s.items[i].status != NotApplied(Refused)
    ensures BeingSaved(s, i) && !BeingSaved(Apply(s, step), i) && Apply(s, step).items[i].given == 0
    ensures |Apply(s, step).queries| == |s.queries|
    ensures forall q :: 0 <= q < |s.queries| ==> Apply(s, step).queries[q].queue == s.queries[q].queue
  {
  }

  lemma {:induction false} PullRefusesNothing(s: State, q: nat, i: nat)
    requires Base(s) && i < |s.items|
    ensures |ApplyPulled(s, q).items| == |s.items| && ApplyPulled(s, q).items[i].status == s.items[i].status
  {
    if q < |s.queries| && s.queries[q].phase.Ready? {
      SteerAlways.PullItems(s, q);
    }
  }

  lemma {:induction false} OthersRefuseNothing(s: State, step: Step, i: nat)
    requires Base(s) && i < |s.items| && !step.SteerSaved? && !step.StartSaved?
    requires i < |Apply(s, step).items| && Apply(s, step).items[i].status == NotApplied(Refused)
    ensures s.items[i].status == NotApplied(Refused)
  {
    if step.Pulled? {
      PullRefusesNothing(s, step.query, i);
    } else if !RequestStep(step) {
      var n := SteerAlways.EventSettles(s, step);
      assert Spared(s.items[i], n.items[i], StillRunning(s.turns, s.items[i].turn));
    }
  }

  lemma {:induction false} RefusedStep(s: State, step: Step, i: nat) returns (n: State)
    requires Base(s) && RefusedOut(s, i)
    ensures n == Apply(s, step)
    ensures RefusedOut(n, i)
  {
    n := SteerAlways.StepBase(s, step);
    if i < |s.items| && n.items[i].status == NotApplied(Refused) {
      if s.items[i].status == NotApplied(Refused) {
        var m := StepLeaves(s, step, i);
        WaitsNowhere(s, n, i);
      } else if step.SteerSaved? || step.StartSaved? {
        SaveRefuses(s, step, i);
      } else {
        OthersRefuseNothing(s, step, i);
      }
    }
  }

  lemma {:induction false} RefusedStaysOut(steps: seq<Step>, i: nat)
    ensures RefusedOut(Run(steps), i)
  {
    if steps != [] {
      var front := steps[..|steps| - 1];
      RefusedStaysOut(front, i);
      var s := SteerAlways.RunBase(front);
      var n := RefusedStep(s, steps[|steps| - 1], i);
    }
  }

  /** An input refused before submission is read by no SDK process, ever. */
  lemma {:induction false} RefusedAtOnceIsNeverRead(before: seq<Step>, after: seq<Step>, i: nat)
    requires i < |Run(before).items| && Run(before).items[i].status == NotApplied(Refused)
    ensures i < |Run(before + after).items| && Run(before + after).items[i].given == 0
  {
    RefusedStaysOut(before, i);
    var s, n := RunLeaves(before, after, i);
  }
}
