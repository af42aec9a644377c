/** In every run of a Claude thread: an input that a finalizer takes back was never read. */
module SteerUnread {
  import opened Basics
  import opened InputMessages
  import opened SteerSession
  import opened SteerInvariant
  import opened SteerChange
  import opened SteerExact
  import opened SteerHosts
  import SteerAlways
  import SteerReads
  import SteerRuns
  import Q = InputQueues

  // ------------------------------------------------------------------ the SDK reads attempts in order

  /** Everything that still waits is of this attempt, already begun, or of a later one. */
  predicate AllAfter(queue: Q.Queue, i: nat) {
    (forall v <- queue.values :: i < v.message.attempt) && (forall m <- queue.pending :: i <= m.attempt)
  }

  predicate ReadInOrder(s: State, i: nat) {
    && i < |s.items| && s.items[i].turn < |s.turns| && s.turns[s.items[i].turn].query.Some?
    && var q := s.turns[s.items[i].turn].query.value;
       q < |s.queries| && s.queries[q].phase.Ready? && AllAfter(s.queries[q].queue, i)
  }

  /** An input that was read has a ready query, in whose queue only later ones wait. */
  predicate ReadBase(s: State) {
    forall i :: 0 <= i < |s.items| && s.items[i].given > 0 ==> ReadInOrder(s, i)
  }

  lemma {:induction false} AfterKept(a: Q.Queue, b: Q.Queue, i: nat)
    requires Narrows(a, b) && AllAfter(a, i)
    ensures AllAfter(b, i)
  {
  }

  lemma {:induction false} OrderKept(s: State, n: State, i: nat)
    requires Progress(s, n) && ReadInOrder(s, i) && NarrowsAll(s.queries, n.queries)
    ensures ReadInOrder(n, i)
  {
    var t := s.items[i].turn;
    assert ItemProgress(s.items[i], n.items[i]) && TurnProgress(s.turns[t], n.turns[t]);
    var q := s.turns[t].query.value;
    assert QueryNarrows(s.queries[q], n.queries[q]);
    AfterKept(s.queries[q].queue, n.queries[q].queue, i);
  }

  predicate NewUnread(s: State, n: State) {
    forall i :: |s.items| <= i < |n.items| ==> n.items[i].given == 0 && n.items[i].parts >= 1
  }

  lemma {:induction false} ReadsKept(s: State, n: State)
    requires ReadBase(s) && Progress(s, n) && SameReads(s, n) && NewUnread(s, n) && NarrowsAll(s.queries, n.queries)
    ensures ReadBase(n)
  {
    forall i | 0 <= i < |n.items| && n.items[i].given > 0
      ensures ReadInOrder(n, i)
    {
      OrderKept(s, n, i);
    }
  }

  /** A pull reads an attempt that none of what waits precedes, and that follows whatever was read. */
  lemma {:induction false} PullOrder(items: seq<Item>, turns: seq<Turn>, q: nat, queue: Q.Queue)
    requires QueueBase(items, turns, q, queue) && Q.Pull(queue).1.Yield?
    ensures AllAfter(Q.Pull(queue).0, Q.Pull(queue).1.message.attempt)
    ensures forall i: nat :: AllAfter(queue, i) ==>
              i <= Q.Pull(queue).1.message.attempt && AllAfter(Q.Pull(queue).0, i)
    decreases |queue.values|
  {
    if queue.pending != [] {
      var next := Q.Take(queue);
      assert queue.pending[0] in queue.pending;
      assert forall k :: 0 <= k < |next.pending| ==> next.pending[k] == queue.pending[k + 1];
    } else {
      SteerAlways.ShiftOwned(items, turns, q, queue);
      PullOrder(items, turns, q, Q.Shift(queue));
      assert queue.values[0] in queue.values && ValueBase(items, turns, q, queue.values[0]);
      assert forall k :: 1 <= k < |queue.values| ==> queue.values[k] in queue.values;
    }
  }

  lemma {:induction false} IdlePullAfter(queue: Q.Queue, i: nat)
    requires !Q.Pull(queue).1.Yield? && AllAfter(queue, i)
    ensures AllAfter(Q.Pull(queue).0, i)
  {
    Q.PullTakesFirst(queue);
  }

  lemma {:induction false} PulledOrder(s: State, q: nat, i: nat)
    requires Base(s) && q < |s.queries| && s.queries[q].phase.Ready? && ReadInOrder(s, i)
    ensures ReadInOrder(ApplyPulled(s, q), i)
  {
    SteerAlways.PullItems(s, q);
    SteerAlways.PullProgress(s, q);
    assert ItemProgress(s.items[i], ApplyPulled(s, q).items[i]);
    assert QueueBase(s.items, s.turns, q, s.queries[q].queue);
    if s.turns[s.items[i].turn].query.value == q {
      if Q.Pull(s.queries[q].queue).1.Yield? {
        PullOrder(s.items, s.turns, q, s.queries[q].queue);
      } else {
        IdlePullAfter(s.queries[q].queue, i);
      }
    }
  }

  lemma {:induction false} PulledNow(s: State, q: nat, i: nat)
    requires Base(s) && q < |s.queries| && s.queries[q].phase.Ready? && i < |s.items|
    requires |ApplyPulled(s, q).items| == |s.items| && ApplyPulled(s, q).items[i].given != s.items[i].given
    ensures ReadInOrder(ApplyPulled(s, q), i)
  {
    assert QueueBase(s.items, s.turns, q, s.queries[q].queue);
    SteerAlways.PullItems(s, q);
    SteerAlways.PullOwned(s.items, s.turns, q, s.queries[q].queue);
    PullOrder(s.items, s.turns, q, s.queries[q].queue);
  }

  lemma {:induction false} PulledReads(s: State, q: nat)
    requires Base(s) && ReadBase(s)
    ensures ReadBase(ApplyPulled(s, q))
  {
    if q < |s.queries| && s.queries[q].phase.Ready? {
      var n := ApplyPulled(s, q);
      SteerAlways.PullItems(s, q);
      forall i | 0 <= i < |n.items| && n.items[i].given > 0
        ensures ReadInOrder(n, i)
      {
        if n.items[i].given != s.items[i].given {
          PulledNow(s, q, i);
        } else {
          PulledOrder(s, q, i);
        }
      }
    }
  }

  /** A push adds the newest attempt. */
  lemma {:induction false} PushedReads(s: State, n: State, q: nat, i: nat)
    requires ReadBase(s) && Progress(s, n) && SameReads(s, n) && PushesTo(s, n, q, i)
    requires i + 1 == |s.items| && s.items[i].given == 0
    ensures ReadBase(n)
  {
    forall j | 0 <= j < |n.items| && n.items[j].given > 0
      ensures ReadInOrder(n, j)
    {
      assert ReadInOrder(s, j) && j < i;
      var p := s.turns[s.items[j].turn].query.value;
      assert TurnProgress(s.turns[s.items[j].turn], n.turns[s.items[j].turn]);
      if p == q {
        assert Submission(s.items[i], i).message.attempt == i;
      } else {
        AfterKept(s.queries[p].queue, n.queries[p].queue, j);
      }
    }
  }

  lemma {:induction false} SavedReads(s: State, ok: bool)
    requires Base(s) && ReadBase(s)
    ensures ReadBase(ApplySteerSaved(s, ok))
  {
    var n := ApplySteerSaved(s, ok);
    SteerAlways.SavedProgress(s, ok);
    if n.queries != s.queries {
      PushedReads(s, n, s.current.value, s.op.item);
    } else {
      SteerAlways.NarrowSelf(s.queries);
      ReadsKept(s, n);
    }
  }

  lemma {:induction false} LaunchReads(s: State, i: nat)
    requires Base(s) && ReadBase(s) && s.op == SavingStart(i) && i < |s.items| && s.items[i].turn < |s.turns|
    requires s.items[i].parts >= 1 && s.turns[s.items[i].turn].query.None?
    ensures ReadBase(LaunchQuery(s, i))
  {
    SteerAlways.LaunchProgress(s, i);
    PushedReads(s, LaunchQuery(s, i), |s.queries|, i);
  }

  lemma {:induction false} ReservationReads(s: State, i: nat, q: nat, ok: bool)
    requires Base(s) && ReadBase(s) && s.op == SavingStart(i) && i < |s.items| && q < |s.queries|
    requires s.items[i].parts >= 1 && s.items[i].turn < |s.turns| && s.turns[s.items[i].turn].query == Some(q)
    ensures ReadBase(FinishReservation(s, i, q, ok))
  {
    var n := FinishReservation(s, i, q, ok);
    SteerAlways.ReservationProgress(s, i, q, ok);
    if n.items[i].status.Submitted? {
      PushedReads(s, n, q, i);
    } else {
      SteerAlways.NarrowOne(s.queries, q, n.queries[q]);
      assert n.queries == s.queries[q := n.queries[q]];
      ReadsKept(s, n);
    }
  }

  lemma {:induction false} StartSavedReads(s: State, ok: bool)
    requires Base(s) && ReadBase(s)
    ensures ReadBase(ApplyStartSaved(s, ok))
  {
    if s.op.SavingStart? && s.op.item < |s.items| && s.items[s.op.item].turn < |s.turns|
       && s.items[s.op.item].parts > 0 {
      var i := s.op.item;
      match s.turns[s.items[i].turn].query
      case None =>
        if ok {
          LaunchReads(s, i);
        } else {
          SteerAlways.StartSavedProgress(s, ok);
          SteerAlways.NarrowSelf(s.queries);
          ReadsKept(s, ApplyStartSaved(s, ok));
        }
      case Some(q) => if q < |s.queries| { ReservationReads(s, i, q, ok); }
    }
  }

  lemma {:induction false} CreatedUnread(s: State, step: Step)
    requires Creates(step)
    ensures NewUnread(s, Apply(s, step))
  {
  }

  lemma {:induction false} QuietReads(s: State, step: Step) returns (n: State)
    requires Base(s) && ReadBase(s) && RequestStep(step) && !step.SteerSaved? && !step.StartSaved?
    ensures n == Apply(s, step)
    ensures ReadBase(n)
  {
    n := SteerAlways.StepBase(s, step);
    if Creates(step) {
      SteerReads.CreateNarrows(s, step);
      CreatedUnread(s, step);
    } else {
      SteerAlways.NarrowSelf(s.queries);
      SteerRuns.RequestsCreateNothing(s, step);
    }
    ReadsKept(s, n);
  }

  lemma {:induction false} EventReads(s: State, step: Step) returns (n: State)
    requires Base(s) && ReadBase(s) && !RequestStep(step) && !step.Pulled?
    ensures n == Apply(s, step)
    ensures ReadBase(n)
  {
    n := SteerAlways.EventSettles(s, step);
    ReadsKept(s, n);
  }

  /** Every step keeps the order of reads. */
  lemma {:induction false} StepOrders(s: State, step: Step) returns (n: State)
    requires Base(s) && ReadBase(s)
    ensures n == Apply(s, step)
    ensures ReadBase(n)
  {
    if step.SteerSaved? {
      n := ApplySteerSaved(s, step.ok);
      SavedReads(s, step.ok);
    } else if step.StartSaved? {
      n := ApplyStartSaved(s, step.ok);
      StartSavedReads(s, step.ok);
    } else if RequestStep(step) {
      n := QuietReads(s, step);
    } else if step.Pulled? {
      n := ApplyPulled(s, step.query);
      PulledReads(s, step.query);
    } else {
      n := EventReads(s, step);
    }
  }

  lemma {:induction false} RunOrdered(steps: seq<Step>) returns (n: State)
    ensures n == Run(steps)
    ensures Base(n) && HostBase(n) && ReadBase(n)
  {
    if steps == [] {
      n := Init;
    } else {
      var s := RunOrdered(steps[..|steps| - 1]);
      n := StepHosts(s, steps[|steps| - 1]);
      var m := StepOrders(s, steps[|steps| - 1]);
    }
  }

  // ------------------------------------------------------------------ what a finalizer takes back

  /** The finalizer's loop marks a steer of the turn for which it finds a queued value of the identity. */
  lemma {:induction false} WithdrawFinds(items: seq<Item>, values: seq<Q.Value>, t: nat, i: nat, j: nat)
    requires i <= |items| && j < |items| && WithdrawFrom(items, values, t, i).0[j] != items[j]
    ensures items[j].turn == t && Outstanding(items[j]) && exists v <- values :: v.message.identity == items[j].id
    decreases |items| - i
  {
    var at := Q.FindIdentity(values, items[i].id);
    if items[i].turn == t && Outstanding(items[i]) && at < |values| {
      assert values[at] in values;
      if i != j {
        var next := items[i := items[i].(status := NotApplied(Unread))];
        SteerAlways.RemovedNarrows(values, at);
        WithdrawFinds(next, values[..at] + values[at + 1..], t, i + 1, j);
      }
    } else {
      WithdrawFinds(items, values, t, i + 1, j);
    }
  }

  /** A steer of an unfinished turn whose identity is queued was not read: what follows a read one in the queue
      belongs to the same turn, which records the identity once. */
  lemma {:induction false} QueuedIdentityIsUnread(s: State, t: nat, q: nat, i: nat, v: Q.Value)
    requires Base(s) && HostBase(s) && ReadBase(s) && q < |s.queries| && v in s.queries[q].queue.values
    requires Unended(s.turns, t) && s.turns[t].query == Some(q) && SteerOf(s.items, i, t)
    requires !s.items[i].status.Erased? && v.message.identity == s.items[i].id
    ensures s.items[i].given == 0
  {
    var a := v.message.attempt;
    assert QueueBase(s.items, s.turns, q, s.queries[q].queue) && ValueBase(s.items, s.turns, q, v);
    assert SameHome(s.turns, s.items[i].turn, s.items[a].turn);
    assert s.items[i].given > 0 ==> ReadInOrder(s, i);
  }

  lemma {:induction false} SweptUnread(s: State, t: nat, q: nat, prep: bool, i: nat)
    requires Base(s) && HostBase(s) && ReadBase(s) && Finalizing(s, t) && s.turns[t].query == Some(q) && i < |s.items|
    requires var m := MarkUnreadStart(s, t, prep);
             WithdrawFrom(m.items, s.queries[q].queue.values, t, 0).0[i] != s.items[i]
    ensures s.items[i].turn == t && s.items[i].given == 0
  {
    var m := MarkUnreadStart(s, t, prep);
    if m.items[i] == s.items[i] {
      WithdrawFinds(m.items, s.queries[q].queue.values, t, 0, i);
      var v :| v in s.queries[q].queue.values && v.message.identity == s.items[i].id;
      QueuedIdentityIsUnread(s, t, q, i, v);
    } else {
      assert s.items[i].given > 0 ==> ReadInOrder(s, i);
    }
  }

  /** The finalizer stages that take inputs back. */
  predicate TakesBack(step: Step, t: nat) {
    (step.FinChecked? || step.FinExited?) && step.turn == t
  }

  lemma {:induction false} CheckedUnread(s: State, t: nat, stalled: bool, prep: bool, i: nat)
    requires Base(s) && HostBase(s) && ReadBase(s) && i < |s.items|
    requires |ApplyFinChecked(s, t, stalled, prep).items| == |s.items|
    requires ApplyFinChecked(s, t, stalled, prep).items[i] != s.items[i]
    ensures s.items[i].turn == t && s.items[i].given == 0
  {
    SweptUnread(s, t, s.turns[t].query.value, prep, i);
  }

  lemma {:induction false} ExitedUnread(s: State, t: nat, prep: bool, closeFailed: bool, i: nat)
    requires Base(s) && HostBase(s) && ReadBase(s) && i < |s.items|
    requires |ApplyFinExited(s, t, prep, closeFailed).items| == |s.items|
    requires ApplyFinExited(s, t, prep, closeFailed).items[i] != s.items[i]
    ensures s.items[i].turn == t && s.items[i].given == 0
  {
    SweptUnread(s, t, s.turns[t].query.value, prep, i);
  }

  lemma {:induction false} SaveTakesNothing(s: State, step: Step, i: nat)
    requires i < |s.items| && i < |Apply(s, step).items| && RequestStep(step)
    requires Apply(s, step).items[i].status == NotApplied(Unread)
    ensures s.items[i].status == NotApplied(Unread)
  {
  }

  lemma {:induction false} EvidenceTakesNothing(s: State, step: Step, i: nat)
    requires i < |s.items| && i < |Apply(s, step).items| && SdkStep(step) && !step.Pulled?
    requires Apply(s, step).items[i].status == NotApplied(Unread)
    ensures s.items[i].status == NotApplied(Unread)
  {
  }

  lemma {:induction false} StopTakesNothing(s: State, step: Step, i: nat)
    requires i < |s.items| && i < |Apply(s, step).items| && (step.Stop? || step.StopReceipt? || step.FinHistory?)
    requires Apply(s, step).items[i].status == NotApplied(Unread)
    ensures s.items[i].status == NotApplied(Unread)
  {
  }

  lemma {:induction false} OthersTakeNothing(s: State, step: Step, i: nat)
    requires i < |s.items| && i < |Apply(s, step).items| && !RequestStep(step) && !SdkStep(step)
    requires !step.Stop? && !step.StopReceipt? && !step.FinHistory? && !step.FinChecked? && !step.FinExited?
    ensures Apply(s, step).items[i] == s.items[i]
  {
  }

  lemma {:induction false} OnlyFinalizersTake(s: State, step: Step, i: nat)
    requires Base(s) && i < |s.items| && i < |Apply(s, step).items| && !step.FinChecked? && !step.FinExited?
    requires Apply(s, step).items[i].status == NotApplied(Unread)
    ensures s.items[i].status == NotApplied(Unread)
  {
    if RequestStep(step) {
      SaveTakesNothing(s, step, i);
    } else if step.Pulled? {
      SteerReads.PullRefusesNothing(s, step.query, i);
    } else if SdkStep(step) {
      EvidenceTakesNothing(s, step, i);
    } else if step.Stop? || step.StopReceipt? || step.FinHistory? {
      StopTakesNothing(s, step, i);
    } else {
      OthersTakeNothing(s, step, i);
    }
  }

  lemma {:induction false} FinalizerTakes(s: State, step: Step, i: nat) returns (n: State)
    requires Base(s) && HostBase(s) && ReadBase(s) && (step.FinChecked? || step.FinExited?)
    ensures n == Apply(s, step)
    ensures |n.items| == |s.items|
    ensures i < |s.items| && n.items[i] != s.items[i] ==> TakesBack(step, s.items[i].turn) && s.items[i].given == 0
  {
    match step
    case FinChecked(t, stalled, prep) =>
      n := ApplyFinChecked(s, t, stalled, prep);
      CheckedHosts(s, t, stalled, prep);
      if i < |s.items| && n.items[i] != s.items[i] { CheckedUnread(s, t, stalled, prep, i); }
    case FinExited(t, prep, closeFailed) =>
      n := ApplyFinExited(s, t, prep, closeFailed);
      ExitedHosts(s, t, prep, closeFailed);
      if i < |s.items| && n.items[i] != s.items[i] { ExitedUnread(s, t, prep, closeFailed, i); }
  }

  lemma {:induction false} EventReadsNothing(s: State, step: Step, i: nat) returns (n: State)
    requires Base(s) && !RequestStep(step) && !step.Pulled? && i < |s.items|
    ensures n == Apply(s, step)
    ensures i < |n.items| && n.items[i].given == s.items[i].given
  {
    n := SteerAlways.EventSettles(s, step);
  }

  /** Only a finalizer of the input's own turn takes it back, and only while nothing of it was read. */
  lemma {:induction false} TakenUnread(s: State, step: Step, i: nat) returns (n: State)
    requires Base(s) && HostBase(s) && ReadBase(s) && i < |s.items| && s.items[i].status != NotApplied(Unread)
    requires i < |Apply(s, step).items| && Apply(s, step).items[i].status == NotApplied(Unread)
    ensures n == Apply(s, step)
    ensures TakesBack(step, s.items[i].turn)
    ensures s.items[i].given == 0 && n.items[i].given == 0
  {
    if !step.FinChecked? && !step.FinExited? {
      OnlyFinalizersTake(s, step, i);
    }
    n := FinalizerTakes(s, step, i);
    var m := EventReadsNothing(s, step, i);
  }

  /** The further steps read nothing of an input that was unread. */
  predicate StaysUnread(before: seq<Step>, after: seq<Step>, i: nat) {
    i < |Run(before + after).items| && Run(before + after).items[i].given == 0
  }

  lemma {:induction false} StaysUnreadIs(before: seq<Step>, after: seq<Step>, i: nat)
    requires i < |Run(before).items| && Run(before).items[i].given == 0
    ensures StaysUnread(before, after, i) <==> !ReadsMore(before, after, i)
  {
    SteerRuns.RunLater(before, after);
  }

  /** In every run: an input that a step takes back unread was never read before. It stays unread whatever
      follows exactly when it does not wait in a readable queue after the step. */
  lemma {:induction false} TakenBackIsUnreadExactly(steps: seq<Step>, step: Step, i: nat)
    requires i < |Run(steps).items| && Run(steps).items[i].status != NotApplied(Unread)
    requires i < |Run(steps + [step]).items| && Run(steps + [step]).items[i].status == NotApplied(Unread)
    ensures TakesBack(step, Run(steps).items[i].turn)
    ensures Run(steps).items[i].given == 0 && Run(steps + [step]).items[i].given == 0
    ensures (forall after :: StaysUnread(steps + [step], after, i)) <==> !Waiting(Run(steps + [step]), i)
  {
    var s := RunOrdered(steps);
    RunOne(steps, step);
    var n := TakenUnread(s, step, i);
    StaysUnreadExactly(steps + [step], i);
  }

  lemma {:induction false} StaysUnreadExactly(before: seq<Step>, i: nat)
    requires i < |Run(before).items| && Run(before).items[i].status.NotApplied? && Run(before).items[i].given == 0
    ensures (forall after :: StaysUnread(before, after, i)) <==> !Waiting(Run(before), i)
  {
    SteerReads.NotAppliedIsReadExactly(before, i);
    forall after
      ensures StaysUnread(before, after, i) <==> !ReadsMore(before, after, i)
    {
      StaysUnreadIs(before, after, i);
    }
  }

  lemma {:induction false} LastTake(steps: seq<Step>, i: nat) returns (s: State)
    requires i < |Run(steps).items| && Run(steps).items[i].status == NotApplied(Unread)
    ensures steps != [] && s == Run(steps[..|steps| - 1]) && Run(steps) == Apply(s, steps[|steps| - 1])
    ensures Base(s) && HostBase(s) && ReadBase(s)
    ensures i < |s.items|
  {
    s := RunOrdered(steps[..|steps| - 1]);
    var n := SteerAlways.StepBase(s, steps[|steps| - 1]);
  }

  /** In every run: an input that reads "taken back unread" was taken back by a finalizer of its turn while nothing
      of it was read. */
  lemma {:induction false} UnreadWasTakenBack(steps: seq<Step>, i: nat) returns (k: nat)
    requires i < |Run(steps).items| && Run(steps).items[i].status == NotApplied(Unread)
    ensures k < |steps| && i < |Run(steps[..k]).items|
    ensures TakesBack(steps[k], Run(steps[..k]).items[i].turn) && Run(steps[..k]).items[i].given == 0
  {
    var last := |steps| - 1;
    var s := LastTake(steps, i);
    if s.items[i].status == NotApplied(Unread) {
      k := UnreadWasTakenBack(steps[..last], i);
      assert steps[..last][..k] == steps[..k];
    } else {
      k := last;
      var n := TakenUnread(s, steps[last], i);
    }
  }
}
