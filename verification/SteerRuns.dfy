/** Theorems over every run of a Claude thread, whatever identities its callers send. */
module SteerRuns {
  import opened Basics
  import opened InputMessages
  import opened SteerSession
  import opened SteerInvariant
  import opened SteerChange
  import opened SteerExact
  import SteerAlways
  import SteerSafety
  import ConsumedSteer
  import O = HistoryOutcome
  import T = HistoryOutcomeTheorems
  import Q = InputQueues

  // ------------------------------------------------------------------ progress of every run

  lemma {:induction false} LaterStep(s: State, m: State, n: State)
    requires ItemsBase(s.items, s.turns) && Later(s, m) && Progress(m, n)
    ensures Later(s, n)
  {
    forall i | 0 <= i < |s.items|
      ensures ItemProgress(s.items[i], n.items[i])
    {
      assert ItemProgress(s.items[i], m.items[i]);
      assert ItemProgress(m.items[i], n.items[i]);
      assert TurnProgress(s.turns[s.items[i].turn], m.turns[s.items[i].turn]);
    }
    forall i | |s.items| <= i < |n.items| && n.items[i].steer && n.items[i].turn < |s.turns|
      ensures s.turns[n.items[i].turn].fin.Running?
    {
      assert TurnProgress(s.turns[n.items[i].turn], m.turns[n.items[i].turn]);
      if i < |m.items| {
        assert ItemProgress(m.items[i], n.items[i]);
      }
    }
    assert forall t :: 0 <= t < |s.turns| ==>
        TurnProgress(s.turns[t], m.turns[t]) && TurnProgress(m.turns[t], n.turns[t]);
  }

  lemma {:induction false} LaterSelf(s: State)
    ensures Later(s, s)
  {
  }

  lemma {:induction false} RunAppends(steps: seq<Step>, before: seq<Step>, after: seq<Step>, s: State)
    requires steps == before + after && s == Run(before)
    ensures Run(steps) == RunFrom(s, after)
    decreases |after|
  {
    if after == [] {
      assert steps == before;
    } else {
      var next := before + [after[0]];
      assert steps == next + after[1..];
      RunOne(before, after[0]);
      RunAppends(steps, next, after[1..], Apply(s, after[0]));
    }
  }

  lemma {:induction false} LaterFrom(s: State, m: State, after: seq<Step>)
    requires ItemsBase(s.items, s.turns) && Later(s, m) && Base(m)
    ensures Later(s, RunFrom(m, after))
    decreases |after|
  {
    if after != [] {
      var n := SteerAlways.StepBase(m, after[0]);
      LaterStep(s, m, n);
      LaterFrom(s, n, after[1..]);
    }
  }

  /** Every state of a run is related to every later one. */
  lemma {:induction false} RunLater(before: seq<Step>, after: seq<Step>)
    ensures Later(Run(before), Run(before + after))
  {
    var s := SteerAlways.RunBase(before);
    RunAppends(before + after, before, after, s);
    LaterSelf(s);
    LaterFrom(s, s, after);
  }

  // ------------------------------------------------------------------ outcomes

  /** An item never changes turn, identity, content, kind or size, and no read is undone. */
  lemma {:induction false} ItemsKeepTheirInput(before: seq<Step>, after: seq<Step>, i: nat)
    requires i < |Run(before).items|
    ensures i < |Run(before + after).items|
    ensures var a := Run(before).items[i];
            var b := Run(before + after).items[i];
            && b.turn == a.turn && b.id == a.id && b.content == a.content && b.steer == a.steer && b.parts == a.parts
            && a.given <= b.given
  {
    RunLater(before, after);
  }

  lemma {:induction false} StopOverturns(s: State, i: nat)
    requires i < |s.items| && HasOutcome(s.items[i])
    ensures var n := ApplyStop(s);
            && |n.items| == |s.items| && n.items[i].status == s.items[i].status
            && (Shows(n.items[i]) != Shows(s.items[i]) <==> StopTakes(s, i))
  {
    if RunningTurn(s).Some? && RunningTurn(s).value < |s.turns| {
      var unread := Q.Unread(s.queries[s.current.value].queue);
      var withdrawn := set m | m in unread :: m.uuid;
      assert ApplyStop(s).items == CancelWithdrawn(s.items, withdrawn);
      assert forall u :: u in withdrawn <==> exists m <- unread :: m.uuid == u;
    }
  }

  lemma {:induction false} JudgedOverturns(item: Item, verdict: O.Outcome)
    requires HasOutcome(item)
    ensures var r := Judged(item, verdict);
            && !r.status.Erased?
            && (Shows(r) != Shows(item) <==> || (verdict.NotApplied? && !Shows(item).AsNotApplied?)
                                             || (verdict.Delivered? && !Shows(item).AsDelivered?))
  {
  }

  /** What a history step makes of an item. */
  lemma {:induction false} HistoryWrites(s: State, t: nat, history: Option<NativeHistory>, i: nat)
    requires i < |s.items|
    ensures var n := ApplyFinHistory(s, t, history);
            && |n.items| == |s.items|
            && n.items[i] == if Finalizing(s, t) && s.turns[t].fin.Reading? && i in s.turns[t].fin.open
                             then Judged(s.items[i], HistoryVerdict(s.items, t, i, history)) else s.items[i]
  {
  }

  lemma {:induction false} HistoryOverturns(s: State, t: nat, history: Option<NativeHistory>, i: nat)
    requires i < |s.items| && HasOutcome(s.items[i])
    ensures var n := ApplyFinHistory(s, t, history);
            && |n.items| == |s.items| && !n.items[i].status.Erased?
            && (Shows(n.items[i]) != Shows(s.items[i]) <==> Overturns(s, FinHistory(t, history), i))
  {
    HistoryWrites(s, t, history, i);
    JudgedOverturns(s.items[i], HistoryVerdict(s.items, t, i, history));
  }

  lemma {:induction false} ReceiptOverturns(s: State, j: nat, cancelled: bool, i: nat)
    requires i < |s.items| && HasOutcome(s.items[i])
    ensures var n := ApplyStopReceipt(s, j, cancelled);
            && |n.items| == |s.items| && !n.items[i].status.Erased?
            && (Shows(n.items[i]) != Shows(s.items[i]) <==> Overturns(s, StopReceipt(j, cancelled), i))
  {
  }

  lemma {:induction false} SavedOverturns(s: State, ok: bool, i: nat)
    requires OpBase(s) && i < |s.items| && HasOutcome(s.items[i])
    ensures var n := ApplySteerSaved(s, ok);
            && |n.items| == |s.items| && !n.items[i].status.Erased?
            && (Shows(n.items[i]) != Shows(s.items[i]) <==> Overturns(s, SteerSaved(ok), i))
  {
  }

  lemma {:induction false} OthersOverturnNothing(s: State, step: Step, i: nat) returns (n: State)
    requires Base(s) && !WritesOver(step) && i < |s.items| && HasOutcome(s.items[i])
    ensures n == Apply(s, step)
    ensures i < |n.items| && !n.items[i].status.Erased? && Shows(n.items[i]) == Shows(s.items[i])
  {
    n := SteerAlways.StepBase(s, step);
  }

  /** A step changes an outcome exactly when it overturns it. */
  lemma {:induction false} OverturnedStep(s: State, step: Step, i: nat) returns (n: State)
    requires Base(s) && i < |s.items| && HasOutcome(s.items[i])
    ensures n == Apply(s, step)
    ensures i < |n.items| && !n.items[i].status.Erased?
    ensures Shows(n.items[i]) != Shows(s.items[i]) <==> Overturns(s, step, i)
  {
    if !WritesOver(step) {
      n := OthersOverturnNothing(s, step, i);
    } else {
      n := Apply(s, step);
      match step
      case FinHistory(t, history) => HistoryOverturns(s, t, history, i);
      case Stop => StopOverturns(s, i);
      case StopReceipt(j, cancelled) => ReceiptOverturns(s, j, cancelled, i);
      case SteerSaved(ok) => SavedOverturns(s, ok, i);
    }
  }

  lemma {:induction false} RunSnoc(before: seq<Step>, after: seq<Step>, k: nat)
    requires k < |after|
    ensures Run(before + after[..k + 1]) == Apply(Run(before + after[..k]), after[k])
  {
    assert before + after[..k + 1] == before + after[..k] + [after[k]];
    RunOne(before + after[..k], after[k]);
  }

  predicate IsOutcome(shown: Shown) {
    shown.AsDelivered? || shown.AsNotApplied?
  }

  lemma {:induction false} KeptStep(steps: seq<Step>, step: Step, i: nat, shown: Shown)
    requires ReadsAs(Run(steps), i, shown) && IsOutcome(shown)
    ensures ReadsAs(Apply(Run(steps), step), i, shown) <==> !Overturns(Run(steps), step, i)
  {
    var s := SteerAlways.RunBase(steps);
    var n := OverturnedStep(s, step, i);
  }

  lemma {:induction false} KeptNext(before: seq<Step>, after: seq<Step>, i: nat, shown: Shown, k: nat)
    requires k < |after| && ReadsAs(Run(before + after[..k]), i, shown) && IsOutcome(shown)
    ensures ReadsAs(Run(before + after[..k + 1]), i, shown) <==> !Overturns(Run(before + after[..k]), after[k], i)
  {
    RunSnoc(before, after, k);
    KeptStep(before + after[..k], after[k], i, shown);
  }

  lemma {:induction false} KeptAt(before: seq<Step>, after: seq<Step>, i: nat, shown: Shown, k: nat)
    requires ReadsAs(Run(before), i, shown) && IsOutcome(shown) && k <= |after| && NeverOverturns(before, after, i)
    ensures ReadsAs(Run(before + after[..k]), i, shown)
  {
    if k == 0 {
      assert before + after[..0] == before;
    } else {
      KeptAt(before, after, i, shown, k - 1);
      KeptNext(before, after, i, shown, k - 1);
    }
  }

  /** An outcome is kept exactly as long as no step overturns it. */
  lemma {:induction false} OutcomeIsKeptExactly(before: seq<Step>, after: seq<Step>, i: nat)
    requires i < |Run(before).items| && HasOutcome(Run(before).items[i])
    ensures KeepsOutcome(before, after, i) <==> NeverOverturns(before, after, i)
  {
    var shown := Shows(Run(before).items[i]);
    if KeepsOutcome(before, after, i) {
      forall k | 0 <= k < |after|
        ensures !Overturns(Run(before + after[..k]), after[k], i)
      {
        assert ReadsAs(Run(before + after[..k]), i, shown);
        assert ReadsAs(Run(before + after[..k + 1]), i, shown);
        KeptNext(before, after, i, shown, k);
      }
    }
    if NeverOverturns(before, after, i) {
      forall k | 0 <= k <= |after|
        ensures ReadsAs(Run(before + after[..k]), i, shown)
      {
        KeptAt(before, after, i, shown, k);
      }
    }
  }

  // ------------------------------------------------------------------ evidence

  lemma {:induction false} EchoNames(s: State, q: nat, id: string, since: nat, i: nat)
    requires i < |s.items| && !s.items[i].status.Delivered? && ApplyEcho(s, q, id, since).items[i].status.Delivered?
    ensures Names(s, EchoSeen(q, id, since), i)
  {
  }

  lemma {:induction false} ReplyNames(s: State, q: nat, j: nat, consumed: seq<Uuid>, i: nat)
    requires i < |s.items| && !s.items[i].status.Delivered? && ApplyReply(s, q, j, consumed).items[i].status.Delivered?
    ensures Names(s, ReplySeen(q, j, consumed), i)
  {
    ConsumedSteer.ConsumedIsSubsequence(Uuids(Messages(s.items[i], i)), consumed);
  }

  lemma {:induction false} ReceiptsName(s: State, q: nat, j: nat, i: nat)
    requires i < |s.items| && !s.items[i].status.Delivered? && ApplyReceipts(s, q, j).items[i].status.Delivered?
    ensures Names(s, ReceiptsComplete(q, j), i)
  {
  }

  /** A verdict is exactly what the history shows. */
  lemma {:induction false} VerdictIsShown(items: seq<Item>, t: nat, i: nat, history: Option<NativeHistory>)
    requires i < |items|
    ensures HistoryVerdict(items, t, i, history) == O.Delivered <==> ShownBy(items, t, i, history)
    ensures HistoryVerdict(items, t, i, history) == O.NotApplied <==> MissingFrom(items, t, i, history)
  {
    if history.Some? {
      var anchors := HistoryIds(items, FirstOf(items, t));
      var ids := HistoryIds(items, i);
      T.DeliveredIsExact(history.value.rows, history.value.sessionId, anchors, ids);
      T.NotAppliedIsExact(history.value.rows, history.value.sessionId, anchors, ids);
    }
  }

  lemma {:induction false} HistoryNames(s: State, t: nat, history: Option<NativeHistory>, i: nat)
    requires ReadingBase(s.items, s.turns) && i < |s.items|
    requires s.items[i].status != ApplyFinHistory(s, t, history).items[i].status
    ensures Asks(s, FinHistory(t, history), i)
    ensures var status := ApplyFinHistory(s, t, history).items[i].status;
            && (status.Delivered? ==> ShownBy(s.items, t, i, history))
            && (status.NotApplied? ==> MissingFrom(s.items, t, i, history))
  {
    VerdictIsShown(s.items, t, i, history);
  }

  lemma {:induction false} StepNames(s: State, step: Step, i: nat)
    requires Base(s) && i < |s.items| && !s.items[i].status.Delivered? && EvidenceStep(step)
    requires i < |Apply(s, step).items| && Apply(s, step).items[i].status.Delivered?
    ensures Names(s, step, i)
  {
    match step
    case EchoSeen(q, id, since) => EchoNames(s, q, id, since, i);
    case ReplySeen(q, j, consumed) => ReplyNames(s, q, j, consumed, i);
    case ReceiptsComplete(q, j) => ReceiptsName(s, q, j, i);
    case FinHistory(t, history) => HistoryNames(s, t, history, i);
  }

  /** The last step of a run, and what it cannot have settled. */
  lemma {:induction false} LastStep(steps: seq<Step>, i: nat) returns (s: State, n: State)
    requires i < |Run(steps).items| && !Run(steps).items[i].status.Preparing?
    ensures steps != [] && s == Run(steps[..|steps| - 1]) && n == Run(steps) && n == Apply(s, steps[|steps| - 1])
    ensures Base(s)
    ensures i < |s.items|
    ensures !EvidenceStep(steps[|steps| - 1]) && n.items[i].status.Delivered? ==> s.items[i].status.Delivered?
    ensures !steps[|steps| - 1].FinHistory? && n.items[i].status == NotApplied(Absent) ==>
              s.items[i].status == NotApplied(Absent)
  {
    s := SteerAlways.RunBase(steps[..|steps| - 1]);
    n := SteerAlways.StepBase(s, steps[|steps| - 1]);
  }

  /** Every delivered input of every run was delivered by a step that names its UUIDs. */
  lemma {:induction false} DeliveredHasEvidence(steps: seq<Step>, i: nat) returns (k: nat)
    requires i < |Run(steps).items| && Run(steps).items[i].status.Delivered?
    ensures k < |steps| && i < |Run(steps[..k]).items| && Names(Run(steps[..k]), steps[k], i)
    ensures !Run(steps[..k]).items[i].status.Delivered?
  {
    var last := |steps| - 1;
    var s, n := LastStep(steps, i);
    if s.items[i].status.Delivered? {
      k := DeliveredHasEvidence(steps[..last], i);
      assert steps[..last][..k] == steps[..k];
    } else {
      k := last;
      StepNames(s, steps[last], i);
    }
  }

  /** Every input of every run that is not applied for absence was asked about, and the history lacks it. */
  lemma {:induction false} AbsentHasEvidence(steps: seq<Step>, i: nat) returns (k: nat)
    requires i < |Run(steps).items| && Run(steps).items[i].status == NotApplied(Absent)
    ensures k < |steps| && Asks(Run(steps[..k]), steps[k], i)
    ensures MissingFrom(Run(steps[..k]).items, steps[k].turn, i, steps[k].history)
  {
    var last := |steps| - 1;
    var s, n := LastStep(steps, i);
    if s.items[i].status == NotApplied(Absent) {
      k := AbsentHasEvidence(steps[..last], i);
      assert steps[..last][..k] == steps[..k];
    } else {
      k := last;
      HistoryNames(s, steps[last].turn, steps[last].history, i);
    }
  }

  // ------------------------------------------------------------------ turn completion

  /** Whatever calls finishTurn, a turn completes at most once and stays complete. */
  lemma {:induction false} TurnsCompleteOnce(before: seq<Step>, after: seq<Step>, t: nat)
    requires t < |Run(before).turns|
    ensures t < |Run(before + after).turns|
    ensures Run(before + after).turns[t].completions == if Run(before + after).turns[t].fin.Ended? then 1 else 0
    ensures Run(before).turns[t].fin.Ended? ==> Run(before + after).turns[t].fin.Ended?
  {
    RunLater(before, after);
    assert TurnProgress(Run(before).turns[t], Run(before + after).turns[t]);
    var n := SteerAlways.RunBase(before + after);
  }

  lemma {:induction false} SubmittedStep(s: State, step: Step, i: nat) returns (n: State)
    requires Base(s) && step != StopReceipt(i, false)
    ensures n == Apply(s, step)
    ensures Base(n) && Progress(s, n)
    ensures i < |n.items| && n.items[i].steer && n.items[i].status.Submitted? ==>
              i < |s.items| && (s.items[i].status.Submitted? || StillRunning(s.turns, n.items[i].turn))
  {
    n := SteerAlways.StepBase(s, step);
    assert i < |s.items| ==> ItemProgress(s.items[i], n.items[i]);
    if step.StopReceipt? {
      ReceiptSubmits(s, step.item, step.cancelled, i);
    }
  }

  lemma {:induction false} ReceiptSubmits(s: State, j: nat, cancelled: bool, i: nat)
    requires StopReceipt(j, cancelled) != StopReceipt(i, false)
    ensures var n := ApplyStopReceipt(s, j, cancelled);
            |n.items| == |s.items| && (i < |s.items| ==> n.items[i].status == s.items[i].status)
  {
  }

  lemma {:induction false} SubmittedFrom(s: State, after: seq<Step>, t: nat, i: nat)
    requires Base(s) && t < |s.turns| && !s.turns[t].fin.Running?
    requires i < |RunFrom(s, after).items| && RunFrom(s, after).items[i].steer
    requires RunFrom(s, after).items[i].turn == t && RunFrom(s, after).items[i].status.Submitted?
    ensures StopReceipt(i, false) in after || (i < |s.items| && s.items[i].status.Submitted?)
    decreases |after|
  {
    if after != [] && after[0] != StopReceipt(i, false) {
      var n := SubmittedStep(s, after[0], i);
      assert TurnProgress(s.turns[t], n.turns[t]);
      SubmittedFrom(n, after[1..], t, i);
      LaterSelf(n);
      LaterFrom(n, n, after[1..]);
    }
  }

  /** Once a turn began to finish, a steer of it becomes submitted only by a receipt that says so. */
  lemma {:induction false} NothingSubmittedAfterFinish(before: seq<Step>, after: seq<Step>, i: nat)
    requires i < |Run(before + after).items|
    requires Run(before + after).items[i].steer && Run(before + after).items[i].status.Submitted?
    requires Run(before + after).items[i].turn < |Run(before).turns|
    requires !Run(before).turns[Run(before + after).items[i].turn].fin.Running?
    ensures StopReceipt(i, false) in after || (i < |Run(before).items| && Run(before).items[i].status.Submitted?)
  {
    var s := SteerAlways.RunBase(before);
    RunAppends(before + after, before, after, s);
    SubmittedFrom(s, after, RunFrom(s, after).items[i].turn, i);
  }

  // ------------------------------------------------------------------ owners

  lemma {:induction false} PullCreatesNothing(s: State, q: nat)
    ensures |ApplyPulled(s, q).items| == |s.items|
  {
    if q < |s.queries| && s.queries[q].phase.Ready? {
      var pulled := Q.Pull(s.queries[q].queue).1;
      if pulled.Yield? && pulled.message.attempt < |s.items| {
        var a := pulled.message.attempt;
        assert ApplyPulled(s, q).items == s.items[a := s.items[a].(given := s.items[a].given + 1)];
      } else {
        assert ApplyPulled(s, q).items == s.items;
      }
    }
  }

  lemma {:induction false} RequestsCreateNothing(s: State, step: Step)
    requires RequestStep(step) && !Creates(step)
    ensures |Apply(s, step).items| == |s.items|
  {
  }

  lemma {:induction false} SdkCreatesNothing(s: State, step: Step)
    requires SdkStep(step)
    ensures |Apply(s, step).items| == |s.items|
  {
    if step.Pulled? {
      PullCreatesNothing(s, step.query);
    }
  }

  lemma {:induction false} OthersCreateNothing(s: State, step: Step)
    requires !RequestStep(step) && !SdkStep(step)
    ensures |Apply(s, step).items| == |s.items|
  {
  }

  /** Only a converted steer and a prepared start create an item, and they change no other. */
  lemma {:induction false} StepCreates(s: State, step: Step)
    ensures |Apply(s, step).items| >= |s.items|
    ensures |Apply(s, step).items| > |s.items| ==> Creates(step) && s.items <= Apply(s, step).items
  {
    if SdkStep(step) {
      SdkCreatesNothing(s, step);
    } else if !RequestStep(step) {
      OthersCreateNothing(s, step);
    } else if !Creates(step) {
      RequestsCreateNothing(s, step);
    }
  }

  lemma {:induction false} DoublesExactly(s: State, step: Step)
    ensures Doubles(s, Apply(s, step)) <==> Reuses(s, step) || Late(s, step)
  {
    StepCreates(s, step);
  }

  lemma {:induction false} ErasedStays(s: State, step: Step, i: nat) returns (n: State)
    requires Base(s) && i < |s.items| && s.items[i].status.Erased?
    ensures n == Apply(s, step)
    ensures i < |n.items| && !Live(n.items[i])
  {
    n := SteerAlways.StepBase(s, step);
    assert ItemProgress(s.items[i], n.items[i]);
  }

  /** An item that does not own its identity owns it again exactly when it is revived. */
  lemma {:induction false} StaysReleased(s: State, step: Step, i: nat) returns (n: State)
    requires Base(s) && i < |s.items| && !Live(s.items[i])
    ensures n == Apply(s, step)
    ensures i < |n.items|
    ensures Live(n.items[i]) <==> RevivesItem(s, step, i)
  {
    if s.items[i].status.Erased? {
      n := ErasedStays(s, step, i);
    } else {
      n := OverturnedStep(s, step, i);
    }
  }

  lemma {:induction false} FreeKept(s: State, step: Step, id: string, bound: nat)
    requires Base(s) && !Revives(s, step) && bound <= |s.items| && NoLiveOwner(s.items[..bound], id)
    ensures bound <= |Apply(s, step).items| && NoLiveOwner(Apply(s, step).items[..bound], id)
  {
    var n := SteerAlways.StepBase(s, step);
    forall i | 0 <= i < bound && n.items[i].id == id
      ensures !Live(n.items[i])
    {
      assert ItemProgress(s.items[i], n.items[i]);
      assert s.items[..bound][i] == s.items[i];
      var m := StaysReleased(s, step, i);
    }
  }

  lemma {:induction false} AllFree(s: State, step: Step, id: string)
    requires Base(s) && !Revives(s, step) && |Apply(s, step).items| == |s.items| && NoLiveOwner(s.items, id)
    ensures NoLiveOwner(Apply(s, step).items, id)
  {
    var n := Apply(s, step);
    assert s.items[..|s.items|] == s.items && n.items[..|s.items|] == n.items;
    FreeKept(s, step, id, |s.items|);
  }

  lemma {:induction false} HeldFree(s: State, step: Step)
    requires Base(s) && OpFree(s) && !Revives(s, step) && !RequestStep(step)
    ensures OpFree(Apply(s, step))
  {
    OpHeld(s, step);
    StepCreates(s, step);
    match s.op
    case Converting(id, content, t, start) => if start { AllFree(s, step, id); }
    case AwaitingEnd(id, content, t) => AllFree(s, step, id);
    case PreparingStart(id, content) => AllFree(s, step, id);
    case SavingSteer(i, start) => if start { SavingFree(s, step, i); }
    case _ =>
  }

  lemma {:induction false} SavingFree(s: State, step: Step, i: nat)
    requires Base(s) && !Revives(s, step) && i < |s.items| && NoLiveOwner(s.items[..i], s.items[i].id)
    ensures i < |Apply(s, step).items| && NoLiveOwner(Apply(s, step).items[..i], Apply(s, step).items[i].id)
  {
    var n := SteerAlways.StepBase(s, step);
    assert ItemProgress(s.items[i], n.items[i]);
    FreeKept(s, step, s.items[i].id, i);
  }

  lemma {:induction false} WaitFree(s: State, step: Step)
    requires OpFree(s) && (step.StartRequest? || step.SteerRequest? || step.EndAwaited?)
    ensures OpFree(Apply(s, step))
  {
  }

  lemma {:induction false} CreateFree(s: State, step: Step)
    requires OpFree(s) && Creates(step)
    ensures OpFree(Apply(s, step))
  {
    var n := Apply(s, step);
    if |n.items| > |s.items| {
      assert n.items[..|s.items|] == s.items;
    }
  }

  lemma {:induction false} SaveFree(s: State, step: Step)
    requires Base(s) && OpFree(s) && (step.SteerSaved? || step.StartSaved?)
    ensures OpFree(Apply(s, step))
  {
    if step.SteerSaved? && s.op.SavingSteer? {
      var i := s.op.item;
      var n := ApplySteerSaved(s, step.ok);
      assert forall j :: 0 <= j < i ==> s.items[..i][j] == n.items[j];
    }
  }

  lemma {:induction false} StepFree(s: State, step: Step)
    requires Base(s) && OpFree(s) && !Revives(s, step)
    ensures OpFree(Apply(s, step))
  {
    if !RequestStep(step) {
      HeldFree(s, step);
    } else if Creates(step) {
      CreateFree(s, step);
    } else if step.SteerSaved? || step.StartSaved? {
      SaveFree(s, step);
    } else {
      WaitFree(s, step);
    }
  }

  lemma {:induction false} PrefixNeverRevives(front: seq<Step>, steps: seq<Step>)
    requires front <= steps && NeverRevives(steps)
    ensures NeverRevives(front)
  {
    forall k | 0 <= k < |front|
      ensures !Revives(Run(front[..k]), front[k])
    {
      assert front[..k] == steps[..k];
    }
  }

  lemma {:induction false} RunFree(steps: seq<Step>)
    requires NeverRevives(steps)
    ensures OpFree(Run(steps))
  {
    if steps != [] {
      var front := steps[..|steps| - 1];
      PrefixNeverRevives(front, steps);
      RunFree(front);
      var s := SteerAlways.RunBase(front);
      StepFree(s, steps[|steps| - 1]);
    }
  }

  /** While no input is revived, a step that reuses no identity creates a new owner only when no earlier item
      of it is live. */
  lemma {:induction false} NewOwnerNeedsRelease(steps: seq<Step>, step: Step, i: nat, j: nat)
    requires NeverRevives(steps) && !Reuses(Run(steps), step)
    requires i < |Run(steps).items| <= j < |Apply(Run(steps), step).items|
    requires Run(steps).items[i].id == Apply(Run(steps), step).items[j].id
    ensures !Live(Run(steps).items[i])
  {
    RunFree(steps);
    ReleasedBefore(Run(steps), step, i, j);
  }

  lemma {:induction false} ReleasedBefore(s: State, step: Step, i: nat, j: nat)
    requires OpFree(s) && !Reuses(s, step) && i < |s.items| <= j < |Apply(s, step).items|
    requires s.items[i].id == Apply(s, step).items[j].id
    ensures !Live(s.items[i])
  {
    DoublesExactly(s, step);
    OneAtATime(s, step);
    var n := Apply(s, step);
    assert j == |s.items| && NoLiveOwner(s.items, n.items[j].id);
  }

  lemma {:induction false} OneAtATime(s: State, step: Step)
    ensures |Apply(s, step).items| <= |s.items| + 1
  {
    if !Creates(step) {
      StepCreates(s, step);
    }
  }

  /** A step keeps the invariant exactly when it reuses no live identity. */
  lemma {:induction false} StepKeepsExactly(s: State, step: Step)
    requires Inv(s) && Honest(s, step)
    ensures Inv(Apply(s, step)) <==> !Reuses(s, step)
  {
    if Reuses(s, step) {
      CreateUnique(s, step);
    } else {
      var n := SteerSafety.StepKeeps(s, step);
    }
  }

  lemma {:induction false} CreateUnique(s: State, step: Step)
    requires Unique(s.items) && Creates(step)
    ensures Unique(Apply(s, step).items) <==> !Reuses(s, step) && !Late(s, step)
  {
    var n := Apply(s, step);
    DoublesExactly(s, step);
    if |n.items| > |s.items| {
      assert n.items == s.items + [n.items[|s.items|]];
      if Unique(n.items) {
        assert forall i :: 0 <= i < |s.items| ==> n.items[i] == s.items[i];
      }
    }
  }

  predicate SameIds(a: seq<Item>, b: seq<Item>) {
    |a| == |b| && forall i :: 0 <= i < |a| ==> a[i].id == b[i].id
  }

  lemma {:induction false} KeptUnique(a: seq<Item>, b: seq<Item>)
    requires Unique(a) && SameIds(a, b)
    ensures Unique(b) <==> forall i :: 0 <= i < |a| && Surpassed(a, i) ==> !Live(b[i])
  {
  }

  /** Of the older items, a step makes exactly those live that it revives. */
  lemma {:induction false} SurpassedLive(s: State, step: Step) returns (n: State)
    requires Base(s) && Unique(s.items) && !Creates(step)
    ensures n == Apply(s, step)
    ensures SameIds(s.items, n.items)
    ensures forall i :: 0 <= i < |s.items| && Surpassed(s.items, i) ==> (Live(n.items[i]) <==> RevivesItem(s, step, i))
  {
    n := SteerAlways.StepBase(s, step);
    StepCreates(s, step);
    assert forall i :: 0 <= i < |s.items| ==> ItemProgress(s.items[i], n.items[i]);
    forall i | 0 <= i < |s.items| && Surpassed(s.items, i)
      ensures Live(n.items[i]) <==> RevivesItem(s, step, i)
    {
      var m := StaysReleased(s, step, i);
    }
  }

  lemma {:induction false} KeepUnique(s: State, step: Step)
    requires Base(s) && Unique(s.items) && !Creates(step)
    ensures Unique(Apply(s, step).items) <==> !Clashes(s, step)
  {
    var n := SurpassedLive(s, step);
    KeptUnique(s.items, n.items);
  }

  lemma {:induction false} UniqueStep(s: State, step: Step)
    requires Base(s) && Unique(s.items)
    ensures Unique(Apply(s, step).items) <==> !Clashes(s, step)
  {
    if Creates(step) {
      CreateUnique(s, step);
    } else {
      KeepUnique(s, step);
    }
  }

  // ------------------------------------------------------------------ contents

  lemma {:induction false} ContentKept(s: State, n: State, id: string, content: seq<Block>)
    requires Progress(s, n) && |n.items| == |s.items| && SameContent(s.items, id, content)
    ensures SameContent(n.items, id, content)
  {
    forall i | 0 <= i < |n.items| && n.items[i].id == id && !n.items[i].status.Erased?
      ensures n.items[i].content == content
    {
      assert ItemProgress(s.items[i], n.items[i]);
    }
  }

  lemma {:induction false} ContentsKept(s: State, n: State)
    requires Progress(s, n) && |n.items| == |s.items| && OneContent(s.items)
    ensures OneContent(n.items)
  {
    forall i | 0 <= i < |n.items| && !n.items[i].status.Erased?
      ensures SameContent(n.items, n.items[i].id, n.items[i].content)
    {
      assert ItemProgress(s.items[i], n.items[i]);
      ContentKept(s, n, s.items[i].id, s.items[i].content);
    }
  }

  lemma {:induction false} ContentAppended(items: seq<Item>, item: Item)
    requires OneContent(items) && !item.status.Erased?
    ensures OneContent(items + [item]) <==> SameContent(items, item.id, item.content)
  {
    var n := items + [item];
    if OneContent(n) {
      assert SameContent(n, n[|items|].id, n[|items|].content);
      assert forall i :: 0 <= i < |items| ==> n[i] == items[i];
    } else {
      var i :| 0 <= i < |n| && !n[i].status.Erased? && !SameContent(n, n[i].id, n[i].content);
      assert i < |items| ==> SameContent(items, items[i].id, items[i].content);
    }
  }

  lemma {:induction false} HeldContent(s: State, n: State)
    requires Progress(s, n) && |n.items| == |s.items| && n.op == s.op && OpContent(s)
    ensures OpContent(n)
  {
    match s.op
    case Converting(id, content, t, start) => if start { ContentKept(s, n, id, content); }
    case AwaitingEnd(id, content, t) => ContentKept(s, n, id, content);
    case PreparingStart(id, content) => ContentKept(s, n, id, content);
    case _ =>
  }

  lemma {:induction false} WaitContent(s: State, step: Step)
    requires OpContent(s) && (step.StartRequest? || step.SteerRequest? || step.EndAwaited?)
    ensures OpContent(Apply(s, step))
  {
  }

  lemma {:induction false} SaveContent(s: State, step: Step)
    requires Base(s) && OpContent(s) && (step.SteerSaved? || step.StartSaved?) && OneContent(Apply(s, step).items)
    ensures OpContent(Apply(s, step))
  {
    if step.SteerSaved? && s.op.SavingSteer? {
      SteerSavedContent(s, step.ok);
    }
  }

  lemma {:induction false} SteerSavedContent(s: State, ok: bool)
    requires Base(s) && OpContent(s) && s.op.SavingSteer? && OneContent(ApplySteerSaved(s, ok).items)
    ensures OpContent(ApplySteerSaved(s, ok))
  {
    var i := s.op.item;
    var n := ApplySteerSaved(s, ok);
    if n.op.AwaitingEnd? {
      assert SameContent(n.items, n.items[i].id, n.items[i].content);
    }
  }

  lemma {:induction false} CreateContent(s: State, step: Step)
    requires Base(s) && OpContent(s) && OneContent(s.items) && Creates(step)
    ensures OneContent(Apply(s, step).items) <==> !Differs(s, step)
    ensures OpContent(Apply(s, step))
  {
    var n := Apply(s, step);
    if |n.items| > |s.items| {
      ContentAppended(s.items, n.items[|s.items|]);
      assert n.items == s.items + [n.items[|s.items|]];
    }
  }

  lemma {:induction false} OpHeld(s: State, step: Step)
    requires !RequestStep(step)
    ensures Apply(s, step).op == s.op
  {
  }

  lemma {:induction false} StepContent(s: State, step: Step) returns (n: State)
    requires Base(s) && OneContent(s.items) && OpContent(s)
    ensures n == Apply(s, step)
    ensures OneContent(n.items) <==> !Differs(s, step)
    ensures !Differs(s, step) ==> OpContent(n)
  {
    if Creates(step) {
      n := Apply(s, step);
      CreateContent(s, step);
    } else {
      n := SteerAlways.StepBase(s, step);
      StepCreates(s, step);
      ContentsKept(s, n);
      if !RequestStep(step) {
        OpHeld(s, step);
        HeldContent(s, n);
      } else if step.SteerSaved? || step.StartSaved? {
        SaveContent(s, step);
      } else {
        WaitContent(s, step);
      }
    }
  }

  lemma {:induction false} ContentAt(steps: seq<Step>, k: nat)
    requires k <= |steps| && forall j :: 0 <= j < k ==> !Differs(Run(steps[..j]), steps[j])
    ensures OneContent(Run(steps[..k]).items) && OpContent(Run(steps[..k]))
  {
    if k > 0 {
      ContentAt(steps, k - 1);
      assert steps[..k][..k - 1] == steps[..k - 1];
      var s := SteerAlways.RunBase(steps[..k - 1]);
      var n := StepContent(s, steps[k - 1]);
    }
  }

  lemma {:induction false} SameContentAt(steps: seq<Step>, k: nat)
    requires k < |steps| && AlwaysOneContent(steps)
    ensures !Differs(Run(steps[..k]), steps[k])
  {
    forall j | 0 <= j < k
      ensures !Differs(Run(steps[..j]), steps[j])
    {
      SameContentAt(steps, j);
    }
    ContentAt(steps, k);
    assert steps[..k + 1][..k] == steps[..k];
    var s := SteerAlways.RunBase(steps[..k]);
    var n := StepContent(s, steps[k]);
    assert OneContent(Run(steps[..k + 1]).items);
  }

  /** Recorded items of one identity share their content exactly when no direct steer changes it. */
  lemma {:induction false} OneContentExactly(steps: seq<Step>)
    ensures AlwaysOneContent(steps) <==> NeverDiffers(steps)
  {
    if AlwaysOneContent(steps) {
      forall k | 0 <= k < |steps|
        ensures !Differs(Run(steps[..k]), steps[k])
      {
        SameContentAt(steps, k);
      }
    }
    if NeverDiffers(steps) {
      forall k | 0 <= k <= |steps|
        ensures OneContent(Run(steps[..k]).items)
      {
        ContentAt(steps, k);
      }
    }
  }
}
