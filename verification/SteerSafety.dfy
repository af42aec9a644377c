/** Every step of a Claude thread keeps the invariant, unless it reuses a live identity or is a false receipt. */
module SteerSafety {
  import opened Basics
  import opened InputMessages
  import opened SteerSession
  import opened SteerInvariant
  import opened SteerQueries
  import opened SteerEvidence
  import opened SteerPulls
  import opened SteerSubmissions
  import opened SteerStarts
  import opened SteerStages
  import opened SteerFinalizers
  import opened SteerStops
  import Q = InputQueues

  lemma {:induction false} RequestStepKeeps(s: State, step: Step) returns (n: State)
    requires Inv(s) && (step.StartRequest? || step.SteerRequest? || step.EndAwaited?)
    ensures n == Apply(s, step)
    ensures Inv(n)
  {
    match step
    case StartRequest(id, content) =>
      n := ApplyStartRequest(s, id, content);
      StartRequestWaits(s, id, content);
      WaitKeeps(s, n);
    case SteerRequest(id, content) =>
      n := ApplySteerRequest(s, id, content);
      SteerRequestWaits(s, id, content);
      WaitKeeps(s, n);
    case EndAwaited =>
      n := ApplyEndAwaited(s);
      EndAwaitedWaits(s);
      WaitKeeps(s, n);
  }

  lemma {:induction false} SteerStepKeeps(s: State, step: Step) returns (n: State)
    requires Inv(s) && !Reuses(s, step) && (step.SteerConverted? || step.SteerSaved?)
    ensures n == Apply(s, step)
    ensures Inv(n)
  {
    match step
    case SteerConverted(ok, parts) =>
      n := ApplySteerConverted(s, ok, parts);
      SteerConvertedKeeps(s, ok, parts);
    case SteerSaved(ok) =>
      n := ApplySteerSaved(s, ok);
      SteerSavedKeeps(s, ok);
  }

  lemma {:induction false} PreparedStep(s: State, ok: bool, parts: nat) returns (n: State)
    requires Inv(s)
    ensures n == Apply(s, StartPrepared(ok, parts))
    ensures Inv(n)
  {
    n := ApplyStartPrepared(s, ok, parts);
    StartPreparedKeeps(s, ok, parts);
  }

  lemma {:induction false} SavedStep(s: State, ok: bool) returns (n: State)
    requires Inv(s)
    ensures n == Apply(s, StartSaved(ok))
    ensures Inv(n)
  {
    n := ApplyStartSaved(s, ok);
    StartSavedKeeps(s, ok);
  }

  lemma {:induction false} StartStepKeeps(s: State, step: Step) returns (n: State)
    requires Inv(s) && (step.StartPrepared? || step.StartSaved?)
    ensures n == Apply(s, step)
    ensures Inv(n)
  {
    if step.StartPrepared? {
      n := PreparedStep(s, step.ok, step.parts);
    } else {
      n := SavedStep(s, step.ok);
    }
  }

  lemma {:induction false} EchoStep(s: State, q: nat, id: string, since: nat) returns (n: State)
    requires Inv(s)
    ensures n == Apply(s, EchoSeen(q, id, since))
    ensures Inv(n)
  {
    n := ApplyEcho(s, q, id, since);
    EchoKeeps(s, q, id, since);
  }

  lemma {:induction false} ReplyStep(s: State, q: nat, i: nat, consumed: seq<Uuid>) returns (n: State)
    requires Inv(s)
    ensures n == Apply(s, ReplySeen(q, i, consumed))
    ensures Inv(n)
  {
    n := ApplyReply(s, q, i, consumed);
    ReplyKeeps(s, q, i, consumed);
  }

  lemma {:induction false} ReceiptsStep(s: State, q: nat, i: nat) returns (n: State)
    requires Inv(s)
    ensures n == Apply(s, ReceiptsComplete(q, i))
    ensures Inv(n)
  {
    n := ApplyReceipts(s, q, i);
    ReceiptsKeep(s, q, i);
  }

  lemma {:induction false} ReceiptStep(s: State, q: nat, uuids: set<Uuid>) returns (n: State)
    requires Inv(s)
    ensures n == Apply(s, ReceiptSeen(q, uuids))
    ensures Inv(n)
  {
    n := ReceiptKeeps(s, q, uuids);
  }

  lemma {:induction false} PullStep(s: State, q: nat) returns (n: State)
    requires Inv(s)
    ensures n == Apply(s, Pulled(q))
    ensures Inv(n)
  {
    n := ApplyPulled(s, q);
    PulledKeeps(s, q);
  }

  lemma {:induction false} FinishStep(s: State, q: nat) returns (n: State)
    requires Inv(s)
    ensures n == Apply(s, FinishTurn(q))
    ensures Inv(n)
  {
    n := ApplyFinishTurn(s, q);
    FinishTurnKeeps(s, q);
  }

  lemma {:induction false} CheckedStep(s: State, t: nat, stalled: bool, prep: bool) returns (n: State)
    requires Inv(s)
    ensures n == Apply(s, FinChecked(t, stalled, prep))
    ensures Inv(n)
  {
    n := ApplyFinChecked(s, t, stalled, prep);
    FinCheckedKeeps(s, t, stalled, prep);
  }

  lemma {:induction false} ExitedStep(s: State, t: nat, prep: bool, closeFailed: bool) returns (n: State)
    requires Inv(s)
    ensures n == Apply(s, FinExited(t, prep, closeFailed))
    ensures Inv(n)
  {
    n := ApplyFinExited(s, t, prep, closeFailed);
    FinExitedKeeps(s, t, prep, closeFailed);
  }

  lemma {:induction false} HistoryStep(s: State, t: nat, history: Option<NativeHistory>) returns (n: State)
    requires Inv(s)
    ensures n == Apply(s, FinHistory(t, history))
    ensures Inv(n)
  {
    n := ApplyFinHistory(s, t, history);
    FinHistoryKeeps(s, t, history);
  }

  lemma {:induction false} EndedStep(s: State, t: nat, failed: bool) returns (n: State)
    requires Inv(s)
    ensures n == Apply(s, FinEnded(t, failed))
    ensures Inv(n)
  {
    n := ApplyFinEnded(s, t, failed);
    FinEndedKeeps(s, t, failed);
  }

  lemma {:induction false} DiscardStep(s: State, q: nat) returns (n: State)
    requires Inv(s) && q < |s.queries|
    ensures n == Apply(s, QueryDiscarded(q))
    ensures Inv(n)
  {
    n := Discard(s, q);
    QueueStepKeeps(s, q, n);
  }

  lemma {:induction false} CloseStep(s: State, q: nat) returns (n: State)
    requires Inv(s) && q < |s.queries|
    ensures n == Apply(s, QueueClosed(q))
    ensures Inv(n)
  {
    n := SetQueue(s, q, Q.Close(s.queries[q].queue));
    QueueStepKeeps(s, q, n);
  }

  lemma {:induction false} WithdrawStep(s: State, q: nat) returns (n: State)
    requires Inv(s) && q < |s.queries|
    ensures n == Apply(s, QueueWithdrawn(q))
    ensures Inv(n)
  {
    n := SetQueue(s, q, Q.Withdraw(s.queries[q].queue));
    QueueStepKeeps(s, q, n);
  }

  lemma {:induction false} ReceiptMarkStep(s: State, i: nat, cancelled: bool) returns (n: State)
    requires Inv(s) && Honest(s, StopReceipt(i, cancelled))
    ensures n == Apply(s, StopReceipt(i, cancelled))
    ensures Inv(n)
  {
    n := ApplyStopReceipt(s, i, cancelled);
    StopReceiptKeeps(s, i, cancelled);
  }

  lemma {:induction false} SyntheticStep(s: State) returns (n: State)
    requires Inv(s)
    ensures n == Apply(s, SyntheticTurn)
    ensures Inv(n)
  {
    n := ApplySynthetic(s);
    SyntheticKeeps(s);
  }

  lemma {:induction false} ShutdownStep(s: State) returns (n: State)
    requires Inv(s)
    ensures n == Apply(s, Shutdown)
    ensures Inv(n)
  {
    n := ApplyShutdown(s);
    ShutdownKeeps(s);
  }

  lemma {:induction false} ReadyStep(s: State, q: nat) returns (n: State)
    requires Inv(s)
    ensures n == Apply(s, QueryReady(q))
    ensures Inv(n)
  {
    if q < |s.queries| && s.queries[q].queue.closed {
      n := s;
    } else {
      n := PhaseKeeps(s, q, Ready);
    }
  }

  lemma {:induction false} FailedStep(s: State, q: nat) returns (n: State)
    requires Inv(s)
    ensures n == Apply(s, QueryFailed(q))
    ensures Inv(n)
  {
    n := PhaseKeeps(s, q, Failed);
  }

  predicate QueryStep(step: Step) {
    step.QueryReady? || step.QueryFailed? || step.QueryDiscarded? || step.QueueClosed? || step.QueueWithdrawn?
  }

  lemma {:induction false} QueryStepsKeep(s: State, step: Step) returns (n: State)
    requires Inv(s) && QueryStep(step)
    ensures n == Apply(s, step)
    ensures Inv(n)
  {
    if step.QueryReady? {
      n := ReadyStep(s, step.query);
    } else if step.QueryFailed? {
      n := FailedStep(s, step.query);
    } else if step.query >= |s.queries| {
      n := s;
    } else if step.QueryDiscarded? {
      n := DiscardStep(s, step.query);
    } else if step.QueueClosed? {
      n := CloseStep(s, step.query);
    } else {
      n := WithdrawStep(s, step.query);
    }
  }

  lemma {:induction false} OtherStepKeeps(s: State, step: Step) returns (n: State)
    requires Inv(s) && Honest(s, step) && (step.StopReceipt? || step.SyntheticTurn? || step.Shutdown?)
    ensures n == Apply(s, step)
    ensures Inv(n)
  {
    match step
    case StopReceipt(i, cancelled) => n := ReceiptMarkStep(s, i, cancelled);
    case SyntheticTurn => n := SyntheticStep(s);
    case Shutdown => n := ShutdownStep(s);
  }

  lemma {:induction false} SdkStepKeeps(s: State, step: Step) returns (n: State)
    requires Inv(s) && SdkStep(step)
    ensures n == Apply(s, step)
    ensures Inv(n)
  {
    match step
    case Pulled(q) => n := PullStep(s, q);
    case EchoSeen(q, id, since) => n := EchoStep(s, q, id, since);
    case ReplySeen(q, i, consumed) => n := ReplyStep(s, q, i, consumed);
    case ReceiptSeen(q, uuids) => n := ReceiptStep(s, q, uuids);
    case ReceiptsComplete(q, i) => n := ReceiptsStep(s, q, i);
  }

  lemma {:induction false} FinalStepKeeps(s: State, step: Step) returns (n: State)
    requires Inv(s) && FinalStep(step)
    ensures n == Apply(s, step)
    ensures Inv(n)
  {
    match step
    case FinishTurn(q) => n := FinishStep(s, q);
    case FinChecked(t, stalled, prep) => n := CheckedStep(s, t, stalled, prep);
    case FinExited(t, prep, closeFailed) => n := ExitedStep(s, t, prep, closeFailed);
    case FinHistory(t, history) => n := HistoryStep(s, t, history);
    case FinEnded(t, failed) => n := EndedStep(s, t, failed);
  }

  /** Every step keeps the invariant, unless it reuses a live identity or is a false receipt. */
  lemma {:induction false} StepKeeps(s: State, step: Step) returns (n: State)
    requires Inv(s) && !Reuses(s, step) && Honest(s, step)
    ensures n == Apply(s, step)
    ensures Inv(n)
  {
    if step.StartRequest? || step.SteerRequest? || step.EndAwaited? {
      n := RequestStepKeeps(s, step);
    } else if step.SteerConverted? || step.SteerSaved? {
      n := SteerStepKeeps(s, step);
    } else if step.StartPrepared? || step.StartSaved? {
      n := StartStepKeeps(s, step);
    } else if SdkStep(step) {
      n := SdkStepKeeps(s, step);
    } else if FinalStep(step) {
      n := FinalStepKeeps(s, step);
    } else if step.Stop? {
      n := ApplyStop(s);
      StopKeeps(s);
    } else if step.StopReceipt? || step.SyntheticTurn? || step.Shutdown? {
      n := OtherStepKeeps(s, step);
    } else {
      n := QueryStepsKeep(s, step);
    }
  }

  /** Every state of a disciplined run satisfies the invariant. */
  lemma {:induction false} RunKeeps(steps: seq<Step>) returns (s: State)
    requires Disciplined(steps)
    ensures s == Run(steps)
    ensures Inv(s)
  {
    if steps == [] {
      s := Init;
      InitOk(s);
    } else {
      PrefixDisciplined(steps[..|steps| - 1], steps);
      var before := RunKeeps(steps[..|steps| - 1]);
      s := StepKeeps(before, steps[|steps| - 1]);
    }
  }
}
