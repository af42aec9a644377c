/** Delivery and finalization theorems over every run that reuses no live identity and whose receipts are honest. */
module SteerTheorems {
  import opened Basics
  import opened InputMessages
  import opened SteerSession
  import opened SteerInvariant
  import opened SteerChange
  import opened SteerExact
  import opened SteerHandover
  import SteerAlways
  import SteerEvidence
  import SteerPulls
  import SteerReads
  import SteerRuns
  import SteerSafety
  import SteerStops
  import SteerSweep
  import Subsequences
  import Q = InputQueues

  // ------------------------------------------------------------------ outcomes

  lemma {:induction false} StopSpares(s: State, i: nat)
    requires Inv(s) && i < |s.items| && HasOutcome(s.items[i])
    ensures var n := ApplyStop(s);
            && |n.items| == |s.items| && n.items[i].status == s.items[i].status
            && Shows(n.items[i]) == Shows(s.items[i])
  {
    if RunningTurn(s).Some? && RunningTurn(s).value < |s.turns| {
      var q := s.current.value;
      SteerStops.StopSparesSettled(s, q, set m | m in Q.Unread(s.queries[q].queue) :: m.uuid);
    }
  }

  /** The steers that a finalizer asks about have no outcome yet. */
  lemma {:induction false} HistorySpares(s: State, t: nat, history: Option<NativeHistory>, i: nat)
    requires TurnsOk(s.turns, s.queries) && FinsOk(s.items, s.turns, s.queries)
    requires i < |s.items| && HasOutcome(s.items[i])
    ensures |ApplyFinHistory(s, t, history).items| == |s.items|
    ensures ApplyFinHistory(s, t, history).items[i] == s.items[i]
  {
    if Finalizing(s, t) && s.turns[t].fin.Reading? {
      assert ReadingOk(s.items, s.turns[t].fin.open, t, s.queries[s.turns[t].query.value].queue);
    }
  }

  lemma {:induction false} ReceiptSpares(s: State, j: nat, cancelled: bool, i: nat)
    requires Honest(s, StopReceipt(j, cancelled)) && i < |s.items| && HasOutcome(s.items[i])
    ensures var n := ApplyStopReceipt(s, j, cancelled);
            && |n.items| == |s.items| && n.items[i].status == s.items[i].status
            && Shows(n.items[i]) == Shows(s.items[i])
  {
  }

  lemma {:induction false} SaveSpares(s: State, ok: bool, i: nat)
    requires OpOk(s) && i < |s.items| && HasOutcome(s.items[i])
    ensures |ApplySteerSaved(s, ok).items| == |s.items| && ApplySteerSaved(s, ok).items[i] == s.items[i]
  {
  }

  lemma {:induction false} OthersKeep(s: State, step: Step, i: nat) returns (n: State)
    requires Base(s) && !WritesOver(step) && i < |s.items| && HasOutcome(s.items[i])
    ensures n == Apply(s, step)
    ensures i < |n.items| && n.items[i].status == s.items[i].status && Shows(n.items[i]) == Shows(s.items[i])
  {
    n := SteerAlways.StepBase(s, step);
  }

  lemma {:induction false} StopKeeps(s: State, i: nat) returns (n: State)
    requires Inv(s) && i < |s.items| && HasOutcome(s.items[i])
    ensures n == Apply(s, Stop)
    ensures i < |n.items| && n.items[i].status == s.items[i].status && Shows(n.items[i]) == Shows(s.items[i])
  {
    n := ApplyStop(s);
    StopSpares(s, i);
  }

  lemma {:induction false} ReceiptKeeps(s: State, j: nat, cancelled: bool, i: nat) returns (n: State)
    requires Honest(s, StopReceipt(j, cancelled)) && i < |s.items| && HasOutcome(s.items[i])
    ensures n == Apply(s, StopReceipt(j, cancelled))
    ensures i < |n.items| && n.items[i].status == s.items[i].status && Shows(n.items[i]) == Shows(s.items[i])
  {
    n := ApplyStopReceipt(s, j, cancelled);
    ReceiptSpares(s, j, cancelled, i);
  }

  lemma {:induction false} VerdictsKeep(s: State, step: Step, i: nat) returns (n: State)
    requires TurnsOk(s.turns, s.queries) && FinsOk(s.items, s.turns, s.queries) && OpOk(s)
    requires (step.FinHistory? || step.SteerSaved?) && i < |s.items| && HasOutcome(s.items[i])
    ensures n == Apply(s, step)
    ensures i < |n.items| && n.items[i] == s.items[i]
  {
    match step
    case FinHistory(t, history) => n := ApplyFinHistory(s, t, history); HistorySpares(s, t, history, i);
    case SteerSaved(ok) => n := ApplySteerSaved(s, ok); SaveSpares(s, ok, i);
  }

  lemma {:induction false} OutcomeKept(s: State, step: Step, i: nat) returns (n: State)
    requires Base(s) && Inv(s) && Honest(s, step) && i < |s.items| && HasOutcome(s.items[i])
    ensures n == Apply(s, step)
    ensures i < |n.items| && n.items[i].status == s.items[i].status && Shows(n.items[i]) == Shows(s.items[i])
  {
    if step.Stop? {
      n := StopKeeps(s, i);
    } else if step.StopReceipt? {
      n := ReceiptKeeps(s, step.item, step.cancelled, i);
    } else if WritesOver(step) {
      n := VerdictsKeep(s, step, i);
    } else {
      n := OthersKeep(s, step, i);
    }
  }

  /** One more step of a disciplined run keeps an outcome. */
  lemma {:induction false} RunKeepsOutcome(steps: seq<Step>, step: Step, item: Item, i: nat) returns (n: State)
    requires Disciplined(steps) && Honest(Run(steps), step) && i < |Run(steps).items| && HasOutcome(item)
    requires Run(steps).items[i].status == item.status && Shows(Run(steps).items[i]) == Shows(item)
    ensures n == Apply(Run(steps), step)
    ensures i < |n.items| && n.items[i].status == item.status && Shows(n.items[i]) == Shows(item)
  {
    var b := SteerAlways.RunBase(steps);
    var m := SteerSafety.RunKeeps(steps);
    n := OutcomeKept(m, step, i);
  }

  lemma {:induction false} OutcomeStays(before: seq<Step>, after: seq<Step>, item: Item, i: nat) returns (n: State)
    requires Disciplined(before + after) && i < |Run(before).items| && Run(before).items[i] == item && HasOutcome(item)
    ensures n == Run(before + after)
    ensures i < |n.items| && n.items[i].status == item.status && Shows(n.items[i]) == Shows(item)
    decreases |after|
  {
    if after == [] {
      assert before + after == before;
      n := Run(before);
    } else {
      var k := |after| - 1;
      PrefixDisciplined(before + after[..k], before + after);
      var m := OutcomeStays(before, after[..k], item, i);
      SteerRuns.RunSnoc(before, after, k);
      assert after[..k + 1] == after;
      HonestAt(before, after, k);
      n := RunKeepsOutcome(before + after[..k], after[k], item, i);
    }
  }

  lemma {:induction false} HonestAt(before: seq<Step>, after: seq<Step>, k: nat)
    requires Disciplined(before + after) && k < |after|
    ensures Honest(Run(before + after[..k]), after[k])
  {
    var steps := before + after;
    assert steps[..|before| + k] == before + after[..k] && steps[|before| + k] == after[k];
  }

  /** Delivered and not-applied are absorbing, with their evidence or cause, and an item never changes owner or
      content. */
  lemma {:induction false} OutcomesAreFinal(before: seq<Step>, after: seq<Step>, i: nat)
    requires Disciplined(before + after) && i < |Run(before).items|
    ensures i < |Run(before + after).items|
    ensures var a := Run(before).items[i];
            var b := Run(before + after).items[i];
            && b.turn == a.turn && b.id == a.id && b.content == a.content && b.steer == a.steer
            && (HasOutcome(a) ==> b.status == a.status && Shows(b) == Shows(a))
  {
    SteerRuns.ItemsKeepTheirInput(before, after, i);
    if HasOutcome(Run(before).items[i]) {
      var n := OutcomeStays(before, after, Run(before).items[i], i);
    }
  }

  // ------------------------------------------------------------------ reads

  /** Nothing of an input refused or taken back unread waits where the SDK can read it. */
  lemma {:induction false} UnhandedWaitsNowhere(s: State, q: nat, i: nat)
    requires Inv(s) && i < |s.items| && Readable(s, q)
    requires s.items[i].status == NotApplied(Refused) || s.items[i].status == NotApplied(Unread)
    ensures !Queued(s.queries[q].queue, i)
  {
    var queue := s.queries[q].queue;
    assert ItemOk(s.items[i], s.turns);
    assert ValuesOk(s.items, q, true, queue.values) && PendingOk(s.items, q, queue);
    forall k | 0 <= k < |queue.values|
      ensures queue.values[k].message.attempt != i
    {
      assert ValueOk(s.items, q, true, queue.values[k]);
    }
  }

  /** An input refused or taken back unread had no part read by the SDK, and never will, whatever follows. */
  lemma {:induction false} RefusedInputsAreNeverRead(before: seq<Step>, after: seq<Step>, i: nat)
    requires Disciplined(before) && i < |Run(before).items|
    requires Run(before).items[i].status == NotApplied(Refused) || Run(before).items[i].status == NotApplied(Unread)
    ensures i < |Run(before + after).items|
    ensures Run(before + after).items[i].given == 0
    ensures Disciplined(before + after) ==> Run(before + after).items[i].status == Run(before).items[i].status
  {
    var b := SteerAlways.RunBase(before);
    var s := SteerSafety.RunKeeps(before);
    assert ItemOk(s.items[i], s.turns);
    forall q | 0 <= q < |s.queries| && Readable(s, q)
      ensures !Queued(s.queries[q].queue, i)
    {
      UnhandedWaitsNowhere(s, q, i);
    }
    var r, n := SteerReads.RunLeaves(before, after, i);
    if Disciplined(before + after) {
      OutcomesAreFinal(before, after, i);
    }
  }

  // ------------------------------------------------------------------ evidence

  /** SDK evidence names the final UUID of the input, which its query was given. */
  lemma {:induction false} EvidenceGiven(s: State, step: Step, i: nat)
    requires Inv(s) && i < |s.items| && Names(s, step, i) && !step.FinHistory?
    ensures s.current == Some(step.query) && step.query < |s.queries| && Outstanding(s.items[i])
    ensures Whole(s.items[i].id) in s.queries[step.query].given
  {
    assert ItemOk(s.items[i], s.turns);
    var ids := Uuids(Messages(s.items[i], i));
    assert ids[s.items[i].parts - 1] == Whole(s.items[i].id);
    if step.ReplySeen? {
      Subsequences.Members(ids, step.consumed);
    }
  }

  lemma {:induction false} CrossedIdentity(s: State, q: nat, j: nat, u: Uuid)
    requires Crossed(s, q, j, u)
    ensures u.identity == s.items[j].id
  {
  }

  /** The live owner of an identity is the last item for which its UUIDs were read. */
  lemma {:induction false} OwnerIsLast(s: State, q: nat, i: nat, k: nat)
    requires Unique(s.items) && i < |s.items| && Live(s.items[i]) && k < s.items[i].parts
    requires s.items[i].turn < |s.turns| && s.turns[s.items[i].turn].query == Some(q)
    requires s.items[i].given == s.items[i].parts
    ensures LastToCross(s, q, i, Messages(s.items[i], i)[k].uuid)
  {
    var u := Messages(s.items[i], i)[k].uuid;
    forall j | i < j < |s.items|
      ensures !Crossed(s, q, j, u)
    {
      if Crossed(s, q, j, u) {
        CrossedIdentity(s, q, j, u);
      }
    }
  }

  lemma {:induction false} NamedAreParts(item: Item, i: nat, step: Step, u: Uuid) returns (k: nat)
    requires item.parts >= 1 && u in NamedUuids(item, i, step)
    ensures k < item.parts && Messages(item, i)[k].uuid == u
  {
    if step.EchoSeen? {
      k := item.parts - 1;
    } else {
      var l :| 0 <= l < item.parts && Uuids(Messages(item, i))[l] == u;
      k := l;
    }
  }

  lemma {:induction false} NamedHandedOver(s: State, step: Step, i: nat)
    requires Inv(s) && GivenBase(s) && i < |s.items| && Names(s, step, i) && !step.FinHistory?
    ensures HandedOver(s, step.query, NamedUuids(s.items[i], i, step), i)
  {
    var q, ids := step.query, NamedUuids(s.items[i], i, step);
    EvidenceGiven(s, step, i);
    SteerEvidence.EvidenceNamesAttempt(s, q, i);
    assert ItemOk(s.items[i], s.turns);
    forall u | u in ids
      ensures LastToCross(s, q, i, u)
    {
      var k := NamedAreParts(s.items[i], i, step, u);
      OwnerIsLast(s, q, i, k);
    }
    HandedIsLast(s, q, ids, i);
  }

  lemma {:induction false} EvidenceHandsOver(steps: seq<Step>, step: Step, i: nat)
    requires Disciplined(steps) && i < |Run(steps).items| && Names(Run(steps), step, i) && !step.FinHistory?
    ensures HandedOver(Run(steps), step.query, NamedUuids(Run(steps).items[i], i, step), i)
  {
    var b := RunHands(steps);
    var s := SteerSafety.RunKeeps(steps);
    NamedHandedOver(s, step, i);
  }

  /** The evidence of a delivered input is the history, or names UUIDs that were handed over for this very attempt,
      all of its parts. */
  lemma {:induction false} DeliveredWasHandedOver(steps: seq<Step>, i: nat) returns (k: nat)
    requires Disciplined(steps) && i < |Run(steps).items| && Run(steps).items[i].status.Delivered?
    ensures k < |steps| && i < |Run(steps[..k]).items| && Names(Run(steps[..k]), steps[k], i)
    ensures !steps[k].FinHistory? ==>
              HandedOver(Run(steps[..k]), steps[k].query, NamedUuids(Run(steps[..k]).items[i], i, steps[k]), i)
    ensures !Run(steps).items[i].status.via.History? ==> Run(steps).items[i].given == Run(steps).items[i].parts
  {
    k := SteerRuns.DeliveredHasEvidence(steps, i);
    PrefixDisciplined(steps[..k], steps);
    if !steps[k].FinHistory? {
      EvidenceHandsOver(steps[..k], steps[k], i);
    }
    var n := SteerSafety.RunKeeps(steps);
    assert ItemOk(n.items[i], n.turns);
  }

  /** A second item of an identity exists only when the first is no longer live, and repeats its content. */
  lemma {:induction false} OneLiveOwner(steps: seq<Step>, i: nat, j: nat)
    requires Disciplined(steps)
    requires i < j < |Run(steps).items| && Run(steps).items[i].id == Run(steps).items[j].id
    ensures !Live(Run(steps).items[i])
    ensures NeverDiffers(steps) && !Run(steps).items[i].status.Erased? && !Run(steps).items[j].status.Erased? ==>
              Run(steps).items[i].content == Run(steps).items[j].content
  {
    var s := SteerSafety.RunKeeps(steps);
    if NeverDiffers(steps) {
      SteerRuns.OneContentExactly(steps);
      assert steps[..|steps|] == steps;
      assert OneContent(Run(steps[..|steps|]).items);
    }
  }

  // ------------------------------------------------------------------ turn completion

  lemma {:induction false} EndedHome(s: State, t: nat, i: nat)
    requires Base(s) && Inv(s) && t < |s.turns| && s.turns[t].fin.Ended? && SteerOf(s.items, i, t)
    ensures !Waiting(s, i)
  {
    assert TurnOk(s.turns[t], s.queries);
    var q := s.turns[t].query.value;
    SteerSweep.WaitsAtHome(s, q, i);
    if Readable(s, q) && Queued(s.queries[q].queue, i) {
      SteerPulls.QueuedDrained(s.items, s.queries[q].queue, t, i);
      assert false;
    }
  }

  /** From its end on no steer of a turn waits where it can be read; unless the turn's queue is closed, the queue
      holds none of its steers, and all of them are settled or stopped. */
  lemma {:induction false} EndedTurnLeavesNoSteer(before: seq<Step>, after: seq<Step>, t: nat)
    requires Disciplined(before + after) && t < |Run(before).turns| && Run(before).turns[t].fin.Ended?
    ensures var n := Run(before + after);
            && t < |n.turns| && n.turns[t].query.Some? && n.turns[t].query.value < |n.queries|
            && (forall i :: SteerOf(n.items, i, t) ==> !Waiting(n, i))
            && var queue := n.queries[n.turns[t].query.value].queue;
               queue.closed || (Drained(n.items, queue, t) && Settled(n.items, t))
  {
    SteerRuns.TurnsCompleteOnce(before, after, t);
    var b := SteerAlways.RunBase(before + after);
    var n := SteerSafety.RunKeeps(before + after);
    assert TurnOk(n.turns[t], n.queries);
    forall i | SteerOf(n.items, i, t)
      ensures !Waiting(n, i)
    {
      EndedHome(n, t, i);
    }
  }

  /** A later turn never consumes a steer of an ended turn, whatever follows. */
  lemma {:induction false} EndedSteersAreNeverReadAgain(before: seq<Step>, after: seq<Step>, i: nat)
    requires Disciplined(before) && EndedSteer(Run(before), i)
    ensures i < |Run(before + after).items|
    ensures Run(before + after).items[i].given == Run(before).items[i].given
  {
    var b := SteerAlways.RunBase(before);
    var s := SteerSafety.RunKeeps(before);
    EndedHome(s, s.items[i].turn, i);
    var r, n := SteerReads.RunLeaves(before, after, i);
  }
}
