/** In every run of a Claude thread: a turn that has steers keeps its query until it ends. */
module SteerHosts {
  import opened Basics
  import opened SteerSession
  import opened SteerInvariant
  import opened SteerChange
  import SteerAlways
  import Q = InputQueues

  predicate Unended(turns: seq<Turn>, t: nat) {
    t < |turns| && !turns[t].fin.Ended?
  }

  /** The turn's query is serving it. */
  predicate Served(turns: seq<Turn>, queries: seq<Query>, t: nat) {
    && t < |turns| && turns[t].query.Some? && turns[t].query.value < |queries|
    && queries[turns[t].query.value].turn == Some(t)
  }

  predicate SameHome(turns: seq<Turn>, t: nat, u: nat) {
    t < |turns| && u < |turns| && turns[t].query.Some? && turns[u].query == turns[t].query
  }

  /** A steer's turn is served until it ends. */
  predicate SteersServed(s: State) {
    forall i :: 0 <= i < |s.items| && s.items[i].steer && Unended(s.turns, s.items[i].turn) ==>
      Served(s.turns, s.queries, s.items[i].turn)
  }

  /** Until then no item of another turn of the query follows the steer. */
  predicate SteersLast(items: seq<Item>, turns: seq<Turn>) {
    forall i, j :: 0 <= i < j < |items| && items[i].steer && Unended(turns, items[i].turn) ==>
      SameHome(turns, items[i].turn, items[j].turn) ==> items[j].turn == items[i].turn
  }

  predicate OwnsNoSteer(items: seq<Item>, turn: Option<nat>) {
    forall i :: 0 <= i < |items| && items[i].steer ==> turn != Some(items[i].turn)
  }

  /** A start that is being saved has a turn without steers, and so has a reserved query. */
  predicate StartsAlone(s: State) {
    && (s.op.SavingStart? && s.op.item < |s.items| ==> OwnsNoSteer(s.items, Some(s.items[s.op.item].turn)))
    && (forall q :: 0 <= q < |s.queries| && s.queries[q].reserving ==>
          && s.op.SavingStart? && s.op.item < |s.items| && s.items[s.op.item].turn < |s.turns|
          && s.turns[s.items[s.op.item].turn].query == Some(q)
          && OwnsNoSteer(s.items, s.queries[q].turn))
  }

  predicate HostBase(s: State) {
    SteersServed(s) && SteersLast(s.items, s.turns) && StartsAlone(s)
  }

  // ------------------------------------------------------------------ steps that hold the request in flight

  /** A query drops a turn only when the turn ends or was merely reserved, and takes a new turn only when free. */
  predicate Rehosts(s: State, n: State, q: nat)
    requires q < |s.queries| && q < |n.queries|
  {
    var a, b := s.queries[q], n.queries[q];
    && (b.reserving ==> a.reserving)
    && (|| b.turn == a.turn
        || (a.turn.None? && b.turn == Some(|s.turns|))
        || (b.turn.None? && a.reserving)
        || (b.turn.None? && a.turn.Some? && a.turn.value < |n.turns| && n.turns[a.turn.value].fin.Ended?))
  }

  /** Turns keep their queries. */
  predicate SameHomes(a: seq<Turn>, b: seq<Turn>) {
    |a| <= |b| && forall t :: 0 <= t < |a| ==> b[t].query == a[t].query
  }

  predicate SameGiven(a: seq<Query>, b: seq<Query>) {
    |a| <= |b| && forall q :: 0 <= q < |a| ==> b[q].given == a[q].given
  }

  predicate HostsHeld(s: State, n: State) {
    && n.op == s.op && |n.items| == |s.items| && |n.queries| == |s.queries| && SameHomes(s.turns, n.turns)
    && (forall q :: 0 <= q < |s.queries| ==> Rehosts(s, n, q))
  }

  predicate SameKinds(a: seq<Item>, b: seq<Item>) {
    |a| <= |b| && forall i :: 0 <= i < |a| ==> b[i].steer == a[i].steer && b[i].turn == a[i].turn
  }

  lemma {:induction false} KindsKept(s: State, n: State)
    requires Progress(s, n)
    ensures SameKinds(s.items, n.items)
  {
    assert forall i :: 0 <= i < |s.items| ==> ItemProgress(s.items[i], n.items[i]);
  }

  lemma {:induction false} UnendedBefore(s: State, n: State, t: nat)
    requires Progress(s, n) && t < |s.turns| && Unended(n.turns, t)
    ensures Unended(s.turns, t)
  {
    assert TurnProgress(s.turns[t], n.turns[t]);
  }

  lemma {:induction false} ServedKept(s: State, n: State)
    requires Base(s) && HostBase(s) && Progress(s, n) && HostsHeld(s, n)
    ensures SteersServed(n)
  {
    KindsKept(s, n);
    forall i | 0 <= i < |n.items| && n.items[i].steer && Unended(n.turns, n.items[i].turn)
      ensures Served(n.turns, n.queries, n.items[i].turn)
    {
      var t := s.items[i].turn;
      UnendedBefore(s, n, t);
      assert Served(s.turns, s.queries, t);
      assert Rehosts(s, n, s.turns[t].query.value);
    }
  }

  lemma {:induction false} LastKept(s: State, n: State)
    requires ItemsBase(s.items, s.turns) && SteersLast(s.items, s.turns) && Progress(s, n)
    requires |n.items| == |s.items| && SameHomes(s.turns, n.turns)
    ensures SteersLast(n.items, n.turns)
  {
    KindsKept(s, n);
    forall i, j | 0 <= i < j < |n.items| && n.items[i].steer && Unended(n.turns, n.items[i].turn)
                  && SameHome(n.turns, n.items[i].turn, n.items[j].turn)
      ensures n.items[j].turn == n.items[i].turn
    {
      UnendedBefore(s, n, s.items[i].turn);
      assert SameHome(s.turns, s.items[i].turn, s.items[j].turn);
    }
  }

  lemma {:induction false} AloneKept(s: State, n: State)
    requires ItemsBase(s.items, s.turns) && StartsAlone(s) && Progress(s, n) && HostsHeld(s, n)
    ensures StartsAlone(n)
  {
    KindsKept(s, n);
    forall q | 0 <= q < |n.queries| && n.queries[q].reserving
      ensures s.queries[q].reserving && OwnsNoSteer(n.items, n.queries[q].turn)
    {
      assert Rehosts(s, n, q);
    }
  }

  lemma {:induction false} HostsKept(s: State, n: State)
    requires Base(s) && HostBase(s) && Progress(s, n) && HostsHeld(s, n)
    ensures HostBase(n)
  {
    ServedKept(s, n);
    LastKept(s, n);
    AloneKept(s, n);
  }

  /** Queries keep their turns and what they were given. */
  predicate SameHosts(a: seq<Query>, b: seq<Query>) {
    && |b| == |a|
    && (forall q :: 0 <= q < |a| ==>
          b[q].turn == a[q].turn && b[q].reserving == a[q].reserving && b[q].given == a[q].given)
  }

  predicate Unhosted(s: State, n: State) {
    n.op == s.op && |n.items| == |s.items| && SameHomes(s.turns, n.turns) && SameHosts(s.queries, n.queries)
  }

  lemma {:induction false} UnhostedHolds(s: State, n: State)
    requires Unhosted(s, n)
    ensures HostsHeld(s, n) && SameGiven(s.queries, n.queries)
  {
    forall q | 0 <= q < |s.queries|
      ensures Rehosts(s, n, q)
    {
    }
  }

  lemma {:induction false} PulledHosts(s: State, q: nat)
    requires Base(s)
    ensures HostsHeld(s, ApplyPulled(s, q)) && ApplyPulled(s, q).turns == s.turns
  {
    var n := ApplyPulled(s, q);
    UnhostedHolds(s, s);
    if q < |s.queries| && s.queries[q].phase.Ready? {
      SteerAlways.PullItems(s, q);
      forall p | 0 <= p < |s.queries|
        ensures Rehosts(s, n, p)
      {
      }
    }
  }

  lemma {:induction false} EvidenceHosts(s: State, step: Step)
    requires step.EchoSeen? || step.ReceiptSeen?
    ensures Unhosted(s, Apply(s, step))
  {
  }

  lemma {:induction false} ReplyHosts(s: State, step: Step)
    requires step.ReplySeen? || step.ReceiptsComplete?
    ensures Unhosted(s, Apply(s, step))
  {
  }

  lemma {:induction false} CheckedHosts(s: State, t: nat, stalled: bool, prep: bool)
    ensures Unhosted(s, ApplyFinChecked(s, t, stalled, prep))
  {
  }

  lemma {:induction false} ExitedHosts(s: State, t: nat, prep: bool, closeFailed: bool)
    ensures Unhosted(s, ApplyFinExited(s, t, prep, closeFailed))
  {
  }

  lemma {:induction false} FinishHosts(s: State, q: nat)
    ensures Unhosted(s, ApplyFinishTurn(s, q))
  {
  }

  lemma {:induction false} HistoryHosts(s: State, t: nat, history: Option<NativeHistory>)
    ensures Unhosted(s, ApplyFinHistory(s, t, history))
  {
  }

  lemma {:induction false} EndedHosts(s: State, t: nat, failed: bool)
    ensures var n := ApplyFinEnded(s, t, failed); HostsHeld(s, n) && SameGiven(s.queries, n.queries)
  {
    UnhostedHolds(s, s);
  }

  lemma {:induction false} StopHosts(s: State)
    ensures HostsHeld(s, ApplyStop(s)) && SameGiven(s.queries, ApplyStop(s).queries)
  {
    UnhostedHolds(s, s);
  }

  lemma {:induction false} SyntheticHosts(s: State)
    ensures HostsHeld(s, ApplySynthetic(s)) && SameGiven(s.queries, ApplySynthetic(s).queries)
  {
    UnhostedHolds(s, s);
  }

  lemma {:induction false} PhaseHosts(s: State, step: Step)
    requires step.StopReceipt? || step.QueryReady? || step.QueryFailed?
    ensures Unhosted(s, Apply(s, step))
  {
  }

  lemma {:induction false} QueueHosts(s: State, step: Step)
    requires step.QueryDiscarded? || step.QueueClosed? || step.QueueWithdrawn?
    ensures Unhosted(s, Apply(s, step))
  {
  }

  lemma {:induction false} ShutdownHosts(s: State)
    ensures Unhosted(s, ApplyShutdown(s))
  {
  }

  lemma {:induction false} FinalHosts(s: State, step: Step)
    requires FinalStep(step) && !step.FinEnded?
    ensures Unhosted(s, Apply(s, step))
  {
    match step
    case FinishTurn(q) => FinishHosts(s, q);
    case FinChecked(t, stalled, prep) => CheckedHosts(s, t, stalled, prep);
    case FinExited(t, prep, closeFailed) => ExitedHosts(s, t, prep, closeFailed);
    case FinHistory(t, history) => HistoryHosts(s, t, history);
  }

  lemma {:induction false} OtherHosts(s: State, step: Step)
    requires !RequestStep(step) && !step.Pulled? && !step.FinEnded? && !step.Stop? && !step.SyntheticTurn?
    ensures Unhosted(s, Apply(s, step))
  {
    if step.EchoSeen? || step.ReceiptSeen? {
      EvidenceHosts(s, step);
    } else if step.ReplySeen? || step.ReceiptsComplete? {
      ReplyHosts(s, step);
    } else if FinalStep(step) {
      FinalHosts(s, step);
    } else if step.StopReceipt? || step.QueryReady? || step.QueryFailed? {
      PhaseHosts(s, step);
    } else if step.Shutdown? {
      ShutdownHosts(s);
    } else {
      QueueHosts(s, step);
    }
  }

  lemma {:induction false} EventHosts(s: State, step: Step)
    requires !RequestStep(step) && !step.Pulled?
    ensures HostsHeld(s, Apply(s, step)) && SameGiven(s.queries, Apply(s, step).queries)
  {
    if step.FinEnded? {
      EndedHosts(s, step.turn, step.failed);
    } else if step.Stop? {
      StopHosts(s);
    } else if step.SyntheticTurn? {
      SyntheticHosts(s);
    } else {
      OtherHosts(s, step);
      UnhostedHolds(s, Apply(s, step));
    }
  }

  // ------------------------------------------------------------------ the serialized requests

  /** The request moves on without a new item, and saves no start. */
  lemma {:induction false} RequestMoves(s: State, n: State)
    requires Base(s) && HostBase(s) && Progress(s, n) && |n.items| == |s.items| && n.turns == s.turns
    requires |n.queries| == |s.queries| && !s.op.SavingStart?  && !n.op.SavingStart?
    requires forall q :: 0 <= q < |s.queries| ==>
               n.queries[q].turn == s.queries[q].turn && n.queries[q].reserving == s.queries[q].reserving
    ensures HostBase(n)
  {
    KindsKept(s, n);
    LastKept(s, n);
    assert forall t :: Served(s.turns, s.queries, t) ==> Served(n.turns, n.queries, t);
  }

  lemma {:induction false} WaitHosts(s: State, step: Step)
    requires Base(s) && HostBase(s) && (step.StartRequest? || step.SteerRequest? || step.EndAwaited?)
    ensures HostBase(Apply(s, step))
  {
    var n := Apply(s, step);
    if n.op == s.op {
      assert n == s;
    } else {
      SteerAlways.SameProgress(s, n);
      RequestMoves(s, n);
    }
  }

  /** A new steer joins the turn that its query is serving. */
  lemma {:induction false} SteerJoins(s: State, n: State, item: Item)
    requires Base(s) && HostBase(s) && !s.op.SavingStart? && item.steer && Served(s.turns, s.queries, item.turn)
    requires n == s.(items := s.items + [item], op := n.op) && !n.op.SavingStart?
    ensures HostBase(n)
  {
    forall i, j | 0 <= i < j < |n.items| && n.items[i].steer && Unended(n.turns, n.items[i].turn)
                  && SameHome(n.turns, n.items[i].turn, n.items[j].turn)
      ensures n.items[j].turn == n.items[i].turn
    {
      assert Served(s.turns, s.queries, s.items[i].turn);
    }
  }

  lemma {:induction false} ConvertedHosts(s: State, ok: bool, parts: nat)
    requires Base(s) && HostBase(s)
    ensures HostBase(ApplySteerConverted(s, ok, parts))
  {
    var n := ApplySteerConverted(s, ok, parts);
    if |n.items| > |s.items| {
      SteerJoins(s, n, n.items[|s.items|]);
    } else if n != s {
      SteerAlways.SameProgress(s, n);
      RequestMoves(s, n);
    }
  }

  lemma {:induction false} SteerSavedHosts(s: State, ok: bool)
    requires Base(s) && HostBase(s)
    ensures HostBase(ApplySteerSaved(s, ok)) && SameGiven(s.queries, ApplySteerSaved(s, ok).queries)
  {
    var n := ApplySteerSaved(s, ok);
    if n.op != s.op {
      SteerAlways.SavedProgress(s, ok);
      RequestMoves(s, n);
    } else {
      assert n == s;
    }
  }

  /** A start opens a turn on no query, or on a free one. */
  lemma {:induction false} StartOpens(s: State, n: State, item: Item, turn: Turn)
    requires Base(s) && HostBase(s) && !s.op.SavingStart? && !item.steer && item.turn == |s.turns|
    requires n.items == s.items + [item] && n.turns == s.turns + [turn] && n.op == SavingStart(|s.items|)
    requires |n.queries| == |s.queries|
    requires turn.query.None? ==> n.queries == s.queries
    requires turn.query.Some? ==>
               && turn.query.value < |s.queries| && s.queries[turn.query.value].turn.None?
               && n.queries[turn.query.value].turn == Some(|s.turns|)
               && (forall p :: 0 <= p < |s.queries| && p != turn.query.value ==> n.queries[p] == s.queries[p])
    ensures HostBase(n)
  {
    forall i | 0 <= i < |n.items| && n.items[i].steer && Unended(n.turns, n.items[i].turn)
      ensures Served(n.turns, n.queries, n.items[i].turn)
    {
      assert Served(s.turns, s.queries, s.items[i].turn);
    }
    forall i, j | 0 <= i < j < |n.items| && n.items[i].steer && Unended(n.turns, n.items[i].turn)
                  && SameHome(n.turns, n.items[i].turn, n.items[j].turn)
      ensures n.items[j].turn == n.items[i].turn
    {
      assert Served(s.turns, s.queries, s.items[i].turn);
      assert j < |s.items| ==> SameHome(s.turns, s.items[i].turn, s.items[j].turn);
    }
  }

  lemma {:induction false} PreparedHosts(s: State, ok: bool, parts: nat)
    requires Base(s) && HostBase(s)
    ensures HostBase(ApplyStartPrepared(s, ok, parts))
  {
    var n := ApplyStartPrepared(s, ok, parts);
    if |n.items| > |s.items| {
      StartOpens(s, n, n.items[|s.items|], n.turns[|s.turns|]);
    } else if n != s {
      SteerAlways.SameProgress(s, n);
      RequestMoves(s, n);
    }
  }

  lemma {:induction false} LaunchHosts(s: State, i: nat)
    requires Base(s) && HostBase(s) && s.op == SavingStart(i) && i < |s.items| && s.items[i].turn < |s.turns|
    requires s.items[i].parts >= 1 && s.turns[s.items[i].turn].query.None?
    ensures HostBase(LaunchQuery(s, i)) && SameGiven(s.queries, LaunchQuery(s, i).queries)
  {
    var n, t := LaunchQuery(s, i), s.items[i].turn;
    assert SameKinds(s.items, n.items);
    assert forall u :: 0 <= u < |s.turns| && u != t ==> n.turns[u] == s.turns[u];
    forall j | 0 <= j < |n.items| && n.items[j].steer && Unended(n.turns, n.items[j].turn)
      ensures Served(n.turns, n.queries, n.items[j].turn)
    {
      assert Served(s.turns, s.queries, s.items[j].turn);
    }
    forall j, k | 0 <= j < k < |n.items| && n.items[j].steer && Unended(n.turns, n.items[j].turn)
                  && SameHome(n.turns, n.items[j].turn, n.items[k].turn)
      ensures n.items[k].turn == n.items[j].turn
    {
      assert Served(s.turns, s.queries, s.items[j].turn);
      assert SameHome(s.turns, s.items[j].turn, s.items[k].turn);
    }
  }

  /** What settling a start leaves of the hosts: its query keeps the turn, or drops it when the save failed. */
  predicate Settles(s: State, n: State, t: nat, q: nat) {
    && SameKinds(s.items, n.items) && |n.items| == |s.items| && n.turns == s.turns && |n.queries| == |s.queries|
    && q < |s.queries| && n.op.Idle? && !n.queries[q].reserving
    && (n.queries[q].turn == s.queries[q].turn || s.queries[q].turn == Some(t))
    && (forall p :: 0 <= p < |s.queries| && p != q ==> n.queries[p] == s.queries[p])
  }

  lemma {:induction false} SettledHosts(s: State, n: State, i: nat, q: nat)
    requires HostBase(s) && s.op == SavingStart(i) && i < |s.items| && s.items[i].turn < |s.turns|
    requires s.turns[s.items[i].turn].query == Some(q) && Settles(s, n, s.items[i].turn, q)
    ensures HostBase(n)
  {
    forall j | 0 <= j < |n.items| && n.items[j].steer && Unended(n.turns, n.items[j].turn)
      ensures Served(n.turns, n.queries, n.items[j].turn)
    {
      assert Served(s.turns, s.queries, s.items[j].turn);
    }
    assert forall j, k :: 0 <= j < k < |n.items| && SameHome(n.turns, n.items[j].turn, n.items[k].turn) ==>
        SameHome(s.turns, s.items[j].turn, s.items[k].turn);
  }

  lemma {:induction false} ReservationHosts(s: State, i: nat, q: nat, ok: bool)
    requires HostBase(s) && s.op == SavingStart(i) && i < |s.items| && q < |s.queries|
    requires s.items[i].parts >= 1 && s.items[i].turn < |s.turns| && s.turns[s.items[i].turn].query == Some(q)
    ensures HostBase(FinishReservation(s, i, q, ok)) && SameGiven(s.queries, FinishReservation(s, i, q, ok).queries)
  {
    SettledHosts(s, FinishReservation(s, i, q, ok), i, q);
  }

  lemma {:induction false} DroppedHosts(s: State, n: State, i: nat)
    requires Base(s) && HostBase(s) && s.op == SavingStart(i) && i < |s.items| && s.items[i].turn < |s.turns|
    requires s.turns[s.items[i].turn].query.None?
    requires n == s.(items := s.items[i := s.items[i].(status := Erased)], op := Idle)
    ensures HostBase(n)
  {
    assert SameKinds(s.items, n.items);
    assert forall j, k :: 0 <= j < k < |n.items| && SameHome(n.turns, n.items[j].turn, n.items[k].turn) ==>
        SameHome(s.turns, s.items[j].turn, s.items[k].turn);
  }

  lemma {:induction false} StartSavedHosts(s: State, ok: bool)
    requires Base(s) && HostBase(s)
    ensures HostBase(ApplyStartSaved(s, ok)) && SameGiven(s.queries, ApplyStartSaved(s, ok).queries)
  {
    if s.op.SavingStart? && s.op.item < |s.items| && s.items[s.op.item].turn < |s.turns|
       && s.items[s.op.item].parts > 0 {
      var i := s.op.item;
      match s.turns[s.items[i].turn].query
      case None => if ok { LaunchHosts(s, i); } else { DroppedHosts(s, ApplyStartSaved(s, ok), i); }
      case Some(q) => if q < |s.queries| { ReservationHosts(s, i, q, ok); }
    }
  }

  lemma {:induction false} RequestHosts(s: State, step: Step)
    requires Base(s) && HostBase(s) && RequestStep(step)
    ensures HostBase(Apply(s, step))
  {
    match step
    case SteerConverted(ok, parts) => ConvertedHosts(s, ok, parts);
    case SteerSaved(ok) => SteerSavedHosts(s, ok);
    case StartPrepared(ok, parts) => PreparedHosts(s, ok, parts);
    case StartSaved(ok) => StartSavedHosts(s, ok);
    case _ => WaitHosts(s, step);
  }

  /** Every step keeps the hosts of steers. */
  lemma {:induction false} StepHosts(s: State, step: Step) returns (n: State)
    requires Base(s) && HostBase(s)
    ensures n == Apply(s, step)
    ensures Base(n)
    ensures HostBase(n)
  {
    n := SteerAlways.StepBase(s, step);
    if RequestStep(step) {
      RequestHosts(s, step);
    } else if step.Pulled? {
      PulledHosts(s, step.query);
      HostsKept(s, n);
    } else {
      EventHosts(s, step);
      HostsKept(s, n);
    }
  }
}
