/** What holds in every run of a Claude thread, also when a caller reuses a live identity. */
module SteerAlways {
  import opened Basics
  import opened InputMessages
  import opened SteerSession
  import opened SteerInvariant
  import opened SteerChange
  import Q = InputQueues
  import O = HistoryOutcome

  // ------------------------------------------------------------------ progress of each step

  lemma {:induction false} ConvertedProgress(s: State, ok: bool, parts: nat)
    ensures var n := ApplySteerConverted(s, ok, parts); Quietly(s, n)
  {
  }

  /** Saving gives the item of the request its first status. */
  lemma {:induction false} FirstStatus(s: State, n: State, i: nat, item: Item)
    requires i < |s.items| && n.turns == s.turns && n.items == s.items[i := item]
    requires item == s.items[i].(status := item.status, stop := item.stop) && !s.items[i].status.Erased?
    requires item.status.Submitted? || item.status.Erased? || item.status == NotApplied(Refused)
    requires item.status.Submitted? && item.steer ==> StillRunning(s.turns, item.turn)
    ensures Silently(s, n)
    ensures !HasOutcome(s.items[i]) ==> Keeps(s, n)
  {
  }

  lemma {:induction false} SavedProgress(s: State, ok: bool)
    requires OpBase(s)
    ensures Silently(s, ApplySteerSaved(s, ok))
  {
    Unchanged(s);
    if s.op.SavingSteer? && s.op.item < |s.items| && s.items[s.op.item].parts > 0 {
      var n := ApplySteerSaved(s, ok);
      FirstStatus(s, n, s.op.item, n.items[s.op.item]);
    }
  }

  lemma {:induction false} StartPreparedProgress(s: State, ok: bool, parts: nat)
    ensures Quietly(s, ApplyStartPrepared(s, ok, parts))
  {
  }

  lemma {:induction false} LaunchProgress(s: State, i: nat)
    requires i < |s.items| && s.items[i].turn < |s.turns| && s.items[i].parts >= 1 && s.items[i].status.Preparing?
    requires !s.items[i].steer && s.turns[s.items[i].turn].query.None?
    ensures Quietly(s, LaunchQuery(s, i))
  {
  }

  lemma {:induction false} ReservationProgress(s: State, i: nat, q: nat, ok: bool)
    requires i < |s.items| && q < |s.queries| && s.items[i].parts >= 1
    requires s.items[i].status.Preparing? && !s.items[i].steer
    ensures Quietly(s, FinishReservation(s, i, q, ok))
  {
    var n := FinishReservation(s, i, q, ok);
    FirstStatus(s, n, i, n.items[i]);
  }

  lemma {:induction false} StartSavedProgress(s: State, ok: bool)
    requires OpBase(s)
    ensures Quietly(s, ApplyStartSaved(s, ok))
  {
    if s.op.SavingStart? && s.op.item < |s.items| && s.items[s.op.item].turn < |s.turns|
       && s.items[s.op.item].parts > 0 {
      match s.turns[s.items[s.op.item].turn].query
      case None => if ok { LaunchProgress(s, s.op.item); }
      case Some(q) => if q < |s.queries| { ReservationProgress(s, s.op.item, q, ok); }
    }
  }

  lemma {:induction false} PullProgress(s: State, q: nat)
    ensures var n := ApplyPulled(s, q);
            Progress(s, n) && NoDelivery(s, n) && NoAbsence(s, n) && SubmitsRunning(s, n) && Keeps(s, n)
  {
    var n := ApplyPulled(s, q);
    if q < |s.queries| && s.queries[q].phase.Ready? {
      var pulled := Q.Pull(s.queries[q].queue).1;
      if pulled.Yield? && pulled.message.attempt < |s.items| {
        var a := pulled.message.attempt;
        assert n.items == s.items[a := s.items[a].(given := s.items[a].given + 1)];
      } else {
        assert n.items == s.items;
      }
      assert n.turns == s.turns;
    }
  }

  lemma {:induction false} DeliverProgress(s: State, i: nat, via: Evidence)
    requires i < |s.items| && Outstanding(s.items[i])
    ensures Delivers(s, Deliver(s, i, via))
  {
  }

  lemma {:induction false} Unchanged(s: State)
    ensures Quietly(s, s)
  {
  }

  lemma {:induction false} EchoProgress(s: State, q: nat, id: string, since: nat)
    ensures Delivers(s, ApplyEcho(s, q, id, since))
  {
    Unchanged(s);
    if Listening(s, q) && Whole(id) in s.queries[q].given && EchoedItem(s, q, id, since) < |s.items| {
      DeliverProgress(s, EchoedItem(s, q, id, since), Echo);
    }
  }

  lemma {:induction false} ReplyProgress(s: State, q: nat, i: nat, consumed: seq<Uuid>)
    ensures Delivers(s, ApplyReply(s, q, i, consumed)) && Delivers(s, ApplyReceipts(s, q, i))
  {
    Unchanged(s);
    if i < |s.items| && Outstanding(s.items[i]) {
      DeliverProgress(s, i, Reply);
      DeliverProgress(s, i, Receipt);
    }
  }

  /** The finalizer's loop only takes back submitted steers. */
  lemma {:induction false} WithdrawTakesBack(items: seq<Item>, values: seq<Q.Value>, t: nat, i: nat)
    requires i <= |items|
    ensures TakenBack(items, WithdrawFrom(items, values, t, i).0, t)
    decreases |items| - i
  {
    if i < |items| {
      var at := Q.FindIdentity(values, items[i].id);
      if items[i].turn == t && Outstanding(items[i]) && at < |values| {
        var next := items[i := items[i].(status := NotApplied(Unread))];
        WithdrawTakesBack(next, values[..at] + values[at + 1..], t, i + 1);
      } else {
        WithdrawTakesBack(items, values, t, i + 1);
      }
    }
  }

  lemma {:induction false} SweepProgress(s: State, t: nat, q: nat, prep: bool)
    requires Finalizing(s, t) && s.turns[t].query == Some(q)
    ensures var w := WithdrawSteers(MarkUnreadStart(s, t, prep), t, q);
            TakenBack(s.items, w.items, t) && w.turns == s.turns && w.op == s.op
  {
    var m := MarkUnreadStart(s, t, prep);
    WithdrawTakesBack(m.items, m.queries[q].queue.values, t, 0);
    assert forall i :: 0 <= i < |s.items| && m.items[i] != s.items[i] ==>
        s.items[i].turn == t && m.items[i] == s.items[i].(status := NotApplied(Unread));
  }

  lemma {:induction false} TakenBackProgress(s: State, n: State, t: nat)
    requires TakenBack(s.items, n.items, t) && TurnsProgress(s.turns, n.turns)
    ensures Quietly(s, n)
  {
  }

  lemma {:induction false} CheckedProgress(s: State, t: nat, stalled: bool, prep: bool)
    ensures Quietly(s, ApplyFinChecked(s, t, stalled, prep))
  {
    Unchanged(s);
    if Finalizing(s, t) && s.turns[t].fin.Begun? {
      SweepProgress(s, t, s.turns[t].query.value, prep);
      TakenBackProgress(s, ApplyFinChecked(s, t, stalled, prep), t);
    }
  }

  lemma {:induction false} ExitedProgress(s: State, t: nat, prep: bool, closeFailed: bool)
    ensures Quietly(s, ApplyFinExited(s, t, prep, closeFailed))
  {
    Unchanged(s);
    if Finalizing(s, t) && s.turns[t].fin.Exiting? {
      SweepProgress(s, t, s.turns[t].query.value, prep);
      TakenBackProgress(s, ApplyFinExited(s, t, prep, closeFailed), t);
    }
  }

  lemma {:induction false} JudgedProgress(item: Item, verdict: O.Outcome)
    ensures var r := Judged(item, verdict);
            && r == item.(status := r.status, stop := r.stop)
            && (r != item ==> r.status == Delivered(History) || r.status == NotApplied(Absent))
  {
  }

  lemma {:induction false} JudgeProgress(s: State, n: State, t: nat, history: Option<NativeHistory>)
    requires ReadingBase(s.items, s.turns) && t < |s.turns| && s.turns[t].fin.Reading?
    requires n.items == Judge(s.items, t, s.turns[t].fin.open, history)
    ensures ItemsProgress(s.items, n.items, s.turns) && SameReads(s, n) && SubmitsRunning(s, n)
  {
    forall i | 0 <= i < |s.items|
      ensures ItemProgress(s.items[i], n.items[i]) && n.items[i].given == s.items[i].given
      ensures n.items[i] != s.items[i] ==> !n.items[i].status.Submitted?
    {
      JudgedProgress(s.items[i], HistoryVerdict(s.items, t, i, history));
    }
  }

  lemma {:induction false} HistoryProgress(s: State, t: nat, history: Option<NativeHistory>)
    requires ReadingBase(s.items, s.turns)
    ensures var n := ApplyFinHistory(s, t, history); Progress(s, n) && SameReads(s, n) && SubmitsRunning(s, n)
  {
    Unchanged(s);
    if Finalizing(s, t) && s.turns[t].fin.Reading? {
      JudgeProgress(s, ApplyFinHistory(s, t, history), t, history);
    }
  }

  lemma {:induction false} FinishProgress(s: State, q: nat)
    ensures Quietly(s, ApplyFinishTurn(s, q))
  {
  }

  lemma {:induction false} EndProgress(s: State, t: nat, failed: bool)
    ensures Quietly(s, ApplyFinEnded(s, t, failed))
  {
  }

  lemma {:induction false} StopProgress(s: State)
    ensures Silently(s, ApplyStop(s))
  {
  }

  lemma {:induction false} StopReceiptProgress(s: State, i: nat, cancelled: bool)
    ensures var n := ApplyStopReceipt(s, i, cancelled);
            Progress(s, n) && SameReads(s, n) && NoDelivery(s, n) && NoAbsence(s, n)
  {
  }

  lemma {:induction false} SyntheticProgress(s: State)
    ensures Quietly(s, ApplySynthetic(s)) && Quietly(s, ApplyShutdown(s))
  {
  }

  lemma {:induction false} SameProgress(s: State, n: State)
    requires n.items == s.items && n.turns == s.turns
    ensures Quietly(s, n)
  {
  }

  // ------------------------------------------------------------------ every step keeps the base invariant

  lemma {:induction false} ItemsKept(s: State, n: State)
    requires ItemsBase(s.items, s.turns) && Progress(s, n) && |n.items| == |s.items|
    ensures ItemsBase(n.items, n.turns)
  {
    forall i | 0 <= i < |n.items|
      ensures n.items[i].turn < |n.turns|
    {
      assert ItemProgress(s.items[i], n.items[i]);
    }
  }

  lemma {:induction false} OnceKept(s: State, n: State)
    requires OncePerTurn(s.items) && Progress(s, n) && |n.items| == |s.items|
    ensures OncePerTurn(n.items)
  {
    forall i, j | 0 <= i < j < |n.items| && n.items[i].id == n.items[j].id && n.items[i].turn == n.items[j].turn
      ensures n.items[i].status.Erased? || n.items[j].status.Erased?
    {
      assert ItemProgress(s.items[i], n.items[i]);
      assert ItemProgress(s.items[j], n.items[j]);
    }
  }

  lemma {:induction false} NotInTurnKept(s: State, n: State, id: string, t: nat)
    requires Progress(s, n) && |n.items| == |s.items| && !InTurn(s.items, id, t)
    ensures !InTurn(n.items, id, t)
  {
    forall i | 0 <= i < |n.items|
      ensures !(n.items[i].id == id && n.items[i].turn == t && !n.items[i].status.Erased?)
    {
      assert ItemProgress(s.items[i], n.items[i]);
    }
  }

  lemma {:induction false} UnqueuedKept(a: seq<Query>, b: seq<Query>, i: nat)
    requires NarrowsAll(a, b) && forall q :: 0 <= q < |a| ==> !Queued(a[q].queue, i)
    ensures forall q :: 0 <= q < |b| ==> !Queued(b[q].queue, i)
  {
    forall q | 0 <= q < |b|
      ensures !Queued(b[q].queue, i)
    {
      StillUnqueued(a[q].queue, b[q].queue, i);
    }
  }

  lemma {:induction false} StillUnqueued(a: Q.Queue, b: Q.Queue, i: nat)
    requires Narrows(a, b) && !Queued(a, i)
    ensures !Queued(b, i)
  {
    forall k | 0 <= k < |b.values|
      ensures b.values[k].message.attempt != i
    {
      assert b.values[k] in a.values;
    }
  }

  lemma {:induction false} OpKept(s: State, n: State)
    requires ItemsBase(s.items, s.turns) && OpBase(s) && Progress(s, n) && Held(s, n)
    requires s.op.SavingSteer? || s.op.SavingStart? ==>
               && n.items[s.op.item].given == s.items[s.op.item].given
               && forall q :: 0 <= q < |n.queries| ==> !Queued(n.queries[q].queue, s.op.item)
    ensures OpBase(n)
  {
    match s.op
    case Converting(id, content, t, start) => NotInTurnKept(s, n, id, t);
    case SavingSteer(i, start) =>
      assert ItemProgress(s.items[i], n.items[i]);
      assert Spared(s.items[i], n.items[i], StillRunning(s.turns, s.items[i].turn));
      assert s.items[i].turn < |s.turns| ==> TurnProgress(s.turns[s.items[i].turn], n.turns[s.items[i].turn]);
    case SavingStart(i) => assert ItemProgress(s.items[i], n.items[i]);
    case _ =>
  }

  /** No item that waits in a queue is erased. */
  predicate ErasesUnqueued(s: State, n: State) {
    |s.items| <= |n.items| &&
    forall i, q :: 0 <= i < |s.items| && 0 <= q < |s.queries| && Queued(s.queries[q].queue, i) ==>
      n.items[i].status.Erased? ==> s.items[i].status.Erased?
  }

  lemma {:induction false} OwnedKept(s: State, n: State, q: nat, m: Message)
    requires Progress(s, n) && Owned(s.items, s.turns, q, m)
    requires n.items[m.attempt].status.Erased? ==> s.items[m.attempt].status.Erased?
    ensures Owned(n.items, n.turns, q, m)
  {
    assert ItemProgress(s.items[m.attempt], n.items[m.attempt]);
    assert TurnProgress(s.turns[s.items[m.attempt].turn], n.turns[s.items[m.attempt].turn]);
  }

  lemma {:induction false} QueueKept(s: State, n: State, q: nat, a: Q.Queue, b: Q.Queue)
    requires Progress(s, n) && QueueBase(s.items, s.turns, q, a) && Narrows(a, b)
    requires forall i :: 0 <= i < |s.items| && Queued(a, i) ==> n.items[i].status.Erased? ==> s.items[i].status.Erased?
    ensures QueueBase(n.items, n.turns, q, b)
  {
    forall v | v in b.values
      ensures ValueBase(n.items, n.turns, q, v)
    {
      var k :| 0 <= k < |a.values| && a.values[k] == v;
      assert ValueBase(s.items, s.turns, q, v) && Queued(a, v.message.attempt);
      OwnedKept(s, n, q, v.message);
    }
    forall m | m in b.pending
      ensures Owned(n.items, n.turns, q, m)
    {
      var k :| 0 <= k < |a.pending| && a.pending[k] == m;
      assert Queued(a, m.attempt);
      OwnedKept(s, n, q, m);
    }
  }

  lemma {:induction false} QueuesKept(s: State, n: State)
    requires Progress(s, n) && QueuesBase(s.items, s.turns, s.queries) && NarrowsAll(s.queries, n.queries)
    requires ErasesUnqueued(s, n)
    ensures QueuesBase(n.items, n.turns, n.queries)
  {
    forall q | 0 <= q < |n.queries|
      ensures QueueBase(n.items, n.turns, q, n.queries[q].queue)
    {
      QueueKept(s, n, q, s.queries[q].queue, n.queries[q].queue);
    }
  }

  lemma {:induction false} SettlingKeeps(s: State, n: State)
    requires Base(s) && Progress(s, n) && SameReads(s, n) && Settling(s, n)
    ensures Base(n)
  {
    ItemsKept(s, n);
    OnceKept(s, n);
    if s.op.SavingSteer? || s.op.SavingStart? {
      UnqueuedKept(s.queries, n.queries, s.op.item);
    }
    OpKept(s, n);
    QueuesKept(s, n);
  }

  lemma {:induction false} NarrowSelf(queries: seq<Query>)
    ensures NarrowsAll(queries, queries)
  {
  }

  lemma {:induction false} NarrowOne(queries: seq<Query>, q: nat, query: Query)
    requires q < |queries| && QueryNarrows(queries[q], query)
    ensures NarrowsAll(queries, queries[q := query])
  {
  }

  lemma {:induction false} RemovedNarrows(values: seq<Q.Value>, at: nat)
    requires at < |values|
    ensures var rest := values[..at] + values[at + 1..];
            (forall v <- rest :: v in values) && (Rising(values) ==> Rising(rest))
  {
    var rest := values[..at] + values[at + 1..];
    assert forall k :: 0 <= k < |rest| ==> rest[k] == values[if k < at then k else k + 1];
  }

  lemma {:induction false} WithdrawNarrows(items: seq<Item>, values: seq<Q.Value>, t: nat, i: nat)
    requires i <= |items|
    ensures var rest := WithdrawFrom(items, values, t, i).1;
            (forall v <- rest :: v in values) && (Rising(values) ==> Rising(rest))
    decreases |items| - i
  {
    if i < |items| {
      var at := Q.FindIdentity(values, items[i].id);
      if items[i].turn == t && Outstanding(items[i]) && at < |values| {
        RemovedNarrows(values, at);
        WithdrawNarrows(items[i := items[i].(status := NotApplied(Unread))], values[..at] + values[at + 1..], t, i + 1);
      } else {
        WithdrawNarrows(items, values, t, i + 1);
      }
    }
  }

  lemma {:induction false} DeliverSettles(s: State, i: nat, via: Evidence)
    requires Base(s) && i < |s.items| && Outstanding(s.items[i])
    ensures Settling(s, Deliver(s, i, via))
  {
    NarrowSelf(s.queries);
  }

  lemma {:induction false} SameSettles(s: State)
    requires Base(s)
    ensures Settling(s, s)
  {
    NarrowSelf(s.queries);
  }

  lemma {:induction false} EchoSettles(s: State, q: nat, id: string, since: nat)
    requires Base(s)
    ensures Settling(s, ApplyEcho(s, q, id, since))
  {
    SameSettles(s);
    if Listening(s, q) && Whole(id) in s.queries[q].given && EchoedItem(s, q, id, since) < |s.items| {
      DeliverSettles(s, EchoedItem(s, q, id, since), Echo);
    }
  }

  lemma {:induction false} ReplySettles(s: State, q: nat, i: nat, consumed: seq<Uuid>)
    requires Base(s)
    ensures Settling(s, ApplyReply(s, q, i, consumed)) && Settling(s, ApplyReceipts(s, q, i))
  {
    SameSettles(s);
    if i < |s.items| && Outstanding(s.items[i]) {
      DeliverSettles(s, i, Reply);
      DeliverSettles(s, i, Receipt);
    }
  }

  /** Only queries change, and nothing enters a queue. */
  lemma {:induction false} QueriesSettle(s: State, n: State)
    requires Base(s) && n.items == s.items && n.turns == s.turns && n.op == s.op && NarrowsAll(s.queries, n.queries)
    ensures Settling(s, n)
  {
  }

  lemma {:induction false} ReceiptSettles(s: State, q: nat, uuids: set<Uuid>)
    requires Base(s)
    ensures Settling(s, ApplyReceipt(s, q, uuids))
  {
    SameSettles(s);
    if q < |s.queries| {
      NarrowOne(s.queries, q, s.queries[q].(receipts := s.queries[q].receipts + uuids));
    }
  }

  /** A turn moves to a later stage, and is not asking the history afterwards. */
  lemma {:induction false} StageSettles(s: State, n: State, t: nat, turn: Turn)
    requires Base(s) && t < |s.turns| && n.items == s.items && n.turns == s.turns[t := turn] && n.op == s.op
    requires NarrowsAll(s.queries, n.queries) && !turn.fin.Reading?
    requires turn.completions == if turn.fin.Ended? then 1 else 0
    ensures Settling(s, n)
  {
  }

  lemma {:induction false} FinishSettles(s: State, q: nat)
    requires Base(s)
    ensures Settling(s, ApplyFinishTurn(s, q))
  {
    SameSettles(s);
    if q < |s.queries| && s.queries[q].turn.Some? && s.queries[q].turn.value < |s.turns| {
      var t := s.queries[q].turn.value;
      if s.turns[t].fin.Running? && !s.closing {
        NarrowSelf(s.queries);
        StageSettles(s, ApplyFinishTurn(s, q), t, s.turns[t].(fin := Begun));
      }
    }
  }

  /** The sweep of a turn whose finalizer is not reading the history. */
  lemma {:induction false} TakenBackReading(a: seq<Item>, b: seq<Item>, turns: seq<Turn>, t: nat)
    requires ReadingBase(a, turns) && TakenBack(a, b, t) && (t < |turns| ==> !turns[t].fin.Reading?)
    ensures ReadingBase(b, turns)
  {
  }

  lemma {:induction false} SweepSettles(s: State, t: nat, q: nat, prep: bool)
    requires Base(s) && Finalizing(s, t) && s.turns[t].query == Some(q) && !s.turns[t].fin.Reading?
    ensures Settling(s, WithdrawSteers(MarkUnreadStart(s, t, prep), t, q))
  {
    SweepProgress(s, t, q, prep);
    var m := MarkUnreadStart(s, t, prep);
    var w := WithdrawSteers(m, t, q);
    TakenBackReading(s.items, w.items, s.turns, t);
    WithdrawNarrows(m.items, m.queries[q].queue.values, t, 0);
    NarrowOne(s.queries, q, w.queries[q]);
    assert w.queries == s.queries[q := w.queries[q]];
  }

  lemma {:induction false} CheckedSettles(s: State, t: nat, stalled: bool, prep: bool)
    requires Base(s)
    ensures Settling(s, ApplyFinChecked(s, t, stalled, prep))
  {
    SameSettles(s);
    if Finalizing(s, t) && s.turns[t].fin.Begun? {
      var q := s.turns[t].query.value;
      var queue := s.queries[q].queue;
      if stalled {
        NarrowSelf(s.queries);
        if queue.closed {
          StageSettles(s, ApplyFinChecked(s, t, stalled, prep), t, s.turns[t].(fin := Exiting, closed := true));
        }
      } else if UnknownSteer(s.items, queue.values, t) {
        NarrowOne(s.queries, q, s.queries[q].(queue := Q.Close(queue)));
        StageSettles(s, ApplyFinChecked(s, t, stalled, prep), t, s.turns[t].(fin := Exiting, closed := true));
      } else {
        SweptSettles(s, t, q, prep);
      }
    }
  }

  /** The sweep, and then saving. */
  lemma {:induction false} SweptSettles(s: State, t: nat, q: nat, prep: bool)
    requires Base(s) && Finalizing(s, t) && s.turns[t].query == Some(q) && !s.turns[t].fin.Reading?
    ensures var w := WithdrawSteers(MarkUnreadStart(s, t, prep), t, q);
            Settling(s, w.(turns := w.turns[t := w.turns[t].(fin := Saving)]))
  {
    SweepSettles(s, t, q, prep);
  }

  /** What the sweep left open is outstanding. */
  lemma {:induction false} OpenedReading(items: seq<Item>, turns: seq<Turn>, t: nat, turn: Turn)
    requires ReadingBase(items, turns) && t < |turns| && turn.fin == Reading(OpenSteers(items, t))
    ensures ReadingBase(items, turns[t := turn])
  {
  }

  lemma {:induction false} NarrowTwice(queries: seq<Query>, next: seq<Query>, q: nat, query: Query)
    requires NarrowsAll(queries, next) && q < |next| && QueryNarrows(next[q], query)
    ensures NarrowsAll(queries, next[q := query])
  {
  }

  lemma {:induction false} ExitedSettles(s: State, t: nat, prep: bool, closeFailed: bool)
    requires Base(s)
    ensures Settling(s, ApplyFinExited(s, t, prep, closeFailed))
  {
    SameSettles(s);
    if Finalizing(s, t) && s.turns[t].fin.Exiting? {
      var q := s.turns[t].query.value;
      SweepSettles(s, t, q, prep);
      var w := WithdrawSteers(MarkUnreadStart(s, t, prep), t, q);
      NarrowTwice(s.queries, w.queries, q, w.queries[q].(queue := Q.Withdraw(w.queries[q].queue)));
      if !closeFailed {
        OpenedReading(w.items, w.turns, t, w.turns[t].(fin := Reading(OpenSteers(w.items, t))));
      }
    }
  }

  lemma {:induction false} HistorySettles(s: State, t: nat, history: Option<NativeHistory>)
    requires Base(s)
    ensures Settling(s, ApplyFinHistory(s, t, history))
  {
    SameSettles(s);
  }

  lemma {:induction false} EndedSettles(s: State, t: nat, failed: bool)
    requires Base(s)
    ensures Settling(s, ApplyFinEnded(s, t, failed))
  {
    SameSettles(s);
    if Finalizing(s, t) && (failed || s.turns[t].fin.Saving?) {
      var q := s.turns[t].query.value;
      var turn := s.turns[t];
      var n := ApplyFinEnded(s, t, failed);
      NarrowOne(s.queries, q, n.queries[q]);
      assert n.queries == s.queries[q := n.queries[q]];
      StageSettles(s, n, t, turn.(fin := Ended, closed := turn.closed || failed, completions := turn.completions + 1));
    }
  }

  lemma {:induction false} StopSettles(s: State)
    requires Base(s)
    ensures Settling(s, ApplyStop(s))
  {
    SameSettles(s);
    var running := RunningTurn(s);
    if running.Some? && running.value < |s.turns| {
      var n := ApplyStop(s);
      var q := s.current.value;
      NarrowOne(s.queries, q, n.queries[q]);
      assert n.queries == s.queries[q := n.queries[q]];
    }
  }

  lemma {:induction false} StopReceiptSettles(s: State, i: nat, cancelled: bool)
    requires Base(s)
    ensures Settling(s, ApplyStopReceipt(s, i, cancelled))
  {
    SameSettles(s);
    NarrowSelf(s.queries);
  }

  lemma {:induction false} SyntheticSettles(s: State)
    requires Base(s)
    ensures Settling(s, ApplySynthetic(s))
  {
    SameSettles(s);
    if ActiveQuery(s) {
      NarrowOne(s.queries, s.current.value, s.queries[s.current.value].(turn := Some(|s.turns|)));
    }
  }

  lemma {:induction false} ShutdownSettles(s: State)
    requires Base(s)
    ensures Settling(s, ApplyShutdown(s))
  {
    SameSettles(s);
    if ActiveQuery(s) {
      var query := s.queries[s.current.value];
      NarrowOne(s.queries, s.current.value, query.(queue := Q.Close(query.queue)));
      QueriesSettle(s, ApplyShutdown(s));
    }
  }

  lemma {:induction false} PhaseSettles(s: State, q: nat, phase: Phase)
    requires Base(s)
    ensures Settling(s, SetPhase(s, q, phase))
  {
    SameSettles(s);
    if q < |s.queries| && s.queries[q].phase.Starting? {
      NarrowOne(s.queries, q, s.queries[q].(phase := phase));
    }
  }

  lemma {:induction false} QueueSettles(s: State, q: nat)
    requires Base(s) && q < |s.queries|
    ensures Settling(s, Discard(s, q))
    ensures Settling(s, SetQueue(s, q, Q.Close(s.queries[q].queue)))
    ensures Settling(s, SetQueue(s, q, Q.Withdraw(s.queries[q].queue)))
  {
    NarrowOne(s.queries, q, s.queries[q].(queue := Q.Close(s.queries[q].queue)));
    NarrowOne(s.queries, q, s.queries[q].(queue := Q.Withdraw(s.queries[q].queue)));
    QueriesSettle(s, Discard(s, q));
    QueriesSettle(s, SetQueue(s, q, Q.Close(s.queries[q].queue)));
    QueriesSettle(s, SetQueue(s, q, Q.Withdraw(s.queries[q].queue)));
  }

  // ------------------------------------------------------------------ the SDK reads a message

  lemma {:induction false} TakeOwned(items: seq<Item>, turns: seq<Turn>, q: nat, queue: Q.Queue)
    requires QueueBase(items, turns, q, queue) && queue.pending != []
    ensures QueueBase(items, turns, q, Q.Take(queue)) && Owned(items, turns, q, queue.pending[0])
    ensures Queued(queue, queue.pending[0].attempt)
  {
    assert queue.pending[0] in queue.pending;
  }

  lemma {:induction false} ShiftOwned(items: seq<Item>, turns: seq<Turn>, q: nat, queue: Q.Queue)
    requires QueueBase(items, turns, q, queue) && queue.pending == [] && queue.values != []
    ensures QueueBase(items, turns, q, Q.Shift(queue))
  {
    assert queue.values[0] in queue.values;
  }

  lemma {:induction false} ShiftQueued(items: seq<Item>, turns: seq<Turn>, q: nat, queue: Q.Queue, i: nat)
    requires QueueBase(items, turns, q, queue) && queue.pending == [] && queue.values != []
    requires Queued(Q.Shift(queue), i)
    ensures Queued(queue, i)
  {
    assert queue.values[0] in queue.values;
    var next := Q.Shift(queue);
    if k :| 0 <= k < |next.pending| && next.pending[k].attempt == i {
      assert next.pending[k] in Q.Parts(queue.values[0]);
    } else {
      var k :| 0 <= k < |next.values| && next.values[k].message.attempt == i;
      assert next.values[k] == queue.values[k + 1];
    }
  }

  lemma {:induction false} TakeQueued(queue: Q.Queue, i: nat)
    requires queue.pending != [] && Queued(Q.Take(queue), i)
    ensures Queued(queue, i)
  {
    var next := Q.Take(queue);
    if k :| 0 <= k < |next.pending| && next.pending[k].attempt == i {
      assert next.pending[k] == queue.pending[k + 1];
    }
  }

  /** A pull hands over an input that waited, and puts none in the queue. */
  lemma {:induction false} PullOwned(items: seq<Item>, turns: seq<Turn>, q: nat, queue: Q.Queue)
    requires QueueBase(items, turns, q, queue)
    ensures QueueBase(items, turns, q, Q.Pull(queue).0) && Q.Pull(queue).0.closed == queue.closed
    ensures Q.Pull(queue).1.Yield? ==>
              Owned(items, turns, q, Q.Pull(queue).1.message) && Queued(queue, Q.Pull(queue).1.message.attempt)
    ensures forall i :: Queued(Q.Pull(queue).0, i) ==> Queued(queue, i)
    decreases |queue.values|
  {
    if !queue.closed {
      if queue.pending != [] {
        TakeOwned(items, turns, q, queue);
        forall i | Queued(Q.Take(queue), i)
          ensures Queued(queue, i)
        {
          TakeQueued(queue, i);
        }
      } else if queue.values != [] {
        ShiftOwned(items, turns, q, queue);
        PullOwned(items, turns, q, Q.Shift(queue));
        forall i | Queued(Q.Shift(queue), i)
          ensures Queued(queue, i)
        {
          ShiftQueued(items, turns, q, queue, i);
        }
      }
    }
  }

  lemma {:induction false} SameQueueKept(s: State, n: State, q: nat, queue: Q.Queue)
    requires Progress(s, n) && QueueBase(s.items, s.turns, q, queue)
    requires forall i :: 0 <= i < |s.items| && n.items[i].status.Erased? ==> s.items[i].status.Erased?
    ensures QueueBase(n.items, n.turns, q, queue)
  {
    QueueKept(s, n, q, queue, queue);
  }

  lemma {:induction false} PullQueues(s: State, q: nat)
    requires Base(s) && q < |s.queries| && s.queries[q].phase.Ready?
    ensures var n := ApplyPulled(s, q); QueuesBase(n.items, n.turns, n.queries)
  {
    var n := ApplyPulled(s, q);
    PullProgress(s, q);
    PullItems(s, q);
    PullOwned(s.items, s.turns, q, s.queries[q].queue);
    forall p | 0 <= p < |n.queries|
      ensures QueueBase(n.items, n.turns, p, n.queries[p].queue)
    {
      SameQueueKept(s, n, p, if p == q then Q.Pull(s.queries[q].queue).0 else s.queries[p].queue);
    }
  }

  lemma {:induction false} PullItems(s: State, q: nat)
    requires Base(s) && q < |s.queries| && s.queries[q].phase.Ready?
    ensures var n := ApplyPulled(s, q);
            ItemsBase(n.items, n.turns) && Held(s, n) && ReadingBase(n.items, n.turns) && n.turns == s.turns
  {
    var n := ApplyPulled(s, q);
    var pulled := Q.Pull(s.queries[q].queue).1;
    if pulled.Yield? && pulled.message.attempt < |s.items| {
      var i := pulled.message.attempt;
      assert n.items == s.items[i := s.items[i].(given := s.items[i].given + 1)];
    } else {
      assert n.items == s.items;
    }
  }

  lemma {:induction false} PullUnqueued(s: State, q: nat, i: nat)
    requires Base(s) && q < |s.queries| && s.queries[q].phase.Ready?
    requires forall p :: 0 <= p < |s.queries| ==> !Queued(s.queries[p].queue, i)
    ensures var n := ApplyPulled(s, q); forall p :: 0 <= p < |n.queries| ==> !Queued(n.queries[p].queue, i)
    ensures |ApplyPulled(s, q).items| == |s.items|
    ensures i < |s.items| ==> ApplyPulled(s, q).items[i].given == s.items[i].given
  {
    PullItems(s, q);
    PullOwned(s.items, s.turns, q, s.queries[q].queue);
  }

  lemma {:induction false} PullKeepsBase(s: State, q: nat)
    requires Base(s)
    ensures Base(ApplyPulled(s, q))
  {
    if q < |s.queries| && s.queries[q].phase.Ready? {
      var n := ApplyPulled(s, q);
      PullProgress(s, q);
      PullItems(s, q);
      PullQueues(s, q);
      OnceKept(s, n);
      if s.op.SavingSteer? || s.op.SavingStart? {
        PullUnqueued(s, q, s.op.item);
      }
      OpKept(s, n);
    }
  }

  // ------------------------------------------------------------------ the serialized requests

  /** Only the request changes. */
  lemma {:induction false} OpOnly(s: State, n: State)
    requires Base(s) && n == s.(op := n.op) && OpBase(n)
    ensures Base(n)
  {
  }

  lemma {:induction false} StartRequestBase(s: State, id: string, content: seq<Block>)
    requires Base(s)
    ensures Base(ApplyStartRequest(s, id, content))
  {
    OpOnly(s, ApplyStartRequest(s, id, content));
  }

  lemma {:induction false} SteerRequestBase(s: State, id: string, content: seq<Block>)
    requires Base(s)
    ensures Base(ApplySteerRequest(s, id, content))
  {
    OpOnly(s, ApplySteerRequest(s, id, content));
  }

  lemma {:induction false} EndAwaitedBase(s: State)
    requires Base(s)
    ensures Base(ApplyEndAwaited(s))
  {
    OpOnly(s, ApplyEndAwaited(s));
  }

  /** A new item that no earlier item of its turn duplicates. */
  lemma {:induction false} AppendBase(s: State, n: State, item: Item)
    requires Base(s) && Progress(s, n) && n.items == s.items + [item] && item.status.Preparing? && item.given == 0
    requires item.turn < |n.turns| && !InTurn(s.items, item.id, item.turn)
    ensures ItemsBase(n.items, n.turns) && OncePerTurn(n.items)
  {
    forall i, j | 0 <= i < j < |n.items| && n.items[i].id == n.items[j].id && n.items[i].turn == n.items[j].turn
      ensures n.items[i].status.Erased? || n.items[j].status.Erased?
    {
      assert n.items[i] == s.items[i];
    }
  }

  lemma {:induction false} AppendQueues(s: State, n: State, item: Item)
    requires Base(s) && Progress(s, n) && n.items == s.items + [item] && NarrowsAll(s.queries, n.queries)
    requires n.turns == s.turns || (|n.turns| == |s.turns| + 1 && s.turns == n.turns[..|s.turns|]
                                    && n.turns[|s.turns|].fin.Running?)
    ensures QueuesBase(n.items, n.turns, n.queries) && ReadingBase(n.items, n.turns)
  {
    QueuesKept(s, n);
  }

  lemma {:induction false} ConvertedBase(s: State, ok: bool, parts: nat)
    requires Base(s)
    ensures Base(ApplySteerConverted(s, ok, parts))
  {
    var n := ApplySteerConverted(s, ok, parts);
    if s.op.Converting? && ok && parts > 0 && Admitted(s, s.op.turn) {
      var item := n.items[|s.items|];
      ConvertedProgress(s, ok, parts);
      NarrowSelf(s.queries);
      NewWaitsNowhere(s, n.queries);
      AppendBase(s, n, item);
      AppendQueues(s, n, item);
    } else {
      OpOnly(s, n);
    }
  }

  lemma {:induction false} PreparedBase(s: State, ok: bool, parts: nat)
    requires Base(s)
    ensures Base(ApplyStartPrepared(s, ok, parts))
  {
    var n := ApplyStartPrepared(s, ok, parts);
    if |n.items| > |s.items| {
      var item := n.items[|s.items|];
      StartPreparedProgress(s, ok, parts);
      NarrowSelf(s.queries);
      if s.current.Some? {
        var q := s.current.value;
        NarrowOne(s.queries, q, s.queries[q].(turn := Some(|s.turns|), reserving := true));
      }
      NewWaitsNowhere(s, n.queries);
      AppendBase(s, n, item);
      AppendQueues(s, n, item);
    } else {
      OpOnly(s, n);
    }
  }

  /** The newest index waits nowhere yet. */
  lemma {:induction false} NewWaitsNowhere(s: State, queries: seq<Query>)
    requires Base(s) && NarrowsAll(s.queries, queries)
    ensures forall q :: 0 <= q < |queries| ==> !Queued(queries[q].queue, |s.items|)
  {
    forall q | 0 <= q < |s.queries|
      ensures !Queued(s.queries[q].queue, |s.items|)
    {
      var queue := s.queries[q].queue;
      assert QueueBase(s.items, s.turns, q, queue);
      assert forall k :: 0 <= k < |queue.values| ==> queue.values[k] in queue.values;
      assert forall k :: 0 <= k < |queue.pending| ==> queue.pending[k] in queue.pending;
    }
    UnqueuedKept(s.queries, queries, |s.items|);
  }

  lemma {:induction false} SubmissionOwned(items: seq<Item>, turns: seq<Turn>, q: nat, item: Item, i: nat)
    requires item.parts >= 1 && i < |items| && items[i].id == item.id && !items[i].status.Erased?
    requires items[i].turn < |turns| && turns[items[i].turn].query == Some(q)
    ensures ValueBase(items, turns, q, Submission(item, i)) && Submission(item, i).message.attempt == i
  {
  }

  lemma {:induction false} PushOwned(items: seq<Item>, turns: seq<Turn>, q: nat, queue: Q.Queue, value: Q.Value)
    requires QueueBase(items, turns, q, queue) && !queue.closed && ValueBase(items, turns, q, value)
    requires value.message.attempt + 1 == |items| && !Queued(queue, value.message.attempt)
    ensures QueueBase(items, turns, q, Q.Push(queue, value))
  {
    assert forall k :: 0 <= k < |queue.values| ==> queue.values[k] in queue.values;
    assert forall v <- queue.values :: ValueBase(items, turns, q, v);
  }

  lemma {:induction false} PushedQueue(s: State, n: State, q: nat, i: nat)
    requires QueuesBase(s.items, s.turns, s.queries) && Progress(s, n) && PushesTo(s, n, q, i)
    requires i + 1 == |s.items| && (q < |s.queries| ==> !Queued(s.queries[q].queue, i))
    ensures QueueBase(n.items, n.turns, q, n.queries[q].queue)
  {
    assert ItemProgress(s.items[i], n.items[i]);
    SubmissionOwned(n.items, n.turns, q, s.items[i], i);
    if q < |s.queries| {
      SameQueueKept(s, n, q, s.queries[q].queue);
      PushOwned(n.items, n.turns, q, s.queries[q].queue, Submission(s.items[i], i));
    } else {
      PushOwned(n.items, n.turns, q, Q.EmptyQueue, Submission(s.items[i], i));
    }
  }

  lemma {:induction false} PushedQueues(s: State, n: State, q: nat, i: nat)
    requires QueuesBase(s.items, s.turns, s.queries) && Progress(s, n) && PushesTo(s, n, q, i)
    requires i + 1 == |s.items| && forall p :: 0 <= p < |s.queries| ==> !Queued(s.queries[p].queue, i)
    ensures QueuesBase(n.items, n.turns, n.queries)
  {
    forall p | 0 <= p < |n.queries|
      ensures QueueBase(n.items, n.turns, p, n.queries[p].queue)
    {
      if p == q {
        PushedQueue(s, n, q, i);
      } else {
        QueueKept(s, n, p, s.queries[p].queue, n.queries[p].queue);
      }
    }
  }

  /** Saving settles the item of the request and touches no stage. */
  lemma {:induction false} SavedItem(s: State, n: State, i: nat)
    requires Base(s) && Progress(s, n)
    requires i < |s.items| && |n.items| == |s.items| && n.items == s.items[i := n.items[i]]
    requires n.items[i].status.Erased? && s.items[i].steer ==> s.items[i].status.Erased?
    requires |n.turns| == |s.turns|
    requires forall t :: 0 <= t < |s.turns| ==>
               n.turns[t].fin == s.turns[t].fin && n.turns[t].completions == s.turns[t].completions
    ensures ItemsBase(n.items, n.turns) && OncePerTurn(n.items) && CompletedOnce(n.turns)
    ensures ReadingBase(n.items, n.turns)
  {
    ItemsKept(s, n);
    OnceKept(s, n);
  }

  lemma {:induction false} PushedBase(s: State, n: State, q: nat, i: nat)
    requires Base(s) && BeingSaved(s, i) && Progress(s, n) && PushesTo(s, n, q, i)
    requires n.op.Idle? && |n.turns| == |s.turns|
    requires forall t :: 0 <= t < |s.turns| ==>
               n.turns[t].fin == s.turns[t].fin && n.turns[t].completions == s.turns[t].completions
    ensures Base(n)
  {
    SavedItem(s, n, i);
    PushedQueues(s, n, q, i);
  }

  lemma {:induction false} DroppedBase(s: State, n: State, i: nat)
    requires Base(s) && BeingSaved(s, i) && Progress(s, n) && i < |s.items| && |n.items| == |s.items|
    requires n.items == s.items[i := n.items[i]] && n.turns == s.turns && NarrowsAll(s.queries, n.queries)
    requires n.items[i].status.Erased? ==> !s.items[i].steer
    requires !n.op.Converting? && !n.op.SavingSteer? && !n.op.SavingStart?
    ensures Base(n)
  {
    SavedItem(s, n, i);
    QueuesKept(s, n);
  }

  lemma {:induction false} SavedBase(s: State, ok: bool)
    requires Base(s)
    ensures Base(ApplySteerSaved(s, ok))
  {
    if s.op.SavingSteer? && s.op.item < |s.items| && s.items[s.op.item].parts > 0 {
      var i := s.op.item;
      var n := ApplySteerSaved(s, ok);
      SavedProgress(s, ok);
      if ok && Admitted(s, s.items[i].turn) {
        PushedBase(s, n, s.current.value, i);
      } else {
        NarrowSelf(s.queries);
        DroppedBase(s, n, i);
      }
    }
  }

  lemma {:induction false} LaunchBase(s: State, i: nat)
    requires Base(s) && s.op == SavingStart(i) && i < |s.items| && s.items[i].turn < |s.turns| && s.items[i].parts >= 1
    requires s.turns[s.items[i].turn].query.None?
    ensures Base(LaunchQuery(s, i))
  {
    LaunchProgress(s, i);
    PushedBase(s, LaunchQuery(s, i), |s.queries|, i);
  }

  lemma {:induction false} ReservationBase(s: State, i: nat, q: nat, ok: bool)
    requires Base(s) && s.op == SavingStart(i) && i < |s.items| && q < |s.queries| && s.items[i].parts >= 1
    requires s.items[i].turn < |s.turns| && s.turns[s.items[i].turn].query == Some(q)
    ensures Base(FinishReservation(s, i, q, ok))
  {
    var n := FinishReservation(s, i, q, ok);
    ReservationProgress(s, i, q, ok);
    if n.items[i].status.Submitted? {
      PushedBase(s, n, q, i);
    } else {
      NarrowOne(s.queries, q, n.queries[q]);
      assert n.queries == s.queries[q := n.queries[q]];
      DroppedBase(s, n, i);
    }
  }

  lemma {:induction false} StartSavedBase(s: State, ok: bool)
    requires Base(s)
    ensures Base(ApplyStartSaved(s, ok))
  {
    if s.op.SavingStart? && s.op.item < |s.items| && s.items[s.op.item].turn < |s.turns|
       && s.items[s.op.item].parts > 0 {
      var i := s.op.item;
      match s.turns[s.items[i].turn].query
      case None =>
        if ok {
          LaunchBase(s, i);
        } else {
          StartSavedProgress(s, ok);
          NarrowSelf(s.queries);
          DroppedBase(s, ApplyStartSaved(s, ok), i);
        }
      case Some(q) => if q < |s.queries| { ReservationBase(s, i, q, ok); }
    }
  }

  // ------------------------------------------------------------------ every step, every run

  lemma {:induction false} WaitStepBase(s: State, step: Step) returns (n: State)
    requires Base(s) && (step.StartRequest? || step.SteerRequest? || step.EndAwaited?)
    ensures n == Apply(s, step)
    ensures Base(n)
    ensures Quietly(s, n)
  {
    n := Apply(s, step);
    SameProgress(s, n);
    match step
    case StartRequest(id, content) => StartRequestBase(s, id, content);
    case SteerRequest(id, content) => SteerRequestBase(s, id, content);
    case EndAwaited => EndAwaitedBase(s);
  }

  lemma {:induction false} CreateStepBase(s: State, step: Step) returns (n: State)
    requires Base(s) && (step.SteerConverted? || step.StartPrepared?)
    ensures n == Apply(s, step)
    ensures Base(n)
    ensures Quietly(s, n)
  {
    match step
    case SteerConverted(ok, parts) =>
      n := ApplySteerConverted(s, ok, parts); ConvertedBase(s, ok, parts); ConvertedProgress(s, ok, parts);
    case StartPrepared(ok, parts) =>
      n := ApplyStartPrepared(s, ok, parts); PreparedBase(s, ok, parts); StartPreparedProgress(s, ok, parts);
  }

  lemma {:induction false} SteerSavedStep(s: State, ok: bool) returns (n: State)
    requires Base(s)
    ensures n == Apply(s, SteerSaved(ok))
    ensures Base(n)
    ensures Silently(s, n)
  {
    n := ApplySteerSaved(s, ok);
    SavedBase(s, ok);
    SavedProgress(s, ok);
  }

  lemma {:induction false} StartSavedStep(s: State, ok: bool) returns (n: State)
    requires Base(s)
    ensures n == Apply(s, StartSaved(ok))
    ensures Base(n)
    ensures Quietly(s, n)
  {
    n := ApplyStartSaved(s, ok);
    StartSavedBase(s, ok);
    StartSavedProgress(s, ok);
  }

  lemma {:induction false} RequestStepBase(s: State, step: Step) returns (n: State)
    requires Base(s) && RequestStep(step)
    ensures n == Apply(s, step)
    ensures Base(n)
    ensures Silently(s, n)
    ensures !step.SteerSaved? ==> Keeps(s, n)
  {
    if step.SteerConverted? || step.StartPrepared? {
      n := CreateStepBase(s, step);
    } else if step.SteerSaved? {
      n := SteerSavedStep(s, step.ok);
    } else if step.StartSaved? {
      n := StartSavedStep(s, step.ok);
    } else {
      n := WaitStepBase(s, step);
    }
  }

  lemma {:induction false} EchoStepSettles(s: State, step: Step) returns (n: State)
    requires Base(s) && (step.EchoSeen? || step.ReceiptSeen?)
    ensures n == Apply(s, step)
    ensures Settling(s, n)
    ensures Delivers(s, n)
    ensures step.ReceiptSeen? ==> NoDelivery(s, n)
  {
    match step
    case EchoSeen(q, id, since) =>
      n := ApplyEcho(s, q, id, since); EchoSettles(s, q, id, since); EchoProgress(s, q, id, since);
    case ReceiptSeen(q, uuids) => n := ApplyReceipt(s, q, uuids); ReceiptSettles(s, q, uuids); SameProgress(s, n);
  }

  lemma {:induction false} ReplyStepSettles(s: State, step: Step) returns (n: State)
    requires Base(s) && (step.ReplySeen? || step.ReceiptsComplete?)
    ensures n == Apply(s, step)
    ensures Settling(s, n)
    ensures Delivers(s, n)
  {
    match step
    case ReplySeen(q, i, consumed) =>
      n := ApplyReply(s, q, i, consumed); ReplySettles(s, q, i, consumed); ReplyProgress(s, q, i, consumed);
    case ReceiptsComplete(q, i) => n := ApplyReceipts(s, q, i); ReplySettles(s, q, i, []); ReplyProgress(s, q, i, []);
  }

  lemma {:induction false} CheckedStepSettles(s: State, t: nat, stalled: bool, prep: bool) returns (n: State)
    requires Base(s)
    ensures n == Apply(s, FinChecked(t, stalled, prep))
    ensures Settling(s, n)
    ensures Quietly(s, n)
  {
    n := ApplyFinChecked(s, t, stalled, prep);
    CheckedSettles(s, t, stalled, prep);
    CheckedProgress(s, t, stalled, prep);
  }

  lemma {:induction false} ExitedStepSettles(s: State, t: nat, prep: bool, failed: bool) returns (n: State)
    requires Base(s)
    ensures n == Apply(s, FinExited(t, prep, failed))
    ensures Settling(s, n)
    ensures Quietly(s, n)
  {
    n := ApplyFinExited(s, t, prep, failed);
    ExitedSettles(s, t, prep, failed);
    ExitedProgress(s, t, prep, failed);
  }

  lemma {:induction false} EndStepSettles(s: State, step: Step) returns (n: State)
    requires Base(s) && (step.FinishTurn? || step.FinEnded?)
    ensures n == Apply(s, step)
    ensures Settling(s, n)
    ensures Quietly(s, n)
  {
    match step
    case FinishTurn(q) => n := ApplyFinishTurn(s, q); FinishSettles(s, q); FinishProgress(s, q);
    case FinEnded(t, failed) => n := ApplyFinEnded(s, t, failed); EndedSettles(s, t, failed); EndProgress(s, t, failed);
  }

  lemma {:induction false} PhaseStepSettles(s: State, step: Step) returns (n: State)
    requires Base(s) && (step.QueryReady? || step.QueryFailed?)
    ensures n == Apply(s, step)
    ensures Settling(s, n)
    ensures Quietly(s, n)
  {
    n := Apply(s, step);
    SameSettles(s);
    SameProgress(s, n);
    if step.QueryReady? { PhaseSettles(s, step.query, Ready); } else { PhaseSettles(s, step.query, Failed); }
  }

  lemma {:induction false} QueueStepSettles(s: State, step: Step) returns (n: State)
    requires Base(s) && (step.QueryDiscarded? || step.QueueClosed? || step.QueueWithdrawn?)
    ensures n == Apply(s, step)
    ensures Settling(s, n)
    ensures Quietly(s, n)
  {
    n := Apply(s, step);
    SameSettles(s);
    SameProgress(s, n);
    if step.query < |s.queries| { QueueSettles(s, step.query); }
  }

  lemma {:induction false} StopStepSettles(s: State) returns (n: State)
    requires Base(s)
    ensures n == Apply(s, Stop)
    ensures Settling(s, n)
    ensures Silently(s, n)
  {
    n := ApplyStop(s);
    StopSettles(s);
    StopProgress(s);
  }

  lemma {:induction false} StopReceiptStep(s: State, i: nat, cancelled: bool) returns (n: State)
    requires Base(s)
    ensures n == Apply(s, StopReceipt(i, cancelled))
    ensures Settling(s, n)
    ensures Progress(s, n) && SameReads(s, n) && NoDelivery(s, n) && NoAbsence(s, n)
  {
    n := ApplyStopReceipt(s, i, cancelled);
    StopReceiptSettles(s, i, cancelled);
    StopReceiptProgress(s, i, cancelled);
  }

  lemma {:induction false} OtherStepSettles(s: State, step: Step) returns (n: State)
    requires Base(s) && (step.SyntheticTurn? || step.Shutdown?)
    ensures n == Apply(s, step)
    ensures Settling(s, n)
    ensures Quietly(s, n)
  {
    match step
    case SyntheticTurn => n := ApplySynthetic(s); SyntheticSettles(s); SyntheticProgress(s);
    case Shutdown => n := ApplyShutdown(s); ShutdownSettles(s); SyntheticProgress(s);
  }

  lemma {:induction false} QuietStepSettles(s: State, step: Step) returns (n: State)
    requires Base(s) && !RequestStep(step) && !SdkStep(step) && !WritesOver(step)
    ensures n == Apply(s, step)
    ensures Settling(s, n)
    ensures Quietly(s, n)
  {
    if step.FinChecked? {
      n := CheckedStepSettles(s, step.turn, step.stalled, step.prep);
    } else if step.FinExited? {
      n := ExitedStepSettles(s, step.turn, step.prep, step.closeFailed);
    } else if step.FinishTurn? || step.FinEnded? {
      n := EndStepSettles(s, step);
    } else if step.QueryReady? || step.QueryFailed? {
      n := PhaseStepSettles(s, step);
    } else if step.QueryDiscarded? || step.QueueClosed? || step.QueueWithdrawn? {
      n := QueueStepSettles(s, step);
    } else {
      n := OtherStepSettles(s, step);
    }
  }

  lemma {:induction false} EventSettles(s: State, step: Step) returns (n: State)
    requires Base(s) && !RequestStep(step) && !step.Pulled?
    ensures n == Apply(s, step)
    ensures Settling(s, n)
    ensures Progress(s, n) && SameReads(s, n)
    ensures !EvidenceStep(step) ==> NoDelivery(s, n)
    ensures !step.FinHistory? ==> NoAbsence(s, n)
    ensures !step.StopReceipt? ==> SubmitsRunning(s, n)
    ensures !WritesOver(step) ==> Keeps(s, n)
  {
    if step.EchoSeen? || step.ReceiptSeen? {
      n := EchoStepSettles(s, step);
    } else if step.ReplySeen? || step.ReceiptsComplete? {
      n := ReplyStepSettles(s, step);
    } else if step.FinHistory? {
      n := ApplyFinHistory(s, step.turn, step.history);
      HistorySettles(s, step.turn, step.history);
      HistoryProgress(s, step.turn, step.history);
    } else if step.Stop? {
      n := StopStepSettles(s);
    } else if step.StopReceipt? {
      n := StopReceiptStep(s, step.item, step.cancelled);
    } else {
      n := QuietStepSettles(s, step);
    }
  }

  /** Every step keeps the base invariant; only a pull reads, only evidence delivers, only the history proves
      absence, and only four kinds of step write over an outcome. */
  lemma {:induction false} StepBase(s: State, step: Step) returns (n: State)
    requires Base(s)
    ensures n == Apply(s, step)
    ensures Base(n) && Progress(s, n)
    ensures !step.Pulled? ==> SameReads(s, n)
    ensures !EvidenceStep(step) ==> NoDelivery(s, n)
    ensures !step.FinHistory? ==> NoAbsence(s, n)
    ensures !step.StopReceipt? ==> SubmitsRunning(s, n)
    ensures !WritesOver(step) ==> Keeps(s, n)
  {
    if RequestStep(step) {
      n := RequestStepBase(s, step);
    } else if step.Pulled? {
      n := ApplyPulled(s, step.query);
      PullKeepsBase(s, step.query);
      PullProgress(s, step.query);
    } else {
      n := EventSettles(s, step);
      SettlingKeeps(s, n);
    }
  }

  /** The base invariant holds in every state of every run. */
  lemma {:induction false} RunBase(steps: seq<Step>) returns (n: State)
    ensures n == Run(steps)
    ensures Base(n)
  {
    if steps == [] {
      n := Init;
    } else {
      var s := RunBase(steps[..|steps| - 1]);
      n := StepBase(s, steps[|steps| - 1]);
    }
  }
}
