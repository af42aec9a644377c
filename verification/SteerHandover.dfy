/** In every run of a Claude thread: for which attempt the SDK was last given a UUID. */
module SteerHandover {
  import opened Basics
  import opened InputMessages
  import opened SteerSession
  import opened SteerInvariant
  import opened SteerChange
  import opened SteerExact
  import opened SteerHosts
  import opened SteerUnread
  import SteerAlways
  import SteerReads
  import SteerRuns
  import Q = InputQueues

  // ------------------------------------------------------------------ what waits is what was submitted

  predicate PendingShaped(items: seq<Item>, pending: seq<Message>) {
    pending != [] ==>
      var a := pending[0].attempt;
      a < |items| && items[a].given <= items[a].parts && pending == Messages(items[a], a)[items[a].given..]
  }

  predicate ValueShaped(items: seq<Item>, v: Q.Value) {
    var a := v.message.attempt;
    a < |items| && items[a].parts >= 1 && v == Submission(items[a], a)
  }

  /** Queued values are submissions of items, and the iterator holds the unread rest of one. */
  predicate Shaped(items: seq<Item>, queue: Q.Queue) {
    (forall v <- queue.values :: ValueShaped(items, v)) && PendingShaped(items, queue.pending)
  }

  predicate Counted(items: seq<Item>) {
    forall i :: 0 <= i < |items| ==> items[i].given <= items[i].parts && 1 <= items[i].parts
  }

  predicate ShapeBase(s: State) {
    Counted(s.items) && forall q :: 0 <= q < |s.queries| ==> Shaped(s.items, s.queries[q].queue)
  }

  predicate SameInput(a: Item, b: Item) {
    b.id == a.id && b.parts == a.parts
  }

  lemma {:induction false} ValueKept(a: seq<Item>, b: seq<Item>, v: Q.Value)
    requires |a| <= |b| && ValueShaped(a, v) && SameInput(a[v.message.attempt], b[v.message.attempt])
    ensures ValueShaped(b, v)
  {
  }

  lemma {:induction false} PendingKept(a: seq<Item>, b: seq<Item>, pending: seq<Message>)
    requires |a| <= |b| && PendingShaped(a, pending)
    requires pending != [] ==>
               && SameInput(a[pending[0].attempt], b[pending[0].attempt])
               && b[pending[0].attempt].given == a[pending[0].attempt].given
    ensures PendingShaped(b, pending)
  {
  }

  lemma {:induction false} InputsSame(s: State, n: State)
    requires Progress(s, n)
    ensures forall i :: 0 <= i < |s.items| ==> SameInput(s.items[i], n.items[i])
  {
    assert forall i :: 0 <= i < |s.items| ==> ItemProgress(s.items[i], n.items[i]);
  }

  lemma {:induction false} QueueShapeKept(s: State, n: State, a: Q.Queue, b: Q.Queue)
    requires Progress(s, n) && SameReads(s, n) && Shaped(s.items, a) && Narrows(a, b)
    ensures Shaped(n.items, b)
  {
    InputsSame(s, n);
    forall v | v in b.values
      ensures ValueShaped(n.items, v)
    {
      assert v in a.values && ValueShaped(s.items, v);
      ValueKept(s.items, n.items, v);
    }
    PendingKept(s.items, n.items, b.pending);
  }

  lemma {:induction false} CountKept(s: State, n: State)
    requires Counted(s.items) && Progress(s, n) && SameReads(s, n) && NewUnread(s, n)
    ensures Counted(n.items)
  {
    InputsSame(s, n);
  }

  lemma {:induction false} ShapesKept(s: State, n: State)
    requires ShapeBase(s) && Progress(s, n) && SameReads(s, n) && NewUnread(s, n) && NarrowsAll(s.queries, n.queries)
    ensures ShapeBase(n)
  {
    CountKept(s, n);
    forall q | 0 <= q < |n.queries|
      ensures Shaped(n.items, n.queries[q].queue)
    {
      assert QueryNarrows(s.queries[q], n.queries[q]);
      QueueShapeKept(s, n, s.queries[q].queue, n.queries[q].queue);
    }
  }

  lemma {:induction false} PushedShape(s: State, n: State, q: nat, i: nat)
    requires ShapeBase(s) && Progress(s, n) && SameReads(s, n) && PushesTo(s, n, q, i)
    ensures Shaped(n.items, n.queries[q].queue)
  {
    InputsSame(s, n);
    var value := Submission(s.items[i], i);
    assert value.message.attempt == i && ValueShaped(s.items, value);
    ValueKept(s.items, n.items, value);
    if q < |s.queries| {
      QueueShapeKept(s, n, s.queries[q].queue, s.queries[q].queue);
    }
  }

  lemma {:induction false} PushedShapes(s: State, n: State, q: nat, i: nat)
    requires ShapeBase(s) && Progress(s, n) && SameReads(s, n) && PushesTo(s, n, q, i)
    ensures ShapeBase(n)
  {
    CountKept(s, n);
    forall p | 0 <= p < |n.queries|
      ensures Shaped(n.items, n.queries[p].queue)
    {
      if p == q {
        PushedShape(s, n, q, i);
      } else {
        QueueShapeKept(s, n, s.queries[p].queue, n.queries[p].queue);
      }
    }
  }

  // ------------------------------------------------------------------ who was last given a UUID

  /** The query was given a UUID exactly when it read it, and remembers the latest attempt. */
  ghost predicate GivenBase(s: State) {
    && (forall q, u :: 0 <= q < |s.queries| && u in s.queries[q].given ==> Crossed(s, q, s.queries[q].given[u], u))
    && (forall q: nat, i: nat, u :: Crossed(s, q, i, u) ==> Remembers(s, q, i, u))
  }

  predicate Remembers(s: State, q: nat, i: nat, u: Uuid) {
    q < |s.queries| && u in s.queries[q].given && i <= s.queries[q].given[u]
  }

  lemma {:induction false} CrossedKept(s: State, n: State, q: nat, i: nat, u: Uuid)
    requires ReadBase(s) && Progress(s, n) && SameReads(s, n) && NewUnread(s, n)
    ensures Crossed(n, q, i, u) <==> Crossed(s, q, i, u)
  {
    if i < |s.items| && s.items[i].given > 0 {
      assert ReadInOrder(s, i);
      assert ItemProgress(s.items[i], n.items[i]);
      assert TurnProgress(s.turns[s.items[i].turn], n.turns[s.items[i].turn]);
      assert Messages(n.items[i], i) == Messages(s.items[i], i);
    }
  }

  /** New queries were given nothing. */
  predicate GivesNothing(s: State, n: State) {
    && SameGiven(s.queries, n.queries)
    && (forall q :: |s.queries| <= q < |n.queries| ==> n.queries[q].given == map[])
  }

  lemma {:induction false} GivenKept(s: State, n: State)
    requires GivenBase(s) && ReadBase(s) && Progress(s, n) && SameReads(s, n) && NewUnread(s, n) && GivesNothing(s, n)
    ensures GivenBase(n)
  {
    forall q, u | 0 <= q < |n.queries| && u in n.queries[q].given
      ensures Crossed(n, q, n.queries[q].given[u], u)
    {
      CrossedKept(s, n, q, n.queries[q].given[u], u);
    }
    forall q: nat, i: nat, u | Crossed(n, q, i, u)
      ensures Remembers(n, q, i, u)
    {
      CrossedKept(s, n, q, i, u);
      assert Remembers(s, q, i, u);
    }
  }

  // ------------------------------------------------------------------ a pull

  /** The parts of a submission are all messages of the item. */
  lemma {:induction false} SubmissionParts(item: Item, i: nat)
    requires item.parts >= 1
    ensures Q.Parts(Submission(item, i)) == Messages(item, i)
  {
  }

  predicate Unbegun(items: seq<Item>, values: seq<Q.Value>) {
    forall v <- values :: v.message.attempt < |items| && items[v.message.attempt].given == 0
  }

  /** What the pull reads is the next message of the item. */
  predicate NextPart(items: seq<Item>, m: Message, rest: seq<Message>) {
    var a := m.attempt;
    && a < |items| && items[a].given < items[a].parts
    && m == Messages(items[a], a)[items[a].given] && rest == Messages(items[a], a)[items[a].given + 1..]
  }

  lemma {:induction false} TakesPart(items: seq<Item>, queue: Q.Queue)
    requires PendingShaped(items, queue.pending) && queue.pending != []
    ensures NextPart(items, queue.pending[0], Q.Take(queue).pending)
  {
    var a := queue.pending[0].attempt;
    assert queue.pending[0] == Messages(items[a], a)[items[a].given];
    assert queue.pending[1..] == Messages(items[a], a)[items[a].given + 1..];
  }

  lemma {:induction false} ShiftShaped(items: seq<Item>, queue: Q.Queue)
    requires Shaped(items, queue) && Unbegun(items, queue.values) && queue.pending == [] && queue.values != []
    ensures PendingShaped(items, Q.Shift(queue).pending) && Q.Shift(queue).pending != []
  {
    var v := queue.values[0];
    assert v in queue.values;
    var a := v.message.attempt;
    SubmissionParts(items[a], a);
    assert Messages(items[a], a)[0..] == Messages(items[a], a);
  }

  lemma {:induction false} PullsPart(items: seq<Item>, queue: Q.Queue)
    requires Shaped(items, queue) && Unbegun(items, queue.values) && Q.Pull(queue).1.Yield?
    ensures NextPart(items, Q.Pull(queue).1.message, Q.Pull(queue).0.pending)
    ensures forall v <- Q.Pull(queue).0.values :: v in queue.values
  {
    if queue.pending != [] {
      TakesPart(items, queue);
    } else {
      ShiftShaped(items, queue);
      TakesPart(items, Q.Shift(queue));
    }
  }

  lemma {:induction false} QueuedUnbegun(s: State, q: nat)
    requires Base(s) && ReadBase(s) && q < |s.queries|
    ensures Unbegun(s.items, s.queries[q].queue.values)
  {
    assert QueueBase(s.items, s.turns, q, s.queries[q].queue);
    forall v | v in s.queries[q].queue.values
      ensures v.message.attempt < |s.items| && s.items[v.message.attempt].given == 0
    {
      assert ValueBase(s.items, s.turns, q, v);
      assert s.items[v.message.attempt].given > 0 ==> ReadInOrder(s, v.message.attempt);
    }
  }

  /** The query has read nothing of a later attempt. */
  predicate ReadUpTo(s: State, q: nat, a: nat) {
    forall i :: a < i < |s.items| && s.items[i].given > 0 ==>
      s.items[i].turn < |s.turns| && s.turns[s.items[i].turn].query != Some(q)
  }

  /** The queue yields the next part of an attempt of its query. */
  predicate Yields(s: State, q: nat, m: Message, next: Q.Queue) {
    && q < |s.queries| && Q.Pull(s.queries[q].queue) == (next, Q.Yield(m))
    && Owned(s.items, s.turns, q, m) && NextPart(s.items, m, next.pending) && ReadUpTo(s, q, m.attempt)
    && (forall v <- next.values :: v in s.queries[q].queue.values)
  }

  /** What a pull of query `q` does: an attempt of the query is given its next part. */
  predicate Hands(s: State, n: State, q: nat, m: Message, next: Q.Queue) {
    && Yields(s, q, m, next) && n.turns == s.turns && |n.queries| == |s.queries|
    && n.items == s.items[m.attempt := s.items[m.attempt].(given := s.items[m.attempt].given + 1)]
    && n.queries[q].given == s.queries[q].given[m.uuid := m.attempt] && n.queries[q].queue == next
    && (forall p :: 0 <= p < |s.queries| && p != q ==> n.queries[p] == s.queries[p])
  }

  lemma {:induction false} ReadComeFirst(s: State, q: nat)
    requires Base(s) && ReadBase(s) && q < |s.queries| && Q.Pull(s.queries[q].queue).1.Yield?
    ensures ReadUpTo(s, q, Q.Pull(s.queries[q].queue).1.message.attempt)
  {
    assert QueueBase(s.items, s.turns, q, s.queries[q].queue);
    PullOrder(s.items, s.turns, q, s.queries[q].queue);
    assert forall i :: 0 <= i < |s.items| && s.items[i].given > 0 ==> ReadInOrder(s, i);
  }

  lemma {:induction false} PullYields(s: State, q: nat) returns (m: Message, next: Q.Queue)
    requires Base(s) && ReadBase(s) && ShapeBase(s) && q < |s.queries| && Q.Pull(s.queries[q].queue).1.Yield?
    ensures Yields(s, q, m, next)
  {
    var queue := s.queries[q].queue;
    m, next := Q.Pull(queue).1.message, Q.Pull(queue).0;
    assert QueueBase(s.items, s.turns, q, queue);
    QueuedUnbegun(s, q);
    PullsPart(s.items, queue);
    SteerAlways.PullOwned(s.items, s.turns, q, queue);
    ReadComeFirst(s, q);
  }

  lemma {:induction false} PullHands(s: State, q: nat, m: Message, next: Q.Queue)
    requires Yields(s, q, m, next) && s.queries[q].phase.Ready?
    ensures Hands(s, ApplyPulled(s, q), q, m, next)
  {
  }

  lemma {:induction false} HandedShape(s: State, n: State, q: nat, m: Message, next: Q.Queue, p: nat)
    requires Base(s) && ShapeBase(s) && Hands(s, n, q, m, next) && p < |n.queries|
    ensures Shaped(n.items, n.queries[p].queue)
  {
    var a := m.attempt;
    assert Shaped(s.items, s.queries[p].queue) && QueueBase(s.items, s.turns, p, s.queries[p].queue);
    assert Messages(n.items[a], a) == Messages(s.items[a], a);
    forall v | v in n.queries[p].queue.values
      ensures ValueShaped(n.items, v)
    {
      assert v in s.queries[p].queue.values && ValueShaped(s.items, v);
      ValueKept(s.items, n.items, v);
    }
    if p == q {
      var pending := n.queries[q].queue.pending;
      assert forall k :: 0 <= k < |pending| ==> pending[k].attempt == a;
    } else {
      var pending := s.queries[p].queue.pending;
      assert pending != [] ==> pending[0] in pending && Owned(s.items, s.turns, p, pending[0]);
      PendingKept(s.items, n.items, pending);
    }
  }

  lemma {:induction false} HandedShapes(s: State, n: State, q: nat, m: Message, next: Q.Queue)
    requires Base(s) && ShapeBase(s) && Hands(s, n, q, m, next)
    ensures ShapeBase(n)
  {
    forall p | 0 <= p < |n.queries|
      ensures Shaped(n.items, n.queries[p].queue)
    {
      HandedShape(s, n, q, m, next, p);
    }
  }

  /** The pull crosses exactly this UUID for this attempt. */
  lemma {:induction false} HandedCrosses(s: State, n: State, q: nat, m: Message, next: Q.Queue, p: nat, i: nat,
                                         u: Uuid)
    requires Hands(s, n, q, m, next)
    ensures Crossed(n, p, i, u) <==> Crossed(s, p, i, u) || (p == q && i == m.attempt && u == m.uuid)
  {
    var a := m.attempt;
    assert Messages(n.items[a], a) == Messages(s.items[a], a);
    if p == q && i == a && u == m.uuid {
      assert Messages(n.items[a], a)[s.items[a].given].uuid == u;
    } else if Crossed(s, p, i, u) {
      var k :| 0 <= k < s.items[i].given && k < s.items[i].parts && Messages(s.items[i], i)[k].uuid == u;
      assert Messages(n.items[i], i)[k].uuid == u;
    }
  }

  lemma {:induction false} HandedGiven(s: State, n: State, q: nat, m: Message, next: Q.Queue)
    requires GivenBase(s) && Hands(s, n, q, m, next)
    ensures GivenBase(n)
  {
    forall p, u | 0 <= p < |n.queries| && u in n.queries[p].given
      ensures Crossed(n, p, n.queries[p].given[u], u)
    {
      HandedCrosses(s, n, q, m, next, p, n.queries[p].given[u], u);
    }
    forall p: nat, i: nat, u | Crossed(n, p, i, u)
      ensures Remembers(n, p, i, u)
    {
      HandedCrosses(s, n, q, m, next, p, i, u);
      assert Crossed(s, p, i, u) ==> Remembers(s, p, i, u);
    }
  }

  lemma {:induction false} IdleNarrows(queue: Q.Queue)
    requires !Q.Pull(queue).1.Yield?
    ensures Narrows(queue, Q.Pull(queue).0)
  {
    Q.PullTakesFirst(queue);
  }

  lemma {:induction false} IdlePull(s: State, q: nat)
    requires Base(s) && ShapeBase(s) && q < |s.queries| && s.queries[q].phase.Ready?
    requires !Q.Pull(s.queries[q].queue).1.Yield?
    ensures var n := ApplyPulled(s, q);
            n.items == s.items && n.turns == s.turns && NarrowsAll(s.queries, n.queries) && GivesNothing(s, n)
  {
    var queue := s.queries[q].queue;
    var n, next := ApplyPulled(s, q), Q.Pull(queue).0;
    IdleNarrows(queue);
    SteerAlways.NarrowOne(s.queries, q, s.queries[q].(queue := next));
    assert n.queries == s.queries[q := s.queries[q].(queue := next)];
  }

  lemma {:induction false} PullGives(s: State, q: nat)
    requires Base(s) && ReadBase(s) && ShapeBase(s) && GivenBase(s)
    ensures ShapeBase(ApplyPulled(s, q)) && GivenBase(ApplyPulled(s, q))
  {
    if q < |s.queries| && s.queries[q].phase.Ready? {
      var n := ApplyPulled(s, q);
      if Q.Pull(s.queries[q].queue).1.Yield? {
        var m, next := PullYields(s, q);
        PullHands(s, q, m, next);
        HandedShapes(s, n, q, m, next);
        HandedGiven(s, n, q, m, next);
      } else {
        IdlePull(s, q);
        SteerAlways.SameProgress(s, n);
        ShapesKept(s, n);
        GivenKept(s, n);
      }
    }
  }

  // ------------------------------------------------------------------ every step

  ghost predicate HandBase(s: State) {
    Base(s) && HostBase(s) && ReadBase(s) && ShapeBase(s) && GivenBase(s)
  }

  lemma {:induction false} SavedGives(s: State, ok: bool)
    requires HandBase(s)
    ensures ShapeBase(ApplySteerSaved(s, ok)) && GivenBase(ApplySteerSaved(s, ok))
  {
    var n := ApplySteerSaved(s, ok);
    SteerAlways.SavedProgress(s, ok);
    SteerSavedHosts(s, ok);
    GivenKept(s, n);
    if n.queries != s.queries {
      PushedShapes(s, n, s.current.value, s.op.item);
    } else {
      SteerAlways.NarrowSelf(s.queries);
      ShapesKept(s, n);
    }
  }

  lemma {:induction false} LaunchGives(s: State, i: nat)
    requires HandBase(s) && s.op == SavingStart(i) && i < |s.items| && s.items[i].turn < |s.turns|
    requires s.items[i].parts >= 1 && s.turns[s.items[i].turn].query.None?
    ensures ShapeBase(LaunchQuery(s, i)) && GivenBase(LaunchQuery(s, i))
  {
    SteerAlways.LaunchProgress(s, i);
    PushedShapes(s, LaunchQuery(s, i), |s.queries|, i);
    GivenKept(s, LaunchQuery(s, i));
  }

  lemma {:induction false} ReservationShapes(s: State, i: nat, q: nat, ok: bool)
    requires HandBase(s) && s.op == SavingStart(i) && i < |s.items| && q < |s.queries|
    requires s.items[i].parts >= 1 && s.items[i].turn < |s.turns| && s.turns[s.items[i].turn].query == Some(q)
    ensures ShapeBase(FinishReservation(s, i, q, ok))
  {
    var n := FinishReservation(s, i, q, ok);
    SteerAlways.ReservationProgress(s, i, q, ok);
    if n.items[i].status.Submitted? {
      PushedShapes(s, n, q, i);
    } else {
      SteerAlways.NarrowOne(s.queries, q, n.queries[q]);
      assert n.queries == s.queries[q := n.queries[q]];
      ShapesKept(s, n);
    }
  }

  lemma {:induction false} ReservationGives(s: State, i: nat, q: nat, ok: bool)
    requires HandBase(s) && s.op == SavingStart(i) && i < |s.items| && q < |s.queries|
    requires s.items[i].parts >= 1 && s.items[i].turn < |s.turns| && s.turns[s.items[i].turn].query == Some(q)
    ensures ShapeBase(FinishReservation(s, i, q, ok)) && GivenBase(FinishReservation(s, i, q, ok))
  {
    var n := FinishReservation(s, i, q, ok);
    SteerAlways.ReservationProgress(s, i, q, ok);
    ReservationHosts(s, i, q, ok);
    GivenKept(s, n);
    ReservationShapes(s, i, q, ok);
  }

  lemma {:induction false} StartSavedGives(s: State, ok: bool)
    requires HandBase(s)
    ensures ShapeBase(ApplyStartSaved(s, ok)) && GivenBase(ApplyStartSaved(s, ok))
  {
    if s.op.SavingStart? && s.op.item < |s.items| && s.items[s.op.item].turn < |s.turns|
       && s.items[s.op.item].parts > 0 {
      var i := s.op.item;
      match s.turns[s.items[i].turn].query
      case None =>
        if ok {
          LaunchGives(s, i);
        } else {
          SteerAlways.StartSavedProgress(s, ok);
          SteerAlways.NarrowSelf(s.queries);
          ShapesKept(s, ApplyStartSaved(s, ok));
          GivenKept(s, ApplyStartSaved(s, ok));
        }
      case Some(q) => if q < |s.queries| { ReservationGives(s, i, q, ok); }
    }
  }

  lemma {:induction false} CreationGivesNothing(s: State, step: Step)
    requires Creates(step)
    ensures GivesNothing(s, Apply(s, step))
  {
  }

  lemma {:induction false} WaitGivesNothing(s: State, step: Step)
    requires step.StartRequest? || step.SteerRequest? || step.EndAwaited?
    ensures Apply(s, step).queries == s.queries && Apply(s, step).items == s.items
  {
  }

  lemma {:induction false} RequestGivesNothing(s: State, step: Step)
    requires RequestStep(step) && !step.SteerSaved? && !step.StartSaved?
    ensures GivesNothing(s, Apply(s, step)) && NarrowsAll(s.queries, Apply(s, step).queries)
    ensures NewUnread(s, Apply(s, step))
  {
    if Creates(step) {
      CreationGivesNothing(s, step);
      SteerReads.CreateNarrows(s, step);
      CreatedUnread(s, step);
    } else {
      WaitGivesNothing(s, step);
      SteerAlways.NarrowSelf(s.queries);
    }
  }

  lemma {:induction false} QuietGives(s: State, step: Step) returns (n: State)
    requires HandBase(s) && RequestStep(step) && !step.SteerSaved? && !step.StartSaved?
    ensures n == Apply(s, step)
    ensures ShapeBase(n) && GivenBase(n)
  {
    n := SteerAlways.StepBase(s, step);
    RequestGivesNothing(s, step);
    ShapesKept(s, n);
    GivenKept(s, n);
  }

  lemma {:induction false} EventGives(s: State, step: Step) returns (n: State)
    requires HandBase(s) && !RequestStep(step) && !step.Pulled?
    ensures n == Apply(s, step)
    ensures ShapeBase(n) && GivenBase(n)
  {
    n := SteerAlways.EventSettles(s, step);
    EventHosts(s, step);
    ShapesKept(s, n);
    GivenKept(s, n);
  }

  lemma {:induction false} StepGives(s: State, step: Step) returns (n: State)
    requires HandBase(s)
    ensures n == Apply(s, step)
    ensures ShapeBase(n) && GivenBase(n)
  {
    if step.SteerSaved? {
      n := ApplySteerSaved(s, step.ok);
      SavedGives(s, step.ok);
    } else if step.StartSaved? {
      n := ApplyStartSaved(s, step.ok);
      StartSavedGives(s, step.ok);
    } else if RequestStep(step) {
      n := QuietGives(s, step);
    } else if step.Pulled? {
      n := ApplyPulled(s, step.query);
      PullGives(s, step.query);
    } else {
      n := EventGives(s, step);
    }
  }

  lemma {:induction false} StepHands(s: State, step: Step) returns (n: State)
    requires HandBase(s)
    ensures n == Apply(s, step)
    ensures HandBase(n)
  {
    n := StepHosts(s, step);
    var m := StepOrders(s, step);
    var k := StepGives(s, step);
  }

  lemma {:induction false} RunHands(steps: seq<Step>) returns (n: State)
    ensures n == Run(steps)
    ensures HandBase(n)
  {
    if steps == [] {
      n := Init;
    } else {
      var s := RunHands(steps[..|steps| - 1]);
      n := StepHands(s, steps[|steps| - 1]);
    }
  }

  lemma {:induction false} GivenIsLast(s: State, q: nat, i: nat, u: Uuid)
    requires GivenBase(s) && q < |s.queries|
    ensures u in s.queries[q].given && s.queries[q].given[u] == i <==> LastToCross(s, q, i, u)
  {
    if LastToCross(s, q, i, u) {
      assert Remembers(s, q, i, u);
      var a := s.queries[q].given[u];
      assert Crossed(s, q, a, u);
    }
    assert u in s.queries[q].given ==> Crossed(s, q, s.queries[q].given[u], u);
    assert forall j: nat :: Crossed(s, q, j, u) ==> Remembers(s, q, j, u);
  }

  /** In every run a query holds a UUID for an attempt exactly when it read that UUID for the attempt and for no
      later one of its turns. */
  lemma {:induction false} GivenExactly(steps: seq<Step>, q: nat, i: nat, u: Uuid)
    requires q < |Run(steps).queries|
    ensures var s := Run(steps);
            u in s.queries[q].given && s.queries[q].given[u] == i <==> LastToCross(s, q, i, u)
  {
    var s := RunHands(steps);
    GivenIsLast(s, q, i, u);
  }

  /** The final UUID of an input crosses with its last part. */
  lemma {:induction false} WholeMeansAll(s: State, q: nat, i: nat)
    requires Counted(s.items) && i < |s.items| && Crossed(s, q, i, Whole(s.items[i].id))
    ensures s.items[i].given == s.items[i].parts
  {
  }

  lemma {:induction false} NamesAtLeastWhole(item: Item, i: nat, step: Step)
    requires item.parts >= 1 && (step.EchoSeen? || step.ReplySeen? || step.ReceiptsComplete?)
    ensures Whole(item.id) in NamedUuids(item, i, step)
  {
    assert Uuids(Messages(item, i))[item.parts - 1] == Whole(item.id);
  }

  /** The query read each of these UUIDs for the attempt, and for no later one. */
  predicate AllLastToCross(s: State, q: nat, ids: seq<Uuid>, i: nat) {
    forall u <- ids :: LastToCross(s, q, i, u)
  }

  lemma {:induction false} HandedIsLast(s: State, q: nat, ids: seq<Uuid>, i: nat)
    requires GivenBase(s) && q < |s.queries|
    ensures HandedOver(s, q, ids, i) <==> AllLastToCross(s, q, ids, i)
  {
    forall u | u in ids
      ensures u in s.queries[q].given && s.queries[q].given[u] == i <==> LastToCross(s, q, i, u)
    {
      GivenIsLast(s, q, i, u);
    }
  }

  /** In every run: the UUIDs by which SDK evidence delivers an input were handed over for this very attempt exactly
      when the query read them for it and for no later attempt. Then all of its parts were read. */
  lemma {:induction false} HandedOverExactly(steps: seq<Step>, step: Step, i: nat)
    requires i < |Run(steps).items| && Names(Run(steps), step, i) && !step.FinHistory?
    ensures var s, ids := Run(steps), NamedUuids(Run(steps).items[i], i, step);
            && (HandedOver(s, step.query, ids, i) <==> AllLastToCross(s, step.query, ids, i))
            && (HandedOver(s, step.query, ids, i) ==> s.items[i].given == s.items[i].parts)
  {
    var s := RunHands(steps);
    EvidenceHanded(s, step, i);
  }

  lemma {:induction false} EvidenceHanded(s: State, step: Step, i: nat)
    requires HandBase(s) && i < |s.items| && Names(s, step, i) && !step.FinHistory?
    ensures var ids := NamedUuids(s.items[i], i, step);
            && (HandedOver(s, step.query, ids, i) <==> AllLastToCross(s, step.query, ids, i))
            && (HandedOver(s, step.query, ids, i) ==> s.items[i].given == s.items[i].parts)
  {
    var ids := NamedUuids(s.items[i], i, step);
    HandedIsLast(s, step.query, ids, i);
    NamesAtLeastWhole(s.items[i], i, step);
    if AllLastToCross(s, step.query, ids, i) {
      assert LastToCross(s, step.query, i, Whole(s.items[i].id));
      WholeMeansAll(s, step.query, i);
    }
  }

  /** Every delivered input of every run was delivered by a step that names its UUIDs: the history, or SDK evidence
      whose UUIDs were handed over for this attempt exactly when the query read them for no later one. */
  lemma {:induction false} DeliveredWasHandedOverExactly(steps: seq<Step>, i: nat) returns (k: nat)
    requires i < |Run(steps).items| && Run(steps).items[i].status.Delivered?
    ensures k < |steps| && i < |Run(steps[..k]).items| && Names(Run(steps[..k]), steps[k], i)
    ensures !steps[k].FinHistory? ==>
              var s, ids := Run(steps[..k]), NamedUuids(Run(steps[..k]).items[i], i, steps[k]);
              && (HandedOver(s, steps[k].query, ids, i) <==> AllLastToCross(s, steps[k].query, ids, i))
              && (HandedOver(s, steps[k].query, ids, i) ==> s.items[i].given == s.items[i].parts)
  {
    k := SteerRuns.DeliveredHasEvidence(steps, i);
    if !steps[k].FinHistory? {
      HandedOverExactly(steps[..k], steps[k], i);
    }
  }
}
