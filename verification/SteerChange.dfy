/** What one step, and any run, may change between two states of a Claude thread. */
module SteerChange {
  import opened Basics
  import opened InputMessages
  import opened SteerSession
  import Q = InputQueues

  predicate StillRunning(turns: seq<Turn>, t: nat) {
    t < |turns| && turns[t].fin.Running?
  }

  /** What one step may do to an item. */
  predicate ItemProgress(a: Item, b: Item) {
    && b.turn == a.turn && b.id == a.id && b.content == a.content && b.steer == a.steer && b.parts == a.parts
    && a.given <= b.given && (a.status.Erased? ==> b.status.Erased?)
  }

  predicate ItemsProgress(a: seq<Item>, b: seq<Item>, turns: seq<Turn>) {
    && |a| <= |b|
    && (forall i :: 0 <= i < |a| ==> ItemProgress(a[i], b[i]))
    && (forall i :: |a| <= i < |b| ==> b[i].status.Preparing? && (b[i].steer ==> StillRunning(turns, b[i].turn)))
  }

  predicate TurnProgress(a: Turn, b: Turn) {
    && (!a.fin.Running? ==> !b.fin.Running?)
    && (a.fin.Ended? ==> b.fin.Ended?)
    && (a.query.Some? ==> b.query == a.query)
  }

  predicate TurnsProgress(a: seq<Turn>, b: seq<Turn>) {
    |a| <= |b| && forall t :: 0 <= t < |a| ==> TurnProgress(a[t], b[t])
  }

  predicate Progress(s: State, n: State) {
    ItemsProgress(s.items, n.items, s.turns) && TurnsProgress(s.turns, n.turns)
  }

  /** What happens between a state and any later state of the same run. */
  predicate Later(s: State, n: State) {
    && |s.items| <= |n.items|
    && (forall i :: 0 <= i < |s.items| ==> ItemProgress(s.items[i], n.items[i]))
    && (forall i :: |s.items| <= i < |n.items| && n.items[i].steer && n.items[i].turn < |s.turns| ==>
          s.turns[n.items[i].turn].fin.Running?)
    && TurnsProgress(s.turns, n.turns)
  }

  // ------------------------------------------------------------------ effects of steps

  /** No message crossed the SDK iterator. */
  predicate SameReads(s: State, n: State) {
    |s.items| <= |n.items| && forall i :: 0 <= i < |s.items| ==> n.items[i].given == s.items[i].given
  }

  predicate NoDelivery(s: State, n: State) {
    && |s.items| <= |n.items|
    && (forall i :: 0 <= i < |s.items| && n.items[i].status.Delivered? ==> s.items[i].status.Delivered?)
  }

  /** No history proves an input absent. */
  predicate NoAbsence(s: State, n: State) {
    && |s.items| <= |n.items|
    && (forall i :: 0 <= i < |s.items| && n.items[i].status == NotApplied(Absent) ==>
          s.items[i].status == NotApplied(Absent))
  }

  predicate SteerSubmitted(a: Item, b: Item) {
    b.steer && b.status.Submitted? && !a.status.Submitted?
  }

  /** A steer becomes submitted only while its turn runs. */
  predicate SubmitsRunning(s: State, n: State) {
    && |s.items| <= |n.items|
    && (forall i :: 0 <= i < |s.items| && SteerSubmitted(s.items[i], n.items[i]) ==>
          StillRunning(s.turns, s.items[i].turn))
  }

  predicate HasOutcome(item: Item) {
    Shows(item).AsDelivered? || Shows(item).AsNotApplied?
  }

  /** Items with an outcome keep it. */
  predicate Keeps(s: State, n: State) {
    && |s.items| <= |n.items|
    && (forall i :: 0 <= i < |s.items| && HasOutcome(s.items[i]) ==>
          Shows(n.items[i]) == Shows(s.items[i]) && n.items[i].status == s.items[i].status)
  }

  predicate EvidenceStep(step: Step) {
    step.EchoSeen? || step.ReplySeen? || step.ReceiptsComplete? || step.FinHistory?
  }

  /** The steps that write an outcome over another one. */
  predicate WritesOver(step: Step) {
    step.FinHistory? || step.Stop? || step.StopReceipt? || step.SteerSaved?
  }

  /** The step reads nothing, proves nothing and submits only to running turns. */
  predicate Silently(s: State, n: State) {
    Progress(s, n) && SameReads(s, n) && NoDelivery(s, n) && NoAbsence(s, n) && SubmitsRunning(s, n)
  }

  /** And every outcome is kept. */
  predicate Quietly(s: State, n: State) {
    Silently(s, n) && Keeps(s, n)
  }

  predicate Delivers(s: State, n: State) {
    Progress(s, n) && SameReads(s, n) && NoAbsence(s, n) && SubmitsRunning(s, n) && Keeps(s, n)
  }

  /** Submitted inputs of the turn may have been taken back unread; nothing else changed. */
  predicate TakenBack(a: seq<Item>, b: seq<Item>, t: nat) {
    && |a| == |b|
    && (forall i :: 0 <= i < |a| && b[i] != a[i] ==>
          && a[i].turn == t && a[i].status.Submitted? && (a[i].steer ==> !a[i].stop.Cancelled?)
          && b[i] == a[i].(status := NotApplied(Unread)))
  }

  /** The step leaves the request in flight and the start that it saves alone. */
  predicate Held(s: State, n: State) {
    && n.op == s.op && |n.items| == |s.items|
    && (forall i :: 0 <= i < |s.items| && !s.items[i].steer && s.items[i].status.Preparing? ==>
          n.items[i].status.Preparing?)
    && (forall i :: 0 <= i < |s.items| ==> Spared(s.items[i], n.items[i], StillRunning(s.turns, s.items[i].turn)))
  }

  /** The item is not erased or refused, and becomes not applied only when its turn has stopped running. */
  predicate Spared(a: Item, b: Item, running: bool) {
    && (b.status.Erased? ==> a.status.Erased?)
    && (b.status == NotApplied(Refused) ==> a.status == NotApplied(Refused))
    && (b.status.NotApplied? ==> a.status.NotApplied? || !running)
  }

  /** Nothing entered the queue, and a closed queue stays closed. */
  predicate Narrows(a: Q.Queue, b: Q.Queue) {
    && (b.pending == a.pending || b.pending == [])
    && (forall v <- b.values :: v in a.values)
    && (Rising(a.values) ==> Rising(b.values))
    && (a.closed ==> b.closed)
  }

  predicate QueryNarrows(a: Query, b: Query) {
    Narrows(a.queue, b.queue) && (!a.phase.Starting? ==> b.phase == a.phase)
  }

  predicate NarrowsAll(a: seq<Query>, b: seq<Query>) {
    |a| == |b| && forall q :: 0 <= q < |a| ==> QueryNarrows(a[q], b[q])
  }

  // ------------------------------------------------------------------ what every run keeps

  predicate ItemsBase(items: seq<Item>, turns: seq<Turn>) {
    forall i :: 0 <= i < |items| ==> items[i].turn < |turns|
  }

  /** A turn records an identity once. */
  predicate OncePerTurn(items: seq<Item>) {
    forall i, j :: 0 <= i < j < |items| && items[i].id == items[j].id && items[i].turn == items[j].turn ==>
      items[i].status.Erased? || items[j].status.Erased?
  }

  predicate CompletedOnce(turns: seq<Turn>) {
    forall t :: 0 <= t < |turns| ==> turns[t].completions == if turns[t].fin.Ended? then 1 else 0
  }

  /** A request is saving this item. */
  predicate BeingSaved(s: State, i: nat) {
    (s.op.SavingSteer? || s.op.SavingStart?) && s.op.item == i
  }

  /** The item that a request is saving is the newest, was never read and waits in no queue. */
  predicate OpBase(s: State) {
    match s.op
    case Converting(id, content, t, start) => t < |s.turns| && !InTurn(s.items, id, t)
    case SavingSteer(i, start) =>
      && i + 1 == |s.items| && s.items[i].steer && !s.items[i].status.Erased? && s.items[i].given == 0
      && (s.items[i].status.NotApplied? ==> !StillRunning(s.turns, s.items[i].turn))
      && (forall q :: 0 <= q < |s.queries| ==> !Queued(s.queries[q].queue, i))
    case SavingStart(i) =>
      && i + 1 == |s.items| && !s.items[i].steer && s.items[i].status.Preparing? && s.items[i].given == 0
      && (forall q :: 0 <= q < |s.queries| ==> !Queued(s.queries[q].queue, i))
    case _ => true
  }

  /** The items that a finalizer asks the history about are steers of its turn. */
  predicate ReadingBase(items: seq<Item>, turns: seq<Turn>) {
    forall t :: 0 <= t < |turns| && turns[t].fin.Reading? ==>
      forall i <- turns[t].fin.open  ::
        i < |items| && items[i].turn == t && items[i].steer && !items[i].status.Erased?
  }

  /** The message carries the identity of a recorded item. */
  predicate Tagged(items: seq<Item>, m: Message) {
    m.attempt < |items| && m.identity == items[m.attempt].id && !items[m.attempt].status.Erased?
  }

  /** And the query serves the item's turn. */
  predicate Owned(items: seq<Item>, turns: seq<Turn>, q: nat, m: Message) {
    && Tagged(items, m)
    && items[m.attempt].turn < |turns| && turns[items[m.attempt].turn].query == Some(q)
  }

  predicate ValueBase(items: seq<Item>, turns: seq<Turn>, q: nat, value: Q.Value) {
    && Owned(items, turns, q, value.message) && Q.Parts(value) != []
    && (forall m <- Q.Parts(value) :: m.attempt == value.message.attempt && m.identity == value.message.identity)
  }

  /** Values wait in the order of their attempts. */
  predicate Rising(values: seq<Q.Value>) {
    forall k, l :: 0 <= k < l < |values| ==> values[k].message.attempt < values[l].message.attempt
  }

  /** Every attempt waits at most once. */
  predicate Apart(values: seq<Q.Value>) {
    forall k, l :: 0 <= k < l < |values| ==> values[k].message.attempt != values[l].message.attempt
  }

  /** The iterator hands over one attempt at a time. */
  predicate Level(pending: seq<Message>) {
    forall k, l :: 0 <= k < l < |pending| ==> pending[k].attempt == pending[l].attempt
  }

  predicate QueueBase(items: seq<Item>, turns: seq<Turn>, q: nat, queue: Q.Queue) {
    && (forall v <- queue.values :: ValueBase(items, turns, q, v))
    && (forall m <- queue.pending :: Owned(items, turns, q, m))
    && Rising(queue.values) && Level(queue.pending)
    && (forall m <- queue.pending, v <- queue.values :: m.attempt < v.message.attempt)
  }

  predicate QueuesBase(items: seq<Item>, turns: seq<Turn>, queries: seq<Query>) {
    forall q :: 0 <= q < |queries| ==> QueueBase(items, turns, q, queries[q].queue)
  }

  /** What holds in every run, whatever callers and the SDK send. */
  predicate Base(s: State) {
    && ItemsBase(s.items, s.turns) && OncePerTurn(s.items) && CompletedOnce(s.turns)
    && OpBase(s) && ReadingBase(s.items, s.turns) && QueuesBase(s.items, s.turns, s.queries)
  }

  /** What a step outside the serialized requests must show. */
  predicate Settling(s: State, n: State) {
    && Held(s, n) && NarrowsAll(s.queries, n.queries) && CompletedOnce(n.turns) && ReadingBase(n.items, n.turns)
  }

  /** The bridge pushes a freshly saved item. */
  predicate PushesTo(s: State, n: State, q: nat, i: nat) {
    && i < |s.items| && s.items[i].parts >= 1 && |n.items| == |s.items| && n.items == s.items[i := n.items[i]]
    && !n.items[i].status.Erased? && n.items[i].turn < |n.turns| && n.turns[n.items[i].turn].query == Some(q)
    && q <= |s.queries| && |n.queries| == (if q < |s.queries| then |s.queries| else q + 1)
    && (q < |s.queries| ==>
          !s.queries[q].queue.closed && n.queries[q].queue == Q.Push(s.queries[q].queue, Submission(s.items[i], i)))
    && (q == |s.queries| ==> n.queries[q].queue == Q.Push(Q.EmptyQueue, Submission(s.items[i], i)))
    && (forall p :: 0 <= p < |s.queries| && p < |n.queries| && p != q ==> QueryNarrows(s.queries[p], n.queries[p]))
    && (q < |s.queries| ==> n.queries[q].phase == s.queries[q].phase)
  }
}
