/** The inductive invariant of a Claude thread. */
module SteerInvariant {
  import opened Basics
  import opened InputMessages
  import opened SteerSession
  import Q = InputQueues

  /** Never handed to the SDK, for a reason that says so. */
  predicate Unhanded(status: Status) {
    || status.Preparing? || status.Erased?
    || status == NotApplied(Refused) || status == NotApplied(Unread)
  }

  predicate ItemOk(item: Item, turns: seq<Turn>) {
    && item.turn < |turns| && item.query == turns[item.turn].query && 1 <= item.parts && item.given <= item.parts
    && (Unhanded(item.status) ==> item.given == 0)
    && (item.status.Delivered? && !item.status.via.History? ==> item.given == item.parts)
    && (item.steer && item.stop.Cancelled? ==> item.status.Submitted?)
  }

  predicate ItemsOk(items: seq<Item>, turns: seq<Turn>) {
    forall i :: 0 <= i < |items| ==> ItemOk(items[i], turns)
  }

  predicate TurnOk(turn: Turn, queries: seq<Query>) {
    && (turn.query.Some? ==> turn.query.value < |queries|)
    && (!turn.fin.Running? ==> turn.query.Some?)
    && turn.completions == (if turn.fin.Ended? then 1 else 0)
    && (turn.closed ==> turn.query.Some? && queries[turn.query.value].queue.closed)
    && (turn.fin.Exiting? || turn.fin.Reading? ==> turn.closed)
  }

  predicate TurnsOk(turns: seq<Turn>, queries: seq<Query>) {
    forall t :: 0 <= t < |turns| ==> TurnOk(turns[t], queries)
  }

  predicate CurrentOk(queries: seq<Query>, current: Option<nat>) {
    && (current.Some? ==> current.value + 1 == |queries|)
    && (forall q :: 0 <= q < |queries| && current != Some(q) ==> queries[q].queue.closed)
  }

  predicate QueriesOk(turns: seq<Turn>, queries: seq<Query>) {
    forall q :: 0 <= q < |queries| ==>
      && (queries[q].turn.Some? ==> queries[q].turn.value < |turns| && turns[queries[q].turn.value].query == Some(q))
      && queries[q].receipts <= queries[q].given.Keys
  }

  /** Only a ready query runs a second turn. */
  predicate OneTurn(turns: seq<Turn>, queries: seq<Query>) {
    forall t, u :: 0 <= t < u < |turns| && turns[t].query == turns[u].query && turns[t].query.Some? ==>
      turns[t].query.value < |queries| ==> queries[turns[t].query.value].phase.Ready?
  }

  /** An identity gets a new item only after every earlier one stopped owning it. */
  predicate Unique(items: seq<Item>) {
    forall i, j :: 0 <= i < j < |items| && items[i].id == items[j].id ==> !Live(items[i])
  }

  predicate Ordered(items: seq<Item>) {
    forall i, j :: 0 <= i < j < |items| && items[i].query.Some? && items[j].query.Some? ==>
      items[i].query.value <= items[j].query.value
  }

  predicate Retired(item: Item) {
    item.status == NotApplied(Absent) || (item.status == NotApplied(Unread) && !item.steer)
  }

  /** A retired input is never submitted again to the same query. */
  predicate Separate(items: seq<Item>) {
    forall i, j :: 0 <= i < j < |items| && items[i].id == items[j].id && Retired(items[i]) ==>
      items[i].query.Some? ==> items[i].query != items[j].query
  }

  predicate RetiredOk(items: seq<Item>, turns: seq<Turn>, queries: seq<Query>) {
    forall i :: 0 <= i < |items| && Retired(items[i]) ==>
      && items[i].turn < |turns| && items[i].query.Some? && items[i].query.value < |queries|
      && (items[i].status == NotApplied(Absent) ==> queries[items[i].query.value].queue.closed)
      && (items[i].status == NotApplied(Unread) ==>
            && queries[items[i].query.value].phase.Failed?
            && !turns[items[i].turn].fin.Running?)
  }

  predicate ReadersOk(items: seq<Item>, queries: seq<Query>) {
    forall i :: 0 <= i < |items| && items[i].given > 0 ==>
      && items[i].query.Some? && items[i].query.value < |queries|
      && queries[items[i].query.value].phase.Ready?
  }

  /** A final UUID the SDK holds belongs to an attempt it received completely. */
  predicate GivenOk(items: seq<Item>, queries: seq<Query>) {
    forall q, u :: 0 <= q < |queries| && u in queries[q].given && u.Whole? ==>
      var a := queries[q].given[u];
      a < |items| && items[a].query == Some(q) && items[a].id == u.identity && items[a].given == items[a].parts
  }

  predicate MayWait(item: Item, open: bool) {
    if item.steer then item.status.Submitted? && (open ==> item.stop.Untouched?)
    else item.status.Submitted? || item.status == NotApplied(Unread)
  }

  predicate ValueOk(items: seq<Item>, q: nat, open: bool, value: Q.Value) {
    var a := value.message.attempt;
    && a < |items| && items[a].parts >= 1 && value == Submission(items[a], a)
    && items[a].given == 0 && items[a].query == Some(q) && MayWait(items[a], open)
  }

  predicate ValuesOk(items: seq<Item>, q: nat, open: bool, values: seq<Q.Value>) {
    && (forall k :: 0 <= k < |values| ==> ValueOk(items, q, open, values[k]))
    && (forall k, l :: 0 <= k < l < |values| ==> values[k].message.identity != values[l].message.identity)
  }

  predicate PendingOk(items: seq<Item>, q: nat, queue: Q.Queue) {
    queue.pending != [] ==>
      var a := queue.pending[0].attempt;
      && a < |items| && 0 < items[a].given < items[a].parts
      && queue.pending == Messages(items[a], a)[items[a].given..]
      && items[a].query == Some(q) && MayWait(items[a], !queue.closed)
      && (forall k :: 0 <= k < |queue.values| ==> queue.values[k].message.identity != items[a].id)
  }

  predicate QueuesOk(items: seq<Item>, queries: seq<Query>) {
    forall q :: 0 <= q < |queries| ==>
      && ValuesOk(items, q, !queries[q].queue.closed, queries[q].queue.values)
      && PendingOk(items, q, queries[q].queue)
  }

  predicate SteerTurns(items: seq<Item>, turns: seq<Turn>, queries: seq<Query>) {
    forall i :: 0 <= i < |items| && items[i].steer ==>
      && items[i].turn < |turns| && turns[items[i].turn].query.Some? && turns[items[i].turn].query.value < |queries|
      && (!turns[items[i].turn].fin.Ended? ==>
            queries[turns[items[i].turn].query.value].turn == Some(items[i].turn))
  }

  /** No steer of the turn waits in the queue. */
  predicate Drained(items: seq<Item>, queue: Q.Queue, t: nat) {
    && (forall k :: 0 <= k < |queue.values| && queue.values[k].message.attempt < |items| ==>
          !(items[queue.values[k].message.attempt].steer && items[queue.values[k].message.attempt].turn == t))
    && (forall k :: 0 <= k < |queue.pending| && queue.pending[k].attempt < |items| ==>
          !(items[queue.pending[k].attempt].steer && items[queue.pending[k].attempt].turn == t))
  }

  /** Every steer of the turn has an outcome, unless Stop took it. */
  predicate Settled(items: seq<Item>, t: nat) {
    forall i :: 0 <= i < |items| && items[i].turn == t && items[i].steer && items[i].status.Submitted? ==>
      !items[i].stop.Untouched?
  }

  predicate ReadingOk(items: seq<Item>, open: set<nat>, t: nat, queue: Q.Queue) {
    && queue.values == [] && queue.pending == []
    && (forall i <- open :: i < |items| && items[i].steer && items[i].turn == t && items[i].status.Submitted?)
  }

  predicate FinsOk(items: seq<Item>, turns: seq<Turn>, queries: seq<Query>) {
    forall t :: 0 <= t < |turns| && turns[t].query.Some? && turns[t].query.value < |queries| ==>
      var queue := queries[turns[t].query.value].queue;
      && (turns[t].fin.Reading? ==> ReadingOk(items, turns[t].fin.open, t, queue))
      && (turns[t].fin.Reading? || turns[t].fin.Saving? || turns[t].fin.Ended? ==>
            queue.closed || (Drained(items, queue, t) && Settled(items, t)))
  }

  /** Item `i` is a steer of a turn that has ended. */
  predicate EndedSteer(s: State, i: nat) {
    i < |s.items| && s.items[i].steer && s.items[i].turn < |s.turns| && s.turns[s.items[i].turn].fin.Ended?
  }

  /** The step turns a direct turn/steer into an item although another live item owns its identity. */
  predicate Reuses(s: State, step: Step) {
    && step.SteerConverted? && step.ok && step.parts > 0
    && s.op.Converting? && !s.op.start && Admitted(s, s.op.turn) && !NoLiveOwner(s.items, s.op.id)
  }

  /** An interrupt receipt speaks of an input that the SDK was given and has not settled: a submitted steer
      that has left the queue, or a start that is saved. */
  predicate Honest(s: State, step: Step) {
    step.StopReceipt? && step.item < |s.items| ==>
      if s.items[step.item].steer
      then s.items[step.item].status.Submitted?
           && (ActiveQuery(s) ==> !Queued(s.queries[s.current.value].queue, step.item))
      else !s.items[step.item].status.Preparing?
  }

  predicate NeverReuses(steps: seq<Step>) {
    forall k :: 0 <= k < |steps| ==> !Reuses(Run(steps[..k]), steps[k])
  }

  /** Callers give each direct turn/steer a free identity, and the SDK's receipts are honest. */
  predicate Disciplined(steps: seq<Step>) {
    forall k :: 0 <= k < |steps| ==> !Reuses(Run(steps[..k]), steps[k]) && Honest(Run(steps[..k]), steps[k])
  }

  /** Further steps from a state. */
  function RunFrom(s: State, steps: seq<Step>): State
    decreases |steps|
  {
    if steps == [] then s else RunFrom(Apply(s, steps[0]), steps[1..])
  }

  lemma {:induction false} RunOne(steps: seq<Step>, a: Step)
    ensures Run(steps + [a]) == Apply(Run(steps), a)
  {
    assert (steps + [a])[..|steps|] == steps;
  }

  lemma {:induction false} PrefixDisciplined(front: seq<Step>, steps: seq<Step>)
    requires front <= steps && Disciplined(steps)
    ensures Disciplined(front)
  {
    forall k | 0 <= k < |front|
      ensures !Reuses(Run(front[..k]), front[k]) && Honest(Run(front[..k]), front[k])
    {
      assert front[..k] == steps[..k];
    }
  }

  predicate OpOk(s: State) {
    match s.op
    case Idle => true
    case Converting(id, content, t, start) => start ==> NoLiveOwner(s.items, id)
    case AwaitingEnd(id, content, t) => NoLiveOwner(s.items, id)
    case PreparingStart(id, content) => NoLiveOwner(s.items, id)
    case SavingSteer(i, start) =>
      i + 1 == |s.items| && s.items[i].steer && s.items[i].status.Preparing? && s.items[i].stop.Untouched?
    case SavingStart(i) =>
      && i + 1 == |s.items| && !s.items[i].steer && s.items[i].status.Preparing? && s.items[i].stop.Untouched?
      && s.items[i].turn < |s.turns|
      && (forall j :: 0 <= j < i ==> s.items[j].turn != s.items[i].turn)
      && (s.turns[s.items[i].turn].query.None? ==> s.current.None?)
      && (s.turns[s.items[i].turn].query.Some? ==>
            && s.turns[s.items[i].turn].query.value < |s.queries|
            && s.queries[s.turns[s.items[i].turn].query.value].phase.Ready?)
  }

  /** A reserved turn owns no steer, so Stop may clear it. */
  predicate ReservingOk(s: State) {
    forall q :: 0 <= q < |s.queries| && s.queries[q].reserving ==>
      && s.op.SavingStart? && s.op.item < |s.items| && s.items[s.op.item].query == Some(q)
      && (forall i :: 0 <= i < |s.items| && s.items[i].steer ==> s.queries[q].turn != Some(s.items[i].turn))
  }

  ghost predicate Inv(s: State) {
    && ItemsOk(s.items, s.turns)
    && TurnsOk(s.turns, s.queries)
    && CurrentOk(s.queries, s.current)
    && QueriesOk(s.turns, s.queries)
    && OneTurn(s.turns, s.queries)
    && Unique(s.items)
    && Ordered(s.items)
    && Separate(s.items)
    && RetiredOk(s.items, s.turns, s.queries)
    && ReadersOk(s.items, s.queries)
    && GivenOk(s.items, s.queries)
    && QueuesOk(s.items, s.queries)
    && SteerTurns(s.items, s.turns, s.queries)
    && FinsOk(s.items, s.turns, s.queries)
    && OpOk(s)
    && ReservingOk(s)
  }

  // ------------------------------------------------------------------ kinds of step

  predicate RequestStep(step: Step) {
    || step.StartRequest? || step.SteerRequest? || step.EndAwaited? || step.SteerConverted? || step.SteerSaved?
    || step.StartPrepared? || step.StartSaved?
  }

  predicate SdkStep(step: Step) {
    step.Pulled? || step.EchoSeen? || step.ReplySeen? || step.ReceiptSeen? || step.ReceiptsComplete?
  }

  predicate FinalStep(step: Step) {
    step.FinishTurn? || step.FinChecked? || step.FinExited? || step.FinHistory? || step.FinEnded?
  }

  // ------------------------------------------------------------------ a finalizer's sweep of queued steers

  predicate Swept(items: seq<Item>, values: seq<Q.Value>, after: seq<Item>, rest: seq<Q.Value>, t: nat) {
    && |after| == |items|
    && (forall j :: 0 <= j < |items| ==>
          || after[j] == items[j]
          || (items[j].turn == t && Outstanding(items[j]) && items[j].given == 0
              && after[j] == items[j].(status := NotApplied(Unread))))
    && (forall k :: 0 <= k < |rest| ==> rest[k] in values)
    && (forall k :: 0 <= k < |values| ==>
          || values[k] in rest
          || (values[k].message.attempt < |items|
              && after[values[k].message.attempt] != items[values[k].message.attempt]))
  }

  predicate Absentees(items: seq<Item>, values: seq<Q.Value>, t: nat, i: nat) {
    forall j :: i <= j < |items| && items[j].turn == t && Outstanding(items[j]) ==>
      Q.FindIdentity(values, items[j].id) == |values|
  }

  predicate Sweepable(items: seq<Item>, values: seq<Q.Value>, q: nat, open: bool, t: nat) {
    && Unique(items) && Separate(items) && ValuesOk(items, q, open, values)
    && (forall j :: 0 <= j < |items| && items[j].turn == t ==> items[j].query == Some(q))
  }

  predicate SweptAll(items: seq<Item>, values: seq<Q.Value>, q: nat, open: bool, t: nat, i: nat,
                     after: seq<Item>, rest: seq<Q.Value>) {
    Swept(items, values, after, rest, t) && ValuesOk(after, q, open, rest) && Absentees(after, rest, t, i)
  }

  lemma {:induction false} InitOk(s: State)
    requires s == Init
    ensures Inv(s)
  {
    EmptyItems(s.items, s.turns);
    EmptyTurns(s.turns, s.queries);
    EmptyTraffic(s.items, s.queries);
    EmptyStages(s.items, s.turns, s.queries);
  }

  lemma {:induction false} EmptyItems(items: seq<Item>, turns: seq<Turn>)
    requires |items| == 0
    ensures ItemsOk(items, turns) && Unique(items) && Ordered(items) && Separate(items)
  {
  }

  lemma {:induction false} EmptyTurns(turns: seq<Turn>, queries: seq<Query>)
    requires |turns| == 0 && |queries| == 0
    ensures TurnsOk(turns, queries) && CurrentOk(queries, None) && QueriesOk(turns, queries) && OneTurn(turns, queries)
  {
  }

  lemma {:induction false} EmptyTraffic(items: seq<Item>, queries: seq<Query>)
    requires |items| == 0 && |queries| == 0
    ensures ReadersOk(items, queries) && GivenOk(items, queries) && QueuesOk(items, queries)
  {
  }

  lemma {:induction false} EmptyStages(items: seq<Item>, turns: seq<Turn>, queries: seq<Query>)
    requires |items| == 0 && |turns| == 0
    ensures RetiredOk(items, turns, queries) && SteerTurns(items, turns, queries) && FinsOk(items, turns, queries)
  {
  }
}
