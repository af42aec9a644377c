/** The exact conditions under which a run breaks a promise of the bridge. */
module SteerExact {
  import opened Basics
  import opened InputMessages
  import opened SteerSession
  import opened SteerInvariant
  import opened SteerChange
  import Subsequences
  import Q = InputQueues
  import H = HistoryIndex
  import O = HistoryOutcome
  import T = HistoryOutcomeTheorems

  // ------------------------------------------------------------------ outcomes

  /** Stop withdraws every UUID of the steer, the newest item of its identity, from the live queue. */
  predicate StopTakes(s: State, i: nat)
    requires i < |s.items|
  {
    && RunningTurn(s).Some? && RunningTurn(s).value < |s.turns|
    && s.items[i].steer && LastOfId(s.items, i)
    && var unread := Q.Unread(s.queries[s.current.value].queue);
       forall u <- Uuids(Messages(s.items[i], i)) :: exists m <- unread :: m.uuid == u
  }

  /** The step writes another deliveryStatus over the outcome of item `i`: a verdict that differs, Stop,
      an interrupt receipt, or the save of the item itself. */
  predicate Overturns(s: State, step: Step, i: nat) {
    && i < |s.items|
    && match step
       case FinHistory(t, history) =>
         && Finalizing(s, t) && s.turns[t].fin.Reading? && i in s.turns[t].fin.open
         && var verdict := HistoryVerdict(s.items, t, i, history);
            || (verdict.NotApplied? && !Shows(s.items[i]).AsNotApplied?)
            || (verdict.Delivered? && !Shows(s.items[i]).AsDelivered?)
       case Stop => StopTakes(s, i)
       case StopReceipt(j, cancelled) => j == i && s.items[i].steer
       case SteerSaved(ok) =>
         && s.op.SavingSteer? && s.op.item == i && s.items[i].parts > 0
         && ((ok && Admitted(s, s.items[i].turn)) || !Shows(s.items[i]).AsNotApplied?)
       case _ => false
  }

  predicate NeverOverturns(before: seq<Step>, after: seq<Step>, i: nat) {
    forall k :: 0 <= k < |after| ==> !Overturns(Run(before + after[..k]), after[k], i)
  }

  predicate ReadsAs(s: State, i: nat, shown: Shown) {
    i < |s.items| && Shows(s.items[i]) == shown
  }

  /** The item reads the same after each further step. */
  predicate KeepsOutcome(before: seq<Step>, after: seq<Step>, i: nat)
    requires i < |Run(before).items|
  {
    forall k :: 0 <= k <= |after| ==> ReadsAs(Run(before + after[..k]), i, Shows(Run(before).items[i]))
  }

  // ------------------------------------------------------------------ owners

  predicate Creates(step: Step) {
    step.SteerConverted? || step.StartPrepared?
  }

  /** The step gives an identity a new item while another item of it is live. */
  predicate Doubles(s: State, n: State) {
    |n.items| > |s.items| && !NoLiveOwner(s.items, n.items[|s.items|].id)
  }

  /** The step turns the turn/start in flight into an item. */
  predicate StartCreates(s: State, step: Step) {
    match step
    case SteerConverted(ok, parts) => ok && parts > 0 && s.op.Converting? && s.op.start && Admitted(s, s.op.turn)
    case StartPrepared(ok, parts) => ok && parts > 0 && s.op.PreparingStart? && Startable(s)
    case _ => false
  }

  /** It does so although the identity is live. */
  predicate Late(s: State, step: Step) {
    StartCreates(s, step) && !NoLiveOwner(s.items, s.op.id)
  }

  /** A prepared start becomes an item: there is no live query, or it is ready and free. */
  predicate Startable(s: State) {
    || s.current.None?
    || (ActiveQuery(s)
        && var query := s.queries[s.current.value];
           query.phase.Ready? && query.turn.None? && !query.queue.closed)
  }

  /** The step gives item `i`, which is not applied, another status, so that it owns its identity again. */
  predicate RevivesItem(s: State, step: Step, i: nat) {
    i < |s.items| && Shows(s.items[i]).AsNotApplied? && Overturns(s, step, i)
  }

  predicate Revives(s: State, step: Step) {
    exists i :: 0 <= i < |s.items| && RevivesItem(s, step, i)
  }

  predicate NeverRevives(steps: seq<Step>) {
    forall k :: 0 <= k < |steps| ==> !Revives(Run(steps[..k]), steps[k])
  }

  /** A newer item has the same identity. */
  predicate Surpassed(items: seq<Item>, i: nat) {
    i < |items| && exists j :: i < j < |items| && items[i].id == items[j].id
  }

  /** The step makes an older item of an identity live, or adds a newer one to a live identity. */
  predicate Clashes(s: State, step: Step) {
    || Reuses(s, step) || Late(s, step)
    || (exists i :: 0 <= i < |s.items| && Surpassed(s.items, i) && RevivesItem(s, step, i))
  }

  /** A turn/start of this identity has passed its check and is not settled. */
  predicate InFlight(s: State, id: string) {
    match s.op
    case Converting(other, content, t, start) => start && other == id
    case AwaitingEnd(other, content, t) => other == id
    case PreparingStart(other, content) => other == id
    case SavingSteer(i, start) => start && i < |s.items| && s.items[i].id == id
    case _ => false
  }

  predicate LiveAt(s: State, id: string, i: nat) {
    i < |s.items| && s.items[i].id == id && Live(s.items[i])
  }

  /** Step `k` revives item `i` of the identity while a turn/start of it is in flight, and both last. */
  predicate RevivedAt(steps: seq<Step>, id: string, i: nat, k: nat) {
    && k < |steps| && RevivesItem(Run(steps[..k]), steps[k], i)
    && (forall l :: k <= l <= |steps| ==> FlightAfter(steps[..l], id))
    && (forall l :: k < l <= |steps| ==> LiveAfter(steps[..l], id, i))
  }

  predicate FlightAfter(steps: seq<Step>, id: string) {
    InFlight(Run(steps), id)
  }

  predicate LiveAfter(steps: seq<Step>, id: string, i: nat) {
    LiveAt(Run(steps), id, i)
  }

  /** The step turns a turn/start into an item although an item of its identity was revived after the request's
      check. */
  ghost predicate AfterRevival(steps: seq<Step>, step: Step) {
    StartCreates(Run(steps), step) && exists i, k :: RevivedAt(steps, Run(steps).op.id, i, k)
  }

  /** The step reuses an identity, follows a revival in flight, or revives an item that a newer one surpasses. */
  ghost predicate ClashesAfter(steps: seq<Step>, step: Step) {
    || Reuses(Run(steps), step) || AfterRevival(steps, step)
    || (exists i :: Surpassed(Run(steps).items, i) && RevivesItem(Run(steps), step, i))
  }

  ghost predicate NeverClashes(steps: seq<Step>) {
    forall k :: 0 <= k < |steps| ==> !ClashesAfter(steps[..k], steps[k])
  }

  predicate AlwaysUnique(steps: seq<Step>) {
    forall k :: 0 <= k <= |steps| ==> Unique(Run(steps[..k]).items)
  }

  /** The identity of a turn/start in flight has no live owner. */
  predicate OpFree(s: State) {
    match s.op
    case Converting(id, content, t, start) => start ==> NoLiveOwner(s.items, id)
    case AwaitingEnd(id, content, t) => NoLiveOwner(s.items, id)
    case PreparingStart(id, content) => NoLiveOwner(s.items, id)
    case SavingSteer(i, start) => start && i < |s.items| ==> NoLiveOwner(s.items[..i], s.items[i].id)
    case _ => true
  }

  // ------------------------------------------------------------------ contents

  /** Two recorded items of one identity have the same content. */
  predicate OneContent(items: seq<Item>) {
    forall i :: 0 <= i < |items| && !items[i].status.Erased? ==> SameContent(items, items[i].id, items[i].content)
  }

  /** A request that turn/start has checked repeats the recorded content. */
  predicate OpContent(s: State) {
    match s.op
    case Converting(id, content, t, start) => start ==> SameContent(s.items, id, content)
    case AwaitingEnd(id, content, t) => SameContent(s.items, id, content)
    case PreparingStart(id, content) => SameContent(s.items, id, content)
    case _ => true
  }

  /** The step turns a direct turn/steer into an item although its identity is recorded with other content. */
  predicate Differs(s: State, step: Step) {
    && step.SteerConverted? && step.ok && step.parts > 0
    && s.op.Converting? && !s.op.start && Admitted(s, s.op.turn) && !SameContent(s.items, s.op.id, s.op.content)
  }

  predicate NeverDiffers(steps: seq<Step>) {
    forall k :: 0 <= k < |steps| ==> !Differs(Run(steps[..k]), steps[k])
  }

  predicate AlwaysOneContent(steps: seq<Step>) {
    forall k :: 0 <= k <= |steps| ==> OneContent(Run(steps[..k]).items)
  }

  // ------------------------------------------------------------------ the finalizer's sweep

  predicate SteerOf(items: seq<Item>, a: nat, t: nat) {
    a < |items| && items[a].steer && items[a].turn == t
  }

  /** No value of the queue belongs to a steer of the turn. */
  predicate Clear(items: seq<Item>, values: seq<Q.Value>, t: nat) {
    forall v <- values :: !SteerOf(items, v.message.attempt, t)
  }

  /** The sweep finds a queued value by its identity: the first one with it. */
  function FirstValue(values: seq<Q.Value>, identity: string): Option<Q.Value> {
    var at := Q.FindIdentity(values, identity);
    if at < |values| then Some(values[at]) else None
  }

  /** Every queued steer of the turn is outstanding, and no value of its identity waits before it. */
  predicate Findable(items: seq<Item>, values: seq<Q.Value>, t: nat) {
    forall v <- values :: SteerOf(items, v.message.attempt, t) ==>
      Outstanding(items[v.message.attempt]) && FirstValue(values, v.message.identity) == Some(v)
  }

  /** The sweep, from item `i` on, takes this value out of the queue. */
  predicate Takes(items: seq<Item>, values: seq<Q.Value>, t: nat, i: nat, v: Q.Value) {
    exists j :: i <= j < |items| && items[j].turn == t && Outstanding(items[j])
                && FirstValue(values, items[j].id) == Some(v)
  }

  // ------------------------------------------------------------------ reads

  /** The SDK can still take messages out of the query's queue. */
  predicate Readable(s: State, q: nat) {
    q < |s.queries| && !s.queries[q].queue.closed && !s.queries[q].phase.Failed?
  }

  /** The input waits in a queue that the SDK can still read. */
  predicate Waiting(s: State, i: nat) {
    exists q :: 0 <= q < |s.queries| && Readable(s, q) && Queued(s.queries[q].queue, i)
  }

  /** A request that is saving the input may still push it. */
  predicate MayEnter(s: State, i: nat) {
    i < |s.items| && BeingSaved(s, i) && (s.items[i].steer ==> StillRunning(s.turns, s.items[i].turn))
  }

  /** The further steps hand over more of the input. */
  predicate ReadsMore(before: seq<Step>, after: seq<Step>, i: nat) {
    && i < |Run(before).items| && i < |Run(before + after).items|
    && Run(before + after).items[i].given > Run(before).items[i].given
  }

  /** The sweep leaves a message of the steer in the queue: one that the iterator has begun to hand over, or a
      value that it cannot find. */
  predicate Missed(items: seq<Item>, queue: Q.Queue, i: nat)
    requires i < |items|
  {
    || (exists m <- queue.pending :: m.attempt == i)
    || (exists v <- queue.values :: v.message.attempt == i
          && (!Outstanding(items[i]) || FirstValue(queue.values, v.message.identity) != Some(v)))
  }

  // ------------------------------------------------------------------ evidence

  /** The history places every native id of the item once, in order, as an input after the turn's first one. */
  ghost predicate ShownBy(items: seq<Item>, t: nat, i: nat, history: Option<NativeHistory>) {
    && history.Some? && i < |items|
    && var ids := NativeTexts(Uuids(Messages(items[i], i)));
       && T.Anchored(history.value.rows, history.value.sessionId, HistoryIds(items, FirstOf(items, t)), Some(ids))
       && O.InOrder(O.ChainOf(history.value.rows), ids)
       && (forall id <- ids :: T.IsInput(history.value.rows, id))
  }

  /** No native id of the item is an input or a queued command of the history, and no row is opaque. */
  ghost predicate MissingFrom(items: seq<Item>, t: nat, i: nat, history: Option<NativeHistory>) {
    && history.Some? && i < |items|
    && var ids := NativeTexts(Uuids(Messages(items[i], i)));
       && T.Anchored(history.value.rows, history.value.sessionId, HistoryIds(items, FirstOf(items, t)), Some(ids))
       && (forall id <- ids :: !T.IsInput(history.value.rows, id) && !T.IsQueued(history.value.rows, id))
       && (forall row <- history.value.rows :: row.kind != Some(H.Opaque))
  }

  /** The step asks the history about item `i`, which its turn left open. */
  predicate Asks(s: State, step: Step, i: nat) {
    && i < |s.items| && step.FinHistory? && step.turn == s.items[i].turn && step.turn < |s.turns|
    && s.turns[step.turn].fin.Reading? && i in s.turns[step.turn].fin.open
  }

  /** The step names every native UUID of item `i`, or the final one when it is a replay echo. */
  ghost predicate Names(s: State, step: Step, i: nat)
    requires i < |s.items|
  {
    var ids := Uuids(Messages(s.items[i], i));
    match step
    case EchoSeen(q, id, since) =>
      Listening(s, q) && id == s.items[i].id && EchoedItem(s, q, id, since) == i && Whole(id) in s.queries[q].given
    case ReplySeen(q, j, consumed) =>
      && j == i && Listening(s, q) && Outstanding(s.items[i])
      && Subsequences.Subsequence(ids, consumed) && (forall u <- consumed :: u in s.queries[q].given)
    case ReceiptsComplete(q, j) =>
      j == i && Listening(s, q) && Outstanding(s.items[i]) && (forall u <- ids :: u in s.queries[q].receipts)
    case FinHistory(t, history) => Asks(s, step, i) && ShownBy(s.items, t, i, history)
    case _ => false
  }

  /** The UUIDs of item `i` that SDK evidence names; a history verdict names none to a query. */
  function NamedUuids(item: Item, i: nat, step: Step): seq<Uuid> {
    match step
    case EchoSeen(q, id, since) => [Whole(item.id)]
    case ReplySeen(q, j, consumed) => Uuids(Messages(item, i))
    case ReceiptsComplete(q, j) => Uuids(Messages(item, i))
    case _ => []
  }

  /** The query that gave the evidence was last given each of these UUIDs for this attempt. */
  predicate HandedOver(s: State, q: nat, ids: seq<Uuid>, i: nat) {
    q < |s.queries| && forall u <- ids :: u in s.queries[q].given && s.queries[q].given[u] == i
  }

  /** The query serves the item's turn and has read a part of the item with this UUID. */
  predicate Crossed(s: State, q: nat, i: nat, u: Uuid) {
    && i < |s.items| && s.items[i].turn < |s.turns| && s.turns[s.items[i].turn].query == Some(q)
    && (exists k :: 0 <= k < s.items[i].given && k < s.items[i].parts && Messages(s.items[i], i)[k].uuid == u)
  }

  /** And it has read that UUID for no later item. */
  predicate LastToCross(s: State, q: nat, i: nat, u: Uuid) {
    Crossed(s, q, i, u) && forall j :: i < j < |s.items| ==> !Crossed(s, q, j, u)
  }
}
