/**
 One Claude thread of the bridge: input submission, steering, delivery evidence and
 turn finalization (claude-bridge/bridge.ts; the synchronous part of Stop is in
 claude-bridge/stop-inputs.ts).

 The bridge runs on one event loop, so each `Step` is one stretch of code between two
 awaits. Serialized requests (turn/start, turn/steer) share `op`; timers, SDK
 messages, Stop, finalizers and query loss interleave freely. A step whose guard does
 not hold leaves the state unchanged, so `Run` ranges over every interleaving.

 `items` lists every user-input item the bridge ever created for the thread, in
 creation order, and an index into it names one submission attempt. Two fields record
 history only: `Item.given` counts the messages of an attempt that crossed the SDK
 iterator, and `Query.given` maps each native UUID that crossed it to its attempt.
 */
module SteerSession {
  import opened Basics
  import opened InputMessages
  import Q = InputQueues
  import H = HistoryIndex
  import O = HistoryOutcome

  /** Why an input is not applied: refused before submission, removed from the queue
      unread, or proved absent from the closed process's native history. */
  datatype Cause = Refused | Unread | Absent

  datatype Evidence = Echo | Reply | Receipt | History

  /** The outcome last written to a steer's deliveryStatus or to the startOutcome of an
      initial input. An erased item left the session because its first save failed. */
  datatype Status = Preparing | Submitted | Delivered(via: Evidence) | NotApplied(cause: Cause) | Erased

  /** What Stop last wrote to an item's deliveryStatus: nothing since the last outcome,
      "cancelled", or "submitted" again because the SDK still holds the input. */
  datatype StopMark = Untouched | Cancelled | Kept

  /** What the code holds: deliveryStatus of a steer, startOutcome of an initial input. */
  datatype Shown = AsPreparing | AsSubmitted | AsDelivered | AsNotApplied | AsCancelled | AsErased

  /** `query` is the query that serves the item's turn, as in `Turn`. */
  datatype Item = Item(turn: nat, query: Option<nat>, id: string, content: seq<Block>, steer: bool, parts: nat,
                       status: Status, stop: StopMark, given: nat)

  /** Stages of finishTurn and finalizeTurn, named by what the finalizer awaits. */
  datatype Fin = Running | Begun | Exiting | Reading(open: set<nat>) | Saving | Ended

  /** `query` is None until a turn without a live query starts one. */
  datatype Turn = Turn(query: Option<nat>, interrupted: bool, fin: Fin, closed: bool, completions: nat)

  datatype Phase = Starting | Ready | Failed

  datatype Query = Query(queue: Q.Queue, turn: Option<nat>, phase: Phase, reserving: bool,
                         given: map<Uuid, nat>, receipts: set<Uuid>)

  /** The serialized request in flight, named by what it awaits. */
  datatype Op =
    | Idle
    | Converting(id: string, content: seq<Block>, turn: nat, start: bool)
    | SavingSteer(item: nat, start: bool)
    | AwaitingEnd(id: string, content: seq<Block>, turn: nat)
    | PreparingStart(id: string, content: seq<Block>)
    | SavingStart(item: nat)

  datatype State = State(items: seq<Item>, turns: seq<Turn>, queries: seq<Query>, current: Option<nat>,
                         op: Op, closing: bool)

  const Init := State([], [], [], None, Idle, false)

  /** What readHistoryIndex found: the rows of the closed process's native history. */
  datatype NativeHistory = NativeHistory(rows: seq<H.Row>, sessionId: string)

  datatype Step =
    | StartRequest(id: string, content: seq<Block>)
    | SteerRequest(id: string, content: seq<Block>)
    | SteerConverted(ok: bool, parts: nat)
    | SteerSaved(ok: bool)
    | EndAwaited
    | StartPrepared(ok: bool, parts: nat)
    | StartSaved(ok: bool)
    | Pulled(query: nat)
    | EchoSeen(query: nat, identity: string, since: nat)
    | ReplySeen(query: nat, item: nat, consumed: seq<Uuid>)
    | ReceiptSeen(query: nat, uuids: set<Uuid>)
    | ReceiptsComplete(query: nat, item: nat)
    | FinishTurn(query: nat)
    | FinChecked(turn: nat, stalled: bool, prep: bool)
    | FinExited(turn: nat, prep: bool, closeFailed: bool)
    | FinHistory(turn: nat, history: Option<NativeHistory>)
    | FinEnded(turn: nat, failed: bool)
    | Stop
    | StopReceipt(item: nat, cancelled: bool)
    | QueryReady(query: nat)
    | QueryFailed(query: nat)
    | QueryDiscarded(query: nat)
    | QueueClosed(query: nat)
    | QueueWithdrawn(query: nat)
    | SyntheticTurn
    | Shutdown

  // ------------------------------------------------------------------ observers

  /** Stop overwrites the deliveryStatus that a steer has no other field for. */
  function Shows(item: Item): Shown {
    if item.steer && item.stop.Cancelled? && !item.status.Erased? then AsCancelled
    else
      match item.status
      case Preparing => AsPreparing
      case Submitted => AsSubmitted
      case Delivered(_) => AsDelivered
      case NotApplied(_) => AsNotApplied
      case Erased => AsErased
  }

  /** The item still owns its client message identity: it does not read "not_applied". */
  predicate Live(item: Item) {
    !Shows(item).AsNotApplied? && !Shows(item).AsErased?
  }

  function Messages(item: Item, attempt: nat): seq<Message> {
    SdkInputMessages(item.id, item.parts, attempt)
  }

  /** The value the bridge pushes: the final message, carrying the batch when there is one. */
  function Submission(item: Item, attempt: nat): Q.Value
    requires item.parts >= 1
  {
    var messages := Messages(item, attempt);
    Q.Value(messages[item.parts - 1], if item.parts > 1 then Some(messages) else None)
  }

  /** turn.items.find: the turn already has an item with this identity. */
  predicate InTurn(items: seq<Item>, id: string, turn: nat) {
    exists i :: 0 <= i < |items| && items[i].id == id && items[i].turn == turn && !items[i].status.Erased?
  }

  /** Every recorded item of this identity has the same content. */
  predicate SameContent(items: seq<Item>, id: string, content: seq<Block>) {
    forall i :: 0 <= i < |items| && items[i].id == id && !items[i].status.Erased? ==> items[i].content == content
  }

  predicate NoLiveOwner(items: seq<Item>, id: string) {
    forall i :: 0 <= i < |items| && items[i].id == id ==> !Live(items[i])
  }

  /** The checks that a steer repeats after each await. */
  predicate Admitted(s: State, t: nat) {
    && t < |s.turns| && !s.turns[t].interrupted && s.turns[t].fin.Running?
    && s.turns[t].query.Some? && s.turns[t].query == s.current
    && s.current.value < |s.queries|
    && s.queries[s.current.value].turn == Some(t)
    && !s.queries[s.current.value].queue.closed
  }

  predicate ActiveQuery(s: State) {
    s.current.Some? && s.current.value < |s.queries|
  }

  function RunningTurn(s: State): Option<nat> {
    if ActiveQuery(s) then s.queries[s.current.value].turn else None
  }

  /** deliveryStatus === "submitted" for a steer. */
  predicate Outstanding(item: Item) {
    item.steer && item.status.Submitted? && !item.stop.Cancelled?
  }

  predicate Queued(queue: Q.Queue, attempt: nat) {
    || (exists k :: 0 <= k < |queue.values| && queue.values[k].message.attempt == attempt)
    || (exists k :: 0 <= k < |queue.pending| && queue.pending[k].attempt == attempt)
  }

  /** A handed-off steer of the turn has no echo yet. */
  predicate UnknownSteer(items: seq<Item>, values: seq<Q.Value>, turn: nat) {
    exists i :: 0 <= i < |items| && items[i].turn == turn && Outstanding(items[i])
                && Q.FindIdentity(values, items[i].id) == |values|
  }

  function OpenSteers(items: seq<Item>, turn: nat): set<nat> {
    set i | 0 <= i < |items| && items[i].turn == turn && Outstanding(items[i])
  }

  // ------------------------------------------------------------------ requests

  /** A steer that was not submitted: turn/start falls through to a new turn. */
  function NotSubmitted(s: State, id: string, content: seq<Block>, t: nat, start: bool): State {
    if start && t < |s.turns| && !s.turns[t].interrupted
    then s.(op := AwaitingEnd(id, content, t)) else s.(op := Idle)
  }

  function BeginSteer(s: State, id: string, content: seq<Block>, start: bool): State {
    var running := RunningTurn(s);
    if running.None? || running.value >= |s.turns| then s
    else
      var t := running.value;
      if s.turns[t].interrupted || InTurn(s.items, id, t) then s
      else if !s.turns[t].fin.Running? then NotSubmitted(s, id, content, t, start)
      else s.(op := Converting(id, content, t, start))
  }

  /** turn/start: one owner per identity; a running turn receives the input as a steer. */
  function ApplyStartRequest(s: State, id: string, content: seq<Block>): State {
    if !s.op.Idle? || !SameContent(s.items, id, content) || !NoLiveOwner(s.items, id) then s
    else if RunningTurn(s).Some? then BeginSteer(s, id, content, true)
    else s.(op := PreparingStart(id, content))
  }

  /** A direct turn/steer reads only the items of the current turn. */
  function ApplySteerRequest(s: State, id: string, content: seq<Block>): State {
    if s.op.Idle? then BeginSteer(s, id, content, false) else s
  }

  function ApplySteerConverted(s: State, ok: bool, parts: nat): State {
    if !s.op.Converting? then s
    else if !ok || parts == 0 then s.(op := Idle)
    else
      var Converting(id, content, t, start) := s.op;
      if !Admitted(s, t) then NotSubmitted(s, id, content, t, start)
      else s.(items := s.items + [Item(t, s.current, id, content, true, parts, Preparing, Untouched, 0)],
              op := SavingSteer(|s.items|, start))
  }

  function ApplySteerSaved(s: State, ok: bool): State {
    if !s.op.SavingSteer? || s.op.item >= |s.items| || s.items[s.op.item].parts == 0 then s
    else
      var i := s.op.item;
      var item := s.items[i];
      if ok && Admitted(s, item.turn) then
        var q := s.current.value;
        var query := s.queries[q];
        s.(items := s.items[i := item.(status := Submitted, stop := Untouched)],
           queries := s.queries[q := query.(queue := Q.Push(query.queue, Submission(item, i)))],
           op := Idle)
      else
        var refused := s.(items := s.items[i := item.(status := NotApplied(Refused), stop := Untouched)]);
        if ok then NotSubmitted(refused, item.id, item.content, item.turn, s.op.start)
        else refused.(op := Idle)
  }

  function ApplyEndAwaited(s: State): State {
    if !s.op.AwaitingEnd? then s
    else if s.op.turn < |s.turns| && !s.turns[s.op.turn].fin.Running? && !s.turns[s.op.turn].fin.Ended? then s
    else if RunningTurn(s).Some? then s.(op := Idle)
    else s.(op := PreparingStart(s.op.id, s.op.content))
  }

  function ApplyStartPrepared(s: State, ok: bool, parts: nat): State {
    if !s.op.PreparingStart? then s
    else if !ok || parts == 0 then s.(op := Idle)
    else
      var PreparingStart(id, content) := s.op;
      var item := Item(|s.turns|, s.current, id, content, false, parts, Preparing, Untouched, 0);
      if s.current.None? then
        s.(items := s.items + [item], turns := s.turns + [Turn(None, false, Running, false, 0)],
           op := SavingStart(|s.items|))
      else if !ActiveQuery(s) then s
      else
        var q := s.current.value;
        var query := s.queries[q];
        if !query.phase.Ready? || query.turn.Some? || query.queue.closed then s.(op := Idle)
        else
          s.(items := s.items + [item], turns := s.turns + [Turn(Some(q), false, Running, false, 0)],
             queries := s.queries[q := query.(turn := Some(|s.turns|), reserving := true)],
             op := SavingStart(|s.items|))
  }

  function ApplyStartSaved(s: State, ok: bool): State {
    if !s.op.SavingStart? || s.op.item >= |s.items| || s.items[s.op.item].turn >= |s.turns|
       || s.items[s.op.item].parts == 0 then s
    else
      var i := s.op.item;
      var item := s.items[i];
      match s.turns[item.turn].query
      case None => if ok then LaunchQuery(s, i) else s.(items := s.items[i := item.(status := Erased)], op := Idle)
      case Some(q) => if q < |s.queries| then FinishReservation(s, i, q, ok) else s
  }

  /** No live query: start one for this turn and push its initial input. */
  function LaunchQuery(s: State, i: nat): State
    requires i < |s.items| && s.items[i].turn < |s.turns| && s.items[i].parts >= 1
  {
    var item := s.items[i];
    var queue := Q.Push(Q.EmptyQueue, Submission(item, i));
    s.(items := s.items[i := item.(status := Submitted, query := Some(|s.queries|))],
       turns := s.turns[item.turn := s.turns[item.turn].(query := Some(|s.queries|))],
       queries := s.queries + [Query(queue, Some(item.turn), Starting, false, map[], {})],
       current := Some(|s.queries|),
       op := Idle)
  }

  function FinishReservation(s: State, i: nat, q: nat, ok: bool): State
    requires i < |s.items| && q < |s.queries| && s.items[i].parts >= 1
  {
    var item := s.items[i];
    var query := s.queries[q].(reserving := false);
    if !ok then
      s.(items := s.items[i := item.(status := Erased)],
         queries := s.queries[q := query.(turn := if query.turn == Some(item.turn) then None else query.turn)],
         op := Idle)
    else if query.turn != Some(item.turn) || query.queue.closed then
      s.(items := s.items[i := item.(status := NotApplied(Refused))], queries := s.queries[q := query], op := Idle)
    else
      s.(items := s.items[i := item.(status := Submitted)],
         queries := s.queries[q := query.(queue := Q.Push(query.queue, Submission(item, i)))],
         op := Idle)
  }

  // ------------------------------------------------------------------ the SDK side

  function ApplyPulled(s: State, q: nat): State {
    if q >= |s.queries| || !s.queries[q].phase.Ready? then s
    else
      var query := s.queries[q];
      var (queue, pulled) := Q.Pull(query.queue);
      if pulled.Yield? && pulled.message.attempt < |s.items| then
        var a := pulled.message.attempt;
        s.(items := s.items[a := s.items[a].(given := s.items[a].given + 1)],
           queries := s.queries[q := query.(queue := queue, given := query.given[pulled.message.uuid := a])])
      else s.(queries := s.queries[q := query.(queue := queue)])
  }

  /** The bridge handles SDK messages of the live query, and only between finalizations. */
  predicate Listening(s: State, q: nat) {
    && s.current == Some(q) && q < |s.queries|
    && (s.queries[q].turn.Some? && s.queries[q].turn.value < |s.turns| ==>
          s.turns[s.queries[q].turn.value].fin.Running?)
  }

  function Deliver(s: State, i: nat, via: Evidence): State
    requires i < |s.items|
  {
    s.(items := s.items[i := s.items[i].(status := Delivered(via))])
  }

  /** The item of a turn with this identity; |items| when there is none. */
  function FindInTurn(items: seq<Item>, id: string, t: nat): (r: nat)
    ensures r <= |items|
    ensures r < |items| ==> items[r].turn == t && items[r].id == id && !items[r].status.Erased?
  {
    if items == [] then 0
    else
      var n := |items| - 1;
      var r := FindInTurn(items[..n], id, t);
      if r < n then r
      else if items[n].turn == t && items[n].id == id && !items[n].status.Erased? then n
      else |items|
  }

  /** submittedSteer: the newest outstanding steer of this identity, of turn `since` or later. */
  function SubmittedSteer(items: seq<Item>, id: string, since: nat): (r: nat)
    ensures r <= |items|
    ensures r < |items| ==> items[r].id == id && Outstanding(items[r])
  {
    if items == [] then 0
    else
      var n := |items| - 1;
      if items[n].id == id && items[n].turn >= since && Outstanding(items[n]) then n
      else
        var r := SubmittedSteer(items[..n], id, since);
        if r == n then |items| else r
  }

  /** The item that a replay echo of this identity delivers; |items| when there is none. */
  function EchoedItem(s: State, q: nat, id: string, since: nat): (r: nat)
    requires q < |s.queries|
    ensures r <= |s.items|
    ensures r < |s.items| ==> s.items[r].id == id && Outstanding(s.items[r])
  {
    var own := if s.queries[q].turn.Some? then FindInTurn(s.items, id, s.queries[q].turn.value) else |s.items|;
    if own < |s.items| && s.items[own].steer then if Outstanding(s.items[own]) then own else |s.items|
    else SubmittedSteer(s.items, id, since)
  }

  /** A replay echo names the final UUID of an input, of this turn or of an earlier one. */
  function ApplyEcho(s: State, q: nat, id: string, since: nat): State {
    if Listening(s, q) && Whole(id) in s.queries[q].given && EchoedItem(s, q, id, since) < |s.items|
    then Deliver(s, EchoedItem(s, q, id, since), Echo) else s
  }

  /** A reply frame names the consumed UUIDs in order. */
  function ApplyReply(s: State, q: nat, i: nat, consumed: seq<Uuid>): State {
    if && Listening(s, q) && i < |s.items| && Outstanding(s.items[i])
       && s.queries[q].turn == Some(s.items[i].turn)
       && (forall u <- consumed :: u in s.queries[q].given)
       && Consumed(Uuids(Messages(s.items[i], i)), consumed)
    then Deliver(s, i, Reply) else s
  }

  function ApplyReceipt(s: State, q: nat, uuids: set<Uuid>): State {
    if Listening(s, q) && uuids <= s.queries[q].given.Keys
    then s.(queries := s.queries[q := s.queries[q].(receipts := s.queries[q].receipts + uuids)])
    else s
  }

  /** Result receipts have named every part of the input. */
  function ApplyReceipts(s: State, q: nat, i: nat): State {
    if && Listening(s, q) && i < |s.items| && Outstanding(s.items[i])
       && s.queries[q].turn == Some(s.items[i].turn)
       && (forall u <- Uuids(Messages(s.items[i], i)) :: u in s.queries[q].receipts)
    then Deliver(s, i, Receipt) else s
  }

  /** Greedy matching of the needed UUIDs against the consumed ones. */
  predicate Consumed(ids: seq<Uuid>, consumed: seq<Uuid>) {
    if ids == [] then true
    else if consumed == [] then false
    else if ids[0] == consumed[0] then Consumed(ids[1..], consumed[1..])
    else Consumed(ids, consumed[1..])
  }

  // ------------------------------------------------------------------ finalization

  function ApplyFinishTurn(s: State, q: nat): State {
    if q >= |s.queries| || s.queries[q].turn.None? || s.queries[q].turn.value >= |s.turns| || s.closing then s
    else
      var t := s.queries[q].turn.value;
      if s.turns[t].fin.Running? then s.(turns := s.turns[t := s.turns[t].(fin := Begun)]) else s
  }

  predicate Finalizing(s: State, t: nat) {
    && t < |s.turns| && s.turns[t].query.Some? && s.turns[t].query.value < |s.queries|
    && !s.turns[t].fin.Running? && !s.turns[t].fin.Ended?
  }

  /** Stop the CLI when a steer was handed off without an echo; else withdraw queued steers at once. */
  function ApplyFinChecked(s: State, t: nat, stalled: bool, prep: bool): State {
    if !Finalizing(s, t) || !s.turns[t].fin.Begun? then s
    else
      var q := s.turns[t].query.value;
      var queue := s.queries[q].queue;
      if stalled then
        if queue.closed then s.(turns := s.turns[t := s.turns[t].(fin := Exiting, closed := true)]) else s
      else if UnknownSteer(s.items, queue.values, t) then
        s.(turns := s.turns[t := s.turns[t].(fin := Exiting, closed := true)],
           queries := s.queries[q := s.queries[q].(queue := Q.Close(queue))])
      else
        var w := WithdrawSteers(MarkUnreadStart(s, t, prep), t, q);
        w.(turns := w.turns[t := w.turns[t].(fin := Saving)])
  }

  /** The CLI is gone: take back what it never read, then ask its native history. */
  function ApplyFinExited(s: State, t: nat, prep: bool, closeFailed: bool): State {
    if !Finalizing(s, t) || !s.turns[t].fin.Exiting? then s
    else
      var q := s.turns[t].query.value;
      var w := WithdrawSteers(MarkUnreadStart(s, t, prep), t, q);
      w.(turns := w.turns[t := w.turns[t].(fin := if closeFailed then Saving
                                                  else Reading(OpenSteers(w.items, t)))],
         queries := w.queries[q := w.queries[q].(queue := Q.Withdraw(w.queries[q].queue))])
  }

  function InitialOf(items: seq<Item>, t: nat): (r: nat)
    ensures r <= |items|
    ensures r < |items| ==> items[r].turn == t && !items[r].steer
  {
    if items == [] then 0
    else if items[|items| - 1].turn == t && !items[|items| - 1].steer then |items| - 1
    else
      var r := InitialOf(items[..|items| - 1], t);
      if r == |items| - 1 then |items| else r
  }

  /** Preparation failed before the initial input was read: the start is not applied. */
  function MarkUnreadStart(s: State, t: nat, prep: bool): (r: State)
    requires Finalizing(s, t)
    ensures r == s.(items := r.items) && |r.items| == |s.items|
  {
    var q := s.turns[t].query.value;
    var i := InitialOf(s.items, t);
    if && prep && s.queries[q].phase.Failed? && i < |s.items| && s.items[i].status.Submitted?
       && (|| s.items[i].stop.Cancelled?
           || Q.FindIdentity(s.queries[q].queue.values, s.items[i].id) < |s.queries[q].queue.values|)
    then s.(items := s.items[i := s.items[i].(status := NotApplied(Unread))])
    else s
  }

  function WithdrawSteers(s: State, t: nat, q: nat): (r: State)
    requires q < |s.queries|
    ensures r.turns == s.turns && |r.queries| == |s.queries| && |r.items| == |s.items|
  {
    var (items, values) := WithdrawFrom(s.items, s.queries[q].queue.values, t, 0);
    s.(items := items,
       queries := s.queries[q := s.queries[q].(queue := s.queries[q].queue.(values := values))])
  }

  /** The finalizer's loop over turn.items, from item `i` on. */
  function WithdrawFrom(items: seq<Item>, values: seq<Q.Value>, t: nat, i: nat): (r: (seq<Item>, seq<Q.Value>))
    requires i <= |items|
    ensures |r.0| == |items|
    decreases |items| - i
  {
    if i == |items| then (items, values)
    else
      var at := Q.FindIdentity(values, items[i].id);
      if items[i].turn == t && Outstanding(items[i]) && at < |values| then
        WithdrawFrom(items[i := items[i].(status := NotApplied(Unread))], values[..at] + values[at + 1..], t, i + 1)
      else WithdrawFrom(items, values, t, i + 1)
  }

  /** The loop itself: each queued steer of the turn leaves the queue and is not applied. */
  method WithdrawQueued(items: seq<Item>, values: seq<Q.Value>, t: nat)
    returns (after: seq<Item>, rest: seq<Q.Value>)
    ensures (after, rest) == WithdrawFrom(items, values, t, 0)
  {
    after, rest := items, values;
    var i := 0;
    while i < |after|
      invariant 0 <= i <= |after|
      invariant WithdrawFrom(after, rest, t, i) == WithdrawFrom(items, values, t, 0)
    {
      if after[i].turn == t && Outstanding(after[i]) {
        var at := Q.FindIdentity(rest, after[i].id);
        if at < |rest| {
          after := after[i := after[i].(status := NotApplied(Unread))];
          rest := rest[..at] + rest[at + 1..];
        }
      }
      i := i + 1;
    }
  }

  function ApplyFinHistory(s: State, t: nat, history: Option<NativeHistory>): State {
    if !Finalizing(s, t) || !s.turns[t].fin.Reading? then s
    else
      s.(items := Judge(s.items, t, s.turns[t].fin.open, history),
         turns := s.turns[t := s.turns[t].(fin := Saving)])
  }

  /** Native ids of an item as the history writes them; None when there is no such item. */
  function HistoryIds(items: seq<Item>, i: nat): Option<seq<string>> {
    if i < |items| then Some(NativeTexts(Uuids(Messages(items[i], i)))) else None
  }

  /** The turn's first user message, which anchors the verdicts. */
  function FirstOf(items: seq<Item>, t: nat): (r: nat)
    ensures r <= |items|
    ensures r < |items| ==> items[r].turn == t && !items[r].status.Erased?
  {
    if items == [] then 0
    else
      var n := |items| - 1;
      var r := FirstOf(items[..n], t);
      if r < n then r else if items[n].turn == t && !items[n].status.Erased? then n else |items|
  }

  /** index?.outcome(nativeInputIds(item), nativeInputIds(initial)) ?? "unknown". */
  function HistoryVerdict(items: seq<Item>, t: nat, i: nat, history: Option<NativeHistory>): O.Outcome {
    match history
    case None => O.Unknown
    case Some(h) =>
      O.InputHistoryOutcome(h.rows, h.sessionId, HistoryIds(items, FirstOf(items, t)), HistoryIds(items, i))
  }

  function Judge(items: seq<Item>, t: nat, open: set<nat>, history: Option<NativeHistory>): (r: seq<Item>)
    ensures |r| == |items|
    ensures forall i :: 0 <= i < |items| ==>
              r[i] == if i in open then Judged(items[i], HistoryVerdict(items, t, i, history)) else items[i]
  {
    seq(|items|, i requires 0 <= i < |items| =>
      if i in open then Judged(items[i], HistoryVerdict(items, t, i, history)) else items[i])
  }

  function Judged(item: Item, verdict: O.Outcome): Item {
    match verdict
    case Delivered => item.(status := Status.Delivered(History), stop := Untouched)
    case NotApplied => item.(status := Status.NotApplied(Absent), stop := Untouched)
    case Unknown => item
  }

  /** The finalizer's `finally`: clear the turn, drop a closed query, report completion. */
  function ApplyFinEnded(s: State, t: nat, failed: bool): State {
    if !Finalizing(s, t) || !(failed || s.turns[t].fin.Saving?) then s
    else
      var q := s.turns[t].query.value;
      var turn := s.turns[t];
      var closed := turn.closed || failed;
      var query := s.queries[q].(turn := if s.queries[q].turn == Some(t) then None else s.queries[q].turn,
                                 receipts := {});
      var ended := s.(turns := s.turns[t := turn.(fin := Ended, closed := closed,
                                                  completions := turn.completions + 1)],
                      queries := s.queries[q := query]);
      if closed then Discard(ended, q) else ended
  }

  function Discard(s: State, q: nat): State
    requires q < |s.queries|
  {
    s.(queries := s.queries[q := s.queries[q].(queue := Q.Close(s.queries[q].queue))],
       current := if s.current == Some(q) then None else s.current)
  }

  // ------------------------------------------------------------------ Stop and query loss

  predicate LastOfId(items: seq<Item>, i: nat)
    requires i < |items|
  {
    forall j :: i < j < |items| && !items[j].status.Erased? ==> items[j].id != items[i].id
  }

  /** Inputs whose every part was withdrawn are cancelled. */
  function CancelWithdrawn(items: seq<Item>, withdrawn: set<Uuid>): (r: seq<Item>)
    ensures |r| == |items|
    ensures forall i :: 0 <= i < |items| ==> r[i] == items[i] || r[i] == items[i].(stop := Cancelled)
  {
    seq(|items|, i requires 0 <= i < |items| =>
      if && !items[i].status.Erased? && LastOfId(items, i)
         && (forall u <- Uuids(Messages(items[i], i)) :: u in withdrawn)
      then items[i].(stop := Cancelled) else items[i])
  }

  /** turn/interrupt up to its first await. */
  function ApplyStop(s: State): State {
    var running := RunningTurn(s);
    if running.None? || running.value >= |s.turns| then s
    else
      var t := running.value;
      var q := s.current.value;
      var query := s.queries[q];
      var unread := Q.Unread(query.queue);
      s.(turns := s.turns[t := s.turns[t].(interrupted := true)],
         items := CancelWithdrawn(s.items, set m | m in unread :: m.uuid),
         queries := s.queries[q := query.(queue := Q.Withdraw(query.queue), reserving := false,
                                          turn := if query.reserving then None else query.turn)])
  }

  /** The SDK's interrupt receipt: whatever the input read, it is cancelled or submitted now. */
  function ApplyStopReceipt(s: State, i: nat, cancelled: bool): State {
    if i < |s.items| && !s.items[i].status.Erased?
    then s.(items := s.items[i := Receipted(s.items[i], cancelled)]) else s
  }

  function Receipted(item: Item, cancelled: bool): Item {
    if cancelled then item.(stop := Cancelled)
    else if item.steer then item.(status := Submitted, stop := Kept)
    else item.(stop := Kept)
  }

  function SetPhase(s: State, q: nat, phase: Phase): State {
    if q < |s.queries| && s.queries[q].phase.Starting?
    then s.(queries := s.queries[q := s.queries[q].(phase := phase)]) else s
  }

  function SetQueue(s: State, q: nat, queue: Q.Queue): State
    requires q < |s.queries|
  {
    s.(queries := s.queries[q := s.queries[q].(queue := queue)])
  }

  /** Claude answers without a Studio turn: the bridge opens one that owns no input. */
  function ApplySynthetic(s: State): State {
    if !ActiveQuery(s) || !s.queries[s.current.value].phase.Ready? || s.queries[s.current.value].turn.Some? then s
    else
      var q := s.current.value;
      s.(turns := s.turns + [Turn(Some(q), false, Running, false, 0)],
         queries := s.queries[q := s.queries[q].(turn := Some(|s.turns|))])
  }

  function ApplyShutdown(s: State): State {
    if ActiveQuery(s) then SetQueue(s, s.current.value, Q.Close(s.queries[s.current.value].queue)).(closing := true)
    else s.(closing := true)
  }

  function Apply(s: State, step: Step): State {
    match step
    case StartRequest(id, content) => ApplyStartRequest(s, id, content)
    case SteerRequest(id, content) => ApplySteerRequest(s, id, content)
    case SteerConverted(ok, parts) => ApplySteerConverted(s, ok, parts)
    case SteerSaved(ok) => ApplySteerSaved(s, ok)
    case EndAwaited => ApplyEndAwaited(s)
    case StartPrepared(ok, parts) => ApplyStartPrepared(s, ok, parts)
    case StartSaved(ok) => ApplyStartSaved(s, ok)
    case Pulled(q) => ApplyPulled(s, q)
    case EchoSeen(q, id, since) => ApplyEcho(s, q, id, since)
    case ReplySeen(q, i, consumed) => ApplyReply(s, q, i, consumed)
    case ReceiptSeen(q, uuids) => ApplyReceipt(s, q, uuids)
    case ReceiptsComplete(q, i) => ApplyReceipts(s, q, i)
    case FinishTurn(q) => ApplyFinishTurn(s, q)
    case FinChecked(t, stalled, prep) => ApplyFinChecked(s, t, stalled, prep)
    case FinExited(t, prep, closeFailed) => ApplyFinExited(s, t, prep, closeFailed)
    case FinHistory(t, history) => ApplyFinHistory(s, t, history)
    case FinEnded(t, failed) => ApplyFinEnded(s, t, failed)
    case Stop => ApplyStop(s)
    case StopReceipt(i, cancelled) => ApplyStopReceipt(s, i, cancelled)
    case QueryReady(q) =>
      if q < |s.queries| && s.queries[q].queue.closed then s else SetPhase(s, q, Ready)
    case QueryFailed(q) => SetPhase(s, q, Failed)
    case QueryDiscarded(q) => if q < |s.queries| then Discard(s, q) else s
    case QueueClosed(q) => if q < |s.queries| then SetQueue(s, q, Q.Close(s.queries[q].queue)) else s
    case QueueWithdrawn(q) => if q < |s.queries| then SetQueue(s, q, Q.Withdraw(s.queries[q].queue)) else s
    case SyntheticTurn => ApplySynthetic(s)
    case Shutdown => ApplyShutdown(s)
  }

  function Run(steps: seq<Step>): State {
    if steps == [] then Init else Apply(Run(steps[..|steps| - 1]), steps[|steps| - 1])
  }
}
