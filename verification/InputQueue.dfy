/**
 The queue between Studio and the SDK's input iterator (claude-bridge/features.ts,
 class InputQueue).

 `Queue` is the value of one queue and the functions on it are its operations;
 class `InputQueue` is the mutable object, proved against them. `Trace` adds what
 entered and left the queue, so that the FIFO claims range over every history of
 pushes, pulls, withdrawals, removals and closing. There is one consumer.
 */
module InputQueues {
  import opened Basics
  import opened InputMessages
  import Subsequences

  /** A pushed value: one message, or the final message of a batch. */
  datatype Value = Value(message: Message, batch: Option<seq<Message>>)

  datatype Queue = Queue(values: seq<Value>, pending: seq<Message>, nonQueryIds: set<Uuid>, closed: bool)

  datatype Pulled = Yield(message: Message) | Blocked | Done

  const EmptyQueue := Queue([], [], {}, false)

  function Parts(value: Value): seq<Message> {
    if value.batch.Some? then value.batch.value else [value.message]
  }

  function Flatten(values: seq<Value>): seq<Message> {
    if values == [] then [] else Parts(values[0]) + Flatten(values[1..])
  }

  /** Everything that has not crossed the iterator boundary, in delivery order. */
  function Unread(queue: Queue): seq<Message> {
    queue.pending + Flatten(queue.values)
  }

  function Push(queue: Queue, value: Value): Queue
    requires !queue.closed
  {
    queue.(values := queue.values + [value])
  }

  function Close(queue: Queue): Queue {
    queue.(closed := true)
  }

  function Withdraw(queue: Queue): Queue {
    queue.(values := [], pending := [])
  }

  /** Position of the first queued value with this identity, or the queue length. */
  function FindIdentity(values: seq<Value>, identity: string): (r: nat)
    ensures r <= |values|
    ensures r < |values| ==> values[r].message.identity == identity
    ensures forall i :: 0 <= i < r ==> values[i].message.identity != identity
  {
    if values == [] || values[0].message.identity == identity then 0
    else 1 + FindIdentity(values[1..], identity)
  }

  function RemoveAt(queue: Queue, at: nat): Queue
    requires at < |queue.values|
  {
    queue.(values := queue.values[..at] + queue.values[at + 1..])
  }

  /** The iterator moves the next value's parts to `pending`. */
  function Shift(queue: Queue): Queue
    requires queue.pending == [] && queue.values != []
  {
    queue.(values := queue.values[1..], pending := Parts(queue.values[0]))
  }

  function Take(queue: Queue): Queue
    requires queue.pending != []
  {
    var message := queue.pending[0];
    queue.(pending := queue.pending[1..],
           nonQueryIds := if message.shouldQuery then queue.nonQueryIds
                          else queue.nonQueryIds + {message.uuid})
  }

  /** One request of the consumer, up to its next yield, await or return. */
  function Pull(queue: Queue): (r: (Queue, Pulled))
    decreases |queue.values|
  {
    if queue.closed then (queue, Done)
    else if queue.pending != [] then (Take(queue), Yield(queue.pending[0]))
    else if queue.values == [] then (queue, Blocked)
    else Pull(Shift(queue))
  }

  /** A pull hands over exactly the first unread message, and blocks only when there is none. */
  lemma {:induction false} PullTakesFirst(queue: Queue)
    ensures queue.closed ==> Pull(queue) == (queue, Done)
    ensures !queue.closed && Unread(queue) == [] ==>
              Pull(queue) == (Queue([], [], queue.nonQueryIds, false), Blocked)
    ensures !queue.closed && Unread(queue) != [] ==>
              && Pull(queue).1 == Yield(Unread(queue)[0])
              && Unread(Pull(queue).0) == Unread(queue)[1..]
              && !Pull(queue).0.closed
    decreases |queue.values|
  {
    if !queue.closed && queue.pending == [] && queue.values != [] {
      PullTakesFirst(Shift(queue));
    }
  }

  class InputQueue {
    var values: seq<Value>
    var nonQueryIds: set<Uuid>
    var pending: seq<Message>
    var wake: bool
    var closed: bool

    ghost function View(): Queue
      reads this
    {
      Queue(values, pending, nonQueryIds, closed)
    }

    constructor ()
      ensures View() == EmptyQueue && !wake
    {
      values, pending, nonQueryIds, wake, closed := [], [], {}, false, false;
    }

    /** Stop removes every message that has not crossed the iterator boundary. */
    method TakeBack() returns (messages: seq<Message>)
      modifies this
      ensures View() == Withdraw(old(View())) && wake == old(wake)
      ensures messages == Unread(old(View()))
    {
      messages := pending;
      pending := [];
      ghost var rest := values;
      var i := 0;
      while i < |values|
        invariant 0 <= i <= |values| && rest == values[i..]
        invariant messages + Flatten(rest) == Unread(old(View()))
        invariant values == old(values) && pending == []
        invariant nonQueryIds == old(nonQueryIds) && closed == old(closed) && wake == old(wake)
      {
        messages := messages + Parts(values[i]);
        i := i + 1;
        rest := rest[1..];
      }
      values := [];
    }

    /** Returns false where the source throws: a closed queue accepts nothing. */
    method Enqueue(value: Value) returns (accepted: bool)
      modifies this
      ensures accepted == !old(closed)
      ensures View() == if accepted then Push(old(View()), value) else old(View())
      ensures wake == (!accepted && old(wake))
    {
      if closed {
        return false;
      }
      values := values + [value];
      wake := false;
      return true;
    }

    method Shut()
      modifies this
      ensures View() == Close(old(View())) && !wake
    {
      closed := true;
      wake := false;
    }

    /** The turn finalizer splices out the first queued value of an identity. */
    method RemoveIdentity(identity: string) returns (found: bool)
      modifies this
      ensures var at := FindIdentity(old(values), identity);
              && found == (at < |old(values)|)
              && View() == (if found then RemoveAt(old(View()), at) else old(View()))
      ensures wake == old(wake)
    {
      var at := 0;
      while at < |values| && values[at].message.identity != identity
        invariant 0 <= at <= |values|
        invariant FindIdentity(values, identity) == at + FindIdentity(values[at..], identity)
      {
        at := at + 1;
      }
      found := at < |values|;
      if found {
        values := values[..at] + values[at + 1..];
      }
    }

    /** One resumption of the async generator. */
    method Next() returns (r: Pulled)
      modifies this
      ensures (View(), r) == Pull(old(View()))
      ensures wake == (r.Blocked? || old(wake))
    {
      while !closed && (pending != [] || values != [])
        invariant Pull(View()) == Pull(old(View())) && wake == old(wake)
        decreases |values|, |pending|
      {
        if pending == [] {
          pending, values := Parts(values[0]), values[1..];
        }
        if pending != [] {
          var message := pending[0];
          pending := pending[1..];
          if !message.shouldQuery {
            nonQueryIds := nonQueryIds + {message.uuid};
          }
          return Yield(message);
        }
      }
      if closed {
        return Done;
      }
      wake := true;
      return Blocked;
    }
  }

  // ------------------------------------------------------------------ histories

  /** A value the iterator started on, and how many of its parts it yielded. */
  datatype Segment = Segment(value: Value, count: nat)

  datatype Event = Pushed(value: Value) | PullRequest | Withdrawn | Removed(identity: string) | Closing

  datatype Trace = Trace(queue: Queue, pushed: seq<Value>, yielded: seq<Message>, removed: seq<Message>,
                         started: seq<Segment>)

  const Start := Trace(EmptyQueue, [], [], [], [])

  function ShiftTrace(t: Trace): Trace
    requires t.queue.pending == [] && t.queue.values != []
  {
    t.(queue := Shift(t.queue), started := t.started + [Segment(t.queue.values[0], 0)])
  }

  function TakeTrace(t: Trace): Trace
    requires t.queue.pending != []
  {
    t.(queue := Take(t.queue), yielded := t.yielded + [t.queue.pending[0]], started := CountLast(t.started))
  }

  function CountLast(started: seq<Segment>): seq<Segment> {
    if started == [] then []
    else
      var last := started[|started| - 1];
      started[..|started| - 1] + [last.(count := last.count + 1)]
  }

  function PullTrace(t: Trace): Trace
    decreases |t.queue.values|
  {
    if t.queue.closed then t
    else if t.queue.pending != [] then TakeTrace(t)
    else if t.queue.values == [] then t
    else PullTrace(ShiftTrace(t))
  }

  function RemoveTrace(t: Trace, at: nat): Trace
    requires at < |t.queue.values|
  {
    t.(queue := RemoveAt(t.queue, at), removed := t.removed + Parts(t.queue.values[at]))
  }

  function Step(t: Trace, event: Event): Trace
  {
    match event
    case Pushed(value) =>
      if t.queue.closed then t else t.(queue := Push(t.queue, value), pushed := t.pushed + [value])
    case PullRequest => PullTrace(t)
    case Withdrawn => t.(queue := Withdraw(t.queue), removed := t.removed + Unread(t.queue))
    case Removed(identity) =>
      var at := FindIdentity(t.queue.values, identity);
      if at == |t.queue.values| then t
      else RemoveTrace(t, at)
    case Closing => t.(queue := Close(t.queue))
  }

  function Yields(started: seq<Segment>): seq<Message>
    requires forall s <- started :: s.count <= |Parts(s.value)|
  {
    if started == [] then []
    else
      var last := started[|started| - 1];
      Yields(started[..|started| - 1]) + Parts(last.value)[..last.count]
  }

  function Values(started: seq<Segment>): (r: seq<Value>)
    ensures |r| == |started|
  {
    seq(|started|, i requires 0 <= i < |started| => started[i].value)
  }

  /** Yielded messages are prefixes of pushed batches, batch after batch in push order. */
  ghost predicate Contiguous(t: Trace) {
    && (forall s <- t.started :: s.count <= |Parts(s.value)|)
    && t.yielded == Yields(t.started)
    && Subsequences.Subsequence(Values(t.started) + t.queue.values, t.pushed)
    && (t.queue.pending != [] ==>
          && t.started != []
          && var last := t.started[|t.started| - 1];
             t.queue.pending == Parts(last.value)[last.count..])
  }

  ghost predicate Conserved(t: Trace) {
    multiset(t.yielded) + multiset(t.removed) + multiset(Unread(t.queue)) == multiset(Flatten(t.pushed))
  }

  ghost predicate Fifo(t: Trace) {
    t.removed == [] ==> t.yielded + Unread(t.queue) == Flatten(t.pushed)
  }

  ghost predicate Inv(t: Trace) {
    Contiguous(t) && Conserved(t) && Fifo(t)
  }

  function Run(events: seq<Event>): Trace {
    if events == [] then Start else Step(Run(events[..|events| - 1]), events[|events| - 1])
  }

  /** Whether the consumer sleeps after one more event. */
  predicate SleepsAfter(t: Trace, event: Event, slept: bool) {
    match event
    case Pushed(value) => t.queue.closed && slept
    case PullRequest => Pull(t.queue).1.Blocked?
    case Closing => false
    case _ => slept
  }

  /** The consumer found nothing at its last pull, and no push or close has woken it since. */
  predicate Sleeps(events: seq<Event>) {
    events != [] && SleepsAfter(Run(events[..|events| - 1]), events[|events| - 1], Sleeps(events[..|events| - 1]))
  }
}

/** The queue is a FIFO of whole batches over every history of pushes, pulls, withdrawals, removals and closing. */
module InputQueueTheorems {
  import opened Basics
  import opened InputMessages
  import opened InputQueues
  import Subsequences

  lemma {:induction false} FlattenAppend(a: seq<Value>, b: seq<Value>)
    ensures Flatten(a + b) == Flatten(a) + Flatten(b)
  {
    if a == [] {
      assert a + b == b;
    } else {
      assert (a + b)[1..] == a[1..] + b;
      FlattenAppend(a[1..], b);
    }
  }

  lemma {:induction false} FlattenOne(value: Value)
    ensures Flatten([value]) == Parts(value)
  {
    assert [value][1..] == [];
  }

  lemma {:induction false} FlattenSplit(values: seq<Value>, at: nat)
    requires at < |values|
    ensures Flatten(values) == Flatten(values[..at]) + Parts(values[at]) + Flatten(values[at + 1..])
  {
    var rest := values[at..];
    assert values == values[..at] + rest && rest[1..] == values[at + 1..];
    FlattenAppend(values[..at], rest);
  }

  lemma {:induction false} RunKeeps(events: seq<Event>)
    ensures Inv(Run(events))
  {
    if events == [] {
      Subsequences.Empty<Value>([]);
      assert Values([]) + [] == [];
    } else {
      RunKeeps(events[..|events| - 1]);
      StepKeeps(Run(events[..|events| - 1]), events[|events| - 1]);
    }
  }

  lemma {:induction false} StepKeeps(t: Trace, event: Event)
    requires Inv(t)
    ensures Inv(Step(t, event))
  {
    match event
    case Pushed(value) => if !t.queue.closed { PushKeeps(t, value); }
    case PullRequest => PullKeeps(t);
    case Withdrawn => WithdrawKeeps(t);
    case Removed(identity) =>
      var at := FindIdentity(t.queue.values, identity);
      if at < |t.queue.values| { RemoveKeeps(t, at); }
    case Closing =>
      CloseContiguous(t);
      CloseBalances(t);
  }

  lemma {:induction false} CloseContiguous(t: Trace)
    requires Contiguous(t)
    ensures Contiguous(t.(queue := Close(t.queue)))
  {
  }

  lemma {:induction false} CloseBalances(t: Trace)
    requires Conserved(t) && Fifo(t)
    ensures Conserved(t.(queue := Close(t.queue))) && Fifo(t.(queue := Close(t.queue)))
  {
    assert Unread(Close(t.queue)) == Unread(t.queue);
  }

  lemma {:induction false} Regroup<T>(a: seq<T>, b: seq<T>, c: seq<T>)
    ensures a + (b + c) == a + b + c
  {
  }

  lemma {:induction false} PushKeeps(t: Trace, value: Value)
    requires Inv(t) && !t.queue.closed
    ensures Inv(Step(t, Pushed(value)))
  {
    PushContiguous(t, value);
    PushBalances(t, value);
  }

  lemma {:induction false} PushBalances(t: Trace, value: Value)
    requires Conserved(t) && Fifo(t) && !t.queue.closed
    ensures Conserved(Step(t, Pushed(value))) && Fifo(Step(t, Pushed(value)))
  {
    FlattenSnoc(t.pushed, value);
    UnreadSnoc(t.queue, value);
    Regroup(t.yielded, Unread(t.queue), Parts(value));
  }

  lemma {:induction false} FlattenSnoc(values: seq<Value>, value: Value)
    ensures Flatten(values + [value]) == Flatten(values) + Parts(value)
  {
    FlattenAppend(values, [value]);
    FlattenOne(value);
  }

  lemma {:induction false} UnreadSnoc(queue: Queue, value: Value)
    requires !queue.closed
    ensures Unread(Push(queue, value)) == Unread(queue) + Parts(value)
  {
    FlattenSnoc(queue.values, value);
    Regroup(queue.pending, Flatten(queue.values), Parts(value));
  }

  lemma {:induction false} PushContiguous(t: Trace, value: Value)
    requires Contiguous(t) && !t.queue.closed
    ensures Contiguous(Step(t, Pushed(value)))
  {
    Subsequences.Append(Values(t.started) + t.queue.values, t.pushed, value);
    Regroup(Values(t.started), t.queue.values, [value]);
  }

  lemma {:induction false} ShiftKeeps(t: Trace)
    requires Inv(t) && t.queue.pending == [] && t.queue.values != []
    ensures Inv(ShiftTrace(t))
  {
    ShiftContiguous(t);
    ShiftUnread(t.queue);
  }

  lemma {:induction false} ShiftUnread(queue: Queue)
    requires queue.pending == [] && queue.values != []
    ensures Unread(Shift(queue)) == Unread(queue)
  {
  }

  lemma {:induction false} ShiftContiguous(t: Trace)
    requires Contiguous(t) && t.queue.pending == [] && t.queue.values != []
    ensures Contiguous(ShiftTrace(t))
  {
    var next := ShiftTrace(t);
    assert next.started[..|next.started| - 1] == t.started;
    assert Parts(t.queue.values[0])[..0] == [];
    assert Values(next.started) + next.queue.values == Values(t.started) + t.queue.values;
  }

  lemma {:induction false} TakeKeeps(t: Trace)
    requires Inv(t) && t.queue.pending != []
    ensures Inv(TakeTrace(t))
  {
    assert Contiguous(TakeTrace(t)) by { TakeContiguous(t); }
    TakenFirst(t);
  }

  lemma {:induction false} TakenFirst(t: Trace)
    requires t.queue.pending != []
    ensures Unread(t.queue) == [t.queue.pending[0]] + Unread(Take(t.queue))
    ensures TakeTrace(t).yielded + Unread(Take(t.queue)) == t.yielded + Unread(t.queue)
  {
    assert t.queue.pending == [t.queue.pending[0]] + Take(t.queue).pending;
  }

  lemma {:induction false} TakeContiguous(t: Trace)
    requires Contiguous(t) && t.queue.pending != []
    ensures Contiguous(TakeTrace(t))
  {
    var n := |t.started| - 1;
    var last := t.started[n];
    var next := TakeTrace(t);
    var parts := Parts(last.value);
    assert parts[..last.count + 1] == parts[..last.count] + [parts[last.count]];
    assert next.started[..n] == t.started[..n];
    assert Values(next.started) == Values(t.started);
  }

  lemma {:induction false} PullKeeps(t: Trace)
    requires Inv(t)
    ensures Inv(PullTrace(t))
    decreases |t.queue.values|
  {
    if !t.queue.closed {
      if t.queue.pending != [] {
        TakeKeeps(t);
      } else if t.queue.values != [] {
        ShiftKeeps(t);
        PullKeeps(ShiftTrace(t));
      }
    }
  }

  lemma {:induction false} WithdrawKeeps(t: Trace)
    requires Inv(t)
    ensures Inv(Step(t, Withdrawn))
  {
    var next := Step(t, Withdrawn);
    assert Contiguous(next) by {
      var all := Values(t.started) + t.queue.values;
      Subsequences.Drop(all, t.pushed, |t.started|, |all|);
      assert all[..|t.started|] + all[|all|..] == Values(t.started) + [];
    }
    if next.removed == [] {
      assert Unread(t.queue) == [];
      assert t.yielded + [] == t.yielded;
    }
  }

  lemma {:induction false} RemoveKeeps(t: Trace, at: nat)
    requires Inv(t) && at < |t.queue.values|
    ensures Inv(RemoveTrace(t, at))
  {
    RemoveContiguous(t, at);
    RemoveConserved(t, at);
  }

  lemma {:induction false} RemoveConserved(t: Trace, at: nat)
    requires at < |t.queue.values| && Conserved(t) && Fifo(t)
    ensures Conserved(RemoveTrace(t, at)) && Fifo(RemoveTrace(t, at))
  {
    RemovedParts(t.queue, at);
    assert t.removed + Parts(t.queue.values[at]) == [] ==> Parts(t.queue.values[at]) == [];
  }

  lemma {:induction false} RemovedParts(queue: Queue, at: nat)
    requires at < |queue.values|
    ensures multiset(Unread(queue))
            == multiset(Unread(RemoveAt(queue, at))) + multiset(Parts(queue.values[at]))
    ensures Parts(queue.values[at]) == [] ==> Unread(RemoveAt(queue, at)) == Unread(queue)
  {
    var front, part, back := queue.values[..at], Parts(queue.values[at]), queue.values[at + 1..];
    FlattenSplit(queue.values, at);
    FlattenAppend(front, back);
    MiddleOut(queue.pending, Flatten(front), part, Flatten(back));
  }

  lemma {:induction false} MiddleOut(pending: seq<Message>, front: seq<Message>, part: seq<Message>, back: seq<Message>)
    ensures multiset(pending + (front + part + back)) == multiset(pending + (front + back)) + multiset(part)
    ensures part == [] ==> front + part + back == front + back
  {
  }

  lemma {:induction false} RemoveContiguous(t: Trace, at: nat)
    requires Contiguous(t) && at < |t.queue.values|
    ensures Contiguous(RemoveTrace(t, at))
  {
    var all := Values(t.started) + t.queue.values;
    var lo := |t.started| + at;
    Subsequences.Drop(all, t.pushed, lo, lo + 1);
    SpliceOut(Values(t.started), t.queue.values, at);
  }

  lemma {:induction false} SpliceOut<T>(a: seq<T>, b: seq<T>, at: nat)
    requires at < |b|
    ensures (a + b)[..|a| + at] + (a + b)[|a| + at + 1..] == a + (b[..at] + b[at + 1..])
  {
  }

  /** Without removals the queue is a FIFO of flattened batches. */
  lemma {:induction false} FifoWithoutRemovals(events: seq<Event>)
    requires forall e <- events :: !e.Withdrawn? && !e.Removed?
    ensures Run(events).yielded + Unread(Run(events).queue) == Flatten(Run(events).pushed)
  {
    RunKeeps(events);
    NoRemovals(events);
  }

  lemma {:induction false} NoRemovals(events: seq<Event>)
    requires forall e <- events :: !e.Withdrawn? && !e.Removed?
    ensures Run(events).removed == []
  {
    if events != [] {
      var front := events[..|events| - 1];
      assert forall e <- front :: e in events;
      NoRemovals(front);
      if events[|events| - 1].PullRequest? {
        PullRemovesNothing(Run(front));
      }
    }
  }

  lemma {:induction false} PullRemovesNothing(t: Trace)
    ensures PullTrace(t).removed == t.removed
    decreases |t.queue.values|
  {
    if !t.queue.closed && t.queue.pending == [] && t.queue.values != [] {
      PullRemovesNothing(ShiftTrace(t));
    }
  }

  /** The queue of a history's pulls is the queue the iterator sees. */
  lemma {:induction false} PullTraceIsPull(t: Trace)
    ensures PullTrace(t).queue == Pull(t.queue).0
    ensures PullTrace(t).yielded
            == t.yielded + if Pull(t.queue).1.Yield? then [Pull(t.queue).1.message] else []
    decreases |t.queue.values|
  {
    if !t.queue.closed && t.queue.pending == [] && t.queue.values != [] {
      PullTraceIsPull(ShiftTrace(t));
    }
  }

  /** A closed queue yields and accepts nothing more, whatever happens to it afterwards. */
  lemma {:induction false} NothingYieldedAfterClose(before: seq<Event>, after: seq<Event>)
    requires Run(before).queue.closed
    ensures Run(before + after).queue.closed
    ensures Run(before + after).yielded == Run(before).yielded
    ensures Run(before + after).pushed == Run(before).pushed
    decreases |after|
  {
    if after == [] {
      assert before + after == before;
    } else {
      var front := after[..|after| - 1];
      NothingYieldedAfterClose(before, front);
      assert (before + after)[..|before + after| - 1] == before + front;
      assert (before + after)[|before + after| - 1] == after[|after| - 1];
    }
  }

  /** Removals lose and repeat nothing, and batches never interleave. */
  lemma {:induction false} BatchesNeverInterleave(events: seq<Event>)
    ensures var t := Run(events);
            && (forall s <- t.started :: s.count <= |Parts(s.value)|)
            && t.yielded == Yields(t.started)
            && Subsequences.Subsequence(Values(t.started), t.pushed)
            && multiset(t.yielded) + multiset(t.removed) + multiset(Unread(t.queue))
               == multiset(Flatten(t.pushed))
  {
    RunKeeps(events);
    var t := Run(events);
    var all := Values(t.started) + t.queue.values;
    Subsequences.Drop(all, t.pushed, |t.started|, |all|);
    assert all[..|t.started|] + all[|all|..] == Values(t.started);
  }

  // ------------------------------------------------------------------ the object

  lemma {:induction false} FlattenShrinks(values: seq<Value>, at: nat)
    requires at < |values| && Flatten(values) == []
    ensures Flatten(values[..at] + values[at + 1..]) == []
  {
    FlattenSplit(values, at);
    FlattenAppend(values[..at], values[at + 1..]);
  }

  lemma {:induction false} StillNothing(t: Trace, event: Event)
    requires !t.queue.closed && Unread(t.queue) == [] && (event.Withdrawn? || event.Removed?)
    ensures var q := Step(t, event).queue; !q.closed && Unread(q) == []
  {
    if event.Removed? && FindIdentity(t.queue.values, event.identity) < |t.queue.values| {
      FlattenShrinks(t.queue.values, FindIdentity(t.queue.values, event.identity));
    }
  }

  /** No wake-up is lost: a consumer sleeps only while the queue is open and nothing is unread. */
  lemma {:induction false} SleeperMissesNothing(events: seq<Event>)
    requires Sleeps(events)
    ensures !Run(events).queue.closed && Unread(Run(events).queue) == []
  {
    var front, last := events[..|events| - 1], events[|events| - 1];
    var t := Run(front);
    if last.PullRequest? {
      PullTakesFirst(t.queue);
      PullTraceIsPull(t);
    } else {
      SleeperMissesNothing(front);
      if last.Withdrawn? || last.Removed? {
        StillNothing(t, last);
      }
    }
  }

  /** One operation of the object. */
  method Perform(q: InputQueue, ghost t: Trace, event: Event) returns (out: seq<Message>)
    requires q.View() == t.queue && (q.wake ==> !t.queue.closed && Unread(t.queue) == [])
    modifies q
    ensures q.View() == Step(t, event).queue && Step(t, event).yielded == t.yielded + out
    ensures q.wake == SleepsAfter(t, event, old(q.wake))
  {
    out := [];
    match event
    case Pushed(value) => var accepted := q.Enqueue(value);
    case PullRequest =>
      PullTraceIsPull(t);
      PullTakesFirst(t.queue);
      var r := q.Next();
      out := if r.Yield? then [r.message] else [];
    case Withdrawn => var messages := q.TakeBack();
    case Removed(identity) => var found := q.RemoveIdentity(identity);
    case Closing => q.Shut();
  }

  /** The object yields what the histories say, and holds a wake-up exactly while its consumer sleeps. */
  method Replay(events: seq<Event>) returns (q: InputQueue, yielded: seq<Message>)
    ensures fresh(q) && q.View() == Run(events).queue && yielded == Run(events).yielded && q.wake == Sleeps(events)
  {
    q := new InputQueue();
    yielded := [];
    for i := 0 to |events|
      invariant fresh(q) && q.View() == Run(events[..i]).queue && yielded == Run(events[..i]).yielded
      invariant q.wake == Sleeps(events[..i])
    {
      assert events[..i + 1][..i] == events[..i];
      if q.wake {
        SleeperMissesNothing(events[..i]);
      }
      var out := Perform(q, Run(events[..i]), events[i]);
      yielded := yielded + out;
    }
    assert events[..|events|] == events;
  }
}
