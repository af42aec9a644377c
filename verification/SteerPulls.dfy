/** The SDK reads a message and the invariant of a Claude thread holds. */
module SteerPulls {
  import opened Basics
  import opened InputMessages
  import opened SteerSession
  import opened SteerInvariant
  import Q = InputQueues

  /** A pull of a valid queue hands over the next message of one waiting attempt. */
  lemma {:induction false} PullHandsOver(items: seq<Item>, q: nat, queue: Q.Queue)
    requires ValuesOk(items, q, !queue.closed, queue.values) && PendingOk(items, q, queue)
    requires !queue.closed && (queue.pending != [] || queue.values != [])
    ensures var (next, r) := Q.Pull(queue);
            && r.Yield? && r.message.attempt < |items|
            && var a := r.message.attempt;
               var item := items[a];
               && item.given < item.parts && r.message == Messages(item, a)[item.given]
               && item.query == Some(q) && MayWait(item, true)
               && next == Q.Queue(if queue.pending != [] then queue.values else queue.values[1..],
                                  Messages(item, a)[item.given + 1..], next.nonQueryIds, false)
               && forall k :: 0 <= k < |next.values| ==> next.values[k].message.identity != item.id
  {
    if queue.pending == [] {
      assert ValueOk(items, q, true, queue.values[0]);
      var a := queue.values[0].message.attempt;
      assert Q.Parts(queue.values[0]) == Messages(items[a], a);
    } else {
      var a := queue.pending[0].attempt;
      var rest := Messages(items[a], a)[items[a].given..];
      assert rest[1..] == Messages(items[a], a)[items[a].given + 1..];
    }
  }

  lemma {:induction false} PulledQueue(items: seq<Item>, q: nat, queue: Q.Queue)
    requires ValuesOk(items, q, !queue.closed, queue.values) && PendingOk(items, q, queue)
    requires !queue.closed && (queue.pending != [] || queue.values != [])
    ensures var (next, r) := Q.Pull(queue);
            && r.Yield? && r.message.attempt < |items|
            && var a := r.message.attempt;
               var after := items[a := items[a].(given := items[a].given + 1)];
               ValuesOk(after, q, true, next.values) && PendingOk(after, q, next)
  {
    PullHandsOver(items, q, queue);
    var (next, r) := Q.Pull(queue);
    var a := r.message.attempt;
    var after := items[a := items[a].(given := items[a].given + 1)];
    forall k | 0 <= k < |next.values|
      ensures ValueOk(after, q, true, next.values[k])
    {
      assert next.values[k] in queue.values;
      assert ValueOk(items, q, true, next.values[k]);
      assert next.values[k].message.attempt != a;
    }
    assert Messages(after[a], a) == Messages(items[a], a);
  }

  /** Another query's queue holds none of the attempt's messages. */
  lemma {:induction false} PulledElsewhere(items: seq<Item>, a: nat, q: nat, p: nat, queue: Q.Queue)
    requires a < |items| && items[a].query == Some(q) && p != q
    requires ValuesOk(items, p, !queue.closed, queue.values) && PendingOk(items, p, queue)
    ensures var after := items[a := items[a].(given := items[a].given + 1)];
            ValuesOk(after, p, !queue.closed, queue.values) && PendingOk(after, p, queue)
  {
    var after := items[a := items[a].(given := items[a].given + 1)];
    forall k | 0 <= k < |queue.values|
      ensures ValueOk(after, p, !queue.closed, queue.values[k])
    {
      assert ValueOk(items, p, !queue.closed, queue.values[k]);
    }
  }

  predicate Reads(a: seq<Item>, b: seq<Item>, i: nat) {
    i < |a| && b == a[i := a[i].(given := a[i].given + 1)]
  }

  lemma {:induction false} ReadIdentity(a: seq<Item>, b: seq<Item>, i: nat, turns: seq<Turn>, queries: seq<Query>)
    requires Reads(a, b, i) && Unique(a) && Ordered(a) && Separate(a)
    requires SteerTurns(a, turns, queries) && RetiredOk(a, turns, queries)
    ensures Unique(b) && Ordered(b) && Separate(b)
    ensures SteerTurns(b, turns, queries) && RetiredOk(b, turns, queries)
  {
  }

  lemma {:induction false} ReadFins(a: seq<Item>, b: seq<Item>, i: nat, turns: seq<Turn>, queries: seq<Query>,
                                    q: nat, next: Q.Queue)
    requires Reads(a, b, i) && q < |queries| && FinsOk(a, turns, queries)
    requires !queries[q].queue.closed && !next.closed
    requires forall k :: 0 <= k < |next.values| ==> next.values[k] in queries[q].queue.values
    requires forall k :: 0 <= k < |next.pending| ==> next.pending[k].attempt == i
    requires next.pending != [] ==> Queued(queries[q].queue, i)
    requires forall t :: 0 <= t < |turns| && turns[t].fin.Reading? ==> turns[t].closed
    requires forall t :: 0 <= t < |turns| && turns[t].query == Some(q) ==> !turns[t].closed
    ensures FinsOk(b, turns, queries[q := queries[q].(queue := next)])
  {
    var after := queries[q := queries[q].(queue := next)];
    forall t | 0 <= t < |turns| && turns[t].query.Some? && turns[t].query.value < |after|
      ensures var queue := after[turns[t].query.value].queue;
              && (turns[t].fin.Reading? ==> ReadingOk(b, turns[t].fin.open, t, queue))
              && (turns[t].fin.Reading? || turns[t].fin.Saving? || turns[t].fin.Ended? ==>
                    queue.closed || (Drained(b, queue, t) && Settled(b, t)))
    {
      if turns[t].query.value == q && (turns[t].fin.Saving? || turns[t].fin.Ended?) {
        var queue := queries[q].queue;
        assert Drained(a, queue, t);
        if next.pending != [] {
          assert next.pending[0].attempt == i;
          QueuedDrained(a, queue, t, i);
        }
      }
    }
  }

  lemma {:induction false} QueuedDrained(items: seq<Item>, queue: Q.Queue, t: nat, i: nat)
    requires Queued(queue, i) && Drained(items, queue, t) && i < |items|
    ensures !(items[i].steer && items[i].turn == t)
  {
    if exists k :: 0 <= k < |queue.values| && queue.values[k].message.attempt == i {
      var k :| 0 <= k < |queue.values| && queue.values[k].message.attempt == i;
    } else {
      var k :| 0 <= k < |queue.pending| && queue.pending[k].attempt == i;
    }
  }

  lemma {:induction false} ReadGiven(a: seq<Item>, b: seq<Item>, i: nat, queries: seq<Query>, q: nat, next: Query,
                                     m: Message)
    requires Reads(a, b, i) && q < |queries| && GivenOk(a, queries)
    requires a[i].query == Some(q) && a[i].given < a[i].parts && m == Messages(a[i], i)[a[i].given]
    requires next.given == queries[q].given[m.uuid := i]
    ensures GivenOk(b, queries[q := next])
  {
    var after := queries[q := next];
    forall p, u | 0 <= p < |after| && u in after[p].given && u.Whole?
      ensures var x := after[p].given[u];
              x < |b| && b[x].query == Some(p) && b[x].id == u.identity && b[x].given == b[x].parts
    {
      if !(p == q && u == m.uuid) {
        assert u in queries[p].given;
      }
    }
  }

  lemma {:induction false} PulledItems(s: State, q: nat, a: nat)
    requires a < |s.items| && q < |s.queries| && s.queries[q].phase.Ready?
    requires s.items[a].query == Some(q) && s.items[a].given < s.items[a].parts && MayWait(s.items[a], true)
    requires ItemsOk(s.items, s.turns) && RetiredOk(s.items, s.turns, s.queries) && ReadersOk(s.items, s.queries)
    ensures var after := s.items[a := s.items[a].(given := s.items[a].given + 1)];
            ItemsOk(after, s.turns) && ReadersOk(after, s.queries)
  {
    assert ItemOk(s.items[a], s.turns);
    assert !Retired(s.items[a]);
  }

  lemma {:induction false} PulledRest(s: State, q: nat, query: Query, i: nat, n: State)
    requires q < |s.queries| && query == s.queries[q].(queue := query.queue, given := query.given)
    requires Reads(s.items, n.items, i) && n == s.(items := n.items, queries := s.queries[q := query])
    requires query.queue.closed == s.queries[q].queue.closed && s.queries[q].given.Keys <= query.given.Keys
    requires TurnsOk(s.turns, s.queries) && CurrentOk(s.queries, s.current) && QueriesOk(s.turns, s.queries)
    requires OneTurn(s.turns, s.queries)
    ensures TurnsOk(n.turns, n.queries) && CurrentOk(n.queries, n.current) && QueriesOk(n.turns, n.queries)
    ensures OneTurn(n.turns, n.queries)
  {
  }

  lemma {:induction false} PulledRequest(s: State, q: nat, query: Query, i: nat, n: State)
    requires q < |s.queries| && query == s.queries[q].(queue := query.queue, given := query.given)
    requires Reads(s.items, n.items, i) && n == s.(items := n.items, queries := s.queries[q := query])
    requires OpOk(s) && ReservingOk(s)
    ensures OpOk(n) && ReservingOk(n)
  {
    match s.op
    case Converting(id, content, t, start) => if start { ReadUnowned(s.items, n.items, i, id); }
    case AwaitingEnd(id, content, t) => ReadUnowned(s.items, n.items, i, id);
    case PreparingStart(id, content) => ReadUnowned(s.items, n.items, i, id);
    case _ =>
  }

  lemma {:induction false} ReadUnowned(a: seq<Item>, b: seq<Item>, i: nat, id: string)
    requires Reads(a, b, i) && NoLiveOwner(a, id)
    ensures NoLiveOwner(b, id)
  {
  }

  lemma {:induction false} PulledKeeps(s: State, q: nat)
    requires Inv(s)
    ensures Inv(ApplyPulled(s, q))
  {
    if q < |s.queries| && s.queries[q].phase.Ready? {
      var query := s.queries[q];
      if query.queue.closed || (query.queue.pending == [] && query.queue.values == []) {
        assert ApplyPulled(s, q).queries == s.queries;
      } else {
        PullHandsOver(s.items, q, query.queue);
        PulledYieldKeeps(s, q);
      }
    }
  }

  lemma {:induction false} PulledYieldKeeps(s: State, q: nat)
    requires Inv(s) && q < |s.queries| && s.queries[q].phase.Ready?
    requires !s.queries[q].queue.closed && (s.queries[q].queue.pending != [] || s.queries[q].queue.values != [])
    ensures Inv(ApplyPulled(s, q))
  {
    var query := s.queries[q];
    var n := ApplyPulled(s, q);
    PullHandsOver(s.items, q, query.queue);
    var (next, r) := Q.Pull(query.queue);
    var a := r.message.attempt;
    assert Reads(s.items, n.items, a) && n == s.(items := n.items, queries := s.queries[q := n.queries[q]]);
    PulledPlaces(s, q, a, n);
    PulledRest(s, q, n.queries[q], a, n);
    ReadGiven(s.items, n.items, a, s.queries, q, n.queries[q], r.message);
    PulledRequest(s, q, n.queries[q], a, n);
    PulledQueues(s, q);
    PulledFins(s, q);
  }

  lemma {:induction false} PulledPlaces(s: State, q: nat, a: nat, n: State)
    requires a < |s.items| && q < |s.queries| && s.queries[q].phase.Ready? && |n.queries| == |s.queries|
    requires s.items[a].query == Some(q) && s.items[a].given < s.items[a].parts && MayWait(s.items[a], true)
    requires Reads(s.items, n.items, a) && n == s.(items := n.items, queries := s.queries[q := n.queries[q]])
    requires SamePlaces(s.queries, n.queries)
    requires ItemsOk(s.items, s.turns) && Unique(s.items) && Ordered(s.items) && Separate(s.items)
    requires RetiredOk(s.items, s.turns, s.queries) && ReadersOk(s.items, s.queries)
    requires SteerTurns(s.items, s.turns, s.queries)
    ensures ItemsOk(n.items, n.turns) && Unique(n.items) && Ordered(n.items) && Separate(n.items)
    ensures RetiredOk(n.items, n.turns, n.queries) && ReadersOk(n.items, n.queries)
    ensures SteerTurns(n.items, n.turns, n.queries)
  {
    PulledItems(s, q, a);
    ReadIdentity(s.items, n.items, a, s.turns, s.queries);
    SamePlacesKeep(n.items, n.turns, s.queries, n.queries);
  }

  lemma {:induction false} PulledQueues(s: State, q: nat)
    requires QueuesOk(s.items, s.queries) && q < |s.queries| && s.queries[q].phase.Ready?
    requires !s.queries[q].queue.closed && (s.queries[q].queue.pending != [] || s.queries[q].queue.values != [])
    ensures QueuesOk(ApplyPulled(s, q).items, ApplyPulled(s, q).queries)
  {
    var queue := s.queries[q].queue;
    PullHandsOver(s.items, q, queue);
    PulledQueue(s.items, q, queue);
    var n := ApplyPulled(s, q);
    var a := Q.Pull(queue).1.message.attempt;
    forall p | 0 <= p < |n.queries|
      ensures ValuesOk(n.items, p, !n.queries[p].queue.closed, n.queries[p].queue.values)
      ensures PendingOk(n.items, p, n.queries[p].queue)
    {
      if p != q {
        PulledElsewhere(s.items, a, q, p, s.queries[p].queue);
      }
    }
  }

  lemma {:induction false} PulledFins(s: State, q: nat)
    requires QueuesOk(s.items, s.queries) && TurnsOk(s.turns, s.queries) && FinsOk(s.items, s.turns, s.queries)
    requires q < |s.queries| && s.queries[q].phase.Ready?
    requires !s.queries[q].queue.closed && (s.queries[q].queue.pending != [] || s.queries[q].queue.values != [])
    ensures FinsOk(ApplyPulled(s, q).items, s.turns, ApplyPulled(s, q).queries)
  {
    var queue := s.queries[q].queue;
    PullHandsOver(s.items, q, queue);
    var (next, r) := Q.Pull(queue);
    var a := r.message.attempt;
    var n := ApplyPulled(s, q);
    PulledFrom(s.items, q, queue);
    forall t | 0 <= t < |s.turns|
      ensures s.turns[t].fin.Reading? ==> s.turns[t].closed
      ensures s.turns[t].query == Some(q) ==> !s.turns[t].closed
    {
      assert TurnOk(s.turns[t], s.queries);
    }
    ReadFins(s.items, n.items, a, s.turns, s.queries, q, next);
    var plain := s.queries[q := s.queries[q].(queue := next)];
    assert forall p :: 0 <= p < |plain| ==> plain[p].queue == n.queries[p].queue;
    SameQueueFins(n.items, s.turns, plain, n.queries);
  }

  lemma {:induction false} PulledFrom(items: seq<Item>, q: nat, queue: Q.Queue)
    requires ValuesOk(items, q, !queue.closed, queue.values) && PendingOk(items, q, queue)
    requires !queue.closed && (queue.pending != [] || queue.values != [])
    ensures var (next, r) := Q.Pull(queue);
            && (forall k :: 0 <= k < |next.values| ==> next.values[k] in queue.values)
            && r.Yield? && Queued(queue, r.message.attempt)
            && (forall k :: 0 <= k < |next.pending| ==> next.pending[k].attempt == r.message.attempt)
  {
    PullHandsOver(items, q, queue);
    if queue.pending == [] {
      assert ValueOk(items, q, true, queue.values[0]);
    } else {
      assert queue.pending[0].attempt == Q.Pull(queue).1.message.attempt;
    }
  }

  lemma {:induction false} SameQueueFins(items: seq<Item>, turns: seq<Turn>, a: seq<Query>, b: seq<Query>)
    requires |a| == |b| && (forall p :: 0 <= p < |a| ==> a[p].queue == b[p].queue) && FinsOk(items, turns, a)
    ensures FinsOk(items, turns, b)
  {
  }

  predicate SamePlaces(a: seq<Query>, b: seq<Query>) {
    |a| == |b| && forall p :: 0 <= p < |a| ==> a[p].turn == b[p].turn && a[p].phase == b[p].phase
                                               && a[p].queue.closed == b[p].queue.closed
  }

  lemma {:induction false} SamePlacesKeep(items: seq<Item>, turns: seq<Turn>, a: seq<Query>, b: seq<Query>)
    requires SamePlaces(a, b) && RetiredOk(items, turns, a) && ReadersOk(items, a) && SteerTurns(items, turns, a)
    ensures RetiredOk(items, turns, b) && ReadersOk(items, b) && SteerTurns(items, turns, b)
  {
  }
}
