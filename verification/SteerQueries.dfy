/** A request that only waits and a step that only quiets a query keep the invariant of a Claude thread. */
module SteerQueries {
  import opened Basics
  import opened InputMessages
  import opened SteerSession
  import opened SteerInvariant
  import Q = InputQueues

  // ------------------------------------------------------------------ requests that only wait

  lemma {:induction false} WaitKeeps(s: State, n: State)
    requires Inv(s) && n == s.(op := n.op) && OpOk(n) && ReservingOk(n)
    ensures Inv(n)
  {
  }

  lemma {:induction false} StartRequestWaits(s: State, id: string, content: seq<Block>)
    requires OpOk(s) && ReservingOk(s)
    ensures var n := ApplyStartRequest(s, id, content); n == s.(op := n.op) && OpOk(n) && ReservingOk(n)
  {
  }

  lemma {:induction false} SteerRequestWaits(s: State, id: string, content: seq<Block>)
    requires OpOk(s) && ReservingOk(s)
    ensures var n := ApplySteerRequest(s, id, content); n == s.(op := n.op) && OpOk(n) && ReservingOk(n)
  {
  }

  lemma {:induction false} EndAwaitedWaits(s: State)
    requires OpOk(s) && ReservingOk(s)
    ensures var n := ApplyEndAwaited(s); n == s.(op := n.op) && OpOk(n) && ReservingOk(n)
  {
  }

  // ------------------------------------------------------------------ steps that only quiet a query

  predicate QuietQuery(a: Query, b: Query) {
    && b.given == a.given && b.turn == a.turn && b.reserving == a.reserving && b.receipts <= a.given.Keys
    && (a.phase.Starting? || b.phase == a.phase)
    && (a.queue.closed ==> b.queue.closed)
    && (b.queue.values == a.queue.values || b.queue.values == [])
    && (b.queue.pending == a.queue.pending || b.queue.pending == [])
  }

  predicate Quiet(a: seq<Query>, b: seq<Query>) {
    |a| == |b| && forall q :: 0 <= q < |a| ==> QuietQuery(a[q], b[q])
  }

  lemma {:induction false} QuietTurns(turns: seq<Turn>, a: seq<Query>, b: seq<Query>)
    requires Quiet(a, b) && TurnsOk(turns, a) && QueriesOk(turns, a) && OneTurn(turns, a)
    ensures TurnsOk(turns, b) && QueriesOk(turns, b) && OneTurn(turns, b)
  {
  }

  lemma {:induction false} QuietItems(items: seq<Item>, turns: seq<Turn>, a: seq<Query>, b: seq<Query>)
    requires Quiet(a, b) && RetiredOk(items, turns, a) && ReadersOk(items, a) && SteerTurns(items, turns, a)
    ensures RetiredOk(items, turns, b) && ReadersOk(items, b) && SteerTurns(items, turns, b)
  {
  }

  lemma {:induction false} QuietGiven(items: seq<Item>, a: seq<Query>, b: seq<Query>)
    requires Quiet(a, b) && GivenOk(items, a)
    ensures GivenOk(items, b)
  {
    forall q, u | 0 <= q < |b| && u in b[q].given && u.Whole?
      ensures var x := b[q].given[u];
              x < |items| && items[x].query == Some(q) && items[x].id == u.identity && items[x].given == items[x].parts
    {
      assert QuietQuery(a[q], b[q]);
      assert u in a[q].given;
    }
  }

  lemma {:induction false} QuietQueues(items: seq<Item>, a: seq<Query>, b: seq<Query>)
    requires Quiet(a, b) && QueuesOk(items, a)
    ensures QueuesOk(items, b)
  {
    forall q | 0 <= q < |b|
      ensures ValuesOk(items, q, !b[q].queue.closed, b[q].queue.values) && PendingOk(items, q, b[q].queue)
    {
      assert QuietQuery(a[q], b[q]);
      var values := a[q].queue.values;
      forall k | 0 <= k < |values|
        ensures ValueOk(items, q, !b[q].queue.closed, values[k])
      {
        assert ValueOk(items, q, !a[q].queue.closed, values[k]);
      }
    }
  }

  lemma {:induction false} QuietFins(items: seq<Item>, turns: seq<Turn>, a: seq<Query>, b: seq<Query>)
    requires Quiet(a, b) && FinsOk(items, turns, a)
    ensures FinsOk(items, turns, b)
  {
  }

  lemma {:induction false} QuietKeeps(s: State, n: State)
    requires Inv(s) && Quiet(s.queries, n.queries)
    requires n == s.(queries := n.queries, current := n.current, closing := n.closing)
    requires CurrentOk(n.queries, n.current) && (n.current == s.current || n.current.None?)
    ensures Inv(n)
  {
    QuietTurns(s.turns, s.queries, n.queries);
    QuietItems(s.items, s.turns, s.queries, n.queries);
    QuietGiven(s.items, s.queries, n.queries);
    QuietQueues(s.items, s.queries, n.queries);
    QuietFins(s.items, s.turns, s.queries, n.queries);
    assert ReservingOk(n) by { QuietReserving(s, n); }
    assert OpOk(n) by { QuietOp(s, n); }
  }

  lemma {:induction false} QuietReserving(s: State, n: State)
    requires Quiet(s.queries, n.queries) && n == s.(queries := n.queries, current := n.current, closing := n.closing)
    requires ReservingOk(s)
    ensures ReservingOk(n)
  {
  }

  lemma {:induction false} QuietOp(s: State, n: State)
    requires Quiet(s.queries, n.queries) && n == s.(queries := n.queries, current := n.current, closing := n.closing)
    requires n.current == s.current || n.current.None?
    requires OpOk(s)
    ensures OpOk(n)
  {
  }

  /** Phases, receipts, closing and withdrawing only quiet a query. */
  lemma {:induction false} PhaseIsQuiet(s: State, q: nat, phase: Phase)
    requires CurrentOk(s.queries, s.current) && QueriesOk(s.turns, s.queries)
    ensures Quiet(s.queries, SetPhase(s, q, phase).queries)
            && CurrentOk(SetPhase(s, q, phase).queries, s.current)
  {
  }

  lemma {:induction false} ReceiptIsQuiet(s: State, q: nat, uuids: set<Uuid>)
    requires CurrentOk(s.queries, s.current) && QueriesOk(s.turns, s.queries)
    ensures Quiet(s.queries, ApplyReceipt(s, q, uuids).queries)
            && CurrentOk(ApplyReceipt(s, q, uuids).queries, s.current)
  {
  }

  lemma {:induction false} QueueStepsAreQuiet(s: State, q: nat)
    requires q < |s.queries| && CurrentOk(s.queries, s.current) && QueriesOk(s.turns, s.queries)
    ensures Quiet(s.queries, Discard(s, q).queries) && CurrentOk(Discard(s, q).queries, Discard(s, q).current)
    ensures var n := SetQueue(s, q, Q.Close(s.queries[q].queue));
            Quiet(s.queries, n.queries) && CurrentOk(n.queries, s.current)
    ensures var n := SetQueue(s, q, Q.Withdraw(s.queries[q].queue));
            Quiet(s.queries, n.queries) && CurrentOk(n.queries, s.current)
  {
  }

  lemma {:induction false} PhaseKeeps(s: State, q: nat, phase: Phase) returns (n: State)
    requires Inv(s)
    ensures n == SetPhase(s, q, phase)
    ensures Inv(n)
  {
    n := SetPhase(s, q, phase);
    PhaseIsQuiet(s, q, phase);
    QuietKeeps(s, n);
  }

  lemma {:induction false} ReceiptKeeps(s: State, q: nat, uuids: set<Uuid>) returns (n: State)
    requires Inv(s)
    ensures n == ApplyReceipt(s, q, uuids)
    ensures Inv(n)
  {
    n := ApplyReceipt(s, q, uuids);
    ReceiptIsQuiet(s, q, uuids);
    QuietKeeps(s, n);
  }

  lemma {:induction false} QueueStepKeeps(s: State, q: nat, n: State)
    requires Inv(s) && q < |s.queries|
    requires || n == Discard(s, q)
             || n == SetQueue(s, q, Q.Close(s.queries[q].queue))
             || n == SetQueue(s, q, Q.Withdraw(s.queries[q].queue))
    ensures Inv(n)
  {
    QueueStepsAreQuiet(s, q);
    QuietKeeps(s, n);
  }

  lemma {:induction false} ShutdownKeeps(s: State)
    requires Inv(s)
    ensures Inv(ApplyShutdown(s))
  {
    var n := s.(closing := true);
    assert Quiet(s.queries, n.queries);
    QuietKeeps(s, n);
    if ActiveQuery(s) {
      QueueStepKeeps(n, s.current.value, ApplyShutdown(s));
    }
  }
}
