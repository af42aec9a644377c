/** A finalizer takes queued steers back and asks the history, and the invariant of a Claude thread holds. */
module SteerFinalizers {
  import opened Basics
  import opened InputMessages
  import opened SteerSession
  import opened SteerInvariant
  import opened SteerQueries
  import opened SteerEvidence
  import opened SteerPulls
  import opened SteerSubmissions
  import opened SteerStages
  import Q = InputQueues

  // ------------------------------------------------------------------ withdrawal of queued steers

  /** The queued value found by identity is the item's own. */
  lemma {:induction false} FoundIsOwn(items: seq<Item>, values: seq<Q.Value>, q: nat, open: bool, i: nat)
    requires i < |items| && Outstanding(items[i]) && items[i].query == Some(q)
    requires Unique(items) && Separate(items) && ValuesOk(items, q, open, values)
    requires Q.FindIdentity(values, items[i].id) < |values|
    ensures values[Q.FindIdentity(values, items[i].id)].message.attempt == i
    ensures items[i].given == 0
  {
    var at := Q.FindIdentity(values, items[i].id);
    assert ValueOk(items, q, open, values[at]);
    var a := values[at].message.attempt;
    assert items[a].id == items[i].id;
    assert Retired(items[a]) || i <= a;
  }

  lemma {:induction false} SweptOne(items: seq<Item>, values: seq<Q.Value>, q: nat, open: bool, t: nat, i: nat)
    requires i < |items| && Outstanding(items[i]) && items[i].turn == t && Sweepable(items, values, q, open, t)
    requires Q.FindIdentity(values, items[i].id) < |values|
    ensures var at := Q.FindIdentity(values, items[i].id);
            var after := items[i := items[i].(status := NotApplied(Unread))];
            var rest := values[..at] + values[at + 1..];
            Swept(items, values, after, rest, t) && Sweepable(after, rest, q, open, t)
  {
    var at := Q.FindIdentity(values, items[i].id);
    FoundIsOwn(items, values, q, open, i);
    SweptValues(items, values, q, open, at, i);
    SweptItem(items, values, q, open, at, i);
  }

  lemma {:induction false} SweptValues(items: seq<Item>, values: seq<Q.Value>, q: nat, open: bool, at: nat, i: nat)
    requires i < |items| && at < |values| && values[at].message.attempt == i && ValuesOk(items, q, open, values)
    ensures ValuesOk(items[i := items[i].(status := NotApplied(Unread))], q, open, values[..at] + values[at + 1..])
  {
    var after := items[i := items[i].(status := NotApplied(Unread))];
    var rest := values[..at] + values[at + 1..];
    assert ValueOk(items, q, open, values[at]);
    forall k | 0 <= k < |rest|
      ensures ValueOk(after, q, open, rest[k])
    {
      var k0 := if k < at then k else k + 1;
      assert rest[k] == values[k0] && ValueOk(items, q, open, values[k0]);
      assert values[k0].message.identity != values[at].message.identity;
      assert values[k0].message.attempt != i;
    }
  }

  lemma {:induction false} SweptItem(items: seq<Item>, values: seq<Q.Value>, q: nat, open: bool, at: nat, i: nat)
    requires i < |items| && at < |values| && values[at].message.attempt == i
    requires Outstanding(items[i]) && items[i].given == 0 && Unique(items) && Separate(items)
    ensures var after := items[i := items[i].(status := NotApplied(Unread))];
            && Swept(items, values, after, values[..at] + values[at + 1..], items[i].turn)
            && Unique(after) && Separate(after)
  {
    var after := items[i := items[i].(status := NotApplied(Unread))];
    var rest := values[..at] + values[at + 1..];
    forall k | 0 <= k < |values|
      ensures values[k] in rest || (values[k].message.attempt < |items|
              && after[values[k].message.attempt] != items[values[k].message.attempt])
    {
      assert k < at ==> rest[k] == values[k];
      assert k > at ==> rest[k - 1] == values[k];
    }
  }

  lemma {:induction false} SweptTwice(a: seq<Item>, v: seq<Q.Value>, b: seq<Item>, w: seq<Q.Value>, c: seq<Item>,
                                      x: seq<Q.Value>, t: nat)
    requires Swept(a, v, b, w, t) && Swept(b, w, c, x, t)
    ensures Swept(a, v, c, x, t)
  {
    forall k | 0 <= k < |v|
      ensures v[k] in x || (v[k].message.attempt < |a| && c[v[k].message.attempt] != a[v[k].message.attempt])
    {
      if v[k] in w {
        var l :| 0 <= l < |w| && w[l] == v[k];
        assert w[l] in x || c[w[l].message.attempt] != b[w[l].message.attempt];
      }
    }
  }

  lemma {:induction false} SweepLoop(items: seq<Item>, values: seq<Q.Value>, q: nat, open: bool, t: nat, i: nat)
    returns (after: seq<Item>, rest: seq<Q.Value>)
    requires i <= |items| && Sweepable(items, values, q, open, t)
    ensures (after, rest) == WithdrawFrom(items, values, t, i)
    ensures SweptAll(items, values, q, open, t, i, after, rest)
    decreases |items| - i, 1
  {
    if i == |items| {
      after, rest := items, values;
      SweptNone(items, values, q, open, t);
    } else if items[i].turn == t && Outstanding(items[i]) && Q.FindIdentity(values, items[i].id) < |values| {
      after, rest := SweepHit(items, values, q, open, t, i);
    } else {
      after, rest := SweepLoop(items, values, q, open, t, i + 1);
      SweptMissing(items, values, q, open, t, i, after, rest);
    }
  }

  lemma {:induction false} SweepHit(items: seq<Item>, values: seq<Q.Value>, q: nat, open: bool, t: nat, i: nat)
    returns (after: seq<Item>, rest: seq<Q.Value>)
    requires i < |items| && Outstanding(items[i]) && items[i].turn == t && Sweepable(items, values, q, open, t)
    requires Q.FindIdentity(values, items[i].id) < |values|
    ensures (after, rest) == WithdrawFrom(items, values, t, i)
    ensures SweptAll(items, values, q, open, t, i, after, rest)
    decreases |items| - i, 0
  {
    var at := Q.FindIdentity(values, items[i].id);
    var next := items[i := items[i].(status := NotApplied(Unread))];
    var fewer := values[..at] + values[at + 1..];
    SweptOne(items, values, q, open, t, i);
    after, rest := SweepLoop(next, fewer, q, open, t, i + 1);
    SweptThen(items, values, q, open, t, i, next, fewer, after, rest);
    WithdrawHit(items, values, t, i);
  }

  lemma {:induction false} WithdrawHit(items: seq<Item>, values: seq<Q.Value>, t: nat, i: nat)
    requires i < |items| && Outstanding(items[i]) && items[i].turn == t
    requires Q.FindIdentity(values, items[i].id) < |values|
    ensures var at := Q.FindIdentity(values, items[i].id);
            WithdrawFrom(items, values, t, i)
            == WithdrawFrom(items[i := items[i].(status := NotApplied(Unread))],
                            values[..at] + values[at + 1..], t, i + 1)
  {
  }

  lemma {:induction false} SweptThen(items: seq<Item>, values: seq<Q.Value>, q: nat, open: bool, t: nat, i: nat,
                  next: seq<Item>, rest: seq<Q.Value>, after: seq<Item>, last: seq<Q.Value>)
    requires i < |items| && next == items[i := items[i].(status := NotApplied(Unread))]
    requires Swept(items, values, next, rest, t) && SweptAll(next, rest, q, open, t, i + 1, after, last)
    ensures SweptAll(items, values, q, open, t, i, after, last)
  {
    SweptTwice(items, values, next, rest, after, last, t);
    assert after[i] == next[i];
  }

  lemma {:induction false} SweptNone(items: seq<Item>, values: seq<Q.Value>, q: nat, open: bool, t: nat)
    requires ValuesOk(items, q, open, values)
    ensures SweptAll(items, values, q, open, t, |items|, items, values)
  {
  }

  lemma {:induction false} SweptMissing(items: seq<Item>, values: seq<Q.Value>, q: nat, open: bool, t: nat, i: nat,
                     after: seq<Item>, rest: seq<Q.Value>)
    requires i < |items| && SweptAll(items, values, q, open, t, i + 1, after, rest)
    requires items[i].turn == t && Outstanding(items[i]) ==> Q.FindIdentity(values, items[i].id) == |values|
    ensures SweptAll(items, values, q, open, t, i, after, rest)
  {
    assert forall k :: 0 <= k < |rest| ==> rest[k] in values;
    assert items[i].turn == t && Outstanding(items[i]) ==>
        forall v <- values :: v.message.identity != items[i].id;
  }

  // ------------------------------------------------------------------ finalizer steps

  lemma {:induction false} MarkKeeps(s: State, t: nat, prep: bool)
    requires Inv(s) && Finalizing(s, t)
    ensures Inv(MarkUnreadStart(s, t, prep))
    ensures forall i :: 0 <= i < |s.items| && s.items[i].steer ==> MarkUnreadStart(s, t, prep).items[i] == s.items[i]
    ensures SettlesAll(s.items, MarkUnreadStart(s, t, prep).items)
  {
    MarkSettles(s, t, prep);
    var n := MarkUnreadStart(s, t, prep);
    if n.items != s.items {
      MarkedKeeps(s, t, InitialOf(s.items, t), n);
    }
  }

  lemma {:induction false} MarkSettles(s: State, t: nat, prep: bool)
    requires Finalizing(s, t)
    ensures var n := MarkUnreadStart(s, t, prep);
            && (forall i :: 0 <= i < |s.items| && s.items[i].steer ==> n.items[i] == s.items[i])
            && SettlesAll(s.items, n.items)
            && (n.items == s.items ==> n == s)
            && (n.items != s.items ==>
                  var i := InitialOf(s.items, t);
                  && i < |s.items| && s.items[i].status.Submitted?
                  && s.queries[s.turns[t].query.value].phase.Failed?
                  && n == s.(items := s.items[i := s.items[i].(status := NotApplied(Unread))]))
  {
  }

  lemma {:induction false} MarkedKeeps(s: State, t: nat, i: nat, n: State)
    requires Inv(s) && Finalizing(s, t) && i < |s.items| && s.items[i].turn == t && !s.items[i].steer
    requires s.items[i].status.Submitted? && s.queries[s.turns[t].query.value].phase.Failed?
    requires n == s.(items := s.items[i := s.items[i].(status := NotApplied(Unread))])
    ensures Inv(n)
  {
    assert ItemOk(s.items[i], s.turns);
    assert s.items[i].given == 0;
    MarkItems(s, t, i, n);
    MarkQueues(s.items, n.items, i, s.queries);
    MarkFins(s.items, n.items, i, s.turns, s.queries);
    SettleRequest(s, n);
  }

  predicate Marks(a: seq<Item>, b: seq<Item>, i: nat) {
    i < |a| && a[i].status.Submitted? && !a[i].steer && a[i].given == 0
        && b == a[i := a[i].(status := NotApplied(Unread))]
  }

  lemma {:induction false} MarkItems(s: State, t: nat, i: nat, n: State)
    requires Finalizing(s, t) && Marks(s.items, n.items, i) && s.items[i].turn == t
    requires s.queries[s.turns[t].query.value].phase.Failed?
    requires ItemsOk(s.items, s.turns) && Unique(s.items) && Ordered(s.items) && Separate(s.items)
    requires RetiredOk(s.items, s.turns, s.queries) && ReadersOk(s.items, s.queries)
    requires SteerTurns(s.items, s.turns, s.queries) && GivenOk(s.items, s.queries)
    ensures ItemsOk(n.items, s.turns) && Unique(n.items) && Ordered(n.items) && Separate(n.items)
    ensures RetiredOk(n.items, s.turns, s.queries) && ReadersOk(n.items, s.queries)
    ensures SteerTurns(n.items, s.turns, s.queries) && GivenOk(n.items, s.queries)
  {
    assert ItemOk(s.items[i], s.turns);
    SettleIdentity(s.items, n.items);
    SettleReaders(s.items, n.items, s.turns, s.queries);
    SettleGiven(s.items, n.items, s.queries);
  }

  lemma {:induction false} MarkQueues(a: seq<Item>, b: seq<Item>, i: nat, queries: seq<Query>)
    requires Marks(a, b, i) && QueuesOk(a, queries)
    ensures QueuesOk(b, queries)
  {
    forall q | 0 <= q < |queries|
      ensures ValuesOk(b, q, !queries[q].queue.closed, queries[q].queue.values) && PendingOk(b, q, queries[q].queue)
    {
      var queue := queries[q].queue;
      forall k | 0 <= k < |queue.values|
        ensures ValueOk(b, q, !queue.closed, queue.values[k])
      {
        assert ValueOk(a, q, !queue.closed, queue.values[k]);
      }
    }
  }

  lemma {:induction false} MarkFins(a: seq<Item>, b: seq<Item>, i: nat, turns: seq<Turn>, queries: seq<Query>)
    requires Marks(a, b, i) && FinsOk(a, turns, queries)
    ensures FinsOk(b, turns, queries)
  {
  }

  /** Sweeping the turn's queued steers keeps every invariant. */
  lemma {:induction false} SweepKeeps(s: State, t: nat, q: nat)
    requires Inv(s) && Finalizing(s, t) && s.turns[t].query == Some(q)
    requires s.turns[t].fin.Begun? || s.turns[t].fin.Exiting?
    ensures Inv(WithdrawSteers(s, t, q))
    ensures var n := WithdrawSteers(s, t, q);
            SweptAll(s.items, s.queries[q].queue.values, q, !s.queries[q].queue.closed, t, 0,
                     n.items, n.queries[q].queue.values)
    ensures SettlesAll(s.items, WithdrawSteers(s, t, q).items)
  {
    var open := !s.queries[q].queue.closed;
    var values := s.queries[q].queue.values;
    forall j | 0 <= j < |s.items| && s.items[j].turn == t
      ensures s.items[j].query == Some(q)
    {
      assert ItemOk(s.items[j], s.turns);
    }
    var after, rest := SweepLoop(s.items, values, q, open, t, 0);
    var n := WithdrawSteers(s, t, q);
    assert n.items == after && n.queries[q].queue.values == rest;
    SweptItems(s, after, rest, t, q);
    SweptQueues(s, after, rest, t, q);
    SweptFins(s, after, rest, t, q);
    SweptRequest(s, after, rest, t, q);
    SweptPlaces(s, after, rest, t, q);
  }

  lemma {:induction false} SweptItems(s: State, after: seq<Item>, rest: seq<Q.Value>, t: nat, q: nat)
    requires q < |s.queries| && Swept(s.items, s.queries[q].queue.values, after, rest, t)
    requires ItemsOk(s.items, s.turns) && Unique(s.items) && Ordered(s.items) && Separate(s.items)
    requires RetiredOk(s.items, s.turns, s.queries) && ReadersOk(s.items, s.queries)
    requires SteerTurns(s.items, s.turns, s.queries) && GivenOk(s.items, s.queries)
    ensures SettlesAll(s.items, after)
    ensures ItemsOk(after, s.turns) && Unique(after) && Ordered(after) && Separate(after)
    ensures RetiredOk(after, s.turns, s.queries) && ReadersOk(after, s.queries)
    ensures SteerTurns(after, s.turns, s.queries) && GivenOk(after, s.queries)
  {
    forall i | 0 <= i < |s.items|
      ensures Settles(s.items[i], after[i]) && ItemOk(after[i], s.turns)
      ensures Retired(after[i]) ==> after[i] == s.items[i]
    {
      assert ItemOk(s.items[i], s.turns);
    }
    SettleIdentity(s.items, after);
    SettleReaders(s.items, after, s.turns, s.queries);
    SettleGiven(s.items, after, s.queries);
  }

  lemma {:induction false} SweptQueues(s: State, after: seq<Item>, rest: seq<Q.Value>, t: nat, q: nat)
    requires q < |s.queries| && Swept(s.items, s.queries[q].queue.values, after, rest, t) && SettlesAll(s.items, after)
    requires ValuesOk(after, q, !s.queries[q].queue.closed, rest)
    requires forall j :: 0 <= j < |s.items| && s.items[j].turn == t ==> s.items[j].query == Some(q)
    requires QueuesOk(s.items, s.queries)
    ensures QueuesOk(after, s.queries[q := s.queries[q].(queue := s.queries[q].queue.(values := rest))])
  {
    var b := s.queries[q := s.queries[q].(queue := s.queries[q].queue.(values := rest))];
    forall p | 0 <= p < |b|
      ensures ValuesOk(after, p, !b[p].queue.closed, b[p].queue.values) && PendingOk(after, p, b[p].queue)
    {
      QueuedItems(s.items, p, s.queries[p].queue);
      if p == q {
        SweptPending(s.items, after, s.queries[q].queue, rest, t, q);
      } else {
        forall i | 0 <= i < |s.items| && s.items[i] != after[i]
          ensures !Queued(s.queries[p].queue, i)
        {
        }
        SettleQueues(s.items, after, s.queries, p);
      }
    }
  }

  lemma {:induction false} SweptPending(items: seq<Item>, after: seq<Item>, queue: Q.Queue, rest: seq<Q.Value>,
                                        t: nat, q: nat)
    requires Swept(items, queue.values, after, rest, t) && PendingOk(items, q, queue)
    ensures PendingOk(after, q, queue.(values := rest))
  {
    if queue.pending != [] {
      var a := queue.pending[0].attempt;
      assert after[a] == items[a];
      forall k | 0 <= k < |rest|
        ensures rest[k].message.identity != items[a].id
      {
        assert rest[k] in queue.values;
      }
    }
  }

  lemma {:induction false} SweptFins(s: State, after: seq<Item>, rest: seq<Q.Value>, t: nat, q: nat)
    requires q < |s.queries| && Swept(s.items, s.queries[q].queue.values, after, rest, t)
    requires t < |s.turns| && s.turns[t].query == Some(q) && (s.turns[t].fin.Begun? || s.turns[t].fin.Exiting?)
    requires FinsOk(s.items, s.turns, s.queries)
    ensures FinsOk(after, s.turns, s.queries[q := s.queries[q].(queue := s.queries[q].queue.(values := rest))])
  {
    var b := s.queries[q := s.queries[q].(queue := s.queries[q].queue.(values := rest))];
    forall u | 0 <= u < |s.turns| && s.turns[u].query.Some? && s.turns[u].query.value < |b|
      ensures FinOk(after, u, s.turns[u], b[s.turns[u].query.value].queue)
    {
      var p := s.turns[u].query.value;
      if u != t {
        assert FinOk(s.items, u, s.turns[u], s.queries[p].queue);
        SweptFin(s.items, after, s.queries[p].queue, b[p].queue, u, s.turns[u], t);
      }
    }
  }

  lemma {:induction false} SweptFin(items: seq<Item>, after: seq<Item>, old_: Q.Queue, queue: Q.Queue, u: nat,
                                    turn: Turn, t: nat)
    requires u != t && FinOk(items, u, turn, old_) && |after| == |items|
    requires forall j :: 0 <= j < |items| ==>
        after[j] == items[j] || (items[j].turn == t && after[j] == items[j].(status := NotApplied(Unread)))
    requires queue.pending == old_.pending && queue.closed == old_.closed
    requires forall k :: 0 <= k < |queue.values| ==> queue.values[k] in old_.values
    ensures FinOk(after, u, turn, queue)
  {
    if (turn.fin.Reading? || turn.fin.Saving? || turn.fin.Ended?) && !queue.closed {
      forall k | 0 <= k < |queue.values| && queue.values[k].message.attempt < |after|
        ensures !(after[queue.values[k].message.attempt].steer && after[queue.values[k].message.attempt].turn == u)
      {
        var l :| 0 <= l < |old_.values| && old_.values[l] == queue.values[k];
      }
    }
    assert turn.fin.Reading? ==> old_.values == [];
    assert queue.values != [] ==> queue.values[0] in old_.values;
  }

  lemma {:induction false} SweptRequest(s: State, after: seq<Item>, rest: seq<Q.Value>, t: nat, q: nat)
    requires q < |s.queries| && Swept(s.items, s.queries[q].queue.values, after, rest, t) && SettlesAll(s.items, after)
    requires OpOk(s) && ReservingOk(s)
    ensures var n := s.(items := after,
                       queries := s.queries[q := s.queries[q].(queue := s.queries[q].queue.(values := rest))]);
            OpOk(n) && ReservingOk(n)
  {
    var m := s.(items := after);
    SettleRequest(s, m);
  }

  lemma {:induction false} SweptPlaces(s: State, after: seq<Item>, rest: seq<Q.Value>, t: nat, q: nat)
    requires q < |s.queries| && TurnsOk(s.turns, s.queries) && CurrentOk(s.queries, s.current)
    requires QueriesOk(s.turns, s.queries) && OneTurn(s.turns, s.queries)
    requires RetiredOk(after, s.turns, s.queries) && ReadersOk(after, s.queries)
    requires SteerTurns(after, s.turns, s.queries) && GivenOk(after, s.queries)
    ensures var b := s.queries[q := s.queries[q].(queue := s.queries[q].queue.(values := rest))];
            && TurnsOk(s.turns, b) && CurrentOk(b, s.current) && QueriesOk(s.turns, b) && OneTurn(s.turns, b)
            && RetiredOk(after, s.turns, b) && ReadersOk(after, b) && SteerTurns(after, s.turns, b) && GivenOk(after, b)
  {
    var b := s.queries[q := s.queries[q].(queue := s.queries[q].queue.(values := rest))];
    assert SamePlaces(s.queries, b);
    SamePlacesKeep(after, s.turns, s.queries, b);
  }

  /** After a sweep with no unknown steer, the turn is drained and settled. */
  lemma {:induction false} SweptClean(a: seq<Item>, queue: Q.Queue, after: seq<Item>, rest: seq<Q.Value>, t: nat,
                                      q: nat)
    requires !queue.closed && SweptAll(a, queue.values, q, true, t, 0, after, rest) && PendingOk(a, q, queue)
    requires !UnknownSteer(a, queue.values, t)
    requires Unique(a) && Separate(a) && ValuesOk(a, q, true, queue.values)
    requires forall j :: 0 <= j < |a| && a[j].turn == t ==> a[j].query == Some(q)
    ensures Drained(after, queue.(values := rest), t) && Settled(after, t)
  {
    forall i | 0 <= i < |after| && after[i].turn == t
      ensures !Outstanding(after[i])
    {
      if Outstanding(a[i]) {
        FoundIsOwn(a, queue.values, q, true, i);
        var at := Q.FindIdentity(queue.values, a[i].id);
        assert queue.values[at] in rest || after[i] != a[i];
        assert queue.values[at] in rest ==> Q.FindIdentity(rest, a[i].id) < |rest|;
      }
    }
    forall k | 0 <= k < |rest| && rest[k].message.attempt < |after|
      ensures !(after[rest[k].message.attempt].steer && after[rest[k].message.attempt].turn == t)
    {
      assert ValueOk(after, q, true, rest[k]);
    }
    if queue.pending != [] {
      var x := queue.pending[0].attempt;
      assert after[x] == a[x];
    }
  }

  lemma {:induction false} FinCheckedKeeps(s: State, t: nat, stalled: bool, prep: bool)
    requires Inv(s)
    ensures Inv(ApplyFinChecked(s, t, stalled, prep))
  {
    if Finalizing(s, t) && s.turns[t].fin.Begun? {
      var q := s.turns[t].query.value;
      var exiting := s.turns[t].(fin := Exiting, closed := true);
      assert TurnOk(s.turns[t], s.queries);
      if stalled {
        if s.queries[q].queue.closed {
          RestageKeeps(s, t, exiting);
        }
      } else if UnknownSteer(s.items, s.queries[q].queue.values, t) {
        var m := SetQueue(s, q, Q.Close(s.queries[q].queue));
        QueueStepKeeps(s, q, m);
        RestageKeeps(m, t, exiting);
      } else {
        SweptThenSaving(s, t, q, prep);
      }
    }
  }

  lemma {:induction false} SweptClears(s: State, t: nat, q: nat)
    requires Inv(s) && Finalizing(s, t) && s.turns[t].query == Some(q) && s.turns[t].fin.Begun?
    requires !UnknownSteer(s.items, s.queries[q].queue.values, t)
    ensures var w := WithdrawSteers(s, t, q);
            w.queries[q].queue.closed || (Drained(w.items, w.queries[q].queue, t) && Settled(w.items, t))
  {
    var w := WithdrawSteers(s, t, q);
    if !w.queries[q].queue.closed {
      SweepKeeps(s, t, q);
      TurnItems(s, t, q);
      SweptClean(s.items, s.queries[q].queue, w.items, w.queries[q].queue.values, t, q);
    }
  }

  lemma {:induction false} SweptThenSaving(s: State, t: nat, q: nat, prep: bool)
    requires Inv(s) && Finalizing(s, t) && s.turns[t].fin.Begun? && s.turns[t].query == Some(q)
    requires !UnknownSteer(s.items, s.queries[q].queue.values, t)
    ensures Inv(ApplyFinChecked(s, t, false, prep))
  {
    MarkKeeps(s, t, prep);
    var m := MarkUnreadStart(s, t, prep);
    MarkedSteers(s.items, m.items, m.queries[q].queue.values, t);
    SweptStaged(m, t, q);
  }

  lemma {:induction false} SweptStaged(s: State, t: nat, q: nat)
    requires Inv(s) && Finalizing(s, t) && s.turns[t].query == Some(q) && s.turns[t].fin.Begun?
    requires !UnknownSteer(s.items, s.queries[q].queue.values, t)
    ensures var w := WithdrawSteers(s, t, q); Inv(w.(turns := w.turns[t := w.turns[t].(fin := Saving)]))
  {
    SweepKeeps(s, t, q);
    SweptClears(s, t, q);
    var w := WithdrawSteers(s, t, q);
    assert TurnOk(w.turns[t], w.queries);
    RestageKeeps(w, t, w.turns[t].(fin := Saving));
  }

  lemma {:induction false} MarkedSteers(a: seq<Item>, b: seq<Item>, values: seq<Q.Value>, t: nat)
    requires |a| == |b| && SettlesAll(a, b) && !UnknownSteer(a, values, t)
    requires forall i :: 0 <= i < |a| && a[i].steer ==> b[i] == a[i]
    ensures !UnknownSteer(b, values, t)
  {
    forall i | 0 <= i < |b| && b[i].turn == t && Outstanding(b[i])
      ensures Q.FindIdentity(values, b[i].id) != |values|
    {
      assert Settles(a[i], b[i]) && a[i] == b[i];
    }
  }

  lemma {:induction false} TurnItems(s: State, t: nat, q: nat)
    requires ItemsOk(s.items, s.turns) && t < |s.turns| && s.turns[t].query == Some(q)
    ensures forall j :: 0 <= j < |s.items| && s.items[j].turn == t ==> s.items[j].query == Some(q)
  {
    forall j | 0 <= j < |s.items| && s.items[j].turn == t
      ensures s.items[j].query == Some(q)
    {
      assert ItemOk(s.items[j], s.turns);
    }
  }

  lemma {:induction false} FinExitedKeeps(s: State, t: nat, prep: bool, closeFailed: bool)
    requires Inv(s)
    ensures Inv(ApplyFinExited(s, t, prep, closeFailed))
  {
    if Finalizing(s, t) && s.turns[t].fin.Exiting? {
      var q := s.turns[t].query.value;
      var w := SweptAway(s, t, q, prep);
      var e := SetQueue(w, q, Q.Withdraw(w.queries[q].queue));
      QueueStepKeeps(w, q, e);
      var fin := if closeFailed then Saving else Reading(OpenSteers(w.items, t));
      ExitStage(e, t, q, fin, closeFailed);
      RestageKeeps(e, t, e.turns[t].(fin := fin));
    }
  }

  lemma {:induction false} SweptAway(s: State, t: nat, q: nat, prep: bool) returns (w: State)
    requires Inv(s) && Finalizing(s, t) && s.turns[t].fin.Exiting? && s.turns[t].query == Some(q)
    ensures w == WithdrawSteers(MarkUnreadStart(s, t, prep), t, q)
    ensures Inv(w)
  {
    MarkKeeps(s, t, prep);
    var m := MarkUnreadStart(s, t, prep);
    SweepKeeps(m, t, q);
    w := WithdrawSteers(m, t, q);
  }

  lemma {:induction false} ExitStage(e: State, t: nat, q: nat, fin: Fin, closeFailed: bool)
    requires TurnsOk(e.turns, e.queries) && t < |e.turns| && e.turns[t].fin.Exiting? && e.turns[t].query == Some(q)
    requires q < |e.queries| && e.queries[q].queue.values == [] && e.queries[q].queue.pending == []
    requires fin == if closeFailed then Saving else Reading(OpenSteers(e.items, t))
    ensures TurnOk(e.turns[t].(fin := fin), e.queries)
    ensures FinOk(e.items, t, e.turns[t].(fin := fin), e.queries[q].queue)
  {
    assert TurnOk(e.turns[t], e.queries);
  }

  // ------------------------------------------------------------------ the history's verdicts

  predicate Judges(a: seq<Item>, b: seq<Item>, open: set<nat>, t: nat) {
    && |a| == |b|
    && (forall i :: 0 <= i < |a| ==>
          || b[i] == a[i]
          || (i in open && a[i].steer && a[i].turn == t && a[i].status.Submitted?
              && b[i] == a[i].(status := b[i].status, stop := Untouched)
              && (b[i].status == Delivered(History) || b[i].status == NotApplied(Absent))))
  }

  lemma {:induction false} HistoryJudges(s: State, t: nat, history: Option<NativeHistory>)
    requires Finalizing(s, t) && s.turns[t].fin.Reading?
    requires forall i <- s.turns[t].fin.open ::
               i < |s.items| && s.items[i].steer && s.items[i].turn == t && s.items[i].status.Submitted?
    ensures var n := ApplyFinHistory(s, t, history);
            Judges(s.items, n.items, s.turns[t].fin.open, t)
  {
  }

  lemma {:induction false} FinHistoryKeeps(s: State, t: nat, history: Option<NativeHistory>)
    requires Inv(s)
    ensures Inv(ApplyFinHistory(s, t, history))
  {
    if Finalizing(s, t) && s.turns[t].fin.Reading? {
      var q := s.turns[t].query.value;
      var open := s.turns[t].fin.open;
      assert TurnOk(s.turns[t], s.queries);
      assert FinOk(s.items, t, s.turns[t], s.queries[q].queue);
      var m := s.(turns := s.turns[t := s.turns[t].(fin := Saving)]);
      RestageKeeps(s, t, s.turns[t].(fin := Saving));
      var n := ApplyFinHistory(s, t, history);
      HistoryJudges(s, t, history);
      assert n == m.(items := n.items);
      JudgeKeeps(m, n, open, t, q);
    }
  }

  lemma {:induction false} JudgeKeeps(m: State, n: State, open: set<nat>, t: nat, q: nat)
    requires Inv(m) && n == m.(items := n.items) && Judges(m.items, n.items, open, t)
    requires t < |m.turns| && m.turns[t].query == Some(q) && q < |m.queries| && m.turns[t].fin.Saving?
    requires m.queries[q].queue.closed && m.queries[q].queue.values == [] && m.queries[q].queue.pending == []
    ensures Inv(n)
  {
    assert SettlesAll(m.items, n.items);
    TurnItems(m, t, q);
    SettleIdentity(m.items, n.items);
    SettleReaders(m.items, n.items, m.turns, m.queries);
    SettleGiven(m.items, n.items, m.queries);
    JudgeItems(m, n, open, t, q);
    JudgeQueues(m, n, open, t, q);
    JudgeFins(m, n, open, t);
    SettleRequest(m, n);
  }

  lemma {:induction false} JudgeItems(m: State, n: State, open: set<nat>, t: nat, q: nat)
    requires Judges(m.items, n.items, open, t) && t < |m.turns| && q < |m.queries|
    requires m.queries[q].queue.closed
    requires forall j :: 0 <= j < |m.items| && m.items[j].turn == t ==> m.items[j].query == Some(q)
    requires ItemsOk(m.items, m.turns) && RetiredOk(m.items, m.turns, m.queries)
    ensures ItemsOk(n.items, m.turns) && RetiredOk(n.items, m.turns, m.queries)
  {
    forall i | 0 <= i < |n.items|
      ensures ItemOk(n.items[i], m.turns)
    {
      assert ItemOk(m.items[i], m.turns);
    }
  }

  lemma {:induction false} JudgeQueues(m: State, n: State, open: set<nat>, t: nat, q: nat)
    requires Judges(m.items, n.items, open, t) && SettlesAll(m.items, n.items) && q < |m.queries|
    requires m.queries[q].queue.values == [] && m.queries[q].queue.pending == []
    requires forall j :: 0 <= j < |m.items| && m.items[j].turn == t ==> m.items[j].query == Some(q)
    requires QueuesOk(m.items, m.queries)
    ensures QueuesOk(n.items, m.queries)
  {
    forall p | 0 <= p < |m.queries|
      ensures ValuesOk(n.items, p, !m.queries[p].queue.closed, m.queries[p].queue.values)
      ensures PendingOk(n.items, p, m.queries[p].queue)
    {
      QueuedItems(m.items, p, m.queries[p].queue);
      forall i | 0 <= i < |m.items| && m.items[i] != n.items[i]
        ensures !Queued(m.queries[p].queue, i)
      {
      }
      SettleQueues(m.items, n.items, m.queries, p);
    }
  }

  lemma {:induction false} JudgeFins(m: State, n: State, open: set<nat>, t: nat)
    requires Judges(m.items, n.items, open, t) && t < |m.turns| && m.turns[t].fin.Saving?
    requires FinsOk(m.items, m.turns, m.queries)
    ensures FinsOk(n.items, m.turns, m.queries)
  {
  }
}
