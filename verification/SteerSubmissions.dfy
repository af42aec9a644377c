/** A steer becomes an item, is submitted or is refused, and the invariant of a Claude thread holds. */
module SteerSubmissions {
  import opened Basics
  import opened InputMessages
  import opened SteerSession
  import opened SteerInvariant
  import opened SteerQueries
  import opened SteerEvidence
  import opened SteerPulls
  import Q = InputQueues

  // ------------------------------------------------------------------ new items

  lemma {:induction false} AppendIdentity(items: seq<Item>, item: Item)
    requires Unique(items) && Ordered(items) && Separate(items) && NoLiveOwner(items, item.id)
    requires forall i :: 0 <= i < |items| && items[i].query.Some? && item.query.Some? ==>
               items[i].query.value <= item.query.value
    requires forall i :: 0 <= i < |items| && items[i].id == item.id && Retired(items[i]) && items[i].query.Some? ==>
               items[i].query != item.query
    ensures Unique(items + [item]) && Ordered(items + [item]) && Separate(items + [item])
  {
  }

  lemma {:induction false} AppendTraffic(items: seq<Item>, item: Item, queries: seq<Query>)
    requires QueuesOk(items, queries) && ReadersOk(items, queries) && GivenOk(items, queries)
    requires item.status.Preparing? && item.given == 0
    ensures QueuesOk(items + [item], queries) && ReadersOk(items + [item], queries) && GivenOk(items + [item], queries)
  {
    var b := items + [item];
    forall q | 0 <= q < |queries|
      ensures ValuesOk(b, q, !queries[q].queue.closed, queries[q].queue.values) && PendingOk(b, q, queries[q].queue)
    {
      var queue := queries[q].queue;
      assert ValuesOk(items, q, !queue.closed, queue.values) && PendingOk(items, q, queue);
      forall k | 0 <= k < |queue.values|
        ensures ValueOk(b, q, !queue.closed, queue.values[k])
      {
        assert ValueOk(items, q, !queue.closed, queue.values[k]);
      }
    }
  }

  lemma {:induction false} QueuedItems(items: seq<Item>, q: nat, queue: Q.Queue)
    requires ValuesOk(items, q, !queue.closed, queue.values) && PendingOk(items, q, queue)
    ensures forall k :: 0 <= k < |queue.values| ==>
              && queue.values[k].message.attempt < |items|
              && MayWait(items[queue.values[k].message.attempt], !queue.closed)
              && items[queue.values[k].message.attempt].query == Some(q)
              && items[queue.values[k].message.attempt].id == queue.values[k].message.identity
    ensures forall k :: 0 <= k < |queue.pending| ==>
              && queue.pending[k].attempt < |items|
              && MayWait(items[queue.pending[k].attempt], !queue.closed)
              && items[queue.pending[k].attempt].query == Some(q)
              && items[queue.pending[k].attempt].id == queue.pending[0].identity
  {
    forall k | 0 <= k < |queue.values|
      ensures && queue.values[k].message.attempt < |items|
              && MayWait(items[queue.values[k].message.attempt], !queue.closed)
              && items[queue.values[k].message.attempt].query == Some(q)
              && items[queue.values[k].message.attempt].id == queue.values[k].message.identity
    {
      assert ValueOk(items, q, !queue.closed, queue.values[k]);
    }
  }

  lemma {:induction false} AppendTurns(items: seq<Item>, item: Item, turns: seq<Turn>, queries: seq<Query>)
    requires QueuesOk(items, queries) && FinsOk(items, turns, queries) && item.status.Preparing?
    ensures FinsOk(items + [item], turns, queries)
  {
    var b := items + [item];
    forall t | 0 <= t < |turns| && turns[t].query.Some? && turns[t].query.value < |queries|
      ensures var queue := queries[turns[t].query.value].queue;
              && (turns[t].fin.Reading? ==> ReadingOk(b, turns[t].fin.open, t, queue))
              && (turns[t].fin.Reading? || turns[t].fin.Saving? || turns[t].fin.Ended? ==>
                    queue.closed || (Drained(b, queue, t) && Settled(b, t)))
    {
      var q := turns[t].query.value;
      QueuedItems(items, q, queries[q].queue);
    }
  }

  /** Nothing retired on an open, running query carries the identity of a new submission. */
  lemma {:induction false} OpenQueryRetiresNothing(s: State, q: nat, t: nat, i: nat)
    requires ItemsOk(s.items, s.turns) && RetiredOk(s.items, s.turns, s.queries) && OneTurn(s.turns, s.queries)
    requires i < |s.items| && s.items[i].query == Some(q) && q < |s.queries|
    requires !s.queries[q].queue.closed
    requires s.queries[q].phase.Ready? || (t < |s.turns| && s.turns[t].query == Some(q) && s.turns[t].fin.Running?)
    ensures !Retired(s.items[i])
  {
    assert ItemOk(s.items[i], s.turns);
    var u := s.items[i].turn;
    assert !s.queries[q].phase.Ready? ==> s.turns[u].query == s.turns[t].query;
  }

  lemma {:induction false} OldQueriesFirst(s: State, i: nat)
    requires ItemsOk(s.items, s.turns) && TurnsOk(s.turns, s.queries) && i < |s.items|
    ensures s.items[i].query.Some? ==> s.items[i].query.value < |s.queries|
  {
    assert ItemOk(s.items[i], s.turns) && TurnOk(s.turns[s.items[i].turn], s.queries);
  }

  lemma {:induction false} SteerConvertedKeeps(s: State, ok: bool, parts: nat)
    requires Inv(s) && !Reuses(s, SteerConverted(ok, parts))
    ensures Inv(ApplySteerConverted(s, ok, parts))
  {
    if s.op.Converting? {
      var n := ApplySteerConverted(s, ok, parts);
      if ok && parts > 0 && Admitted(s, s.op.turn) {
        SteerItemAdded(s, parts, n);
      } else {
        WaitKeeps(s, n);
      }
    }
  }

  lemma {:induction false} SteerItemAdded(s: State, parts: nat, n: State)
    requires Inv(s) && s.op.Converting? && parts > 0 && Admitted(s, s.op.turn) && NoLiveOwner(s.items, s.op.id)
    requires n == ApplySteerConverted(s, true, parts)
    ensures Inv(n)
  {
    var item := n.items[|s.items|];
    var q := s.current.value;
    assert n.items == s.items + [item];
    forall i | 0 <= i < |s.items|
      ensures s.items[i].query.Some? && item.query.Some? ==> s.items[i].query.value <= item.query.value
      ensures Retired(s.items[i]) && s.items[i].query.Some? ==> s.items[i].query != item.query
    {
      OldQueriesFirst(s, i);
      if Retired(s.items[i]) && s.items[i].query == Some(q) {
        OpenQueryRetiresNothing(s, q, s.op.turn, i);
      }
    }
    AppendIdentity(s.items, item);
    AppendTraffic(s.items, item, s.queries);
    AppendTurns(s.items, item, s.turns, s.queries);
    SteerItemPlaced(s, item, n);
  }

  lemma {:induction false} SteerItemPlaced(s: State, item: Item, n: State)
    requires ItemsOk(s.items, s.turns) && SteerTurns(s.items, s.turns, s.queries)
             && RetiredOk(s.items, s.turns, s.queries)
    requires s.op.Converting? && Admitted(s, s.op.turn) && ReservingOk(s)
    requires item.turn == s.op.turn && item.query == s.current && item.steer && item.parts > 0
    requires item.status.Preparing? && item.stop.Untouched? && item.given == 0
    requires n == s.(items := s.items + [item], op := SavingSteer(|s.items|, s.op.start))
    ensures ItemsOk(n.items, n.turns) && SteerTurns(n.items, n.turns, n.queries)
            && RetiredOk(n.items, n.turns, n.queries)
    ensures OpOk(n) && ReservingOk(n)
  {
  }

  // ------------------------------------------------------------------ submission

  /** No queued input has the identity of the item being submitted. */
  lemma {:induction false} NoTwin(s: State, q: nat, i: nat)
    requires i + 1 == |s.items| && Live(s.items[i]) && s.items[i].status.Preparing? && s.items[i].query == Some(q)
    requires Unique(s.items) && Separate(s.items) && q < |s.queries|
    requires ValuesOk(s.items, q, !s.queries[q].queue.closed, s.queries[q].queue.values)
    requires PendingOk(s.items, q, s.queries[q].queue)
    ensures var queue := s.queries[q].queue;
            && (forall k :: 0 <= k < |queue.values| ==> queue.values[k].message.identity != s.items[i].id)
            && (queue.pending != [] ==>
                  queue.pending[0].attempt < |s.items| && s.items[queue.pending[0].attempt].id != s.items[i].id)
  {
    var queue := s.queries[q].queue;
    QueuedItems(s.items, q, queue);
    forall k | 0 <= k < |queue.values|
      ensures queue.values[k].message.identity != s.items[i].id
    {
      TwinFree(s, q, i, queue.values[k].message.attempt);
    }
    if queue.pending != [] {
      TwinFree(s, q, i, queue.pending[0].attempt);
    }
  }

  lemma {:induction false} TwinFree(s: State, q: nat, i: nat, a: nat)
    requires i + 1 == |s.items| && Live(s.items[i]) && s.items[i].status.Preparing? && s.items[i].query == Some(q)
    requires Unique(s.items) && Separate(s.items) && a < |s.items|
    requires MayWait(s.items[a], false) && s.items[a].query == Some(q)
    ensures s.items[a].id != s.items[i].id
  {
    if s.items[a].id == s.items[i].id {
      assert a < i;
      assert Retired(s.items[a]);
    }
  }

  predicate Submits(s: State, n: State, q: nat, i: nat) {
    && i < |s.items| && q < |s.queries| && s.items[i].parts >= 1 && |n.queries| == |s.queries|
    && n.items == s.items[i := s.items[i].(status := Submitted)]
    && n.turns == s.turns && n.current == s.current && n.op.Idle?
    && !s.queries[q].queue.closed
    && n.queries == s.queries[q := n.queries[q]]
    && n.queries[q] == s.queries[q].(reserving := false, queue := Q.Push(s.queries[q].queue, Submission(s.items[i], i)))
  }

  lemma {:induction false} SubmitQueues(s: State, n: State, q: nat, i: nat)
    requires Submits(s, n, q, i) && i + 1 == |s.items| && s.items[i].status.Preparing?
    requires s.items[i].query == Some(q) && s.items[i].given == 0 && s.items[i].stop.Untouched?
    requires Unique(s.items) && Separate(s.items) && QueuesOk(s.items, s.queries)
    ensures QueuesOk(n.items, n.queries)
  {
    forall p | 0 <= p < |n.queries|
      ensures ValuesOk(n.items, p, !n.queries[p].queue.closed, n.queries[p].queue.values)
      ensures PendingOk(n.items, p, n.queries[p].queue)
    {
      SubmittedElsewhere(s.items, i, p, s.queries[p].queue);
      if p == q {
        NoTwin(s, q, i);
        SubmittedHere(s.items, i, q, s.queries[q].queue);
      }
    }
  }

  lemma {:induction false} SubmittedElsewhere(items: seq<Item>, i: nat, p: nat, queue: Q.Queue)
    requires i < |items| && items[i].status.Preparing?
    requires ValuesOk(items, p, !queue.closed, queue.values) && PendingOk(items, p, queue)
    ensures var b := items[i := items[i].(status := Submitted)];
            ValuesOk(b, p, !queue.closed, queue.values) && PendingOk(b, p, queue)
  {
    var b := items[i := items[i].(status := Submitted)];
    forall k | 0 <= k < |queue.values|
      ensures ValueOk(b, p, !queue.closed, queue.values[k])
    {
      assert ValueOk(items, p, !queue.closed, queue.values[k]);
    }
  }

  lemma {:induction false} SubmittedHere(items: seq<Item>, i: nat, q: nat, queue: Q.Queue)
    requires i < |items| && items[i].query == Some(q) && items[i].given == 0 && items[i].stop.Untouched?
    requires items[i].parts >= 1 && !queue.closed
    requires var b := items[i := items[i].(status := Submitted)];
             ValuesOk(b, q, true, queue.values) && PendingOk(b, q, queue)
    requires forall k :: 0 <= k < |queue.values| ==> queue.values[k].message.identity != items[i].id
    requires queue.pending != [] ==>
        queue.pending[0].attempt < |items| && items[queue.pending[0].attempt].id != items[i].id
    ensures var b := items[i := items[i].(status := Submitted)];
            var next := Q.Push(queue, Submission(items[i], i));
            ValuesOk(b, q, true, next.values) && PendingOk(b, q, next)
  {
    var b := items[i := items[i].(status := Submitted)];
    assert ValueOk(b, q, true, Submission(items[i], i));
    assert Submission(items[i], i).message.identity == items[i].id;
  }

  lemma {:induction false} SubmitFins(s: State, n: State, q: nat, i: nat)
    requires Submits(s, n, q, i) && s.items[i].status.Preparing? && s.items[i].turn < |s.turns|
    requires s.turns[s.items[i].turn].query == Some(q)
    requires s.items[i].steer ==> s.turns[s.items[i].turn].fin.Running?
    requires FinsOk(s.items, s.turns, s.queries) && TurnsOk(s.turns, s.queries)
    ensures FinsOk(n.items, n.turns, n.queries)
  {
    forall t | 0 <= t < |n.turns| && n.turns[t].query.Some? && n.turns[t].query.value < |n.queries|
      ensures var queue := n.queries[n.turns[t].query.value].queue;
              && (n.turns[t].fin.Reading? ==> ReadingOk(n.items, n.turns[t].fin.open, t, queue))
              && (n.turns[t].fin.Reading? || n.turns[t].fin.Saving? || n.turns[t].fin.Ended? ==>
                    queue.closed || (Drained(n.items, queue, t) && Settled(n.items, t)))
    {
      assert TurnOk(s.turns[t], s.queries);
    }
  }

  lemma {:induction false} SubmitPlaces(s: State, n: State, q: nat, i: nat)
    requires Submits(s, n, q, i) && s.items[i].status.Preparing?
    requires ItemsOk(s.items, s.turns) && TurnsOk(s.turns, s.queries) && CurrentOk(s.queries, s.current)
    requires QueriesOk(s.turns, s.queries) && OneTurn(s.turns, s.queries)
    ensures ItemsOk(n.items, n.turns) && TurnsOk(n.turns, n.queries) && CurrentOk(n.queries, n.current)
    ensures QueriesOk(n.turns, n.queries) && OneTurn(n.turns, n.queries)
  {
  }

  lemma {:induction false} SubmitTraffic(s: State, n: State, q: nat, i: nat)
    requires Submits(s, n, q, i) && s.items[i].status.Preparing?
    requires RetiredOk(s.items, s.turns, s.queries) && ReadersOk(s.items, s.queries)
    requires SteerTurns(s.items, s.turns, s.queries) && GivenOk(s.items, s.queries)
    ensures RetiredOk(n.items, n.turns, n.queries) && ReadersOk(n.items, n.queries)
    ensures SteerTurns(n.items, n.turns, n.queries) && GivenOk(n.items, n.queries)
  {
    SettleReaders(s.items, n.items, s.turns, s.queries);
    SettleGiven(s.items, n.items, s.queries);
    assert SamePlaces(s.queries, n.queries);
    SubmitRetired(s.items, n.items, i, s.turns, s.queries);
    SamePlacesKeep(n.items, n.turns, s.queries, n.queries);
  }

  lemma {:induction false} SubmitRetired(a: seq<Item>, b: seq<Item>, i: nat, turns: seq<Turn>, queries: seq<Query>)
    requires i < |a| && b == a[i := a[i].(status := Submitted)] && RetiredOk(a, turns, queries)
    ensures RetiredOk(b, turns, queries)
  {
  }

  lemma {:induction false} SubmitKeeps(s: State, n: State, q: nat, i: nat)
    requires Inv(s) && Submits(s, n, q, i) && i + 1 == |s.items| && s.items[i].status.Preparing?
    requires s.items[i].turn < |s.turns| && s.turns[s.items[i].turn].query == Some(q)
    requires s.items[i].steer ==> s.turns[s.items[i].turn].fin.Running?
    requires s.items[i].stop.Untouched?
    requires ReservingOk(n)
    ensures Inv(n)
  {
    assert ItemOk(s.items[i], s.turns);
    SettleIdentity(s.items, n.items);
    SubmitPlaces(s, n, q, i);
    SubmitTraffic(s, n, q, i);
    SubmitQueues(s, n, q, i);
    SubmitFins(s, n, q, i);
  }

  // ------------------------------------------------------------------ refusal

  predicate Refuses(a: seq<Item>, b: seq<Item>, i: nat) {
    && i + 1 == |a| && a[i].status.Preparing? && a[i].stop.Untouched? && |b| == |a|
    && b == a[i := a[i].(status := b[i].status)]
    && (b[i].status == NotApplied(Refused) || b[i].status.Erased?)
  }

  lemma {:induction false} RefusedItems(s: State, b: seq<Item>, i: nat)
    requires Inv(s) && Refuses(s.items, b, i)
    ensures ItemsOk(b, s.turns) && Unique(b) && Ordered(b) && Separate(b)
    ensures RetiredOk(b, s.turns, s.queries) && ReadersOk(b, s.queries) && GivenOk(b, s.queries)
    ensures QueuesOk(b, s.queries) && SteerTurns(b, s.turns, s.queries) && FinsOk(b, s.turns, s.queries)
  {
    assert ItemOk(s.items[i], s.turns);
    SettleIdentity(s.items, b);
    SettleReaders(s.items, b, s.turns, s.queries);
    SettleGiven(s.items, b, s.queries);
    RefusedQueues(s.items, b, i, s.queries);
    RefusedFins(s.items, b, i, s.turns, s.queries);
  }

  lemma {:induction false} RefusedQueues(a: seq<Item>, b: seq<Item>, i: nat, queries: seq<Query>)
    requires Refuses(a, b, i) && QueuesOk(a, queries)
    ensures QueuesOk(b, queries)
  {
    forall q | 0 <= q < |queries|
      ensures ValuesOk(b, q, !queries[q].queue.closed, queries[q].queue.values) && PendingOk(b, q, queries[q].queue)
    {
      QueuedItems(a, q, queries[q].queue);
      assert !Queued(queries[q].queue, i);
      SettleQueues(a, b, queries, q);
    }
  }

  lemma {:induction false} RefusedFins(a: seq<Item>, b: seq<Item>, i: nat, turns: seq<Turn>, queries: seq<Query>)
    requires Refuses(a, b, i) && FinsOk(a, turns, queries)
    ensures FinsOk(b, turns, queries)
  {
  }

  /** A reservation ends: its turn may be cleared, since it owns no steer. */
  lemma {:induction false} ReleaseQuery(items: seq<Item>, turns: seq<Turn>, a: seq<Query>, b: seq<Query>, q: nat)
    requires q < |a| && |b| == |a| && b == a[q := a[q].(reserving := false, turn := b[q].turn)]
    requires b[q].turn == a[q].turn
             || (b[q].turn.None? && forall i :: 0 <= i < |items| && items[i].steer ==> a[q].turn != Some(items[i].turn))
    requires TurnsOk(turns, a) && QueriesOk(turns, a) && OneTurn(turns, a) && SteerTurns(items, turns, a)
    ensures TurnsOk(turns, b) && QueriesOk(turns, b) && OneTurn(turns, b) && SteerTurns(items, turns, b)
  {
  }

  lemma {:induction false} ReleaseTraffic(items: seq<Item>, turns: seq<Turn>, a: seq<Query>, b: seq<Query>, q: nat)
    requires q < |a| && |b| == |a| && b == a[q := a[q].(reserving := false, turn := b[q].turn)]
    requires RetiredOk(items, turns, a) && ReadersOk(items, a) && GivenOk(items, a) && QueuesOk(items, a)
    requires FinsOk(items, turns, a)
    ensures RetiredOk(items, turns, b) && ReadersOk(items, b) && GivenOk(items, b) && QueuesOk(items, b)
    ensures FinsOk(items, turns, b)
  {
    SameQueueFins(items, turns, a, b);
  }

  /** A refused item leaves its identity free. */
  lemma {:induction false} RefusedUnowned(a: seq<Item>, b: seq<Item>, i: nat)
    requires Refuses(a, b, i) && Unique(a)
    ensures NoLiveOwner(b, a[i].id)
  {
  }

  lemma {:induction false} SteerSavedKeeps(s: State, ok: bool)
    requires Inv(s)
    ensures Inv(ApplySteerSaved(s, ok))
  {
    if s.op.SavingSteer? {
      var i := s.op.item;
      var n := ApplySteerSaved(s, ok);
      assert ItemOk(s.items[i], s.turns);
      if ok && Admitted(s, s.items[i].turn) {
        SteerPushed(s, i, n);
      } else {
        SteerRefused(s, ok, n);
      }
    }
  }

  lemma {:induction false} SteerPushed(s: State, i: nat, n: State)
    requires Inv(s) && s.op.SavingSteer? && i == s.op.item < |s.items| && Admitted(s, s.items[i].turn)
    requires s.items[i].parts >= 1 && n == ApplySteerSaved(s, true)
    ensures Inv(n)
  {
    var q := s.current.value;
    assert !s.queries[q].reserving;
    assert Submits(s, n, q, i);
    SubmitKeeps(s, n, q, i);
  }

  lemma {:induction false} SteerRefused(s: State, ok: bool, n: State)
    requires Inv(s) && s.op.SavingSteer? && s.op.item < |s.items| && s.items[s.op.item].parts >= 1
    requires !(ok && Admitted(s, s.items[s.op.item].turn)) && n == ApplySteerSaved(s, ok)
    ensures Inv(n)
  {
    var i := s.op.item;
    assert Refuses(s.items, n.items, i);
    RefusedItems(s, n.items, i);
    RefusedUnowned(s.items, n.items, i);
    assert forall q :: 0 <= q < |s.queries| ==> !s.queries[q].reserving;
  }
}
