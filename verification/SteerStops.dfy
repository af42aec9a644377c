/** Stop and its receipts keep the invariant of a Claude thread. */
module SteerStops {
  import opened Basics
  import opened InputMessages
  import opened SteerSession
  import opened SteerInvariant
  import opened SteerQueries
  import opened SteerEvidence
  import opened SteerSubmissions
  import opened SteerStages
  import Q = InputQueues

  predicate Touches(a: seq<Item>, b: seq<Item>) {
    && |a| == |b|
    && (forall i :: 0 <= i < |a| && b[i] != a[i] ==>
          && b[i] == a[i].(stop := b[i].stop) && !b[i].stop.Untouched?
          && (a[i].steer ==> a[i].status.Submitted?) && !a[i].status.Erased?)
  }

  lemma {:induction false} TouchItems(a: seq<Item>, b: seq<Item>, turns: seq<Turn>, queries: seq<Query>)
    requires Touches(a, b) && ItemsOk(a, turns) && Unique(a) && Ordered(a) && Separate(a)
    requires RetiredOk(a, turns, queries) && ReadersOk(a, queries) && SteerTurns(a, turns, queries)
    ensures ItemsOk(b, turns) && Unique(b) && Ordered(b) && Separate(b)
    ensures RetiredOk(b, turns, queries) && ReadersOk(b, queries) && SteerTurns(b, turns, queries)
  {
    forall i | 0 <= i < |b|
      ensures ItemOk(b[i], turns)
    {
      assert ItemOk(a[i], turns);
    }
  }

  lemma {:induction false} TouchTraffic(a: seq<Item>, b: seq<Item>, turns: seq<Turn>, queries: seq<Query>)
    requires Touches(a, b) && GivenOk(a, queries) && FinsOk(a, turns, queries)
    ensures GivenOk(b, queries) && FinsOk(b, turns, queries)
  {
  }

  lemma {:induction false} TouchQueues(a: seq<Item>, b: seq<Item>, queries: seq<Query>)
    requires Touches(a, b) && QueuesOk(a, queries)
    requires forall q, i :: 0 <= q < |queries| && 0 <= i < |a| && a[i] != b[i] && a[i].steer
                            && !queries[q].queue.closed ==>
               !Queued(queries[q].queue, i)
    ensures QueuesOk(b, queries)
  {
    forall q | 0 <= q < |queries|
      ensures ValuesOk(b, q, !queries[q].queue.closed, queries[q].queue.values) && PendingOk(b, q, queries[q].queue)
    {
      TouchQueue(a, b, q, queries[q].queue);
    }
  }

  lemma {:induction false} TouchQueue(a: seq<Item>, b: seq<Item>, q: nat, queue: Q.Queue)
    requires Touches(a, b)
    requires ValuesOk(a, q, !queue.closed, queue.values) && PendingOk(a, q, queue)
    requires forall i :: 0 <= i < |a| && a[i] != b[i] && a[i].steer && !queue.closed ==> !Queued(queue, i)
    ensures ValuesOk(b, q, !queue.closed, queue.values) && PendingOk(b, q, queue)
  {
    forall k | 0 <= k < |queue.values|
      ensures ValueOk(b, q, !queue.closed, queue.values[k])
    {
      assert ValueOk(a, q, !queue.closed, queue.values[k]);
      assert Queued(queue, queue.values[k].message.attempt);
    }
    if queue.pending != [] {
      assert Queued(queue, queue.pending[0].attempt);
    }
  }

  lemma {:induction false} TouchRequest(s: State, n: State)
    requires Touches(s.items, n.items) && n == s.(items := n.items) && OpOk(s) && ReservingOk(s)
    requires s.op.SavingSteer? || s.op.SavingStart? ==> n.items[s.op.item] == s.items[s.op.item]
    ensures OpOk(n) && ReservingOk(n)
  {
    match s.op
    case Converting(id, content, t, start) => if start { TouchUnowned(s.items, n.items, id); }
    case AwaitingEnd(id, content, t) => TouchUnowned(s.items, n.items, id);
    case PreparingStart(id, content) => TouchUnowned(s.items, n.items, id);
    case _ =>
  }

  lemma {:induction false} TouchUnowned(a: seq<Item>, b: seq<Item>, id: string)
    requires Touches(a, b) && NoLiveOwner(a, id)
    ensures NoLiveOwner(b, id)
  {
  }

  lemma {:induction false} TouchKeeps(s: State, n: State)
    requires Inv(s) && Touches(s.items, n.items) && n == s.(items := n.items)
    requires s.op.SavingSteer? || s.op.SavingStart? ==> n.items[s.op.item] == s.items[s.op.item]
    requires forall i :: 0 <= i < |s.items| && s.items[i] != n.items[i] && s.items[i].steer && ActiveQuery(s) ==>
               !Queued(s.queries[s.current.value].queue, i)
    ensures Inv(n)
  {
    TouchItems(s.items, n.items, s.turns, s.queries);
    TouchTraffic(s.items, n.items, s.turns, s.queries);
    assert QueuesOk(n.items, n.queries) by {
      forall q, i | 0 <= q < |s.queries| && 0 <= i < |s.items| && s.items[i] != n.items[i] && s.items[i].steer
                    && !s.queries[q].queue.closed
        ensures !Queued(s.queries[q].queue, i)
      {
        assert s.current == Some(q);
      }
      TouchQueues(s.items, n.items, s.queries);
    }
    TouchRequest(s, n);
  }

  lemma {:induction false} StopReceiptKeeps(s: State, i: nat, cancelled: bool)
    requires Inv(s) && Honest(s, StopReceipt(i, cancelled))
    ensures Inv(ApplyStopReceipt(s, i, cancelled))
  {
    var n := ApplyStopReceipt(s, i, cancelled);
    if i < |s.items| && !s.items[i].status.Erased? {
      assert n.items[i] == s.items[i].(stop := n.items[i].stop);
      assert Touches(s.items, n.items);
      TouchKeeps(s, n);
    }
  }

  /** The request in flight holds no input that Stop can withdraw. */
  lemma {:induction false} StopSparesRequest(s: State, q: nat, i: nat, m: Message)
    requires Inv(s) && s.current == Some(q) && q < |s.queries| && m in Q.Unread(s.queries[q].queue)
    requires (s.op.SavingSteer? || s.op.SavingStart?) && i == s.op.item
    ensures m.uuid.identity != s.items[i].id
  {
    var queue := s.queries[q].queue;
    assert ValuesOk(s.items, q, !queue.closed, queue.values) && PendingOk(s.items, q, queue);
    UnreadOwner(s.items, q, queue, m);
    var a := m.attempt;
    StopTwin(s, q, i, a);
  }

  lemma {:induction false} StopTwin(s: State, q: nat, i: nat, a: nat)
    requires ItemsOk(s.items, s.turns) && TurnsOk(s.turns, s.queries) && CurrentOk(s.queries, s.current) && OpOk(s)
    requires Unique(s.items) && Ordered(s.items) && Separate(s.items)
    requires s.current == Some(q) && (s.op.SavingSteer? || s.op.SavingStart?) && i == s.op.item
    requires a < |s.items| && s.items[a].query == Some(q) && MayWait(s.items[a], false)
    requires SteerTurns(s.items, s.turns, s.queries)
    ensures s.items[a].id != s.items[i].id
  {
    assert ItemOk(s.items[i], s.turns);
    OldQueriesFirst(s, i);
    assert a <= i;
    assert a < i && s.items[a].id == s.items[i].id ==> Retired(s.items[a]);
  }

  lemma {:induction false} UnreadOwner(items: seq<Item>, q: nat, queue: Q.Queue, m: Message)
    requires ValuesOk(items, q, !queue.closed, queue.values) && PendingOk(items, q, queue) && m in Q.Unread(queue)
    ensures m.attempt < |items| && items[m.attempt].query == Some(q) && MayWait(items[m.attempt], false)
    ensures m.uuid.identity == items[m.attempt].id
  {
    if m in queue.pending {
      var a := queue.pending[0].attempt;
      assert forall x <- Messages(items[a], a) :: x.attempt == a && x.uuid.identity == items[a].id;
    } else {
      FlattenOwner(items, q, !queue.closed, queue.values, m);
    }
  }

  lemma {:induction false} FlattenOwner(items: seq<Item>, q: nat, open: bool, values: seq<Q.Value>, m: Message)
    requires ValuesOk(items, q, open, values) && m in Q.Flatten(values)
    ensures m.attempt < |items| && items[m.attempt].query == Some(q) && MayWait(items[m.attempt], false)
    ensures m.uuid.identity == items[m.attempt].id
  {
    assert ValueOk(items, q, open, values[0]);
    if m in Q.Parts(values[0]) {
      var a := values[0].message.attempt;
      assert forall x <- Messages(items[a], a) :: x.attempt == a && x.uuid.identity == items[a].id;
    } else {
      assert ValuesOk(items, q, open, values[1..]) by {
        forall k | 0 <= k < |values| - 1
          ensures ValueOk(items, q, open, values[1..][k])
        {
          assert ValueOk(items, q, open, values[k + 1]);
        }
      }
      FlattenOwner(items, q, open, values[1..], m);
    }
  }

  lemma {:induction false} StopKeeps(s: State)
    requires Inv(s)
    ensures Inv(ApplyStop(s))
  {
    var running := RunningTurn(s);
    if running.Some? && running.value < |s.turns| {
      var q := s.current.value;
      var m := StopTurn(s, q, running.value);
      var withdrawn := set x | x in Q.Unread(s.queries[q].queue) :: x.uuid;
      if s.op.SavingSteer? || s.op.SavingStart? {
        StopSparesSaving(s, q, s.op.item, withdrawn);
      }
      StopSparesSettled(s, q, withdrawn);
      var n := StopMarksKeep(s, q, m, withdrawn);
    }
  }

  /** Stop without its cancellation marks. */
  lemma {:induction false} StopTurn(s: State, q: nat, t: nat) returns (m: State)
    requires Inv(s) && s.current == Some(q) && q < |s.queries| && s.queries[q].turn == Some(t) && t < |s.turns|
    ensures m == ApplyStop(s).(items := s.items)
    ensures Inv(m)
  {
    var m1 := EmptyQueueOf(s, q);
    var m2 := InterruptTurn(m1, q, t);
    m := ReleaseTurn(m2, q);
    StopParts(s, q, t, m1, m2, m);
  }

  lemma {:induction false} StopParts(s: State, q: nat, t: nat, m1: State, m2: State, m: State)
    requires s.current == Some(q) && q < |s.queries| && s.queries[q].turn == Some(t) && t < |s.turns|
    requires m1 == SetQueue(s, q, Q.Withdraw(s.queries[q].queue))
    requires m2 == m1.(turns := s.turns[t := s.turns[t].(interrupted := true)])
    requires m == Release(m2, q)
    ensures m == ApplyStop(s).(items := s.items)
  {
  }

  lemma {:induction false} EmptyQueueOf(s: State, q: nat) returns (m: State)
    requires Inv(s) && q < |s.queries|
    ensures m == SetQueue(s, q, Q.Withdraw(s.queries[q].queue))
    ensures Inv(m)
  {
    m := SetQueue(s, q, Q.Withdraw(s.queries[q].queue));
    QueueStepKeeps(s, q, m);
  }

  lemma {:induction false} ReleaseTurn(s: State, q: nat) returns (m: State)
    requires Inv(s) && q < |s.queries|
    ensures m == Release(s, q)
    ensures Inv(m)
  {
    m := Release(s, q);
    ReleaseKeeps(s, q);
  }

  lemma {:induction false} InterruptTurn(s: State, q: nat, t: nat) returns (m: State)
    requires Inv(s) && q < |s.queries| && t < |s.turns| && s.queries[q].turn == Some(t)
    ensures m == s.(turns := s.turns[t := s.turns[t].(interrupted := true)])
    ensures Inv(m)
  {
    var turn := s.turns[t].(interrupted := true);
    m := s.(turns := s.turns[t := turn]);
    assert TurnOk(s.turns[t], s.queries);
    assert FinOk(s.items, t, s.turns[t], s.queries[q].queue);
    RestageKeeps(s, t, turn);
  }

  function Release(s: State, q: nat): State
    requires q < |s.queries|
  {
    s.(queries := s.queries[q := s.queries[q].(reserving := false,
                                               turn := if s.queries[q].reserving then None else s.queries[q].turn)])
  }

  lemma {:induction false} ReleaseKeeps(s: State, q: nat)
    requires Inv(s) && q < |s.queries|
    ensures Inv(Release(s, q))
  {
    var n := Release(s, q);
    ReleaseQuery(s.items, s.turns, s.queries, n.queries, q);
    ReleaseTraffic(s.items, s.turns, s.queries, n.queries, q);
    ReleaseRequest(s, q);
  }

  lemma {:induction false} ReleaseRequest(s: State, q: nat)
    requires q < |s.queries| && OpOk(s) && ReservingOk(s) && CurrentOk(s.queries, s.current)
    ensures var n := Release(s, q); OpOk(n) && ReservingOk(n) && CurrentOk(n.queries, n.current)
  {
  }

  lemma {:induction false} StopSparesSaving(s: State, q: nat, i: nat, withdrawn: set<Uuid>)
    requires Inv(s) && s.current == Some(q) && q < |s.queries|
    requires (s.op.SavingSteer? || s.op.SavingStart?) && i == s.op.item
    requires withdrawn == set x | x in Q.Unread(s.queries[q].queue) :: x.uuid
    ensures i < |s.items| && CancelWithdrawn(s.items, withdrawn)[i] == s.items[i]
  {
    assert ItemOk(s.items[i], s.turns);
    FinalUuid(s.items[i], i);
    forall x | x in Q.Unread(s.queries[q].queue)
      ensures x.uuid.identity != s.items[i].id
    {
      StopSparesRequest(s, q, i, x);
    }
    assert Whole(s.items[i].id) !in withdrawn;
    CancelSpares(s.items, withdrawn, i);
  }

  /** Stop cancels no steer that has an outcome. */
  lemma {:induction false} StopCancelsSubmitted(s: State, q: nat, i: nat, withdrawn: set<Uuid>)
    requires Inv(s) && s.current == Some(q) && q < |s.queries| && i < |s.items| && s.items[i].steer
    requires withdrawn == set x | x in Q.Unread(s.queries[q].queue) :: x.uuid
    requires CancelWithdrawn(s.items, withdrawn)[i] != s.items[i]
    ensures s.items[i].status.Submitted?
  {
    assert ItemOk(s.items[i], s.turns);
    FinalUuid(s.items[i], i);
    assert Whole(s.items[i].id) in withdrawn;
    var m :| m in Q.Unread(s.queries[q].queue) && m.uuid == Whole(s.items[i].id);
    var queue := s.queries[q].queue;
    assert ValuesOk(s.items, q, !queue.closed, queue.values) && PendingOk(s.items, q, queue);
    UnreadOwner(s.items, q, queue, m);
    LastIsOwner(s, q, i, m.attempt);
  }

  lemma {:induction false} StopSparesSettled(s: State, q: nat, withdrawn: set<Uuid>)
    requires Inv(s) && s.current == Some(q) && q < |s.queries|
    requires withdrawn == set x | x in Q.Unread(s.queries[q].queue) :: x.uuid
    ensures forall i :: 0 <= i < |s.items| && s.items[i].steer && !s.items[i].status.Submitted? ==>
              CancelWithdrawn(s.items, withdrawn)[i] == s.items[i]
  {
    forall i | 0 <= i < |s.items| && s.items[i].steer && CancelWithdrawn(s.items, withdrawn)[i] != s.items[i]
      ensures s.items[i].status.Submitted?
    {
      StopCancelsSubmitted(s, q, i, withdrawn);
    }
  }

  lemma {:induction false} LastIsOwner(s: State, q: nat, i: nat, a: nat)
    requires ItemsOk(s.items, s.turns) && CurrentOk(s.queries, s.current) && SteerTurns(s.items, s.turns, s.queries)
    requires Unique(s.items) && Ordered(s.items) && Separate(s.items) && s.current == Some(q)
    requires i < |s.items| && s.items[i].steer && LastOfId(s.items, i)
    requires a < |s.items| && s.items[a].id == s.items[i].id && s.items[a].query == Some(q)
    requires MayWait(s.items[a], false)
    ensures a == i
  {
    assert ItemOk(s.items[i], s.turns) && ItemOk(s.items[a], s.turns);
    assert a < i ==> Retired(s.items[a]);
  }

  lemma {:induction false} MarksKeep(m: State, q: nat, n: State, withdrawn: set<Uuid>)
    requires Inv(m) && m.current == Some(q) && q < |m.queries|
    requires m.queries[q].queue.values == [] && m.queries[q].queue.pending == []
    requires n == m.(items := CancelWithdrawn(m.items, withdrawn))
    requires m.op.SavingSteer? || m.op.SavingStart? ==> n.items[m.op.item] == m.items[m.op.item]
    requires forall i :: 0 <= i < |m.items| && m.items[i].steer && n.items[i] != m.items[i] ==>
               m.items[i].status.Submitted?
    ensures Inv(n)
  {
    assert Touches(m.items, n.items);
    TouchKeeps(m, n);
  }

  lemma {:induction false} StopMarksKeep(s: State, q: nat, m: State, withdrawn: set<Uuid>) returns (n: State)
    requires s.current == Some(q) && q < |s.queries| && s.queries[q].turn.Some? && s.queries[q].turn.value < |s.turns|
    requires Inv(m) && q < |m.queries| && m == ApplyStop(s).(items := s.items) && m.current == Some(q)
    requires m.queries[q].queue.values == [] && m.queries[q].queue.pending == []
    requires withdrawn == set x | x in Q.Unread(s.queries[q].queue) :: x.uuid
    requires m.op.SavingSteer? || m.op.SavingStart? ==>
               m.op.item < |m.items| && CancelWithdrawn(m.items, withdrawn)[m.op.item] == m.items[m.op.item]
    requires forall i :: 0 <= i < |m.items| && m.items[i].steer && !m.items[i].status.Submitted? ==>
               CancelWithdrawn(m.items, withdrawn)[i] == m.items[i]
    ensures n == ApplyStop(s)
    ensures Inv(n)
  {
    n := m.(items := CancelWithdrawn(s.items, withdrawn));
    MarksKeep(m, q, n, withdrawn);
  }

  lemma {:induction false} CancelSpares(items: seq<Item>, withdrawn: set<Uuid>, i: nat)
    requires i < |items| && Whole(items[i].id) in Uuids(Messages(items[i], i)) && Whole(items[i].id) !in withdrawn
    ensures CancelWithdrawn(items, withdrawn)[i] == items[i]
  {
  }
}
