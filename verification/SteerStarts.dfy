/** A start opens a turn and is saved, and the invariant of a Claude thread holds. */
module SteerStarts {
  import opened Basics
  import opened InputMessages
  import opened SteerSession
  import opened SteerInvariant
  import opened SteerQueries
  import opened SteerPulls
  import opened SteerSubmissions

  // ------------------------------------------------------------------ new turns

  lemma {:induction false} StartPreparedKeeps(s: State, ok: bool, parts: nat)
    requires Inv(s)
    ensures Inv(ApplyStartPrepared(s, ok, parts))
  {
    if s.op.PreparingStart? {
      var n := ApplyStartPrepared(s, ok, parts);
      if !ok || parts == 0 {
        WaitKeeps(s, n);
      } else if s.current.None? {
        LooseTurnAdded(s, parts, n);
      } else {
        var query := s.queries[s.current.value];
        if !query.phase.Ready? || query.turn.Some? || query.queue.closed {
          WaitKeeps(s, n);
        } else {
          ReservedTurnAdded(s, parts, n);
        }
      }
    }
  }

  lemma {:induction false} StartItemAdded(s: State, item: Item)
    requires Inv(s) && NoLiveOwner(s.items, item.id) && item.query == s.current
    requires item.status.Preparing? && item.given == 0
    requires s.current.Some? ==> s.current.value < |s.queries| && s.queries[s.current.value].phase.Ready?
                                 && !s.queries[s.current.value].queue.closed
    ensures Unique(s.items + [item]) && Ordered(s.items + [item]) && Separate(s.items + [item])
    ensures QueuesOk(s.items + [item], s.queries) && ReadersOk(s.items + [item], s.queries)
    ensures GivenOk(s.items + [item], s.queries) && FinsOk(s.items + [item], s.turns, s.queries)
  {
    forall i | 0 <= i < |s.items|
      ensures s.items[i].query.Some? && item.query.Some? ==> s.items[i].query.value <= item.query.value
      ensures Retired(s.items[i]) && s.items[i].query.Some? ==> s.items[i].query != item.query
    {
      OldQueriesFirst(s, i);
      if s.items[i].query.Some? && s.items[i].query == item.query {
        OpenQueryRetiresNothing(s, item.query.value, 0, i);
      }
    }
    AppendIdentity(s.items, item);
    AppendTraffic(s.items, item, s.queries);
    AppendTurns(s.items, item, s.turns, s.queries);
  }

  lemma {:induction false} TurnAdded(items: seq<Item>, item: Item, turns: seq<Turn>, turn: Turn, queries: seq<Query>)
    requires ItemsOk(items, turns) && RetiredOk(items, turns, queries) && SteerTurns(items, turns, queries)
    requires FinsOk(items + [item], turns, queries)
    requires turn == Turn(item.query, false, Running, false, 0)
    requires item.turn == |turns| && !item.steer && item.status.Preparing? && item.given == 0 && item.parts >= 1
    ensures ItemsOk(items + [item], turns + [turn]) && RetiredOk(items + [item], turns + [turn], queries)
    ensures SteerTurns(items + [item], turns + [turn], queries)
    ensures FinsOk(items + [item], turns + [turn], queries)
  {
    var b := items + [item];
    forall i | 0 <= i < |b|
      ensures ItemOk(b[i], turns + [turn])
    {
      if i < |items| {
        assert ItemOk(items[i], turns);
      }
    }
  }

  lemma {:induction false} LooseTurnAdded(s: State, parts: nat, n: State)
    requires Inv(s) && s.op.PreparingStart? && s.current.None? && parts > 0
    requires n == ApplyStartPrepared(s, true, parts)
    ensures Inv(n)
  {
    var item := n.items[|s.items|];
    assert n.items == s.items + [item] && n.turns == s.turns + [n.turns[|s.turns|]];
    StartItemAdded(s, item);
    TurnAdded(s.items, item, s.turns, n.turns[|s.turns|], s.queries);
    LooseTurnPlaced(s, item, n);
  }

  lemma {:induction false} LooseTurnPlaced(s: State, item: Item, n: State)
    requires ItemsOk(s.items, s.turns) && TurnsOk(s.turns, s.queries) && QueriesOk(s.turns, s.queries)
    requires OneTurn(s.turns, s.queries) && ReservingOk(s)
    requires s.op.PreparingStart? && s.current.None?
    requires item.turn == |s.turns| && !item.steer && item.status.Preparing? && item.stop.Untouched?
    requires n == s.(items := s.items + [item], turns := s.turns + [Turn(None, false, Running, false, 0)],
                     op := SavingStart(|s.items|))
    ensures TurnsOk(n.turns, n.queries) && QueriesOk(n.turns, n.queries) && OneTurn(n.turns, n.queries)
    ensures OpOk(n) && ReservingOk(n)
  {
    forall j | 0 <= j < |s.items|
      ensures n.items[j].turn != item.turn
    {
      assert ItemOk(s.items[j], s.turns);
    }
  }

  /** The query of a new turn takes it as its active turn. */
  lemma {:induction false} OccupyQuery(items: seq<Item>, turns: seq<Turn>, a: seq<Query>, b: seq<Query>, q: nat, t: nat)
    requires |b| == |a| && q < |a| && b == a[q := a[q].(turn := Some(t), reserving := b[q].reserving)]
    requires t < |turns| && turns[t].query == Some(q) && a[q].turn.None?
    requires RetiredOk(items, turns, a) && ReadersOk(items, a) && GivenOk(items, a) && QueuesOk(items, a)
    requires FinsOk(items, turns, a) && SteerTurns(items, turns, a)
    ensures RetiredOk(items, turns, b) && ReadersOk(items, b) && GivenOk(items, b) && QueuesOk(items, b)
    ensures FinsOk(items, turns, b) && SteerTurns(items, turns, b)
  {
    SameQueueFins(items, turns, a, b);
  }

  lemma {:induction false} ReservedTurnAdded(s: State, parts: nat, n: State)
    requires Inv(s) && s.op.PreparingStart? && s.current.Some? && parts > 0
    requires s.current.value < |s.queries| && s.queries[s.current.value].phase.Ready?
    requires s.queries[s.current.value].turn.None? && !s.queries[s.current.value].queue.closed
    requires n == ApplyStartPrepared(s, true, parts)
    ensures Inv(n)
  {
    var q := s.current.value;
    var item := n.items[|s.items|];
    assert n.items == s.items + [item] && n.turns == s.turns + [n.turns[|s.turns|]];
    StartItemAdded(s, item);
    TurnAdded(s.items, item, s.turns, n.turns[|s.turns|], s.queries);
    assert RetiredOk(n.items, n.turns, s.queries) && SteerTurns(n.items, n.turns, s.queries);
    OccupyQuery(n.items, n.turns, s.queries, n.queries, q, |s.turns|);
    ReservedTurnPlaced(s, item, n, q);
  }

  lemma {:induction false} ReservedTurnPlaced(s: State, item: Item, n: State, q: nat)
    requires ItemsOk(s.items, s.turns) && TurnsOk(s.turns, s.queries) && QueriesOk(s.turns, s.queries)
    requires OneTurn(s.turns, s.queries) && ReservingOk(s) && CurrentOk(s.queries, s.current)
    requires s.op.PreparingStart? && s.current == Some(q) && q < |s.queries| && s.queries[q].phase.Ready?
    requires item.turn == |s.turns| && !item.steer && item.status.Preparing? && item.stop.Untouched?
    requires item.query == Some(q)
    requires n == s.(items := s.items + [item], turns := s.turns + [Turn(Some(q), false, Running, false, 0)],
                     queries := s.queries[q := s.queries[q].(turn := Some(|s.turns|), reserving := true)],
                     op := SavingStart(|s.items|))
    ensures TurnsOk(n.turns, n.queries) && QueriesOk(n.turns, n.queries) && OneTurn(n.turns, n.queries)
    ensures CurrentOk(n.queries, n.current) && OpOk(n) && ReservingOk(n)
  {
    forall j | 0 <= j < |s.items|
      ensures n.items[j].turn != item.turn
    {
      assert ItemOk(s.items[j], s.turns);
    }
  }

  // ------------------------------------------------------------------ saved starts

  lemma {:induction false} StartSavedKeeps(s: State, ok: bool)
    requires Inv(s)
    ensures Inv(ApplyStartSaved(s, ok))
  {
    if s.op.SavingStart? {
      var i := s.op.item;
      assert ItemOk(s.items[i], s.turns);
      match s.turns[s.items[i].turn].query
      case None =>
        if ok { LaunchKeeps(s, i); } else { LooseErased(s, i); }
      case Some(q) =>
        if ok && s.queries[q].turn == Some(s.items[i].turn) && !s.queries[q].queue.closed {
          StartPushed(s, i, q);
        } else {
          StartRefused(s, i, q, ok);
        }
    }
  }

  lemma {:induction false} LooseErased(s: State, i: nat)
    requires Inv(s) && s.op == SavingStart(i) && i < |s.items| && s.items[i].turn < |s.turns|
    requires s.turns[s.items[i].turn].query.None? && s.items[i].parts >= 1
    ensures Inv(ApplyStartSaved(s, false))
  {
    var n := ApplyStartSaved(s, false);
    assert Refuses(s.items, n.items, i);
    RefusedItems(s, n.items, i);
    assert CurrentOk(s.queries, s.current);
  }

  lemma {:induction false} StartPushed(s: State, i: nat, q: nat)
    requires Inv(s) && s.op == SavingStart(i) && i < |s.items| && s.items[i].turn < |s.turns| && s.items[i].parts >= 1
    requires s.turns[s.items[i].turn].query == Some(q) && q < |s.queries|
    requires s.queries[q].turn == Some(s.items[i].turn) && !s.queries[q].queue.closed
    ensures Inv(ApplyStartSaved(s, true))
  {
    var n := ApplyStartSaved(s, true);
    assert ItemOk(s.items[i], s.turns);
    assert Submits(s, n, q, i);
    SubmitKeeps(s, n, q, i);
  }

  lemma {:induction false} StartRefused(s: State, i: nat, q: nat, ok: bool)
    requires Inv(s) && s.op == SavingStart(i) && i < |s.items| && s.items[i].turn < |s.turns| && s.items[i].parts >= 1
    requires s.turns[s.items[i].turn].query == Some(q) && q < |s.queries|
    requires !ok || s.queries[q].turn != Some(s.items[i].turn) || s.queries[q].queue.closed
    ensures Inv(ApplyStartSaved(s, ok))
  {
    var n := ApplyStartSaved(s, ok);
    assert ItemOk(s.items[i], s.turns);
    assert Refuses(s.items, n.items, i);
    RefusedItems(s, n.items, i);
    OwnTurnHasNoSteer(s, i);
    ReleaseQuery(n.items, s.turns, s.queries, n.queries, q);
    ReleaseTraffic(n.items, s.turns, s.queries, n.queries, q);
    StartReleased(s, i, q, n);
  }

  lemma {:induction false} OwnTurnHasNoSteer(s: State, i: nat)
    requires s.op == SavingStart(i) && OpOk(s)
    ensures forall j :: 0 <= j < |s.items| && s.items[j].steer ==> s.items[j].turn != s.items[i].turn
  {
  }

  lemma {:induction false} StartReleased(s: State, i: nat, q: nat, n: State)
    requires s.op == SavingStart(i) && i < |s.items| && s.items[i].query == Some(q) && ReservingOk(s)
    requires q < |s.queries| && CurrentOk(s.queries, s.current) && n.op.Idle? && n.current == s.current
    requires |n.queries| == |s.queries|
    requires n.queries == s.queries[q := s.queries[q].(reserving := false, turn := n.queries[q].turn)]
    ensures ReservingOk(n) && CurrentOk(n.queries, n.current) && OpOk(n)
  {
  }

  lemma {:induction false} LaunchKeeps(s: State, i: nat)
    requires Inv(s) && s.op == SavingStart(i) && i < |s.items| && s.items[i].turn < |s.turns| && s.items[i].parts >= 1
    requires s.turns[s.items[i].turn].query.None?
    ensures Inv(LaunchQuery(s, i))
  {
    var n := LaunchQuery(s, i);
    assert ItemOk(s.items[i], s.turns);
    LaunchIdentity(s, i);
    LaunchPlaces(s, i);
    LaunchTurns(s, i);
    LaunchTraffic(s, i);
    LaunchQueues(s, i);
    LaunchFins(s, i);
  }

  lemma {:induction false} LaunchIdentity(s: State, i: nat)
    requires ItemsOk(s.items, s.turns) && TurnsOk(s.turns, s.queries) && i + 1 == |s.items| && s.items[i].parts >= 1
    requires s.items[i].turn < |s.turns| && s.items[i].status.Preparing?
    requires Unique(s.items) && Ordered(s.items) && Separate(s.items)
    ensures var n := LaunchQuery(s, i); Unique(n.items) && Ordered(n.items) && Separate(n.items)
  {
    forall j | 0 <= j < |s.items|
      ensures s.items[j].query.Some? ==> s.items[j].query.value < |s.queries|
    {
      OldQueriesFirst(s, j);
    }
  }

  lemma {:induction false} LaunchPlaces(s: State, i: nat)
    requires ItemsOk(s.items, s.turns) && TurnsOk(s.turns, s.queries) && s.op == SavingStart(i) && OpOk(s)
    requires s.items[i].parts >= 1 && s.turns[s.items[i].turn].query.None? && CurrentOk(s.queries, s.current)
    requires ReservingOk(s)
    ensures var n := LaunchQuery(s, i);
            ItemsOk(n.items, n.turns) && TurnsOk(n.turns, n.queries) && CurrentOk(n.queries, n.current)
            && OpOk(n) && ReservingOk(n)
  {
    var n := LaunchQuery(s, i);
    forall j | 0 <= j < |s.items|
      ensures ItemOk(n.items[j], n.turns)
    {
      assert ItemOk(s.items[j], s.turns);
    }
    forall t | 0 <= t < |n.turns|
      ensures TurnOk(n.turns[t], n.queries)
    {
      assert TurnOk(s.turns[t], s.queries);
    }
    assert ItemOk(s.items[i], s.turns);
  }

  lemma {:induction false} LaunchTurns(s: State, i: nat)
    requires TurnsOk(s.turns, s.queries) && QueriesOk(s.turns, s.queries) && OneTurn(s.turns, s.queries)
    requires i < |s.items| && s.items[i].turn < |s.turns| && s.turns[s.items[i].turn].query.None?
             && s.items[i].parts >= 1
    ensures var n := LaunchQuery(s, i); QueriesOk(n.turns, n.queries) && OneTurn(n.turns, n.queries)
  {
    forall t | 0 <= t < |s.turns|
      ensures s.turns[t].query.Some? ==> s.turns[t].query.value < |s.queries|
    {
      assert TurnOk(s.turns[t], s.queries);
    }
  }

  lemma {:induction false} LaunchTraffic(s: State, i: nat)
    requires s.op == SavingStart(i) && OpOk(s) && s.items[i].query.None? && s.items[i].given == 0
    requires s.turns[s.items[i].turn].query.None? && s.items[i].parts >= 1
    requires RetiredOk(s.items, s.turns, s.queries) && ReadersOk(s.items, s.queries) && GivenOk(s.items, s.queries)
    requires SteerTurns(s.items, s.turns, s.queries)
    ensures var n := LaunchQuery(s, i);
            RetiredOk(n.items, n.turns, n.queries) && ReadersOk(n.items, n.queries) && GivenOk(n.items, n.queries)
            && SteerTurns(n.items, n.turns, n.queries)
  {
    LaunchGiven(s, i);
  }

  lemma {:induction false} LaunchGiven(s: State, i: nat)
    requires i < |s.items| && s.items[i].turn < |s.turns| && s.items[i].query.None? && s.items[i].parts >= 1
    requires GivenOk(s.items, s.queries)
    ensures var n := LaunchQuery(s, i); GivenOk(n.items, n.queries)
  {
    var n := LaunchQuery(s, i);
    forall q, u | 0 <= q < |n.queries| && u in n.queries[q].given && u.Whole?
      ensures var a := n.queries[q].given[u];
              a < |n.items| && n.items[a].query == Some(q) && n.items[a].id == u.identity
                  && n.items[a].given == n.items[a].parts
    {
      assert u in s.queries[q].given;
    }
  }

  lemma {:induction false} LaunchQueues(s: State, i: nat)
    requires i < |s.items| && s.items[i].turn < |s.turns| && s.items[i].query.None? && s.items[i].parts >= 1
    requires s.items[i].given == 0 && !s.items[i].steer
    requires QueuesOk(s.items, s.queries)
    ensures var n := LaunchQuery(s, i); QueuesOk(n.items, n.queries)
  {
    var n := LaunchQuery(s, i);
    forall q | 0 <= q < |n.queries|
      ensures ValuesOk(n.items, q, !n.queries[q].queue.closed, n.queries[q].queue.values)
      ensures PendingOk(n.items, q, n.queries[q].queue)
    {
      if q < |s.queries| {
        var queue := s.queries[q].queue;
        forall k | 0 <= k < |queue.values|
          ensures ValueOk(n.items, q, !queue.closed, queue.values[k])
        {
          assert ValueOk(s.items, q, !queue.closed, queue.values[k]);
        }
      } else {
        assert ValueOk(n.items, q, true, Submission(s.items[i], i));
      }
    }
  }

  lemma {:induction false} LaunchFins(s: State, i: nat)
    requires s.op == SavingStart(i) && OpOk(s) && s.turns[s.items[i].turn].query.None? && s.items[i].parts >= 1
    requires TurnsOk(s.turns, s.queries) && FinsOk(s.items, s.turns, s.queries)
    ensures var n := LaunchQuery(s, i); FinsOk(n.items, n.turns, n.queries)
  {
    var n := LaunchQuery(s, i);
    forall t | 0 <= t < |n.turns| && n.turns[t].query.Some? && n.turns[t].query.value < |n.queries|
      ensures var queue := n.queries[n.turns[t].query.value].queue;
              && (n.turns[t].fin.Reading? ==> ReadingOk(n.items, n.turns[t].fin.open, t, queue))
              && (n.turns[t].fin.Reading? || n.turns[t].fin.Saving? || n.turns[t].fin.Ended? ==>
                    queue.closed || (Drained(n.items, queue, t) && Settled(n.items, t)))
    {
      assert TurnOk(s.turns[t], s.queries);
      if t != s.items[i].turn {
        assert n.queries[n.turns[t].query.value] == s.queries[s.turns[t].query.value];
      }
    }
  }

  // ------------------------------------------------------------------ synthetic turns

  lemma {:induction false} SyntheticKeeps(s: State)
    requires Inv(s)
    ensures Inv(ApplySynthetic(s))
  {
    var n := ApplySynthetic(s);
    if n != s {
      var q := s.current.value;
      SyntheticTurns(s, q);
      SyntheticItems(s, q);
      OccupyQuery(s.items, n.turns, s.queries, n.queries, q, |s.turns|);
      SyntheticRequest(s, q);
    }
  }

  lemma {:induction false} SyntheticQueries(s: State, q: nat)
    requires s.current == Some(q) && q < |s.queries| && s.queries[q].phase.Ready? && s.queries[q].turn.None?
    requires QueriesOk(s.turns, s.queries) && CurrentOk(s.queries, s.current)
    ensures var n := ApplySynthetic(s); QueriesOk(n.turns, n.queries) && CurrentOk(n.queries, n.current)
  {
  }

  lemma {:induction false} SyntheticTurns(s: State, q: nat)
    requires s.current == Some(q) && q < |s.queries| && s.queries[q].phase.Ready? && s.queries[q].turn.None?
    requires TurnsOk(s.turns, s.queries) && QueriesOk(s.turns, s.queries) && OneTurn(s.turns, s.queries)
    requires CurrentOk(s.queries, s.current)
    ensures var n := ApplySynthetic(s);
            TurnsOk(n.turns, n.queries) && QueriesOk(n.turns, n.queries) && OneTurn(n.turns, n.queries)
            && CurrentOk(n.queries, n.current)
  {
    SyntheticQueries(s, q);
  }

  lemma {:induction false} SyntheticItems(s: State, q: nat)
    requires s.current == Some(q) && q < |s.queries| && s.queries[q].phase.Ready? && s.queries[q].turn.None?
    requires ItemsOk(s.items, s.turns) && RetiredOk(s.items, s.turns, s.queries)
    requires SteerTurns(s.items, s.turns, s.queries) && FinsOk(s.items, s.turns, s.queries)
    ensures var n := ApplySynthetic(s);
            ItemsOk(n.items, n.turns) && RetiredOk(n.items, n.turns, s.queries)
            && SteerTurns(n.items, n.turns, s.queries) && FinsOk(n.items, n.turns, s.queries)
  {
    var n := ApplySynthetic(s);
    forall i | 0 <= i < |s.items|
      ensures ItemOk(n.items[i], n.turns)
    {
      assert ItemOk(s.items[i], s.turns);
    }
  }

  lemma {:induction false} SyntheticRequest(s: State, q: nat)
    requires s.current == Some(q) && q < |s.queries| && s.queries[q].phase.Ready? && s.queries[q].turn.None?
    requires ItemsOk(s.items, s.turns) && OpOk(s) && ReservingOk(s)
    ensures OpOk(ApplySynthetic(s)) && ReservingOk(ApplySynthetic(s))
  {
    var n := ApplySynthetic(s);
    forall i | 0 <= i < |s.items|
      ensures s.items[i].turn != |s.turns|
    {
      assert ItemOk(s.items[i], s.turns);
    }
  }
}
