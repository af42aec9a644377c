/** A turn moves through its stages to its end, and the invariant of a Claude thread holds. */
module SteerStages {
  import opened Basics
  import opened InputMessages
  import opened SteerSession
  import opened SteerInvariant
  import opened SteerQueries
  import Q = InputQueues

  // ------------------------------------------------------------------ turn stages

  predicate FinOk(items: seq<Item>, t: nat, turn: Turn, queue: Q.Queue) {
    && (turn.fin.Reading? ==> ReadingOk(items, turn.fin.open, t, queue))
    && (turn.fin.Reading? || turn.fin.Saving? || turn.fin.Ended? ==>
          queue.closed || (Drained(items, queue, t) && Settled(items, t)))
  }

  predicate Restages(turns: seq<Turn>, t: nat, turn: Turn) {
    && t < |turns| && turn.query == turns[t].query
    && (turn.fin.Running? ==> turns[t].fin.Running?)
    && (turn.fin.Ended? <==> turns[t].fin.Ended?)
  }

  lemma {:induction false} RestageTurns(items: seq<Item>, turns: seq<Turn>, t: nat, turn: Turn, queries: seq<Query>)
    requires Restages(turns, t, turn) && TurnOk(turn, queries)
    requires ItemsOk(items, turns) && TurnsOk(turns, queries) && QueriesOk(turns, queries) && OneTurn(turns, queries)
    ensures var after := turns[t := turn];
            ItemsOk(items, after) && TurnsOk(after, queries) && QueriesOk(after, queries) && OneTurn(after, queries)
  {
    var after := turns[t := turn];
    forall i | 0 <= i < |items|
      ensures ItemOk(items[i], after)
    {
      assert ItemOk(items[i], turns);
    }
  }

  lemma {:induction false} RestageItems(items: seq<Item>, turns: seq<Turn>, t: nat, turn: Turn, queries: seq<Query>)
    requires Restages(turns, t, turn)
    requires turn.query.Some? && turn.query.value < |queries| ==> FinOk(items, t, turn, queries[turn.query.value].queue)
    requires RetiredOk(items, turns, queries) && SteerTurns(items, turns, queries) && FinsOk(items, turns, queries)
    ensures var after := turns[t := turn];
            RetiredOk(items, after, queries) && SteerTurns(items, after, queries) && FinsOk(items, after, queries)
  {
  }

  lemma {:induction false} RestageKeeps(s: State, t: nat, turn: Turn)
    requires Inv(s) && Restages(s.turns, t, turn) && TurnOk(turn, s.queries)
    requires turn.query.Some? ==> FinOk(s.items, t, turn, s.queries[turn.query.value].queue)
    ensures Inv(s.(turns := s.turns[t := turn]))
  {
    var n := s.(turns := s.turns[t := turn]);
    RestageTurns(s.items, s.turns, t, turn, s.queries);
    RestageItems(s.items, s.turns, t, turn, s.queries);
    assert OpOk(n) by { RestageOp(s, t, turn); }
    assert ReservingOk(n);
  }

  lemma {:induction false} RestageOp(s: State, t: nat, turn: Turn)
    requires OpOk(s) && Restages(s.turns, t, turn)
    ensures OpOk(s.(turns := s.turns[t := turn]))
  {
  }

  lemma {:induction false} FinishTurnKeeps(s: State, q: nat)
    requires Inv(s)
    ensures Inv(ApplyFinishTurn(s, q))
  {
    var n := ApplyFinishTurn(s, q);
    if n != s {
      var t := s.queries[q].turn.value;
      assert TurnOk(s.turns[t], s.queries);
      RestageKeeps(s, t, s.turns[t].(fin := Begun));
    }
  }

  // ------------------------------------------------------------------ the end of a turn

  function EndTurn(s: State, t: nat, q: nat, closed: bool): State
    requires t < |s.turns| && q < |s.queries|
  {
    s.(turns := s.turns[t := s.turns[t].(fin := Ended, closed := closed, completions := s.turns[t].completions + 1)],
       queries := s.queries[q := s.queries[q].(turn := if s.queries[q].turn == Some(t) then None else s.queries[q].turn,
                                               receipts := {})])
  }

  lemma {:induction false} FinEndedKeeps(s: State, t: nat, failed: bool)
    requires Inv(s)
    ensures Inv(ApplyFinEnded(s, t, failed))
  {
    if Finalizing(s, t) && (failed || s.turns[t].fin.Saving?) {
      var q := s.turns[t].query.value;
      var closed := s.turns[t].closed || failed;
      var m := if closed then Discard(s, q) else s;
      if closed {
        QueueStepKeeps(s, q, m);
      }
      assert ApplyFinEnded(s, t, failed) == EndTurn(m, t, q, closed) by { EndAfterDiscard(s, t, q, failed); }
      EndKeeps(m, t, q, closed);
    }
  }

  lemma {:induction false} EndAfterDiscard(s: State, t: nat, q: nat, failed: bool)
    requires Finalizing(s, t) && (failed || s.turns[t].fin.Saving?) && s.turns[t].query == Some(q)
    ensures var closed := s.turns[t].closed || failed;
            ApplyFinEnded(s, t, failed) == EndTurn(if closed then Discard(s, q) else s, t, q, closed)
  {
  }

  lemma {:induction false} EndKeeps(s: State, t: nat, q: nat, closed: bool)
    requires Inv(s) && Finalizing(s, t) && s.turns[t].query == Some(q)
    requires closed ==> s.queries[q].queue.closed
    requires s.turns[t].closed ==> closed
    requires closed || s.turns[t].fin.Saving?
    ensures Inv(EndTurn(s, t, q, closed))
  {
    assert TurnOk(s.turns[t], s.queries);
    EndTurns(s, t, q, closed);
    EndItems(s, t, q, closed);
    EndTraffic(s, t, q, closed);
    EndFins(s, t, q, closed);
    EndRequest(s, t, q, closed);
  }

  lemma {:induction false} EndTurns(s: State, t: nat, q: nat, closed: bool)
    requires t < |s.turns| && q < |s.queries| && s.turns[t].query == Some(q) && !s.turns[t].fin.Ended?
    requires closed ==> s.queries[q].queue.closed
    requires TurnsOk(s.turns, s.queries) && QueriesOk(s.turns, s.queries) && OneTurn(s.turns, s.queries)
    requires CurrentOk(s.queries, s.current)
    ensures var n := EndTurn(s, t, q, closed);
            TurnsOk(n.turns, n.queries) && QueriesOk(n.turns, n.queries) && OneTurn(n.turns, n.queries)
            && CurrentOk(n.queries, n.current)
  {
    var n := EndTurn(s, t, q, closed);
    forall u | 0 <= u < |n.turns|
      ensures TurnOk(n.turns[u], n.queries)
    {
      assert TurnOk(s.turns[u], s.queries);
    }
  }

  lemma {:induction false} EndItems(s: State, t: nat, q: nat, closed: bool)
    requires t < |s.turns| && q < |s.queries| && s.turns[t].query == Some(q)
    requires ItemsOk(s.items, s.turns) && RetiredOk(s.items, s.turns, s.queries)
             && SteerTurns(s.items, s.turns, s.queries)
    ensures var n := EndTurn(s, t, q, closed);
            ItemsOk(n.items, n.turns) && RetiredOk(n.items, n.turns, n.queries)
                && SteerTurns(n.items, n.turns, n.queries)
  {
    var n := EndTurn(s, t, q, closed);
    forall i | 0 <= i < |s.items|
      ensures ItemOk(n.items[i], n.turns)
    {
      assert ItemOk(s.items[i], s.turns);
    }
  }

  lemma {:induction false} EndTraffic(s: State, t: nat, q: nat, closed: bool)
    requires t < |s.turns| && q < |s.queries|
    requires ReadersOk(s.items, s.queries) && GivenOk(s.items, s.queries) && QueuesOk(s.items, s.queries)
    ensures var n := EndTurn(s, t, q, closed);
            ReadersOk(n.items, n.queries) && GivenOk(n.items, n.queries) && QueuesOk(n.items, n.queries)
  {
  }

  lemma {:induction false} EndFins(s: State, t: nat, q: nat, closed: bool)
    requires t < |s.turns| && q < |s.queries| && s.turns[t].query == Some(q)
    requires (closed && s.queries[q].queue.closed) || s.turns[t].fin.Saving?
    requires FinsOk(s.items, s.turns, s.queries)
    ensures var n := EndTurn(s, t, q, closed); FinsOk(n.items, n.turns, n.queries)
  {
    var n := EndTurn(s, t, q, closed);
    forall u | 0 <= u < |n.turns| && n.turns[u].query.Some? && n.turns[u].query.value < |n.queries|
      ensures FinOk(n.items, u, n.turns[u], n.queries[n.turns[u].query.value].queue)
    {
      assert FinOk(s.items, u, s.turns[u], s.queries[s.turns[u].query.value].queue);
    }
  }

  lemma {:induction false} EndRequest(s: State, t: nat, q: nat, closed: bool)
    requires t < |s.turns| && q < |s.queries| && OpOk(s) && ReservingOk(s)
    ensures OpOk(EndTurn(s, t, q, closed)) && ReservingOk(EndTurn(s, t, q, closed))
  {
  }
}
