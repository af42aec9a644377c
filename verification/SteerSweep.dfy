/** Exactly when finalization takes every queued steer of its turn back. */
module SteerSweep {
  import opened Basics
  import opened SteerSession
  import opened SteerInvariant
  import opened SteerChange
  import opened SteerExact
  import SteerAlways
  import SteerReads
  import Q = InputQueues

  lemma {:induction false} FindIsFirst(values: seq<Q.Value>, identity: string, k: nat)
    requires k <= |values| && (k < |values| ==> values[k].message.identity == identity)
    requires forall i :: 0 <= i < k ==> values[i].message.identity != identity
    ensures Q.FindIdentity(values, identity) == k
  {
    var r := Q.FindIdentity(values, identity);
    assert r <= k && k <= r;
  }

  /** Taking another identity's value out keeps the first value of this one. */
  lemma {:induction false} FirstKept(values: seq<Q.Value>, at: nat, identity: string)
    requires at < |values| && values[at].message.identity != identity
    ensures FirstValue(values[..at] + values[at + 1..], identity) == FirstValue(values, identity)
  {
    var rest := values[..at] + values[at + 1..];
    var k := Q.FindIdentity(values, identity);
    assert forall i :: 0 <= i < |rest| ==> rest[i] == values[if i < at then i else i + 1];
    FindIsFirst(rest, identity, if k < at then k else k - 1);
  }

  lemma {:induction false} GoneFrom(values: seq<Q.Value>, at: nat, v: Q.Value)
    requires Apart(values) && at < |values|
    ensures v in values[..at] + values[at + 1..] <==> v in values && v != values[at]
  {
    var rest := values[..at] + values[at + 1..];
    assert forall i :: 0 <= i < |rest| ==> rest[i] == values[if i < at then i else i + 1];
    if v in values && v != values[at] {
      var i :| 0 <= i < |values| && values[i] == v;
      assert v == rest[if i < at then i else i - 1];
    }
  }

  lemma {:induction false} RemovedApart(values: seq<Q.Value>, at: nat)
    requires Apart(values) && at < |values|
    ensures Apart(values[..at] + values[at + 1..])
  {
    var rest := values[..at] + values[at + 1..];
    assert forall k :: 0 <= k < |rest| ==> rest[k] == values[if k < at then k else k + 1];
  }

  lemma {:induction false} TakesKept(items: seq<Item>, values: seq<Q.Value>, t: nat, i: nat, v: Q.Value)
    requires OncePerTurn(items) && i < |items| && items[i].turn == t && Outstanding(items[i])
    requires var at := Q.FindIdentity(values, items[i].id); at < |values| && v != values[at]
    ensures var at := Q.FindIdentity(values, items[i].id);
            Takes(items[i := items[i].(status := NotApplied(Unread))], values[..at] + values[at + 1..], t, i + 1, v)
            <==> Takes(items, values, t, i, v)
  {
    var at := Q.FindIdentity(values, items[i].id);
    var next := items[i := items[i].(status := NotApplied(Unread))];
    forall j | i < j < |items| && items[j].turn == t && Outstanding(items[j])
      ensures FirstValue(values[..at] + values[at + 1..], items[j].id) == FirstValue(values, items[j].id)
    {
      FirstKept(values, at, items[j].id);
    }
    assert forall j :: i < j < |items| ==> next[j] == items[j];
  }

  lemma {:induction false} MarkedOnce(items: seq<Item>, i: nat)
    requires OncePerTurn(items) && i < |items| && Outstanding(items[i])
    ensures OncePerTurn(items[i := items[i].(status := NotApplied(Unread))])
  {
  }

  /** The sweep leaves exactly the values that it does not take. */
  lemma {:induction false} SweepLeaves(items: seq<Item>, values: seq<Q.Value>, t: nat, i: nat, v: Q.Value)
    requires OncePerTurn(items) && Apart(values) && i <= |items|
    ensures v in WithdrawFrom(items, values, t, i).1 <==> v in values && !Takes(items, values, t, i, v)
    decreases |items| - i
  {
    if i < |items| {
      var at := Q.FindIdentity(values, items[i].id);
      if items[i].turn == t && Outstanding(items[i]) && at < |values| {
        var next := items[i := items[i].(status := NotApplied(Unread))];
        MarkedOnce(items, i);
        RemovedApart(values, at);
        SweepLeaves(next, values[..at] + values[at + 1..], t, i + 1, v);
        GoneFrom(values, at, v);
        if v != values[at] {
          TakesKept(items, values, t, i, v);
        } else {
          assert Takes(items, values, t, i, v);
        }
      } else {
        SweepLeaves(items, values, t, i + 1, v);
      }
    }
  }

  /** A steer of the turn is taken exactly when it is outstanding and the first of its identity. */
  lemma {:induction false} TakenExactly(items: seq<Item>, values: seq<Q.Value>, t: nat, v: Q.Value)
    requires OncePerTurn(items) && Tagged(items, v.message) && SteerOf(items, v.message.attempt, t)
    ensures Takes(items, values, t, 0, v) <==>
              Outstanding(items[v.message.attempt]) && FirstValue(values, v.message.identity) == Some(v)
  {
    var a := v.message.attempt;
    if Takes(items, values, t, 0, v) {
      var j :| 0 <= j < |items| && items[j].turn == t && Outstanding(items[j])
               && FirstValue(values, items[j].id) == Some(v);
      assert items[j].id == items[a].id;
      assert j == a;
    }
  }

  /** A queued steer of the turn stays queued exactly when it is not outstanding or another value of its
      identity waits before it. */
  lemma {:induction false} SteerStaysExactly(items: seq<Item>, values: seq<Q.Value>, t: nat, v: Q.Value)
    requires OncePerTurn(items) && Apart(values) && v in values && Tagged(items, v.message)
    requires SteerOf(items, v.message.attempt, t)
    ensures v in WithdrawFrom(items, values, t, 0).1 <==>
            !Outstanding(items[v.message.attempt]) || FirstValue(values, v.message.identity) != Some(v)
  {
    SweepLeaves(items, values, t, 0, v);
    TakenExactly(items, values, t, v);
  }

  /** The sweep clears the queue of the turn's steers exactly when it can find each of them. */
  lemma {:induction false} SweepClearsExactly(items: seq<Item>, values: seq<Q.Value>, t: nat)
    requires OncePerTurn(items) && Apart(values) && forall v <- values :: Tagged(items, v.message)
    ensures var (after, rest) := WithdrawFrom(items, values, t, 0);
            Clear(after, rest, t) <==> Findable(items, values, t)
  {
    var (after, rest) := WithdrawFrom(items, values, t, 0);
    SteerAlways.WithdrawTakesBack(items, values, t, 0);
    SteerAlways.WithdrawNarrows(items, values, t, 0);
    assert forall a :: SteerOf(after, a, t) <==> SteerOf(items, a, t);
    forall v | v in values && SteerOf(items, v.message.attempt, t)
      ensures v in rest <==>
              !Outstanding(items[v.message.attempt]) || FirstValue(values, v.message.identity) != Some(v)
    {
      SteerStaysExactly(items, values, t, v);
    }
  }

  /** Marking an unread start changes no steer. */
  lemma {:induction false} MarkSparesSteers(s: State, t: nat, prep: bool)
    requires Base(s) && Finalizing(s, t)
    ensures var m := MarkUnreadStart(s, t, prep);
            && OncePerTurn(m.items)
            && (forall a :: 0 <= a < |s.items| && s.items[a].steer ==> m.items[a] == s.items[a])
            && (forall a :: 0 <= a < |s.items| ==>
                  && m.items[a].id == s.items[a].id && m.items[a].turn == s.items[a].turn
                  && m.items[a].steer == s.items[a].steer
                  && (m.items[a].status.Erased? ==> s.items[a].status.Erased?))
  {
  }

  lemma {:induction false} MarkedFindable(a: seq<Item>, b: seq<Item>, values: seq<Q.Value>, t: nat)
    requires |a| == |b| && forall i :: 0 <= i < |a| ==> a[i].steer == b[i].steer && a[i].turn == b[i].turn
    requires forall i :: 0 <= i < |a| && a[i].steer ==> b[i] == a[i]
    ensures Findable(a, values, t) <==> Findable(b, values, t)
  {
    assert forall i :: SteerOf(a, i, t) <==> SteerOf(b, i, t);
  }

  /** The sweep runs on the marked items and the queue's values. */
  lemma {:induction false} CheckedSweeps(s: State, t: nat, q: nat, prep: bool)
    requires Finalizing(s, t) && s.turns[t].fin.Begun? && s.turns[t].query == Some(q)
    requires !UnknownSteer(s.items, s.queries[q].queue.values, t)
    ensures var n := ApplyFinChecked(s, t, false, prep);
            var r := WithdrawFrom(MarkUnreadStart(s, t, prep).items, s.queries[q].queue.values, t, 0);
            && n.turns[t].fin.Saving? && n.items == r.0
            && n.queries == s.queries[q := s.queries[q].(queue := s.queries[q].queue.(values := r.1))]
  {
  }

  lemma {:induction false} MarkedOwned(s: State, t: nat, q: nat, prep: bool)
    requires Base(s) && Finalizing(s, t) && q < |s.queries|
    ensures forall v <- s.queries[q].queue.values :: Tagged(MarkUnreadStart(s, t, prep).items, v.message)
  {
    MarkSparesSteers(s, t, prep);
    forall v | v in s.queries[q].queue.values
      ensures Tagged(MarkUnreadStart(s, t, prep).items, v.message)
    {
      assert QueueBase(s.items, s.turns, q, s.queries[q].queue) && ValueBase(s.items, s.turns, q, v);
    }
  }

  lemma {:induction false} SweptExactly(s: State, t: nat, q: nat, prep: bool)
    requires Base(s) && Finalizing(s, t) && s.turns[t].query == Some(q)
    ensures var values := s.queries[q].queue.values;
            var (after, rest) := WithdrawFrom(MarkUnreadStart(s, t, prep).items, values, t, 0);
            Clear(after, rest, t) <==> Findable(s.items, values, t)
  {
    var values := s.queries[q].queue.values;
    var m := MarkUnreadStart(s, t, prep);
    MarkSparesSteers(s, t, prep);
    MarkedFindable(s.items, m.items, values, t);
    MarkedOwned(s, t, q, prep);
    assert QueueBase(s.items, s.turns, q, s.queries[q].queue);
    SweepClearsExactly(m.items, values, t);
  }

  /** In every run: ending a turn that has no handed-off steer empties the queue of its steers exactly when
      each of them is outstanding and no value of its identity waits before it. */
  lemma {:induction false} FinalSweepExactly(steps: seq<Step>, t: nat, q: nat, prep: bool)
    requires Finalizing(Run(steps), t) && Run(steps).turns[t].fin.Begun? && Run(steps).turns[t].query == Some(q)
    requires !UnknownSteer(Run(steps).items, Run(steps).queries[q].queue.values, t)
    ensures var s, n := Run(steps), ApplyFinChecked(Run(steps), t, false, prep);
            && |n.queries| == |s.queries| && n.turns[t].fin.Saving?
            && (Clear(n.items, n.queries[q].queue.values, t) <==> Findable(s.items, s.queries[q].queue.values, t))
  {
    var s := SteerAlways.RunBase(steps);
    CheckedSweeps(s, t, q, prep);
    SweptExactly(s, t, q, prep);
  }

  // ------------------------------------------------------------------ reading after the sweep

  /** The sweep marks every outstanding steer whose identity is queued. */
  lemma {:induction false} WithdrawMarks(items: seq<Item>, values: seq<Q.Value>, t: nat, i: nat, j: nat)
    requires OncePerTurn(items) && i <= j < |items| && items[j].turn == t && Outstanding(items[j])
    requires FirstValue(values, items[j].id).Some?
    ensures WithdrawFrom(items, values, t, i).0[j].status == NotApplied(Unread)
    decreases |items| - i
  {
    var at := Q.FindIdentity(values, items[i].id);
    if items[i].turn == t && Outstanding(items[i]) && at < |values| {
      var next := items[i := items[i].(status := NotApplied(Unread))];
      var rest := values[..at] + values[at + 1..];
      MarkedOnce(items, i);
      if i == j {
        SteerAlways.WithdrawTakesBack(next, rest, t, i + 1);
      } else {
        FirstKept(values, at, items[j].id);
        WithdrawMarks(next, rest, t, i + 1, j);
      }
    } else {
      WithdrawMarks(items, values, t, i + 1, j);
    }
  }

  /** Of a steer's messages the sweep leaves exactly the missed ones. */
  lemma {:induction false} SweepMisses(items: seq<Item>, queue: Q.Queue, t: nat, i: nat)
    requires OncePerTurn(items) && Apart(queue.values) && SteerOf(items, i, t)
    requires forall v <- queue.values :: Tagged(items, v.message)
    ensures Queued(queue.(values := WithdrawFrom(items, queue.values, t, 0).1), i) <==> Missed(items, queue, i)
  {
    var rest := WithdrawFrom(items, queue.values, t, 0).1;
    SteerAlways.WithdrawNarrows(items, queue.values, t, 0);
    forall v | v in queue.values && v.message.attempt == i
      ensures v in rest <==> !Outstanding(items[i]) || FirstValue(queue.values, v.message.identity) != Some(v)
    {
      SteerStaysExactly(items, queue.values, t, v);
    }
    QueuedIs(queue.(values := rest), i);
  }

  lemma {:induction false} QueuedIs(queue: Q.Queue, i: nat)
    ensures Queued(queue, i) <==>
              (exists m <- queue.pending :: m.attempt == i) || (exists v <- queue.values :: v.message.attempt == i)
  {
    assert forall k :: 0 <= k < |queue.values| ==> queue.values[k] in queue.values;
    assert forall k :: 0 <= k < |queue.pending| ==> queue.pending[k] in queue.pending;
  }

  lemma {:induction false} SweptQueue(s: State, t: nat, q: nat, prep: bool, i: nat)
    requires Base(s) && Finalizing(s, t) && s.turns[t].query == Some(q) && SteerOf(s.items, i, t)
    ensures var queue, m := s.queries[q].queue, MarkUnreadStart(s, t, prep);
            Queued(queue.(values := WithdrawFrom(m.items, queue.values, t, 0).1), i) <==> Missed(s.items, queue, i)
  {
    var m := MarkUnreadStart(s, t, prep);
    MarkSparesSteers(s, t, prep);
    MarkedOwned(s, t, q, prep);
    assert QueueBase(s.items, s.turns, q, s.queries[q].queue);
    SweepMisses(m.items, s.queries[q].queue, t, i);
  }

  lemma {:induction false} SweptMark(s: State, t: nat, q: nat, prep: bool, i: nat)
    requires Base(s) && Finalizing(s, t) && s.turns[t].query == Some(q) && SteerOf(s.items, i, t)
    requires Outstanding(s.items[i]) && !UnknownSteer(s.items, s.queries[q].queue.values, t)
    ensures var m := MarkUnreadStart(s, t, prep);
            WithdrawFrom(m.items, s.queries[q].queue.values, t, 0).0[i].status == NotApplied(Unread)
  {
    MarkSparesSteers(s, t, prep);
    WithdrawMarks(MarkUnreadStart(s, t, prep).items, s.queries[q].queue.values, t, 0, i);
  }

  /** An input waits only in the queue of the query that serves its turn. */
  lemma {:induction false} WaitsAtHome(s: State, q: nat, i: nat)
    requires Base(s) && i < |s.items| && s.items[i].turn < |s.turns| && s.turns[s.items[i].turn].query == Some(q)
    ensures Waiting(s, i) <==> Readable(s, q) && Queued(s.queries[q].queue, i)
  {
    forall p | 0 <= p < |s.queries| && Queued(s.queries[p].queue, i)
      ensures p == q
    {
      QueuedIs(s.queries[p].queue, i);
      assert QueueBase(s.items, s.turns, p, s.queries[p].queue);
      assert forall v <- s.queries[p].queue.values :: ValueBase(s.items, s.turns, p, v);
    }
  }

  /** The state after the sweep: which of the turn's steers wait. */
  lemma {:induction false} SweptHome(s: State, n: State, t: nat, q: nat, i: nat, values: seq<Q.Value>)
    requires Base(n) && Progress(s, n)
    requires SteerOf(s.items, i, t) && q < |s.queries| && t < |s.turns| && s.turns[t].query == Some(q)
    requires n.queries == s.queries[q := s.queries[q].(queue := s.queries[q].queue.(values := values))]
    requires Queued(s.queries[q].queue.(values := values), i) <==> Missed(s.items, s.queries[q].queue, i)
    requires n.turns[t].fin.Saving?
    ensures i < |n.items| && !MayEnter(n, i)
    ensures Waiting(n, i) <==> Readable(s, q) && Missed(s.items, s.queries[q].queue, i)
  {
    assert ItemProgress(s.items[i], n.items[i]) && TurnProgress(s.turns[t], n.turns[t]);
    WaitsAtHome(n, q, i);
  }

  lemma {:induction false} CheckedKeeps(s: State, t: nat, prep: bool) returns (n: State)
    requires Base(s)
    ensures n == Apply(s, FinChecked(t, false, prep)) && n == ApplyFinChecked(s, t, false, prep)
    ensures Base(n) && Progress(s, n)
  {
    n := SteerAlways.StepBase(s, FinChecked(t, false, prep));
  }

  lemma {:induction false} SweptWaits(s: State, t: nat, q: nat, prep: bool, i: nat) returns (n: State)
    requires Base(s) && Finalizing(s, t) && s.turns[t].fin.Begun? && s.turns[t].query == Some(q)
    requires !UnknownSteer(s.items, s.queries[q].queue.values, t) && SteerOf(s.items, i, t)
    ensures n == Apply(s, FinChecked(t, false, prep))
    ensures i < |n.items| && !MayEnter(n, i)
    ensures Outstanding(s.items[i]) ==> n.items[i].status == NotApplied(Unread)
    ensures Waiting(n, i) <==> Readable(s, q) && Missed(s.items, s.queries[q].queue, i)
  {
    n := CheckedKeeps(s, t, prep);
    CheckedSweeps(s, t, q, prep);
    SweptQueue(s, t, q, prep, i);
    if Outstanding(s.items[i]) {
      SweptMark(s, t, q, prep, i);
    }
    SweptHome(s, n, t, q, i, WithdrawFrom(MarkUnreadStart(s, t, prep).items, s.queries[q].queue.values, t, 0).1);
  }

  /** In every run: ending a turn that has no handed-off steer marks its outstanding steers as not applied, and
      one of its steers is read afterwards exactly when its queue can be read and the sweep misses it. */
  lemma {:induction false} SweptSteerIsReadExactly(steps: seq<Step>, t: nat, q: nat, prep: bool, i: nat)
    requires Finalizing(Run(steps), t) && Run(steps).turns[t].fin.Begun? && Run(steps).turns[t].query == Some(q)
    requires !UnknownSteer(Run(steps).items, Run(steps).queries[q].queue.values, t) && SteerOf(Run(steps).items, i, t)
    ensures var s, swept := Run(steps), steps + [FinChecked(t, false, prep)];
            && i < |Run(swept).items|
            && (Outstanding(s.items[i]) ==> Run(swept).items[i].status == NotApplied(Unread))
            && ((exists after :: ReadsMore(swept, after, i)) <==>
                Readable(s, q) && Missed(s.items, s.queries[q].queue, i))
  {
    var s := SteerAlways.RunBase(steps);
    var n := SweptWaits(s, t, q, prep, i);
    RunOne(steps, FinChecked(t, false, prep));
    SteerReads.ReadLaterExactly(steps + [FinChecked(t, false, prep)], i);
  }

  lemma {:induction false} ExitedWaits(s: State, t: nat, prep: bool, closeFailed: bool, i: nat) returns (n: State)
    requires Base(s) && Finalizing(s, t) && s.turns[t].fin.Exiting? && SteerOf(s.items, i, t)
    ensures n == Apply(s, FinExited(t, prep, closeFailed))
    ensures i < |n.items| && !MayEnter(n, i) && !Waiting(n, i)
  {
    n := SteerAlways.StepBase(s, FinExited(t, prep, closeFailed));
    var q := s.turns[t].query.value;
    assert ItemProgress(s.items[i], n.items[i]) && TurnProgress(s.turns[t], n.turns[t]);
    assert n.queries[q].queue.values == [] && n.queries[q].queue.pending == [];
    WaitsAtHome(n, q, i);
  }

  /** In every run: once the CLI of a turn has exited, no steer of the turn is read any more. */
  lemma {:induction false} ExitedSteerIsNeverRead(steps: seq<Step>, t: nat, prep: bool, closeFailed: bool, i: nat,
                                                  after: seq<Step>)
    requires Finalizing(Run(steps), t) && Run(steps).turns[t].fin.Exiting? && SteerOf(Run(steps).items, i, t)
    ensures !ReadsMore(steps + [FinExited(t, prep, closeFailed)], after, i)
  {
    var s := SteerAlways.RunBase(steps);
    var n := ExitedWaits(s, t, prep, closeFailed, i);
    RunOne(steps, FinExited(t, prep, closeFailed));
    SteerReads.OutIsNotRead(steps + [FinExited(t, prep, closeFailed)], after, i);
  }
}
