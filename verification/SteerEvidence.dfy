/** Delivery evidence settles a steer and keeps the invariant of a Claude thread. */
module SteerEvidence {
  import opened Basics
  import opened InputMessages
  import opened SteerSession
  import opened SteerInvariant

  // ------------------------------------------------------------------ steps that settle items

  predicate Settles(a: Item, b: Item) {
    || b == a
    || (b == a.(status := b.status, stop := b.stop) && Live(a) && !b.status.Preparing?
        && (b.stop == a.stop || b.stop.Untouched?))
  }

  predicate SettlesAll(a: seq<Item>, b: seq<Item>) {
    |a| == |b| && forall i :: 0 <= i < |a| ==> Settles(a[i], b[i])
  }

  lemma {:induction false} SettleIdentity(a: seq<Item>, b: seq<Item>)
    requires SettlesAll(a, b) && Unique(a) && Ordered(a) && Separate(a)
    ensures Unique(b) && Ordered(b) && Separate(b)
  {
  }

  lemma {:induction false} SettleReaders(a: seq<Item>, b: seq<Item>, turns: seq<Turn>, queries: seq<Query>)
    requires SettlesAll(a, b) && ReadersOk(a, queries) && SteerTurns(a, turns, queries)
    ensures ReadersOk(b, queries) && SteerTurns(b, turns, queries)
  {
  }

  lemma {:induction false} SettleGiven(a: seq<Item>, b: seq<Item>, queries: seq<Query>)
    requires SettlesAll(a, b) && GivenOk(a, queries)
    ensures GivenOk(b, queries)
  {
  }

  lemma {:induction false} SettleUnowned(a: seq<Item>, b: seq<Item>, id: string)
    requires SettlesAll(a, b) && NoLiveOwner(a, id)
    ensures NoLiveOwner(b, id)
  {
  }

  /** Items that leave the queue untouched keep it valid. */
  lemma {:induction false} SettleQueues(a: seq<Item>, b: seq<Item>, queries: seq<Query>, q: nat)
    requires SettlesAll(a, b) && q < |queries|
    requires ValuesOk(a, q, !queries[q].queue.closed, queries[q].queue.values) && PendingOk(a, q, queries[q].queue)
    requires forall i :: 0 <= i < |a| && a[i] != b[i] ==> !Queued(queries[q].queue, i)
    ensures ValuesOk(b, q, !queries[q].queue.closed, queries[q].queue.values) && PendingOk(b, q, queries[q].queue)
  {
    var queue := queries[q].queue;
    forall k | 0 <= k < |queue.values|
      ensures ValueOk(b, q, !queue.closed, queue.values[k])
    {
      var x := queue.values[k].message.attempt;
      assert ValueOk(a, q, !queue.closed, queue.values[k]) && Queued(queue, x) && a[x] == b[x];
    }
    if queue.pending != [] {
      var x := queue.pending[0].attempt;
      assert Queued(queue, x) && a[x] == b[x];
    }
  }

  // ------------------------------------------------------------------ delivery evidence

  lemma {:induction false} HandedThenGone(item: Item, turns: seq<Turn>)
    requires ItemOk(item, turns) && item.given > 0
    ensures Live(item) || Retired(item)
  {
    assert Live(item) || (item.status.NotApplied? && item.status.cause.Absent?);
  }

  /** A final UUID the live query was given names this very attempt. */
  lemma {:induction false} EvidenceNamesAttempt(s: State, q: nat, i: nat)
    requires ItemsOk(s.items, s.turns) && CurrentOk(s.queries, s.current) && Unique(s.items) && Ordered(s.items)
    requires Separate(s.items) && GivenOk(s.items, s.queries) && SteerTurns(s.items, s.turns, s.queries)
    requires s.current == Some(q) && i < |s.items| && Outstanding(s.items[i])
             && Whole(s.items[i].id) in s.queries[q].given
    ensures s.queries[q].given[Whole(s.items[i].id)] == i
    ensures s.items[i].given == s.items[i].parts && s.items[i].query == Some(q)
  {
    var a := s.queries[q].given[Whole(s.items[i].id)];
    assert s.items[a].query == Some(q) && s.items[a].id == s.items[i].id && s.items[a].given == s.items[a].parts;
    assert ItemOk(s.items[a], s.turns) && ItemOk(s.items[i], s.turns);
    assert s.turns[s.items[i].turn].query == s.items[i].query;
    HandedThenGone(s.items[a], s.turns);
  }

  lemma {:induction false} DeliverFins(s: State, q: nat, i: nat, via: Evidence)
    requires Listening(s, q) && i < |s.items| && Outstanding(s.items[i]) && s.items[i].query == Some(q)
    requires ItemsOk(s.items, s.turns) && QueriesOk(s.turns, s.queries) && SteerTurns(s.items, s.turns, s.queries)
    requires FinsOk(s.items, s.turns, s.queries)
    ensures FinsOk(Deliver(s, i, via).items, s.turns, s.queries)
  {
    var t := s.items[i].turn;
    assert ItemOk(s.items[i], s.turns);
    assert !s.turns[t].fin.Reading?;
  }

  lemma {:induction false} DeliverQueues(s: State, i: nat, via: Evidence)
    requires i < |s.items| && Outstanding(s.items[i]) && s.items[i].given == s.items[i].parts >= 1
    requires QueuesOk(s.items, s.queries)
    ensures QueuesOk(Deliver(s, i, via).items, s.queries)
  {
    var b := Deliver(s, i, via).items;
    forall q | 0 <= q < |s.queries|
      ensures ValuesOk(b, q, !s.queries[q].queue.closed, s.queries[q].queue.values)
              && PendingOk(b, q, s.queries[q].queue)
    {
      var queue := s.queries[q].queue;
      if queue.pending != [] {
        var a := queue.pending[0].attempt;
        assert forall k :: 0 <= k < |queue.pending| ==> queue.pending[k].attempt == a;
      }
      assert !Queued(queue, i);
      SettleQueues(s.items, b, s.queries, q);
    }
  }

  lemma {:induction false} DeliverKeeps(s: State, q: nat, i: nat, via: Evidence)
    requires Inv(s) && Listening(s, q) && i < |s.items| && Outstanding(s.items[i])
    requires Whole(s.items[i].id) in s.queries[q].given && !via.History?
    ensures Inv(Deliver(s, i, via))
  {
    var n := Deliver(s, i, via);
    EvidenceNamesAttempt(s, q, i);
    assert ItemOk(s.items[i], s.turns);
    DeliverItems(s, i, via);
    DeliverQueues(s, i, via);
    DeliverFins(s, q, i, via);
    SettleRequest(s, n);
  }

  lemma {:induction false} DeliverItems(s: State, i: nat, via: Evidence)
    requires i < |s.items| && Outstanding(s.items[i]) && s.items[i].given == s.items[i].parts
    requires ItemsOk(s.items, s.turns) && Unique(s.items) && Ordered(s.items) && Separate(s.items)
    requires RetiredOk(s.items, s.turns, s.queries) && ReadersOk(s.items, s.queries)
    requires SteerTurns(s.items, s.turns, s.queries) && GivenOk(s.items, s.queries)
    ensures var b := Deliver(s, i, via).items;
            && SettlesAll(s.items, b) && ItemsOk(b, s.turns) && Unique(b) && Ordered(b) && Separate(b)
            && RetiredOk(b, s.turns, s.queries) && ReadersOk(b, s.queries)
            && SteerTurns(b, s.turns, s.queries) && GivenOk(b, s.queries)
  {
    var b := Deliver(s, i, via).items;
    assert SettlesAll(s.items, b);
    SettleIdentity(s.items, b);
    SettleReaders(s.items, b, s.turns, s.queries);
    SettleGiven(s.items, b, s.queries);
  }

  /** Settling an item that no request holds keeps the request valid. */
  lemma {:induction false} SettleRequest(s: State, n: State)
    requires SettlesAll(s.items, n.items) && n == s.(items := n.items) && OpOk(s) && ReservingOk(s)
    requires forall i :: 0 <= i < |s.items| && s.items[i].status.Preparing? ==> n.items[i] == s.items[i]
    ensures OpOk(n) && ReservingOk(n)
  {
    match s.op
    case Converting(id, content, t, start) => if start { SettleUnowned(s.items, n.items, id); }
    case AwaitingEnd(id, content, t) => SettleUnowned(s.items, n.items, id);
    case PreparingStart(id, content) => SettleUnowned(s.items, n.items, id);
    case _ =>
  }

  lemma {:induction false} ConsumedNamesAll(ids: seq<Uuid>, consumed: seq<Uuid>)
    requires Consumed(ids, consumed)
    ensures forall u <- ids :: u in consumed
    decreases |consumed|
  {
    if ids != [] {
      if ids[0] == consumed[0] {
        ConsumedNamesAll(ids[1..], consumed[1..]);
        assert ids == [ids[0]] + ids[1..];
      } else {
        ConsumedNamesAll(ids, consumed[1..]);
      }
    }
  }

  lemma {:induction false} FinalUuid(item: Item, i: nat)
    requires item.parts >= 1
    ensures Whole(item.id) in Uuids(Messages(item, i))
  {
    assert Uuids(Messages(item, i))[item.parts - 1] == Whole(item.id);
  }

  lemma {:induction false} EchoKeeps(s: State, q: nat, id: string, since: nat)
    requires Inv(s)
    ensures Inv(ApplyEcho(s, q, id, since))
  {
    if Listening(s, q) && Whole(id) in s.queries[q].given && EchoedItem(s, q, id, since) < |s.items| {
      DeliverKeeps(s, q, EchoedItem(s, q, id, since), Echo);
    }
  }

  lemma {:induction false} ReplyKeeps(s: State, q: nat, i: nat, consumed: seq<Uuid>)
    requires Inv(s)
    ensures Inv(ApplyReply(s, q, i, consumed))
  {
    if ApplyReply(s, q, i, consumed) != s {
      ConsumedNamesAll(Uuids(Messages(s.items[i], i)), consumed);
      assert ItemOk(s.items[i], s.turns);
      FinalUuid(s.items[i], i);
      DeliverKeeps(s, q, i, Reply);
    }
  }

  lemma {:induction false} ReceiptsKeep(s: State, q: nat, i: nat)
    requires Inv(s)
    ensures Inv(ApplyReceipts(s, q, i))
  {
    if ApplyReceipts(s, q, i) != s {
      assert ItemOk(s.items[i], s.turns);
      FinalUuid(s.items[i], i);
      DeliverKeeps(s, q, i, Receipt);
    }
  }
}
