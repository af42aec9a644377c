/**
 Concrete runs in which a direct turn/steer reuses a live identity, so that a promise
 of the bridge fails. Every input has one part and no blocks.
 */
module SteerFailures {
  import opened Basics
  import opened InputMessages
  import opened SteerSession
  import opened SteerInvariant
  import opened SteerExact
  import opened SteerChange
  import SteerOwners
  import SteerReads
  import SteerRuns
  import SteerTheorems
  import Q = InputQueues

  // ------------------------------------------------------------------ running several steps

  /** Without interrupt receipts, only callers can break the discipline of a run. */
  predicate Receiptless(steps: seq<Step>) {
    forall step <- steps :: !step.StopReceipt?
  }

  lemma {:induction false} ReceiptlessIsDisciplined(steps: seq<Step>)
    requires Receiptless(steps) && NeverReuses(steps)
    ensures Disciplined(steps)
  {
    assert forall k :: 0 <= k < |steps| ==> steps[k] in steps;
  }

  lemma {:induction false} RunNext(steps: seq<Step>, s: State, a: Step, more: seq<Step>)
    requires s == Run(steps) && more == steps + [a]
    ensures Run(more) == Apply(s, a)
  {
    RunOne(steps, a);
  }

  lemma {:induction false} RunTwo(steps: seq<Step>, a: Step, b: Step)
    ensures Run(steps + [a, b]) == Apply(Apply(Run(steps), a), b)
  {
    RunNext(steps, Run(steps), a, steps + [a]);
    RunNext(steps + [a], Apply(Run(steps), a), b, steps + [a, b]);
  }

  lemma {:induction false} RunThree(steps: seq<Step>, a: Step, b: Step, c: Step)
    ensures Run(steps + [a, b, c]) == Apply(Apply(Apply(Run(steps), a), b), c)
  {
    RunTwo(steps, a, b);
    RunNext(steps + [a, b], Apply(Apply(Run(steps), a), b), c, steps + [a, b, c]);
  }

  // ------------------------------------------------------------------ requests

  /** The queued value of an attempt. */
  function Queued1(id: string, i: nat): Q.Value {
    Q.Value(Message(Whole(id), id, true, i), None)
  }

  function Queue1(queue: Q.Queue, id: string, i: nat): Q.Queue {
    queue.(values := queue.values + [Queued1(id, i)])
  }

  function NewItem(turn: nat, query: Option<nat>, id: string, steer: bool): Item {
    Item(turn, query, id, [], steer, 1, Submitted, Untouched, 0)
  }

  lemma {:induction false} SubmissionIs(item: Item, i: nat)
    requires item.parts == 1
    ensures Submission(item, i) == Queued1(item.id, i)
  {
  }

  /** turn/start without a live query, up to the query's readiness. */
  function Started(s: State, id: string): State {
    var q := |s.queries|;
    s.(items := s.items + [NewItem(|s.turns|, Some(q), id, false)],
       turns := s.turns + [Turn(Some(q), false, Running, false, 0)],
       queries := s.queries + [Query(Q.Queue([Queued1(id, |s.items|)], [], {}, false), Some(|s.turns|), Ready, false,
                                     map[], {})],
       current := Some(q))
  }

  lemma {:induction false} Prepares(s: State, id: string)
    requires s.op.Idle? && s.current.None? && SameContent(s.items, id, []) && NoLiveOwner(s.items, id)
    ensures Apply(Apply(s, StartRequest(id, [])), StartPrepared(true, 1))
            == s.(items := s.items + [Item(|s.turns|, None, id, [], false, 1, Preparing, Untouched, 0)],
                  turns := s.turns + [Turn(None, false, Running, false, 0)], op := SavingStart(|s.items|))
  {
    assert Apply(s, StartRequest(id, [])) == s.(op := PreparingStart(id, []));
  }

  lemma {:induction false} Launches(s: State, m: State, id: string)
    requires s.op.Idle?
    requires m == s.(items := s.items + [Item(|s.turns|, None, id, [], false, 1, Preparing, Untouched, 0)],
                     turns := s.turns + [Turn(None, false, Running, false, 0)], op := SavingStart(|s.items|))
    ensures Apply(Apply(m, StartSaved(true)), QueryReady(|s.queries|)) == Started(s, id)
  {
    var i := |s.items|;
    SubmissionIs(m.items[i], i);
    assert Apply(m, StartSaved(true)) == LaunchQuery(m, i) && [] + [Queued1(id, i)] == [Queued1(id, i)];
    var n := Apply(LaunchQuery(m, i), QueryReady(|s.queries|));
    assert n.items == Started(s, id).items && n.turns == Started(s, id).turns && n.queries == Started(s, id).queries;
  }

  lemma {:induction false} Starts(steps: seq<Step>, s: State, id: string) returns (more: seq<Step>, n: State)
    requires s == Run(steps) && Receiptless(steps)
    requires s.op.Idle? && s.current.None? && SameContent(s.items, id, []) && NoLiveOwner(s.items, id)
    ensures n == Run(more) && Receiptless(more)
    ensures n == Started(s, id)
  {
    RunThree(steps, StartRequest(id, []), StartPrepared(true, 1), StartSaved(true));
    more := steps + [StartRequest(id, []), StartPrepared(true, 1), StartSaved(true)];
    RunOne(more, QueryReady(|s.queries|));
    more := more + [QueryReady(|s.queries|)];
    Prepares(s, id);
    Launches(s, Apply(Apply(s, StartRequest(id, [])), StartPrepared(true, 1)), id);
    n := Started(s, id);
  }

  /** turn/start on the live query. */
  function Restarted(s: State, q: nat, id: string): State
    requires q < |s.queries|
  {
    var query := s.queries[q];
    s.(items := s.items + [NewItem(|s.turns|, Some(q), id, false)],
       turns := s.turns + [Turn(Some(q), false, Running, false, 0)],
       queries := s.queries[q := query.(turn := Some(|s.turns|),
                                        queue := Queue1(query.queue, id, |s.items|))])
  }

  lemma {:induction false} Restarts(s: State, q: nat, id: string)
    requires s.op.Idle? && s.current == Some(q) && q < |s.queries| && s.queries[q].phase.Ready?
    requires s.queries[q].turn.None? && !s.queries[q].queue.closed && !s.queries[q].reserving
    requires SameContent(s.items, id, []) && NoLiveOwner(s.items, id)
    ensures Apply(Apply(Apply(s, StartRequest(id, [])), StartPrepared(true, 1)), StartSaved(true))
            == Restarted(s, q, id)
  {
    var s1 := Apply(s, StartRequest(id, []));
    assert s1 == s.(op := PreparingStart(id, []));
    var s2 := Apply(s1, StartPrepared(true, 1));
    var i := |s.items|;
    assert s2.op == SavingStart(i) && s2.turns[|s.turns|].query == Some(q);
    SubmissionIs(s2.items[i], i);
    var s3 := Apply(s2, StartSaved(true));
    assert s3 == FinishReservation(s2, i, q, true);
    assert s3.items == Restarted(s, q, id).items && s3.queries == Restarted(s, q, id).queries;
  }

  /** A direct turn/steer to the running turn. */
  function Steered(s: State, q: nat, id: string): State
    requires q < |s.queries| && s.queries[q].turn.Some?
  {
    var query := s.queries[q];
    s.(items := s.items + [NewItem(query.turn.value, Some(q), id, true)],
       queries := s.queries[q := query.(queue := Queue1(query.queue, id, |s.items|))])
  }

  lemma {:induction false} Steers(s: State, q: nat, id: string)
    requires s.op.Idle? && s.current == Some(q) && q < |s.queries| && s.queries[q].turn.Some?
    requires Admitted(s, s.queries[q].turn.value) && !InTurn(s.items, id, s.queries[q].turn.value)
    ensures Apply(Apply(Apply(s, SteerRequest(id, [])), SteerConverted(true, 1)), SteerSaved(true)) == Steered(s, q, id)
  {
    var t := s.queries[q].turn.value;
    var s1 := Apply(s, SteerRequest(id, []));
    assert s1 == s.(op := Converting(id, [], t, false));
    var s2 := Apply(s1, SteerConverted(true, 1));
    var i := |s.items|;
    assert s2.op == SavingSteer(i, false) && Admitted(s2, t);
    SubmissionIs(s2.items[i], i);
    var s3 := Apply(s2, SteerSaved(true));
    assert s3.items == Steered(s, q, id).items;
  }

  // ------------------------------------------------------------------ reading and ending

  /** The SDK reads the first queued value. */
  function Read(s: State, q: nat, id: string, i: nat): State
    requires q < |s.queries| && i < |s.items| && s.queries[q].queue.values != []
  {
    var query := s.queries[q];
    s.(items := s.items[i := s.items[i].(given := s.items[i].given + 1)],
       queries := s.queries[q := query.(queue := query.queue.(values := query.queue.values[1..]),
                                        given := query.given[Whole(id) := i])])
  }

  lemma {:induction false} Reads(s: State, q: nat, id: string, i: nat)
    requires q < |s.queries| && i < |s.items| && s.queries[q].phase.Ready? && !s.queries[q].queue.closed
    requires s.queries[q].queue.pending == [] && s.queries[q].queue.values != []
    requires s.queries[q].queue.values[0] == Queued1(id, i)
    ensures Apply(s, Pulled(q)) == Read(s, q, id, i)
  {
    var queue := s.queries[q].queue;
    var m := Queued1(id, i).message;
    assert Q.Shift(queue).pending == [m] && [m][1..] == [];
    assert Q.Pull(queue) == Q.Pull(Q.Shift(queue));
    assert Q.Pull(queue) == (queue.(values := queue.values[1..]), Q.Yield(m));
  }

  /** A turn ends, leaving the query ready for the next one. */
  function Over(s: State, t: nat, q: nat): State
    requires t < |s.turns| && q < |s.queries|
  {
    s.(turns := s.turns[t := s.turns[t].(fin := Ended, completions := s.turns[t].completions + 1)],
       queries := s.queries[q := s.queries[q].(turn := None, receipts := {})])
  }

  function Swept(s: State, t: nat, q: nat): State
    requires q < |s.queries|
  {
    var (items, values) := WithdrawFrom(s.items, s.queries[q].queue.values, t, 0);
    s.(items := items, queries := s.queries[q := s.queries[q].(queue := s.queries[q].queue.(values := values))])
  }

  lemma {:induction false} Sweeps(s: State, t: nat, q: nat)
    requires q < |s.queries| && s.queries[q].turn == Some(t) && t < |s.turns| && !s.closing
    requires s.turns[t].query == Some(q) && s.turns[t].fin.Running?
    requires !UnknownSteer(s.items, s.queries[q].queue.values, t)
    ensures Apply(Apply(s, FinishTurn(q)), FinChecked(t, false, false))
            == Swept(s, t, q).(turns := s.turns[t := s.turns[t].(fin := Saving)])
  {
    var s1 := Apply(s, FinishTurn(q));
    assert s1 == s.(turns := s.turns[t := s.turns[t].(fin := Begun)]);
    assert MarkUnreadStart(s1, t, false) == s1;
  }

  lemma {:induction false} Ends(s: State, t: nat, q: nat)
    requires q < |s.queries| && s.queries[q].turn == Some(t) && t < |s.turns| && !s.closing
    requires s.turns[t].query == Some(q) && s.turns[t].fin.Running? && !s.turns[t].closed
    requires !UnknownSteer(s.items, s.queries[q].queue.values, t)
    ensures |Swept(s, t, q).queries| == |s.queries| && Swept(s, t, q).turns == s.turns
    ensures Apply(Apply(Apply(s, FinishTurn(q)), FinChecked(t, false, false)), FinEnded(t, false))
            == Over(Swept(s, t, q), t, q)
  {
    Sweeps(s, t, q);
    var s2 := Swept(s, t, q).(turns := s.turns[t := s.turns[t].(fin := Saving)]);
    var s3 := Apply(s2, FinEnded(t, false));
    assert s3.turns == Over(Swept(s, t, q), t, q).turns && s3.queries == Over(Swept(s, t, q), t, q).queries;
  }

  /** Without an outstanding steer of the turn, the sweep changes nothing. */
  lemma {:induction false} NothingToSweep(items: seq<Item>, values: seq<Q.Value>, t: nat, i: nat)
    requires i <= |items| && forall j :: i <= j < |items| && items[j].turn == t ==> !Outstanding(items[j])
    ensures WithdrawFrom(items, values, t, i) == (items, values)
    decreases |items| - i
  {
    if i < |items| {
      NothingToSweep(items, values, t, i + 1);
    }
  }

  // ------------------------------------------------------------------ the same in a run

  lemma {:induction false} RestartRuns(steps: seq<Step>, s: State, q: nat, id: string)
    returns (more: seq<Step>, n: State)
    requires s == Run(steps) && Receiptless(steps)
    requires s.op.Idle? && s.current == Some(q) && q < |s.queries| && s.queries[q].phase.Ready?
    requires s.queries[q].turn.None? && !s.queries[q].queue.closed && !s.queries[q].reserving
    requires SameContent(s.items, id, []) && NoLiveOwner(s.items, id)
    ensures n == Run(more) && Receiptless(more)
    ensures n == Restarted(s, q, id)
  {
    RunThree(steps, StartRequest(id, []), StartPrepared(true, 1), StartSaved(true));
    Restarts(s, q, id);
    more, n := steps + [StartRequest(id, []), StartPrepared(true, 1), StartSaved(true)], Restarted(s, q, id);
  }

  lemma {:induction false} RunSteers(steps: seq<Step>, s: State, q: nat, id: string)
    returns (more: seq<Step>, n: State)
    requires s == Run(steps) && Receiptless(steps)
    requires s.op.Idle? && s.current == Some(q) && q < |s.queries| && s.queries[q].turn.Some?
    requires Admitted(s, s.queries[q].turn.value) && !InTurn(s.items, id, s.queries[q].turn.value)
    ensures n == Run(more) && Receiptless(more)
    ensures n == Steered(s, q, id)
  {
    RunThree(steps, SteerRequest(id, []), SteerConverted(true, 1), SteerSaved(true));
    Steers(s, q, id);
    more, n := steps + [SteerRequest(id, []), SteerConverted(true, 1), SteerSaved(true)], Steered(s, q, id);
  }

  lemma {:induction false} ReadRuns(steps: seq<Step>, s: State, q: nat, id: string, i: nat)
    returns (more: seq<Step>, n: State)
    requires s == Run(steps) && Receiptless(steps)
    requires q < |s.queries| && i < |s.items| && s.queries[q].phase.Ready? && !s.queries[q].queue.closed
    requires s.queries[q].queue.pending == [] && s.queries[q].queue.values != []
    requires s.queries[q].queue.values[0] == Queued1(id, i)
    ensures n == Run(more) && Receiptless(more)
    ensures n == Read(s, q, id, i) && more == steps + [Pulled(q)]
  {
    RunOne(steps, Pulled(q));
    Reads(s, q, id, i);
    more, n := steps + [Pulled(q)], Read(s, q, id, i);
  }

  lemma {:induction false} EndRuns(steps: seq<Step>, s: State, t: nat, q: nat) returns (more: seq<Step>, n: State)
    requires s == Run(steps) && Receiptless(steps)
    requires q < |s.queries| && s.queries[q].turn == Some(t) && t < |s.turns| && !s.closing
    requires s.turns[t].query == Some(q) && s.turns[t].fin.Running? && !s.turns[t].closed
    requires !UnknownSteer(s.items, s.queries[q].queue.values, t)
    ensures |Swept(s, t, q).queries| == |s.queries| && Swept(s, t, q).turns == s.turns
    ensures n == Run(more) && Receiptless(more)
    ensures n == Over(Swept(s, t, q), t, q)
  {
    RunThree(steps, FinishTurn(q), FinChecked(t, false, false), FinEnded(t, false));
    Ends(s, t, q);
    more := steps + [FinishTurn(q), FinChecked(t, false, false), FinEnded(t, false)];
    n := Over(Swept(s, t, q), t, q);
  }

  lemma {:induction false} QuietEndRuns(steps: seq<Step>, s: State, t: nat, q: nat) returns (more: seq<Step>, n: State)
    requires s == Run(steps) && Receiptless(steps)
    requires q < |s.queries| && s.queries[q].turn == Some(t) && t < |s.turns| && !s.closing
    requires s.turns[t].query == Some(q) && s.turns[t].fin.Running? && !s.turns[t].closed
    requires forall j :: 0 <= j < |s.items| && s.items[j].turn == t ==> !Outstanding(s.items[j])
    ensures n == Run(more) && Receiptless(more)
    ensures n == Over(s, t, q)
  {
    NothingToSweep(s.items, s.queries[q].queue.values, t, 0);
    more, n := EndRuns(steps, s, t, q);
    assert Swept(s, t, q) == s;
  }

  // ------------------------------------------------------------------ the runs

  /** One input of turn 0, read or not. */
  function First(read: bool, turn: Turn, running: Option<nat>): State {
    State([NewItem(0, Some(0), "a", false).(given := if read then 1 else 0)], [turn],
          [Query(Q.Queue(if read then [] else [Queued1("a", 0)], [], {}, false), running, Ready, false,
                 if read then map[Whole("a") := 0] else map[], {})],
          Some(0), Idle, false)
  }

  lemma {:induction false} FirstStarts() returns (steps: seq<Step>, s: State)
    ensures s == Run(steps) && Receiptless(steps)
    ensures s == First(false, Turn(Some(0), false, Running, false, 0), Some(0))
  {
    steps, s := Starts([], Init, "a");
    assert s.items == [NewItem(0, Some(0), "a", false)];
  }

  lemma {:induction false} FirstRead(steps: seq<Step>, s: State) returns (more: seq<Step>, n: State)
    requires s == Run(steps) && Receiptless(steps)
    requires s == First(false, Turn(Some(0), false, Running, false, 0), Some(0))
    ensures n == Run(more) && Receiptless(more)
    ensures n == First(true, Turn(Some(0), false, Running, false, 0), Some(0))
  {
    more, n := ReadRuns(steps, s, 0, "a", 0);
    assert [Queued1("a", 0)][1..] == [];
    assert n.items == [NewItem(0, Some(0), "a", false).(given := 1)];
  }

  lemma {:induction false} FirstOver(read: bool)
    ensures Over(First(read, Turn(Some(0), false, Running, false, 0), Some(0)), 0, 0)
            == First(read, Turn(Some(0), false, Ended, false, 1), None)
    ensures forall item <- First(read, Turn(Some(0), false, Running, false, 0), Some(0)).items :: !Outstanding(item)
  {
    var s := First(read, Turn(Some(0), false, Running, false, 0), Some(0));
    assert Over(s, 0, 0).turns == [Turn(Some(0), false, Ended, false, 1)];
    assert Over(s, 0, 0).queries == First(read, Turn(Some(0), false, Ended, false, 1), None).queries;
  }

  lemma {:induction false} FirstEnds(read: bool, steps: seq<Step>, s: State) returns (more: seq<Step>, n: State)
    requires s == Run(steps) && Receiptless(steps) && s == First(read, Turn(Some(0), false, Running, false, 0), Some(0))
    ensures n == Run(more) && Receiptless(more)
    ensures n == First(read, Turn(Some(0), false, Ended, false, 1), None)
  {
    FirstOver(read);
    more, n := QuietEndRuns(steps, s, 0, 0);
  }

  /** One input, read or not, and its turn is over. */
  lemma {:induction false} FirstTurn(read: bool) returns (steps: seq<Step>, s: State)
    ensures s == Run(steps) && Receiptless(steps)
    ensures s == First(read, Turn(Some(0), false, Ended, false, 1), None)
  {
    steps, s := FirstStarts();
    if read {
      steps, s := FirstRead(steps, s);
    }
    steps, s := FirstEnds(read, steps, s);
  }

  /** A second turn runs on the same query, and a direct steer repeats the first turn's identity. */
  function Second(read: bool): State {
    State([NewItem(0, Some(0), "a", false).(given := if read then 1 else 0), NewItem(1, Some(0), "b", false),
           NewItem(1, Some(0), "a", true)],
          [Turn(Some(0), false, Ended, false, 1), Turn(Some(0), false, Running, false, 0)],
          [Query(Q.Queue((if read then [] else [Queued1("a", 0)]) + [Queued1("b", 1), Queued1("a", 2)], [], {}, false),
                 Some(1), Ready, false, if read then map[Whole("a") := 0] else map[], {})],
          Some(0), Idle, false)
  }

  lemma {:induction false} SecondIs(read: bool)
    ensures var s0 := First(read, Turn(Some(0), false, Ended, false, 1), None);
            var s1 := Restarted(s0, 0, "b");
            && SameContent(s0.items, "b", []) && NoLiveOwner(s0.items, "b")
            && Admitted(s1, 1) && !InTurn(s1.items, "a", 1)
            && Steered(s1, 0, "a") == Second(read)
  {
    var s0 := First(read, Turn(Some(0), false, Ended, false, 1), None);
    var s1 := Restarted(s0, 0, "b");
    var s := Steered(s1, 0, "a");
    assert s.items == Second(read).items && s.turns == Second(read).turns;
    assert s.queries[0].queue.values == Second(read).queries[0].queue.values;
  }

  lemma {:induction false} SecondTurn(read: bool) returns (steps: seq<Step>, s: State)
    ensures s == Run(steps) && Receiptless(steps)
    ensures s == Second(read)
  {
    steps, s := FirstTurn(read);
    SecondIs(read);
    steps, s := RestartRuns(steps, s, 0, "b");
    steps, s := RunSteers(steps, s, 0, "a");
  }

  // ------------------------------------------------------------------ an unread steer is delivered

  lemma {:induction false} EchoPicksTheSteer()
    ensures EchoedItem(Second(true), 0, "a", 0) == 2 && Listening(Second(true), 0)
    ensures ApplyEcho(Second(true), 0, "a", 0) == Deliver(Second(true), 2, Echo)
  {
    var items := Second(true).items;
    assert items[..2][0] == items[0] && items[..2][1] == items[1];
    assert FindInTurn(items, "a", 1) == 2;
  }

  lemma {:induction false} EchoedIs()
    ensures var s := Deliver(Second(true), 2, Echo);
            && |s.items| == 3 && s.items[0].id == s.items[2].id && Live(s.items[0]) && Live(s.items[2])
            && s.items[2].status == Delivered(Echo) && s.items[2].given == 0 && s.items[2].parts == 1
  {
  }

  /** Two live items of one identity show that a live identity was reused. */
  lemma {:induction false} TwoOwnersReuse(steps: seq<Step>, s: State, i: nat, j: nat)
    requires s == Run(steps) && Receiptless(steps)
    requires i < j < |s.items| && s.items[i].id == s.items[j].id && Live(s.items[i])
    ensures !NeverReuses(steps)
  {
    if NeverReuses(steps) {
      ReceiptlessIsDisciplined(steps);
      SteerTheorems.OneLiveOwner(steps, i, j);
    }
  }

  /** The echo of the first turn's input delivers a steer of the same identity that the SDK never read. */
  lemma {:induction false} UnreadSteerIsDelivered() returns (steps: seq<Step>)
    ensures Run(steps) == Deliver(Second(true), 2, Echo)
    ensures var s := Run(steps);
            && |s.items| == 3 && s.items[0].id == s.items[2].id && Live(s.items[0]) && Live(s.items[2])
            && s.items[2].status == Delivered(Echo) && s.items[2].given == 0 && s.items[2].parts == 1
    ensures !NeverReuses(steps)
  {
    var s: State;
    steps, s := SecondTurn(true);
    EchoPicksTheSteer();
    EchoedIs();
    RunOne(steps, EchoSeen(0, "a", 0));
    steps := steps + [EchoSeen(0, "a", 0)];
    TwoOwnersReuse(steps, Deliver(s, 2, Echo), 0, 2);
  }

  // ------------------------------------------------------------------ a steer taken back unread is read

  function TakenBackItems(): seq<Item> {
    var items := Second(false).items;
    items[2 := items[2].(status := NotApplied(Unread))]
  }

  lemma {:induction false} SweepTakesTheWrongValue()
    ensures var s := Second(false);
            && !UnknownSteer(s.items, s.queries[0].queue.values, 1)
            && WithdrawFrom(s.items, s.queries[0].queue.values, 1, 0)
               == (TakenBackItems(), [Queued1("b", 1), Queued1("a", 2)])
  {
    var items := Second(false).items;
    var values := Second(false).queries[0].queue.values;
    assert values == [Queued1("a", 0), Queued1("b", 1), Queued1("a", 2)];
    assert Q.FindIdentity(values, "a") == 0;
    assert values[..0] + values[1..] == [Queued1("b", 1), Queued1("a", 2)];
    assert WithdrawFrom(items, values, 1, 0) == WithdrawFrom(items, values, 1, 1);
    assert WithdrawFrom(items, values, 1, 1) == WithdrawFrom(items, values, 1, 2);
    assert WithdrawFrom(items, values, 1, 2) == WithdrawFrom(TakenBackItems(), values[..0] + values[1..], 1, 3);
  }

  /** The second turn is over and its steer counts as never read. */
  function Third(): State {
    State(TakenBackItems(), [Turn(Some(0), false, Ended, false, 1), Turn(Some(0), false, Ended, false, 1)],
          [Query(Q.Queue([Queued1("b", 1), Queued1("a", 2)], [], {}, false), None, Ready, false, map[], {})],
          Some(0), Idle, false)
  }

  lemma {:induction false} ThirdIs()
    requires WithdrawFrom(Second(false).items, Second(false).queries[0].queue.values, 1, 0)
             == (TakenBackItems(), [Queued1("b", 1), Queued1("a", 2)])
    ensures Over(Swept(Second(false), 1, 0), 1, 0) == Third()
  {
    var n := Over(Swept(Second(false), 1, 0), 1, 0);
    assert n.turns == Third().turns && n.queries == Third().queries;
  }

  lemma {:induction false} ThirdTurn() returns (steps: seq<Step>, s: State)
    ensures s == Run(steps) && Receiptless(steps)
    ensures s == Third()
  {
    steps, s := SecondTurn(false);
    SweepTakesTheWrongValue();
    ThirdIs();
    steps, s := EndRuns(steps, s, 1, 0);
  }

  lemma {:induction false} ThirdWaits()
    ensures var s := Third();
            && EndedSteer(s, 2) && s.items[2].status == NotApplied(Unread) && s.items[2].given == 0
            && !s.queries[0].queue.closed && !Drained(s.items, s.queries[0].queue, 1)
  {
    assert Third().queries[0].queue.values[1].message.attempt == 2;
  }

  function Fourth(): State {
    Read(Read(Third(), 0, "b", 1), 0, "a", 2)
  }

  lemma {:induction false} FourthIs()
    ensures |Fourth().items| == 3 && Fourth().items[2].status == NotApplied(Unread) && Fourth().items[2].given == 1
  {
  }

  lemma {:induction false} ThirdReads(before: seq<Step>) returns (after: seq<Step>)
    requires Run(before) == Third() && Receiptless(before)
    ensures Run(before + after) == Fourth()
  {
    var one, m := ReadRuns(before, Third(), 0, "b", 1);
    assert [Queued1("b", 1), Queued1("a", 2)][1..] == [Queued1("a", 2)];
    var two, n := ReadRuns(one, m, 0, "a", 2);
    after := [Pulled(0), Pulled(0)];
    assert two == before + after;
  }

  lemma {:induction false} WaitingSteerReuses(steps: seq<Step>, s: State)
    requires s == Run(steps) && Receiptless(steps)
    requires EndedSteer(s, 2) && s.items[2].turn == 1 && s.turns[1].query == Some(0)
    requires |s.queries| == 1 && !s.queries[0].queue.closed && !Drained(s.items, s.queries[0].queue, 1)
    ensures !NeverReuses(steps)
  {
    if NeverReuses(steps) {
      ReceiptlessIsDisciplined(steps);
      assert steps + [] == steps;
      SteerTheorems.EndedTurnLeavesNoSteer(steps, [], 1);
    }
  }

  /** A turn's sweep removes an older value of the identity: the steer that it reports as not applied
      stays queued, and the SDK reads it after the turn has ended. */
  lemma {:induction false} RefusedSteerIsRead() returns (before: seq<Step>, after: seq<Step>)
    ensures var s, n := Run(before), Run(before + after);
            && EndedSteer(s, 2) && s.items[2].status == NotApplied(Unread) && s.items[2].given == 0
            && |s.queries| == 1 && !s.queries[0].queue.closed && !Drained(s.items, s.queries[0].queue, 1)
            && |n.items| == 3 && n.items[2].status == NotApplied(Unread) && n.items[2].given == 1
    ensures !NeverReuses(before)
  {
    var s: State;
    before, s := ThirdTurn();
    ThirdWaits();
    WaitingSteerReuses(before, s);
    after := ThirdReads(before);
    FourthIs();
  }

  // ------------------------------------------------------------------ Stop overwrites an outcome

  lemma {:induction false} OnePart(item: Item, i: nat)
    requires item.parts == 1
    ensures Uuids(Messages(item, i)) == [Whole(item.id)]
  {
  }

  /** A message of the identity is unread. */
  lemma {:induction false} UnreadHolds(queue: Q.Queue, k: nat, id: string, i: nat)
    requires k < |queue.values| && queue.values[k] == Queued1(id, i)
    ensures exists m <- Q.Unread(queue) :: m.uuid == Whole(id)
  {
    var p := SteerReads.FlattenHolds(queue.values, k);
    assert Q.Unread(queue)[|queue.pending| + p] == Queued1(id, i).message;
    assert Queued1(id, i).message in Q.Unread(queue);
  }

  lemma {:induction false} StopCancels(s: State, q: nat, i: nat, k: nat)
    requires s.current == Some(q) && q < |s.queries| && s.queries[q].turn.Some? && s.queries[q].turn.value < |s.turns|
    requires i < |s.items| && s.items[i].steer && s.items[i].parts == 1 && HasOutcome(s.items[i])
    requires LastOfId(s.items, i)
    requires k < |s.queries[q].queue.values| && s.queries[q].queue.values[k] == Queued1(s.items[i].id, i)
    ensures StopTakes(s, i)
    ensures |ApplyStop(s).items| == |s.items| && Shows(ApplyStop(s).items[i]).AsCancelled?
  {
    OnePart(s.items[i], i);
    UnreadHolds(s.queries[q].queue, k, s.items[i].id, i);
    SteerRuns.StopOverturns(s, i);
  }

  /** Stop turns a delivered steer into a cancelled one. */
  lemma {:induction false} StopCancelsDelivered() returns (before: seq<Step>)
    ensures var s, n := Run(before), Run(before + [Stop]);
            && |s.items| == 3 && Shows(s.items[2]).AsDelivered? && Overturns(s, Stop, 2)
            && |n.items| == 3 && Shows(n.items[2]).AsCancelled?
    ensures !NeverReuses(before)
  {
    var s := Deliver(Second(true), 2, Echo);
    before := UnreadSteerIsDelivered();
    DeliveredStops(s);
    RunOne(before, Stop);
  }

  lemma {:induction false} DeliveredStops(s: State)
    requires s == Deliver(Second(true), 2, Echo)
    ensures |s.items| == 3 && Shows(s.items[2]).AsDelivered? && StopTakes(s, 2)
    ensures |ApplyStop(s).items| == 3 && Shows(ApplyStop(s).items[2]).AsCancelled?
  {
    assert s.queries[0].queue.values == [Queued1("b", 1), Queued1("a", 2)];
    StopCancels(s, 0, 2, 1);
  }

  lemma {:induction false} ThirdRestarts()
    ensures var s := Third();
            && SameContent(s.items, "c", []) && NoLiveOwner(s.items, "c")
            && var n := Restarted(s, 0, "c");
               && |n.items| == 4 && Shows(n.items[2]).AsNotApplied? && StopTakes(n, 2)
               && |ApplyStop(n).items| == 4 && Shows(ApplyStop(n).items[2]).AsCancelled?
  {
    var n := Restarted(Third(), 0, "c");
    assert n.queries[0].queue.values == [Queued1("b", 1), Queued1("a", 2)] + [Queued1("c", 3)];
    StopCancels(n, 0, 2, 1);
  }

  /** Stop turns a steer that is not applied into a cancelled one, which owns its identity again. */
  lemma {:induction false} StopRevivesNotApplied() returns (before: seq<Step>)
    ensures var s, n := Run(before), Run(before + [Stop]);
            && |s.items| == 4 && Shows(s.items[2]).AsNotApplied? && !Live(s.items[2]) && Revives(s, Stop)
            && |n.items| == 4 && Shows(n.items[2]).AsCancelled? && Live(n.items[2])
    ensures !NeverReuses(before)
  {
    var s: State;
    before, s := ThirdTurn();
    ThirdRestarts();
    before, s := RestartRuns(before, s, 0, "c");
    RunOne(before, Stop);
    TwoOwnersReuse(before, s, 0, 2);
    assert RevivesItem(s, Stop, 2);
  }

  // ------------------------------------------------------------------ a receipt revives an identity in flight

  const Origin0 := NewItem(0, Some(0), "a", false).(given := 1)

  /** The first turn is over, and its steer "x" was taken back unread. */
  function Free(op: Op, stop: StopMark): State {
    State([Origin0, NewItem(0, Some(0), "x", true).(status := NotApplied(Unread), stop := stop)],
          [Turn(Some(0), false, Ended, false, 1)],
          [Query(Q.Queue([], [], {}, false), None, Ready, false, map[Whole("a") := 0], {})], Some(0), op, false)
  }

  lemma {:induction false} FreeIs()
    ensures var s := Steered(First(true, Turn(Some(0), false, Running, false, 0), Some(0)), 0, "x");
            && !UnknownSteer(s.items, s.queries[0].queue.values, 0)
            && Over(Swept(s, 0, 0), 0, 0) == Free(Idle, Untouched)
  {
    var s := Steered(First(true, Turn(Some(0), false, Running, false, 0), Some(0)), 0, "x");
    var values := s.queries[0].queue.values;
    assert s.items == [Origin0, NewItem(0, Some(0), "x", true)] && values == [Queued1("x", 1)];
    assert Q.FindIdentity(values, "x") == 0 && values[..0] + values[1..] == [];
    assert WithdrawFrom(s.items, values, 0, 0) == WithdrawFrom(s.items, values, 0, 1);
    var taken := s.items[1 := s.items[1].(status := NotApplied(Unread))];
    assert taken == Free(Idle, Untouched).items;
    assert WithdrawFrom(s.items, values, 0, 1) == WithdrawFrom(taken, values[..0] + values[1..], 0, 2);
    assert WithdrawFrom(s.items, values, 0, 0) == (Free(Idle, Untouched).items, []);
    var n := Over(Swept(s, 0, 0), 0, 0);
    assert n.items == Free(Idle, Untouched).items && n.turns == Free(Idle, Untouched).turns;
    assert n.queries[0].queue.values == [] && n.queries[0] == Free(Idle, Untouched).queries[0];
  }

  lemma {:induction false} FreeRuns() returns (steps: seq<Step>, s: State)
    ensures s == Run(steps) && Receiptless(steps)
    ensures s == Free(Idle, Untouched)
  {
    steps, s := FirstStarts();
    steps, s := FirstRead(steps, s);
    assert Admitted(s, 0) && !InTurn(s.items, "x", 0);
    steps, s := RunSteers(steps, s, 0, "x");
    FreeIs();
    steps, s := EndRuns(steps, s, 0, 0);
  }

  lemma {:induction false} FreeRevives()
    ensures Apply(Free(Idle, Untouched), StartRequest("x", [])) == Free(PreparingStart("x", []), Untouched)
    ensures Apply(Free(PreparingStart("x", []), Untouched), StopReceipt(1, true))
            == Free(PreparingStart("x", []), Cancelled)
  {
    var s := Free(PreparingStart("x", []), Untouched);
    assert ApplyStopReceipt(s, 1, true).items == Free(PreparingStart("x", []), Cancelled).items;
  }

  lemma {:induction false} FreeDoubles(s: State)
    requires s == Free(PreparingStart("x", []), Cancelled)
    ensures Late(s, StartPrepared(true, 1)) && Unique(s.items) && !Reuses(s, StartPrepared(true, 1))
  {
    assert s.items[1].id == "x" && Live(s.items[1]);
  }

  /** An interrupt receipt that arrives while turn/start prepares an input revives the earlier item of its identity,
      so that the identity gets two live owners. */
  lemma {:induction false} LateReceiptDoubles() returns (steps: seq<Step>, step: Step)
    ensures Unique(Run(steps).items) && !Reuses(Run(steps), step) && AfterRevival(steps, step)
    ensures Doubles(Run(steps), Apply(Run(steps), step))
  {
    var s: State;
    steps, s := FreeRuns();
    RunTwo(steps, StartRequest("x", []), StopReceipt(1, true));
    FreeRevives();
    steps, step := steps + [StartRequest("x", []), StopReceipt(1, true)], StartPrepared(true, 1);
    FreeDoubles(Run(steps));
    SteerOwners.LateIsRevival(steps, step);
    SteerOwners.SecondOwnerExactly(steps, step);
  }
}
