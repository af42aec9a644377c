/**
 A concrete run in which a native history verdict replaces a delivered outcome: an
 echo of a reused identity reaches a steer whose finalizer is still reading.
 */
module SteerOverturned {
  import opened Basics
  import opened InputMessages
  import opened SteerSession
  import opened SteerInvariant
  import opened SteerExact
  import opened SteerFailures
  import Q = InputQueues
  import H = HistoryIndex
  import O = HistoryOutcome
  import T = HistoryOutcomeTheorems

  const Origin := NewItem(0, Some(0), "a", false).(given := 1)

  const Steer := NewItem(0, Some(0), "x", true).(given := 1)

  const Handed: map<Uuid, nat> := map[Whole("a") := 0, Whole("x") := 1]

  // ------------------------------------------------------------------ a steer is handed over, then its turn stops

  /** The first query serves turn 0 and the SDK has read its input and its steer. */
  function Alone(turn: Turn, closed: bool, current: Option<nat>): State {
    State([Origin, Steer], [turn],
          [Query(Q.Queue([], [], {}, closed), Some(0), Ready, false, Handed, {})], current, Idle, false)
  }

  const Run0 := Turn(Some(0), false, Running, false, 0)

  const Asking := Turn(Some(0), false, Reading({1}), true, 0)

  lemma {:induction false} AloneIs()
    ensures var s := First(true, Run0, Some(0));
            && Admitted(s, 0) && !InTurn(s.items, "x", 0)
            && Steered(s, 0, "x").queries[0].queue.values == [Queued1("x", 1)]
            && Read(Steered(s, 0, "x"), 0, "x", 1) == Alone(Run0, false, Some(0))
  {
    var s := First(true, Run0, Some(0));
    var m := Steered(s, 0, "x");
    assert m.queries[0].queue.values == [Queued1("x", 1)] && [Queued1("x", 1)][1..] == [];
    var n := Read(m, 0, "x", 1);
    assert n.items == [Origin, Steer];
    assert n.queries[0].given == Handed;
  }

  lemma {:induction false} AloneRuns() returns (steps: seq<Step>, s: State)
    ensures s == Run(steps) && Receiptless(steps)
    ensures s == Alone(Run0, false, Some(0))
  {
    steps, s := FirstStarts();
    steps, s := FirstRead(steps, s);
    AloneIs();
    steps, s := RunSteers(steps, s, 0, "x");
    steps, s := ReadRuns(steps, s, 0, "x", 1);
  }

  lemma {:induction false} NothingQueued(items: seq<Item>, t: nat, i: nat)
    requires i <= |items|
    ensures WithdrawFrom(items, [], t, i) == (items, [])
    decreases |items| - i
  {
    if i < |items| {
      NothingQueued(items, t, i + 1);
    }
  }

  lemma {:induction false} AloneChecked(s: State)
    requires s == Alone(Run0, false, Some(0))
    ensures Apply(Apply(s, FinishTurn(0)), FinChecked(0, false, false))
            == Alone(Run0.(fin := Exiting, closed := true), true, Some(0))
  {
    var s1 := Apply(s, FinishTurn(0));
    assert s1 == Alone(Run0.(fin := Begun), false, Some(0));
    assert Q.FindIdentity([], "x") == 0 && Outstanding(s1.items[1]);
    assert UnknownSteer(s1.items, s1.queries[0].queue.values, 0);
  }

  lemma {:induction false} AloneExited(s: State)
    requires s == Alone(Run0.(fin := Exiting, closed := true), true, Some(0))
    ensures Apply(s, FinExited(0, false, false)) == Alone(Asking, true, Some(0))
  {
    assert MarkUnreadStart(s, 0, false) == s;
    NothingQueued(s.items, 0, 0);
    assert WithdrawSteers(s, 0, 0) == s;
    assert OpenSteers(s.items, 0) == {1};
  }

  lemma {:induction false} AskingRuns() returns (steps: seq<Step>, s: State)
    ensures s == Run(steps) && Receiptless(steps)
    ensures s == Alone(Asking, true, None)
  {
    steps, s := AloneRuns();
    RunThree(steps, FinishTurn(0), FinChecked(0, false, false), FinExited(0, false, false));
    AloneChecked(s);
    AloneExited(Alone(Run0.(fin := Exiting, closed := true), true, Some(0)));
    steps := steps + [FinishTurn(0), FinChecked(0, false, false), FinExited(0, false, false)];
    RunOne(steps, QueryDiscarded(0));
    steps := steps + [QueryDiscarded(0)];
    s := Alone(Asking, true, None);
    DiscardedIs();
  }

  lemma {:induction false} DiscardedIs()
    ensures Apply(Alone(Asking, true, Some(0)), QueryDiscarded(0)) == Alone(Asking, true, None)
  {
  }

  // ------------------------------------------------------------------ the next query receives the same identity

  /** The second query serves turn 1; `first` and `again` are the states of the two steers "x". */
  function Both(first: Item, origin: Item, again: Item, turn: Turn, running: Option<nat>, values: seq<Q.Value>,
                given: map<Uuid, nat>): State {
    State([Origin, first, origin, again], [Asking, turn],
          [Query(Q.Queue([], [], {}, true), Some(0), Ready, false, Handed, {}),
           Query(Q.Queue(values, [], {}, false), running, Ready, false, given, {})],
          Some(1), Idle, false)
  }

  const Next := NewItem(1, Some(1), "b", false)

  const Again := NewItem(1, Some(1), "x", true)

  const Run1 := Turn(Some(1), false, Running, false, 0)

  const Read1: map<Uuid, nat> := map[Whole("b") := 2, Whole("x") := 3]

  lemma {:induction false} BothIs()
    ensures var s := Alone(Asking, true, None);
            && SameContent(s.items, "b", []) && NoLiveOwner(s.items, "b")
            && Admitted(Started(s, "b"), 1) && !InTurn(Started(s, "b").items, "x", 1)
            && Steered(Started(s, "b"), 1, "x")
               == Both(Steer, Next, Again, Run1, Some(1), [Queued1("b", 2), Queued1("x", 3)], map[])
  {
    var s := Alone(Asking, true, None);
    var m := Started(s, "b");
    var n := Steered(m, 1, "x");
    assert n.items == [Origin, Steer, Next, Again];
    assert n.turns == [Asking, Run1];
    assert n.queries[1].queue.values == [Queued1("b", 2), Queued1("x", 3)];
  }

  lemma {:induction false} BothRead()
    ensures var s := Both(Steer, Next, Again, Run1, Some(1), [Queued1("b", 2), Queued1("x", 3)], map[]);
            var m := Read(s, 1, "b", 2);
            && m.queries[1].queue.values == [Queued1("x", 3)]
            && Read(m, 1, "x", 3)
               == Both(Steer, Next.(given := 1), Again.(given := 1), Run1, Some(1), [], Read1)
  {
    var s := Both(Steer, Next, Again, Run1, Some(1), [Queued1("b", 2), Queued1("x", 3)], map[]);
    var m := Read(s, 1, "b", 2);
    assert m.queries[1].queue.values == [Queued1("x", 3)];
    var n := Read(m, 1, "x", 3);
    assert n.items == [Origin, Steer, Next.(given := 1), Again.(given := 1)];
    assert n.queries[1].given == Read1 && n.queries[1].queue.values == [];
  }

  lemma {:induction false} BothRuns() returns (steps: seq<Step>, s: State)
    ensures s == Run(steps) && Receiptless(steps)
    ensures s == Both(Steer, Next.(given := 1), Again.(given := 1), Run1, Some(1), [], Read1)
  {
    steps, s := AskingRuns();
    BothIs();
    steps, s := Starts(steps, s, "b");
    steps, s := RunSteers(steps, s, 1, "x");
    BothRead();
    steps, s := ReadRuns(steps, s, 1, "b", 2);
    steps, s := ReadRuns(steps, s, 1, "x", 3);
  }

  // ------------------------------------------------------------------ two echoes and a verdict

  const Sure := Again.(given := 1, status := Delivered(Echo))

  lemma {:induction false} FirstEcho(s: State)
    requires s == Both(Steer, Next.(given := 1), Again.(given := 1), Run1, Some(1), [], Read1)
    ensures Apply(s, EchoSeen(1, "x", 0)) == Both(Steer, Next.(given := 1), Sure, Run1, Some(1), [], Read1)
  {
    var front := s.items[..3];
    assert front[0] == s.items[0] && front[1] == s.items[1] && front[2] == s.items[2];
    assert FindInTurn(s.items, "x", 1) == 3;
    assert EchoedItem(s, 1, "x", 0) == 3 && Listening(s, 1) && Whole("x") in s.queries[1].given;
  }

  lemma {:induction false} BothOver()
    ensures var s := Both(Steer, Next.(given := 1), Sure, Run1, Some(1), [], Read1);
            && (forall item <- s.items :: item.turn == 1 ==> !Outstanding(item))
            && Over(s, 1, 1)
               == Both(Steer, Next.(given := 1), Sure, Run1.(fin := Ended, completions := 1), None, [], Read1)
  {
  }

  lemma {:induction false} SecondEcho(s: State)
    requires s == Both(Steer, Next.(given := 1), Sure, Run1.(fin := Ended, completions := 1), None, [], Read1)
    ensures Apply(s, EchoSeen(1, "x", 0))
            == Both(Steer.(status := Delivered(Echo)), Next.(given := 1), Sure,
                    Run1.(fin := Ended, completions := 1), None, [], Read1)
  {
    var front := s.items[..3];
    assert front[0] == s.items[0] && front[1] == s.items[1] && front[2] == s.items[2];
    assert front[..2][1] == s.items[1];
    assert SubmittedSteer(front[..2], "x", 0) == 1;
    assert SubmittedSteer(front, "x", 0) == 1;
    assert EchoedItem(s, 1, "x", 0) == 1 && Listening(s, 1) && Whole("x") in s.queries[1].given;
  }

  /** Turn 1 is over, and the second echo has delivered the steer of turn 0. */
  function Delivered0(status: Status, turn: Turn): State {
    Both(Steer.(status := status), Next.(given := 1), Sure, Run1.(fin := Ended, completions := 1), None, [], Read1)
    .(turns := [turn, Run1.(fin := Ended, completions := 1)])
  }

  lemma {:induction false} EchoedRuns() returns (steps: seq<Step>, s: State)
    ensures s == Run(steps) && Receiptless(steps)
    ensures s == Delivered0(Delivered(Echo), Asking)
  {
    steps, s := BothRuns();
    FirstEcho(s);
    RunOne(steps, EchoSeen(1, "x", 0));
    steps, s := steps + [EchoSeen(1, "x", 0)], Apply(s, EchoSeen(1, "x", 0));
    BothOver();
    steps, s := QuietEndRuns(steps, s, 1, 1);
    SecondEcho(s);
    RunOne(steps, EchoSeen(1, "x", 0));
    steps, s := steps + [EchoSeen(1, "x", 0)], Apply(s, EchoSeen(1, "x", 0));
  }

  /** The history of the closed process holds the turn's first input and nothing else. */
  const Lone := H.Row(Some(H.Input), H.User, Some(NativeText(Whole("a"))), Some("s"), None, Some(false), true,
                      H.Root, "")

  predicate TextsAreNative() {
    && H.NativeUuid(NativeText(Whole("a"))) && H.NativeUuid(NativeText(Whole("x")))
    && NativeText(Whole("a")) != NativeText(Whole("x"))
  }

  lemma {:induction false} LoneIsAccepted()
    requires TextsAreNative()
    ensures H.Verify([Lone], "s").Some? && O.ChainOf([Lone]) == [NativeText(Whole("a"))]
  {
    assert [Lone][..0] == [];
    assert O.ChainOf([]) + H.ChainPart(Lone) == [NativeText(Whole("a"))];
  }

  lemma {:induction false} LoneShows(anchors: seq<string>, ids: seq<string>)
    requires TextsAreNative() && anchors == [NativeText(Whole("a"))] && ids == [NativeText(Whole("x"))]
    ensures O.InputHistoryOutcome([Lone], "s", Some(anchors), Some(ids)) == O.NotApplied
  {
    LoneIsAccepted();
    assert O.InOrderAt(O.ChainOf([Lone]), anchors, [0]);
    assert NativeText(Whole("a")) in H.InputPart(Lone) && Lone in [Lone];
    assert T.IsInput([Lone], NativeText(Whole("a")));
    T.NotAppliedIsExact([Lone], "s", Some(anchors), Some(ids));
  }

  lemma {:induction false} LoneVerdict(s: State)
    requires TextsAreNative() && s == Delivered0(Delivered(Echo), Asking)
    ensures HistoryVerdict(s.items, 0, 1, Some(NativeHistory([Lone], "s"))) == O.NotApplied
  {
    var front := s.items[..3];
    assert front[..2][..1][0] == s.items[0];
    assert FirstOf(front[..2][..1], 0) == 0;
    assert FirstOf(front[..2], 0) == 0;
    assert FirstOf(front, 0) == 0;
    assert FirstOf(s.items, 0) == 0;
    var anchors := NativeTexts(Uuids(Messages(s.items[0], 0)));
    var ids := NativeTexts(Uuids(Messages(s.items[1], 1)));
    assert anchors == [NativeText(Whole("a"))] && ids == [NativeText(Whole("x"))];
    LoneShows(anchors, ids);
  }

  lemma {:induction false} LoneJudges(s: State, history: Option<NativeHistory>)
    requires s == Delivered0(Delivered(Echo), Asking) && HistoryVerdict(s.items, 0, 1, history) == O.NotApplied
    ensures Finalizing(s, 0) && s.turns[0].fin == Reading({1}) && |s.items| == 4 && Shows(s.items[1]).AsDelivered?
    ensures var n := ApplyFinHistory(s, 0, history);
            |n.items| == 4 && n.items[1].status == NotApplied(Absent) && Shows(n.items[1]).AsNotApplied?
  {
    assert s.turns[0] == Asking;
  }

  lemma {:induction false} LoneOverturns(s: State, step: Step)
    requires TextsAreNative() && s == Delivered0(Delivered(Echo), Asking)
    requires step == FinHistory(0, Some(NativeHistory([Lone], "s")))
    ensures Overturns(s, step, 1)
    ensures |Apply(s, step).items| == 4 && Apply(s, step).items[1].status == NotApplied(Absent)
    ensures Shows(s.items[1]).AsDelivered? && Shows(Apply(s, step).items[1]).AsNotApplied?
  {
    LoneVerdict(s);
    LoneJudges(s, step.history);
  }

  /** The finalizer's verdict turns a delivered steer into one that is not applied. */
  lemma {:induction false} DeliveredIsOverturned() returns (before: seq<Step>, step: Step)
    requires TextsAreNative()
    ensures var s, n := Run(before), Run(before + [step]);
            && |s.items| == 4 && Shows(s.items[1]).AsDelivered? && Overturns(s, step, 1)
            && |n.items| == 4 && Shows(n.items[1]).AsNotApplied? && n.items[1].status == NotApplied(Absent)
    ensures !NeverReuses(before)
  {
    var s: State;
    before, s := EchoedRuns();
    step := FinHistory(0, Some(NativeHistory([Lone], "s")));
    LoneOverturns(s, step);
    RunOne(before, step);
    TwoOwnersReuse(before, s, 1, 3);
  }
}
