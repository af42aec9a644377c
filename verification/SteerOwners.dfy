/** When an identity of a Claude thread gets a second live owner. */
module SteerOwners {
  import opened Basics
  import opened SteerSession
  import opened SteerInvariant
  import opened SteerChange
  import opened SteerExact
  import SteerAlways
  import SteerRuns

  // ------------------------------------------------------------------ an identity that was free and is live

  /** Only a checked turn/start puts an identity in flight. */
  lemma {:induction false} RequestEnters(s: State, step: Step, id: string)
    requires Base(s) && RequestStep(step) && !InFlight(s, id) && InFlight(Apply(s, step), id)
    ensures Apply(s, step).items == s.items && NoLiveOwner(s.items, id)
  {
  }

  lemma {:induction false} FlightHeld(s: State, n: State, id: string)
    requires Progress(s, n) && n.op == s.op && |n.items| == |s.items| && InFlight(n, id)
    ensures InFlight(s, id)
  {
    match s.op
    case SavingSteer(i, start) => assert i < |s.items| ==> ItemProgress(s.items[i], n.items[i]);
    case _ =>
  }

  /** The item that a request was saving, and saves no longer while it is in flight, was refused. */
  lemma {:induction false} SavedIsReleased(s: State, step: Step, id: string, i: nat)
    requires Base(s) && RequestStep(step) && InFlight(s, id) && BeingSaved(s, i) && i < |Apply(s, step).items|
    requires InFlight(Apply(s, step), id) && !BeingSaved(Apply(s, step), i)
    ensures !Live(Apply(s, step).items[i])
  {
  }

  /** A request saves the item that it creates. */
  lemma {:induction false} CreatedIsSaved(s: State, step: Step, i: nat)
    requires |s.items| <= i < |Apply(s, step).items|
    ensures BeingSaved(Apply(s, step), i)
  {
    SteerRuns.StepCreates(s, step);
    SteerRuns.OneAtATime(s, step);
  }

  /** Before the step the request was in flight too, or it has just passed its check. */
  lemma {:induction false} FlightBefore(s: State, step: Step, id: string, i: nat) returns (n: State)
    requires Base(s) && InFlight(Apply(s, step), id) && LiveAt(Apply(s, step), id, i) && !BeingSaved(Apply(s, step), i)
    ensures n == Apply(s, step)
    ensures Progress(s, n)
    ensures i < |s.items| && s.items[i].id == id && InFlight(s, id)
  {
    n := SteerAlways.StepBase(s, step);
    if i >= |s.items| {
      CreatedIsSaved(s, step, i);
    } else {
      assert ItemProgress(s.items[i], n.items[i]);
    }
    if !RequestStep(step) {
      SteerRuns.OpHeld(s, step);
      SteerRuns.StepCreates(s, step);
      FlightHeld(s, n, id);
    } else if !InFlight(s, id) {
      RequestEnters(s, step, id);
    }
  }

  lemma {:induction false} NotSavedBefore(s: State, step: Step, id: string, i: nat)
    requires Base(s) && InFlight(s, id) && InFlight(Apply(s, step), id)
    requires LiveAt(Apply(s, step), id, i) && !BeingSaved(Apply(s, step), i)
    ensures !BeingSaved(s, i)
  {
    if !RequestStep(step) {
      SteerRuns.OpHeld(s, step);
    } else if BeingSaved(s, i) {
      SavedIsReleased(s, step, id, i);
    }
  }

  /** An item that is live although its identity was free is revived now or was live before. */
  lemma {:induction false} RevivalStep(s: State, step: Step, id: string, i: nat)
    requires Base(s) && InFlight(Apply(s, step), id) && LiveAt(Apply(s, step), id, i) && !BeingSaved(Apply(s, step), i)
    ensures InFlight(s, id)
    ensures RevivesItem(s, step, i) || (LiveAt(s, id, i) && !BeingSaved(s, i))
  {
    var n := FlightBefore(s, step, id, i);
    NotSavedBefore(s, step, id, i);
    if !Live(s.items[i]) {
      var m := SteerRuns.StaysReleased(s, step, i);
    }
  }

  lemma {:induction false} FlightLasts(steps: seq<Step>, step: Step, id: string, k: nat)
    requires k <= |steps| && forall l :: k <= l <= |steps| ==> FlightAfter(steps[..l], id)
    requires FlightAfter(steps + [step], id)
    ensures forall l :: k <= l <= |steps| + 1 ==> FlightAfter((steps + [step])[..l], id)
  {
    var more := steps + [step];
    forall l | k <= l <= |steps| + 1
      ensures FlightAfter(more[..l], id)
    {
      assert more[..l] == if l <= |steps| then steps[..l] else more;
    }
  }

  lemma {:induction false} LiveLasts(steps: seq<Step>, step: Step, id: string, i: nat, k: nat)
    requires k <= |steps| && forall l :: k < l <= |steps| ==> LiveAfter(steps[..l], id, i)
    requires LiveAfter(steps + [step], id, i)
    ensures forall l :: k < l <= |steps| + 1 ==> LiveAfter((steps + [step])[..l], id, i)
  {
    var more := steps + [step];
    forall l | k < l <= |steps| + 1
      ensures LiveAfter(more[..l], id, i)
    {
      assert more[..l] == if l <= |steps| then steps[..l] else more;
    }
  }

  lemma {:induction false} RevivalLasts(steps: seq<Step>, step: Step, id: string, i: nat, k: nat)
    requires RevivedAt(steps, id, i, k) && FlightAfter(steps + [step], id) && LiveAfter(steps + [step], id, i)
    ensures RevivedAt(steps + [step], id, i, k)
  {
    FlightLasts(steps, step, id, k);
    LiveLasts(steps, step, id, i, k);
    assert (steps + [step])[..k] == steps[..k];
  }

  lemma {:induction false} RevivalBegins(front: seq<Step>, step: Step, steps: seq<Step>, id: string, i: nat)
    requires steps == front + [step] && RevivesItem(Run(front), step, i)
    requires FlightAfter(front, id) && FlightAfter(steps, id) && LiveAfter(steps, id, i)
    ensures RevivedAt(steps, id, i, |front|)
  {
    assert steps[..|front|] == front && steps[|front|] == step;
    forall l | |front| <= l <= |steps|
      ensures FlightAfter(steps[..l], id) && (l > |front| ==> LiveAfter(steps[..l], id, i))
    {
      assert steps[..l] == if l == |front| then front else steps;
    }
  }

  lemma {:induction false} LastRevival(steps: seq<Step>, id: string, i: nat)
    requires steps != [] && InFlight(Run(steps), id) && LiveAt(Run(steps), id, i) && !BeingSaved(Run(steps), i)
    ensures var s := Run(steps[..|steps| - 1]);
            && InFlight(s, id)
            && (RevivesItem(s, steps[|steps| - 1], i) || (LiveAt(s, id, i) && !BeingSaved(s, i)))
  {
    var s := SteerAlways.RunBase(steps[..|steps| - 1]);
    RevivalStep(s, steps[|steps| - 1], id, i);
  }

  /** An identity is live under a turn/start in flight only because an item of it was revived since the check. */
  lemma {:induction false} WasRevived(steps: seq<Step>, id: string, i: nat) returns (k: nat)
    requires InFlight(Run(steps), id) && LiveAt(Run(steps), id, i) && !BeingSaved(Run(steps), i)
    ensures RevivedAt(steps, id, i, k)
  {
    var last := |steps| - 1;
    var front, step := steps[..last], steps[last];
    assert front + [step] == steps;
    LastRevival(steps, id, i);
    if RevivesItem(Run(front), step, i) {
      k := last;
      RevivalBegins(front, step, steps, id, i);
    } else {
      k := WasRevived(front, id, i);
      RevivalLasts(front, step, id, i, k);
    }
  }

  lemma {:induction false} RevivedIsLive(steps: seq<Step>, id: string, i: nat, k: nat)
    requires RevivedAt(steps, id, i, k)
    ensures LiveAt(Run(steps), id, i)
  {
    assert steps[..|steps|] == steps;
    assert LiveAfter(steps[..|steps|], id, i);
  }

  lemma {:induction false} StartIsInFlight(s: State, step: Step)
    requires StartCreates(s, step)
    ensures InFlight(s, s.op.id) && forall i :: !BeingSaved(s, i)
  {
  }

  /** A turn/start becomes a second owner exactly when an item of its identity was revived after its check. */
  lemma {:induction false} LateIsRevival(steps: seq<Step>, step: Step)
    ensures Late(Run(steps), step) <==> AfterRevival(steps, step)
  {
    var s := Run(steps);
    if StartCreates(s, step) {
      StartIsInFlight(s, step);
      if i :| 0 <= i < |s.items| && s.items[i].id == s.op.id && Live(s.items[i]) {
        var k := WasRevived(steps, s.op.id, i);
      }
      forall i, k | RevivedAt(steps, s.op.id, i, k)
        ensures LiveAt(s, s.op.id, i)
      {
        RevivedIsLive(steps, s.op.id, i, k);
      }
    }
  }

  // ------------------------------------------------------------------ second owners

  /** A step gives a live identity a second item exactly when it converts a direct steer of that identity, or a
      turn/start of which an item was revived after its check. */
  lemma {:induction false} SecondOwnerExactly(steps: seq<Step>, step: Step)
    ensures Doubles(Run(steps), Apply(Run(steps), step)) <==> Reuses(Run(steps), step) || AfterRevival(steps, step)
  {
    SteerRuns.DoublesExactly(Run(steps), step);
    LateIsRevival(steps, step);
  }

  lemma {:induction false} ClashIs(steps: seq<Step>, step: Step)
    ensures Clashes(Run(steps), step) <==> ClashesAfter(steps, step)
  {
    LateIsRevival(steps, step);
  }

  lemma {:induction false} UniqueNext(steps: seq<Step>, k: nat)
    requires k < |steps| && Unique(Run(steps[..k]).items)
    ensures Unique(Run(steps[..k + 1]).items) <==> !ClashesAfter(steps[..k], steps[k])
  {
    assert steps[..k + 1] == steps[..k] + [steps[k]];
    RunOne(steps[..k], steps[k]);
    var s := SteerAlways.RunBase(steps[..k]);
    SteerRuns.UniqueStep(s, steps[k]);
    ClashIs(steps[..k], steps[k]);
  }

  lemma {:induction false} UniqueAt(steps: seq<Step>, k: nat)
    requires k <= |steps| && NeverClashes(steps)
    ensures Unique(Run(steps[..k]).items)
  {
    if k > 0 {
      UniqueAt(steps, k - 1);
      UniqueNext(steps, k - 1);
    }
  }

  /** Every identity has at most one live owner, its newest item, exactly when no step adds an item to a live
      identity or revives an older item. */
  lemma {:induction false} OneLiveOwnerExactly(steps: seq<Step>)
    ensures AlwaysUnique(steps) <==> NeverClashes(steps)
  {
    if AlwaysUnique(steps) {
      forall k | 0 <= k < |steps|
        ensures !ClashesAfter(steps[..k], steps[k])
      {
        assert Unique(Run(steps[..k]).items) && Unique(Run(steps[..k + 1]).items);
        UniqueNext(steps, k);
      }
    }
    if NeverClashes(steps) {
      forall k | 0 <= k <= |steps|
        ensures Unique(Run(steps[..k]).items)
      {
        UniqueAt(steps, k);
      }
    }
  }
}
