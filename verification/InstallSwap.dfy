/**
 Installing a pending update (_install in client/apps/desktop/install_update.py):
 verify, copy beside the installed app, move the installed app aside, swap, restore on
 failure. Every rename, copy and check may fail, and the process may crash between any
 two of them. One installer runs at a time (update-install.lock).
 */
module InstallSwap {
  import opened Basics

  /** An app bundle: which bytes, whether they are a complete signed app, and its readable builtAt. */
  datatype App = App(id: nat, complete: bool, builtAt: Option<nat>)

  datatype Dirs = Dirs(installed: Option<App>, previous: Option<App>, following: Option<App>)

  datatype Outcome = Obsolete | Failed | Installed

  /** verify_app against the offered build; the signer is read from the installed app. */
  predicate Verifies(app: Option<App>, installed: Option<App>, offered: nat) {
    app.Some? && installed.Some? && app.value.complete && app.value.builtAt == Some(offered)
  }

  /** read_build of the installed app is this build or a newer one. */
  predicate UpToDate(installed: Option<App>, offered: nat) {
    installed.Some? && installed.value.builtAt.Some? && installed.value.builtAt.value >= offered
  }

  // ------------------------------------------------------------------ one install

  /** What the environment does to one run: leftovers of removals, the copy, and which steps fail. */
  datatype Faults = Faults(stagedOk: bool, quitOk: bool, cleared: Option<App>, copy: Option<App>, copyOk: bool,
                           copyVerified: bool, retireOk: bool, asideOk: bool, swapOk: bool, restoreOk: bool,
                           leftover: Option<App>)

  /** What an outcome says about the directory, given the directory the run found. */
  predicate Describes(before: Dirs, offered: nat, outcome: Outcome, restored: bool, after: Dirs) {
    match outcome
    case Obsolete => UpToDate(before.installed, offered) && after == before
    case Installed =>
      && before.installed.Some? && !UpToDate(before.installed, offered)
      && after.previous == before.installed && after.following.None?
      && after.installed.Some? && after.installed.value.complete && after.installed.value.builtAt == Some(offered)
    case Failed =>
      && !UpToDate(before.installed, offered)
      && (if restored then after.installed == before.installed && (after.previous == before.previous
          || after.previous.None?)
          else before.installed.Some? && after.installed.None? && after.previous == before.installed)
  }

  class Applications {
    var installed: Option<App>
    var previous: Option<App>
    var following: Option<App>

    ghost function View(): Dirs
      reads this
    {
      Dirs(installed, previous, following)
    }

    constructor (dirs: Dirs)
      ensures View() == dirs
    {
      installed, previous, following := dirs.installed, dirs.previous, dirs.following;
    }

    /** Verify the staged app, copy it beside the installed one and verify the copy. */
    method Prepare(staged: Option<App>, offered: nat, faults: Faults, ghost start: State, ghost before: seq<Step>)
      returns (ready: bool, ghost steps: seq<Step>)
      requires Run(start, before).dirs == View() && Run(start, before).pc.Checking?
      requires Run(start, before).offered == offered
      modifies this`following
      ensures ready ==> Verifies(following, installed, offered)
      ensures Run(start, steps) == Run(start, before).(dirs := View(), pc := if ready then Retiring else Cleaning)
    {
      ready := false;
      steps := Then(start, before, CheckStaged(staged, faults.stagedOk));
      if faults.stagedOk && Verifies(staged, installed, offered) {
        following := faults.cleared;
        steps := Then(start, steps, Clear(faults.cleared, faults.quitOk));
        if faults.quitOk {
          following := faults.copy;
          steps := Then(start, steps, Copy(faults.copy, faults.copyOk));
          if faults.copyOk {
            ready := faults.copyVerified && Verifies(following, installed, offered);
            steps := Then(start, steps, CheckCopy(faults.copyVerified));
          }
        }
      }
    }

    /** Retire the previous app and move the installed one aside. */
    method MakeRoom(faults: Faults, ghost start: State, ghost before: seq<Step>)
      returns (moved: bool, ghost steps: seq<Step>)
      requires Run(start, before).dirs == View() && Run(start, before).pc.Retiring? && installed.Some?
      modifies this`installed, this`previous
      ensures if moved then previous == old(installed) && installed.None?
              else installed == old(installed) && (previous == old(previous) || previous.None?)
      ensures Run(start, steps) == Run(start, before).(dirs := View(), pc := if moved then Swapping else Cleaning)
    {
      moved := false;
      steps := Then(start, before, Retire(faults.retireOk));
      if previous.Some? {
        if !faults.retireOk {
          return false, steps;
        }
        previous := None;
      }
      steps := Then(start, steps, MoveAside(faults.asideOk));
      if faults.asideOk {
        previous, installed := installed, None;
        moved := true;
      }
    }

    /** Put the copy in service, or put the prior app back; `done` when nothing is left to clean. */
    method SwapIn(faults: Faults, ghost start: State, ghost before: seq<Step>)
      returns (outcome: Outcome, done: bool, ghost steps: seq<Step>)
      requires Run(start, before).dirs == View() && Run(start, before).pc.Swapping?
      requires installed.None? && previous.Some? && following.Some?
      modifies this
      ensures outcome.Installed? ==> done && View() == Dirs(old(following), old(previous), None)
      ensures !outcome.Installed? ==> outcome.Failed?
      ensures !outcome.Installed? && done ==> View() == old(View())
      ensures !done ==> View() == Dirs(old(previous), None, old(following))
      ensures var s, n := Run(start, before), Run(start, steps);
              && n.dirs == View() && n.pc == (if done then Ending(outcome) else Cleaning) && n.log == s.log
              && n.offered == s.offered
    {
      outcome, done := Failed, true;
      steps := Then(start, before, Swap(faults.swapOk));
      if faults.swapOk {
        installed, following := following, None;
        return Installed, true, steps;
      }
      steps := Then(start, steps, Restore(faults.restoreOk));
      if faults.restoreOk {
        installed, previous := previous, None;
        done := false;
      }
    }

    /**
     One install without a crash. `restored` is false only when the prior app was left at
     the previous path. `steps` are the steps of the crash model that it takes from `start`.
     */
    method Install(staged: Option<App>, offered: nat, faults: Faults, ghost start: State)
      returns (outcome: Outcome, restored: bool, ghost steps: seq<Step>)
      requires start.dirs == View() && start.pc.Idle?
      modifies this
      ensures Describes(old(View()), offered, outcome, restored, View())
      ensures Run(start, steps).dirs == View() && Run(start, steps).pc.Idle?
      ensures Run(start, steps).log == start.log + [(outcome, offered)]
    {
      steps := Then(start, [], Begin(offered));
      if UpToDate(installed, offered) {
        steps := Then(start, steps, Finish);
        return Obsolete, true, steps;
      }
      var ready, moved := false, false;
      ready, steps := Prepare(staged, offered, faults, start, steps);
      if ready {
        moved, steps := MakeRoom(faults, start, steps);
      }
      if moved {
        var done;
        outcome, done, steps := SwapIn(faults, start, steps);
        if done {
          steps := Then(start, steps, Finish);
          return outcome, outcome.Installed?, steps;
        }
      }
      following := faults.leftover;
      steps := Then(start, steps, Clean(faults.leftover));
      steps := Then(start, steps, Finish);
      return Failed, true, steps;
    }
  }

  /** One more step of a run. */
  ghost function Then(start: State, steps: seq<Step>, step: Step): (r: seq<Step>)
    ensures r == steps + [step] && Run(start, r) == Apply(Run(start, steps), step)
  {
    assert (steps + [step])[..|steps|] == steps;
    steps + [step]
  }

  // ------------------------------------------------------------------ runs with crashes

  datatype Pc = Idle | Checking | Clearing | Copying | CheckingCopy | Retiring | MovingAside | Swapping | Restoring
              | Cleaning | Ending(outcome: Outcome)

  /** `live` is the app last put in service and `swaps` the builds installed, both history only. */
  datatype State = State(dirs: Dirs, pc: Pc, offered: nat, live: App, swaps: seq<nat>, log: seq<(Outcome, nat)>)

  datatype Step =
    | Begin(offered: nat)
    | CheckStaged(staged: Option<App>, ok: bool)
    | Clear(left: Option<App>, ok: bool)
    | Copy(app: Option<App>, ok: bool)
    | CheckCopy(ok: bool)
    | Retire(ok: bool)
    | MoveAside(ok: bool)
    | Swap(ok: bool)
    | Restore(ok: bool)
    | Clean(left: Option<App>)
    | Finish
    | Crash

  function Start(live: App, previous: Option<App>, following: Option<App>): State {
    State(Dirs(Some(live), previous, following), Idle, 0, live, [], [])
  }

  function Go(s: State, dirs: Dirs, pc: Pc): State {
    s.(dirs := dirs, pc := pc)
  }

  function ApplySwap(s: State, ok: bool): State
    requires s.pc.Swapping?
  {
    var d := s.dirs;
    if !ok || d.following.None? || d.installed.Some? then s.(pc := Restoring)
    else
      Go(s, d.(installed := d.following, following := None), Ending(Installed))
      .(live := d.following.value, swaps := s.swaps + [s.offered])
  }

  function Apply(s: State, step: Step): State {
    var d := s.dirs;
    match step
    case Begin(offered) =>
      if !s.pc.Idle? then s
      else s.(offered := offered, pc := if UpToDate(d.installed, offered) then Ending(Obsolete) else Checking)
    case CheckStaged(staged, ok) =>
      if s.pc.Checking? then s.(pc := if ok && Verifies(staged, d.installed, s.offered) then Clearing else Cleaning)
      else s
    case Clear(left, ok) => if s.pc.Clearing? then Go(s, d.(following := left), if ok then Copying else Cleaning) else s
    case Copy(app, ok) =>
      if s.pc.Copying? then Go(s, d.(following := app), if ok then CheckingCopy else Cleaning) else s
    case CheckCopy(ok) =>
      if s.pc.CheckingCopy?
      then s.(pc := if ok && Verifies(d.following, d.installed, s.offered) then Retiring else Cleaning) else s
    case Retire(ok) =>
      if !s.pc.Retiring? then s
      else if d.previous.None? then s.(pc := MovingAside)
      else if ok then Go(s, d.(previous := None), MovingAside)
      else s.(pc := Cleaning)
    case MoveAside(ok) =>
      if !s.pc.MovingAside? then s
      else if ok && d.installed.Some? && d.previous.None?
      then Go(s, d.(previous := d.installed, installed := None), Swapping)
      else s.(pc := Cleaning)
    case Swap(ok) => if s.pc.Swapping? then ApplySwap(s, ok) else s
    case Restore(ok) =>
      if !s.pc.Restoring? then s
      else if ok && d.previous.Some? && d.installed.None?
      then Go(s, d.(installed := d.previous, previous := None), Cleaning)
      else s.(pc := Ending(Failed))
    case Clean(left) => if s.pc.Cleaning? then Go(s, d.(following := left), Ending(Failed)) else s
    case Finish => if s.pc.Ending? then s.(pc := Idle, log := s.log + [(s.pc.outcome, s.offered)]) else s
    case Crash => s.(pc := Idle)
  }

  function Run(start: State, steps: seq<Step>): State {
    if steps == [] then start else Apply(Run(start, steps[..|steps| - 1]), steps[|steps| - 1])
  }

  /** The app in service is at the installed path or, while that is empty, at the previous one. */
  predicate Survives(s: State) {
    s.dirs.installed == Some(s.live) || (s.dirs.installed.None? && s.dirs.previous == Some(s.live))
  }

  predicate Placed(s: State) {
    && (s.pc.Clearing? || s.pc.Copying? || s.pc.CheckingCopy? || s.pc.Retiring? || s.pc.MovingAside? ==>
          s.dirs.installed == Some(s.live) && !UpToDate(s.dirs.installed, s.offered))
    && (s.pc.Checking? ==> !UpToDate(s.dirs.installed, s.offered))
    && (s.pc.Retiring? || s.pc.MovingAside? || s.pc.Swapping? ==>
          s.dirs.following.Some? && s.dirs.following.value.complete
          && s.dirs.following.value.builtAt == Some(s.offered))
    && (s.pc.Swapping? || s.pc.Restoring? ==>
          s.dirs.installed.None? && s.dirs.previous == Some(s.live) && !UpToDate(Some(s.live), s.offered))
    && (s.pc == Ending(Installed) ==> s.dirs.installed == Some(s.live) && s.live.complete
                                      && s.live.builtAt == Some(s.offered))
  }

  predicate Rising(builds: seq<nat>) {
    forall i, j :: 0 <= i < j < |builds| ==> builds[i] < builds[j]
  }

  /** Builds put in service rise, and the one in service is the last of them. */
  predicate Newest(s: State) {
    && Rising(s.swaps)
    && (s.swaps != [] ==> s.live.complete && s.live.builtAt == Some(s.swaps[|s.swaps| - 1]))
  }

  /** The builds of the installed outcomes, oldest first. */
  function Reported(log: seq<(Outcome, nat)>): seq<nat> {
    if log == [] then []
    else Reported(log[..|log| - 1]) + if log[|log| - 1].0.Installed? then [log[|log| - 1].1] else []
  }

  /** Each reported install was a swap, reported once: all of them except perhaps those lost in a crash. */
  predicate Honest(s: State) {
    && Rising(Reported(s.log))
    && (forall b <- Reported(s.log) :: b in s.swaps)
    && (s.pc == Ending(Installed) ==> s.swaps != [] && s.swaps[|s.swaps| - 1] == s.offered
                                      && s.offered !in Reported(s.log))
  }
}

/** No failure and no crash loses the app in service, and installs only move forward. */
module InstallSwapTheorems {
  import opened Basics
  import opened InstallSwap

  lemma {:induction false} StepSurvives(s: State, step: Step)
    requires Survives(s) && Placed(s)
    ensures Survives(Apply(s, step))
  {
  }

  lemma {:induction false} StepPlaced(s: State, step: Step)
    requires Survives(s) && Placed(s)
    ensures Placed(Apply(s, step))
  {
  }

  lemma {:induction false} StepNewest(s: State, step: Step)
    requires Placed(s) && Newest(s)
    ensures Newest(Apply(s, step))
  {
  }

  lemma {:induction false} ReportedSnoc(log: seq<(Outcome, nat)>, entry: (Outcome, nat))
    ensures Reported(log + [entry]) == Reported(log) + if entry.0.Installed? then [entry.1] else []
  {
    assert (log + [entry])[..|log|] == log;
  }

  lemma {:induction false} StepHonest(s: State, step: Step)
    requires Placed(s) && Newest(s) && Honest(s)
    ensures Honest(Apply(s, step))
  {
    if step.Finish? && s.pc.Ending? {
      FinishHonest(s);
    }
  }

  lemma {:induction false} FinishHonest(s: State)
    requires Newest(s) && Honest(s) && s.pc.Ending?
    ensures Honest(Apply(s, Finish))
  {
    ReportedSnoc(s.log, (s.pc.outcome, s.offered));
    if s.pc.outcome.Installed? {
      RisingSnoc(Reported(s.log), s.swaps);
    }
  }

  /** Builds taken from a rising list, all but its last, stay rising with the last one after them. */
  lemma {:induction false} RisingSnoc(builds: seq<nat>, all: seq<nat>)
    requires Rising(builds) && Rising(all) && all != [] && (forall b <- builds :: b in all)
    requires all[|all| - 1] !in builds
    ensures Rising(builds + [all[|all| - 1]])
  {
    forall i | 0 <= i < |builds|
      ensures builds[i] < all[|all| - 1]
    {
      assert builds[i] in builds;
      var k :| 0 <= k < |all| && all[k] == builds[i];
    }
  }

  lemma {:induction false} RunKeeps(live: App, previous: Option<App>, following: Option<App>, steps: seq<Step>)
    ensures var s := Run(Start(live, previous, following), steps);
            Survives(s) && Placed(s) && Newest(s) && Honest(s)
  {
    if steps != [] {
      var front, last := steps[..|steps| - 1], steps[|steps| - 1];
      RunKeeps(live, previous, following, front);
      var s := Run(Start(live, previous, following), front);
      StepSurvives(s, last);
      StepPlaced(s, last);
      StepNewest(s, last);
      StepHonest(s, last);
    }
  }

  /** Whatever fails and wherever runs crash, the app in service is at the installed or the previous path. */
  lemma {:induction false} AppAlwaysSurvives(live: App, previous: Option<App>, following: Option<App>, steps: seq<Step>)
    ensures var s := Run(Start(live, previous, following), steps);
            s.dirs.installed == Some(s.live) || (s.dirs.installed.None? && s.dirs.previous == Some(s.live))
  {
    RunKeeps(live, previous, following, steps);
  }

  /** The app in service is replaced only by a verified newer one, and is then kept as the previous app. */
  lemma {:induction false} OnlyVerifiedAppsReplace(live: App, previous: Option<App>, following: Option<App>,
                                                   steps: seq<Step>, step: Step)
    requires Apply(Run(Start(live, previous, following), steps), step).live
             != Run(Start(live, previous, following), steps).live
    ensures var s := Run(Start(live, previous, following), steps);
            var n := Apply(s, step);
            && n.dirs.installed == Some(n.live) && n.dirs.previous == Some(s.live)
            && n.live.complete && n.live.builtAt == Some(s.offered)
            && (s.live.builtAt.Some? ==> s.live.builtAt.value < s.offered)
  {
    RunKeeps(live, previous, following, steps);
  }

  /** Successive installed outcomes name strictly increasing builds. */
  lemma {:induction false} InstallsOnlyRise(live: App, previous: Option<App>, following: Option<App>, steps: seq<Step>)
    ensures Rising(Reported(Run(Start(live, previous, following), steps).log))
  {
    RunKeeps(live, previous, following, steps);
  }
}
