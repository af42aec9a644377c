/**
 The recovery owner's startup-delivery tick (startup_delivery_tick in
 client/apps/desktop/recover_backend.py) for one delivery that pinned a backend by PID
 and kernel birth.

 Each owner step is one observation, one durable journal write or one signal, and a
 crash may fall between any two. The world ends processes and reuses the PID, the
 receipt changes, and the publisher (deliver_server.py) saves its own copy of the
 journal without the owner's locks. `log` is the owner's history. A birth names one
 process: the kernel never assigns it again.
 */
module StartupRecovery {
  import opened Basics

  /** startupRecovery of the durable journal. */
  datatype Phase = Unset | StopRequested | StopSent | Stopped

  datatype Event = SawBirth(birth: Option<nat>) | Saved(phase: Phase) | Killed | Started(installed: bool)

  /** Where the tick is; `local` is the phase it read when it began. */
  datatype Pc =
    | Idle
    | Loaded(local: Phase)
    | Receipted(local: Phase)
    | Gone
    | Replacing
    | Releasing
    | ObservedEnd
    | Finishing
    | PinnedAlive
    | Verified
    | Requested
    | Confirmed
    | Signalled

  datatype State = State(pinned: nat, journal: Phase, birth: Option<nat>, receipt: bool, pc: Pc,
                         copy: Phase, resets: nat, log: seq<Event>)

  datatype Step =
    | TickBegins(locked: bool)
    | ReceiptRead(bundleOk: bool, abandoned: bool)
    | StoppedSeen(handlesOk: bool)
    | BirthRead
    | ListenerRead(listening: bool)
    | ReplacementRead(ready: bool)
    | ReleaseRead(free: bool)
    | SaveStopped
    | StartAllowed
    | BackendVerified(ok: bool)
    | SaveRequested
    | Recheck
    | Kill
    | SaveSent
    | Crash
    | ProcessEnds
    | PidReused(birth: nat)
    | ReceiptChanges(installed: bool)
    | PublisherReads
    | PublisherSaves

  function Begin(pinned: nat): State {
    State(pinned, Unset, Some(pinned), false, Idle, Unset, 0, [])
  }

  function Note(s: State, event: Event): State {
    s.(log := s.log + [event])
  }

  /** Read the birth of the pinned PID: go on to `next` when it is `wanted`, else give up the tick. */
  function Look(s: State, wanted: Option<nat>, next: Pc): State {
    Note(s, SawBirth(s.birth)).(pc := if s.birth == wanted then next else Idle)
  }

  function Save(s: State, phase: Phase, next: Pc): State {
    Note(s, Saved(phase)).(journal := phase, pc := next)
  }

  function ApplyReceiptRead(s: State, bundleOk: bool, abandoned: bool): State
    requires s.pc.Loaded?
  {
    if s.receipt then s.(pc := if bundleOk then Receipted(s.pc.local) else Idle)
    else if abandoned then Note(s, Started(false)).(pc := Idle)
    else s.(pc := Idle)
  }

  function ApplyBirthRead(s: State): State
    requires s.pc.Receipted?
  {
    Note(s, SawBirth(s.birth)).(pc :=
      if s.birth.None? then Gone
      else if s.birth == Some(s.pinned) && s.pc.local.Unset? then PinnedAlive
      else Idle)
  }

  function Owner(s: State, step: Step): State {
    match step
    case TickBegins(locked) => if s.pc.Idle? && locked then s.(pc := Loaded(s.journal)) else s
    case ReceiptRead(bundleOk, abandoned) => if s.pc.Loaded? then ApplyReceiptRead(s, bundleOk, abandoned) else s
    case StoppedSeen(handlesOk) =>
      if s.pc == Receipted(Stopped)
      then if handlesOk then Note(s, Started(true)).(pc := Idle) else s.(pc := Idle)
      else s
    case BirthRead => if s.pc.Receipted? && !s.pc.local.Stopped? then ApplyBirthRead(s) else s
    case ListenerRead(listening) => if s.pc.Gone? then s.(pc := if listening then Replacing else Releasing) else s
    case ReplacementRead(ready) =>
      if s.pc.Replacing? then if ready then Look(s, None, ObservedEnd) else s.(pc := Idle) else s
    case ReleaseRead(free) =>
      if s.pc.Releasing? then if free then Look(s, None, ObservedEnd) else s.(pc := Idle) else s
    case SaveStopped => if s.pc.ObservedEnd? then Save(s, Stopped, Finishing) else s
    case StartAllowed => if s.pc.Finishing? then Note(s, Started(true)).(pc := Idle) else s
    case BackendVerified(ok) =>
      if s.pc.PinnedAlive? then if ok then Look(s, Some(s.pinned), Verified) else s.(pc := Idle) else s
    case SaveRequested => if s.pc.Verified? then Save(s, StopRequested, Requested) else s
    case Recheck => if s.pc.Requested? then Look(s, Some(s.pinned), Confirmed) else s
    case Kill => if s.pc.Confirmed? then Note(s, Killed).(pc := Signalled) else s
    case SaveSent => if s.pc.Signalled? then Save(s, StopSent, Idle) else s
    case _ => s.(pc := Idle)
  }

  predicate WorldStep(step: Step) {
    step.ProcessEnds? || step.PidReused? || step.ReceiptChanges? || step.PublisherReads? || step.PublisherSaves?
  }

  function World(s: State, step: Step): State
    requires WorldStep(step)
  {
    match step
    case ProcessEnds => s.(birth := None)
    case PidReused(b) => if s.birth.None? && b != s.pinned then s.(birth := Some(b)) else s
    case ReceiptChanges(installed) => s.(receipt := installed)
    case PublisherReads => s.(copy := s.journal)
    case PublisherSaves =>
      s.(journal := s.copy, resets := s.resets + if s.copy.Unset? && !s.journal.Unset? then 1 else 0)
  }

  function Apply(s: State, step: Step): State {
    if WorldStep(step) then World(s, step) else Owner(s, step)
  }

  function Run(pinned: nat, steps: seq<Step>): State {
    if steps == [] then Begin(pinned) else Apply(Run(pinned, steps[..|steps| - 1]), steps[|steps| - 1])
  }

  function Signals(log: seq<Event>): nat {
    if log == [] then 0 else Signals(log[..|log| - 1]) + if log[|log| - 1].Killed? then 1 else 0
  }

  // ------------------------------------------------------------------ the signal budget

  /** The signal that a tick on its way to signalling may still send. */
  function Aimed(pc: Pc): nat {
    if pc.Requested? || pc.Confirmed? then 1 else 0
  }

  /** The signal that may follow from an unset phase, durable or held by the tick. */
  function Loose(s: State): nat {
    if s.journal.Unset? || s.pc.Verified? || s.pc.PinnedAlive? || s.pc == Loaded(Unset) || s.pc == Receipted(Unset)
    then 1 else 0
  }

  predicate NoSaves(steps: seq<Step>) {
    PublisherSaves !in steps
  }

  predicate Pinned(s: State) {
    s.birth == Some(s.pinned)
  }

  /** How many signals can still follow when the publisher saves no more. */
  function MostSignals(s: State): nat {
    (if s.pc.Confirmed? || (s.pc.Requested? && Pinned(s)) then 1 else 0) + (if Pinned(s) then Loose(s) else 0)
  }

  /** The step that brings the owner closer to its next signal. */
  function Onward(s: State): Step {
    match s.pc
    case Confirmed => Kill
    case Requested => Recheck
    case Verified => SaveRequested
    case PinnedAlive => BackendVerified(true)
    case Receipted(Unset) => BirthRead
    case Loaded(Unset) => if s.receipt then ReceiptRead(true, false) else ReceiptChanges(true)
    case Idle => TickBegins(true)
    case _ => Crash
  }

  function Distance(s: State): nat {
    match s.pc
    case Confirmed => 0
    case Requested => 1
    case Verified => 2
    case PinnedAlive => 3
    case Receipted(Unset) => 4
    case Loaded(Unset) => if s.receipt then 5 else 6
    case Idle => 7
    case _ => 8
  }

  /** The step spends no more than its signal, and comes closer to the next one. */
  predicate Advances(s: State, n: State) {
    && n.pinned == s.pinned && n.birth == s.birth && n.copy == s.copy && n.resets == s.resets
    && Signals(n.log) + MostSignals(n) == Signals(s.log) + MostSignals(s)
    && (MostSignals(n) < MostSignals(s) || (MostSignals(n) == MostSignals(s) && Distance(n) < Distance(s)))
  }

  predicate Bounded(s: State) {
    Signals(s.log) + Aimed(s.pc) + Loose(s) <= 1 + s.resets
  }

  // ------------------------------------------------------------------ the owner's history

  /** Every signal directly follows a look that found the pinned birth. */
  predicate SignalsConfirmed(pinned: nat, log: seq<Event>) {
    forall k :: 0 <= k < |log| && log[k].Killed? ==> k > 0 && log[k - 1] == SawBirth(Some(pinned))
  }

  /** Every recorded end directly follows a look that found no process. */
  predicate StopsObserved(log: seq<Event>) {
    forall k :: 0 <= k < |log| && log[k] == Saved(Stopped) ==> k > 0 && log[k - 1] == SawBirth(None)
  }

  /** Every ordinary start of an installed delivery follows a recorded end. */
  predicate StartsStopped(log: seq<Event>) {
    forall k :: 0 <= k < |log| && log[k] == Started(true) ==> Saved(Stopped) in log[..k]
  }

  predicate Traced(pinned: nat, log: seq<Event>) {
    SignalsConfirmed(pinned, log) && StopsObserved(log) && StartsStopped(log)
  }

  predicate LastIs(log: seq<Event>, event: Event) {
    log != [] && log[|log| - 1] == event
  }

  /** The tick, the journal or the publisher's copy says that the backend stopped. */
  predicate SaysStopped(s: State) {
    s.journal.Stopped? || s.copy.Stopped? || s.pc == Loaded(Stopped) || s.pc == Receipted(Stopped) || s.pc.Finishing?
  }

  predicate SawEnd(pc: Pc) {
    pc.Gone? || pc.Replacing? || pc.Releasing? || pc.ObservedEnd?
  }

  predicate Placed(s: State) {
    && (s.pc.Confirmed? ==> LastIs(s.log, SawBirth(Some(s.pinned))))
    && (s.pc.ObservedEnd? ==> LastIs(s.log, SawBirth(None)))
    && (SaysStopped(s) ==> Saved(Stopped) in s.log)
    && (Saved(Stopped) in s.log || SawEnd(s.pc) ==> s.birth != Some(s.pinned))
  }
}

/** Safety of the startup recovery over every run. */
module StartupRecoveryTheorems {
  import opened Basics
  import opened StartupRecovery

  // ------------------------------------------------------------------ signals are bounded

  lemma {:induction false} SignalsNote(log: seq<Event>, event: Event)
    ensures Signals(log + [event]) == Signals(log) + if event.Killed? then 1 else 0
  {
    assert (log + [event])[..|log|] == log;
  }

  /** Noting anything but a signal needs no more budget than its new place does. */
  lemma {:induction false} NoteBounded(s: State, event: Event, n: State)
    requires Bounded(s) && !event.Killed? && n.log == s.log + [event] && n.resets == s.resets
    requires Aimed(n.pc) + Loose(n) <= Aimed(s.pc) + Loose(s)
    ensures Bounded(n)
  {
    SignalsNote(s.log, event);
  }

  lemma {:induction false} LookBounded(s: State, wanted: Option<nat>, next: Pc)
    requires Bounded(s) && Aimed(next) <= Aimed(s.pc) && (next.Verified? ==> s.pc.PinnedAlive?)
    requires next.Verified? || next.Confirmed? || next.ObservedEnd?
    ensures Bounded(Look(s, wanted, next))
  {
    NoteBounded(s, SawBirth(s.birth), Look(s, wanted, next));
  }

  lemma {:induction false} BirthReadBounded(s: State)
    requires Bounded(s)
    ensures Bounded(Owner(s, BirthRead))
  {
    if s.pc.Receipted? && !s.pc.local.Stopped? {
      NoteBounded(s, SawBirth(s.birth), ApplyBirthRead(s));
    }
  }

  lemma {:induction false} EndLooks(s: State, step: Step)
    requires Bounded(s) && (step.ReplacementRead? || step.ReleaseRead?)
    ensures Bounded(Owner(s, step))
  {
    if Owner(s, step) == Look(s, None, ObservedEnd) {
      LookBounded(s, None, ObservedEnd);
    }
  }

  lemma {:induction false} PinLooks(s: State, step: Step)
    requires Bounded(s) && (step.BackendVerified? || step.Recheck?)
    ensures Bounded(Owner(s, step))
  {
    if s.pc.PinnedAlive? {
      LookBounded(s, Some(s.pinned), Verified);
    } else if s.pc.Requested? {
      LookBounded(s, Some(s.pinned), Confirmed);
    }
  }

  lemma {:induction false} OwnerSaves(s: State, step: Step)
    requires Bounded(s) && (step.SaveStopped? || step.SaveRequested? || step.SaveSent? || step.StartAllowed?)
    ensures Bounded(Owner(s, step))
  {
    if Owner(s, step) != s {
      match step
      case SaveStopped => NoteBounded(s, Saved(Stopped), Save(s, Stopped, Finishing));
      case SaveRequested => NoteBounded(s, Saved(StopRequested), Save(s, StopRequested, Requested));
      case SaveSent => NoteBounded(s, Saved(StopSent), Save(s, StopSent, Idle));
      case StartAllowed => NoteBounded(s, Started(true), Owner(s, step));
    }
  }

  lemma {:induction false} OwnerWaits(s: State, step: Step)
    requires Bounded(s) && (step.TickBegins? || step.ReceiptRead? || step.StoppedSeen? || step.ListenerRead?)
    ensures Bounded(Owner(s, step))
  {
    SignalsNote(s.log, Started(true));
    SignalsNote(s.log, Started(false));
  }

  lemma {:induction false} OwnerBounded(s: State, step: Step)
    requires Bounded(s) && !WorldStep(step)
    ensures Bounded(Owner(s, step))
  {
    if step.BirthRead? {
      BirthReadBounded(s);
    } else if step.ReplacementRead? || step.ReleaseRead? {
      EndLooks(s, step);
    } else if step.BackendVerified? || step.Recheck? {
      PinLooks(s, step);
    } else if step.SaveStopped? || step.SaveRequested? || step.SaveSent? || step.StartAllowed? {
      OwnerSaves(s, step);
    } else if step.Kill? {
      SignalsNote(s.log, Killed);
    } else if step.TickBegins? || step.ReceiptRead? || step.StoppedSeen? || step.ListenerRead? {
      OwnerWaits(s, step);
    }
  }

  lemma {:induction false} RunBounded(pinned: nat, steps: seq<Step>)
    ensures Bounded(Run(pinned, steps))
  {
    if steps != [] {
      var s := Run(pinned, steps[..|steps| - 1]);
      RunBounded(pinned, steps[..|steps| - 1]);
      if !WorldStep(steps[|steps| - 1]) {
        OwnerBounded(s, steps[|steps| - 1]);
      }
    }
  }

  /**
   Over any number of ticks and crashes, one delivery sends at most one SIGTERM more
   than the times the publisher's save erased a recorded stop.
   */
  lemma {:induction false} SignalsAreBounded(pinned: nat, steps: seq<Step>)
    ensures Signals(Run(pinned, steps).log) <= 1 + Run(pinned, steps).resets
    ensures Run(pinned, steps).resets == 0 ==> Signals(Run(pinned, steps).log) <= 1
  {
    RunBounded(pinned, steps);
  }

  // ------------------------------------------------------------------ runs of several steps

  function RunFrom(s: State, steps: seq<Step>): State
    decreases |steps|
  {
    if steps == [] then s else RunFrom(Apply(s, steps[0]), steps[1..])
  }

  lemma {:induction false} RunAppends(pinned: nat, a: seq<Step>, b: seq<Step>)
    ensures Run(pinned, a + b) == RunFrom(Run(pinned, a), b)
    decreases |b|
  {
    if b == [] {
      assert a + b == a;
    } else {
      assert a + b == (a + [b[0]]) + b[1..];
      assert (a + [b[0]])[..|a|] == a;
      RunAppends(pinned, a + [b[0]], b[1..]);
    }
  }

  // ------------------------------------------------------------------ without further saves

  lemma {:induction false} WorldSpends(s: State, step: Step)
    requires WorldStep(step) && !step.PublisherSaves?
    ensures var n := World(s, step); Signals(n.log) + MostSignals(n) <= Signals(s.log) + MostSignals(s)
  {
  }

  lemma {:induction false} NoteSpends(s: State, event: Event, n: State)
    requires n.log == s.log + [event] && MostSignals(n) + (if event.Killed? then 1 else 0) <= MostSignals(s)
    ensures Signals(n.log) + MostSignals(n) <= Signals(s.log) + MostSignals(s)
  {
    SignalsNote(s.log, event);
  }

  lemma {:induction false} BirthSpends(s: State)
    ensures var n := Owner(s, BirthRead); Signals(n.log) + MostSignals(n) <= Signals(s.log) + MostSignals(s)
  {
    if s.pc.Receipted? && !s.pc.local.Stopped? {
      NoteSpends(s, SawBirth(s.birth), ApplyBirthRead(s));
    }
  }

  lemma {:induction false} LookSpends(s: State, step: Step)
    requires step.ReplacementRead? || step.ReleaseRead? || step.BackendVerified? || step.Recheck?
    ensures var n := Owner(s, step); Signals(n.log) + MostSignals(n) <= Signals(s.log) + MostSignals(s)
  {
    if |Owner(s, step).log| > |s.log| {
      NoteSpends(s, SawBirth(s.birth), Owner(s, step));
    }
  }

  lemma {:induction false} SaveSpends(s: State, step: Step)
    requires step.SaveStopped? || step.SaveRequested? || step.SaveSent? || step.StartAllowed? || step.Kill?
    ensures var n := Owner(s, step); Signals(n.log) + MostSignals(n) <= Signals(s.log) + MostSignals(s)
  {
    var n := Owner(s, step);
    if |n.log| > |s.log| {
      NoteSpends(s, n.log[|s.log|], n);
    }
  }

  lemma {:induction false} WaitSpends(s: State, step: Step)
    requires step.TickBegins? || step.ReceiptRead? || step.StoppedSeen? || step.ListenerRead? || step.Crash?
    ensures var n := Owner(s, step); Signals(n.log) + MostSignals(n) <= Signals(s.log) + MostSignals(s)
  {
    var n := Owner(s, step);
    if |n.log| > |s.log| {
      NoteSpends(s, n.log[|s.log|], n);
    }
  }

  lemma {:induction false} StepSpends(s: State, step: Step)
    requires !step.PublisherSaves?
    ensures var n := Apply(s, step); Signals(n.log) + MostSignals(n) <= Signals(s.log) + MostSignals(s)
  {
    if WorldStep(step) {
      WorldSpends(s, step);
    } else if step.BirthRead? {
      BirthSpends(s);
    } else if step.ReplacementRead? || step.ReleaseRead? || step.BackendVerified? || step.Recheck? {
      LookSpends(s, step);
    } else if step.SaveStopped? || step.SaveRequested? || step.SaveSent? || step.StartAllowed? || step.Kill? {
      SaveSpends(s, step);
    } else {
      WaitSpends(s, step);
    }
  }

  lemma {:induction false} RunSpends(s: State, rest: seq<Step>)
    requires NoSaves(rest)
    ensures var n := RunFrom(s, rest); Signals(n.log) + MostSignals(n) <= Signals(s.log) + MostSignals(s)
    decreases |rest|
  {
    if rest != [] {
      StepSpends(s, rest[0]);
      RunSpends(Apply(s, rest[0]), rest[1..]);
    }
  }

  /** A signal more after one step is a signal more. */
  lemma {:induction false} Prepend(s: State, step: Step, rest: seq<Step>)
    requires NoSaves(rest) && !step.PublisherSaves?
    ensures NoSaves([step] + rest) && RunFrom(s, [step] + rest) == RunFrom(Apply(s, step), rest)
  {
    assert ([step] + rest)[1..] == rest;
  }

  lemma {:induction false} WaitAdvances(s: State)
    requires MostSignals(s) > 0 && !s.pc.Receipted? && !s.pc.PinnedAlive? && !s.pc.Requested? && !s.pc.Verified?
    requires !s.pc.Confirmed?
    ensures Advances(s, Apply(s, Onward(s)))
  {
  }

  /** Noting an event and moving on, when the new place is one step closer. */
  lemma {:induction false} NoteAdvances(s: State, event: Event, n: State)
    requires n == Note(s, event).(pc := n.pc, journal := n.journal)
    requires MostSignals(n) + (if event.Killed? then 1 else 0) == MostSignals(s)
    requires event.Killed? || Distance(n) < Distance(s)
    ensures Advances(s, n)
  {
    SignalsNote(s.log, event);
  }

  lemma {:induction false} LookAdvances(s: State)
    requires MostSignals(s) > 0 && (s.pc == Receipted(Unset) || s.pc.PinnedAlive? || s.pc.Requested?)
    ensures Advances(s, Apply(s, Onward(s)))
  {
    var next := if s.pc.Receipted? then PinnedAlive else if s.pc.PinnedAlive? then Verified else Confirmed;
    var n := Note(s, SawBirth(s.birth)).(pc := next);
    assert Apply(s, Onward(s)) == n;
    NoteAdvances(s, SawBirth(s.birth), n);
  }

  lemma {:induction false} RequestAdvances(s: State)
    requires MostSignals(s) > 0 && s.pc.Verified?
    ensures Advances(s, Apply(s, Onward(s)))
  {
    var n := Save(s, StopRequested, Requested);
    assert Apply(s, Onward(s)) == n;
    assert Pinned(s) && MostSignals(n) == 1 && MostSignals(s) == 1;
    NoteAdvances(s, Saved(StopRequested), n);
  }

  lemma {:induction false} KillAdvances(s: State)
    requires s.pc.Confirmed?
    ensures Advances(s, Apply(s, Onward(s)))
  {
    NoteAdvances(s, Killed, Note(s, Killed).(pc := Signalled));
  }

  lemma {:induction false} OnwardAdvances(s: State)
    requires MostSignals(s) > 0
    ensures Advances(s, Apply(s, Onward(s)))
  {
    if s.pc == Receipted(Unset) || s.pc.PinnedAlive? || s.pc.Requested? {
      LookAdvances(s);
    } else if s.pc.Verified? {
      RequestAdvances(s);
    } else if s.pc.Confirmed? {
      KillAdvances(s);
    } else if !s.pc.Receipted? {
      WaitAdvances(s);
    }
  }

  lemma {:induction false} StateSignals(s: State) returns (rest: seq<Step>, n: State)
    ensures NoSaves(rest) && n == RunFrom(s, rest)
    ensures Signals(n.log) == Signals(s.log) + MostSignals(s) && MostSignals(n) == 0
    ensures n.pinned == s.pinned && n.birth == s.birth && n.copy == s.copy && n.resets == s.resets
    decreases MostSignals(s), Distance(s)
  {
    rest, n := [], s;
    if MostSignals(s) > 0 {
      OnwardAdvances(s);
      rest, n := StateSignals(Apply(s, Onward(s)));
      Prepend(s, Onward(s), rest);
      rest := [Onward(s)] + rest;
    }
  }

  /** Without further publisher saves, no more signals follow than the state of the tick and journal allow. */
  lemma {:induction false} SignalsWithoutSaves(pinned: nat, before: seq<Step>, rest: seq<Step>)
    requires NoSaves(rest)
    ensures var s := Run(pinned, before);
            Signals(Run(pinned, before + rest).log) <= Signals(s.log) + MostSignals(s)
  {
    RunAppends(pinned, before, rest);
    RunSpends(Run(pinned, before), rest);
  }

  /** That many do follow in some run. */
  lemma {:induction false} SignalsAreReached(pinned: nat, before: seq<Step>) returns (rest: seq<Step>)
    ensures NoSaves(rest)
    ensures var s := Run(pinned, before);
            Signals(Run(pinned, before + rest).log) == Signals(s.log) + MostSignals(s)
  {
    var n: State;
    rest, n := StateSignals(Run(pinned, before));
    RunAppends(pinned, before, rest);
  }

  /** The publisher's late save lets a second tick signal the same, still ending process. */
  lemma {:induction false} LateSaveSignalsTwice(pinned: nat) returns (steps: seq<Step>)
    ensures Signals(Run(pinned, steps).log) == 2 && Run(pinned, steps).resets == 1
  {
    var first, s := StateSignals(Begin(pinned));
    RunAppends(pinned, [], first);
    assert [] + first == first && (first + [PublisherSaves])[..|first|] == first;
    var late := Run(pinned, first + [PublisherSaves]);
    assert late == World(s, PublisherSaves);
    var second, n := StateSignals(late);
    RunAppends(pinned, first + [PublisherSaves], second);
    steps := first + [PublisherSaves] + second;
  }

  /** A publisher whose last save falls between ticks, before any signal, leaves room for one signal. */
  lemma {:induction false} EarlySaveSignalsOnce(pinned: nat, before: seq<Step>, rest: seq<Step>)
    requires Run(pinned, before).pc.Idle? && Signals(Run(pinned, before).log) == 0 && NoSaves(rest)
    ensures Signals(Run(pinned, before + rest).log) <= 1
  {
    SignalsWithoutSaves(pinned, before, rest);
  }

  // ------------------------------------------------------------------ what the log proves

  /** The owner notes an event that its place allows. */
  predicate MayNote(s: State, event: Event) {
    && (event.Killed? ==> s.pc.Confirmed?)
    && (event == Saved(Stopped) ==> s.pc.ObservedEnd?)
    && (event == Started(true) ==> SaysStopped(s))
  }

  lemma {:induction false} StartsTraced(log: seq<Event>, event: Event)
    requires StartsStopped(log) && (event == Started(true) ==> Saved(Stopped) in log)
    ensures StartsStopped(log + [event])
  {
    var longer := log + [event];
    forall k | 0 <= k < |longer| && longer[k] == Started(true)
      ensures Saved(Stopped) in longer[..k]
    {
      assert longer[..k] == log[..k];
      assert log[..|log|] == log;
    }
  }

  lemma {:induction false} NoteTraced(s: State, event: Event)
    requires Traced(s.pinned, s.log) && Placed(s) && MayNote(s, event)
    ensures Traced(s.pinned, s.log + [event])
  {
    StartsTraced(s.log, event);
  }

  lemma {:induction false} OwnerNotes(s: State, step: Step)
    requires !WorldStep(step) && |Owner(s, step).log| != |s.log|
    ensures |Owner(s, step).log| == |s.log| + 1
    ensures Owner(s, step).log == s.log + [Owner(s, step).log[|s.log|]]
    ensures MayNote(s, Owner(s, step).log[|s.log|])
  {
  }

  lemma {:induction false} OwnerTraced(s: State, step: Step)
    requires Traced(s.pinned, s.log) && Placed(s) && !WorldStep(step)
    ensures Traced(s.pinned, Owner(s, step).log)
  {
    if |Owner(s, step).log| != |s.log| {
      OwnerNotes(s, step);
      NoteTraced(s, Owner(s, step).log[|s.log|]);
    } else {
      OwnerKeepsLog(s, step);
    }
  }

  lemma {:induction false} OwnerKeepsLog(s: State, step: Step)
    requires !WorldStep(step) && |Owner(s, step).log| == |s.log|
    ensures Owner(s, step).log == s.log
  {
  }

  /** A noted event keeps the places that the new program counter does not ask for. */
  lemma {:induction false} NotePlaced(s: State, event: Event, n: State)
    requires Placed(s) && n.log == s.log + [event] && n.pinned == s.pinned && n.birth == s.birth && n.copy == s.copy
    requires n.pc.Confirmed? ==> event == SawBirth(Some(s.pinned))
    requires n.pc.ObservedEnd? ==> event == SawBirth(None)
    requires SaysStopped(n) ==> SaysStopped(s) || event == Saved(Stopped)
    requires SawEnd(n.pc) || event == Saved(Stopped) ==> SawEnd(s.pc) || s.birth != Some(s.pinned)
    ensures Placed(n)
  {
    assert event in n.log && forall e <- s.log :: e in n.log;
  }

  lemma {:induction false} LookPlaced(s: State, step: Step)
    requires Placed(s)
    requires step.BirthRead? || step.ReplacementRead? || step.ReleaseRead? || step.BackendVerified? || step.Recheck?
    ensures Placed(Owner(s, step))
  {
    if |Owner(s, step).log| > |s.log| {
      NotePlaced(s, SawBirth(s.birth), Owner(s, step));
    }
  }

  lemma {:induction false} SavePlaced(s: State, step: Step)
    requires Placed(s)
    requires step.SaveStopped? || step.SaveRequested? || step.SaveSent? || step.StartAllowed? || step.Kill?
    ensures Placed(Owner(s, step))
  {
    var n := Owner(s, step);
    if |n.log| > |s.log| {
      NotePlaced(s, n.log[|s.log|], n);
    }
  }

  lemma {:induction false} WaitPlaced(s: State, step: Step)
    requires Placed(s)
    requires step.TickBegins? || step.ReceiptRead? || step.StoppedSeen? || step.ListenerRead? || step.Crash?
    ensures Placed(Owner(s, step))
  {
    var n := Owner(s, step);
    if |n.log| > |s.log| {
      NotePlaced(s, n.log[|s.log|], n);
    }
  }

  lemma {:induction false} OwnerPlaced(s: State, step: Step)
    requires Placed(s) && !WorldStep(step)
    ensures Placed(Owner(s, step))
  {
    if step.BirthRead? || step.ReplacementRead? || step.ReleaseRead? || step.BackendVerified? || step.Recheck? {
      LookPlaced(s, step);
    } else if step.SaveStopped? || step.SaveRequested? || step.SaveSent? || step.StartAllowed? || step.Kill? {
      SavePlaced(s, step);
    } else {
      WaitPlaced(s, step);
    }
  }

  lemma {:induction false} RunTraced(pinned: nat, steps: seq<Step>)
    ensures Run(pinned, steps).pinned == pinned
    ensures Traced(pinned, Run(pinned, steps).log) && Placed(Run(pinned, steps))
  {
    if steps != [] {
      var s, step := Run(pinned, steps[..|steps| - 1]), steps[|steps| - 1];
      RunTraced(pinned, steps[..|steps| - 1]);
      if !WorldStep(step) {
        OwnerTraced(s, step);
        OwnerPlaced(s, step);
      }
    }
  }

  /** The owner signals only directly after it read the pinned birth again. */
  lemma {:induction false} SignalsFollowTheBirth(pinned: nat, steps: seq<Step>, k: nat)
    requires k < |Run(pinned, steps).log| && Run(pinned, steps).log[k].Killed?
    ensures k > 0 && Run(pinned, steps).log[k - 1] == SawBirth(Some(pinned))
  {
    RunTraced(pinned, steps);
  }

  /** A journal that says stopped was written after the owner saw no process, and the pinned one is gone for good. */
  lemma {:induction false} StoppedMeansEnded(pinned: nat, steps: seq<Step>, k: nat)
    ensures k < |Run(pinned, steps).log| && Run(pinned, steps).log[k] == Saved(Stopped) ==>
              k > 0 && Run(pinned, steps).log[k - 1] == SawBirth(None)
    ensures Run(pinned, steps).journal == Stopped ==>
              Saved(Stopped) in Run(pinned, steps).log && Run(pinned, steps).birth != Some(pinned)
  {
    RunTraced(pinned, steps);
  }

  /** With the receipt installed, the ordinary start path runs only after the pinned backend ended. */
  lemma {:induction false} StartsFollowTheEnd(pinned: nat, steps: seq<Step>, k: nat)
    requires k < |Run(pinned, steps).log| && Run(pinned, steps).log[k] == Started(true)
    ensures Saved(Stopped) in Run(pinned, steps).log[..k] && Run(pinned, steps).birth != Some(pinned)
  {
    RunTraced(pinned, steps);
  }
}
