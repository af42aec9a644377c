/**
 The account-metadata cache (createCatalogCache in claude-bridge/catalog-cache.ts).
 Reads, activity changes, timers, load completions and close are event-loop callbacks;
 each one is a method, and `Run` ranges over every order of them. The clock is an
 argument of each callback and may jump. The timer delay is not modelled.
 */
module CatalogCache {
  import opened Basics

  /** A confirmed value: its number among the confirmed ones, and when its load began. */
  datatype Proof = Proof(serial: nat, value: string, startedAt: int)

  /** `settled` marks a load whose result arrived and whose cleanup callback is still due. */
  datatype Load = Load(id: nat, startedAt: int, settled: bool)

  datatype Cache = Cache(confirmed: Option<Proof>, pending: Option<Load>, timer: Option<nat>,
                         attempted: Option<nat>, closed: bool)

  datatype Answer = Rejected | Served(proof: Proof) | Waits(load: nat)

  const Start := Cache(None, None, None, None, false)

  predicate Fresh(c: Cache, now: int, ttl: int) {
    c.confirmed.Some? && now - c.confirmed.value.startedAt < ttl
  }

  /** The confirmed value, as a number to compare attempts with. */
  function Current(c: Cache): Option<nat> {
    if c.confirmed.Some? then Some(c.confirmed.value.serial) else None
  }

  /** A timer refresh is still due for the confirmed value. */
  predicate Due(c: Cache, now: int, ttl: int, active: bool) {
    !c.closed && Fresh(c, now, ttl) && c.pending.None? && c.attempted != Current(c) && active
  }

  /** `id` names the timer that is armed, if one is. */
  function Activity(c: Cache, now: int, ttl: int, active: bool, id: nat): Cache {
    c.(timer := if Due(c, now, ttl, active) then Some(id) else None)
  }

  function Refresh(c: Cache, now: int, id: nat): Cache {
    if c.pending.Some? then c else c.(pending := Some(Load(id, now, false)))
  }

  function ReadPassive(c: Cache, now: int, ttl: int, id: nat): (r: (Cache, Answer)) {
    if c.closed || c.confirmed.None? then (c, Rejected)
    else if Fresh(c, now, ttl) then (c, Served(c.confirmed.value))
    else (Refresh(c, now, id), Waits(Refresh(c, now, id).pending.value.id))
  }

  function Read(c: Cache, now: int, ttl: int, active: bool, id: nat): (r: (Cache, Answer)) {
    if c.closed then (c, Rejected)
    else if Fresh(c, now, ttl) then (Activity(c, now, ttl, active, id), Served(c.confirmed.value))
    else (Refresh(c, now, id), Waits(Refresh(c, now, id).pending.value.id))
  }

  function Fire(c: Cache, fired: nat, now: int, ttl: int, active: bool, id: nat): Cache {
    if c.timer != Some(fired) then c
    else
      var idle := c.(timer := None);
      if Due(idle, now, ttl, active) then Refresh(idle.(attempted := Current(idle)), now, id) else idle
  }

  function Succeed(c: Cache, value: string, serial: nat): Cache {
    if c.pending.None? || c.pending.value.settled then c
    else
      c.(confirmed := if c.closed then c.confirmed else Some(Proof(serial, value, c.pending.value.startedAt)),
         pending := Some(c.pending.value.(settled := true)))
  }

  function Fail(c: Cache, rejected: bool): Cache {
    if c.pending.None? || c.pending.value.settled then c
    else c.(confirmed := if rejected then None else c.confirmed, pending := Some(c.pending.value.(settled := true)))
  }

  function Finish(c: Cache, now: int, ttl: int, active: bool, id: nat): Cache {
    if c.pending.None? || !c.pending.value.settled then c
    else Activity(c.(pending := None), now, ttl, active, id)
  }

  function Shut(c: Cache): Cache {
    c.(closed := true, timer := None)
  }

  class Catalog {
    const ttl: int
    var confirmed: Option<Proof>
    var pending: Option<Load>
    var timer: Option<nat>
    var attempted: Option<nat>
    var closed: bool

    ghost function View(): Cache
      reads this
    {
      Cache(confirmed, pending, timer, attempted, closed)
    }

    constructor (ttl: int)
      ensures View() == Start && this.ttl == ttl
    {
      this.ttl := ttl;
      confirmed, pending, timer, attempted, closed := None, None, None, None, false;
    }

    method OnActivity(now: int, active: bool, id: nat)
      modifies this
      ensures View() == Activity(old(View()), now, ttl, active, id)
    {
      timer := None;
      var fresh_ := confirmed.Some? && now - confirmed.value.startedAt < ttl;
      var current := if confirmed.Some? then Some(confirmed.value.serial) else None;
      if closed || !fresh_ || pending.Some? || attempted == current || !active {
        return;
      }
      timer := Some(id);
    }

    method OnTimer(fired: nat, now: int, active: bool, id: nat)
      modifies this
      ensures View() == Fire(old(View()), fired, now, ttl, active, id)
    {
      if timer != Some(fired) {
        return;
      }
      timer := None;
      var fresh_ := confirmed.Some? && now - confirmed.value.startedAt < ttl;
      var current := if confirmed.Some? then Some(confirmed.value.serial) else None;
      if closed || !fresh_ || pending.Some? || attempted == current || !active {
        return;
      }
      attempted := current;
      var load := Ensure(now, id);
    }

    /** refresh(): join the load in flight or begin one. */
    method Ensure(now: int, id: nat) returns (load: nat)
      modifies this
      ensures View() == Refresh(old(View()), now, id) && pending.Some? && load == pending.value.id
    {
      if pending.None? {
        pending := Some(Load(id, now, false));
      }
      load := pending.value.id;
    }

    method OnReadPassive(now: int, id: nat) returns (answer: Answer)
      modifies this
      ensures (View(), answer) == ReadPassive(old(View()), now, ttl, id)
    {
      if closed || confirmed.None? {
        return Rejected;
      }
      if now - confirmed.value.startedAt < ttl {
        return Served(confirmed.value);
      }
      var load := Ensure(now, id);
      return Waits(load);
    }

    method OnRead(now: int, active: bool, id: nat) returns (answer: Answer)
      modifies this
      ensures (View(), answer) == Read(old(View()), now, ttl, active, id)
    {
      if closed {
        return Rejected;
      }
      if confirmed.Some? && now - confirmed.value.startedAt < ttl {
        OnActivity(now, active, id);
        return Served(confirmed.value);
      }
      var load := Ensure(now, id);
      return Waits(load);
    }

    method OnSuccess(value: string, serial: nat)
      modifies this
      ensures View() == Succeed(old(View()), value, serial)
    {
      if pending.None? || pending.value.settled {
        return;
      }
      if !closed {
        confirmed := Some(Proof(serial, value, pending.value.startedAt));
      }
      pending := Some(pending.value.(settled := true));
    }

    method OnFailure(rejected: bool)
      modifies this
      ensures View() == Fail(old(View()), rejected)
    {
      if pending.None? || pending.value.settled {
        return;
      }
      if rejected {
        confirmed := None;
      }
      pending := Some(pending.value.(settled := true));
    }

    method OnFinished(now: int, active: bool, id: nat)
      modifies this
      ensures View() == Finish(old(View()), now, ttl, active, id)
    {
      if pending.None? || !pending.value.settled {
        return;
      }
      pending := None;
      OnActivity(now, active, id);
    }

    method Close()
      modifies this
      ensures View() == Shut(old(View()))
    {
      closed := true;
      timer := None;
    }
  }

  // ------------------------------------------------------------------ runs

  datatype Step =
    | ReadStep(now: int, active: bool)
    | PassiveStep(now: int)
    | ActivityStep(now: int, active: bool)
    | TimerStep(fired: nat, now: int, active: bool)
    | SuccessStep(value: string)
    | FailureStep(rejected: bool)
    | FinishStep(now: int, active: bool)
    | CloseStep

  /** A served value, the clock then, and how many values had been proven stale by a rejection. */
  datatype Service = Service(proof: Proof, now: int, floor: nat)

  /**
   `inFlight` are loads begun and not settled; `armed` are timers set and neither fired
   nor cleared; `proofs` are the confirmed values in order; `floor` is their number when
   an account was last rejected; `refreshed` lists the values whose timer began a load.
   */
  datatype World = World(c: Cache, ids: nat, inFlight: set<nat>, armed: set<nat>, proofs: seq<Proof>, floor: nat,
                         services: seq<Service>, refreshed: seq<nat>)

  function Begin(): World {
    World(Start, 0, {}, {}, [], 0, [], [])
  }

  /** Account for what a callback did to the loads and the timer. */
  function Track(x: World, c: Cache): World {
    x.(c := c, ids := x.ids + 1,
       inFlight := if c.pending.Some? && c.pending != x.c.pending && !c.pending.value.settled
                   then x.inFlight + {c.pending.value.id}
                   else if c.pending.Some? && c.pending.value.settled then x.inFlight - {c.pending.value.id}
                   else x.inFlight,
       armed := if c.timer == x.c.timer then x.armed
                else (if x.c.timer.Some? then x.armed - {x.c.timer.value} else x.armed)
                     + (if c.timer.Some? then {c.timer.value} else {}))
  }

  function Serve(x: World, answer: Answer, now: int): World {
    if answer.Served? then x.(services := x.services + [Service(answer.proof, now, x.floor)]) else x
  }

  function Apply(x: World, step: Step, ttl: int): World {
    match step
    case ReadStep(now, active) =>
      var r := Read(x.c, now, ttl, active, x.ids);
      Serve(Track(x, r.0), r.1, now)
    case PassiveStep(now) =>
      var r := ReadPassive(x.c, now, ttl, x.ids);
      Serve(Track(x, r.0), r.1, now)
    case ActivityStep(now, active) => Track(x, Activity(x.c, now, ttl, active, x.ids))
    case TimerStep(fired, now, active) =>
      if fired !in x.armed then x
      else
        var c := Fire(x.c, fired, now, ttl, active, x.ids);
        Track(x, c).(armed := x.armed - {fired},
                     refreshed := if c.attempted != x.c.attempted && c.attempted.Some?
                                  then x.refreshed + [c.attempted.value] else x.refreshed)
    case SuccessStep(value) =>
      var c := Succeed(x.c, value, |x.proofs|);
      Track(x, c).(proofs := if c.confirmed != x.c.confirmed && c.confirmed.Some?
                             then x.proofs + [c.confirmed.value] else x.proofs)
    case FailureStep(rejected) =>
      var c := Fail(x.c, rejected);
      Track(x, c).(floor := if c != x.c && rejected then |x.proofs| else x.floor)
    case FinishStep(now, active) => Track(x, Finish(x.c, now, ttl, active, x.ids))
    case CloseStep => Track(x, Shut(x.c))
  }

  function Run(ttl: int, steps: seq<Step>): World {
    if steps == [] then Begin() else Apply(Run(ttl, steps[..|steps| - 1]), steps[|steps| - 1], ttl)
  }

  // ------------------------------------------------------------------ what every run keeps

  predicate OneLoad(x: World) {
    && x.inFlight == (if x.c.pending.Some? && !x.c.pending.value.settled then {x.c.pending.value.id} else {})
    && (x.c.pending.Some? ==> x.c.pending.value.id < x.ids)
  }

  predicate OneTimer(x: World) {
    && x.armed == (if x.c.timer.Some? then {x.c.timer.value} else {})
    && (x.c.timer.Some? ==> x.c.timer.value < x.ids && !x.c.closed)
  }

  predicate Numbered(x: World) {
    && x.floor <= |x.proofs|
    && (forall i :: 0 <= i < |x.proofs| ==> x.proofs[i].serial == i)
    && (x.c.confirmed.Some? ==>
          && x.c.confirmed.value.serial < |x.proofs| && x.proofs[x.c.confirmed.value.serial] == x.c.confirmed.value
          && x.floor <= x.c.confirmed.value.serial)
    && (x.c.attempted.Some? ==> x.c.attempted.value < |x.proofs|)
  }

  predicate Honest(x: World, ttl: int) {
    forall k :: 0 <= k < |x.services| ==>
      var s := x.services[k];
      && s.now - s.proof.startedAt < ttl
      && s.floor <= s.proof.serial < |x.proofs| && x.proofs[s.proof.serial] == s.proof
  }

  predicate OncePerValue(x: World) {
    && (forall i, j :: 0 <= i < j < |x.refreshed| ==> x.refreshed[i] < x.refreshed[j])
    && (x.refreshed != [] ==> x.c.attempted.Some?)
    && (x.c.attempted.Some? ==> forall i :: 0 <= i < |x.refreshed| ==> x.refreshed[i] <= x.c.attempted.value)
    && (x.c.attempted.Some? && x.c.confirmed.Some? ==> x.c.attempted.value <= x.c.confirmed.value.serial)
  }
}

/** The cache's promises over every interleaving. */
module CatalogCacheTheorems {
  import opened Basics
  import opened CatalogCache

  lemma {:induction false} StepOneLoad(x: World, step: Step, ttl: int)
    requires OneLoad(x)
    ensures OneLoad(Apply(x, step, ttl))
  {
  }

  lemma {:induction false} StepOneTimer(x: World, step: Step, ttl: int)
    requires OneTimer(x)
    ensures OneTimer(Apply(x, step, ttl))
  {
  }

  lemma {:induction false} StepNumbered(x: World, step: Step, ttl: int)
    requires Numbered(x)
    ensures Numbered(Apply(x, step, ttl))
  {
  }

  lemma {:induction false} StepHonest(x: World, step: Step, ttl: int)
    requires Numbered(x) && Honest(x, ttl)
    ensures Honest(Apply(x, step, ttl), ttl)
  {
  }

  /** The attempt marked by a timer is the confirmed value, newer than every earlier attempt. */
  lemma {:induction false} FireOncePerValue(x: World, fired: nat, now: int, active: bool, ttl: int)
    requires Numbered(x) && OncePerValue(x)
    ensures OncePerValue(Apply(x, TimerStep(fired, now, active), ttl))
  {
    var n := Apply(x, TimerStep(fired, now, active), ttl);
    assert n.c.confirmed == x.c.confirmed;
    if n.c.attempted != x.c.attempted {
      assert x.c.confirmed.Some? && n.c.attempted == Some(x.c.confirmed.value.serial);
      assert n.refreshed == x.refreshed + [n.c.attempted.value];
      forall i | 0 <= i < |x.refreshed|
        ensures x.refreshed[i] < n.c.attempted.value
      {
        assert x.refreshed[i] <= x.c.attempted.value < n.c.attempted.value;
      }
    } else {
      assert n.refreshed == x.refreshed;
    }
  }

  lemma {:induction false} StepOncePerValue(x: World, step: Step, ttl: int)
    requires Numbered(x) && OncePerValue(x)
    ensures OncePerValue(Apply(x, step, ttl))
  {
    if step.TimerStep? {
      FireOncePerValue(x, step.fired, step.now, step.active, ttl);
    }
  }

  lemma {:induction false} RunKeeps(ttl: int, steps: seq<Step>)
    ensures var x := Run(ttl, steps);
            OneLoad(x) && OneTimer(x) && Numbered(x) && Honest(x, ttl) && OncePerValue(x)
  {
    if steps != [] {
      var x, last := Run(ttl, steps[..|steps| - 1]), steps[|steps| - 1];
      RunKeeps(ttl, steps[..|steps| - 1]);
      StepOneLoad(x, last, ttl);
      StepOneTimer(x, last, ttl);
      StepNumbered(x, last, ttl);
      StepHonest(x, last, ttl);
      StepOncePerValue(x, last, ttl);
    }
  }

  /** At most one load is in flight. */
  lemma {:induction false} AtMostOneLoad(ttl: int, steps: seq<Step>)
    ensures |Run(ttl, steps).inFlight| <= 1
  {
    RunKeeps(ttl, steps);
  }

  /**
   A value is served from the cache only when its load began less than the TTL ago, and
   never one confirmed before the last account rejection.
   */
  lemma {:induction false} ServedValuesAreProven(ttl: int, steps: seq<Step>, k: nat)
    requires k < |Run(ttl, steps).services|
    ensures var x := Run(ttl, steps);
            var s := x.services[k];
            && s.now - s.proof.startedAt < ttl
            && s.floor <= s.proof.serial < |x.proofs| && x.proofs[s.proof.serial] == s.proof
  {
    RunKeeps(ttl, steps);
  }

  /** No confirmed value is refreshed by a timer twice. */
  lemma {:induction false} OneTimerRefreshPerValue(ttl: int, steps: seq<Step>, i: nat, j: nat)
    requires i < j < |Run(ttl, steps).refreshed|
    ensures Run(ttl, steps).refreshed[i] != Run(ttl, steps).refreshed[j]
  {
    RunKeeps(ttl, steps);
  }

  // ------------------------------------------------------------------ rejection

  /** Without a confirmed value nothing is served, and only a confirmed load brings one. */
  lemma {:induction false} UnprovenStep(x: World, step: Step, ttl: int)
    requires x.c.confirmed.None?
    ensures var n := Apply(x, step, ttl);
            && n.services == x.services && |n.proofs| >= |x.proofs|
            && (|n.proofs| == |x.proofs| ==> n.c.confirmed.None?)
  {
  }

  lemma {:induction false} ProofsGrow(x: World, step: Step, ttl: int)
    ensures |Apply(x, step, ttl).proofs| >= |x.proofs|
  {
  }

  lemma {:induction false} UnprovenServesNothing(ttl: int, before: seq<Step>, after: seq<Step>)
    requires Run(ttl, before).c.confirmed.None?
    ensures var x, n := Run(ttl, before), Run(ttl, before + after);
            && |n.proofs| >= |x.proofs|
            && (|n.proofs| == |x.proofs| ==> n.c.confirmed.None? && n.services == x.services)
    decreases |after|
  {
    if after == [] {
      assert before + after == before;
    } else {
      var front, last := after[..|after| - 1], after[|after| - 1];
      assert (before + after)[..|before + after| - 1] == before + front;
      UnprovenServesNothing(ttl, before, front);
      var m := Run(ttl, before + front);
      ProofsGrow(m, last, ttl);
      if m.c.confirmed.None? {
        UnprovenStep(m, last, ttl);
      }
    }
  }

  /** After a load in flight reports a rejected account, nothing is served until a later load is confirmed. */
  lemma {:induction false} RejectionSilencesTheCache(ttl: int, before: seq<Step>, after: seq<Step>)
    requires var p := Run(ttl, before).c.pending; p.Some? && !p.value.settled
    requires |Run(ttl, before + [FailureStep(true)] + after).proofs| == |Run(ttl, before).proofs|
    ensures var n := Run(ttl, before + [FailureStep(true)] + after);
            n.c.confirmed.None? && n.services == Run(ttl, before).services
  {
    var rejected := before + [FailureStep(true)];
    assert rejected[..|rejected| - 1] == before;
    UnprovenServesNothing(ttl, rejected, after);
  }

  // ------------------------------------------------------------------ closing

  lemma {:induction false} ClosedStep(x: World, step: Step, ttl: int)
    requires x.c.closed && OneLoad(x) && OneTimer(x)
    ensures var n := Apply(x, step, ttl);
            n.c.closed && n.armed == {} && n.inFlight <= x.inFlight && n.services == x.services
  {
  }

  /** After close no timer is armed, no load is requested and nothing is served. */
  lemma {:induction false} NothingAfterClose(ttl: int, before: seq<Step>, after: seq<Step>)
    ensures var x := Run(ttl, before + [CloseStep]);
            var n := Run(ttl, before + [CloseStep] + after);
            && n.c.closed && n.armed == {} && n.inFlight <= x.inFlight && n.services == x.services
    decreases |after|
  {
    var shut := before + [CloseStep];
    if after == [] {
      assert shut + after == shut && shut[..|shut| - 1] == before;
      RunKeeps(ttl, shut);
    } else {
      var front, last := after[..|after| - 1], after[|after| - 1];
      assert (shut + after)[..|shut + after| - 1] == shut + front;
      NothingAfterClose(ttl, before, front);
      RunKeeps(ttl, shut + front);
      ClosedStep(Run(ttl, shut + front), last, ttl);
    }
  }

  // ------------------------------------------------------------------ the object

  /** One callback of the object, with the identifiers that the run gives it. */
  method Perform(c: Catalog, x: World, step: Step) returns (answer: Answer)
    requires c.View() == x.c
    modifies c
    ensures var n := Apply(x, step, c.ttl);
            && c.View() == n.c
            && |n.services| == |x.services| + (if answer.Served? then 1 else 0)
            && (answer.Served? ==> n.services[|x.services|].proof == answer.proof)
  {
    answer := Rejected;
    match step
    case ReadStep(now, active) => answer := c.OnRead(now, active, x.ids);
    case PassiveStep(now) => answer := c.OnReadPassive(now, x.ids);
    case ActivityStep(now, active) => c.OnActivity(now, active, x.ids);
    case TimerStep(fired, now, active) => if fired in x.armed { c.OnTimer(fired, now, active, x.ids); }
    case SuccessStep(value) => c.OnSuccess(value, |x.proofs|);
    case FailureStep(rejected) => c.OnFailure(rejected);
    case FinishStep(now, active) => c.OnFinished(now, active, x.ids);
    case CloseStep => c.Close();
  }

  lemma {:induction false} ServicesGrow(x: World, step: Step, ttl: int)
    ensures x.services <= Apply(x, step, ttl).services
  {
  }

  /** The object serves what the runs say, callback after callback. */
  method Replay(ttl: int, steps: seq<Step>) returns (c: Catalog, served: seq<Proof>)
    ensures var x := Run(ttl, steps);
            && fresh(c) && c.View() == x.c && |served| == |x.services|
            && (forall k :: 0 <= k < |served| ==> served[k] == x.services[k].proof)
  {
    c := new Catalog(ttl);
    served := [];
    var x := Begin();
    for i := 0 to |steps|
      invariant fresh(c) && c.ttl == ttl && x == Run(ttl, steps[..i]) && c.View() == x.c && |served| == |x.services|
      invariant forall k :: 0 <= k < |served| ==> served[k] == x.services[k].proof
    {
      assert steps[..i + 1][..i] == steps[..i];
      ServicesGrow(x, steps[i], ttl);
      var answer := Perform(c, x, steps[i]);
      served := if answer.Served? then served + [answer.proof] else served;
      x := Apply(x, steps[i], ttl);
    }
    assert steps[..|steps|] == steps;
  }
}
