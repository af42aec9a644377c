/**
 The startup-delivery intent pointer (publish_startup_intent, clear_startup_intent and
 delivery_lease in client/apps/desktop/desktop_delivery.py; their callers stage and
 wait_for_completion in deliver_server.py).

 Any number of processes publish and complete deliveries. Each file operation is one
 step, a process may crash before any of them, and the kernel then drops its lease.
 The file operations themselves never test the lease.
 */
module IntentPointer {
  import opened Basics

  /** The exact bytes of a pointer: operation id and request hash. */
  datatype Intent = Intent(id: string, requestHash: string)

  datatype Job = Publish(intent: Intent, predecessor: Option<Intent>) | Complete(intent: Intent)

  datatype Pc = Held | Checked | Rechecked | Looked | Done

  datatype Session = Session(job: Job, pc: Pc)

  datatype State = State(pointer: Option<Intent>, lease: Option<nat>, sessions: map<nat, Session>)

  datatype Step =
    | Acquire(agent: nat, job: Job)
    | Check(agent: nat)
    | Link(agent: nat)
    | Recheck(agent: nat)
    | Replace(agent: nat)
    | Look(agent: nat)
    | Unlink(agent: nat)
    | Release(agent: nat)
    | Crash(agent: nat)

  function Begin(pointer: Option<Intent>): State {
    State(pointer, None, map[])
  }

  /** The process leaves the lease block: it is done, it failed, or it crashed. */
  function Leave(s: State, agent: nat): State {
    s.(lease := if s.lease == Some(agent) then None else s.lease,
       sessions := map a | a in s.sessions && a != agent :: s.sessions[a])
  }

  function Go(s: State, agent: nat, pc: Pc): State
    requires agent in s.sessions
  {
    s.(sessions := s.sessions[agent := s.sessions[agent].(pc := pc)])
  }

  predicate At(s: State, agent: nat, pc: Pc) {
    agent in s.sessions && s.sessions[agent].pc == pc
  }

  predicate Publishing(s: State, agent: nat, pc: Pc) {
    At(s, agent, pc) && s.sessions[agent].job.Publish?
  }

  /** The first look at the pointer: nothing to do, refuse, or go on. */
  function ApplyCheck(s: State, agent: nat): State
    requires Publishing(s, agent, Held)
  {
    var job := s.sessions[agent].job;
    if s.pointer == Some(job.intent) then Go(s, agent, Done)
    else if s.pointer.Some? && job.predecessor != s.pointer then Leave(s, agent)
    else Go(s, agent, Checked)
  }

  function Apply(s: State, step: Step): State {
    var agent := step.agent;
    match step
    case Acquire(_, job) =>
      if s.lease.Some? || agent in s.sessions then s
      else s.(lease := Some(agent), sessions := s.sessions[agent := Session(job, Held)])
    case Check(_) => if Publishing(s, agent, Held) then ApplyCheck(s, agent) else s
    case Link(_) =>
      if !Publishing(s, agent, Checked) || s.sessions[agent].job.predecessor.Some? then s
      else if s.pointer.Some? then Leave(s, agent)
      else Go(s, agent, Done).(pointer := Some(s.sessions[agent].job.intent))
    case Recheck(_) =>
      if !Publishing(s, agent, Checked) || s.sessions[agent].job.predecessor.None? then s
      else if s.pointer != s.sessions[agent].job.predecessor then Leave(s, agent)
      else Go(s, agent, Rechecked)
    case Replace(_) =>
      if Publishing(s, agent, Rechecked)
      then Go(s, agent, Done).(pointer := Some(s.sessions[agent].job.intent)) else s
    case Look(_) =>
      if !At(s, agent, Held) || !s.sessions[agent].job.Complete? then s
      else if s.pointer.None? then Go(s, agent, Done)
      else if s.pointer != Some(s.sessions[agent].job.intent) then Leave(s, agent)
      else Go(s, agent, Looked)
    case Unlink(_) => if At(s, agent, Looked) then Go(s, agent, Done).(pointer := None) else s
    case Release(_) => if At(s, agent, Done) then Leave(s, agent) else s
    case Crash(_) => Leave(s, agent)
  }

  function Run(pointer: Option<Intent>, steps: seq<Step>): State {
    if steps == [] then Begin(pointer) else Apply(Run(pointer, steps[..|steps| - 1]), steps[|steps| - 1])
  }

  /** Only the lease holder has a session, and what it last read still holds. */
  predicate Exclusive(s: State) {
    forall a <- s.sessions ::
      && s.lease == Some(a)
      && (s.sessions[a].pc.Rechecked? ==> s.sessions[a].job.Publish? && s.pointer.Some?
                                          && s.pointer == s.sessions[a].job.predecessor)
      && (s.sessions[a].pc.Looked? ==> s.sessions[a].job.Complete? && s.pointer == Some(s.sessions[a].job.intent))
  }

  /** The only ways the pointer may move. */
  predicate Legal(s: State, step: Step, n: State) {
    && step.agent in s.sessions
    && var job := s.sessions[step.agent].job;
       || (step.Link? && job.Publish? && job.predecessor.None? && s.pointer.None? && n.pointer == Some(job.intent))
       || (step.Replace? && job.Publish? && s.pointer.Some? && job.predecessor == s.pointer
           && n.pointer == Some(job.intent))
       || (step.Unlink? && job.Complete? && s.pointer == Some(job.intent) && n.pointer.None?)
  }
}

/** The pointer moves only as its protocol allows, under every interleaving. */
module IntentPointerTheorems {
  import opened Basics
  import opened IntentPointer

  lemma {:induction false} LeaveExclusive(s: State, agent: nat)
    requires Exclusive(s)
    ensures Exclusive(Leave(s, agent))
  {
  }

  lemma {:induction false} StepExclusive(s: State, step: Step)
    requires Exclusive(s)
    ensures Exclusive(Apply(s, step))
  {
    LeaveExclusive(s, step.agent);
  }

  lemma {:induction false} RunExclusive(pointer: Option<Intent>, steps: seq<Step>)
    ensures Exclusive(Run(pointer, steps))
  {
    if steps != [] {
      RunExclusive(pointer, steps[..|steps| - 1]);
      StepExclusive(Run(pointer, steps[..|steps| - 1]), steps[|steps| - 1]);
    }
  }

  /**
   In every reachable state, a step that moves the pointer is an exclusive link of an
   absent pointer, a replacement of exactly the named predecessor, or the removal of a
   pointer by the completion of that same delivery.
   */
  lemma {:induction false} PointerMovesLegally(pointer: Option<Intent>, steps: seq<Step>, step: Step)
    requires Apply(Run(pointer, steps), step).pointer != Run(pointer, steps).pointer
    ensures Legal(Run(pointer, steps), step, Apply(Run(pointer, steps), step))
  {
    RunExclusive(pointer, steps);
  }

  /** The job may end the pointer of this delivery: its own completion, or a named successor. */
  predicate Concerns(job: Job, intent: Intent) {
    job == Complete(intent) || (job.Publish? && job.predecessor == Some(intent))
  }

  predicate Uninvolved(s: State, intent: Intent) {
    forall a <- s.sessions :: !Concerns(s.sessions[a].job, intent)
  }

  lemma {:induction false} StepUninvolved(s: State, step: Step, intent: Intent)
    requires Exclusive(s) && Uninvolved(s, intent) && (step.Acquire? ==> !Concerns(step.job, intent))
    ensures Uninvolved(Apply(s, step), intent)
    ensures s.pointer == Some(intent) ==> Apply(s, step).pointer == Some(intent)
  {
  }

  /**
   Once published, a pointer outlives every other delivery's completion and every
   publication that names another predecessor, however they interleave and crash.
   */
  lemma {:induction false} NewerPointerSurvives(pointer: Option<Intent>, before: seq<Step>, after: seq<Step>,
                                        intent: Intent)
    requires Run(pointer, before).pointer == Some(intent) && Uninvolved(Run(pointer, before), intent)
    requires forall step <- after :: step.Acquire? ==> !Concerns(step.job, intent)
    ensures Run(pointer, before + after).pointer == Some(intent)
    ensures Uninvolved(Run(pointer, before + after), intent)
    decreases |after|
  {
    if after == [] {
      assert before + after == before;
    } else {
      var front, last := after[..|after| - 1], after[|after| - 1];
      assert (before + after)[..|before + after| - 1] == before + front;
      NewerPointerSurvives(pointer, before, front, intent);
      RunExclusive(pointer, before + front);
      StepUninvolved(Run(pointer, before + front), last, intent);
    }
  }
}
