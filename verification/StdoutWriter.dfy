/**
 The bridge's one stdout writer (send, flushStdout and stdoutRoom in
 claude-bridge/bridge.ts). The stream is the environment: `write` reports whether its
 buffer is below the high-water mark, and a full buffer is followed by one "drain".
 Lines are text; lengths count UTF-16 code units.
 */
module StdoutWriter {
  import opened Basics

  /** STDOUT_PENDING_BUDGET. */
  const BUDGET := 8 * 1024 * 1024

  /** The module's variables; waiters are numbered in the order they arrived. */
  datatype Writer = Writer(lines: seq<string>, queued: nat, scheduled: bool, draining: bool, waiters: seq<nat>)

  const Fresh := Writer([], 0, false, false, [])

  function Join(lines: seq<string>): string {
    if lines == [] then "" else Join(lines[..|lines| - 1]) + lines[|lines| - 1]
  }

  function Total(lines: seq<string>): nat {
    if lines == [] then 0 else Total(lines[..|lines| - 1]) + |lines[|lines| - 1]|
  }

  /** `asked` is true when a flush was put on the event loop. */
  function Send(w: Writer, line: string): (r: (Writer, bool)) {
    var asked := !w.scheduled && !w.draining;
    (w.(lines := w.lines + [line], queued := w.queued + |line|, scheduled := w.scheduled || asked), asked)
  }

  /** What one flush hands to the stream. */
  function Due(w: Writer): string {
    if !w.draining && w.lines != [] then Join(w.lines) else ""
  }

  predicate Writes(w: Writer) {
    !w.draining && w.lines != []
  }

  /** The writer after its write, which the stream accepted or answered with a full buffer. */
  function Written(w: Writer, ok: bool): Writer {
    var flushed := w.(scheduled := false);
    if Writes(w) then flushed.(lines := [], queued := 0, draining := !ok) else flushed
  }

  /** Waiters released once at most the budget waits; `buffered` is the stream's own buffer. */
  function Released(w: Writer, buffered: nat): seq<nat> {
    if w.waiters != [] && w.queued + buffered <= BUDGET then w.waiters else []
  }

  function Release(w: Writer, buffered: nat): Writer {
    if w.queued + buffered <= BUDGET then w.(waiters := []) else w
  }

  function Room(w: Writer, buffered: nat, ticket: nat): (r: (Writer, bool)) {
    if w.queued + buffered <= BUDGET then (w, false) else (w.(waiters := w.waiters + [ticket]), true)
  }

  class Stdout {
    var lines: seq<string>
    var queued: nat
    var scheduled: bool
    var draining: bool
    var waiters: seq<nat>

    ghost function View(): Writer
      reads this
    {
      Writer(lines, queued, scheduled, draining, waiters)
    }

    constructor ()
      ensures View() == Fresh
    {
      lines, queued, scheduled, draining, waiters := [], 0, false, false, [];
    }

    method Push(line: string) returns (asked: bool)
      modifies this
      ensures (View(), asked) == Send(old(View()), line)
    {
      lines := lines + [line];
      queued := queued + |line|;
      asked := !scheduled && !draining;
      if asked {
        scheduled := true;
      }
    }

    /** Up to the write: what to hand to the stream, if anything. */
    method BeginFlush() returns (data: Option<string>)
      modifies this
      ensures data == if Writes(old(View())) then Some(Due(old(View()))) else None
      ensures View() == Written(old(View()), true)
    {
      scheduled := false;
      data := None;
      if !draining && lines != [] {
        var text := Concatenate(lines);
        data := Some(text);
        lines, queued := [], 0;
      }
    }

    /** After the write: remember a full buffer and release the waiters. */
    method EndFlush(wrote: bool, ok: bool, buffered: nat) returns (released: seq<nat>)
      modifies this
      ensures var w := old(View()).(draining := old(draining) || (wrote && !ok));
              released == Released(w, buffered) && View() == Release(w, buffered)
    {
      if wrote && !ok {
        draining := true;
      }
      released := [];
      if waiters != [] && queued + buffered <= BUDGET {
        released := waiters;
        waiters := [];
      }
    }

    method StdoutRoom(buffered: nat, ticket: nat) returns (waits: bool)
      modifies this
      ensures (View(), waits) == Room(old(View()), buffered, ticket)
    {
      if queued + buffered <= BUDGET {
        return false;
      }
      waiters := waiters + [ticket];
      return true;
    }
  }

  method Concatenate(lines: seq<string>) returns (text: string)
    ensures text == Join(lines)
  {
    text := "";
    for i := 0 to |lines|
      invariant text == Join(lines[..i])
    {
      assert lines[..i + 1][..i] == lines[..i];
      text := text + lines[i];
    }
    assert lines[..|lines|] == lines;
  }

  // ------------------------------------------------------------------ runs on the event loop

  /**
   The writer on an event loop: `flushes` counts pending setImmediate callbacks, `drains`
   counts drain listeners; `sent`, `out`, `tickets` and `released` record history.
   */
  datatype World = World(w: Writer, buffered: nat, mark: nat, flushes: nat, drains: nat,
                         sent: seq<string>, out: string, tickets: nat, released: seq<nat>)

  datatype Step =
    | Sent(line: string)
    | FlushRuns(ok: bool, after: nat)
    | DrainRuns(ok: bool, after: nat)
    | DirectFlush(ok: bool, after: nat)
    | RoomAsked
    | BufferShrinks(to: nat)

  function Begin(mark: nat): World {
    World(Fresh, 0, mark, 0, 0, [], "", 0, [])
  }

  /** write() answers true exactly while the buffer it leaves is below the mark. */
  function FlushWorld(x: World, ok: bool, after: nat): World {
    var wrote := Writes(x.w);
    var fits := ok && after < x.mark;
    var buffered := if wrote then after else x.buffered;
    var w := Written(x.w, fits);
    x.(w := Release(w, buffered), buffered := buffered, out := x.out + Due(x.w),
       drains := x.drains + (if wrote && !fits then 1 else 0), released := x.released + Released(w, buffered))
  }

  function Apply(x: World, step: Step): World {
    match step
    case Sent(line) =>
      x.(w := Send(x.w, line).0, flushes := x.flushes + (if Send(x.w, line).1 then 1 else 0), sent := x.sent + [line])
    case FlushRuns(ok, after) =>
      if x.flushes == 0 then x else FlushWorld(x.(flushes := x.flushes - 1), ok, after)
    case DrainRuns(ok, after) =>
      if x.drains == 0 then x
      else FlushWorld(x.(drains := x.drains - 1, buffered := 0, w := x.w.(draining := false)), ok, after)
    case DirectFlush(ok, after) => FlushWorld(x, ok, after)
    case RoomAsked =>
      x.(w := Room(x.w, x.buffered, x.tickets).0,
         tickets := x.tickets + (if Room(x.w, x.buffered, x.tickets).1 then 1 else 0))
    case BufferShrinks(to) => if to <= x.buffered then x.(buffered := to) else x
  }

  function Run(mark: nat, steps: seq<Step>): World {
    if steps == [] then Begin(mark) else Apply(Run(mark, steps[..|steps| - 1]), steps[|steps| - 1])
  }

  predicate Upto(tickets: seq<nat>, n: nat) {
    |tickets| == n && forall i :: 0 <= i < n ==> tickets[i] == i
  }

  predicate Conserved(x: World) {
    && Exact(x)
    && Upto(x.released + x.w.waiters, x.tickets)
  }

  /** What left, followed by what is queued, is everything sent; the queued count is exact. */
  predicate Exact(x: World) {
    x.out + Join(x.w.lines) == Join(x.sent) && x.w.queued == Total(x.w.lines)
  }

  /** Queued lines and waiting readers have a flush or a drain to come. */
  predicate Attended(x: World) {
    x.w.lines != [] || x.w.waiters != [] ==> x.flushes > 0 || x.drains == 1
  }

  /** Everything sent is out and nobody waits. */
  predicate Idle(x: World) {
    x.out == Join(x.sent) && x.w.lines == [] && x.w.waiters == []
  }

  predicate Awake(x: World) {
    && (x.w.lines != [] || x.w.waiters != [] ==> x.w.scheduled || x.w.draining)
    && (x.w.scheduled ==> x.flushes > 0)
    && x.drains == (if x.w.draining then 1 else 0)
    && (!x.w.draining ==> x.buffered < x.mark)
    && 0 < x.mark <= BUDGET
  }
}

/** Nothing is lost, reordered, repeated or stranded, for every run of the event loop. */
module StdoutTheorems {
  import opened Basics
  import opened StdoutWriter

  lemma {:induction false} JoinSnoc(lines: seq<string>, line: string)
    ensures Join(lines + [line]) == Join(lines) + line
    ensures Total(lines + [line]) == Total(lines) + |line|
  {
    assert (lines + [line])[..|lines|] == lines;
  }

  lemma {:induction false} SendConserves(x: World, line: string)
    requires Conserved(x)
    ensures Conserved(Apply(x, Sent(line)))
  {
    JoinSnoc(x.w.lines, line);
    JoinSnoc(x.sent, line);
    Regroup(x.out, Join(x.w.lines), line);
  }

  lemma {:induction false} Regroup(a: string, b: string, c: string)
    ensures a + (b + c) == a + b + c
  {
  }

  lemma {:induction false} FlushConserves(x: World, ok: bool, after: nat)
    requires Conserved(x)
    ensures Conserved(FlushWorld(x, ok, after))
  {
    assert x.out + Join(x.w.lines) + "" == x.out + Join(x.w.lines);
    assert x.out + "" == x.out;
    assert x.released + x.w.waiters + [] == x.released + x.w.waiters;
    assert x.released + [] == x.released;
  }

  lemma {:induction false} RoomConserves(x: World)
    requires Conserved(x)
    ensures Conserved(Apply(x, RoomAsked))
  {
    assert x.released + (x.w.waiters + [x.tickets]) == x.released + x.w.waiters + [x.tickets];
  }

  lemma {:induction false} StepConserves(x: World, step: Step)
    requires Conserved(x)
    ensures Conserved(Apply(x, step))
  {
    match step
    case Sent(line) => SendConserves(x, line);
    case FlushRuns(ok, after) => if x.flushes > 0 { FlushConserves(x.(flushes := x.flushes - 1), ok, after); }
    case DrainRuns(ok, after) =>
      if x.drains > 0 {
        FlushConserves(x.(drains := x.drains - 1, buffered := 0, w := x.w.(draining := false)), ok, after);
      }
    case DirectFlush(ok, after) => FlushConserves(x, ok, after);
    case RoomAsked => RoomConserves(x);
    case BufferShrinks(to) =>
  }

  /** A flush of an idle writer leaves nothing behind unless it awaits a drain. */
  lemma {:induction false} FlushAwake(x: World, ok: bool, after: nat)
    requires 0 < x.mark <= BUDGET && x.w.queued == Total(x.w.lines)
    requires x.drains == (if x.w.draining then 1 else 0) && (!x.w.draining ==> x.buffered < x.mark)
    ensures Awake(FlushWorld(x, ok, after))
  {
  }

  lemma {:induction false} StepAwake(x: World, step: Step)
    requires Awake(x) && Conserved(x)
    ensures Awake(Apply(x, step))
  {
    match step
    case FlushRuns(ok, after) => if x.flushes > 0 { FlushAwake(x.(flushes := x.flushes - 1), ok, after); }
    case DrainRuns(ok, after) =>
      if x.drains > 0 {
        FlushAwake(x.(drains := x.drains - 1, buffered := 0, w := x.w.(draining := false)), ok, after);
      }
    case DirectFlush(ok, after) => FlushAwake(x, ok, after);
    case _ =>
  }

  lemma {:induction false} RunConserves(mark: nat, steps: seq<Step>)
    ensures Conserved(Run(mark, steps)) && Run(mark, steps).mark == mark
  {
    if steps != [] {
      RunConserves(mark, steps[..|steps| - 1]);
      StepConserves(Run(mark, steps[..|steps| - 1]), steps[|steps| - 1]);
    }
  }

  lemma {:induction false} RunAwake(mark: nat, steps: seq<Step>)
    requires 0 < mark <= BUDGET
    ensures Awake(Run(mark, steps))
  {
    if steps != [] {
      RunAwake(mark, steps[..|steps| - 1]);
      RunConserves(mark, steps[..|steps| - 1]);
      StepAwake(Run(mark, steps[..|steps| - 1]), steps[|steps| - 1]);
    }
  }

  /** Everything sent has left or waits, in order, exactly once; the queued count is exact. */
  lemma {:induction false} OutputIsExact(mark: nat, steps: seq<Step>)
    ensures Exact(Run(mark, steps))
  {
    RunConserves(mark, steps);
  }

  /** Queued lines and waiting readers always have a flush or a drain to come. */
  lemma {:induction false} NothingIsStranded(mark: nat, steps: seq<Step>)
    requires 0 < mark <= BUDGET
    ensures Attended(Run(mark, steps))
  {
    RunAwake(mark, steps);
  }

  /** Waiters are released once each, in the order they arrived. */
  lemma {:induction false} WaitersLeaveInOrder(mark: nat, steps: seq<Step>)
    ensures Upto(Run(mark, steps).released + Run(mark, steps).w.waiters, Run(mark, steps).tickets)
  {
    RunConserves(mark, steps);
  }

  /** The awaited callback: the drain listener, else the scheduled flush, else none. */
  function Awaited(x: World, after: nat): World {
    if x.w.draining then Apply(x, DrainRuns(true, after))
    else if x.flushes > 0 then Apply(x, FlushRuns(true, after))
    else x
  }

  /** When the awaited callback runs and the stream accepts the write, everything sent is out and nobody waits;
      when none is awaited, that is so already. */
  lemma {:induction false} FlushEmptiesTheQueue(mark: nat, steps: seq<Step>, after: nat)
    requires 0 < mark <= BUDGET && after < mark
    ensures Idle(Awaited(Run(mark, steps), after))
  {
    RunConserves(mark, steps);
    RunAwake(mark, steps);
    AwaitedIdles(Run(mark, steps), after);
  }

  lemma {:induction false} AwaitedIdles(x: World, after: nat)
    requires Conserved(x) && Awake(x) && after < x.mark
    ensures Idle(Awaited(x, after))
  {
    assert x.out + "" == x.out;
    if x.w.draining {
      FlushIdles(x.(drains := 0, buffered := 0, w := x.w.(draining := false)), after);
    } else if x.flushes > 0 {
      FlushIdles(x.(flushes := x.flushes - 1), after);
    }
  }

  lemma {:induction false} FlushIdles(x: World, after: nat)
    requires Exact(x) && !x.w.draining && x.buffered <= BUDGET && after < x.mark <= BUDGET
    ensures Idle(FlushWorld(x, true, after))
  {
    assert x.out + "" == x.out;
  }

  // ------------------------------------------------------------------ the object

  /** One flush of the object against the stream's answer. */
  method PerformFlush(s: Stdout, x: World, ok: bool, after: nat) returns (text: string, released: seq<nat>)
    requires s.View() == x.w
    modifies s
    ensures var n := FlushWorld(x, ok, after);
            s.View() == n.w && n.out == x.out + text && n.released == x.released + released
  {
    var data := s.BeginFlush();
    released := s.EndFlush(data.Some?, ok && after < x.mark, if data.Some? then after else x.buffered);
    text := if data.Some? then data.value else "";
  }

  method Perform(s: Stdout, x: World, step: Step) returns (text: string, released: seq<nat>)
    requires s.View() == x.w
    modifies s
    ensures var n := Apply(x, step);
            s.View() == n.w && n.out == x.out + text && n.released == x.released + released
  {
    text, released := "", [];
    match step
    case Sent(line) => var asked := s.Push(line);
    case FlushRuns(ok, after) =>
      if x.flushes > 0 {
        text, released := PerformFlush(s, x.(flushes := x.flushes - 1), ok, after);
      }
    case DrainRuns(ok, after) =>
      if x.drains > 0 {
        s.draining := false;
        var drained := x.(drains := x.drains - 1, buffered := 0, w := x.w.(draining := false));
        text, released := PerformFlush(s, drained, ok, after);
      }
    case DirectFlush(ok, after) => text, released := PerformFlush(s, x, ok, after);
    case RoomAsked => var waits := s.StdoutRoom(x.buffered, x.tickets);
    case BufferShrinks(to) =>
  }

  /** The object writes and releases what the runs say, callback after callback. */
  method Replay(mark: nat, steps: seq<Step>) returns (s: Stdout, out: string, released: seq<nat>)
    ensures var x := Run(mark, steps);
            fresh(s) && s.View() == x.w && out == x.out && released == x.released
  {
    s := new Stdout();
    out, released := "", [];
    var x := Begin(mark);
    for i := 0 to |steps|
      invariant fresh(s) && x == Run(mark, steps[..i]) && s.View() == x.w && out == x.out && released == x.released
    {
      assert steps[..i + 1][..i] == steps[..i];
      var text, tickets := Perform(s, x, steps[i]);
      out, released := out + text, released + tickets;
      x := Apply(x, steps[i]);
    }
    assert steps[..|steps|] == steps;
  }
}
