/**
 cosmos_curate/core/cf/nvcf_main.py: one pipeline request as interleaved atomic steps of the
 pipeline process, the progress thread (the pump, in file mode) and terminators.
 */
module RequestLifecycle {
  import opened Wrappers

  type Line = string

  /**
   Where the progress thread is: at the head of its loop, polling the status, in its inner loop,
   taking a line, deciding whether to flush, writing the files, clearing its buffer; then draining
   the queue, writing the rest, about to drop the done or failed file, finished.
   */
  datatype Pump = NotStarted | Loop | Poll | Scan | ScanPoll | Get | Decide | Write | Clear
                | Drain | Last | Drop | Finished

  /** The pipeline process: its exit code is first observed, then reported, then the stop event is set. */
  datatype Process = NotLaunched | Running | Exited(code: int) | Reported | Over

  /** Which of the request's marker files exist. */
  datatype Files = Files(progress: bool, done: bool, failed: bool)

  /** The log file, the pump's buffer, the queue, and all lines put so far. */
  datatype Lines = Lines(log: seq<Line>, buffer: seq<Line>, queue: seq<Line>, put: seq<Line>)

  datatype State = State(
    files: Files,
    lines: Lines,
    stop: bool,
    ipc: bool,             // ipc_status
    pump: Pump,
    process: Process,
    exitCode: Option<int>, // of the launched process, once it has exited
    workerLost: bool,      // the worker died without reporting an exit code
    checked: nat,          // terminators that have seen the request running
    terminated: bool)      // a terminator has touched the failed file

  datatype Status = NotFound | InProgress | Done | Failed

  /** _get_request_status: failed over done over found. */
  function StatusOf(s: State): Status {
    if s.files.failed then Failed else if s.files.done then Done else if s.files.progress then InProgress else NotFound
  }

  function Rank(status: Status): nat {
    match status
    case NotFound => 0
    case InProgress => 1
    case Done => 2
    case Failed => 3
  }

  /** `ok` is false when the status query or the metrics query raises; `due` is true five seconds after a flush. */
  datatype Action =
    | Setup
    | Pumps(ok: bool, due: bool)
    | Reject
    | Launch
    | Put(line: Line)
    | Exit(code: int)
    | Report
    | LoseWorker
    | SetStop
    | TerminatorChecks
    | TerminatorTouches
    | TerminatorGivesUp

  /** Take the head of the queue into the buffer. */
  function Take(l: Lines): Lines
    requires l.queue != []
  {
    l.(buffer := l.buffer + [l.queue[0]], queue := l.queue[1..])
  }

  /** Append the buffer to the log file. */
  function Flush(l: Lines): Lines {
    l.(log := l.log + l.buffer)
  }

  /** Stop the pump unless the request is seen to be running. */
  function PollStatus(s: State, ok: bool): bool {
    s.stop || (ok && StatusOf(s) != InProgress)
  }

  /** One step in the loop. */
  function LoopStep(s: State, ok: bool, due: bool): State
    requires !PastLoop(s.pump)
  {
    match s.pump
    case NotStarted => s
    case Loop => s.(pump := if s.stop then Drain else Poll)
    case Poll => s.(stop := PollStatus(s, ok), pump := Scan)
    case Scan => s.(pump := if s.stop then Decide else ScanPoll)
    case ScanPoll => s.(stop := PollStatus(s, ok), pump := Get)
    case Get => if s.lines.queue == [] then s.(pump := Decide) else s.(lines := Take(s.lines), pump := Scan)
    case Decide => s.(pump := if due || s.stop then Write else Loop)
    case Write => if ok then s.(lines := Flush(s.lines), pump := Clear) else s.(pump := Loop)
    case Clear => s.(lines := s.lines.(buffer := []), pump := Loop)
  }

  /** One step behind the loop: drain the queue, write the rest, drop the done or the failed file. */
  function EndStep(s: State): State
    requires PastLoop(s.pump)
  {
    match s.pump
    case Drain => if s.lines.queue == [] then s.(pump := Last) else s.(lines := Take(s.lines))
    case Last => s.(lines := Flush(s.lines), pump := Drop)
    case Drop =>
      if s.files.failed then s.(pump := Finished)
      else if s.ipc then s.(files := s.files.(done := true), pump := Finished)
      else s.(files := s.files.(failed := true), pump := Finished)
    case Finished => s
  }

  /** One atomic step of the progress thread. */
  function PumpStep(s: State, ok: bool, due: bool): State {
    if PastLoop(s.pump) then EndStep(s) else LoopStep(s, ok, due)
  }

  predicate Enabled(s: State, a: Action) {
    match a
    case Setup => s.pump == NotStarted
    case Pumps(_, _) => s.pump != NotStarted && s.pump != Finished
    case Reject | Launch => s.pump != NotStarted && s.process == NotLaunched
    case Put(_) | Exit(_) => s.process == Running
    case Report => s.process.Exited?
    case LoseWorker => s.process == Running || s.process.Exited?
    case SetStop => s.process == Reported
    case TerminatorChecks => StatusOf(s) == InProgress
    case TerminatorTouches | TerminatorGivesUp => s.checked > 0
  }

  function Apply(s: State, a: Action): State
    requires Enabled(s, a)
  {
    match a
    case Setup => s.(ipc := true, files := s.files.(progress := true), pump := Loop)
    case Pumps(ok, due) => PumpStep(s, ok, due)
    case Reject => s.(stop := true, process := Over)
    case Launch => s.(process := Running)
    case Put(line) => s.(lines := s.lines.(queue := s.lines.queue + [line], put := s.lines.put + [line]))
    case Exit(code) => s.(process := Exited(code), exitCode := Some(code))
    case Report => s.(ipc := s.ipc && s.process.code == 0, process := Reported)
    case LoseWorker => s.(workerLost := true, process := Reported)
    case SetStop => s.(stop := true, process := Over)
    case TerminatorChecks => s.(checked := s.checked + 1)
    case TerminatorTouches => s.(files := s.files.(failed := true), terminated := true, checked := s.checked - 1)
    case TerminatorGivesUp => s.(checked := s.checked - 1)
  }

  /** A request before its setup. Files that an earlier request with the same id has left behind may exist. */
  predicate Init(s: State) {
    && s.lines.buffer == [] && s.lines.queue == [] && s.lines.put == [] && !s.stop
    && s.pump == NotStarted && s.process == NotLaunched && s.exitCode == None
    && !s.workerLost && s.checked == 0 && !s.terminated
  }

  /** The state after the actions, if each of them was enabled in turn. */
  function Run(s: State, actions: seq<Action>): Option<State> {
    if actions == [] then Some(s)
    else
      match Run(s, actions[..|actions| - 1])
      case None => None
      case Some(m) =>
        var last := actions[|actions| - 1];
        if Enabled(m, last) then Some(Apply(m, last)) else None
  }

  // ----- the invariant -----

  /** The pump has left its loop. */
  predicate PastLoop(pump: Pump) {
    pump.Drain? || pump.Last? || pump.Drop? || pump.Finished?
  }

  /** The pump has emptied the queue for the last time. */
  predicate PastDrain(pump: Pump) {
    pump.Last? || pump.Drop? || pump.Finished?
  }

  /** The buffer has been written to the log file but not been cleared. */
  predicate Flushed(pump: Pump) {
    pump.Clear? || pump.Drop? || pump.Finished?
  }

  /** Every line put is in the log file, in the buffer (until that is flushed), or in the queue, once and in order. */
  predicate LinesConserved(s0: State, s: State) {
    s.lines.log + (if Flushed(s.pump) then [] else s.lines.buffer) + s.lines.queue == s0.lines.log + s.lines.put
  }

  /** No done or failed file is left over from an earlier request. */
  predicate FreshId(s0: State) {
    !s0.files.done && !s0.files.failed
  }

  /** A non-zero exit code has been observed. */
  predicate BadExit(s: State) {
    s.exitCode.Some? && s.exitCode.value != 0
  }

  /** What the files say, why the pump stops, and what the status flag says. */
  predicate Flags(s0: State, s: State) {
    && (s0.files.done ==> s.files.done) && (s0.files.failed ==> s.files.failed) && (s.terminated ==> s.files.failed)
    && (s.pump != NotStarted ==> s.files.progress)
    && (s.pump == NotStarted ==> !s.stop && s.process == NotLaunched)
    && (s.pump != Finished ==> (s.files.done ==> s0.files.done) && (s.files.failed ==> s.terminated || s0.files.failed))
    && (s.pump == Finished ==> s.files.done || s.files.failed)
    && (s.stop ==> s.process == Over || s.terminated || !FreshId(s0))
    && (PastLoop(s.pump) ==> s.stop)
    && (PastDrain(s.pump) && !s.terminated && FreshId(s0) ==> s.lines.queue == [])
    && (s.pump != NotStarted && !s.ipc ==> (s.process == Reported || s.process == Over) && BadExit(s))
    && (s.process.Exited? ==> s.exitCode == Some(s.process.code))
    && (s.process == NotLaunched || s.process == Running ==> s.exitCode == None)
    && ((s.process == Reported || s.process == Over) && BadExit(s) && !s.workerLost ==> !s.ipc)
    && (s.workerLost ==> (s.process == Reported || s.process == Over) && (s.pump != NotStarted && s.ipc))
    && (s.pump == Finished && !s.files.failed && !s0.files.done ==> s.process == Over && s.ipc)
    && (s.pump == Finished && s.files.failed && FreshId(s0) ==> s.terminated || !s.ipc)
  }

  predicate Invariant(s0: State, s: State) {
    LinesConserved(s0, s) && Flags(s0, s)
  }

  lemma PollMovesStop(s: State, ok: bool, due: bool)
    requires s.pump.Poll? || s.pump.ScanPoll?
    ensures PumpStep(s, ok, due) == s.(stop := PollStatus(s, ok), pump := if s.pump.Poll? then Scan else Get)
  {
    hide PollStatus;
  }

  lemma PollKeepsFlags(s0: State, s: State, ok: bool, due: bool)
    requires Flags(s0, s) && (s.pump.Poll? || s.pump.ScanPoll?)
    ensures Flags(s0, PumpStep(s, ok, due))
  {
    PollMovesStop(s, ok, due);
    hide PumpStep;
  }

  lemma LoopKeepsFlags(s0: State, s: State, ok: bool, due: bool)
    requires Flags(s0, s) && !PastLoop(s.pump) && !s.pump.Poll? && !s.pump.ScanPoll?
    ensures Flags(s0, PumpStep(s, ok, due))
  {
    LoopMovesPumpOnly(s, ok, due);
    hide PumpStep;
  }

  lemma LoopMovesPumpOnly(s: State, ok: bool, due: bool)
    requires !PastLoop(s.pump) && !s.pump.Poll? && !s.pump.ScanPoll?
    ensures var s' := PumpStep(s, ok, due);
            && s' == s.(pump := s'.pump, lines := s'.lines)
            && (PastLoop(s'.pump) ==> s.stop) && !PastDrain(s'.pump)
            && (s'.pump == NotStarted <==> s.pump == NotStarted)
  {
    hide PollStatus;
    hide Take;
    hide Flush;
  }

  lemma EndKeepsFlags(s0: State, s: State, ok: bool, due: bool)
    requires Flags(s0, s) && PastLoop(s.pump)
    ensures Flags(s0, PumpStep(s, ok, due))
  {
  }

  /** Everything the pipeline process and its caller do. */
  predicate IsProcess(a: Action) {
    a.Reject? || a.Launch? || a.Put? || a.Exit? || a.Report? || a.LoseWorker? || a.SetStop?
  }

  lemma ProcessKeepsFlags(s0: State, s: State, a: Action)
    requires Flags(s0, s) && Enabled(s, a) && IsProcess(a)
    ensures Flags(s0, Apply(s, a))
  {
  }

  lemma SetupKeepsFlags(s0: State, s: State)
    requires Flags(s0, s) && Enabled(s, Setup)
    ensures Flags(s0, Apply(s, Setup))
  {
    hide PumpStep;
  }

  lemma OthersKeepFlags(s0: State, s: State, a: Action)
    requires Flags(s0, s) && Enabled(s, a) && !a.Pumps? && !IsProcess(a)
    ensures Flags(s0, Apply(s, a))
  {
    hide PumpStep;
    if a.Setup? {
      SetupKeepsFlags(s0, s);
    }
  }

  lemma StepKeepsFlags(s0: State, s: State, a: Action)
    requires Flags(s0, s) && Enabled(s, a)
    ensures Flags(s0, Apply(s, a))
  {
    hide Flags;
    if a.Pumps? {
      hide PumpStep;
      if PastLoop(s.pump) {
        EndKeepsFlags(s0, s, a.ok, a.due);
      } else if s.pump.Poll? || s.pump.ScanPoll? {
        PollKeepsFlags(s0, s, a.ok, a.due);
      } else {
        LoopKeepsFlags(s0, s, a.ok, a.due);
      }
    } else if IsProcess(a) {
      ProcessKeepsFlags(s0, s, a);
    } else {
      OthersKeepFlags(s0, s, a);
    }
  }

  lemma TakeKeepsLines(l: Lines, all: seq<Line>)
    requires l.queue != [] && l.log + l.buffer + l.queue == all
    ensures Take(l).log + Take(l).buffer + Take(l).queue == all
  {
    assert l.queue == [l.queue[0]] + l.queue[1..];
  }

  /** In its loop the pump moves lines only when it takes one, writes its buffer, or clears it. */
  lemma LoopMovesLines(s: State, ok: bool, due: bool)
    requires !PastLoop(s.pump)
    ensures var s' := PumpStep(s, ok, due);
            s'.lines == (if s.pump.Get? && s.lines.queue != [] then Take(s.lines)
                         else if s.pump.Write? && ok then Flush(s.lines)
                         else if s.pump.Clear? then s.lines.(buffer := [])
                         else s.lines)
  {
    hide PollStatus;
    hide Take;
    hide Flush;
  }

  lemma LoopFlushes(s: State, ok: bool, due: bool)
    requires !PastLoop(s.pump)
    ensures Flushed(PumpStep(s, ok, due).pump) <==> s.pump.Write? && ok
  {
    hide PollStatus;
    hide Take;
    hide Flush;
  }

  lemma EndMovesLines(s: State, ok: bool, due: bool)
    requires PastLoop(s.pump)
    ensures var s' := PumpStep(s, ok, due);
            && s'.lines == (if s.pump.Drain? && s.lines.queue != [] then Take(s.lines)
                            else if s.pump.Last? then Flush(s.lines)
                            else s.lines)
            && (Flushed(s'.pump) <==> !s.pump.Drain?)
  {
  }

  lemma PumpKeepsLines(s0: State, s: State, ok: bool, due: bool)
    requires LinesConserved(s0, s)
    ensures LinesConserved(s0, PumpStep(s, ok, due))
  {
    var l := s.lines;
    if PastLoop(s.pump) {
      EndMovesLines(s, ok, due);
    } else {
      LoopMovesLines(s, ok, due);
      LoopFlushes(s, ok, due);
    }
    hide PumpStep;
    if (s.pump.Get? || s.pump.Drain?) && l.queue != [] {
      TakeKeepsLines(l, s0.lines.log + l.put);
    } else if (s.pump.Write? && ok) || s.pump.Last? {
      assert Flush(l).log + [] + l.queue == l.log + l.buffer + l.queue;
    } else if s.pump.Clear? {
      assert l.log + [] + l.queue == s0.lines.log + l.put;
    }
  }

  lemma StepKeepsLines(s0: State, s: State, a: Action)
    requires LinesConserved(s0, s) && Enabled(s, a)
    ensures LinesConserved(s0, Apply(s, a))
  {
    if a.Put? {
      var l := s.lines;
      var unwritten := if Flushed(s.pump) then [] else l.buffer;
      assert l.log + unwritten + (l.queue + [a.line]) == (l.log + unwritten + l.queue) + [a.line];
      assert s0.lines.log + (l.put + [a.line]) == (s0.lines.log + l.put) + [a.line];
    } else if a.Pumps? {
      PumpKeepsLines(s0, s, a.ok, a.due);
    } else {
      assert Apply(s, a).lines == s.lines && Flushed(Apply(s, a).pump) == Flushed(s.pump);
    }
  }

  lemma {:induction false} RunKeepsInvariant(s0: State, actions: seq<Action>)
    requires Init(s0) && Run(s0, actions).Some?
    ensures Invariant(s0, Run(s0, actions).value)
  {
    if actions != [] {
      var init, last := actions[..|actions| - 1], actions[|actions| - 1];
      RunKeepsInvariant(s0, init);
      StepKeepsFlags(s0, Run(s0, init).value, last);
      StepKeepsLines(s0, Run(s0, init).value, last);
    }
  }

  // ----- log conservation -----

  /**
   While the progress thread is between its steps, the log file, the unwritten buffer and the
   queue hold every line put so far, whichever metrics queries have failed.
   */
  lemma LogConservation(s0: State, actions: seq<Action>)
    requires Init(s0) && Run(s0, actions).Some?
    ensures LinesConserved(s0, Run(s0, actions).value)
  {
    RunKeepsInvariant(s0, actions);
  }

  /**
   Under a fresh id and without termination the final log is every line exactly once, in order, and
   nothing follows.
   */
  lemma FinalLogIsComplete(s0: State, actions: seq<Action>)
    requires Init(s0) && FreshId(s0) && Run(s0, actions).Some?
    requires var s := Run(s0, actions).value; s.pump == Finished && !s.terminated
    ensures var s := Run(s0, actions).value; s.lines.log == s0.lines.log + s.lines.put && s.process == Over
  {
    RunKeepsInvariant(s0, actions);
  }

  /** A run to the end of both participants that no terminator has touched. */
  ghost predicate QuietRun(s0: State, actions: seq<Action>) {
    && Run(s0, actions).Some?
    && var s := Run(s0, actions).value;
       s.pump == Finished && s.process == Over && !s.terminated
  }

  ghost predicate LogIsComplete(s0: State, s: State) {
    s.lines.log == s0.lines.log + s.lines.put
  }

  /** Without termination every line always reaches the log if and only if no done or failed file is left over. */
  lemma LogIsCompleteIff(s0: State)
    requires Init(s0)
    ensures (forall actions :: QuietRun(s0, actions) ==> LogIsComplete(s0, Run(s0, actions).value)) <==> FreshId(s0)
  {
    if FreshId(s0) {
      forall actions | QuietRun(s0, actions)
        ensures LogIsComplete(s0, Run(s0, actions).value)
      {
        FinalLogIsComplete(s0, actions);
      }
    } else {
      var actions := LostLine(s0);
      assert QuietRun(s0, actions);
    }
  }

  /** A reused id: the pump sees the old file and returns; what the process prints afterwards stays in the queue. */
  lemma LostLine(s0: State) returns (actions: seq<Action>)
    requires Init(s0) && !FreshId(s0)
    ensures QuietRun(s0, actions) && !LogIsComplete(s0, Run(s0, actions).value)
    ensures Run(s0, actions).value.exitCode == Some(0)
  {
    hide PumpStep;
    var s;
    s, actions := EarlyEnd(s0);
    s, actions := Extend(s0, s, actions, Put("line"));
    s, actions := ProcessEnds(s0, s, actions, 0);
    assert s.lines.log == s0.lines.log && s.lines.put == ["line"];
  }

  // ----- progress of the log -----

  lemma DecideStep(s: State, ok: bool, due: bool)
    requires s.pump == Decide
    ensures PumpStep(s, ok, due) == s.(pump := if due || s.stop then Write else Loop)
  {
  }

  lemma WriteStep(s: State, ok: bool, due: bool)
    requires s.pump == Write
    ensures PumpStep(s, ok, due) ==
            if ok then s.(pump := Clear, lines := s.lines.(log := s.lines.log + s.lines.buffer)) else s.(pump := Loop)
  {
  }

  lemma ClearStep(s: State, ok: bool, due: bool)
    requires s.pump == Clear
    ensures PumpStep(s, ok, due) == s.(pump := Loop, lines := s.lines.(buffer := []))
  {
  }

  /**
   From a decision with a flush due or the pump stopped, a working query writes the whole buffer, and
   then clears it.
   */
  lemma DueFlush(s0: State, actions: seq<Action>, first: Action, second: Action, third: Action)
    requires Run(s0, actions).Some? && first.Pumps? && second.Pumps? && third.Pumps? && second.ok
    requires var s := Run(s0, actions).value; s.pump == Decide && (first.due || s.stop)
    ensures var l := Run(s0, actions).value.lines;
            && Run(s0, actions + [first] + [second]).Some?
            && Run(s0, actions + [first] + [second]).value.lines == l.(log := l.log + l.buffer)
            && Run(s0, actions + [first] + [second] + [third]).Some?
            && Run(s0, actions + [first] + [second] + [third]).value.lines == l.(log := l.log + l.buffer, buffer := [])
            && Run(s0, actions + [first] + [second] + [third]).value.pump == Loop
  {
    hide PumpStep;
    var s := Run(s0, actions).value;
    DueFlushWrites(s0, actions, first, second);
    hide Run;
    var s2 := s.(pump := Clear, lines := s.lines.(log := s.lines.log + s.lines.buffer));
    var s3, a3 := Extend(s0, s2, actions + [first] + [second], third);
    ClearStep(s2, third.ok, third.due);
  }

  lemma DueFlushWrites(s0: State, actions: seq<Action>, first: Action, second: Action)
    requires Run(s0, actions).Some? && first.Pumps? && second.Pumps? && second.ok
    requires var s := Run(s0, actions).value; s.pump == Decide && (first.due || s.stop)
    ensures var s := Run(s0, actions).value;
            Run(s0, actions + [first] + [second]) ==
            Some(s.(pump := Clear, lines := s.lines.(log := s.lines.log + s.lines.buffer)))
  {
    hide PumpStep;
    var s := Run(s0, actions).value;
    hide Run;
    var s1, a1 := Extend(s0, s, actions, first);
    DecideStep(s, first.ok, first.due);
    var s2, a2 := Extend(s0, s1, a1, second);
    WriteStep(s1, second.ok, second.due);
  }

  /** With no flush due and the pump not stopped, nothing is written and the pump is back at its loop head. */
  lemma NoFlushDue(s0: State, actions: seq<Action>, ok: bool)
    requires Run(s0, actions).Some?
    requires var s := Run(s0, actions).value; s.pump == Decide && !s.stop
    ensures Run(s0, actions + [Pumps(ok, false)]) == Some(Run(s0, actions).value.(pump := Loop))
  {
    var s', more := Extend(s0, Run(s0, actions).value, actions, Pumps(ok, false));
    hide Run;
  }

  /** A failed query keeps all lines where they are, so the next flush that is due writes them. */
  lemma FailedFlush(s0: State, actions: seq<Action>, first: Action, due: bool)
    requires Run(s0, actions).Some? && first.Pumps?
    requires var s := Run(s0, actions).value; s.pump == Decide && (first.due || s.stop)
    ensures Run(s0, actions + [first] + [Pumps(false, due)]) == Some(Run(s0, actions).value.(pump := Loop))
  {
    hide PumpStep;
    var s := Run(s0, actions).value;
    var s1, a1 := Extend(s0, s, actions, first);
    DecideStep(s, first.ok, first.due);
    var s2, a2 := Extend(s0, s1, a1, Pumps(false, due));
    WriteStep(s1, false, due);
    hide Run;
  }

  /** When the pump finds the queue empty, a due flush right afterwards leaves every line put so far in the log file. */
  lemma DueFlushIsComplete(s0: State, actions: seq<Action>, first: Action, second: Action, third: Action)
    requires Init(s0) && Run(s0, actions).Some? && first.Pumps? && second.Pumps? && third.Pumps?
    requires second.due && third.ok
    requires var s := Run(s0, actions).value; s.pump == Get && s.lines.queue == []
    ensures Run(s0, actions + [first] + [second] + [third]).Some?
    ensures var s' := Run(s0, actions + [first] + [second] + [third]).value;
            s'.lines.log == s0.lines.log + Run(s0, actions).value.lines.put
  {
    var s := Run(s0, actions).value;
    RunKeepsInvariant(s0, actions);
    var s1, a1 := Extend(s0, s, actions, first);
    assert s1 == s.(pump := Decide);
    DueFlush(s0, a1, second, third, third);
    hide Run;
    hide PumpStep;
    assert s.lines.log + s.lines.buffer + [] == s.lines.log + s.lines.buffer;
  }

  /** So many steps of the pump alone, with a working query and a flush due. */
  function PumpSteps(n: nat): seq<Action> {
    seq(n, _ => Pumps(true, true))
  }

  ghost predicate Reaches(s0: State, actions: seq<Action>, n: nat, s: State) {
    Run(s0, actions + PumpSteps(n)) == Some(s)
  }

  lemma ReachesNow(s0: State, actions: seq<Action>, s: State)
    requires Run(s0, actions) == Some(s)
    ensures Reaches(s0, actions, 0, s)
  {
    assert actions + PumpSteps(0) == actions;
  }

  lemma PumpOnce(s0: State, actions: seq<Action>, n: nat, s: State)
    requires Reaches(s0, actions, n, s) && s.pump != NotStarted && s.pump != Finished
    ensures Reaches(s0, actions, n + 1, PumpStep(s, true, true))
  {
    hide PumpStep;
    var s', more := Extend(s0, s, actions + PumpSteps(n), Pumps(true, true));
    assert more == actions + PumpSteps(n + 1);
  }

  /** The state with the whole queue taken into the buffer, in order, and the pump at `next`. */
  function AllTaken(s: State, next: Pump): State {
    s.(pump := next, lines := s.lines.(buffer := s.lines.buffer + s.lines.queue, queue := []))
  }

  lemma AllTakenStep(s: State, next: Pump)
    ensures s.lines.queue == [] ==> AllTaken(s, next) == s.(pump := next)
    ensures s.lines.queue != [] ==> AllTaken(s.(lines := Take(s.lines)), next) == AllTaken(s, next)
  {
    var l := s.lines;
    if l.queue == [] {
      assert l.buffer + [] == l.buffer;
    } else {
      assert l.buffer + [l.queue[0]] + l.queue[1..] == l.buffer + l.queue;
    }
  }

  /** While the request is running the inner loop moves the whole queue into the buffer, in order. */
  lemma {:induction false} ScanTakesAll(s0: State, actions: seq<Action>, n: nat, s: State)
    requires Reaches(s0, actions, n, s)
    requires s.pump == Scan && !s.stop && StatusOf(s) == InProgress
    ensures Reaches(s0, actions, n + 3 * |s.lines.queue| + 3, AllTaken(s, Decide))
    decreases |s.lines.queue|
  {
    ScanStep(s0, actions, n, s);
    AllTakenStep(s, Decide);
    hide Reaches;
    hide AllTaken;
    if s.lines.queue != [] {
      ScanTakesAll(s0, actions, n + 3, s.(lines := Take(s.lines)));
    }
  }

  lemma ScanStep(s0: State, actions: seq<Action>, n: nat, s: State)
    requires Reaches(s0, actions, n, s)
    requires s.pump == Scan && !s.stop && StatusOf(s) == InProgress
    ensures Reaches(s0, actions, n + 3, if s.lines.queue == [] then s.(pump := Decide) else s.(lines := Take(s.lines)))
  {
    hide Reaches;
    PumpOnce(s0, actions, n, s);
    PumpOnce(s0, actions, n + 1, s.(pump := ScanPoll));
    PumpOnce(s0, actions, n + 2, s.(pump := Get));
  }

  /**
   One undisturbed pass of the pump while the request is running, with a flush due: every line put
   so far is in the log file, and the pump is back at its loop head with nothing in hand.
   */
  lemma PassWritesAll(s0: State, actions: seq<Action>, s: State)
    requires Init(s0) && Run(s0, actions) == Some(s)
    requires s.pump == Loop && !s.stop && StatusOf(s) == InProgress
    ensures Reaches(s0, actions, 3 * |s.lines.queue| + 8,
                    s.(lines := s.lines.(log := s0.lines.log + s.lines.put, buffer := [], queue := [])))
  {
    RunKeepsInvariant(s0, actions);
    PassResult(s0, s);
    PassFlushes(s0, actions, s);
    hide Reaches;
    hide Run;
    hide StatusOf;
    hide Invariant;
    hide AllTaken;
    hide Init;
  }

  lemma PassFlushes(s0: State, actions: seq<Action>, s: State)
    requires Run(s0, actions) == Some(s)
    requires s.pump == Loop && !s.stop && StatusOf(s) == InProgress
    ensures var taken := AllTaken(s, Decide);
            Reaches(s0, actions, 3 * |s.lines.queue| + 8,
                    taken.(pump := Loop,
                           lines := taken.lines.(log := taken.lines.log + taken.lines.buffer, buffer := [])))
  {
    hide Reaches;
    hide Run;
    hide StatusOf;
    StartsPass(s0, actions, s);
    var scan, n := s.(pump := Scan), 3 * |s.lines.queue| + 5;
    assert scan.lines == s.lines && !scan.stop;
    ScanTakesAll(s0, actions, 2, scan);
    assert AllTaken(scan, Decide) == AllTaken(s, Decide) && AllTaken(s, Decide).pump == Decide;
    hide AllTaken;
    FlushReaches(s0, actions, n, AllTaken(s, Decide));
  }

  lemma PassResult(s0: State, s: State)
    requires Invariant(s0, s) && s.pump == Loop
    ensures var taken := AllTaken(s, Decide);
            taken.(pump := Loop, lines := taken.lines.(log := taken.lines.log + taken.lines.buffer, buffer := []))
            == s.(lines := s.lines.(log := s0.lines.log + s.lines.put, buffer := [], queue := []))
  {
    AllInHand(s0, s);
    hide Invariant;
  }

  lemma AllInHand(s0: State, s: State)
    requires Invariant(s0, s) && s.pump == Loop
    ensures s.lines.log + (s.lines.buffer + s.lines.queue) == s0.lines.log + s.lines.put
  {
    assert s.lines.log + (s.lines.buffer + s.lines.queue) == s.lines.log + s.lines.buffer + s.lines.queue;
  }

  lemma StartsPass(s0: State, actions: seq<Action>, s: State)
    requires Run(s0, actions) == Some(s)
    requires s.pump == Loop && !s.stop && StatusOf(s) == InProgress
    ensures Reaches(s0, actions, 2, s.(pump := Scan)) && StatusOf(s.(pump := Scan)) == InProgress
  {
    hide Reaches;
    hide Run;
    hide PumpStep;
    hide StatusOf;
    ReachesNow(s0, actions, s);
    PollSteps(s);
    PumpOnce(s0, actions, 0, s);
    var poll := PumpStep(s, true, true);
    assert poll.pump == Poll;
    PumpOnce(s0, actions, 1, poll);
  }

  lemma PollSteps(s: State)
    requires s.pump == Loop && !s.stop && StatusOf(s) == InProgress
    ensures PumpStep(s, true, true) == s.(pump := Poll)
    ensures PumpStep(PumpStep(s, true, true), true, true) == s.(pump := Scan)
    ensures StatusOf(s.(pump := Scan)) == InProgress
  {
    assert StatusOf(s.(pump := Poll)) == StatusOf(s) == StatusOf(s.(pump := Scan));
  }

  lemma FlushReaches(s0: State, actions: seq<Action>, n: nat, s: State)
    requires Reaches(s0, actions, n, s) && s.pump == Decide
    ensures Reaches(s0, actions, n + 3,
                    s.(pump := Loop, lines := s.lines.(log := s.lines.log + s.lines.buffer, buffer := [])))
  {
    hide Reaches;
    hide PumpStep;
    var s1, s2 := PumpStep(s, true, true), PumpStep(PumpStep(s, true, true), true, true);
    DecideStep(s, true, true);
    WriteStep(s1, true, true);
    ClearStep(s2, true, true);
    PumpOnce(s0, actions, n, s);
    PumpOnce(s0, actions, n + 1, s1);
    PumpOnce(s0, actions, n + 2, s2);
  }

  lemma DrainStep(s: State)
    requires s.pump == Drain
    ensures PumpStep(s, true, true) == if s.lines.queue == [] then s.(pump := Last) else s.(lines := Take(s.lines))
  {
  }

  /** Once stopped, the pump drains the queue. */
  lemma {:induction false} DrainTakesAll(s0: State, actions: seq<Action>, n: nat, s: State)
    requires Reaches(s0, actions, n, s) && s.pump == Drain
    ensures Reaches(s0, actions, n + |s.lines.queue| + 1, AllTaken(s, Last))
    decreases |s.lines.queue|
  {
    hide PumpStep;
    hide Reaches;
    DrainStep(s);
    PumpOnce(s0, actions, n, s);
    AllTakenStep(s, Last);
    hide AllTaken;
    if s.lines.queue != [] {
      DrainTakesAll(s0, actions, n + 1, s.(lines := Take(s.lines)));
    }
  }

  /**
   The files after the pump has dropped its own: done for success, failed otherwise, unless one says
   failed already.
   */
  function Dropped(s: State): Files {
    if s.files.failed then s.files
    else if s.ipc then s.files.(done := true)
    else s.files.(failed := true)
  }

  /** From its loop head a stopped pump ends in one step a line and four more, with every line put so far in the log. */
  lemma StoppedPumpEnds(s0: State, actions: seq<Action>, s: State) returns (s': State)
    requires Init(s0) && Run(s0, actions) == Some(s) && s.pump == Loop && s.stop
    ensures Reaches(s0, actions, |s.lines.queue| + 4, s')
    ensures s' == s.(pump := Finished, files := Dropped(s), lines := s'.lines)
    ensures s'.lines.log == s0.lines.log + s.lines.put && s'.lines.put == s.lines.put && s'.lines.queue == []
  {
    var n := |s.lines.queue| + 2;
    RunKeepsInvariant(s0, actions);
    AllInHand(s0, s);
    StartsDrain(s0, actions, s);
    DrainTakesAll(s0, actions, 1, s.(pump := Drain));
    s' := DropReaches(s0, actions, n, AllTaken(s, Last));
    hide Reaches;
    hide Run;
    hide Dropped;
    hide Invariant;
  }

  lemma StartsDrain(s0: State, actions: seq<Action>, s: State)
    requires Run(s0, actions) == Some(s) && s.pump == Loop && s.stop
    ensures Reaches(s0, actions, 1, s.(pump := Drain))
  {
    ReachesNow(s0, actions, s);
    hide Reaches;
    hide Run;
    PumpOnce(s0, actions, 0, s);
  }

  lemma DropReaches(s0: State, actions: seq<Action>, n: nat, s: State) returns (s': State)
    requires Reaches(s0, actions, n, s) && s.pump == Last
    ensures Reaches(s0, actions, n + 2, s')
    ensures s' == s.(pump := Finished, files := Dropped(s), lines := s.lines.(log := s.lines.log + s.lines.buffer))
  {
    hide Reaches;
    PumpOnce(s0, actions, n, s);
    var flushed := s.(pump := Drop, lines := s.lines.(log := s.lines.log + s.lines.buffer));
    assert PumpStep(s, true, true) == flushed;
    PumpOnce(s0, actions, n + 1, flushed);
    s' := PumpStep(flushed, true, true);
  }

  // ----- status -----

  lemma PumpAddsFiles(s: State, ok: bool, due: bool)
    ensures FilesGrow(s.files, PumpStep(s, ok, due).files)
  {
    if PastLoop(s.pump) {
      hide Take;
      hide Flush;
    } else {
      LoopKeepsFiles(s, ok, due);
      hide LoopStep;
    }
  }

  lemma LoopKeepsFiles(s: State, ok: bool, due: bool)
    requires !PastLoop(s.pump)
    ensures LoopStep(s, ok, due).files == s.files
  {
    hide PollStatus;
    hide Take;
    hide Flush;
  }

  /** No marker file is ever removed. */
  predicate FilesGrow(before: Files, after: Files) {
    && (before.progress ==> after.progress)
    && (before.done ==> after.done)
    && (before.failed ==> after.failed)
  }

  lemma StepClimbs(s: State, a: Action)
    requires Enabled(s, a)
    ensures Rank(StatusOf(s)) <= Rank(StatusOf(Apply(s, a)))
  {
    if a.Pumps? {
      PumpAddsFiles(s, a.ok, a.due);
    }
    hide PumpStep;
    assert FilesGrow(s.files, Apply(s, a).files);
    hide Apply;
  }

  /** The status only climbs, along every run from every reachable state. */
  lemma {:induction false} StatusOnlyClimbs(s: State, actions: seq<Action>)
    requires Run(s, actions).Some?
    ensures Rank(StatusOf(s)) <= Rank(StatusOf(Run(s, actions).value))
  {
    if actions != [] {
      var init := actions[..|actions| - 1];
      StatusOnlyClimbs(s, init);
      StepClimbs(Run(s, init).value, actions[|actions| - 1]);
    }
  }

  /** Once the progress thread has finished the request is done or failed. */
  lemma FinishedIsDecided(s0: State, actions: seq<Action>)
    requires Init(s0) && Run(s0, actions).Some? && Run(s0, actions).value.pump == Finished
    ensures StatusOf(Run(s0, actions).value) in {Done, Failed}
  {
    RunKeepsInvariant(s0, actions);
  }

  /**
   Unless a stale done file stands alone, the final status is failed exactly when a stale failed
   file was there, a terminator touched the failed file, or a non-zero exit was seen by a worker
   that lived to report it.
   */
  lemma FinalStatus(s0: State, actions: seq<Action>)
    requires Init(s0) && (s0.files.done ==> s0.files.failed) && Run(s0, actions).Some?
    requires var s := Run(s0, actions).value; s.pump == Finished && s.process == Over
    ensures var s := Run(s0, actions).value;
            StatusOf(s) == Failed <==> s0.files.failed || s.terminated || (BadExit(s) && !s.workerLost)
  {
    RunKeepsInvariant(s0, actions);
  }

  /** A run to the end of both participants whose process exited with a non-zero code. */
  ghost predicate FailingRun(s0: State, actions: seq<Action>) {
    && Run(s0, actions).Some?
    && var s := Run(s0, actions).value;
       s.pump == Finished && s.process == Over && BadExit(s)
  }

  ghost predicate EndsFailed(s0: State, actions: seq<Action>)
    requires FailingRun(s0, actions)
  {
    StatusOf(Run(s0, actions).value) == Failed
  }

  /**
   While workers live to report their exit code, a failing process always ends as failed if and
   only if there is no stale done file, or a stale failed file outranks it.
   */
  lemma FailureIsVisibleIff(s0: State)
    requires Init(s0)
    ensures (forall actions :: FailingRun(s0, actions) && !Run(s0, actions).value.workerLost ==>
              EndsFailed(s0, actions))
            <==> (!s0.files.done || s0.files.failed)
  {
    if !s0.files.done || s0.files.failed {
      forall actions | FailingRun(s0, actions) && !Run(s0, actions).value.workerLost
        ensures EndsFailed(s0, actions)
      {
        FinalStatus(s0, actions);
      }
    } else {
      var actions := HiddenFailure(s0);
      assert FailingRun(s0, actions) && !EndsFailed(s0, actions);
    }
  }

  /** When workers may also die before they report it, only a stale failed file makes every failure visible. */
  lemma FailureIsAlwaysVisibleIff(s0: State)
    requires Init(s0)
    ensures (forall actions :: FailingRun(s0, actions) ==> EndsFailed(s0, actions)) <==> s0.files.failed
  {
    if s0.files.failed {
      forall actions | FailingRun(s0, actions)
        ensures EndsFailed(s0, actions)
      {
        FinalStatus(s0, actions);
      }
    } else {
      var actions := LostFailure(s0);
      assert FailingRun(s0, actions) && !EndsFailed(s0, actions);
    }
  }

  /** A reused id: the pump sees the old done file, stops, and reports success before the process fails. */
  lemma HiddenFailure(s0: State) returns (actions: seq<Action>)
    requires Init(s0) && s0.files.done && !s0.files.failed
    ensures FailingRun(s0, actions) && StatusOf(Run(s0, actions).value) == Done
    ensures var s := Run(s0, actions).value; !s.terminated && !s.workerLost
  {
    hide PumpStep;
    var s;
    s, actions := EarlyEnd(s0);
    s, actions := ProcessEnds(s0, s, actions, 1);
  }

  /**
   Any id, fresh or not: the worker dies between the exit of its process and the report, and the pump
   drops a done file.
   */
  lemma LostFailure(s0: State) returns (actions: seq<Action>)
    requires Init(s0) && !s0.files.failed
    ensures FailingRun(s0, actions) && StatusOf(Run(s0, actions).value) == Done
    ensures var s := Run(s0, actions).value; !s.terminated && s.workerLost
  {
    hide PumpStep;
    var s := s0;
    actions := [];
    assert Run(s0, actions) == Some(s);
    hide Run;
    s, actions := Extend(s0, s, actions, Setup);
    s, actions := Extend(s0, s, actions, Launch);
    s, actions := Extend(s0, s, actions, Exit(1));
    s, actions := Extend(s0, s, actions, LoseWorker);
    s, actions := Extend(s0, s, actions, SetStop);
    s, actions := PumpEnds(s0, s, actions);
  }

  /** With a left-over done or failed file the pump may finish before the process does anything. */
  lemma EarlyEnd(s0: State) returns (s: State, actions: seq<Action>)
    requires Init(s0) && !FreshId(s0)
    ensures Run(s0, actions) == Some(s)
    ensures s.pump == Finished && s.process == Running && s.ipc && !s.terminated && !s.workerLost && s.exitCode == None
    ensures s.files == s0.files.(progress := true, done := s0.files.done || !s0.files.failed)
    ensures s.lines == s0.lines
  {
    hide PumpStep;
    s, actions := s0, [];
    s, actions := Extend(s0, s, actions, Setup);
    s, actions := Extend(s0, s, actions, Launch);
    s, actions := PumpGivesUp(s0, s, actions);
    s, actions := PumpEnds(s0, s, actions);
  }

  /** The process exits, its worker reports the code, and the stop event is set. */
  lemma ProcessEnds(s0: State, s: State, actions: seq<Action>, code: int) returns (s': State, more: seq<Action>)
    requires Run(s0, actions) == Some(s) && s.process == Running
    ensures Run(s0, more) == Some(s')
    ensures s' == s.(stop := true, process := Over, exitCode := Some(code), ipc := s.ipc && code == 0)
  {
    s', more := Extend(s0, s, actions, Exit(code));
    s', more := Extend(s0, s', more, Report);
    s', more := Extend(s0, s', more, SetStop);
  }

  /**
   From its loop head the pump polls, sees that the request is not running, flushes nothing and is
   back at its loop head.
   */
  lemma PumpGivesUp(s0: State, s: State, actions: seq<Action>) returns (s': State, more: seq<Action>)
    requires Run(s0, actions) == Some(s)
    requires s.pump == Loop && !s.stop && StatusOf(s) != InProgress && s.lines.buffer == []
    ensures Run(s0, more) == Some(s')
    ensures s' == s.(stop := true)
  {
    hide PumpStep;
    s', more := PumpStops(s0, s, actions);
    s', more := PumpFlushesNothing(s0, s', more);
  }

  lemma PumpStops(s0: State, s: State, actions: seq<Action>) returns (s': State, more: seq<Action>)
    requires Run(s0, actions) == Some(s)
    requires s.pump == Loop && !s.stop && StatusOf(s) != InProgress
    ensures Run(s0, more) == Some(s')
    ensures s' == s.(stop := true, pump := Decide)
  {
    hide Run;
    var p := Pumps(true, false);
    s', more := Extend(s0, s, actions, p);
    s', more := Extend(s0, s', more, p);
    s', more := Extend(s0, s', more, p);
  }

  lemma PumpFlushesNothing(s0: State, s: State, actions: seq<Action>) returns (s': State, more: seq<Action>)
    requires Run(s0, actions) == Some(s)
    requires s.pump == Decide && s.stop && s.lines.buffer == []
    ensures Run(s0, more) == Some(s')
    ensures s' == s.(pump := Loop)
  {
    hide Run;
    hide StatusOf;
    assert s.lines.log + [] == s.lines.log;
    var p := Pumps(true, false);
    s', more := Extend(s0, s, actions, p);
    s', more := Extend(s0, s', more, p);
    s', more := Extend(s0, s', more, p);
  }

  /** With the stop event set and nothing to write the pump drops its file and finishes. */
  lemma PumpEnds(s0: State, s: State, actions: seq<Action>) returns (s': State, more: seq<Action>)
    requires Run(s0, actions) == Some(s)
    requires s.pump == Loop && s.stop && s.ipc && s.lines.queue == [] && s.lines.buffer == []
    ensures Run(s0, more) == Some(s')
    ensures s' == s.(pump := Finished, files := s.files.(done := s.files.done || !s.files.failed))
  {
    hide PumpStep;
    s', more := Pump2(s0, s, actions);
    s', more := Pump2(s0, s', more);
  }

  lemma Pump2(s0: State, s: State, actions: seq<Action>) returns (s': State, more: seq<Action>)
    requires Run(s0, actions) == Some(s) && s.lines.buffer == []
    requires (s.pump == Loop && s.stop && s.lines.queue == []) || (s.pump == Last && s.ipc)
    ensures Run(s0, more) == Some(s')
    ensures s.pump == Loop ==> s' == s.(pump := Last)
    ensures s.pump == Last ==> s' == s.(pump := Finished, files := s.files.(done := s.files.done || !s.files.failed))
  {
    assert s.lines.log + [] == s.lines.log;
    var p := Pumps(true, false);
    s', more := Extend(s0, s, actions, p);
    s', more := Extend(s0, s', more, p);
  }

  lemma Extend(s0: State, s: State, actions: seq<Action>, a: Action) returns (s': State, more: seq<Action>)
    requires Run(s0, actions) == Some(s) && Enabled(s, a)
    ensures s' == Apply(s, a) && Run(s0, more) == Some(s') && more == actions + [a]
  {
    s', more := Apply(s, a), actions + [a];
    assert more[..|more| - 1] == actions;
  }

  // ----- ordinary runs -----

  /** Between setup and the end of the pump an unterminated request under a fresh id is running. */
  lemma StatusWhileRunning(s0: State, actions: seq<Action>)
    requires Init(s0) && FreshId(s0) && Run(s0, actions).Some?
    requires var s := Run(s0, actions).value; s.pump != NotStarted && s.pump != Finished && !s.terminated
    ensures StatusOf(Run(s0, actions).value) == InProgress
  {
    RunKeepsInvariant(s0, actions);
  }

  lemma {:induction false} PutAll(s0: State, s: State, actions: seq<Action>, lines: seq<Line>)
      returns (s': State, more: seq<Action>)
    requires Run(s0, actions) == Some(s) && s.process == Running
    ensures Run(s0, more) == Some(s')
    ensures s' == s.(lines := s.lines.(queue := s.lines.queue + lines, put := s.lines.put + lines))
  {
    s', more := s, actions;
    if lines == [] {
      assert s.lines.queue + [] == s.lines.queue && s.lines.put + [] == s.lines.put;
    } else {
      var init, last := lines[..|lines| - 1], lines[|lines| - 1];
      s', more := PutAll(s0, s, actions, init);
      s', more := Extend(s0, s', more, Put(last));
      assert s.lines.queue + lines == s.lines.queue + init + [last];
      assert s.lines.put + lines == s.lines.put + init + [last];
      hide Run;
    }
  }

  /**
   For all lines and exit codes a fresh request may print those lines, exit, and end with them in the
   log, done or failed.
   */
  lemma OrdinaryRun(s0: State, lines: seq<Line>, code: int) returns (actions: seq<Action>, s: State)
    requires Init(s0) && FreshId(s0)
    ensures Run(s0, actions) == Some(s) && s.pump == Finished && s.process == Over
    ensures s.lines.put == lines && s.lines.log == s0.lines.log + lines && s.exitCode == Some(code)
    ensures !s.terminated && !s.workerLost && StatusOf(s) == if code == 0 then Done else Failed
  {
    hide PumpStep;
    s, actions := s0, [];
    assert Run(s0, actions) == Some(s);
    s, actions := Extend(s0, s, actions, Setup);
    s, actions := Extend(s0, s, actions, Launch);
    s, actions := PutAll(s0, s, actions, lines);
    s, actions := ProcessEnds(s0, s, actions, code);
    assert s.lines.put == lines && s.pump == Loop && s.stop;
    var n := |s.lines.queue| + 4;
    s := StoppedPumpEnds(s0, actions, s);
    actions := actions + PumpSteps(n);
  }

  /** A request that is rejected before launch ends as done, with nothing printed. */
  lemma RejectedRun(s0: State) returns (actions: seq<Action>, s: State)
    requires Init(s0) && FreshId(s0)
    ensures Run(s0, actions) == Some(s) && s.pump == Finished && s.exitCode == None && s.lines.put == []
    ensures StatusOf(s) == Done
  {
    hide PumpStep;
    s, actions := s0, [];
    assert Run(s0, actions) == Some(s);
    s, actions := Extend(s0, s, actions, Setup);
    s, actions := Extend(s0, s, actions, Reject);
    var n := |s.lines.queue| + 4;
    s := StoppedPumpEnds(s0, actions, s);
    actions := actions + PumpSteps(n);
  }

  /** A running request can be terminated, and is failed from then on, whatever follows. */
  lemma TerminatedRun(s0: State, actions: seq<Action>) returns (more: seq<Action>)
    requires Run(s0, actions).Some? && StatusOf(Run(s0, actions).value) == InProgress
    ensures more == actions + [TerminatorChecks] + [TerminatorTouches] && Run(s0, more).Some?
    ensures forall later :: Run(Run(s0, more).value, later).Some? ==>
      StatusOf(Run(Run(s0, more).value, later).value) == Failed
  {
    var s;
    s, more := Extend(s0, Run(s0, actions).value, actions, TerminatorChecks);
    s, more := Extend(s0, s, more, TerminatorTouches);
    assert StatusOf(s) == Failed;
    forall later | Run(s, later).Some?
      ensures StatusOf(Run(s, later).value) == Failed
    {
      StatusOnlyClimbs(s, later);
    }
  }
}
