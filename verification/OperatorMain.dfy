/** examples/workflow/operate_nvcf_functions.py: the main loop, and runs that follow a crash. */
module OperatorMain {
  import opened Wrappers
  import opened JobLedger
  import opened ProgressFile
  import opened JobOperator
  import Grouping

  /** How a run comes to its end: by itself, by being out of rounds, or early, because its surroundings end it. */
  datatype Outcome = Finished | OutOfRounds | Killed

  /** What survives a crash at any point: the file holds the recorded paths, and the history is in order. */
  ghost predicate Durable(store: Store, cloud: Cloud)
    reads store, cloud
  {
    store.Valid() && Journaled(cloud.trace, store.listed)
  }

  /** The board describes the workers and the queue. */
  ghost predicate Tracks(b: Board, workers: seq<Worker>, pending: seq<InputJob>)
    reads workers
  {
    && |workers| == |b.held| == |b.reruns|
    && (forall i, j :: 0 <= i < j < |workers| ==> workers[i] != workers[j])
    && (forall i :: 0 <= i < |workers| ==>
      workers[i].Valid() && workers[i].inputPath == b.held[i] && workers[i].rerunCount == b.reruns[i])
    && Paths(pending) == b.pending
  }

  /** All workers send their commands to the same place. */
  ghost predicate OnCloud(workers: seq<Worker>, cloud: Cloud) {
    forall w :: w in workers ==> w.cloud == cloud
  }

  /** What the run has recorded; a job that reads back is listed only if this run has recorded it. */
  ghost predicate Records(b: Board, seg: seq<Event>, listed: seq<string>) {
    && (forall p :: p in b.jobs ==> (Record(p) in seg <==> p in b.recorded))
    && (forall p :: p in b.jobs && Clean(p) && p in listed ==> p in b.recorded)
  }

  /** The books of the run balance: every job in one place, with the launches that its place implies. */
  ghost predicate Balanced(b: Board, seg: seq<Event>, listed: seq<string>) {
    Conserved(b) && Launched(b, seg) && Bounded(seg) && Orderly(b.jobs, seg) && Records(b, seg, listed)
  }

  lemma PendingFacts(b: Board, seg: seq<Event>, listed: seq<string>)
    requires Conserved(b) && Records(b, seg, listed) && b.pending != []
    ensures b.pending[0] in b.jobs && Record(b.pending[0]) !in seg
    ensures Clean(b.pending[0]) ==> b.pending[0] !in listed
  {
    assert b.pending[0] in b.pending;
  }

  lemma HeldFacts(b: Board, seg: seq<Event>, listed: seq<string>, i: nat)
    requires Conserved(b) && Records(b, seg, listed) && i < |b.held| && b.held[i].Some?
    ensures b.held[i].value in b.jobs && Record(b.held[i].value) !in seg
    ensures Clean(b.held[i].value) ==> b.held[i].value !in listed
  {
  }

  lemma LaunchedFacts(b: Board, seg: seq<Event>, i: nat)
    requires Conserved(b) && Launched(b, seg) && i < |b.held|
    ensures |b.held| == |b.reruns| && (b.held[i].Some? ==> b.reruns[i] < 5)
  {
  }

  /** A poll changes nothing in the books. */
  lemma PolledKeeps(b: Board, seg: seq<Event>, listed: seq<string>, trace: seq<Event>, i: nat, e: Event)
    requires Balanced(b, seg, listed) && Journaled(trace, listed)
    requires i < |b.held| && b.held[i] == Some(e.path) && e.Poll?
    ensures Balanced(b, seg + [e], listed) && Journaled(trace + [e], listed)
    ensures Record(e.path) !in seg + [e] && e.path in b.jobs && (Clean(e.path) ==> e.path !in listed)
  {
    HeldFacts(b, seg, listed, i);
    OneKeepsBounds(seg, e);
    OrderlyOne(b.jobs, seg, e);
    JournalOne(trace, listed, e);
    hide Conserved;
    hide Bounded;
    hide Orderly;
    hide Journaled;
    hide Count;
  }

  /** The events of a poll that has launched its job again, or not. */
  function PollEvents(path: string, report: Option<Report>, relaunched: Option<nat>): seq<Event> {
    [Poll(path, report)] + if relaunched.Some? then LaunchTrace(path, relaunched.value) else []
  }

  /** After a poll and, it may be, a launch. */
  lemma AttendedKeeps(b: Board, seg: seq<Event>, listed: seq<string>, trace: seq<Event>, i: nat,
                      report: Option<Report>, relaunched: Option<nat>)
    requires Balanced(b, seg, listed) && Journaled(trace, listed)
    requires i < |b.held| == |b.reruns| && b.held[i].Some?
    requires relaunched.Some? ==> relaunched.value <= 6 && b.reruns[i] + 1 < 5
    ensures var part := PollEvents(b.held[i].value, report, relaunched);
            && Balanced(if relaunched.Some? then Rerun(b, i) else b, seg + part, listed)
            && Journaled(trace + part, listed)
  {
    var e, path := Poll(b.held[i].value, report), b.held[i].value;
    hide Balanced;
    hide Journaled;
    hide Rerun;
    hide LaunchTrace;
    PolledKeeps(b, seg, listed, trace, i, e);
    if relaunched.Some? {
      RelaunchedKeeps(b, seg + [e], listed, trace + [e], i, relaunched.value);
    }
    PollEventsAppended(seg, path, report, relaunched);
    PollEventsAppended(trace, path, report, relaunched);
    hide PollEvents;
  }

  lemma PollEventsAppended(start: seq<Event>, path: string, report: Option<Report>, relaunched: Option<nat>)
    ensures relaunched.None? ==> start + PollEvents(path, report, relaunched) == start + [Poll(path, report)]
    ensures relaunched.Some? ==>
      start + PollEvents(path, report, relaunched) ==
      start + [Poll(path, report)] + LaunchTrace(path, relaunched.value)
  {
    hide LaunchTrace;
  }

  lemma RelaunchedKeeps(b: Board, seg: seq<Event>, listed: seq<string>, trace: seq<Event>, i: nat, n: nat)
    requires Balanced(b, seg, listed) && Journaled(trace, listed)
    requires i < |b.held| == |b.reruns| && b.held[i].Some? && b.reruns[i] + 1 < 5 && n <= 6
    ensures Balanced(Rerun(b, i), seg + LaunchTrace(b.held[i].value, n), listed)
    ensures Journaled(trace + LaunchTrace(b.held[i].value, n), listed)
  {
    var path := b.held[i].value;
    HeldFacts(b, seg, listed, i);
    RerunKeeps(b, i, seg, n);
    OrderlyLaunch(b.jobs, seg, path, n);
    JournalLaunch(trace, listed, path, n);
    hide Conserved;
    hide Launched;
    hide Bounded;
    hide Orderly;
    hide Journaled;
    hide LaunchTrace;
  }

  /** After a poll that succeeds and the record of it. */
  lemma SuccessKeeps(b: Board, seg: seq<Event>, listed: seq<string>, trace: seq<Event>, i: nat)
    requires Balanced(b, seg, listed) && Journaled(trace, listed)
    requires i < |b.held| == |b.reruns| && b.held[i].Some?
    ensures var path := b.held[i].value;
            && Balanced(Released(b, i, true), seg + [Record(path)], listed + [path])
            && Journaled(trace + [Record(path)], listed + [path])
  {
    var path := b.held[i].value;
    HeldFacts(b, seg, listed, i);
    ReleasedKeeps(b, i, true, seg);
    OrderlyOne(b.jobs, seg, Record(path));
    RecordedOne(b, seg, listed, i);
    JournalOne(trace, listed, Record(path));
    hide Conserved;
    hide Launched;
    hide Bounded;
    hide Orderly;
    hide Journaled;
    hide Records;
  }

  lemma RecordedOne(b: Board, seg: seq<Event>, listed: seq<string>, i: nat)
    requires Records(b, seg, listed) && Conserved(b) && i < |b.held| == |b.reruns| && b.held[i].Some?
    ensures var path := b.held[i].value;
            Records(Released(b, i, true), seg + [Record(path)], listed + [path])
  {
    hide Conserved;
    hide Clean;
  }

  /** After the fifth failure. */
  lemma GiveUpKeeps(b: Board, seg: seq<Event>, listed: seq<string>, i: nat)
    requires Balanced(b, seg, listed)
    requires i < |b.held| == |b.reruns| && b.held[i].Some? && b.reruns[i] + 1 >= 5
    ensures Balanced(Released(b, i, false), seg, listed)
  {
    ReleasedKeeps(b, i, false, seg);
    hide Conserved;
    hide Launched;
    hide Bounded;
    hide Orderly;
  }

  /** The busy branch of a visit: poll, and record a success. */
  method Attend(worker: Worker, store: Store, cloud: Cloud, ghost b: Board, ghost i: nat, ghost seg: seq<Event>)
      returns (alive: bool, ghost b': Board, ghost part: seq<Event>)
    requires worker.Valid() && !worker.IsIdle() && worker.cloud == cloud
    requires Durable(store, cloud) && Balanced(b, seg, store.listed)
    requires i < |b.held| == |b.reruns| && worker.inputPath == b.held[i] && worker.rerunCount == b.reruns[i]
    modifies worker, store, cloud`trace
    ensures Durable(store, cloud) && old(store.listed) <= store.listed
    ensures cloud.trace == old(cloud.trace) + part && Bounded(seg + part) && Orderly(b.jobs, seg + part)
    ensures alive ==> Balanced(b', seg + part, store.listed) && Visited(b, b', i, part)
    ensures alive ==> worker.Valid() && b'.held[i] == worker.inputPath && b'.reruns[i] == worker.rerunCount
    ensures !alive ==> CutVisit(b, i, part) && Dies(cloud.env, cloud.trace)
  {
    hide Balanced;
    hide Bounded;
    hide Orderly;
    hide Journaled;
    hide Dies;
    ghost var path := worker.inputPath.value;
    var r, relaunched, report := worker.PollJob();
    part := PollEvents(path, report, relaunched);
    AttendedKeeps(b, seg, store.listed, old(cloud.trace), i, report, relaunched);
    b' := if relaunched.Some? then Rerun(b, i) else b;
    BalancedIsBounded(b', seg + part, store.listed);
    PollIsVisit(b, i, report, relaunched);
    PollEventsAppended(old(cloud.trace), path, report, relaunched);
    alive := r.Some?;
    if r.None? || r.value.state == JobState.InProgress {
      return;
    }
    var success := r.value.state == JobState.Succeeded;
    if success {
      SuccessKeeps(b, seg + part, store.listed, cloud.trace, i);
    } else {
      GiveUpKeeps(b, seg + part, store.listed, i);
    }
    b' := Released(b, i, success);
    LetGoIsVisit(b, i, report, success);
    if success {
      store.Append(r.value.inputPath);
      cloud.trace := cloud.trace + [Record(r.value.inputPath)];
      assert seg + (part + [Record(path)]) == seg + part + [Record(path)];
      part := part + [Record(path)];
    }
    BalancedIsBounded(b', seg + part, store.listed);
  }

  lemma PollIsVisit(b: Board, i: nat, report: Option<Report>, relaunched: Option<nat>)
    requires i < |b.held| == |b.reruns| && b.held[i].Some?
    requires relaunched.Some? ==>
      report in {Some(Report.Failed), Some(NotFound)} && relaunched.value <= 6 && b.reruns[i] + 1 < 5
    ensures CutVisit(b, i, PollEvents(b.held[i].value, report, relaunched))
    ensures relaunched.Some? && relaunched.value >= 1 ==>
      Visited(b, Rerun(b, i), i, PollEvents(b.held[i].value, report, relaunched))
    ensures relaunched.None? && report == Some(Report.InProgress) ==>
      Visited(b, b, i, PollEvents(b.held[i].value, report, relaunched))
  {
    var part := PollEvents(b.held[i].value, report, relaunched);
    assert part[1..] == if relaunched.Some? then LaunchTrace(b.held[i].value, relaunched.value) else [];
  }

  lemma LetGoIsVisit(b: Board, i: nat, report: Option<Report>, success: bool)
    requires i < |b.held| == |b.reruns| && b.held[i].Some?
    requires if success then report == Some(Fulfilled)
             else report in {Some(Report.Failed), Some(NotFound)} && b.reruns[i] + 1 >= 5
    ensures var path := b.held[i].value; var part := PollEvents(path, report, None);
            Visited(b, Released(b, i, success), i, if success then part + [Record(path)] else part)
  {
    var part := PollEvents(b.held[i].value, report, None);
    assert part == [part[0]] && part[1..] == [];
    assert (part + [Record(b.held[i].value)])[1..] == [Record(b.held[i].value)];
  }

  /** The idle branch of a visit: give the worker the first pending job. */
  method Assign(worker: Worker, job: InputJob, cloud: Cloud, store: Store, ghost b: Board, ghost i: nat,
                ghost seg: seq<Event>)
      returns (alive: bool, ghost b': Board, ghost part: seq<Event>)
    requires worker.Valid() && worker.IsIdle() && worker.cloud == cloud
    requires Durable(store, cloud) && Balanced(b, seg, store.listed)
    requires b.pending != [] && b.pending[0] == job.inputPath
    requires i < |b.held| == |b.reruns| && worker.inputPath == b.held[i]
    modifies worker, cloud`trace
    ensures Durable(store, cloud)
    ensures cloud.trace == old(cloud.trace) + part && Bounded(seg + part) && Orderly(b.jobs, seg + part)
    ensures alive ==> Balanced(b', seg + part, store.listed) && Visited(b, b', i, part)
    ensures alive ==> worker.Valid() && b'.held[i] == worker.inputPath && b'.reruns[i] == worker.rerunCount
    ensures alive ==> worker.index == Some(job.index) && worker.outputPath == Some(job.outputPath)
    ensures exists n :: 0 <= n <= 6 && part == LaunchTrace(job.inputPath, n)
    ensures !alive ==> CutVisit(b, i, part) && Dies(cloud.env, cloud.trace)
  {
    hide Conserved;
    hide Launched;
    hide Bounded;
    hide Orderly;
    hide Journaled;
    hide Dies;
    PendingFacts(b, seg, store.listed);
    LaunchedFacts(b, seg, i);
    ghost var submits;
    alive, submits := worker.AddJob(job);
    part := LaunchTrace(job.inputPath, submits);
    b' := Assigned(b, i);
    AssignedKeeps(b, i, seg, submits);
    OrderlyLaunch(b.jobs, seg, job.inputPath, submits);
    JournalLaunch(old(cloud.trace), store.listed, job.inputPath, submits);
  }

  /**
   One visit to worker i; `alive` is false when the run ended on the way. An idle worker takes the
   first pending job and launches it; a busy one is polled once.
   */
  method Visit(workers: seq<Worker>, i: nat, pending: seq<InputJob>, store: Store, cloud: Cloud, ghost b: Board,
               ghost seg: seq<Event>)
      returns (alive: bool, pending': seq<InputJob>, ghost b': Board, ghost part: seq<Event>)
    requires i < |workers|
    requires Tracks(b, workers, pending) && OnCloud(workers, cloud)
    requires Durable(store, cloud) && Balanced(b, seg, store.listed)
    modifies workers, store, cloud`trace
    ensures Durable(store, cloud) && old(store.listed) <= store.listed
    ensures cloud.trace == old(cloud.trace) + part && Bounded(seg + part) && Orderly(b.jobs, seg + part)
    ensures alive ==> Tracks(b', workers, pending') && Balanced(b', seg + part, store.listed) && Visited(b, b', i, part)
    ensures !alive ==> CutVisit(b, i, part) && Dies(cloud.env, cloud.trace)
    ensures old(workers[i].IsIdle()) && pending != [] && alive ==>
      && pending' == pending[1..]
      && workers[i].index == Some(pending[0].index) && workers[i].inputPath == Some(pending[0].inputPath)
      && workers[i].outputPath == Some(pending[0].outputPath)
      && exists n :: 1 <= n <= 6 && part == LaunchTrace(pending[0].inputPath, n)
    ensures !old(workers[i].IsIdle()) && alive ==>
      && pending' == pending && part != [] && part[0].Poll? && part[0].path == old(workers[i].inputPath.value)
    ensures forall j :: 0 <= j < |workers| && j != i ==> unchanged(workers[j])
  {
    hide Balanced;
    hide Bounded;
    hide Orderly;
    hide Journaled;
    hide Dies;
    pending', b', part, alive := pending, b, [], true;
    assert seg + [] == seg && old(cloud.trace) + [] == old(cloud.trace);
    BalancedIsBounded(b, seg, store.listed);
    var worker := workers[i];
    assert worker in workers;
    if cloud.env.kills(cloud.trace) {
      KilledDies(cloud.env, cloud.trace);
      alive := false;
    } else if worker.IsIdle() {
      if |pending| == 0 {
        return;
      }
      assert Paths(pending)[0] == pending[0].inputPath;
      alive, b', part := Assign(worker, pending[0], cloud, store, b, i, seg);
      assert Paths(pending[1..]) == Paths(pending)[1..];
      pending' := pending[1..];
    } else {
      alive, b', part := Attend(worker, store, cloud, b, i, seg);
    }
  }

  /**
   One pass over the workers; `alive` is false when the run ended on the way. It visits the workers
   one after the other: visit k has the events `parts[k]` and leaves the board `boards[k + 1]`.
   */
  method Round(workers: seq<Worker>, pending: seq<InputJob>, store: Store, cloud: Cloud, ghost b: Board,
               ghost seg: seq<Event>)
      returns (alive: bool, pending': seq<InputJob>, ghost b': Board, ghost seg': seq<Event>,
               ghost boards: seq<Board>, ghost parts: seq<seq<Event>>, ghost last: seq<Event>)
    requires Tracks(b, workers, pending) && OnCloud(workers, cloud)
    requires Durable(store, cloud) && Balanced(b, seg, store.listed)
    modifies workers, store, cloud`trace
    ensures Durable(store, cloud) && Bounded(seg') && Orderly(b.jobs, seg') && old(store.listed) <= store.listed
    ensures seg' == seg + (Grouping.Flatten(parts) + last)
    ensures cloud.trace == old(cloud.trace) + (Grouping.Flatten(parts) + last)
    ensures |boards| == |parts| + 1 && Passed(boards, parts) && boards[0] == b && |b.held| == |workers|
    ensures alive ==> Tracks(b', workers, pending') && Balanced(b', seg', store.listed) && b'.jobs == b.jobs
    ensures alive ==> |parts| == |workers| && last == [] && boards[|parts|] == b'
    ensures !alive ==> |parts| < |workers| && CutVisit(boards[|parts|], |parts|, last) && Dies(cloud.env, cloud.trace)
  {
    BalancedIsBounded(b, seg, store.listed);
    TracksFacts(b, workers, pending);
    PassedStart(b);
    hide Balanced;
    hide Bounded;
    hide Orderly;
    hide OnCloud;
    hide Tracks;
    hide Durable;
    hide Dies;
    hide Passed;
    hide Visited;
    hide CutVisit;
    pending', b', seg', alive := pending, b, seg, true;
    boards, parts, last := [b], [], [];
    assert Grouping.Flatten<Event>([]) == [];
    assert seg == seg + ([] + []) && cloud.trace == cloud.trace + ([] + []);
    hide Grouping.Flatten;
    for i := 0 to |workers|
      invariant Tracks(b', workers, pending') && Durable(store, cloud)
      invariant Balanced(b', seg', store.listed) && Bounded(seg') && Orderly(b.jobs, seg') && b'.jobs == b.jobs
      invariant old(store.listed) <= store.listed
      invariant seg' == seg + (Grouping.Flatten(parts) + [])
      invariant cloud.trace == old(cloud.trace) + (Grouping.Flatten(parts) + [])
      invariant |boards| == i + 1 && |parts| == i && boards[i] == b' && boards[0] == b && Passed(boards, parts)
      invariant alive && last == []
    {
      ghost var before := b';
      alive, pending', b', last := Visit(workers, i, pending', store, cloud, b', seg');
      PartAdded(seg, parts, last, seg');
      PartAdded(old(cloud.trace), parts, last, old(cloud.trace) + (Grouping.Flatten(parts) + []));
      seg' := seg' + last;
      if !alive {
        return;
      }
      VisitedFacts(before, b', i, last);
      PassedStep(boards, parts, b', last);
      boards, parts, last := boards + [b'], parts + [last], [];
    }
  }

  lemma TracksFacts(b: Board, workers: seq<Worker>, pending: seq<InputJob>)
    requires Tracks(b, workers, pending)
    ensures |b.held| == |b.reruns| == |workers| && b.pending == Paths(pending)
    ensures forall i :: 0 <= i < |workers| ==> (workers[i].IsIdle() <==> b.held[i].None?)
  {
  }

  lemma VisitedFacts(b: Board, b': Board, i: nat, part: seq<Event>)
    requires i < |b.held| == |b.reruns| && Visited(b, b', i, part)
    ensures b'.jobs == b.jobs
  {
  }

  /** Another part at the end. */
  lemma PartAdded(start: seq<Event>, parts: seq<seq<Event>>, part: seq<Event>, all: seq<Event>)
    requires all == start + (Grouping.Flatten(parts) + [])
    ensures all + part == start + (Grouping.Flatten(parts) + part)
    ensures all + part == start + (Grouping.Flatten(parts + [part]) + [])
  {
    Grouping.FlattenAppend(parts, part);
  }

  lemma BalancedIsBounded(b: Board, seg: seq<Event>, listed: seq<string>)
    requires Balanced(b, seg, listed)
    ensures Bounded(seg) && Orderly(b.jobs, seg)
  {
  }

  /** `any(not worker.is_idle for worker in workers)` */
  method AnyBusy(workers: seq<Worker>) returns (busy: bool)
    ensures busy <==> exists i :: 0 <= i < |workers| && !workers[i].IsIdle()
  {
    for i := 0 to |workers|
      invariant forall j :: 0 <= j < i ==> workers[j].IsIdle()
    {
      if !workers[i].IsIdle() {
        return true;
      }
    }
    return false;
  }

  /** The condition of the loop: something is pending or running. */
  method GoesOn(workers: seq<Worker>, pending: seq<InputJob>, ghost b: Board) returns (more: bool)
    requires Tracks(b, workers, pending)
    ensures more <==> Unsettled(b)
  {
    LoopGoesOn(b, workers, pending);
    if |pending| > 0 {
      return true;
    }
    more := AnyBusy(workers);
  }

  /** The books at the start of a run: every job pending, every worker idle, nothing launched yet. */
  lemma InitialBoard(paths: seq<string>, n: nat, listed: seq<string>) returns (b: Board)
    requires Distinct(paths)
    requires forall p :: p in paths && Clean(p) ==> p !in listed
    ensures b.jobs == (set p | p in paths) && b.pending == paths && |b.held| == |b.reruns| == n
    ensures forall i :: 0 <= i < n ==> b.held[i] == None && b.reruns[i] == 0
    ensures Balanced(b, [], listed) && b.givenUp == {}
  {
    b := Board((set p | p in paths), paths, seq(n, _ => None), seq(n, _ => 0), {}, {});
    assert forall p :: !Held(b, p);
    assert forall p :: Count([], Launch(p)) == 0 && Count([], Submit(p)) == 0;
  }

  /** Something is pending or running. */
  ghost predicate Unsettled(b: Board) {
    b.pending != [] || exists i :: 0 <= i < |b.held| && b.held[i].Some?
  }

  ghost predicate NothingHeld(b: Board) {
    forall i :: 0 <= i < |b.held| ==> b.held[i].None?
  }

  /** What a full round with at least one worker achieves. */
  lemma RoundProgress(boards: seq<Board>, parts: seq<seq<Event>>, seg: seq<Event>, seg': seq<Event>)
    requires Passed(boards, parts) && RerunsLeft(boards[0]) && |parts| == |boards[0].held| >= 1
    requires seg' == seg + (Grouping.Flatten(parts) + [])
    ensures RerunsLeft(boards[|parts|])
    ensures Decisive(seg') ==> Decisive(seg) && (Unsettled(boards[0]) ==> Todo(boards[|parts|]) < Todo(boards[0]))
    ensures AllFulfilled(seg') ==> AllFulfilled(seg) && boards[|parts|].givenUp == boards[0].givenUp
  {
    var events := Grouping.Flatten(parts);
    RoundTodo(boards, parts, events);
    hide Todo;
    hide Passed;
    hide RerunsLeft;
    assert forall e :: e in seg || e in events ==> e in seg';
  }

  /** With idle workers and something pending a round starts with the launch of the first pending job. */
  lemma RoundStarts(boards: seq<Board>, parts: seq<seq<Event>>, last: seq<Event>)
    requires Passed(boards, parts) && |boards[0].held| >= 1 && NothingHeld(boards[0]) && boards[0].pending != []
    requires |parts| == 0 ==> CutVisit(boards[0], 0, last)
    ensures var events := Grouping.Flatten(parts) + last;
            && (|parts| > 0 ==> events != [])
            && (events != [] ==> events[0] == Launch(boards[0].pending[0]))
  {
    var first := boards[0].pending[0];
    var part := if |parts| > 0 then parts[0] else last;
    if |parts| > 0 {
      assert Visited(boards[0], boards[1], 0, parts[0]);
      assert Grouping.Flatten(parts) == parts[0] + Grouping.Flatten(parts[1..]);
    } else {
      assert Grouping.Flatten(parts) == [];
    }
    if n :| 0 <= n <= 6 && part == LaunchTrace(first, n) {
      LaunchTraceAt(first, n);
    }
  }

  /** A round, and what it achieves. */
  method NextRound(workers: seq<Worker>, pending: seq<InputJob>, store: Store, cloud: Cloud, ghost b: Board,
                   ghost seg: seq<Event>)
      returns (alive: bool, pending': seq<InputJob>, ghost b': Board, ghost seg': seq<Event>,
               ghost events: seq<Event>)
    requires Tracks(b, workers, pending) && OnCloud(workers, cloud)
    requires Durable(store, cloud) && Balanced(b, seg, store.listed) && RerunsLeft(b)
    modifies workers, store, cloud`trace
    ensures Durable(store, cloud) && Bounded(seg') && Orderly(b.jobs, seg') && old(store.listed) <= store.listed
    ensures seg' == seg + events && cloud.trace == old(cloud.trace) + events
    ensures alive ==> Tracks(b', workers, pending') && Balanced(b', seg', store.listed) && b'.jobs == b.jobs
    ensures Achieved(b, seg, alive, b', seg', |workers| > 0)
    ensures !alive ==> Dies(cloud.env, cloud.trace)
  {
    hide OnCloud;
    hide Tracks;
    hide Durable;
    hide Balanced;
    hide Bounded;
    hide Orderly;
    hide Dies;
    hide Passed;
    hide CutVisit;
    hide Todo;
    hide NothingHeld;
    hide Unsettled;
    hide RerunsLeft;
    hide Decisive;
    hide AllFulfilled;
    hide Achieved;
    ghost var boards, parts, last;
    alive, pending', b', seg', boards, parts, last := Round(workers, pending, store, cloud, b, seg);
    events := Grouping.Flatten(parts) + last;
    RoundAchieves(boards, parts, last, seg, seg', alive);
    b' := boards[|parts|];
  }

  /** What a round achieves with the workers there are. */
  ghost predicate Achieved(b: Board, seg: seq<Event>, alive: bool, b': Board, seg': seq<Event>, someWorkers: bool) {
    && (alive ==> RerunsLeft(b'))
    && (alive && someWorkers && RerunsLeft(b) && Unsettled(b) && Decisive(seg') ==> Decisive(seg) && Todo(b') < Todo(b))
    && (alive && AllFulfilled(seg') ==> AllFulfilled(seg) && b'.givenUp == b.givenUp)
    && (!someWorkers ==> alive && seg' == seg && b' == b)
    && (seg == [] && someWorkers && NothingHeld(b) && b.pending != [] ==>
      && (alive ==> seg' != [])
      && (seg' != [] ==> seg'[0] == Launch(b.pending[0])))
  }

  lemma RoundAchieves(boards: seq<Board>, parts: seq<seq<Event>>, last: seq<Event>, seg: seq<Event>, seg': seq<Event>,
                      alive: bool)
    requires |boards| == |parts| + 1 && Passed(boards, parts) && RerunsLeft(boards[0])
    requires seg' == seg + (Grouping.Flatten(parts) + last)
    requires if alive then |parts| == |boards[0].held| && last == []
             else |parts| < |boards[0].held| && CutVisit(boards[|parts|], |parts|, last)
    ensures Achieved(boards[0], seg, alive, boards[|parts|], seg', |boards[0].held| > 0)
  {
    hide Passed;
    hide CutVisit;
    hide Todo;
    hide NothingHeld;
    hide Unsettled;
    hide RerunsLeft;
    hide Decisive;
    hide AllFulfilled;
    var b := boards[0];
    var events := Grouping.Flatten(parts) + last;
    if |b.held| == 0 {
      assert Grouping.Flatten(parts) == [];
      assert events == [] && seg' == seg;
    } else {
      if alive {
        RoundProgress(boards, parts, seg, seg');
      }
      if NothingHeld(b) && b.pending != [] {
        RoundStarts(boards, parts, last);
        assert seg == [] ==> seg' == events;
      }
    }
  }

  /** While something is pending or running there is something left to do. */
  lemma TodoIsPositive(b: Board)
    requires RerunsLeft(b)
    ensures Unsettled(b) ==> Todo(b) > 0
    ensures NothingHeld(b) ==> Todo(b) == 6 * |b.pending|
  {
    HeldTodoIsPositive(b.held, b.reruns);
    hide HeldTodo;
  }

  lemma BalancedReruns(b: Board, seg: seq<Event>, listed: seq<string>)
    requires Balanced(b, seg, listed)
    ensures RerunsLeft(b)
  {
  }

  /** Whether the loop goes on is whether something is pending or running. */
  lemma LoopGoesOn(b: Board, workers: seq<Worker>, pending: seq<InputJob>)
    requires Tracks(b, workers, pending)
    ensures Unsettled(b) <==> pending != [] || exists i :: 0 <= i < |workers| && !workers[i].IsIdle()
  {
    TracksFacts(b, workers, pending);
  }

  /** The loop, from balanced books until nothing is pending or busy, or until the run is cut off. */
  method RunRounds(workers: seq<Worker>, pending0: seq<InputJob>, store: Store, cloud: Cloud, rounds: nat,
                   ghost b0: Board)
      returns (outcome: Outcome, ghost seg: seq<Event>, ghost givenUp: set<string>)
    requires Tracks(b0, workers, pending0) && OnCloud(workers, cloud)
    requires Durable(store, cloud) && Balanced(b0, [], store.listed) && NothingHeld(b0)
    modifies workers, store, cloud`trace
    ensures Durable(store, cloud) && old(store.listed) <= store.listed
    ensures cloud.trace == old(cloud.trace) + seg && Bounded(seg) && Orderly(b0.jobs, seg)
    ensures outcome == Finished ==>
      && (forall p :: p in b0.jobs ==> (Record(p) in seg <==> p !in givenUp))
      && (forall p :: p in givenUp ==> p in b0.jobs && Count(seg, Launch(p)) == 5)
    ensures outcome == Finished && AllFulfilled(seg) ==> givenUp == b0.givenUp
    ensures outcome == Killed ==> Dies(cloud.env, cloud.trace)
    ensures outcome == OutOfRounds && |workers| > 0 && Decisive(seg) ==> rounds < 6 * |pending0|
    ensures |workers| == 0 && pending0 != [] ==> outcome == OutOfRounds && seg == []
    ensures pending0 == [] ==> outcome == Finished && seg == []
    ensures |workers| > 0 && pending0 != [] && rounds >= 1 ==>
      && (outcome != Killed ==> seg != [])
      && (seg != [] ==> seg[0] == Launch(pending0[0].inputPath))
  {
    BalancedReruns(b0, [], store.listed);
    TracksFacts(b0, workers, pending0);
    UnderwayStart(b0, rounds, |workers| > 0);
    assert pending0 != [] ==> b0.pending[0] == pending0[0].inputPath;
    hide Balanced;
    hide Bounded;
    hide Orderly;
    hide OnCloud;
    hide Tracks;
    hide Durable;
    hide Dies;
    hide Decisive;
    hide AllFulfilled;
    hide NothingHeld;
    hide Unsettled;
    hide Underway;
    ghost var b, done;
    outcome, seg, b, done := Loop(workers, pending0, store, cloud, rounds, b0);
    givenUp := b.givenUp;
    if outcome != Killed {
      UnderwayFacts(b0, b, seg, done, |workers| > 0);
    }
    if outcome == Finished {
      RunIsSettled(b, seg, store.listed);
    }
  }

  /** The loop, in terms of the state of the run. */
  method Loop(workers: seq<Worker>, pending0: seq<InputJob>, store: Store, cloud: Cloud, rounds: nat, ghost b0: Board)
      returns (outcome: Outcome, ghost seg: seq<Event>, ghost b: Board, ghost done: nat)
    requires Tracks(b0, workers, pending0) && OnCloud(workers, cloud)
    requires Durable(store, cloud) && Balanced(b0, [], store.listed) && Underway(b0, b0, [], 0, |workers| > 0)
    modifies workers, store, cloud`trace
    ensures Durable(store, cloud) && Longer(old(store.listed), store.listed)
    ensures Grown(old(cloud.trace), cloud.trace, seg) && Bounded(seg) && Orderly(b0.jobs, seg)
    ensures outcome != Killed ==> Underway(b0, b, seg, done, |workers| > 0)
    ensures outcome == Finished ==> Balanced(b, seg, store.listed) && !Unsettled(b) && b.jobs == b0.jobs
    ensures outcome == OutOfRounds ==> Unsettled(b) && done == rounds
    ensures outcome == Killed ==> Dies(cloud.env, cloud.trace) && |workers| > 0
    ensures outcome == Killed ==> StartsWell(b0, seg)
  {
    var pending := pending0;
    b, seg, done := b0, [], 0;
    NothingGrown(cloud.trace, store.listed);
    hide Balanced;
    hide Bounded;
    hide Orderly;
    hide OnCloud;
    hide Tracks;
    hide Durable;
    hide Dies;
    hide Unsettled;
    hide Underway;
    hide StartsWell;
    hide Grown;
    hide Longer;
    var left: nat := rounds;
    var more := GoesOn(workers, pending, b);
    while more
      invariant Tracks(b, workers, pending) && Durable(store, cloud)
      invariant Balanced(b, seg, store.listed) && b.jobs == b0.jobs
      invariant Longer(old(store.listed), store.listed) && Grown(old(cloud.trace), cloud.trace, seg)
      invariant more <==> Unsettled(b)
      invariant left + done == rounds && Underway(b0, b, seg, done, |workers| > 0)
      decreases left
    {
      if left == 0 {
        BalancedIsBounded(b, seg, store.listed);
        outcome := OutOfRounds;
        return;
      }
      left := left - 1;
      var alive;
      ghost var seg1, trace1, listed1, events := seg, cloud.trace, store.listed, [];
      alive, pending, more, b, seg, events := NextTurn(workers, pending, store, cloud, b0, b, seg, done);
      MoreGrown(old(cloud.trace), trace1, seg1, events);
      StillLonger(old(store.listed), listed1, store.listed);
      if !alive {
        outcome := Killed;
        return;
      }
      done := done + 1;
    }
    BalancedIsBounded(b, seg, store.listed);
    outcome := Finished;
  }

  /** A round, and whether another one follows. */
  method NextTurn(workers: seq<Worker>, pending: seq<InputJob>, store: Store, cloud: Cloud, ghost b0: Board,
                  ghost b: Board, ghost seg: seq<Event>, ghost done: nat)
      returns (alive: bool, pending': seq<InputJob>, more: bool, ghost b': Board, ghost seg': seq<Event>,
               ghost events: seq<Event>)
    requires Tracks(b, workers, pending) && OnCloud(workers, cloud)
    requires Durable(store, cloud) && Balanced(b, seg, store.listed) && b.jobs == b0.jobs
    requires Underway(b0, b, seg, done, |workers| > 0) && Unsettled(b)
    modifies workers, store, cloud`trace
    ensures Durable(store, cloud) && Bounded(seg') && Orderly(b0.jobs, seg') && old(store.listed) <= store.listed
    ensures seg' == seg + events && cloud.trace == old(cloud.trace) + events
    ensures alive ==> Tracks(b', workers, pending') && Balanced(b', seg', store.listed) && b'.jobs == b0.jobs
    ensures alive ==> Underway(b0, b', seg', done + 1, |workers| > 0) && (more <==> Unsettled(b'))
    ensures !alive ==> Dies(cloud.env, cloud.trace) && |workers| > 0
    ensures !alive ==> StartsWell(b0, seg')
  {
    hide Balanced;
    hide Bounded;
    hide Orderly;
    hide OnCloud;
    hide Tracks;
    hide Durable;
    hide Dies;
    hide Unsettled;
    hide Achieved;
    hide Underway;
    hide RerunsLeft;
    UnderwayReruns(b0, b, seg, done, |workers| > 0);
    alive, pending', b', seg', events := NextRound(workers, pending, store, cloud, b, seg);
    UnderwayStep(b0, b, seg, done, alive, b', seg', |workers| > 0);
    more := false;
    if alive {
      more := GoesOn(workers, pending', b');
    }
  }

  lemma UnderwayReruns(b0: Board, b: Board, seg: seq<Event>, done: nat, someWorkers: bool)
    requires Underway(b0, b, seg, done, someWorkers)
    ensures RerunsLeft(b) && (Unsettled(b) ==> b0.pending != [])
  {
    UnsettledPending(b0);
    hide Todo;
    hide RerunsLeft;
    hide Decisive;
    hide AllFulfilled;
    hide NothingHeld;
    hide Unsettled;
  }

  /** The history has grown by `seg`. */
  ghost predicate Grown(start: seq<Event>, trace: seq<Event>, seg: seq<Event>) {
    trace == start + seg
  }

  lemma NothingGrown(start: seq<Event>, listed: seq<string>)
    ensures Grown(start, start, []) && Longer(listed, listed)
  {
  }

  ghost predicate Longer(earlier: seq<string>, later: seq<string>) {
    earlier <= later
  }

  lemma StillLonger(a: seq<string>, b: seq<string>, c: seq<string>)
    requires Longer(a, b) && b <= c
    ensures Longer(a, c)
  {
  }

  lemma MoreGrown(start: seq<Event>, trace: seq<Event>, seg: seq<Event>, events: seq<Event>)
    requires Grown(start, trace, seg)
    ensures Grown(start, trace + events, seg + events)
  {
  }

  /** Something was pending at first, and what has happened starts with the launch of the first of it. */
  ghost predicate StartsWell(b0: Board, seg: seq<Event>) {
    b0.pending != [] && (seg != [] ==> seg[0] == Launch(b0.pending[0]))
  }

  /** The state of a run after so many rounds from the board b0, on which nothing is held. */
  ghost predicate Underway(b0: Board, b: Board, seg: seq<Event>, done: nat, someWorkers: bool) {
    && RerunsLeft(b0) && RerunsLeft(b) && NothingHeld(b0)
    && (someWorkers && Decisive(seg) ==> Todo(b) + done <= Todo(b0))
    && (AllFulfilled(seg) ==> b.givenUp == b0.givenUp)
    && (!someWorkers || done == 0 ==> seg == [] && b == b0)
    && (someWorkers && done > 0 ==> b0.pending != [] && seg != [] && seg[0] == Launch(b0.pending[0]))
  }

  lemma UnderwayStart(b0: Board, rounds: nat, someWorkers: bool)
    requires RerunsLeft(b0) && NothingHeld(b0)
    ensures Underway(b0, b0, [], 0, someWorkers)
  {
  }

  /** One round more, from a board on which something is left to do. */
  lemma UnderwayStep(b0: Board, b: Board, seg: seq<Event>, done: nat, alive: bool, b': Board, seg': seq<Event>,
                     someWorkers: bool)
    requires Underway(b0, b, seg, done, someWorkers) && Unsettled(b) && seg <= seg'
    requires Achieved(b, seg, alive, b', seg', someWorkers)
    ensures alive ==> Underway(b0, b', seg', done + 1, someWorkers)
    ensures !alive ==> someWorkers
    ensures !alive ==> StartsWell(b0, seg')
  {
    UnsettledPending(b);
    UnsettledPending(b0);
    hide Todo;
    hide RerunsLeft;
    hide Decisive;
    hide AllFulfilled;
    hide NothingHeld;
    hide Unsettled;
  }

  lemma UnsettledPending(b: Board)
    ensures NothingHeld(b) && Unsettled(b) ==> b.pending != []
    ensures NothingHeld(b) && b.pending != [] ==> Unsettled(b)
  {
  }

  /** What the state of a run says about its end. */
  lemma UnderwayFacts(b0: Board, b: Board, seg: seq<Event>, done: nat, someWorkers: bool)
    requires Underway(b0, b, seg, done, someWorkers)
    ensures Unsettled(b) && someWorkers && Decisive(seg) ==> done < 6 * |b0.pending|
    ensures AllFulfilled(seg) ==> b.givenUp == b0.givenUp
    ensures !someWorkers ==> seg == [] && b == b0
    ensures b0.pending != [] && !Unsettled(b) ==> someWorkers && done > 0
    ensures b0.pending == [] ==> !Unsettled(b) && seg == []
    ensures done == 0 ==> seg == []
    ensures someWorkers && done > 0 ==> b0.pending != [] && seg != [] && seg[0] == Launch(b0.pending[0])
  {
    TodoIsPositive(b0);
    TodoIsPositive(b);
    UnsettledPending(b0);
    hide Todo;
    hide RerunsLeft;
    hide Decisive;
    hide AllFulfilled;
    hide NothingHeld;
    hide Unsettled;
  }

  /**
   One run over idle workers, cut off after `rounds` rounds or wherever its surroundings end it, with
   any input paths and any file that ends with a line break or is empty. It touches only inputs that
   the file did not list, and none again after recording it; its trace keeps the bounds on launches.
   It starts with the launch of the first unfinished input. When it ends normally each input has been
   finished before, is recorded now, or has been given up after five launches; and it does end
   normally within six rounds for each input, unless it is killed or some poll finds a job in progress.
   */
  method Operate(inputs: seq<(string, string)>, workers: seq<Worker>, store: Store, cloud: Cloud, rounds: nat)
      returns (outcome: Outcome, ghost seg: seq<Event>, ghost givenUp: set<string>)
    requires forall w :: w in workers ==> w.Valid() && w.IsIdle() && w.cloud == cloud
    requires forall i, j :: 0 <= i < j < |workers| ==> workers[i] != workers[j]
    requires Durable(store, cloud)
    modifies workers, store, cloud`trace
    ensures Durable(store, cloud) && old(store.listed) <= store.listed
    ensures cloud.trace == old(cloud.trace) + seg && Bounded(seg)
    ensures forall e :: e in seg ==>
      e.path !in FinishedJobs(old(store.content)) && exists k :: 0 <= k < |inputs| && inputs[k].0 == e.path
    ensures forall p :: Silent(seg, p)
    ensures outcome == Finished ==> forall k :: 0 <= k < |inputs| ==>
      && (inputs[k].0 in FinishedJobs(old(store.content)) || Record(inputs[k].0) in seg <==> inputs[k].0 !in givenUp)
      && (inputs[k].0 in givenUp ==> Count(seg, Launch(inputs[k].0)) == 5)
    ensures outcome == Finished && (forall e :: e in seg && e.Poll? ==> e.report == Some(Fulfilled)) ==> givenUp == {}
    ensures outcome == Killed ==> Dies(cloud.env, cloud.trace)
    ensures |workers| > 0 && rounds >= 6 * |inputs|
            && (forall e :: e in seg && e.Poll? ==> e.report != Some(Report.InProgress)) ==>
      outcome != OutOfRounds
    ensures |workers| == 0 && (exists k :: 0 <= k < |inputs| && inputs[k].0 !in FinishedJobs(old(store.content))) ==>
      outcome == OutOfRounds && seg == []
    ensures (forall k :: 0 <= k < |inputs| ==> inputs[k].0 in FinishedJobs(old(store.content))) ==>
      outcome == Finished && seg == []
    ensures forall k :: 0 <= k < |inputs| && |workers| > 0 && rounds >= 1
                        && inputs[k].0 !in FinishedJobs(old(store.content))
                        && (forall m :: 0 <= m < k ==> inputs[m].0 in FinishedJobs(old(store.content))) ==>
      (outcome != Killed ==> seg != []) && (seg != [] ==> seg[0] == Launch(inputs[k].0))
  {
    hide Bounded;
    hide Silent;
    hide Durable;
    hide Balanced;
    hide Tracks;
    hide IsInputList;
    hide NothingHeld;
    hide Dies;
    ghost var finished := FinishedJobs(store.content);
    var pending, firsts, b := Prepare(inputs, workers, store, cloud);
    JobsAreFew(inputs, finished, pending, firsts);
    InputListIsDistinct(inputs, finished, pending, firsts);
    forall k | 0 <= k < |inputs| && inputs[k].0 !in finished && forall m :: 0 <= m < k ==> inputs[m].0 in finished
      ensures pending != [] && pending[0].inputPath == inputs[k].0
    {
      FirstJob(inputs, finished, pending, firsts, k);
    }
    outcome, seg, givenUp := RunRounds(workers, pending, store, cloud, rounds, b);
    forall e | e in seg
      ensures e.path !in finished && exists k :: 0 <= k < |inputs| && inputs[k].0 == e.path
    {
      assert e.path in Paths(pending);
    }
  }

  /** The input list, and the books it starts with. */
  method Prepare(inputs: seq<(string, string)>, workers: seq<Worker>, store: Store, cloud: Cloud)
      returns (pending: seq<InputJob>, ghost firsts: seq<nat>, ghost b: Board)
    requires forall w :: w in workers ==> w.Valid() && w.IsIdle() && w.cloud == cloud
    requires forall i, j :: 0 <= i < j < |workers| ==> workers[i] != workers[j]
    requires Durable(store, cloud)
    ensures IsInputList(inputs, FinishedJobs(store.content), pending, firsts)
    ensures Tracks(b, workers, pending) && Balanced(b, [], store.listed) && NothingHeld(b)
    ensures b.jobs == (set p | p in Paths(pending)) && b.givenUp == {}
  {
    hide Journaled;
    hide IsInputList;
    pending, firsts := BuildInputList(inputs, store.content);
    ghost var finished := FinishedJobs(store.content);
    InputListIsDistinct(inputs, finished, pending, firsts);
    forall p | p in Paths(pending) && Clean(p)
      ensures p !in store.listed
    {
      store.Reads();
      if p in store.listed {
        RecognisedIffClean(store.listed, p);
      }
    }
    b := InitialBoard(Paths(pending), |workers|, store.listed);
    assert forall i :: 0 <= i < |workers| ==> workers[i] in workers;
  }

  lemma RunIsSettled(b: Board, seg: seq<Event>, listed: seq<string>)
    requires Balanced(b, seg, listed) && !Unsettled(b)
    ensures forall p :: p in b.jobs ==> (Record(p) in seg <==> p !in b.givenUp)
    ensures forall p :: p in b.givenUp ==> p in b.jobs && Count(seg, Launch(p)) == 5
  {
    AllSettled(b);
  }

  /** One start of the script: its input list, the number of functions, and how it is cut off. */
  datatype Start = Start(inputs: seq<(string, string)>, functions: nat, rounds: nat, env: Env)

  method SetupWorkers(n: nat, cloud: Cloud) returns (workers: seq<Worker>)
    ensures fresh(workers)
    ensures forall w :: w in workers ==> w.Valid() && w.IsIdle() && w.cloud == cloud
    ensures forall i, j :: 0 <= i < j < |workers| ==> workers[i] != workers[j]
  {
    workers := [];
    for f := 0 to n
      invariant fresh(workers)
      invariant forall w :: w in workers ==> w.Valid() && w.IsIdle() && w.cloud == cloud
      invariant forall i, j :: 0 <= i < j < |workers| ==> workers[i] != workers[j]
    {
      var worker := new Worker(cloud);
      workers := workers + [worker];
    }
  }

  lemma ReadsMore(earlier: seq<string>, later: seq<string>)
    requires earlier <= later
    ensures FinishedJobs(FileOf(earlier)) <= FinishedJobs(FileOf(later))
  {
    FileReadsAs(earlier);
    FileReadsAs(later);
    assert forall p :: p in earlier ==> p in later;
  }

  /** What the file reads as, and what the history is like. */
  lemma DurableFacts(store: Store, cloud: Cloud)
    requires Durable(store, cloud)
    ensures forall q :: q in FinishedJobs(store.content) <==>
                        q in FinishedJobs(store.base) || exists p :: Record(p) in cloud.trace && q in FinishedJobs(p)
    ensures (forall p :: Clean(p) ==> Silent(cloud.trace, p)) && Attributed(cloud.trace)
  {
    store.Reads();
    FileReadsAs(store.listed);
    assert forall p :: p in store.listed <==> Record(p) in cloud.trace;
  }

  /**
   Any sequence of runs, crashes and restarts on one progress file, with any input lists, which
   may change. Over the whole history a path that is non-blank, single-line and unpadded is listed
   at most once, and nothing is launched or submitted for it once it is listed; nor is anything
   ever launched, submitted or recorded that the file read as finished at the start. Every submit
   is one of the first six after a launch of its path. The file reads as its first text and the
   recorded paths do.
   */
  method Campaign(starts: seq<Start>, store: Store, cloud: Cloud)
    requires Durable(store, cloud)
    modifies store, cloud
    ensures Durable(store, cloud) && old(store.listed) <= store.listed && old(cloud.trace) <= cloud.trace
    ensures forall q :: q in FinishedJobs(store.content) <==>
                        q in FinishedJobs(store.base) || exists p :: Record(p) in cloud.trace && q in FinishedJobs(p)
    ensures forall i :: |old(cloud.trace)| <= i < |cloud.trace| ==>
      cloud.trace[i].path !in FinishedJobs(old(store.content))
    ensures forall p :: Clean(p) ==> Silent(cloud.trace, p)
    ensures Attributed(cloud.trace)
  {
    hide Durable;
    ghost var finished := FinishedJobs(store.content);
    for s := 0 to |starts|
      invariant Durable(store, cloud) && old(store.listed) <= store.listed && old(cloud.trace) <= cloud.trace
      invariant finished <= FinishedJobs(store.content)
      invariant forall i :: |old(cloud.trace)| <= i < |cloud.trace| ==> cloud.trace[i].path !in finished
    {
      RunOnce(starts[s], store, cloud);
    }
    DurableFacts(store, cloud);
  }

  /** One start: new workers, and a run on the file as it is. */
  method RunOnce(start: Start, store: Store, cloud: Cloud)
    requires Durable(store, cloud)
    modifies store, cloud
    ensures Durable(store, cloud) && old(store.listed) <= store.listed && old(cloud.trace) <= cloud.trace
    ensures FinishedJobs(old(store.content)) <= FinishedJobs(store.content)
    ensures forall i :: |old(cloud.trace)| <= i < |cloud.trace| ==>
      cloud.trace[i].path !in FinishedJobs(old(store.content))
  {
    hide Journaled;
    hide Bounded;
    hide Silent;
    store.Reads();
    cloud.env := start.env;
    var workers := SetupWorkers(start.functions, cloud);
    var outcome, seg, givenUp := Operate(start.inputs, workers, store, cloud, start.rounds);
    store.Reads();
    ReadsMore(old(store.listed), store.listed);
    forall i | |old(cloud.trace)| <= i < |cloud.trace|
      ensures cloud.trace[i].path !in FinishedJobs(old(store.content))
    {
      assert cloud.trace[i] == seg[i - |old(cloud.trace)|] && cloud.trace[i] in seg;
    }
  }
}
