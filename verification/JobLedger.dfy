/** The books of one operator run: where every job is, and how often it has been launched and submitted. */
module JobLedger {
  import opened Wrappers
  import opened ProgressFile
  import Grouping

  const NUM_RETRIES: nat := 5

  /** What get-request-status may report; any other answer makes the worker ask again. */
  datatype Report = InProgress | Failed | Fulfilled | NotFound

  /**
   What is visible from outside: launches of a job, the invoke commands they take, polls with what
   they found out, and progress file lines.
   */
  datatype Event =
    | Launch(path: string)
    | Submit(path: string)
    | Poll(path: string, report: Option<Report>)
    | Record(path: string)

  /**
   What a run cannot choose, by what has happened before: whether it is killed now, the request id
   that the last invoke command gives, and what the next poll is told at its k-th question.
   */
  datatype Env = Env(
    kills: seq<Event> -> bool,
    answers: seq<Event> -> Option<string>,
    reports: (seq<Event>, nat) -> Option<Report>)

  /** A run ends early when it is killed, after six unanswered submits, or after six unanswered questions of a poll. */
  ghost predicate Dies(env: Env, t: seq<Event>) {
    || env.kills(t)
    || (|t| >= 6 && forall k :: |t| - 6 <= k < |t| ==> Unanswered(env, t, k))
    || (t != [] && t[|t| - 1].Poll? && NoReports(env, t[..|t| - 1]))
  }

  /** A poll after t is told nothing, however often it asks. */
  ghost predicate NoReports(env: Env, t: seq<Event>) {
    forall k :: 0 <= k < 6 ==> NoReport(env, t, k)
  }

  /** The submit at place k brought no request id. */
  ghost predicate Unanswered(env: Env, t: seq<Event>, k: nat)
    requires k < |t|
  {
    t[k].Submit? && env.answers(t[..k + 1]).None?
  }

  /** A poll after t is told nothing at its k-th question. */
  ghost predicate NoReport(env: Env, t: seq<Event>, k: nat) {
    env.reports(t, k).None?
  }

  function Count(trace: seq<Event>, e: Event): nat {
    if trace == [] then 0 else Count(trace[..|trace| - 1], e) + if trace[|trace| - 1] == e then 1 else 0
  }

  lemma {:induction false} CountConcat(a: seq<Event>, b: seq<Event>, e: Event)
    ensures Count(a + b, e) == Count(a, e) + Count(b, e)
  {
    if b == [] {
      assert a + b == a;
    } else {
      CountConcat(a, b[..|b| - 1], e);
      assert (a + b)[..|a + b| - 1] == a + b[..|b| - 1];
    }
  }

  /** One launch: an announcement and n attempts to submit. */
  function LaunchTrace(path: string, n: nat): seq<Event> {
    if n == 0 then [Launch(path)] else LaunchTrace(path, n - 1) + [Submit(path)]
  }

  lemma {:induction false} LaunchTraceAt(path: string, n: nat)
    ensures |LaunchTrace(path, n)| == n + 1 && LaunchTrace(path, n)[0] == Launch(path)
    ensures forall k :: 1 <= k <= n ==> LaunchTrace(path, n)[k] == Submit(path)
  {
    if n > 0 {
      LaunchTraceAt(path, n - 1);
    }
  }

  lemma CountAppend(trace: seq<Event>, last: Event, e: Event)
    ensures Count(trace + [last], e) == Count(trace, e) + if last == e then 1 else 0
  {
    assert (trace + [last])[..|trace|] == trace;
  }

  lemma {:induction false} CountLaunch(path: string, n: nat, other: string)
    ensures Count(LaunchTrace(path, n), Launch(other)) == if other == path then 1 else 0
    ensures Count(LaunchTrace(path, n), Submit(other)) == if other == path then n else 0
  {
    if n == 0 {
      CountAppend([], Launch(path), Launch(other));
      CountAppend([], Launch(path), Submit(other));
      assert [] + [Launch(path)] == LaunchTrace(path, n);
    } else {
      var before := LaunchTrace(path, n - 1);
      CountLaunch(path, n - 1, other);
      CountAppend(before, Submit(path), Launch(other));
      CountAppend(before, Submit(path), Submit(other));
      hide Count;
    }
  }

  /** A launch records nothing and concerns its own path only. */
  lemma LaunchEvents(path: string, n: nat)
    ensures forall e :: e in LaunchTrace(path, n) ==> e.path == path && !e.Record?
  {
    LaunchTraceAt(path, n);
    hide LaunchTrace;
  }

  // ----- at any time -----

  /** Once the path has been recorded nothing is launched, submitted or recorded for it any more. */
  ghost predicate Silent(trace: seq<Event>, path: string) {
    forall i, j :: 0 <= i < j < |trace| && trace[i] == Record(path) ==> trace[j].path != path
  }

  lemma SilentLaunch(trace: seq<Event>, path: string, n: nat, p: string)
    requires Silent(trace, p) && (p == path ==> Record(p) !in trace)
    ensures Silent(trace + LaunchTrace(path, n), p)
    ensures Record(p) in trace + LaunchTrace(path, n) <==> Record(p) in trace
  {
    LaunchEvents(path, n);
    var more := trace + LaunchTrace(path, n);
    assert forall k :: |trace| <= k < |more| ==> more[k] in LaunchTrace(path, n);
    forall i, j | 0 <= i < j < |more| && more[i] == Record(p)
      ensures more[j].path != p
    {
      assert more[i] in trace;
    }
  }

  lemma SilentOne(trace: seq<Event>, e: Event, p: string)
    requires Silent(trace, p) && (p == e.path ==> Record(p) !in trace)
    ensures Silent(trace + [e], p)
    ensures Record(p) in trace + [e] <==> Record(p) in trace || e == Record(p)
  {
    var more := trace + [e];
    forall i, j | 0 <= i < j < |more| && more[i] == Record(p)
      ensures more[j].path != p
    {
      assert more[i] in trace;
    }
  }

  /**
   Event l launches the job that event i submits; in between that job has been submitted, at most six
   times in all.
   */
  ghost predicate LaunchAt(trace: seq<Event>, l: nat, i: nat)
    requires l < i < |trace|
  {
    i - l <= 6 && trace[l] == Launch(trace[i].path) && forall j :: l < j <= i ==> trace[j] == trace[i]
  }

  /** Every submit is one of the first six after a launch of the same path, with nothing else in between. */
  ghost predicate Attributed(trace: seq<Event>) {
    forall i :: 0 <= i < |trace| && trace[i].Submit? ==> exists l :: 0 <= l < i && LaunchAt(trace, l, i)
  }

  lemma AttributedExtends(trace: seq<Event>, more: seq<Event>, i: nat)
    requires Attributed(trace) && i < |trace| && trace[i].Submit?
    ensures exists l :: 0 <= l < i && LaunchAt(trace + more, l, i)
  {
    var l :| 0 <= l < i && LaunchAt(trace, l, i);
    assert LaunchAt(trace + more, l, i);
  }

  lemma AttributedLaunch(trace: seq<Event>, path: string, n: nat)
    requires Attributed(trace) && n <= 6
    ensures Attributed(trace + LaunchTrace(path, n))
  {
    var more := trace + LaunchTrace(path, n);
    LaunchTraceAt(path, n);
    forall i | 0 <= i < |more| && more[i].Submit?
      ensures exists l :: 0 <= l < i && LaunchAt(more, l, i)
    {
      if i < |trace| {
        AttributedExtends(trace, LaunchTrace(path, n), i);
      } else {
        assert LaunchAt(more, |trace|, i);
      }
    }
  }

  lemma AttributedOne(trace: seq<Event>, e: Event)
    requires Attributed(trace) && !e.Submit?
    ensures Attributed(trace + [e])
  {
    var more := trace + [e];
    forall i | 0 <= i < |more| && more[i].Submit?
      ensures exists l :: 0 <= l < i && LaunchAt(more, l, i)
    {
      AttributedExtends(trace, [e], i);
    }
  }

  // ----- across runs -----

  ghost predicate Distinct(paths: seq<string>) {
    forall i, j :: 0 <= i < j < |paths| ==> paths[i] != paths[j]
  }

  /**
   The file lists the recorded paths and nothing else, and a path that reads back is listed once
   and left alone from then on. Other paths may be in the file as well.
   */
  ghost predicate Journaled(trace: seq<Event>, listed: seq<string>) {
    && (forall p :: Clean(p) ==> Silent(trace, p))
    && (forall i, j :: 0 <= i < j < |listed| && Clean(listed[i]) ==> listed[i] != listed[j])
    && (forall p :: p in listed <==> Record(p) in trace)
    && Attributed(trace)
  }

  lemma JournalLaunch(trace: seq<Event>, listed: seq<string>, path: string, n: nat)
    requires Journaled(trace, listed) && (Clean(path) ==> path !in listed) && n <= 6
    ensures Journaled(trace + LaunchTrace(path, n), listed)
  {
    var more := trace + LaunchTrace(path, n);
    AttributedLaunch(trace, path, n);
    hide Attributed;
    forall p | Clean(p)
      ensures Silent(more, p)
    {
      SilentLaunch(trace, path, n, p);
    }
    hide Silent;
    LaunchEvents(path, n);
  }

  /** Recording a path, or polling for it. */
  lemma JournalOne(trace: seq<Event>, listed: seq<string>, e: Event)
    requires Journaled(trace, listed) && (Clean(e.path) ==> e.path !in listed) && (e.Record? || e.Poll?)
    ensures Journaled(trace + [e], if e.Record? then listed + [e.path] else listed)
  {
    AttributedOne(trace, e);
    hide Attributed;
    forall p | Clean(p)
      ensures Silent(trace + [e], p)
    {
      SilentOne(trace, e, p);
    }
    hide Silent;
  }

  // ----- within a run -----

  /** The jobs of a run, those still queued, the path each worker holds with its rerun count, and the finished ones. */
  datatype Board = Board(
    jobs: set<string>,
    pending: seq<string>,
    held: seq<Option<string>>,
    reruns: seq<nat>,
    recorded: set<string>,
    givenUp: set<string>)

  ghost predicate Held(b: Board, path: string) {
    exists i :: 0 <= i < |b.held| && b.held[i] == Some(path)
  }

  /** Every job is in exactly one place. */
  ghost predicate Conserved(b: Board) {
    && |b.held| == |b.reruns|
    && Distinct(b.pending)
    && (forall i, j :: 0 <= i < j < |b.held| && b.held[i].Some? ==> b.held[i] != b.held[j])
    && (forall p :: p in b.pending ==> p in b.jobs && !Held(b, p) && p !in b.recorded && p !in b.givenUp)
    && (forall i :: 0 <= i < |b.held| && b.held[i].Some? ==>
      b.held[i].value in b.jobs && b.held[i].value !in b.recorded && b.held[i].value !in b.givenUp)
    && b.recorded <= b.jobs && b.givenUp <= b.jobs && b.recorded !! b.givenUp
    && (forall p :: p in b.jobs ==> p in b.pending || Held(b, p) || p in b.recorded || p in b.givenUp)
  }

  /** The launches each job has had, by place; a busy worker has rerun its job fewer than five times. */
  ghost predicate Launched(b: Board, seg: seq<Event>) {
    && |b.held| == |b.reruns|
    && (forall p :: p in b.pending ==> Count(seg, Launch(p)) == 0)
    && (forall i :: 0 <= i < |b.held| && b.held[i].Some? ==>
      b.reruns[i] < 5 && Count(seg, Launch(b.held[i].value)) == b.reruns[i] + 1)
    && (forall p :: p in b.givenUp ==> Count(seg, Launch(p)) == 5)
  }

  /** At most five launches of a path, and at most six submits for each. */
  ghost predicate Bounded(seg: seq<Event>) {
    forall p :: Count(seg, Launch(p)) <= 5 && Count(seg, Submit(p)) <= 6 * Count(seg, Launch(p))
  }

  /** The run touches its own jobs only, and none of them again once it has been recorded, whatever its path. */
  ghost predicate Orderly(jobs: set<string>, seg: seq<Event>) {
    && (forall e :: e in seg ==> e.path in jobs)
    && (forall p :: Silent(seg, p))
  }

  lemma OrderlyLaunch(jobs: set<string>, seg: seq<Event>, path: string, n: nat)
    requires Orderly(jobs, seg) && path in jobs && Record(path) !in seg
    ensures Orderly(jobs, seg + LaunchTrace(path, n))
    ensures forall p :: Record(p) in seg + LaunchTrace(path, n) <==> Record(p) in seg
  {
    LaunchEvents(path, n);
    forall p
      ensures Silent(seg + LaunchTrace(path, n), p)
      ensures Record(p) in seg + LaunchTrace(path, n) <==> Record(p) in seg
    {
      SilentLaunch(seg, path, n, p);
    }
    hide Silent;
  }

  lemma OrderlyOne(jobs: set<string>, seg: seq<Event>, e: Event)
    requires Orderly(jobs, seg) && e.path in jobs && Record(e.path) !in seg
    ensures Orderly(jobs, seg + [e])
    ensures forall p :: Record(p) in seg + [e] <==> Record(p) in seg || e == Record(p)
  {
    forall p
      ensures Silent(seg + [e], p)
      ensures Record(p) in seg + [e] <==> Record(p) in seg || e == Record(p)
    {
      SilentOne(seg, e, p);
    }
    hide Silent;
  }

  /** A launch of a path with launches to spare keeps the bounds, and concerns that path only. */
  lemma LaunchKeepsBounds(seg: seq<Event>, path: string, n: nat)
    requires Bounded(seg) && Count(seg, Launch(path)) < 5 && n <= 6
    ensures Bounded(seg + LaunchTrace(path, n))
    ensures forall p :: Count(seg + LaunchTrace(path, n), Launch(p)) ==
                        Count(seg, Launch(p)) + if p == path then 1 else 0
  {
    forall p
      ensures Count(seg + LaunchTrace(path, n), Launch(p)) == Count(seg, Launch(p)) + if p == path then 1 else 0
      ensures Count(seg + LaunchTrace(path, n), Submit(p)) == Count(seg, Submit(p)) + if p == path then n else 0
    {
      CountConcat(seg, LaunchTrace(path, n), Launch(p));
      CountConcat(seg, LaunchTrace(path, n), Submit(p));
      CountLaunch(path, n, p);
    }
  }

  lemma OneKeepsBounds(seg: seq<Event>, e: Event)
    requires Bounded(seg) && (e.Record? || e.Poll?)
    ensures Bounded(seg + [e])
    ensures forall p :: Count(seg + [e], Launch(p)) == Count(seg, Launch(p))
  {
    assert (seg + [e])[..|seg|] == seg;
  }

  /** An idle worker takes the first pending job. */
  function Assigned(b: Board, i: nat): Board
    requires b.pending != [] && i < |b.held| == |b.reruns|
  {
    b.(pending := b.pending[1..], held := b.held[i := Some(b.pending[0])], reruns := b.reruns[i := 0])
  }

  lemma AssignedHolds(b: Board, i: nat)
    requires b.pending != [] && i < |b.held| == |b.reruns| && b.held[i] == None
    ensures forall q :: Held(Assigned(b, i), q) <==> Held(b, q) || q == b.pending[0]
  {
    var b', p := Assigned(b, i), b.pending[0];
    assert b'.held[i] == Some(p);
    forall q | Held(b, q)
      ensures Held(b', q)
    {
      var k :| 0 <= k < |b.held| && b.held[k] == Some(q);
      assert b'.held[k] == Some(q);
    }
  }

  lemma Tail(paths: seq<string>)
    requires paths != [] && Distinct(paths)
    ensures Distinct(paths[1..])
    ensures forall q :: q in paths[1..] <==> q in paths && q != paths[0]
  {
    assert paths == [paths[0]] + paths[1..];
  }

  lemma AssignedConserves(b: Board, i: nat)
    requires Conserved(b)
    requires b.pending != [] && i < |b.held| && b.held[i] == None
    ensures Conserved(Assigned(b, i))
  {
    var p := b.pending[0];
    assert p in b.pending;
    AssignedHolds(b, i);
    Tail(b.pending);
    forall k | 0 <= k < |b.held| && b.held[k].Some?
      ensures b.held[k].value != p && b.held[k].value !in b.pending[1..]
    {
      assert Held(b, b.held[k].value);
    }
    hide Held;
    hide Distinct;
  }

  lemma AssignedLaunches(b: Board, i: nat, seg: seq<Event>, seg': seq<Event>)
    requires Conserved(b) && Launched(b, seg)
    requires b.pending != [] && i < |b.held| && b.held[i] == None
    requires forall q :: Count(seg', Launch(q)) == Count(seg, Launch(q)) + if q == b.pending[0] then 1 else 0
    ensures Launched(Assigned(b, i), seg')
  {
    var p := b.pending[0];
    assert p in b.pending;
    Tail(b.pending);
    forall k | 0 <= k < |b.held| && b.held[k].Some?
      ensures b.held[k].value != p
    {
      assert Held(b, b.held[k].value);
    }
    hide Count;
    hide Distinct;
  }

  lemma AssignedKeeps(b: Board, i: nat, seg: seq<Event>, n: nat)
    requires Conserved(b) && Launched(b, seg) && Bounded(seg) && n <= 6
    requires b.pending != [] && i < |b.held| && b.held[i] == None
    ensures var seg' := seg + LaunchTrace(b.pending[0], n);
            Conserved(Assigned(b, i)) && Launched(Assigned(b, i), seg') && Bounded(seg')
  {
    assert b.pending[0] in b.pending;
    LaunchKeepsBounds(seg, b.pending[0], n);
    AssignedConserves(b, i);
    AssignedLaunches(b, i, seg, seg + LaunchTrace(b.pending[0], n));
  }

  /** A failed job with reruns to spare is launched again by the same worker. */
  function Rerun(b: Board, i: nat): Board
    requires i < |b.reruns|
  {
    b.(reruns := b.reruns[i := b.reruns[i] + 1])
  }

  lemma RerunKeeps(b: Board, i: nat, seg: seq<Event>, n: nat)
    requires Conserved(b) && Launched(b, seg) && Bounded(seg) && n <= 6
    requires i < |b.held| && b.held[i].Some? && b.reruns[i] + 1 < 5
    ensures var seg' := seg + LaunchTrace(b.held[i].value, n);
            Conserved(Rerun(b, i)) && Launched(Rerun(b, i), seg') && Bounded(seg')
  {
    var b', p := Rerun(b, i), b.held[i].value;
    LaunchKeepsBounds(seg, p, n);
    assert Held(b, p);
    forall q
      ensures Held(b', q) <==> Held(b, q)
    {
      if Held(b, q) {
        var k :| 0 <= k < |b.held| && b.held[k] == Some(q);
        assert b'.held[k] == Some(q);
      }
    }
  }

  /** A worker lets go of its job, which is then recorded or given up. */
  function Released(b: Board, i: nat, success: bool): Board
    requires i < |b.held| == |b.reruns| && b.held[i].Some?
  {
    var b' := b.(held := b.held[i := None], reruns := b.reruns[i := 0]);
    if success then b'.(recorded := b.recorded + {b.held[i].value})
    else b'.(givenUp := b.givenUp + {b.held[i].value})
  }

  lemma ReleasedHolds(b: Board, i: nat, success: bool)
    requires Conserved(b) && i < |b.held| && b.held[i].Some?
    ensures forall q :: Held(Released(b, i, success), q) <==> Held(b, q) && q != b.held[i].value
  {
    var b', p := Released(b, i, success), b.held[i].value;
    forall q
      ensures Held(b', q) <==> Held(b, q) && q != p
    {
      if Held(b, q) && q != p {
        var k :| 0 <= k < |b.held| && b.held[k] == Some(q);
        assert b'.held[k] == Some(q);
      }
      if Held(b', q) {
        var k :| 0 <= k < |b.held| && b'.held[k] == Some(q);
        assert b.held[k] == Some(q);
      }
    }
  }

  lemma ReleasedKeeps(b: Board, i: nat, success: bool, seg: seq<Event>)
    requires Conserved(b) && Launched(b, seg) && Bounded(seg)
    requires i < |b.held| && b.held[i].Some?
    requires !success ==> b.reruns[i] + 1 >= 5
    ensures var seg' := if success then seg + [Record(b.held[i].value)] else seg;
            Conserved(Released(b, i, success)) && Launched(Released(b, i, success), seg') && Bounded(seg')
  {
    var p := b.held[i].value;
    OneKeepsBounds(seg, Record(p));
    assert Held(b, p);
    ReleasedHolds(b, i, success);
    hide Bounded;
    hide Held;
    hide Count;
  }

  /** With nothing pending and all workers idle every job has been recorded or given up, never both. */
  lemma AllSettled(b: Board)
    requires Conserved(b) && b.pending == [] && forall i :: 0 <= i < |b.held| ==> b.held[i] == None
    ensures b.recorded + b.givenUp == b.jobs && b.recorded !! b.givenUp
  {
  }

  // ----- what a visit and a round do -----

  /**
   A completed visit to worker i. An idle worker takes the first pending job, if there is one, and
   launches it with one to six submits. A busy worker is polled once: it goes on, records its
   success, launches the job again after a failure, or gives it up after the fifth.
   */
  ghost predicate Visited(b: Board, b': Board, i: nat, part: seq<Event>)
    requires i < |b.held| == |b.reruns|
  {
    && b'.jobs == b.jobs
    && match b.held[i] {
      case None =>
        if b.pending == [] then part == [] && b' == b
        else
          && b'.pending == b.pending[1..]
          && b'.held == b.held[i := Some(b.pending[0])] && b'.reruns == b.reruns[i := 0]
          && b'.recorded == b.recorded && b'.givenUp == b.givenUp
          && exists n :: 1 <= n <= 6 && part == LaunchTrace(b.pending[0], n)
      case Some(p) =>
        && b'.pending == b.pending
        && part != [] && part[0].Poll? && part[0].path == p && part[0].report.Some?
        && match part[0].report.value {
          case InProgress =>
            part[1..] == [] && b' == b
          case Fulfilled =>
            && part[1..] == [Record(p)]
            && b'.held == b.held[i := None] && b'.reruns == b.reruns[i := 0]
            && b'.recorded == b.recorded + {p} && b'.givenUp == b.givenUp
          case _ =>
            && b'.recorded == b.recorded
            && if b.reruns[i] + 1 < 5 then
                && b'.held == b.held && b'.reruns == b.reruns[i := b.reruns[i] + 1] && b'.givenUp == b.givenUp
                && exists n :: 1 <= n <= 6 && part[1..] == LaunchTrace(p, n)
              else
                && b'.held == b.held[i := None] && b'.reruns == b.reruns[i := 0] && b'.givenUp == b.givenUp + {p}
                && part[1..] == []
        }
    }
  }

  /** What a visit that was cut off may have done. */
  ghost predicate CutVisit(b: Board, i: nat, part: seq<Event>)
    requires i < |b.held|
  {
    part == [] ||
    match b.held[i]
    case None =>
      b.pending != [] && exists n :: 0 <= n <= 6 && part == LaunchTrace(b.pending[0], n)
    case Some(p) =>
      && part[0].Poll? && part[0].path == p
      && (part[1..] == [] || exists n :: 0 <= n <= 6 && part[1..] == LaunchTrace(p, n))
  }

  /** Visits to the workers 0, 1, 2 and so on, each to its own events and the board it leaves. */
  ghost predicate Passed(boards: seq<Board>, parts: seq<seq<Event>>) {
    && |boards| == |parts| + 1
    && (forall k :: 0 <= k < |boards| ==>
      |boards[k].held| == |boards[k].reruns| == |boards[0].held| && |parts| <= |boards[k].held|)
    && (forall k :: 0 <= k < |parts| ==> Visited(boards[k], boards[k + 1], k, parts[k]))
  }

  lemma PassedStart(b: Board)
    requires |b.held| == |b.reruns|
    ensures Passed([b], [])
  {
  }

  lemma PassedStep(boards: seq<Board>, parts: seq<seq<Event>>, b: Board, part: seq<Event>)
    requires Passed(boards, parts) && |parts| < |boards[0].held|
    requires Visited(boards[|parts|], b, |parts|, part)
    ensures Passed(boards + [b], parts + [part])
  {
    var more, all := boards + [b], parts + [part];
    assert |b.held| == |b.reruns| == |boards[0].held|;
    hide Visited;
    forall k | 0 <= k < |all|
      ensures Visited(more[k], more[k + 1], k, all[k])
    {
    }
  }

  /** A worker keeps what it holds until its own visit. */
  lemma {:induction false} HeldUntilVisited(boards: seq<Board>, parts: seq<seq<Event>>, k: nat, w: nat)
    requires Passed(boards, parts) && k <= |parts| && k <= w < |boards[0].held|
    ensures boards[k].held[w] == boards[0].held[w] && boards[k].reruns[w] == boards[0].reruns[w]
  {
    if k > 0 {
      HeldUntilVisited(boards, parts, k - 1, w);
      assert Visited(boards[k - 1], boards[k], k - 1, parts[k - 1]);
    }
  }

  /** How many of the first k workers are idle. */
  function IdleCount(held: seq<Option<string>>, k: nat): nat
    requires k <= |held|
  {
    if k == 0 then 0 else IdleCount(held, k - 1) + if held[k - 1].None? then 1 else 0
  }

  /** Each idle worker on the way has taken one pending job, while there were any. */
  lemma {:induction false} PendingLeft(boards: seq<Board>, parts: seq<seq<Event>>, k: nat)
    requires Passed(boards, parts) && k <= |parts|
    ensures var taken := IdleCount(boards[0].held, k);
            boards[k].pending == if taken < |boards[0].pending| then boards[0].pending[taken..] else []
  {
    if k > 0 {
      PendingLeft(boards, parts, k - 1);
      HeldUntilVisited(boards, parts, k - 1, k - 1);
      assert Visited(boards[k - 1], boards[k], k - 1, parts[k - 1]);
    }
  }

  /** A worker that has been visited keeps what that visit left it. */
  lemma {:induction false} HeldAfterVisit(boards: seq<Board>, parts: seq<seq<Event>>, k: nat, w: nat)
    requires Passed(boards, parts) && w < k <= |parts|
    ensures boards[k].held[w] == boards[w + 1].held[w]
  {
    if k > w + 1 {
      HeldAfterVisit(boards, parts, k - 1, w);
      assert Visited(boards[k - 1], boards[k], k - 1, parts[k - 1]);
    }
  }

  /**
   In a round every worker that is idle at its start takes, in order, the next pending job and
   launches it, while there is one; and every worker that is busy at its start is polled once.
   */
  lemma RoundHandsOut(boards: seq<Board>, parts: seq<seq<Event>>, w: nat)
    requires Passed(boards, parts) && w < |parts|
    ensures var b, r := boards[0], IdleCount(boards[0].held, w);
            b.held[w].None? && r < |b.pending| ==>
              && (exists n :: 1 <= n <= 6 && parts[w] == LaunchTrace(b.pending[r], n))
              && boards[|parts|].held[w] == Some(b.pending[r])
    ensures boards[0].held[w].None? && IdleCount(boards[0].held, w) >= |boards[0].pending| ==>
              parts[w] == [] && boards[|parts|].held[w] == None
    ensures boards[0].held[w].Some? ==>
              && parts[w] != [] && parts[w][0].Poll? && parts[w][0].path == boards[0].held[w].value
              && forall j :: 1 <= j < |parts[w]| ==> !parts[w][j].Poll?
  {
    HeldUntilVisited(boards, parts, w, w);
    PendingLeft(boards, parts, w);
    HeldAfterVisit(boards, parts, |parts|, w);
    assert Visited(boards[w], boards[w + 1], w, parts[w]);
    if boards[0].held[w].Some? {
      OnePoll(boards[w], boards[w + 1], w, parts[w]);
    }
  }

  lemma OnePoll(b: Board, b': Board, i: nat, part: seq<Event>)
    requires i < |b.held| == |b.reruns| && Visited(b, b', i, part) && b.held[i].Some?
    ensures forall j :: 1 <= j < |part| ==> !part[j].Poll?
  {
    forall j | 1 <= j < |part|
      ensures !part[j].Poll?
    {
      assert part[j] == part[1..][j - 1];
      if n :| 1 <= n <= 6 && part[1..] == LaunchTrace(b.held[i].value, n) {
        LaunchTraceAt(b.held[i].value, n);
      }
    }
  }

  // ----- how much is left to do -----

  /** The polls that a busy worker can still fail, one more for its last. */
  function Weight(held: Option<string>, reruns: nat): int {
    if held.Some? then 5 - reruns else 0
  }

  function HeldTodo(held: seq<Option<string>>, reruns: seq<nat>): int
    requires |held| == |reruns|
  {
    if held == [] then 0 else Weight(held[0], reruns[0]) + HeldTodo(held[1..], reruns[1..])
  }

  /** An upper bound on the visits that can still do something, when no poll finds its job in progress. */
  function Todo(b: Board): int
    requires |b.held| == |b.reruns|
  {
    6 * |b.pending| + HeldTodo(b.held, b.reruns)
  }

  lemma {:induction false} HeldTodoUpdate(held: seq<Option<string>>, reruns: seq<nat>, i: nat, h: Option<string>,
                                          r: nat)
    requires i < |held| == |reruns|
    ensures HeldTodo(held[i := h], reruns[i := r]) == HeldTodo(held, reruns) - Weight(held[i], reruns[i]) + Weight(h, r)
  {
    hide Weight;
    if i == 0 {
      assert held[i := h][1..] == held[1..] && reruns[i := r][1..] == reruns[1..];
    } else {
      HeldTodoUpdate(held[1..], reruns[1..], i - 1, h, r);
      assert held[i := h][1..] == held[1..][i - 1 := h] && reruns[i := r][1..] == reruns[1..][i - 1 := r];
    }
  }

  /** Workers that hold a job have rerun it fewer than five times. */
  ghost predicate RerunsLeft(b: Board) {
    |b.held| == |b.reruns| && forall i :: 0 <= i < |b.held| && b.held[i].Some? ==> b.reruns[i] < 5
  }

  lemma {:induction false} HeldTodoIsPositive(held: seq<Option<string>>, reruns: seq<nat>)
    requires |held| == |reruns| && forall i :: 0 <= i < |held| && held[i].Some? ==> reruns[i] < 5
    ensures HeldTodo(held, reruns) >= 0
    ensures (exists i :: 0 <= i < |held| && held[i].Some?) ==> HeldTodo(held, reruns) > 0
    ensures (forall i :: 0 <= i < |held| ==> held[i].None?) ==> HeldTodo(held, reruns) == 0
  {
    if held != [] {
      var h, r := held[1..], reruns[1..];
      assert forall i :: 0 <= i < |h| ==> h[i] == held[i + 1] && r[i] == reruns[i + 1];
      HeldTodoIsPositive(h, r);
      if i :| 1 <= i < |held| && held[i].Some? {
        assert h[i - 1].Some?;
      }
    }
  }

  /** No poll found its job in progress. */
  ghost predicate Decisive(seg: seq<Event>) {
    forall e :: e in seg && e.Poll? ==> e.report != Some(InProgress)
  }

  /** Every poll found its job fulfilled. */
  ghost predicate AllFulfilled(seg: seq<Event>) {
    forall e :: e in seg && e.Poll? ==> e.report == Some(Fulfilled)
  }

  /** A visit leaves no more to do, and less if it hands out a job or its poll is decisive. */
  lemma VisitedTodo(b: Board, b': Board, i: nat, part: seq<Event>)
    requires RerunsLeft(b) && i < |b.held| && Visited(b, b', i, part)
    ensures RerunsLeft(b') && |b'.held| == |b.held| && Todo(b') <= Todo(b)
    ensures (if b.held[i].Some? then Decisive(part) else b.pending != []) ==> Todo(b') < Todo(b)
    ensures AllFulfilled(part) ==> b'.givenUp == b.givenUp
  {
    HeldTodoUpdate(b.held, b.reruns, i, b'.held[i], b'.reruns[i]);
    assert b'.held == b.held[i := b'.held[i]] && b'.reruns == b.reruns[i := b'.reruns[i]];
    if b.held[i].Some? {
      assert part[0] in part;
    }
    hide HeldTodo;
  }

  lemma {:induction false} PassedTodo(boards: seq<Board>, parts: seq<seq<Event>>, k: nat)
    requires Passed(boards, parts) && RerunsLeft(boards[0]) && k <= |parts|
    ensures RerunsLeft(boards[k]) && Todo(boards[k]) <= Todo(boards[0])
    ensures (forall j :: 0 <= j < k ==> AllFulfilled(parts[j])) ==> boards[k].givenUp == boards[0].givenUp
  {
    if k > 0 {
      PassedTodo(boards, parts, k - 1);
      assert Visited(boards[k - 1], boards[k], k - 1, parts[k - 1]);
      VisitedTodo(boards[k - 1], boards[k], k - 1, parts[k - 1]);
    }
    hide Visited;
    hide Todo;
    hide AllFulfilled;
  }

  /** From the visit to worker w on, less is left to do if that visit made progress. */
  lemma {:induction false} PassedProgress(boards: seq<Board>, parts: seq<seq<Event>>, w: nat, k: nat)
    requires Passed(boards, parts) && RerunsLeft(boards[0]) && w < k <= |parts|
    requires if boards[w].held[w].Some? then Decisive(parts[w]) else boards[w].pending != []
    ensures RerunsLeft(boards[k]) && Todo(boards[k]) < Todo(boards[0])
  {
    PassedTodo(boards, parts, k - 1);
    assert Visited(boards[k - 1], boards[k], k - 1, parts[k - 1]);
    VisitedTodo(boards[k - 1], boards[k], k - 1, parts[k - 1]);
    if k > w + 1 {
      PassedProgress(boards, parts, w, k - 1);
    }
    hide Visited;
    hide Todo;
  }

  lemma {:induction false} PartIsIn(parts: seq<seq<Event>>, k: nat)
    requires k < |parts|
    ensures forall e :: e in parts[k] ==> e in Grouping.Flatten(parts)
  {
    if k > 0 {
      PartIsIn(parts[1..], k - 1);
    }
  }

  /** A round with something pending or running, in which no poll finds its job in progress, leaves less to do. */
  lemma RoundTodo(boards: seq<Board>, parts: seq<seq<Event>>, events: seq<Event>)
    requires Passed(boards, parts) && RerunsLeft(boards[0]) && |parts| == |boards[0].held| >= 1
    requires events == Grouping.Flatten(parts)
    ensures RerunsLeft(boards[|parts|]) && Todo(boards[|parts|]) <= Todo(boards[0])
    ensures Decisive(events)
            && (boards[0].pending != [] || exists w :: 0 <= w < |boards[0].held| && boards[0].held[w].Some?) ==>
              Todo(boards[|parts|]) < Todo(boards[0])
    ensures AllFulfilled(events) ==> boards[|parts|].givenUp == boards[0].givenUp
  {
    forall k | 0 <= k < |parts|
      ensures Decisive(events) ==> Decisive(parts[k])
      ensures AllFulfilled(events) ==> AllFulfilled(parts[k])
    {
      PartIsIn(parts, k);
    }
    PassedTodo(boards, parts, |parts|);
    if Decisive(events) {
      if w :| 0 <= w < |boards[0].held| && boards[0].held[w].Some? {
        HeldUntilVisited(boards, parts, w, w);
        PassedProgress(boards, parts, w, |parts|);
      } else if boards[0].pending != [] {
        PassedProgress(boards, parts, 0, |parts|);
      }
    }
  }
}
