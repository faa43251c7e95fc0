/**
 examples/workflow/operate_nvcf_functions.py: single-slot workers, bounded reruns, and restarts from
 a progress file.
 */
module JobOperator {
  import opened Wrappers
  import opened JobLedger
  import opened ProgressFile

  datatype InputJob = InputJob(index: nat, inputPath: string, outputPath: string)

  datatype JobState = InProgress | Succeeded | Failed

  datatype JobStatus = JobStatus(state: JobState, inputPath: string)

  /** The functions the commands go to, with the events they have seen, and the surroundings of the present run. */
  class Cloud {
    var trace: seq<Event>
    var env: Env

    constructor (env: Env)
      ensures trace == [] && this.env == env
    {
      trace, this.env := [], env;
    }
  }

  /** The progress file: a text `base` that was there at first, and the lines appended to it for the paths `listed`. */
  class Store {
    ghost const base: string
    var content: string
    ghost var listed: seq<string>

    ghost predicate Valid()
      reads this
    {
      Terminated(base) && content == base + FileOf(listed)
    }

    constructor (content: string)
      ensures base == this.content == content && listed == []
      ensures Terminated(content) ==> Valid()
    {
      base, this.content, listed := content, content, [];
      new;
      assert content + FileOf([]) == content;
    }

    /** Append one line. */
    method Append(path: string)
      requires Valid()
      modifies this
      ensures Valid() && listed == old(listed) + [path]
      ensures content == old(content) + path + "\n"
    {
      content := content + path + "\n";
      listed := listed + [path];
      assert listed[..|listed| - 1] == old(listed);
    }

    /** The file reads as its first text and its appended paths do. */
    lemma Reads()
      requires Valid()
      ensures FinishedJobs(content) == FinishedJobs(base) + FinishedJobs(FileOf(listed))
    {
      ReadBehind(base, FileOf(listed));
    }
  }

  class Worker {
    const cloud: Cloud
    var index: Option<nat>
    var inputPath: Option<string>
    var outputPath: Option<string>
    var reqId: Option<string>
    var rerunCount: nat

    predicate IsIdle()
      reads this
    {
      index.None?
    }

    /** An idle worker is blank; a busy one has a submitted job that has been rerun fewer than five times. */
    ghost predicate Valid()
      reads this
    {
      if IsIdle()
      then inputPath.None? && outputPath.None? && reqId.None? && rerunCount == 0
      else inputPath.Some? && outputPath.Some? && reqId.Some? && rerunCount < NUM_RETRIES
    }

    constructor (cloud: Cloud)
      ensures Valid() && IsIdle() && this.cloud == cloud
    {
      this.cloud := cloud;
      index, inputPath, outputPath, reqId, rerunCount := None, None, None, None, 0;
    }

    /**
     At most six attempts, the last of which is answered unless the run ends here: by being
     killed, or because all six have gone unanswered.
     */
    method SubmitJob() returns (ok: bool, ghost submits: nat)
      requires inputPath.Some?
      modifies cloud`trace, `reqId
      ensures submits <= 6
      ensures cloud.trace == old(cloud.trace) + Submits(inputPath.value, submits)
      ensures ok ==> submits >= 1 && reqId.Some? && reqId == cloud.env.answers(cloud.trace)
      ensures ok ==> forall k :: |old(cloud.trace)| <= k < |cloud.trace| - 1 ==> Unanswered(cloud.env, cloud.trace, k)
      ensures !ok ==> Dies(cloud.env, cloud.trace)
    {
      var retryCount := 0;
      submits, ok := 0, false;
      assert old(cloud.trace) + Submits(inputPath.value, 0) == old(cloud.trace);
      hide Unanswered;
      hide Dies;
      hide Submits;
      while true
        invariant submits == retryCount <= NUM_RETRIES
        invariant cloud.trace == old(cloud.trace) + Submits(inputPath.value, submits)
        invariant |cloud.trace| == |old(cloud.trace)| + submits
        invariant forall k :: |old(cloud.trace)| <= k < |cloud.trace| ==> Unanswered(cloud.env, cloud.trace, k)
        decreases NUM_RETRIES + 1 - retryCount
      {
        if cloud.env.kills(cloud.trace) {
          KilledDies(cloud.env, cloud.trace);
          return;
        }
        ghost var before := cloud.trace;
        cloud.trace := cloud.trace + [Submit(inputPath.value)];
        submits := submits + 1;
        OneMoreSubmit(cloud.env, old(cloud.trace), inputPath.value, retryCount, before, cloud.trace);
        var answer := cloud.env.answers(cloud.trace);
        if answer.Some? {
          reqId, ok := answer, true;
          return;
        }
        SubmitUnanswered(cloud.env, before, inputPath.value);
        if retryCount >= NUM_RETRIES {
          SixUnanswered(cloud.env, cloud.trace);
          return;
        }
        retryCount := retryCount + 1;
      }
    }

    method LaunchJob() returns (ok: bool, ghost submits: nat)
      requires inputPath.Some?
      modifies cloud`trace, `reqId
      ensures submits <= 6
      ensures cloud.trace == old(cloud.trace) + LaunchTrace(inputPath.value, submits)
      ensures ok ==> submits >= 1 && reqId.Some? && reqId == cloud.env.answers(cloud.trace)
      ensures ok ==> forall k :: |old(cloud.trace)| < k < |cloud.trace| - 1 ==> Unanswered(cloud.env, cloud.trace, k)
      ensures !ok ==> Dies(cloud.env, cloud.trace)
    {
      reqId := None;
      cloud.trace := cloud.trace + [Launch(inputPath.value)];
      ok, submits := SubmitJob();
      LaunchIsSubmits(inputPath.value, submits);
      assert old(cloud.trace) + ([Launch(inputPath.value)] + Submits(inputPath.value, submits))
          == old(cloud.trace) + [Launch(inputPath.value)] + Submits(inputPath.value, submits);
    }

    method AddJob(job: InputJob) returns (ok: bool, ghost submits: nat)
      requires Valid() && IsIdle()
      modifies this, cloud`trace
      ensures submits <= 6
      ensures cloud.trace == old(cloud.trace) + LaunchTrace(job.inputPath, submits)
      ensures ok ==> Valid() && !IsIdle()
                     && index == Some(job.index) && inputPath == Some(job.inputPath)
                     && outputPath == Some(job.outputPath)
                     && rerunCount == 0 && submits >= 1 && reqId == cloud.env.answers(cloud.trace)
      ensures !ok ==> Dies(cloud.env, cloud.trace)
    {
      index, inputPath, outputPath := Some(job.index), Some(job.inputPath), Some(job.outputPath);
      ok, submits := LaunchJob();
    }

    method Reset()
      modifies this
      ensures Valid() && IsIdle()
    {
      index, inputPath, outputPath, reqId, rerunCount := None, None, None, None, 0;
    }

    /** At most six questions: the first report there is, if any. */
    method CheckJobStatus() returns (status: Option<Report>)
      ensures status.Some? ==>
        exists k :: 0 <= k < 6 && status == cloud.env.reports(cloud.trace, k)
                    && forall j :: 0 <= j < k ==> NoReport(cloud.env, cloud.trace, j)
      ensures status.None? ==> NoReports(cloud.env, cloud.trace)
    {
      var retryCount := 0;
      while true
        invariant retryCount <= NUM_RETRIES
        invariant forall j :: 0 <= j < retryCount ==> NoReport(cloud.env, cloud.trace, j)
        decreases NUM_RETRIES + 1 - retryCount
      {
        status := cloud.env.reports(cloud.trace, retryCount);
        assert NoReport(cloud.env, cloud.trace, retryCount) <==> status.None?;
        if status.Some? || retryCount >= NUM_RETRIES {
          return;
        }
        retryCount := retryCount + 1;
      }
    }

    /**
     Success and the fifth failure free the worker; an earlier failure launches the job again.
     Without a status, when killed, or when the launch fails, the run ends here.
     */
    method PollJob() returns (r: Option<JobStatus>, ghost relaunched: Option<nat>, ghost report: Option<Report>)
      requires Valid() && !IsIdle()
      modifies this, cloud`trace
      ensures report.Some? ==>
        exists k :: 0 <= k < 6 && report == cloud.env.reports(old(cloud.trace), k)
                    && forall j :: 0 <= j < k ==> NoReport(cloud.env, old(cloud.trace), j)
      ensures relaunched.Some? ==>
        && report in {Some(Report.Failed), Some(NotFound)} && old(rerunCount) + 1 < 5 && relaunched.value <= 6
        && cloud.trace ==
           old(cloud.trace) + [Poll(old(inputPath.value), report)] + LaunchTrace(old(inputPath.value), relaunched.value)
      ensures relaunched.None? ==> cloud.trace == old(cloud.trace) + [Poll(old(inputPath.value), report)]
      ensures r.None? ==> Dies(cloud.env, cloud.trace)
      ensures r.Some? ==> Valid() && report.Some? && r.value.inputPath == old(inputPath.value)
      ensures r.Some? ==> (r.value.state == JobState.Succeeded <==> report == Some(Fulfilled))
      ensures r.Some? ==> (r.value.state == JobState.Failed <==>
                           report in {Some(Report.Failed), Some(NotFound)} && old(rerunCount) + 1 >= 5)
      ensures r.Some? ==> (relaunched.Some? <==>
                           report in {Some(Report.Failed), Some(NotFound)} && old(rerunCount) + 1 < 5)
      ensures r.Some? && relaunched.Some? ==> relaunched.value >= 1
      ensures r.Some? ==> IsIdle() == (r.value.state != JobState.InProgress)
      ensures r.Some? && r.value.state == JobState.InProgress ==>
        && inputPath == old(inputPath) && index == old(index) && outputPath == old(outputPath)
        && rerunCount == old(rerunCount) + if relaunched.Some? then 1 else 0
    {
      relaunched := None;
      var status := CheckJobStatus();
      report := status;
      ghost var before := cloud.trace;
      cloud.trace := cloud.trace + [Poll(inputPath.value, status)];
      assert cloud.trace[..|cloud.trace| - 1] == before;
      if status.None? || cloud.env.kills(cloud.trace) {
        return None, relaunched, report;
      }
      if status.value == Fulfilled {
        r := Some(JobStatus(JobState.Succeeded, inputPath.value));
        Reset();
        return;
      }
      if status.value == Report.Failed || status.value == NotFound {
        rerunCount := rerunCount + 1;
        if rerunCount >= NUM_RETRIES {
          r := Some(JobStatus(JobState.Failed, inputPath.value));
          Reset();
          return;
        }
        var ok, submits := LaunchJob();
        relaunched := Some(submits);
        if !ok {
          return None, relaunched, report;
        }
      }
      r := Some(JobStatus(JobState.InProgress, inputPath.value));
    }
  }

  lemma KilledDies(env: Env, t: seq<Event>)
    requires env.kills(t)
    ensures Dies(env, t)
  {
  }

  lemma SixUnanswered(env: Env, t: seq<Event>)
    requires |t| >= 6 && forall k :: |t| - 6 <= k < |t| ==> Unanswered(env, t, k)
    ensures Dies(env, t)
  {
  }

  lemma SubmitUnanswered(env: Env, before: seq<Event>, path: string)
    requires env.answers(before + [Submit(path)]).None?
    ensures Unanswered(env, before + [Submit(path)], |before|)
  {
    assert (before + [Submit(path)])[..|before| + 1] == before + [Submit(path)];
  }

  /** One submit more, in the history and in what is known to be unanswered. */
  lemma OneMoreSubmit(env: Env, start: seq<Event>, path: string, n: nat, before: seq<Event>, after: seq<Event>)
    requires before == start + Submits(path, n) && after == before + [Submit(path)]
    ensures after == start + Submits(path, n + 1)
    ensures forall k :: 0 <= k < |before| && Unanswered(env, before, k) ==> Unanswered(env, after, k)
  {
    assert Submits(path, n + 1) == Submits(path, n) + [Submit(path)];
    forall k | 0 <= k < |before| && Unanswered(env, before, k)
      ensures Unanswered(env, after, k)
    {
      assert after[..k + 1] == before[..k + 1];
    }
  }

  /** So many invoke commands for one path. */
  function Submits(path: string, n: nat): seq<Event> {
    seq(n, _ => Submit(path))
  }

  lemma {:induction false} LaunchIsSubmits(path: string, n: nat)
    ensures LaunchTrace(path, n) == [Launch(path)] + Submits(path, n)
  {
    if n > 0 {
      LaunchIsSubmits(path, n - 1);
      assert Submits(path, n) == Submits(path, n - 1) + [Submit(path)];
    }
  }

  // ----- the input list -----

  function Paths(pending: seq<InputJob>): (r: seq<string>)
    ensures |r| == |pending|
  {
    seq(|pending|, a requires 0 <= a < |pending| => pending[a].inputPath)
  }

  /** `k` is the last input with its path. */
  ghost predicate LastOf(inputs: seq<(string, string)>, k: nat) {
    k < |inputs| && forall m :: k < m < |inputs| ==> inputs[m].0 != inputs[k].0
  }

  /** `k` is the first input with its path. */
  ghost predicate FirstOf(inputs: seq<(string, string)>, k: nat) {
    k < |inputs| && forall m :: 0 <= m < k ==> inputs[m].0 != inputs[k].0
  }

  /**
   `job` stands for all inputs with its path, the first of them at `first`; its number and output are
   those of the last.
   */
  ghost predicate IsJob(inputs: seq<(string, string)>, job: InputJob, first: nat) {
    && FirstOf(inputs, first) && inputs[first].0 == job.inputPath
    && 1 <= job.index && LastOf(inputs, job.index - 1)
    && inputs[job.index - 1] == (job.inputPath, job.outputPath)
  }

  /**
   One job for each unfinished path: in the order of first occurrences (at `firsts`), with the
   number and the output path of the last occurrence.
   */
  ghost predicate IsInputList(inputs: seq<(string, string)>, finished: set<string>, pending: seq<InputJob>,
                              firsts: seq<nat>) {
    && |firsts| == |pending|
    && (forall a, b :: 0 <= a < b < |firsts| ==> firsts[a] < firsts[b])
    && (forall a :: 0 <= a < |pending| ==>
      pending[a].inputPath !in finished && IsJob(inputs, pending[a], firsts[a]))
    && (forall k :: 0 <= k < |inputs| && inputs[k].0 !in finished ==> inputs[k].0 in Paths(pending))
  }

  lemma EmptyInputList(finished: set<string>)
    ensures IsInputList([], finished, [], [])
  {
  }

  /** One more input: skipped when finished, a new job at the end, or a new value for the job at `a`. */
  lemma InputListStep(inputs: seq<(string, string)>, finished: set<string>, pending: seq<InputJob>, firsts: seq<nat>,
                      path: string, output: string, a: nat)
    requires IsInputList(inputs, finished, pending, firsts)
    requires a <= |pending| && (a < |pending| ==> pending[a].inputPath == path)
    requires forall b :: 0 <= b < a ==> pending[b].inputPath != path
    ensures var more, job := inputs + [(path, output)], InputJob(|inputs| + 1, path, output);
            if path in finished then IsInputList(more, finished, pending, firsts)
            else if a < |pending| then IsInputList(more, finished, pending[a := job], firsts)
            else IsInputList(more, finished, pending + [job], firsts + [|inputs|])
  {
    hide IsJob;
    var more, job := inputs + [(path, output)], InputJob(|inputs| + 1, path, output);
    var pending' := if path in finished then pending else if a < |pending| then pending[a := job] else pending + [job];
    forall b | 0 <= b < |pending| && pending[b].inputPath != path
      ensures IsJob(more, pending[b], firsts[b]) && firsts[b] < |inputs|
    {
      OtherJobStays(inputs, pending[b], firsts[b], path, output);
    }
    if path !in finished {
      if a < |pending| {
        forall b | 0 <= b < |pending| && b != a
          ensures pending[b].inputPath != path
        {
          DifferentJobs(inputs, pending[a], firsts[a], pending[b], firsts[b]);
        }
        SameJobIsRenewed(inputs, pending[a], firsts[a], output);
      } else {
        forall q | q in Paths(pending)
          ensures q != path
        {
          var b :| 0 <= b < |pending| && Paths(pending)[b] == q;
        }
        NewJob(inputs, path, output);
      }
    }
    forall k | 0 <= k < |more| && more[k].0 !in finished
      ensures more[k].0 in Paths(pending')
    {
      if k < |inputs| {
        var b :| 0 <= b < |pending| && Paths(pending)[b] == inputs[k].0;
        assert Paths(pending')[b] == inputs[k].0;
      } else {
        assert Paths(pending')[a] == path;
      }
    }
  }

  lemma DifferentJobs(inputs: seq<(string, string)>, a: InputJob, first: nat, b: InputJob, second: nat)
    requires IsJob(inputs, a, first) && IsJob(inputs, b, second) && first != second
    ensures a.inputPath != b.inputPath
  {
    assert inputs[first].0 != inputs[second].0;
  }

  lemma SameJobIsRenewed(inputs: seq<(string, string)>, job: InputJob, first: nat, output: string)
    requires IsJob(inputs, job, first)
    ensures IsJob(inputs + [(job.inputPath, output)], InputJob(|inputs| + 1, job.inputPath, output), first)
  {
    var more := inputs + [(job.inputPath, output)];
    assert forall m :: 0 <= m < |inputs| ==> more[m] == inputs[m];
    assert FirstOf(more, first) && LastOf(more, |inputs|);
  }

  lemma NewJob(inputs: seq<(string, string)>, path: string, output: string)
    requires forall m :: 0 <= m < |inputs| ==> inputs[m].0 != path
    ensures IsJob(inputs + [(path, output)], InputJob(|inputs| + 1, path, output), |inputs|)
  {
    var more := inputs + [(path, output)];
    assert forall m :: 0 <= m < |inputs| ==> more[m] == inputs[m];
    assert FirstOf(more, |inputs|) && LastOf(more, |inputs|);
  }

  lemma OtherJobStays(inputs: seq<(string, string)>, job: InputJob, first: nat, path: string, output: string)
    requires IsJob(inputs, job, first) && job.inputPath != path
    ensures IsJob(inputs + [(path, output)], job, first) && first < |inputs|
  {
    var more := inputs + [(path, output)];
    assert more[first] == inputs[first] && more[job.index - 1] == inputs[job.index - 1];
    assert forall m :: 0 <= m < |inputs| ==> more[m] == inputs[m];
  }

  /** _build_input_list: a later duplicate overwrites the value, but keeps the place, of an earlier one. */
  method BuildInputList(inputs: seq<(string, string)>, content: string)
      returns (pending: seq<InputJob>, ghost firsts: seq<nat>)
    ensures IsInputList(inputs, FinishedJobs(content), pending, firsts)
    ensures forall a :: 0 <= a < |pending| ==>
      && pending[a].inputPath !in FinishedJobs(content)
      && 1 <= pending[a].index <= |inputs|
      && inputs[pending[a].index - 1] == (pending[a].inputPath, pending[a].outputPath)
      && forall m :: pending[a].index <= m < |inputs| ==> inputs[m].0 != pending[a].inputPath
  {
    hide IsInputList;
    EmptyInputList(FinishedJobs(content));
    var finished := FinishedJobs(content);
    pending, firsts := [], [];
    for k := 0 to |inputs|
      invariant IsInputList(inputs[..k], finished, pending, firsts)
    {
      var job := InputJob(k + 1, inputs[k].0, inputs[k].1);
      var a := Find(pending, job.inputPath);
      InputListStep(inputs[..k], finished, pending, firsts, job.inputPath, job.outputPath, a);
      assert inputs[..k + 1] == inputs[..k] + [(job.inputPath, job.outputPath)];
      if job.inputPath !in finished {
        if a < |pending| {
          pending := pending[a := job];
        } else {
          pending, firsts := pending + [job], firsts + [k];
        }
      }
    }
    assert inputs[..|inputs|] == inputs;
    LastOccurrences(inputs, finished, pending, firsts);
  }

  /** Number and output path of a job are those of the last input with its path. */
  lemma LastOccurrences(inputs: seq<(string, string)>, finished: set<string>, pending: seq<InputJob>, firsts: seq<nat>)
    requires IsInputList(inputs, finished, pending, firsts)
    ensures forall a :: 0 <= a < |pending| ==>
      && pending[a].inputPath !in finished
      && 1 <= pending[a].index <= |inputs|
      && inputs[pending[a].index - 1] == (pending[a].inputPath, pending[a].outputPath)
      && forall m :: pending[a].index <= m < |inputs| ==> inputs[m].0 != pending[a].inputPath
  {
  }

  method Find(pending: seq<InputJob>, path: string) returns (a: nat)
    ensures a <= |pending|
    ensures a < |pending| ==> pending[a].inputPath == path
    ensures forall b :: 0 <= b < a ==> pending[b].inputPath != path
  {
    a := 0;
    while a < |pending| && pending[a].inputPath != path
      invariant a <= |pending|
      invariant forall b :: 0 <= b < a ==> pending[b].inputPath != path
    {
      a := a + 1;
    }
  }

  lemma InputListIsDistinct(inputs: seq<(string, string)>, finished: set<string>, pending: seq<InputJob>,
                            firsts: seq<nat>)
    requires IsInputList(inputs, finished, pending, firsts)
    ensures Distinct(Paths(pending))
    ensures forall p :: p in Paths(pending) <==> p !in finished && exists k :: 0 <= k < |inputs| && inputs[k].0 == p
  {
    forall p | p in Paths(pending)
      ensures exists k :: 0 <= k < |inputs| && inputs[k].0 == p
    {
      var a :| 0 <= a < |pending| && Paths(pending)[a] == p;
      assert inputs[firsts[a]].0 == p;
    }
  }

  /** A listed input is left out of the next run if and only if its path is non-blank, single-line and unpadded. */
  lemma ListedIsSkippedIff(inputs: seq<(string, string)>, listed: seq<string>, pending: seq<InputJob>,
                           firsts: seq<nat>, k: nat)
    requires IsInputList(inputs, FinishedJobs(FileOf(listed)), pending, firsts)
    requires k < |inputs| && inputs[k].0 in listed
    ensures inputs[k].0 !in Paths(pending) <==> Clean(inputs[k].0)
  {
    InputListIsDistinct(inputs, FinishedJobs(FileOf(listed)), pending, firsts);
    RecognisedIffClean(listed, inputs[k].0);
  }

  /** The first job of the list is the first input that is not finished. */
  lemma FirstJob(inputs: seq<(string, string)>, finished: set<string>, pending: seq<InputJob>, firsts: seq<nat>, k: nat)
    requires IsInputList(inputs, finished, pending, firsts)
    requires k < |inputs| && inputs[k].0 !in finished && forall m :: 0 <= m < k ==> inputs[m].0 in finished
    ensures pending != [] && pending[0].inputPath == inputs[k].0
  {
    var b :| 0 <= b < |pending| && Paths(pending)[b] == inputs[k].0;
    assert IsJob(inputs, pending[b], firsts[b]) && IsJob(inputs, pending[0], firsts[0]);
    assert firsts[b] == k && firsts[0] >= k;
    assert b == 0;
  }

  /** There are no more jobs than inputs. */
  lemma JobsAreFew(inputs: seq<(string, string)>, finished: set<string>, pending: seq<InputJob>, firsts: seq<nat>)
    requires IsInputList(inputs, finished, pending, firsts)
    ensures |pending| <= |inputs|
    ensures pending == [] <==> forall k :: 0 <= k < |inputs| ==> inputs[k].0 in finished
  {
    forall a | 0 <= a < |firsts|
      ensures firsts[a] < |inputs|
    {
      assert IsJob(inputs, pending[a], firsts[a]);
    }
    if pending != [] {
      IncreasingIsShort(firsts, |inputs|);
      assert IsJob(inputs, pending[0], firsts[0]);
    }
  }

  lemma {:induction false} IncreasingIsShort(s: seq<nat>, n: nat)
    requires forall a, b :: 0 <= a < b < |s| ==> s[a] < s[b]
    requires forall a :: 0 <= a < |s| ==> s[a] < n
    ensures |s| <= n
  {
    if s != [] {
      IncreasingIsShort(s[..|s| - 1], s[|s| - 1]);
    }
  }
}
