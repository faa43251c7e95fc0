# Verified models of a video curation system

Dafny models of the stateful and arithmetic core of the curation system, with proofs of what each part
promises. `dafny verify dfyconfig.toml` checks the whole project.

## What is modelled

**Captioning** (`VllmEngine`, `CaptionLedger`, `VllmInterface`, `InflightBatching`, `Grouping`). An engine
may finish any live requests, in any order and grouping, with any text that its model admits for the
request's inputs. The in-flight path is a loop over a queue, an in-flight map, an index map and a
result map; the bulk path makes two passes of chunked generation. Both are proved against one
per-item specification, so with a deterministic model they return the same list. A ledger of live
requests carries the loop invariant: which request stands for which item, and how many stages the item
still owes.

**Sharding** (`Sharding`, `ShardTasks`). Samples are binned, packed greedily into tars, and the tars are
numbered through parts behind the parts already stored. The packing is optimal, the numbering never
collides, and samples are conserved.

**Job operator** (`ProgressFile`, `JobLedger`, `JobOperator`, `OperatorMain`). Single-slot workers take
jobs from a list, rerun failing ones up to a bound, and append finished paths to a file from which a
later run resumes. The surroundings of a run, which are arbitrary, decide what commands answer and when
the run is killed, which may be between any two of its effects. A board says where each job of a run is;
a trace of launches, submits, polls and records covers the whole history.

**Request life cycle** (`RequestLifecycle`). The pipeline process, the progress thread in file mode and
any number of terminators are interleaved step by step over marker files, a queue, a buffer, a log
file, the stop event and the status flag. Statements range over all runs.

**Kernels.** `PipelineProgress` (normalised progress), `ColorHistograms` (flat in-place scatter),
`SimilarityLookup` (padded gather), `FrameSampling` (which frames are kept), `CaptionStages` and
`ShardEmbeddings` (flatten and write back), `Mounts` (mount printer and parser).

## Where the code falls short of a simple promise

Each is proved with the exact condition.

- `num_dropped_samples` counts only samples without a bin. A last group given up by `drop_small_shards`
  is in no task and not in that count; the count is complete exactly when no bin's last group is below
  the minimum (`ShardTasks.TasksConserveSamples`, failing input `ShardTasks.UncountedSample`).
- A request id whose done file is left over from an earlier request can hide a failing pipeline: the
  progress thread stops at its first poll and reports success before the process exits
  (`RequestLifecycle.FailureIsVisibleIff`, failing runs `RequestLifecycle.HiddenFailure`).
- A worker that dies after its process has exited and before it reports the code hides the failure under
  any id: the stop event is set in the cleanup, the success flag is still set, and the request ends as
  done (`RequestLifecycle.FailureIsAlwaysVisibleIff`, failing runs `RequestLifecycle.LostFailure`).
- A request id with a left-over done or failed file can lose log lines even when the pipeline succeeds:
  the progress thread returns at once, and later lines stay in the queue
  (`RequestLifecycle.LogIsCompleteIff`, failing runs `RequestLifecycle.LostLine`).
- A path that is blank, padded with white space or contains a line break is not recognised in the
  progress file, so such a job runs again after a restart (`ProgressFile.RecognisedIffClean`,
  `JobOperator.ListedIsSkippedIff`). Where its lines read as other paths, it also makes those jobs look
  finished (`ProgressFile.NothingElseIsReadIff`, failing input `ProgressFile.PaddedPathHidesItsCore`).
- A progress file whose last line has no line break swallows the first path appended to it, unless that
  line is white space, so that job runs again (`ProgressFile.UnfinishedLineIff`).
- A run without functions and with an unfinished input never ends, and does nothing (`OperatorMain.Operate`).
- The shard embedding stage raises AssertionError as soon as a captioned window follows an uncaptioned
  one, although it has just marked that clip to be dropped (`ShardEmbeddings.ProcessTask`, failing input
  `ShardEmbeddings.GapRaises`).
- An empty mount list does not read back from its printed form: splitting the empty string gives one
  empty part, which is not a mount (`Mounts.MountListRoundTrip`).
- The progress of a pipeline with input but without stages is a division by zero
  (`PipelineProgress.UpdateProgress`).

## Model

| member | source | states |
|---|---|---|
| InflightBatching.CaptionInflightBatching | cosmos_curate/models/vllm_interface.py:529-614 | For every order and grouping in which the engine finishes requests, item i of the result is a caption that item i alone allows (stage 1, or stage 2 refined from its own stage 1, empty replaced by "Unknown caption"); the engine completes exactly one request per owed stage, at most 2N, and is left idle; a generative engine succeeds if and only if every item with a stage-2 prompt has video data, and raises ValueError otherwise |
| InflightBatching.DrainAll | cosmos_curate/models/vllm_interface.py:581-614 | The loop terminates: stages owed plus completions is constant, and each turn lowers (stages owed, queue length, engine patience) lexicographically |
| InflightBatching.Turn | cosmos_curate/models/vllm_interface.py:581-612 | One turn keeps the loop invariant (ledger consistent, live requests in exactly one of queue and in-flight map, cap respected, engine live set equal to the in-flight map), overwrites no result, and makes progress; it raises nothing for a generative engine unless an item with a stage-2 prompt lacks video data |
| InflightBatching.Admit | cosmos_curate/models/vllm_interface.py:582-592 | The head of the queue is admitted exactly when there is one and the cap allows it, and nothing else changes; afterwards something is in flight, so the engine is never stepped idle |
| InflightBatching.Unfinished | cosmos_curate/models/vllm_interface.py:581-582 | While an item has no result something is queued or in flight |
| InflightBatching.Absorb | cosmos_curate/models/vllm_interface.py:595-612 | A step's outputs leave every live request placed once, pay off exactly one owed stage per completion, and keep the engine's live set equal to the in-flight map |
| InflightBatching.Proceed | cosmos_curate/models/vllm_interface.py:600-612 | Among finished requests, last stages answer their items and first stages are replaced by queued second stages; one owed stage is paid for each, and no earlier result changes |
| InflightBatching.Collect | cosmos_curate/models/vllm_interface.py:437-450 | On the outputs of one engine step, each finished in-flight request is returned once with a text its own inputs admit |
| InflightBatching.Retire | cosmos_curate/models/vllm_interface.py:597-598 | Exactly the finished requests leave the in-flight map |
| InflightBatching.RecordFinal | cosmos_curate/models/vllm_interface.py:600-603 | Each finished last-stage request answers its own item; no earlier result changes and one owed stage is paid for each |
| InflightBatching.EnqueueRefined | cosmos_curate/models/vllm_interface.py:605-612 | Each finished first stage is replaced by one request at the end of the queue that stands for the same item; the queue in front is untouched |
| InflightBatching.Refine | cosmos_curate/models/vllm_interface.py:607-612 | The refined request has a new id, inherits the original index, and is built from the item's own stage-1 caption |
| InflightBatching.AllAnswered | cosmos_curate/models/vllm_interface.py:581-614 | With as many results as items every item has an allowed caption and nothing is left in flight or owed |
| InflightBatching.InitialBooks | cosmos_curate/models/vllm_interface.py:567-579 | Fresh requests stand one to one for the items, each owing 1 or 2 stages |
| InflightBatching.VllmCaption | cosmos_curate/models/vllm_interface.py:660-684 | A negative cap or a prompt list of the wrong length raises ValueError; every other call of an idle generative engine, in either mode, succeeds if and only if every item with a stage-2 prompt has video data; then caption i is a text that the model admits for item i's own last stage, or "Unknown caption" if that text is empty, and the engine is left idle |
| VllmInterface.CaptionNoInflightBatching | cosmos_curate/models/vllm_interface.py:480-526 | The two bulk passes also return, in input order, a caption that each item alone allows, for every batch size, under the same success condition |
| VllmInterface.ProcessRequests | cosmos_curate/models/vllm_interface.py:495-505 | One bulk pass returns the same requests in the same order, each captioned from its own inputs |
| VllmInterface.VllmGenerate | cosmos_curate/models/vllm_interface.py:403-416 | Output k carries the id of request k and a text admitted by request k's inputs, however the batches are cut |
| VllmInterface.GenerateBatches | cosmos_curate/models/vllm_interface.py:403-409 | The batches given to the model are the inputs in order, in chunks of the batch size, with one output for each input |
| VllmInterface.ProcessVllmOutput | cosmos_curate/models/vllm_interface.py:437-450 | Succeeds if and only if no output is a pooling output and every finished one is in flight, and else raises TypeError or KeyError for the first output that is not so; returns the finished requests in output order with their texts and leaves the captions of all others alone |
| VllmInterface.Finish | cosmos_curate/models/vllm_interface.py:445-448 | One finished output gives its own request its text and appends it to the finished ones |
| VllmInterface.RecordStage1 | cosmos_curate/models/vllm_interface.py:510-516 | Every item is either answered within its spec or listed once for stage 2 with its own request |
| VllmInterface.RefineAll | cosmos_curate/models/vllm_interface.py:519-521 | Refined request m serves the item of request m under a new id that maps to the same index |
| VllmInterface.RecordStage2 | cosmos_curate/models/vllm_interface.py:523-526 | Afterwards every item has a result within its spec |
| VllmInterface.MakeRequests | cosmos_curate/models/vllm_interface.py:483-493 | Fresh distinct ids; the index map sends each id to its own input and nothing else |
| VllmInterface.MakeRefined | cosmos_curate/models/vllm_qwen.py:239-263 | ValueError exactly when the caption or the video data is missing; otherwise a second-stage request under a new id, with inputs built from the caption and the given or the default prompt, and no stage-2 prompt of its own |
| CaptionLedger.CaptionedIsRefinable | cosmos_curate/models/vllm_interface.py:605-614 | A list of allowed captions exists only if every item with a stage-2 prompt has video data |
| CaptionLedger.PathsAgree | cosmos_curate/models/vllm_interface.py:453-614 | With a deterministic model any two lists that meet the spec are the same list: caption i is what the model generates for input i, or for the input refined from its own stage-1 text, and "Unknown caption" where that is empty; so both paths agree for every cap, batch size and mix of prompts |
| CaptionLedger.CaptionMeaning | cosmos_curate/models/vllm_interface.py:513-526 | A caption meets the spec of an item if and only if it is a text admitted for the item's own last stage, shown as it is, or "Unknown caption" for an empty text |
| VllmInterface.AcceptableMeaning | cosmos_curate/models/vllm_interface.py:440-446 | Outputs are acceptable exactly when none is a pooling output and every finished one is in flight |
| CaptionLedger.DeterministicItem | cosmos_curate/models/vllm_interface.py:513-526 | For a deterministic model the spec of an item admits exactly the text generated for its last stage, or "Unknown caption" if that is empty |
| CaptionLedger.ExactlyOnePlace | cosmos_curate/models/vllm_interface.py:581-612 | At each loop head an item is at exactly one of queued stage 1, running stage 1, queued stage 2, running stage 2, finished |
| CaptionLedger.AnsweredKeeps | cosmos_curate/models/vllm_interface.py:600-603 | Recording a final caption keeps the ledger consistent, overwrites nothing and pays one owed stage |
| CaptionLedger.LastStageAnswers | cosmos_curate/models/vllm_interface.py:600-603 | A text admitted by a last-stage request that serves an item is an allowed caption of that item |
| CaptionLedger.ReplacedKeeps | cosmos_curate/models/vllm_interface.py:607-612 | Replacing a first stage by its refined request keeps the ledger consistent and pays one owed stage |
| CaptionLedger.SecondStageServes | cosmos_curate/models/vllm_interface.py:607-612 | The request refined from an item's answered first stage serves the same item |
| CaptionLedger.AdmitPlaced | cosmos_curate/models/vllm_interface.py:582-586 | Moving the head of the queue in flight keeps every live request in exactly one place |
| CaptionLedger.StagesBound | cosmos_curate/models/vllm_interface.py:567-579 | The stages owed at the start are one per item plus one per stage-2 prompt, at most 2N |
| VllmEngine.Engine.Step | cosmos_curate/models/vllm_interface.py:588-588 | What the callers rely on: a step finishes any live requests once each with admissible texts, and finishes nothing only boundedly often in a row |
| VllmEngine.Llm.Generate | cosmos_curate/models/vllm_interface.py:408-408 | Bulk generation: one admissible text per input, in input order |
| Grouping.SplitByChunkSize | cosmos_curate/core/utils/misc/grouping.py:56-66 | Consecutive chunks: laid end to end they are the input, all but the last hold exactly chunk_size items (one for a size of 0 or less), the last at most that many, and none is empty |
| Grouping.ChunksAreUnique | cosmos_curate/core/utils/misc/grouping.py:56-66 | Those conditions leave exactly one possible answer, for every chunk size including 0 and negative ones |
| Sharding.GroupSamplesByBin | cosmos_curate/pipelines/video/sharding_pipeline.py:65-83 | Each bin gets its samples in input order; bins are listed in the order of their first samples |
| Sharding.BinsInOrderFacts | cosmos_curate/pipelines/video/sharding_pipeline.py:65-83 | The bins listed are pairwise different and exactly the non-empty ones |
| Sharding.BinOfMeaning | cosmos_curate/pipelines/video/sharding_pipeline.py:72-79 | The bin is found by width, height and the duration whose product with a positive rate is the number of frames; without a positive rate there is none |
| Sharding.InBinOfOne | cosmos_curate/pipelines/video/sharding_pipeline.py:71-80 | One sample is in its own bin and in no other |
| Sharding.InBinOfParts | cosmos_curate/pipelines/video/sharding_pipeline.py:71-80 | The samples of a bin in two lists laid end to end are those of the first followed by those of the second |
| Sharding.BinsByFirstSample | cosmos_curate/pipelines/video/sharding_pipeline.py:71-80 | Bins are listed in the order of their first samples |
| Sharding.GroupSamplesBySize | cosmos_curate/pipelines/video/sharding_pipeline.py:86-109 | The generator loop yields the greedy packing, minus a small last group when those are dropped |
| Sharding.PackKeepsSamples | cosmos_curate/pipelines/video/sharding_pipeline.py:96-109 | The packing laid end to end is the input: nothing lost, repeated or reordered |
| Sharding.PackIsGreedy | cosmos_curate/pipelines/video/sharding_pipeline.py:96-106 | Every group is non-empty and a singleton or within the target, and none could also take the next group's first sample |
| Sharding.PackIsOptimal | cosmos_curate/pipelines/video/sharding_pipeline.py:86-109 | With non-negative sizes no contiguous partition into singletons or groups within the target has fewer groups |
| Sharding.GreedyStaysAhead | cosmos_curate/pipelines/video/sharding_pipeline.py:96-106 | The exchange argument: any fitting partition of a list needs at least as many groups as a greedy partition of one of its suffixes |
| ShardTasks.GroupSamplesIntoTasks | cosmos_curate/pipelines/video/sharding_pipeline.py:112-187 | The nested loops build exactly the numbered tars of every bin in order, list the real bins, and count the samples without a bin; every part number exceeds the stored ones of its bin, and the number before it is stored or is that of another task of the bin, unless it is 0 and nothing is stored |
| ShardTasks.TasksOfBins | cosmos_curate/pipelines/video/sharding_pipeline.py:127-183 | The loop over the bins builds the tasks of each in turn and counts the samples of the bin None |
| ShardTasks.PartsContinue | cosmos_curate/pipelines/video/sharding_pipeline.py:145-165 | The parts of a bin continue the stored ones without a gap, and start at 0 if none is stored |
| ShardTasks.PartsHoldMaximum | cosmos_curate/pipelines/video/sharding_pipeline.py:154-166 | No part holds more than max_tars_per_part tars, and each part of a bin but the last holds all tar numbers below it |
| ShardTasks.TasksKeepOrder | cosmos_curate/pipelines/video/sharding_pipeline.py:154-183 | The tasks of a bin hold, one after the other, the samples of that bin in input order, but for a dropped last group |
| ShardTasks.TarsFit | cosmos_curate/pipelines/video/sharding_pipeline.py:96-106 | Every tar holds one sample, or several within the target size |
| ShardTasks.RealBinsFacts | cosmos_curate/pipelines/video/sharding_pipeline.py:128-136 | Every bin with a sample is listed once, and no other |
| ShardTasks.NumberTars | cosmos_curate/pipelines/video/sharding_pipeline.py:154-183 | Tar k of a bin lands in part start + k div max and at place k mod max |
| ShardTasks.NumberPart | cosmos_curate/pipelines/video/sharding_pipeline.py:165-183 | Behind full parts the tars of one more part continue the numbering of the bin |
| ShardTasks.MakeTasksOfBin | cosmos_curate/pipelines/video/sharding_pipeline.py:145-183 | The tasks of one bin are its packed groups, numbered behind the stored parts |
| ShardTasks.MaxPart | cosmos_curate/pipelines/video/sharding_pipeline.py:145-151 | The largest stored part number, or -1 when none is stored |
| ShardTasks.PlacementIsUnique | cosmos_curate/pipelines/video/sharding_pipeline.py:154-166 | Part and tar number determine the position of a tar in its bin |
| ShardTasks.TarsAreDistinct | cosmos_curate/pipelines/video/sharding_pipeline.py:127-183 | No two tasks share bin, part and tar |
| ShardTasks.PartsAreNew | cosmos_curate/pipelines/video/sharding_pipeline.py:145-165 | Every part number exceeds all part numbers already stored for its bin |
| ShardTasks.PartsAreFull | cosmos_curate/pipelines/video/sharding_pipeline.py:154-166 | Every part of a bin but the last holds exactly the maximal number of tars, numbered from 0 |
| ShardTasks.BinIsConserved | cosmos_curate/pipelines/video/sharding_pipeline.py:86-109 | The tars of a bin followed by what it lost are the bin; it loses its last group, and nothing else, exactly when that has fewer than min_clips_per_tar samples and drop_small_shards is set |
| ShardTasks.BinsAreConserved | cosmos_curate/pipelines/video/sharding_pipeline.py:127-183 | For any list of different bins: the samples of its tasks, those outside all bins and the lost ones are the samples of those bins, each as often as it was given |
| ShardTasks.SamplesAreConserved | cosmos_curate/pipelines/video/sharding_pipeline.py:127-187 | Over the whole run, task samples, unbinned samples and dropped last groups together are the input, each sample as often as it was given |
| ShardTasks.NothingLostIff | cosmos_curate/pipelines/video/sharding_pipeline.py:108-109 | Nothing is lost in the given bins if and only if the packer's guard drops the last group of none of them |
| ShardTasks.TasksConserveSamples | cosmos_curate/pipelines/video/sharding_pipeline.py:108-187 | Task samples, unbinned samples and dropped last groups together are the input, each sample as often as it was given; num_dropped_samples accounts for all samples in no tar if and only if no bin's last group falls under the guard, so always without drop_small_shards or with a minimum of 1 |
| ShardTasks.UncountedSample | cosmos_curate/pipelines/video/sharding_pipeline.py:108-131 | A failing input: a lone sample that fits a bin, small shards dropped below two samples, is in no task and is not counted |
| ProgressFile.RecognisedIffClean | examples/workflow/operate_nvcf_functions.py:267-276 | An appended path is read back if and only if it is non-blank, single-line and unpadded |
| ProgressFile.FileRoundTrip | examples/workflow/operate_nvcf_functions.py:267-276 | Reading the file gives exactly the appended paths if and only if all of them are non-blank, single-line and unpadded |
| ProgressFile.AppendIsRead | examples/workflow/operate_nvcf_functions.py:325-327 | Appending a line adds exactly what that line reads as on its own, whatever it contains |
| ProgressFile.FileReadsAs | examples/workflow/operate_nvcf_functions.py:267-276 | What the file reads as is what each appended path reads as on its own |
| ProgressFile.NothingElseIsReadIff | examples/workflow/operate_nvcf_functions.py:267-276 | Only appended paths are read back if and only if every line of each appended path is blank or, stripped, an appended path |
| ProgressFile.ReadsStrippedLines | examples/workflow/operate_nvcf_functions.py:271-274 | What is read are exactly the stripped lines that are not blank |
| ProgressFile.LinesOfOne | examples/workflow/operate_nvcf_functions.py:271-271 | A text without a line break is one line |
| ProgressFile.LinesOfParts | examples/workflow/operate_nvcf_functions.py:271-271 | A line break ends a line: the lines of two texts joined by one are those of the first and then those of the second |
| ProgressFile.StripMeaning | examples/workflow/operate_nvcf_functions.py:272-274 | Stripping takes white space off both ends and leaves text that neither starts nor ends with it |
| ProgressFile.ReadBehind | examples/workflow/operate_nvcf_functions.py:325-327 | Behind a complete line whatever is appended reads as if it stood alone |
| ProgressFile.UnfinishedLineIff | examples/workflow/operate_nvcf_functions.py:325-327 | Behind a last line without a break an appended clean path is recognised if and only if that line is white space, or another line reads as the path |
| ProgressFile.PaddedPathHidesItsCore | examples/workflow/operate_nvcf_functions.py:271-274 | A padded path reads as its core, so that a job of that name counts as finished although it never ran |
| ProgressFile.ReadsAreClean | examples/workflow/operate_nvcf_functions.py:271-274 | Whatever the file holds, only non-blank, single-line, unpadded paths are read from it |
| JobOperator.Worker.SubmitJob | examples/workflow/operate_nvcf_functions.py:138-171 | At most six invoke commands, all but the last unanswered; success means that the last one was answered, with that request id, and failure that the run was killed or that six went unanswered |
| JobOperator.Worker.LaunchJob | examples/workflow/operate_nvcf_functions.py:173-187 | One launch followed by its submits, and no other event; it fails only when the run dies |
| JobOperator.Worker.AddJob | examples/workflow/operate_nvcf_functions.py:189-195 | An idle worker takes the job over whole, with a rerun count of 0 |
| JobOperator.Worker.CheckJobStatus | examples/workflow/operate_nvcf_functions.py:204-233 | The first report that at most six questions bring, and none only if all six bring none |
| JobOperator.Worker.PollJob | examples/workflow/operate_nvcf_functions.py:235-264 | One poll, for the first report there is: fulfilled frees the worker as succeeded; the fifth failed or not-found frees it as given up; an earlier one launches the same job again with the count raised; in-progress changes nothing; the run ends only when it is killed or nothing answers |
| JobOperator.BuildInputList | examples/workflow/operate_nvcf_functions.py:279-294 | One job per unfinished path, in the order of first occurrences; its number and output path are those of the last input with its path |
| JobOperator.InputListStep | examples/workflow/operate_nvcf_functions.py:288-292 | One more input keeps that description: skipped if finished, renewed in place if known, appended otherwise |
| JobOperator.InputListIsDistinct | examples/workflow/operate_nvcf_functions.py:279-294 | The jobs are pairwise different and are exactly the inputs not yet finished |
| JobOperator.ListedIsSkippedIff | examples/workflow/operate_nvcf_functions.py:267-294 | An input listed in the file is left out of the next run if and only if its path is non-blank, single-line and unpadded |
| JobOperator.FirstJob | examples/workflow/operate_nvcf_functions.py:288-292 | The first job of the list is the first input that is not finished |
| JobOperator.JobsAreFew | examples/workflow/operate_nvcf_functions.py:288-293 | There are no more jobs than inputs, and none exactly when all inputs are finished |
| JobLedger.AssignedKeeps | examples/workflow/operate_nvcf_functions.py:316-320 | Giving a pending job to an idle worker keeps every job in exactly one place and the launch and submit bounds |
| JobLedger.RerunKeeps | examples/workflow/operate_nvcf_functions.py:253-263 | A rerun keeps the job with its worker and keeps the bounds |
| JobLedger.ReleasedKeeps | examples/workflow/operate_nvcf_functions.py:247-260 | Letting a job go moves it to recorded or given up, and to nothing else |
| JobLedger.AllSettled | examples/workflow/operate_nvcf_functions.py:314-314 | With nothing pending and all workers idle every job is recorded or given up, never both |
| JobLedger.RoundHandsOut | examples/workflow/operate_nvcf_functions.py:315-322 | In a round every worker idle at its start takes, in order, the next pending job and launches it, while there is one; every worker busy at its start is polled exactly once |
| JobLedger.VisitedTodo | examples/workflow/operate_nvcf_functions.py:315-322 | A visit that hands out a job, or polls one that is no longer in progress, lowers a bound of six visits for each pending job and up to five for each running one; no visit raises it |
| JobLedger.RoundTodo | examples/workflow/operate_nvcf_functions.py:314-322 | A round with something pending or running, in which no poll finds its job in progress, lowers that bound |
| JobLedger.OrderlyLaunch | examples/workflow/operate_nvcf_functions.py:315-327 | Launching a job that this run has not recorded keeps the run to its own jobs and away from recorded ones, whatever the paths |
| JobLedger.AttributedLaunch | examples/workflow/operate_nvcf_functions.py:138-187 | Appending one launch keeps every submit among the first six after a launch of its path |
| JobLedger.JournalLaunch | examples/workflow/operate_nvcf_functions.py:288-292 | Launching a path keeps the history free of launches after a record, provided that a path which reads back is not listed |
| JobLedger.JournalOne | examples/workflow/operate_nvcf_functions.py:322-327 | Recording a path or polling for it keeps paths that read back listed once and left alone afterwards, and the listed paths equal to the recorded ones |
| OperatorMain.Assign | examples/workflow/operate_nvcf_functions.py:316-320 | The worker is given the job and launches it; cut off anywhere, this keeps the file durable and the bounds, and if the run goes on the books balance |
| OperatorMain.Attend | examples/workflow/operate_nvcf_functions.py:321-327 | The worker is polled once, and a success is recorded; cut off anywhere, this keeps the file durable and the bounds, and if the run goes on the books balance |
| OperatorMain.Visit | examples/workflow/operate_nvcf_functions.py:315-327 | An idle worker takes the first pending job, launches it with one to six submits and holds it; a busy worker is polled; no other worker changes; the run ends on the way only when it dies; the file stays durable and the books balanced |
| OperatorMain.Round | examples/workflow/operate_nvcf_functions.py:315-327 | One pass visits all workers, each once and in order, unless the run dies; it keeps each job in exactly one of pending, one worker, recorded, given up, with at most 5 launches per job and 6 submits per launch |
| OperatorMain.NextRound | examples/workflow/operate_nvcf_functions.py:314-327 | A round in which no poll finds its job in progress leaves less to do, a round of fulfilled polls gives nothing up, and the first round starts with the launch of the first pending job |
| OperatorMain.RunRounds | examples/workflow/operate_nvcf_functions.py:314-329 | A run that ends normally has recorded each job or given it up after exactly five launches, never both; with a worker it ends within six rounds for each job unless it dies or a poll finds a job in progress; without one it never does anything; its first event is the launch of the first job |
| OperatorMain.Operate | examples/workflow/operate_nvcf_functions.py:308-329 | One whole run, for any input paths and any progress file that was empty at first or ended with a line break: it starts with the launch of the first unfinished input, touches only inputs the file did not list, and none again after recording it, within the launch bounds; when it ends normally an input is given up, after five launches, exactly when it was neither finished before nor recorded now, and never if all polls were fulfilled; with a worker it does end within six rounds for each input unless it dies or a poll finds a job in progress |
| OperatorMain.RunOnce | examples/workflow/operate_nvcf_functions.py:308-329 | Cut off anywhere, a run on the file as it is keeps what the file reads as, and touches nothing the file read as finished |
| OperatorMain.RunIsSettled | examples/workflow/operate_nvcf_functions.py:314-314 | Balanced books with nothing pending and no busy worker: recorded exactly when not given up, and given up only after five launches |
| OperatorMain.Campaign | examples/workflow/operate_nvcf_functions.py:267-329 | Over any sequence of runs, crashes and restarts with any inputs: a non-blank, single-line, unpadded path is listed at most once and nothing is launched or submitted for it afterwards; nothing that the file read as finished at the start is ever touched; every submit is one of the first six after a launch of its path; the file reads as its first text and the recorded paths do |
| RequestLifecycle.LogConservation | cosmos_curate/core/cf/nvcf_main.py:986-1091 | At every moment of every interleaving, log file, unwritten buffer and queue together are every line put so far, once and in order, whichever metrics queries failed |
| RequestLifecycle.DueFlush | cosmos_curate/core/cf/nvcf_main.py:1014-1046 | At a decision with a flush due or the stop event set, the next two steps of the progress thread write the whole buffer if the query works, and the third clears it |
| RequestLifecycle.NoFlushDue | cosmos_curate/core/cf/nvcf_main.py:1014-1015 | With no flush due and no stop event, nothing is written and the thread is back at its loop head |
| RequestLifecycle.FailedFlush | cosmos_curate/core/cf/nvcf_main.py:361-366 | A failed query keeps the buffer, so that the next flush that is due writes it |
| RequestLifecycle.DueFlushIsComplete | cosmos_curate/core/cf/nvcf_main.py:1006-1044 | When the thread finds the queue empty, a due flush right afterwards leaves every line put so far in the log |
| RequestLifecycle.PassWritesAll | cosmos_curate/core/cf/nvcf_main.py:986-1051 | One undisturbed pass over a queue of n lines while the request is running takes 3n + 8 steps and, with a flush due, leaves every line in the log and the thread at its loop head with nothing in hand |
| RequestLifecycle.StoppedPumpEnds | cosmos_curate/core/cf/nvcf_main.py:1053-1101 | From its loop head a stopped thread ends in n + 4 steps with every line put so far in the log, and drops its done or failed file |
| RequestLifecycle.OrdinaryRun | cosmos_curate/core/cf/nvcf_main.py:102-1101 | For all lines and exit codes a fresh request may print those lines, exit, and end with exactly them in the log, done or failed |
| RequestLifecycle.RejectedRun | cosmos_curate/core/cf/nvcf_main.py:102-126 | A request rejected before launch ends as done with nothing printed |
| RequestLifecycle.TerminatedRun | cosmos_curate/core/cf/nvcf_main.py:344-350 | A running request can be terminated, and is failed from then on, whatever follows |
| RequestLifecycle.StatusWhileRunning | cosmos_curate/core/cf/nvcf_main.py:137-146 | Between setup and the end of the progress thread an unterminated request under a fresh id is running |
| RequestLifecycle.FinalLogIsComplete | cosmos_curate/core/cf/nvcf_main.py:1053-1091 | Under a fresh id and without termination the final log is every line exactly once in order, and nothing follows |
| RequestLifecycle.LogIsCompleteIff | cosmos_curate/core/cf/nvcf_main.py:986-1091 | For every start: in all unterminated runs to the end the final log is every line exactly once in order, if and only if no done and no failed file is left over |
| RequestLifecycle.LostLine | cosmos_curate/core/cf/nvcf_main.py:986-994 | The failing family: from every start with a stale done or failed file there is an unterminated run, with exit code 0, whose log misses a line |
| RequestLifecycle.StatusOnlyClimbs | cosmos_curate/core/cf/nvcf_main.py:129-148 | Along every run the status only climbs not-found, running, done, failed |
| RequestLifecycle.FinishedIsDecided | cosmos_curate/core/cf/nvcf_main.py:1093-1101 | Once the progress thread has finished the status is done or failed |
| RequestLifecycle.FinalStatus | cosmos_curate/core/cf/nvcf_main.py:1093-1101 | Unless a stale done file stands alone, the final status is failed exactly when a stale failed file was there, a terminator touched the failed file, or the process exited non-zero and its worker lived to report it |
| RequestLifecycle.FailureIsVisibleIff | cosmos_curate/core/cf/nvcf_main.py:921-953 | For every start: while workers live to report, every run with a non-zero exit code ends as failed, if and only if there is no stale done file or a stale failed file outranks it |
| RequestLifecycle.FailureIsAlwaysVisibleIff | cosmos_curate/core/cf/nvcf_main.py:911-953 | For every start, when workers may also die before they report: every run with a non-zero exit code ends as failed, if and only if a stale failed file is there |
| RequestLifecycle.LostFailure | cosmos_curate/core/cf/nvcf_main.py:920-953 | The failing family: from every start without a failed file, fresh ids included, there is an unterminated run whose process exits 1, whose worker dies before it reports, and whose final status is done |
| RequestLifecycle.HiddenFailure | cosmos_curate/core/cf/nvcf_main.py:986-994 | From every start with a stale done file and no failed file there is an unterminated run whose process exits 1, whose worker reports it, and whose final status is done |
| RequestLifecycle.RunKeepsInvariant | cosmos_curate/core/cf/nvcf_main.py:102-1101 | Every run of setup, progress thread, pipeline process and terminators keeps the invariant on files, flags and lines |
| RequestLifecycle.StepKeepsFlags | cosmos_curate/core/cf/nvcf_main.py:986-1101 | Each atomic step keeps why the files, the stop event and the status flag are what they are |
| RequestLifecycle.StepKeepsLines | cosmos_curate/core/cf/nvcf_main.py:361-370 | Each atomic step keeps every line in exactly one place, also when a flush fails before the log is written |
| RequestLifecycle.StepClimbs | cosmos_curate/core/cf/nvcf_main.py:137-148 | No single step of any participant lowers the status |
| PipelineProgress.NormaliseStages | patches/monitoring_patched.py:489-510 | The loop computes every stage's completions in units of pipeline inputs, and their sum |
| PipelineProgress.SumOfParts | patches/monitoring_patched.py:506-506 | The sum of completions is fixed: nothing for no stage, a value for one, and parts add up |
| PipelineProgress.SumOfUpdate | patches/monitoring_patched.py:506-506 | Raising one stage's normalised completions raises the sum by as much |
| PipelineProgress.NormalisedMeaning | patches/monitoring_patched.py:496-510 | Plain completions at the first stage; behind a stage that has completed something, normalised completions of the next stage are to that stage's as the next stage's completions are to all it has completed and spawned |
| PipelineProgress.UpdateProgress | patches/monitoring_patched.py:488-533 | Progress times inputs times stages is the sum of the normalised completions; 0 for no input; a division by zero for input without stages |
| PipelineProgress.RescaledFacts | patches/monitoring_patched.py:507-510 | Behind a stage, all it has completed and spawned weighs what its completions weigh at it |
| PipelineProgress.NormalisedDecreases | patches/monitoring_patched.py:500-510 | Normalised completions never increase along the stages, and stay equal exactly when the next stage has kept up |
| PipelineProgress.NormalisedBound | patches/monitoring_patched.py:500-510 | Each lies between 0 and the input length, and equals it exactly when all stages so far have finished everything they were given |
| PipelineProgress.ProgressBound | patches/monitoring_patched.py:528-531 | Progress lies in [0, 1], and is 1 exactly when every stage has finished everything it was given |
| PipelineProgress.PartwayProgress | patches/monitoring_patched.py:528-531 | With the first k stages complete and nothing completed behind them, progress is k divided by the number of stages |
| ColorHistograms.ComputeColorHistograms | cosmos_curate/models/transnetv2.py:450-483 | Cell f * 512 + bin of the flat scatter is the number of pixels of frame f in that bin, and no index is out of range |
| ColorHistograms.FlatCountIsPerFrame | cosmos_curate/models/transnetv2.py:472-474 | Counting one flat list behind the prefix f << 9 is counting each frame separately |
| ColorHistograms.CountBinOfParts | cosmos_curate/models/transnetv2.py:472-481 | The count of a bin is fixed: a pixel counts in its own bin only, and parts of a frame add up |
| ColorHistograms.ScatterAdd | cosmos_curate/models/transnetv2.py:476-481 | Adding ones in place raises each cell by the number of its occurrences |
| ColorHistograms.BinIsInjective | cosmos_curate/models/transnetv2.py:464-466 | Two pixels share one of the 512 bins exactly when all three channels agree in their high three bits |
| ColorHistograms.BinDigits | cosmos_curate/models/transnetv2.py:464-466 | The octal digits of a bin are the high three bits of red, green and blue, in this order |
| ColorHistograms.IndicesInRange | cosmos_curate/models/transnetv2.py:473-481 | Every index of the flattened frames lies within the histogram buffer |
| ColorHistograms.CountsSumToPixels | cosmos_curate/models/transnetv2.py:476-483 | The 512 counts of a frame add up to its number of pixels |
| SimilarityLookup.LookupMeaning | cosmos_curate/models/transnetv2.py:499-523 | For every odd window and clip length entry (t, w) is the similarity of frames t and t + w - c, or 0 outside the clip |
| SimilarityLookup.DotOfParts | cosmos_curate/models/transnetv2.py:500-500 | The similarity is the sum of products: of single numbers their product, and parts add up |
| SimilarityLookup.LookupMirror | cosmos_curate/models/transnetv2.py:394-418 | The entry for a pair of frames equals the mirrored entry seen from the other frame |
| FrameSampling.DecodeFrames | cosmos_curate/models/judge_video_utils.py:40-60 | The loop keeps exactly the frames the due times select up to where it stops; it stops at the cap, behind a frame beyond a known duration, or at the end, and nowhere else; it keeps at most max_frames, and raises ZeroDivisionError exactly for a zero rate, or a zero cap with a known duration |
| FrameSampling.IntervalMeaning | cosmos_curate/models/judge_video_utils.py:41-45 | The interval is the larger of one over the rate and duration over max_frames, and one over the rate for an unknown duration |
| FrameSampling.KeptIff | cosmos_curate/models/judge_video_utils.py:49-54 | A frame is kept if and only if its time is at least as many intervals as frames have been kept before it |
| FrameSampling.KeptAfterDue | cosmos_curate/models/judge_video_utils.py:49-54 | Kept frame k comes no earlier than k intervals, and kept frames come in order |
| FrameSampling.CapSpansClip | cosmos_curate/models/judge_video_utils.py:40-56 | With a known duration, reaching the cap means that the last kept frame is within one interval of the end |
| FrameSampling.KeptWithinGap | cosmos_curate/models/judge_video_utils.py:49-54 | When frames start within one gap of 0 and are never further apart, and the gap is at most the interval, kept frame k is within one gap after k intervals |
| CaptionStages.EnhanceCaptions | cosmos_curate/pipelines/examples/example_captioning_stages.py:495-548 | Input k is the first caption of the k-th window that has one, text k is written to that window under the given key, and no other window changes |
| CaptionStages.CollectCaptions | cosmos_curate/pipelines/examples/example_captioning_stages.py:498-527 | Inputs and map agree with the captioned windows in scanning order, although windows with an empty dictionary leave stale map entries behind |
| CaptionStages.WriteEnhanced | cosmos_curate/pipelines/examples/example_captioning_stages.py:535-537 | Each result changes its own window and no other |
| CaptionStages.PositionFacts | cosmos_curate/pipelines/examples/example_captioning_stages.py:502-527 | The flattened positions are exactly the captioned windows, each once |
| CaptionStages.PositionsInOrder | cosmos_curate/pipelines/examples/example_captioning_stages.py:502-527 | Positions come clip by clip, and window by window within a clip |
| CaptionStages.FirstCaptionMeaning | cosmos_curate/pipelines/examples/example_captioning_stages.py:513-520 | A window has a caption exactly when its dictionary has an entry, and then it is the value of the first one |
| ShardEmbeddings.ProcessTask | cosmos_curate/pipelines/examples/example_captioning_stages.py:381-407 | From empty embeddings the stage's assertion holds for all results if and only if in no clip a window without any caption field is in front of one with a field, and otherwise AssertionError is raised; when it holds embedding w of a clip is the result for its window w, and there are as many as captioned windows; prompt n is the first caption field of its window; exactly the clips with an uncaptioned window become invalid |
| ShardEmbeddings.EmbedWindows | cosmos_curate/pipelines/examples/example_captioning_stages.py:381-407 | Collecting, encoding and appending in turn, in terms of the flattened positions |
| ShardEmbeddings.GapRaises | cosmos_curate/pipelines/examples/example_captioning_stages.py:397-401 | A failing input: a clip with an uncaptioned window followed by a captioned one |
| ShardEmbeddings.ClipCount | cosmos_curate/pipelines/examples/example_captioning_stages.py:384-401 | A clip gets as many results as it has captioned windows |
| ShardEmbeddings.CollectPrompts | cosmos_curate/pipelines/examples/example_captioning_stages.py:384-393 | Prompt n is the first caption field of the window at position n, positions are the captioned windows in scanning order, and exactly the clips with an uncaptioned window become invalid |
| ShardEmbeddings.AddPrompt | cosmos_curate/pipelines/examples/example_captioning_stages.py:313-320 | The first field of the list that the window has is appended and reported; nothing otherwise |
| ShardEmbeddings.FindFieldMeaning | cosmos_curate/pipelines/examples/example_captioning_stages.py:314-320 | The field found is the first one listed that the window has, with its value, and none if it has none of them |
| ShardEmbeddings.GetMeaning | cosmos_curate/pipelines/examples/example_captioning_stages.py:316-317 | A key has the value of its first entry, and none without an entry |
| ShardEmbeddings.AppendResults | cosmos_curate/pipelines/examples/example_captioning_stages.py:397-401 | Every result goes to its own clip in order; the first result out of step raises AssertionError, and no other does |
| ShardEmbeddings.InStepIffPrefix | cosmos_curate/pipelines/examples/example_captioning_stages.py:397-401 | All results are in step if and only if no clip has a captioned window after an uncaptioned one |
| ShardEmbeddings.PositionRank | cosmos_curate/pipelines/examples/example_captioning_stages.py:384-401 | The number of results of a clip up to one of its windows is the number of its captioned windows up to there |
| Mounts.MountRoundTrip | cosmos_curate/client/slurm_cli/slurm.py:177-211 | A mount reads back from its printed form if and only if its paths contain no colon |
| Mounts.PrintAfterParse | cosmos_curate/client/slurm_cli/slurm.py:177-211 | Printing a parsed string only fills in a missing mode, and parsing that again changes nothing |
| Mounts.MountListRoundTrip | cosmos_curate/client/slurm_cli/slurm.py:748-750 | A list reads back from its comma-joined form if and only if it is not empty and no path in it contains a colon or a comma |
| Mounts.SplitJoinIff | cosmos_curate/client/slurm_cli/slurm.py:263-263 | Splitting undoes joining if and only if there is a part and none contains the separator |
| Mounts.JoinSplit | cosmos_curate/client/slurm_cli/slurm.py:198-198 | Joining undoes splitting, for every string |
| Mounts.ParsesIff | cosmos_curate/client/slurm_cli/slurm.py:195-207 | A string parses to a mount if and only if it is source:dest:mode, or source:dest with the mode rw understood, with a valid mode and no colon in the paths |
| Mounts.PartsParse | cosmos_curate/client/slurm_cli/slurm.py:198-207 | What two or three colon-free parts parse to, and the ValueError for an invalid mode |
| Mounts.FromStr | cosmos_curate/client/slurm_cli/slurm.py:195-207 | A parsed mount has a valid mode, and the only failure is ValueError |
| Mounts.ParseAll | cosmos_curate/client/slurm_cli/slurm.py:748-750 | The list parses if and only if each string does, and then position by position |
| Mounts.ParseIsElementwise | cosmos_curate/client/slurm_cli/slurm.py:748-750 | A joined list of strings without commas is parsed string by string, whatever their form |
| Mounts.MissingModeInList | cosmos_curate/client/slurm_cli/slurm.py:748-750 | A mount without a mode in a list comes back with the mode rw |

## Left out

- VllmGenerate: engine outputs are values, so rewriting their request ids is a new list; aliasing between output objects is not modelled.
- Turn: the queue, the in-flight map, the index map and the results are locals of the loop and are passed to a turn and returned from it.
- Llm.Generate: the content of prompts, frames and captions is abstract; whether a request has video data is a predicate on its inputs.
- Step: prompts, token counts and scheduling inside the engine are foreign; only which live requests finish and with which text is modelled, and every input can be captioned somehow.
- TokenHex: ids are new each time, where the source draws 64 random bits.
- VllmCaption: after a ValueError in flight the engine may still hold requests; the reset by the caption stage is not modelled, and a call finds the engine idle.
- SplitByChunkSize: `custom_size_func` and `drop_incomplete_chunk` keep their defaults, as in all modelled calls.
- GroupSamplesByBin: the choice of the bin from dimensions and duration is an arbitrary function.
- GroupSamplesIntoTasks: paths are represented by bin, part number and tar number; the zero-padded path strings, the listing of stored directories and the parsing of their names are not modelled. Path strings built from different numbers are taken to differ.
- SubmitJob: the invoke file, the command line, the regular expression on the output, the sleeps and the blind terminate are left out; the request id and the reports are arbitrary functions of what has happened before, and so is when a run is killed.
- RunRounds: the loop may poll running jobs forever; a run is cut off after an arbitrary number of rounds. It ends within six rounds for each job if no poll finds a job in progress.
- Append: one line is written whole or not at all.
- Operate: runs start from a file that was empty at first or ended with a line break; UnfinishedLineIff covers the first append to any other file.
- Campaign: two runs at the same time on one file are not modelled.
- LogConservation: the queue is a managed one whose put is visible at once; a flush fails only before the log is touched, by the metrics query; lines may be any strings, where the source skips blank ones. Flush failures of the file system, including one that leaves a partial write, are not modelled. After a worker is lost its process prints no more.
- FinalStatus: done does not mean that a pipeline ran; a request rejected before launch ends as done too.
- RunKeepsInvariant: the participants share files and a queue and interleave freely, so they are one state machine over values and not objects with methods.
- The branch of the progress thread that reports through a platform progress file, the pipeline lock, the content of the progress file, ray job calls and the special id that skips the status check of a termination.
- UpdateProgress: real numbers instead of floats; the other metrics of the loop and the grouping of resource usage by stage name are plain sums and are not modelled.
- ComputeColorHistograms: stops before the L2 normalisation; cells are unbounded where the source has 32 bits; batch and time are one index, as in the flattened view.
- LookupMeaning: real vectors instead of floats, and without the learned projection and the final layer.
- DecodeFrames: frames are their timestamps; decoding, resizing and missing timestamps are not modelled.
- EnhanceCaptions: the generated texts are arbitrary, one per input; error entries and logs are not modelled. The text embedding stage for split pipelines builds the same index map and is not repeated.
- ProcessTask: one embedding per prompt, arbitrary in value.
- ParseAll: the environment list and the rest of the batch script are not modelled.
- Model loading, processors, video decoding, storage clients, HTTP endpoints, argument parsers and the pipeline builder: foreign or plain plumbing.
