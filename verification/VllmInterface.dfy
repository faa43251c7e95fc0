/** cosmos_curate/models/vllm_interface.py: two-stage captioning, in flight and in bulk. */
module VllmInterface {
  import opened Wrappers
  import opened VllmEngine
  import opened CaptionLedger
  import Grouping

  /** Every finished output belongs to an in-flight request, and none is a pooling output. */
  ghost predicate Acceptable<I>(outs: seq<RequestOutput>, inFlight: map<Id, CaptionRequest<I>>) {
    forall o :: o in outs ==> !o.pooling && (o.finished ==> o.requestId in inFlight)
  }

  lemma AcceptableMeaning<I>(outs: seq<RequestOutput>, inFlight: map<Id, CaptionRequest<I>>)
    ensures Acceptable(outs, inFlight) <==>
            forall k :: 0 <= k < |outs| ==> !outs[k].pooling && (outs[k].finished ==> outs[k].requestId in inFlight)
  {
  }

  /** Raises exactly on an unacceptable output, for the first one; else every finished request gets its text. */
  method ProcessVllmOutput<I>(outs: seq<RequestOutput>, inFlight: map<Id, CaptionRequest<I>>)
      returns (r: Result<seq<CaptionRequest<I>>>)
    requires forall id :: id in inFlight ==> inFlight[id].requestId == id
    modifies inFlight.Values
    ensures r.Success? <==> Acceptable(outs, inFlight)
    ensures r.Failure? ==>
      exists k :: 0 <= k < |outs| && Acceptable(outs[..k], inFlight)
                  && if outs[k].pooling then r.error == TypeError
                     else r.error == KeyError && outs[k].finished && outs[k].requestId !in inFlight
    ensures r.Success? ==>
      && |r.value| == |Picks(outs)|
      && forall k :: 0 <= k < |r.value| ==>
        && Picks(outs)[k].requestId in inFlight && r.value[k] == inFlight[Picks(outs)[k].requestId]
        && ((forall j :: k < j < |r.value| ==> Picks(outs)[j].requestId != Picks(outs)[k].requestId) ==>
          r.value[k].caption == Some(Picks(outs)[k].text))
    ensures r.Success? ==> forall q :: q in inFlight.Values && q !in r.value ==> q.caption == old(q.caption)
  {
    hide Acceptable;
    hide Picks;
    var finished: seq<CaptionRequest<I>> := [];
    NothingYet(outs, inFlight);
    for i := 0 to |outs|
      invariant Acceptable(outs[..i], inFlight)
      invariant HaveTexts(Picks(outs[..i]), finished, inFlight)
      invariant forall q :: q in inFlight.Values && q !in finished ==> q.caption == old(q.caption)
    {
      var out := outs[i];
      OneMoreOutput(outs, i, inFlight);
      if out.pooling {
        return Failure(TypeError);
      }
      if out.finished {
        if out.requestId !in inFlight {
          return Failure(KeyError);
        }
        finished := Finish(out, inFlight, Picks(outs[..i]), finished);
      }
    }
    assert outs[..|outs|] == outs;
    return Success(finished);
  }

  /** The finished requests are those of the picked outputs, each with the text of the last one for it. */
  ghost predicate HaveTexts<I>(picked: seq<RequestOutput>, finished: seq<CaptionRequest<I>>,
                               inFlight: map<Id, CaptionRequest<I>>)
    reads finished
  {
    && |finished| == |picked|
    && forall k :: 0 <= k < |finished| ==>
      && picked[k].requestId in inFlight && finished[k] == inFlight[picked[k].requestId]
      && ((forall j :: k < j < |finished| ==> picked[j].requestId != picked[k].requestId) ==>
        finished[k].caption == Some(picked[k].text))
  }

  /** One finished output. */
  method Finish<I>(out: RequestOutput, inFlight: map<Id, CaptionRequest<I>>, ghost picked: seq<RequestOutput>,
                   finished: seq<CaptionRequest<I>>) returns (finished': seq<CaptionRequest<I>>)
    requires out.requestId in inFlight && HaveTexts(picked, finished, inFlight)
    requires forall id :: id in inFlight ==> inFlight[id].requestId == id
    modifies inFlight[out.requestId]
    ensures HaveTexts(picked + [out], finished', inFlight)
    ensures finished' == finished + [inFlight[out.requestId]]
  {
    var request := inFlight[out.requestId];
    request.caption := Some(out.text);
    finished' := finished + [request];
    var all := picked + [out];
    forall k | 0 <= k < |finished| && picked[k].requestId != out.requestId
      ensures finished'[k].caption == old(finished[k].caption)
    {
      assert finished[k].requestId == picked[k].requestId;
    }
    forall k | 0 <= k < |finished| && picked[k].requestId == out.requestId
      ensures !(forall j :: k < j < |finished'| ==> all[j].requestId != all[k].requestId)
    {
      assert all[|finished|].requestId == all[k].requestId;
    }
    forall k | 0 <= k < |finished|
              && forall j :: k < j < |finished'| ==> all[j].requestId != all[k].requestId
      ensures forall j :: k < j < |finished| ==> picked[j].requestId != picked[k].requestId
    {
      assert forall j :: k < j < |finished| ==> all[j] == picked[j];
    }
  }

  lemma NothingYet<I>(outs: seq<RequestOutput>, inFlight: map<Id, CaptionRequest<I>>)
    ensures Picks(outs[..0]) == [] && Acceptable(outs[..0], inFlight)
  {
  }

  lemma OneMoreOutput<I>(outs: seq<RequestOutput>, i: nat, inFlight: map<Id, CaptionRequest<I>>)
    requires i < |outs| && Acceptable(outs[..i], inFlight)
    ensures Picks(outs[..i + 1]) == if outs[i].finished then Picks(outs[..i]) + [outs[i]] else Picks(outs[..i])
    ensures var fine := !outs[i].pooling && (outs[i].finished ==> outs[i].requestId in inFlight);
            && (fine ==> Acceptable(outs[..i + 1], inFlight))
            && (!fine ==> !Acceptable(outs, inFlight))
  {
    assert outs[..i + 1] == outs[..i] + [outs[i]];
    PicksAppend(outs[..i], outs[i]);
    hide Picks;
    assert outs[i] in outs;
  }

  ghost predicate Distinct<I>(requests: seq<CaptionRequest<I>>) {
    forall j, k :: 0 <= j < k < |requests| ==> requests[j].requestId != requests[k].requestId
  }

  /** The request has been given a text that its inputs may produce. */
  ghost predicate Captioned<I>(model: Model<I>, r: CaptionRequest<I>)
    reads r
  {
    r.caption.Some? && model.admits(r.inputs, r.caption.value)
  }

  // ----- bulk -----

  /** The batches generated are the inputs, in order, in chunks of the batch size; one output for each input. */
  method GenerateBatches<I(!new)>(llm: Llm<I>, inputs: seq<I>, batchSize: int) returns (outputs: seq<RequestOutput>)
    requires Total(llm.llmEngine.model)
    modifies llm`log
    ensures |llm.log| >= |old(llm.log)| && llm.log[..|old(llm.log)|] == old(llm.log)
    ensures Grouping.Flatten(llm.log[|old(llm.log)|..]) == inputs
    ensures forall b :: |old(llm.log)| <= b < |llm.log| ==>
      && 1 <= |llm.log[b]| <= (if batchSize >= 1 then batchSize else 1)
      && (b < |llm.log| - 1 ==> |llm.log[b]| == if batchSize >= 1 then batchSize else 1)
    ensures |outputs| == |inputs|
    ensures forall k :: 0 <= k < |outputs| ==>
      && llm.llmEngine.model.admits(inputs[k], outputs[k].text)
      && (llm.llmEngine.generative ==> outputs[k].finished && !outputs[k].pooling)
  {
    hide Total;
    var batches := Grouping.SplitByChunkSize(inputs, batchSize);
    outputs := [];
    assert batches[..0] == [] && Grouping.Flatten<I>([]) == [];
    assert llm.log == old(llm.log) + batches[..0];
    hide Grouping.Flatten;
    hide Grouping.AreChunks;
    for b := 0 to |batches|
      invariant llm.log == old(llm.log) + batches[..b]
      invariant |outputs| == |Grouping.Flatten(batches[..b])|
      invariant forall k :: 0 <= k < |outputs| ==>
        && llm.llmEngine.model.admits(Grouping.Flatten(batches[..b])[k], outputs[k].text)
        && (llm.llmEngine.generative ==> outputs[k].finished && !outputs[k].pooling)
    {
      var more := llm.Generate(batches[b]);
      outputs := outputs + more;
      assert batches[..b + 1] == batches[..b] + [batches[b]];
      Grouping.FlattenAppend(batches[..b], batches[b]);
    }
    assert batches[..|batches|] == batches;
    assert llm.log[|old(llm.log)|..] == batches;
    assert forall b :: |old(llm.log)| <= b < |llm.log| ==> llm.log[b] == batches[b - |old(llm.log)|];
  }

  /** Chunked generation; the outputs carry the ids of the requests, position by position. */
  method VllmGenerate<I(!new)>(llm: Llm<I>, requests: seq<CaptionRequest<I>>, batchSize: int)
      returns (outputs: seq<RequestOutput>)
    requires Total(llm.llmEngine.model)
    modifies llm`log
    ensures |outputs| == |requests|
    ensures forall k :: 0 <= k < |outputs| ==>
      && outputs[k].requestId == requests[k].requestId
      && llm.llmEngine.model.admits(requests[k].inputs, outputs[k].text)
      && (llm.llmEngine.generative ==> outputs[k].finished && !outputs[k].pooling)
  {
    hide Total;
    hide Grouping.Flatten;
    var inputs := seq(|requests|, k requires 0 <= k < |requests| => requests[k].inputs);
    outputs := GenerateBatches(llm, inputs, batchSize);
    ghost var generated := outputs;
    for k := 0 to |outputs|
      invariant |outputs| == |generated|
      invariant forall j :: 0 <= j < |outputs| ==>
        outputs[j] == if j < k then generated[j].(requestId := requests[j].requestId) else generated[j]
    {
      outputs := outputs[k := outputs[k].(requestId := requests[k].requestId)];
    }
  }

  /** `{r.request_id: r for r in requests}` */
  method ById<I>(requests: seq<CaptionRequest<I>>) returns (inFlight: map<Id, CaptionRequest<I>>)
    requires Distinct(requests)
    ensures forall j :: 0 <= j < |requests| ==>
      requests[j].requestId in inFlight && inFlight[requests[j].requestId] == requests[j]
    ensures forall id :: id in inFlight ==> inFlight[id].requestId == id
    ensures inFlight.Values <= set q | q in requests
  {
    inFlight := map[];
    for k := 0 to |requests|
      invariant forall j :: 0 <= j < k ==>
        requests[j].requestId in inFlight && inFlight[requests[j].requestId] == requests[j]
      invariant forall id :: id in inFlight ==> inFlight[id].requestId == id && inFlight[id] in requests
    {
      inFlight := inFlight[requests[k].requestId := requests[k]];
    }
  }

  /** One bulk pass: the same requests, in the same order, each captioned from its own inputs. */
  method ProcessRequests<I(!new)>(llm: Llm<I>, requests: seq<CaptionRequest<I>>, batchSize: int)
      returns (r: Result<seq<CaptionRequest<I>>>)
    requires Total(llm.llmEngine.model) && Distinct(requests)
    modifies requests, llm`log
    ensures llm.llmEngine.generative ==> r.Success?
    ensures r.Success? ==> r.value == requests
    ensures r.Success? ==> forall q :: q in requests ==> Captioned(llm.llmEngine.model, q)
  {
    hide Distinct;
    hide Captioned;
    hide Total;
    var inFlight: map<Id, CaptionRequest<I>> := ById(requests);
    var outputs := VllmGenerate(llm, requests, batchSize);
    PicksAll(outputs);
    if llm.llmEngine.generative {
      BulkIsAcceptable(outputs, requests, inFlight);
    }
    hide Picks;
    hide Acceptable;
    var finished :- ProcessVllmOutput(outputs, inFlight);
    if |finished| != |requests| {
      return Failure(RuntimeError);
    }
    assert Picks(outputs) == outputs;
    BulkInOrder(llm.llmEngine.model, outputs, requests, inFlight, finished);
    return Success(finished);
  }

  /** Outputs that carry the ids of distinct requests, one by one, give each request its own text. */
  lemma BulkInOrder<I>(model: Model<I>, outs: seq<RequestOutput>, requests: seq<CaptionRequest<I>>,
                       inFlight: map<Id, CaptionRequest<I>>, finished: seq<CaptionRequest<I>>)
    requires |outs| == |requests| == |finished| && Distinct(requests)
    requires forall k :: 0 <= k < |outs| ==>
      outs[k].requestId == requests[k].requestId && model.admits(requests[k].inputs, outs[k].text)
    requires forall j :: 0 <= j < |requests| ==>
      requests[j].requestId in inFlight && inFlight[requests[j].requestId] == requests[j]
    requires forall k :: 0 <= k < |finished| ==>
      && outs[k].requestId in inFlight && finished[k] == inFlight[outs[k].requestId]
      && ((forall j :: k < j < |finished| ==> outs[j].requestId != outs[k].requestId) ==>
        finished[k].caption == Some(outs[k].text))
    ensures finished == requests && forall q :: q in requests ==> Captioned(model, q)
  {
    forall k | 0 <= k < |requests|
      ensures finished[k] == requests[k] && Captioned(model, requests[k])
    {
      assert outs[k].requestId == requests[k].requestId;
      assert forall j :: k < j < |finished| ==> outs[j].requestId == requests[j].requestId;
    }
    hide Captioned;
  }

  lemma BulkIsAcceptable<I>(outs: seq<RequestOutput>, requests: seq<CaptionRequest<I>>,
                            inFlight: map<Id, CaptionRequest<I>>)
    requires |outs| == |requests|
    requires forall k :: 0 <= k < |outs| ==>
      && outs[k].requestId == requests[k].requestId && outs[k].requestId in inFlight
      && outs[k].finished && !outs[k].pooling
    ensures Acceptable(outs, inFlight) && Picks(outs) == outs
  {
    AllFinished(outs);
  }

  lemma {:induction false} PicksAll(outs: seq<RequestOutput>)
    ensures |Picks(outs)| <= |outs|
    ensures |Picks(outs)| == |outs| ==> Picks(outs) == outs
  {
    if outs != [] {
      PicksAll(outs[..|outs| - 1]);
    }
  }

  method MakeRequests<I>(job: Job<I>, tokens: TokenSource)
      returns (requests: seq<CaptionRequest<I>>, index: map<Id, nat>)
    requires job.Valid() && tokens.Valid()
    modifies tokens
    ensures tokens.Valid() && old(tokens.issued) <= tokens.issued
    ensures |requests| == |job.inputs| && Distinct(requests)
    ensures forall i :: 0 <= i < |requests| ==>
      && fresh(requests[i]) && requests[i].inputs == job.inputs[i] && requests[i].stage2Prompt == job.prompts[i]
      && requests[i].requestId in index && index[requests[i].requestId] == i
    ensures forall id :: id in index ==>
      id in tokens.issued && index[id] < |requests| && requests[index[id]].requestId == id
  {
    requests, index := [], map[];
    for i := 0 to |job.inputs|
      invariant tokens.Valid() && old(tokens.issued) <= tokens.issued
      invariant |requests| == i && Distinct(requests)
      invariant forall j :: 0 <= j < i ==>
        && fresh(requests[j]) && requests[j].inputs == job.inputs[j] && requests[j].stage2Prompt == job.prompts[j]
        && requests[j].requestId in index && index[requests[j].requestId] == j
      invariant forall id :: id in index ==> id in tokens.issued && index[id] < i && requests[index[id]].requestId == id
    {
      var id := tokens.TokenHex();
      var request := new CaptionRequest(id, job.inputs[i], job.prompts[i]);
      requests := requests + [request];
      index := index[id := i];
    }
  }

  /**
   vllm_plugin.make_refined_llm_request: a new request without a second stage of its own. It
   raises ValueError exactly when the caption or the video data is missing.
   */
  method MakeRefined<I>(model: Model<I>, request: CaptionRequest<I>, refinePrompt: Option<string>, tokens: TokenSource)
      returns (r: Result<CaptionRequest<I>>)
    requires tokens.Valid()
    modifies tokens
    ensures r.Success? <==> request.caption.Some? && model.hasVideo(request.inputs)
    ensures r.Failure? ==> r.error == ValueError && tokens.Valid() && tokens.issued == old(tokens.issued)
    ensures r.Success? ==>
      var prompt := if refinePrompt.Some? then refinePrompt.value else model.defaultPrompt;
      && tokens.Valid() && tokens.issued == old(tokens.issued) + {r.value.requestId}
      && r.value.requestId !in old(tokens.issued) && fresh(r.value)
      && r.value.inputs == model.refine(request.inputs, request.caption.value, prompt)
      && r.value.stage2Prompt == None && r.value.caption == None
  {
    var prompt := if refinePrompt.None? then model.defaultPrompt else refinePrompt.value;
    if request.caption.None? {
      return Failure(ValueError);
    }
    if !model.hasVideo(request.inputs) {
      return Failure(ValueError);
    }
    var id := tokens.TokenHex();
    var refined := new CaptionRequest(id, model.refine(request.inputs, request.caption.value, prompt), None);
    return Success(refined);
  }

  /** Where the bulk path stands between the passes: item k is answered, or needs[slot[k]] is its request. */
  ghost predicate Split<I>(job: Job<I>, results: map<nat, string>, items: seq<nat>, from: nat)
    requires job.Valid()
  {
    && (forall k :: k in results ==> k < |job.inputs| && ItemSpec(job.model, job.inputs[k], job.prompts[k], results[k]))
    && (forall m :: 0 <= m < |items| ==> items[m] < |job.inputs| && job.prompts[items[m]].Some?)
    && from <= |items|
    && (forall k :: 0 <= k < |job.inputs| ==> k in results || Remaining(items, from, k))
  }

  ghost predicate Remaining(items: seq<nat>, from: nat, k: nat) {
    exists m :: from <= m < |items| && items[m] == k
  }

  /** After stage 1: record the one-stage items and list the requests that go on, with their items. */
  method RecordStage1<I>(job: Job<I>, requests: seq<CaptionRequest<I>>, index: map<Id, nat>)
      returns (results: map<nat, string>, needs: seq<CaptionRequest<I>>, ghost items: seq<nat>)
    requires job.Valid() && |requests| == |job.inputs|
    requires forall i :: 0 <= i < |requests| ==>
      && requests[i].inputs == job.inputs[i] && requests[i].stage2Prompt == job.prompts[i]
      && requests[i].requestId in index && index[requests[i].requestId] == i
      && Captioned(job.model, requests[i])
    ensures |items| == |needs| && Split(job, results, items, 0)
    ensures forall m :: 0 <= m < |needs| ==> items[m] < |requests| && needs[m] == requests[items[m]]
  {
    results, needs, items := map[], [], [];
    for i := 0 to |requests|
      invariant forall k :: k in results ==> k < i && ItemSpec(job.model, job.inputs[k], job.prompts[k], results[k])
      invariant |items| == |needs|
      invariant forall m :: 0 <= m < |needs| ==>
        items[m] < i && needs[m] == requests[items[m]] && job.prompts[items[m]].Some?
      invariant forall k :: 0 <= k < i ==> k in results || Remaining(items, 0, k)
    {
      var q := requests[i];
      if q.stage2Prompt.None? {
        results := results[index[q.requestId] := OrUnknown(q.caption)];
      } else {
        ghost var was := items;
        needs, items := needs + [q], items + [i];
        assert items[|was|] == i;
        forall k | 0 <= k < i && Remaining(was, 0, k)
          ensures Remaining(items, 0, k)
        {
          var m :| 0 <= m < |was| && was[m] == k;
          assert items[m] == k;
        }
      }
    }
  }

  /** Second-stage requests for `needs`; each inherits the index of the request it refines. */
  method RefineAll<I>(job: Job<I>, needs: seq<CaptionRequest<I>>, ghost items: seq<nat>, index: map<Id, nat>,
                      tokens: TokenSource)
      returns (error: Option<Error>, refined: seq<CaptionRequest<I>>, index2: map<Id, nat>)
    requires job.Valid() && tokens.Valid() && index.Keys <= tokens.issued
    requires |items| == |needs|
    requires forall m :: 0 <= m < |needs| ==>
      && items[m] < |job.inputs| && job.prompts[items[m]].Some?
      && needs[m].inputs == job.inputs[items[m]] && needs[m].stage2Prompt == job.prompts[items[m]]
      && needs[m].requestId in index && index[needs[m].requestId] == items[m]
      && Captioned(job.model, needs[m])
    modifies tokens
    ensures job.Refinable() ==> error.None?
    ensures error.Some? ==> error.value == ValueError
    ensures error.None? ==> |refined| == |needs| && Distinct(refined)
    ensures error.None? ==> forall m :: 0 <= m < |refined| ==>
      && fresh(refined[m]) && refined[m].requestId in index2 && index2[refined[m].requestId] == items[m]
      && refined[m].stage2Prompt.None? && Serves(job, refined[m], items[m])
  {
    refined, index2, error := [], index, None;
    for m := 0 to |needs|
      invariant tokens.Valid() && index2.Keys <= tokens.issued
      invariant |refined| == m && Distinct(refined)
      invariant forall id :: id in index ==> id in index2 && index2[id] == index[id]
      invariant forall k :: 0 <= k < m ==>
        && fresh(refined[k]) && refined[k].requestId in index2 && index2[refined[k].requestId] == items[k]
        && refined[k].stage2Prompt.None? && Serves(job, refined[k], items[k])
      invariant forall k :: 0 <= k < |needs| ==> Captioned(job.model, needs[k])
    {
      var r := MakeRefined(job.model, needs[m], needs[m].stage2Prompt, tokens);
      if r.Failure? {
        return Some(r.error), refined, index2;
      }
      var next := r.value;
      refined := refined + [next];
      index2 := index2[next.requestId := index2[needs[m].requestId]];
    }
  }

  lemma SplitStep<I>(job: Job<I>, results: map<nat, string>, items: seq<nat>, m: nat, text: string)
    requires job.Valid() && Split(job, results, items, m) && m < |items|
    requires ItemSpec(job.model, job.inputs[items[m]], job.prompts[items[m]], text)
    ensures Split(job, results[items[m] := text], items, m + 1)
  {
    hide ItemSpec;
  }

  method RecordStage2<I>(job: Job<I>, requests: seq<CaptionRequest<I>>, ghost items: seq<nat>, index: map<Id, nat>,
                         stage1: map<nat, string>) returns (results: map<nat, string>)
    requires job.Valid() && |items| == |requests| && Split(job, stage1, items, 0)
    requires forall m :: 0 <= m < |requests| ==>
      && requests[m].requestId in index && index[requests[m].requestId] == items[m]
      && requests[m].stage2Prompt.None? && Serves(job, requests[m], items[m]) && Captioned(job.model, requests[m])
    ensures forall k :: 0 <= k < |job.inputs| ==>
      k in results && ItemSpec(job.model, job.inputs[k], job.prompts[k], results[k])
  {
    results := stage1;
    for m := 0 to |requests|
      invariant Split(job, results, items, m)
    {
      var q := requests[m];
      assert ItemSpec(job.model, job.inputs[items[m]], job.prompts[items[m]], OrUnknown(q.caption));
      SplitStep(job, results, items, m, OrUnknown(q.caption));
      hide Split;
      results := results[index[q.requestId] := OrUnknown(q.caption)];
    }
  }

  method CaptionNoInflightBatching<I(!new)>(job: Job<I>, llm: Llm<I>, tokens: TokenSource, batchSize: int)
      returns (r: Result<seq<string>>)
    requires job.Valid() && job.model == llm.llmEngine.model && Total(job.model) && tokens.Valid()
    modifies tokens, llm`log
    ensures llm.llmEngine.generative ==> (r.Success? <==> job.Refinable())
    ensures llm.llmEngine.generative && r.Failure? ==> r.error == ValueError
    ensures r.Success? ==> MeetsSpec(job, r.value)
  {
    hide Distinct;
    hide Captioned;
    hide Split;
    hide Serves;
    hide ItemSpec;
    var n := |job.inputs|;
    var requests: seq<CaptionRequest<I>>, index: map<Id, nat> := MakeRequests(job, tokens);
    var finished1 :- ProcessRequests(llm, requests, batchSize);
    var stage1, needs, items := RecordStage1(job, finished1, index);
    var error, refined: seq<CaptionRequest<I>>, index2: map<Id, nat> := RefineAll(job, needs, items, index, tokens);
    if error.Some? {
      return Failure(error.value);
    }
    var finished2 :- ProcessRequests(llm, refined, batchSize);
    var results := RecordStage2(job, finished2, items, index2, stage1);
    var captions := seq(n, i requires 0 <= i < n => results[i]);
    CaptionedIsRefinable(job, captions);
    return Success(captions);
  }
}
