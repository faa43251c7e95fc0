/**
 What cosmos_curate/models/vllm_interface.py is built on: caption requests, the vLLM engine
 and the model plugin. The engine may finish any live requests in any order and grouping;
 only its contract is used by the callers.
 */
module VllmEngine {
  import opened Wrappers

  type Id = nat

  /**
   The foreign model. `admits(x, t)` says that generating from the inputs `x` may give the text
   `t` (sampling may allow many); `refine(x, caption, prompt)` are the inputs of the second
   stage that the plugin builds from the first one, if that has video data, and `defaultPrompt`
   is what it uses without a prompt.
   */
  datatype Model<!I> = Model(
    admits: (I, string) -> bool,
    hasVideo: I -> bool,
    refine: (I, string, string) -> I,
    defaultPrompt: string)
  {
    ghost predicate CanCaption(inputs: I) {
      exists text :: admits(inputs, text)
    }
  }

  /** Every input can be captioned somehow. */
  ghost predicate Total<I(!new)>(model: Model<I>) {
    forall inputs :: model.CanCaption(inputs)
  }

  class CaptionRequest<I> {
    const requestId: Id
    const inputs: I
    const stage2Prompt: Option<string>
    var caption: Option<string>

    constructor (requestId: Id, inputs: I, stage2Prompt: Option<string>)
      ensures this.requestId == requestId && this.inputs == inputs
      ensures this.stage2Prompt == stage2Prompt && caption == None
    {
      this.requestId, this.inputs, this.stage2Prompt := requestId, inputs, stage2Prompt;
      caption := None;
    }
  }

  /** A RequestOutput, or (when `pooling`) a PoolingRequestOutput. */
  datatype RequestOutput = RequestOutput(requestId: Id, text: string, finished: bool, pooling: bool)

  /** The outputs of one step that are finished, in order. */
  function Picks(outs: seq<RequestOutput>): seq<RequestOutput> {
    if outs == [] then []
    else
      var last := outs[|outs| - 1];
      Picks(outs[..|outs| - 1]) + if last.finished then [last] else []
  }

  lemma PicksAppend(outs: seq<RequestOutput>, o: RequestOutput)
    ensures Picks(outs + [o]) == if o.finished then Picks(outs) + [o] else Picks(outs)
  {
    assert (outs + [o])[..|outs|] == outs;
  }

  lemma {:induction false} AllFinished(outs: seq<RequestOutput>)
    requires forall o :: o in outs ==> o.finished
    ensures Picks(outs) == outs
  {
    if outs != [] {
      var init, last := outs[..|outs| - 1], outs[|outs| - 1];
      AllFinished(init);
      PicksAppend(init, last);
      assert outs == init + [last];
      hide Picks;
    }
  }

  /** secrets.token_hex: every token is new. */
  class TokenSource {
    ghost var issued: set<Id>
    var next: Id

    ghost predicate Valid()
      reads this
    {
      forall id :: id in issued ==> id < next
    }

    constructor ()
      ensures Valid() && issued == {}
    {
      issued, next := {}, 0;
    }

    method TokenHex() returns (id: Id)
      requires Valid()
      modifies this
      ensures Valid()
      ensures id !in old(issued) && issued == old(issued) + {id}
    {
      id := next;
      issued, next := issued + {id}, next + 1;
    }
  }

  /** Starting with the live requests `was`, the outputs `done` answer some of them once each and leave `now`. */
  ghost predicate Settled<I>(model: Model<I>, was: map<Id, I>, done: seq<RequestOutput>, now: map<Id, I>)
  {
    && (forall j, k :: 0 <= j < k < |done| ==> done[j].requestId != done[k].requestId)
    && (forall j :: 0 <= j < |done| ==>
      done[j].requestId in was && model.admits(was[done[j].requestId], done[j].text))
    && now == was - (set j | 0 <= j < |done| :: done[j].requestId)
  }

  lemma SettleOne<I>(model: Model<I>, was: map<Id, I>, done: seq<RequestOutput>, now: map<Id, I>, o: RequestOutput)
    requires Settled(model, was, done, now)
    requires o.requestId in now && model.admits(now[o.requestId], o.text)
    ensures Settled(model, was, done + [o], now - {o.requestId})
  {
    var ids := set j | 0 <= j < |done| :: done[j].requestId;
    var more := done + [o];
    assert (set j | 0 <= j < |more| :: more[j].requestId) == ids + {o.requestId} by {
      assert more[|done|] == o;
      assert forall j :: 0 <= j < |done| ==> more[j] == done[j];
    }
  }

  /** llm.llm_engine. `patience` bounds how many steps in a row may finish nothing. */
  class Engine<I(!new)> {
    const model: Model<I>
    const generative: bool
    var live: map<Id, I>
    var patience: nat
    ghost var completions: nat

    constructor (model: Model<I>, generative: bool)
      ensures this.model == model && this.generative == generative && live == map[] && completions == 0
    {
      this.model, this.generative := model, generative;
      live, patience, completions := map[], 0, 0;
    }

    /** A new request may lengthen the wait for the next completion arbitrarily. */
    method AddRequest(id: Id, inputs: I)
      modifies this
      ensures live == old(live)[id := inputs] && completions == old(completions)
    {
      live := live[id := inputs];
      patience := *;
    }

    /** One engine step. It is never taken with nothing in flight. */
    method Step() returns (outs: seq<RequestOutput>)
      requires Total(model)
      requires live != map[]
      modifies this
      ensures generative ==> forall o :: o in outs ==> !o.pooling
      ensures Settled(model, old(live), Picks(outs), live)
      ensures completions == old(completions) + |Picks(outs)|
      ensures Picks(outs) == [] ==> patience < old(patience)
    {
      outs := [];
      var turns: nat := *;
      while turns > 0 && live != map[]
        invariant forall o :: o in outs ==> !o.pooling
        invariant Settled(model, old(live), Picks(outs), live)
        invariant completions == old(completions) + |Picks(outs)| && patience == old(patience)
        invariant live == map[] ==> Picks(outs) != []
        decreases turns
      {
        var id :| id in live;
        var finished := *;
        outs := Emit(old(live), outs, id, finished);
        turns := turns - 1;
      }
      if Picks(outs) == [] {
        if patience > 0 {
          patience := patience - 1;
        } else {
          var id :| id in live;
          outs := Emit(old(live), outs, id, true);
        }
      }
    }

    /** Report one live request, finished or still running. */
    method Emit(ghost was: map<Id, I>, outs: seq<RequestOutput>, id: Id, finished: bool)
        returns (more: seq<RequestOutput>)
      requires Total(model)
      requires Settled(model, was, Picks(outs), live)
      requires id in live
      modifies this
      ensures |more| == |outs| + 1 && more == outs + [more[|outs|]]
      ensures !more[|outs|].pooling
      ensures Settled(model, was, Picks(more), live)
      ensures |Picks(more)| == |Picks(outs)| + if finished then 1 else 0
      ensures completions == old(completions) + if finished then 1 else 0
      ensures patience == old(patience)
      ensures !finished ==> live == old(live)
    {
      assert model.CanCaption(live[id]);
      var text :| model.admits(live[id], text);
      var o := RequestOutput(id, text, finished, false);
      more := outs + [o];
      PicksAppend(outs, o);
      hide Picks;
      if finished {
        SettleOne(model, was, Picks(outs), live, o);
        live, completions := live - {id}, completions + 1;
      }
    }
  }

  /** vllm.LLM: bulk generation, and the engine underneath. */
  class Llm<I(!new)> {
    const llmEngine: Engine<I>
    ghost var log: seq<seq<I>> // the batches generated so far

    constructor (engine: Engine<I>)
      ensures llmEngine == engine && log == []
    {
      llmEngine, log := engine, [];
    }

    /** One output per input, in input order; the ids it puts on them are its own. */
    method Generate(batch: seq<I>) returns (outs: seq<RequestOutput>)
      requires Total(llmEngine.model)
      modifies `log
      ensures log == old(log) + [batch]
      ensures |outs| == |batch|
      ensures forall k :: 0 <= k < |outs| ==> llmEngine.model.admits(batch[k], outs[k].text)
      ensures llmEngine.generative ==> forall k :: 0 <= k < |outs| ==> outs[k].finished && !outs[k].pooling
    {
      log := log + [batch];
      outs := [];
      for k := 0 to |batch|
        invariant |outs| == k
        invariant forall j :: 0 <= j < k ==>
          outs[j].finished && !outs[j].pooling && llmEngine.model.admits(batch[j], outs[j].text)
      {
        assert llmEngine.model.CanCaption(batch[k]);
        var text :| llmEngine.model.admits(batch[k], text);
        outs := outs + [RequestOutput(k, text, true, false)];
      }
    }
  }
}
