/**
 What a caption must be, and the bookkeeping that ties request ids to input indices while
 requests wait, run and are replaced by their second stage.
 */
module CaptionLedger {
  import opened Wrappers
  import opened VllmEngine

  /** `r.caption or "Unknown caption"` */
  function OrUnknown(caption: Option<string>): string {
    if caption == None || caption == Some("") then "Unknown caption" else caption.value
  }

  /** One captioning call: item i is `inputs[i]` with the second-stage prompt `prompts[i]`, if any. */
  datatype Job<!I> = Job(model: Model<I>, inputs: seq<I>, prompts: seq<Option<string>>) {
    ghost predicate Valid() {
      |inputs| == |prompts|
    }

    /** Every item with a second stage has the video data that the second stage is built from. */
    ghost predicate Refinable()
      requires Valid()
    {
      forall i :: 0 <= i < |inputs| && prompts[i].Some? ==> model.hasVideo(inputs[i])
    }
  }

  /** `out` may be the caption of an item, looking at that item alone. */
  ghost predicate ItemSpec<I>(model: Model<I>, inputs: I, prompt: Option<string>, out: string) {
    match prompt
    case None =>
      exists s1 :: model.admits(inputs, s1) && out == OrUnknown(Some(s1))
    case Some(p) =>
      model.hasVideo(inputs) &&
      exists s1, s2 :: model.admits(inputs, s1) && model.admits(model.refine(inputs, s1, p), s2)
                       && out == OrUnknown(Some(s2))
  }

  /** `captions` lists an allowed caption for every item, in input order. */
  ghost predicate MeetsSpec<I>(job: Job<I>, captions: seq<string>)
    requires job.Valid()
  {
    && |captions| == |job.inputs|
    && forall i :: 0 <= i < |captions| ==> ItemSpec(job.model, job.inputs[i], job.prompts[i], captions[i])
  }

  lemma CaptionedIsRefinable<I>(job: Job<I>, captions: seq<string>)
    requires job.Valid() && MeetsSpec(job, captions)
    ensures job.Refinable()
  {
    forall i | 0 <= i < |job.inputs| && job.prompts[i].Some?
      ensures job.model.hasVideo(job.inputs[i])
    {
      assert ItemSpec(job.model, job.inputs[i], job.prompts[i], captions[i]);
    }
  }

  /** With a model that always gives the same text for the same inputs there is exactly one answer. */
  ghost predicate Deterministic<I(!new)>(model: Model<I>, generate: I -> string) {
    forall inputs, text :: model.admits(inputs, text) <==> text == generate(inputs)
  }

  /** What the spec says of an item: a text of its own last stage, shown as it is unless it is empty. */
  lemma CaptionMeaning<I>(model: Model<I>, inputs: I, prompt: Option<string>, out: string)
    ensures prompt.None? ==>
      (ItemSpec(model, inputs, prompt, out) <==>
       exists t :: model.admits(inputs, t) && out == if t == "" then "Unknown caption" else t)
    ensures prompt.Some? ==>
      (ItemSpec(model, inputs, prompt, out) <==>
       model.hasVideo(inputs) &&
       exists s1, t :: model.admits(inputs, s1) && model.admits(model.refine(inputs, s1, prompt.value), t)
                       && out == if t == "" then "Unknown caption" else t)
  {
    if prompt.Some? {
      var p := prompt.value;
      if ItemSpec(model, inputs, prompt, out) {
        var s1, t :| model.admits(inputs, s1) && model.admits(model.refine(inputs, s1, p), t)
                       && out == OrUnknown(Some(t));
        assert out == if t == "" then "Unknown caption" else t;
      }
      if s1, t :| model.admits(inputs, s1) && model.admits(model.refine(inputs, s1, p), t)
                  && out == if t == "" then "Unknown caption" else t {
        assert out == OrUnknown(Some(t));
      }
    }
  }

  lemma CaptionMeanings<I>(job: Job<I>, captions: seq<string>)
    requires job.Valid() && MeetsSpec(job, captions)
    ensures forall i :: 0 <= i < |captions| && job.prompts[i].None? ==>
      exists t :: job.model.admits(job.inputs[i], t) && captions[i] == if t == "" then "Unknown caption" else t
    ensures forall i :: 0 <= i < |captions| && job.prompts[i].Some? ==>
      exists s1, t ::
        && job.model.admits(job.inputs[i], s1)
        && job.model.admits(job.model.refine(job.inputs[i], s1, job.prompts[i].value), t)
        && captions[i] == if t == "" then "Unknown caption" else t
  {
    forall i | 0 <= i < |captions| && job.prompts[i].None?
      ensures exists t ::
        job.model.admits(job.inputs[i], t) && captions[i] == if t == "" then "Unknown caption" else t
    {
      CaptionMeaning(job.model, job.inputs[i], job.prompts[i], captions[i]);
    }
    forall i | 0 <= i < |captions| && job.prompts[i].Some?
      ensures exists s1, t ::
        && job.model.admits(job.inputs[i], s1)
        && job.model.admits(job.model.refine(job.inputs[i], s1, job.prompts[i].value), t)
        && captions[i] == if t == "" then "Unknown caption" else t
    {
      CaptionMeaning(job.model, job.inputs[i], job.prompts[i], captions[i]);
    }
  }

  lemma DeterministicItem<I(!new)>(model: Model<I>, generate: I -> string,
                                   inputs: I, prompt: Option<string>, out: string)
    requires Deterministic(model, generate)
    ensures var last := if prompt.Some? then model.refine(inputs, generate(inputs), prompt.value) else inputs;
            ItemSpec(model, inputs, prompt, out) <==>
            (prompt.Some? ==> model.hasVideo(inputs)) &&
            out == if generate(last) == "" then "Unknown caption" else generate(last)
  {
    CaptionMeaning(model, inputs, prompt, out);
    assert model.admits(inputs, generate(inputs));
    if prompt.Some? {
      var refined := model.refine(inputs, generate(inputs), prompt.value);
      assert model.admits(refined, generate(refined));
    }
    hide ItemSpec;
  }

  /**
   Any two ways of captioning the same job, batched or in flight, then return the same list: what
   the model generates for each item's last stage, unless that is empty.
   */
  lemma PathsAgree<I(!new)>(job: Job<I>, generate: I -> string, a: seq<string>, b: seq<string>)
    requires job.Valid() && Deterministic(job.model, generate)
    requires MeetsSpec(job, a) && MeetsSpec(job, b)
    ensures a == b && |a| == |job.inputs|
    ensures forall i :: 0 <= i < |a| ==>
      var x, p := job.inputs[i], job.prompts[i];
      var text := if p.Some? then generate(job.model.refine(x, generate(x), p.value)) else generate(x);
      a[i] == if text == "" then "Unknown caption" else text
  {
    forall i | 0 <= i < |a|
      ensures var x, p := job.inputs[i], job.prompts[i];
              var text := if p.Some? then generate(job.model.refine(x, generate(x), p.value)) else generate(x);
              a[i] == b[i] == if text == "" then "Unknown caption" else text
    {
      DeterministicItem(job.model, generate, job.inputs[i], job.prompts[i], a[i]);
      DeterministicItem(job.model, generate, job.inputs[i], job.prompts[i], b[i]);
    }
  }

  // ----- stages owed -----

  function Owes<I>(r: CaptionRequest<I>): nat {
    if r.stage2Prompt.Some? then 2 else 1
  }

  function Sum(s: seq<nat>): nat {
    if s == [] then 0 else s[0] + Sum(s[1..])
  }

  lemma {:induction false} SumUpdate(s: seq<nat>, i: nat, v: nat)
    requires i < |s|
    ensures Sum(s[i := v]) + s[i] == Sum(s) + v
  {
    if i == 0 {
      assert s[i := v][1..] == s[1..];
    } else {
      SumUpdate(s[1..], i - 1, v);
      assert s[i := v][1..] == s[1..][i - 1 := v];
    }
  }

  /** One stage for every item and one more for every item with a second-stage prompt. */
  function StagesOf(prompts: seq<Option<string>>): nat {
    if prompts == [] then 0 else (if prompts[0].Some? then 2 else 1) + StagesOf(prompts[1..])
  }

  lemma {:induction false} StagesBound(prompts: seq<Option<string>>, owed: seq<nat>)
    requires |owed| == |prompts|
    requires forall i :: 0 <= i < |owed| ==> owed[i] == if prompts[i].Some? then 2 else 1
    ensures Sum(owed) == StagesOf(prompts) <= 2 * |prompts|
  {
    if prompts != [] {
      StagesBound(prompts[1..], owed[1..]);
    }
  }

  // ----- the ledger -----

  /** `r` asks for item i: its first stage, or the second stage built from a caption of its own first stage. */
  ghost predicate Serves<I>(job: Job<I>, r: CaptionRequest<I>, i: nat)
    requires job.Valid() && i < |job.inputs|
  {
    || (r.inputs == job.inputs[i] && r.stage2Prompt == job.prompts[i])
    || (r.stage2Prompt.None? && job.prompts[i].Some? && job.model.hasVideo(job.inputs[i])
        && exists s1 :: job.model.admits(job.inputs[i], s1)
                        && r.inputs == job.model.refine(job.inputs[i], s1, job.prompts[i].value))
  }

  /**
   The unanswered requests by id, the index map (old ids stay in it), the results so far, the
   id of the request that now stands for each item and the stages each item still owes.
   */
  datatype Ledger<I> = Ledger(
    alive: map<Id, CaptionRequest<I>>,
    index: map<Id, nat>,
    results: map<nat, string>,
    holder: seq<Id>,
    owed: seq<nat>)

  /** The live request `id` stands for its item and owes what the item owes. */
  ghost predicate Standing<I>(job: Job<I>, l: Ledger<I>, id: Id)
    requires job.Valid() && |l.holder| == |l.owed| == |job.inputs| && id in l.alive
  {
    && l.alive[id].requestId == id
    && id in l.index
    && l.index[id] < |job.inputs|
    && Serves(job, l.alive[id], l.index[id])
    && l.holder[l.index[id]] == id
    && l.owed[l.index[id]] == Owes(l.alive[id])
  }

  /** Item i is stood for by a live request while it owes a stage, and has a result within its spec afterwards. */
  ghost predicate Accounted<I>(job: Job<I>, l: Ledger<I>, i: nat)
    requires job.Valid() && i < |l.holder| == |l.owed| == |job.inputs|
  {
    if l.owed[i] != 0 then
      l.holder[i] in l.alive && l.holder[i] in l.index && l.index[l.holder[i]] == i && i !in l.results
    else
      i in l.results && ItemSpec(job.model, job.inputs[i], job.prompts[i], l.results[i])
  }

  /** Every item is either answered within its spec or stood for by exactly one live request. */
  ghost predicate Consistent<I>(job: Job<I>, l: Ledger<I>) {
    && job.Valid()
    && |l.holder| == |l.owed| == |job.inputs|
    && (forall id :: id in l.alive ==> Standing(job, l, id))
    && (forall i :: 0 <= i < |job.inputs| ==> Accounted(job, l, i))
    && (forall i :: i in l.results ==> i < |job.inputs|)
  }

  lemma LiveFacts<I>(job: Job<I>, l: Ledger<I>, id: Id)
    requires Consistent(job, l) && id in l.alive
    ensures l.alive[id].requestId == id
    ensures id in l.index && l.index[id] < |job.inputs| == |l.owed| == |l.holder|
    ensures l.alive[id].stage2Prompt.Some? ==>
      l.alive[id].inputs == job.inputs[l.index[id]] && l.alive[id].stage2Prompt == job.prompts[l.index[id]]
  {
  }

  lemma LiveIds<I>(job: Job<I>, l: Ledger<I>)
    requires Consistent(job, l)
    ensures l.alive.Keys <= l.index.Keys
  {
  }

  /** What a last-stage request for an item produces is a caption of that item. */
  lemma LastStageAnswers<I>(job: Job<I>, r: CaptionRequest<I>, i: nat, text: string)
    requires job.Valid() && i < |job.inputs| && Serves(job, r, i)
    requires r.stage2Prompt.None? && job.model.admits(r.inputs, text)
    ensures ItemSpec(job.model, job.inputs[i], job.prompts[i], OrUnknown(Some(text)))
  {
    hide OrUnknown;
  }

  /** A last-stage request of the ledger has been answered with `text`. */
  function Answered<I>(l: Ledger<I>, id: Id, text: string): Ledger<I>
    requires id in l.index && l.index[id] < |l.owed|
  {
    var i := l.index[id];
    l.(alive := l.alive - {id}, results := l.results[i := OrUnknown(Some(text))], owed := l.owed[i := 0])
  }

  lemma AnsweredKeeps<I>(job: Job<I>, l: Ledger<I>, id: Id, text: string)
    requires Consistent(job, l) && id in l.alive
    requires l.alive[id].stage2Prompt.None? && job.model.admits(l.alive[id].inputs, text)
    ensures Consistent(job, Answered(l, id, text))
    ensures Sum(Answered(l, id, text).owed) == Sum(l.owed) - 1
    ensures l.index[id] !in l.results
  {
    assert Standing(job, l, id);
    var i, l' := l.index[id], Answered(l, id, text);
    assert Accounted(job, l, i);
    SumUpdate(l.owed, i, 0);
    LastStageAnswers(job, l.alive[id], i, text);
    hide ItemSpec;
    hide Serves;
    hide OrUnknown;
    hide Owes;
    hide Sum;
    forall other | other in l'.alive
      ensures Standing(job, l', other)
    {
      assert Standing(job, l, other);
      OthersStand(job, l, l', i, other);
    }
    forall k | 0 <= k < |job.inputs|
      ensures Accounted(job, l', k)
    {
      assert Accounted(job, l, k);
      if k != i {
        OthersAccounted(job, l, l', id, k);
      }
    }
  }

  /** A request for another item still stands when the books of item i change. */
  lemma OthersStand<I>(job: Job<I>, l: Ledger<I>, l': Ledger<I>, i: nat, other: Id)
    requires job.Valid() && |l.holder| == |l.owed| == |job.inputs| == |l'.holder| == |l'.owed|
    requires other in l.alive && other in l'.alive && l'.alive[other] == l.alive[other] && Standing(job, l, other)
    requires other in l'.index && l'.index[other] == l.index[other] != i
    requires forall k :: 0 <= k < |l.owed| && k != i ==> l'.owed[k] == l.owed[k] && l'.holder[k] == l.holder[k]
    ensures Standing(job, l', other)
  {
    hide Serves;
  }

  /** Another item is still accounted for when only the request `id` has gone and the books of its item have changed. */
  lemma OthersAccounted<I>(job: Job<I>, l: Ledger<I>, l': Ledger<I>, id: Id, k: nat)
    requires job.Valid() && k < |l.holder| == |l.owed| == |job.inputs| == |l'.holder| == |l'.owed|
    requires Accounted(job, l, k) && id in l.index && l.index[id] != k
    requires l'.owed[k] == l.owed[k] && l'.holder[k] == l.holder[k]
    requires forall other :: other in l.alive && other != id ==> other in l'.alive
    requires forall other :: other in l.index ==> other in l'.index && l'.index[other] == l.index[other]
    requires k in l'.results <==> k in l.results
    requires k in l.results ==> l'.results[k] == l.results[k]
    ensures Accounted(job, l', k)
  {
    hide ItemSpec;
  }

  /** A first-stage request has been answered and `next`, under a new id, takes its place. */
  function Replaced<I>(l: Ledger<I>, id: Id, next: CaptionRequest<I>): Ledger<I>
    requires id in l.index && l.index[id] < |l.owed| == |l.holder|
  {
    var i := l.index[id];
    l.(alive := (l.alive - {id})[next.requestId := next],
       index := l.index[next.requestId := i],
       holder := l.holder[i := next.requestId],
       owed := l.owed[i := 1])
  }

  /** The request refined from a first-stage request serves the same item. */
  lemma SecondStageServes<I>(job: Job<I>, r: CaptionRequest<I>, i: nat, text: string, next: CaptionRequest<I>)
    requires job.Valid() && i < |job.inputs| && Serves(job, r, i)
    requires r.stage2Prompt.Some? && job.model.admits(r.inputs, text) && job.model.hasVideo(r.inputs)
    requires next.stage2Prompt.None? && next.inputs == job.model.refine(r.inputs, text, r.stage2Prompt.value)
    ensures Serves(job, next, i)
  {
  }

  lemma ReplacedKeeps<I>(job: Job<I>, l: Ledger<I>, id: Id, text: string, next: CaptionRequest<I>)
    requires Consistent(job, l) && id in l.alive && next.requestId !in l.index
    requires l.alive[id].stage2Prompt.Some? && job.model.admits(l.alive[id].inputs, text)
    requires next.stage2Prompt.None?
    requires job.model.hasVideo(l.alive[id].inputs)
    requires next.inputs == job.model.refine(l.alive[id].inputs, text, l.alive[id].stage2Prompt.value)
    ensures Consistent(job, Replaced(l, id, next))
    ensures Sum(Replaced(l, id, next).owed) == Sum(l.owed) - 1
  {
    assert Standing(job, l, id);
    var i, l' := l.index[id], Replaced(l, id, next);
    assert Accounted(job, l, i);
    SumUpdate(l.owed, i, 1);
    SecondStageServes(job, l.alive[id], i, text, next);
    hide ItemSpec;
    hide Serves;
    hide Sum;
    forall other | other in l'.alive
      ensures Standing(job, l', other)
    {
      if other == next.requestId {
        assert l'.alive[other] == next && l'.holder[i] == other && l'.owed[i] == 1;
      } else {
        assert Standing(job, l, other);
        OthersStand(job, l, l', i, other);
      }
    }
    forall k | 0 <= k < |job.inputs|
      ensures Accounted(job, l', k)
    {
      assert Accounted(job, l, k);
      if k != i {
        OthersAccounted(job, l, l', id, k);
      }
    }
  }

  // ----- where the live requests are -----

  /** Each live request is in the queue once, in flight, or just finished (`limbo`), and in one of them only. */
  ghost predicate Placed<I>(alive: map<Id, CaptionRequest<I>>, queue: seq<CaptionRequest<I>>,
                            inFlight: map<Id, CaptionRequest<I>>, limbo: set<Id>)
  {
    && (forall j :: 0 <= j < |queue| ==>
      && queue[j].requestId in alive && alive[queue[j].requestId] == queue[j]
      && queue[j].requestId !in inFlight && queue[j].requestId !in limbo)
    && (forall j, k :: 0 <= j < k < |queue| ==> queue[j].requestId != queue[k].requestId)
    && (forall id :: id in inFlight ==> id in alive && alive[id] == inFlight[id] && id !in limbo)
    && limbo <= alive.Keys
    && (forall id :: id in alive ==> id in inFlight || id in limbo || Queued(queue, id))
  }

  ghost predicate Queued<I>(queue: seq<CaptionRequest<I>>, id: Id) {
    exists j :: 0 <= j < |queue| && queue[j].requestId == id
  }

  lemma AdmitPlaced<I>(alive: map<Id, CaptionRequest<I>>, queue: seq<CaptionRequest<I>>,
                       inFlight: map<Id, CaptionRequest<I>>)
    requires Placed(alive, queue, inFlight, {}) && queue != []
    ensures Placed(alive, queue[1..], inFlight[queue[0].requestId := queue[0]], {})
    ensures queue[0].requestId !in inFlight
  {
    forall id | Queued(queue, id) && id != queue[0].requestId
      ensures Queued(queue[1..], id)
    {
      var j :| 0 <= j < |queue| && queue[j].requestId == id;
      assert queue[1..][j - 1].requestId == id;
    }
  }

  lemma RetirePlaced<I>(alive: map<Id, CaptionRequest<I>>, queue: seq<CaptionRequest<I>>,
                        inFlight: map<Id, CaptionRequest<I>>, limbo: set<Id>, id: Id)
    requires Placed(alive, queue, inFlight, limbo) && id in inFlight
    ensures Placed(alive, queue, inFlight - {id}, limbo + {id})
  {
  }

  lemma SettlePlaced<I>(alive: map<Id, CaptionRequest<I>>, queue: seq<CaptionRequest<I>>,
                        inFlight: map<Id, CaptionRequest<I>>, limbo: set<Id>, id: Id)
    requires Placed(alive, queue, inFlight, limbo) && id in limbo
    ensures Placed(alive - {id}, queue, inFlight, limbo - {id})
  {
  }

  lemma RefinePlaced<I>(alive: map<Id, CaptionRequest<I>>, queue: seq<CaptionRequest<I>>,
                        inFlight: map<Id, CaptionRequest<I>>, limbo: set<Id>, id: Id, next: CaptionRequest<I>)
    requires Placed(alive, queue, inFlight, limbo) && id in limbo && next.requestId !in alive
    ensures Placed((alive - {id})[next.requestId := next], queue + [next], inFlight, limbo - {id})
  {
    var more := queue + [next];
    assert more[|queue|] == next;
    forall other | Queued(queue, other)
      ensures Queued(more, other)
    {
      var j :| 0 <= j < |queue| && queue[j].requestId == other;
      assert more[j].requestId == other;
    }
  }

  datatype Place = Queued1 | Running1 | Queued2 | Running2 | Finished

  /** Item i is at `place`; the queue may hold it at some position. */
  ghost predicate At<I>(job: Job<I>, l: Ledger<I>, queue: seq<CaptionRequest<I>>, inFlight: map<Id, CaptionRequest<I>>,
                        i: nat, place: Place)
    requires Consistent(job, l) && Placed(l.alive, queue, inFlight, {}) && i < |job.inputs|
  {
    match place
    case Finished => i in l.results
    case Queued1 => exists j :: 0 <= j < |queue| && l.index[queue[j].requestId] == i
                                && (Owes(queue[j]) == 2 || job.prompts[i].None?)
    case Queued2 => exists j :: 0 <= j < |queue| && l.index[queue[j].requestId] == i
                                && Owes(queue[j]) == 1 && job.prompts[i].Some?
    case Running1 => exists id :: id in inFlight && l.index[id] == i
                                  && (Owes(inFlight[id]) == 2 || job.prompts[i].None?)
    case Running2 => exists id :: id in inFlight && l.index[id] == i
                                  && Owes(inFlight[id]) == 1 && job.prompts[i].Some?
  }

  /** The place of an item. */
  ghost function PlaceOf<I>(job: Job<I>, l: Ledger<I>, inFlight: map<Id, CaptionRequest<I>>, i: nat): Place
    requires Consistent(job, l) && i < |job.inputs|
  {
    if i in l.results then Finished
    else
      var second := l.owed[i] == 1 && job.prompts[i].Some?;
      if l.holder[i] in inFlight then (if second then Running2 else Running1)
      else if second then Queued2 else Queued1
  }

  /** Between turns every item is in exactly one of the five places. */
  lemma ExactlyOnePlace<I>(job: Job<I>, l: Ledger<I>, queue: seq<CaptionRequest<I>>,
                           inFlight: map<Id, CaptionRequest<I>>, i: nat, place: Place)
    requires Consistent(job, l) && Placed(l.alive, queue, inFlight, {}) && i < |job.inputs|
    ensures At(job, l, queue, inFlight, i, place) <==> place == PlaceOf(job, l, inFlight, i)
  {
    WhereFacts(job, l, queue, inFlight, i);
    hide Consistent;
    hide Placed;
  }

  /**
   A queued or running request for item i is its holder, and the holder of an unanswered item is
   queued or running.
   */
  lemma WhereFacts<I>(job: Job<I>, l: Ledger<I>, queue: seq<CaptionRequest<I>>,
                      inFlight: map<Id, CaptionRequest<I>>, i: nat)
    requires Consistent(job, l) && Placed(l.alive, queue, inFlight, {}) && i < |job.inputs|
    ensures |l.holder| == |l.owed| == |job.inputs| == |job.prompts|
    ensures forall j :: 0 <= j < |queue| ==> queue[j].requestId in l.index
    ensures forall j :: 0 <= j < |queue| && l.index[queue[j].requestId] == i ==>
      i !in l.results && l.holder[i] !in inFlight && Owes(queue[j]) == l.owed[i]
    ensures forall id :: id in inFlight ==> id in l.index
    ensures forall id :: id in inFlight && l.index[id] == i ==>
      i !in l.results && l.holder[i] == id && Owes(inFlight[id]) == l.owed[i]
    ensures i !in l.results && l.holder[i] in inFlight ==> l.index[l.holder[i]] == i
    ensures i !in l.results && l.holder[i] !in inFlight ==>
      exists j :: 0 <= j < |queue| && l.index[queue[j].requestId] == i
  {
    HolderFacts(job, l, i);
    forall other | other in l.alive
      ensures other in l.index && l.index[other] < |job.inputs| && (l.index[other] == i ==> i !in l.results)
      ensures l.holder[l.index[other]] == other && l.owed[l.index[other]] == Owes(l.alive[other])
    {
      OnlyHolder(job, l, other);
    }
    hide Consistent;
    hide Owes;
    if i !in l.results && l.holder[i] !in inFlight {
      assert Queued(queue, l.holder[i]);
      var j :| 0 <= j < |queue| && queue[j].requestId == l.holder[i];
      assert l.index[queue[j].requestId] == i;
    }
  }

  lemma HolderFacts<I>(job: Job<I>, l: Ledger<I>, i: nat)
    requires Consistent(job, l) && i < |job.inputs|
    ensures |l.holder| == |l.owed| == |job.inputs|
    ensures i !in l.results ==> l.holder[i] in l.alive && l.holder[i] in l.index && l.index[l.holder[i]] == i
  {
    assert Accounted(job, l, i);
  }

  /** A live request is the one that stands for its item, and that has no result yet. */
  lemma OnlyHolder<I>(job: Job<I>, l: Ledger<I>, other: Id)
    requires Consistent(job, l) && other in l.alive
    ensures other in l.index && l.index[other] < |job.inputs| == |l.holder| == |l.owed|
    ensures l.holder[l.index[other]] == other && l.owed[l.index[other]] == Owes(l.alive[other])
    ensures l.index[other] !in l.results
  {
    assert Standing(job, l, other);
    assert Accounted(job, l, l.index[other]);
  }
}
