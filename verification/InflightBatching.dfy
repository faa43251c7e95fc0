/** cosmos_curate/models/vllm_interface.py: the in-flight loop of _caption_inflight_batching and the entry point. */
module InflightBatching {
  import opened Wrappers
  import opened VllmEngine
  import opened CaptionLedger
  import opened VllmInterface

  /** The finished requests whose final caption is still to be recorded once the first k have been looked at. */
  ghost function Unrecorded<I>(finished: seq<CaptionRequest<I>>, k: nat): set<Id> {
    set j | 0 <= j < |finished| && (k <= j || finished[j].stage2Prompt.Some?) :: finished[j].requestId
  }

  /** The finished first stages that are still to be refined once the first k have been looked at. */
  ghost function Unrefined<I>(finished: seq<CaptionRequest<I>>, k: nat): set<Id> {
    set j | k <= j < |finished| && finished[j].stage2Prompt.Some? :: finished[j].requestId
  }

  lemma UnrecordedStep<I>(finished: seq<CaptionRequest<I>>, k: nat)
    requires Distinct(finished) && k < |finished|
    ensures finished[k].requestId in Unrecorded(finished, k)
    ensures finished[k].stage2Prompt.Some? ==> Unrecorded(finished, k + 1) == Unrecorded(finished, k)
    ensures finished[k].stage2Prompt.None? ==>
      Unrecorded(finished, k + 1) == Unrecorded(finished, k) - {finished[k].requestId}
  {
  }

  lemma UnrefinedStep<I>(finished: seq<CaptionRequest<I>>, k: nat)
    requires Distinct(finished) && k < |finished|
    ensures finished[k].stage2Prompt.Some? ==> finished[k].requestId in Unrefined(finished, k)
    ensures finished[k].stage2Prompt.None? ==> Unrefined(finished, k + 1) == Unrefined(finished, k)
    ensures finished[k].stage2Prompt.Some? ==>
      Unrefined(finished, k + 1) == Unrefined(finished, k) - {finished[k].requestId}
  {
  }

  /** How many of the first k finished requests have a second stage to go. */
  ghost function CountSecond<I>(finished: seq<CaptionRequest<I>>, k: nat): nat
    requires k <= |finished|
  {
    if k == 0 then 0 else CountSecond(finished, k - 1) + if finished[k - 1].stage2Prompt.Some? then 1 else 0
  }

  /** Results for items below n only: there are n of them exactly when every item has one. */
  lemma {:induction false} CountItems(items: set<nat>, n: nat)
    requires forall i :: i in items ==> i < n
    ensures |items| <= n
    ensures |items| == n <==> forall i :: 0 <= i < n ==> i in items
  {
    if n > 0 {
      CountItems(items - {n - 1}, n - 1);
      assert items == items - {n - 1} + if n - 1 in items then {n - 1} else {};
    }
  }

  lemma SubmapSize<K, V>(a: map<K, V>, b: map<K, V>)
    requires a.Keys <= b.Keys
    ensures |a| <= |b|
  {
    assert b.Keys == a.Keys + (b.Keys - a.Keys);
    assert |a.Keys| == |a| && |b.Keys| == |b|;
  }

  /** What the engine is running. */
  function LiveInputs<I>(inFlight: map<Id, CaptionRequest<I>>): map<Id, I> {
    map id | id in inFlight :: inFlight[id].inputs
  }

  lemma LiveInputsFacts<I>(inFlight: map<Id, CaptionRequest<I>>, request: CaptionRequest<I>)
    ensures LiveInputs(inFlight).Keys == inFlight.Keys
    ensures LiveInputs(inFlight[request.requestId := request]) ==
            LiveInputs(inFlight)[request.requestId := request.inputs]
    ensures request.requestId !in inFlight ==> |inFlight[request.requestId := request]| == |inFlight| + 1
  {
    var more := inFlight[request.requestId := request];
    assert more.Keys == inFlight.Keys + {request.requestId};
    assert |more.Keys| == |more| && |inFlight.Keys| == |inFlight|;
  }

  lemma SomethingIsLive<I>(inFlight: map<Id, CaptionRequest<I>>)
    requires inFlight != map[]
    ensures LiveInputs(inFlight) != map[]
  {
    assert LiveInputs(inFlight).Keys == inFlight.Keys;
  }

  /**
   The state between turns: the ledger is consistent, every live request is queued or in flight, and
   the cap holds.
   */
  ghost predicate AtLoopHead<I>(job: Job<I>, cap: nat, books: Ledger<I>, queue: seq<CaptionRequest<I>>,
                                inFlight: map<Id, CaptionRequest<I>>)
  {
    && Consistent(job, books)
    && Placed(books.alive, queue, inFlight, {})
    && (cap != 0 ==> |inFlight| <= cap)
  }

  /** While an item has no result, something is queued or in flight. */
  lemma Unfinished<I>(job: Job<I>, cap: nat, books: Ledger<I>, queue: seq<CaptionRequest<I>>,
                      inFlight: map<Id, CaptionRequest<I>>)
    requires AtLoopHead(job, cap, books, queue, inFlight) && |books.results| < |job.inputs|
    ensures inFlight != map[] || queue != []
  {
    CountItems(books.results.Keys, |job.inputs|);
    assert |books.results.Keys| == |books.results|;
    var i :| 0 <= i < |job.inputs| && i !in books.results;
    assert Accounted(job, books, i);
    assert books.owed[i] != 0 && books.holder[i] in books.alive;
  }

  /** Admit at most one request. Afterwards something is in flight. */
  method Admit<I(!new)>(ghost job: Job<I>, maxInflight: nat, engine: Engine<I>, requestQ: seq<CaptionRequest<I>>,
                        inFlight: map<Id, CaptionRequest<I>>, ghost books: Ledger<I>)
      returns (requestQ': seq<CaptionRequest<I>>, inFlight': map<Id, CaptionRequest<I>>)
    requires AtLoopHead(job, maxInflight, books, requestQ, inFlight) && |books.results| < |job.inputs|
    requires engine.live == LiveInputs(inFlight)
    modifies engine
    ensures AtLoopHead(job, maxInflight, books, requestQ', inFlight')
    ensures engine.live == LiveInputs(inFlight') && inFlight' != map[]
    ensures engine.completions == old(engine.completions)
    ensures |requestQ'| < |requestQ| || (requestQ' == requestQ && engine.patience == old(engine.patience))
    ensures if requestQ != [] && (maxInflight == 0 || |inFlight| < maxInflight)
            then requestQ' == requestQ[1..] && inFlight' == inFlight[requestQ[0].requestId := requestQ[0]]
            else requestQ' == requestQ && inFlight' == inFlight
  {
    hide Consistent;
    hide Placed;
    hide LiveInputs;
    Unfinished(job, maxInflight, books, requestQ, inFlight);
    requestQ', inFlight' := requestQ, inFlight;
    if requestQ != [] && (maxInflight == 0 || |inFlight| < maxInflight) {
      AdmitPlaced(books.alive, requestQ, inFlight);
      var request := requestQ[0];
      requestQ' := requestQ[1..];
      engine.AddRequest(request.requestId, request.inputs);
      inFlight' := inFlight[request.requestId := request];
      LiveInputsFacts(inFlight, request);
    }
  }

  /** `del in_flight_requests[...]` for everything that has just finished. */
  method Retire<I>(ghost books: Ledger<I>, ghost requestQ: seq<CaptionRequest<I>>, inFlight: map<Id, CaptionRequest<I>>,
                   finished: seq<CaptionRequest<I>>) returns (inFlight': map<Id, CaptionRequest<I>>)
    requires Placed(books.alive, requestQ, inFlight, {}) && Distinct(finished)
    requires forall q :: q in finished ==> q.requestId in inFlight
    ensures inFlight' == inFlight - Unrecorded(finished, 0)
    ensures Placed(books.alive, requestQ, inFlight', Unrecorded(finished, 0))
  {
    hide Placed;
    inFlight' := inFlight;
    ghost var limbo: set<Id> := {};
    for k := 0 to |finished|
      invariant limbo == set j | 0 <= j < k :: finished[j].requestId
      invariant inFlight' == inFlight - limbo
      invariant Placed(books.alive, requestQ, inFlight', limbo)
    {
      assert finished[k] in finished;
      RetirePlaced(books.alive, requestQ, inFlight', limbo, finished[k].requestId);
      inFlight' := inFlight' - {finished[k].requestId};
      limbo := limbo + {finished[k].requestId};
    }
    assert limbo == Unrecorded(finished, 0);
  }

  /** The finished requests that are still live in the ledger. */
  ghost predicate Pending<I>(books: Ledger<I>, finished: seq<CaptionRequest<I>>, limbo: set<Id>) {
    forall q :: q in finished && q.requestId in limbo ==> q.requestId in books.alive && books.alive[q.requestId] == q
  }

  method RecordFinal<I>(ghost job: Job<I>, ghost books: Ledger<I>, ghost requestQ: seq<CaptionRequest<I>>,
                        ghost inFlight: map<Id, CaptionRequest<I>>, finished: seq<CaptionRequest<I>>,
                        results: map<nat, string>, index: map<Id, nat>)
      returns (results': map<nat, string>, ghost books': Ledger<I>)
    requires Consistent(job, books) && Placed(books.alive, requestQ, inFlight, Unrecorded(finished, 0))
    requires books.results == results && books.index == index
    requires Distinct(finished) && Pending(books, finished, Unrecorded(finished, 0))
    requires forall q :: q in finished ==> Captioned(job.model, q)
    ensures Consistent(job, books') && Placed(books'.alive, requestQ, inFlight, Unrefined(finished, 0))
    ensures books'.results == results' && books'.index == index && books'.alive.Keys <= books.alive.Keys
    ensures Pending(books', finished, Unrefined(finished, 0))
    ensures forall i :: i in results ==> i in results' && results'[i] == results[i]
    ensures Sum(books'.owed) == Sum(books.owed) - |finished| + CountSecond(finished, |finished|)
    ensures forall id :: id in books'.alive ==> books'.alive[id] in books.alive.Values
  {
    hide Consistent;
    hide Placed;
    results', books' := results, books;
    for k := 0 to |finished|
      invariant Consistent(job, books') && Placed(books'.alive, requestQ, inFlight, Unrecorded(finished, k))
      invariant books'.results == results' && books'.index == index
      invariant Pending(books', finished, Unrecorded(finished, k))
      invariant forall i :: i in results ==> i in results' && results'[i] == results[i]
      invariant Sum(books'.owed) == Sum(books.owed) - k + CountSecond(finished, k)
      invariant forall id :: id in books'.alive ==> id in books.alive && books'.alive[id] == books.alive[id]
    {
      var q := finished[k];
      assert q in finished;
      UnrecordedStep(finished, k);
      if q.stage2Prompt.None? {
        LiveFacts(job, books', q.requestId);
        AnsweredKeeps(job, books', q.requestId, q.caption.value);
        SettlePlaced(books'.alive, requestQ, inFlight, Unrecorded(finished, k), q.requestId);
        var originalIdx := index[q.requestId];
        results' := results'[originalIdx := OrUnknown(q.caption)];
        books' := Answered(books', q.requestId, q.caption.value);
      }
    }
    assert Unrecorded(finished, |finished|) == Unrefined(finished, 0);
  }

  /** One finished first stage becomes a queued second stage under a new id. */
  method Refine<I>(job: Job<I>, ghost books: Ledger<I>, ghost requestQ: seq<CaptionRequest<I>>,
                   ghost inFlight: map<Id, CaptionRequest<I>>, ghost limbo: set<Id>, q: CaptionRequest<I>,
                   index: map<Id, nat>, tokens: TokenSource)
      returns (r: Result<CaptionRequest<I>>, index': map<Id, nat>, ghost books': Ledger<I>)
    requires Consistent(job, books) && Placed(books.alive, requestQ, inFlight, limbo)
    requires books.index == index && tokens.Valid() && index.Keys <= tokens.issued
    requires q.requestId in limbo && q.requestId in books.alive && books.alive[q.requestId] == q
    requires q.stage2Prompt.Some? && Captioned(job.model, q)
    modifies tokens
    ensures job.Refinable() ==> r.Success?
    ensures r.Failure? ==> r.error == ValueError
    ensures r.Success? ==>
      && tokens.Valid() && index'.Keys <= tokens.issued && fresh(r.value)
      && Consistent(job, books') && Placed(books'.alive, requestQ + [r.value], inFlight, limbo - {q.requestId})
      && books'.index == index' && books'.results == books.results && Sum(books'.owed) == Sum(books.owed) - 1
      && books'.alive == (books.alive - {q.requestId})[r.value.requestId := r.value]
      && r.value.requestId !in books.alive
  {
    hide Consistent;
    hide Placed;
    LiveFacts(job, books, q.requestId);
    LiveIds(job, books);
    index', books' := index, books;
    r := MakeRefined(job.model, q, q.stage2Prompt, tokens);
    if r.Failure? {
      return;
    }
    var refined := r.value;
    ReplacedKeeps(job, books, q.requestId, q.caption.value, refined);
    RefinePlaced(books.alive, requestQ, inFlight, limbo, q.requestId, refined);
    index' := index[refined.requestId := index[q.requestId]];
    books' := Replaced(books, q.requestId, refined);
  }

  method EnqueueRefined<I>(job: Job<I>, ghost books: Ledger<I>, requestQ: seq<CaptionRequest<I>>,
                           ghost inFlight: map<Id, CaptionRequest<I>>, finished: seq<CaptionRequest<I>>,
                           index: map<Id, nat>, tokens: TokenSource)
      returns (error: Option<Error>, requestQ': seq<CaptionRequest<I>>, index': map<Id, nat>, ghost books': Ledger<I>)
    requires Consistent(job, books) && Placed(books.alive, requestQ, inFlight, Unrefined(finished, 0))
    requires books.index == index && tokens.Valid() && index.Keys <= tokens.issued
    requires Distinct(finished) && Pending(books, finished, Unrefined(finished, 0))
    requires forall q :: q in finished ==> Captioned(job.model, q)
    modifies tokens
    ensures job.Refinable() ==> error.None?
    ensures error.Some? ==> error.value == ValueError
    ensures error.None? ==>
      && Consistent(job, books') && Placed(books'.alive, requestQ', inFlight, {})
      && books'.index == index' && tokens.Valid() && index'.Keys <= tokens.issued
      && books'.results == books.results
      && Sum(books'.owed) == Sum(books.owed) - CountSecond(finished, |finished|)
      && requestQ <= requestQ' && |requestQ'| == |requestQ| + CountSecond(finished, |finished|)
    ensures error.None? ==>
      forall id :: id in books'.alive ==> books'.alive[id] in books.alive.Values || fresh(books'.alive[id])
  {
    hide Consistent;
    hide Placed;
    requestQ', index', books', error := requestQ, index, books, None;
    for k := 0 to |finished|
      invariant Consistent(job, books') && Placed(books'.alive, requestQ', inFlight, Unrefined(finished, k))
      invariant books'.index == index' && tokens.Valid() && index'.Keys <= tokens.issued
      invariant books'.results == books.results
      invariant Pending(books', finished, Unrefined(finished, k))
      invariant forall q :: q in finished ==> Captioned(job.model, q)
      invariant Sum(books'.owed) == Sum(books.owed) - CountSecond(finished, k)
      invariant requestQ <= requestQ' && |requestQ'| == |requestQ| + CountSecond(finished, k)
      invariant forall id :: id in books'.alive ==> books'.alive[id] in books.alive.Values || fresh(books'.alive[id])
    {
      var q := finished[k];
      assert q in finished;
      UnrefinedStep(finished, k);
      if q.stage2Prompt.Some? {
        var r;
        r, index', books' := Refine(job, books', requestQ', inFlight, Unrefined(finished, k), q, index', tokens);
        if r.Failure? {
          return Some(r.error), requestQ', index', books';
        }
        requestQ' := requestQ' + [r.value];
      }
    }
    assert Unrefined(finished, |finished|) == {};
  }

  lemma PlacedFacts<I>(job: Job<I>, books: Ledger<I>, queue: seq<CaptionRequest<I>>,
                       inFlight: map<Id, CaptionRequest<I>>)
    requires Consistent(job, books) && Placed(books.alive, queue, inFlight, {})
    ensures forall id :: id in inFlight ==>
      inFlight[id].requestId == id && id in books.alive && books.alive[id] == inFlight[id]
    ensures inFlight.Values <= books.alive.Values
  {
  }

  /** What processing one step's outputs leaves: each finished request once, with an admissible caption. */
  lemma FinishedFacts<I>(model: Model<I>, outs: seq<RequestOutput>, flying: map<Id, CaptionRequest<I>>,
                         finished: seq<CaptionRequest<I>>, now: map<Id, I>)
    requires forall id :: id in flying ==> flying[id].requestId == id
    requires Settled(model, LiveInputs(flying), Picks(outs), now)
    requires |finished| == |Picks(outs)|
    requires forall k :: 0 <= k < |finished| ==>
      finished[k] == flying[Picks(outs)[k].requestId] && finished[k].caption == Some(Picks(outs)[k].text)
    ensures Distinct(finished)
    ensures forall q :: q in finished ==> q.requestId in flying && flying[q.requestId] == q && Captioned(model, q)
    ensures now == LiveInputs(flying - Unrecorded(finished, 0))
  {
    var done := Picks(outs);
    assert forall k :: 0 <= k < |finished| ==> finished[k].requestId == done[k].requestId;
    assert Unrecorded(finished, 0) == set j | 0 <= j < |done| :: done[j].requestId;
  }

  /** process_vllm_output on the outputs of one engine step. */
  method Collect<I>(ghost model: Model<I>, outs: seq<RequestOutput>, inFlight: map<Id, CaptionRequest<I>>,
                    ghost now: map<Id, I>)
      returns (r: Result<seq<CaptionRequest<I>>>)
    requires forall id :: id in inFlight ==> inFlight[id].requestId == id
    requires Settled(model, LiveInputs(inFlight), Picks(outs), now)
    modifies inFlight.Values
    ensures (forall o :: o in outs ==> !o.pooling) ==> r.Success?
    ensures r.Success? ==>
      && Distinct(r.value) && |r.value| == |Picks(outs)|
      && (forall q :: q in r.value ==> q.requestId in inFlight && inFlight[q.requestId] == q && Captioned(model, q))
      && now == LiveInputs(inFlight - Unrecorded(r.value, 0))
  {
    PicksAreLive(outs, inFlight.Keys);
    r := ProcessVllmOutput(outs, inFlight);
    if r.Success? {
      FinishedFacts(model, outs, inFlight, r.value, now);
    }
  }

  lemma {:induction false} FinishedIsPicked(outs: seq<RequestOutput>, o: RequestOutput)
    requires o in outs && o.finished
    ensures o in Picks(outs)
  {
    var most, last := outs[..|outs| - 1], outs[|outs| - 1];
    assert outs == most + [last];
    PicksAppend(most, last);
    if o != last {
      FinishedIsPicked(most, o);
    }
    hide Picks;
  }

  lemma PicksAreLive(outs: seq<RequestOutput>, ids: set<Id>)
    requires forall k :: 0 <= k < |Picks(outs)| ==> Picks(outs)[k].requestId in ids
    ensures forall o :: o in outs && o.finished ==> o.requestId in ids
  {
    hide Picks;
    forall o | o in outs && o.finished
      ensures o.requestId in ids
    {
      FinishedIsPicked(outs, o);
      var k :| 0 <= k < |Picks(outs)| && Picks(outs)[k] == o;
    }
  }

  /** Record the final captions among the finished requests, and enqueue the second stages of the others. */
  method Proceed<I(!new)>(job: Job<I>, ghost books: Ledger<I>, requestQ: seq<CaptionRequest<I>>,
                          ghost inFlight: map<Id, CaptionRequest<I>>, finished: seq<CaptionRequest<I>>,
                          results: map<nat, string>, index: map<Id, nat>, tokens: TokenSource)
      returns (error: Option<Error>, requestQ': seq<CaptionRequest<I>>, results': map<nat, string>,
               index': map<Id, nat>, ghost books': Ledger<I>)
    requires Consistent(job, books) && Placed(books.alive, requestQ, inFlight, Unrecorded(finished, 0))
    requires books.results == results && books.index == index && tokens.Valid() && index.Keys <= tokens.issued
    requires Distinct(finished) && Pending(books, finished, Unrecorded(finished, 0))
    requires forall q :: q in finished ==> Captioned(job.model, q)
    modifies tokens
    ensures job.Refinable() ==> error.None?
    ensures error.Some? ==> error.value == ValueError
    ensures error.None? ==>
      && Consistent(job, books') && Placed(books'.alive, requestQ', inFlight, {})
      && books'.results == results' && books'.index == index'
      && tokens.Valid() && index'.Keys <= tokens.issued
      && Sum(books'.owed) == Sum(books.owed) - |finished|
      && (finished == [] ==> requestQ' == requestQ)
    ensures error.None? ==> forall i :: i in results ==> i in results' && results'[i] == results[i]
    ensures error.None? ==>
      forall id :: id in books'.alive ==> books'.alive[id] in books.alive.Values || fresh(books'.alive[id])
  {
    hide Consistent;
    hide Placed;
    hide Captioned;
    hide Unrecorded;
    hide Unrefined;
    hide Pending;
    hide Distinct;
    hide Sum;
    ghost var books1;
    results', books1 := RecordFinal(job, books, requestQ, inFlight, finished, results, index);
    error, requestQ', index', books' := EnqueueRefined(job, books1, requestQ, inFlight, finished, index, tokens);
  }

  /** The second half of a turn: take in what the engine has finished. */
  method Absorb<I(!new)>(job: Job<I>, outs: seq<RequestOutput>, tokens: TokenSource, ghost now: map<Id, I>,
                         requestQ: seq<CaptionRequest<I>>, inFlight: map<Id, CaptionRequest<I>>,
                         results: map<nat, string>, index: map<Id, nat>, ghost books: Ledger<I>)
      returns (error: Option<Error>, requestQ': seq<CaptionRequest<I>>, inFlight': map<Id, CaptionRequest<I>>,
               results': map<nat, string>, index': map<Id, nat>, ghost books': Ledger<I>)
    requires Consistent(job, books) && Placed(books.alive, requestQ, inFlight, {})
    requires books.results == results && books.index == index
    requires tokens.Valid() && index.Keys <= tokens.issued
    requires Settled(job.model, LiveInputs(inFlight), Picks(outs), now)
    modifies tokens, books.alive.Values
    ensures (forall o :: o in outs ==> !o.pooling) && job.Refinable() ==> error.None?
    ensures (forall o :: o in outs ==> !o.pooling) && error.Some? ==> error.value == ValueError
    ensures error.None? ==>
      && Consistent(job, books') && Placed(books'.alive, requestQ', inFlight', {})
      && |inFlight'| <= |inFlight| && now == LiveInputs(inFlight')
      && books'.results == results' && books'.index == index'
      && tokens.Valid() && index'.Keys <= tokens.issued
    ensures error.None? ==> forall i :: i in results ==> i in results' && results'[i] == results[i]
    ensures error.None? ==>
      forall id :: id in books'.alive ==> books'.alive[id] in books.alive.Values || fresh(books'.alive[id])
    ensures error.None? ==> Sum(books'.owed) == Sum(books.owed) - |Picks(outs)|
    ensures error.None? && Picks(outs) == [] ==> requestQ' == requestQ
  {
    hide Consistent;
    hide Placed;
    hide Settled;
    hide Captioned;
    hide Unrecorded;
    hide LiveInputs;
    hide Picks;
    hide Sum;
    hide Distinct;
    books', results', index', requestQ', inFlight' := books, results, index, requestQ, inFlight;
    PlacedFacts(job, books, requestQ, inFlight);
    var r := Collect(job.model, outs, inFlight, now);
    if r.Failure? {
      return Some(r.error), requestQ', inFlight', results', index', books';
    }
    assert Pending(books, r.value, Unrecorded(r.value, 0));
    hide Pending;
    inFlight' := Retire(books, requestQ, inFlight, r.value);
    SubmapSize(inFlight', inFlight);
    error, requestQ', results', index', books' :=
      Proceed(job, books, requestQ, inFlight', r.value, results, index, tokens);
  }

  /**
   One turn of the loop. Whatever the engine finishes, a turn that raises nothing keeps the loop
   invariant and every result already there, and it completes a stage, or admits a request, or
   uses up some of the engine's patience.
   */
  method Turn<I(!new)>(job: Job<I>, maxInflight: nat, engine: Engine<I>, tokens: TokenSource,
                       requestQ: seq<CaptionRequest<I>>, inFlight: map<Id, CaptionRequest<I>>,
                       results: map<nat, string>, index: map<Id, nat>, ghost books: Ledger<I>)
      returns (error: Option<Error>, requestQ': seq<CaptionRequest<I>>, inFlight': map<Id, CaptionRequest<I>>,
               results': map<nat, string>, index': map<Id, nat>, ghost books': Ledger<I>)
    requires AtLoopHead(job, maxInflight, books, requestQ, inFlight) && |results| < |job.inputs|
    requires books.results == results && books.index == index
    requires tokens.Valid() && index.Keys <= tokens.issued
    requires engine.model == job.model && Total(job.model) && engine.live == LiveInputs(inFlight)
    modifies engine, tokens, books.alive.Values
    ensures engine.generative && job.Refinable() ==> error.None?
    ensures engine.generative && error.Some? ==> error.value == ValueError
    ensures error.None? ==>
      && AtLoopHead(job, maxInflight, books', requestQ', inFlight')
      && books'.results == results' && books'.index == index'
      && tokens.Valid() && index'.Keys <= tokens.issued && engine.live == LiveInputs(inFlight')
    ensures error.None? ==> forall i :: i in results ==> i in results' && results'[i] == results[i]
    ensures error.None? ==>
      forall id :: id in books'.alive ==> books'.alive[id] in books.alive.Values || fresh(books'.alive[id])
    ensures error.None? ==> Sum(books'.owed) + engine.completions == Sum(books.owed) + old(engine.completions)
    ensures error.None? ==>
      || Sum(books'.owed) < Sum(books.owed)
      || (Sum(books'.owed) == Sum(books.owed) && |requestQ'| < |requestQ|)
      || (Sum(books'.owed) == Sum(books.owed) && |requestQ'| == |requestQ| && engine.patience < old(engine.patience))
  {
    hide Consistent;
    hide Placed;
    hide Settled;
    hide LiveInputs;
    hide AtLoopHead;
    hide Total;
    hide Picks;
    hide Sum;
    requestQ', inFlight' := Admit(job, maxInflight, engine, requestQ, inFlight, books);
    SomethingIsLive(inFlight');
    HeadFacts(job, maxInflight, books, requestQ', inFlight');
    var outs := engine.Step();
    error, requestQ', inFlight', results', index', books' :=
      Absorb(job, outs, tokens, engine.live, requestQ', inFlight', results, index, books);
    if error.None? {
      BackAtHead(job, maxInflight, books', requestQ', inFlight');
    }
  }

  lemma HeadFacts<I>(job: Job<I>, cap: nat, books: Ledger<I>, queue: seq<CaptionRequest<I>>,
                     inFlight: map<Id, CaptionRequest<I>>)
    requires AtLoopHead(job, cap, books, queue, inFlight)
    ensures Consistent(job, books) && Placed(books.alive, queue, inFlight, {}) && (cap != 0 ==> |inFlight| <= cap)
  {
  }

  lemma BackAtHead<I>(job: Job<I>, cap: nat, books: Ledger<I>, queue: seq<CaptionRequest<I>>,
                      inFlight: map<Id, CaptionRequest<I>>)
    requires Consistent(job, books) && Placed(books.alive, queue, inFlight, {}) && (cap != 0 ==> |inFlight| <= cap)
    ensures AtLoopHead(job, cap, books, queue, inFlight)
  {
  }

  /** The ledger of freshly made requests: every item is owed all its stages by its own request. */
  lemma InitialBooks<I>(job: Job<I>, requests: seq<CaptionRequest<I>>, index: map<Id, nat>) returns (books: Ledger<I>)
    requires job.Valid() && |requests| == |job.inputs| && Distinct(requests)
    requires forall i :: 0 <= i < |requests| ==>
      && requests[i].inputs == job.inputs[i] && requests[i].stage2Prompt == job.prompts[i]
      && requests[i].requestId in index && index[requests[i].requestId] == i
    requires forall id :: id in index ==> index[id] < |requests| && requests[index[id]].requestId == id
    ensures Consistent(job, books) && Placed(books.alive, requests, map[], {})
    ensures books.results == map[] && books.index == index
    ensures Sum(books.owed) == StagesOf(job.prompts) <= 2 * |job.inputs|
    ensures forall id :: id in books.alive ==> books.alive[id] in requests
  {
    books := Ledger(
      map id | id in index :: requests[index[id]],
      index,
      map[],
      seq(|requests|, i requires 0 <= i < |requests| => requests[i].requestId),
      seq(|requests|, i requires 0 <= i < |requests| => Owes(requests[i])));
    StagesBound(job.prompts, books.owed);
    InitialIsConsistent(job, requests, index, books);
    InitialIsPlaced(requests, index);
    hide Consistent;
    hide Placed;
  }

  lemma InitialIsConsistent<I>(job: Job<I>, requests: seq<CaptionRequest<I>>, index: map<Id, nat>, books: Ledger<I>)
    requires job.Valid() && |requests| == |job.inputs|
    requires forall i :: 0 <= i < |requests| ==>
      && requests[i].inputs == job.inputs[i] && requests[i].stage2Prompt == job.prompts[i]
      && requests[i].requestId in index && index[requests[i].requestId] == i
    requires forall id :: id in index ==> index[id] < |requests| && requests[index[id]].requestId == id
    requires books.alive == (map id | id in index :: requests[index[id]])
    requires books.index == index && books.results == map[]
    requires |books.holder| == |books.owed| == |requests|
    requires forall i :: 0 <= i < |requests| ==>
      books.holder[i] == requests[i].requestId && books.owed[i] == Owes(requests[i])
    ensures Consistent(job, books)
  {
  }

  lemma InitialIsPlaced<I>(requests: seq<CaptionRequest<I>>, index: map<Id, nat>)
    requires Distinct(requests)
    requires forall i :: 0 <= i < |requests| ==> requests[i].requestId in index && index[requests[i].requestId] == i
    requires forall id :: id in index ==> index[id] < |requests| && requests[index[id]].requestId == id
    ensures Placed(map id | id in index :: requests[index[id]], requests, map[], {})
  {
    forall id | id in index
      ensures Queued(requests, id)
    {
      assert requests[index[id]].requestId == id;
    }
  }

  /** When every item has a result nothing is live, and the results meet the spec. */
  lemma AllAnswered<I>(job: Job<I>, books: Ledger<I>, queue: seq<CaptionRequest<I>>,
                       inFlight: map<Id, CaptionRequest<I>>)
    requires Consistent(job, books) && Placed(books.alive, queue, inFlight, {})
    requires |books.results| >= |job.inputs|
    ensures forall i :: 0 <= i < |job.inputs| ==>
      i in books.results && ItemSpec(job.model, job.inputs[i], job.prompts[i], books.results[i])
    ensures inFlight == map[] && Sum(books.owed) == 0
  {
    CountItems(books.results.Keys, |job.inputs|);
    assert |books.results.Keys| == |books.results|;
    forall i | 0 <= i < |job.inputs|
      ensures books.owed[i] == 0
      ensures i in books.results && ItemSpec(job.model, job.inputs[i], job.prompts[i], books.results[i])
    {
      assert Accounted(job, books, i);
    }
    SumZero(books.owed);
  }

  lemma {:induction false} SumZero(s: seq<nat>)
    requires forall i :: 0 <= i < |s| ==> s[i] == 0
    ensures Sum(s) == 0
  {
    if s != [] {
      SumZero(s[1..]);
    }
  }

  /** The loop itself, from any state at its head. */
  method DrainAll<I(!new)>(job: Job<I>, engine: Engine<I>, tokens: TokenSource, maxInflight: nat,
                           requestQ0: seq<CaptionRequest<I>>, index0: map<Id, nat>, ghost books0: Ledger<I>)
      returns (error: Option<Error>, results: map<nat, string>)
    requires AtLoopHead(job, maxInflight, books0, requestQ0, map[])
    requires books0.results == map[] && books0.index == index0
    requires tokens.Valid() && index0.Keys <= tokens.issued
    requires engine.model == job.model && Total(job.model) && engine.live == map[]
    modifies engine, tokens, books0.alive.Values
    ensures engine.generative && job.Refinable() ==> error.None?
    ensures engine.generative && error.Some? ==> error.value == ValueError
    ensures error.None? ==> forall i :: 0 <= i < |job.inputs| ==>
      i in results && ItemSpec(job.model, job.inputs[i], job.prompts[i], results[i])
    ensures error.None? ==> engine.live == map[] && engine.completions == old(engine.completions) + Sum(books0.owed)
  {
    hide Consistent;
    hide Placed;
    var requestQ, index, inFlight := requestQ0, index0, map[];
    ghost var books := books0;
    results := map[];
    while |results| < |job.inputs|
      invariant AtLoopHead(job, maxInflight, books, requestQ, inFlight)
      invariant books.results == results && books.index == index
      invariant tokens.Valid() && index.Keys <= tokens.issued
      invariant engine.live == LiveInputs(inFlight)
      invariant forall id :: id in books.alive ==> books.alive[id] in books0.alive.Values || fresh(books.alive[id])
      invariant Sum(books.owed) + engine.completions == Sum(books0.owed) + old(engine.completions)
      decreases Sum(books.owed), |requestQ|, engine.patience
    {
      error, requestQ, inFlight, results, index, books :=
        Turn(job, maxInflight, engine, tokens, requestQ, inFlight, results, index, books);
      if error.Some? {
        return;
      }
    }
    AllAnswered(job, books, requestQ, inFlight);
    error := None;
  }

  /**
   In-flight captioning. For every order and grouping in which the engine finishes requests the
   result lists, in input order, a caption allowed for each item alone; the engine completes
   exactly one request per stage, at most two per item, and is left idle.
   */
  method CaptionInflightBatching<I(!new)>(job: Job<I>, engine: Engine<I>, tokens: TokenSource, maxInflight: nat)
      returns (r: Result<seq<string>>)
    requires job.Valid() && engine.model == job.model && Total(job.model) && tokens.Valid()
    requires engine.live == map[]
    modifies engine, tokens
    ensures engine.generative ==> (r.Success? <==> job.Refinable())
    ensures engine.generative && r.Failure? ==> r.error == ValueError
    ensures r.Success? ==> MeetsSpec(job, r.value)
    ensures r.Success? ==> engine.live == map[]
    ensures r.Success? ==> engine.completions == old(engine.completions) + StagesOf(job.prompts)
    ensures StagesOf(job.prompts) <= 2 * |job.inputs|
  {
    hide Consistent;
    hide Placed;
    hide Distinct;
    hide ItemSpec;
    hide Sum;
    hide StagesOf;
    var requestQ: seq<CaptionRequest<I>>, index: map<Id, nat> := MakeRequests(job, tokens);
    ghost var books := InitialBooks(job, requestQ, index);
    var error, results := DrainAll(job, engine, tokens, maxInflight, requestQ, index, books);
    if error.Some? {
      return Failure(error.value);
    }
    var captions := seq(|job.inputs|, i requires 0 <= i < |job.inputs| => results[i]);
    CaptionedIsRefinable(job, captions);
    return Success(captions);
  }

  /**
   vllm_caption. A negative cap or a prompt list of the wrong length raises ValueError, and so
   does missing video data for a second stage; every other call of a generative engine, in flight
   or in bulk, lists allowed captions in input order.
   */
  method VllmCaption<I(!new)>(modelInputs: seq<I>, model: Model<I>, llm: Llm<I>, tokens: TokenSource, batchSize: int,
                              maxInflightRequests: int, inflightBatching: bool,
                              stage2Prompts: Option<seq<Option<string>>>)
      returns (r: Result<seq<string>>)
    requires model == llm.llmEngine.model && Total(model) && tokens.Valid()
    requires llm.llmEngine.live == map[]
    modifies llm.llmEngine, tokens, llm`log
    ensures maxInflightRequests < 0 ==> r == Failure(ValueError)
    ensures stage2Prompts.Some? && |stage2Prompts.value| != |modelInputs| ==> r == Failure(ValueError)
    ensures maxInflightRequests >= 0 && (stage2Prompts.Some? ==> |stage2Prompts.value| == |modelInputs|) ==>
      var job := Job(model, modelInputs,
                     if stage2Prompts.Some? then stage2Prompts.value else seq(|modelInputs|, _ => None));
      && (llm.llmEngine.generative ==> (r.Success? <==>
            forall i :: 0 <= i < |job.inputs| && job.prompts[i].Some? ==> model.hasVideo(job.inputs[i])))
      && (llm.llmEngine.generative && r.Failure? ==> r.error == ValueError)
      && (r.Success? ==> llm.llmEngine.live == map[])
      && (r.Success? ==> MeetsSpec(job, r.value))
      && (r.Success? ==> |r.value| == |modelInputs|)
      && (r.Success? ==> forall i :: 0 <= i < |r.value| && job.prompts[i].None? ==>
            exists t :: model.admits(job.inputs[i], t) && r.value[i] == if t == "" then "Unknown caption" else t)
      && (r.Success? ==> forall i :: 0 <= i < |r.value| && job.prompts[i].Some? ==>
            exists s1, t ::
              && model.admits(job.inputs[i], s1)
              && model.admits(model.refine(job.inputs[i], s1, job.prompts[i].value), t)
              && r.value[i] == if t == "" then "Unknown caption" else t)
  {
    if maxInflightRequests < 0 {
      return Failure(ValueError);
    }
    var prompts := if stage2Prompts.Some? then stage2Prompts.value else seq(|modelInputs|, _ => None);
    if |prompts| != |modelInputs| {
      return Failure(ValueError);
    }
    var job := Job(model, modelInputs, prompts);
    if inflightBatching {
      r := CaptionInflightBatching(job, llm.llmEngine, tokens, maxInflightRequests);
    } else {
      r := CaptionNoInflightBatching(job, llm, tokens, batchSize);
    }
    if r.Success? {
      CaptionMeanings(job, r.value);
    }
  }
}
