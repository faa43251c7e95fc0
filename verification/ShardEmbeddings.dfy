/**
 cosmos_curate/pipelines/examples/example_captioning_stages.py: T5StageForShard, which appends
 embeddings clip by clip.
 */
module ShardEmbeddings {
  import opened Wrappers
  import opened CaptionStages

  /** An encoded prompt. */
  type Encoded = seq<real>

  class ClipSample {
    const windows: seq<Dict>
    var valid: bool
    var embeddings: seq<Encoded>

    constructor (windows: seq<Dict>)
      ensures this.windows == windows && valid && embeddings == []
    {
      this.windows := windows;
      valid, embeddings := true, [];
    }
  }

  /** The value of a key. */
  function Get(d: Dict, key: string): Option<string> {
    if d == [] then None else if d[0].0 == key then Some(d[0].1) else Get(d[1..], key)
  }

  /** The first of the caption fields that the dictionary has, with its value. */
  function FindField(fields: seq<string>, d: Dict): Option<(string, string)> {
    if fields == [] then None
    else
      match Get(d, fields[0])
      case Some(v) => Some((fields[0], v))
      case None => FindField(fields[1..], d)
  }

  /** A key has the value of its first entry, and none without an entry. */
  lemma {:induction false} GetMeaning(d: Dict, key: string, v: string)
    ensures Get(d, key) == Some(v) <==>
            exists i :: 0 <= i < |d| && d[i] == (key, v) && forall j :: 0 <= j < i ==> d[j].0 != key
    ensures Get(d, key) == None <==> forall i :: 0 <= i < |d| ==> d[i].0 != key
  {
    if d != [] && d[0].0 != key {
      GetMeaning(d[1..], key, v);
      assert forall i :: 0 <= i < |d| - 1 ==> d[1..][i] == d[i + 1];
      if i :| 0 <= i < |d[1..]| && d[1..][i] == (key, v) && forall j :: 0 <= j < i ==> d[1..][j].0 != key {
        assert d[i + 1] == (key, v);
        assert forall j :: 1 <= j < i + 1 ==> d[j] == d[1..][j - 1];
      }
      if i :| 0 <= i < |d| && d[i] == (key, v) && forall j :: 0 <= j < i ==> d[j].0 != key {
        assert d[1..][i - 1] == (key, v);
      }
      assert forall i :: 1 <= i < |d| ==> d[1..][i - 1] == d[i];
    }
  }

  /** The field found is the first one listed that the dictionary has, with its value; none if it has none of them. */
  lemma {:induction false} FindFieldMeaning(fields: seq<string>, d: Dict, field: string, v: string)
    ensures FindField(fields, d) == Some((field, v)) <==>
            exists i :: 0 <= i < |fields| && fields[i] == field && Get(d, field) == Some(v)
                        && forall j :: 0 <= j < i ==> Get(d, fields[j]) == None
    ensures FindField(fields, d) == None <==> forall i :: 0 <= i < |fields| ==> Get(d, fields[i]) == None
  {
    hide Get;
    if fields != [] && Get(d, fields[0]) == None {
      var rest := fields[1..];
      FindFieldMeaning(rest, d, field, v);
      assert forall i :: 0 <= i < |rest| ==> rest[i] == fields[i + 1];
      assert forall i :: 1 <= i < |fields| ==> fields[i] == rest[i - 1];
      if i :| 0 <= i < |rest| && rest[i] == field && Get(d, field) == Some(v)
              && forall j :: 0 <= j < i ==> Get(d, rest[j]) == None {
        assert fields[i + 1] == field;
      }
      if i :| 0 <= i < |fields| && fields[i] == field && Get(d, field) == Some(v)
              && forall j :: 0 <= j < i ==> Get(d, fields[j]) == None {
        assert rest[i - 1] == field;
      }
    }
  }

  /** _add_prompt */
  method AddPrompt(allPrompts: seq<string>, fields: seq<string>, d: Dict)
      returns (more: seq<string>, found: Option<string>)
    ensures match FindField(fields, d)
            case None => more == allPrompts && found == None
            case Some((field, v)) => more == allPrompts + [v] && found == Some(field)
  {
    more, found := allPrompts, None;
    assert fields[0..] == fields;
    for i := 0 to |fields|
      invariant more == allPrompts && found == None
      invariant FindField(fields, d) == FindField(fields[i..], d)
    {
      assert fields[i..][1..] == fields[i + 1..];
      var v := Get(d, fields[i]);
      if v.Some? {
        more, found := allPrompts + [v.value], Some(fields[i]);
        return;
      }
    }
  }

  function AllWindowsOf(samples: seq<ClipSample>): seq<seq<Dict>> {
    seq(|samples|, c requires 0 <= c < |samples| => samples[c].windows)
  }

  function HasField(fields: seq<string>): Dict -> bool {
    (d: Dict) => FindField(fields, d).Some?
  }

  /** The results, among the first n, that belong to clip c. */
  function ResultsOf(positions: seq<Position>, results: seq<Encoded>, n: nat, c: nat): seq<Encoded>
    requires n <= |positions| == |results|
  {
    if n == 0 then []
    else ResultsOf(positions, results, n - 1, c) + if positions[n - 1].clip == c then [results[n - 1]] else []
  }

  /** The stage's assertion for result n: its window number is the number of embeddings that its clip has by then. */
  predicate InStep(had: seq<nat>, positions: seq<Position>, n: nat)
    requires n < |positions|
  {
    var p := positions[n];
    p.clip < |had| && p.window + 1 == had[p.clip] + CountOf(positions, n + 1, p.clip)
  }

  function CountOf(positions: seq<Position>, n: nat, c: nat): nat
    requires n <= |positions|
  {
    if n == 0 then 0 else CountOf(positions, n - 1, c) + if positions[n - 1].clip == c then 1 else 0
  }

  lemma {:induction false} ResultsCount(positions: seq<Position>, results: seq<Encoded>, n: nat, c: nat)
    requires n <= |positions| == |results|
    ensures |ResultsOf(positions, results, n, c)| == CountOf(positions, n, c)
  {
    if n > 0 {
      ResultsCount(positions, results, n - 1, c);
    }
  }

  ghost predicate DistinctSamples(samples: seq<ClipSample>) {
    forall c, d :: 0 <= c < d < |samples| ==> samples[c] != samples[d]
  }

  predicate AllPicked(windows: seq<Dict>, pick: Dict -> bool) {
    windows == [] || (AllPicked(windows[..|windows| - 1], pick) && pick(windows[|windows| - 1]))
  }

  /** Prompt n is the first caption field of the window at position n. */
  ghost predicate Prompted(clips: seq<seq<Dict>>, fields: seq<string>, positions: seq<Position>, prompts: seq<string>) {
    && |prompts| == |positions|
    && forall n :: 0 <= n < |positions| ==>
      && ValidPosition(clips, positions[n])
      && FindField(fields, At(clips, positions[n])).Some?
      && prompts[n] == FindField(fields, At(clips, positions[n])).value.1
  }

  lemma PromptedMeaning(samples: seq<ClipSample>, fields: seq<string>, positions: seq<Position>, prompts: seq<string>)
    requires Prompted(AllWindowsOf(samples), fields, positions, prompts)
    ensures |prompts| == |positions|
    ensures forall n :: 0 <= n < |positions| ==>
      && positions[n].clip < |samples| && positions[n].window < |samples[positions[n].clip].windows|
      && FindField(fields, samples[positions[n].clip].windows[positions[n].window]).Some?
      && prompts[n] == FindField(fields, samples[positions[n].clip].windows[positions[n].window]).value.1
  {
    hide FindField;
  }

  lemma {:induction false} AllPickedIff(windows: seq<Dict>, fields: seq<string>)
    ensures AllPicked(windows, HasField(fields)) <==>
            forall w :: 0 <= w < |windows| ==> FindField(fields, windows[w]).Some?
  {
    hide FindField;
    if windows != [] {
      AllPickedIff(windows[..|windows| - 1], fields);
    }
  }

  lemma PrefixMeaning(samples: seq<ClipSample>, fields: seq<string>)
    ensures (forall c :: 0 <= c < |samples| ==> PrefixOnly(AllWindowsOf(samples)[c], HasField(fields))) <==>
            forall c, v, w :: 0 <= c < |samples| && 0 <= v < w < |samples[c].windows|
                              && FindField(fields, samples[c].windows[w]).Some? ==>
              FindField(fields, samples[c].windows[v]).Some?
  {
    hide FindField;
    var clips, pick := AllWindowsOf(samples), HasField(fields);
    forall c | 0 <= c < |samples|
      ensures PrefixOnly(clips[c], pick) <==>
              forall v, w :: 0 <= v < w < |samples[c].windows| && FindField(fields, samples[c].windows[w]).Some? ==>
                FindField(fields, samples[c].windows[v]).Some?
    {
    }
    hide PrefixOnly;
  }

  lemma PromptedStep(clips: seq<seq<Dict>>, fields: seq<string>, positions: seq<Position>, prompts: seq<string>,
                     p: Position)
    requires Prompted(clips, fields, positions, prompts)
    requires ValidPosition(clips, p) && FindField(fields, At(clips, p)).Some?
    ensures Prompted(clips, fields, positions + [p], prompts + [FindField(fields, At(clips, p)).value.1])
  {
  }

  /** The windows of one clip; an uncaptioned window marks the clip invalid. */
  method CollectClip(clip: ClipSample, clipIdx: nat, fields: seq<string>, allPrompts: seq<string>,
                     mapping: seq<Position>,
                     ghost clips: seq<seq<Dict>>) returns (allPrompts': seq<string>, mapping': seq<Position>)
    requires Prompted(clips, fields, mapping, allPrompts)
    requires clipIdx < |clips| && clips[clipIdx] == clip.windows
    modifies clip`valid
    ensures Prompted(clips, fields, mapping', allPrompts')
    ensures mapping' == mapping + InClip(clip.windows, clipIdx, HasField(fields))
    ensures clip.valid == (old(clip.valid) && AllPicked(clip.windows, HasField(fields)))
  {
    hide Prompted;
    allPrompts', mapping' := allPrompts, mapping;
    for windowIdx := 0 to |clip.windows|
      invariant Prompted(clips, fields, mapping', allPrompts')
      invariant mapping' == mapping + InClip(clip.windows[..windowIdx], clipIdx, HasField(fields))
      invariant clip.valid == (old(clip.valid) && AllPicked(clip.windows[..windowIdx], HasField(fields)))
    {
      var window := clip.windows[windowIdx];
      assert clip.windows[..windowIdx + 1][..windowIdx] == clip.windows[..windowIdx];
      var p := Position(clipIdx, windowIdx);
      assert At(clips, p) == window;
      ghost var before := allPrompts';
      var found;
      allPrompts', found := AddPrompt(allPrompts', fields, window);
      if found.None? {
        clip.valid := false;
      } else {
        PromptedStep(clips, fields, mapping', before, p);
        mapping' := mapping' + [p];
      }
    }
    assert clip.windows[..|clip.windows|] == clip.windows;
  }

  /** Prompts of all captioned windows with their positions; a clip with an uncaptioned window is marked invalid. */
  method CollectPrompts(samples: seq<ClipSample>, fields: seq<string>)
      returns (allPrompts: seq<string>, mapping: seq<Position>)
    requires DistinctSamples(samples)
    modifies (set s | s in samples)`valid
    ensures mapping == Positions(AllWindowsOf(samples), HasField(fields))
    ensures Prompted(AllWindowsOf(samples), fields, mapping, allPrompts)
    ensures forall c :: 0 <= c < |samples| ==>
      samples[c].valid == (old(samples[c].valid) && AllPicked(samples[c].windows, HasField(fields)))
  {
    allPrompts, mapping := [], [];
    ghost var clips := AllWindowsOf(samples);
    assert Prompted(clips, fields, mapping, allPrompts);
    hide Prompted;
    for clipIdx := 0 to |samples|
      invariant mapping == Positions(clips[..clipIdx], HasField(fields))
      invariant Prompted(clips, fields, mapping, allPrompts)
      invariant forall c :: 0 <= c < clipIdx ==>
        samples[c].valid == (old(samples[c].valid) && AllPicked(samples[c].windows, HasField(fields)))
      invariant forall c :: clipIdx <= c < |samples| ==> samples[c].valid == old(samples[c].valid)
    {
      allPrompts, mapping := CollectClip(samples[clipIdx], clipIdx, fields, allPrompts, mapping, clips);
      assert clips[..clipIdx + 1][..clipIdx] == clips[..clipIdx];
    }
    assert clips[..|clips|] == clips;
  }

  /** Appends each result to its clip; raises at the first result that is out of step. */
  method AppendResults(samples: seq<ClipSample>, mapping: seq<Position>, results: seq<Encoded>, ghost had: seq<nat>)
      returns (error: Option<Error>)
    requires DistinctSamples(samples) && |results| == |mapping| && |had| == |samples|
    requires forall c :: 0 <= c < |samples| ==> had[c] == |samples[c].embeddings|
    requires forall p :: p in mapping ==> p.clip < |samples|
    modifies (set s | s in samples)`embeddings
    ensures error.None? <==> forall n :: 0 <= n < |mapping| ==> InStep(had, mapping, n)
    ensures error.Some? ==> error.value == AssertionError
    ensures error.None? ==> forall c :: 0 <= c < |samples| ==>
      samples[c].embeddings == old(samples[c].embeddings) + ResultsOf(mapping, results, |results|, c)
  {
    hide InStep;
    hide ResultsOf;
    NoResults(mapping, results);
    for n := 0 to |results|
      invariant forall c :: 0 <= c < |samples| ==>
        samples[c].embeddings == old(samples[c].embeddings) + ResultsOf(mapping, results, n, c)
      invariant forall m :: 0 <= m < n ==> InStep(had, mapping, m)
    {
      var p := mapping[n];
      assert p in mapping;
      var clip := samples[p.clip];
      clip.embeddings := clip.embeddings + [results[n]];
      OneMoreResult(mapping, results, n);
      InStepMeaning(had, mapping, results, n);
      if p.window + 1 != |clip.embeddings| {
        return Some(AssertionError);
      }
    }
    return None;
  }

  lemma NoResults(mapping: seq<Position>, results: seq<Encoded>)
    requires |results| == |mapping|
    ensures forall c :: ResultsOf(mapping, results, 0, c) == []
  {
  }

  lemma OneMoreResult(mapping: seq<Position>, results: seq<Encoded>, n: nat)
    requires n < |results| == |mapping|
    ensures forall c :: ResultsOf(mapping, results, n + 1, c) ==
                        ResultsOf(mapping, results, n, c) + if mapping[n].clip == c then [results[n]] else []
  {
  }

  lemma InStepMeaning(had: seq<nat>, mapping: seq<Position>, results: seq<Encoded>, n: nat)
    requires n < |results| == |mapping| && mapping[n].clip < |had|
    ensures InStep(had, mapping, n) <==>
            mapping[n].window + 1 == had[mapping[n].clip] + |ResultsOf(mapping, results, n + 1, mapping[n].clip)|
  {
    ResultsCount(mapping, results, n + 1, mapping[n].clip);
  }

  /** T5Encoder.encode: one embedding per prompt. */
  method Encode(prompts: seq<string>) returns (results: seq<Encoded>)
    ensures |results| == |prompts|
  {
    results := [];
    for i := 0 to |prompts|
      invariant |results| == i
    {
      var encoded: Encoded := *;
      results := results + [encoded];
    }
  }

  /**
   One task of samples without embeddings: it raises exactly when some clip has a captioned window
   after an uncaptioned one; otherwise embedding w of a clip is the result for its window w.
   */
  method ProcessTask(samples: seq<ClipSample>, fields: seq<string>)
      returns (error: Option<Error>, allPrompts: seq<string>, mapping: seq<Position>, results: seq<Encoded>)
    requires DistinctSamples(samples)
    requires forall s :: s in samples ==> s.embeddings == []
    modifies (set s | s in samples)
    ensures mapping == Positions(AllWindowsOf(samples), HasField(fields)) && |results| == |mapping|
    ensures |allPrompts| == |mapping|
    ensures forall n :: 0 <= n < |mapping| ==>
      && mapping[n].clip < |samples| && mapping[n].window < |samples[mapping[n].clip].windows|
      && FindField(fields, samples[mapping[n].clip].windows[mapping[n].window]).Some?
      && allPrompts[n] == FindField(fields, samples[mapping[n].clip].windows[mapping[n].window]).value.1
    ensures error.None? <==>
      forall c, v, w :: 0 <= c < |samples| && 0 <= v < w < |samples[c].windows|
                        && FindField(fields, samples[c].windows[w]).Some? ==>
        FindField(fields, samples[c].windows[v]).Some?
    ensures error.Some? ==> error.value == AssertionError
    ensures forall c :: 0 <= c < |samples| ==>
      samples[c].valid ==
        (old(samples[c].valid)
         && forall w :: 0 <= w < |samples[c].windows| ==> FindField(fields, samples[c].windows[w]).Some?)
    ensures error.None? ==> forall n :: 0 <= n < |mapping| ==>
      var p := mapping[n];
      && p.clip < |samples| && p.window < |samples[p.clip].embeddings|
      && samples[p.clip].embeddings[p.window] == results[n]
    ensures error.None? ==> forall c :: 0 <= c < |samples| ==>
      |samples[c].embeddings| == Picked(samples[c].windows, HasField(fields), |samples[c].windows|)
  {
    error, allPrompts, mapping, results := EmbedWindows(samples, fields);
    hide FindField;
    hide Positions;
    hide Picked;
    PromptedMeaning(samples, fields, mapping, allPrompts);
    hide Prompted;
    PrefixMeaning(samples, fields);
    hide PrefixOnly;
    forall c | 0 <= c < |samples|
      ensures AllPicked(samples[c].windows, HasField(fields)) <==>
              forall w :: 0 <= w < |samples[c].windows| ==> FindField(fields, samples[c].windows[w]).Some?
    {
      AllPickedIff(samples[c].windows, fields);
    }
    hide AllPicked;
  }

  /** The three steps of a task: collect the prompts, encode them, and append the results. */
  method EmbedWindows(samples: seq<ClipSample>, fields: seq<string>)
      returns (error: Option<Error>, allPrompts: seq<string>, mapping: seq<Position>, results: seq<Encoded>)
    requires DistinctSamples(samples)
    requires forall s :: s in samples ==> s.embeddings == []
    modifies (set s | s in samples)
    ensures mapping == Positions(AllWindowsOf(samples), HasField(fields)) && |results| == |mapping|
    ensures Prompted(AllWindowsOf(samples), fields, mapping, allPrompts)
    ensures error.None? <==> forall c :: 0 <= c < |samples| ==> PrefixOnly(AllWindowsOf(samples)[c], HasField(fields))
    ensures error.Some? ==> error.value == AssertionError
    ensures forall c :: 0 <= c < |samples| ==>
      samples[c].valid == (old(samples[c].valid) && AllPicked(samples[c].windows, HasField(fields)))
    ensures error.None? ==> forall n :: 0 <= n < |mapping| ==>
      var p := mapping[n];
      && p.clip < |samples| && p.window < |samples[p.clip].embeddings|
      && samples[p.clip].embeddings[p.window] == results[n]
    ensures error.None? ==> forall c :: 0 <= c < |samples| ==>
      |samples[c].embeddings| == Picked(samples[c].windows, HasField(fields), |samples[c].windows|)
  {
    hide Positions;
    hide PrefixOnly;
    hide InStep;
    hide ResultsOf;
    hide Prompted;
    hide Picked;
    hide CountOf;
    hide AllPicked;
    hide FindField;
    var pick := HasField(fields);
    ghost var clips := AllWindowsOf(samples);
    allPrompts, mapping := CollectPrompts(samples, fields);
    results := Encode(allPrompts);
    PromptedMeaning(samples, fields, mapping, allPrompts);
    PositionFacts(clips, pick);
    ghost var had: seq<nat> := seq(|samples|, _ => 0);
    assert forall c :: 0 <= c < |samples| ==> samples[c] in samples;
    error := AppendResults(samples, mapping, results, had);
    InStepIffPrefix(clips, pick, had);
    if error.None? {
      ResultsAtWindows(mapping, results, had);
      forall c | 0 <= c < |samples|
        ensures |samples[c].embeddings| == Picked(samples[c].windows, pick, |samples[c].windows|)
      {
        ResultsCount(mapping, results, |results|, c);
        ClipCount(clips, pick, c);
      }
    }
  }

  // ----- when the assertion holds -----

  /** No picked window comes after one that is not. */
  ghost predicate PrefixOnly(windows: seq<Dict>, pick: Dict -> bool) {
    forall v, w :: 0 <= v < w < |windows| && pick(windows[w]) ==> pick(windows[v])
  }

  /** An uncaptioned window in front of a captioned one: a clip for which the stage raises. */
  lemma GapRaises(field: string, other: string, a: string, b: string)
    requires other != field
    ensures !PrefixOnly([[(other, a)], [(field, b)]], HasField([field]))
  {
    var without, with, pick := [(other, a)], [(field, b)], HasField([field]);
    assert Get(without, field) == Get(without[1..], field) == None;
    assert [field][1..] == [] && FindField([field], without) == FindField([], without) == None;
    assert [without, with][1] == with && pick(with) && !pick([without, with][0]);
  }

  /** How many of the first k windows are picked. */
  function Picked(windows: seq<Dict>, pick: Dict -> bool, k: nat): nat
    requires k <= |windows|
  {
    if k == 0 then 0 else Picked(windows, pick, k - 1) + if pick(windows[k - 1]) then 1 else 0
  }

  lemma {:induction false} PickedAll(windows: seq<Dict>, pick: Dict -> bool, k: nat)
    requires k <= |windows|
    ensures Picked(windows, pick, k) <= k
    ensures Picked(windows, pick, k) == k <==> forall v :: 0 <= v < k ==> pick(windows[v])
  {
    if k > 0 {
      PickedAll(windows, pick, k - 1);
    }
  }

  lemma {:induction false} PickedPrefix(windows: seq<Dict>, pick: Dict -> bool, k: nat, n: nat)
    requires k <= n <= |windows|
    ensures Picked(windows[..n], pick, k) == Picked(windows, pick, k)
  {
    if k > 0 {
      PickedPrefix(windows, pick, k - 1, n);
    }
  }

  /** Entry k of a clip's positions is its (k+1)-th picked window. */
  lemma {:induction false} InClipRank(windows: seq<Dict>, c: nat, pick: Dict -> bool)
    ensures |InClip(windows, c, pick)| == Picked(windows, pick, |windows|)
    ensures forall k :: 0 <= k < |InClip(windows, c, pick)| ==>
      var p := InClip(windows, c, pick)[k];
      p.clip == c && p.window < |windows| && Picked(windows, pick, p.window + 1) == k + 1
  {
    if windows != [] {
      var init, n := windows[..|windows| - 1], |windows| - 1;
      var before, all := InClip(init, c, pick), InClip(windows, c, pick);
      InClipRank(init, c, pick);
      PickedPrefix(windows, pick, n, n);
      assert Picked(windows, pick, n + 1) == |before| + if pick(windows[n]) then 1 else 0;
      assert all == before + if pick(windows[n]) then [Position(c, n)] else [];
      hide InClip;
      forall k | 0 <= k < |all|
        ensures all[k].clip == c && all[k].window < |windows| && Picked(windows, pick, all[k].window + 1) == k + 1
      {
        if k < |before| {
          PickedPrefix(windows, pick, before[k].window + 1, n);
        }
      }
    }
  }

  lemma {:induction false} CountConcat(a: seq<Position>, b: seq<Position>, n: nat, c: nat)
    requires n <= |b|
    ensures CountOf(a + b, |a| + n, c) == CountOf(a, |a|, c) + CountOf(b, n, c)
  {
    if n > 0 {
      CountConcat(a, b, n - 1, c);
    } else {
      CountPrefix(a, b, |a|, c);
    }
  }

  lemma {:induction false} CountPrefix(a: seq<Position>, b: seq<Position>, n: nat, c: nat)
    requires n <= |a|
    ensures CountOf(a + b, n, c) == CountOf(a, n, c)
  {
    if n > 0 {
      CountPrefix(a, b, n - 1, c);
    }
  }

  /** Positions of one clip only, or of other clips only. */
  lemma {:induction false} CountUniform(positions: seq<Position>, n: nat, c: nat)
    requires n <= |positions|
    ensures (forall p :: p in positions ==> p.clip == c) ==> CountOf(positions, n, c) == n
    ensures (forall p :: p in positions ==> p.clip != c) ==> CountOf(positions, n, c) == 0
  {
    if n > 0 {
      CountUniform(positions, n - 1, c);
    }
  }

  /** The results counted for a clip up to its window w are those of its captioned windows up to w. */
  lemma {:induction false} PositionRank(clips: seq<seq<Dict>>, pick: Dict -> bool, n: nat)
    requires n < |Positions(clips, pick)|
    ensures var p := Positions(clips, pick)[n];
            && ValidPosition(clips, p)
            && CountOf(Positions(clips, pick), n + 1, p.clip) == Picked(clips[p.clip], pick, p.window + 1)
  {
    var init, c := clips[..|clips| - 1], |clips| - 1;
    var before, last := Positions(init, pick), InClip(clips[c], c, pick);
    assert Positions(clips, pick) == before + last;
    if n < |before| {
      PositionRank(init, pick, n);
      assert (before + last)[n] == before[n];
      hide Positions;
      CountPrefix(before, last, n + 1, before[n].clip);
    } else {
      LastPositionRank(clips, pick, n - |before|);
    }
  }

  lemma LastPositionRank(clips: seq<seq<Dict>>, pick: Dict -> bool, k: nat)
    requires clips != [] && k < |InClip(clips[|clips| - 1], |clips| - 1, pick)|
    ensures var before := Positions(clips[..|clips| - 1], pick);
            var p := InClip(clips[|clips| - 1], |clips| - 1, pick)[k];
            && ValidPosition(clips, p) && p.clip == |clips| - 1
            && CountOf(before + InClip(clips[p.clip], p.clip, pick), |before| + k + 1, p.clip)
               == Picked(clips[p.clip], pick, p.window + 1)
  {
    var init, c := clips[..|clips| - 1], |clips| - 1;
    var before, last := Positions(init, pick), InClip(clips[c], c, pick);
    InClipRank(clips[c], c, pick);
    PositionFacts(init, pick);
    hide Positions;
    hide InClip;
    CountConcat(before, last, k + 1, c);
    CountUniform(before, |before|, c);
    CountUniform(last, k + 1, c);
  }

  /** A clip has as many results as captioned windows. */
  lemma {:induction false} ClipCount(clips: seq<seq<Dict>>, pick: Dict -> bool, c: nat)
    requires c < |clips|
    ensures CountOf(Positions(clips, pick), |Positions(clips, pick)|, c) == Picked(clips[c], pick, |clips[c]|)
  {
    var init, l := clips[..|clips| - 1], |clips| - 1;
    var before, last := Positions(init, pick), InClip(clips[l], l, pick);
    assert Positions(clips, pick) == before + last;
    if c < l {
      ClipCount(init, pick, c);
      assert init[c] == clips[c];
    } else {
      PositionFacts(init, pick);
      CountUniform(before, |before|, c);
    }
    InClipRank(clips[l], l, pick);
    hide Positions;
    hide InClip;
    CountUniform(last, |last|, c);
    hide CountOf;
    CountConcat(before, last, |last|, c);
  }

  /**
   Starting without embeddings, every result is in step if and only if in each clip the captioned
   windows come first.
   */
  lemma InStepIffPrefix(clips: seq<seq<Dict>>, pick: Dict -> bool, had: seq<nat>)
    requires |had| == |clips| && forall c :: 0 <= c < |clips| ==> had[c] == 0
    ensures (forall n :: 0 <= n < |Positions(clips, pick)| ==> InStep(had, Positions(clips, pick), n))
            <==> (forall c :: 0 <= c < |clips| ==> PrefixOnly(clips[c], pick))
  {
    var positions := Positions(clips, pick);
    PositionFacts(clips, pick);
    forall n | 0 <= n < |positions|
      ensures var p := positions[n];
              && p.clip < |clips| && p.window < |clips[p.clip]|
              && (InStep(had, positions, n) <==> forall v :: 0 <= v < p.window + 1 ==> pick(clips[p.clip][v]))
    {
      PositionRank(clips, pick, n);
      PickedAll(clips[positions[n].clip], pick, positions[n].window + 1);
    }
    hide InStep;
    hide Positions;
    if forall n :: 0 <= n < |positions| ==> InStep(had, positions, n) {
      forall c, v, w | 0 <= c < |clips| && 0 <= v < w < |clips[c]| && pick(clips[c][w])
        ensures pick(clips[c][v])
      {
        assert Position(c, w) in positions;
        var n :| 0 <= n < |positions| && positions[n] == Position(c, w);
        assert InStep(had, positions, n);
      }
    } else {
      var n :| 0 <= n < |positions| && !InStep(had, positions, n);
      var p := positions[n];
      assert p in positions;
      var v :| 0 <= v < p.window + 1 && !pick(clips[p.clip][v]);
      assert pick(clips[p.clip][p.window]) && v < p.window;
      assert p.clip < |clips| && !PrefixOnly(clips[p.clip], pick);
    }
  }

  lemma {:induction false} ResultsGrow(positions: seq<Position>, results: seq<Encoded>, n: nat, m: nat, c: nat)
    requires n <= m <= |positions| == |results|
    ensures ResultsOf(positions, results, n, c) <= ResultsOf(positions, results, m, c)
  {
    if n < m {
      ResultsGrow(positions, results, n, m - 1, c);
    }
  }

  /** A result in step stands at its own window. */
  lemma ResultAtWindow(positions: seq<Position>, results: seq<Encoded>, n: nat, m: nat)
    requires n < m <= |positions| == |results|
    requires positions[n].window + 1 == CountOf(positions, n + 1, positions[n].clip)
    ensures var p := positions[n];
            && p.window < |ResultsOf(positions, results, m, p.clip)|
            && ResultsOf(positions, results, m, p.clip)[p.window] == results[n]
  {
    var c := positions[n].clip;
    ResultsCount(positions, results, n + 1, c);
    ResultsGrow(positions, results, n + 1, m, c);
  }

  lemma ResultsAtWindows(positions: seq<Position>, results: seq<Encoded>, had: seq<nat>)
    requires |positions| == |results|
    requires forall c :: 0 <= c < |had| ==> had[c] == 0
    requires forall n :: 0 <= n < |positions| ==> InStep(had, positions, n)
    ensures forall n :: 0 <= n < |positions| ==>
      var p := positions[n];
      && p.clip < |had| && p.window < |ResultsOf(positions, results, |results|, p.clip)|
      && ResultsOf(positions, results, |results|, p.clip)[p.window] == results[n]
  {
    hide ResultsOf;
    hide CountOf;
    forall n | 0 <= n < |positions|
      ensures var p := positions[n];
              && p.clip < |had| && p.window < |ResultsOf(positions, results, |results|, p.clip)|
              && ResultsOf(positions, results, |results|, p.clip)[p.window] == results[n]
    {
      assert InStep(had, positions, n);
      ResultAtWindow(positions, results, n, |results|);
    }
  }
}
