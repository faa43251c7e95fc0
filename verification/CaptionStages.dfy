/**
 cosmos_curate/pipelines/examples/example_captioning_stages.py: windows are flattened into one
 list of prompts and the results are written back through index maps.
 */
module CaptionStages {
  import opened Wrappers

  /** A dictionary of captions in insertion order. */
  type Dict = seq<(string, string)>

  class Window {
    const caption: Option<Dict>
    var enhancedCaption: map<string, string>

    constructor (caption: Option<Dict>)
      ensures this.caption == caption && enhancedCaption == map[]
    {
      this.caption := caption;
      enhancedCaption := map[];
    }
  }

  // ----- positions of the windows that have a prompt -----

  datatype Position = Position(clip: nat, window: nat)

  /** The windows of clip c that are picked, by window index. */
  function InClip<W>(windows: seq<W>, c: nat, pick: W -> bool): seq<Position> {
    if windows == [] then []
    else
      InClip(windows[..|windows| - 1], c, pick) +
      if pick(windows[|windows| - 1]) then [Position(c, |windows| - 1)] else []
  }

  /** The picked windows of all clips, in scanning order. */
  function Positions<W>(clips: seq<seq<W>>, pick: W -> bool): seq<Position> {
    if clips == [] then []
    else Positions(clips[..|clips| - 1], pick) + InClip(clips[|clips| - 1], |clips| - 1, pick)
  }

  predicate ValidPosition<W>(clips: seq<seq<W>>, p: Position) {
    p.clip < |clips| && p.window < |clips[p.clip]|
  }

  function At<W>(clips: seq<seq<W>>, p: Position): W
    requires ValidPosition(clips, p)
  {
    clips[p.clip][p.window]
  }

  lemma {:induction false} InClipFacts<W>(windows: seq<W>, c: nat, pick: W -> bool)
    ensures forall p :: p in InClip(windows, c, pick) <==>
                        p.clip == c && p.window < |windows| && pick(windows[p.window])
    ensures forall j, k :: 0 <= j < k < |InClip(windows, c, pick)| ==>
      InClip(windows, c, pick)[j].window < InClip(windows, c, pick)[k].window
  {
    if windows != [] {
      InClipFacts(windows[..|windows| - 1], c, pick);
    }
  }

  /** Exactly the picked windows, each once. */
  lemma {:induction false} PositionFacts<W>(clips: seq<seq<W>>, pick: W -> bool)
    ensures forall p :: p in Positions(clips, pick) <==> ValidPosition(clips, p) && pick(At(clips, p))
    ensures forall j, k :: 0 <= j < k < |Positions(clips, pick)| ==>
      Positions(clips, pick)[j] != Positions(clips, pick)[k]
  {
    if clips != [] {
      PositionFacts(clips[..|clips| - 1], pick);
      InClipFacts(clips[|clips| - 1], |clips| - 1, pick);
      var init, last := Positions(clips[..|clips| - 1], pick), InClip(clips[|clips| - 1], |clips| - 1, pick);
      forall j, k | 0 <= j < |init| && 0 <= k < |last|
        ensures init[j] != last[k]
      {
        assert init[j] in init && last[k] in last;
      }
    }
  }

  /** Positions come clip by clip, and window by window within a clip. */
  lemma {:induction false} PositionsInOrder<W>(clips: seq<seq<W>>, pick: W -> bool, j: nat, k: nat)
    requires j < k < |Positions(clips, pick)|
    ensures var p, q := Positions(clips, pick)[j], Positions(clips, pick)[k];
            p.clip < q.clip || (p.clip == q.clip && p.window < q.window)
  {
    var init, c := clips[..|clips| - 1], |clips| - 1;
    var before, last := Positions(init, pick), InClip(clips[c], c, pick);
    InClipFacts(clips[c], c, pick);
    PositionFacts(init, pick);
    hide InClip;
    if k < |before| {
      PositionsInOrder(init, pick, j, k);
    } else {
      assert Positions(clips, pick)[k] in last;
      if j < |before| {
        assert Positions(clips, pick)[j] in before;
      }
    }
  }

  /** All windows of a task are objects of their own. */
  ghost predicate AllDistinct(clips: seq<seq<Window>>) {
    forall p, q ::
      ValidPosition(clips, p) && ValidPosition(clips, q) && p != q ==> At(clips, p) != At(clips, q)
  }

  ghost function AllWindows(clips: seq<seq<Window>>): set<Window> {
    set c, w | 0 <= c < |clips| && 0 <= w < |clips[c]| :: clips[c][w]
  }

  // ----- EnhanceCaptionStage -----

  /** The first caption of a window, if it has any. */
  function FirstCaption(w: Window): Option<string> {
    if w.caption.Some? && w.caption.value != [] then Some(w.caption.value[0].1) else None
  }

  predicate HasCaption(w: Window) {
    FirstCaption(w).Some?
  }

  /** A window has a caption if its dictionary has an entry, and then it is the value of the first one. */
  lemma FirstCaptionMeaning(w: Window)
    ensures HasCaption(w) <==> w.caption.Some? && w.caption.value != []
    ensures HasCaption(w) ==> FirstCaption(w) == Some(w.caption.value[0].1)
  {
  }

  /**
   The inputs with their index map. A window whose dictionary is empty leaves an entry behind at
   an index that is not used up, so the map may hold one entry too many.
   */
  method CollectCaptions(clips: seq<seq<Window>>) returns (inputs: seq<string>, mapping: map<nat, Position>)
    ensures var positions := Positions(clips, HasCaption);
            && |inputs| == |positions|
            && forall k :: 0 <= k < |positions| ==>
              && k in mapping && mapping[k] == positions[k]
              && ValidPosition(clips, positions[k]) && Some(inputs[k]) == FirstCaption(At(clips, positions[k]))
  {
    inputs, mapping := [], map[];
    var idx := 0;
    ghost var done: seq<Position> := [];
    assert Collected(clips, done, inputs, mapping);
    hide Collected;
    for clipIdx := 0 to |clips|
      invariant done == Positions(clips[..clipIdx], HasCaption)
      invariant Collected(clips, done, inputs, mapping) && idx == |done|
    {
      var windows := clips[clipIdx];
      ghost var before := done;
      for windowIdx := 0 to |windows|
        invariant done == before + InClip(windows[..windowIdx], clipIdx, HasCaption)
        invariant Collected(clips, done, inputs, mapping) && idx == |done|
      {
        var window := windows[windowIdx];
        assert windows[..windowIdx + 1][..windowIdx] == windows[..windowIdx];
        if window.caption.Some? {
          var p := Position(clipIdx, windowIdx);
          assert At(clips, p) == window;
          CollectedStep(clips, done, inputs, mapping, p);
          mapping := mapping[idx := p];
          var caption := FirstCaption(window);
          if caption.Some? {
            inputs, idx := inputs + [caption.value], idx + 1;
            done := done + [p];
          }
        }
      }
      assert windows[..|windows|] == windows;
      assert clips[..clipIdx + 1][..clipIdx] == clips[..clipIdx];
    }
    assert clips[..|clips|] == clips;
    CollectedFacts(clips, done, inputs, mapping);
  }

  lemma CollectedFacts(clips: seq<seq<Window>>, done: seq<Position>, inputs: seq<string>, mapping: map<nat, Position>)
    requires Collected(clips, done, inputs, mapping)
    ensures |inputs| == |done|
    ensures forall k :: 0 <= k < |done| ==>
      && k in mapping && mapping[k] == done[k]
      && ValidPosition(clips, done[k]) && Some(inputs[k]) == FirstCaption(At(clips, done[k]))
  {
  }

  /** An entry at the next index hurts nothing, and counts once the window has a caption. */
  lemma CollectedStep(
      clips: seq<seq<Window>>, done: seq<Position>, inputs: seq<string>, mapping: map<nat, Position>, p: Position)
    requires Collected(clips, done, inputs, mapping) && ValidPosition(clips, p)
    ensures Collected(clips, done, inputs, mapping[|done| := p])
    ensures var caption := FirstCaption(At(clips, p));
            caption.Some? ==> Collected(clips, done + [p], inputs + [caption.value], mapping[|done| := p])
  {
    hide FirstCaption;
  }

  ghost predicate Collected(clips: seq<seq<Window>>, done: seq<Position>, inputs: seq<string>,
                            mapping: map<nat, Position>) {
    && |inputs| == |done|
    && forall k :: 0 <= k < |done| ==>
      && k in mapping && mapping[k] == done[k]
      && ValidPosition(clips, done[k]) && Some(inputs[k]) == FirstCaption(At(clips, done[k]))
  }

  /** ChatLM.generate: one text per input. */
  method Generate(inputs: seq<string>) returns (texts: seq<string>)
    ensures |texts| == |inputs|
  {
    texts := [];
    for i := 0 to |inputs|
      invariant |texts| == i
    {
      var text: string := *;
      texts := texts + [text];
    }
  }

  /** Text k goes to the window that input k came from; all other windows keep theirs. */
  method EnhanceCaptions(clips: seq<seq<Window>>, enhancedKey: string) returns (inputs: seq<string>, texts: seq<string>)
    requires AllDistinct(clips)
    modifies AllWindows(clips)
    ensures |inputs| == |texts| == |Positions(clips, HasCaption)|
    ensures forall k :: 0 <= k < |texts| ==>
      var p := Positions(clips, HasCaption)[k];
      && ValidPosition(clips, p) && Some(inputs[k]) == FirstCaption(At(clips, p))
      && At(clips, p).enhancedCaption == old(At(clips, p).enhancedCaption)[enhancedKey := texts[k]]
    ensures forall p :: ValidPosition(clips, p) && (At(clips, p).caption.None? || At(clips, p).caption.value == []) ==>
      At(clips, p).enhancedCaption == old(At(clips, p).enhancedCaption)
    ensures forall k :: 0 <= k < |texts| ==>
      var w := At(clips, Positions(clips, HasCaption)[k]);
      w.caption.Some? && w.caption.value != [] && inputs[k] == w.caption.value[0].1
    ensures forall p :: p in Positions(clips, HasCaption) <==>
                        ValidPosition(clips, p) && At(clips, p).caption.Some? && At(clips, p).caption.value != []
  {
    var mapping;
    inputs, mapping := CollectCaptions(clips);
    PositionFacts(clips, HasCaption);
    ghost var targets := Targets(clips, HasCaption);
    TargetFacts(clips, HasCaption);
    forall w: Window
      ensures HasCaption(w) <==> w.caption.Some? && w.caption.value != []
      ensures HasCaption(w) ==> FirstCaption(w) == Some(w.caption.value[0].1)
    {
      FirstCaptionMeaning(w);
    }
    hide FirstCaption;
    hide HasCaption;
    texts := [];
    if inputs != [] {
      texts := Generate(inputs);
      WriteEnhanced(clips, mapping, texts, enhancedKey, targets);
    }
  }

  /** The objects that the results are written to. */
  ghost function Targets(clips: seq<seq<Window>>, pick: Window -> bool): seq<Window> {
    PositionFacts(clips, pick);
    seq(|Positions(clips, pick)|, k requires 0 <= k < |Positions(clips, pick)| =>
      assert Positions(clips, pick)[k] in Positions(clips, pick);
      At(clips, Positions(clips, pick)[k]))
  }

  lemma TargetFacts(clips: seq<seq<Window>>, pick: Window -> bool)
    requires AllDistinct(clips)
    ensures forall w :: w in Targets(clips, pick) ==> w in AllWindows(clips)
    ensures forall j, k :: 0 <= j < k < |Targets(clips, pick)| ==> Targets(clips, pick)[j] != Targets(clips, pick)[k]
    ensures forall p :: ValidPosition(clips, p) && !pick(At(clips, p)) ==> At(clips, p) !in Targets(clips, pick)
  {
    PositionFacts(clips, pick);
    var positions, targets := Positions(clips, pick), Targets(clips, pick);
    forall k | 0 <= k < |targets|
      ensures ValidPosition(clips, positions[k]) && pick(targets[k]) && targets[k] == At(clips, positions[k])
    {
      assert positions[k] in positions;
    }
  }

  method WriteEnhanced(clips: seq<seq<Window>>, mapping: map<nat, Position>, texts: seq<string>, enhancedKey: string,
                       ghost targets: seq<Window>)
    requires |texts| == |targets|
    requires forall j, k :: 0 <= j < k < |targets| ==> targets[j] != targets[k]
    requires forall k :: 0 <= k < |texts| ==>
      k in mapping && ValidPosition(clips, mapping[k]) && At(clips, mapping[k]) == targets[k]
    modifies (set w | w in targets)`enhancedCaption
    ensures forall k :: 0 <= k < |texts| ==>
      targets[k].enhancedCaption == old(targets[k].enhancedCaption)[enhancedKey := texts[k]]
  {
    for idx := 0 to |texts|
      invariant forall k :: 0 <= k < idx ==>
        targets[k].enhancedCaption == old(targets[k].enhancedCaption)[enhancedKey := texts[k]]
      invariant forall k :: idx <= k < |texts| ==> targets[k].enhancedCaption == old(targets[k].enhancedCaption)
    {
      var p := mapping[idx];
      var window := clips[p.clip][p.window];
      assert window == targets[idx];
      window.enhancedCaption := window.enhancedCaption[enhancedKey := texts[idx]];
    }
  }
}
