/** cosmos_curate/pipelines/video/sharding_pipeline.py: packing samples into tars and parts. */
module Sharding {
  import opened Wrappers
  import Grouping

  datatype Sample = Sample(uuid: nat, width: int, height: int, numFrames: int, framerate: Option<real>, numBytes: int)

  // ----- bins -----

  /** The bin of a sample; `find` is find_appropriate_bin on width, height and duration. */
  function BinOf<B>(find: (int, int, real) -> Option<B>, s: Sample): Option<B> {
    if s.framerate.Some? && s.framerate.value > 0.0
    then find(s.width, s.height, s.numFrames as real / s.framerate.value)
    else None
  }

  /** The samples of one bin, in input order. */
  function InBin<B(==)>(find: (int, int, real) -> Option<B>, samples: seq<Sample>, bin: Option<B>): seq<Sample> {
    if samples == [] then []
    else
      var last := samples[|samples| - 1];
      InBin(find, samples[..|samples| - 1], bin) + if BinOf(find, last) == bin then [last] else []
  }

  /** The bins that occur, in the order in which their first samples occur. */
  function BinsInOrder<B(==)>(find: (int, int, real) -> Option<B>, samples: seq<Sample>): seq<Option<B>> {
    if samples == [] then []
    else
      var earlier := BinsInOrder(find, samples[..|samples| - 1]);
      var bin := BinOf(find, samples[|samples| - 1]);
      if bin in earlier then earlier else earlier + [bin]
  }

  ghost predicate NoDuplicates<T>(s: seq<T>) {
    forall i, j :: 0 <= i < j < |s| ==> s[i] != s[j]
  }

  lemma {:induction false} BinsInOrderFacts<B>(find: (int, int, real) -> Option<B>, samples: seq<Sample>)
    ensures NoDuplicates(BinsInOrder(find, samples))
    ensures forall bin :: bin in BinsInOrder(find, samples) <==> InBin(find, samples, bin) != []
  {
    if samples != [] {
      BinsInOrderFacts(find, samples[..|samples| - 1]);
    }
  }

  /** A dictionary of lists (with its insertion order) built by appending each sample to its bin. */
  method GroupSamplesByBin<B(==)>(find: (int, int, real) -> Option<B>, samples: seq<Sample>)
      returns (out: map<Option<B>, seq<Sample>>, order: seq<Option<B>>)
    ensures order == BinsInOrder(find, samples)
    ensures forall bin :: bin in out <==> bin in order
    ensures forall bin :: bin in out ==> out[bin] == InBin(find, samples, bin)
  {
    out, order := map[], [];
    for i := 0 to |samples|
      invariant order == BinsInOrder(find, samples[..i])
      invariant forall bin :: bin in out <==> bin in order
      invariant forall bin :: bin in out ==> out[bin] == InBin(find, samples[..i], bin)
    {
      assert samples[..i + 1][..i] == samples[..i];
      BinsInOrderFacts(find, samples[..i]);
      var lbin := BinOf(find, samples[i]);
      if lbin !in out {
        out, order := out[lbin := []], order + [lbin];
      }
      out := out[lbin := out[lbin] + [samples[i]]];
    }
    assert samples[..|samples|] == samples;
  }

  /**
   The bin is found by width, height and duration, the duration being frames over a positive rate;
   else there is none.
   */
  lemma BinOfMeaning<B>(find: (int, int, real) -> Option<B>, s: Sample, duration: real)
    ensures s.framerate.None? || s.framerate.value <= 0.0 ==> BinOf(find, s) == None
    ensures s.framerate.Some? && s.framerate.value > 0.0 && duration * s.framerate.value == s.numFrames as real ==>
      BinOf(find, s) == find(s.width, s.height, duration)
  {
    if s.framerate.Some? && s.framerate.value > 0.0 && duration * s.framerate.value == s.numFrames as real {
      assert s.numFrames as real / s.framerate.value == duration;
    }
  }

  lemma InBinAppend<B>(find: (int, int, real) -> Option<B>, samples: seq<Sample>, s: Sample, bin: Option<B>)
    ensures InBin(find, samples + [s], bin) == InBin(find, samples, bin) + if BinOf(find, s) == bin then [s] else []
  {
    assert (samples + [s])[..|samples|] == samples;
  }

  /** The samples of a bin are fixed by these two: one sample is in its own bin only, and parts add up in order. */
  lemma InBinOfOne<B>(find: (int, int, real) -> Option<B>, s: Sample, bin: Option<B>)
    ensures InBin(find, [], bin) == []
    ensures InBin(find, [s], bin) == if BinOf(find, s) == bin then [s] else []
  {
    assert [s][..0] == [];
  }

  lemma {:induction false} InBinOfParts<B>(
      find: (int, int, real) -> Option<B>, a: seq<Sample>, b: seq<Sample>, bin: Option<B>)
    ensures InBin(find, a + b, bin) == InBin(find, a, bin) + InBin(find, b, bin)
  {
    if b == [] {
      assert a + b == a;
    } else {
      var init, last := b[..|b| - 1], b[|b| - 1];
      InBinOfParts(find, a, init, bin);
      InBinAppend(find, a + init, last, bin);
      InBinAppend(find, init, last, bin);
      hide InBin;
      var extra := if BinOf(find, last) == bin then [last] else [];
      hide BinOf;
      assert b == init + [last] && a + b == a + init + [last];
      assert InBin(find, a, bin) + InBin(find, init, bin) + extra
          == InBin(find, a, bin) + (InBin(find, init, bin) + extra);
    }
  }

  /** Each bin listed is that of a sample before which neither it nor any later listed bin occurs. */
  lemma {:induction false} BinsByFirstSample<B>(
      find: (int, int, real) -> Option<B>, samples: seq<Sample>, k: nat) returns (first: nat)
    requires k < |BinsInOrder(find, samples)|
    ensures first < |samples| && BinOf(find, samples[first]) == BinsInOrder(find, samples)[k]
    ensures forall m, j :: 0 <= m < first && k <= j < |BinsInOrder(find, samples)| ==>
      BinOf(find, samples[m]) != BinsInOrder(find, samples)[j]
  {
    hide BinOf;
    var init, n := samples[..|samples| - 1], |samples| - 1;
    var earlier := BinsInOrder(find, init);
    if k < |earlier| {
      first := BinsByFirstSample(find, init, k);
      assert forall m :: 0 <= m < first ==> BinOf(find, samples[m]) == BinOf(find, init[m]);
      forall m | 0 <= m < first
        ensures BinOf(find, samples[m]) in earlier
      {
        BinIsListed(find, init, m);
      }
    } else {
      first := n;
      forall m | 0 <= m < first
        ensures BinOf(find, samples[m]) in earlier
      {
        BinIsListed(find, init, m);
        assert init[m] == samples[m];
      }
    }
  }

  lemma {:induction false} BinIsListed<B>(find: (int, int, real) -> Option<B>, samples: seq<Sample>, m: nat)
    requires m < |samples|
    ensures BinOf(find, samples[m]) in BinsInOrder(find, samples)
  {
    if m < |samples| - 1 {
      BinIsListed(find, samples[..|samples| - 1], m);
    }
  }

  // ----- greedy packing -----

  function SizeOf(group: seq<Sample>): int {
    if group == [] then 0 else SizeOf(group[..|group| - 1]) + group[|group| - 1].numBytes
  }

  /** The greedy packing: a sample joins the current group unless the group would outgrow the target. */
  function Pack(samples: seq<Sample>, target: int): seq<seq<Sample>> {
    if samples == [] then []
    else
      var groups := Pack(samples[..|samples| - 1], target);
      var sample := samples[|samples| - 1];
      if groups == [] then [[sample]]
      else
        var out := groups[|groups| - 1];
        if SizeOf(out) + sample.numBytes > target then groups + [[sample]]
        else groups[..|groups| - 1] + [out + [sample]]
  }

  /** drop_small_shards gives up the last group when it has fewer than min_clips_per_tar samples. */
  function Kept(groups: seq<seq<Sample>>, dropSmallShards: bool, minClipsPerTar: int): seq<seq<Sample>> {
    if groups != [] && dropSmallShards && |groups[|groups| - 1]| < minClipsPerTar
    then groups[..|groups| - 1]
    else groups
  }

  method GroupSamplesBySize(samples: seq<Sample>, targetSizeBytes: int, dropSmallShards: bool, minClipsPerTar: int)
      returns (groups: seq<seq<Sample>>)
    ensures groups == Kept(Pack(samples, targetSizeBytes), dropSmallShards, minClipsPerTar)
  {
    groups := [];
    var currentSize, out := 0, [];
    for i := 0 to |samples|
      invariant currentSize == SizeOf(out)
      invariant out == [] <==> i == 0
      invariant groups + (if out == [] then [] else [out]) == Pack(samples[..i], targetSizeBytes)
    {
      var sample := samples[i];
      assert samples[..i + 1][..i] == samples[..i];
      assert out != [] ==> groups == Pack(samples[..i], targetSizeBytes)[..|groups|];
      if out == [] {
        out, currentSize := [sample], sample.numBytes;
        assert SizeOf(out) == SizeOf(out[..0]) + sample.numBytes;
      } else if currentSize + sample.numBytes > targetSizeBytes {
        groups := groups + [out];
        out, currentSize := [sample], sample.numBytes;
        assert SizeOf(out) == SizeOf(out[..0]) + sample.numBytes;
      } else {
        assert (out + [sample])[..|out|] == out;
        out, currentSize := out + [sample], currentSize + sample.numBytes;
      }
    }
    assert samples[..|samples|] == samples;
    ghost var packed := Pack(samples, targetSizeBytes);
    if out != [] && !(dropSmallShards && |out| < minClipsPerTar) {
      groups := groups + [out];
    } else {
      assert out != [] ==> groups == packed[..|packed| - 1];
    }
  }

  /** What a tar may hold: one sample of any size, or samples within the target. */
  predicate Fits(group: seq<Sample>, target: int) {
    |group| == 1 || SizeOf(group) <= target
  }

  /** Non-empty fitting groups, none of which could also take the next group's first sample. */
  ghost predicate Greedy(groups: seq<seq<Sample>>, target: int) {
    && (forall k :: 0 <= k < |groups| ==> groups[k] != [] && Fits(groups[k], target))
    && (forall k :: 0 <= k < |groups| - 1 ==> SizeOf(groups[k]) + groups[k + 1][0].numBytes > target)
  }

  lemma {:induction false} PackKeepsSamples(samples: seq<Sample>, target: int)
    ensures Grouping.Flatten(Pack(samples, target)) == samples
  {
    hide SizeOf;
    if samples != [] {
      var before, sample := samples[..|samples| - 1], samples[|samples| - 1];
      var groups := Pack(before, target);
      PackKeepsSamples(before, target);
      Grouping.FlattenAppend(groups, [sample]);
      if groups == [] {
        assert groups + [[sample]] == [[sample]];
      } else {
        GrowLast(groups[..|groups| - 1], groups[|groups| - 1], sample);
        assert groups == groups[..|groups| - 1] + [groups[|groups| - 1]];
      }
      hide Grouping.Flatten;
      assert samples == before + [sample];
    }
  }

  /** A sample added to the last group is appended to the list. */
  lemma GrowLast(full: seq<seq<Sample>>, out: seq<Sample>, sample: Sample)
    ensures Grouping.Flatten(full + [out + [sample]]) == Grouping.Flatten(full + [out]) + [sample]
  {
    Grouping.FlattenAppend(full, out);
    Grouping.FlattenAppend(full, out + [sample]);
    hide Grouping.Flatten;
  }

  lemma SizeOfAppend(group: seq<Sample>, sample: Sample)
    ensures SizeOf(group + [sample]) == SizeOf(group) + sample.numBytes
  {
    assert (group + [sample])[..|group|] == group;
  }

  lemma GreedyStarts(groups: seq<seq<Sample>>, sample: Sample, target: int)
    requires Greedy(groups, target)
    requires groups != [] ==> SizeOf(groups[|groups| - 1]) + sample.numBytes > target
    ensures Greedy(groups + [[sample]], target)
  {
    var more := groups + [[sample]];
    assert forall k :: 0 <= k < |groups| ==> more[k] == groups[k];
  }

  lemma GreedyGrows(full: seq<seq<Sample>>, out: seq<Sample>, sample: Sample, target: int)
    requires Greedy(full + [out], target) && SizeOf(out) + sample.numBytes <= target
    ensures Greedy(full + [out + [sample]], target)
  {
    var before, after := full + [out], full + [out + [sample]];
    assert forall k :: 0 <= k < |full| ==> after[k] == before[k] == full[k];
    assert before[|full|] == out && after[|full|] == out + [sample];
    SizeOfAppend(out, sample);
  }

  lemma {:induction false} PackIsGreedy(samples: seq<Sample>, target: int)
    ensures Greedy(Pack(samples, target), target)
  {
    hide Greedy;
    if samples == [] {
      assert Greedy([], target) by { EmptyIsGreedy(target); }
    } else {
      var before, sample := samples[..|samples| - 1], samples[|samples| - 1];
      var groups := Pack(before, target);
      PackIsGreedy(before, target);
      if groups == [] || SizeOf(groups[|groups| - 1]) + sample.numBytes > target {
        GreedyStarts(groups, sample, target);
        assert Pack(samples, target) == groups + [[sample]];
      } else {
        assert groups == groups[..|groups| - 1] + [groups[|groups| - 1]];
        GreedyGrows(groups[..|groups| - 1], groups[|groups| - 1], sample, target);
      }
    }
  }

  lemma EmptyIsGreedy(target: int)
    ensures Greedy([], target)
  {
  }

  // ----- optimality -----

  lemma {:induction false} SizeOfConcat(a: seq<Sample>, b: seq<Sample>)
    ensures SizeOf(a + b) == SizeOf(a) + SizeOf(b)
  {
    if b == [] {
      assert a + b == a;
    } else {
      SizeOfConcat(a, b[..|b| - 1]);
      assert (a + b)[..|a + b| - 1] == a + b[..|b| - 1];
    }
  }

  lemma {:induction false} SizeIsNonNegative(group: seq<Sample>)
    requires forall s :: s in group ==> s.numBytes >= 0
    ensures SizeOf(group) >= 0
  {
    if group != [] {
      SizeIsNonNegative(group[..|group| - 1]);
    }
  }

  /**
   When `g` ends a longer list, what follows its first group ends what follows the block, or starts
   inside the block.
   */
  lemma SuffixStep<T>(first: seq<T>, gRest: seq<T>, block: seq<T>, oRest: seq<T>)
    requires var g, o := first + gRest, block + oRest; |g| <= |o| && o[|o| - |g|..] == g
    ensures |gRest| <= |oRest| ==> oRest[|oRest| - |gRest|..] == gRest
    ensures |gRest| > |oRest| ==>
      var d := |block + oRest| - |first + gRest|;
      && d + |first| + 1 <= |block|
      && block[d..d + |first| + 1] == first + [gRest[0]]
  {
    var g, o, n := first + gRest, block + oRest, |first|;
    var d := |o| - |g|;
    if |gRest| > |oRest| {
      assert forall k :: 0 <= k < n + 1 ==> o[d + k] == o[d..][k] == g[k];
      assert g[..n + 1] == first + [gRest[0]];
    } else {
      assert forall k :: 0 <= k < |gRest| ==> oRest[|oRest| - |gRest| + k] == o[d..][n + k] == gRest[k];
    }
  }

  /**
   Cutting a list into fitting groups cannot take fewer groups than greedily cutting one of its
   suffixes: after each group the greedy cut is still no further behind.
   */
  lemma {:induction false} GreedyStaysAhead(greedy: seq<seq<Sample>>, other: seq<seq<Sample>>, target: int)
    requires Greedy(greedy, target)
    requires forall g :: g in other ==> Fits(g, target)
    requires forall s :: s in Grouping.Flatten(other) ==> s.numBytes >= 0
    requires var g, o := Grouping.Flatten(greedy), Grouping.Flatten(other); |g| <= |o| && o[|o| - |g|..] == g
    ensures |greedy| <= |other|
    decreases |other|
  {
    if greedy != [] {
      var gRest, oRest := Grouping.Flatten(greedy[1..]), Grouping.Flatten(other[1..]);
      GreedyHead(greedy, target);
      SuffixStep(greedy[0], gRest, other[0], oRest);
      NonNegativeParts(other[0], oRest);
      hide Greedy;
      if |gRest| > |oRest| {
        OverfullBlock(other[0], |other[0] + oRest| - |greedy[0] + gRest|, greedy[0], gRest[0], target);
      }
      hide Fits;
      GreedyStaysAhead(greedy[1..], other[1..], target);
    }
  }

  lemma NonNegativeParts(a: seq<Sample>, b: seq<Sample>)
    requires forall s :: s in a + b ==> s.numBytes >= 0
    ensures forall s :: s in a ==> s.numBytes >= 0
    ensures forall s :: s in b ==> s.numBytes >= 0
  {
    assert forall s :: s in a ==> s in a + b;
    assert forall s :: s in b ==> s in a + b;
  }

  lemma GreedyHead(greedy: seq<seq<Sample>>, target: int)
    requires Greedy(greedy, target) && greedy != []
    ensures greedy[0] != [] && Greedy(greedy[1..], target)
    ensures var rest := Grouping.Flatten(greedy[1..]);
            rest != [] ==> SizeOf(greedy[0]) + rest[0].numBytes > target
  {
    hide SizeOf;
    var rest := greedy[1..];
    assert forall k :: 0 <= k < |rest| ==> rest[k] == greedy[k + 1];
  }

  /** A block that contains a greedy group together with the sample after it does not fit. */
  lemma OverfullBlock(block: seq<Sample>, d: nat, group: seq<Sample>, next: Sample, target: int)
    requires forall s :: s in block ==> s.numBytes >= 0
    requires group != [] && SizeOf(group) + next.numBytes > target
    requires d + |group| + 1 <= |block| && block[d..d + |group| + 1] == group + [next]
    ensures !Fits(block, target)
  {
    hide SizeOf;
    var before, after := block[..d], block[d + |group| + 1..];
    assert block == (before + (group + [next])) + after;
    SizeOfAppend(group, next);
    SizeOfConcat(before, group + [next]);
    SizeOfConcat(before + (group + [next]), after);
    SizeIsNonNegative(before);
    SizeIsNonNegative(after);
  }

  /** No contiguous partition into fitting groups has fewer groups than the greedy packing. */
  lemma PackIsOptimal(samples: seq<Sample>, other: seq<seq<Sample>>, target: int)
    requires forall s :: s in samples ==> s.numBytes >= 0
    requires Grouping.Flatten(other) == samples
    requires forall g :: g in other ==> Fits(g, target)
    ensures |Pack(samples, target)| <= |other|
  {
    PackIsGreedy(samples, target);
    PackKeepsSamples(samples, target);
    GreedyStaysAhead(Pack(samples, target), other, target);
  }
}
