/** cosmos_curate/models/transnetv2.py: one flat scatter that counts the colors of all frames. */
module ColorHistograms {

  const BINS: nat := 512

  /** Channels are 8-bit values. */
  datatype Pixel = Pixel(r: int, g: int, b: int) {
    predicate Valid() {
      0 <= r < 256 && 0 <= g < 256 && 0 <= b < 256
    }
  }

  /** The three high bits of each channel, packed: (R >> 5 << 6) + (G >> 5 << 3) + (B >> 5). */
  function Bin(p: Pixel): (bin: int)
    requires p.Valid()
    ensures 0 <= bin < BINS
  {
    p.r / 32 * 64 + p.g / 32 * 8 + p.b / 32
  }

  /** Two pixels share a bin exactly when all their channels share their high bits. */
  lemma BinIsInjective(p: Pixel, q: Pixel)
    requires p.Valid() && q.Valid()
    ensures Bin(p) == Bin(q) <==> p.r / 32 == q.r / 32 && p.g / 32 == q.g / 32 && p.b / 32 == q.b / 32
  {
    Unpack(p.r / 32, p.g / 32, p.b / 32, q.r / 32, q.g / 32, q.b / 32);
  }

  /** The three octal digits of a bin are the high bits of red, green and blue, in this order. */
  lemma BinDigits(p: Pixel)
    requires p.Valid()
    ensures Bin(p) / 64 == p.r / 32 && Bin(p) / 8 % 8 == p.g / 32 && Bin(p) % 8 == p.b / 32
  {
    Digits(p.r / 32, p.g / 32, p.b / 32);
  }

  lemma Digits(r: int, g: int, b: int)
    requires 0 <= r < 8 && 0 <= g < 8 && 0 <= b < 8
    ensures var n := r * 64 + g * 8 + b; n / 64 == r && n / 8 % 8 == g && n % 8 == b
  {
    var n := r * 64 + g * 8 + b;
    assert n / 8 == r * 8 + g;
  }

  lemma Unpack(r: int, g: int, b: int, r': int, g': int, b': int)
    requires 0 <= r < 8 && 0 <= g < 8 && 0 <= b < 8 && 0 <= r' < 8 && 0 <= g' < 8 && 0 <= b' < 8
    ensures r * 64 + g * 8 + b == r' * 64 + g' * 8 + b' <==> r == r' && g == g' && b == b'
  {
  }

  type Frame = seq<Pixel>

  ghost predicate ValidFrames(frames: seq<Frame>) {
    forall f, q :: 0 <= f < |frames| && 0 <= q < |frames[f]| ==> frames[f][q].Valid()
  }

  /** The direct count: how many pixels of one frame fall into a bin. */
  function CountBin(frame: Frame, bin: int): nat
    requires forall q :: 0 <= q < |frame| ==> frame[q].Valid()
  {
    if frame == [] then 0
    else CountBin(frame[..|frame| - 1], bin) + if Bin(frame[|frame| - 1]) == bin then 1 else 0
  }

  /** The count is fixed by these: a pixel counts in its own bin only, and parts add up. */
  lemma {:induction false} CountBinOfParts(a: Frame, b: Frame, bin: int)
    requires forall q :: 0 <= q < |a| ==> a[q].Valid()
    requires forall q :: 0 <= q < |b| ==> b[q].Valid()
    ensures forall q :: 0 <= q < |a + b| ==> (a + b)[q].Valid()
    ensures CountBin([], bin) == 0
    ensures CountBin(a + b, bin) == CountBin(a, bin) + CountBin(b, bin)
    ensures |b| == 1 ==> CountBin(b, bin) == if Bin(b[0]) == bin then 1 else 0
  {
    hide Bin;
    if b == [] {
      assert a + b == a;
    } else {
      CountBinOfParts(a, b[..|b| - 1], bin);
      assert (a + b)[..|a + b| - 1] == a + b[..|b| - 1];
    }
  }

  function CountIndex(indices: seq<int>, c: int): nat {
    if indices == [] then 0
    else CountIndex(indices[..|indices| - 1], c) + if indices[|indices| - 1] == c then 1 else 0
  }

  /** binned_values of frame f: its bins behind the prefix f << 9. */
  function FrameIndices(frame: Frame, f: nat): seq<int>
    requires forall q :: 0 <= q < |frame| ==> frame[q].Valid()
  {
    seq(|frame|, q requires 0 <= q < |frame| => Bin(frame[q]) + f * BINS)
  }

  /** binned_values of all frames, flattened. */
  function FlatIndices(frames: seq<Frame>): seq<int>
    requires ValidFrames(frames)
  {
    if frames == [] then []
    else FlatIndices(frames[..|frames| - 1]) + FrameIndices(frames[|frames| - 1], |frames| - 1)
  }

  lemma {:induction false} CountConcat(a: seq<int>, b: seq<int>, c: int)
    ensures CountIndex(a + b, c) == CountIndex(a, c) + CountIndex(b, c)
  {
    if b == [] {
      assert a + b == a;
    } else {
      CountConcat(a, b[..|b| - 1], c);
      assert (a + b)[..|a + b| - 1] == a + b[..|b| - 1];
    }
  }

  /** Within its own cells a frame counts its bins; in the cells of another frame it counts nothing. */
  lemma {:induction false} CountFrame(frame: Frame, f: nat, g: nat, bin: int)
    requires forall q :: 0 <= q < |frame| ==> frame[q].Valid()
    requires 0 <= bin < BINS
    ensures CountIndex(FrameIndices(frame, f), g * BINS + bin) == if f == g then CountBin(frame, bin) else 0
  {
    if frame != [] {
      var init := frame[..|frame| - 1];
      CountFrame(init, f, g, bin);
      assert FrameIndices(frame, f)[..|frame| - 1] == FrameIndices(init, f);
    }
  }

  /** No pixel lands outside its frame's 512 cells. */
  lemma {:induction false} IndicesInRange(frames: seq<Frame>)
    requires ValidFrames(frames)
    ensures forall i :: 0 <= i < |FlatIndices(frames)| ==> 0 <= FlatIndices(frames)[i] < |frames| * BINS
  {
    if frames != [] {
      IndicesInRange(frames[..|frames| - 1]);
    }
  }

  /** The flat scatter counts each frame separately. */
  lemma {:induction false} FlatCountIsPerFrame(frames: seq<Frame>, f: nat, bin: int)
    requires ValidFrames(frames) && 0 <= bin < BINS
    ensures CountIndex(FlatIndices(frames), f * BINS + bin) == if f < |frames| then CountBin(frames[f], bin) else 0
  {
    if frames != [] {
      var init, last := frames[..|frames| - 1], frames[|frames| - 1];
      FlatCountIsPerFrame(init, f, bin);
      CountConcat(FlatIndices(init), FrameIndices(last, |frames| - 1), f * BINS + bin);
      CountFrame(last, |frames| - 1, f, bin);
    }
  }

  /** Tensor.scatter_add_ of ones. */
  method ScatterAdd(target: array<int>, indices: seq<int>)
    requires forall i :: 0 <= i < |indices| ==> 0 <= indices[i] < target.Length
    modifies target
    ensures forall c :: 0 <= c < target.Length ==> target[c] == old(target[c]) + CountIndex(indices, c)
  {
    for i := 0 to |indices|
      invariant forall c :: 0 <= c < target.Length ==> target[c] == old(target[c]) + CountIndex(indices[..i], c)
    {
      assert indices[..i + 1][..i] == indices[..i];
      target[indices[i]] := target[indices[i]] + 1;
    }
    assert indices[..|indices|] == indices;
  }

  /** compute_color_histograms up to the normalisation: cell f * 512 + bin counts bin in frame f. */
  method ComputeColorHistograms(frames: seq<Frame>) returns (histograms: array<int>)
    requires ValidFrames(frames)
    ensures fresh(histograms) && histograms.Length == |frames| * BINS
    ensures forall f, bin :: 0 <= f < |frames| && 0 <= bin < BINS ==>
      0 <= f * BINS + bin < histograms.Length && histograms[f * BINS + bin] == CountBin(frames[f], bin)
  {
    histograms := new int[|frames| * BINS](_ => 0);
    IndicesInRange(frames);
    ScatterAdd(histograms, FlatIndices(frames));
    forall f, bin | 0 <= f < |frames| && 0 <= bin < BINS
      ensures 0 <= f * BINS + bin < histograms.Length && histograms[f * BINS + bin] == CountBin(frames[f], bin)
    {
      FlatCountIsPerFrame(frames, f, bin);
    }
  }

  /** The counts of the bins below n. */
  function SumBins(frame: Frame, n: nat): nat
    requires forall q :: 0 <= q < |frame| ==> frame[q].Valid()
  {
    if n == 0 then 0 else SumBins(frame, n - 1) + CountBin(frame, n - 1)
  }

  lemma {:induction false} SumOfOneMore(frame: Frame, n: nat)
    requires frame != [] && forall q :: 0 <= q < |frame| ==> frame[q].Valid()
    ensures SumBins(frame, n) == SumBins(frame[..|frame| - 1], n) + if Bin(frame[|frame| - 1]) < n then 1 else 0
  {
    if n > 0 {
      SumOfOneMore(frame, n - 1);
    }
  }

  /** The counts of a frame add up to its number of pixels. */
  lemma {:induction false} CountsSumToPixels(frame: Frame)
    requires forall q :: 0 <= q < |frame| ==> frame[q].Valid()
    ensures SumBins(frame, BINS) == |frame|
  {
    if frame == [] {
      NothingToCount(BINS);
    } else {
      CountsSumToPixels(frame[..|frame| - 1]);
      SumOfOneMore(frame, BINS);
    }
  }

  lemma {:induction false} NothingToCount(n: nat)
    ensures SumBins([], n) == 0
  {
    if n > 0 {
      NothingToCount(n - 1);
    }
  }
}
