/** cosmos_curate/models/judge_video_utils.py: which decoded frames are kept, over their timestamps in seconds. */
module FrameSampling {
  import opened Wrappers

  /** When frame k is due: `next_s` after k additions of the interval. */
  function Due(k: nat, interval: real): real {
    if k == 0 then 0.0 else Due(k - 1, interval) + interval
  }

  lemma {:induction false} DueIsMultiple(k: nat, interval: real)
    ensures Due(k, interval) == k as real * interval
  {
    if k > 0 {
      DueIsMultiple(k - 1, interval);
      assert k as real * interval == (k - 1) as real * interval + interval;
    }
  }

  /** The sampling interval, stretched so that max_frames frames span a known duration. */
  function Interval(duration: Option<real>, samplingFps: real, maxFrames: int): Result<real> {
    if samplingFps == 0.0 then Failure(ZeroDivisionError)
    else
      var base := 1.0 / samplingFps;
      if duration.Some? && duration.value > 0.0 then
        if maxFrames == 0 then Failure(ZeroDivisionError)
        else
          var stretched := duration.value / maxFrames as real;
          Success(if stretched > base then stretched else base)
      else Success(base)
  }

  /**
   Given the plain spacing 1 / sampling_fps and the spacing duration / max_frames that spreads
   the frames over the clip, the interval is the larger one, or the plain one for an unknown duration.
   */
  lemma IntervalMeaning(duration: Option<real>, samplingFps: real, maxFrames: int, base: real, spread: real)
    requires base * samplingFps == 1.0
    requires duration.Some? && duration.value > 0.0 ==> maxFrames != 0 && spread * maxFrames as real == duration.value
    ensures Interval(duration, samplingFps, maxFrames).Success?
    ensures var interval := Interval(duration, samplingFps, maxFrames).value;
            if duration.Some? && duration.value > 0.0
            then interval >= base && interval >= spread && interval in {base, spread}
            else interval == base
  {
    Quotient(1.0, samplingFps, base);
    if duration.Some? && duration.value > 0.0 {
      Quotient(duration.value, maxFrames as real, spread);
    }
  }

  lemma Quotient(a: real, b: real, q: real)
    requires b != 0.0 && q * b == a
    ensures a / b == q
  {
  }

  /**
   Of the first n frames, the ones kept when nothing stops the scan: a frame is kept when the next
   due time has come.
   */
  function Kept(times: seq<real>, interval: real, n: nat): seq<nat>
    requires n <= |times|
  {
    if n == 0 then []
    else
      var before := Kept(times, interval, n - 1);
      if times[n - 1] >= Due(|before|, interval) then before + [n - 1] else before
  }

  /**
   The sampling loop. The scan goes on until the frames run out, the cap is reached, or a frame lies
   beyond the known duration; `scanned` says how many frames it has looked at.
   */
  method DecodeFrames(times: seq<real>, duration: Option<real>, samplingFps: real, maxFrames: int)
      returns (r: Result<seq<nat>>, ghost scanned: nat)
    ensures scanned <= |times|
    ensures r.Failure? <==> Interval(duration, samplingFps, maxFrames).Failure?
    ensures r.Failure? ==> r.error == ZeroDivisionError
    ensures r.Success? ==>
      && r.value == Kept(times, Interval(duration, samplingFps, maxFrames).value, scanned)
      && (|r.value| >= maxFrames && r.value != [] ==> r.value[|r.value| - 1] == scanned - 1)
      && (forall j :: 0 <= j < scanned - 1 ==> duration.Some? ==> times[j] <= duration.value)
      && (scanned < |times| ==> scanned > 0 && ((r.value != [] && |r.value| >= maxFrames)
                                               || (duration.Some? && times[scanned - 1] > duration.value)))
      && |r.value| <= if maxFrames >= 1 then maxFrames else 1
  {
    scanned := 0;
    var i := Interval(duration, samplingFps, maxFrames);
    if i.Failure? {
      return Failure(i.error), 0;
    }
    var interval := i.value;
    var frames: seq<nat>, nextS := [], 0.0;
    hide Interval;
    for f := 0 to |times|
      invariant scanned == f
      invariant frames == Kept(times, interval, f)
      invariant nextS == Due(|frames|, interval)
      invariant frames != [] ==> |frames| < maxFrames
      invariant forall j :: 0 <= j < f ==> duration.Some? ==> times[j] <= duration.value
    {
      var t := times[f];
      scanned := f + 1;
      if t >= nextS {
        frames := frames + [f];
        nextS := nextS + interval;
        if |frames| >= maxFrames {
          break;
        }
      }
      if duration.Some? && t > duration.value {
        break;
      }
    }
    r := Success(frames);
  }

  /** Kept frames come in order, and frame k not before its due time. */
  lemma {:induction false} KeptAfterDue(times: seq<real>, interval: real, n: nat)
    requires n <= |times|
    ensures var kept := Kept(times, interval, n);
            && (forall k :: 0 <= k < |kept| ==> kept[k] < n && times[kept[k]] >= Due(k, interval))
            && (forall j, k :: 0 <= j < k < |kept| ==> kept[j] < kept[k])
  {
    if n > 0 {
      KeptAfterDue(times, interval, n - 1);
    }
  }

  /** A frame is kept if and only if it is not before as many intervals as frames have been kept before it. */
  lemma KeptIff(times: seq<real>, interval: real, n: nat, f: nat)
    requires f < n <= |times|
    ensures f in Kept(times, interval, n) <==> times[f] >= |Kept(times, interval, f)| as real * interval
  {
    hide Kept;
    hide Due;
    KeptIffDue(times, interval, n, f);
    DueIsMultiple(|Kept(times, interval, f)|, interval);
  }

  lemma {:induction false} KeptIffDue(times: seq<real>, interval: real, n: nat, f: nat)
    requires f < n <= |times|
    ensures f in Kept(times, interval, n) <==> times[f] >= Due(|Kept(times, interval, f)|, interval)
  {
    hide Due;
    KeptBefore(times, interval, n - 1);
    if f < n - 1 {
      KeptIffDue(times, interval, n - 1, f);
    }
  }

  lemma {:induction false} KeptBefore(times: seq<real>, interval: real, n: nat)
    requires n <= |times|
    ensures forall f :: f in Kept(times, interval, n) ==> f < n
  {
    hide Due;
    if n > 0 {
      KeptBefore(times, interval, n - 1);
    }
  }

  lemma Span(n: nat, duration: real, interval: real)
    requires n > 0 && interval >= duration / n as real
    ensures n as real * interval >= duration
  {
    var share := duration / n as real;
    assert n as real * share == duration;
    assert n as real * (interval - share) >= 0.0;
  }

  /** With a known duration, reaching the cap means that the last kept frame is within one interval of the end. */
  lemma CapSpansClip(times: seq<real>, duration: real, samplingFps: real, maxFrames: nat, n: nat)
    requires duration > 0.0 && maxFrames > 0 && Interval(Some(duration), samplingFps, maxFrames).Success?
    requires n <= |times|
    requires |Kept(times, Interval(Some(duration), samplingFps, maxFrames).value, n)| == maxFrames
    ensures var interval := Interval(Some(duration), samplingFps, maxFrames).value;
            var last := Kept(times, interval, n)[maxFrames - 1];
            last < |times| && times[last] >= duration - interval
  {
    var interval := Interval(Some(duration), samplingFps, maxFrames).value;
    assert interval >= duration / maxFrames as real;
    hide Interval;
    Span(maxFrames, duration, interval);
    DueIsMultiple(maxFrames, interval);
    KeptAfterDue(times, interval, n);
  }

  /**
   The first n frames: each is kept within one gap after it was due, and none has come later than the
   next due time.
   */
  ghost predicate NearDue(times: seq<real>, interval: real, gap: real, n: nat)
    requires n <= |times|
  {
    var kept := Kept(times, interval, n);
    && (forall k :: 0 <= k < |kept| ==> kept[k] < n && times[kept[k]] <= Due(k, interval) + gap)
    && (n > 0 ==> times[n - 1] <= Due(|kept|, interval))
  }

  lemma NearDueStep(times: seq<real>, interval: real, gap: real, n: nat)
    requires n < |times| && NearDue(times, interval, gap, n)
    requires gap <= interval
    requires times[n] <= (if n == 0 then 0.0 else times[n - 1]) + gap
    ensures NearDue(times, interval, gap, n + 1)
  {
    var before, kept := Kept(times, interval, n), Kept(times, interval, n + 1);
    assert times[n] <= Due(|before|, interval) + gap;
    assert Due(|before| + 1, interval) == Due(|before|, interval) + interval;
    hide Due;
    assert kept == if times[n] >= Due(|before|, interval) then before + [n] else before;
    hide Kept;
  }

  lemma {:induction false} KeptNearDue(times: seq<real>, interval: real, gap: real, n: nat)
    requires n <= |times| && gap <= interval
    requires times != [] ==> times[0] <= gap
    requires forall j :: 0 < j < |times| ==> times[j] <= times[j - 1] + gap
    ensures NearDue(times, interval, gap, n)
  {
    if n > 0 {
      KeptNearDue(times, interval, gap, n - 1);
      NearDueStep(times, interval, gap, n - 1);
      hide NearDue;
    }
  }

  /**
   If frames start within one gap of 0 and are never further apart than it, and the gap is at most
   the interval, then frame k is kept within one gap after k intervals.
   */
  lemma KeptWithinGap(times: seq<real>, interval: real, gap: real, n: nat, k: nat)
    requires n <= |times| && gap <= interval
    requires times != [] ==> times[0] <= gap
    requires forall j :: 0 < j < |times| ==> times[j] <= times[j - 1] + gap
    requires k < |Kept(times, interval, n)|
    ensures var t := Kept(times, interval, n)[k];
            t < n && k as real * interval <= times[t] <= k as real * interval + gap
  {
    KeptAfterDue(times, interval, n);
    KeptNearDue(times, interval, gap, n);
    DueIsMultiple(k, interval);
  }
}
