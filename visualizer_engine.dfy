/**
 * The smoothing stage (VisualizerEngine.kt): an exponential moving average
 * folded over the published frames, and the two pure helpers the renderers
 * use, max-pool downsampling and logarithmic rescaling.
 */
module Engine {
  import opened Wrappers
  import opened Frames
  import FftProcessor
  import Decimal

  /** Weight of the newest frame in the moving average. */
  const SmoothingFactor: real := 0.3

  /** Blends `current` into `previous`; either one passes through when the other has no bins. */
  function SmoothFrames(previous: VisualizerFrame, current: VisualizerFrame): VisualizerFrame {
    var prev := previous.magnitudes;
    var curr := current.magnitudes;
    if prev == [] then current
    else if curr == [] then previous
    else
      VisualizerFrame(
        seq(|curr|, i requires 0 <= i < |curr| =>
          if i < |prev| then prev[i] * (1.0 - SmoothingFactor) + curr[i] * SmoothingFactor else curr[i]),
        previous.rms * (1.0 - SmoothingFactor) + current.rms * SmoothingFactor,
        current.timestampMs)
  }

  predicate InUnit(x: real) {
    0.0 <= x <= 1.0
  }

  predicate UnitFrame(f: VisualizerFrame) {
    InUnit(f.rms) && forall i :: 0 <= i < |f.magnitudes| ==> InUnit(f.magnitudes[i])
  }

  /**
   * Shape of a smoothed frame: the current frame's bin count and timestamp,
   * each overlapping bin and the rms blended 0.7 / 0.3, the rest copied.
   */
  lemma SmoothFramesShape(previous: VisualizerFrame, current: VisualizerFrame)
    requires previous.magnitudes != [] && current.magnitudes != []
    ensures var r := SmoothFrames(previous, current);
      && |r.magnitudes| == |current.magnitudes|
      && r.timestampMs == current.timestampMs
      && r.rms == previous.rms * 0.7 + current.rms * 0.3
      && (forall i :: 0 <= i < |current.magnitudes| && i < |previous.magnitudes| ==>
            r.magnitudes[i] == previous.magnitudes[i] * 0.7 + current.magnitudes[i] * 0.3)
      && (forall i :: |previous.magnitudes| <= i < |current.magnitudes| ==> r.magnitudes[i] == current.magnitudes[i])
  {
  }

  /** A frame with no bins is neutral on either side. */
  lemma SmoothFramesEmptyCases(previous: VisualizerFrame, current: VisualizerFrame)
    ensures previous.magnitudes == [] ==> SmoothFrames(previous, current) == current
    ensures previous.magnitudes != [] && current.magnitudes == [] ==> SmoothFrames(previous, current) == previous
    ensures SmoothFrames(Empty, current) == current
  {
  }

  /** Blending keeps every bin and the rms within [0, 1]. */
  lemma SmoothFramesKeepsUnit(previous: VisualizerFrame, current: VisualizerFrame)
    requires UnitFrame(previous) && UnitFrame(current)
    ensures UnitFrame(SmoothFrames(previous, current))
  {
  }

  /** `k` frames in a row, all equal to `target`, smoothed into `start`. */
  function SmoothTowards(start: VisualizerFrame, target: VisualizerFrame, k: nat): VisualizerFrame {
    if k == 0 then start else SmoothFrames(SmoothTowards(start, target, k - 1), target)
  }

  function Pow(x: real, k: nat): real {
    if k == 0 then 1.0 else x * Pow(x, k - 1)
  }

  /**
   * Feeding one frame repeatedly shrinks the gap of every bin to it by the
   * factor 0.7 per frame.
   */
  lemma {:induction false} SmoothTowardsGap(start: VisualizerFrame, target: VisualizerFrame, k: nat)
    requires |start.magnitudes| == |target.magnitudes| > 0
    ensures |SmoothTowards(start, target, k).magnitudes| == |target.magnitudes|
    ensures forall i :: 0 <= i < |target.magnitudes| ==>
      SmoothTowards(start, target, k).magnitudes[i] - target.magnitudes[i]
        == Pow(0.7, k) * (start.magnitudes[i] - target.magnitudes[i])
  {
    if k > 0 {
      SmoothTowardsGap(start, target, k - 1);
      var prev := SmoothTowards(start, target, k - 1);
      forall i | 0 <= i < |target.magnitudes|
        ensures SmoothTowards(start, target, k).magnitudes[i] - target.magnitudes[i]
          == Pow(0.7, k) * (start.magnitudes[i] - target.magnitudes[i])
      {
        var p, c := prev.magnitudes[i], target.magnitudes[i];
        assert SmoothTowards(start, target, k).magnitudes[i] == p * 0.7 + c * 0.3;
        assert p - c == Pow(0.7, k - 1) * (start.magnitudes[i] - c);
      }
    }
  }

  /** After nine equal frames less than 5% of the initial gap is left in every bin. */
  lemma SmoothingConverges(start: VisualizerFrame, target: VisualizerFrame)
    requires |start.magnitudes| == |target.magnitudes| > 0
    ensures forall i :: 0 <= i < |target.magnitudes| ==>
      FftProcessor.Abs(SmoothTowards(start, target, 9).magnitudes[i] - target.magnitudes[i])
        < 0.05 * FftProcessor.Abs(start.magnitudes[i] - target.magnitudes[i])
        || start.magnitudes[i] == target.magnitudes[i]
  {
    SmoothTowardsGap(start, target, 9);
    assert Pow(0.7, 9) == 0.040353607 by {
      assert Pow(0.7, 3) == 0.343;
      assert Pow(0.7, 6) == 0.117649;
    }
  }

  /**
   * The `runningFold` seeded with null: the first frame is taken as is, and
   * every later one is smoothed into the state before it.
   */
  function FoldState(frames: seq<VisualizerFrame>): Option<VisualizerFrame> {
    if frames == [] then None
    else
      var last := frames[|frames| - 1];
      match FoldState(frames[..|frames| - 1])
      case None => Some(last)
      case Some(previous) => Some(SmoothFrames(previous, last))
  }

  /** The state consumers see: the fold's value, with EMPTY for null (also the initial value). */
  function SmoothedFrame(frames: seq<VisualizerFrame>): VisualizerFrame {
    FoldState(frames).GetOr(Empty)
  }

  /**
   * Before any frame the state is EMPTY, the first frame passes through
   * unsmoothed, and each later state is the previous one smoothed with the
   * new frame: the null seed behaves exactly like an EMPTY seed.
   */
  lemma SmoothedFrameRecurrence(frames: seq<VisualizerFrame>, f: VisualizerFrame)
    ensures SmoothedFrame([]) == Empty
    ensures SmoothedFrame([f]) == f
    ensures SmoothedFrame(frames + [f]) == SmoothFrames(SmoothedFrame(frames), f)
  {
    assert (frames + [f])[..|frames|] == frames;
    assert [f][..0] == [];
  }

  // ---------------------------------------------------------------- downsampling

  /** First index of bar `i` of `t` over `n` bins (`(i * binSize).toInt()` in exact arithmetic). */
  function BinStart(i: nat, n: nat, t: nat): nat
    requires 0 < t
  {
    i * n / t
  }

  /** One past the last index of bar `i`, at most `n`. */
  function BinEnd(i: nat, n: nat, t: nat): nat
    requires 0 < t
  {
    var e := (i + 1) * n / t;
    if e > n then n else e
  }

  /** `v` is the larger of 0 and the largest of `m[lo..hi]`. */
  ghost predicate IsBinMax(v: real, m: seq<real>, lo: nat, hi: nat)
    requires hi <= |m|
  {
    && 0.0 <= v
    && (forall j :: lo <= j < hi ==> m[j] <= v)
    && (v == 0.0 || exists j :: lo <= j < hi && m[j] == v)
  }

  lemma DivMonotone(a: nat, b: nat, t: nat)
    requires a <= b && 0 < t
    ensures a / t <= b / t
  {
    if a / t > b / t {
      assert t * (a / t) + a % t == a;
      assert t * (b / t) + b % t == b;
      assert t * (a / t) >= t * (b / t + 1) by {
        MulMonotone(t, b / t + 1, a / t);
      }
    }
  }

  lemma MulMonotone(t: nat, x: nat, y: nat)
    requires x <= y
    ensures t * x <= t * y
  {
  }

  lemma MulDiv(n: nat, t: nat)
    requires 0 < t
    ensures t * n / t == n
  {
    Decimal.DivModUnique(t * n, t, n, 0);
  }

  /**
   * With fewer bars than bins, the bars tile the bins: they start at 0, end
   * at `n`, each starts where the previous ends, and none is empty.
   */
  lemma BinsTile(n: nat, t: nat)
    requires 0 < t < n
    ensures BinStart(0, n, t) == 0 && BinEnd(t - 1, n, t) == n
    ensures forall i :: 0 <= i < t - 1 ==> BinEnd(i, n, t) == BinStart(i + 1, n, t)
    ensures forall i :: 0 <= i < t ==> BinStart(i, n, t) < BinEnd(i, n, t) <= n
  {
    MulDiv(n, t);
    assert (t - 1 + 1) * n == t * n;
    forall i | 0 <= i < t
      ensures BinStart(i, n, t) < BinEnd(i, n, t) <= n
      ensures i < t - 1 ==> BinEnd(i, n, t) == BinStart(i + 1, n, t)
    {
      BinWithin(i, n, t);
      BinNonEmpty(i, n, t);
    }
  }

  lemma BinWithin(i: nat, n: nat, t: nat)
    requires i < t
    ensures (i + 1) * n / t <= n
  {
    MulMonotone(n, i + 1, t);
    assert (i + 1) * n <= t * n;
    DivMonotone((i + 1) * n, t * n, t);
    MulDiv(n, t);
  }

  lemma BinNonEmpty(i: nat, n: nat, t: nat)
    requires 0 < t <= n
    ensures i * n / t < (i + 1) * n / t
  {
    var q := i * n / t;
    assert i * n == t * q + i * n % t;
    assert (i + 1) * n == i * n + n;
    assert (i + 1) * n >= t * q + t;
    assert t * q + t == t * (q + 1);
    DivMonotone(t * (q + 1), (i + 1) * n, t);
    MulDiv(q + 1, t);
  }

  /**
   * Max-pools `magnitudes` into `targetBars` bars. Empty input or no bars
   * gives nothing; no more bins than bars gives an equal copy.
   */
  method DownsampleMagnitudes(magnitudes: seq<real>, targetBars: int) returns (result: seq<real>)
    ensures magnitudes == [] || targetBars <= 0 ==> result == []
    ensures magnitudes != [] && |magnitudes| <= targetBars ==> result == magnitudes
    ensures 0 < targetBars < |magnitudes| ==>
      && |result| == targetBars
      && forall i :: 0 <= i < targetBars ==>
           BinEnd(i, |magnitudes|, targetBars) <= |magnitudes|
           && IsBinMax(result[i], magnitudes, BinStart(i, |magnitudes|, targetBars), BinEnd(i, |magnitudes|, targetBars))
  {
    if |magnitudes| == 0 || targetBars <= 0 {
      return [];
    }
    if |magnitudes| <= targetBars {
      return magnitudes;
    }
    var n := |magnitudes|;
    var bars := new real[targetBars](_ => 0.0);
    for i := 0 to targetBars
      invariant forall k :: 0 <= k < i ==> IsBinMax(bars[k], magnitudes, BinStart(k, n, targetBars), BinEnd(k, n, targetBars))
    {
      var startIdx := i * n / targetBars;
      var endIdx := (i + 1) * n / targetBars;
      if endIdx > n {
        endIdx := n;
      }
      assert startIdx == BinStart(i, n, targetBars) && endIdx == BinEnd(i, n, targetBars);
      bars[i] := BarMax(magnitudes, startIdx, endIdx);
    }
    result := bars[..];
  }

  /** The inner loop: the running maximum of one bar, starting from 0. */
  method BarMax(magnitudes: seq<real>, startIdx: nat, endIdx: nat) returns (maxValue: real)
    requires endIdx <= |magnitudes|
    ensures IsBinMax(maxValue, magnitudes, startIdx, endIdx)
  {
    maxValue := 0.0;
    var j := startIdx;
    while j < endIdx
      invariant startIdx <= j && (j <= endIdx || j == startIdx)
      invariant IsBinMax(maxValue, magnitudes, startIdx, if j <= endIdx then j else endIdx)
    {
      if magnitudes[j] > maxValue {
        maxValue := magnitudes[j];
      }
      j := j + 1;
    }
  }

  /** `log10(1 + 9x)` clamped to [0, 1], bin by bin; `log10` is a parameter. */
  function ApplyLogScale(magnitudes: seq<real>, log10: real -> real): (r: seq<real>)
    ensures |r| == |magnitudes|
    ensures forall i :: 0 <= i < |r| ==> magnitudes != [] ==> InUnit(r[i])
  {
    if magnitudes == [] then magnitudes
    else seq(|magnitudes|, i requires 0 <= i < |magnitudes| => FftProcessor.Clamp01(log10(1.0 + magnitudes[i] * 9.0)))
  }

  /** With an increasing logarithm the rescaling keeps the order of bins and fixes 0 and 1. */
  lemma LogScaleMonotone(magnitudes: seq<real>, log10: real -> real, i: nat, j: nat)
    requires forall x, y :: x <= y ==> log10(x) <= log10(y)
    requires log10(1.0) == 0.0 && log10(10.0) == 1.0
    requires i < |magnitudes| && j < |magnitudes|
    ensures magnitudes[i] <= magnitudes[j] ==> ApplyLogScale(magnitudes, log10)[i] <= ApplyLogScale(magnitudes, log10)[j]
    ensures magnitudes[i] == 0.0 ==> ApplyLogScale(magnitudes, log10)[i] == 0.0
    ensures magnitudes[i] == 1.0 ==> ApplyLogScale(magnitudes, log10)[i] == 1.0
  {
    if magnitudes[i] <= magnitudes[j] {
      assert 1.0 + magnitudes[i] * 9.0 <= 1.0 + magnitudes[j] * 9.0;
    }
  }
}
