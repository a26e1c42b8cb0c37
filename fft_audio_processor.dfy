/**
 * The audio processor that turns PCM buffers into spectrum frames
 * (FftAudioProcessor.kt): decode, downmix, accumulate in the ring buffer,
 * and for every hop of 1024 samples with 2048 available, window, transform,
 * take magnitudes, validate and publish.
 *
 * The FFT, `sqrt`, `cos`, the NaN/infinity test and the decoding of float
 * bytes are foreign; they are the fields of `Numerics`, and `Lawful` states
 * the only facts the model assumes of them.
 */
module FftProcessor {
  import opened Wrappers
  import opened Frames
  import opened RingBuffer

  const FftSize: nat := 2048
  const HopSize: nat := 1024
  const NumBins: nat := 1024  // FftSize / 2
  const BufferCapacity: nat := FftSize * 4

  /** `C.ENCODING_PCM_16BIT`, `C.ENCODING_PCM_FLOAT` and `Format.NO_VALUE`. */
  const EncodingPcm16Bit: int := 2
  const EncodingPcmFloat: int := 4
  const NoValue: int := -1

  datatype AudioFormat = AudioFormat(sampleRate: int, channelCount: int, encoding: int)

  const NotSet: AudioFormat := AudioFormat(NoValue, NoValue, NoValue)

  predicate SupportedEncoding(encoding: int) {
    encoding == EncodingPcm16Bit || encoding == EncodingPcmFloat
  }

  newtype byte = b: int | 0 <= b < 256

  datatype Numerics = Numerics(
    realForward: seq<real> -> seq<real>,  // DoubleFFT_1D.realForward, packed real layout
    sqrt: real -> real,
    cosTurn: real -> real,                // t |-> cos(2 * PI * t)
    isFinite: real -> bool,               // neither NaN nor infinite
    floatFromBytes: seq<byte> -> real)    // one 4-byte float of the input buffer

  /** The transform keeps the length of its input and a square root of a non-negative number is non-negative. */
  ghost predicate Lawful(num: Numerics) {
    && (forall x :: |num.realForward(x)| == |x|)
    && (forall x :: 0.0 <= x ==> 0.0 <= num.sqrt(x))
  }

  // ---------------------------------------------------------------- decoding

  /** The `java.nio.ByteBuffer` handed to `queueInput`: its bytes, position and limit. */
  class ByteBuffer {
    const bytes: seq<byte>
    var position: nat
    var limit: nat

    ghost predicate Valid()
      reads this
    {
      position <= limit <= |bytes|
    }

    constructor (bytes: seq<byte>, position: nat, limit: nat)
      requires position <= limit <= |bytes|
      ensures Valid() && this.bytes == bytes && this.position == position && this.limit == limit
    {
      this.bytes, this.position, this.limit := bytes, position, limit;
    }
  }

  /** The signed 16-bit value at byte `p` (little-endian, the platform's native order). */
  function Int16At(bytes: seq<byte>, p: nat): (v: int)
    requires p + 1 < |bytes|
    ensures -32768 <= v < 32768
  {
    var u := bytes[p] as int + 256 * bytes[p + 1] as int;
    if u >= 32768 then u - 65536 else u
  }

  /** The samples a PCM-16 buffer holds between `pos` and `limit`. */
  function Pcm16Samples(bytes: seq<byte>, pos: nat, limit: nat): seq<real>
    requires pos <= limit <= |bytes|
  {
    seq((limit - pos) / 2, i requires 0 <= i < (limit - pos) / 2 => Int16At(bytes, pos + 2 * i) as real / 32768.0)
  }

  /** The samples a float-PCM buffer holds between `pos` and `limit`. */
  function FloatSamples(num: Numerics, bytes: seq<byte>, pos: nat, limit: nat): seq<real>
    requires pos <= limit <= |bytes|
  {
    seq((limit - pos) / 4, i requires 0 <= i < (limit - pos) / 4 => num.floatFromBytes(bytes[pos + 4 * i..pos + 4 * i + 4]))
  }

  /** A decoded PCM-16 buffer holds one sample per two bytes, each in [-1, 1). */
  lemma Pcm16SamplesInRange(bytes: seq<byte>, pos: nat, limit: nat)
    requires pos <= limit <= |bytes|
    ensures |Pcm16Samples(bytes, pos, limit)| == (limit - pos) / 2
    ensures limit - pos < 2 ==> Pcm16Samples(bytes, pos, limit) == []
    ensures forall x :: x in Pcm16Samples(bytes, pos, limit) ==> -1.0 <= x < 1.0
  {
    var s := Pcm16Samples(bytes, pos, limit);
    forall x | x in s
      ensures -1.0 <= x < 1.0
    {
      var i :| 0 <= i < |s| && s[i] == x;
      var v := Int16At(bytes, pos + 2 * i);
      assert x == v as real / 32768.0;
    }
  }

  // ---------------------------------------------------------------- downmix

  /** Stereo to mono: the mean of each left/right pair; shorter than 2 is left alone. */
  function StereoToMono(stereo: seq<real>): seq<real> {
    if |stereo| < 2 then stereo
    else seq(|stereo| / 2, i requires 0 <= i < |stereo| / 2 => Mix(stereo, i))
  }

  /** The mean of the left and right sample of frame `i`. */
  function Mix(stereo: seq<real>, i: nat): real
    requires 2 * i + 1 < |stereo|
  {
    (stereo[2 * i] + stereo[2 * i + 1]) / 2.0
  }

  /** Only a two-channel stream is downmixed; every other channel count passes through. */
  function Downmix(format: AudioFormat, samples: seq<real>): seq<real> {
    if format.channelCount == 2 then StereoToMono(samples) else samples
  }

  /** Opposite channels cancel and equal channels keep their value; an odd last sample is dropped. */
  lemma StereoToMonoPairs(stereo: seq<real>)
    requires 2 <= |stereo|
    ensures |StereoToMono(stereo)| == |stereo| / 2
    ensures forall i :: 0 <= i < |stereo| / 2 && stereo[2 * i] == -stereo[2 * i + 1] ==> StereoToMono(stereo)[i] == 0.0
    ensures forall i :: 0 <= i < |stereo| / 2 && stereo[2 * i] == stereo[2 * i + 1] ==> StereoToMono(stereo)[i] == stereo[2 * i]
  {
    var mono := StereoToMono(stereo);
    forall i | 0 <= i < |stereo| / 2
      ensures stereo[2 * i] == -stereo[2 * i + 1] ==> mono[i] == 0.0
      ensures stereo[2 * i] == stereo[2 * i + 1] ==> mono[i] == stereo[2 * i]
    {
      assert mono[i] == (stereo[2 * i] + stereo[2 * i + 1]) / 2.0;
    }
  }

  // ---------------------------------------------------------------- spectrum

  function Abs(x: real): real {
    if x < 0.0 then -x else x
  }

  /** `coerceIn(0f, 1f)`. */
  function Clamp01(x: real): (r: real)
    ensures 0.0 <= r <= 1.0
    ensures 0.0 <= x <= 1.0 ==> r == x
  {
    if x < 0.0 then 0.0 else if x > 1.0 then 1.0 else x
  }

  /** The Hann window `0.5 * (1 - cos(2 PI i / (N - 1)))`. */
  function HannWindow(num: Numerics): (w: seq<real>)
    ensures |w| == FftSize
  {
    seq(FftSize, i requires 0 <= i < FftSize => 0.5 * (1.0 - num.cosTurn(i as real / (FftSize - 1) as real)))
  }

  /** With an even cosine the window is symmetric, and it vanishes at both ends. */
  lemma HannWindowSymmetric(num: Numerics)
    requires forall t :: num.cosTurn(1.0 - t) == num.cosTurn(t)
    requires num.cosTurn(0.0) == 1.0
    ensures forall i :: 0 <= i < FftSize ==> HannWindow(num)[i] == HannWindow(num)[FftSize - 1 - i]
    ensures HannWindow(num)[0] == 0.0 && HannWindow(num)[FftSize - 1] == 0.0
  {
    var w := HannWindow(num);
    forall i | 0 <= i < FftSize
      ensures w[i] == w[FftSize - 1 - i]
    {
      var n := (FftSize - 1) as real;
      assert (FftSize - 1 - i) as real / n == 1.0 - i as real / n;
    }
    assert w[0] == 0.5 * (1.0 - num.cosTurn(0.0));
    assert w[FftSize - 1] == w[0];
  }

  /**
   * Bin `i` of the packed real-FFT output: DC in bin 0, the Nyquist value
   * (index 1) in the last bin, and |(out[2i], out[2i+1])| in between.
   */
  function RawBin(num: Numerics, out: seq<real>, i: nat): real
    requires |out| == FftSize && i < NumBins
  {
    if i == 0 then Abs(out[0])
    else if i == NumBins - 1 then Abs(out[1])
    else PairMagnitude(num, out[2 * i], out[2 * i + 1])
  }

  /** `sqrt(re * re + im * im)`, the modulus of one complex bin. */
  function PairMagnitude(num: Numerics, re: real, im: real): real {
    num.sqrt(re * re + im * im)
  }

  function RawBins(num: Numerics, out: seq<real>): (r: seq<real>)
    requires |out| == FftSize
    ensures |r| == NumBins
  {
    seq(NumBins, i requires 0 <= i < NumBins => RawBin(num, out, i))
  }

  /** `maxOrNull()` of a non-empty array. */
  function MaxOf(s: seq<real>): real
    requires s != []
  {
    if |s| == 1 then s[0]
    else var m := MaxOf(s[..|s| - 1]); if s[|s| - 1] > m then s[|s| - 1] else m
  }

  lemma {:induction false} MaxOfIsMaximum(s: seq<real>)
    requires s != []
    ensures forall i :: 0 <= i < |s| ==> s[i] <= MaxOf(s)
    ensures exists i :: 0 <= i < |s| && s[i] == MaxOf(s)
  {
    if |s| > 1 {
      var prefix := s[..|s| - 1];
      MaxOfIsMaximum(prefix);
      assert forall i :: 0 <= i < |s| - 1 ==> s[i] == prefix[i];
      if s[|s| - 1] <= MaxOf(prefix) {
        var k :| 0 <= k < |prefix| && prefix[k] == MaxOf(prefix);
        assert s[k] == MaxOf(s);
      }
    } else {
      assert s[0] == MaxOf(s);
    }
  }

  /** Divide by the peak and clamp, unless the peak is not positive. */
  function Normalized(raw: seq<real>): (r: seq<real>)
    requires raw != []
    ensures |r| == |raw|
  {
    var peak := MaxOf(raw);
    if peak > 0.0 then seq(|raw|, i requires 0 <= i < |raw| => Clamp01(raw[i] / peak)) else raw
  }

  function Magnitudes(num: Numerics, out: seq<real>): seq<real>
    requires |out| == FftSize
  {
    Normalized(RawBins(num, out))
  }

  /** Every raw bin is non-negative. */
  lemma RawBinsNonNegative(num: Numerics, out: seq<real>)
    requires Lawful(num) && |out| == FftSize
    ensures forall i :: 0 <= i < NumBins ==> 0.0 <= RawBins(num, out)[i]
  {
    forall i | 0 <= i < NumBins
      ensures 0.0 <= RawBins(num, out)[i]
    {
      if 0 < i < NumBins - 1 {
        var re, im := out[2 * i], out[2 * i + 1];
        assert 0.0 <= re * re + im * im;
      }
    }
  }

  /**
   * `computeMagnitudes` yields 1024 bins, each in [0, 1]; when the peak is
   * positive the largest bin becomes exactly 1, otherwise every bin is 0.
   */
  lemma MagnitudesNormalized(num: Numerics, out: seq<real>)
    requires Lawful(num) && |out| == FftSize
    ensures |Magnitudes(num, out)| == NumBins
    ensures forall i :: 0 <= i < NumBins ==> 0.0 <= Magnitudes(num, out)[i] <= 1.0
    ensures MaxOf(RawBins(num, out)) > 0.0 ==> exists i :: 0 <= i < NumBins && Magnitudes(num, out)[i] == 1.0
    ensures MaxOf(RawBins(num, out)) <= 0.0 ==> forall i :: 0 <= i < NumBins ==> Magnitudes(num, out)[i] == 0.0
  {
    var raw := RawBins(num, out);
    RawBinsNonNegative(num, out);
    MaxOfIsMaximum(raw);
    NormalizedUnit(raw);
  }

  /** `Normalized` of non-negative bins lies in [0, 1] and reaches 1 when the peak is positive. */
  lemma NormalizedUnit(raw: seq<real>)
    requires raw != []
    requires forall i :: 0 <= i < |raw| ==> 0.0 <= raw[i] <= MaxOf(raw)
    requires exists i :: 0 <= i < |raw| && raw[i] == MaxOf(raw)
    ensures forall i :: 0 <= i < |raw| ==> 0.0 <= Normalized(raw)[i] <= 1.0
    ensures MaxOf(raw) > 0.0 ==> exists i :: 0 <= i < |raw| && Normalized(raw)[i] == 1.0
    ensures MaxOf(raw) <= 0.0 ==> forall i :: 0 <= i < |raw| ==> Normalized(raw)[i] == 0.0
  {
    var peak := MaxOf(raw);
    forall i | 0 <= i < |raw|
      ensures 0.0 <= Normalized(raw)[i] <= 1.0
      ensures peak <= 0.0 ==> Normalized(raw)[i] == 0.0
    {
      NormalizedAt(raw, i);
    }
    if peak > 0.0 {
      var k :| 0 <= k < |raw| && raw[k] == peak;
      NormalizedAt(raw, k);
      DivSelf(peak);
    }
  }

  lemma NormalizedAt(raw: seq<real>, i: nat)
    requires raw != [] && i < |raw|
    ensures Normalized(raw)[i] == if MaxOf(raw) > 0.0 then Clamp01(raw[i] / MaxOf(raw)) else raw[i]
  {
  }

  lemma DivSelf(x: real)
    requires x > 0.0
    ensures x / x == 1.0
  {
  }

  /** The true pair of the last bin, indices 2046 and 2047, never influences the magnitudes. */
  lemma LastPairNeverRead(num: Numerics, out: seq<real>, out': seq<real>)
    requires |out| == FftSize && |out'| == FftSize
    requires out[..FftSize - 2] == out'[..FftSize - 2]
    ensures RawBins(num, out)[NumBins - 1] == Abs(out[1])
    ensures Magnitudes(num, out) == Magnitudes(num, out')
  {
    forall i | 0 <= i < NumBins
      ensures RawBins(num, out)[i] == RawBins(num, out')[i]
    {
      RawBinReadsBelowLastPair(num, out, out', i);
    }
    assert RawBins(num, out) == RawBins(num, out');
  }

  lemma RawBinReadsBelowLastPair(num: Numerics, out: seq<real>, out': seq<real>, i: nat)
    requires |out| == FftSize && |out'| == FftSize && i < NumBins
    requires out[..FftSize - 2] == out'[..FftSize - 2]
    ensures RawBin(num, out, i) == RawBin(num, out', i)
  {
    assert out[0] == out[..FftSize - 2][0] && out[1] == out[..FftSize - 2][1];
    if 0 < i < NumBins - 1 {
      assert out[2 * i] == out[..FftSize - 2][2 * i];
      assert out[2 * i + 1] == out[..FftSize - 2][2 * i + 1];
      assert out'[2 * i] == out'[..FftSize - 2][2 * i];
      assert out'[2 * i + 1] == out'[..FftSize - 2][2 * i + 1];
    }
  }

  function SumSquares(s: seq<real>): real {
    if s == [] then 0.0 else SumSquares(s[..|s| - 1]) + s[|s| - 1] * s[|s| - 1]
  }

  /** `sqrt(mean of squares)` over the unwindowed samples, clamped to [0, 1]. */
  function Rms(num: Numerics, samples: seq<real>): real
    requires samples != []
  {
    Clamp01(num.sqrt(SumSquares(samples) / |samples| as real))
  }

  predicate AllFinite(num: Numerics, s: seq<real>) {
    forall i :: 0 <= i < |s| ==> num.isFinite(s[i])
  }

  /** The frame one window of samples yields, or None when it is rejected. */
  function FrameOf(num: Numerics, window: seq<real>, samples: seq<real>, timestamp: int): Option<VisualizerFrame>
    requires Lawful(num) && |window| == FftSize && |samples| == FftSize
  {
    if !AllFinite(num, samples) then None
    else
      var out := num.realForward(seq(FftSize, i requires 0 <= i < FftSize => samples[i] * window[i]));
      var magnitudes := Magnitudes(num, out);
      if !AllFinite(num, magnitudes) then None
      else Some(VisualizerFrame(magnitudes, Rms(num, samples), timestamp))
  }

  /**
   * A window is published exactly when its samples and its magnitudes are
   * all finite; a published frame has 1024 bins in [0, 1], an rms in [0, 1]
   * and the given timestamp.
   */
  lemma FrameOfValid(num: Numerics, window: seq<real>, samples: seq<real>, timestamp: int)
    requires Lawful(num) && |window| == FftSize && |samples| == FftSize
    ensures !AllFinite(num, samples) ==> FrameOf(num, window, samples, timestamp) == None
    ensures FrameOf(num, window, samples, timestamp).Some? ==>
      var f := FrameOf(num, window, samples, timestamp).value;
      && |f.magnitudes| == NumBins
      && AllFinite(num, f.magnitudes)
      && (forall i :: 0 <= i < NumBins ==> 0.0 <= f.magnitudes[i] <= 1.0)
      && 0.0 <= f.rms <= 1.0
      && f.timestampMs == timestamp
  {
    if AllFinite(num, samples) {
      var out := num.realForward(seq(FftSize, i requires 0 <= i < FftSize => samples[i] * window[i]));
      MagnitudesNormalized(num, out);
    }
  }

  /** The normalisation step of `computeMagnitudes`, in place over the bins. */
  method NormalizeInPlace(m: array<real>)
    requires m.Length > 0
    modifies m
    ensures m[..] == Normalized(old(m[..]))
  {
    ghost var raw := m[..];
    var maxMagnitude := MaxOf(m[..]);
    if maxMagnitude > 0.0 {
      for i := 0 to m.Length
        invariant forall k :: 0 <= k < i ==> m[k] == Clamp01(raw[k] / maxMagnitude)
        invariant forall k :: i <= k < m.Length ==> m[k] == raw[k]
      {
        m[i] := Clamp01(m[i] / maxMagnitude);
      }
    }
  }

  // ---------------------------------------------------------------- hop loop

  /** How many times the loop of `queueInput` runs with `a` samples available. */
  function Runs(a: nat): nat {
    if a < FftSize then 0 else 1 + Runs(a - HopSize)
  }

  /** The frames the loop publishes from the unread samples `s`, the j-th at `clock(j)`. */
  function HopFrames(num: Numerics, window: seq<real>, s: seq<real>, clock: nat -> int, j: nat): seq<VisualizerFrame>
    requires Lawful(num) && |window| == FftSize
    decreases |s|
  {
    if |s| < FftSize then []
    else ToSeq(FrameOf(num, window, s[..FftSize], clock(j))) + HopFrames(num, window, s[HopSize..], clock, j + 1)
  }

  /** The samples the loop leaves unread. */
  function HopRest(s: seq<real>): seq<real>
    decreases |s|
  {
    if |s| < FftSize then s else HopRest(s[HopSize..])
  }

  lemma {:induction false} RunsClosedForm(a: nat)
    ensures Runs(a) == if a < FftSize then 0 else (a - FftSize) / HopSize + 1
  {
    if a >= FftSize {
      RunsClosedForm(a - HopSize);
    }
  }

  /**
   * The loop consumes one hop per run and stops with fewer than 2048 samples;
   * if it ran at all at least 1024 remain, and what remains is a suffix.
   */
  lemma {:induction false} HopRestIsSuffix(s: seq<real>)
    ensures HopSize * Runs(|s|) <= |s|
    ensures HopRest(s) == s[HopSize * Runs(|s|)..]
    ensures |HopRest(s)| < FftSize
    ensures Runs(|s|) > 0 ==> HopSize <= |HopRest(s)|
  {
    if |s| >= FftSize {
      HopRestIsSuffix(s[HopSize..]);
      assert s[HopSize..][HopSize * Runs(|s| - HopSize)..] == s[HopSize * Runs(|s|)..];
    }
  }

  /** Every window the loop would process from `s` yields a frame. */
  predicate AllWindowsValid(num: Numerics, window: seq<real>, s: seq<real>, clock: nat -> int, j: nat)
    requires Lawful(num) && |window| == FftSize
    decreases |s|
  {
    |s| < FftSize
    || (FrameOf(num, window, s[..FftSize], clock(j)).Some? && AllWindowsValid(num, window, s[HopSize..], clock, j + 1))
  }

  /** At most one frame per run is published, and exactly one per run iff every window is valid. */
  lemma {:induction false} HopFramesCount(num: Numerics, window: seq<real>, s: seq<real>, clock: nat -> int, j: nat)
    requires Lawful(num) && |window| == FftSize
    ensures |HopFrames(num, window, s, clock, j)| <= Runs(|s|)
    ensures |HopFrames(num, window, s, clock, j)| == Runs(|s|) <==> AllWindowsValid(num, window, s, clock, j)
    decreases |s|
  {
    if |s| >= FftSize {
      HopFramesCount(num, window, s[HopSize..], clock, j + 1);
    }
  }

  /** One run of the loop: one window's frame, one hop consumed. */
  lemma HopStep(num: Numerics, window: seq<real>, s: seq<real>, clock: nat -> int, j: nat)
    requires Lawful(num) && |window| == FftSize && FftSize <= |s|
    ensures HopFrames(num, window, s, clock, j)
      == ToSeq(FrameOf(num, window, s[..FftSize], clock(j))) + HopFrames(num, window, s[HopSize..], clock, j + 1)
    ensures Runs(|s|) == 1 + Runs(|s[HopSize..]|)
    ensures HopRest(s) == HopRest(s[HopSize..])
  {
  }

  /** The loop's invariants survive one run: what is published plus what is still to come stays the same. */
  lemma HopAdvance(num: Numerics, window: seq<real>, clock: nat -> int, j: nat,
                   before: seq<real>, emittedBefore: seq<VisualizerFrame>, emittedAfter: seq<VisualizerFrame>,
                   total: seq<VisualizerFrame>)
    requires Lawful(num) && |window| == FftSize && FftSize <= |before|
    requires emittedAfter == emittedBefore + ToSeq(FrameOf(num, window, before[..FftSize], clock(j)))
    requires emittedBefore + HopFrames(num, window, before, clock, j) == total
    ensures emittedAfter + HopFrames(num, window, before[HopSize..], clock, j + 1) == total
    ensures Runs(|before|) == 1 + Runs(|before[HopSize..]|)
    ensures HopRest(before) == HopRest(before[HopSize..])
  {
    HopStep(num, window, before, clock, j);
    var frame := ToSeq(FrameOf(num, window, before[..FftSize], clock(j)));
    var rest := HopFrames(num, window, before[HopSize..], clock, j + 1);
    Regroup(emittedBefore, frame, rest, total);
  }

  lemma Regroup(a: seq<VisualizerFrame>, b: seq<VisualizerFrame>, c: seq<VisualizerFrame>, total: seq<VisualizerFrame>)
    requires a + (b + c) == total
    ensures (a + b) + c == total
  {
  }

  /** 3072 samples from an empty buffer give 2 runs, 2047 give none, 2048 give one. */
  lemma OverlapExamples()
    ensures Runs(2048 + 1024) == 2
    ensures Runs(2047) == 0
    ensures Runs(2048) == 1
  {
    RunsClosedForm(3072);
    RunsClosedForm(2048);
  }

  // ---------------------------------------------------------------- processor

  /** The number of bytes a decode consumes: none if too few for one sample, else all remaining. */
  function DecodedPosition(encoding: int, pos: nat, limit: nat): nat
    requires pos <= limit
  {
    var width := if encoding == EncodingPcm16Bit then 2 else 4;
    if limit - pos < width then pos else limit
  }

  function DecodedSamples(num: Numerics, encoding: int, bytes: seq<byte>, pos: nat, limit: nat): seq<real>
    requires pos <= limit <= |bytes|
  {
    if encoding == EncodingPcm16Bit then Pcm16Samples(bytes, pos, limit) else FloatSamples(num, bytes, pos, limit)
  }

  class FftAudioProcessor {
    const num: Numerics
    const window: seq<real>
    const sampleBuffer: CircularFloatBuffer
    var inputAudioFormat: AudioFormat
    var isActive: bool
    /** Every frame handed to the publish sink so far, oldest first. */
    ghost var emitted: seq<VisualizerFrame>

    ghost predicate Valid()
      reads this, sampleBuffer, sampleBuffer.buffer
    {
      && Lawful(num)
      && window == HannWindow(num) && |window| == FftSize
      && sampleBuffer.Valid()
      && sampleBuffer.buffer.Length == BufferCapacity
    }

    constructor (num: Numerics)
      requires Lawful(num)
      ensures Valid() && fresh(sampleBuffer) && fresh(sampleBuffer.buffer)
      ensures this.num == num && !isActive && inputAudioFormat == NotSet
      ensures sampleBuffer.Contents == [] && emitted == []
    {
      this.num := num;
      window := HannWindow(num);
      sampleBuffer := new CircularFloatBuffer(FftSize * 4);
      inputAudioFormat := NotSet;
      isActive := false;
      emitted := [];
    }

    /** Records the format; processing is on exactly for PCM-16 and float PCM; the format passes through. */
    method OnConfigure(format: AudioFormat) returns (outputFormat: AudioFormat)
      modifies this`inputAudioFormat, this`isActive
      ensures outputFormat == format && inputAudioFormat == format
      ensures isActive <==> SupportedEncoding(format.encoding)
    {
      inputAudioFormat := format;
      isActive := format.encoding == EncodingPcm16Bit || format.encoding == EncodingPcmFloat;
      outputFormat := format;
    }

    /**
     * One render callback. Inactive: nothing happens. Active: the decoded,
     * downmixed samples join the ring buffer, and the loop publishes
     * `HopFrames` of the filled buffer, running `Runs` times and leaving
     * `HopRest` unread.
     */
    method QueueInput(inputBuffer: ByteBuffer, clock: nat -> int) returns (ghost runs: nat)
      requires Valid() && inputBuffer.Valid()
      modifies this`emitted, sampleBuffer, sampleBuffer.buffer, inputBuffer`position
      ensures Valid() && inputBuffer.Valid()
      ensures !(isActive && SupportedEncoding(inputAudioFormat.encoding)) ==>
        && emitted == old(emitted)
        && sampleBuffer.Contents == old(sampleBuffer.Contents)
        && inputBuffer.position == old(inputBuffer.position)
        && runs == 0
      ensures isActive && SupportedEncoding(inputAudioFormat.encoding) ==>
        var decoded := DecodedSamples(num, inputAudioFormat.encoding, inputBuffer.bytes, old(inputBuffer.position), inputBuffer.limit);
        var filled := Newest(old(sampleBuffer.Contents) + Downmix(inputAudioFormat, decoded), BufferCapacity);
        && inputBuffer.position == DecodedPosition(inputAudioFormat.encoding, old(inputBuffer.position), inputBuffer.limit)
        && runs == Runs(|filled|)
        && sampleBuffer.Contents == HopRest(filled)
        && emitted == old(emitted) + HopFrames(num, window, filled, clock, 0)
    {
      runs := 0;
      if !isActive {
        return;
      }
      var samples: seq<real>;
      if inputAudioFormat.encoding == EncodingPcm16Bit {
        samples := ConvertPcm16ToFloat(inputBuffer);
      } else if inputAudioFormat.encoding == EncodingPcmFloat {
        samples := ConvertPcmFloatToFloat(inputBuffer);
      } else {
        return;
      }
      var monoSamples := samples;
      if inputAudioFormat.channelCount == 2 {
        monoSamples := ConvertStereoToMono(samples);
      }
      sampleBuffer.Write(monoSamples);
      runs := ProcessAvailable(clock);
    }

    /** The `while` loop of `queueInput`: one frame per hop while a full window is buffered. */
    method ProcessAvailable(clock: nat -> int) returns (ghost runs: nat)
      requires Valid()
      modifies this`emitted, sampleBuffer
      ensures Valid()
      ensures runs == Runs(|old(sampleBuffer.Contents)|)
      ensures sampleBuffer.Contents == HopRest(old(sampleBuffer.Contents))
      ensures emitted == old(emitted) + HopFrames(num, window, old(sampleBuffer.Contents), clock, 0)
    {
      ghost var filled := sampleBuffer.Contents;
      ghost var total := emitted + HopFrames(num, window, filled, clock, 0);
      var j: nat := 0;
      while sampleBuffer.HasAvailable(FftSize)
        invariant Valid()
        invariant j + Runs(|sampleBuffer.Contents|) == Runs(|filled|)
        invariant HopRest(sampleBuffer.Contents) == HopRest(filled)
        invariant emitted + HopFrames(num, window, sampleBuffer.Contents, clock, j) == total
        decreases |sampleBuffer.Contents|
      {
        ghost var before := sampleBuffer.Contents;
        ghost var emittedBefore := emitted;
        Hop(clock(j));
        HopAdvance(num, window, clock, j, before, emittedBefore, emitted, total);
        j := j + 1;
      }
      runs := j;
    }

    /** One run of the loop: publish the frame of the current window, then advance by the hop. */
    method Hop(timestamp: int)
      requires Valid() && |sampleBuffer.Contents| >= FftSize
      modifies this`emitted, sampleBuffer
      ensures Valid()
      ensures sampleBuffer.Contents == old(sampleBuffer.Contents)[HopSize..]
      ensures emitted == old(emitted) + ToSeq(FrameOf(num, window, old(sampleBuffer.Contents)[..FftSize], timestamp))
    {
      ProcessFrame(timestamp);
      sampleBuffer.Advance(HopSize);  // overlap: advance by the hop, not the window
    }

    /** Publishes the frame of the first 2048 unread samples, if it is valid; consumes nothing. */
    method ProcessFrame(timestamp: int)
      requires Valid() && |sampleBuffer.Contents| >= FftSize
      modifies this`emitted
      ensures emitted == old(emitted) + ToSeq(FrameOf(num, window, sampleBuffer.Contents[..FftSize], timestamp))
    {
      var read := sampleBuffer.Read(FftSize);
      var samples := read[..];
      if exists i :: 0 <= i < FftSize && !num.isFinite(samples[i]) {
        return;
      }
      var windowed := seq(FftSize, i requires 0 <= i < FftSize => samples[i] * window[i]);
      var fftOutput := num.realForward(windowed);
      var magnitudes := ComputeMagnitudes(fftOutput);
      if exists i :: 0 <= i < |magnitudes| && !num.isFinite(magnitudes[i]) {
        return;
      }
      var rms := Clamp01(num.sqrt(SumSquares(samples) / FftSize as real));
      var frame := VisualizerFrame(magnitudes, rms, timestamp);
      emitted := emitted + [frame];
    }

    /** The 1024 normalised bin magnitudes of a packed real-FFT output. */
    method ComputeMagnitudes(fftOutput: seq<real>) returns (magnitudes: seq<real>)
      requires |fftOutput| == FftSize
      ensures magnitudes == Magnitudes(num, fftOutput)
    {
      var numBins := FftSize / 2;
      var m := new real[numBins](_ => 0.0);
      m[0] := Abs(fftOutput[0]);
      if numBins > 1 {
        m[numBins - 1] := Abs(fftOutput[1]);
      }
      for i := 1 to numBins - 1
        invariant m[0] == RawBin(num, fftOutput, 0)
        invariant m[numBins - 1] == RawBin(num, fftOutput, numBins - 1)
        invariant forall k :: 1 <= k < i ==> m[k] == RawBin(num, fftOutput, k)
      {
        var re := fftOutput[2 * i];
        var im := fftOutput[2 * i + 1];
        m[i] := PairMagnitude(num, re, im);
        assert i != 0 && i != NumBins - 1;
        assert m[i] == RawBin(num, fftOutput, i);
      }
      assert m[..] == RawBins(num, fftOutput);
      NormalizeInPlace(m);
      magnitudes := m[..];
    }

    method ConvertPcm16ToFloat(buffer: ByteBuffer) returns (samples: seq<real>)
      requires buffer.Valid()
      modifies buffer`position
      ensures buffer.Valid()
      ensures samples == Pcm16Samples(buffer.bytes, old(buffer.position), buffer.limit)
      ensures buffer.position == DecodedPosition(EncodingPcm16Bit, old(buffer.position), buffer.limit)
    {
      var remaining := buffer.limit - buffer.position;
      if remaining < 2 {
        return [];
      }
      var out := new real[remaining / 2](_ => 0.0);
      var start := buffer.position;
      for i := 0 to out.Length
        invariant buffer.position == start
        invariant forall k :: 0 <= k < i ==> out[k] == Int16At(buffer.bytes, start + 2 * k) as real / 32768.0
      {
        out[i] := Int16At(buffer.bytes, start + 2 * i) as real / 32768.0;
      }
      buffer.position := buffer.position + remaining;
      samples := out[..];
    }

    method ConvertPcmFloatToFloat(buffer: ByteBuffer) returns (samples: seq<real>)
      requires buffer.Valid()
      modifies buffer`position
      ensures buffer.Valid()
      ensures samples == FloatSamples(num, buffer.bytes, old(buffer.position), buffer.limit)
      ensures buffer.position == DecodedPosition(EncodingPcmFloat, old(buffer.position), buffer.limit)
    {
      var remaining := buffer.limit - buffer.position;
      if remaining < 4 {
        return [];
      }
      var out := new real[remaining / 4](_ => 0.0);
      var start := buffer.position;
      for i := 0 to out.Length
        invariant buffer.position == start
        invariant forall k :: 0 <= k < i ==> out[k] == num.floatFromBytes(buffer.bytes[start + 4 * k..start + 4 * k + 4])
      {
        out[i] := num.floatFromBytes(buffer.bytes[start + 4 * i..start + 4 * i + 4]);
      }
      buffer.position := buffer.position + remaining;
      samples := out[..];
    }

    method ConvertStereoToMono(stereo: seq<real>) returns (mono: seq<real>)
      ensures mono == StereoToMono(stereo)
    {
      if |stereo| < 2 {
        return stereo;
      }
      var out := new real[|stereo| / 2](_ => 0.0);
      for i := 0 to out.Length
        invariant forall k :: 0 <= k < i ==> out[k] == Mix(stereo, k)
      {
        out[i] := (stereo[2 * i] + stereo[2 * i + 1]) / 2.0;
      }
      mono := out[..];
      assert mono == StereoToMono(stereo);
    }

    /** Drops all buffered samples; the active flag is kept. */
    method OnFlush()
      requires Valid()
      modifies sampleBuffer
      ensures Valid() && sampleBuffer.Contents == []
    {
      sampleBuffer.Clear();
    }

    /** Drops all buffered samples and switches processing off. */
    method OnReset()
      requires Valid()
      modifies sampleBuffer, this`isActive
      ensures Valid() && sampleBuffer.Contents == [] && !isActive
    {
      sampleBuffer.Clear();
      isActive := false;
    }
  }
}
