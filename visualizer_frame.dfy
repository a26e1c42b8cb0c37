/**
 * The spectrum frame value (VisualizerFrame.kt): per-bin magnitudes, an RMS
 * loudness and a capture timestamp, with hand-written content equality and
 * hash code, and the EMPTY sentinel.
 */
module Frames {

  datatype VisualizerFrame = VisualizerFrame(magnitudes: seq<real>, rms: real, timestampMs: int)

  /** Zero-length magnitudes, rms 0, timestamp 0. */
  const Empty: VisualizerFrame := VisualizerFrame([], 0.0, 0)

  /** A JVM object reference as `equals` sees its argument. */
  datatype FrameRef = FrameRef(identity: nat, frame: VisualizerFrame)
  datatype AnyRef = NullRef | OtherClass | AFrame(ref: FrameRef)

  /** A heap in which one identity always denotes one frame. */
  ghost predicate SameIdentitySameFrame(a: FrameRef, b: FrameRef) {
    a.identity == b.identity ==> a.frame == b.frame
  }

  /** `VisualizerFrame.equals`: identity, class check, then field by field. */
  predicate Equals(self: FrameRef, other: AnyRef) {
    if other.AFrame? && other.ref.identity == self.identity then true
    else if !other.AFrame? then false
    else if self.frame.magnitudes != other.ref.frame.magnitudes then false
    else if self.frame.rms != other.ref.frame.rms then false
    else if self.frame.timestampMs != other.ref.frame.timestampMs then false
    else true
  }

  /**
   * The hand-written `equals` is exactly value equality of the three fields:
   * the same reference is equal, null and other classes are not.
   */
  lemma EqualsIsContentEquality(self: FrameRef, other: AnyRef)
    requires other.AFrame? ==> SameIdentitySameFrame(self, other.ref)
    ensures Equals(self, other) <==> other.AFrame? && other.ref.frame == self.frame
    ensures other == AFrame(self) ==> Equals(self, other)
    ensures !other.AFrame? ==> !Equals(self, other)
  {
  }

  /** Kotlin `Int` arithmetic: the value modulo 2^32 in two's complement. */
  function Int32(x: int): (r: int)
    ensures -0x8000_0000 <= r < 0x8000_0000
    ensures (r - x) % 0x1_0000_0000 == 0
  {
    var m := x % 0x1_0000_0000;
    if m >= 0x8000_0000 then m - 0x1_0000_0000 else m
  }

  /** `Long.hashCode()`: the two 32-bit halves exclusive-or'ed together. */
  function LongHash(v: int): (r: int)
    ensures -0x8000_0000 <= r < 0x8000_0000
  {
    var b := (v % 0x1_0000_0000_0000_0000) as bv64;
    Int32(((b ^ (b >> 32)) & 0xFFFF_FFFF) as int)
  }

  /** `FloatArray.contentHashCode()`, given `Float.hashCode` as `floatHash`. */
  function ContentHash(s: seq<real>, floatHash: real -> int): int {
    if s == [] then 1
    else Int32(31 * ContentHash(s[..|s| - 1], floatHash) + floatHash(s[|s| - 1]))
  }

  function HashCode(f: VisualizerFrame, floatHash: real -> int): int {
    var result := ContentHash(f.magnitudes, floatHash);
    var result' := Int32(31 * result + floatHash(f.rms));
    Int32(31 * result' + LongHash(f.timestampMs))
  }

  /** Equal frames have equal hash codes: both are built from the same three fields. */
  lemma EqualsImpliesEqualHash(self: FrameRef, other: FrameRef, floatHash: real -> int)
    requires SameIdentitySameFrame(self, other)
    requires Equals(self, AFrame(other))
    ensures HashCode(self.frame, floatHash) == HashCode(other.frame, floatHash)
  {
  }
}
