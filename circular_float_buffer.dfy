/**
 * The fixed-capacity circular store of float samples that the FFT processor
 * accumulates audio in (CircularFloatBuffer.kt). Samples are reals.
 */
module RingBuffer {

  /** The newest `n` elements of `s`: all of `s` when it has at most `n`. */
  function Newest(s: seq<real>, n: nat): seq<real> {
    if |s| <= n then s else s[|s| - n..]
  }

  lemma NewestLength(s: seq<real>, n: nat)
    ensures |Newest(s, n)| == if |s| <= n then |s| else n
  {
  }

  /** Adding one element to a sequence keeps the newest-`n` window sliding by one. */
  lemma NewestSnoc(s: seq<real>, x: real, n: nat)
    requires 0 < n
    ensures Newest(s + [x], n) ==
      (if |Newest(s, n)| < n then Newest(s, n) + [x] else Newest(s, n)[1..] + [x])
  {
    if |s| + 1 > n && |s| >= n {
      assert (s + [x])[|s| + 1 - n..] == s[|s| - n..][1..] + [x];
    }
  }

  /** One step of writing `samples` into a window of the newest `n`. */
  lemma WriteStep(initial: seq<real>, samples: seq<real>, i: nat, window: seq<real>, n: nat)
    requires 0 < n && i < |samples|
    requires window == Newest(initial + samples[..i], n)
    ensures Newest(initial + samples[..i + 1], n) ==
      (if |window| < n then window + [samples[i]] else window[1..] + [samples[i]])
  {
    NewestSnoc(initial + samples[..i], samples[i], n);
    assert initial + samples[..i + 1] == (initial + samples[..i]) + [samples[i]];
  }

  /** `a % cap` for an `a` below twice the capacity, without the modulus. */
  function Wrap(a: nat, cap: nat): nat
    requires 0 < cap && a < 2 * cap
  {
    if a < cap then a else a - cap
  }

  lemma ModIsWrap(a: nat, cap: nat)
    requires 0 < cap && a < 2 * cap
    ensures a % cap == Wrap(a, cap)
  {
    if a >= cap {
      assert a == cap * 1 + (a - cap);
    }
  }

  class CircularFloatBuffer {
    const buffer: array<real>
    var writePos: nat
    var readPos: nat
    var size: nat
    /** The unread samples, oldest first. */
    ghost var Contents: seq<real>

    ghost predicate Valid()
      reads this, buffer
    {
      && 0 < buffer.Length
      && readPos < buffer.Length
      && size <= buffer.Length
      && |Contents| == size
      && writePos == Wrap(readPos + size, buffer.Length)
      && forall k :: 0 <= k < size ==> buffer[Wrap(readPos + k, buffer.Length)] == Contents[k]
    }

    constructor (capacity: nat)
      requires 0 < capacity
      ensures Valid() && fresh(buffer)
      ensures buffer.Length == capacity && Contents == []
      ensures readPos == 0 && writePos == 0 && size == 0
    {
      buffer := new real[capacity](_ => 0.0);
      writePos, readPos, size := 0, 0, 0;
      Contents := [];
    }

    /**
     * Appends every sample; once full, each new sample overwrites the oldest
     * one, so the unread samples are the newest `capacity` of old ++ samples.
     */
    method Write(samples: seq<real>)
      requires Valid()
      modifies this, buffer
      ensures Valid()
      ensures Contents == Newest(old(Contents) + samples, buffer.Length)
      ensures size == if old(size) + |samples| <= buffer.Length then old(size) + |samples| else buffer.Length
    {
      ghost var initial := Contents;
      for i := 0 to |samples|
        invariant Valid()
        invariant Contents == Newest(initial + samples[..i], buffer.Length)
      {
        WriteStep(initial, samples, i, Contents, buffer.Length);
        Put(samples[i]);
      }
      assert samples[..|samples|] == samples;
      NewestLength(initial + samples, buffer.Length);
    }

    /** One iteration of the loop in `write`: store `x`, evicting the oldest sample when full. */
    method Put(x: real)
      requires Valid()
      modifies this, buffer
      ensures Valid()
      ensures Contents == if old(size) < buffer.Length then old(Contents) + [x] else old(Contents)[1..] + [x]
    {
      var cap := buffer.Length;
      buffer[writePos] := x;
      ModIsWrap(writePos + 1, cap);
      writePos := (writePos + 1) % cap;
      if size < cap {
        size := size + 1;
        Contents := Contents + [x];
      } else {
        // Buffer full: the oldest sample is dropped
        ModIsWrap(readPos + 1, cap);
        readPos := (readPos + 1) % cap;
        Contents := Contents[1..] + [x];
      }
    }

    /** The first `count` unread samples, in order; nothing is consumed. */
    method Read(count: nat) returns (result: array<real>)
      requires Valid()
      requires count <= size
      ensures fresh(result)
      ensures result[..] == Contents[..count]
    {
      result := new real[count](_ => 0.0);
      for i := 0 to count
        invariant forall k :: 0 <= k < i ==> result[k] == Contents[k]
      {
        ModIsWrap(readPos + i, buffer.Length);
        result[i] := buffer[(readPos + i) % buffer.Length];
      }
    }

    /** Consumes the first `count` unread samples. */
    method Advance(count: nat)
      requires Valid()
      requires count <= size
      modifies this
      ensures Valid()
      ensures Contents == old(Contents)[count..]
      ensures size == old(size) - count && writePos == old(writePos)
    {
      ModIsWrap(readPos + count, buffer.Length);
      readPos := (readPos + count) % buffer.Length;
      size := size - count;
      Contents := Contents[count..];
    }

    function Available(): (n: nat)
      reads this, buffer
      requires Valid()
      ensures n == |Contents|
    {
      size
    }

    method Clear()
      requires Valid()
      modifies this
      ensures Valid()
      ensures Contents == [] && writePos == 0 && readPos == 0 && size == 0
    {
      writePos, readPos, size := 0, 0, 0;
      Contents := [];
    }

    function HasAvailable(count: int): (b: bool)
      reads this, buffer
      requires Valid()
      ensures b <==> |Contents| >= count
    {
      size >= count
    }
  }
}
