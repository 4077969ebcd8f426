/** How the program cuts its flat sample buffer into encoder frames: blocks of `frameSize`
    samples starting at 0, F, 2F, ..., each frame's pts being its start offset. The loop stops as
    soon as the next block would reach the end of the buffer (`frameSize + i >= length`), so the
    trailing samples are dropped, never padded, and a last block ending exactly at the end of the
    buffer is dropped as well. */
module AudioBlocks {
  import opened Media

  /** The number of blocks the loop emits for a buffer of `length` samples. */
  function BlockCount(length: int, frameSize: int): nat
    requires frameSize > 0
    decreases length
  {
    if frameSize >= length then 0 else 1 + BlockCount(length - frameSize, frameSize)
  }

  /** Block k is emitted exactly when it ends strictly inside the buffer. */
  lemma {:induction false} BlockCountCharacterised(length: int, frameSize: int, k: nat)
    requires frameSize > 0
    ensures k < BlockCount(length, frameSize) <==> (k + 1) * frameSize < length
    decreases length
  {
    if frameSize < length && k > 0 {
      BlockCountCharacterised(length - frameSize, frameSize, k - 1);
      assert (k + 1) * frameSize == k * frameSize + frameSize;
    } else if k > 0 {
      assert (k + 1) * frameSize == k * frameSize + frameSize;
      assert k * frameSize >= 0;
    }
  }

  /** The samples left over are between 1 and `frameSize`: nothing is padded, and at most one
      block's worth is dropped. (That each emitted block lies inside the buffer is
      `BlockCountCharacterised`.) */
  lemma DroppedTail(length: int, frameSize: int)
    requires frameSize > 0 && length > 0
    ensures 0 < length - BlockCount(length, frameSize) * frameSize <= frameSize
  {
    var n := BlockCount(length, frameSize);
    BlockCountCharacterised(length, frameSize, n);
    if n > 0 {
      BlockCountCharacterised(length, frameSize, n - 1);
      assert (n - 1 + 1) * frameSize == n * frameSize;
    }
  }

  /** The closed form: (length - 1) / frameSize blocks for a non-empty buffer. */
  lemma BlockCountClosedForm(length: int, frameSize: int)
    requires frameSize > 0
    ensures BlockCount(length, frameSize) == if length > 0 then (length - 1) / frameSize else 0
  {
    if length > 0 {
      var n := BlockCount(length, frameSize);
      DroppedTail(length, frameSize);
      DivisionPinned(length - 1, frameSize, n);
    } else {
      assert frameSize >= length;
    }
  }

  lemma DivisionPinned(x: int, d: int, q: int)
    requires d > 0 && q * d <= x < q * d + d
    ensures x / d == q
  {
    var q', r' := x / d, x % d;
    assert x == q' * d + r' && 0 <= r' < d;
    if q' < q {
      assert (q' + 1) * d == q' * d + d;
      MultiplicationMonotonic(q' + 1, q, d);
    } else if q < q' {
      assert (q + 1) * d == q * d + d;
      MultiplicationMonotonic(q + 1, q', d);
    }
  }

  lemma {:induction false} MultiplicationMonotonic(a: int, b: int, d: int)
    requires a <= b && d >= 0
    ensures a * d <= b * d
    decreases b - a
  {
    if a < b {
      MultiplicationMonotonic(a + 1, b, d);
      assert (a + 1) * d == a * d + d;
    }
  }

  /** A buffer holding a whole number of blocks loses its last full block. */
  lemma ExactFitDropsLastBlock(length: int, frameSize: int)
    requires frameSize > 0 && length > 0 && length % frameSize == 0
    ensures BlockCount(length, frameSize) == length / frameSize - 1
    ensures length - BlockCount(length, frameSize) * frameSize == frameSize
  {
    var q := length / frameSize;
    assert length == q * frameSize;
    assert q >= 1 by {
      if q < 1 {
        MultiplicationMonotonic(q, 0, frameSize);
      }
    }
    assert (q - 1) * frameSize == q * frameSize - frameSize;
    BlockCountClosedForm(length, frameSize);
    DivisionPinned(length - 1, frameSize, q - 1);
  }

  /** For the program's 20 seconds at 44100 Hz in frames of 1024 samples: 861 blocks. */
  lemma TestMovieBlockCount()
    ensures BlockCount(20 * 44100, 1024) == 861
    ensures 20 * 44100 - 861 * 1024 == 336
  {
    BlockCountClosedForm(20 * 44100, 1024);
  }

  /** The frame for the block starting at `start`: it points at `start` and carries pts `start`. */
  function BlockFrame(start: int, frameSize: int, channels: int, sampleRate: int): Frame
  {
    AudioFrame(Flt, frameSize, channels, sampleRate, start, start)
  }
}
