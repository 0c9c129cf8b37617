/** The two capacity rules of the event engine's batch queue
    (`cmcdBatchArray`), as functions of sequences: the trim after an append,
    which evicts the oldest records, and the requeue after a failed send, which
    puts the failed batch back at the head and drops its oldest records when
    the queue would otherwise exceed its capacity. */
module BatchQueue {

  function Min(a: int, b: int): int
  {
    if a <= b then a else b
  }

  /** `s.slice(start)`: the elements from `start` on, or none when `start` is
      past the end. */
  function SliceFrom<T>(s: seq<T>, start: nat): seq<T>
  {
    if start <= |s| then s[start..] else []
  }

  /** `queue.push(rec)` followed by `queue.splice(0, overflow)` when the queue
      is longer than `batchSize`. */
  function Appended<T>(queue: seq<T>, rec: T, batchSize: nat): seq<T>
  {
    var pushed := queue + [rec];
    if |pushed| > batchSize then
      var overflow := |pushed| - batchSize;
      pushed[overflow..]
    else pushed
  }

  /** After an append the queue holds the newest `min(|queue| + 1, batchSize)`
      records of `queue + [rec]`, in their original order. */
  lemma {:induction false} AppendedKeepsNewest<T>(queue: seq<T>, rec: T, batchSize: nat)
    ensures var r := Appended(queue, rec, batchSize);
      |r| == Min(|queue| + 1, batchSize) && queue + [rec] == (queue + [rec])[..|queue| + 1 - |r|] + r
  {
    var pushed := queue + [rec];
    var r := Appended(queue, rec, batchSize);
    assert pushed == pushed[..|pushed| - |r|] + pushed[|pushed| - |r|..];
  }

  /** The capacity bound holds after every append, and the record just
      appended is the newest one kept whenever anything is kept; nothing but
      the oldest record is lost from a queue that was within its bound. */
  lemma AppendedWithinBound<T>(queue: seq<T>, rec: T, batchSize: nat)
    requires |queue| <= batchSize
    ensures |Appended(queue, rec, batchSize)| <= batchSize
    ensures batchSize > 0 ==> Appended(queue, rec, batchSize)[|Appended(queue, rec, batchSize)| - 1] == rec
    ensures Appended(queue, rec, batchSize) ==
      if |queue| < batchSize then queue + [rec]
      else if batchSize == 0 then []
      else queue[1..] + [rec]
  {
    var pushed := queue + [rec];
    if |queue| == batchSize && batchSize > 0 {
      assert pushed[1..] == queue[1..] + [rec];
    }
  }

  /** The queue after a failed send of `batch` while `current` was queued:
      the failed records go back in front of the newer ones, minus the oldest
      `overflow` of them when the total would exceed `batchSize`. */
  function Requeued<T>(batch: seq<T>, current: seq<T>, batchSize: nat): seq<T>
  {
    var totalSize := |current| + |batch|;
    if totalSize > batchSize then
      var overflow := totalSize - batchSize;
      SliceFrom(batch, overflow) + current
    else batch + current
  }

  /** When the queue held at most `batchSize` records during the send, the
      trim never goes past the end of the failed batch, the requeued queue is
      within its bound, it keeps every record that arrived during the send,
      after the newest `min(|batch|, batchSize - |current|)` records of the
      failed batch. */
  lemma {:induction false} RequeuedWithinBound<T>(batch: seq<T>, current: seq<T>, batchSize: nat)
    requires |current| <= batchSize
    ensures |current| + |batch| > batchSize ==> |current| + |batch| - batchSize <= |batch|
    ensures var r := Requeued(batch, current, batchSize);
      |r| == Min(|batch| + |current|, batchSize)
      && r == batch[|batch| - (|r| - |current|)..] + current
  {
    var totalSize := |current| + |batch|;
    if totalSize > batchSize {
      var overflow := totalSize - batchSize;
      assert SliceFrom(batch, overflow) == batch[overflow..];
    } else {
      assert batch[0..] == batch;
    }
  }

  /** The requeued queue is always the combined queue `batch + current` with
      some of its oldest records removed, never reordered. */
  lemma RequeuedIsSuffix<T>(batch: seq<T>, current: seq<T>, batchSize: nat)
    ensures var r := Requeued(batch, current, batchSize);
      |r| <= |batch| + |current| && r == (batch + current)[|batch| + |current| - |r|..]
  {
    var r := Requeued(batch, current, batchSize);
    var totalSize := |current| + |batch|;
    if totalSize > batchSize {
      var overflow := totalSize - batchSize;
      if overflow <= |batch| {
        assert r == batch[overflow..] + current;
        assert (batch + current)[overflow..] == batch[overflow..] + current;
      } else {
        assert r == current;
        assert (batch + current)[|batch|..] == current;
      }
    } else {
      assert (batch + current)[0..] == batch + current;
    }
  }

  /** The failed batch `[A, B, C]` with `[D, E]` queued during the send and a
      capacity of 4 becomes `[B, C, D, E]`. */
  lemma RequeueExample(a: int, b: int, c: int, d: int, e: int)
    ensures Requeued([a, b, c], [d, e], 4) == [b, c, d, e]
  {
    assert [a, b, c][1..] == [b, c];
  }
}
