/** The chunking that GenericMetricSink.Flush performs on its input: take
    the first min(remaining, BatchSize) samples as one batch, continue with
    the rest, until nothing remains. */
module Batching {

  /** The smaller of two integers. */
  function Min(a: int, b: int): int
  {
    if a <= b then a else b
  }

  /** The length of the next batch as Flush computes it, for any batch size:
      the configured size while more than that remains, else all that
      remains. */
  function NextBatchSize(remaining: int, batchSize: int): (n: int)
    ensures n <= remaining && n <= batchSize
    ensures n == remaining || n == batchSize
    ensures remaining > 0 && batchSize > 0 ==> 0 < n
  {
    Min(remaining, batchSize)
  }

  /** With a batch size of zero the batch taken from a non-empty remainder is
      empty and the remainder is left as it was, so Flush's loop makes no
      progress and never ends. */
  lemma ZeroBatchSizeStalls<T>(metrics: seq<T>)
    requires |metrics| > 0
    ensures NextBatchSize(|metrics|, 0) == 0
    ensures metrics[NextBatchSize(|metrics|, 0)..] == metrics
  {
  }

  /** With a negative batch size the computed batch length is negative, which
      is not a valid slice bound (the Go slice expression panics). */
  lemma NegativeBatchSizeIsNoSliceBound(remaining: nat, batchSize: int)
    requires batchSize < 0
    ensures NextBatchSize(remaining, batchSize) < 0
  {
  }

  /** The batches Flush hands to flushBatch, in call order: the first
      NextBatchSize(|s|, size) samples, then the batches of the rest. An
      empty input has no batches whatever the size, since the loop is then
      never entered. */
  function Batches<T>(s: seq<T>, size: int): seq<seq<T>>
    requires size > 0 || |s| == 0
    decreases |s|
  {
    if |s| == 0 then []
    else
      var n := NextBatchSize(|s|, size);
      [s[..n]] + Batches(s[n..], size)
  }

  /** Concatenation of a sequence of batches. */
  function Flatten<T>(batches: seq<seq<T>>): seq<T>
  {
    if batches == [] then [] else batches[0] + Flatten(batches[1..])
  }

  /** The lengths of a sequence of batches. */
  function Sizes<T>(batches: seq<seq<T>>): seq<nat>
  {
    if batches == [] then []
    else Sizes(batches[..|batches| - 1]) + [|batches[|batches| - 1]|]
  }

  /** One step of Flush's loop: the first batch, then the batches of the rest. */
  lemma BatchesStep<T>(s: seq<T>, size: int)
    requires size > 0 && |s| > 0
    ensures Batches(s, size) == [s[..NextBatchSize(|s|, size)]] + Batches(s[NextBatchSize(|s|, size)..], size)
  {
  }

  /** The loop's progress invariant survives taking the next batch. */
  lemma BatchesAdvance<T>(s: seq<T>, done: seq<seq<T>>, rest: seq<T>, size: int)
    requires size > 0 && |rest| > 0
    requires done + Batches(rest, size) == Batches(s, size)
    ensures var n := NextBatchSize(|rest|, size);
      (done + [rest[..n]]) + Batches(rest[n..], size) == Batches(s, size)
  {
    BatchesStep(rest, size);
  }

  lemma SizesAppend<T>(batches: seq<seq<T>>, batch: seq<T>)
    ensures Sizes(batches + [batch]) == Sizes(batches) + [|batch|]
  {
    assert (batches + [batch])[..|batches|] == batches;
  }

  /** Sizes lists the length of each batch, one entry per batch. */
  lemma {:induction false} SizesAt<T>(batches: seq<seq<T>>)
    ensures |Sizes(batches)| == |batches|
    ensures forall i :: 0 <= i < |batches| ==> Sizes(batches)[i] == |batches[i]|
  {
    if batches != [] {
      var init := batches[..|batches| - 1];
      SizesAt(init);
      forall i | 0 <= i < |init| ensures init[i] == batches[i] { }
    }
  }

  /** Flattening a sequence of batches with one more batch at the end. */
  lemma {:induction false} FlattenSnoc<T>(batches: seq<seq<T>>, batch: seq<T>)
    ensures Flatten(batches + [batch]) == Flatten(batches) + batch
  {
    if batches == [] {
      assert [batch][1..] == [];
      assert batch + [] == batch;
    } else {
      assert (batches + [batch])[1..] == batches[1..] + [batch];
      FlattenSnoc(batches[1..], batch);
    }
  }

  /** The batches in order reproduce the input: nothing is dropped,
      duplicated or reordered. */
  lemma {:induction false} BatchesConcat<T>(s: seq<T>, size: int)
    requires size > 0
    ensures Flatten(Batches(s, size)) == s
  {
    if |s| > 0 {
      var n := NextBatchSize(|s|, size);
      BatchesConcat(s[n..], size);
      assert s[..n] + s[n..] == s;
    }
  }

  /** Every batch is non-empty and holds at most size samples. */
  lemma {:induction false} BatchesBounded<T>(s: seq<T>, size: int)
    requires size > 0
    ensures forall b :: b in Batches(s, size) ==> 0 < |b| <= size
  {
    if |s| > 0 {
      BatchesBounded(s[NextBatchSize(|s|, size)..], size);
    }
  }

  /** There are ceil(|s| / size) batches; in particular none for an empty
      input. */
  lemma {:induction false} BatchesCount<T>(s: seq<T>, size: int)
    requires size > 0
    ensures |Batches(s, size)| == (|s| + size - 1) / size
  {
    if |s| == 0 {
      DivOfSmall(size - 1, size);
    } else if |s| <= size {
      assert |Batches(s[|s|..], size)| == 0;
      DivUnique(|s| + size - 1, size, 1);
    } else {
      BatchesCount(s[size..], size);
      DivUnique(|s| + size - 1, size, (|s| - 1) / size + 1);
    }
  }

  /** The i-th batch is the slice of the input from i * size up to
      (i + 1) * size, or to the end for the last one: the batches form a
      contiguous, order-preserving partition taken from the front. */
  lemma {:induction false} BatchesAt<T>(s: seq<T>, size: int, i: nat)
    requires size > 0
    requires i < |Batches(s, size)|
    ensures i * size < |s|
    ensures Batches(s, size)[i] == s[i * size .. Min((i + 1) * size, |s|)]
  {
    if i == 0 {
      BatchesStep(s, size);
      assert (i + 1) * size == size;
    } else {
      BatchesTail(s, size, i);
      BatchesAt(s[size..], size, i - 1);
      SliceShift(s, size, i);
    }
  }

  /** BatchesAt for every batch at once. */
  lemma BatchesAll<T>(s: seq<T>, size: int)
    requires size > 0
    ensures forall i :: 0 <= i < |Batches(s, size)| ==>
      i * size < |s| && Batches(s, size)[i] == s[i * size .. Min((i + 1) * size, |s|)]
  {
    forall i | 0 <= i < |Batches(s, size)|
      ensures i * size < |s| && Batches(s, size)[i] == s[i * size .. Min((i + 1) * size, |s|)]
    {
      BatchesAt(s, size, i);
    }
  }

  /** The length of batch i. */
  lemma BatchLength<T>(s: seq<T>, size: int, i: nat)
    requires size > 0
    requires i < |Batches(s, size)|
    ensures i * size < |s| && |Batches(s, size)[i]| == Min((i + 1) * size, |s|) - i * size
  {
    BatchesAt(s, size, i);
  }

  /** Past the first batch, the batches are those of what follows it. */
  lemma BatchesTail<T>(s: seq<T>, size: int, i: nat)
    requires size > 0
    requires 0 < i < |Batches(s, size)|
    ensures size < |s| && i - 1 < |Batches(s[size..], size)|
    ensures Batches(s, size)[i] == Batches(s[size..], size)[i - 1]
  {
    BatchesStep(s, size);
    assert |Batches(s[NextBatchSize(|s|, size)..], size)| > 0;
  }

  lemma SliceShift<T>(s: seq<T>, size: int, i: nat)
    requires size > 0 && 0 < i && size <= |s| && (i - 1) * size < |s| - size
    ensures i * size < |s|
    ensures s[size..][(i - 1) * size .. Min(i * size, |s| - size)] == s[i * size .. Min((i + 1) * size, |s|)]
  {
    var lo, hi := (i - 1) * size, Min(i * size, |s| - size);
    MulPred(i, size);
    MulPred(i + 1, size);
    SliceOfSlice(s, size, lo, hi);
  }

  lemma MulPred(i: int, size: int)
    ensures size + (i - 1) * size == i * size
  {
  }

  lemma DivOfSmall(a: nat, b: int)
    requires 0 <= a < b
    ensures a / b == 0
  {
  }

  /** A quotient is the q with q * b <= a < (q + 1) * b. */
  lemma DivUnique(a: int, b: int, q: int)
    requires b > 0 && q * b <= a < (q + 1) * b
    ensures a / b == q
  {
    var r := a / b;
    assert r * b <= a < r * b + b;
    assert r * b + b == (r + 1) * b;
    MulLessCancel(q, r + 1, b);
    MulLessCancel(r, q + 1, b);
  }

  lemma MulLessCancel(x: int, y: int, b: int)
    requires b > 0 && x * b < y * b
    ensures x < y
  {
  }

  lemma SliceOfSlice<T>(s: seq<T>, d: nat, lo: nat, hi: nat)
    requires d <= |s| && lo <= hi <= |s| - d
    ensures s[d..][lo..hi] == s[d + lo .. d + hi]
  {
  }
}
