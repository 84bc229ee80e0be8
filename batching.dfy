/** Cutting a sequence into consecutive chunks: the message batches of
    `maxBatchSize` (10,000) and the asset chunks of `concurrentLimit` (5). */
module Batching {
  import opened Json

  const MaxBatchSize: nat := 10000

  function Flatten<T>(ss: seq<seq<T>>): seq<T>
  {
    if ss == [] then [] else ss[0] + Flatten(ss[1..])
  }

  lemma {:induction false} FlattenSnoc<T>(ss: seq<seq<T>>, last: seq<T>)
    ensures Flatten(ss + [last]) == Flatten(ss) + last
  {
    if ss != [] {
      assert (ss + [last])[1..] == ss[1..] + [last];
      FlattenSnoc(ss[1..], last);
    }
  }

  /** Consecutive pieces of `s` of size `k`, the last one possibly shorter:
      what `for (i = 0; i < s.length; i += k) s.slice(i, i + k)` visits. */
  function Chunks<T>(s: seq<T>, k: nat): seq<seq<T>>
    requires k > 0
  {
    if s == [] then []
    else if |s| <= k then [s]
    else [s[..k]] + Chunks(s[k..], k)
  }

  /** The chunks partition `s` in order. */
  lemma {:induction false} ChunksFlatten<T>(s: seq<T>, k: nat)
    requires k > 0
    ensures Flatten(Chunks(s, k)) == s
  {
    if |s| > k {
      ChunksFlatten(s[k..], k);
      assert s[..k] + s[k..] == s;
    }
  }

  /** Every chunk holds between 1 and `k` elements, and every chunk but the
      last holds exactly `k`. */
  lemma {:induction false} ChunkSizes<T>(s: seq<T>, k: nat)
    requires k > 0
    ensures forall i :: 0 <= i < |Chunks(s, k)| ==> 1 <= |Chunks(s, k)[i]| <= k
    ensures forall i :: 0 <= i < |Chunks(s, k)| - 1 ==> |Chunks(s, k)[i]| == k
  {
    if |s| > k {
      ChunkSizes(s[k..], k);
      var c := Chunks(s, k);
      assert c == [s[..k]] + Chunks(s[k..], k);
      forall i | 1 <= i < |c| ensures c[i] == Chunks(s[k..], k)[i - 1] { }
    }
  }

  /** The chunk starting at `i` is `s[i..i+k]` clamped, followed by the chunks of the rest. */
  lemma ChunksUnfold<T>(s: seq<T>, i: nat, k: nat)
    requires k > 0 && i < |s|
    ensures var end := if i + k < |s| then i + k else |s|;
      Chunks(s[i..], k) == [s[i..end]] + Chunks(s[end..], k)
  {
    var end := if i + k < |s| then i + k else |s|;
    if i + k < |s| {
      assert s[i..][..k] == s[i..end];
      assert s[i..][k..] == s[end..];
    } else {
      assert s[i..] == s[i..end];
      assert s[end..] == [];
    }
  }

  /** Full batches followed by a shorter current batch are exactly the
      chunking of everything pushed so far, once the current batch is
      appended when non-empty. */
  lemma {:induction false} ChunksOfFullBatches<T>(batches: seq<seq<T>>, current: seq<T>, k: nat)
    requires k > 0
    requires forall i :: 0 <= i < |batches| ==> |batches[i]| == k
    requires |current| < k
    ensures Chunks(Flatten(batches) + current, k) == batches + (if current == [] then [] else [current])
  {
    if batches != [] {
      var s := Flatten(batches) + current;
      var rest := Flatten(batches[1..]) + current;
      assert s == batches[0] + rest;
      ChunksOfFullBatches(batches[1..], current, k);
      if |s| <= k {
        assert rest == [];
        assert current == [];
        assert batches[1..] == Chunks(rest, k) == [];
        assert batches == [batches[0]];
      } else {
        assert s[..k] == batches[0];
        assert s[k..] == rest;
        assert Chunks(s, k) == [batches[0]] + Chunks(rest, k);
        assert batches == [batches[0]] + batches[1..];
      }
    } else {
      assert Flatten(batches) + current == current;
    }
  }

  /** The shared `currentBatch` / `messageBatches` pair of `importSlackZip`. */
  class Batcher {
    var currentBatch: seq<Value>
    var batches: seq<seq<Value>>

    /** Flushed batches are full and the current batch never reaches the limit. */
    ghost predicate Valid()
      reads this
    {
      (forall i :: 0 <= i < |batches| ==> |batches[i]| == MaxBatchSize) &&
      |currentBatch| < MaxBatchSize
    }

    /** Every message pushed so far, in push order. */
    ghost function Pushed(): seq<Value>
      reads this
    {
      Flatten(batches) + currentBatch
    }

    constructor ()
      ensures Valid() && batches == [] && currentBatch == [] && Pushed() == []
    {
      currentBatch := [];
      batches := [];
    }

    /** `currentBatch.push(msg)`, then flush when the batch reaches `maxBatchSize`. */
    method Push(msg: Value)
      requires Valid()
      modifies this
      ensures Valid()
      ensures Pushed() == old(Pushed()) + [msg]
      ensures |old(currentBatch)| + 1 == MaxBatchSize ==>
        batches == old(batches) + [old(currentBatch) + [msg]] && currentBatch == []
      ensures |old(currentBatch)| + 1 < MaxBatchSize ==>
        batches == old(batches) && currentBatch == old(currentBatch) + [msg]
    {
      currentBatch := currentBatch + [msg];
      if |currentBatch| >= MaxBatchSize {
        FlattenSnoc(batches, currentBatch);
        batches := batches + [currentBatch];
        currentBatch := [];
      }
    }

    /** After all files: `if (currentBatch.length > 0) messageBatches.push(currentBatch)`.
        The batches are then the chunking of everything pushed. */
    method Finish()
      requires Valid()
      modifies this
      ensures batches == Chunks(old(Pushed()), MaxBatchSize)
      ensures currentBatch == old(currentBatch)
    {
      ChunksOfFullBatches(batches, currentBatch, MaxBatchSize);
      if |currentBatch| > 0 {
        batches := batches + [currentBatch];
      }
    }
  }
}
