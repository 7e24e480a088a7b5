/** The batch executor of the tiled path: the patch list is cut into the slices
    `patches[i : i + batch_size]` for `i` in `range(0, len(patches), batch_size)`,
    the model is called on each slice in turn and the outputs are appended in
    order (ISR/predict/predictor.py:167-173). */
module Batching {
  import opened Sequences

  /** The slices taken from start index `i` on: `s[i : i + b]`, `s[i + b : i + 2b]`, ...
      while the start is below `|s|`; Python's slice stops at the end of `s`. */
  function ChunksFrom<A>(s: seq<A>, b: nat, i: nat): seq<seq<A>>
    requires b >= 1
    decreases |s| - i
  {
    if i >= |s| then [] else [s[i..Min(i + b, |s|)]] + ChunksFrom(s, b, i + b)
  }

  /** The slices the loop hands to the model, in loop order. */
  function Chunks<A>(s: seq<A>, b: nat): seq<seq<A>>
    requires b >= 1
  {
    ChunksFrom(s, b, 0)
  }

  /** What `collect` holds after the loop: the model's outputs for the slices,
      concatenated in loop order. */
  function Collected<A, B>(predict: seq<A> -> seq<B>, patches: seq<A>, b: nat): seq<B>
    requires b >= 1
  {
    Flatten(MapSeq(predict, Chunks(patches, b)))
  }

  /** Slice `k` (counting from start `i`) begins at `i + k*b`, which is below `|s|`,
      ends at `i + k*b + b` or at the end of `s`, holds between one and `b`
      elements, and has exactly `b` elements unless it is the last one. */
  lemma {:induction false} ChunksFromAt<A>(s: seq<A>, b: nat, i: nat, k: nat)
    requires b >= 1
    requires k < |ChunksFrom(s, b, i)|
    ensures i + k * b < |s|
    ensures ChunksFrom(s, b, i)[k] == s[i + k * b..Min(i + k * b + b, |s|)]
    ensures 1 <= |ChunksFrom(s, b, i)[k]| <= b
    ensures k + 1 < |ChunksFrom(s, b, i)| ==> |ChunksFrom(s, b, i)[k]| == b
    decreases k
  {
    if k == 0 {
      if 1 < |ChunksFrom(s, b, i)| {
        assert ChunksFrom(s, b, i + b) != [];
      }
    } else {
      assert ChunksFrom(s, b, i)[k] == ChunksFrom(s, b, i + b)[k - 1];
      ChunksFromAt(s, b, i + b, k - 1);
      assert i + b + (k - 1) * b == i + k * b;
    }
  }

  /** The loop starts are 0, b, 2b, ... : slice `k` is `patches[k*b : k*b + b]`. */
  lemma ChunkAt<A>(s: seq<A>, b: nat, k: nat)
    requires b >= 1
    requires k < |Chunks(s, b)|
    ensures k * b < |s|
    ensures Chunks(s, b)[k] == s[k * b..Min(k * b + b, |s|)]
    ensures 1 <= |Chunks(s, b)[k]| <= b
    ensures k + 1 < |Chunks(s, b)| ==> |Chunks(s, b)[k]| == b
  {
    ChunksFromAt(s, b, 0, k);
  }

  lemma {:induction false} ChunksFromCount<A>(s: seq<A>, b: nat, i: nat)
    requires b >= 1
    requires i <= |s|
    ensures |ChunksFrom(s, b, i)| * b >= |s| - i
    ensures |ChunksFrom(s, b, i)| * b < |s| - i + b
    decreases |s| - i
  {
    if i < |s| {
      var n := |ChunksFrom(s, b, i + b)|;
      if i + b <= |s| {
        ChunksFromCount(s, b, i + b);
      } else {
        assert n == 0;
      }
      assert (n + 1) * b == n * b + b;
    }
  }

  /** There are ceil(|s| / b) slices: one per start index in range(0, |s|, b). */
  lemma ChunkCount<A>(s: seq<A>, b: nat)
    requires b >= 1
    ensures |Chunks(s, b)| * b >= |s|
    ensures |Chunks(s, b)| * b < |s| + b
  {
    ChunksFromCount(s, b, 0);
  }

  lemma {:induction false} ChunksFromCover<A>(s: seq<A>, b: nat, i: nat)
    requires b >= 1
    requires i <= |s|
    ensures Flatten(ChunksFrom(s, b, i)) == s[i..]
    decreases |s| - i
  {
    if i < |s| {
      var j := Min(i + b, |s|);
      if j < |s| {
        ChunksFromCover(s, b, j);
      } else {
        assert ChunksFrom(s, b, i + b) == [];
      }
      assert ChunksFrom(s, b, i)[1..] == ChunksFrom(s, b, i + b);
      assert s[i..] == s[i..j] + s[j..];
    }
  }

  /** The slices are disjoint and together cover the patches in order. */
  lemma ChunksCover<A>(s: seq<A>, b: nat)
    requires b >= 1
    ensures Flatten(Chunks(s, b)) == s
  {
    ChunksFromCover(s, b, 0);
  }

  /** When the model returns as many outputs as it receives, `collect` ends with
      one entry per patch. */
  lemma CollectedLength<A, B>(predict: seq<A> -> seq<B>, patches: seq<A>, b: nat)
    requires b >= 1
    requires forall t :: |predict(t)| == |t|
    ensures |Collected(predict, patches, b)| == |patches|
  {
    FlattenMapLength(predict, Chunks(patches, b));
    ChunksCover(patches, b);
  }

  /** When the model predicts each patch on its own, entry `k` of `collect` is
      the prediction of patch `k`, whatever the batch size. */
  lemma CollectedPerPatch<A, B>(predict: seq<A> -> seq<B>, f: A -> B, patches: seq<A>, b: nat)
    requires b >= 1
    requires forall t :: predict(t) == MapSeq(f, t)
    ensures Collected(predict, patches, b) == MapSeq(f, patches)
    ensures forall k :: 0 <= k < |patches| ==> Collected(predict, patches, b)[k] == f(patches[k])
  {
    FlattenMapPerElement(predict, f, Chunks(patches, b));
    ChunksCover(patches, b);
  }

  /** Hence the batch size does not change `collect` for a per-patch model. */
  lemma CollectedBatchSizeIndependent<A, B>(predict: seq<A> -> seq<B>, f: A -> B, patches: seq<A>, b1: nat, b2: nat)
    requires b1 >= 1 && b2 >= 1
    requires forall t :: predict(t) == MapSeq(f, t)
    ensures Collected(predict, patches, b1) == Collected(predict, patches, b2)
  {
    CollectedPerPatch(predict, f, patches, b1);
    CollectedPerPatch(predict, f, patches, b2);
  }
}
