/** The prediction core of `Predictor` (ISR/predict/predictor.py): the choice
    between one pass over the whole image and tiled inference
    (`_forward_pass`), and `_predict` itself, whose tiled branch runs the model
    over the patches batch by batch and stitches the outputs back together.

    The helpers `_predict` imports from the image-processing module
    (`process_array`, `process_output`, `split_image_into_overlapping_patches`,
    `stich_together`), `ndarray.shape` and the network's `predict` are given as
    function values and left uninterpreted: nothing is assumed of them beyond
    what a lemma states in its `requires`.

    Where the source cannot run as written, the model follows its evident
    intent:
    - `_predict` is declared without `self` (line 142) but called as a method
      and uses `self.logger`; here it is an ordinary operation of the predictor.
    - `_forward_pass` passes an undefined `model` (lines 135, 137); here it is
      the predictor's model, `self.model`, set by `get_predictions`.
    - `_forward_pass` tests `lr_img.size[1]` (line 134), but `size` is an
      integer; here it is `lr_img.shape[1]`, the image width. */
module Predictor {
  import opened Sequences
  import opened Batching

  /** The ways `_forward_pass` and `_predict` fail. */
  datatype Error =
    | ShapeIndexOutOfRange  // `lr_img.shape[2]` on an image with fewer than three axes
    | RangeStepZero         // `range(0, n, 0)`: a batch size of zero
    | CollectUnbound        // no batch ran, so `collect` is unbound at the final stitch
    | EmptyPrediction       // `model.predict(lr_img)[0]` on an empty output batch
    | SizeNotSubscriptable  // `lr_img.size[1]`: `size` is an integer

  /** The super-resolution network as `_predict` uses it: `name` and `params`
      feed the basename, `scale` is its integer upscaling factor, and `predict`
      maps a batch (a sequence of arrays along axis 0) to a batch. */
  datatype SrModel<!A> = SrModel(
    name: string,
    params: seq<(string, string)>,
    scale: int,
    predict: seq<A> -> seq<A>)

  /** The array helpers the predictor calls, over an abstract array type `A`. */
  datatype ImageOps<!A> = ImageOps(
    shape: A -> seq<int>,                                 // `ndarray.shape`
    processArray: A -> A,                                 // `process_array(a, expand=False)`
    processArrayBatch: A -> seq<A>,                       // `process_array(a)`: a batch for the model
    processOutput: A -> A,                                // `process_output`
    split: (A, int, int) -> (seq<A>, seq<int>),           // `split_image_into_overlapping_patches`: patches, p_shape
    stitch: (seq<A>, seq<int>, seq<int>, int) -> A)       // `stich_together(patches, padded shape, target shape, padding)`

  const TilingThreshold := 1024
  const TiledPatchSize := 256
  const DefaultBatchSize := 10
  const DefaultPaddingSize := 2

  /** Python truthiness of `by_patch_of_size`: `None` and `0` are falsy. */
  predicate Truthy(byPatchOfSize: Option<int>)
  {
    byPatchOfSize.Some? && byPatchOfSize.value != 0
  }

  /** `tuple(np.multiply(shape[0:2], scale)) + (3,)`: the first two axes (as
      many as there are) multiplied by `scale`, then a channel axis of 3. */
  function ScaleShape(shape: seq<int>, scale: int): (r: seq<int>)
    ensures |r| == Min(|shape|, 2) + 1
    ensures r[|r| - 1] == 3
    ensures forall k :: 0 <= k < |r| - 1 ==> r[k] == scale * shape[k]
  {
    MapSeq((x: int) => scale * x, shape[..Min(|shape|, 2)]) + [3]
  }

  /** The patches and the padded shape the tiled branch works on. */
  function SplitOf<A>(ops: ImageOps<A>, image: A, patchSize: int, paddingSize: int): (seq<A>, seq<int>)
  {
    ops.split(ops.processArray(image), patchSize, paddingSize)
  }

  /** The `stich_together` call of the tiled branch for a given `collect`. */
  function Stitched<A>(model: SrModel<A>, ops: ImageOps<A>, image: A, collect: seq<A>, pShape: seq<int>, paddingSize: int): A
  {
    ops.stitch(collect, ScaleShape(pShape, model.scale), ScaleShape(ops.shape(image), model.scale), paddingSize * model.scale)
  }

  /** What `_predict` returns, with the batch loop replaced by `Collected`. */
  function PredictOutcome<A>(model: SrModel<A>, ops: ImageOps<A>, image: A, byPatchOfSize: Option<int>,
                             batchSize: int, paddingSize: int): Result<A, Error>
  {
    if Truthy(byPatchOfSize) then
      var (patches, pShape) := SplitOf(ops, image, byPatchOfSize.value, paddingSize);
      if batchSize == 0 then Failure(RangeStepZero)
      else if batchSize < 0 || |patches| == 0 then Failure(CollectUnbound)
      else Success(ops.processOutput(Stitched(model, ops, image, Collected(model.predict, patches, batchSize), pShape, paddingSize)))
    else
      var batch := model.predict(ops.processArrayBatch(image));
      if |batch| == 0 then Failure(EmptyPrediction) else Success(ops.processOutput(batch[0]))
  }

  /** `_predict`. With a truthy patch size the image is split into patches, the
      model runs on `patches[i : i + batch_size]` for `i` in
      `range(0, len(patches), batch_size)`, the outputs are appended to
      `collect`, and `collect` is stitched; otherwise the model runs once on
      the whole image and the first image of its output batch is kept. */
  method Predict<A>(model: SrModel<A>, ops: ImageOps<A>, image: A, byPatchOfSize: Option<int>,
                    batchSize: int, paddingSize: int) returns (r: Result<A, Error>)
    ensures r == PredictOutcome(model, ops, image, byPatchOfSize, batchSize, paddingSize)
  {
    var srImg: A;
    if Truthy(byPatchOfSize) {
      var lrImg := ops.processArray(image);
      var split := ops.split(lrImg, byPatchOfSize.value, paddingSize);
      var patches, pShape := split.0, split.1;
      if batchSize == 0 {
        return Failure(RangeStepZero);
      }
      var collect: Option<seq<A>> := None;
      var i: nat := 0;
      // a negative step makes `range(0, n, batch_size)` empty
      while 0 < batchSize && i < |patches|
        invariant batchSize < 0 ==> i == 0
        invariant collect.None? <==> i == 0
        invariant collect.Some? ==> 0 < batchSize && 0 < |patches|
        invariant 0 < batchSize && collect.Some? ==>
          collect.value + Flatten(MapSeq(model.predict, ChunksFrom(patches, batchSize, i)))
            == Collected(model.predict, patches, batchSize)
        decreases |patches| - i
      {
        var chunk := patches[i..Min(i + batchSize, |patches|)];
        var batch := model.predict(chunk);
        assert ChunksFrom(patches, batchSize, i) == [chunk] + ChunksFrom(patches, batchSize, i + batchSize);
        assert MapSeq(model.predict, ChunksFrom(patches, batchSize, i))[1..]
            == MapSeq(model.predict, ChunksFrom(patches, batchSize, i + batchSize));
        if i == 0 {
          collect := Some(batch);
        } else {
          collect := Some(collect.value + batch);
        }
        // The source re-stitches the partial `collect` on every batch: that
        // image is overwritten after the loop and its processed copy is dropped.
        srImg := Stitched(model, ops, image, collect.value, pShape, paddingSize);
        var dropped := ops.processOutput(srImg);
        i := i + batchSize;
      }
      if collect.None? {
        return Failure(CollectUnbound);
      }
      assert ChunksFrom(patches, batchSize, i) == [];
      assert collect.value == Collected(model.predict, patches, batchSize);
      srImg := Stitched(model, ops, image, collect.value, pShape, paddingSize);
    } else {
      var batch := model.predict(ops.processArrayBatch(image));
      if |batch| == 0 {
        return Failure(EmptyPrediction);
      }
      srImg := batch[0];
    }
    r := Success(ops.processOutput(srImg));
  }

  /** The three ways `_forward_pass` can go for an image of a given shape. */
  datatype Route = SinglePass | Tiled(patchSize: int) | NotRgb

  /** `_forward_pass`'s decision: only a three-channel image is predicted, and
      it is tiled with 256-pixel patches when its width exceeds 1024. */
  function RouteFor(shape: seq<int>): Result<Route, Error>
  {
    if |shape| < 3 then Failure(ShapeIndexOutOfRange)
    else if shape[2] != 3 then Success(NotRgb)
    else if shape[1] > TilingThreshold then Success(Tiled(TiledPatchSize))
    else Success(SinglePass)
  }

  /** `Some` of a successful prediction, the error of a failed one. */
  function Lift<A>(r: Result<A, Error>): Result<Option<A>, Error>
  {
    match r
    case Success(img) => Success(Some(img))
    case Failure(e) => Failure(e)
  }

  /** `_forward_pass` on an image already read: `None` (after logging an error)
      for an image whose channel axis is not 3, otherwise `_predict` with its
      default batch size 10 and padding 2, tiled by 256 when the width exceeds
      1024. */
  method ForwardPass<A>(model: SrModel<A>, ops: ImageOps<A>, image: A) returns (r: Result<Option<A>, Error>)
    ensures |ops.shape(image)| < 3 ==> r == Failure(ShapeIndexOutOfRange)
    ensures |ops.shape(image)| >= 3 && ops.shape(image)[2] != 3 ==> r == Success(None)
    ensures |ops.shape(image)| >= 3 && ops.shape(image)[2] == 3 ==>
      r == Lift(PredictOutcome(model, ops, image,
                               if ops.shape(image)[1] > TilingThreshold then Some(TiledPatchSize) else None,
                               DefaultBatchSize, DefaultPaddingSize))
  {
    var route := RouteFor(ops.shape(image));
    match route {
      case Failure(e) =>
        r := Failure(e);
      case Success(NotRgb) =>
        r := Success(None);
      case Success(Tiled(p)) =>
        var img := Predict(model, ops, image, Some(p), DefaultBatchSize, DefaultPaddingSize);
        r := Lift(img);
      case Success(SinglePass) =>
        var img := Predict(model, ops, image, None, DefaultBatchSize, DefaultPaddingSize);
        r := Lift(img);
    }
  }

  /** An image whose channel axis is not 3 is never predicted, and a
      three-channel image is tiled exactly when its width exceeds 1024. */
  lemma RouteCases(shape: seq<int>)
    ensures RouteFor(shape).Success? <==> |shape| >= 3
    ensures RouteFor(shape) == Success(NotRgb) <==> |shape| >= 3 && shape[2] != 3
    ensures RouteFor(shape).Success? && RouteFor(shape).value.Tiled? <==>
      |shape| >= 3 && shape[2] == 3 && shape[1] > TilingThreshold
    ensures RouteFor(shape).Success? && RouteFor(shape).value.Tiled? ==> RouteFor(shape).value.patchSize == TiledPatchSize
  {
  }

  /** `_forward_pass`'s decision as written: `lr_img.size` is the number of
      elements, an integer, so `lr_img.size[1]` raises for every
      three-channel image. */
  function RouteAsWritten(shape: seq<int>): Result<Route, Error>
  {
    if |shape| < 3 then Failure(ShapeIndexOutOfRange)
    else if shape[2] != 3 then Success(NotRgb)
    else Failure(SizeNotSubscriptable)
  }

  /** As written, no image is ever predicted: a three-channel image fails at
      the size test, and a 512x2048 RGB image, which `RouteFor` tiles, is one. */
  lemma RouteAsWrittenNeverPredicts(shape: seq<int>)
    ensures RouteAsWritten(shape).Success? ==> RouteAsWritten(shape).value == NotRgb
    ensures |shape| >= 3 && shape[2] == 3 ==> RouteAsWritten(shape) == Failure(SizeNotSubscriptable)
    ensures RouteAsWritten([512, 2048, 3]) == Failure(SizeNotSubscriptable)
    ensures RouteFor([512, 2048, 3]) == Success(Tiled(256))
  {
  }

  /** On the tiled path with at least one patch and a positive batch size,
      the stitcher receives every prediction (as many as patches when the model
      keeps batch lengths), the padded shape `(scale*p_shape[0], scale*p_shape[1], 3)`,
      the target shape `(scale*H, scale*W, 3)` of the input image and the
      overlap `padding_size*scale`, and its image is the one returned. */
  lemma TiledStitchArguments<A>(model: SrModel<A>, ops: ImageOps<A>, image: A, patchSize: int,
                                batchSize: int, paddingSize: int)
    requires patchSize != 0 && batchSize >= 1
    requires |SplitOf(ops, image, patchSize, paddingSize).0| >= 1
    requires |SplitOf(ops, image, patchSize, paddingSize).1| >= 2 && |ops.shape(image)| >= 2
    requires forall t :: |model.predict(t)| == |t|
    ensures var (patches, pShape) := SplitOf(ops, image, patchSize, paddingSize);
      var s, shape := model.scale, ops.shape(image);
      var collect := Collected(model.predict, patches, batchSize);
      |collect| == |patches| &&
      PredictOutcome(model, ops, image, Some(patchSize), batchSize, paddingSize)
        == Success(ops.processOutput(ops.stitch(collect, [s * pShape[0], s * pShape[1], 3],
                                                [s * shape[0], s * shape[1], 3], paddingSize * s)))
  {
    var (patches, pShape) := SplitOf(ops, image, patchSize, paddingSize);
    var s, shape := model.scale, ops.shape(image);
    CollectedLength(model.predict, patches, batchSize);
    assert ScaleShape(pShape, s) == [s * pShape[0], s * pShape[1], 3];
    assert ScaleShape(shape, s) == [s * shape[0], s * shape[1], 3];
  }

  /** The tiled path fails exactly when the batch size is not positive or no
      patch was produced: a zero step is refused by `range`, and otherwise no
      batch runs and `collect` is never bound. */
  lemma TiledFailures<A>(model: SrModel<A>, ops: ImageOps<A>, image: A, patchSize: int,
                         batchSize: int, paddingSize: int)
    requires patchSize != 0
    ensures batchSize == 0 ==>
      PredictOutcome(model, ops, image, Some(patchSize), batchSize, paddingSize) == Failure(RangeStepZero)
    ensures batchSize != 0 ==>
      (PredictOutcome(model, ops, image, Some(patchSize), batchSize, paddingSize) == Failure(CollectUnbound) <==>
       batchSize < 0 || |SplitOf(ops, image, patchSize, paddingSize).0| == 0)
    ensures PredictOutcome(model, ops, image, Some(patchSize), batchSize, paddingSize).Success? <==>
      batchSize > 0 && |SplitOf(ops, image, patchSize, paddingSize).0| > 0
  {
  }

  /** With a model that predicts each patch on its own, the tiled result does
      not depend on the batch size. */
  lemma TiledBatchSizeIndependent<A>(model: SrModel<A>, f: A -> A, ops: ImageOps<A>, image: A,
                                     patchSize: int, b1: int, b2: int, paddingSize: int)
    requires patchSize != 0 && b1 >= 1 && b2 >= 1
    requires forall t :: model.predict(t) == MapSeq(f, t)
    ensures PredictOutcome(model, ops, image, Some(patchSize), b1, paddingSize)
         == PredictOutcome(model, ops, image, Some(patchSize), b2, paddingSize)
  {
    var patches := SplitOf(ops, image, patchSize, paddingSize).0;
    CollectedBatchSizeIndependent(model.predict, f, patches, b1, b2);
  }

  /** With a falsy patch size (`None`, or the command line's default 0) nothing
      is split: the model runs once on the whole image's batch, and the first
      image of its output, passed through `process_output`, is returned. */
  lemma SinglePassOutcome<A>(model: SrModel<A>, ops: ImageOps<A>, image: A, byPatchOfSize: Option<int>,
                             batchSize: int, paddingSize: int)
    requires byPatchOfSize == None || byPatchOfSize == Some(0)
    ensures var batch := model.predict(ops.processArrayBatch(image));
      PredictOutcome(model, ops, image, byPatchOfSize, batchSize, paddingSize)
        == if |batch| == 0 then Failure(EmptyPrediction) else Success(ops.processOutput(batch[0]))
  {
  }

  /** A single pass cannot fail when the model keeps batch lengths and the
      prepared input batch is not empty. */
  lemma SinglePassSucceeds<A>(model: SrModel<A>, ops: ImageOps<A>, image: A, batchSize: int, paddingSize: int)
    requires forall t :: |model.predict(t)| == |t|
    requires |ops.processArrayBatch(image)| >= 1
    ensures |model.predict(ops.processArrayBatch(image))| == |ops.processArrayBatch(image)|
    ensures PredictOutcome(model, ops, image, None, batchSize, paddingSize)
         == Success(ops.processOutput(model.predict(ops.processArrayBatch(image))[0]))
  {
    KeepsLengthAt(model.predict, ops.processArrayBatch(image));
  }
}
