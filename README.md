# Tiled super-resolution prediction: a Dafny model

This project models the prediction core of the image super-resolution
`Predictor` (`ISR/predict/predictor.py`):

- `_predict`: with a truthy `by_patch_of_size`, the image is prepared with
  `process_array(..., expand=False)`, split into overlapping patches, the
  network's `predict` is run on `patches[i : i + batch_size]` for every `i`
  in `range(0, len(patches), batch_size)`, the outputs are appended to
  `collect`, and `collect` is stitched back together with the padded shape,
  the target shape and the overlap all multiplied by the network's `scale`;
  with a falsy patch size the network runs once on the whole image and the
  first image of its output batch is kept. Either way the result goes through
  `process_output`.
- `_forward_pass`: only an image whose channel axis is 3 is predicted; it is
  tiled with 256-pixel patches when its width (axis 1) exceeds 1024, and
  predicted in a single pass otherwise. Defaults: batch size 10, padding 2.
- `_make_basename`: the generator's name followed by one `key` + `value`
  component per architecture parameter, keys in sorted order, joined with '-'.

Layout:

- `sequences.dfy` (module `Sequences`): `Option`, `Result`, `MapSeq`, `Flatten`
  and their lemmas.
- `batching.dfy` (module `Batching`): the slices the batch loop hands to the
  network and what `collect` holds afterwards, with their properties.
- `basename.dfy` (module `Basename`): code-point string order, the model of
  `np.sort`, `str.join`, and `_make_basename`.
- `predictor.dfy` (module `Predictor`): `_predict` (method `Predict`, proved
  against the function `PredictOutcome`), the routing of `_forward_pass`, and
  the lemmas about both.

The network (`predict`, `scale`, name and parameters), the array helpers the
predictor imports (`process_array`, `process_output`,
`split_image_into_overlapping_patches`, `stich_together`) and `ndarray.shape`
are fields of the datatypes `SrModel` and `ImageOps`, holding function values
over an abstract array type. They are left uninterpreted: a lemma that needs a
property of them (the network keeps batch lengths, or predicts each patch on
its own) states it as a `requires`.

Where the source cannot run as written, the model follows the evident intent,
and the doc comment of module `Predictor` notes each case:
`_predict` is declared without `self`; `_forward_pass` passes an undefined
`model` (taken here as the predictor's model); `_forward_pass` tests
`lr_img.size[1]` where `lr_img.shape[1]` is meant (see "## Findings").

Behaviour of the code worth noting:

- Tiling is decided on axis 1 (the width) alone.
- A patch size is only checked for truthiness: a negative one takes the tiled
  path and reaches the splitter unchecked.
- The stitched image is recomputed inside the batch loop from the partial
  `collect` on every iteration; that image is overwritten after the loop and
  its `process_output` copy is dropped, so the result depends only on the
  complete `collect` (the ensures of `Predictor.Predict`).
- With a batch size of 0, `range` raises; with a negative batch size, or when
  the splitter returns no patch, no batch runs and `collect` is unbound at the
  final stitch. Both are error results (`RangeStepZero`, `CollectUnbound`).

## Model

| member | source | states |
|---|---|---|
| Batching.ChunkAt | ISR/predict/predictor.py:167-169 | slice k handed to the network starts at k*batch_size below len(patches), is patches[k*b : k*b+b] clamped at the end, holds 1..b patches, and exactly b unless it is the last |
| Batching.ChunkCount | ISR/predict/predictor.py:167 | the number of batches is ceil(len(patches)/b): count*b >= n and count*b < n + b |
| Batching.ChunksCover | ISR/predict/predictor.py:167-169 | the slices, concatenated in loop order, are exactly the patch list: disjoint and covering it in order |
| Batching.CollectedLength | ISR/predict/predictor.py:169-173 | when the network keeps batch lengths, collect ends with exactly len(patches) entries |
| Batching.CollectedPerPatch | ISR/predict/predictor.py:169-173 | when the network predicts each patch on its own, collect[k] is the prediction of patches[k] for every batch size >= 1 |
| Batching.CollectedBatchSizeIndependent | ISR/predict/predictor.py:167-173 | for such a network, collect is the same for any two batch sizes >= 1 |
| Predictor.Predict | ISR/predict/predictor.py:159-201 | the loop's collect is the in-order concatenation of the network's outputs over the slices; the result is process_output of the one stitch of the complete collect (the in-loop stitches are discarded), or of the first image of a single pass; every error path of the source is returned as an error |
| Predictor.ScaleShape | ISR/predict/predictor.py:176-177 | the scaled shape has the first two axes multiplied by scale, then a channel axis of 3 |
| Predictor.TiledStitchArguments | ISR/predict/predictor.py:187-195 | with a positive batch size and at least one patch, the final stitch gets all predictions (len(patches) of them for a length-keeping network), padded shape (scale*p0, scale*p1, 3), target (scale*H, scale*W, 3) and overlap padding_size*scale, and its image is returned |
| Predictor.TiledFailures | ISR/predict/predictor.py:167-173 | the tiled path fails with RangeStepZero for batch size 0, and succeeds exactly when the batch size is positive and at least one patch exists |
| Predictor.TiledBatchSizeIndependent | ISR/predict/predictor.py:167-195 | for a per-patch network the tiled result is the same for every batch size >= 1 |
| Predictor.SinglePassOutcome | ISR/predict/predictor.py:197-201 | with patch size None or 0 nothing is split: the network runs once on the whole image's batch and process_output of its first output is returned, or an error if the output batch is empty |
| Predictor.SinglePassSucceeds | ISR/predict/predictor.py:197-199 | a single pass cannot fail when the network keeps batch lengths and the input batch is not empty |
| Predictor.ForwardPass | ISR/predict/predictor.py:131-140 | an image with fewer than three axes fails at shape[2]; one whose channel axis is not 3 gives None; a 3-channel image gives _predict with patch 256 when its width exceeds 1024 and a single pass otherwise, batch size 10, padding 2 |
| Predictor.RouteCases | ISR/predict/predictor.py:133-137 | the route is NotRgb exactly for a channel axis other than 3, and tiled (with patch size 256) exactly for a 3-channel image of width above 1024 |
| Predictor.RouteAsWrittenNeverPredicts | ISR/predict/predictor.py:133-134 | as written, every 3-channel image fails at lr_img.size[1], so no image is ever predicted; a 512x2048 RGB image is an example |
| Basename.MakeBasename | ISR/predict/predictor.py:98-104 | the loop builds [name] + one key+value component per sorted key, and the joined result is Basename(name, params) |
| Basename.BasenameShape | ISR/predict/predictor.py:98-104 | with no parameters the basename is the name alone; otherwise name + "-" + the components joined with "-", component j being the j-th smallest key followed by its value |
| Basename.BasenameOrderIndependent | ISR/predict/predictor.py:101-103 | two dictionaries holding the same items in different insertion orders give the same basename |
| Basename.SortCorrect | ISR/predict/predictor.py:102 | the sorted keys are sorted in code-point order and a permutation of the keys |
| Basename.SortedUnique | ISR/predict/predictor.py:102 | two sorted sequences holding the same strings are equal, so the sorted key order is unique |

## Findings

| source | as written | input that shows it | evidently intended | confidence | as-written member | corrected member |
|---|---|---|---|---|---|---|
| ISR/predict/predictor.py:134 | `lr_img.size[1] > 1024`: `size` is the element count, an integer, so indexing it raises for every 3-channel image | a 512x2048x3 image | `lr_img.shape[1] > 1024`: tile when the width exceeds 1024 | high; not executed | Predictor.RouteAsWrittenNeverPredicts | Predictor.RouteCases |

## Left out

- `main` and the argument parser (ISR/predict/predictor.py:13-35): command-line plumbing; it also refers to an undefined `self` and `TRUE`.
- `__init__` (ISR/predict/predictor.py:61-77): directory scanning, extension filtering and output-folder creation are file-system I/O.
- `_load_weights` and the YAML configuration read and dump: foreign library calls and file I/O.
- `get_predictions`: reading and writing image files, timestamps and timing are I/O and wall-clock; so is writing the `None` that `_forward_pass` returns for an image that is not RGB.
- Logging and verbosity: global logger state with no effect on the results.
- The bodies of `process_array`, `process_output`, `split_image_into_overlapping_patches` and `stich_together`: they are not part of this model and stay uninterpreted functions; nothing is assumed about patch counts, patch shapes or the stitched image's shape.
- The network's internals and pixel values: the network is an uninterpreted batch-to-batch function with an integer `scale`; floating-point image data is out of scope.
- Exceptions raised inside the network or the array helpers: they are total functions here, so the model does not capture a failure of `predict` or of the in-loop stitch on a partial `collect`.
- Predictor.Predict: assumes the in-loop `stich_together` on a partial `collect` returns normally; if it raised, the source would fail where the model succeeds.
- Basename.MakeBasename: parameter values are taken as their already formatted text; the rendering of values by `'{}'.format` is not modelled.
