# Label handling of a segmentation training script, in Dafny

This project models the label handling that sits around the neural
networks of a semantic-segmentation code base for aerial and
OpenStreetMap imagery. The networks themselves are not modelled. It covers
three parts, all on 2-D grids written as nested sequences:

- **Batch generation** (`Seg_Model/ImageSeg.py`, class `BatchGenerator`).
  Class-index maps become one-hot tensors with `n_cls + 1` channels. The
  last channel is the neutral ("don't care") class. Samples come from an
  external loader and are stacked slot by slot into fixed-size batches.
  `BatchGenerator` is a Dafny class with the source's fields. The loader is
  a `SampleProvider` object that hands out a finite queue of samples and
  fails once the queue is empty. `NextBatch` is one turn of `get_batch`'s
  endless loop. It fills two freshly allocated slot arrays, and it is proved
  equal to the specification function `DrawBatch`.
- **Masked accuracy** (`get_acc`, and its tensor twin `my_acc`). The metric
  is the number of pixels whose argmax classes agree, divided by the number
  of pixels that are not neutral. Pixels are counted over the row-major
  flattening of the batch tensor. Scores are integers, because the metric
  uses them only through argmax comparisons. argmax follows numpy: it
  returns the first index of the maximum. When every pixel is neutral the
  denominator is zero, and the model returns `Failure(NoCountedPixels)`.
  Matches are counted at neutral pixels too. A prediction that keeps the
  neutral channel can therefore score above 1 (`GetAccSelfAboveOne`). When
  the prediction drops that channel, the score lies in [0, 1]
  (`GetAccInUnitInterval`).
- **Colour decoding**. `pred2featuremap` is a method over an `array2`. It
  starts from an all-black image. It then takes the keys of the `cls2col`
  dictionary in any order and makes one masked assignment per key, written
  as a `forall` statement. `decode_labels` from
  `Segmentation_Models/PSPNet/tools.py` first selects a colour table by
  class count. It then colours every class id with the product of its
  one-hot row and the colour matrix. This product is proved to be a plain
  row lookup, and out-of-range ids give black.

Files: `results.dfy` (the `Result` type), `ndarray.dfy` (grids, flattening and
reshaping, argmax, one-hot vectors), `colour.dfy`, `batch_generation.dfy`,
`masked_accuracy.dfy`, `feature_map.dfy`, `psp_tools.dfy`.

Where the intended design and the code differ, the model follows the
code:
- `get_size` returns the script's global `num_images` (200). It is not a
  per-generator setting.
- The cursor `self.i` is never advanced, so the reshuffle branch runs on
  every `get_sample` call. It shuffles a list that is always empty.
- `decode_labels` colours pixels by one-hot times colour matrix, not by
  indexing. `DecodeLabelsLookup` proves the two agree. With that product,
  an out-of-range id gives black instead of an error.
- For an unknown class count the source fails on an unbound name. The model
  returns an explicit `UnknownClassCount` error.

## Model

| member | source | states |
|---|---|---|
| NdArray.ArgMax | Seg_Model/ImageSeg.py:194 | the result is an index of a maximal entry, and every earlier entry is strictly smaller (numpy's first-maximum rule) |
| NdArray.ArgMaxUnique | Seg_Model/ImageSeg.py:194 | the first-maximum conditions determine the index: any index that meets them equals ArgMax |
| NdArray.OneHotVector | Seg_Model/ImageSeg.py:44 | the per-pixel `np.arange(n) == id` (also `tf.one_hot` at Segmentation_Models/PSPNet/tools.py:60); OneHotRoundTrip pins down its shape, its single set channel and its argmax |
| NdArray.OneHotRoundTrip | Seg_Model/ImageSeg.py:43-44 | a one-hot vector has `depth` channels of 0/1 with at most one set; a class in [0, depth) sets exactly one channel and argmax returns the class; any other class sets none |
| BatchGeneration.BatchGenerator.ToOneHot | Seg_Model/ImageSeg.py:42-44 | the encoding has the map's height and width and n channels per pixel; channel c of pixel (y, x) is 1 exactly when the class there is c, otherwise 0; every pixel vector is one-hot-like |
| BatchGeneration.BatchGenerator.constructor | Seg_Model/ImageSeg.py:46-55 | the fields are set from the arguments, the sample list is empty and the cursor is 0; the file path is not read |
| BatchGeneration.BatchGenerator.GetSize | Seg_Model/ImageSeg.py:84-85 | the nominal epoch size is always the global 200, whatever the generator was built with |
| BatchGeneration.SampleProvider.GetSample | Seg_Model/ImageSeg.py:69 | the loader hands out its next sample and drops it, or fails with SourceExhausted when it has none |
| BatchGeneration.BatchGenerator.GetSample | Seg_Model/ImageSeg.py:57-72 | the shuffle branch runs on every call, and the empty list stays empty with the cursor at 0; the loader's next sample comes back with its labels encoded on n_cls + 1 channels, or the loader's failure is passed on |
| BatchGeneration.FirstUnfilled | Seg_Model/ImageSeg.py:78-81 | the first slot that cannot be filled: every earlier slot has a sample of the slot's shape, and at that slot the loader is empty or its sample does not fit |
| BatchGeneration.FirstUnfilledAt | Seg_Model/ImageSeg.py:78-81 | any slot with those two properties is the one FirstUnfilled names |
| BatchGeneration.BatchGenerator.NextBatch | Seg_Model/ImageSeg.py:74-82 | one pass of the batch loop gives exactly the batch, or the error, and the samples left over that DrawBatch specifies |
| BatchGeneration.DrawBatch | Seg_Model/ImageSeg.py:74-82 | one pass of the batch loop as a value: the batch, or the error that stops it, and the leftover samples; DrawBatchSlots and DrawBatchFailure pin down what it returns, and NextBatch is proved equal to it |
| BatchGeneration.DrawBatchSlots | Seg_Model/ImageSeg.py:74-82 | a batch is produced exactly when batch_size fitting samples are available; it has batch_size image and label slots; slot i holds the i-th sample drawn; label slots are size x size x (n_cls + 1) and channel c is set exactly where the label is c; those samples are consumed |
| BatchGeneration.DrawBatchFailure | Seg_Model/ImageSeg.py:78-81 | a failed pass stops at the first unfillable slot; the loader running dry gives SourceExhausted and consumes everything; a misfit sample gives SlotShapeMismatch and is consumed |
| MaskedAccuracy.PixelsAligned | Seg_Model/ImageSeg.py:187-194 | a ground truth and a prediction with the same batch, row and column layout have the same number of pixels |
| MaskedAccuracy.PixelCount | Seg_Model/ImageSeg.py:192 | a (b, h, w, c) batch has b * h * w pixels, the product of all dimensions except the channels |
| MaskedAccuracy.NeutralCount | Seg_Model/ImageSeg.py:193 | the number of pixels whose last channel is 1 is at most the number of pixels |
| MaskedAccuracy.MatchCount | Seg_Model/ImageSeg.py:194 | the number of positions whose argmax classes agree is at most the number of pixels |
| MaskedAccuracy.AllNeutralCount | Seg_Model/ImageSeg.py:192-193 | the neutral count equals the pixel count exactly when every pixel is neutral |
| MaskedAccuracy.GetAcc | Seg_Model/ImageSeg.py:191-195 | the metric fails exactly when every pixel is neutral (zero denominator); otherwise it is matches / (pixels - neutral pixels) |
| MaskedAccuracy.MyAcc | Seg_Model/ImageSeg.py:182-188 | the tensor form, whose total comes from the prediction's shape, gives the same result as GetAcc on every input |
| MaskedAccuracy.NeutralNeverMatches | Seg_Model/ImageSeg.py:184-186 | when the prediction has one channel fewer, a neutral one-hot pixel has true argmax n_cls, which the prediction's argmax cannot reach |
| MaskedAccuracy.MatchesAtMostCounted | Seg_Model/ImageSeg.py:192-194 | with the neutral channel dropped from the prediction, matches + neutral pixels <= pixels |
| MaskedAccuracy.MatchesAllCounted | Seg_Model/ImageSeg.py:192-194 | if the argmax agrees at every non-neutral pixel, matches + neutral pixels == pixels |
| MaskedAccuracy.GetAccInUnitInterval | Seg_Model/ImageSeg.py:191-195 | with the neutral channel dropped from the prediction, a defined accuracy lies in [0, 1] |
| MaskedAccuracy.GetAccPerfect | Seg_Model/ImageSeg.py:191-195 | a prediction whose argmax equals the true class at every non-neutral pixel scores exactly 1 when some pixel is not neutral |
| MaskedAccuracy.GetAccIdentical | Seg_Model/ImageSeg.py:191-195 | a non-empty map compared with itself, with no neutral pixel, scores exactly 1 |
| MaskedAccuracy.SelfMatches | Seg_Model/ImageSeg.py:194 | every pixel matches itself |
| MaskedAccuracy.NoNeutral | Seg_Model/ImageSeg.py:193 | with no neutral pixel the neutral count is 0 |
| MaskedAccuracy.NeutralCountPositive | Seg_Model/ImageSeg.py:193 | a batch with a neutral pixel has a positive neutral count |
| MaskedAccuracy.GetAccSelfAboveOne | Seg_Model/ImageSeg.py:191-195 | neutral pixels are counted as matches but not in the denominator, so a map compared with itself that has neutral and non-neutral pixels scores above 1 |
| MaskedAccuracy.GetAccNeutralExample | Seg_Model/ImageSeg.py:191-195 | one neutral pixel and one class-0 pixel, each predicted exactly (prediction keeps the neutral channel), give accuracy 2.0 |
| FeatureMap.PixelClass | Seg_Model/ImageSeg.py:219-220 | the class shown is argmax reduced to a byte, so it lies in [0, 256); with at most 256 channels it is argmax itself |
| FeatureMap.ClassColour | Seg_Model/ImageSeg.py:222-224 | the colour a class ends with on the zero-initialised image: its cls2col entry, or black; Pred2FeatureMap proves the masked-assignment loop produces exactly this colour at every pixel |
| FeatureMap.Pred2FeatureMap | Seg_Model/ImageSeg.py:218-225 | the picture is H x W; a pixel whose class is a key of cls2col gets that colour, and any other pixel stays black, for every order of the key loop |
| FeatureMap.EncodedClassColour | Seg_Model/ImageSeg.py:201-208 | painting a one-hot ground-truth pixel of class id (depth <= 256) gives the colour of the id itself |
| FeatureMap.NeutralShownBlack | Seg_Model/ImageSeg.py:253-255 | with n_cls = 6, a neutral ground-truth pixel (channel 6 of 7) has no table entry and is shown black |
| PspTools.BuiltinTables | Segmentation_Models/PSPNet/tools.py:8-28 | the urban-scene table has 19 rows, the OSM table has 6, and all their components are bytes |
| PspTools.SelectTable | Segmentation_Models/PSPNet/tools.py:51-57 | 150 selects the externally loaded table, 19 the urban-scene table and 6 the OSM table; every other count is a configuration error; a built-in table has one row per class |
| PspTools.RowTimesMatrix | Segmentation_Models/PSPNet/tools.py:62 | the matrix product of one one-hot row with the colour matrix, as a sum of scaled rows; OneHotRowSelects proves it is a table lookup |
| PspTools.OneHotRowSelects | Segmentation_Models/PSPNet/tools.py:59-62 | a one-hot row times the colour matrix is the table row at the hot index, and an out-of-range id gives black |
| PspTools.DecodeIds | Segmentation_Models/PSPNet/tools.py:60-62 | one output colour per flattened id, each the one-hot row times the colour matrix; DecodeIdsLookup proves it equal to plain table indexing |
| PspTools.DecodeIdsLookup | Segmentation_Models/PSPNet/tools.py:60-62 | for every id sequence and table, the one-hot product gives the table row of each id, or black when the id is out of range |
| PspTools.DecodeLabels | Segmentation_Models/PSPNet/tools.py:43-66 | an unknown class count, a 150-class table of the wrong length, and a mask that does not hold H * W ids are each an error; otherwise the result is one H x W colour image |
| PspTools.DecodeLabelsImage | Segmentation_Models/PSPNet/tools.py:51-66 | with a table of the right length and H * W ids, decoding succeeds with the reshaped one-hot product |
| PspTools.DecodeAt | Segmentation_Models/PSPNet/tools.py:60-63 | for any mask holding H * W ids, after flatten, one-hot, product and reshape, pixel (i, j) is the table row of flattened id i * w + j, or black |
| PspTools.DecodeLabelsFlatLookup | Segmentation_Models/PSPNet/tools.py:59-63 | for every table class count and every mask holding H * W ids, whatever its shape, decoding succeeds and the image is the row-major reshape of the table rows of the flattened ids |
| PspTools.DecodeLabelsLookup | Segmentation_Models/PSPNet/tools.py:59-63 | for every table class count and every H x W mask, decoding succeeds; each output pixel is table[mask[i][j]] when 0 <= mask[i][j] < num_classes, else black |
| PspTools.DecodeLabelsLocal | Segmentation_Models/PSPNet/tools.py:60-63 | changing one mask entry changes no output pixel other than the one at its position |
| PspTools.OsmDecodeExample | Segmentation_Models/PSPNet/tools.py:23-28 | with 6 classes, mask [[0,1],[2,5]] decodes to [[(0,0,0),(213,131,7)],[(0,153,0),(255,255,102)]] |

## Left out

- `get_unet`: the network is a layer graph whose behaviour lives in the deep-learning framework.
- `my_bce`: a floating-point clip and logarithm. Informally, it sums only over the channels before the neutral one.
- Training, saving, reloading and plotting at the top of the script (`fit_generator`, `model.save`, matplotlib). `class_weights` is unused.
- `maploader.get_sample`: the external loader is a `SampleProvider` holding a finite queue. Exhaustion stands for the loader's failure, which the source propagates.
- `random.shuffle`: randomness. It is modelled as an arbitrary permutation of `lines`. That list is always empty.
- `get_batch`'s endless `while True` / `yield`: `NextBatch` is one pass. The caller's loop repeats it.
- BatchGeneration.BatchGenerator.NextBatch: numpy broadcasting of a smaller array into a batch slot is not modelled. Any sample whose shape is not the slot's shape is a `SlotShapeMismatch` error.
- MaskedAccuracy.GetAcc: requires the two tensors to have the same batch, row and column layout, and every pixel to have a channel. numpy broadcasting of mismatched shapes, and the error numpy raises for argmax over an empty axis, are not modelled.
- MaskedAccuracy.MyAcc: the casts to `int32` and the final rounding to `float32` are not modelled. The ratio is an exact real, and the NaN or infinity of a zero denominator is the `NoCountedPixels` error.
- FeatureMap.Pred2FeatureMap: requires a rectangular score map with at least one channel per pixel. numpy raises for argmax over an empty axis.
- Floating-point dtypes throughout: the batch buffers are float in the source and the colour matrix is `float32`. The entries are integer-valued, so the model uses `int`.
- `read_labelcolours` and the `.mat` file: file I/O. The 150-class table is the parameter `colours150`.
- `load_img`: file I/O and process exit. `preprocess`: floating-point mean subtraction and padding.
- `prepare_label`: nearest-neighbour resizing is framework behaviour. Its one-hot step is the same as `OneHotVector`.
- `decode_labels` takes the mask as a 2-D grid. A leading axis of length one flattens to the same ids.
