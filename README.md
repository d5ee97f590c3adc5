# MaCVi USV obstacle-detection evaluation core, in Dafny

This project models the scoring core of the MaCVi USV obstacle-detection
challenge toolkit (`macvi_usv_odce_toolkit/evaluation.py`) and proves
properties of it. It covers two parts:

- **Structure builder** (`convert_to_coco_structures`). It walks the
  ground-truth entries and the submitted result entries in step. It checks
  that they line up: same length, same file name at each index. For each
  image it builds a binary ignore mask from the panoptic and semantic
  rasters: a pixel is 1 where the panoptic code is 1 (static obstacle) or the
  semantic code is 255 (ignore label). It then emits:
  - one ground-truth record per segment;
  - one detection record per submitted box, flagged `ignore` when the overlap
    test on the mask holds at threshold 0.75;
  - one image record per pair.

  Images and annotations are numbered by run-global counters. All boxes are
  truncated to integers.
- **Score aggregator** (the tail of `evaluate_detection_results`). It
  sanitises the statistics vector returned by the COCO evaluation: NaN
  becomes 0, then the "no data" marker -1 becomes 0. It then computes four
  F-scores with `_f_score` from fixed precision/recall positions: (0, 8) for
  all objects, (3, 9) small, (4, 10) medium, (5, 11) large.

The modules follow that structure:

- `Wrappers` holds `Option` and `Result`.
- `CocoStructures` holds the input and output records and a value-level
  definition `Convert` of what the builder returns. It is stated without
  counters: the first failing pair decides the error, and image i's
  annotations start at the number of segments before it.
- `CocoProperties` holds the lemmas about `Convert`.
- `CocoBuilder` holds the imperative builder. It has the in-place mask
  construction on `array2<int>` and the loop with its running counters and
  appended lists. `ConvertToCocoStructures` and `ConvertPairs` are proved
  to compute `Convert` and its parts; `BuildIgnoreMask` computes
  `IgnoreMaskOf`, `AppendAnnotations` computes `GtRecordsFrom` and
  `AppendDetections` computes `DetRecordsFrom`.
- `ScoreAggregator` holds the sanitising method on an `array<real>`,
  `_f_score` and the position mapping.
- `Evaluation` holds the end-to-end method and its value-level counterpart
  `Evaluate`.

Two external parts are parameters:

- The overlap test `utils.bbox_in_mask` is the parameter `inMask`. It is
  always called with the ignore mask, the truncated box and 0.75.
- The COCO evaluation (pycocotools) is the parameter `engine`. It receives
  the ground-truth structure, the detection list and the IoU thresholds
  `[0.3, 0.3]`.

Facts about the code that shape the model:

- The only input check is `mode in {'edge', 'dz', 'full'}`
  (evaluation.py:61). Both entry points default `mode` to `'full'`
  (evaluation.py:33, 237); the model names that value `DefaultMode`.
- There are three categories, `ship`, `person` and `other`, with ids 0, 1
  and 2, each with supercategory `obstacle` (evaluation.py:223-227).
- The statistics engine is called whatever the number of detections,
  including none.
- Detection boxes are truncated to integers, as ground-truth boxes are
  (evaluation.py:171). The overlap test and the detection record both use
  the truncated box.
- A flagged detection box that does not have exactly four coordinates makes
  the tuple unpacking at evaluation.py:180 raise; the model reports it as
  the error `BoxUnpack`.

## Model

| member | source | states |
|---|---|---|
| CocoStructures.Convert | macvi_usv_odce_toolkit/evaluation.py:33-235 | The value `convert_to_coco_structures` returns, stated without counters. An invalid mode is `InvalidMode`, then unequal lengths are `LengthMismatch`, then the first failing pair's error. Otherwise the dataset holds year 2023, the three categories, every pair's annotations and one image per pair, and the detection list comes alongside |
| CocoStructures.IgnoreMaskOf | macvi_usv_odce_toolkit/evaluation.py:133-134 | The ignore mask of one image has the semantic raster's shape. Each pixel is 1 where the panoptic value is 1 or the semantic value is 255, and 0 elsewhere |
| CocoStructures.TruncBox | macvi_usv_odce_toolkit/evaluation.py:146 | `[int(x) for x in bbox]`, used for ground-truth boxes here and for detection boxes at line 171. It keeps the box's length and truncates each coordinate toward zero |
| ScoreAggregator.SanitisedStats | macvi_usv_odce_toolkit/evaluation.py:295-296 | The statistics vector after `np.nan_to_num` and after each -1 is set to 0, entry by entry, with the same length |
| ScoreAggregator.FScore | macvi_usv_odce_toolkit/evaluation.py:301-305 | `_f_score`: 0 when either precision or recall is 0. Otherwise the harmonic mean 2pr/(p+r), which is negative infinity when p + r is 0 |
| ScoreAggregator.ScoresOf | macvi_usv_odce_toolkit/evaluation.py:307-312 | The four F-scores (all, small, medium, large) from positions (0, 8), (3, 9), (4, 10) and (5, 11). A vector too short for position 11 is the error `StatsTooShort` |
| Evaluation.Evaluate | macvi_usv_odce_toolkit/evaluation.py:265-312 | The value `evaluate_detection_results` returns. It builds the structures, runs the engine with IoU thresholds [0.3, 0.3], sanitises the statistics and aggregates them. A builder error becomes `Build`, and a short vector becomes `Aggregate` |
| CocoBuilder.ConvertToCocoStructures | macvi_usv_odce_toolkit/evaluation.py:33-235 | The builder returns exactly `Convert` of the loaded rasters' values: the mode check, the length check, then the per-pair loop and the assembled structures |
| CocoBuilder.ConvertPairs | macvi_usv_odce_toolkit/evaluation.py:97-210 | The pair loop with its image and annotation counters. It fails with the error of the first failing pair, and otherwise returns the images, annotations and detections that the closed-form definition describes |
| CocoBuilder.ConvertPair | macvi_usv_odce_toolkit/evaluation.py:102-209 | One pair succeeds iff names match, shapes match and every flagged box unpacks. It then appends the image record (semantic shape, file name), the pair's annotations numbered from the counter, and its detections. Otherwise it reports the file-name, shape or unpack error, in that order |
| CocoBuilder.PairsDoneStep | macvi_usv_odce_toolkit/evaluation.py:102-209 | A pair that passes every check moves the loop state (no error so far, image list, counter, annotation list, detection list) on to the next index |
| CocoBuilder.BuildIgnoreMask | macvi_usv_odce_toolkit/evaluation.py:133-134 | A fresh mask with the semantic raster's shape. Each pixel is 1 iff pan == 1 or sem == 255, else 0, and its value is `IgnoreMaskOf` of the two rasters |
| CocoBuilder.AppendAnnotations | macvi_usv_odce_toolkit/evaluation.py:143-166 | The ground-truth loop appends one record per segment, in order, with ids counting on from the counter. The counter grows by the number of segments |
| CocoBuilder.AppendDetections | macvi_usv_odce_toolkit/evaluation.py:169-197 | The detection loop finishes iff every flagged box has four coordinates. It then appends one record per detection, in order, flagged by the overlap test on the truncated box |
| CocoProperties.ConvertSucceedsIff | macvi_usv_odce_toolkit/evaluation.py:61-134 | An invalid mode fails first and unequal lengths second. The builder succeeds iff the mode is valid, the lengths are equal and every pair has equal file names, equal raster shapes and only unpackable flagged boxes |
| CocoProperties.ConvertDefaultMode | macvi_usv_odce_toolkit/evaluation.py:33-104 | With the default mode `'full'` the mode check always passes: unequal lengths give `LengthMismatch`, and the builder succeeds iff the lists have equal length and every pair passes its checks |
| CocoProperties.ConvertReportsFirstBadPair | macvi_usv_odce_toolkit/evaluation.py:102-180 | When pair i is the first bad one, the builder fails with pair i's error. A file-name mismatch there gives `FileNameMismatch(i)` |
| CocoProperties.FirstErrorNoneIff | macvi_usv_odce_toolkit/evaluation.py:102-180 | No error among the first k pairs iff each of them passes every check |
| CocoProperties.FirstErrorIsFirstBad | macvi_usv_odce_toolkit/evaluation.py:102-180 | The first failing pair decides the error, whatever follows it |
| CocoProperties.FirstErrorPersists | macvi_usv_odce_toolkit/evaluation.py:102-180 | Once an error is found, later pairs do not change it |
| CocoProperties.FirstErrorStep | macvi_usv_odce_toolkit/evaluation.py:102-209 | After an error-free prefix, a good pair extends the annotation and detection lists by its own records, and a bad pair decides the run's error |
| CocoProperties.IgnoreMaskPixels | macvi_usv_odce_toolkit/evaluation.py:128-134 | The ignore mask has the semantic raster's shape. A pixel is 1 iff the panoptic pixel is 1 or the semantic pixel is 255, and 0 otherwise |
| CocoProperties.ConvertImages | macvi_usv_odce_toolkit/evaluation.py:203-227 | On success: one image record per pair, in order, ids 0..n-1, width and height from the semantic raster, file name copied. Info year 2023. Categories ship/person/other with ids 0, 1, 2 |
| CocoProperties.AnnotationsOfCount | macvi_usv_odce_toolkit/evaluation.py:139-166 | The first k images give exactly as many annotations as they have segments, with a missing `segments_info` counting 0 |
| CocoProperties.AnnotationsOfPrefix | macvi_usv_odce_toolkit/evaluation.py:156-166 | Processing more images only appends annotations |
| CocoProperties.AnnotationsOfFields | macvi_usv_odce_toolkit/evaluation.py:143-166 | Every annotation's id equals its position. Its image exists, and it has category 0, crowd 0, ignore 0 and an empty segmentation |
| CocoProperties.AnnotationsOfGrouped | macvi_usv_odce_toolkit/evaluation.py:99-209 | Annotations are ordered by image id |
| CocoProperties.ConvertAnnotationCount | macvi_usv_odce_toolkit/evaluation.py:99-166 | On success the annotation count is the total segment count. Ids are contiguous from 0, fields are fixed, and records are ordered by image |
| CocoProperties.ConvertAnnotationRecords | macvi_usv_odce_toolkit/evaluation.py:143-166 | On success segment j of image i is annotation number (segments before i) + j. It has that id, image i, the truncated box, the area unchanged, and category, crowd and ignore 0 |
| CocoProperties.DetectionsOfRunCount | macvi_usv_odce_toolkit/evaluation.py:169-197 | The first k images give exactly one detection record per submitted detection, with a missing `detections` counting 0 |
| CocoProperties.DetectionsOfRunPrefix | macvi_usv_odce_toolkit/evaluation.py:169-197 | Processing more images only appends detection records |
| CocoProperties.DetectionsOfRunFields | macvi_usv_odce_toolkit/evaluation.py:191-197 | Every detection record belongs to an existing image and has category 0, score 1 and an ignore flag of 0 or 1 |
| CocoProperties.DetectionsOfRunGrouped | macvi_usv_odce_toolkit/evaluation.py:102-209 | Detection records are ordered by image id |
| CocoProperties.ConvertDetectionCount | macvi_usv_odce_toolkit/evaluation.py:169-197 | On success there is one detection record per submitted detection. Each has fixed fields, and records are ordered by image |
| CocoProperties.ConvertDetectionRecords | macvi_usv_odce_toolkit/evaluation.py:169-197 | On success detection j of image i is record number (detections before i) + j. It has image i, category 0, the truncated box and score 1, and ignore is 1 iff the overlap test on image i's ignore mask holds at 0.75 |
| CocoStructures.TruncToInt | macvi_usv_odce_toolkit/evaluation.py:146 | `int(x)` truncates toward zero: the result lies within 1 of x, on the same side of 0 |
| ScoreAggregator.SanitiseStats | macvi_usv_odce_toolkit/evaluation.py:295-296 | The two sanitising statements give a fresh array holding the sanitised vector, entry by entry |
| ScoreAggregator.SanitisedStatClears | macvi_usv_odce_toolkit/evaluation.py:295-296 | NaN and -1 become 0, every other entry keeps its value, and no sanitised entry is -1 |
| ScoreAggregator.SanitisedStatsIdempotent | macvi_usv_odce_toolkit/evaluation.py:295-296 | Sanitising an already sanitised vector changes nothing |
| ScoreAggregator.SanitisedStatUnit | macvi_usv_odce_toolkit/evaluation.py:295-296 | Any entry the engine can report (NaN, -1 or a value in [0, 1]) sanitises into [0, 1] |
| ScoreAggregator.FScoreZeroAndSymmetric | macvi_usv_odce_toolkit/evaluation.py:301-305 | `_f_score` is 0 when either argument is 0, and it is symmetric |
| ScoreAggregator.FScoreInfiniteIff | macvi_usv_odce_toolkit/evaluation.py:301-305 | The score is negative infinity exactly when both arguments are non-zero and sum to 0 |
| ScoreAggregator.FScoreHarmonic | macvi_usv_odce_toolkit/evaluation.py:301-305 | For non-zero, non-cancelling arguments the score f is finite and f * (p + r) == 2 * p * r |
| ScoreAggregator.FScoreBetween | macvi_usv_odce_toolkit/evaluation.py:301-305 | For positive p and r the score lies between them, and equals p when p == r |
| ScoreAggregator.FScoreUnit | macvi_usv_odce_toolkit/evaluation.py:301-305 | Precision and recall in [0, 1] give a finite score in [0, 1] |
| ScoreAggregator.ScoresOfPositions | macvi_usv_odce_toolkit/evaluation.py:307-312 | Aggregation succeeds iff the vector has at least 12 entries. The four scores are `_f_score` of positions (0, 8), (3, 9), (4, 10) and (5, 11), in that order |
| ScoreAggregator.ScoresUnit | macvi_usv_odce_toolkit/evaluation.py:295-312 | If every raw statistic is NaN, -1 or in [0, 1] and there are at least 12, the four scores are finite and in [0, 1] |
| Evaluation.EvaluateDetectionResults | macvi_usv_odce_toolkit/evaluation.py:265-312 | The end-to-end method returns exactly `Evaluate`: build, run the engine with IoU thresholds [0.3, 0.3], sanitise, aggregate |
| Evaluation.EvaluateErrors | macvi_usv_odce_toolkit/evaluation.py:265-312 | A builder failure is the evaluation's failure with the same error. After a successful build, the evaluation succeeds iff the engine returns at least 12 statistics |
| Evaluation.EvaluateScores | macvi_usv_odce_toolkit/evaluation.py:295-312 | Each returned score is `_f_score` of the sanitised precision and recall of its own size bucket, taken from the engine's statistics on the built structures |
| Evaluation.EvaluateUnit | macvi_usv_odce_toolkit/evaluation.py:295-312 | When the build succeeds and the engine reports at least 12 statistics, each NaN, -1 or in [0, 1], all four scores are finite and in [0, 1] |

## Left out

- File access and JSON parsing are outside the model: `open`/`json.load`,
  `cv2.imread` and the channel selection `[..., -1]` / `[..., 0]`. The model
  takes the parsed entry lists and one loaded panoptic and one loaded
  semantic raster per dataset entry.
- Errors from missing files are not modelled. `cv2.imread` returning `None`
  then fails on indexing.
- Missing JSON keys are not modelled: `annotations`, `file_name`, `bbox` and
  `area` raise `KeyError`. Only `segments_info` and `detections` have
  defaults, and those are modelled.
- Non-numeric box coordinates are not modelled, nor `int()` of NaN or
  infinity raising. Box coordinates are reals.
- Path assembly and the colour image are not modelled: the `lars_path` and
  file-name strings, the `png`→`jpg` replacement, and the image `im`, which
  only commented-out plotting uses.
- `utils.bbox_in_mask` is not part of this model. It is the uninterpreted
  parameter `inMask`, so its clipping and area rules are not captured.
- The pycocotools pipeline is not modelled: index building, `loadRes`,
  evaluate/accumulate/summarize and the stdout redirection. It is the
  parameter `engine`, which receives the thresholds `[0.3, 0.3]`.
- Evaluation.Evaluate: `engine` is a total function, so a failing COCO
  evaluation is not modelled. `loadRes` raises on an empty detection list,
  and the model instead returns whatever statistics the engine gives.
- `print(stats)` is left out.
- `__main__.py` is not part of this model: command-line parsing, archive
  packing and unpacking, and result files are I/O glue.
- The unused parameters `sequences` and `ignore_class` are left out, along
  with the danger-zone/sea-edge constants and `OBSTACLE_CLASS_NAME_TO_ID_MAP`.
- Floating point is modelled over mathematical reals, so IEEE rounding of
  the harmonic mean and of `int()` is not captured. Only the division by a
  zero sum is kept, as `MinusInfinity`.
- ScoreAggregator.SanitiseStats: `np.nan_to_num` also maps ±infinity to the
  largest finite floats. Statistics are modelled as NaN or finite reals, so
  that case is not captured.
- CocoBuilder.BuildIgnoreMask: numpy broadcasting of rasters whose shapes
  differ but are broadcast-compatible (a dimension of size 1) is not
  modelled. Any shape mismatch is the error `RasterShapeMismatch`.
- The ignore mask's `uint8` element type is not modelled separately. Its
  values are 0 and 1 either way.
- Evaluation.EvaluateDetectionResults: pycocotools always returns twelve
  statistics. The model does not assume this, and reports a shorter vector
  as `StatsTooShort` (Python's `IndexError`).
- The `mode` argument is only validated. The code does not use it after
  that check, so neither does the model.
