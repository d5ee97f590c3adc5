/**
 * The COCO-style records that the evaluation builds from the benchmark's
 * ground truth and a submission's detections, and a value-level definition of
 * what `convert_to_coco_structures` computes (evaluation.py:33-235).
 *
 * The definition is stated without counters: the first pair that fails a
 * check decides the error, image i gets id i, and the annotations and
 * detections of image i start at the number of segments (detections) of the
 * images before it. The imperative loop in module CocoBuilder, which keeps
 * the source's running counters, is proved to compute it, and the properties
 * the benchmark relies on are proved about it in CocoProperties.
 */
module CocoStructures {
  import opened Wrappers

  // ---------------------------------------------------------------------
  // Inputs: the parsed ground-truth and results JSON, and the mask rasters
  // ---------------------------------------------------------------------

  /** One entry of a ground-truth image's `segments_info` list. */
  datatype Segment = Segment(bbox: seq<real>, area: real)

  /** One entry of the dataset's `annotations` list. */
  datatype DatasetEntry = DatasetEntry(fileName: string, segmentsInfo: Option<seq<Segment>>)

  /** One submitted detection; only its `bbox` is read. */
  datatype Detection = Detection(bbox: seq<real>)

  /** One entry of the results' `annotations` list. */
  datatype ResultEntry = ResultEntry(fileName: string, detections: Option<seq<Detection>>)

  /**
   * The value of a 2-D integer raster: its shape (rows, columns) and its
   * pixels row by row.
   */
  datatype Raster = Raster(height: nat, width: nat, px: seq<seq<int>>)

  /** The raster's pixel rows agree with its shape. */
  predicate WellShaped(r: Raster)
  {
    |r.px| == r.height && forall i | 0 <= i < |r.px| :: |r.px[i]| == r.width
  }

  /** Pixel (i, j), read as 0 outside the stored rows. */
  function Pixel(r: Raster, i: int, j: int): int
  {
    if 0 <= i < |r.px| && 0 <= j < |r.px[i]| then r.px[i][j] else 0
  }

  predicate SameShape(a: Raster, b: Raster)
  {
    a.height == b.height && a.width == b.width
  }

  /**
   * The overlap test of the utility module, `bbox_in_mask(mask, bbox, thr)`.
   * Its definition is not part of this model, so it is a parameter.
   */
  type BboxInMask = (Raster, seq<int>, real) -> bool

  // ---------------------------------------------------------------------
  // Outputs: the COCO records
  // ---------------------------------------------------------------------

  datatype ImageRecord = ImageRecord(id: nat, width: nat, height: nat, fileName: string)

  /** A ground-truth annotation record (its `segmentation` is always empty). */
  datatype GtRecord = GtRecord(
    id: nat, imageId: nat, categoryId: nat, bbox: seq<int>,
    isCrowd: nat, area: real, segmentation: seq<seq<real>>, ignore: nat)

  /** A detection record handed to the statistics engine. */
  datatype DetRecord = DetRecord(imageId: nat, categoryId: nat, bbox: seq<int>, score: nat, ignore: nat)

  datatype Category = Category(id: nat, name: string, supercategory: string)

  /** The ground-truth structure: `info` (its year), categories, annotations, images. */
  datatype CocoDataset = CocoDataset(
    infoYear: int, categories: seq<Category>, annotations: seq<GtRecord>, images: seq<ImageRecord>)

  /** What the builder returns: the ground-truth structure and the detection list. */
  datatype Coco = Coco(dataset: CocoDataset, results: seq<DetRecord>)

  /**
   * Why the builder stops. The first three are the source's assertions; a
   * raster shape mismatch is the failure of numpy's element-wise `|` on the
   * two rasters; BoxUnpack is `p1, p2, w, h = bbox` on a flagged box that
   * does not have four coordinates.
   */
  datatype BuildError =
    | InvalidMode
    | LengthMismatch
    | FileNameMismatch(index: nat)
    | RasterShapeMismatch(index: nat)
    | BoxUnpack(index: nat)

  // ---------------------------------------------------------------------
  // Constants
  // ---------------------------------------------------------------------

  const StaticObstacleCode: int := 1
  const IgnoreLabelCode: int := 255
  const IgnoreThreshold: real := 0.75
  const InfoYear: int := 2023
  const ObstacleClasses: seq<string> := ["ship", "person", "other"]
  /** The mode both entry points use when the caller gives none. */
  const DefaultMode: string := "full"

  predicate ValidMode(mode: string)
  {
    mode in {"edge", "dz", "full"}
  }

  function CategoriesOf(classes: seq<string>): seq<Category>
  {
    seq(|classes|, i requires 0 <= i < |classes| => Category(i, classes[i], "obstacle"))
  }

  // ---------------------------------------------------------------------
  // Per-record conversion
  // ---------------------------------------------------------------------

  /** Python's `int(x)` on a float: truncation toward zero. */
  function TruncToInt(x: real): (n: int)
    ensures 0.0 <= x ==> 0 <= n && n as real <= x < n as real + 1.0
    ensures x < 0.0 ==> n <= 0 && n as real - 1.0 < x <= n as real
  {
    if x >= 0.0 then x.Floor else -((-x).Floor)
  }

  /** `[int(x) for x in bbox]` */
  function TruncBox(b: seq<real>): (r: seq<int>)
    ensures |r| == |b|
  {
    seq(|b|, i requires 0 <= i < |b| => TruncToInt(b[i]))
  }

  /** `data_ann.get('segments_info', [])` */
  function SegmentsOf(e: DatasetEntry): seq<Segment>
  {
    match e.segmentsInfo
    case None => []
    case Some(s) => s
  }

  /** `result_ann.get('detections', [])` */
  function DetectionsOf(r: ResultEntry): seq<Detection>
  {
    match r.detections
    case None => []
    case Some(d) => d
  }

  /** One ignore-mask pixel from the panoptic and semantic values at that pixel. */
  function IgnoreValue(pan: int, sem: int): int
  {
    if pan == StaticObstacleCode || sem == IgnoreLabelCode then 1 else 0
  }

  /** The ignore mask of an image: the semantic raster's shape, one IgnoreValue per pixel. */
  function IgnoreMaskOf(pan: Raster, sem: Raster): Raster
  {
    Raster(sem.height, sem.width,
      seq(sem.height, i requires 0 <= i < sem.height =>
        seq(sem.width, j requires 0 <= j < sem.width => IgnoreValue(Pixel(pan, i, j), Pixel(sem, i, j)))))
  }

  function GtRecordOf(seg: Segment, id: nat, imageId: nat): GtRecord
  {
    GtRecord(id, imageId, 0, TruncBox(seg.bbox), 0, seg.area, [], 0)
  }

  function DetRecordOf(det: Detection, imageId: nat, mask: Raster, inMask: BboxInMask): DetRecord
  {
    var box := TruncBox(det.bbox);
    DetRecord(imageId, 0, box, 1, if inMask(mask, box, IgnoreThreshold) then 1 else 0)
  }

  /** The debugging unpack of a flagged box succeeds. */
  predicate Unpackable(det: Detection, mask: Raster, inMask: BboxInMask)
  {
    !inMask(mask, TruncBox(det.bbox), IgnoreThreshold) || |det.bbox| == 4
  }

  /**
   * The annotation records of one image's segments, numbered from `firstId`.
   * Record j belongs to segment j and carries id firstId + j.
   */
  function GtRecordsFrom(segs: seq<Segment>, firstId: nat, imageId: nat): seq<GtRecord>
  {
    seq(|segs|, j requires 0 <= j < |segs| => GtRecordOf(segs[j], firstId + j, imageId))
  }

  /** The detection records of one image, in input order. */
  function DetRecordsFrom(dets: seq<Detection>, imageId: nat, mask: Raster, inMask: BboxInMask): seq<DetRecord>
  {
    seq(|dets|, j requires 0 <= j < |dets| => DetRecordOf(dets[j], imageId, mask, inMask))
  }

  // ---------------------------------------------------------------------
  // The whole run
  // ---------------------------------------------------------------------

  /** Everything the builder checks about one aligned pair holds. */
  predicate ImageOk(e: DatasetEntry, r: ResultEntry, pan: Raster, sem: Raster, inMask: BboxInMask)
  {
    && e.fileName == r.fileName
    && SameShape(pan, sem)
    && forall j | 0 <= j < |DetectionsOf(r)| ::
         Unpackable(DetectionsOf(r)[j], IgnoreMaskOf(pan, sem), inMask)
  }

  /** The error the builder raises on a pair for which ImageOk fails. */
  function ImageError(i: nat, e: DatasetEntry, r: ResultEntry, pan: Raster, sem: Raster): BuildError
  {
    if e.fileName != r.fileName then FileNameMismatch(i)
    else if !SameShape(pan, sem) then RasterShapeMismatch(i)
    else BoxUnpack(i)
  }

  predicate Aligned(ds: seq<DatasetEntry>, rs: seq<ResultEntry>, pans: seq<Raster>, sems: seq<Raster>)
  {
    |rs| == |ds| && |pans| == |ds| && |sems| == |ds|
  }

  /** The error of the first pair among the first k that fails a check, if any. */
  function FirstError(ds: seq<DatasetEntry>, rs: seq<ResultEntry>, pans: seq<Raster>, sems: seq<Raster>,
                      inMask: BboxInMask, k: nat): Option<BuildError>
    requires Aligned(ds, rs, pans, sems) && k <= |ds|
    decreases k
  {
    if k == 0 then None
    else
      match FirstError(ds, rs, pans, sems, inMask, k - 1)
      case Some(e) => Some(e)
      case None =>
        if ImageOk(ds[k - 1], rs[k - 1], pans[k - 1], sems[k - 1], inMask) then None
        else Some(ImageError(k - 1, ds[k - 1], rs[k - 1], pans[k - 1], sems[k - 1]))
  }

  /** Number of ground-truth segments in the first i entries, a missing `segments_info` counting 0. */
  function SegmentsBefore(ds: seq<DatasetEntry>, i: nat): nat
    requires i <= |ds|
    decreases i
  {
    if i == 0 then 0 else SegmentsBefore(ds, i - 1) + |SegmentsOf(ds[i - 1])|
  }

  /** Total number of ground-truth segments over all entries. */
  function SegmentCount(ds: seq<DatasetEntry>): nat
  {
    SegmentsBefore(ds, |ds|)
  }

  /** Number of submitted detections in the first i entries, a missing `detections` counting 0. */
  function DetectionsBefore(rs: seq<ResultEntry>, i: nat): nat
    requires i <= |rs|
    decreases i
  {
    if i == 0 then 0 else DetectionsBefore(rs, i - 1) + |DetectionsOf(rs[i - 1])|
  }

  /** Total number of submitted detections over all entries. */
  function DetectionCount(rs: seq<ResultEntry>): nat
  {
    DetectionsBefore(rs, |rs|)
  }

  /** One image record per entry: id i, the semantic raster's shape, the entry's file name. */
  function ImagesOf(ds: seq<DatasetEntry>, sems: seq<Raster>): seq<ImageRecord>
    requires |sems| == |ds|
  {
    seq(|ds|, i requires 0 <= i < |ds| => ImageRecord(i, sems[i].width, sems[i].height, ds[i].fileName))
  }

  /** The annotation records of the first k images, image i's numbered from SegmentsBefore(ds, i). */
  function AnnotationsOf(ds: seq<DatasetEntry>, k: nat): seq<GtRecord>
    requires k <= |ds|
    decreases k
  {
    if k == 0 then []
    else AnnotationsOf(ds, k - 1) + GtRecordsFrom(SegmentsOf(ds[k - 1]), SegmentsBefore(ds, k - 1), k - 1)
  }

  /** The detection records of the first k images, each flagged against its own image's ignore mask. */
  function DetectionsOfRun(rs: seq<ResultEntry>, pans: seq<Raster>, sems: seq<Raster>,
                           inMask: BboxInMask, k: nat): seq<DetRecord>
    requires k <= |rs| && |pans| == |rs| && |sems| == |rs|
    decreases k
  {
    if k == 0 then []
    else
      DetectionsOfRun(rs, pans, sems, inMask, k - 1)
        + DetRecordsFrom(DetectionsOf(rs[k - 1]), k - 1, IgnoreMaskOf(pans[k - 1], sems[k - 1]), inMask)
  }

  /**
   * `convert_to_coco_structures`: `pans[i]` and `sems[i]` are the panoptic and
   * semantic rasters loaded for `ds[i]`.
   */
  function Convert(mode: string, ds: seq<DatasetEntry>, rs: seq<ResultEntry>,
                   pans: seq<Raster>, sems: seq<Raster>, inMask: BboxInMask): Result<Coco, BuildError>
    requires |pans| == |ds| && |sems| == |ds|
  {
    if !ValidMode(mode) then Failure(InvalidMode)
    else if |ds| != |rs| then Failure(LengthMismatch)
    else
      match FirstError(ds, rs, pans, sems, inMask, |ds|)
      case Some(e) => Failure(e)
      case None =>
        Success(Coco(
          CocoDataset(InfoYear, CategoriesOf(ObstacleClasses), AnnotationsOf(ds, |ds|), ImagesOf(ds, sems)),
          DetectionsOfRun(rs, pans, sems, inMask, |ds|)))
  }
}
