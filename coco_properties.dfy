/**
 * What `convert_to_coco_structures` guarantees, proved about the value-level
 * definition in CocoStructures: when it fails and with which error, and, when
 * it succeeds, exactly which image, annotation and detection records it emits
 * and how they are numbered.
 */
module CocoProperties {
  import opened Wrappers
  import opened CocoStructures

  // ---------------------------------------------------------------------
  // Success and failure
  // ---------------------------------------------------------------------

  /** No error is found among the first k pairs iff each of them passes every check. */
  lemma {:induction false} FirstErrorNoneIff(ds: seq<DatasetEntry>, rs: seq<ResultEntry>, pans: seq<Raster>,
                                             sems: seq<Raster>, inMask: BboxInMask, k: nat)
    requires Aligned(ds, rs, pans, sems) && k <= |ds|
    ensures FirstError(ds, rs, pans, sems, inMask, k).None? <==>
      forall i | 0 <= i < k :: ImageOk(ds[i], rs[i], pans[i], sems[i], inMask)
  {
    if k > 0 {
      FirstErrorNoneIff(ds, rs, pans, sems, inMask, k - 1);
    }
  }

  /** Once an error is found, later pairs do not change it. */
  lemma {:induction false} FirstErrorPersists(ds: seq<DatasetEntry>, rs: seq<ResultEntry>, pans: seq<Raster>,
                                              sems: seq<Raster>, inMask: BboxInMask, k: nat, k': nat)
    requires Aligned(ds, rs, pans, sems) && k <= k' <= |ds|
    requires FirstError(ds, rs, pans, sems, inMask, k).Some?
    ensures FirstError(ds, rs, pans, sems, inMask, k') == FirstError(ds, rs, pans, sems, inMask, k)
    decreases k' - k
  {
    if k < k' {
      FirstErrorPersists(ds, rs, pans, sems, inMask, k, k' - 1);
    }
  }

  /**
   * One more pair after an error-free prefix: it either extends every list by
   * that pair's records or decides the error of the whole run.
   */
  lemma FirstErrorStep(ds: seq<DatasetEntry>, rs: seq<ResultEntry>, pans: seq<Raster>,
                       sems: seq<Raster>, inMask: BboxInMask, i: nat)
    requires Aligned(ds, rs, pans, sems) && i < |ds|
    requires FirstError(ds, rs, pans, sems, inMask, i) == None
    ensures ImageOk(ds[i], rs[i], pans[i], sems[i], inMask) ==>
      && FirstError(ds, rs, pans, sems, inMask, i + 1) == None
      && SegmentsBefore(ds, i + 1) == SegmentsBefore(ds, i) + |SegmentsOf(ds[i])|
      && AnnotationsOf(ds, i + 1) == AnnotationsOf(ds, i) + GtRecordsFrom(SegmentsOf(ds[i]), SegmentsBefore(ds, i), i)
      && DetectionsOfRun(rs, pans, sems, inMask, i + 1) == DetectionsOfRun(rs, pans, sems, inMask, i)
           + DetRecordsFrom(DetectionsOf(rs[i]), i, IgnoreMaskOf(pans[i], sems[i]), inMask)
    ensures !ImageOk(ds[i], rs[i], pans[i], sems[i], inMask) ==>
      FirstError(ds, rs, pans, sems, inMask, |ds|) == Some(ImageError(i, ds[i], rs[i], pans[i], sems[i]))
  {
    if !ImageOk(ds[i], rs[i], pans[i], sems[i], inMask) {
      FirstErrorPersists(ds, rs, pans, sems, inMask, i + 1, |ds|);
    }
  }

  /** The first pair that fails a check decides the error, whatever follows it. */
  lemma {:induction false} FirstErrorIsFirstBad(ds: seq<DatasetEntry>, rs: seq<ResultEntry>, pans: seq<Raster>,
                                                sems: seq<Raster>, inMask: BboxInMask, i: nat, k: nat)
    requires Aligned(ds, rs, pans, sems) && i < k <= |ds|
    requires forall i' | 0 <= i' < i :: ImageOk(ds[i'], rs[i'], pans[i'], sems[i'], inMask)
    requires !ImageOk(ds[i], rs[i], pans[i], sems[i], inMask)
    ensures FirstError(ds, rs, pans, sems, inMask, k) == Some(ImageError(i, ds[i], rs[i], pans[i], sems[i]))
  {
    if k == i + 1 {
      FirstErrorNoneIff(ds, rs, pans, sems, inMask, i);
    } else {
      FirstErrorIsFirstBad(ds, rs, pans, sems, inMask, i, k - 1);
    }
  }

  /**
   * The builder produces output iff the mode is one of the three known ones,
   * the two lists have the same length and every aligned pair has the same
   * file name, rasters of one shape and only unpackable flagged boxes. The
   * mode is checked first, the lengths second.
   */
  lemma ConvertSucceedsIff(mode: string, ds: seq<DatasetEntry>, rs: seq<ResultEntry>,
                           pans: seq<Raster>, sems: seq<Raster>, inMask: BboxInMask)
    requires |pans| == |ds| && |sems| == |ds|
    ensures !ValidMode(mode) ==> Convert(mode, ds, rs, pans, sems, inMask) == Failure(InvalidMode)
    ensures ValidMode(mode) && |ds| != |rs| ==> Convert(mode, ds, rs, pans, sems, inMask) == Failure(LengthMismatch)
    ensures Convert(mode, ds, rs, pans, sems, inMask).Success? <==>
      && ValidMode(mode)
      && |ds| == |rs|
      && forall i | 0 <= i < |ds| :: ImageOk(ds[i], rs[i], pans[i], sems[i], inMask)
  {
    if ValidMode(mode) && |ds| == |rs| {
      FirstErrorNoneIff(ds, rs, pans, sems, inMask, |ds|);
    }
  }

  /**
   * Called with its default mode, the builder never rejects the mode: lists
   * of unequal length reach the length check, and it succeeds iff the lists
   * line up and every pair passes its checks.
   */
  lemma ConvertDefaultMode(ds: seq<DatasetEntry>, rs: seq<ResultEntry>,
                           pans: seq<Raster>, sems: seq<Raster>, inMask: BboxInMask)
    requires |pans| == |ds| && |sems| == |ds|
    ensures |ds| != |rs| ==> Convert(DefaultMode, ds, rs, pans, sems, inMask) == Failure(LengthMismatch)
    ensures Convert(DefaultMode, ds, rs, pans, sems, inMask).Success? <==>
      && |ds| == |rs|
      && forall i | 0 <= i < |ds| :: ImageOk(ds[i], rs[i], pans[i], sems[i], inMask)
  {
    assert ValidMode(DefaultMode) by {
      assert DefaultMode == "full";
    }
    ConvertSucceedsIff(DefaultMode, ds, rs, pans, sems, inMask);
  }

  /**
   * When pair i is the first that fails a check, the builder reports that
   * pair: a file-name mismatch first, then a raster shape mismatch, then a
   * flagged box that does not unpack.
   */
  lemma ConvertReportsFirstBadPair(mode: string, ds: seq<DatasetEntry>, rs: seq<ResultEntry>,
                                   pans: seq<Raster>, sems: seq<Raster>, inMask: BboxInMask, i: nat)
    requires |pans| == |ds| && |sems| == |ds| && |rs| == |ds| && ValidMode(mode) && i < |ds|
    requires forall i' | 0 <= i' < i :: ImageOk(ds[i'], rs[i'], pans[i'], sems[i'], inMask)
    requires !ImageOk(ds[i], rs[i], pans[i], sems[i], inMask)
    ensures Convert(mode, ds, rs, pans, sems, inMask) == Failure(ImageError(i, ds[i], rs[i], pans[i], sems[i]))
    ensures ds[i].fileName != rs[i].fileName ==>
      Convert(mode, ds, rs, pans, sems, inMask) == Failure(FileNameMismatch(i))
  {
    FirstErrorIsFirstBad(ds, rs, pans, sems, inMask, i, |ds|);
  }

  // ---------------------------------------------------------------------
  // Ignore mask
  // ---------------------------------------------------------------------

  /**
   * The ignore mask has the semantic raster's shape, and a pixel of it is 1
   * iff the panoptic pixel is the static-obstacle code 1 or the semantic
   * pixel is the ignore label 255; every other pixel is 0.
   */
  lemma IgnoreMaskPixels(pan: Raster, sem: Raster, i: nat, j: nat)
    requires i < sem.height && j < sem.width
    ensures var mask := IgnoreMaskOf(pan, sem);
      && mask.height == sem.height && mask.width == sem.width && WellShaped(mask)
      && (Pixel(mask, i, j) == 1 <==> Pixel(pan, i, j) == 1 || Pixel(sem, i, j) == 255)
      && (Pixel(mask, i, j) == 0 <==> !(Pixel(pan, i, j) == 1 || Pixel(sem, i, j) == 255))
  {
  }

  // ---------------------------------------------------------------------
  // Images
  // ---------------------------------------------------------------------

  /**
   * On success there is one image record per pair, in input order, numbered
   * 0..n-1, with the semantic raster's width and height and the entry's file
   * name; the three categories and the info year are fixed.
   */
  lemma ConvertImages(mode: string, ds: seq<DatasetEntry>, rs: seq<ResultEntry>,
                      pans: seq<Raster>, sems: seq<Raster>, inMask: BboxInMask)
    requires |pans| == |ds| && |sems| == |ds|
    requires Convert(mode, ds, rs, pans, sems, inMask).Success?
    ensures var coco := Convert(mode, ds, rs, pans, sems, inMask).value.dataset;
      && |coco.images| == |ds|
      && (forall i | 0 <= i < |ds| :: coco.images[i] == ImageRecord(i, sems[i].width, sems[i].height, ds[i].fileName))
      && coco.infoYear == 2023
      && coco.categories == [Category(0, "ship", "obstacle"), Category(1, "person", "obstacle"),
                             Category(2, "other", "obstacle")]
  {
  }

  // ---------------------------------------------------------------------
  // Ground-truth annotations
  // ---------------------------------------------------------------------

  /** Annotation records carry the fixed fields, their ids are their positions and their images exist. */
  predicate AnnotationFields(ann: seq<GtRecord>, images: nat)
  {
    forall n | 0 <= n < |ann| ::
      && ann[n].id == n && ann[n].imageId < images && ann[n].categoryId == 0
      && ann[n].isCrowd == 0 && ann[n].ignore == 0 && ann[n].segmentation == []
  }

  /** The records of one image come before those of the next. */
  predicate AnnotationsGrouped(ann: seq<GtRecord>)
  {
    forall n, m | 0 <= n <= m < |ann| :: ann[n].imageId <= ann[m].imageId
  }

  /** The first k images contribute one annotation per segment. */
  lemma {:induction false} AnnotationsOfCount(ds: seq<DatasetEntry>, k: nat)
    requires k <= |ds|
    ensures |AnnotationsOf(ds, k)| == SegmentsBefore(ds, k)
  {
    if k > 0 {
      AnnotationsOfCount(ds, k - 1);
    }
  }

  /** Processing more images only appends annotations. */
  lemma {:induction false} AnnotationsOfPrefix(ds: seq<DatasetEntry>, k: nat, k': nat)
    requires k <= k' <= |ds|
    ensures AnnotationsOf(ds, k) <= AnnotationsOf(ds, k')
    decreases k' - k
  {
    if k < k' {
      AnnotationsOfPrefix(ds, k, k' - 1);
    }
  }

  /** The annotations of the first k images carry the fixed fields and are numbered by position. */
  lemma {:induction false} AnnotationsOfFields(ds: seq<DatasetEntry>, k: nat)
    requires k <= |ds|
    ensures AnnotationFields(AnnotationsOf(ds, k), k)
  {
    if k > 0 {
      var prev := AnnotationsOf(ds, k - 1);
      var gts := GtRecordsFrom(SegmentsOf(ds[k - 1]), SegmentsBefore(ds, k - 1), k - 1);
      AnnotationsOfFields(ds, k - 1);
      AnnotationsOfCount(ds, k - 1);
      var all := prev + gts;
      forall n | 0 <= n < |all|
        ensures && all[n].id == n && all[n].imageId < k && all[n].categoryId == 0
                && all[n].isCrowd == 0 && all[n].ignore == 0 && all[n].segmentation == []
      {
        if n >= |prev| {
          assert all[n] == gts[n - |prev|];
        }
      }
    }
  }

  /** The annotations of the first k images are grouped by image, in image order. */
  lemma {:induction false} AnnotationsOfGrouped(ds: seq<DatasetEntry>, k: nat)
    requires k <= |ds|
    ensures AnnotationsGrouped(AnnotationsOf(ds, k))
  {
    if k > 0 {
      var prev := AnnotationsOf(ds, k - 1);
      var gts := GtRecordsFrom(SegmentsOf(ds[k - 1]), SegmentsBefore(ds, k - 1), k - 1);
      AnnotationsOfGrouped(ds, k - 1);
      AnnotationsOfFields(ds, k - 1);
      var all := prev + gts;
      forall n, m | 0 <= n <= m < |all|
        ensures all[n].imageId <= all[m].imageId
      {
        if m >= |prev| {
          assert all[m] == gts[m - |prev|];
        }
        if n >= |prev| {
          assert all[n] == gts[n - |prev|];
        }
      }
    }
  }

  /**
   * On success there are as many annotation records as segments over all
   * images; their ids run 0..N-1, every record has category 0, crowd 0,
   * ignore 0, an empty segmentation and an existing image, and the records of
   * one image come before those of the next.
   */
  lemma ConvertAnnotationCount(mode: string, ds: seq<DatasetEntry>, rs: seq<ResultEntry>,
                               pans: seq<Raster>, sems: seq<Raster>, inMask: BboxInMask)
    requires |pans| == |ds| && |sems| == |ds|
    requires Convert(mode, ds, rs, pans, sems, inMask).Success?
    ensures var ann := Convert(mode, ds, rs, pans, sems, inMask).value.dataset.annotations;
      && |ann| == SegmentCount(ds)
      && AnnotationFields(ann, |ds|)
      && AnnotationsGrouped(ann)
  {
    AnnotationsOfCount(ds, |ds|);
    AnnotationsOfFields(ds, |ds|);
    AnnotationsOfGrouped(ds, |ds|);
  }

  /**
   * On success segment j of image i becomes annotation number
   * SegmentsBefore(ds, i) + j: that id, image i, category 0, the segment's
   * box truncated to integers, crowd 0, the segment's area unchanged, ignore 0.
   */
  lemma ConvertAnnotationRecords(mode: string, ds: seq<DatasetEntry>, rs: seq<ResultEntry>,
                                 pans: seq<Raster>, sems: seq<Raster>, inMask: BboxInMask, i: nat, j: nat)
    requires |pans| == |ds| && |sems| == |ds|
    requires Convert(mode, ds, rs, pans, sems, inMask).Success?
    requires i < |ds| && j < |SegmentsOf(ds[i])|
    ensures var ann := Convert(mode, ds, rs, pans, sems, inMask).value.dataset.annotations;
      var n := SegmentsBefore(ds, i) + j;
      var seg := SegmentsOf(ds[i])[j];
      && n < |ann|
      && ann[n] == GtRecord(n, i, 0, TruncBox(seg.bbox), 0, seg.area, [], 0)
  {
    AnnotationsOfCount(ds, i);
    AnnotationsOfPrefix(ds, i + 1, |ds|);
    var upTo := AnnotationsOf(ds, i + 1);
    var gts := GtRecordsFrom(SegmentsOf(ds[i]), SegmentsBefore(ds, i), i);
    assert upTo == AnnotationsOf(ds, i) + gts;
    assert upTo[SegmentsBefore(ds, i) + j] == gts[j];
  }

  // ---------------------------------------------------------------------
  // Detections
  // ---------------------------------------------------------------------

  /** Detection records carry category 0, score 1, a 0/1 flag and an existing image. */
  predicate DetectionFields(dets: seq<DetRecord>, images: nat)
  {
    forall n | 0 <= n < |dets| ::
      && dets[n].imageId < images && dets[n].categoryId == 0 && dets[n].score == 1
      && (dets[n].ignore == 0 || dets[n].ignore == 1)
  }

  /** The records of one image come before those of the next. */
  predicate DetectionsGrouped(dets: seq<DetRecord>)
  {
    forall n, m | 0 <= n <= m < |dets| :: dets[n].imageId <= dets[m].imageId
  }

  /** The first k images contribute one detection record per detection. */
  lemma {:induction false} DetectionsOfRunCount(rs: seq<ResultEntry>, pans: seq<Raster>, sems: seq<Raster>,
                                                inMask: BboxInMask, k: nat)
    requires k <= |rs| && |pans| == |rs| && |sems| == |rs|
    ensures |DetectionsOfRun(rs, pans, sems, inMask, k)| == DetectionsBefore(rs, k)
  {
    if k > 0 {
      DetectionsOfRunCount(rs, pans, sems, inMask, k - 1);
    }
  }

  /** Processing more images only appends detection records. */
  lemma {:induction false} DetectionsOfRunPrefix(rs: seq<ResultEntry>, pans: seq<Raster>, sems: seq<Raster>,
                                                 inMask: BboxInMask, k: nat, k': nat)
    requires k <= k' <= |rs| && |pans| == |rs| && |sems| == |rs|
    ensures DetectionsOfRun(rs, pans, sems, inMask, k) <= DetectionsOfRun(rs, pans, sems, inMask, k')
    decreases k' - k
  {
    if k < k' {
      DetectionsOfRunPrefix(rs, pans, sems, inMask, k, k' - 1);
    }
  }

  /** The detection records of the first k images carry the fixed fields. */
  lemma {:induction false} DetectionsOfRunFields(rs: seq<ResultEntry>, pans: seq<Raster>, sems: seq<Raster>,
                                                 inMask: BboxInMask, k: nat)
    requires k <= |rs| && |pans| == |rs| && |sems| == |rs|
    ensures DetectionFields(DetectionsOfRun(rs, pans, sems, inMask, k), k)
  {
    if k > 0 {
      var prev := DetectionsOfRun(rs, pans, sems, inMask, k - 1);
      var added := DetRecordsFrom(DetectionsOf(rs[k - 1]), k - 1, IgnoreMaskOf(pans[k - 1], sems[k - 1]), inMask);
      DetectionsOfRunFields(rs, pans, sems, inMask, k - 1);
      var all := prev + added;
      forall n | 0 <= n < |all|
        ensures && all[n].imageId < k && all[n].categoryId == 0 && all[n].score == 1
                && (all[n].ignore == 0 || all[n].ignore == 1)
      {
        if n >= |prev| {
          assert all[n] == added[n - |prev|];
        }
      }
    }
  }

  /** The detection records of the first k images are grouped by image, in image order. */
  lemma {:induction false} DetectionsOfRunGrouped(rs: seq<ResultEntry>, pans: seq<Raster>, sems: seq<Raster>,
                                                  inMask: BboxInMask, k: nat)
    requires k <= |rs| && |pans| == |rs| && |sems| == |rs|
    ensures DetectionsGrouped(DetectionsOfRun(rs, pans, sems, inMask, k))
  {
    if k > 0 {
      var prev := DetectionsOfRun(rs, pans, sems, inMask, k - 1);
      var added := DetRecordsFrom(DetectionsOf(rs[k - 1]), k - 1, IgnoreMaskOf(pans[k - 1], sems[k - 1]), inMask);
      DetectionsOfRunGrouped(rs, pans, sems, inMask, k - 1);
      DetectionsOfRunFields(rs, pans, sems, inMask, k - 1);
      var all := prev + added;
      forall n, m | 0 <= n <= m < |all|
        ensures all[n].imageId <= all[m].imageId
      {
        if m >= |prev| {
          assert all[m] == added[m - |prev|];
        }
        if n >= |prev| {
          assert all[n] == added[n - |prev|];
        }
      }
    }
  }

  /**
   * On success there is exactly one detection record per submitted detection;
   * every record has category 0, score 1, an ignore flag of 0 or 1 and an
   * existing image, and the records of one image come before those of the next.
   */
  lemma ConvertDetectionCount(mode: string, ds: seq<DatasetEntry>, rs: seq<ResultEntry>,
                              pans: seq<Raster>, sems: seq<Raster>, inMask: BboxInMask)
    requires |pans| == |ds| && |sems| == |ds|
    requires Convert(mode, ds, rs, pans, sems, inMask).Success?
    ensures var dets := Convert(mode, ds, rs, pans, sems, inMask).value.results;
      && |dets| == DetectionCount(rs)
      && DetectionFields(dets, |ds|)
      && DetectionsGrouped(dets)
  {
    DetectionsOfRunCount(rs, pans, sems, inMask, |ds|);
    DetectionsOfRunFields(rs, pans, sems, inMask, |ds|);
    DetectionsOfRunGrouped(rs, pans, sems, inMask, |ds|);
  }

  /**
   * On success detection j of image i becomes detection record number
   * DetectionsBefore(rs, i) + j: image i, category 0, the box truncated to
   * integers, score 1, and ignore 1 exactly when the overlap test with
   * threshold 0.75 holds for that truncated box on image i's ignore mask.
   */
  lemma ConvertDetectionRecords(mode: string, ds: seq<DatasetEntry>, rs: seq<ResultEntry>,
                                pans: seq<Raster>, sems: seq<Raster>, inMask: BboxInMask, i: nat, j: nat)
    requires |pans| == |ds| && |sems| == |ds|
    requires Convert(mode, ds, rs, pans, sems, inMask).Success?
    requires i < |rs| && j < |DetectionsOf(rs[i])|
    ensures var dets := Convert(mode, ds, rs, pans, sems, inMask).value.results;
      var n := DetectionsBefore(rs, i) + j;
      var box := TruncBox(DetectionsOf(rs[i])[j].bbox);
      && n < |dets|
      && dets[n].imageId == i
      && dets[n].categoryId == 0
      && dets[n].bbox == box
      && dets[n].score == 1
      && (dets[n].ignore == 1 <==> inMask(IgnoreMaskOf(pans[i], sems[i]), box, 0.75))
      && (dets[n].ignore == 0 <==> !inMask(IgnoreMaskOf(pans[i], sems[i]), box, 0.75))
  {
    DetectionsOfRunCount(rs, pans, sems, inMask, i);
    DetectionsOfRunPrefix(rs, pans, sems, inMask, i + 1, |rs|);
    var upTo := DetectionsOfRun(rs, pans, sems, inMask, i + 1);
    var added := DetRecordsFrom(DetectionsOf(rs[i]), i, IgnoreMaskOf(pans[i], sems[i]), inMask);
    assert upTo == DetectionsOfRun(rs, pans, sems, inMask, i) + added;
    assert upTo[DetectionsBefore(rs, i) + j] == added[j];
  }
}
