/**
 * The builder loop of `convert_to_coco_structures` (evaluation.py:33-235) as
 * the source runs it: one pass over the aligned dataset and results entries,
 * the ignore mask built pixel by pixel into a fresh array, three lists grown
 * by appending, and running image and annotation counters. Each method is
 * proved to compute the value-level definition of CocoStructures.
 */
module CocoBuilder {
  import opened Wrappers
  import opened CocoStructures
  import CocoProperties

  /** The value held by a 2-D array. */
  function ToRaster(a: array2<int>): (r: Raster)
    reads a
    ensures r.height == a.Length0 && r.width == a.Length1
  {
    Raster(a.Length0, a.Length1,
      seq(a.Length0, i requires 0 <= i < a.Length0 reads a =>
        seq(a.Length1, j requires 0 <= j < a.Length1 reads a => a[i, j])))
  }

  /** The values held by a list of 2-D arrays. */
  function RastersOf(arrs: seq<array2<int>>): (rs: seq<Raster>)
    reads set k | 0 <= k < |arrs| :: arrs[k]
    ensures |rs| == |arrs|
    ensures forall k | 0 <= k < |arrs| :: rs[k] == ToRaster(arrs[k])
  {
    seq(|arrs|, k requires 0 <= k < |arrs| reads set k | 0 <= k < |arrs| :: arrs[k] => ToRaster(arrs[k]))
  }

  /**
   * `np.zeros_like(sem_ann)` followed by setting to 1 every pixel where the
   * panoptic raster holds the static-obstacle code or the semantic raster
   * the ignore label. The two rasters must have one shape (numpy raises
   * otherwise; the caller checks first).
   */
  method BuildIgnoreMask(pan: array2<int>, sem: array2<int>) returns (mask: array2<int>)
    requires pan.Length0 == sem.Length0 && pan.Length1 == sem.Length1
    ensures fresh(mask)
    ensures mask.Length0 == sem.Length0 && mask.Length1 == sem.Length1
    ensures forall i, j | 0 <= i < mask.Length0 && 0 <= j < mask.Length1 ::
      mask[i, j] == (if pan[i, j] == StaticObstacleCode || sem[i, j] == IgnoreLabelCode then 1 else 0)
    ensures ToRaster(mask) == IgnoreMaskOf(ToRaster(pan), ToRaster(sem))
  {
    mask := new int[sem.Length0, sem.Length1]((i, j) => 0);
    for i := 0 to sem.Length0
      invariant forall i', j | 0 <= i' < i && 0 <= j < mask.Length1 ::
        mask[i', j] == IgnoreValue(pan[i', j], sem[i', j])
      invariant forall i', j | i <= i' < mask.Length0 && 0 <= j < mask.Length1 :: mask[i', j] == 0
    {
      for j := 0 to sem.Length1
        invariant forall i', j' | 0 <= i' < i && 0 <= j' < mask.Length1 ::
          mask[i', j'] == IgnoreValue(pan[i', j'], sem[i', j'])
        invariant forall j' | 0 <= j' < j :: mask[i, j'] == IgnoreValue(pan[i, j'], sem[i, j'])
        invariant forall i', j' | i <= i' < mask.Length0 && 0 <= j' < mask.Length1 && (i' > i || j' >= j) ::
          mask[i', j'] == 0
      {
        if pan[i, j] == StaticObstacleCode || sem[i, j] == IgnoreLabelCode {
          mask[i, j] := 1;
        }
      }
    }
    MaskRaster(mask, pan, sem);
  }

  /** A mask whose every pixel is the IgnoreValue of the two inputs holds IgnoreMaskOf of their values. */
  lemma MaskRaster(mask: array2<int>, pan: array2<int>, sem: array2<int>)
    requires pan.Length0 == sem.Length0 && pan.Length1 == sem.Length1
    requires mask.Length0 == sem.Length0 && mask.Length1 == sem.Length1
    requires forall i, j | 0 <= i < mask.Length0 && 0 <= j < mask.Length1 ::
      mask[i, j] == IgnoreValue(pan[i, j], sem[i, j])
    ensures ToRaster(mask) == IgnoreMaskOf(ToRaster(pan), ToRaster(sem))
  {
    var m := ToRaster(mask);
    var want := IgnoreMaskOf(ToRaster(pan), ToRaster(sem));
    forall i | 0 <= i < mask.Length0
      ensures m.px[i] == want.px[i]
    {
      forall j | 0 <= j < mask.Length1
        ensures m.px[i][j] == want.px[i][j]
      {
        assert m.px[i][j] == mask[i, j];
        assert Pixel(ToRaster(pan), i, j) == pan[i, j] && Pixel(ToRaster(sem), i, j) == sem[i, j];
      }
    }
  }

  /**
   * The ground-truth loop of one image: one record per segment, appended in
   * order to `annotations`, with ids taken from the running counter.
   */
  method AppendAnnotations(annotations: seq<GtRecord>, annotationId: nat, segments: seq<Segment>, imageId: nat)
    returns (annotations': seq<GtRecord>, annotationId': nat)
    ensures annotations' == annotations + GtRecordsFrom(segments, annotationId, imageId)
    ensures annotationId' == annotationId + |segments|
  {
    ghost var gts := GtRecordsFrom(segments, annotationId, imageId);
    annotations', annotationId' := annotations, annotationId;
    for j := 0 to |segments|
      invariant annotationId' == annotationId + j
      invariant annotations' == annotations + gts[..j]
    {
      var segment := segments[j];
      var bbox := TruncBox(segment.bbox);
      annotations' := annotations' + [GtRecord(annotationId', imageId, 0, bbox, 0, segment.area, [], 0)];
      annotationId' := annotationId' + 1;
      assert gts[..j + 1] == gts[..j] + [gts[j]];
    }
    assert gts[..|segments|] == gts;
  }

  /**
   * The detection loop of one image: each box is truncated, flagged when the
   * overlap test on the ignore mask holds, and appended to `detections`. A
   * flagged box without four coordinates stops the loop (`ok` false); `ok`
   * holds iff every detection is unpackable.
   */
  method AppendDetections(detections: seq<DetRecord>, dets: seq<Detection>, imageId: nat,
                          mask: array2<int>, inMask: BboxInMask)
    returns (detections': seq<DetRecord>, ok: bool)
    ensures ok <==> forall j | 0 <= j < |dets| :: Unpackable(dets[j], ToRaster(mask), inMask)
    ensures ok ==> detections' == detections + DetRecordsFrom(dets, imageId, ToRaster(mask), inMask)
  {
    ghost var added := DetRecordsFrom(dets, imageId, ToRaster(mask), inMask);
    detections' := detections;
    for j := 0 to |dets|
      invariant detections' == detections + added[..j]
      invariant forall j' | 0 <= j' < j :: Unpackable(dets[j'], ToRaster(mask), inMask)
    {
      var bbox := TruncBox(dets[j].bbox);
      var ignore := inMask(ToRaster(mask), bbox, IgnoreThreshold);
      if ignore && |bbox| != 4 {
        assert !Unpackable(dets[j], ToRaster(mask), inMask);
        return detections', false;
      }
      detections' := detections' + [DetRecord(imageId, 0, bbox, 1, if ignore then 1 else 0)];
      assert added[..j + 1] == added[..j] + [added[j]];
    }
    assert added[..|dets|] == added;
    ok := true;
  }

  /**
   * The body of the loop for the pair at position `imageId`: it checks the
   * file names and the raster shapes, builds the ignore mask, then appends
   * the image's annotations, detections and image record. It succeeds iff
   * the pair passes every check, and otherwise reports the pair's error.
   */
  method ConvertPair(imageId: nat, e: DatasetEntry, r: ResultEntry, pan: array2<int>, sem: array2<int>,
                     inMask: BboxInMask, images: seq<ImageRecord>, annotations: seq<GtRecord>,
                     annotationId: nat, detections: seq<DetRecord>)
    returns (res: Result<(seq<ImageRecord>, seq<GtRecord>, nat, seq<DetRecord>), BuildError>)
    ensures var P, S := ToRaster(pan), ToRaster(sem);
      if ImageOk(e, r, P, S, inMask) then
        res == Success((
          images + [ImageRecord(imageId, S.width, S.height, e.fileName)],
          annotations + GtRecordsFrom(SegmentsOf(e), annotationId, imageId),
          annotationId + |SegmentsOf(e)|,
          detections + DetRecordsFrom(DetectionsOf(r), imageId, IgnoreMaskOf(P, S), inMask)))
      else
        res == Failure(ImageError(imageId, e, r, P, S))
  {
    if e.fileName != r.fileName {
      return Failure(FileNameMismatch(imageId));
    }
    if pan.Length0 != sem.Length0 || pan.Length1 != sem.Length1 {
      return Failure(RasterShapeMismatch(imageId));
    }
    var mask := BuildIgnoreMask(pan, sem);
    var annotations', annotationId' := AppendAnnotations(annotations, annotationId, SegmentsOf(e), imageId);
    var detections', ok := AppendDetections(detections, DetectionsOf(r), imageId, mask, inMask);
    if !ok {
      return Failure(BoxUnpack(imageId));
    }
    var images' := images + [ImageRecord(imageId, sem.Length1, sem.Length0, e.fileName)];
    return Success((images', annotations', annotationId', detections'));
  }

  /**
   * The state of the pair loop after the first i pairs: none of them failed,
   * the image list holds their records, the annotation counter and list
   * cover their segments, and the detection list covers their detections.
   */
  ghost predicate PairsDone(ds: seq<DatasetEntry>, rs: seq<ResultEntry>, P: seq<Raster>, S: seq<Raster>,
                            inMask: BboxInMask, i: nat, images: seq<ImageRecord>, annotations: seq<GtRecord>,
                            annotationId: nat, detections: seq<DetRecord>)
    requires Aligned(ds, rs, P, S) && i <= |ds|
  {
    && FirstError(ds, rs, P, S, inMask, i) == None
    && |images| == i
    && (forall k | 0 <= k < i :: images[k] == ImageRecord(k, S[k].width, S[k].height, ds[k].fileName))
    && annotationId == SegmentsBefore(ds, i)
    && annotations == AnnotationsOf(ds, i)
    && detections == DetectionsOfRun(rs, P, S, inMask, i)
  }

  /** A pair that passes every check moves the loop state on by that pair's records. */
  lemma PairsDoneStep(ds: seq<DatasetEntry>, rs: seq<ResultEntry>, P: seq<Raster>, S: seq<Raster>,
                      inMask: BboxInMask, i: nat, images: seq<ImageRecord>, annotations: seq<GtRecord>,
                      annotationId: nat, detections: seq<DetRecord>)
    requires Aligned(ds, rs, P, S) && i < |ds|
    requires PairsDone(ds, rs, P, S, inMask, i, images, annotations, annotationId, detections)
    requires ImageOk(ds[i], rs[i], P[i], S[i], inMask)
    ensures PairsDone(ds, rs, P, S, inMask, i + 1,
      images + [ImageRecord(i, S[i].width, S[i].height, ds[i].fileName)],
      annotations + GtRecordsFrom(SegmentsOf(ds[i]), annotationId, i),
      annotationId + |SegmentsOf(ds[i])|,
      detections + DetRecordsFrom(DetectionsOf(rs[i]), i, IgnoreMaskOf(P[i], S[i]), inMask))
  {
    CocoProperties.FirstErrorStep(ds, rs, P, S, inMask, i);
  }

  /**
   * The loop over the aligned pairs: image, annotation and detection lists
   * grown pair by pair, with the image id and the annotation id as running
   * counters; the first pair that fails a check stops it with that pair's
   * error. `P` and `S` are the values of the loaded rasters.
   */
  method ConvertPairs(ds: seq<DatasetEntry>, rs: seq<ResultEntry>,
                      pans: seq<array2<int>>, sems: seq<array2<int>>, inMask: BboxInMask,
                      ghost P: seq<Raster>, ghost S: seq<Raster>)
    returns (r: Result<(seq<ImageRecord>, seq<GtRecord>, seq<DetRecord>), BuildError>)
    requires |rs| == |ds| && |pans| == |ds| && |sems| == |ds|
    requires P == RastersOf(pans) && S == RastersOf(sems)
    ensures match FirstError(ds, rs, P, S, inMask, |ds|)
      case Some(e) => r == Failure(e)
      case None => r == Success((ImagesOf(ds, S), AnnotationsOf(ds, |ds|), DetectionsOfRun(rs, P, S, inMask, |ds|)))
  {
    var images: seq<ImageRecord> := [];
    var annotations: seq<GtRecord> := [];
    var detections: seq<DetRecord> := [];
    var imageId: nat := 0;
    var annotationId: nat := 0;
    for i := 0 to |ds|
      invariant imageId == i
      invariant PairsDone(ds, rs, P, S, inMask, i, images, annotations, annotationId, detections)
    {
      var step := ConvertPair(imageId, ds[i], rs[i], pans[i], sems[i], inMask,
                              images, annotations, annotationId, detections);
      assert ToRaster(pans[i]) == P[i] && ToRaster(sems[i]) == S[i];
      CocoProperties.FirstErrorStep(ds, rs, P, S, inMask, i);
      if step.Failure? {
        return Failure(step.error);
      }
      PairsDoneStep(ds, rs, P, S, inMask, i, images, annotations, annotationId, detections);
      images, annotations, annotationId, detections := step.value.0, step.value.1, step.value.2, step.value.3;
      imageId := imageId + 1;
    }
    assert images == ImagesOf(ds, S);
    return Success((images, annotations, detections));
  }

  /**
   * `convert_to_coco_structures` on the parsed dataset entries `ds`, the
   * parsed results entries `rs` and, for each dataset entry, its loaded
   * panoptic and semantic rasters. The result is exactly Convert of the
   * rasters' values, so every property proved about Convert holds of it.
   */
  method ConvertToCocoStructures(mode: string, ds: seq<DatasetEntry>, rs: seq<ResultEntry>,
                                 pans: seq<array2<int>>, sems: seq<array2<int>>, inMask: BboxInMask)
    returns (r: Result<Coco, BuildError>)
    requires |pans| == |ds| && |sems| == |ds|
    ensures r == Convert(mode, ds, rs, RastersOf(pans), RastersOf(sems), inMask)
  {
    if !ValidMode(mode) {
      return Failure(InvalidMode);
    }
    if |ds| != |rs| {
      return Failure(LengthMismatch);
    }
    var lists := ConvertPairs(ds, rs, pans, sems, inMask, RastersOf(pans), RastersOf(sems));
    if lists.Failure? {
      return Failure(lists.error);
    }
    var (images, annotations, detections) := lists.value;
    var dataset := CocoDataset(InfoYear, CategoriesOf(ObstacleClasses), annotations, images);
    return Success(Coco(dataset, detections));
  }
}
