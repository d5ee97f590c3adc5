/**
 * `evaluate_detection_results` (evaluation.py:236-312): build the COCO
 * structures, run the COCO bounding-box evaluation on them with both IoU
 * thresholds at 0.3, sanitise its statistics vector and turn it into four
 * F-scores. The COCO evaluation itself (pycocotools) is not part of this
 * model; it is the parameter `engine`.
 */
module Evaluation {
  import opened Wrappers
  import opened CocoStructures
  import opened ScoreAggregator
  import CocoBuilder

  /**
   * The COCO bounding-box evaluation: given the ground-truth structure, the
   * detection list and the IoU thresholds, its statistics vector.
   */
  type Engine = (CocoDataset, seq<DetRecord>, seq<real>) -> seq<Stat>

  /** `coco_evaluation.params.iouThrs = np.array([0.3, 0.3])` */
  const IouThresholds: seq<real> := [0.3, 0.3]

  /** Why the evaluation stops: the builder raised, or the statistics vector is too short. */
  datatype EvalError = Build(error: BuildError) | Aggregate(reason: ScoreError)

  /** The value-level evaluation. */
  function Evaluate(mode: string, ds: seq<DatasetEntry>, rs: seq<ResultEntry>, pans: seq<Raster>,
                    sems: seq<Raster>, inMask: BboxInMask, engine: Engine): Result<FScores, EvalError>
    requires |pans| == |ds| && |sems| == |ds|
  {
    match Convert(mode, ds, rs, pans, sems, inMask)
    case Failure(e) => Failure(Build(e))
    case Success(coco) =>
      match ScoresOf(SanitisedStats(engine(coco.dataset, coco.results, IouThresholds)))
      case Failure(e) => Failure(Aggregate(e))
      case Success(f) => Success(f)
  }

  /**
   * `evaluate_detection_results` on the parsed entries and, for each dataset
   * entry, its loaded panoptic and semantic rasters.
   */
  method EvaluateDetectionResults(mode: string, ds: seq<DatasetEntry>, rs: seq<ResultEntry>,
                                  pans: seq<array2<int>>, sems: seq<array2<int>>,
                                  inMask: BboxInMask, engine: Engine)
    returns (r: Result<FScores, EvalError>)
    requires |pans| == |ds| && |sems| == |ds|
    ensures r == Evaluate(mode, ds, rs, CocoBuilder.RastersOf(pans), CocoBuilder.RastersOf(sems), inMask, engine)
  {
    var built := CocoBuilder.ConvertToCocoStructures(mode, ds, rs, pans, sems, inMask);
    if built.Failure? {
      return Failure(Build(built.error));
    }
    var coco := built.value;
    var stats := SanitiseStats(engine(coco.dataset, coco.results, IouThresholds));
    var scores := ScoresOf(stats[..]);
    if scores.Failure? {
      return Failure(Aggregate(scores.error));
    }
    return Success(scores.value);
  }

  /**
   * The evaluation fails with the builder's error exactly when the builder
   * fails; otherwise it fails only when the statistics vector has fewer than
   * twelve entries.
   */
  lemma EvaluateErrors(mode: string, ds: seq<DatasetEntry>, rs: seq<ResultEntry>, pans: seq<Raster>,
                       sems: seq<Raster>, inMask: BboxInMask, engine: Engine)
    requires |pans| == |ds| && |sems| == |ds|
    ensures var built := Convert(mode, ds, rs, pans, sems, inMask);
      && (built.Failure? ==> Evaluate(mode, ds, rs, pans, sems, inMask, engine) == Failure(Build(built.error)))
      && (built.Success? ==>
            (Evaluate(mode, ds, rs, pans, sems, inMask, engine).Success? <==>
             |engine(built.value.dataset, built.value.results, IouThresholds)| >= 12))
  {
    var built := Convert(mode, ds, rs, pans, sems, inMask);
    if built.Success? {
      ScoresOfPositions(SanitisedStats(engine(built.value.dataset, built.value.results, IouThresholds)));
    }
  }

  /**
   * The F-scores read the sanitised precision and recall of their own object
   * size from the engine's statistics on the built structures.
   */
  lemma EvaluateScores(mode: string, ds: seq<DatasetEntry>, rs: seq<ResultEntry>, pans: seq<Raster>,
                       sems: seq<Raster>, inMask: BboxInMask, engine: Engine)
    requires |pans| == |ds| && |sems| == |ds|
    requires Evaluate(mode, ds, rs, pans, sems, inMask, engine).Success?
    ensures var coco := Convert(mode, ds, rs, pans, sems, inMask).value;
      var raw := engine(coco.dataset, coco.results, IouThresholds);
      var f := Evaluate(mode, ds, rs, pans, sems, inMask, engine).value;
      && |raw| >= 12
      && f.all == FScore(SanitisedStat(raw[0]), SanitisedStat(raw[8]))
      && f.small == FScore(SanitisedStat(raw[3]), SanitisedStat(raw[9]))
      && f.medium == FScore(SanitisedStat(raw[4]), SanitisedStat(raw[10]))
      && f.large == FScore(SanitisedStat(raw[5]), SanitisedStat(raw[11]))
  {
    var coco := Convert(mode, ds, rs, pans, sems, inMask).value;
    ScoresOfPositions(SanitisedStats(engine(coco.dataset, coco.results, IouThresholds)));
  }

  /**
   * An engine that reports only NaN, -1 or values in [0, 1], and at least
   * twelve of them, yields four finite F-scores in [0, 1] whenever the
   * structures can be built.
   */
  lemma EvaluateUnit(mode: string, ds: seq<DatasetEntry>, rs: seq<ResultEntry>, pans: seq<Raster>,
                     sems: seq<Raster>, inMask: BboxInMask, engine: Engine)
    requires |pans| == |ds| && |sems| == |ds|
    requires Convert(mode, ds, rs, pans, sems, inMask).Success?
    requires var coco := Convert(mode, ds, rs, pans, sems, inMask).value;
      var raw := engine(coco.dataset, coco.results, IouThresholds);
      |raw| >= 12 && forall k | 0 <= k < |raw| :: EngineStat(raw[k])
    ensures Evaluate(mode, ds, rs, pans, sems, inMask, engine).Success?
    ensures var f := Evaluate(mode, ds, rs, pans, sems, inMask, engine).value;
      UnitScore(f.all) && UnitScore(f.small) && UnitScore(f.medium) && UnitScore(f.large)
  {
    var coco := Convert(mode, ds, rs, pans, sems, inMask).value;
    ScoresUnit(engine(coco.dataset, coco.results, IouThresholds));
  }
}
