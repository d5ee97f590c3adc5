/**
 * The tail of `evaluate_detection_results` (evaluation.py:295-312): the
 * statistics vector of the COCO evaluation is sanitised (NaN becomes 0, then
 * every -1, the engine's "no data" marker, becomes 0), and four F-scores are
 * computed from fixed precision/recall positions of that vector.
 */
module ScoreAggregator {
  import opened Wrappers

  /** One entry of the engine's float64 statistics vector; NaN is kept apart from the reals. */
  datatype Stat = NaN | Val(v: real)

  /**
   * A float64 F-score. The harmonic mean divides by p + r, which numpy turns
   * into negative infinity when p and r are non-zero and cancel out.
   */
  datatype Score = Finite(value: real) | MinusInfinity

  /** The four F-scores the evaluation returns: all objects, small, medium and large ones. */
  datatype FScores = FScores(all: Score, small: Score, medium: Score, large: Score)

  /** Why the aggregation stops: the vector has no entry at one of the positions read. */
  datatype ScoreError = StatsTooShort

  /** The engine's "no data" marker. */
  const Missing: real := -1.0

  /** Positions of precision and recall for each of the four object sizes. */
  const PrecisionAll: nat := 0
  const PrecisionSmall: nat := 3
  const PrecisionMedium: nat := 4
  const PrecisionLarge: nat := 5
  const RecallAll: nat := 8
  const RecallSmall: nat := 9
  const RecallMedium: nat := 10
  const RecallLarge: nat := 11

  // ---------------------------------------------------------------------
  // Sanitising the statistics
  // ---------------------------------------------------------------------

  /** `np.nan_to_num` on one finite-or-NaN entry. */
  function NanToNum(s: Stat): real
  {
    match s
    case NaN => 0.0
    case Val(v) => v
  }

  /** `stats[stats == -1] = 0` on one entry. */
  function ClearMissing(x: real): real
  {
    if x == Missing then 0.0 else x
  }

  /** One entry after both sanitising steps. */
  function SanitisedStat(s: Stat): real
  {
    ClearMissing(NanToNum(s))
  }

  /** The sanitised statistics vector, entry by entry. */
  function SanitisedStats(raw: seq<Stat>): (stats: seq<real>)
    ensures |stats| == |raw|
  {
    seq(|raw|, k requires 0 <= k < |raw| => SanitisedStat(raw[k]))
  }

  /**
   * The two sanitising statements: `np.nan_to_num` into a new array, then
   * every -1 in it set to 0 in place.
   */
  method SanitiseStats(raw: seq<Stat>) returns (stats: array<real>)
    ensures fresh(stats)
    ensures stats[..] == SanitisedStats(raw)
  {
    stats := new real[|raw|];
    for k := 0 to |raw|
      invariant forall k' | 0 <= k' < k :: stats[k'] == NanToNum(raw[k'])
    {
      stats[k] := NanToNum(raw[k]);
    }
    for k := 0 to stats.Length
      invariant forall k' | 0 <= k' < k :: stats[k'] == SanitisedStat(raw[k'])
      invariant forall k' | k <= k' < stats.Length :: stats[k'] == NanToNum(raw[k'])
    {
      if stats[k] == Missing {
        stats[k] := 0.0;
      }
    }
  }

  /**
   * Sanitising clears exactly the NaN and -1 entries: every other entry keeps
   * its value, and no sanitised entry is -1.
   */
  lemma SanitisedStatClears(s: Stat)
    ensures SanitisedStat(s) != Missing
    ensures s.NaN? || s == Val(Missing) ==> SanitisedStat(s) == 0.0
    ensures s.Val? && s.v != Missing ==> SanitisedStat(s) == s.v
  {
  }

  /** Sanitising a sanitised vector changes nothing. */
  lemma SanitisedStatsIdempotent(raw: seq<Stat>)
    ensures SanitisedStats(seq(|raw|, k requires 0 <= k < |raw| => Val(SanitisedStats(raw)[k]))) == SanitisedStats(raw)
  {
  }

  /** A statistic the engine can report: NaN, the "no data" marker or a value in [0, 1]. */
  predicate EngineStat(s: Stat)
  {
    s.NaN? || s == Val(Missing) || (s.Val? && 0.0 <= s.v <= 1.0)
  }

  /** Entries the engine can report sanitise into [0, 1]. */
  lemma SanitisedStatUnit(s: Stat)
    requires EngineStat(s)
    ensures 0.0 <= SanitisedStat(s) <= 1.0
  {
  }

  // ---------------------------------------------------------------------
  // F-scores
  // ---------------------------------------------------------------------

  /** `_f_score(precision, recall)`: the harmonic mean, or 0 when either is 0. */
  function FScore(precision: real, recall: real): Score
  {
    if precision != 0.0 && recall != 0.0 then
      if precision + recall == 0.0 then MinusInfinity
      else Finite(2.0 * (precision * recall) / (precision + recall))
    else Finite(0.0)
  }

  /** Either argument being 0 gives 0; the score is symmetric in its arguments. */
  lemma FScoreZeroAndSymmetric(p: real, r: real)
    ensures p == 0.0 || r == 0.0 ==> FScore(p, r) == Finite(0.0)
    ensures FScore(p, r) == FScore(r, p)
  {
    if p != 0.0 && r != 0.0 && p + r != 0.0 {
      assert 2.0 * (p * r) == 2.0 * (r * p);
    }
  }

  /** The score is infinite exactly when precision and recall are non-zero and cancel out. */
  lemma FScoreInfiniteIff(p: real, r: real)
    ensures FScore(p, r) == MinusInfinity <==> p != 0.0 && r != 0.0 && p + r == 0.0
  {
  }

  /** A finite non-trivial score f is the harmonic mean: f * (p + r) == 2 * p * r. */
  lemma FScoreHarmonic(p: real, r: real)
    requires p != 0.0 && r != 0.0 && p + r != 0.0
    ensures FScore(p, r).Finite? && FScore(p, r).value * (p + r) == 2.0 * p * r
  {
  }

  /** A positive factor cancels from both sides of an inequality. */
  lemma CancelPositive(a: real, b: real, c: real)
    requires 0.0 < c && a * c <= b * c
    ensures a <= b
  {
    assert (b - a) * c == b * c - a * c;
  }

  /** A number f with f * (p + r) == 2 * p * r, for 0 < p <= r, lies between p and r. */
  lemma HarmonicBetween(p: real, r: real, f: real)
    requires 0.0 < p <= r && f * (p + r) == 2.0 * p * r
    ensures p <= f <= r
  {
    var c := p + r;
    assert p * c == p * p + p * r;
    assert r * c == p * r + r * r;
    assert p * p <= p * r;
    assert p * r <= r * r;
    assert f * c == 2.0 * p * r == p * r + p * r;
    CancelPositive(p, f, c);
    CancelPositive(f, r, c);
  }

  /** For positive precision and recall the score lies between them, and equals p when both are p. */
  lemma FScoreBetween(p: real, r: real)
    requires 0.0 < p && 0.0 < r
    ensures FScore(p, r).Finite?
    ensures p <= r ==> p <= FScore(p, r).value <= r
    ensures r <= p ==> r <= FScore(p, r).value <= p
    ensures p == r ==> FScore(p, r).value == p
  {
    FScoreHarmonic(p, r);
    var f := FScore(p, r).value;
    if p <= r {
      HarmonicBetween(p, r, f);
    } else {
      assert f * (r + p) == 2.0 * r * p;
      HarmonicBetween(r, p, f);
    }
  }

  /** Precision and recall in [0, 1] give a finite score in [0, 1]. */
  lemma FScoreUnit(p: real, r: real)
    requires 0.0 <= p <= 1.0 && 0.0 <= r <= 1.0
    ensures FScore(p, r).Finite? && 0.0 <= FScore(p, r).value <= 1.0
  {
    if p != 0.0 && r != 0.0 {
      FScoreBetween(p, r);
    }
  }

  /**
   * The four F-scores from the sanitised statistics vector: all objects from
   * positions 0 and 8, small from 3 and 9, medium from 4 and 10, large from
   * 5 and 11. Indexing past the end raises, so a vector of fewer than twelve
   * entries is an error.
   */
  function ScoresOf(stats: seq<real>): Result<FScores, ScoreError>
  {
    if |stats| <= RecallLarge then Failure(StatsTooShort)
    else
      Success(FScores(
        FScore(stats[PrecisionAll], stats[RecallAll]),
        FScore(stats[PrecisionSmall], stats[RecallSmall]),
        FScore(stats[PrecisionMedium], stats[RecallMedium]),
        FScore(stats[PrecisionLarge], stats[RecallLarge])))
  }

  /**
   * Aggregation succeeds iff the vector has at least twelve entries, and then
   * each score reads the precision and recall of its own object size.
   */
  lemma ScoresOfPositions(stats: seq<real>)
    ensures ScoresOf(stats).Success? <==> |stats| >= 12
    ensures |stats| >= 12 ==>
      && ScoresOf(stats).value.all == FScore(stats[0], stats[8])
      && ScoresOf(stats).value.small == FScore(stats[3], stats[9])
      && ScoresOf(stats).value.medium == FScore(stats[4], stats[10])
      && ScoresOf(stats).value.large == FScore(stats[5], stats[11])
  {
  }

  /** A score that is finite and in [0, 1]. */
  predicate UnitScore(s: Score)
  {
    s.Finite? && 0.0 <= s.value <= 1.0
  }

  /**
   * When every raw statistic is one the engine can report, sanitising and
   * aggregating a vector of at least twelve entries gives four finite scores
   * in [0, 1].
   */
  lemma {:induction false} ScoresUnit(raw: seq<Stat>)
    requires |raw| >= 12
    requires forall k | 0 <= k < |raw| :: EngineStat(raw[k])
    ensures ScoresOf(SanitisedStats(raw)).Success?
    ensures var f := ScoresOf(SanitisedStats(raw)).value;
      UnitScore(f.all) && UnitScore(f.small) && UnitScore(f.medium) && UnitScore(f.large)
  {
    var stats := SanitisedStats(raw);
    forall k | 0 <= k < |raw|
      ensures 0.0 <= stats[k] <= 1.0
    {
      SanitisedStatUnit(raw[k]);
    }
    FScoreUnit(stats[0], stats[8]);
    FScoreUnit(stats[3], stats[9]);
    FScoreUnit(stats[4], stats[10]);
    FScoreUnit(stats[5], stats[11]);
  }
}
