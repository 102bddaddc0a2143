/**
 * Five-dimension scoring and report building, shared by both packages.
 * `seraph` reads its constants from an optional `ScoringConfig`; `verdict`
 * uses fixed module constants. Both are instances of `Constants`.
 */
module Reporter {
  import opened Outcomes
  import opened Enums
  import opened Models
  import opened Config
  import opened Numbers
  import opened Text
  import opened Ordering

  /** Everything the scoring functions read besides their arguments. */
  datatype Constants = Constants(
    weights: DimensionWeights,
    thresholds: Option<Thresholds>,
    baselineDeductionPerFlaky: real,
    riskDeductionPerPitfall: real,
    riskDeductionPerMissingCoChange: real,
    riskHotFileChurnDivisor: real,
    riskHotFileMaxDeduction: real,
    /** None where reading the scale factor raises AttributeError. */
    staticIssueScaleFactor: Option<real>,
    severityWeights: SeverityWeights,
    noMutationsDetails: string)

  const ModuleWeights := DimensionWeights(0.30, 0.20, 0.15, 0.20, 0.15)
  const ModuleSeverityWeights := SeverityWeights(10.0, 5.0, 2.0, 1.0, 0.0)

  /**
   * `seraph`'s constants: the config's values when one is given (a
   * dataclass instance is always truthy), the module defaults otherwise.
   * `ScoringConfig` has no `static_issue_scale_factor`, so with a config
   * that attribute read raises.
   */
  function SeraphConstants(scoring: Option<ScoringConfig>): Constants
  {
    match scoring
    case None =>
      Constants(ModuleWeights, None, 10.0, 5.0, 3.0, 5.0, 10.0, Some(10.0), ModuleSeverityWeights,
                "No mutations (skipped or no mutable code)")
    case Some(s) =>
      Constants(s.Weights(), Some(s.GradeThresholds()), s.baselineDeductionPerFlaky,
                s.riskDeductionPerPitfall, s.riskDeductionPerMissingCoChange,
                s.riskHotFileChurnDivisor, s.riskHotFileMaxDeduction, None, s.Severities(),
                "No mutations (skipped or no mutable code)")
  }

  /** `verdict`'s fixed module constants. */
  function VerdictConstants(): Constants
  {
    Constants(ModuleWeights, None, 10.0, 5.0, 3.0, 5.0, 10.0, Some(10.0), ModuleSeverityWeights,
              "No mutants generated")
  }

  /**
   * The default `ScoringConfig` carries the module defaults, except that
   * the static scale factor cannot be read from it; `verdict` differs from
   * configless `seraph` only in the empty-mutation text.
   */
  lemma ConstantsAgree()
    ensures SeraphConstants(Some(DefaultScoring))
         == SeraphConstants(None).(thresholds := Some(DefaultThresholds), staticIssueScaleFactor := None)
    ensures VerdictConstants() == SeraphConstants(None).(noMutationsDetails := "No mutants generated")
    ensures ModuleWeights.Total() == 1.0
  {
  }

  // ----- per-dimension scores -----

  /** `compute_baseline_score`. */
  function BaselineScore(b: BaselineResult, c: Constants): (r: real)
    ensures |b.flakyTests| == 0 ==> r == 100.0
    ensures |b.flakyTests| > 0 ==> r >= 0.0 && r >= 100.0 - |b.flakyTests| as real * c.baselineDeductionPerFlaky
    ensures c.baselineDeductionPerFlaky >= 0.0 ==> r <= 100.0
    ensures c.baselineDeductionPerFlaky > 0.0 ==> (r == 100.0 <==> |b.flakyTests| == 0)
  {
    var n := |b.flakyTests|;
    if n == 0 then 100.0
    else
      assert c.baselineDeductionPerFlaky > 0.0 ==> n as real * c.baselineDeductionPerFlaky > 0.0;
      Max(0.0, 100.0 - n as real * c.baselineDeductionPerFlaky)
  }

  /** More flaky tests never raise the baseline score. */
  lemma BaselineScoreMonotone(b1: BaselineResult, b2: BaselineResult, c: Constants)
    requires |b1.flakyTests| <= |b2.flakyTests| && c.baselineDeductionPerFlaky >= 0.0
    ensures BaselineScore(b2, c) <= BaselineScore(b1, c)
  {
    var d := c.baselineDeductionPerFlaky;
    var n1, n2 := |b1.flakyTests|, |b2.flakyTests|;
    if n1 > 0 {
      assert BaselineScore(b1, c) == Max(0.0, 100.0 - n1 as real * d);
      assert BaselineScore(b2, c) == Max(0.0, 100.0 - n2 as real * d);
      DeductionMonotone(n1 as real, n2 as real, d);
    } else {
      assert BaselineScore(b1, c) == 100.0;
    }
  }

  /** A larger deduction from 100, floored at 0, never leaves more. */
  lemma DeductionMonotone(n1: real, n2: real, d: real)
    requires n1 <= n2 && d >= 0.0
    ensures Max(0.0, 100.0 - n2 * d) <= Max(0.0, 100.0 - n1 * d)
  {
    MulMonotone(n1, n2, d);
  }

  /** Two flaky tests give 80; ten or more give 0. */
  lemma BaselineExamples(b: BaselineResult)
    ensures |b.flakyTests| == 2 ==> BaselineScore(b, VerdictConstants()) == 80.0
    ensures |b.flakyTests| >= 10 ==> BaselineScore(b, VerdictConstants()) == 0.0
  {
  }

  function KilledCount(results: seq<MutationResult>): (k: nat)
    ensures k <= |results|
  {
    if |results| == 0 then 0
    else (if results[0].status == Killed then 1 else 0) + KilledCount(results[1..])
  }

  /** `compute_mutation_score`: the killed percentage, to one decimal. */
  function MutationScore(results: seq<MutationResult>): (r: real)
    ensures results == [] ==> r == 100.0
    ensures 0.0 <= r <= 100.0
    ensures results != [] ==>
      var exact := KilledCount(results) as real / |results| as real * 100.0;
      exact - 0.05 <= r <= exact + 0.05
  {
    if |results| == 0 then 100.0
    else
      var k, n := KilledCount(results) as real, |results| as real;
      assert 0.0 <= k / n <= 1.0 by {
        assert k <= n;
        assert k / n * n == k;
      }
      Round1(k / n * 100.0)
  }

  /** Every mutant killed (or none run) gives 100. */
  lemma MutationScoreAllKilled(results: seq<MutationResult>)
    requires forall i :: 0 <= i < |results| ==> results[i].status == Killed
    ensures MutationScore(results) == 100.0
  {
    AllKilled(results);
    if results != [] {
      var n := |results| as real;
      assert KilledCount(results) as real / n * 100.0 == 100.0 by {
        assert KilledCount(results) as real == n;
        assert n / n == 1.0;
      }
      Round1Whole(100);
    }
  }

  /** Mutants run and none killed gives 0. */
  lemma MutationScoreNoneKilled(results: seq<MutationResult>)
    requires results != [] && forall i :: 0 <= i < |results| ==> results[i].status != Killed
    ensures MutationScore(results) == 0.0
  {
    NoneKilled(results);
    assert KilledCount(results) as real / |results| as real * 100.0 == 0.0;
    Round1Whole(0);
  }

  lemma {:induction false} AllKilled(results: seq<MutationResult>)
    requires forall i :: 0 <= i < |results| ==> results[i].status == Killed
    ensures KilledCount(results) == |results|
  {
    if |results| > 0 {
      AllKilled(results[1..]);
    }
  }

  lemma {:induction false} NoneKilled(results: seq<MutationResult>)
    requires forall i :: 0 <= i < |results| ==> results[i].status != Killed
    ensures KilledCount(results) == 0
  {
    if |results| > 0 {
      NoneKilled(results[1..]);
    }
  }

  /**
   * Only KILLED counts: changing one mutant between two statuses that are
   * both not KILLED (survived, timeout, error, skipped) leaves the score as is.
   */
  lemma {:induction false} OnlyKilledCounts(results: seq<MutationResult>, i: int, s: MutantStatus)
    requires 0 <= i < |results| && results[i].status != Killed && s != Killed
    ensures MutationScore(results[i := results[i].(status := s)]) == MutationScore(results)
  {
    KilledCountUpdate(results, i, s);
  }

  lemma {:induction false} KilledCountUpdate(results: seq<MutationResult>, i: int, s: MutantStatus)
    requires 0 <= i < |results| && results[i].status != Killed && s != Killed
    ensures KilledCount(results[i := results[i].(status := s)]) == KilledCount(results)
  {
    var u := results[i := results[i].(status := s)];
    if i > 0 {
      KilledCountUpdate(results[1..], i - 1, s);
      assert u[1..] == results[1..][i - 1 := results[i].(status := s)];
    } else {
      assert u[1..] == results[1..];
    }
  }

  lemma HalfKilled(a: MutationResult, b: MutationResult)
    requires a.status == Killed && b.status == Survived
    ensures MutationScore([a, b]) == 50.0
  {
    assert KilledCount([a, b]) == 1 by {
      assert [a, b][1..] == [b];
      assert [b][1..] == [];
    }
    Round1Whole(50);
  }

  /** Σ severity weight: every severity is a key of the weights dict, so the default 1 never applies. */
  function WeightedIssues(findings: seq<StaticFinding>, w: SeverityWeights): real
  {
    if |findings| == 0 then 0.0 else w.Of(findings[0].severity) + WeightedIssues(findings[1..], w)
  }

  predicate NonNegativeWeights(w: SeverityWeights)
  {
    w.critical >= 0.0 && w.high >= 0.0 && w.medium >= 0.0 && w.low >= 0.0 && w.info >= 0.0
  }

  lemma {:induction false} WeightedIssuesNonNegative(findings: seq<StaticFinding>, w: SeverityWeights)
    requires NonNegativeWeights(w)
    ensures WeightedIssues(findings, w) >= 0.0
  {
    if |findings| > 0 {
      WeightedIssuesNonNegative(findings[1..], w);
    }
  }

  /**
   * `compute_static_score`: 100 for no files; otherwise 100 less the
   * weighted issues per file times the scale, floored at 0, to one decimal.
   * Raised when the scale factor cannot be read.
   */
  function StaticScore(findings: seq<StaticFinding>, fileCount: int, c: Constants): (r: Step<real>)
    ensures fileCount == 0 ==> r == Ok(100.0)
    ensures fileCount != 0 ==> (r.Raised? <==> c.staticIssueScaleFactor.None?)
    ensures r.Ok? ==> 0.0 <= r.value
    ensures (r.Ok? && fileCount > 0 && NonNegativeWeights(c.severityWeights)
             && c.staticIssueScaleFactor.GetOr(0.0) >= 0.0) ==> r.value <= 100.0
    ensures fileCount != 0 && findings == [] && c.staticIssueScaleFactor.Some? ==> r == Ok(100.0)
  {
    if fileCount == 0 then Ok(100.0)
    else match c.staticIssueScaleFactor
      case None => Raised
      case Some(scale) =>
        var perFile := WeightedIssues(findings, c.severityWeights) / fileCount as real;
        var score := Max(0.0, 100.0 - perFile * scale);
        assert fileCount > 0 && NonNegativeWeights(c.severityWeights) && scale >= 0.0 ==> score <= 100.0 by {
          if fileCount > 0 && NonNegativeWeights(c.severityWeights) && scale >= 0.0 {
            WeightedIssuesNonNegative(findings, c.severityWeights);
            assert perFile >= 0.0;
            assert perFile * scale >= 0.0;
          }
        }
        assert findings == [] ==> score == 100.0;
        if findings == [] then Round1Whole(100); Ok(Round1(score)) else Ok(Round1(score))
  }

  /** A HIGH and a LOW finding over two files give 70. */
  lemma StaticExample(high: StaticFinding, low: StaticFinding)
    requires high.severity == High && low.severity == Low
    ensures StaticScore([high, low], 2, VerdictConstants()) == Ok(70.0)
  {
    var w := ModuleSeverityWeights;
    assert WeightedIssues([high, low], w) == 6.0 by {
      assert [high, low][1..] == [low];
      assert [low][1..] == [];
      assert WeightedIssues([], w) == 0.0;
      assert WeightedIssues([low], w) == 1.0 + WeightedIssues([], w);
      assert WeightedIssues([high, low], w) == 5.0 + WeightedIssues([low], w);
    }
    Round1Whole(70);
  }

  /** With a `ScoringConfig` and at least one file `seraph`'s static score always raises. */
  lemma ConfiguredStaticScoreRaises(findings: seq<StaticFinding>, fileCount: int, s: ScoringConfig)
    requires fileCount != 0
    ensures StaticScore(findings, fileCount, SeraphConstants(Some(s))).Raised?
  {
  }

  /** Σ min(max_deduction, churn / divisor) over the hot files, accumulated left to right. */
  function HotFileDeduction(hot: seq<HotFileInfo>, c: Constants): real
    requires c.riskHotFileChurnDivisor != 0.0
  {
    if |hot| == 0 then 0.0
    else HotFileDeduction(hot[..|hot| - 1], c)
         + Min(c.riskHotFileMaxDeduction, hot[|hot| - 1].churnScore / c.riskHotFileChurnDivisor)
  }

  /** Each hot file deducts at most the maximum. */
  lemma {:induction false} HotFileDeductionCapped(hot: seq<HotFileInfo>, c: Constants)
    requires c.riskHotFileChurnDivisor != 0.0
    ensures HotFileDeduction(hot, c) <= |hot| as real * c.riskHotFileMaxDeduction
  {
    if |hot| > 0 {
      HotFileDeductionCapped(hot[..|hot| - 1], c);
    }
  }

  /** With a positive divisor, non-negative churn and maximum, nothing is added back. */
  lemma {:induction false} HotFileDeductionNonNegative(hot: seq<HotFileInfo>, c: Constants)
    requires c.riskHotFileChurnDivisor > 0.0 && c.riskHotFileMaxDeduction >= 0.0
    requires forall i :: 0 <= i < |hot| ==> hot[i].churnScore >= 0.0
    ensures HotFileDeduction(hot, c) >= 0.0
  {
    if |hot| > 0 {
      HotFileDeductionNonNegative(hot[..|hot| - 1], c);
      assert hot[|hot| - 1].churnScore / c.riskHotFileChurnDivisor >= 0.0;
    }
  }

  /**
   * The hot-file, pitfall and co-change deductions. With a zero divisor the
   * hot-file term is only reached when there are no hot files, where it is 0.
   */
  function Deductions(signals: SentinelSignals, c: Constants): real
  {
    (if c.riskHotFileChurnDivisor == 0.0 then 0.0 else HotFileDeduction(signals.hotFiles, c))
    + |signals.pitfallMatches| as real * c.riskDeductionPerPitfall
    + |signals.missingCoChanges| as real * c.riskDeductionPerMissingCoChange
  }

  /**
   * `compute_risk_score`: 100 when signals are unavailable, otherwise 100
   * less the deductions, floored at 0, to one decimal. A zero churn divisor
   * raises ZeroDivisionError as soon as there is a hot file.
   */
  function RiskScoreOf(signals: SentinelSignals, c: Constants): (r: Step<real>)
    ensures !signals.available ==> r == Ok(100.0)
    ensures signals.available ==> (r.Raised? <==> |signals.hotFiles| > 0 && c.riskHotFileChurnDivisor == 0.0)
    ensures r.Ok? ==> 0.0 <= r.value
  {
    if !signals.available then Ok(100.0)
    else if |signals.hotFiles| > 0 && c.riskHotFileChurnDivisor == 0.0 then Raised
    else Ok(Round1(Max(0.0, 100.0 - Deductions(signals, c))))
  }

  /** The loop of `compute_risk_score`. */
  method RiskScore(signals: SentinelSignals, c: Constants) returns (r: Step<real>)
    ensures r == RiskScoreOf(signals, c)
  {
    if !signals.available {
      return Ok(100.0);
    }
    var deductions := 0.0;
    var i := 0;
    while i < |signals.hotFiles|
      invariant 0 <= i <= |signals.hotFiles|
      invariant i > 0 ==> c.riskHotFileChurnDivisor != 0.0
      invariant c.riskHotFileChurnDivisor != 0.0 ==> deductions == HotFileDeduction(signals.hotFiles[..i], c)
      invariant c.riskHotFileChurnDivisor == 0.0 ==> deductions == 0.0
    {
      if c.riskHotFileChurnDivisor == 0.0 {
        return Raised;
      }
      var hf := signals.hotFiles[i];
      assert signals.hotFiles[..i + 1][..i] == signals.hotFiles[..i];
      deductions := deductions + Min(c.riskHotFileMaxDeduction, hf.churnScore / c.riskHotFileChurnDivisor);
      i := i + 1;
    }
    assert signals.hotFiles[..i] == signals.hotFiles;
    deductions := deductions + |signals.pitfallMatches| as real * c.riskDeductionPerPitfall;
    deductions := deductions + |signals.missingCoChanges| as real * c.riskDeductionPerMissingCoChange;
    assert deductions == Deductions(signals, c);
    return Ok(Round1(Max(0.0, 100.0 - deductions)));
  }

  /** With non-negative deductions the risk score lies in [0, 100]. */
  lemma RiskScoreBounded(signals: SentinelSignals, c: Constants)
    requires c.riskHotFileChurnDivisor > 0.0 && c.riskHotFileMaxDeduction >= 0.0
    requires c.riskDeductionPerPitfall >= 0.0 && c.riskDeductionPerMissingCoChange >= 0.0
    requires forall i :: 0 <= i < |signals.hotFiles| ==> signals.hotFiles[i].churnScore >= 0.0
    ensures RiskScoreOf(signals, c).Ok?
    ensures 0.0 <= RiskScoreOf(signals, c).value <= 100.0
  {
    if signals.available {
      HotFileDeductionNonNegative(signals.hotFiles, c);
      MulNonNegative(|signals.pitfallMatches| as real, c.riskDeductionPerPitfall);
      MulNonNegative(|signals.missingCoChanges| as real, c.riskDeductionPerMissingCoChange);
      var d := Deductions(signals, c);
      assert d >= 0.0;
      assert 0.0 <= Max(0.0, 100.0 - d) <= 100.0;
    }
  }

  /** Each hot file costs at most the maximum deduction, so they can cost no more than that many of it. */
  lemma RiskScoreHotFileFloor(signals: SentinelSignals, c: Constants)
    requires signals.available && c.riskHotFileChurnDivisor > 0.0
    ensures RiskScoreOf(signals, c).value >= Round1(Max(0.0, 100.0
      - |signals.hotFiles| as real * c.riskHotFileMaxDeduction
      - |signals.pitfallMatches| as real * c.riskDeductionPerPitfall
      - |signals.missingCoChanges| as real * c.riskDeductionPerMissingCoChange))
  {
    HotFileDeductionCapped(signals.hotFiles, c);
    var lo := Max(0.0, 100.0
      - |signals.hotFiles| as real * c.riskHotFileMaxDeduction
      - |signals.pitfallMatches| as real * c.riskDeductionPerPitfall
      - |signals.missingCoChanges| as real * c.riskDeductionPerMissingCoChange);
    Round1Monotone(lo, Max(0.0, 100.0 - Deductions(signals, c)));
  }

  /** Two pitfalls, one hot file of churn 50 and one missing co-change give 77. */
  lemma RiskExample(p1: PitfallMatch, p2: PitfallMatch, h: HotFileInfo, m: MissingCoChange)
    requires h.churnScore == 50.0
    ensures RiskScoreOf(SentinelSignals(true, [p1, p2], [h], [m]), VerdictConstants()) == Ok(77.0)
  {
    var c := VerdictConstants();
    assert HotFileDeduction([h], c) == 10.0 by {
      assert [h][..0] == [];
    }
    Round1Whole(77);
  }

  /**
   * `compute_co_change_score`: the share of the expected partners that are
   * in the diff, as a percentage to one decimal; 100 when signals are
   * unavailable or there is nothing to compare.
   */
  function CoChangeScore(signals: SentinelSignals, changedFiles: seq<string>): (r: real)
    ensures 0.0 <= r <= 100.0
    ensures !signals.available ==> r == 100.0
    ensures |signals.missingCoChanges| == 0 ==> r == 100.0
    ensures signals.available && |changedFiles| == 0 && |signals.missingCoChanges| > 0 ==> r == 0.0
    ensures signals.available && |signals.missingCoChanges| > 0 ==>
      var exact := |changedFiles| as real / (|changedFiles| + |signals.missingCoChanges|) as real * 100.0;
      exact - 0.05 <= r <= exact + 0.05
  {
    var missing := |signals.missingCoChanges|;
    if !signals.available then 100.0
    else if missing == 0 && |changedFiles| == 0 then 100.0
    else
      // total_partners is positive here, so the `== 0` guard of the source never fires
      var n, total := |changedFiles| as real, (|changedFiles| + missing) as real;
      assert 0.0 <= n / total <= 1.0 by {
        assert n <= total;
        assert n / total * total == n;
      }
      assert missing == 0 ==> n / total == 1.0;
      Round1Whole(100);
      Round1Whole(0);
      Round1(n / total * 100.0)
  }

  lemma CoChangeExample(a: MissingCoChange, b: MissingCoChange)
    ensures CoChangeScore(SentinelSignals(true, [], [], [a, b]), ["a.py", "d.py"]) == 50.0
  {
    Round1Whole(50);
  }

  // ----- dimensions and the report -----

  const DimensionKeys: seq<string> := ["mutation", "static", "baseline", "sentinel_risk", "co_change"]
  const DimensionNames: seq<string> :=
    ["Mutation Score", "Static Cleanliness", "Test Baseline", "Sentinel Risk", "Co-change Coverage"]

  /** The keyword arguments of `build_report`. */
  datatype ReportArgs = ReportArgs(
    repoPath: string,
    refBefore: Option<string>,
    refAfter: Option<string>,
    filesChanged: seq<string>,
    mutationScore: real,
    staticScore: real,
    baselineScore: real,
    sentinelRiskScore: real,
    coChangeScore: real,
    mutations: seq<MutationResult>,
    staticFindings: seq<StaticFinding>,
    baseline: Option<BaselineResult>,
    sentinelSignals: SentinelSignals,
    evaluatedDimensions: Option<set<string>>)
  {
    /** The five raw scores, in dimension order. */
    function Raws(): (r: seq<real>)
      ensures |r| == 5
    {
      [mutationScore, staticScore, baselineScore, sentinelRiskScore, coChangeScore]
    }

    /** `evaluated_dimensions`, or all five when None. */
    function Evaluated(): set<string>
    {
      evaluatedDimensions.GetOr({"mutation", "static", "baseline", "sentinel_risk", "co_change"})
    }
  }

  function WeightList(w: DimensionWeights): (r: seq<real>)
    ensures |r| == 5
  {
    [w.mutation, w.staticAnalysis, w.baseline, w.sentinelRisk, w.coChange]
  }

  /** `_score_dimension`: the grade always comes from the unrounded raw score. */
  function ScoreDimension(name: string, raw: real, weight: real, details: string, evaluated: bool,
                          thresholds: Option<Thresholds>): (d: DimensionScore)
    ensures d.name == name && d.weight == weight && d.evaluated == evaluated
    ensures d.grade == FromScore(raw, thresholds)
    ensures !evaluated ==> d.rawScore == raw && d.weightedScore == 0.0 && d.details == "Not evaluated"
    ensures evaluated ==> d.details == details && d.rawScore == Round1(raw) && d.weightedScore == Round1(raw * weight)
  {
    if !evaluated then DimensionScore(name, raw, weight, 0.0, FromScore(raw, thresholds), "Not evaluated", false)
    else DimensionScore(name, Round1(raw), weight, Round1(raw * weight), FromScore(raw, thresholds), details, true)
  }

  function DetailsList(args: ReportArgs, c: Constants): (r: seq<string>)
    ensures |r| == 5
  {
    [MutationDetails(args.mutations, c), StaticDetailsOf(args.staticFindings), BaselineDetails(args.baseline),
     SentinelDetails(args.sentinelSignals), CoChangeDetails(args.sentinelSignals)]
  }

  /** The five dimensions `build_report` lists, in order. */
  function Dimensions(args: ReportArgs, c: Constants): (ds: seq<DimensionScore>)
    ensures |ds| == 5
    ensures forall i :: 0 <= i < 5 ==>
      ds[i] == ScoreDimension(DimensionNames[i], args.Raws()[i], WeightList(c.weights)[i],
                              DetailsList(args, c)[i], DimensionKeys[i] in args.Evaluated(), c.thresholds)
  {
    var raws, weights, details := args.Raws(), WeightList(c.weights), DetailsList(args, c);
    seq(5, i requires 0 <= i < 5 =>
      ScoreDimension(DimensionNames[i], raws[i], weights[i], details[i], DimensionKeys[i] in args.Evaluated(),
                     c.thresholds))
  }

  /** `[d]` when the dimension is evaluated. */
  function Pick(d: DimensionScore): seq<DimensionScore>
  {
    if d.evaluated then [d] else []
  }

  function EvaluatedDims(ds: seq<DimensionScore>): (e: seq<DimensionScore>)
    ensures |e| <= |ds|
  {
    if |ds| == 0 then [] else Pick(ds[0]) + EvaluatedDims(ds[1..])
  }

  lemma {:induction false} EvaluatedDimsExact(ds: seq<DimensionScore>)
    ensures forall d :: d in EvaluatedDims(ds) <==> d in ds && d.evaluated
  {
    if |ds| > 0 {
      EvaluatedDimsExact(ds[1..]);
      assert forall d :: d in ds <==> d == ds[0] || d in ds[1..];
    }
  }

  function TotalWeight(ds: seq<DimensionScore>): real
  {
    if |ds| == 0 then 0.0 else ds[0].weight + TotalWeight(ds[1..])
  }

  /** Σ raw · (weight / total). */
  function WeightedSum(ds: seq<DimensionScore>, total: real): real
    requires total != 0.0
  {
    if |ds| == 0 then 0.0 else ds[0].rawScore * (ds[0].weight / total) + WeightedSum(ds[1..], total)
  }

  /** The overall score before rounding: renormalised over the evaluated dimensions. */
  function OverallScore(ds: seq<DimensionScore>): real
  {
    var e := EvaluatedDims(ds);
    if |e| == 0 then 100.0
    else
      var w := TotalWeight(e);
      if w > 0.0 then WeightedSum(e, w) else 100.0
  }

  /** `build_report`; the id and the timestamp come from the caller. */
  function BuildReport(args: ReportArgs, c: Constants, id: string, createdAt: int): (r: AssessmentReport)
    ensures |r.dimensions| == 5
    ensures forall i :: 0 <= i < 5 ==> r.dimensions[i].name == DimensionNames[i]
    ensures forall i :: 0 <= i < 5 ==> (r.dimensions[i].evaluated <==> DimensionKeys[i] in args.Evaluated())
    ensures r.overallScore == Round1(OverallScore(r.dimensions))
    ensures r.overallGrade == FromScore(OverallScore(r.dimensions), c.thresholds)
    ensures r.gaps == GapsOf(r.dimensions)
    ensures r.staticIssues == |args.staticFindings|
    ensures r.sentinelWarnings == |args.sentinelSignals.pitfallMatches| + |args.sentinelSignals.hotFiles|
    ensures r.baselineFlaky == (if args.baseline.Some? then |args.baseline.value.flakyTests| else 0)
    ensures r.id == id && r.createdAt == createdAt
    ensures r.repoPath == args.repoPath && r.refBefore == args.refBefore && r.refAfter == args.refAfter
    ensures r.filesChanged == args.filesChanged && r.mutationScore == args.mutationScore
    ensures r.mutations == args.mutations && r.staticFindings == args.staticFindings
    ensures r.baseline == args.baseline && r.sentinelSignals == args.sentinelSignals
  {
    var ds := Dimensions(args, c);
    var overall := OverallScore(ds);
    AssessmentReport(
      id, args.repoPath, args.refBefore, args.refAfter, args.filesChanged, ds,
      Round1(overall), FromScore(overall, c.thresholds), args.mutationScore,
      |args.staticFindings|,
      |args.sentinelSignals.pitfallMatches| + |args.sentinelSignals.hotFiles|,
      if args.baseline.Some? then |args.baseline.value.flakyTests| else 0,
      GapsOf(ds), args.mutations, args.staticFindings, args.baseline, args.sentinelSignals, createdAt)
  }

  // ----- properties of the overall score -----

  predicate ScoresInRange(ds: seq<DimensionScore>)
  {
    forall i :: 0 <= i < |ds| ==> 0.0 <= ds[i].rawScore <= 100.0 && ds[i].weight >= 0.0
  }

  lemma {:induction false} WeightedSumBounds(ds: seq<DimensionScore>, total: real)
    requires total > 0.0 && ScoresInRange(ds)
    ensures 0.0 <= WeightedSum(ds, total) <= 100.0 * TotalWeight(ds) / total
  {
    if |ds| > 0 {
      WeightedSumBounds(ds[1..], total);
      assert 0.0 <= ds[0].rawScore <= 100.0 && ds[0].weight >= 0.0;
      BoundStep(ds[0].rawScore, ds[0].weight, total, WeightedSum(ds[1..], total), TotalWeight(ds[1..]));
    }
  }

  /** One term of `WeightedSumBounds`: a score in [0, 100] adds at most 100 times its share. */
  lemma BoundStep(r: real, w: real, total: real, rest: real, restWeight: real)
    requires total > 0.0 && 0.0 <= r <= 100.0 && w >= 0.0
    requires 0.0 <= rest <= 100.0 * restWeight / total
    ensures 0.0 <= r * (w / total) + rest <= 100.0 * (w + restWeight) / total
  {
    var q := w / total;
    assert q >= 0.0;
    MulNonNegative(r, q);
    MulMonotone(r, 100.0, q);
    assert 100.0 * q + 100.0 * restWeight / total == 100.0 * (w + restWeight) / total;
  }

  lemma {:induction false} WeightedSumConstant(ds: seq<DimensionScore>, total: real, v: real)
    requires total != 0.0 && forall i :: 0 <= i < |ds| ==> ds[i].rawScore == v
    ensures WeightedSum(ds, total) == v * (TotalWeight(ds) / total)
  {
    if |ds| > 0 {
      WeightedSumConstant(ds[1..], total, v);
      assert ds[0].weight / total + TotalWeight(ds[1..]) / total == TotalWeight(ds) / total;
    }
  }

  lemma {:induction false} EvaluatedInRange(ds: seq<DimensionScore>)
    requires ScoresInRange(ds)
    ensures ScoresInRange(EvaluatedDims(ds))
  {
    var e := EvaluatedDims(ds);
    EvaluatedDimsExact(ds);
    forall i | 0 <= i < |e|
      ensures 0.0 <= e[i].rawScore <= 100.0 && e[i].weight >= 0.0
    {
      assert e[i] in e;
    }
  }

  lemma {:induction false} TotalWeightNonNegative(ds: seq<DimensionScore>)
    requires ScoresInRange(ds)
    ensures TotalWeight(ds) >= 0.0
  {
    if |ds| > 0 {
      TotalWeightNonNegative(ds[1..]);
    }
  }

  /** With raw scores in [0, 100] and non-negative weights the overall score lies in [0, 100]. */
  lemma OverallInRange(ds: seq<DimensionScore>)
    requires ScoresInRange(ds)
    ensures 0.0 <= OverallScore(ds) <= 100.0
  {
    var e := EvaluatedDims(ds);
    if |e| > 0 && TotalWeight(e) > 0.0 {
      EvaluatedInRange(ds);
      WeightedSumBounds(e, TotalWeight(e));
    }
  }

  /** When every evaluated dimension has the same raw score, that is the overall score. */
  lemma OverallOfUniform(ds: seq<DimensionScore>, v: real)
    requires forall i :: 0 <= i < |ds| ==> ds[i].evaluated ==> ds[i].rawScore == v
    requires TotalWeight(EvaluatedDims(ds)) > 0.0
    ensures OverallScore(ds) == v
  {
    EvaluatedUniform(ds, v);
    WeightedUniform(EvaluatedDims(ds), v);
  }

  lemma WeightedUniform(e: seq<DimensionScore>, v: real)
    requires forall i :: 0 <= i < |e| ==> e[i].rawScore == v
    requires TotalWeight(e) > 0.0
    ensures WeightedSum(e, TotalWeight(e)) == v
  {
    var w := TotalWeight(e);
    WeightedSumConstant(e, w, v);
    Cancel(v, w, WeightedSum(e, w));
  }

  lemma {:induction false} EvaluatedUniform(ds: seq<DimensionScore>, v: real)
    requires forall i :: 0 <= i < |ds| ==> ds[i].evaluated ==> ds[i].rawScore == v
    ensures forall i :: 0 <= i < |EvaluatedDims(ds)| ==> EvaluatedDims(ds)[i].rawScore == v
  {
    if |ds| > 0 {
      EvaluatedUniform(ds[1..], v);
    }
  }

  /** No evaluated dimension, or a zero total weight, gives 100. */
  lemma OverallWithoutWeight(ds: seq<DimensionScore>)
    requires EvaluatedDims(ds) == [] || TotalWeight(EvaluatedDims(ds)) <= 0.0
    ensures OverallScore(ds) == 100.0
  {
  }

  /** Scores handed in as arguments that are within [0, 100] keep every dimension within range. */
  lemma DimensionsInRange(args: ReportArgs, c: Constants)
    requires forall i :: 0 <= i < 5 ==> 0.0 <= args.Raws()[i] <= 100.0 && WeightList(c.weights)[i] >= 0.0
    ensures ScoresInRange(Dimensions(args, c))
  {
  }

  /** The overall score of a report lies in [0, 100] when its inputs do. */
  lemma ReportOverallInRange(args: ReportArgs, c: Constants, id: string, createdAt: int)
    requires forall i :: 0 <= i < 5 ==> 0.0 <= args.Raws()[i] <= 100.0 && WeightList(c.weights)[i] >= 0.0
    ensures 0.0 <= BuildReport(args, c, id, createdAt).overallScore <= 100.0
  {
    DimensionsInRange(args, c);
    OverallInRange(Dimensions(args, c));
  }

  /** With a single evaluated dimension of positive weight the overall score is its raw score. */
  lemma SingleEvaluated(args: ReportArgs, c: Constants, id: string, createdAt: int, k: int)
    requires 0 <= k < 5 && args.evaluatedDimensions == Some({DimensionKeys[k]})
    requires WeightList(c.weights)[k] > 0.0
    ensures BuildReport(args, c, id, createdAt).overallScore == Round1(args.Raws()[k])
  {
    var ds := Dimensions(args, c);
    forall i | 0 <= i < 5
      ensures ds[i].evaluated <==> i == k
    {
      assert ds[i].evaluated <==> DimensionKeys[i] in {DimensionKeys[k]};
    }
    OneEvaluated(ds, k);
    var w := ds[k].weight;
    assert TotalWeight([ds[k]]) == w;
    DivSelf(w);
    assert WeightedSum([ds[k]], w) == ds[k].rawScore;
    assert OverallScore(ds) == Round1(args.Raws()[k]);
    Round1Idempotent(args.Raws()[k]);
  }

  /** With no dimension evaluated the filter keeps nothing. */
  lemma {:induction false} NoneEvaluated(ds: seq<DimensionScore>)
    requires forall i :: 0 <= i < |ds| ==> !ds[i].evaluated
    ensures EvaluatedDims(ds) == []
  {
    if |ds| > 0 {
      assert forall i :: 0 <= i < |ds| - 1 ==> ds[1..][i] == ds[i + 1];
      NoneEvaluated(ds[1..]);
    }
  }

  /** With exactly the dimension at `k` evaluated the filter keeps only it. */
  lemma {:induction false} OneEvaluated(ds: seq<DimensionScore>, k: int)
    requires 0 <= k < |ds| && forall i :: 0 <= i < |ds| ==> (ds[i].evaluated <==> i == k)
    ensures EvaluatedDims(ds) == [ds[k]]
  {
    assert forall i :: 0 <= i < |ds| - 1 ==> ds[1..][i] == ds[i + 1];
    if k == 0 {
      NoneEvaluated(ds[1..]);
    } else {
      OneEvaluated(ds[1..], k - 1);
    }
  }

  /** The total weight of five dimensions, written out. */
  lemma {:induction false} TotalFive(ds: seq<DimensionScore>)
    requires |ds| == 5
    ensures TotalWeight(ds) == ds[0].weight + ds[1].weight + ds[2].weight + ds[3].weight + ds[4].weight
  {
    var s1, s2, s3, s4 := ds[1..], ds[2..], ds[3..], ds[4..];
    assert s1[1..] == s2 && s2[1..] == s3 && s3[1..] == s4 && s4[1..] == [];
    assert TotalWeight(s4) == ds[4].weight + TotalWeight([]);
    assert TotalWeight(s3) == ds[3].weight + TotalWeight(s4);
    assert TotalWeight(s2) == ds[2].weight + TotalWeight(s3);
    assert TotalWeight(s1) == ds[1].weight + TotalWeight(s2);
  }

  /** Σ raw · weight: the weighted sum before any renormalisation. */
  function PlainSum(ds: seq<DimensionScore>): real
  {
    if |ds| == 0 then 0.0 else ds[0].rawScore * ds[0].weight + PlainSum(ds[1..])
  }

  /** Over a total of 1 the renormalised sum is the plain one. */
  lemma {:induction false} WeightedOverOne(ds: seq<DimensionScore>)
    ensures WeightedSum(ds, 1.0) == PlainSum(ds)
  {
    if |ds| > 0 {
      WeightedOverOne(ds[1..]);
      assert ds[0].weight / 1.0 == ds[0].weight;
    }
  }

  /** When every dimension is evaluated the filter keeps them all. */
  lemma {:induction false} AllEvaluatedKept(ds: seq<DimensionScore>)
    requires forall i :: 0 <= i < |ds| ==> ds[i].evaluated
    ensures EvaluatedDims(ds) == ds
  {
    if |ds| > 0 {
      AllEvaluatedKept(ds[1..]);
      assert [ds[0]] + ds[1..] == ds;
    }
  }

  /**
   * With every dimension evaluated and weights summing to 1 the overall
   * score is the plain weighted sum of the raw scores.
   */
  lemma OverallWhenAllEvaluated(ds: seq<DimensionScore>)
    requires forall i :: 0 <= i < |ds| ==> ds[i].evaluated
    requires TotalWeight(ds) == 1.0
    ensures OverallScore(ds) == PlainSum(ds)
  {
    AllEvaluatedKept(ds);
    WeightedOverOne(ds);
  }

  /** The same for a report built with all five dimensions and weights summing to 1. */
  lemma AllEvaluatedOverall(args: ReportArgs, c: Constants)
    requires args.evaluatedDimensions.None? && c.weights.Total() == 1.0
    ensures OverallScore(Dimensions(args, c)) == PlainSum(Dimensions(args, c))
  {
    NoneMeansAllEvaluated(args, c);
    DimensionsTotalWeight(args, c);
    OverallWhenAllEvaluated(Dimensions(args, c));
  }

  /** The dimensions carry the configured weights, so their total is the weights' total. */
  lemma DimensionsTotalWeight(args: ReportArgs, c: Constants)
    ensures TotalWeight(Dimensions(args, c)) == c.weights.Total()
  {
    var ds := Dimensions(args, c);
    assert ds[0].weight == c.weights.mutation && ds[1].weight == c.weights.staticAnalysis;
    assert ds[2].weight == c.weights.baseline && ds[3].weight == c.weights.sentinelRisk;
    assert ds[4].weight == c.weights.coChange;
    TotalFive(ds);
  }

  /** The plain sum of five dimensions, written out. */
  lemma {:induction false} PlainFive(ds: seq<DimensionScore>)
    requires |ds| == 5
    ensures PlainSum(ds)
      == ds[0].rawScore * ds[0].weight + ds[1].rawScore * ds[1].weight + ds[2].rawScore * ds[2].weight
         + ds[3].rawScore * ds[3].weight + ds[4].rawScore * ds[4].weight
  {
    var s1, s2, s3, s4 := ds[1..], ds[2..], ds[3..], ds[4..];
    assert s1[1..] == s2 && s2[1..] == s3 && s3[1..] == s4 && s4[1..] == [];
    assert PlainSum(s4) == ds[4].rawScore * ds[4].weight + PlainSum([]);
    assert PlainSum(s3) == ds[3].rawScore * ds[3].weight + PlainSum(s4);
    assert PlainSum(s2) == ds[2].rawScore * ds[2].weight + PlainSum(s3);
    assert PlainSum(s1) == ds[1].rawScore * ds[1].weight + PlainSum(s2);
  }

  /** With no evaluated-dimensions argument every dimension counts. */
  lemma NoneMeansAllEvaluated(args: ReportArgs, c: Constants)
    requires args.evaluatedDimensions.None?
    ensures forall i :: 0 <= i < 5 ==> Dimensions(args, c)[i].evaluated
  {
  }

  /** With no evaluated set given, the report counts every dimension. */
  lemma ReportAllEvaluated(args: ReportArgs, c: Constants, id: string, createdAt: int)
    requires args.evaluatedDimensions.None?
    ensures forall i :: 0 <= i < 5 ==> BuildReport(args, c, id, createdAt).dimensions[i].evaluated
  {
    assert forall i :: 0 <= i < 5 ==> DimensionKeys[i] in args.Evaluated();
  }

  function Uniform(v: real, mutations: seq<MutationResult>, findings: seq<StaticFinding>): ReportArgs
  {
    ReportArgs("/tmp/test", None, None, ["foo.py"], v, v, v, v, v, mutations, findings, None, NoSignals, None)
  }

  /** Every dimension scored the same whole value `v` gives `v` overall. */
  lemma UniformOverall(v: real, id: string, createdAt: int)
    requires Round1(v) == v
    ensures BuildReport(Uniform(v, [], []), VerdictConstants(), id, createdAt).overallScore == v
  {
    var c := VerdictConstants();
    var ds := Dimensions(Uniform(v, [], []), c);
    assert forall i :: 0 <= i < 5 ==> ds[i].evaluated && ds[i].rawScore == v;
    AllEvaluatedKept(ds);
    TotalFive(ds);
    assert TotalWeight(EvaluatedDims(ds)) == 1.0;
    OverallOfUniform(ds, v);
    Round1Idempotent(v);
  }

  /** All five at 10 grade F; all five at 100 score 100 with grade A and no gaps. */
  lemma UniformExamples(id: string, createdAt: int)
    ensures BuildReport(Uniform(10.0, [], []), VerdictConstants(), id, createdAt).overallGrade == F
    ensures BuildReport(Uniform(100.0, [], []), VerdictConstants(), id, createdAt).overallScore == 100.0
    ensures BuildReport(Uniform(100.0, [], []), VerdictConstants(), id, createdAt).overallGrade == A
    ensures BuildReport(Uniform(100.0, [], []), VerdictConstants(), id, createdAt).gaps == []
  {
    var c := VerdictConstants();
    Round1Whole(10);
    Round1Whole(100);
    UniformOverall(10.0, id, createdAt);
    UniformOverall(100.0, id, createdAt);
    NoGaps(Dimensions(Uniform(100.0, [], []), c));
  }

  function Mixed(m: MutationResult, f: StaticFinding): ReportArgs
  {
    ReportArgs("/tmp/test", None, None, ["foo.py"], 50.0, 80.0, 100.0, 70.0, 60.0, [m], [f], None, NoSignals, None)
  }

  /** The weighted mean of 50, 80, 100, 70 and 60 under the default weights is 69. */
  lemma MixedOverall(args: ReportArgs, c: Constants)
    requires args.evaluatedDimensions.None? && c.weights == ModuleWeights
    requires args.mutationScore == 50.0 && args.staticScore == 80.0 && args.baselineScore == 100.0
    requires args.sentinelRiskScore == 70.0 && args.coChangeScore == 60.0
    ensures OverallScore(Dimensions(args, c)) == 69.0
  {
    var ds := Dimensions(args, c);
    Round1Whole(50);
    Round1Whole(80);
    Round1Whole(100);
    Round1Whole(70);
    Round1Whole(60);
    AllEvaluatedOverall(args, c);
    PlainFive(ds);
    MixedSum(ds[0].rawScore, ds[1].rawScore, ds[2].rawScore, ds[3].rawScore, ds[4].rawScore,
             ds[0].weight, ds[1].weight, ds[2].weight, ds[3].weight, ds[4].weight, OverallScore(ds));
  }

  /** The mixed example: 50, 80, 100, 70 and 60 give 69, grade C, with gaps. */
  lemma MixedExample(id: string, createdAt: int, m: MutationResult, f: StaticFinding)
    ensures var r := BuildReport(Mixed(m, f), VerdictConstants(), id, createdAt);
      r.overallScore == 69.0 && r.overallGrade == C && |r.gaps| > 0
  {
    var ds := Dimensions(Mixed(m, f), VerdictConstants());
    MixedOverall(Mixed(m, f), VerdictConstants());
    Round1Whole(69);
    assert NeedsAttention(ds[0]);
    GapDimsExact(ds);
    assert ds[0] in GapDims(ds);
  }

  /** The arithmetic of the mixed example. */
  lemma MixedSum(a0: real, a1: real, a2: real, a3: real, a4: real,
                 w0: real, w1: real, w2: real, w3: real, w4: real, s: real)
    requires a0 == 50.0 && a1 == 80.0 && a2 == 100.0 && a3 == 70.0 && a4 == 60.0
    requires w0 == 0.30 && w1 == 0.20 && w2 == 0.15 && w3 == 0.20 && w4 == 0.15
    requires s == a0 * w0 + a1 * w1 + a2 * w2 + a3 * w3 + a4 * w4
    ensures s == 69.0
  {
  }

  // ----- gaps -----

  /** Evaluated and graded C, D or F. */
  predicate NeedsAttention(d: DimensionScore)
  {
    d.evaluated && (d.grade == C || d.grade == D || d.grade == F)
  }

  function GapDims(ds: seq<DimensionScore>): seq<DimensionScore>
  {
    if |ds| == 0 then []
    else (if NeedsAttention(ds[0]) then [ds[0]] else []) + GapDims(ds[1..])
  }

  /** The "needs attention" entry of a dimension: its name, grade, raw score and details. */
  function GapOf(d: DimensionScore): Gap
  {
    Gap(d.name, d.grade, d.rawScore, d.details)
  }

  function GapsOf(ds: seq<DimensionScore>): (g: seq<Gap>)
    ensures |g| == |GapDims(ds)|
  {
    var gd := GapDims(ds);
    seq(|gd|, i requires 0 <= i < |gd| => GapOf(gd[i]))
  }

  /**
   * The text `_identify_gaps` builds for a gap: "name: grade (raw%) — details",
   * with the raw score shown by `showReal` (Python's `str` of a float).
   */
  function GapText(g: Gap, showReal: real -> string): (r: string)
    ensures StartsWith(r, g.name + ": " + g.grade.Value() + " (")
    ensures EndsWith(r, "%) — " + g.details)
  {
    var head := g.name + ": " + g.grade.Value() + " (";
    var tail := "%) — " + g.details;
    var r := head + showReal(g.rawScore) + tail;
    assert r[..|head|] == head;
    assert r[|r| - |tail|..] == tail;
    r
  }

  /** Every gap text opens with the name of a dimension graded C, D or F. */
  lemma GapTextNamesWeakDimension(ds: seq<DimensionScore>, i: nat, showReal: real -> string)
    requires i < |GapsOf(ds)|
    ensures StartsWith(GapText(GapsOf(ds)[i], showReal), GapDims(ds)[i].name + ": ")
    ensures GapDims(ds)[i] in ds && GapDims(ds)[i].evaluated && GapDims(ds)[i].grade in [C, D, F]
  {
    var d := GapDims(ds)[i];
    var t := GapText(GapsOf(ds)[i], showReal);
    var p := d.name + ": ";
    var q := p + d.grade.Value() + " (";
    assert t[..|q|] == q;
    assert t[..|p|] == q[..|p|] == p;
    GapDimsExact(ds);
    assert d in GapDims(ds);
  }

  /** `_identify_gaps`. */
  method IdentifyGaps(dimensions: seq<DimensionScore>) returns (gaps: seq<Gap>)
    ensures gaps == GapsOf(dimensions)
  {
    gaps := [];
    var i := 0;
    while i < |dimensions|
      invariant 0 <= i <= |dimensions|
      invariant GapsOf(dimensions) == gaps + GapsOf(dimensions[i..])
    {
      assert dimensions[i..] == [dimensions[i]] + dimensions[i + 1..];
      GapsOfCons(dimensions[i], dimensions[i + 1..]);
      var d := dimensions[i];
      if !d.evaluated {
        i := i + 1;
        continue;
      }
      if d.grade == C || d.grade == D || d.grade == F {
        gaps := gaps + [GapOf(d)];
      }
      i := i + 1;
    }
  }

  lemma GapsOfCons(d: DimensionScore, rest: seq<DimensionScore>)
    ensures GapsOf([d] + rest) == (if NeedsAttention(d) then [GapOf(d)] else []) + GapsOf(rest)
  {
    assert ([d] + rest)[1..] == rest;
  }

  /** Gaps are exactly the evaluated dimensions graded C, D or F. */
  lemma {:induction false} GapDimsExact(ds: seq<DimensionScore>)
    ensures forall d :: d in GapDims(ds) <==> d in ds && NeedsAttention(d)
  {
    if |ds| > 0 {
      GapDimsExact(ds[1..]);
      assert forall d :: d in ds <==> d == ds[0] || d in ds[1..];
    }
  }

  /** The gap list keeps dimension order: gaps of a concatenation concatenate. */
  lemma {:induction false} GapDimsAppend(a: seq<DimensionScore>, b: seq<DimensionScore>)
    ensures GapDims(a + b) == GapDims(a) + GapDims(b)
  {
    if |a| == 0 {
      assert a + b == b;
    } else {
      var t := a[1..];
      GapDimsAppend(t, b);
      assert a == [a[0]] + t;
      assert a + b == [a[0]] + (t + b);
      GapDimsCons(a[0], t);
      GapDimsCons(a[0], t + b);
    }
  }

  lemma GapDimsCons(d: DimensionScore, ds: seq<DimensionScore>)
    ensures GapDims([d] + ds) == (if NeedsAttention(d) then [d] else []) + GapDims(ds)
  {
    assert ([d] + ds)[0] == d && ([d] + ds)[1..] == ds;
  }

  lemma {:induction false} NoGaps(ds: seq<DimensionScore>)
    requires forall i :: 0 <= i < |ds| ==> !NeedsAttention(ds[i])
    ensures GapsOf(ds) == []
  {
    if |ds| > 0 {
      NoGaps(ds[1..]);
    }
  }

  // ----- detail texts -----

  /** `_mutation_details`. */
  function MutationDetails(mutations: seq<MutationResult>, c: Constants): (s: string)
    ensures mutations == [] ==> s == c.noMutationsDetails
    ensures mutations != [] ==>
      s == NatToString(KilledCount(mutations)) + "/" + NatToString(|mutations|) + " killed, "
           + NatToString(|mutations| - KilledCount(mutations)) + " survived"
  {
    if |mutations| == 0 then c.noMutationsDetails
    else
      var total := |mutations|;
      var killed := KilledCount(mutations);
      IntToString(killed) + "/" + IntToString(total) + " killed, " + IntToString(total - killed) + " survived"
  }

  function CountAnalyzer(findings: seq<StaticFinding>, value: string): (n: nat)
    ensures n <= |findings|
  {
    if |findings| == 0 then 0
    else CountAnalyzer(findings[..|findings| - 1], value)
         + (if findings[|findings| - 1].analyzer.Value() == value then 1 else 0)
  }

  function AnalyzerValues(findings: seq<StaticFinding>): set<string>
  {
    if |findings| == 0 then {}
    else AnalyzerValues(findings[..|findings| - 1]) + {findings[|findings| - 1].analyzer.Value()}
  }

  /** The analyzer keys that occur, in sorted order ("mypy" before "ruff"). */
  function PresentAnalyzers(findings: seq<StaticFinding>): seq<string>
  {
    (if CountAnalyzer(findings, "mypy") > 0 then ["mypy"] else [])
    + (if CountAnalyzer(findings, "ruff") > 0 then ["ruff"] else [])
  }

  function AnalyzerParts(keys: seq<string>, findings: seq<StaticFinding>): (parts: seq<string>)
    ensures |parts| == |keys|
  {
    if |keys| == 0 then []
    else AnalyzerParts(keys[..|keys| - 1], findings)
         + [IntToString(CountAnalyzer(findings, keys[|keys| - 1])) + " " + keys[|keys| - 1]]
  }

  /** `_static_details`: "N analyzer" per analyzer that reported, sorted by analyzer. */
  function StaticDetailsOf(findings: seq<StaticFinding>): string
  {
    if |findings| == 0 then "No issues found"
    else Join(AnalyzerParts(PresentAnalyzers(findings), findings), ", ")
  }

  lemma {:induction false} AnalyzerValuesCount(findings: seq<StaticFinding>, v: string)
    ensures v in AnalyzerValues(findings) <==> CountAnalyzer(findings, v) > 0
    ensures AnalyzerValues(findings) <= {"mypy", "ruff"}
  {
    if |findings| > 0 {
      AnalyzerValuesCount(findings[..|findings| - 1], v);
    }
  }

  lemma PresentAnalyzersSorted(findings: seq<StaticFinding>)
    ensures StrictlySorted(PresentAnalyzers(findings))
    ensures Elems(PresentAnalyzers(findings)) == AnalyzerValues(findings)
  {
    AnalyzerValuesCount(findings, "mypy");
    AnalyzerValuesCount(findings, "ruff");
    assert StrLt("mypy", "ruff");
    var p := PresentAnalyzers(findings);
    forall v ensures v in Elems(p) <==> v in AnalyzerValues(findings)
    {
      AnalyzerValuesCount(findings, v);
    }
  }

  lemma CountStep(findings: seq<StaticFinding>, i: int)
    requires 0 <= i < |findings|
    ensures AnalyzerValues(findings[..i + 1]) == AnalyzerValues(findings[..i]) + {findings[i].analyzer.Value()}
    ensures forall k :: (CountAnalyzer(findings[..i + 1], k)
      == CountAnalyzer(findings[..i], k) + (if findings[i].analyzer.Value() == k then 1 else 0))
  {
    assert findings[..i + 1][..i] == findings[..i];
  }

  lemma PartsStep(keys: seq<string>, j: int, findings: seq<StaticFinding>)
    requires 0 <= j < |keys|
    ensures AnalyzerParts(keys[..j + 1], findings)
      == AnalyzerParts(keys[..j], findings) + [IntToString(CountAnalyzer(findings, keys[j])) + " " + keys[j]]
  {
    assert keys[..j + 1][..j] == keys[..j];
  }

  /** One pass of the counting loop keeps the dict and the key list in step with the findings seen. */
  lemma CountInvariantStep(findings: seq<StaticFinding>, i: int, m: map<string, nat>, seen: seq<string>)
    requires 0 <= i < |findings|
    requires m.Keys == AnalyzerValues(findings[..i]) == Elems(seen)
    requires forall k :: k in m ==> m[k] == CountAnalyzer(findings[..i], k)
    ensures var v := findings[i].analyzer.Value();
      var m' := m[v := (if v in m then m[v] else 0) + 1];
      m'.Keys == AnalyzerValues(findings[..i + 1]) == Elems(seen + [v])
      && forall k :: k in m' ==> m'[k] == CountAnalyzer(findings[..i + 1], k)
  {
    var v := findings[i].analyzer.Value();
    CountStep(findings, i);
    AnalyzerValuesCount(findings[..i], v);
    assert Elems(seen + [v]) == Elems(seen) + {v};
  }

  /** The counting loop of `_static_details`: a dict from analyzer to count, and the keys in insertion order. */
  method CountByAnalyzer(findings: seq<StaticFinding>) returns (byAnalyzer: map<string, nat>, seen: seq<string>)
    ensures byAnalyzer.Keys == AnalyzerValues(findings) == Elems(seen)
    ensures forall k :: k in byAnalyzer ==> byAnalyzer[k] == CountAnalyzer(findings, k)
  {
    byAnalyzer, seen := map[], [];
    var i := 0;
    while i < |findings|
      invariant 0 <= i <= |findings|
      invariant byAnalyzer.Keys == AnalyzerValues(findings[..i]) == Elems(seen)
      invariant forall k :: k in byAnalyzer ==> byAnalyzer[k] == CountAnalyzer(findings[..i], k)
    {
      var v := findings[i].analyzer.Value();
      CountInvariantStep(findings, i, byAnalyzer, seen);
      byAnalyzer := byAnalyzer[v := (if v in byAnalyzer then byAnalyzer[v] else 0) + 1];
      seen := seen + [v];
      i := i + 1;
    }
    assert findings[..i] == findings;
  }

  /** `_static_details`, counting per analyzer in a dict and joining the sorted items. */
  method StaticDetails(findings: seq<StaticFinding>) returns (s: string)
    ensures s == StaticDetailsOf(findings)
  {
    if |findings| == 0 {
      return "No issues found";
    }
    var byAnalyzer, seen := CountByAnalyzer(findings);
    var keys := SortedDistinct(seen);
    PresentAnalyzersSorted(findings);
    StrictlySortedUnique(keys, PresentAnalyzers(findings));
    var parts := CountParts(keys, byAnalyzer, findings);
    return Join(parts, ", ");
  }

  /** The "N analyzer" parts of `_static_details`, read from the counting dict in key order. */
  method CountParts(keys: seq<string>, byAnalyzer: map<string, nat>, findings: seq<StaticFinding>)
    returns (parts: seq<string>)
    requires Elems(keys) <= byAnalyzer.Keys
    requires forall k :: k in byAnalyzer ==> byAnalyzer[k] == CountAnalyzer(findings, k)
    ensures parts == AnalyzerParts(keys, findings)
  {
    parts := [];
    var j := 0;
    while j < |keys|
      invariant 0 <= j <= |keys|
      invariant parts == AnalyzerParts(keys[..j], findings)
    {
      assert keys[j] in Elems(keys);
      PartsStep(keys, j, findings);
      parts := parts + [IntToString(byAnalyzer[keys[j]]) + " " + keys[j]];
      j := j + 1;
    }
    assert keys[..j] == keys;
  }

  /** `_baseline_details`. */
  function BaselineDetails(baseline: Option<BaselineResult>): (s: string)
    ensures baseline.None? ==> s == "Baseline not run"
    ensures baseline.Some? && |baseline.value.flakyTests| == 0 ==>
      s == "All stable across " + IntToString(baseline.value.runCount) + " runs"
    ensures baseline.Some? && |baseline.value.flakyTests| > 0 ==>
      s == NatToString(|baseline.value.flakyTests|) + " flaky test(s) detected across "
           + IntToString(baseline.value.runCount) + " runs"
  {
    match baseline
    case None => "Baseline not run"
    case Some(b) =>
      if |b.flakyTests| == 0 then "All stable across " + IntToString(b.runCount) + " runs"
      else IntToString(|b.flakyTests|) + " flaky test(s) detected across " + IntToString(b.runCount) + " runs"
  }

  /** `_sentinel_details`. */
  function SentinelDetails(signals: SentinelSignals): (s: string)
    ensures !signals.available ==> s == "Sentinel data not available"
    ensures signals.available && |signals.pitfallMatches| == 0 && |signals.hotFiles| == 0 ==> s == "No risk signals"
    ensures signals.available && |signals.pitfallMatches| > 0 ==>
      StartsWith(s, NatToString(|signals.pitfallMatches|) + " pitfall match(es)")
    ensures signals.available && |signals.hotFiles| > 0 ==> EndsWith(s, NatToString(|signals.hotFiles|) + " hot file(s)")
  {
    if !signals.available then "Sentinel data not available"
    else
      var parts :=
        (if |signals.pitfallMatches| > 0 then [IntToString(|signals.pitfallMatches|) + " pitfall match(es)"] else [])
        + (if |signals.hotFiles| > 0 then [IntToString(|signals.hotFiles|) + " hot file(s)"] else []);
      assert |signals.pitfallMatches| > 0 && |signals.hotFiles| > 0 ==>
        Join(parts, ", ") == parts[0] + ", " + parts[1] by {
        if |signals.pitfallMatches| > 0 && |signals.hotFiles| > 0 {
          JoinCons(parts[0], [parts[1]], ", ");
          assert parts == [parts[0]] + [parts[1]];
        }
      }
      if |parts| == 0 then "No risk signals" else Join(parts, ", ")
  }

  function Partners(missing: seq<MissingCoChange>): (r: seq<string>)
    ensures |r| == |missing| && forall i :: 0 <= i < |missing| ==> r[i] == missing[i].partnerFile
  {
    seq(|missing|, i requires 0 <= i < |missing| => missing[i].partnerFile)
  }

  /** `_cochange_details`: the first three missing partners, then how many more. */
  function CoChangeDetails(signals: SentinelSignals): (s: string)
    ensures !signals.available ==> s == "Sentinel data not available"
    ensures signals.available && |signals.missingCoChanges| == 0 ==> s == "All co-change partners included"
    ensures signals.available && 0 < |signals.missingCoChanges| <= 3 ==>
      s == "Missing: " + Join(Partners(signals.missingCoChanges), ", ")
    ensures signals.available && |signals.missingCoChanges| > 3 ==>
      s == "Missing: " + Join(Partners(signals.missingCoChanges[..3]), ", ")
           + " (+" + NatToString(|signals.missingCoChanges| - 3) + " more)"
  {
    var missing := signals.missingCoChanges;
    if !signals.available then "Sentinel data not available"
    else if |missing| == 0 then "All co-change partners included"
    else
      var shown := if |missing| > 3 then missing[..3] else missing;
      var suffix := if |missing| > 3 then " (+" + IntToString(|missing| - 3) + " more)" else "";
      "Missing: " + Join(Partners(shown), ", ") + suffix
  }

  /** Five raw scores of 100, every dimension evaluated and a positive total weight give an overall 100. */
  lemma PerfectReport(args: ReportArgs, c: Constants, id: string, createdAt: int)
    requires args.evaluatedDimensions.None? && c.weights.Total() > 0.0
    requires forall i :: 0 <= i < 5 ==> args.Raws()[i] == 100.0
    ensures BuildReport(args, c, id, createdAt).overallScore == 100.0
    ensures BuildReport(args, c, id, createdAt).overallGrade == FromScore(100.0, c.thresholds)
  {
    var ds := Dimensions(args, c);
    NoneMeansAllEvaluated(args, c);
    AllEvaluatedKept(ds);
    DimensionsTotalWeight(args, c);
    Round1Whole(100);
    forall i | 0 <= i < |ds|
      ensures ds[i].evaluated ==> ds[i].rawScore == 100.0
    {
      assert args.Raws()[i] == 100.0;
    }
    OverallOfUniform(ds, 100.0);
  }
}
