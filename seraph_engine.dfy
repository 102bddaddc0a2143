/**
 * `seraph`'s seven-step pipeline (`SeraphEngine`). Each step's call against
 * the repository is an input that either returns a value or raises; the
 * engine turns those outcomes into scores, the set of evaluated
 * dimensions and one report handed to the store.
 */
module SeraphPipeline {
  import opened Outcomes
  import opened Enums
  import opened Models
  import opened Config
  import opened Numbers
  import opened Reporter
  import Differ
  import Mutator
  import StaticAnalysis
  import Security

  /** How each step's call ends: `run_baseline`, `run_mutations`, `run_static_analysis`, `run_security_analysis`, the bridge. */
  datatype StepOutcomes = StepOutcomes(
    baseline: Step<BaselineResult>,
    mutation: Step<Mutator.MutationRun>,
    staticRun: Step<StaticAnalysis.StaticRun>,
    security: Step<Security.SecurityRun>,
    sentinel: Step<SentinelSignals>)

  const AllDimensions: set<string> := {"mutation", "static", "baseline", "sentinel_risk", "co_change"}

  /** The dimensions every assessment of a non-empty diff evaluates. */
  const AlwaysEvaluated: set<string> := {"static", "sentinel_risk", "co_change"}

  function Consts(scoring: ScoringConfig): Constants
  {
    SeraphConstants(Some(scoring))
  }

  // ----- the scoreable static findings -----

  /** A finding counts unless `tool_config` marks its analyzer unconfigured; a missing entry counts as configured. */
  predicate Configured(f: StaticFinding, toolConfig: map<string, bool>)
  {
    f.analyzer.Value() !in toolConfig || toolConfig[f.analyzer.Value()]
  }

  function Scoreable(findings: seq<StaticFinding>, toolConfig: map<string, bool>): (r: seq<StaticFinding>)
    ensures |r| <= |findings|
  {
    if |findings| == 0 then []
    else
      var last := findings[|findings| - 1];
      Scoreable(findings[..|findings| - 1], toolConfig) + (if Configured(last, toolConfig) then [last] else [])
  }

  /** Exactly the findings of configured analyzers are scored, in their order. */
  lemma {:induction false} ScoreableExactly(findings: seq<StaticFinding>, toolConfig: map<string, bool>)
    ensures forall f :: f in Scoreable(findings, toolConfig) <==> f in findings && Configured(f, toolConfig)
  {
    if |findings| > 0 {
      var init := findings[..|findings| - 1];
      ScoreableExactly(init, toolConfig);
      assert findings == init + [findings[|findings| - 1]];
    }
  }

  /** With an empty `tool_config` every finding is scored. */
  lemma {:induction false} EmptyConfigScoresAll(findings: seq<StaticFinding>)
    ensures Scoreable(findings, map[]) == findings
  {
    if |findings| > 0 {
      EmptyConfigScoresAll(findings[..|findings| - 1]);
      assert findings == findings[..|findings| - 1] + [findings[|findings| - 1]];
    }
  }

  predicate AnyAvailable(tools: map<string, bool>)
  {
    exists k :: k in tools && tools[k]
  }

  // ----- the steps -----

  /** The values the pipeline's locals hold once the sentinel step is over. */
  datatype Locals = Locals(
    evaluated: set<string>,
    baseline: Option<BaselineResult>,
    baselineScore: real,
    mutations: seq<MutationResult>,
    mutationScore: real,
    staticFindings: seq<StaticFinding>,
    staticScore: real,
    securityFindings: seq<Security.SecurityFinding>,
    signals: SentinelSignals)

  /** Step 2 runs unless skipped or no Python file changed. */
  predicate BaselineRuns(skipBaseline: bool, files: seq<string>)
  {
    !skipBaseline && Differ.PythonPaths(files) != []
  }

  predicate MutationRuns(skipMutations: bool, files: seq<string>)
  {
    !skipMutations && Differ.PythonPaths(files) != []
  }

  function BaselineOf(skipBaseline: bool, files: seq<string>, o: StepOutcomes): Option<BaselineResult>
  {
    if BaselineRuns(skipBaseline, files) && o.baseline.Ok? then Some(o.baseline.value) else None
  }

  function MutationsOf(skipMutations: bool, files: seq<string>, o: StepOutcomes): seq<MutationResult>
  {
    if MutationRuns(skipMutations, files) && o.mutation.Ok? then o.mutation.value.results else []
  }

  /** The findings and tool map the static step assigns before it scores (they survive a raising score). */
  function StaticRunOf(files: seq<string>, o: StepOutcomes): StaticAnalysis.StaticRun
  {
    if Differ.PythonPaths(files) != [] && o.staticRun.Ok? then o.staticRun.value
    else StaticAnalysis.StaticRun([], map[])
  }

  /** The static score: the scoreable findings per changed Python file, or 100 when the step or the score raises. */
  function StaticScoreOf(scoring: ScoringConfig, files: seq<string>, o: StepOutcomes): real
  {
    var run := StaticRunOf(files, o);
    var py := Differ.PythonPaths(files);
    if py != [] && o.staticRun.Ok? then
      var s := StaticScore(Scoreable(run.findings, run.toolConfig), |py|, Consts(scoring));
      if s.Ok? then s.value else 100.0
    else 100.0
  }

  predicate SecurityEvaluated(files: seq<string>, o: StepOutcomes)
  {
    Differ.PythonPaths(files) != [] && o.security.Ok?
    && (o.security.value.findings != [] || AnyAvailable(o.security.value.toolsAvailable))
  }

  /** The evaluated set, as a union of the conditions under which each step adds its key. */
  function EvaluatedOf(skipBaseline: bool, skipMutations: bool, files: seq<string>, o: StepOutcomes): set<string>
  {
    AlwaysEvaluated
    + (if BaselineRuns(skipBaseline, files) && o.baseline.Ok? then {"baseline"} else {})
    + (if MutationsOf(skipMutations, files, o) != [] then {"mutation"} else {})
    + (if SecurityEvaluated(files, o) then {"security"} else {})
  }

  /** Steps 2 to 5 of `assess`. */
  function LocalsOf(scoring: ScoringConfig, skipBaseline: bool, skipMutations: bool, files: seq<string>,
                    o: StepOutcomes): Locals
  {
    var baseline := BaselineOf(skipBaseline, files, o);
    var mutations := MutationsOf(skipMutations, files, o);
    Locals(
      EvaluatedOf(skipBaseline, skipMutations, files, o),
      baseline,
      if baseline.Some? then BaselineScore(baseline.value, Consts(scoring)) else 100.0,
      mutations,
      if mutations != [] then MutationScore(mutations) else 100.0,
      StaticRunOf(files, o).findings,
      StaticScoreOf(scoring, files, o),
      if Differ.PythonPaths(files) != [] && o.security.Ok? then o.security.value.findings else [],
      if o.sentinel.Ok? then o.sentinel.value else NoSignals)
  }

  /** The arguments of step 6, given the two sentinel scores. */
  function ArgsOf(repoPath: string, refBefore: Option<string>, refAfter: Option<string>, files: seq<string>,
                  l: Locals, risk: real, coChange: real): ReportArgs
  {
    ReportArgs(repoPath, refBefore, refAfter, files, l.mutationScore, l.staticScore, l.baselineScore,
               risk, coChange, l.mutations, l.staticFindings, l.baseline, l.signals, Some(l.evaluated))
  }

  /** `_empty_report`: every score 100 and all five dimensions counted. */
  function EmptyArgs(repoPath: string, refBefore: Option<string>, refAfter: Option<string>): ReportArgs
  {
    ReportArgs(repoPath, refBefore, refAfter, [], 100.0, 100.0, 100.0, 100.0, 100.0, [], [], None, NoSignals, None)
  }

  /**
   * `assess`: the empty report for an empty diff; otherwise the report of
   * the steps' outcomes. `compute_risk_score` runs outside any handler, so
   * its ZeroDivisionError ends the assessment.
   */
  function AssessOf(scoring: ScoringConfig, skipBaseline: bool, skipMutations: bool, repoPath: string,
                    refBefore: Option<string>, refAfter: Option<string>, files: seq<string>, o: StepOutcomes,
                    id: string, createdAt: int): Step<AssessmentReport>
  {
    if files == [] then Ok(BuildReport(EmptyArgs(repoPath, refBefore, refAfter), Consts(scoring), id, createdAt))
    else
      var l := LocalsOf(scoring, skipBaseline, skipMutations, files, o);
      match RiskScoreOf(l.signals, Consts(scoring))
      case Raised => Raised
      case Ok(risk) =>
        Ok(BuildReport(ArgsOf(repoPath, refBefore, refAfter, files, l, risk, CoChangeScore(l.signals, files)),
                       Consts(scoring), id, createdAt))
  }

  /** The evaluated set of `mutate_only`. */
  function MutateOnlyEvaluated(files: seq<string>, mutation: Step<Mutator.MutationRun>): set<string>
  {
    if Differ.PythonPaths(files) != [] && mutation.Ok? && mutation.value.results != [] then {"mutation"} else {}
  }

  /** `mutate_only`: only the mutation step runs, outside any handler. */
  function MutateOnlyOf(scoring: ScoringConfig, repoPath: string, refBefore: Option<string>,
                        refAfter: Option<string>, files: seq<string>, mutation: Step<Mutator.MutationRun>,
                        id: string, createdAt: int): Step<AssessmentReport>
  {
    if Differ.PythonPaths(files) != [] && mutation.Raised? then Raised
    else Ok(BuildReport(MutateOnlyArgs(repoPath, refBefore, refAfter, files, mutation), Consts(scoring), id, createdAt))
  }

  /** The arguments `mutate_only` passes to `build_report` when the mutation step returns. */
  function MutateOnlyArgs(repoPath: string, refBefore: Option<string>, refAfter: Option<string>, files: seq<string>,
                          mutation: Step<Mutator.MutationRun>): ReportArgs
    requires Differ.PythonPaths(files) != [] ==> mutation.Ok?
  {
    var mutations := if Differ.PythonPaths(files) != [] then mutation.value.results else [];
    var score := if mutations != [] then MutationScore(mutations) else 100.0;
    ReportArgs(repoPath, refBefore, refAfter, files, score, 100.0, 100.0, 100.0, 100.0,
               mutations, [], None, NoSignals, Some(MutateOnlyEvaluated(files, mutation)))
  }

  // ----- properties of the evaluated set -----

  /** static, sentinel_risk and co_change are always evaluated, whatever the steps do. */
  lemma AlwaysEvaluatedKept(skipBaseline: bool, skipMutations: bool, files: seq<string>, o: StepOutcomes)
    ensures AlwaysEvaluated <= EvaluatedOf(skipBaseline, skipMutations, files, o)
    ensures EvaluatedOf(skipBaseline, skipMutations, files, o) <= AlwaysEvaluated + {"baseline", "mutation", "security"}
  {
  }

  /**
   * baseline is evaluated iff the step ran and returned; mutation iff it
   * returned at least one result; security iff some finding or available
   * tool came back.
   */
  lemma EvaluatedExactly(skipBaseline: bool, skipMutations: bool, files: seq<string>, o: StepOutcomes)
    ensures "baseline" in EvaluatedOf(skipBaseline, skipMutations, files, o)
        <==> !skipBaseline && Differ.PythonPaths(files) != [] && o.baseline.Ok?
    ensures "mutation" in EvaluatedOf(skipBaseline, skipMutations, files, o)
        <==> !skipMutations && Differ.PythonPaths(files) != [] && o.mutation.Ok? && o.mutation.value.results != []
    ensures "security" in EvaluatedOf(skipBaseline, skipMutations, files, o)
        <==> Differ.PythonPaths(files) != [] && o.security.Ok?
             && (o.security.value.findings != [] || exists k :: k in o.security.value.toolsAvailable
                                                         && o.security.value.toolsAvailable[k])
  {
  }

  /** A step that raises keeps its score at 100, is not evaluated and leaves its outputs empty. */
  lemma RaisingStepsKeepDefaults(scoring: ScoringConfig, skipBaseline: bool, skipMutations: bool,
                                 files: seq<string>, o: StepOutcomes)
    ensures var l := LocalsOf(scoring, skipBaseline, skipMutations, files, o);
      && (o.baseline.Raised? ==> l.baseline.None? && l.baselineScore == 100.0 && "baseline" !in l.evaluated)
      && (o.mutation.Raised? ==> l.mutations == [] && l.mutationScore == 100.0 && "mutation" !in l.evaluated)
      && (o.staticRun.Raised? ==> l.staticFindings == [] && l.staticScore == 100.0)
      && (o.security.Raised? ==> l.securityFindings == [] && "security" !in l.evaluated)
      && (o.sentinel.Raised? ==> l.signals == NoSignals)
  {
    var l := LocalsOf(scoring, skipBaseline, skipMutations, files, o);
    var e := EvaluatedOf(skipBaseline, skipMutations, files, o);
    assert l.evaluated == e;
    if o.baseline.Raised? {
      assert BaselineOf(skipBaseline, files, o).None?;
      assert "baseline" !in e;
    }
    if o.mutation.Raised? {
      assert MutationsOf(skipMutations, files, o) == [];
      assert "mutation" !in e;
    }
    if o.security.Raised? {
      assert !SecurityEvaluated(files, o);
      assert "security" !in e;
    }
  }

  /**
   * With a `ScoringConfig` the static score always raises once a Python
   * file changed, so the static dimension reads 100 while its findings are
   * still reported.
   */
  lemma StaticScoreAlwaysDefault(scoring: ScoringConfig, files: seq<string>, o: StepOutcomes)
    requires Differ.PythonPaths(files) != [] && o.staticRun.Ok?
    ensures StaticScoreOf(scoring, files, o) == 100.0
    ensures StaticRunOf(files, o).findings == o.staticRun.value.findings
  {
    var run := o.staticRun.value;
    ConfiguredStaticScoreRaises(Scoreable(run.findings, run.toolConfig), |Differ.PythonPaths(files)|, scoring);
  }

  /** An empty diff gives a perfect report under weights with a positive total and an A bound of at most 100. */
  lemma EmptyDiffPerfect(scoring: ScoringConfig, skipBaseline: bool, skipMutations: bool, repoPath: string,
                         refBefore: Option<string>, refAfter: Option<string>, o: StepOutcomes,
                         id: string, createdAt: int)
    requires scoring.Weights().Total() > 0.0 && scoring.gradeA <= 100.0
    ensures var r := AssessOf(scoring, skipBaseline, skipMutations, repoPath, refBefore, refAfter, [], o, id, createdAt);
      r.Ok? && r.value.overallScore == 100.0 && r.value.overallGrade == A && r.value.filesChanged == []
  {
    var args := EmptyArgs(repoPath, refBefore, refAfter);
    PerfectReport(args, Consts(scoring), id, createdAt);
  }

  /** Every assessment that reaches the report marks each of the five dimensions as the evaluated set says. */
  lemma ReportFollowsEvaluated(scoring: ScoringConfig, skipBaseline: bool, skipMutations: bool, repoPath: string,
                               refBefore: Option<string>, refAfter: Option<string>, files: seq<string>,
                               o: StepOutcomes, id: string, createdAt: int)
    requires files != []
    ensures var r := AssessOf(scoring, skipBaseline, skipMutations, repoPath, refBefore, refAfter, files, o, id, createdAt);
      r.Ok? ==> forall i :: 0 <= i < 5 ==>
        (r.value.dimensions[i].evaluated <==> DimensionKeys[i] in EvaluatedOf(skipBaseline, skipMutations, files, o))
  {
  }

  /** The assessment fails only when the risk score divides by a zero churn divisor. */
  lemma AssessRaisesOnlyOnRisk(scoring: ScoringConfig, skipBaseline: bool, skipMutations: bool, repoPath: string,
                               refBefore: Option<string>, refAfter: Option<string>, files: seq<string>,
                               o: StepOutcomes, id: string, createdAt: int)
    ensures var r := AssessOf(scoring, skipBaseline, skipMutations, repoPath, refBefore, refAfter, files, o, id, createdAt);
      r.Raised? <==> files != [] && o.sentinel.Ok? && o.sentinel.value.available
                     && |o.sentinel.value.hotFiles| > 0 && scoring.riskHotFileChurnDivisor == 0.0
  {
  }

  /** A mutation score is already rounded to one decimal. */
  lemma MutationScoreRounded(results: seq<MutationResult>)
    ensures Round1(MutationScore(results)) == MutationScore(results)
  {
    if |results| == 0 {
      Round1Whole(100);
    } else {
      Round1Idempotent(KilledCount(results) as real / |results| as real * 100.0);
    }
  }

  /** `mutate_only` evaluates at most the mutation dimension; with it alone the overall is its score. */
  lemma MutateOnlyEvaluatesMutation(scoring: ScoringConfig, repoPath: string, refBefore: Option<string>,
                                    refAfter: Option<string>, files: seq<string>, mutation: Step<Mutator.MutationRun>,
                                    id: string, createdAt: int)
    requires scoring.mutationWeight > 0.0
    ensures MutateOnlyEvaluated(files, mutation) <= {"mutation"}
    ensures var r := MutateOnlyOf(scoring, repoPath, refBefore, refAfter, files, mutation, id, createdAt);
      r.Ok? && MutateOnlyEvaluated(files, mutation) == {"mutation"} ==>
        r.value.overallScore == MutationScore(mutation.value.results)
  {
    var r := MutateOnlyOf(scoring, repoPath, refBefore, refAfter, files, mutation, id, createdAt);
    if r.Ok? && MutateOnlyEvaluated(files, mutation) == {"mutation"} {
      var results := mutation.value.results;
      var args := ReportArgs(repoPath, refBefore, refAfter, files, MutationScore(results), 100.0, 100.0, 100.0,
                             100.0, results, [], None, NoSignals, Some({"mutation"}));
      assert args.evaluatedDimensions == Some({DimensionKeys[0]});
      SingleEvaluated(args, Consts(scoring), id, createdAt, 0);
      MutationScoreRounded(results);
    }
  }

  /** Without a killed or surviving mutant to score, `mutate_only`'s report counts nothing and reads 100. */
  lemma MutateOnlyNothingEvaluated(scoring: ScoringConfig, repoPath: string, refBefore: Option<string>,
                                   refAfter: Option<string>, files: seq<string>, mutation: Step<Mutator.MutationRun>,
                                   id: string, createdAt: int)
    requires MutateOnlyEvaluated(files, mutation) == {}
    ensures var r := MutateOnlyOf(scoring, repoPath, refBefore, refAfter, files, mutation, id, createdAt);
      r.Ok? ==> r.value.overallScore == 100.0 && forall i :: 0 <= i < 5 ==> !r.value.dimensions[i].evaluated
  {
    var r := MutateOnlyOf(scoring, repoPath, refBefore, refAfter, files, mutation, id, createdAt);
    if r.Ok? {
      var ds := r.value.dimensions;
      NoneEvaluated(ds);
      OverallWithoutWeight(ds);
      Round1Whole(100);
    }
  }

  // ----- the call of build_report as written -----

  /** The keyword parameters `build_report` declares. */
  const BuildReportParameters: set<string> :=
    {"repo_path", "ref_before", "ref_after", "files_changed", "mutation_score", "static_score", "baseline_score",
     "sentinel_risk_score", "co_change_score", "mutations", "static_findings", "baseline", "sentinel_signals",
     "evaluated_dimensions", "scoring"}

  /** The keywords `assess` passes. */
  const AssessKeywords: set<string> :=
    BuildReportParameters + {"security_score", "security_findings", "mutation_tool_available", "tool_config"}

  /** The keywords `mutate_only` and `_empty_report` pass. */
  const MutateOnlyKeywords: set<string> := BuildReportParameters + {"mutation_tool_available"}
  const EmptyReportKeywords: set<string> := BuildReportParameters - {"evaluated_dimensions"} + {"mutation_tool_available"}

  /** A keyword-only call: Python raises TypeError for a keyword the function does not declare. */
  function BuildReportCalled(keywords: set<string>, args: ReportArgs, c: Constants, id: string, createdAt: int)
    : (r: Step<AssessmentReport>)
    ensures r.Raised? <==> exists k :: k in keywords && k !in BuildReportParameters
    ensures r.Ok? ==> r.value == BuildReport(args, c, id, createdAt)
  {
    if keywords <= BuildReportParameters then Ok(BuildReport(args, c, id, createdAt)) else Raised
  }

  /** `assess` as written: the same steps, then `build_report` with the keywords the source passes. */
  function AssessAsWritten(scoring: ScoringConfig, skipBaseline: bool, skipMutations: bool, repoPath: string,
                           refBefore: Option<string>, refAfter: Option<string>, files: seq<string>, o: StepOutcomes,
                           id: string, createdAt: int): Step<AssessmentReport>
  {
    if files == [] then BuildReportCalled(EmptyReportKeywords, EmptyArgs(repoPath, refBefore, refAfter), Consts(scoring), id, createdAt)
    else
      var l := LocalsOf(scoring, skipBaseline, skipMutations, files, o);
      match RiskScoreOf(l.signals, Consts(scoring))
      case Raised => Raised
      case Ok(risk) =>
        BuildReportCalled(AssessKeywords, ArgsOf(repoPath, refBefore, refAfter, files, l, risk, CoChangeScore(l.signals, files)),
                          Consts(scoring), id, createdAt)
  }

  /** As written, every `assess` raises before anything is saved, the empty diff included. */
  lemma AssessAsWrittenRaises(scoring: ScoringConfig, skipBaseline: bool, skipMutations: bool, repoPath: string,
                              refBefore: Option<string>, refAfter: Option<string>, files: seq<string>,
                              o: StepOutcomes, id: string, createdAt: int)
    ensures AssessAsWritten(scoring, skipBaseline, skipMutations, repoPath, refBefore, refAfter, files, o, id, createdAt).Raised?
    ensures exists k :: k in MutateOnlyKeywords && k !in BuildReportParameters
  {
    assert "mutation_tool_available" in EmptyReportKeywords && "mutation_tool_available" !in BuildReportParameters;
    assert "security_score" in AssessKeywords && "security_score" !in BuildReportParameters;
    assert "mutation_tool_available" in MutateOnlyKeywords;
  }

  // ----- the engine -----

  class SeraphEngine {
    const scoring: ScoringConfig
    const skipBaseline: bool
    const skipMutations: bool
    /** The reports handed to the store's `save_assessment`, in order. */
    var saved: seq<AssessmentReport>

    /** `SeraphEngine(store, config=...)`: the config's scoring section (a default config when none is given). */
    constructor (scoring: ScoringConfig, skipBaseline: bool, skipMutations: bool)
      ensures this.scoring == scoring && this.skipBaseline == skipBaseline && this.skipMutations == skipMutations
      ensures saved == []
    {
      this.scoring := scoring;
      this.skipBaseline := skipBaseline;
      this.skipMutations := skipMutations;
      saved := [];
    }

    /**
     * `assess` over the changed files of the diff. Returns the report (or
     * Raised) and the evaluated set `build_report` receives.
     */
    method Assess(repoPath: string, refBefore: Option<string>, refAfter: Option<string>, files: seq<string>,
                  o: StepOutcomes, id: string, createdAt: int) returns (r: Step<AssessmentReport>, evaluated: set<string>)
      modifies this
      ensures r == AssessOf(scoring, skipBaseline, skipMutations, repoPath, refBefore, refAfter, files, o, id, createdAt)
      ensures files == [] ==> evaluated == AllDimensions
      ensures files != [] ==> evaluated == EvaluatedOf(skipBaseline, skipMutations, files, o)
      ensures saved == old(saved) + (if r.Ok? then [r.value] else [])
    {
      var c := Consts(scoring);
      if files == [] {
        var report := BuildReport(EmptyArgs(repoPath, refBefore, refAfter), c, id, createdAt);
        saved := saved + [report];
        return Ok(report), AllDimensions;
      }
      var l := RunSteps(files, o);
      evaluated := l.evaluated;
      var risk := RiskScore(l.signals, c);
      if risk.Raised? {
        return Raised, evaluated;
      }
      var coChange := CoChangeScore(l.signals, files);

      // Steps 6 and 7: report and persist
      var report := BuildReport(ArgsOf(repoPath, refBefore, refAfter, files, l, risk.value, coChange), c, id, createdAt);
      saved := saved + [report];
      r := Ok(report);
    }

    /** Steps 2 to 5, each step adding its dimension to the evaluated set once it has a score. */
    method RunSteps(files: seq<string>, o: StepOutcomes) returns (l: Locals)
      ensures l == LocalsOf(scoring, skipBaseline, skipMutations, files, o)
    {
      var evaluated := AlwaysEvaluated;
      var baseline, baselineScore, baselineRan := BaselineStep(files, o);
      if baselineRan {
        evaluated := evaluated + {"baseline"};
      }
      ghost var afterBaseline := evaluated;
      assert afterBaseline == AlwaysEvaluated + (if BaselineRuns(skipBaseline, files) && o.baseline.Ok? then {"baseline"} else {});
      var mutations, mutationScore := MutationStep(files, o);
      if mutations != [] {
        evaluated := evaluated + {"mutation"};
      }
      ghost var afterMutation := evaluated;
      assert afterMutation == afterBaseline + (if MutationsOf(skipMutations, files, o) != [] then {"mutation"} else {});
      var staticFindings, staticScore := StaticStep(files, o);
      var securityFindings, securityRan := SecurityStep(files, o);
      if securityRan {
        evaluated := evaluated + {"security"};
      }
      assert evaluated == afterMutation + (if SecurityEvaluated(files, o) then {"security"} else {});
      var signals := NoSignals;
      if o.sentinel.Ok? {
        signals := o.sentinel.value;
      }
      l := Locals(evaluated, baseline, baselineScore, mutations, mutationScore, staticFindings, staticScore,
                  securityFindings, signals);
    }

    /** Step 2; `ran` says whether the baseline is evaluated. */
    method BaselineStep(files: seq<string>, o: StepOutcomes) returns (baseline: Option<BaselineResult>, score: real, ran: bool)
      ensures baseline == BaselineOf(skipBaseline, files, o) && ran == baseline.Some?
      ensures score == if baseline.Some? then BaselineScore(baseline.value, Consts(scoring)) else 100.0
    {
      baseline, score, ran := None, 100.0, false;
      if !skipBaseline && Differ.PythonPaths(files) != [] {
        match o.baseline
        case Ok(b) =>
          baseline := Some(b);
          score := BaselineScore(b, Consts(scoring));
          ran := true;
        case Raised =>
      }
    }

    /** Step 3: the score is computed only when the run returned results. */
    method MutationStep(files: seq<string>, o: StepOutcomes) returns (mutations: seq<MutationResult>, score: real)
      ensures mutations == MutationsOf(skipMutations, files, o)
      ensures score == if mutations != [] then MutationScore(mutations) else 100.0
    {
      mutations, score := [], 100.0;
      if !skipMutations && Differ.PythonPaths(files) != [] {
        match o.mutation
        case Ok(run) =>
          mutations := run.results;
          if mutations != [] {
            score := MutationScore(mutations);
          }
        case Raised =>
      }
    }

    /** Step 4: the findings are kept even when scoring them raises. */
    method StaticStep(files: seq<string>, o: StepOutcomes) returns (findings: seq<StaticFinding>, score: real)
      ensures findings == StaticRunOf(files, o).findings
      ensures score == StaticScoreOf(scoring, files, o)
    {
      var py := Differ.PythonPaths(files);
      findings, score := [], 100.0;
      if py != [] {
        match o.staticRun
        case Ok(run) =>
          findings := run.findings;
          match StaticScore(Scoreable(findings, run.toolConfig), |py|, Consts(scoring)) {
            case Ok(v) => score := v;
            case Raised =>
          }
        case Raised =>
      }
    }

    /** Step 4.5; `ran` says whether security is evaluated. */
    method SecurityStep(files: seq<string>, o: StepOutcomes) returns (findings: seq<Security.SecurityFinding>, ran: bool)
      ensures findings == (if Differ.PythonPaths(files) != [] && o.security.Ok? then o.security.value.findings else [])
      ensures ran == SecurityEvaluated(files, o)
    {
      findings, ran := [], false;
      if Differ.PythonPaths(files) != [] {
        match o.security
        case Ok(sec) =>
          findings := sec.findings;
          ran := findings != [] || AnyAvailable(sec.toolsAvailable);
        case Raised =>
      }
    }

    /** `mutate_only`: a raising mutation run ends the call before anything is saved. */
    method MutateOnly(repoPath: string, refBefore: Option<string>, refAfter: Option<string>, files: seq<string>,
                      mutation: Step<Mutator.MutationRun>, id: string, createdAt: int)
      returns (r: Step<AssessmentReport>, evaluated: set<string>)
      modifies this
      ensures r == MutateOnlyOf(scoring, repoPath, refBefore, refAfter, files, mutation, id, createdAt)
      ensures evaluated == MutateOnlyEvaluated(files, mutation) && evaluated <= {"mutation"}
      ensures saved == old(saved) + (if r.Ok? then [r.value] else [])
    {
      var py := Differ.PythonPaths(files);
      var mutations: seq<MutationResult> := [];
      var mutationScore := 100.0;
      evaluated := {};
      if py != [] {
        match mutation
        case Raised =>
          return Raised, evaluated;
        case Ok(run) =>
          mutations := run.results;
          if mutations != [] {
            mutationScore := MutationScore(mutations);
            evaluated := {"mutation"};
          }
      }
      var args := ReportArgs(repoPath, refBefore, refAfter, files, mutationScore, 100.0, 100.0, 100.0,
                             100.0, mutations, [], None, NoSignals, Some(evaluated));
      assert args == MutateOnlyArgs(repoPath, refBefore, refAfter, files, mutation);
      var report := BuildReport(args, Consts(scoring), id, createdAt);
      saved := saved + [report];
      r := Ok(report);
    }
  }
}
