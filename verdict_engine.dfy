/**
 * `verdict`'s seven-step pipeline (`VerdictEngine`). Nothing is caught
 * here: a step that raises ends the assessment. The baseline, the static
 * analysis, the bridge and the store are the modelled ones; the mutation
 * run and its score come from a module outside this model and are inputs.
 */
module VerdictPipeline {
  import opened Outcomes
  import opened Enums
  import opened Models
  import opened Numbers
  import opened Reporter
  import Differ
  import Baseline
  import StaticAnalysis
  import Bridge
  import Store

  /** The engine's constructor arguments that the pipeline reads. */
  datatype Settings = Settings(testCmd: string, baselineRuns: int, skipBaseline: bool, skipMutations: bool)

  const DefaultSettings := Settings("pytest", 3, false, false)

  /** What the steps meet in the repository: test runs, the mutation run, the linters, Sentinel's database. */
  datatype StepOutcomes = StepOutcomes(
    testRun: nat -> ToolRun,
    baselineId: string,
    mutations: Step<seq<MutationResult>>,
    scoreMutations: seq<MutationResult> -> real,
    ruff: StaticAnalysis.RuffRun,
    mypy: ToolRun,
    toRelative: string -> string,
    dbExists: bool,
    connection: Bridge.Connection,
    workspace: Bridge.Workspace)

  /** `_compute_baseline_score`: 10 points per flaky test, floored at 0. */
  function BaselineScoreOf(b: BaselineResult): (r: real)
    ensures r == BaselineScore(b, VerdictConstants())
    ensures 0.0 <= r <= 100.0
    ensures r == 100.0 <==> |b.flakyTests| == 0
    ensures |b.flakyTests| >= 10 ==> r == 0.0
  {
    var flaky := |b.flakyTests|;
    if flaky == 0 then 100.0 else Max(0.0, 100.0 - flaky as real * 10.0)
  }

  /** Each further flaky test costs ten points until the score reaches 0. */
  lemma BaselineScoreSteps(b1: BaselineResult, b2: BaselineResult)
    requires 0 < |b1.flakyTests| && |b2.flakyTests| == |b1.flakyTests| + 1 && |b2.flakyTests| <= 10
    ensures BaselineScoreOf(b2) == BaselineScoreOf(b1) - 10.0
  {
  }

  // ----- the steps -----

  predicate StepRuns(skip: bool, files: seq<string>)
  {
    !skip && Differ.PythonPaths(files) != []
  }

  /** Step 2: None when skipped or without Python files. */
  function BaselineStepOf(s: Settings, repoPath: string, files: seq<string>, o: StepOutcomes, createdAt: int)
    : Step<Option<BaselineResult>>
  {
    if !StepRuns(s.skipBaseline, files) then Ok(None)
    else match Baseline.BaselineOf(repoPath, s.testCmd, s.baselineRuns, o.testRun, o.baselineId, createdAt)
      case Raised => Raised
      case Ok(b) => Ok(Some(b))
  }

  /** Step 3: no mutations when skipped or without Python files. */
  function MutationStepOf(s: Settings, files: seq<string>, o: StepOutcomes): Step<seq<MutationResult>>
  {
    if StepRuns(s.skipMutations, files) then o.mutations else Ok([])
  }

  /** Step 4: `run_static_analysis` on the changed files. */
  function StaticFindingsOf(files: seq<string>, o: StepOutcomes): seq<StaticFinding>
  {
    if Differ.PythonPaths(files) == [] then [] else StaticAnalysis.BothTools(o.ruff, o.mypy, o.toRelative)
  }

  /** Step 5: the bridge's signals for every changed file. */
  function SignalsFor(files: seq<string>, o: StepOutcomes): SentinelSignals
  {
    Bridge.SignalsOf(Bridge.StoreOf(o.dbExists, o.connection), files, o.workspace)
  }

  /** `_empty_report`. */
  function EmptyArgs(repoPath: string, refBefore: Option<string>, refAfter: Option<string>): ReportArgs
  {
    ReportArgs(repoPath, refBefore, refAfter, [], 100.0, 100.0, 100.0, 100.0, 100.0, [], [], None, NoSignals, None)
  }

  /** The arguments of step 6; the sentinel scores come from `reporter`'s functions. */
  function ArgsOf(s: Settings, repoPath: string, refBefore: Option<string>, refAfter: Option<string>,
                  files: seq<string>, o: StepOutcomes, createdAt: int): Step<ReportArgs>
  {
    match BaselineStepOf(s, repoPath, files, o, createdAt)
    case Raised => Raised
    case Ok(baseline) =>
      match MutationStepOf(s, files, o)
      case Raised => Raised
      case Ok(mutations) => Ok(ArgsWith(s, repoPath, refBefore, refAfter, files, o, baseline, mutations))
  }

  /** The report arguments once the baseline and the mutation steps have given their results. */
  function ArgsWith(s: Settings, repoPath: string, refBefore: Option<string>, refAfter: Option<string>,
                    files: seq<string>, o: StepOutcomes, baseline: Option<BaselineResult>,
                    mutations: seq<MutationResult>): ReportArgs
  {
    var findings := StaticFindingsOf(files, o);
    var py := Differ.PythonPaths(files);
    var signals := SignalsFor(files, o);
    ReportArgs(repoPath, refBefore, refAfter, files,
               if StepRuns(s.skipMutations, files) then o.scoreMutations(mutations) else 100.0,
               StaticAnalysis.ComputeStaticScore(findings, if |py| > 1 then |py| else 1),
               if baseline.Some? then BaselineScoreOf(baseline.value) else 100.0,
               RiskScoreOf(signals, VerdictConstants()).value,
               CoChangeScore(signals, files),
               mutations, findings, baseline, signals, None)
  }

  /** `assess`, with `compute_risk_score` and `compute_co_change_score` taken from `reporter`. */
  function AssessOf(s: Settings, repoPath: string, refBefore: Option<string>, refAfter: Option<string>,
                    files: seq<string>, o: StepOutcomes, id: string, createdAt: int): Step<AssessmentReport>
  {
    if files == [] then Ok(BuildReport(EmptyArgs(repoPath, refBefore, refAfter), VerdictConstants(), id, createdAt))
    else match ArgsOf(s, repoPath, refBefore, refAfter, files, o, createdAt)
      case Raised => Raised
      case Ok(args) => Ok(BuildReport(args, VerdictConstants(), id, createdAt))
  }

  /** The steps before the bridge raise: the baseline's test command or the mutation run. */
  predicate RaisesBeforeBridge(s: Settings, repoPath: string, files: seq<string>, o: StepOutcomes, createdAt: int)
  {
    BaselineStepOf(s, repoPath, files, o, createdAt).Raised? || MutationStepOf(s, files, o).Raised?
  }

  /**
   * `assess` as written: the bridge has no `compute_risk_score`, so once
   * the bridge is reached the AttributeError ends the call (after `close`).
   */
  function AssessAsWritten(s: Settings, repoPath: string, refBefore: Option<string>, refAfter: Option<string>,
                           files: seq<string>, o: StepOutcomes, id: string, createdAt: int): Step<AssessmentReport>
  {
    if files == [] then Ok(BuildReport(EmptyArgs(repoPath, refBefore, refAfter), VerdictConstants(), id, createdAt))
    else Raised
  }

  // ----- properties -----

  /** As written, every assessment with changes raises and nothing reaches the store. */
  lemma AssessAsWrittenRaises(s: Settings, repoPath: string, refBefore: Option<string>, refAfter: Option<string>,
                              files: seq<string>, o: StepOutcomes, id: string, createdAt: int)
    ensures files != [] ==> AssessAsWritten(s, repoPath, refBefore, refAfter, files, o, id, createdAt).Raised?
    ensures files != [] && !RaisesBeforeBridge(s, repoPath, files, o, createdAt) ==>
      AssessOf(s, repoPath, refBefore, refAfter, files, o, id, createdAt).Ok?
  {
  }

  /** With the reporter's risk score the assessment raises only when the baseline or the mutation run does. */
  lemma AssessRaisesOnlyBeforeBridge(s: Settings, repoPath: string, refBefore: Option<string>,
                                     refAfter: Option<string>, files: seq<string>, o: StepOutcomes,
                                     id: string, createdAt: int)
    ensures AssessOf(s, repoPath, refBefore, refAfter, files, o, id, createdAt).Raised?
        <==> files != [] && RaisesBeforeBridge(s, repoPath, files, o, createdAt)
    ensures RiskScoreOf(SignalsFor(files, o), VerdictConstants()).Ok?
  {
  }

  /** An empty diff gives 100 and grade A. */
  lemma EmptyDiffPerfect(s: Settings, repoPath: string, refBefore: Option<string>, refAfter: Option<string>,
                         o: StepOutcomes, id: string, createdAt: int)
    ensures var r := AssessOf(s, repoPath, refBefore, refAfter, [], o, id, createdAt);
      r.Ok? && r.value.overallScore == 100.0 && r.value.overallGrade == A && r.value.filesChanged == []
  {
    PerfectReport(EmptyArgs(repoPath, refBefore, refAfter), VerdictConstants(), id, createdAt);
  }

  /** Without a baseline run the report has no baseline and the baseline score is 100. */
  lemma SkippedBaselineScoresFull(s: Settings, repoPath: string, refBefore: Option<string>,
                                  refAfter: Option<string>, files: seq<string>, o: StepOutcomes, createdAt: int)
    requires !StepRuns(s.skipBaseline, files)
    ensures var a := ArgsOf(s, repoPath, refBefore, refAfter, files, o, createdAt);
      a.Ok? ==> a.value.baseline.None? && a.value.baselineScore == 100.0
  {
  }

  /** A baseline that runs is the modelled `run_baseline`'s, and its flaky tests set the score. */
  lemma BaselineFromRun(s: Settings, repoPath: string, refBefore: Option<string>, refAfter: Option<string>,
                        files: seq<string>, o: StepOutcomes, createdAt: int)
    requires StepRuns(s.skipBaseline, files)
    ensures var a := ArgsOf(s, repoPath, refBefore, refAfter, files, o, createdAt);
      a.Ok? ==> && a.value.baseline
                  == Some(Baseline.BaselineOf(repoPath, s.testCmd, s.baselineRuns, o.testRun, o.baselineId, createdAt).value)
                && a.value.baselineScore == BaselineScoreOf(a.value.baseline.value)
                && a.value.baseline.value.runCount == s.baselineRuns
                && a.value.baseline.value.id == o.baselineId
  {
    var b := Baseline.BaselineOf(repoPath, s.testCmd, s.baselineRuns, o.testRun, o.baselineId, createdAt);
    if b.Ok? {
      Baseline.BaselineFields(repoPath, s.testCmd, s.baselineRuns, o.testRun, o.baselineId, createdAt);
    }
  }

  /**
   * The static score divides by at least one file, so it is always in
   * [0, 100], and it is 100 when no Python file changed.
   */
  lemma StaticScoreBounded(s: Settings, repoPath: string, refBefore: Option<string>, refAfter: Option<string>,
                           files: seq<string>, o: StepOutcomes, createdAt: int)
    ensures var a := ArgsOf(s, repoPath, refBefore, refAfter, files, o, createdAt);
      a.Ok? ==> (0.0 <= a.value.staticScore <= 100.0
                 && (Differ.PythonPaths(files) == [] ==> a.value.staticScore == 100.0 && a.value.staticFindings == []))
  {
  }

  /** No evaluated set is passed, so all five dimensions count, skipped ones at 100 included. */
  lemma AllFiveCount(s: Settings, repoPath: string, refBefore: Option<string>, refAfter: Option<string>,
                     files: seq<string>, o: StepOutcomes, id: string, createdAt: int)
    ensures var r := AssessOf(s, repoPath, refBefore, refAfter, files, o, id, createdAt);
      r.Ok? ==> |r.value.dimensions| == 5 && forall i :: 0 <= i < 5 ==> r.value.dimensions[i].evaluated
  {
    if files == [] {
      ReportAllEvaluated(EmptyArgs(repoPath, refBefore, refAfter), VerdictConstants(), id, createdAt);
    } else {
      match ArgsOf(s, repoPath, refBefore, refAfter, files, o, createdAt)
      case Raised =>
      case Ok(args) =>
        assert args.evaluatedDimensions.None?;
        ReportAllEvaluated(args, VerdictConstants(), id, createdAt);
    }
  }

  /** Scores from a mutation scorer within [0, 100] and non-negative churn keep the overall score within [0, 100]. */
  lemma OverallBounded(s: Settings, repoPath: string, refBefore: Option<string>, refAfter: Option<string>,
                       files: seq<string>, o: StepOutcomes, id: string, createdAt: int)
    requires forall m :: 0.0 <= o.scoreMutations(m) <= 100.0
    requires forall i :: 0 <= i < |SignalsFor(files, o).hotFiles| ==> SignalsFor(files, o).hotFiles[i].churnScore >= 0.0
    ensures var r := AssessOf(s, repoPath, refBefore, refAfter, files, o, id, createdAt);
      r.Ok? ==> 0.0 <= r.value.overallScore <= 100.0
  {
    var a := ArgsOf(s, repoPath, refBefore, refAfter, files, o, createdAt);
    if files == [] {
      EmptyDiffPerfect(s, repoPath, refBefore, refAfter, o, id, createdAt);
    } else if a.Ok? {
      ArgsInRange(s, repoPath, refBefore, refAfter, files, o, createdAt);
      var w := ModuleWeights;
      assert WeightList(VerdictConstants().weights) == [w.mutation, w.staticAnalysis, w.baseline, w.sentinelRisk, w.coChange];
      ReportOverallInRange(a.value, VerdictConstants(), id, createdAt);
    }
  }

  lemma ArgsInRange(s: Settings, repoPath: string, refBefore: Option<string>, refAfter: Option<string>,
                    files: seq<string>, o: StepOutcomes, createdAt: int)
    requires forall m :: 0.0 <= o.scoreMutations(m) <= 100.0
    requires forall i :: 0 <= i < |SignalsFor(files, o).hotFiles| ==> SignalsFor(files, o).hotFiles[i].churnScore >= 0.0
    ensures var a := ArgsOf(s, repoPath, refBefore, refAfter, files, o, createdAt);
      a.Ok? ==> forall i :: 0 <= i < 5 ==> 0.0 <= a.value.Raws()[i] <= 100.0
  {
    match BaselineStepOf(s, repoPath, files, o, createdAt)
    case Raised =>
    case Ok(baseline) =>
      match MutationStepOf(s, files, o)
      case Raised =>
      case Ok(mutations) =>
        ArgsWithInRange(s, repoPath, refBefore, refAfter, files, o, baseline, mutations);
  }

  lemma ArgsWithInRange(s: Settings, repoPath: string, refBefore: Option<string>, refAfter: Option<string>,
                        files: seq<string>, o: StepOutcomes, baseline: Option<BaselineResult>,
                        mutations: seq<MutationResult>)
    requires forall m :: 0.0 <= o.scoreMutations(m) <= 100.0
    requires forall i :: 0 <= i < |SignalsFor(files, o).hotFiles| ==> SignalsFor(files, o).hotFiles[i].churnScore >= 0.0
    ensures forall i :: 0 <= i < 5 ==> 0.0 <= ArgsWith(s, repoPath, refBefore, refAfter, files, o, baseline, mutations).Raws()[i] <= 100.0
  {
    var args := ArgsWith(s, repoPath, refBefore, refAfter, files, o, baseline, mutations);
    RiskScoreBounded(SignalsFor(files, o), VerdictConstants());
    assert 0.0 <= args.mutationScore <= 100.0 && 0.0 <= args.staticScore <= 100.0;
  }

  /** `mutate_only`: without Python files the mutation list is empty and only it is scored. */
  function MutateOnlyOf(repoPath: string, refBefore: Option<string>, refAfter: Option<string>, files: seq<string>,
                        o: StepOutcomes, id: string, createdAt: int): Step<AssessmentReport>
  {
    var run := if Differ.PythonPaths(files) != [] then o.mutations else Ok([]);
    match run
    case Raised => Raised
    case Ok(mutations) =>
      Ok(BuildReport(ReportArgs(repoPath, refBefore, refAfter, files, o.scoreMutations(mutations), 100.0, 100.0,
                                100.0, 100.0, mutations, [], None, NoSignals, None),
                     VerdictConstants(), id, createdAt))
  }

  /** Without Python files `mutate_only` scores the empty list and never raises. */
  lemma MutateOnlyWithoutPython(repoPath: string, refBefore: Option<string>, refAfter: Option<string>,
                                files: seq<string>, o: StepOutcomes, id: string, createdAt: int)
    requires Differ.PythonPaths(files) == []
    ensures var r := MutateOnlyOf(repoPath, refBefore, refAfter, files, o, id, createdAt);
      r.Ok? && r.value.mutations == [] && r.value.mutationScore == o.scoreMutations([])
      && r.value.dimensions[0].evaluated
  {
  }

  // ----- the engine -----

  class VerdictEngine {
    const store: Store.VerdictStore
    const settings: Settings

    constructor (store: Store.VerdictStore, settings: Settings)
      ensures this.store == store && this.settings == settings
    {
      this.store := store;
      this.settings := settings;
    }

    /**
     * `assess`. The report is saved unless the diff is empty or a step
     * raised; a bridge, once opened, is closed on every path. The report's
     * id must be new to the store, and so must the baseline's when one runs.
     */
    method Assess(repoPath: string, refBefore: Option<string>, refAfter: Option<string>, files: seq<string>,
                  o: StepOutcomes, id: string, createdAt: int) returns (r: Step<AssessmentReport>, bridge: Bridge.SentinelBridge?)
      requires !Store.KnownAssessment(store.assessments, id)
      requires StepRuns(settings.skipBaseline, files) ==> !Store.KnownBaseline(store.baselines, o.baselineId)
      modifies store
      ensures r == AssessOf(settings, repoPath, refBefore, refAfter, files, o, id, createdAt)
      ensures store.Contents()
           == if files != [] && r.Ok? then Store.Saved(old(store.Contents()), r.value) else old(store.Contents())
      ensures store.schemaVersion == old(store.schemaVersion) && store.migrationLog == old(store.migrationLog)
      ensures bridge == null <==> files == [] || RaisesBeforeBridge(settings, repoPath, files, o, createdAt)
      ensures bridge != null ==> fresh(bridge) && bridge.store.None? && !bridge.available
    {
      if files == [] {
        return Ok(BuildReport(EmptyArgs(repoPath, refBefore, refAfter), VerdictConstants(), id, createdAt)), null;
      }
      var args;
      args, bridge := PrepareArgs(repoPath, refBefore, refAfter, files, o, createdAt);
      if args.Raised? {
        return Raised, bridge;
      }
      // Steps 6 and 7: report and persist
      var report := BuildReport(args.value, VerdictConstants(), id, createdAt);
      if StepRuns(settings.skipBaseline, files) {
        BaselineFromRun(settings, repoPath, refBefore, refAfter, files, o, createdAt);
      } else {
        SkippedBaselineScoresFull(settings, repoPath, refBefore, refAfter, files, o, createdAt);
      }
      store.SaveAssessment(report);
      r := Ok(report);
    }

    /** Steps 2 to 5 of `assess`, for a non-empty diff. */
    method PrepareArgs(repoPath: string, refBefore: Option<string>, refAfter: Option<string>, files: seq<string>,
                       o: StepOutcomes, createdAt: int) returns (args: Step<ReportArgs>, bridge: Bridge.SentinelBridge?)
      ensures args == ArgsOf(settings, repoPath, refBefore, refAfter, files, o, createdAt)
      ensures bridge == null <==> RaisesBeforeBridge(settings, repoPath, files, o, createdAt)
      ensures bridge != null ==> fresh(bridge) && bridge.store.None? && !bridge.available
    {
      var py := Differ.PythonPaths(files);

      // Step 2: baseline
      var step := BaselineStep(settings, repoPath, files, o, createdAt);
      if step.Raised? {
        return Raised, null;
      }
      var baseline := step.value;
      var baselineScore := if baseline.Some? then BaselineScoreOf(baseline.value) else 100.0;

      // Step 3: mutation
      var mutations: seq<MutationResult> := [];
      var mutationScore := 100.0;
      if !settings.skipMutations && py != [] {
        if o.mutations.Raised? {
          return Raised, null;
        }
        mutations := o.mutations.value;
        mutationScore := o.scoreMutations(mutations);
      }
      assert MutationStepOf(settings, files, o) == Ok(mutations);

      // Step 4: static analysis
      var findings := StaticAnalysis.RunStaticVerdict(files, o.ruff, o.mypy, o.toRelative);
      var staticScore := StaticAnalysis.ComputeStaticScore(findings, if |py| > 1 then |py| else 1);

      // Step 5: sentinel, closing the bridge whatever happens
      var signals, risk, coChange;
      signals, risk, coChange, bridge := SentinelStep(repoPath, files, o);

      args := Ok(ReportArgs(repoPath, refBefore, refAfter, files, mutationScore, staticScore, baselineScore,
                            risk, coChange, mutations, findings, baseline, signals, None));
    }

    /** Step 2: `run_baseline` unless skipped or no Python file changed. */
    static method BaselineStep(settings: Settings, repoPath: string, files: seq<string>, o: StepOutcomes, createdAt: int)
      returns (step: Step<Option<BaselineResult>>)
      ensures step == BaselineStepOf(settings, repoPath, files, o, createdAt)
    {
      if !settings.skipBaseline && Differ.PythonPaths(files) != [] {
        var run := Baseline.RunBaseline(repoPath, settings.testCmd, settings.baselineRuns, o.testRun, o.baselineId, createdAt);
        if run.Raised? {
          return Raised;
        }
        return Ok(Some(run.value));
      }
      return Ok(None);
    }

    /** Step 5: open the bridge, read the signals, score them, close the bridge. */
    static method SentinelStep(repoPath: string, files: seq<string>, o: StepOutcomes)
      returns (signals: SentinelSignals, risk: real, coChange: real, bridge: Bridge.SentinelBridge)
      ensures signals == SignalsFor(files, o)
      ensures risk == RiskScoreOf(signals, VerdictConstants()).value
      ensures coChange == CoChangeScore(signals, files)
      ensures fresh(bridge) && bridge.store.None? && !bridge.available
    {
      bridge := new Bridge.SentinelBridge(repoPath, o.dbExists, o.connection);
      signals := bridge.GetRiskSignals(files, o.workspace);
      var score := RiskScore(signals, VerdictConstants());
      risk := score.value;
      coChange := CoChangeScore(signals, files);
      bridge.Close();
    }

    /** `mutate_only`: the report is saved unless the mutation run raises. */
    method MutateOnly(repoPath: string, refBefore: Option<string>, refAfter: Option<string>, files: seq<string>,
                      o: StepOutcomes, id: string, createdAt: int) returns (r: Step<AssessmentReport>)
      requires !Store.KnownAssessment(store.assessments, id)
      modifies store
      ensures r == MutateOnlyOf(repoPath, refBefore, refAfter, files, o, id, createdAt)
      ensures store.Contents() == if r.Ok? then Store.Saved(old(store.Contents()), r.value) else old(store.Contents())
      ensures store.schemaVersion == old(store.schemaVersion) && store.migrationLog == old(store.migrationLog)
    {
      var mutations: seq<MutationResult> := [];
      if Differ.PythonPaths(files) != [] {
        if o.mutations.Raised? {
          return Raised;
        }
        mutations := o.mutations.value;
      }
      var report := BuildReport(ReportArgs(repoPath, refBefore, refAfter, files, o.scoreMutations(mutations),
                                           100.0, 100.0, 100.0, 100.0, mutations, [], None, NoSignals, None),
                                VerdictConstants(), id, createdAt);
      store.SaveAssessment(report);
      r := Ok(report);
    }
  }
}
