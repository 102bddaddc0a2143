/**
 * The records the pipeline passes around and persists. Identifiers and
 * timestamps, which the dataclasses draw from `uuid4` and the clock, are
 * ordinary fields here and are supplied by the caller; timestamps are
 * integers.
 */
module Models {
  import opened Outcomes
  import opened Enums

  /** One mutant and its outcome (its own uuid and timestamp are not modelled). */
  datatype MutationResult = MutationResult(
    assessmentId: string,
    filePath: string,
    mutantId: string,
    operator: string,
    lineNumber: Option<int>,
    status: MutantStatus)

  datatype StaticFinding = StaticFinding(
    filePath: string,
    lineNumber: int,
    column: int,
    code: string,
    message: string,
    severity: Severity,
    analyzer: AnalyzerType)

  datatype BaselineResult = BaselineResult(
    id: string,
    repoPath: string,
    testCmd: string,
    runCount: int,
    flakyTests: seq<string>,
    passRate: real,
    createdAt: int)

  datatype PitfallMatch = PitfallMatch(
    pitfallId: string,
    description: string,
    severity: string,
    howToPrevent: string,
    matchedFile: string,
    matchType: string)

  datatype HotFileInfo = HotFileInfo(
    filePath: string,
    churnScore: real,
    changeCount: int,
    bugFixCount: int,
    revertCount: int)

  datatype MissingCoChange = MissingCoChange(
    sourceFile: string,
    partnerFile: string,
    changeCount: int)

  datatype SentinelSignals = SentinelSignals(
    available: bool,
    pitfallMatches: seq<PitfallMatch>,
    hotFiles: seq<HotFileInfo>,
    missingCoChanges: seq<MissingCoChange>)

  /** `SentinelSignals()`: the defaults, with nothing available. */
  const NoSignals := SentinelSignals(false, [], [], [])

  datatype DimensionScore = DimensionScore(
    name: string,
    rawScore: real,
    weight: real,
    weightedScore: real,
    grade: Grade,
    details: string,
    evaluated: bool)

  /**
   * One "needs attention" entry; the source renders it as
   * "name: grade (raw%) — details".
   */
  datatype Gap = Gap(name: string, grade: Grade, rawScore: real, details: string)

  datatype AssessmentReport = AssessmentReport(
    id: string,
    repoPath: string,
    refBefore: Option<string>,
    refAfter: Option<string>,
    filesChanged: seq<string>,
    dimensions: seq<DimensionScore>,
    overallScore: real,
    overallGrade: Grade,
    mutationScore: real,
    staticIssues: int,
    sentinelWarnings: int,
    baselineFlaky: int,
    gaps: seq<Gap>,
    mutations: seq<MutationResult>,
    staticFindings: seq<StaticFinding>,
    baseline: Option<BaselineResult>,
    sentinelSignals: SentinelSignals,
    createdAt: int)

  // ----- rows as the store returns them -----

  datatype StoredAssessment = StoredAssessment(
    id: string,
    repoPath: string,
    refBefore: Option<string>,
    refAfter: Option<string>,
    filesChanged: seq<string>,
    mutationScore: Option<real>,
    staticIssues: Option<int>,
    sentinelWarnings: Option<int>,
    baselineFlaky: int,
    grade: string,
    createdAt: int)

  datatype StoredMutation = StoredMutation(
    assessmentId: string,
    filePath: string,
    mutantId: string,
    operator: string,
    lineNumber: Option<int>,
    status: string)

  datatype StoredBaseline = StoredBaseline(
    id: string,
    repoPath: string,
    testCmd: string,
    runCount: int,
    flakyTests: seq<string>,
    passRate: Option<real>,
    createdAt: int)

  datatype StoredFeedback = StoredFeedback(
    id: string,
    assessmentId: string,
    outcome: string,
    context: string,
    createdAt: int)

  datatype Feedback = Feedback(
    id: string,
    assessmentId: string,
    outcome: FeedbackOutcome,
    context: string,
    createdAt: int)
}
