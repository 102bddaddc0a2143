/**
 * The enumerations shared by both packages, and the grade thresholds:
 * `seraph` grades against a configurable 4-tuple, `verdict` against fixed
 * constants.
 */
module Enums {
  import opened Outcomes

  datatype Grade = A | B | C | D | F
  {
    /** The enum's string value. */
    function Value(): string
    {
      match this
      case A => "A"
      case B => "B"
      case C => "C"
      case D => "D"
      case F => "F"
    }

    /** 4 for A down to 0 for F: a larger rank is a better grade. */
    function Rank(): nat
    {
      match this
      case A => 4
      case B => 3
      case C => 2
      case D => 1
      case F => 0
    }
  }

  datatype Severity = Critical | High | Medium | Low | Info
  {
    function Value(): string
    {
      match this
      case Critical => "critical"
      case High => "high"
      case Medium => "medium"
      case Low => "low"
      case Info => "info"
    }
  }

  datatype AnalyzerType = Ruff | Mypy
  {
    function Value(): string
    {
      match this
      case Ruff => "ruff"
      case Mypy => "mypy"
    }
  }

  datatype FeedbackOutcome = Accepted | Rejected | Modified
  {
    function Value(): string
    {
      match this
      case Accepted => "accepted"
      case Rejected => "rejected"
      case Modified => "modified"
    }
  }

  datatype MutantStatus = Killed | Survived | Timeout | Error | Skipped
  {
    function Value(): string
    {
      match this
      case Killed => "killed"
      case Survived => "survived"
      case Timeout => "timeout"
      case Error => "error"
      case Skipped => "skipped"
    }
  }

  /** The (A, B, C, D) lower bounds. */
  datatype Thresholds = Thresholds(a: real, b: real, c: real, d: real)

  const DefaultThresholds := Thresholds(90.0, 75.0, 60.0, 40.0)

  // ----- seraph: configurable thresholds -----

  /**
   * `Grade.from_score(score, thresholds)`: the first bound the score reaches,
   * in the order A, B, C, D; F below all four. `None` means the defaults.
   */
  function FromScore(score: real, thresholds: Option<Thresholds>): (g: Grade)
    ensures var t := thresholds.GetOr(DefaultThresholds);
      (g == A <==> score >= t.a)
      && (g == F <==> score < t.a && score < t.b && score < t.c && score < t.d)
  {
    var t := thresholds.GetOr(DefaultThresholds);
    if score >= t.a then A
    else if score >= t.b then B
    else if score >= t.c then C
    else if score >= t.d then D
    else F
  }

  /** With no thresholds given the bounds are 90, 75, 60 and 40. */
  lemma NoneMeansDefaults(score: real)
    ensures FromScore(score, None) == FromScore(score, Some(DefaultThresholds))
  {
  }

  /** A score exactly on a bound gets that bound's grade (bounds in decreasing order). */
  lemma BoundsInclusive(t: Thresholds)
    requires t.a > t.b > t.c > t.d
    ensures FromScore(t.a, Some(t)) == A
    ensures FromScore(t.b, Some(t)) == B
    ensures FromScore(t.c, Some(t)) == C
    ensures FromScore(t.d, Some(t)) == D
  {
  }

  lemma DefaultBoundsInclusive()
    ensures FromScore(90.0, None) == A && FromScore(75.0, None) == B
    ensures FromScore(60.0, None) == C && FromScore(40.0, None) == D
  {
    BoundsInclusive(DefaultThresholds);
  }

  /** Below the fourth bound (and the others, when they are ordered) the grade is F. */
  lemma BelowFourthIsF(score: real, t: Thresholds)
    requires t.a >= t.b >= t.c >= t.d && score < t.d
    ensures FromScore(score, Some(t)) == F
  {
  }

  /** For any fixed thresholds a higher score never gets a worse grade. */
  lemma FromScoreMonotone(s1: real, s2: real, thresholds: Option<Thresholds>)
    requires s1 <= s2
    ensures FromScore(s1, thresholds).Rank() <= FromScore(s2, thresholds).Rank()
  {
  }

  // ----- verdict: fixed thresholds -----

  /** `verdict`'s `Grade.from_score(score)`. */
  function FromScoreFixed(score: real): (g: Grade)
  {
    if score >= 90.0 then A
    else if score >= 75.0 then B
    else if score >= 60.0 then C
    else if score >= 40.0 then D
    else F
  }

  /** Each grade covers exactly one band of scores. */
  lemma FixedBands(score: real)
    ensures FromScoreFixed(score) == A <==> score >= 90.0
    ensures FromScoreFixed(score) == B <==> 75.0 <= score < 90.0
    ensures FromScoreFixed(score) == C <==> 60.0 <= score < 75.0
    ensures FromScoreFixed(score) == D <==> 40.0 <= score < 60.0
    ensures FromScoreFixed(score) == F <==> score < 40.0
  {
  }

  /** The fixed chain is the configurable one with default thresholds. */
  lemma FixedIsDefault(score: real)
    ensures FromScoreFixed(score) == FromScore(score, None)
  {
  }

  lemma FromScoreFixedMonotone(s1: real, s2: real)
    requires s1 <= s2
    ensures FromScoreFixed(s1).Rank() <= FromScoreFixed(s2).Rank()
  {
    FixedIsDefault(s1);
    FixedIsDefault(s2);
    FromScoreMonotone(s1, s2, None);
  }
}
