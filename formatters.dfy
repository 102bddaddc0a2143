/**
 * `verdict`'s text output for clients that are language models. Each formatter
 * assembles lines and joins them, and the result is cut to a budget of
 * 16,000 characters. Dictionary lookups with a default are `Option` fields
 * read with `GetOr`; how a float or a timestamp prints is a parameter.
 */
module Formatters {
  import opened Outcomes
  import opened Text
  import opened Enums
  import opened Models
  import opened Ordering

  /** About 4K tokens. */
  const MaxOutputChars := 16000

  const TruncationNotice := "... (output truncated)"

  // ----- the output budget -----

  /** `_truncate`: text within the budget is kept; longer text keeps its first 15,950 characters and a notice. */
  function Truncate(text: string): (r: string)
    ensures |text| <= MaxOutputChars ==> r == text
    ensures |text| > MaxOutputChars ==>
      r == text[..MaxOutputChars - 50] + "\n\n" + TruncationNotice && EndsWith(r, TruncationNotice)
    ensures |r| <= MaxOutputChars
  {
    if |text| <= MaxOutputChars then text
    else
      var r := text[..MaxOutputChars - 50] + "\n\n" + TruncationNotice;
      assert r[|r| - |TruncationNotice|..] == TruncationNotice;
      r
  }

  /** Cutting twice cuts no more than once. */
  lemma TruncateIdempotent(text: string)
    ensures Truncate(Truncate(text)) == Truncate(text)
  {
  }

  /** A truncated text is a prefix of the original followed by the notice. */
  lemma TruncateKeepsPrefix(text: string)
    ensures StartsWith(text, Truncate(text)) || (StartsWith(Truncate(text), text[..MaxOutputChars - 50]) && |text| > MaxOutputChars)
  {
    if |text| > MaxOutputChars {
      var r := Truncate(text);
      assert r[..MaxOutputChars - 50] == text[..MaxOutputChars - 50];
    }
  }

  /** The first `cap` lines, then one line counting the rest. */
  function Capped(lines: seq<string>, cap: nat): seq<string>
  {
    if |lines| <= cap then lines
    else lines[..cap] + ["- ... and " + IntToString(|lines| - cap) + " more"]
  }

  /** A capped list shows at most `cap` of the lines, in order, and counts exactly the ones it leaves out. */
  lemma CappedShape(lines: seq<string>, cap: nat)
    ensures |Capped(lines, cap)| <= cap + 1
    ensures |lines| <= cap ==> Capped(lines, cap) == lines
    ensures |lines| > cap ==> (Capped(lines, cap)[..cap] == lines[..cap]
      && Capped(lines, cap)[cap] == "- ... and " + IntToString(|lines| - cap) + " more")
  {
  }

  /** The loop `for x in items[:cap]` followed by the "more" line. */
  method ListCapped(lines: seq<string>, cap: nat) returns (out: seq<string>)
    ensures out == Capped(lines, cap)
  {
    out := [];
    var n := if |lines| < cap then |lines| else cap;
    var i := 0;
    while i < n
      invariant 0 <= i <= n
      invariant out == lines[..i]
    {
      out := out + [lines[i]];
      i := i + 1;
    }
    if |lines| > cap {
      out := out + ["- ... and " + IntToString(|lines| - cap) + " more"];
    }
  }

  function Bullets(items: seq<string>): (r: seq<string>)
    ensures |r| == |items| && forall k :: 0 <= k < |items| ==> r[k] == "- " + items[k]
  {
    seq(|items|, k requires 0 <= k < |items| => "- " + items[k])
  }

  // ----- format_assessment -----

  /** A dimension as the report dictionary holds it; each key may be absent. */
  datatype DimensionView = DimensionView(
    name: Option<string>,
    grade: Option<string>,
    rawScore: Option<string>,
    details: Option<string>,
    evaluated: Option<bool>)

  /** The report dictionary, its values already in their printed form. */
  datatype ReportView = ReportView(
    overallGrade: Option<string>,
    overallScore: Option<string>,
    filesChanged: Option<seq<string>>,
    dimensions: Option<seq<DimensionView>>,
    gaps: Option<seq<string>>,
    id: Option<string>,
    createdAt: Option<string>)

  /** One dimension: its grade, score and details, or "N/A" when it was not evaluated. */
  function DimensionLine(d: DimensionView): string
  {
    var name := d.name.GetOr("?");
    if d.evaluated.GetOr(true) then
      "- **" + name + "**: " + d.grade.GetOr("?") + " (" + d.rawScore.GetOr("?") + "%) — " + d.details.GetOr("")
    else "- **" + name + "**: N/A (not evaluated)"
  }

  /** A dimension that does not say whether it was evaluated is shown as evaluated. */
  lemma MissingEvaluatedIsTrue(d: DimensionView)
    requires d.evaluated.None?
    ensures DimensionLine(d) == DimensionLine(d.(evaluated := Some(true)))
  {
  }

  function DimensionLines(dims: seq<DimensionView>): (r: seq<string>)
    ensures |r| == |dims| && forall k :: 0 <= k < |dims| ==> r[k] == DimensionLine(dims[k])
  {
    seq(|dims|, k requires 0 <= k < |dims| => DimensionLine(dims[k]))
  }

  function GapSection(gaps: seq<string>): seq<string>
  {
    if |gaps| == 0 then [] else ["### Gaps (Need Attention)"] + Bullets(gaps) + [""]
  }

  /** The changed files: at most 20, then a count of the rest. */
  function FileSection(files: seq<string>): seq<string>
  {
    if |files| == 0 then [] else ["### Changed Files"] + Capped(Bullets(files), 20) + [""]
  }

  function AssessmentHead(v: ReportView): seq<string>
  {
    ["## Verdict Assessment: " + v.overallGrade.GetOr("?"),
     "Score: " + v.overallScore.GetOr("0") + "/100",
     "Files: " + IntToString(|v.filesChanged.GetOr([])|),
     "",
     "### Dimensions"]
  }

  function AssessmentLines(v: ReportView): seq<string>
  {
    AssessmentHead(v)
    + DimensionLines(v.dimensions.GetOr([])) + [""]
    + GapSection(v.gaps.GetOr([]))
    + FileSection(v.filesChanged.GetOr([]))
    + ["ID: " + v.id.GetOr("?"), "Created: " + v.createdAt.GetOr("?")]
  }

  /** The loop over the dimensions. */
  method ListDimensions(dims: seq<DimensionView>) returns (lines: seq<string>)
    ensures lines == DimensionLines(dims)
  {
    lines := [];
    var i := 0;
    while i < |dims|
      invariant 0 <= i <= |dims|
      invariant lines == DimensionLines(dims[..i])
    {
      lines := lines + [DimensionLine(dims[i])];
      i := i + 1;
    }
    assert dims[..i] == dims;
  }

  /** The gaps section, present only when there are gaps. */
  method ListGaps(gaps: seq<string>) returns (lines: seq<string>)
    ensures lines == GapSection(gaps)
  {
    if |gaps| == 0 {
      return [];
    }
    lines := ["### Gaps (Need Attention)"];
    var j := 0;
    while j < |gaps|
      invariant 0 <= j <= |gaps|
      invariant lines == ["### Gaps (Need Attention)"] + Bullets(gaps[..j])
    {
      lines := lines + ["- " + gaps[j]];
      j := j + 1;
    }
    assert gaps[..j] == gaps;
    lines := lines + [""];
  }

  /** `format_assessment`. */
  method FormatAssessment(v: ReportView) returns (out: string)
    ensures out == Truncate(Join(AssessmentLines(v), "\n"))
  {
    var files := v.filesChanged.GetOr([]);
    var lines := AssessmentHead(v);
    var dimLines := ListDimensions(v.dimensions.GetOr([]));
    lines := lines + dimLines + [""];
    var gapLines := ListGaps(v.gaps.GetOr([]));
    lines := lines + gapLines;
    var fileLines: seq<string> := [];
    if |files| > 0 {
      var listed := ListCapped(Bullets(files), 20);
      fileLines := ["### Changed Files"] + listed + [""];
    }
    lines := lines + fileLines;
    lines := lines + ["ID: " + v.id.GetOr("?"), "Created: " + v.createdAt.GetOr("?")];
    out := Truncate(Join(lines, "\n"));
  }

  /** At most 20 changed files are listed; the "more" line accounts for all the others. */
  lemma FileSectionCapped(files: seq<string>)
    ensures |FileSection(files)| <= 23
    ensures |files| <= 20 ==> FileSection(files) == (if files == [] then [] else ["### Changed Files"] + Bullets(files) + [""])
    ensures |files| > 20 ==> FileSection(files)[21] == "- ... and " + IntToString(|files| - 20) + " more"
  {
    CappedShape(Bullets(files), 20);
  }

  // ----- format_history -----

  /** How a float and a stored timestamp print. */
  datatype Renderer = Renderer(showReal: real -> string, showTime: int -> string)

  function MutationDisplay(a: StoredAssessment, show: Renderer): string
  {
    match a.mutationScore
    case Some(x) => show.showReal(x) + "%"
    case None => "?%"
  }

  function StaticDisplay(a: StoredAssessment): string
  {
    match a.staticIssues
    case Some(n) => IntToString(n) + " issues"
    case None => "? issues"
  }

  function OrUnknown(s: string): string
  {
    if s == "" then "?" else s
  }

  /** One history row: grade, mutation score, static issues, file count, time and the id's first 8 characters. */
  function HistoryLine(a: StoredAssessment, show: Renderer): string
  {
    "- **" + OrUnknown(a.grade) + "** | "
    + "mutation=" + MutationDisplay(a, show) + " | "
    + "static=" + StaticDisplay(a) + " | "
    + IntToString(|a.filesChanged|) + " files | "
    + OrUnknown(show.showTime(a.createdAt)) + " | "
    + "id=" + (if a.id != "" then a.id[..if |a.id| < 8 then |a.id| else 8] else "?")
  }

  function HistoryLines(assessments: seq<StoredAssessment>, show: Renderer): (r: seq<string>)
    ensures |r| == |assessments| && forall k :: 0 <= k < |assessments| ==> r[k] == HistoryLine(assessments[k], show)
  {
    seq(|assessments|, k requires 0 <= k < |assessments| => HistoryLine(assessments[k], show))
  }

  function HistoryText(assessments: seq<StoredAssessment>, show: Renderer): string
  {
    if |assessments| == 0 then "No assessments found."
    else
      Truncate(Join(["## Assessment History (" + IntToString(|assessments|) + " results)", ""]
                    + HistoryLines(assessments, show), "\n"))
  }

  /** The loop over the assessments. */
  method ListHistory(assessments: seq<StoredAssessment>, show: Renderer) returns (lines: seq<string>)
    ensures lines == HistoryLines(assessments, show)
  {
    lines := [];
    var i := 0;
    while i < |assessments|
      invariant 0 <= i <= |assessments|
      invariant |lines| == i
      invariant forall k :: 0 <= k < i ==> lines[k] == HistoryLine(assessments[k], show)
    {
      lines := lines + [HistoryLine(assessments[i], show)];
      i := i + 1;
    }
  }

  /** `format_history`. */
  method FormatHistory(assessments: seq<StoredAssessment>, show: Renderer) returns (out: string)
    ensures out == HistoryText(assessments, show)
    ensures assessments == [] ==> out == "No assessments found."
  {
    if |assessments| == 0 {
      return "No assessments found.";
    }
    var rows := ListHistory(assessments, show);
    var lines := ["## Assessment History (" + IntToString(|assessments|) + " results)", ""] + rows;
    out := Truncate(Join(lines, "\n"));
  }

  lemma SuffixDiffers(d: string, p: string, q: string)
    requires d != p
    ensures d + q != p + q
  {
    if |d| == |p| {
      var k :| 0 <= k < |d| && d[k] != p[k];
      assert (d + q)[k] == d[k] && (p + q)[k] == p[k];
    } else {
      assert |d + q| != |p + q|;
    }
  }

  lemma IntToStringNotUnknown(n: int)
    ensures |IntToString(n)| > 0 && IntToString(n)[0] != '?'
  {
    if n >= 0 {
      assert IsDigit(NatToString(n)[0]);
    }
  }

  /**
   * Only a missing value is shown as "?": a zero mutation score or a zero
   * issue count is printed, provided the float printer never prints "?".
   */
  lemma OnlyMissingIsUnknown(a: StoredAssessment, show: Renderer)
    requires forall x :: show.showReal(x) != "?"
    ensures MutationDisplay(a, show) == "?%" <==> a.mutationScore.None?
    ensures StaticDisplay(a) == "? issues" <==> a.staticIssues.None?
  {
    if a.mutationScore.Some? {
      var x: real := a.mutationScore.value;
      var d := show.showReal(x);
      assert d != "?";
      SuffixDiffers(d, "?", "%");
    }
    if a.staticIssues.Some? {
      var s := IntToString(a.staticIssues.value);
      IntToStringNotUnknown(a.staticIssues.value);
      assert s != "?";
      SuffixDiffers(s, "?", " issues");
    }
  }

  lemma ZeroIssuesShown(a: StoredAssessment)
    requires a.staticIssues == Some(0)
    ensures StaticDisplay(a) == "0 issues"
  {
    assert IntToString(0) == "0";
  }

  // ----- format_mutations -----

  /** `m.line_number or '?'`: a missing line and line 0 both print as "?". */
  function LineText(n: Option<int>): (r: string)
    ensures r == "?" <==> n.None? || n == Some(0)
  {
    match n
    case Some(k) =>
      if k == 0 then "?"
      else
        IntToStringNotUnknown(k);
        IntToString(k)
    case None => "?"
  }

  function MutationLine(m: MutationResult): string
  {
    "- " + m.filePath + ":" + LineText(m.lineNumber) + " [" + m.operator + "]"
  }

  function MutationLines(muts: seq<MutationResult>): (r: seq<string>)
    ensures |r| == |muts| && forall k :: 0 <= k < |muts| ==> r[k] == MutationLine(muts[k])
  {
    seq(|muts|, k requires 0 <= k < |muts| => MutationLine(muts[k]))
  }

  /** `by_status[s]`: the mutations with status `s`, in their order. */
  function Group(muts: seq<MutationResult>, s: MutantStatus): seq<MutationResult>
  {
    if |muts| == 0 then []
    else Group(muts[..|muts| - 1], s) + (if muts[|muts| - 1].status == s then [muts[|muts| - 1]] else [])
  }

  /** `status.title()` of a status value. */
  function Title(s: MutantStatus): (r: string)
    ensures |r| == |s.Value()| && r[1..] == s.Value()[1..] && r[0] == UpperChar(s.Value()[0])
  {
    var v := s.Value();
    [UpperChar(v[0])] + v[1..]
  }

  /** The statuses in the order `sorted` puts their values. */
  const StatusOrder: seq<MutantStatus> := [Error, Killed, Skipped, Survived, Timeout]

  function StatusValues(statuses: seq<MutantStatus>): (r: seq<string>)
    ensures |r| == |statuses| && forall k :: 0 <= k < |statuses| ==> r[k] == statuses[k].Value()
  {
    seq(|statuses|, k requires 0 <= k < |statuses| => statuses[k].Value())
  }

  /** Every status appears once in `StatusOrder`, and their values are in increasing string order. */
  lemma StatusOrderSorted()
    ensures forall s: MutantStatus :: s in StatusOrder
    ensures StrictlySorted(StatusValues(StatusOrder))
  {
    forall s: MutantStatus
      ensures s in StatusOrder
    {
      match s
      case Error => assert StatusOrder[0] == s;
      case Killed => assert StatusOrder[1] == s;
      case Skipped => assert StatusOrder[2] == s;
      case Survived => assert StatusOrder[3] == s;
      case Timeout => assert StatusOrder[4] == s;
    }
    var v := StatusValues(StatusOrder);
    assert v == ["error", "killed", "skipped", "survived", "timeout"];
    assert StrLt("skipped", "survived") by {
      assert "skipped"[1..] == "kipped" && "survived"[1..] == "urvived";
    }
    assert StrLt(v[0], v[1]) && StrLt(v[1], v[2]) && StrLt(v[2], v[3]) && StrLt(v[3], v[4]);
    StrLtTransitive(v[0], v[1], v[2]);
    StrLtTransitive(v[0], v[2], v[3]);
    StrLtTransitive(v[0], v[3], v[4]);
    StrLtTransitive(v[1], v[2], v[3]);
    StrLtTransitive(v[1], v[3], v[4]);
    StrLtTransitive(v[2], v[3], v[4]);
  }

  /** One group: its title and size, at most 10 of its mutations, the rest counted. */
  function GroupLines(s: MutantStatus, g: seq<MutationResult>): seq<string>
  {
    ["### " + Title(s) + " (" + IntToString(|g|) + ")"] + Capped(MutationLines(g), 10) + [""]
  }

  function MutationSections(muts: seq<MutationResult>, statuses: seq<MutantStatus>): seq<string>
  {
    if |statuses| == 0 then []
    else
      var s := statuses[|statuses| - 1];
      MutationSections(muts, statuses[..|statuses| - 1])
      + (if Group(muts, s) != [] then GroupLines(s, Group(muts, s)) else [])
  }

  function MutationsText(muts: seq<MutationResult>, score: real, show: Renderer): string
  {
    if |muts| == 0 then "No mutation results. Score: 100%"
    else
      Truncate(Join(["## Mutation Testing Results",
                     "Score: " + show.showReal(score) + "%",
                     "Total mutants: " + IntToString(|muts|),
                     ""] + MutationSections(muts, StatusOrder), "\n"))
  }

  /** The first loop of `format_mutations`: `by_status` after the first mutations. */
  method GroupByStatus(muts: seq<MutationResult>) returns (byStatus: map<MutantStatus, seq<MutationResult>>)
    ensures forall s :: s in byStatus <==> Group(muts, s) != []
    ensures forall s :: s in byStatus ==> byStatus[s] == Group(muts, s)
  {
    byStatus := map[];
    var i := 0;
    while i < |muts|
      invariant 0 <= i <= |muts|
      invariant forall s :: s in byStatus <==> Group(muts[..i], s) != []
      invariant forall s :: s in byStatus ==> byStatus[s] == Group(muts[..i], s)
    {
      assert muts[..i + 1][..i] == muts[..i];
      var m := muts[i];
      var group := if m.status in byStatus then byStatus[m.status] else [];
      byStatus := byStatus[m.status := group + [m]];
      i := i + 1;
    }
    assert muts[..i] == muts;
  }

  /** One group's lines. */
  method ListGroup(s: MutantStatus, group: seq<MutationResult>) returns (lines: seq<string>)
    ensures lines == GroupLines(s, group)
  {
    var listed := ListCapped(MutationLines(group), 10);
    lines := ["### " + Title(s) + " (" + IntToString(|group|) + ")"] + listed + [""];
  }

  /** The loop over `sorted(by_status.items())`. */
  method ListSections(muts: seq<MutationResult>, byStatus: map<MutantStatus, seq<MutationResult>>) returns (lines: seq<string>)
    requires forall s :: s in byStatus <==> Group(muts, s) != []
    requires forall s :: s in byStatus ==> byStatus[s] == Group(muts, s)
    ensures lines == MutationSections(muts, StatusOrder)
  {
    lines := [];
    var j := 0;
    while j < |StatusOrder|
      invariant 0 <= j <= |StatusOrder|
      invariant lines == MutationSections(muts, StatusOrder[..j])
    {
      assert StatusOrder[..j + 1][..j] == StatusOrder[..j];
      var s := StatusOrder[j];
      if s in byStatus {
        var section := ListGroup(s, byStatus[s]);
        lines := lines + section;
      }
      j := j + 1;
    }
    assert StatusOrder[..j] == StatusOrder;
  }

  /** `format_mutations`. */
  method FormatMutations(muts: seq<MutationResult>, score: real, show: Renderer) returns (out: string)
    ensures out == MutationsText(muts, score, show)
    ensures muts == [] ==> out == "No mutation results. Score: 100%"
  {
    if |muts| == 0 {
      return "No mutation results. Score: 100%";
    }
    var byStatus := GroupByStatus(muts);
    var sections := ListSections(muts, byStatus);
    var lines := ["## Mutation Testing Results",
                  "Score: " + show.showReal(score) + "%",
                  "Total mutants: " + IntToString(|muts|),
                  ""] + sections;
    out := Truncate(Join(lines, "\n"));
  }

  /** The groups split the mutations: each is in exactly one, so their sizes add up. */
  lemma {:induction false} GroupsPartition(muts: seq<MutationResult>)
    ensures |Group(muts, Error)| + |Group(muts, Killed)| + |Group(muts, Skipped)|
          + |Group(muts, Survived)| + |Group(muts, Timeout)| == |muts|
  {
    if |muts| > 0 {
      GroupsPartition(muts[..|muts| - 1]);
    }
  }

  /** A group's members are exactly the mutations with its status. */
  lemma {:induction false} GroupExactly(muts: seq<MutationResult>, s: MutantStatus)
    ensures forall m :: m in Group(muts, s) <==> m in muts && m.status == s
  {
    if |muts| > 0 {
      var init := muts[..|muts| - 1];
      GroupExactly(init, s);
      assert forall m :: m in muts <==> m in init || m == muts[|muts| - 1] by {
        assert muts == init + [muts[|muts| - 1]];
      }
    }
  }

  /** A group lists at most 10 mutations, and the count line covers the rest. */
  lemma GroupCapped(s: MutantStatus, g: seq<MutationResult>)
    ensures |GroupLines(s, g)| <= 13
    ensures |g| > 10 ==> GroupLines(s, g)[11] == "- ... and " + IntToString(|g| - 10) + " more"
    ensures forall k :: 0 <= k < |g| && k < 10 ==> GroupLines(s, g)[k + 1] == MutationLine(g[k])
  {
    CappedShape(MutationLines(g), 10);
  }

  // ----- format_feedback_response -----

  /** The confirmation names the outcome and the id's first 8 characters. */
  function FeedbackResponse(assessmentId: string, outcome: string): (r: string)
    ensures StartsWith(r, "Feedback recorded: " + outcome)
    ensures EndsWith(r, assessmentId[..if |assessmentId| < 8 then |assessmentId| else 8])
  {
    var shortId := assessmentId[..if |assessmentId| < 8 then |assessmentId| else 8];
    var r := "Feedback recorded: " + outcome + " for assessment " + shortId;
    assert r[..|"Feedback recorded: " + outcome|] == "Feedback recorded: " + outcome;
    assert r[|r| - |shortId|..] == shortId;
    r
  }
}
