/**
 * Static analysis of the changed files with ruff and mypy, as both
 * packages run it: ruff's JSON issues and mypy's text lines become
 * `StaticFinding`s, ruff's findings first. `seraph` also reports which of
 * the two tools the repository configures. The processes themselves, the
 * JSON decoder and the path relativisation are inputs.
 */
module StaticAnalysis {
  import opened Outcomes
  import opened Text
  import opened Enums
  import opened Models
  import opened Numbers
  import Differ
  import Reporter

  // ----- ruff rule codes -----

  /** `_ruff_severity`: security rules and error-prone rules are HIGH, conventions LOW. */
  function RuffSeverity(code: string): (s: Severity)
    ensures s in {High, Low, Medium}
  {
    if StartsWith(code, "S") then High
    else if StartsWith(code, "E9") || StartsWith(code, "F") then High
    else if StartsWith(code, "E") || StartsWith(code, "W") then Low
    else Medium
  }

  /** Each severity is reached by exactly the codes its first matching rule names. */
  lemma RuffSeverityRules(code: string)
    ensures RuffSeverity(code) == High <==> StartsWith(code, "S") || StartsWith(code, "E9") || StartsWith(code, "F")
    ensures RuffSeverity(code) == Low <==>
      (StartsWith(code, "E") || StartsWith(code, "W")) && !StartsWith(code, "E9")
    ensures RuffSeverity(code) == Medium <==>
      !StartsWith(code, "S") && !StartsWith(code, "E") && !StartsWith(code, "F") && !StartsWith(code, "W")
  {
    if StartsWith(code, "E9") {
      assert code[..1] == code[..2][..1];
    }
  }

  lemma RuffSeverityExamples()
    ensures RuffSeverity("S101") == High
    ensures RuffSeverity("E999") == High && RuffSeverity("F401") == High
    ensures RuffSeverity("E501") == Low && RuffSeverity("W291") == Low
    ensures RuffSeverity("C901") == Medium
  {
    assert "S101"[..1] == "S";
    assert "E999"[..2] == "E9";
    assert "F401"[..1] == "F";
    CharDiffers("F401", "S", 0);
    CharDiffers("E999", "S", 0);
    CharDiffers("E501", "S", 0);
    CharDiffers("E501", "E9", 1);
    CharDiffers("E501", "F", 0);
    assert "E501"[..1] == "E";
    CharDiffers("W291", "S", 0);
    CharDiffers("W291", "E9", 0);
    CharDiffers("W291", "F", 0);
    CharDiffers("W291", "E", 0);
    assert "W291"[..1] == "W";
    CharDiffers("C901", "S", 0);
    CharDiffers("C901", "E9", 0);
    CharDiffers("C901", "F", 0);
    CharDiffers("C901", "E", 0);
    CharDiffers("C901", "W", 0);
  }

  // ----- mypy output lines -----

  /** `_MYPY_SEVERITY`, in its insertion order. */
  const MypySeverities: seq<(string, Severity)> := [("error", High), ("warning", Medium), ("note", Info)]

  /** The severity of the first table entry whose keyword `rest` starts with. */
  function FirstPrefix(rest: string, table: seq<(string, Severity)>): (r: Option<Severity>)
    ensures r.None? <==> forall i :: 0 <= i < |table| ==> !StartsWith(rest, table[i].0)
  {
    if |table| == 0 then None
    else if StartsWith(rest, table[0].0) then Some(table[0].1)
    else FirstPrefix(rest, table[1..])
  }

  /**
   * The loop over `_MYPY_SEVERITY` in `seraph` picks what `verdict`'s
   * if/elif chain picks.
   */
  lemma MypyPrefixChain(rest: string)
    ensures FirstPrefix(rest, MypySeverities) ==
      if StartsWith(rest, "error") then Some(High)
      else if StartsWith(rest, "warning") then Some(Medium)
      else if StartsWith(rest, "note") then Some(Info)
      else None
  {
    var t1 := MypySeverities[1..];
    assert t1 == [("warning", Medium), ("note", Info)];
    var t2 := t1[1..];
    assert t2 == [("note", Info)];
    assert t2[1..] == [];
    assert FirstPrefix(rest, t2[1..]) == None;
    assert FirstPrefix(rest, t2) == if StartsWith(rest, "note") then Some(Info) else None;
    assert FirstPrefix(rest, t1) == if StartsWith(rest, "warning") then Some(Medium) else FirstPrefix(rest, t2);
  }

  /** `rest.split(":", 1)[1].strip() if ":" in rest else rest`. */
  function AfterColon(rest: string): string
  {
    match IndexOf(rest, ":")
    case None => rest
    case Some(i) => Strip(rest[i + 1..])
  }

  /** The severity and the message text of `rest`: MEDIUM and all of it when no keyword matches. */
  function Classify(rest: string): (Severity, string)
  {
    match FirstPrefix(rest, MypySeverities)
    case Some(sev) => (sev, AfterColon(rest))
    case None => (Medium, Strip(rest))
  }

  /**
   * Splits a trailing "[code]" off a message, giving (code, message): the
   * code is what follows the last '[' up to the final ']', and the message
   * is the stripped text before that '['.
   */
  function SplitCode(message: string): (r: (string, string))
    ensures !(EndsWith(message, "]") && '[' in message) ==> r == ("", message)
    ensures EndsWith(message, "]") && '[' in message ==>
      && |r.0| + 2 <= |message|
      && EndsWith(message, "[" + r.0 + "]")
      && '[' !in r.0
      && r.1 == Strip(message[..|message| - |r.0| - 2])
  {
    if EndsWith(message, "]") && '[' in message then
      var pos := LastIndexOfChar(message, '[').value;
      assert message[|message| - 1] == message[|message| - 1..][0];
      var code := message[pos + 1..|message| - 1];
      assert message[pos..] == "[" + code + "]";
      (code, Strip(message[..pos]))
    else ("", message)
  }

  /** `_parse_mypy_line`: "file:line: severity: message [code]", or None. */
  function ParseMypyLine(line: string, toRelative: string -> string): (r: Option<StaticFinding>)
    ensures r.Some? <==> |SplitMax(line, ':', 3)| == 4 && ParseInt(SplitMax(line, ':', 3)[1]).Some?
    ensures r.Some? ==> r.value.analyzer == Mypy && r.value.column == 0
    ensures r.Some? ==> r.value.lineNumber == ParseInt(SplitMax(line, ':', 3)[1]).value
    ensures r.Some? ==> r.value.filePath == toRelative(Strip(SplitMax(line, ':', 3)[0]))
  {
    var parts := SplitMax(line, ':', 3);
    if |parts| < 4 then None
    else match ParseInt(parts[1])
      case None => None
      case Some(lineNumber) =>
        var rest := Strip(parts[2]) + ":" + parts[3];
        var (severity, text) := Classify(rest);
        var (code, message) := SplitCode(text);
        Some(StaticFinding(toRelative(Strip(parts[0])), lineNumber, 0, code, message, severity, Mypy))
  }

  /** A keyword without ':' starts `a + ":" + b` exactly when it starts `a`, if `a` has no ':' either. */
  lemma PrefixBeforeColon(a: string, b: string, p: string)
    requires ':' !in a && ':' !in p
    ensures StartsWith(a + ":" + b, p) <==> StartsWith(a, p)
  {
    var s := a + ":" + b;
    if |p| <= |a| {
      assert s[..|p|] == a[..|p|];
    } else if |p| <= |s| {
      assert s[..|p|][|a|] != p[|a|];
    }
  }

  /** The severity a mypy keyword gives: error, warning and note are HIGH, MEDIUM and INFO, anything else MEDIUM. */
  function KeywordSeverity(kind: string): Severity
  {
    if StartsWith(kind, "error") then High
    else if StartsWith(kind, "warning") then Medium
    else if StartsWith(kind, "note") then Info
    else Medium
  }

  predicate HasKeyword(kind: string)
  {
    StartsWith(kind, "error") || StartsWith(kind, "warning") || StartsWith(kind, "note")
  }

  /**
   * For "kind:text" with no ':' in kind, the keyword at the start of kind
   * decides the severity; after a keyword the message is the stripped
   * text, otherwise all of "kind:text" stripped.
   */
  lemma ClassifyRest(kind: string, text: string)
    requires ':' !in kind
    ensures Classify(kind + ":" + text) ==
      (KeywordSeverity(kind), if HasKeyword(kind) then Strip(text) else Strip(kind + ":" + text))
  {
    var rest := kind + ":" + text;
    PrefixBeforeColon(kind, text, "error");
    PrefixBeforeColon(kind, text, "warning");
    PrefixBeforeColon(kind, text, "note");
    MypyPrefixChain(rest);
    assert rest[..|kind|] == kind;
    FirstCharAt(rest, ':', |kind|);
    assert rest[|kind| + 1..] == text;
  }

  /**
   * The severity keyword is the start of the third field, stripped. After
   * a keyword the message is the stripped fourth field, otherwise the
   * whole of "kind:text"; a trailing "[code]" is then split off it.
   */
  lemma MypySeverityAndMessage(line: string, toRelative: string -> string)
    requires ParseMypyLine(line, toRelative).Some?
    ensures var parts := SplitMax(line, ':', 3);
            var kind := Strip(parts[2]);
            var f := ParseMypyLine(line, toRelative).value;
            && f.severity == KeywordSeverity(kind)
            && (f.code, f.message) == SplitCode(if HasKeyword(kind) then Strip(parts[3]) else Strip(kind + ":" + parts[3]))
  {
    var parts := SplitMax(line, ':', 3);
    StripKeepsAbsent(parts[2], ':');
    ClassifyRest(Strip(parts[2]), parts[3]);
  }

  /** A line without a colon is not a mypy finding. */
  lemma NoColonNoFinding(line: string, toRelative: string -> string)
    requires ':' !in line
    ensures ParseMypyLine(line, toRelative).None?
  {
    SplitMaxNoSeparator(line, ':', 3);
  }

  lemma InvalidLineExample(toRelative: string -> string)
    ensures ParseMypyLine("not a valid line", toRelative).None?
  {
    NoColonNoFinding("not a valid line", toRelative);
  }

  /** The findings of mypy's output lines, in line order. */
  function MypyFindingsIn(lines: seq<string>, toRelative: string -> string): seq<StaticFinding>
  {
    if |lines| == 0 then []
    else MypyFindingsIn(lines[..|lines| - 1], toRelative)
         + match ParseMypyLine(lines[|lines| - 1], toRelative)
           case Some(f) => [f]
           case None => []
  }

  lemma MypyFindingsSnoc(lines: seq<string>, i: nat, toRelative: string -> string)
    requires i < |lines|
    ensures MypyFindingsIn(lines[..i + 1], toRelative)
      == MypyFindingsIn(lines[..i], toRelative)
         + match ParseMypyLine(lines[i], toRelative) case Some(f) => [f] case None => []
  {
    assert lines[..i + 1][..i] == lines[..i];
  }

  /** `_run_mypy`'s line loop. */
  method MypyFindings(lines: seq<string>, toRelative: string -> string) returns (findings: seq<StaticFinding>)
    ensures findings == MypyFindingsIn(lines, toRelative)
  {
    findings := [];
    var i := 0;
    while i < |lines|
      invariant 0 <= i <= |lines|
      invariant findings == MypyFindingsIn(lines[..i], toRelative)
    {
      var finding := ParseMypyLine(lines[i], toRelative);
      MypyFindingsSnoc(lines, i, toRelative);
      if finding.Some? {
        findings := findings + [finding.value];
      }
      i := i + 1;
    }
    assert lines[..i] == lines;
  }

  /** mypy's findings: none when it timed out or is not installed. */
  function MypyFindingsOf(run: ToolRun, toRelative: string -> string): seq<StaticFinding>
  {
    match run
    case Ran(out) => MypyFindingsIn(SplitLines(out), toRelative)
    case TimedOut => []
    case NotFound => []
  }

  /** `_run_mypy`. */
  method RunMypy(run: ToolRun, toRelative: string -> string) returns (findings: seq<StaticFinding>)
    ensures findings == MypyFindingsOf(run, toRelative)
  {
    findings := [];
    if run.Ran? {
      findings := MypyFindings(SplitLines(run.stdout), toRelative);
    }
  }

  predicate AllFrom(findings: seq<StaticFinding>, analyzer: AnalyzerType)
  {
    forall i :: 0 <= i < |findings| ==> findings[i].analyzer == analyzer
  }

  /** Every mypy finding is one of mypy's lines parsed, attributed to mypy at column 0. */
  lemma {:induction false} MypyFindingsFromLines(lines: seq<string>, toRelative: string -> string)
    ensures AllFrom(MypyFindingsIn(lines, toRelative), Mypy)
    ensures forall f :: f in MypyFindingsIn(lines, toRelative) ==>
      f.column == 0 && exists j :: 0 <= j < |lines| && ParseMypyLine(lines[j], toRelative) == Some(f)
    ensures |MypyFindingsIn(lines, toRelative)| <= |lines|
  {
    if |lines| > 0 {
      var init := lines[..|lines| - 1];
      MypyFindingsFromLines(init, toRelative);
      forall f | f in MypyFindingsIn(lines, toRelative)
        ensures exists j :: 0 <= j < |lines| && ParseMypyLine(lines[j], toRelative) == Some(f)
      {
        if f in MypyFindingsIn(init, toRelative) {
          var j :| 0 <= j < |init| && ParseMypyLine(init[j], toRelative) == Some(f);
          assert lines[j] == init[j];
        } else {
          assert ParseMypyLine(lines[|lines| - 1], toRelative) == Some(f);
        }
      }
    }
  }

  // ----- ruff's JSON issues -----

  /** An issue's "location" object; either key may be absent. */
  datatype Location = Location(row: Option<int>, column: Option<int>)

  /** One element of ruff's JSON array, each key possibly absent. */
  datatype RuffIssue = RuffIssue(
    filename: Option<string>,
    location: Option<Location>,
    code: Option<string>,
    message: Option<string>)

  /**
   * How ruff ended: the decoded issues (none for empty output), or
   * a timeout, a missing executable or output that is not JSON.
   */
  datatype RuffRun = Issues(issues: seq<RuffIssue>) | RuffFailed

  function RowOf(l: Option<Location>): int
  {
    match l
    case None => 0
    case Some(loc) => loc.row.GetOr(0)
  }

  function ColumnOf(l: Option<Location>): int
  {
    match l
    case None => 0
    case Some(loc) => loc.column.GetOr(0)
  }

  /** One ruff issue as a finding: absent keys read as "" or 0, and the code decides the severity. */
  function RuffFinding(issue: RuffIssue, toRelative: string -> string): (f: StaticFinding)
    ensures f.analyzer == Ruff && f.severity == RuffSeverity(f.code)
    ensures f.code == issue.code.GetOr("") && f.message == issue.message.GetOr("")
    ensures f.filePath == toRelative(issue.filename.GetOr(""))
    ensures f.lineNumber == RowOf(issue.location) && f.column == ColumnOf(issue.location)
  {
    var code := issue.code.GetOr("");
    StaticFinding(toRelative(issue.filename.GetOr("")), RowOf(issue.location), ColumnOf(issue.location),
                  code, issue.message.GetOr(""), RuffSeverity(code), Ruff)
  }

  function RuffFindingsIn(issues: seq<RuffIssue>, toRelative: string -> string): (r: seq<StaticFinding>)
    ensures |r| == |issues|
    ensures forall i :: 0 <= i < |issues| ==> r[i] == RuffFinding(issues[i], toRelative)
  {
    if |issues| == 0 then []
    else RuffFindingsIn(issues[..|issues| - 1], toRelative) + [RuffFinding(issues[|issues| - 1], toRelative)]
  }

  /** ruff's findings: one per issue, none when ruff failed. */
  function RuffFindingsOf(run: RuffRun, toRelative: string -> string): seq<StaticFinding>
  {
    match run
    case Issues(issues) => RuffFindingsIn(issues, toRelative)
    case RuffFailed => []
  }

  /** `_run_ruff`. */
  method RunRuff(run: RuffRun, toRelative: string -> string) returns (findings: seq<StaticFinding>)
    ensures findings == RuffFindingsOf(run, toRelative)
  {
    findings := [];
    if run.Issues? {
      var issues := run.issues;
      var i := 0;
      while i < |issues|
        invariant 0 <= i <= |issues|
        invariant findings == RuffFindingsIn(issues[..i], toRelative)
      {
        assert issues[..i + 1][..i] == issues[..i];
        findings := findings + [RuffFinding(issues[i], toRelative)];
        i := i + 1;
      }
      assert issues[..i] == issues;
    }
  }

  // ----- which tools the repository configures (seraph) -----

  /**
   * What `detect_tool_config` sees of a repository: which config files
   * exist, and the text of setup.cfg and pyproject.toml when they exist.
   */
  datatype ConfigFiles = ConfigFiles(
    mypyIni: bool,
    dotMypyIni: bool,
    setupCfg: Option<string>,
    ruffToml: bool,
    dotRuffToml: bool,
    pyproject: Option<string>)

  /** mypy.ini, .mypy.ini, a "[mypy]" section in setup.cfg or "[tool.mypy]" in pyproject.toml. */
  predicate MypyConfigured(f: ConfigFiles)
  {
    || f.mypyIni || f.dotMypyIni
    || (f.setupCfg.Some? && Contains(f.setupCfg.value, "[mypy]"))
    || (f.pyproject.Some? && Contains(f.pyproject.value, "[tool.mypy]"))
  }

  /** ruff.toml, .ruff.toml or "[tool.ruff]" in pyproject.toml. */
  predicate RuffConfigured(f: ConfigFiles)
  {
    || f.ruffToml || f.dotRuffToml
    || (f.pyproject.Some? && Contains(f.pyproject.value, "[tool.ruff]"))
  }

  /** `detect_tool_config`: flags that start false and are only ever set. */
  method DetectToolConfig(f: ConfigFiles) returns (config: map<string, bool>)
    ensures config == map["ruff" := RuffConfigured(f), "mypy" := MypyConfigured(f)]
  {
    var mypyConfigured := false;
    var ruffConfigured := false;
    if f.mypyIni || f.dotMypyIni {
      mypyConfigured := true;
    } else if f.setupCfg.Some? && Contains(f.setupCfg.value, "[mypy]") {
      mypyConfigured := true;
    }
    if f.ruffToml || f.dotRuffToml {
      ruffConfigured := true;
    }
    if f.pyproject.Some? {
      var content := f.pyproject.value;
      if !mypyConfigured && Contains(content, "[tool.mypy]") {
        mypyConfigured := true;
      }
      if !ruffConfigured && Contains(content, "[tool.ruff]") {
        ruffConfigured := true;
      }
    }
    config := map["ruff" := ruffConfigured, "mypy" := mypyConfigured];
  }

  /** An empty repository configures neither tool. */
  lemma NoConfigFiles()
    ensures !MypyConfigured(ConfigFiles(false, false, None, false, false, None))
    ensures !RuffConfigured(ConfigFiles(false, false, None, false, false, None))
  {
  }

  // ----- the whole step -----

  /** `StaticRunResult`. */
  datatype StaticRun = StaticRun(findings: seq<StaticFinding>, toolConfig: map<string, bool>)

  /** ruff's findings all come before mypy's. */
  predicate RuffFirst(findings: seq<StaticFinding>)
  {
    forall i, j :: 0 <= i < j < |findings| && findings[i].analyzer == Mypy ==> findings[j].analyzer == Mypy
  }

  /** The findings of a step that ran both tools: ruff's, then mypy's. */
  function BothTools(ruff: RuffRun, mypy: ToolRun, toRelative: string -> string): seq<StaticFinding>
  {
    RuffFindingsOf(ruff, toRelative) + MypyFindingsOf(mypy, toRelative)
  }

  lemma RuffBeforeMypy(ruff: RuffRun, mypy: ToolRun, toRelative: string -> string)
    ensures RuffFirst(BothTools(ruff, mypy, toRelative))
  {
    var r := RuffFindingsOf(ruff, toRelative);
    var m := MypyFindingsOf(mypy, toRelative);
    assert AllFrom(r, Ruff);
    if mypy.Ran? {
      MypyFindingsFromLines(SplitLines(mypy.stdout), toRelative);
    }
    assert AllFrom(m, Mypy);
  }

  /** `seraph`'s `run_static_analysis`; the tools' runs over the changed files are inputs. */
  method RunStaticAnalysis(config: ConfigFiles, files: seq<string>, ruff: RuffRun, mypy: ToolRun,
                           toRelative: string -> string) returns (r: StaticRun)
    ensures r.toolConfig == map["ruff" := RuffConfigured(config), "mypy" := MypyConfigured(config)]
    ensures Differ.PythonPaths(files) == [] ==> r.findings == []
    ensures Differ.PythonPaths(files) != [] ==> r.findings == BothTools(ruff, mypy, toRelative)
  {
    var toolConfig := DetectToolConfig(config);
    var pyFiles := Differ.PythonPaths(files);
    if |pyFiles| == 0 {
      return StaticRun([], toolConfig);
    }
    var fromRuff := RunRuff(ruff, toRelative);
    var fromMypy := RunMypy(mypy, toRelative);
    r := StaticRun(fromRuff + fromMypy, toolConfig);
  }

  /** `verdict`'s `run_static_analysis`: the same findings, without the tool configuration. */
  method RunStaticVerdict(files: seq<string>, ruff: RuffRun, mypy: ToolRun, toRelative: string -> string)
    returns (findings: seq<StaticFinding>)
    ensures Differ.PythonPaths(files) == [] ==> findings == []
    ensures Differ.PythonPaths(files) != [] ==> findings == BothTools(ruff, mypy, toRelative)
  {
    findings := [];
    var pyFiles := Differ.PythonPaths(files);
    if |pyFiles| == 0 {
      return;
    }
    var fromRuff := RunRuff(ruff, toRelative);
    var fromMypy := RunMypy(mypy, toRelative);
    findings := fromRuff + fromMypy;
  }

  // ----- verdict's own copy of the static score -----

  /**
   * `compute_static_score` as `verdict`'s static module defines it: 100 for
   * no files, otherwise 100 less ten times the weighted issues per file,
   * floored at 0, to one decimal. It agrees with the reporter's copy.
   */
  function ComputeStaticScore(findings: seq<StaticFinding>, fileCount: int): (r: real)
    ensures fileCount == 0 ==> r == 100.0
    ensures fileCount > 0 ==> 0.0 <= r <= 100.0
    ensures Reporter.StaticScore(findings, fileCount, Reporter.VerdictConstants()) == Ok(r)
  {
    if fileCount == 0 then 100.0
    else
      var weighted := Reporter.WeightedIssues(findings, Reporter.ModuleSeverityWeights);
      Reporter.WeightedIssuesNonNegative(findings, Reporter.ModuleSeverityWeights);
      assert fileCount > 0 ==> weighted / fileCount as real >= 0.0;
      Round1(Max(0.0, 100.0 - weighted / fileCount as real * 10.0))
  }
}
