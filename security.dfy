/**
 * `seraph`'s security step: bandit, semgrep and detect-secrets over the
 * changed Python files, CWE tiering, and a post-filter for known false
 * positives. The processes, the JSON decoder, the regular expressions,
 * glob matching and path relativisation are inputs.
 */
module Security {
  import opened Outcomes
  import opened Text
  import opened Enums
  import Differ

  // ----- CWE tiers -----

  /** Noise CWEs that are almost always false positives. */
  const Tier0: set<string> := {"CWE-703", "CWE-390"}
  /** Input validation, XSS, SQL and log injection. */
  const Tier1: set<string> := {"CWE-20", "CWE-79", "CWE-89", "CWE-117"}
  /** Command and code injection, hard-coded credentials, broken crypto. */
  const Tier2: set<string> := {"CWE-78", "CWE-94", "CWE-259", "CWE-798", "CWE-327"}

  /** `cwe_weight`: the multiplier of the first tier that holds the id, 1 when none does. */
  function CweWeight(cweId: string): (w: real)
    ensures w in {0.1, 3.0, 2.0, 1.0}
  {
    if cweId in Tier0 then 0.1
    else if cweId in Tier1 then 3.0
    else if cweId in Tier2 then 2.0
    else 1.0
  }

  /** The tiers are disjoint, so each weight is given by exactly one tier. */
  lemma CweWeightByTier(cweId: string)
    ensures CweWeight(cweId) == 0.1 <==> cweId in Tier0
    ensures CweWeight(cweId) == 3.0 <==> cweId in Tier1
    ensures CweWeight(cweId) == 2.0 <==> cweId in Tier2
    ensures CweWeight(cweId) == 1.0 <==> cweId !in Tier0 + Tier1 + Tier2
  {
  }

  lemma CweWeightExamples()
    ensures CweWeight("CWE-89") == 3.0 && CweWeight("CWE-117") == 3.0
    ensures CweWeight("CWE-78") == 2.0 && CweWeight("CWE-798") == 2.0
    ensures CweWeight("CWE-703") == 0.1 && CweWeight("CWE-390") == 0.1
    ensures CweWeight("CWE-330") == 1.0 && CweWeight("") == 1.0 && CweWeight("CWE-999") == 1.0
  {
  }

  // ----- severities and the bandit CWE map -----

  /** `BANDIT_CWE_MAP`. */
  const BanditCweMap: map<string, string> := map[
    "B608" := "CWE-89", "B609" := "CWE-78", "B602" := "CWE-78", "B603" := "CWE-78",
    "B604" := "CWE-78", "B605" := "CWE-78", "B606" := "CWE-78", "B607" := "CWE-78",
    "B601" := "CWE-94",
    "B303" := "CWE-327", "B304" := "CWE-327", "B305" := "CWE-327",
    "B105" := "CWE-259", "B106" := "CWE-259", "B107" := "CWE-259",
    "B104" := "CWE-798", "B108" := "CWE-798",
    "B701" := "CWE-79", "B702" := "CWE-79", "B703" := "CWE-79",
    "B301" := "CWE-20", "B302" := "CWE-20", "B308" := "CWE-20", "B611" := "CWE-20",
    "B506" := "CWE-20",
    "B102" := "CWE-94", "B307" := "CWE-94",
    "B311" := "CWE-330",
    "B110" := "CWE-390",
    "B101" := "CWE-703"]

  /** `BANDIT_CWE_MAP.get(test_id, "")`. */
  function BanditCwe(testId: string): (cwe: string)
    ensures testId in BanditCweMap ==> cwe == BanditCweMap[testId]
    ensures testId !in BanditCweMap ==> cwe == ""
  {
    if testId in BanditCweMap then BanditCweMap[testId] else ""
  }

  /** Every mapped bandit test lands in a weighted tier, except the pseudo-random generator check. */
  lemma MappedBanditTestsAreTiered(testId: string)
    requires testId in BanditCweMap && testId != "B311"
    ensures CweWeight(BanditCwe(testId)) != 1.0
  {
  }

  /** The three hard-coded password checks all map to CWE-259. */
  lemma PasswordChecksAreCwe259()
    ensures forall t :: t in PasswordChecks ==> BanditCwe(t) == "CWE-259"
  {
  }

  const BanditSeverities: map<string, Severity> := map["HIGH" := High, "MEDIUM" := Medium, "LOW" := Low]
  const SemgrepSeverities: map<string, Severity> := map["ERROR" := High, "WARNING" := Medium, "INFO" := Low]
  const DetectSecretsSeverities: map<string, Severity> := map[
    "Private Key" := High, "Secret Keyword" := High, "Basic Auth Credentials" := High,
    "JSON Web Token" := High, "Hex High Entropy String" := Medium,
    "Base64 High Entropy String" := Medium, "Twilio API Key" := High,
    "AWS Access Key" := High, "Slack Token" := High, "Stripe API Key" := High,
    "Artifactory Credentials" := High, "Mailchimp Access Key" := High,
    "IBM Cloud IAM Key" := High, "SendGrid API Key" := High, "Square OAuth Secret" := High]

  /** `table.get(key, default)`. */
  function SeverityIn(table: map<string, Severity>, key: string, default: Severity): (s: Severity)
    ensures key in table ==> s == table[key]
    ensures key !in table ==> s == default
  {
    if key in table then table[key] else default
  }

  /** Only the two high-entropy string types are MEDIUM; every other secret type is HIGH. */
  lemma SecretSeverities(secretType: string)
    ensures SeverityIn(DetectSecretsSeverities, secretType, High) == Medium <==>
      secretType == "Hex High Entropy String" || secretType == "Base64 High Entropy String"
    ensures SeverityIn(DetectSecretsSeverities, secretType, High) in {High, Medium}
  {
  }

  // ----- findings -----

  datatype SecurityAnalyzer = Bandit | Semgrep | DetectSecrets

  /**
   * `SecurityFinding`. The runners leave some fields at the dataclass's
   * defaults, taken here as 0 and "".
   */
  datatype SecurityFinding = SecurityFinding(
    filePath: string,
    lineNumber: int,
    column: int,
    code: string,
    message: string,
    severity: Severity,
    analyzer: SecurityAnalyzer,
    cweId: string,
    confidence: string,
    sourceLine: string)

  /** One entry of bandit's "results", each key possibly absent. */
  datatype BanditIssue = BanditIssue(
    filename: Option<string>,
    lineNumber: Option<int>,
    colOffset: Option<int>,
    testId: Option<string>,
    issueText: Option<string>,
    issueSeverity: Option<string>,
    issueConfidence: Option<string>,
    code: Option<string>)

  function BanditFinding(issue: BanditIssue, toRelative: string -> string): (f: SecurityFinding)
    ensures f.analyzer == Bandit && f.code == issue.testId.GetOr("")
    ensures f.cweId == BanditCwe(f.code)
    ensures issue.issueSeverity.None? ==> f.severity == Medium
    ensures f.severity == SeverityIn(BanditSeverities, issue.issueSeverity.GetOr("MEDIUM"), Medium)
    ensures f.sourceLine == Strip(issue.code.GetOr(""))
  {
    var testId := issue.testId.GetOr("");
    SecurityFinding(toRelative(issue.filename.GetOr("")), issue.lineNumber.GetOr(0), issue.colOffset.GetOr(0),
                    testId, issue.issueText.GetOr(""),
                    SeverityIn(BanditSeverities, issue.issueSeverity.GetOr("MEDIUM"), Medium),
                    Bandit, BanditCwe(testId), issue.issueConfidence.GetOr(""), Strip(issue.code.GetOr("")))
  }

  /** One element of semgrep's `metadata.cwe` list. */
  datatype CweItem = CweDict(id: Option<string>) | CweText(text: string) | OtherItem

  /** The `metadata.cwe` value: a list, or something else. */
  datatype CweValue = CweList(items: seq<CweItem>) | NotAList

  datatype Start = Start(line: Option<int>, col: Option<int>)
  datatype Extra = Extra(message: Option<string>, severity: Option<string>, cwe: Option<CweValue>)

  /** One entry of semgrep's "results"; `extra.cwe` stands for `extra.metadata.cwe`. */
  datatype SemgrepResult = SemgrepResult(
    path: Option<string>,
    start: Option<Start>,
    checkId: Option<string>,
    extra: Option<Extra>)

  /** The first item that names a CWE: a dict with a non-empty id, or a "CWE-…" string cut at ':'. */
  function FirstCwe(items: seq<CweItem>): (r: string)
  {
    if |items| == 0 then ""
    else match items[0]
      case CweDict(id) => if id.GetOr("") != "" then id.value else FirstCwe(items[1..])
      case CweText(s) => if StartsWith(s, "CWE-") then Before(s, ":") else FirstCwe(items[1..])
      case OtherItem => FirstCwe(items[1..])
  }

  /** `_extract_semgrep_cwe`; a missing "cwe" reads as the empty list. */
  function ExtractSemgrepCwe(result: SemgrepResult): (r: string)
  {
    var cwe := if result.extra.Some? then result.extra.value.cwe.GetOr(CweList([])) else CweList([]);
    match cwe
    case NotAList => ""
    case CweList(items) => FirstCwe(items)
  }

  predicate NamesCwe(item: CweItem)
  {
    match item
    case CweDict(id) => id.GetOr("") != ""
    case CweText(s) => StartsWith(s, "CWE-")
    case OtherItem => false
  }

  /**
   * The extracted id is "" exactly when no item names a CWE; otherwise it
   * is what the first such item names, and a string's id keeps its "CWE-"
   * prefix and loses everything from the first ':'.
   */
  lemma {:induction false} FirstCweIsFirstNamed(items: seq<CweItem>)
    ensures FirstCwe(items) == "" <==> forall i :: 0 <= i < |items| ==> !NamesCwe(items[i])
    ensures forall i :: 0 <= i < |items| && NamesCwe(items[i]) && (forall j :: 0 <= j < i ==> !NamesCwe(items[j])) ==>
      FirstCwe(items) == match items[i]
                          case CweDict(id) => id.value
                          case CweText(s) => Before(s, ":")
                          case OtherItem => ""
  {
    if |items| > 0 {
      FirstCweIsFirstNamed(items[1..]);
      if items[0].CweText? && StartsWith(items[0].text, "CWE-") {
        CwePrefixSurvives(items[0].text);
      }
      forall i | 0 <= i < |items| && NamesCwe(items[i]) && (forall j :: 0 <= j < i ==> !NamesCwe(items[j]))
        ensures FirstCwe(items) == match items[i]
                                   case CweDict(id) => id.value
                                   case CweText(s) => Before(s, ":")
                                   case OtherItem => ""
      {
        if i > 0 {
          assert !NamesCwe(items[0]);
          assert items[1..][i - 1] == items[i];
          assert forall j :: 0 <= j < i - 1 ==> items[1..][j] == items[j + 1];
        }
      }
    }
  }

  /** Cutting "CWE-…" at its first ':' keeps the prefix and leaves no ':'. */
  lemma CwePrefixSurvives(s: string)
    requires StartsWith(s, "CWE-")
    ensures StartsWith(Before(s, ":"), "CWE-") && ':' !in Before(s, ":") && Before(s, ":") != ""
  {
    ContainsChar(s, ':');
    match IndexOf(s, ":")
    case None =>
    case Some(i) =>
      FirstSeparator(s, ':', i);
      assert s[..4] == "CWE-";
      assert i >= 4 by {
        forall k | 0 <= k < 4
          ensures s[k] != ':'
        {
          assert s[k] == "CWE-"[k];
        }
      }
      assert s[..i][..4] == s[..4];
  }

  lemma SemgrepCweExamples(id: string)
    requires id != ""
    ensures ExtractSemgrepCwe(SemgrepResult(None, None, None, Some(Extra(None, None, Some(CweList([CweDict(Some(id))])))))) == id
    ensures ExtractSemgrepCwe(SemgrepResult(None, None, None, Some(Extra(None, None, Some(CweList([])))))) == ""
    ensures ExtractSemgrepCwe(SemgrepResult(None, None, None, Some(Extra(None, None, Some(NotAList))))) == ""
    ensures ExtractSemgrepCwe(SemgrepResult(None, None, None, None)) == ""
  {
  }

  /** "CWE-94: Code Injection" gives "CWE-94". */
  lemma SemgrepCweTextExample()
    ensures FirstCwe([CweText("CWE-94" + ": Code Injection")]) == "CWE-94"
  {
    var s := "CWE-94" + ": Code Injection";
    assert s[..4] == "CWE-";
    assert s[..6] == "CWE-94";
    FirstCharAt(s, ':', 6);
  }

  function SemgrepFinding(r: SemgrepResult, toRelative: string -> string): (f: SecurityFinding)
    ensures f.analyzer == Semgrep && f.cweId == ExtractSemgrepCwe(r)
    ensures f.code == r.checkId.GetOr("")
  {
    var line := if r.start.Some? then r.start.value.line.GetOr(0) else 0;
    var col := if r.start.Some? then r.start.value.col.GetOr(0) else 0;
    var message := if r.extra.Some? then r.extra.value.message.GetOr("") else "";
    var severity := if r.extra.Some? then r.extra.value.severity.GetOr("WARNING") else "WARNING";
    SecurityFinding(toRelative(r.path.GetOr("")), line, col, r.checkId.GetOr(""), message,
                    SeverityIn(SemgrepSeverities, severity, Medium), Semgrep, ExtractSemgrepCwe(r), "", "")
  }

  /** One entry of detect-secrets' per-file lists. */
  datatype Secret = Secret(secretType: Option<string>, lineNumber: Option<int>)

  /** One `(file_path, secrets)` item of detect-secrets' "results", in the JSON's order. */
  datatype FileSecrets = FileSecrets(filePath: string, secrets: seq<Secret>)

  function SecretFinding(filePath: string, secret: Secret, toRelative: string -> string): (f: SecurityFinding)
    ensures f.analyzer == DetectSecrets && f.cweId == "CWE-798"
    ensures f.severity == SeverityIn(DetectSecretsSeverities, secret.secretType.GetOr(""), High)
    ensures f.filePath == toRelative(filePath)
  {
    var secretType := secret.secretType.GetOr("");
    SecurityFinding(toRelative(filePath), secret.lineNumber.GetOr(0), 0, secretType,
                    "Possible secret: " + (if secretType == "" then "unknown" else secretType),
                    SeverityIn(DetectSecretsSeverities, secretType, High), DetectSecrets, "CWE-798", "", "")
  }

  // ----- the runners -----

  /**
   * How a JSON-emitting tool ended: the decoded entries, no output, output
   * that is not JSON, a timeout, or a missing executable.
   */
  datatype JsonRun<T> = Decoded(items: seq<T>) | NoOutput | BadJson | Expired | Missing

  /** A runner reports its tool available unless the executable is missing. */
  function Available<T>(run: JsonRun<T>): bool
  {
    !run.Missing?
  }

  function DecodedItems<T>(run: JsonRun<T>): seq<T>
  {
    if run.Decoded? then run.items else []
  }

  function BanditFindings(issues: seq<BanditIssue>, toRelative: string -> string): (r: seq<SecurityFinding>)
    ensures |r| == |issues|
    ensures forall i :: 0 <= i < |issues| ==> r[i] == BanditFinding(issues[i], toRelative)
  {
    if |issues| == 0 then []
    else BanditFindings(issues[..|issues| - 1], toRelative) + [BanditFinding(issues[|issues| - 1], toRelative)]
  }

  function SemgrepFindings(results: seq<SemgrepResult>, toRelative: string -> string): (r: seq<SecurityFinding>)
    ensures |r| == |results|
    ensures forall i :: 0 <= i < |results| ==> r[i] == SemgrepFinding(results[i], toRelative)
  {
    if |results| == 0 then []
    else SemgrepFindings(results[..|results| - 1], toRelative) + [SemgrepFinding(results[|results| - 1], toRelative)]
  }

  function FileSecretFindings(filePath: string, secrets: seq<Secret>, toRelative: string -> string): (r: seq<SecurityFinding>)
    ensures |r| == |secrets|
    ensures forall i :: 0 <= i < |secrets| ==> r[i] == SecretFinding(filePath, secrets[i], toRelative)
  {
    if |secrets| == 0 then []
    else FileSecretFindings(filePath, secrets[..|secrets| - 1], toRelative)
         + [SecretFinding(filePath, secrets[|secrets| - 1], toRelative)]
  }

  function SecretsFindings(results: seq<FileSecrets>, toRelative: string -> string): seq<SecurityFinding>
  {
    if |results| == 0 then []
    else SecretsFindings(results[..|results| - 1], toRelative)
         + FileSecretFindings(results[|results| - 1].filePath, results[|results| - 1].secrets, toRelative)
  }

  /** A runner's (findings, tool_available): the decoded entries' findings, and false only for a missing tool. */
  lemma RunnerOutcomes<T>(run: JsonRun<T>)
    ensures run.Missing? ==> DecodedItems(run) == [] && !Available(run)
    ensures (run.NoOutput? || run.BadJson? || run.Expired?) ==> DecodedItems(run) == [] && Available(run)
    ensures run.Decoded? ==> DecodedItems(run) == run.items && Available(run)
  {
  }

  /** `_run_bandit`. */
  method RunBandit(run: JsonRun<BanditIssue>, toRelative: string -> string)
    returns (findings: seq<SecurityFinding>, available: bool)
    ensures findings == BanditFindings(DecodedItems(run), toRelative)
    ensures available == Available(run)
  {
    findings := [];
    if run.Missing? {
      return [], false;
    }
    if run.Decoded? {
      var issues := run.items;
      var i := 0;
      while i < |issues|
        invariant 0 <= i <= |issues|
        invariant findings == BanditFindings(issues[..i], toRelative)
      {
        assert issues[..i + 1][..i] == issues[..i];
        findings := findings + [BanditFinding(issues[i], toRelative)];
        i := i + 1;
      }
      assert issues[..i] == issues;
    }
    available := true;
  }

  /** `_run_semgrep`; the rule set is the process's business. */
  method RunSemgrep(run: JsonRun<SemgrepResult>, toRelative: string -> string)
    returns (findings: seq<SecurityFinding>, available: bool)
    ensures findings == SemgrepFindings(DecodedItems(run), toRelative)
    ensures available == Available(run)
  {
    findings := [];
    if run.Missing? {
      return [], false;
    }
    if run.Decoded? {
      var results := run.items;
      var i := 0;
      while i < |results|
        invariant 0 <= i <= |results|
        invariant findings == SemgrepFindings(results[..i], toRelative)
      {
        assert results[..i + 1][..i] == results[..i];
        findings := findings + [SemgrepFinding(results[i], toRelative)];
        i := i + 1;
      }
      assert results[..i] == results;
    }
    available := true;
  }

  /** `_run_detect_secrets`: one finding per secret, file by file. */
  method RunDetectSecrets(run: JsonRun<FileSecrets>, toRelative: string -> string)
    returns (findings: seq<SecurityFinding>, available: bool)
    ensures findings == SecretsFindings(DecodedItems(run), toRelative)
    ensures available == Available(run)
  {
    findings := [];
    if run.Missing? {
      return [], false;
    }
    if run.Decoded? {
      var results := run.items;
      var i := 0;
      while i < |results|
        invariant 0 <= i <= |results|
        invariant findings == SecretsFindings(results[..i], toRelative)
      {
        var filePath := results[i].filePath;
        var secrets := results[i].secrets;
        var j := 0;
        ghost var before := findings;
        while j < |secrets|
          invariant 0 <= j <= |secrets|
          invariant findings == before + FileSecretFindings(filePath, secrets[..j], toRelative)
        {
          assert secrets[..j + 1][..j] == secrets[..j];
          findings := findings + [SecretFinding(filePath, secrets[j], toRelative)];
          j := j + 1;
        }
        assert secrets[..j] == secrets;
        assert results[..i + 1][..i] == results[..i];
        i := i + 1;
      }
      assert results[..i] == results;
    }
    available := true;
  }

  // ----- the post-filter -----

  /** The hard-coded password checks. */
  const PasswordChecks: set<string> := {"B105", "B106", "B107"}

  /**
   * The three regular expressions of the post-filter, as predicates:
   * `_CWE259_FP_RE` and `_RANDOM_BENIGN_CONTEXT` on the source line,
   * `_RANDOM_BENIGN_FILES` on the file path.
   */
  datatype FilterPatterns = FilterPatterns(
    credentialFalsePositive: string -> bool,
    benignRandomContext: string -> bool,
    benignRandomFile: string -> bool)

  /** Whether `_filter_findings` keeps a finding. */
  predicate Keep(f: SecurityFinding, banditSkip: seq<string>, p: FilterPatterns)
  {
    && f.code !in banditSkip
    && !(f.code in PasswordChecks && p.credentialFalsePositive(f.sourceLine))
    && !(f.code == "B311" && (p.benignRandomFile(f.filePath) || p.benignRandomContext(f.sourceLine)))
  }

  function Kept(findings: seq<SecurityFinding>, banditSkip: seq<string>, p: FilterPatterns): seq<SecurityFinding>
  {
    if |findings| == 0 then []
    else Kept(findings[..|findings| - 1], banditSkip, p)
         + (if Keep(findings[|findings| - 1], banditSkip, p) then [findings[|findings| - 1]] else [])
  }

  /** `_filter_findings`. */
  method FilterFindings(findings: seq<SecurityFinding>, banditSkip: seq<string>, p: FilterPatterns)
    returns (filtered: seq<SecurityFinding>)
    ensures filtered == Kept(findings, banditSkip, p)
  {
    filtered := [];
    var i := 0;
    while i < |findings|
      invariant 0 <= i <= |findings|
      invariant filtered == Kept(findings[..i], banditSkip, p)
    {
      var f := findings[i];
      assert findings[..i + 1][..i] == findings[..i];
      i := i + 1;
      if f.code in banditSkip {
        continue;
      }
      if f.code in PasswordChecks && p.credentialFalsePositive(f.sourceLine) {
        continue;
      }
      if f.code == "B311" {
        if p.benignRandomFile(f.filePath) {
          continue;
        }
        if p.benignRandomContext(f.sourceLine) {
          continue;
        }
      }
      filtered := filtered + [f];
    }
    assert findings[..i] == findings;
  }

  /** Filtering distributes over concatenation, so it never reorders findings. */
  lemma {:induction false} KeptAppend(a: seq<SecurityFinding>, b: seq<SecurityFinding>, banditSkip: seq<string>, p: FilterPatterns)
    ensures Kept(a + b, banditSkip, p) == Kept(a, banditSkip, p) + Kept(b, banditSkip, p)
    decreases |b|
  {
    if |b| > 0 {
      var b' := b[..|b| - 1];
      assert (a + b)[..|a + b| - 1] == a + b';
      KeptAppend(a, b', banditSkip, p);
    } else {
      assert a + b == a;
    }
  }

  /** The kept findings are exactly the input's findings that pass, and there are no more of them. */
  lemma {:induction false} KeptExactly(findings: seq<SecurityFinding>, banditSkip: seq<string>, p: FilterPatterns)
    ensures forall f :: f in Kept(findings, banditSkip, p) <==> f in findings && Keep(f, banditSkip, p)
    ensures |Kept(findings, banditSkip, p)| <= |findings|
  {
    if |findings| > 0 {
      var init := findings[..|findings| - 1];
      KeptExactly(init, banditSkip, p);
      assert findings == init + [findings[|findings| - 1]];
    }
  }

  /** Filtering twice keeps what filtering once keeps. */
  lemma {:induction false} KeptIdempotent(findings: seq<SecurityFinding>, banditSkip: seq<string>, p: FilterPatterns)
    ensures Kept(Kept(findings, banditSkip, p), banditSkip, p) == Kept(findings, banditSkip, p)
  {
    if |findings| > 0 {
      var init := findings[..|findings| - 1];
      var last := findings[|findings| - 1];
      KeptIdempotent(init, banditSkip, p);
      var tail := if Keep(last, banditSkip, p) then [last] else [];
      KeptAppend(Kept(init, banditSkip, p), tail, banditSkip, p);
      if Keep(last, banditSkip, p) {
        assert Kept(tail, banditSkip, p) == Kept([], banditSkip, p) + [last] by {
          assert tail[..0] == [];
        }
      }
    }
  }

  /** A finding whose code is in `bandit_skip` is never kept, whatever else holds. */
  lemma SkippedCodesDropped(findings: seq<SecurityFinding>, banditSkip: seq<string>, p: FilterPatterns)
    ensures forall f :: f in Kept(findings, banditSkip, p) ==> f.code !in banditSkip
  {
    KeptExactly(findings, banditSkip, p);
  }

  // ----- detect-secrets exclusions -----

  /** One exclusion pattern: a directory prefix "d/" stands for "d/*", and "**/x" also tries "x". */
  predicate PatternHits(path: string, pattern: string, glob: (string, string) -> bool)
  {
    var effective := if EndsWith(pattern, "/") then pattern + "*" else pattern;
    glob(path, effective) || (StartsWith(effective, "**/") && glob(path, effective[3..]))
  }

  /** `_matches_any_pattern`; `glob(p, q)` is `fnmatch(p, q) or PurePath(p).match(q)`. */
  predicate MatchesAnyPattern(path: string, patterns: seq<string>, glob: (string, string) -> bool)
  {
    |patterns| > 0 && (PatternHits(path, patterns[0], glob) || MatchesAnyPattern(path, patterns[1..], glob))
  }

  lemma {:induction false} MatchesAnyPatternExists(path: string, patterns: seq<string>, glob: (string, string) -> bool)
    ensures MatchesAnyPattern(path, patterns, glob) <==> exists i :: 0 <= i < |patterns| && PatternHits(path, patterns[i], glob)
  {
    if |patterns| > 0 {
      MatchesAnyPatternExists(path, patterns[1..], glob);
      if exists i :: 0 <= i < |patterns| && PatternHits(path, patterns[i], glob) {
        var i :| 0 <= i < |patterns| && PatternHits(path, patterns[i], glob);
        if i > 0 {
          assert patterns[1..][i - 1] == patterns[i];
        }
      }
      if MatchesAnyPattern(path, patterns[1..], glob) {
        var i :| 0 <= i < |patterns[1..]| && PatternHits(path, patterns[1..][i], glob);
        assert patterns[i + 1] == patterns[1..][i];
      }
    }
  }

  /** The files detect-secrets still scans. */
  function NotExcluded(files: seq<string>, exclude: seq<string>, toRelative: string -> string,
                       glob: (string, string) -> bool): (r: seq<string>)
    ensures forall f :: f in r <==> f in files && !MatchesAnyPattern(toRelative(f), exclude, glob)
  {
    if |files| == 0 then []
    else NotExcluded(files[..|files| - 1], exclude, toRelative, glob)
         + (if MatchesAnyPattern(toRelative(files[|files| - 1]), exclude, glob) then [] else [files[|files| - 1]])
  }

  /** `_filter_files_for_detect_secrets`. */
  method FilterFilesForDetectSecrets(files: seq<string>, exclude: seq<string>, toRelative: string -> string,
                                     glob: (string, string) -> bool) returns (result: seq<string>)
    ensures |exclude| == 0 ==> result == files
    ensures |exclude| > 0 ==> result == NotExcluded(files, exclude, toRelative, glob)
  {
    if |exclude| == 0 {
      return files;
    }
    result := [];
    var i := 0;
    while i < |files|
      invariant 0 <= i <= |files|
      invariant result == NotExcluded(files[..i], exclude, toRelative, glob)
    {
      assert files[..i + 1][..i] == files[..i];
      if !MatchesAnyPattern(toRelative(files[i]), exclude, glob) {
        result := result + [files[i]];
      }
      i := i + 1;
    }
    assert files[..i] == files;
  }

  /** With no pattern nothing matches, so the filter keeps every file. */
  lemma NoPatternsKeepAll(files: seq<string>, toRelative: string -> string, glob: (string, string) -> bool)
    ensures forall f :: f in NotExcluded(files, [], toRelative, glob) <==> f in files
  {
  }

  // ----- the orchestrator -----

  /** `SecurityConfig` as `run_security_analysis` reads it (its timeout goes to the processes). */
  datatype SecurityConfig = SecurityConfig(
    banditEnabled: bool,
    semgrepEnabled: bool,
    detectSecretsEnabled: bool,
    detectSecretsExclude: seq<string>,
    banditSkip: seq<string>)

  /** `SecurityRunResult`. */
  datatype SecurityRun = SecurityRun(findings: seq<SecurityFinding>, toolsAvailable: map<string, bool>)

  /** The outcomes of the three tools and the matching the step relies on. */
  datatype Tools = Tools(
    bandit: JsonRun<BanditIssue>,
    semgrep: JsonRun<SemgrepResult>,
    detectSecrets: JsonRun<FileSecrets>,
    toRelative: string -> string,
    inRepo: string -> string,
    glob: (string, string) -> bool,
    patterns: FilterPatterns)

  /** `[str(repo_path / f) for f in files]`: the absolute paths the tools are given. */
  function AbsFiles(files: seq<string>, t: Tools): (r: seq<string>)
    ensures |r| == |files| && forall i :: 0 <= i < |files| ==> r[i] == t.inRepo(files[i])
  {
    if |files| == 0 then [] else AbsFiles(files[..|files| - 1], t) + [t.inRepo(files[|files| - 1])]
  }

  /** The absolute files detect-secrets is given: those whose repository-relative path no pattern matches. */
  function SecretsFiles(pyFiles: seq<string>, config: SecurityConfig, t: Tools): seq<string>
  {
    var absFiles := AbsFiles(pyFiles, t);
    if |config.detectSecretsExclude| == 0 then absFiles
    else NotExcluded(absFiles, config.detectSecretsExclude, t.toRelative, t.glob)
  }

  /** The unfiltered findings: bandit's, then semgrep's, then detect-secrets', each only when enabled. */
  function CollectedFindings(pyFiles: seq<string>, config: SecurityConfig, t: Tools): seq<SecurityFinding>
  {
    (if config.banditEnabled then BanditFindings(DecodedItems(t.bandit), t.toRelative) else [])
    + (if config.semgrepEnabled then SemgrepFindings(DecodedItems(t.semgrep), t.toRelative) else [])
    + (if config.detectSecretsEnabled && SecretsFiles(pyFiles, config, t) != []
       then SecretsFindings(DecodedItems(t.detectSecrets), t.toRelative) else [])
  }

  /** The `tools_available` map `run_security_analysis` builds: one entry per enabled tool. */
  function ToolsOf(pyFiles: seq<string>, config: SecurityConfig, t: Tools): map<string, bool>
  {
    var m0: map<string, bool> := map[];
    var m1 := if config.banditEnabled then m0["bandit" := Available(t.bandit)] else m0;
    var m2 := if config.semgrepEnabled then m1["semgrep" := Available(t.semgrep)] else m1;
    if config.detectSecretsEnabled then m2["detect-secrets" := SecretsFiles(pyFiles, config, t) == [] || Available(t.detectSecrets)]
    else m2
  }

  lemma ToolsOfEntries(pyFiles: seq<string>, config: SecurityConfig, t: Tools)
    ensures var m := ToolsOf(pyFiles, config, t);
      && m.Keys <= {"bandit", "semgrep", "detect-secrets"}
      && ("bandit" in m <==> config.banditEnabled)
      && ("semgrep" in m <==> config.semgrepEnabled)
      && ("detect-secrets" in m <==> config.detectSecretsEnabled)
      && (config.banditEnabled ==> m["bandit"] == Available(t.bandit))
      && (config.semgrepEnabled ==> m["semgrep"] == Available(t.semgrep))
      && (config.detectSecretsEnabled ==>
            m["detect-secrets"] == (SecretsFiles(pyFiles, config, t) == [] || Available(t.detectSecrets)))
  {
    assert "bandit" != "semgrep" && "bandit" != "detect-secrets" && "semgrep" != "detect-secrets";
  }

  /**
   * `run_security_analysis`: no .py file means no findings and no tools;
   * otherwise an enabled tool gets a key, a detect-secrets step whose
   * files are all excluded counts as available without running, and the
   * collected findings are filtered.
   */
  method RunSecurityAnalysis(files: seq<string>, config: SecurityConfig, t: Tools) returns (r: SecurityRun)
    ensures Differ.PythonPaths(files) == [] ==> r == SecurityRun([], map[])
    ensures Differ.PythonPaths(files) != [] ==>
      && r.toolsAvailable.Keys <= {"bandit", "semgrep", "detect-secrets"}
      && ("bandit" in r.toolsAvailable <==> config.banditEnabled)
      && ("semgrep" in r.toolsAvailable <==> config.semgrepEnabled)
      && ("detect-secrets" in r.toolsAvailable <==> config.detectSecretsEnabled)
      && (config.banditEnabled ==> r.toolsAvailable["bandit"] == Available(t.bandit))
      && (config.semgrepEnabled ==> r.toolsAvailable["semgrep"] == Available(t.semgrep))
      && (config.detectSecretsEnabled ==>
            (r.toolsAvailable["detect-secrets"] ==
             (SecretsFiles(Differ.PythonPaths(files), config, t) == [] || Available(t.detectSecrets))))
      && r.findings == Kept(CollectedFindings(Differ.PythonPaths(files), config, t), config.banditSkip, t.patterns)
  {
    var pyFiles := Differ.PythonPaths(files);
    if |pyFiles| == 0 {
      return SecurityRun([], map[]);
    }
    var fromBandit, fromSemgrep, fromSecrets, tools;
    fromBandit, tools := BanditStep(config, t, map[]);
    fromSemgrep, tools := SemgrepStep(config, t, tools);
    var absFiles := AbsFiles(pyFiles, t);
    fromSecrets, tools := SecretsStep(pyFiles, absFiles, config, t, tools);
    ToolsOfEntries(pyFiles, config, t);
    var all := fromBandit + fromSemgrep + fromSecrets;
    var filtered := FilterFindings(all, config.banditSkip, t.patterns);
    r := SecurityRun(filtered, tools);
  }

  method BanditStep(config: SecurityConfig, t: Tools, tools0: map<string, bool>)
    returns (findings: seq<SecurityFinding>, tools: map<string, bool>)
    ensures findings == if config.banditEnabled then BanditFindings(DecodedItems(t.bandit), t.toRelative) else []
    ensures tools == if config.banditEnabled then tools0["bandit" := Available(t.bandit)] else tools0
  {
    findings, tools := [], tools0;
    if config.banditEnabled {
      var available;
      findings, available := RunBandit(t.bandit, t.toRelative);
      tools := tools["bandit" := available];
    }
  }

  method SemgrepStep(config: SecurityConfig, t: Tools, tools0: map<string, bool>)
    returns (findings: seq<SecurityFinding>, tools: map<string, bool>)
    ensures findings == if config.semgrepEnabled then SemgrepFindings(DecodedItems(t.semgrep), t.toRelative) else []
    ensures tools == if config.semgrepEnabled then tools0["semgrep" := Available(t.semgrep)] else tools0
  {
    findings, tools := [], tools0;
    if config.semgrepEnabled {
      var available;
      findings, available := RunSemgrep(t.semgrep, t.toRelative);
      tools := tools["semgrep" := available];
    }
  }

  /** detect-secrets runs only on the files its exclude patterns leave; with none left it counts as available. */
  method SecretsStep(pyFiles: seq<string>, absFiles: seq<string>, config: SecurityConfig, t: Tools,
                     tools0: map<string, bool>)
    returns (findings: seq<SecurityFinding>, tools: map<string, bool>)
    requires absFiles == AbsFiles(pyFiles, t)
    ensures findings == if config.detectSecretsEnabled && SecretsFiles(pyFiles, config, t) != []
      then SecretsFindings(DecodedItems(t.detectSecrets), t.toRelative) else []
    ensures tools == if config.detectSecretsEnabled
      then tools0["detect-secrets" := SecretsFiles(pyFiles, config, t) == [] || Available(t.detectSecrets)]
      else tools0
  {
    findings, tools := [], tools0;
    if config.detectSecretsEnabled {
      var dsFiles := FilterFilesForDetectSecrets(absFiles, config.detectSecretsExclude, t.toRelative, t.glob);
      if |dsFiles| > 0 {
        var available;
        findings, available := RunDetectSecrets(t.detectSecrets, t.toRelative);
        tools := tools["detect-secrets" := available];
      } else {
        tools := tools["detect-secrets" := true];
      }
    }
  }
}
