/**
 * The mutation step of `seraph`: mutmut's status words mapped onto
 * `MutantStatus`, the line-by-line reading of `mutmut results`, the outcome
 * of one file's run and the aggregation over the changed files. The mutmut
 * processes are abstract outcomes, and whether a file exists on disk is a
 * predicate supplied by the caller.
 */
module Mutator {
  import opened Outcomes
  import opened Text
  import opened Enums
  import opened Models
  import opened Ordering

  /** `MutationRunResult`. */
  datatype MutationRun = MutationRun(results: seq<MutationResult>, toolAvailable: bool)

  // ----- status words -----

  /**
   * `_map_mutmut_status`: the first case-insensitive substring that matches,
   * in the order killed/ok, survived/bad, timeout, skipped; anything else is
   * an error.
   */
  function MapStatus(status: string): (r: MutantStatus)
    ensures var low := Lower(status);
      var killed := Contains(low, "killed") || Contains(low, "ok");
      var survived := Contains(low, "survived") || Contains(low, "bad");
      (r == Killed <==> killed)
      && (r == Survived <==> !killed && survived)
      && (r == Timeout <==> !killed && !survived && Contains(low, "timeout"))
      && (r == Skipped <==> !killed && !survived && !Contains(low, "timeout") && Contains(low, "skipped"))
      && (r == Error <==> !killed && !survived && !Contains(low, "timeout") && !Contains(low, "skipped"))
  {
    var low := Lower(status);
    if Contains(low, "killed") || Contains(low, "ok") then Killed
    else if Contains(low, "survived") || Contains(low, "bad") then Survived
    else if Contains(low, "timeout") then Timeout
    else if Contains(low, "skipped") then Skipped
    else Error
  }

  /** The case of the text does not matter. */
  lemma MapStatusIgnoresCase(a: string, b: string)
    requires Lower(a) == Lower(b)
    ensures MapStatus(a) == MapStatus(b)
  {
  }

  /** A status word containing "killed" maps to KILLED whatever else it holds. */
  lemma KilledWins(pre: string, post: string)
    ensures MapStatus(pre + "killed" + post) == Killed
  {
    var s := pre + "killed" + post;
    var low := Lower(s);
    assert low[|pre|..|pre| + 6] == "killed" by {
      forall k | 0 <= k < 6
        ensures low[|pre| + k] == "killed"[k]
      {
        assert s[|pre| + k] == "killed"[k];
      }
    }
    ContainsAt(low, "killed", |pre|);
  }

  /** The status words of the tests: "killed", "ok_killed", "survived", "bad_survived", "timeout", "skipped", "???". */
  lemma KilledExample()
    ensures MapStatus("killed") == Killed
  {
    LowerUnchanged("killed");
    assert OccursAt("killed", "killed", 0);
    ContainsAt("killed", "killed", 0);
  }

  lemma OkKilledExample()
    ensures MapStatus("ok_killed") == Killed
  {
    LowerUnchanged("ok_killed");
    assert OccursAt("ok_killed", "ok", 0);
    ContainsAt("ok_killed", "ok", 0);
  }

  /** Text without upper-case ASCII letters is its own lower case. */
  lemma LowerUnchanged(s: string)
    requires forall k :: 0 <= k < |s| ==> !('A' <= s[k] <= 'Z')
    ensures Lower(s) == s
  {
  }

  lemma SurvivedExample()
    ensures MapStatus("survived") == Survived
  {
    LowerUnchanged("survived");
    AbsentChar("survived", "killed", 'k');
    AbsentChar("survived", "ok", 'k');
    assert "survived"[..8] == "survived";
  }

  lemma BadSurvivedExample()
    ensures MapStatus("bad_survived") == Survived
  {
    LowerUnchanged("bad_survived");
    AbsentChar("bad_survived", "killed", 'k');
    AbsentChar("bad_survived", "ok", 'k');
    assert OccursAt("bad_survived", "bad", 0);
    ContainsAt("bad_survived", "bad", 0);
  }

  lemma TimeoutExample()
    ensures MapStatus("timeout") == Timeout
  {
    LowerUnchanged("timeout");
    AbsentChar("timeout", "killed", 'k');
    AbsentChar("timeout", "ok", 'k');
    AbsentChar("timeout", "survived", 's');
    AbsentChar("timeout", "bad", 'b');
    assert OccursAt("timeout", "timeout", 0);
    ContainsAt("timeout", "timeout", 0);
  }

  lemma SkippedExample()
    ensures MapStatus("skipped") == Skipped
  {
    LowerUnchanged("skipped");
    AbsentChar("skipped", "killed", 'l');
    AbsentChar("skipped", "ok", 'o');
    AbsentChar("skipped", "survived", 'r');
    AbsentChar("skipped", "bad", 'b');
    AbsentChar("skipped", "timeout", 't');
    assert OccursAt("skipped", "skipped", 0);
    ContainsAt("skipped", "skipped", 0);
  }

  lemma UnknownExample()
    ensures MapStatus("???") == Error
  {
    LowerUnchanged("???");
    AbsentChar("???", "killed", 'k');
    AbsentChar("???", "ok", 'k');
    AbsentChar("???", "survived", 's');
    AbsentChar("???", "bad", 'b');
    AbsentChar("???", "timeout", 't');
    AbsentChar("???", "skipped", 's');
  }

  // ----- `mutmut results` -----

  /** The status a stripped line switches to, if it is a section header. */
  function HeaderStatus(line: string): (r: Option<MutantStatus>)
    ensures r.Some? ==> r.value in {Survived, Killed, Timeout}
    ensures r == Some(Survived) <==> StartsWith(line, "Survived")
  {
    if StartsWith(line, "Survived") then Some(Survived)
    else if StartsWith(line, "Killed") then Some(Killed)
    else if StartsWith(line, "Timeout") then Some(Timeout)
    else None
  }

  function UnknownResult(filePath: string, mutantId: string, status: MutantStatus): MutationResult
  {
    MutationResult("", filePath, mutantId, "unknown", None, status)
  }

  /** The result of one comma-separated piece: one when it is all digits once stripped. */
  function IdResult(piece: string, filePath: string, status: MutantStatus): seq<MutationResult>
  {
    var id := Strip(piece);
    if AllDigits(id) then [UnknownResult(filePath, id, status)] else []
  }

  function IdResults(pieces: seq<string>, filePath: string, status: MutantStatus): seq<MutationResult>
  {
    if |pieces| == 0 then [] else IdResult(pieces[0], filePath, status) + IdResults(pieces[1..], filePath, status)
  }

  /** The current status after a stripped line. */
  function NextStatus(line: string, status: MutantStatus): MutantStatus
  {
    match HeaderStatus(line)
    case Some(next) => next
    case None => status
  }

  /** The results one stripped line contributes: the ids of a line that starts with a digit. */
  function LineResults(line: string, status: MutantStatus, filePath: string): seq<MutationResult>
  {
    if HeaderStatus(line).None? && line != "" && IsDigit(line[0]) then IdResults(Split(line, ','), filePath, status)
    else []
  }

  /** The results of the remaining lines, with `status` as the current section. */
  function ResultsFrom(lines: seq<string>, status: MutantStatus, filePath: string): seq<MutationResult>
    decreases |lines|
  {
    if |lines| == 0 then []
    else
      var line := Strip(lines[0]);
      LineResults(line, status, filePath) + ResultsFrom(lines[1..], NextStatus(line, status), filePath)
  }

  /** `_parse_from_command`: a timed-out or missing `mutmut results` gives no results. */
  function ParseFromCommandOf(filePath: string, run: ToolRun): seq<MutationResult>
  {
    match run
    case Ran(out) => ResultsFrom(SplitLines(out), Survived, filePath)
    case TimedOut => []
    case NotFound => []
  }

  lemma ResultsFromAt(lines: seq<string>, i: int, status: MutantStatus, filePath: string)
    requires 0 <= i < |lines|
    ensures ResultsFrom(lines[i..], status, filePath)
      == LineResults(Strip(lines[i]), status, filePath)
         + ResultsFrom(lines[i + 1..], NextStatus(Strip(lines[i]), status), filePath)
  {
    assert lines[i..][0] == lines[i];
    assert lines[i..][1..] == lines[i + 1..];
  }

  lemma ParseStep(lines: seq<string>, i: int, filePath: string, status: MutantStatus,
                  results: seq<MutationResult>, found: seq<MutationResult>)
    requires 0 <= i < |lines| && found == LineResults(Strip(lines[i]), status, filePath)
    requires results + ResultsFrom(lines[i..], status, filePath) == ResultsFrom(lines, Survived, filePath)
    ensures (results + found) + ResultsFrom(lines[i + 1..], NextStatus(Strip(lines[i]), status), filePath)
      == ResultsFrom(lines, Survived, filePath)
  {
    ResultsFromAt(lines, i, status, filePath);
    AppendAssoc(results, found, ResultsFrom(lines[i + 1..], NextStatus(Strip(lines[i]), status), filePath));
  }

  /** `_parse_from_command`, with the current status as a variable updated line by line. */
  method ParseFromCommand(filePath: string, run: ToolRun) returns (results: seq<MutationResult>)
    ensures results == ParseFromCommandOf(filePath, run)
  {
    if !run.Ran? {
      return [];
    }
    results := ParseLines(SplitLines(run.stdout), filePath);
  }

  /** The line loop of `_parse_from_command`; the current status starts as SURVIVED. */
  method ParseLines(lines: seq<string>, filePath: string) returns (results: seq<MutationResult>)
    ensures results == ResultsFrom(lines, Survived, filePath)
  {
    var current := Survived;
    results := [];
    var i := 0;
    assert lines[0..] == lines;
    while i < |lines|
      invariant 0 <= i <= |lines|
      invariant results + ResultsFrom(lines[i..], current, filePath) == ResultsFrom(lines, Survived, filePath)
    {
      var before := current;
      var found;
      current, found := ParseLine(Strip(lines[i]), before, filePath);
      ParseStep(lines, i, filePath, before, results, found);
      results := results + found;
      i := i + 1;
    }
    assert lines[i..] == [];
  }

  /** One stripped line of `mutmut results`: a section header or a list of ids. */
  method ParseLine(line: string, status: MutantStatus, filePath: string)
    returns (next: MutantStatus, found: seq<MutationResult>)
    ensures next == NextStatus(line, status)
    ensures found == LineResults(line, status, filePath)
  {
    next, found := status, [];
    var header := HeaderStatus(line);
    if header.Some? {
      next := header.value;
    } else if line != "" && IsDigit(line[0]) {
      found := Ids(Split(line, ','), filePath, status);
    }
  }

  lemma IdResultsAt(pieces: seq<string>, j: int, filePath: string, status: MutantStatus)
    requires 0 <= j < |pieces|
    ensures IdResults(pieces[j..], filePath, status)
      == IdResult(pieces[j], filePath, status) + IdResults(pieces[j + 1..], filePath, status)
  {
    assert pieces[j..][0] == pieces[j];
    assert pieces[j..][1..] == pieces[j + 1..];
  }

  lemma IdsStep(pieces: seq<string>, j: int, filePath: string, status: MutantStatus,
                found: seq<MutationResult>, one: seq<MutationResult>)
    requires 0 <= j < |pieces| && one == IdResult(pieces[j], filePath, status)
    requires found + IdResults(pieces[j..], filePath, status) == IdResults(pieces, filePath, status)
    ensures (found + one) + IdResults(pieces[j + 1..], filePath, status) == IdResults(pieces, filePath, status)
  {
    IdResultsAt(pieces, j, filePath, status);
    AppendAssoc(found, one, IdResults(pieces[j + 1..], filePath, status));
  }

  /** The inner loop over `line.split(",")`. */
  method Ids(pieces: seq<string>, filePath: string, status: MutantStatus) returns (found: seq<MutationResult>)
    ensures found == IdResults(pieces, filePath, status)
  {
    found := [];
    var j := 0;
    while j < |pieces|
      invariant 0 <= j <= |pieces|
      invariant found + IdResults(pieces[j..], filePath, status) == IdResults(pieces, filePath, status)
    {
      var id := Strip(pieces[j]);
      var one: seq<MutationResult> := [];
      if AllDigits(id) {
        one := [UnknownResult(filePath, id, status)];
      }
      assert one == IdResult(pieces[j], filePath, status);
      IdsStep(pieces, j, filePath, status, found, one);
      found := found + one;
      j := j + 1;
    }
  }

  /** A result satisfying everything `ResultsShape` promises. */
  predicate Parsed(r: MutationResult, filePath: string)
  {
    r.operator == "unknown" && r.filePath == filePath && r.lineNumber.None?
    && AllDigits(r.mutantId) && r.status in {Survived, Killed, Timeout}
  }

  predicate AllParsed(rs: seq<MutationResult>, filePath: string)
  {
    forall i :: 0 <= i < |rs| ==> Parsed(rs[i], filePath)
  }

  predicate AllWithStatus(rs: seq<MutationResult>, status: MutantStatus)
  {
    forall i :: 0 <= i < |rs| ==> rs[i].status == status
  }

  lemma AppendKeeps(a: seq<MutationResult>, b: seq<MutationResult>, filePath: string, status: MutantStatus)
    ensures AllParsed(a, filePath) && AllParsed(b, filePath) ==> AllParsed(a + b, filePath)
    ensures AllWithStatus(a, status) && AllWithStatus(b, status) ==> AllWithStatus(a + b, status)
  {
    forall i | |a| <= i < |a + b|
      ensures (a + b)[i] == b[i - |a|]
    {
    }
  }

  lemma {:induction false} IdResultsShape(pieces: seq<string>, filePath: string, status: MutantStatus)
    requires status in {Survived, Killed, Timeout}
    ensures AllParsed(IdResults(pieces, filePath, status), filePath)
  {
    if |pieces| > 0 {
      var a, b := IdResult(pieces[0], filePath, status), IdResults(pieces[1..], filePath, status);
      IdResultsShape(pieces[1..], filePath, status);
      assert AllParsed(a, filePath);
      AppendKeeps(a, b, filePath, status);
    }
  }

  lemma {:induction false} IdResultsStatus(pieces: seq<string>, filePath: string, status: MutantStatus)
    ensures AllWithStatus(IdResults(pieces, filePath, status), status)
  {
    if |pieces| > 0 {
      var a, b := IdResult(pieces[0], filePath, status), IdResults(pieces[1..], filePath, status);
      IdResultsStatus(pieces[1..], filePath, status);
      assert AllWithStatus(a, status);
      AppendKeeps(a, b, filePath, status);
    }
  }

  /** Every parsed result has operator "unknown", the file's path, an all-digit id and a section status. */
  lemma {:induction false} ResultsShape(lines: seq<string>, status: MutantStatus, filePath: string)
    requires status in {Survived, Killed, Timeout}
    ensures AllParsed(ResultsFrom(lines, status, filePath), filePath)
    decreases |lines|
  {
    if |lines| > 0 {
      var line := Strip(lines[0]);
      var next := NextStatus(line, status);
      ResultsShape(lines[1..], next, filePath);
      if HeaderStatus(line).None? && line != "" && IsDigit(line[0]) {
        IdResultsShape(Split(line, ','), filePath, status);
      }
      AppendKeeps(LineResults(line, status, filePath), ResultsFrom(lines[1..], next, filePath), filePath, status);
    }
  }

  /** Before any section header every id counts as survived. */
  lemma {:induction false} NoHeaderMeansSurvived(lines: seq<string>, filePath: string)
    requires forall i :: 0 <= i < |lines| ==> HeaderStatus(Strip(lines[i])).None?
    ensures AllWithStatus(ResultsFrom(lines, Survived, filePath), Survived)
    decreases |lines|
  {
    if |lines| > 0 {
      var line := Strip(lines[0]);
      assert NextStatus(line, Survived) == Survived;
      NoHeaderMeansSurvived(lines[1..], filePath);
      if line != "" && IsDigit(line[0]) {
        IdResultsStatus(Split(line, ','), filePath, Survived);
      }
      AppendKeeps(LineResults(line, Survived, filePath), ResultsFrom(lines[1..], Survived, filePath), filePath, Survived);
    }
  }

  /** A section header line sets the status of every id up to the next header. */
  lemma HeaderThenIds(header: string, ids: string, rest: seq<string>, status: MutantStatus, filePath: string)
    requires HeaderStatus(Strip(header)).Some?
    requires var line := Strip(ids); HeaderStatus(line).None? && line != "" && IsDigit(line[0])
    ensures ResultsFrom([header, ids] + rest, status, filePath)
      == IdResults(Split(Strip(ids), ','), filePath, HeaderStatus(Strip(header)).value)
         + ResultsFrom(rest, HeaderStatus(Strip(header)).value, filePath)
  {
    var lines := [header, ids] + rest;
    var st := HeaderStatus(Strip(header)).value;
    assert lines[0] == header && lines[1..] == [ids] + rest;
    assert ResultsFrom(lines, status, filePath) == [] + ResultsFrom([ids] + rest, st, filePath);
    var tail := [ids] + rest;
    assert tail[0] == ids && tail[1..] == rest;
    assert NextStatus(Strip(ids), st) == st;
    assert ResultsFrom(tail, st, filePath) == LineResults(Strip(ids), st, filePath) + ResultsFrom(rest, st, filePath);
  }

  // ----- one file, and all files -----

  /** What `_parse_mutmut_results` reads after a completed run: mutmut's cache, or `mutmut results`. */
  datatype ResultSource = Cache(cached: seq<MutationResult>) | Command(run: ToolRun)

  /**
   * `_mutate_single_file`: a timeout yields one TIMEOUT result and counts as
   * available, a missing mutmut yields nothing and counts as unavailable,
   * and a completed run yields the parsed results.
   */
  function MutateSingleFile(filePath: string, run: ToolRun, source: ResultSource): (r: (seq<MutationResult>, bool))
    ensures run.TimedOut? ==> r == ([MutationResult("", filePath, "timeout", "all", None, Timeout)], true)
    ensures run.NotFound? ==> r == ([], false)
    ensures r.1 <==> !run.NotFound?
    ensures run.Ran? && source.Command? ==> r.0 == ParseFromCommandOf(filePath, source.run)
  {
    match run
    case TimedOut => ([MutationResult("", filePath, "timeout", "all", None, Timeout)], true)
    case NotFound => ([], false)
    case Ran(_) =>
      match source
      case Cache(cached) => (cached, true)
      case Command(c) => (ParseFromCommandOf(filePath, c), true)
  }

  /** The files `run_mutations` hands to the per-file step: .py files that exist. */
  function Eligible(files: seq<string>, onDisk: string -> bool): (r: seq<string>)
    ensures |r| <= |files|
    ensures forall i :: 0 <= i < |r| ==> EndsWith(r[i], ".py") && onDisk(r[i])
    ensures forall f :: f in r <==> f in files && EndsWith(f, ".py") && onDisk(f)
  {
    if |files| == 0 then []
    else
      var head := if EndsWith(files[0], ".py") && onDisk(files[0]) then [files[0]] else [];
      head + Eligible(files[1..], onDisk)
  }

  /** The per-file results, concatenated in file order. */
  function AllResults(files: seq<string>, mutate: string -> (seq<MutationResult>, bool)): seq<MutationResult>
  {
    if |files| == 0 then [] else mutate(files[0]).0 + AllResults(files[1..], mutate)
  }

  function AnyAvailable(files: seq<string>, mutate: string -> (seq<MutationResult>, bool)): bool
  {
    if |files| == 0 then false else mutate(files[0]).1 || AnyAvailable(files[1..], mutate)
  }

  lemma {:induction false} AnyAvailableExists(files: seq<string>, mutate: string -> (seq<MutationResult>, bool))
    ensures AnyAvailable(files, mutate) <==> exists i :: 0 <= i < |files| && mutate(files[i]).1
  {
    if |files| > 0 {
      AnyAvailableExists(files[1..], mutate);
      if exists i :: 0 <= i < |files| && mutate(files[i]).1 {
        var i :| 0 <= i < |files| && mutate(files[i]).1;
        if i > 0 {
          assert files[i] == files[1..][i - 1];
        }
      }
      if AnyAvailable(files[1..], mutate) {
        var i :| 0 <= i < |files[1..]| && mutate(files[1..][i]).1;
        assert files[i + 1] == files[1..][i];
      }
    }
  }

  /** `run_mutations` with the per-file step given as a function. */
  function RunMutationsOf(files: seq<string>, onDisk: string -> bool,
                          mutate: string -> (seq<MutationResult>, bool)): MutationRun
  {
    var e := Eligible(files, onDisk);
    MutationRun(AllResults(e, mutate), AnyAvailable(e, mutate))
  }

  /** `run_mutations`: extend the results and OR the availability flags over the eligible files. */
  method RunMutations(files: seq<string>, onDisk: string -> bool,
                      mutate: string -> (seq<MutationResult>, bool)) returns (r: MutationRun)
    ensures r == RunMutationsOf(files, onDisk, mutate)
  {
    var all: seq<MutationResult> := [];
    var available := false;
    var i := 0;
    while i < |files|
      invariant 0 <= i <= |files|
      invariant all == AllResults(Eligible(files[..i], onDisk), mutate)
      invariant available == AnyAvailable(Eligible(files[..i], onDisk), mutate)
    {
      RunStep(files, i, onDisk, mutate);
      all, available := RunFile(files[i], onDisk, mutate, all, available);
      i := i + 1;
    }
    assert files[..i] == files;
    r := MutationRun(all, available);
  }

  /** The loop body of `run_mutations`: an eligible file adds its results and may set the flag. */
  method RunFile(f: string, onDisk: string -> bool, mutate: string -> (seq<MutationResult>, bool),
                 all0: seq<MutationResult>, available0: bool) returns (all: seq<MutationResult>, available: bool)
    ensures var ok := EndsWith(f, ".py") && onDisk(f);
      all == all0 + (if ok then mutate(f).0 else []) && available == (available0 || (ok && mutate(f).1))
  {
    all, available := all0, available0;
    if EndsWith(f, ".py") && onDisk(f) {
      var run := mutate(f);
      all := all + run.0;
      available := available || run.1;
    } else {
      assert all0 + [] == all0;
    }
  }

  /** How one more file changes the aggregate of the eligible prefix. */
  lemma RunStep(files: seq<string>, i: int, onDisk: string -> bool, mutate: string -> (seq<MutationResult>, bool))
    requires 0 <= i < |files|
    ensures var f := files[i];
      var ok := EndsWith(f, ".py") && onDisk(f);
      AllResults(Eligible(files[..i + 1], onDisk), mutate)
        == AllResults(Eligible(files[..i], onDisk), mutate) + (if ok then mutate(f).0 else [])
      && AnyAvailable(Eligible(files[..i + 1], onDisk), mutate)
        == (AnyAvailable(Eligible(files[..i], onDisk), mutate) || (ok && mutate(f).1))
  {
    var f := files[i];
    var done := Eligible(files[..i], onDisk);
    EligibleSnoc(files, i, onDisk);
    if EndsWith(f, ".py") && onDisk(f) {
      AllResultsSnoc(done, f, mutate);
      AnyAvailableSnoc(done, f, mutate);
    } else {
      assert done + [] == done;
    }
  }

  lemma {:induction false} EligibleAppend(a: seq<string>, b: seq<string>, onDisk: string -> bool)
    ensures Eligible(a + b, onDisk) == Eligible(a, onDisk) + Eligible(b, onDisk)
  {
    if |a| == 0 {
      assert a + b == b;
    } else {
      assert (a + b)[1..] == a[1..] + b;
      EligibleAppend(a[1..], b, onDisk);
    }
  }

  lemma EligibleSnoc(files: seq<string>, i: int, onDisk: string -> bool)
    requires 0 <= i < |files|
    ensures Eligible(files[..i + 1], onDisk)
      == Eligible(files[..i], onDisk) + (if EndsWith(files[i], ".py") && onDisk(files[i]) then [files[i]] else [])
  {
    assert files[..i + 1] == files[..i] + [files[i]];
    EligibleAppend(files[..i], [files[i]], onDisk);
    assert [files[i]][1..] == [];
  }

  lemma {:induction false} AllResultsSnoc(files: seq<string>, f: string, mutate: string -> (seq<MutationResult>, bool))
    ensures AllResults(files + [f], mutate) == AllResults(files, mutate) + mutate(f).0
  {
    if |files| == 0 {
      assert [f][1..] == [];
    } else {
      assert (files + [f])[1..] == files[1..] + [f];
      AllResultsSnoc(files[1..], f, mutate);
    }
  }

  lemma {:induction false} AnyAvailableSnoc(files: seq<string>, f: string, mutate: string -> (seq<MutationResult>, bool))
    ensures AnyAvailable(files + [f], mutate) == (AnyAvailable(files, mutate) || mutate(f).1)
  {
    if |files| == 0 {
      assert [f][1..] == [];
    } else {
      assert (files + [f])[1..] == files[1..] + [f];
      AnyAvailableSnoc(files[1..], f, mutate);
    }
  }

  /** With no eligible file the per-file step is never consulted. */
  lemma NothingEligible(files: seq<string>, onDisk: string -> bool, mutate: string -> (seq<MutationResult>, bool))
    requires forall i :: 0 <= i < |files| ==> !EndsWith(files[i], ".py") || !onDisk(files[i])
    ensures RunMutationsOf(files, onDisk, mutate) == MutationRun([], false)
  {
  }

  /** The per-file step's answers on ineligible files do not matter. */
  lemma {:induction false} OnlyEligibleConsulted(files: seq<string>, onDisk: string -> bool,
                                                 m1: string -> (seq<MutationResult>, bool),
                                                 m2: string -> (seq<MutationResult>, bool))
    requires forall f :: EndsWith(f, ".py") && onDisk(f) ==> m1(f) == m2(f)
    ensures RunMutationsOf(files, onDisk, m1) == RunMutationsOf(files, onDisk, m2)
  {
    var e := Eligible(files, onDisk);
    AgreeOn(e, m1, m2);
  }

  lemma {:induction false} AgreeOn(e: seq<string>, m1: string -> (seq<MutationResult>, bool),
                                   m2: string -> (seq<MutationResult>, bool))
    requires forall i :: 0 <= i < |e| ==> m1(e[i]) == m2(e[i])
    ensures AllResults(e, m1) == AllResults(e, m2) && AnyAvailable(e, m1) == AnyAvailable(e, m2)
  {
    if |e| > 0 {
      AgreeOn(e[1..], m1, m2);
    }
  }

  /** The tool counts as available iff some eligible file's step reported it available. */
  lemma AvailableIffSomeFile(files: seq<string>, onDisk: string -> bool, mutate: string -> (seq<MutationResult>, bool))
    ensures RunMutationsOf(files, onDisk, mutate).toolAvailable
      <==> exists f :: f in files && EndsWith(f, ".py") && onDisk(f) && mutate(f).1
  {
    var e := Eligible(files, onDisk);
    AnyAvailableExists(e, mutate);
    if exists f :: f in files && EndsWith(f, ".py") && onDisk(f) && mutate(f).1 {
      var f :| f in files && EndsWith(f, ".py") && onDisk(f) && mutate(f).1;
      assert f in e;
      var i :| 0 <= i < |e| && e[i] == f;
    }
  }
}
