/**
 * `verdict`'s flakiness baseline: the test suite runs several times
 * unmutated, and a test that fails in some runs but not all is flaky.
 * Each run's outcome is an input; a Python set of test ids is a sequence
 * without duplicates.
 */
module Baseline {
  import opened Outcomes
  import opened Text
  import opened Models
  import opened Numbers
  import opened Ordering

  predicate Distinct(s: seq<string>)
  {
    forall i, j :: 0 <= i < j < |s| ==> s[i] != s[j]
  }

  /** `ids.add(x)`. */
  function AddId(ids: seq<string>, x: string): (r: seq<string>)
    ensures Elems(r) == Elems(ids) + {x}
    ensures Distinct(ids) ==> Distinct(r)
    ensures |r| <= |ids| + 1
  {
    if x in ids then ids
    else
      assert Elems(ids + [x]) == Elems(ids) + {x} by {
        assert forall y :: y in ids + [x] <==> y in ids || y == x;
      }
      ids + [x]
  }

  /** `ids.update(xs)`. */
  function AddAll(ids: seq<string>, xs: seq<string>): (r: seq<string>)
    ensures Elems(r) == Elems(ids) + Elems(xs)
    ensures Distinct(ids) ==> Distinct(r)
  {
    if |xs| == 0 then ids
    else
      assert Elems(xs) == Elems(xs[..|xs| - 1]) + {xs[|xs| - 1]} by {
        assert xs == xs[..|xs| - 1] + [xs[|xs| - 1]];
      }
      AddId(AddAll(ids, xs[..|xs| - 1]), xs[|xs| - 1])
  }

  // ----- parsing pytest -v output -----

  /** The test id a line reports as failed: the stripped text before " FAILED", unless empty. */
  function FailedId(line: string): (r: Option<string>)
    ensures r.Some? ==> Contains(line, " FAILED") && r.value != "" && r.value == Strip(Before(line, " FAILED"))
    ensures !Contains(line, " FAILED") ==> r.None?
  {
    if Contains(line, " FAILED") then
      var id := Strip(Before(line, " FAILED"));
      if id != "" then Some(id) else None
    else None
  }

  /** The set `_parse_pytest_failures` builds from the first lines. */
  function FailuresIn(lines: seq<string>): seq<string>
  {
    if |lines| == 0 then []
    else match FailedId(lines[|lines| - 1])
      case Some(id) => AddId(FailuresIn(lines[..|lines| - 1]), id)
      case None => FailuresIn(lines[..|lines| - 1])
  }

  method FailureLines(lines: seq<string>) returns (failures: seq<string>)
    ensures failures == FailuresIn(lines)
  {
    failures := [];
    var i := 0;
    while i < |lines|
      invariant 0 <= i <= |lines|
      invariant failures == FailuresIn(lines[..i])
    {
      assert lines[..i + 1][..i] == lines[..i];
      var id := FailedId(lines[i]);
      if id.Some? {
        failures := AddId(failures, id.value);
      }
      i := i + 1;
    }
    assert lines[..i] == lines;
  }

  /** `_parse_pytest_failures`. */
  method ParsePytestFailures(output: string) returns (failures: seq<string>)
    ensures failures == FailuresIn(SplitLines(output))
  {
    failures := FailureLines(SplitLines(output));
  }

  /** The failures are exactly the ids some line reports, each once. */
  lemma {:induction false} FailuresExactly(lines: seq<string>)
    ensures Distinct(FailuresIn(lines))
    ensures forall id :: id in FailuresIn(lines) <==> exists j :: 0 <= j < |lines| && FailedId(lines[j]) == Some(id)
  {
    if |lines| > 0 {
      var init := lines[..|lines| - 1];
      FailuresExactly(init);
      FailuresSnoc(lines);
      forall id
        ensures id in FailuresIn(lines) <==> exists j :: 0 <= j < |lines| && FailedId(lines[j]) == Some(id)
      {
        if exists j :: 0 <= j < |lines| && FailedId(lines[j]) == Some(id) {
          var j :| 0 <= j < |lines| && FailedId(lines[j]) == Some(id);
          if j < |lines| - 1 {
            assert init[j] == lines[j];
          }
        }
        if id in FailuresIn(init) {
          var j :| 0 <= j < |init| && FailedId(init[j]) == Some(id);
          assert lines[j] == init[j];
        }
      }
    }
  }

  lemma FailuresSnoc(lines: seq<string>)
    requires |lines| > 0
    ensures Distinct(FailuresIn(lines[..|lines| - 1])) ==> Distinct(FailuresIn(lines))
    ensures forall id :: id in FailuresIn(lines) <==>
      id in FailuresIn(lines[..|lines| - 1]) || FailedId(lines[|lines| - 1]) == Some(id)
  {
    var init := FailuresIn(lines[..|lines| - 1]);
    match FailedId(lines[|lines| - 1])
    case None =>
    case Some(x) =>
      assert FailuresIn(lines) == AddId(init, x);
      forall id
        ensures id in AddId(init, x) <==> id in init || id == x
      {
        assert id in AddId(init, x) <==> id in Elems(AddId(init, x));
        assert id in init <==> id in Elems(init);
      }
  }

  /** Output with no " FAILED" anywhere reports no failure. */
  lemma {:induction false} NoFailedLines(lines: seq<string>)
    requires forall j :: 0 <= j < |lines| ==> !Contains(lines[j], " FAILED")
    ensures FailuresIn(lines) == []
  {
    if |lines| > 0 {
      NoFailedLines(lines[..|lines| - 1]);
    }
  }

  // ----- one test run -----

  /** The command's words, with "-v" added to a pytest command that lacks it; an empty command raises. */
  function TestCommand(testCmd: string): (r: Step<seq<string>>)
    ensures Words(testCmd) == [] <==> r.Raised?
    ensures r.Ok? ==> |Words(testCmd)| <= |r.value| <= |Words(testCmd)| + 1 && r.value[..|Words(testCmd)|] == Words(testCmd)
    ensures r.Ok? && r.value[0] == "pytest" ==> "-v" in r.value
    ensures r.Ok? && (r.value[0] != "pytest" || "-v" in Words(testCmd)) ==> r.value == Words(testCmd)
  {
    var parts := Words(testCmd);
    if |parts| == 0 then Raised
    else if parts[0] == "pytest" && "-v" !in parts then
      assert (parts + ["-v"])[|parts|] == "-v";
      Ok(parts + ["-v"])
    else Ok(parts)
  }

  /** The id a timed-out run reports as its only failure. */
  const TimeoutId := "__timeout__"

  /**
   * `_run_tests_once`: the failures of the run, the single failure
   * "__timeout__" after a timeout; a missing executable or an empty command
   * raises, since nothing catches it.
   */
  function RunTestsOnce(testCmd: string, run: ToolRun): (r: Step<seq<string>>)
    ensures r.Raised? <==> TestCommand(testCmd).Raised? || run.NotFound?
    ensures r.Ok? && run.TimedOut? ==> r.value == [TimeoutId]
    ensures r.Ok? ==> Distinct(r.value)
  {
    if TestCommand(testCmd).Raised? then Raised
    else match run
      case TimedOut => Ok([TimeoutId])
      case NotFound => Raised
      case Ran(out) =>
        FailuresExactly(SplitLines(out));
        Ok(FailuresIn(SplitLines(out)))
  }

  // ----- the baseline -----

  /** How many runs failed `id`. */
  function FailCount(runs: seq<seq<string>>, id: string): (n: nat)
    ensures n <= |runs|
  {
    if |runs| == 0 then 0
    else FailCount(runs[..|runs| - 1], id) + (if id in runs[|runs| - 1] then 1 else 0)
  }

  /** `all_test_ids`, built run by run. */
  function AllIds(runs: seq<seq<string>>): (r: seq<string>)
    ensures Distinct(r)
  {
    if |runs| == 0 then [] else AddAll(AllIds(runs[..|runs| - 1]), runs[|runs| - 1])
  }

  /** Σ len(failures). */
  function TotalFailures(runs: seq<seq<string>>): nat
  {
    if |runs| == 0 then 0 else TotalFailures(runs[..|runs| - 1]) + |runs[|runs| - 1]|
  }

  /** The ids of `ids` failed by some runs but not by all `runCount`. */
  function FlakyAmong(ids: seq<string>, runs: seq<seq<string>>, runCount: int): seq<string>
  {
    if |ids| == 0 then []
    else FlakyAmong(ids[..|ids| - 1], runs, runCount)
         + (var n := FailCount(runs, ids[|ids| - 1]); if 0 < n < runCount then [ids[|ids| - 1]] else [])
  }

  /** The flaky tests, sorted. */
  function Flaky(runs: seq<seq<string>>, runCount: int): seq<string>
  {
    FlakyAmong(SortedDistinct(AllIds(runs)), runs, runCount)
  }

  /** 1 less the average failures per run over the distinct ids, floored at 0; 1 with no failure. */
  function PassRate(runs: seq<seq<string>>, runCount: int): real
  {
    var ids := AllIds(runs);
    if |ids| > 0 && runCount != 0 then
      var avg := TotalFailures(runs) as real / runCount as real;
      Max(0.0, 1.0 - avg / (if |ids| > 1 then |ids| else 1) as real)
    else 1.0
  }

  /** Each run's failures, until the first run that raises. */
  function RunsOf(testCmd: string, run: nat -> ToolRun, count: nat): (r: Step<seq<seq<string>>>)
    ensures r.Ok? ==> |r.value| == count
  {
    if count == 0 then Ok([])
    else match RunsOf(testCmd, run, count - 1)
      case Raised => Raised
      case Ok(runs) =>
        match RunTestsOnce(testCmd, run(count - 1))
        case Raised => Raised
        case Ok(failures) => Ok(runs + [failures])
  }

  /** The result of `run_baseline`, with the record's id and timestamp supplied. */
  function BaselineOf(repoPath: string, testCmd: string, runCount: int, run: nat -> ToolRun,
                      id: string, createdAt: int): Step<BaselineResult>
  {
    var count := if runCount > 0 then runCount else 0;
    match RunsOf(testCmd, run, count)
    case Raised => Raised
    case Ok(runs) =>
      Ok(BaselineResult(id, repoPath, testCmd, runCount, Flaky(runs, runCount),
                        Round4(PassRate(runs, runCount)), createdAt))
  }

  /** The first loop of `run_baseline`: each run's failures, or the first run that raises. */
  method CollectRuns(testCmd: string, run: nat -> ToolRun, count: nat) returns (r: Step<seq<seq<string>>>)
    ensures r == RunsOf(testCmd, run, count)
  {
    var runs: seq<seq<string>> := [];
    var k := 0;
    while k < count
      invariant 0 <= k <= count
      invariant RunsOf(testCmd, run, k) == Ok(runs)
    {
      var failures := RunTestsOnce(testCmd, run(k));
      if failures.Raised? {
        assert RunsOf(testCmd, run, k + 1).Raised?;
        RaisedStays(testCmd, run, k + 1, count);
        return Raised;
      }
      assert RunsOf(testCmd, run, k + 1) == Ok(runs + [failures.value]);
      runs := runs + [failures.value];
      k := k + 1;
    }
    r := Ok(runs);
  }

  /** `all_test_ids.update(failures)` for every run. */
  method UnionIds(runs: seq<seq<string>>) returns (allIds: seq<string>)
    ensures allIds == AllIds(runs)
  {
    allIds := [];
    var i := 0;
    while i < |runs|
      invariant 0 <= i <= |runs|
      invariant allIds == AllIds(runs[..i])
    {
      assert runs[..i + 1][..i] == runs[..i];
      allIds := AddAll(allIds, runs[i]);
      i := i + 1;
    }
    assert runs[..i] == runs;
  }

  /** The loop over `sorted(all_test_ids)` that keeps the flaky ones. */
  method FlakyIds(sortedIds: seq<string>, runs: seq<seq<string>>, runCount: int) returns (flaky: seq<string>)
    ensures flaky == FlakyAmong(sortedIds, runs, runCount)
  {
    flaky := [];
    var j := 0;
    while j < |sortedIds|
      invariant 0 <= j <= |sortedIds|
      invariant flaky == FlakyAmong(sortedIds[..j], runs, runCount)
    {
      assert sortedIds[..j + 1][..j] == sortedIds[..j];
      var failCount := FailCount(runs, sortedIds[j]);
      if 0 < failCount < runCount {
        flaky := flaky + [sortedIds[j]];
      }
      j := j + 1;
    }
    assert sortedIds[..j] == sortedIds;
  }

  /** `run_baseline`; `run(k)` is how the k-th test run ends. */
  method RunBaseline(repoPath: string, testCmd: string, runCount: int, run: nat -> ToolRun,
                     id: string, createdAt: int) returns (r: Step<BaselineResult>)
    ensures r == BaselineOf(repoPath, testCmd, runCount, run, id, createdAt)
  {
    var count := if runCount > 0 then runCount else 0;
    var collected := CollectRuns(testCmd, run, count);
    if collected.Raised? {
      return Raised;
    }
    var runs := collected.value;
    var allIds := UnionIds(runs);
    var flaky := FlakyIds(SortedDistinct(allIds), runs, runCount);
    var totalResults := TotalFailures(runs);
    var passRate;
    if |allIds| > 0 {
      assert runs != [];
      var avgFailures := totalResults as real / runCount as real;
      passRate := Max(0.0, 1.0 - avgFailures / (if |allIds| > 1 then |allIds| else 1) as real);
    } else {
      passRate := 1.0;
    }
    assert passRate == PassRate(runs, runCount);
    r := Ok(BaselineResult(id, repoPath, testCmd, runCount, flaky, Round4(passRate), createdAt));
  }

  /** Once a run raises, so does every longer sequence of runs. */
  lemma {:induction false} RaisedStays(testCmd: string, run: nat -> ToolRun, k: nat, count: nat)
    requires k <= count && RunsOf(testCmd, run, k).Raised?
    ensures RunsOf(testCmd, run, count).Raised?
    decreases count - k
  {
    if k < count {
      RaisedStays(testCmd, run, k + 1, count);
    }
  }

  // ----- what the baseline promises -----

  lemma {:induction false} FailCountPositive(runs: seq<seq<string>>, id: string)
    ensures FailCount(runs, id) > 0 <==> id in Elems(AllIds(runs))
  {
    if |runs| > 0 {
      FailCountPositive(runs[..|runs| - 1], id);
    }
  }

  lemma {:induction false} FlakyAmongExactly(ids: seq<string>, runs: seq<seq<string>>, runCount: int)
    ensures forall t :: t in FlakyAmong(ids, runs, runCount) <==> t in ids && 0 < FailCount(runs, t) < runCount
  {
    if |ids| > 0 {
      FlakyAmongExactly(ids[..|ids| - 1], runs, runCount);
      assert forall t :: t in ids <==> t in ids[..|ids| - 1] || t == ids[|ids| - 1] by {
        assert ids == ids[..|ids| - 1] + [ids[|ids| - 1]];
      }
    }
  }

  /** Keeping some elements of a strictly sorted sequence keeps it strictly sorted. */
  lemma {:induction false} FlakyAmongSorted(ids: seq<string>, runs: seq<seq<string>>, runCount: int)
    requires StrictlySorted(ids)
    ensures StrictlySorted(FlakyAmong(ids, runs, runCount))
  {
    if |ids| > 0 {
      var init := ids[..|ids| - 1];
      assert StrictlySorted(init);
      FlakyAmongSorted(init, runs, runCount);
      FlakyAmongExactly(init, runs, runCount);
      var f := FlakyAmong(init, runs, runCount);
      forall i | 0 <= i < |f|
        ensures StrLt(f[i], ids[|ids| - 1])
      {
        assert f[i] in init;
        var m :| 0 <= m < |init| && init[m] == f[i];
        assert ids[m] == f[i];
      }
    }
  }

  /**
   * The flaky tests are exactly the tests that failed in some runs but not
   * in all of them, listed in sorted order without repeats.
   */
  lemma FlakyExactly(runs: seq<seq<string>>, runCount: int)
    ensures StrictlySorted(Flaky(runs, runCount))
    ensures forall t :: t in Flaky(runs, runCount) <==> 0 < FailCount(runs, t) < runCount
  {
    var ids := SortedDistinct(AllIds(runs));
    FlakyAmongSorted(ids, runs, runCount);
    FlakyAmongExactly(ids, runs, runCount);
    forall t
      ensures t in Flaky(runs, runCount) <==> 0 < FailCount(runs, t) < runCount
    {
      FailCountPositive(runs, t);
      assert t in ids <==> t in Elems(ids);
    }
  }

  /** A test that fails in all `runCount` runs is consistently failing, not flaky. */
  lemma {:induction false} AlwaysFailingNotFlaky(runs: seq<seq<string>>, t: string)
    requires forall k :: 0 <= k < |runs| ==> t in runs[k]
    ensures FailCount(runs, t) == |runs|
    ensures t !in Flaky(runs, |runs|)
  {
    if |runs| > 0 {
      AlwaysFailingNotFlaky(runs[..|runs| - 1], t);
    }
    FlakyExactly(runs, |runs|);
  }

  /** Without any failure there is nothing flaky and the pass rate is 1. */
  lemma {:induction false} NoFailuresAllStable(runs: seq<seq<string>>, runCount: int)
    requires forall k :: 0 <= k < |runs| ==> runs[k] == []
    ensures AllIds(runs) == []
    ensures Flaky(runs, runCount) == [] && PassRate(runs, runCount) == 1.0
  {
    if |runs| > 0 {
      NoFailuresAllStable(runs[..|runs| - 1], runCount);
    }
  }

  /** The pass rate lies in [0, 1], and so does its rounding. */
  lemma PassRateBounds(runs: seq<seq<string>>, runCount: int)
    requires runCount > 0
    ensures 0.0 <= PassRate(runs, runCount) <= 1.0
    ensures 0.0 <= Round4(PassRate(runs, runCount)) <= 1.0
  {
    var ids := AllIds(runs);
    if |ids| > 0 {
      var avg := TotalFailures(runs) as real / runCount as real;
      assert avg >= 0.0;
      var d := (if |ids| > 1 then |ids| else 1) as real;
      assert avg / d >= 0.0;
    }
  }

  /** The run count is the argument, and a baseline that does not raise lists only flaky tests. */
  lemma BaselineFields(repoPath: string, testCmd: string, runCount: int, run: nat -> ToolRun, id: string, createdAt: int)
    requires BaselineOf(repoPath, testCmd, runCount, run, id, createdAt).Ok?
    ensures var b := BaselineOf(repoPath, testCmd, runCount, run, id, createdAt).value;
      && b.id == id && b.createdAt == createdAt
      && b.runCount == runCount && b.repoPath == repoPath && b.testCmd == testCmd
      && StrictlySorted(b.flakyTests)
      && (runCount > 0 ==> 0.0 <= b.passRate <= 1.0)
  {
    var count := if runCount > 0 then runCount else 0;
    var runs := RunsOf(testCmd, run, count).value;
    FlakyExactly(runs, runCount);
    if runCount > 0 {
      PassRateBounds(runs, runCount);
    }
  }

  /** Runs {a, b}, {a}, {a, b}: b is flaky, a fails every time and is not. */
  lemma FlakyExample()
    ensures "test_b" in Flaky([["test_a", "test_b"], ["test_a"], ["test_a", "test_b"]], 3)
    ensures "test_a" !in Flaky([["test_a", "test_b"], ["test_a"], ["test_a", "test_b"]], 3)
  {
    var runs := [["test_a", "test_b"], ["test_a"], ["test_a", "test_b"]];
    ExampleCounts(runs);
    FlakyExactly(runs, 3);
  }

  lemma ExampleCounts(runs: seq<seq<string>>)
    requires runs == [["test_a", "test_b"], ["test_a"], ["test_a", "test_b"]]
    ensures FailCount(runs, "test_b") == 2 && FailCount(runs, "test_a") == 3
  {
    var one, two := runs[..1], runs[..2];
    assert two[..1] == one && one[..0] == [] && runs[..2] == two;
    assert "test_b" in runs[0] && "test_b" !in runs[1] && "test_b" in runs[2];
    assert "test_a" in runs[0] && "test_a" in runs[1] && "test_a" in runs[2];
    assert FailCount(one, "test_b") == 1 && FailCount(two, "test_b") == 1;
    assert FailCount(one, "test_a") == 1 && FailCount(two, "test_a") == 2;
  }
}
