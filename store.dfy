/**
 * `verdict`'s SQLite store, as the tables it holds: assessments, the
 * mutation rows and baselines saved with them, and feedback. A table is a
 * sequence of rows in insertion order; `ORDER BY created_at DESC` is a
 * stable sort on integer timestamps, and the retention cutoff is an
 * integer timestamp supplied by the caller.
 */
module Store {
  import opened Outcomes
  import opened Enums
  import opened Models
  import opened Ordering

  const SchemaVersion := 2

  /** The registered migrations, by the version they start from. */
  const Migrations: map<int, string> := map[1 := "add the query indices"]

  /** A feedback row; its context column may be NULL. */
  datatype FeedbackRow = FeedbackRow(
    id: string,
    assessmentId: string,
    outcome: string,
    context: Option<string>,
    createdAt: int)

  /** The contents of the four data tables. */
  datatype Tables = Tables(
    assessments: seq<StoredAssessment>,
    mutations: seq<StoredMutation>,
    baselines: seq<StoredBaseline>,
    feedback: seq<FeedbackRow>)

  // ----- schema versions -----

  /** The versions in [from, to) that have a migration, ascending: `range(current, SCHEMA_VERSION)`. */
  function PendingMigrations(from: int, to: int, m: map<int, string>): seq<int>
    decreases to - from
  {
    if to <= from then []
    else PendingMigrations(from, to - 1, m) + (if to - 1 in m then [to - 1] else [])
  }

  /** The migrations run are exactly the registered versions in range, each once, in ascending order. */
  lemma {:induction false} PendingExactly(from: int, to: int, m: map<int, string>)
    ensures forall v :: v in PendingMigrations(from, to, m) <==> from <= v < to && v in m
    ensures forall i, j :: 0 <= i < j < |PendingMigrations(from, to, m)| ==>
      (PendingMigrations(from, to, m)[i] < PendingMigrations(from, to, m)[j])
    decreases if to <= from then 0 else to - from
  {
    if from < to {
      PendingExactly(from, to - 1, m);
      var before := PendingMigrations(from, to - 1, m);
      assert forall i :: 0 <= i < |before| ==> before[i] < to - 1 by {
        forall i | 0 <= i < |before|
          ensures before[i] < to - 1
        {
          assert before[i] in before;
        }
      }
    }
  }

  /** The migrations opening a database runs: none on a fresh one or one at (or past) the current version. */
  function MigrationsOnOpen(stored: Option<int>): seq<int>
  {
    match stored
    case None => []
    case Some(v) => if v < SchemaVersion then PendingMigrations(v, SchemaVersion, Migrations) else []
  }

  /** The schema version after opening: the current one, unless the database is newer. */
  function VersionOnOpen(stored: Option<int>): (v: int)
    ensures v >= SchemaVersion
    ensures stored.None? ==> v == SchemaVersion
    ensures stored.Some? ==> v >= stored.value
  {
    match stored
    case None => SchemaVersion
    case Some(v) => if v < SchemaVersion then SchemaVersion else v
  }

  /** A fresh or current database runs nothing; a version 1 database runs the one migration from 1. */
  lemma MigrationsOnOpenCases()
    ensures MigrationsOnOpen(None) == [] && MigrationsOnOpen(Some(SchemaVersion)) == []
    ensures MigrationsOnOpen(Some(1)) == [1]
    ensures forall v :: v in MigrationsOnOpen(Some(0)) <==> v == 1
  {
    PendingExactly(0, SchemaVersion, Migrations);
  }

  // ----- rows -----

  predicate KnownAssessment(rows: seq<StoredAssessment>, id: string)
  {
    exists i :: 0 <= i < |rows| && rows[i].id == id
  }

  predicate KnownBaseline(rows: seq<StoredBaseline>, id: string)
  {
    exists i :: 0 <= i < |rows| && rows[i].id == id
  }

  predicate KnownFeedback(rows: seq<FeedbackRow>, id: string)
  {
    exists i :: 0 <= i < |rows| && rows[i].id == id
  }

  /** The assessments row of a report. */
  function AssessmentRow(r: AssessmentReport): StoredAssessment
  {
    StoredAssessment(r.id, r.repoPath, r.refBefore, r.refAfter, r.filesChanged,
                     Some(r.mutationScore), Some(r.staticIssues), Some(r.sentinelWarnings),
                     r.baselineFlaky, r.overallGrade.Value(), r.createdAt)
  }

  function MutationRow(m: MutationResult, assessmentId: string): StoredMutation
  {
    StoredMutation(assessmentId, m.filePath, m.mutantId, m.operator, m.lineNumber, m.status.Value())
  }

  /** The mutation rows of a report, each tagged with the report's id. */
  function MutationRows(muts: seq<MutationResult>, assessmentId: string): (r: seq<StoredMutation>)
    ensures |r| == |muts| && forall k :: 0 <= k < |muts| ==> r[k] == MutationRow(muts[k], assessmentId)
  {
    seq(|muts|, k requires 0 <= k < |muts| => MutationRow(muts[k], assessmentId))
  }

  function BaselineRow(b: BaselineResult): StoredBaseline
  {
    StoredBaseline(b.id, b.repoPath, b.testCmd, b.runCount, b.flakyTests, Some(b.passRate), b.createdAt)
  }

  /** `save_assessment`: the report's row, its mutation rows and its baseline, if any, are appended. */
  function Saved(t: Tables, r: AssessmentReport): Tables
  {
    Tables(t.assessments + [AssessmentRow(r)],
           t.mutations + MutationRows(r.mutations, r.id),
           t.baselines + (if r.baseline.Some? then [BaselineRow(r.baseline.value)] else []),
           t.feedback)
  }

  function FeedbackRowOf(fb: Feedback): FeedbackRow
  {
    FeedbackRow(fb.id, fb.assessmentId, fb.outcome.Value(), Some(fb.context), fb.createdAt)
  }

  // ----- reading assessments -----

  /** `get_assessment`: the row with that id. */
  function FindAssessment(rows: seq<StoredAssessment>, id: string): (r: Option<StoredAssessment>)
    ensures r.None? <==> !KnownAssessment(rows, id)
    ensures r.Some? ==> r.value in rows && r.value.id == id
  {
    if |rows| == 0 then None
    else if rows[0].id == id then Some(rows[0])
    else
      var r := FindAssessment(rows[1..], id);
      assert KnownAssessment(rows, id) ==> KnownAssessment(rows[1..], id) by {
        if KnownAssessment(rows, id) {
          var i :| 0 <= i < |rows| && rows[i].id == id;
          assert rows[1..][i - 1] == rows[i];
        }
      }
      assert KnownAssessment(rows[1..], id) ==> KnownAssessment(rows, id) by {
        if KnownAssessment(rows[1..], id) {
          var i :| 0 <= i < |rows[1..]| && rows[1..][i].id == id;
          assert rows[i + 1] == rows[1..][i];
        }
      }
      r
  }

  lemma {:induction false} FindAppend(rows: seq<StoredAssessment>, row: StoredAssessment, id: string)
    ensures FindAssessment(rows + [row], id)
         == if KnownAssessment(rows, id) then FindAssessment(rows, id) else if row.id == id then Some(row) else None
  {
    if |rows| > 0 {
      assert (rows + [row])[1..] == rows[1..] + [row];
      if rows[0].id != id {
        FindAppend(rows[1..], row, id);
      }
    } else {
      assert rows + [row] == [row];
    }
  }

  /** A saved report comes back by its id with the fields it was saved with; other ids are unaffected. */
  lemma SaveThenGet(t: Tables, r: AssessmentReport, id: string)
    requires !KnownAssessment(t.assessments, r.id)
    ensures FindAssessment(Saved(t, r).assessments, r.id) == Some(AssessmentRow(r))
    ensures id != r.id ==> FindAssessment(Saved(t, r).assessments, id) == FindAssessment(t.assessments, id)
  {
    FindAppend(t.assessments, AssessmentRow(r), r.id);
    FindAppend(t.assessments, AssessmentRow(r), id);
  }

  /** Saving adds one mutation row per mutation and at most one baseline row, and leaves feedback alone. */
  lemma SaveAddsRows(t: Tables, r: AssessmentReport)
    ensures var s := Saved(t, r);
      && |s.assessments| == |t.assessments| + 1
      && |s.mutations| == |t.mutations| + |r.mutations|
      && s.mutations[..|t.mutations|] == t.mutations
      && (forall k :: |t.mutations| <= k < |s.mutations| ==> s.mutations[k].assessmentId == r.id)
      && |s.baselines| == |t.baselines| + (if r.baseline.Some? then 1 else 0)
      && s.feedback == t.feedback
  {
  }

  function CreatedAtOf(a: StoredAssessment): int
  {
    a.createdAt
  }

  /** The assessments of one repository, in insertion order. */
  function ForRepo(rows: seq<StoredAssessment>, repo: string): (r: seq<StoredAssessment>)
    ensures forall a :: a in r <==> a in rows && a.repoPath == repo
  {
    if |rows| == 0 then []
    else
      assert forall a :: a in rows <==> a in rows[..|rows| - 1] || a == rows[|rows| - 1] by {
        assert rows == rows[..|rows| - 1] + [rows[|rows| - 1]];
      }
      ForRepo(rows[..|rows| - 1], repo) + (if rows[|rows| - 1].repoPath == repo then [rows[|rows| - 1]] else [])
  }

  /** `LIMIT limit OFFSET offset`: a negative limit means no limit and a negative offset none. */
  function Page<T>(s: seq<T>, limit: int, offset: int): (r: seq<T>)
    ensures limit >= 0 ==> |r| <= limit
    ensures forall x :: x in r ==> x in s
  {
    var rest := if offset <= 0 then s else if offset >= |s| then [] else s[offset..];
    if limit < 0 || limit >= |rest| then rest else rest[..limit]
  }

  /** Consecutive pages cover the rows in order: the page of size a, then a page of size b at offset a. */
  lemma PageSplit<T>(s: seq<T>, a: nat, b: nat)
    ensures Page(s, a, 0) + Page(s, b, a) == Page(s, a + b, 0)
  {
    if a + b < |s| {
      assert s[..a] + s[a..][..b] == s[..a + b];
    } else if a < |s| {
      assert s[..a] + s[a..] == s;
    }
  }

  /** `get_assessments`: the rows of `repo` when one is given (an empty name filters nothing), newest first, paged. */
  function Assessments(t: Tables, limit: int, offset: int, repo: Option<string>): (r: seq<StoredAssessment>)
    ensures limit >= 0 ==> |r| <= limit
    ensures forall a :: a in r ==> a in t.assessments && (repo.Some? && repo.value != "" ==> a.repoPath == repo.value)
  {
    var rows := if repo.Some? && repo.value != "" then ForRepo(t.assessments, repo.value) else t.assessments;
    var sorted := SortDesc(rows, CreatedAtOf);
    assert forall a :: a in sorted ==> a in rows by {
      forall a | a in sorted
        ensures a in rows
      {
        assert a in multiset(sorted);
      }
    }
    Page(sorted, limit, offset)
  }

  lemma PageSorted(s: seq<StoredAssessment>, limit: int, offset: int)
    requires SortedDesc(s, CreatedAtOf)
    ensures SortedDesc(Page(s, limit, offset), CreatedAtOf)
  {
    var rest := if offset <= 0 then s else if offset >= |s| then [] else s[offset..];
    if offset > 0 && offset < |s| {
      assert forall i :: 0 <= i < |rest| ==> rest[i] == s[offset + i];
    }
  }

  /** Every page lists newest first, and the first page is the newest rows: none left out is newer than one shown. */
  lemma AssessmentsNewestFirst(t: Tables, limit: int, repo: Option<string>)
    ensures SortedDesc(Assessments(t, limit, 0, repo), CreatedAtOf)
  {
    var rows := if repo.Some? && repo.value != "" then ForRepo(t.assessments, repo.value) else t.assessments;
    SortDescSorted(rows, CreatedAtOf);
    PageSorted(SortDesc(rows, CreatedAtOf), limit, 0);
  }

  // ----- baselines -----

  function BaselineCreated(b: StoredBaseline): int
  {
    b.createdAt
  }

  function BaselinesFor(rows: seq<StoredBaseline>, repo: string): (r: seq<StoredBaseline>)
    ensures forall b :: b in r <==> b in rows && b.repoPath == repo
  {
    if |rows| == 0 then []
    else
      assert forall b :: b in rows <==> b in rows[..|rows| - 1] || b == rows[|rows| - 1] by {
        assert rows == rows[..|rows| - 1] + [rows[|rows| - 1]];
      }
      BaselinesFor(rows[..|rows| - 1], repo) + (if rows[|rows| - 1].repoPath == repo then [rows[|rows| - 1]] else [])
  }

  /** `get_latest_baseline`: the newest baseline of the repository, None when it has none. */
  function LatestBaseline(t: Tables, repo: string): (r: Option<StoredBaseline>)
    ensures r.None? <==> forall b :: b in t.baselines ==> b.repoPath != repo
    ensures r.Some? ==> (r.value in t.baselines && r.value.repoPath == repo
      && forall b :: b in t.baselines && b.repoPath == repo ==> b.createdAt <= r.value.createdAt)
  {
    var rows := BaselinesFor(t.baselines, repo);
    var sorted := SortDesc(rows, BaselineCreated);
    SortDescSorted(rows, BaselineCreated);
    assert forall b :: b in sorted <==> b in rows by {
      assert forall b :: b in sorted <==> b in multiset(sorted);
    }
    if |sorted| == 0 then
      assert forall b :: b !in rows;
      None
    else
      assert sorted[0] in sorted;
      assert forall b :: b in sorted ==> BaselineCreated(b) <= BaselineCreated(sorted[0]) by {
        forall b | b in sorted
          ensures BaselineCreated(b) <= BaselineCreated(sorted[0])
        {
          var i :| 0 <= i < |sorted| && sorted[i] == b;
        }
      }
      Some(sorted[0])
  }

  /** A baseline newer than every other of its repository is the one read back, with its flaky tests and pass rate. */
  lemma SavedBaselineIsLatest(t: Tables, r: AssessmentReport)
    requires r.baseline.Some?
    requires forall b :: b in t.baselines && b.repoPath == r.baseline.value.repoPath ==> b.createdAt < r.baseline.value.createdAt
    ensures LatestBaseline(Saved(t, r), r.baseline.value.repoPath) == Some(BaselineRow(r.baseline.value))
  {
    var s := Saved(t, r);
    var row := BaselineRow(r.baseline.value);
    assert row in s.baselines;
    assert LatestBaseline(s, row.repoPath).Some?;
  }

  // ----- feedback -----

  function FeedbackFor(rows: seq<FeedbackRow>, id: string): (r: seq<FeedbackRow>)
    ensures forall f :: f in r <==> f in rows && f.assessmentId == id
    ensures |r| <= |rows|
  {
    if |rows| == 0 then []
    else
      assert forall f :: f in rows <==> f in rows[..|rows| - 1] || f == rows[|rows| - 1] by {
        assert rows == rows[..|rows| - 1] + [rows[|rows| - 1]];
      }
      FeedbackFor(rows[..|rows| - 1], id) + (if rows[|rows| - 1].assessmentId == id then [rows[|rows| - 1]] else [])
  }

  lemma {:induction false} NoFeedbackFor(rows: seq<FeedbackRow>, id: string)
    requires forall f :: f in rows ==> f.assessmentId != id
    ensures FeedbackFor(rows, id) == []
  {
    if |rows| > 0 {
      assert rows[..|rows| - 1] <= rows;
      NoFeedbackFor(rows[..|rows| - 1], id);
    }
  }

  function FeedbackCreated(f: FeedbackRow): int
  {
    f.createdAt
  }

  /** A row as `get_feedback` returns it: a NULL context reads as "". */
  function StoredFeedbackOf(f: FeedbackRow): StoredFeedback
  {
    StoredFeedback(f.id, f.assessmentId, f.outcome, f.context.GetOr(""), f.createdAt)
  }

  function ToStored(rows: seq<FeedbackRow>): (r: seq<StoredFeedback>)
    ensures |r| == |rows| && forall k :: 0 <= k < |rows| ==> r[k] == StoredFeedbackOf(rows[k])
  {
    seq(|rows|, k requires 0 <= k < |rows| => StoredFeedbackOf(rows[k]))
  }

  /** `get_feedback`: that assessment's feedback, newest first. */
  function FeedbackOf(t: Tables, id: string): (r: seq<StoredFeedback>)
    ensures |r| == |FeedbackFor(t.feedback, id)|
    ensures forall k :: 0 <= k < |r| ==> r[k].assessmentId == id
    ensures forall i, j :: 0 <= i < j < |r| ==> r[i].createdAt >= r[j].createdAt
  {
    var rows := SortDesc(FeedbackFor(t.feedback, id), FeedbackCreated);
    SortedFeedback(FeedbackFor(t.feedback, id), rows, id);
    var r := ToStored(rows);
    assert forall k :: 0 <= k < |r| ==> r[k].createdAt == rows[k].createdAt && r[k].assessmentId == rows[k].assessmentId;
    r
  }

  lemma SortedFeedback(mine: seq<FeedbackRow>, rows: seq<FeedbackRow>, id: string)
    requires forall f :: f in mine ==> f.assessmentId == id
    requires rows == SortDesc(mine, FeedbackCreated)
    ensures forall k :: 0 <= k < |rows| ==> rows[k].assessmentId == id
    ensures forall i, j :: 0 <= i < j < |rows| ==> rows[i].createdAt >= rows[j].createdAt
  {
    SortDescSorted(mine, FeedbackCreated);
    assert SortedDesc(rows, FeedbackCreated);
    forall k | 0 <= k < |rows|
      ensures rows[k].assessmentId == id
    {
      assert rows[k] in multiset(mine);
    }
  }

  /** The one feedback saved for an assessment comes back with its outcome's value and its context. */
  lemma SaveThenGetFeedback(t: Tables, fb: Feedback)
    requires forall f :: f in t.feedback ==> f.assessmentId != fb.assessmentId
    ensures FeedbackOf(t.(feedback := t.feedback + [FeedbackRowOf(fb)]), fb.assessmentId)
         == [StoredFeedback(fb.id, fb.assessmentId, fb.outcome.Value(), fb.context, fb.createdAt)]
  {
    var row := FeedbackRowOf(fb);
    var rows := t.feedback + [row];
    NoFeedbackFor(t.feedback, fb.assessmentId);
    FeedbackForAppend(t.feedback, row, fb.assessmentId);
    SortDescOne(row, FeedbackCreated);
    assert FeedbackOf(t.(feedback := rows), fb.assessmentId) == ToStored([row]);
  }

  lemma FeedbackForAppend(rows: seq<FeedbackRow>, row: FeedbackRow, id: string)
    ensures FeedbackFor(rows + [row], id) == FeedbackFor(rows, id) + (if row.assessmentId == id then [row] else [])
  {
    assert (rows + [row])[..|rows|] == rows;
  }

  // ----- prune -----

  /** The ids of the assessments older than the cutoff. */
  function OldIds(rows: seq<StoredAssessment>, cutoff: int): (r: set<string>)
    ensures forall id :: id in r <==> exists a :: a in rows && a.createdAt < cutoff && a.id == id
  {
    set a | a in rows && a.createdAt < cutoff :: a.id
  }

  function AssessmentsOutside(rows: seq<StoredAssessment>, ids: set<string>): (r: seq<StoredAssessment>)
    ensures forall a :: a in r <==> a in rows && a.id !in ids
    ensures |r| <= |rows|
  {
    if |rows| == 0 then []
    else
      assert forall a :: a in rows <==> a in rows[..|rows| - 1] || a == rows[|rows| - 1] by {
        assert rows == rows[..|rows| - 1] + [rows[|rows| - 1]];
      }
      AssessmentsOutside(rows[..|rows| - 1], ids) + (if rows[|rows| - 1].id !in ids then [rows[|rows| - 1]] else [])
  }

  function MutationsOutside(rows: seq<StoredMutation>, ids: set<string>): (r: seq<StoredMutation>)
    ensures forall m :: m in r <==> m in rows && m.assessmentId !in ids
    ensures |r| <= |rows|
  {
    if |rows| == 0 then []
    else
      assert forall m :: m in rows <==> m in rows[..|rows| - 1] || m == rows[|rows| - 1] by {
        assert rows == rows[..|rows| - 1] + [rows[|rows| - 1]];
      }
      MutationsOutside(rows[..|rows| - 1], ids) + (if rows[|rows| - 1].assessmentId !in ids then [rows[|rows| - 1]] else [])
  }

  function FeedbackOutside(rows: seq<FeedbackRow>, ids: set<string>): (r: seq<FeedbackRow>)
    ensures forall f :: f in r <==> f in rows && f.assessmentId !in ids
    ensures |r| <= |rows|
  {
    if |rows| == 0 then []
    else
      assert forall f :: f in rows <==> f in rows[..|rows| - 1] || f == rows[|rows| - 1] by {
        assert rows == rows[..|rows| - 1] + [rows[|rows| - 1]];
      }
      FeedbackOutside(rows[..|rows| - 1], ids) + (if rows[|rows| - 1].assessmentId !in ids then [rows[|rows| - 1]] else [])
  }

  function BaselinesSince(rows: seq<StoredBaseline>, cutoff: int): (r: seq<StoredBaseline>)
    ensures forall b :: b in r <==> b in rows && b.createdAt >= cutoff
    ensures |r| <= |rows|
  {
    if |rows| == 0 then []
    else
      assert forall b :: b in rows <==> b in rows[..|rows| - 1] || b == rows[|rows| - 1] by {
        assert rows == rows[..|rows| - 1] + [rows[|rows| - 1]];
      }
      BaselinesSince(rows[..|rows| - 1], cutoff) + (if rows[|rows| - 1].createdAt >= cutoff then [rows[|rows| - 1]] else [])
  }

  datatype PruneResult = PruneResult(counts: map<string, int>, tables: Tables)

  const NothingPruned: map<string, int> := map["feedback" := 0, "mutation_cache" := 0, "baselines" := 0, "assessments" := 0]

  /**
   * `prune`: with some assessment older than the cutoff, that assessment,
   * its feedback and mutation rows, and every older baseline are deleted,
   * and each table's count of deleted rows is returned; otherwise nothing.
   */
  function Pruned(t: Tables, cutoff: int): PruneResult
  {
    var ids := OldIds(t.assessments, cutoff);
    if ids == {} then PruneResult(NothingPruned, t)
    else
      var fb := FeedbackOutside(t.feedback, ids);
      var muts := MutationsOutside(t.mutations, ids);
      var bases := BaselinesSince(t.baselines, cutoff);
      var rows := AssessmentsOutside(t.assessments, ids);
      var kept := Tables(rows, muts, bases, fb);
      PruneResult(DeletedCounts(t, kept), kept)
  }

  /** The number of rows each table lost between `t` and `kept`. */
  function DeletedCounts(t: Tables, kept: Tables): map<string, int>
  {
    map["feedback" := |t.feedback| - |kept.feedback|,
        "mutation_cache" := |t.mutations| - |kept.mutations|,
        "baselines" := |t.baselines| - |kept.baselines|,
        "assessments" := |t.assessments| - |kept.assessments|]
  }

  /** With no old assessment, pruning reports zeros and keeps even old baselines. */
  lemma PruneNothingOld(t: Tables, cutoff: int)
    requires forall a :: a in t.assessments ==> a.createdAt >= cutoff
    ensures Pruned(t, cutoff) == PruneResult(NothingPruned, t)
  {
  }

  /**
   * After pruning no assessment is older than the cutoff, no feedback or
   * mutation row refers to a deleted assessment, every newer row is kept,
   * and the counts are the rows each table lost.
   */
  lemma PruneRemovesOld(t: Tables, cutoff: int)
    ensures var p := Pruned(t, cutoff).tables;
      (forall a :: a in p.assessments ==> a.createdAt >= cutoff)
      && (forall a :: a in t.assessments && a.id !in OldIds(t.assessments, cutoff) ==> a in p.assessments)
      && (forall f :: f in p.feedback ==> f.assessmentId !in OldIds(t.assessments, cutoff))
      && (forall m :: m in p.mutations ==> m.assessmentId !in OldIds(t.assessments, cutoff))
      && (forall f :: f in t.feedback && f.assessmentId !in OldIds(t.assessments, cutoff) ==> f in p.feedback)
      && (forall b :: b in t.baselines && b.createdAt >= cutoff ==> b in p.baselines)
    ensures forall k :: k in Pruned(t, cutoff).counts ==> Pruned(t, cutoff).counts[k] >= 0
  {
  }

  /** A second prune at the same cutoff finds nothing to delete. */
  lemma PruneIdempotent(t: Tables, cutoff: int)
    ensures Pruned(Pruned(t, cutoff).tables, cutoff) == PruneResult(NothingPruned, Pruned(t, cutoff).tables)
  {
    PruneRemovesOld(t, cutoff);
    PruneNothingOld(Pruned(t, cutoff).tables, cutoff);
  }

  // ----- stats -----

  /** The tables `stats` counts, in sorted order. */
  const StatsTables: seq<string> := ["assessments", "baselines", "feedback", "mutation_cache"]

  function RowCount(t: Tables, table: string): nat
  {
    if table == "assessments" then |t.assessments|
    else if table == "baselines" then |t.baselines|
    else if table == "feedback" then |t.feedback|
    else |t.mutations|
  }

  /** Saving a report adds one assessment, its mutations and its baseline to the counts, and no feedback. */
  lemma StatsAfterSave(t: Tables, r: AssessmentReport)
    ensures RowCount(Saved(t, r), "assessments") == RowCount(t, "assessments") + 1
    ensures RowCount(Saved(t, r), "mutation_cache") == RowCount(t, "mutation_cache") + |r.mutations|
    ensures RowCount(Saved(t, r), "baselines") == RowCount(t, "baselines") + (if r.baseline.Some? then 1 else 0)
    ensures RowCount(Saved(t, r), "feedback") == RowCount(t, "feedback")
  {
  }

  // ----- the store -----

  class VerdictStore {
    var schemaVersion: int
    /** The migrations run while opening, in the order they ran. */
    var migrationLog: seq<int>
    var assessments: seq<StoredAssessment>
    var mutations: seq<StoredMutation>
    var baselines: seq<StoredBaseline>
    var feedback: seq<FeedbackRow>

    function Contents(): Tables
      reads this
    {
      Tables(assessments, mutations, baselines, feedback)
    }

    /**
     * `open`: the database holds `db` and, in `verdict_meta`, the schema
     * version `stored` (None for a fresh database); `_init_schema` records
     * the current version or runs the pending migrations.
     */
    constructor Open(db: Tables, stored: Option<int>)
      ensures Contents() == db
      ensures schemaVersion == VersionOnOpen(stored)
      ensures migrationLog == MigrationsOnOpen(stored)
    {
      assessments := db.assessments;
      mutations := db.mutations;
      baselines := db.baselines;
      feedback := db.feedback;
      migrationLog := [];
      schemaVersion := SchemaVersion;
      new;
      if stored.Some? {
        schemaVersion := stored.value;
        if stored.value < SchemaVersion {
          RunMigrations(stored.value);
        }
      }
    }

    /** `_run_migrations`: each registered migration from `current` up, then the version is current. */
    method RunMigrations(current: int)
      modifies this
      ensures migrationLog == old(migrationLog) + PendingMigrations(current, SchemaVersion, Migrations)
      ensures schemaVersion == SchemaVersion
      ensures Contents() == old(Contents())
    {
      var version := current;
      var ran := [];
      while version < SchemaVersion
        invariant current <= SchemaVersion ==> version <= SchemaVersion
        invariant current > SchemaVersion ==> version == current
        invariant version >= current
        invariant ran == PendingMigrations(current, version, Migrations)
        decreases SchemaVersion - version
      {
        if version in Migrations {
          ran := ran + [version];
        }
        version := version + 1;
      }
      if current > SchemaVersion {
        assert PendingMigrations(current, SchemaVersion, Migrations) == [];
      }
      migrationLog := migrationLog + ran;
      schemaVersion := SchemaVersion;
    }

    /** `save_assessment`; the report's id and its baseline's id must be new (each is its table's primary key). */
    method SaveAssessment(r: AssessmentReport)
      requires !KnownAssessment(assessments, r.id)
      requires r.baseline.Some? ==> !KnownBaseline(baselines, r.baseline.value.id)
      modifies this
      ensures Contents() == Saved(old(Contents()), r)
      ensures schemaVersion == old(schemaVersion) && migrationLog == old(migrationLog)
    {
      assessments := assessments + [AssessmentRow(r)];
      var before := mutations;
      var i := 0;
      while i < |r.mutations|
        invariant 0 <= i <= |r.mutations|
        invariant mutations == before + MutationRows(r.mutations[..i], r.id)
        invariant assessments == old(assessments) + [AssessmentRow(r)]
        invariant baselines == old(baselines) && feedback == old(feedback)
        invariant schemaVersion == old(schemaVersion) && migrationLog == old(migrationLog)
      {
        mutations := mutations + [MutationRow(r.mutations[i], r.id)];
        i := i + 1;
      }
      assert r.mutations[..i] == r.mutations;
      if r.baseline.Some? {
        baselines := baselines + [BaselineRow(r.baseline.value)];
      }
    }

    /** `save_feedback`; the assessment must exist (foreign key) and the id be new (primary key). */
    method SaveFeedback(fb: Feedback)
      requires KnownAssessment(assessments, fb.assessmentId)
      requires !KnownFeedback(feedback, fb.id)
      modifies this
      ensures Contents() == old(Contents()).(feedback := old(feedback) + [FeedbackRowOf(fb)])
      ensures schemaVersion == old(schemaVersion) && migrationLog == old(migrationLog)
    {
      feedback := feedback + [FeedbackRowOf(fb)];
    }

    /** `prune` with its cutoff already computed. */
    method Prune(cutoff: int) returns (counts: map<string, int>)
      modifies this
      ensures counts == Pruned(old(Contents()), cutoff).counts
      ensures Contents() == Pruned(old(Contents()), cutoff).tables
      ensures schemaVersion == old(schemaVersion) && migrationLog == old(migrationLog)
    {
      var t := Contents();
      var oldIds := OldIds(t.assessments, cutoff);
      if oldIds == {} {
        return NothingPruned;
      }
      var fb := FeedbackOutside(t.feedback, oldIds);
      var muts := MutationsOutside(t.mutations, oldIds);
      var bases := BaselinesSince(t.baselines, cutoff);
      var rows := AssessmentsOutside(t.assessments, oldIds);
      var kept := Tables(rows, muts, bases, fb);
      counts := DeletedCounts(t, kept);
      assert Pruned(t, cutoff) == PruneResult(counts, kept);
      Replace(kept);
    }

    /** The four tables become `t`; the schema is untouched. */
    method Replace(t: Tables)
      modifies this
      ensures Contents() == t
      ensures schemaVersion == old(schemaVersion) && migrationLog == old(migrationLog)
    {
      assessments, mutations, baselines, feedback := t.assessments, t.mutations, t.baselines, t.feedback;
    }

    /** `stats`: the row count of each table, one `COUNT(*)` per table in sorted order. */
    method Stats() returns (result: map<string, int>)
      ensures forall k :: 0 <= k < |StatsTables| ==> StatsTables[k] in result
      ensures forall name :: name in result ==> name in StatsTables && result[name] == RowCount(Contents(), name)
    {
      result := map[];
      var i := 0;
      while i < |StatsTables|
        invariant 0 <= i <= |StatsTables|
        invariant forall k :: 0 <= k < i ==> StatsTables[k] in result
        invariant forall name :: name in result ==> name in StatsTables[..i] && result[name] == RowCount(Contents(), name)
      {
        result := result[StatsTables[i] := RowCount(Contents(), StatsTables[i])];
        assert StatsTables[..i + 1] == StatsTables[..i] + [StatsTables[i]];
        i := i + 1;
      }
      assert StatsTables[..i] == StatsTables;
    }
  }
}
