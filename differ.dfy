/**
 * `git diff --unified=0` parsing: the changed files of a diff, with the
 * line ranges each hunk header names, and the revision range the diff is
 * taken over. Running git is not modelled: its outcome is an input.
 */
module Differ {
  import opened Outcomes
  import opened Text
  import Ordering

  /** A `(start, count)` pair of a hunk header. */
  datatype LineRange = LineRange(start: nat, count: nat)

  datatype FileChange = FileChange(
    path: string,
    addedLines: seq<LineRange>,
    deletedLines: seq<LineRange>,
    isNew: bool,
    isDeleted: bool)

  /** The paths of a list of changed files, in order. */
  function PathsOf(files: seq<FileChange>): (r: seq<string>)
    ensures |r| == |files|
    ensures forall i :: 0 <= i < |files| ==> r[i] == files[i].path
  {
    if |files| == 0 then [] else [files[0].path] + PathsOf(files[1..])
  }

  /** The paths that end in ".py", in order. */
  function PythonPaths(paths: seq<string>): seq<string>
  {
    if |paths| == 0 then []
    else (if EndsWith(paths[0], ".py") then [paths[0]] else []) + PythonPaths(paths[1..])
  }

  datatype DiffResult = DiffResult(files: seq<FileChange>, refBefore: Option<string>, refAfter: Option<string>)
  {
    /** `file_paths`. */
    function FilePaths(): seq<string>
    {
      PathsOf(files)
    }

    /** `python_files`. */
    function PythonFiles(): seq<string>
    {
      PythonPaths(PathsOf(files))
    }
  }

  /** A path is a Python file of the diff exactly when it is a changed path ending in ".py". */
  lemma {:induction false} PythonPathsExact(paths: seq<string>, p: string)
    ensures p in PythonPaths(paths) <==> p in paths && EndsWith(p, ".py")
  {
    if |paths| > 0 {
      PythonPathsExact(paths[1..], p);
      assert p in paths <==> p == paths[0] || p in paths[1..];
    }
  }

  /** Keeping the Python files never reorders or adds paths: it keeps all of them when all end in ".py". */
  lemma {:induction false} PythonPathsAll(paths: seq<string>)
    requires forall i :: 0 <= i < |paths| ==> EndsWith(paths[i], ".py")
    ensures PythonPaths(paths) == paths
  {
    if |paths| > 0 {
      PythonPathsAll(paths[1..]);
      assert [paths[0]] + paths[1..] == paths;
    }
  }

  lemma PythonPathsAppend(a: seq<string>, b: seq<string>)
    ensures PythonPaths(a + b) == PythonPaths(a) + PythonPaths(b)
    decreases |a|
  {
    if |a| > 0 {
      assert (a + b)[1..] == a[1..] + b;
      PythonPathsAppend(a[1..], b);
    } else {
      assert a + b == b;
    }
  }

  // ----- the revision range -----

  /** Python truthiness of an optional ref: None and "" are false. */
  predicate Given(ref: Option<string>)
  {
    ref.Some? && ref.value != ""
  }

  /** The revision argument `parse_diff` passes to git. */
  function RefRange(refBefore: Option<string>, refAfter: Option<string>): (r: string)
    ensures Given(refBefore) && Given(refAfter) ==> r == refBefore.value + ".." + refAfter.value
    ensures Given(refBefore) && !Given(refAfter) ==> r == refBefore.value + "..HEAD"
    ensures !Given(refBefore) ==> r == "HEAD"
  {
    if Given(refBefore) && Given(refAfter) then refBefore.value + ".." + refAfter.value
    else if Given(refBefore) then refBefore.value + "..HEAD"
    else "HEAD"
  }

  /** Without a before ref the after ref plays no part: the diff is against HEAD. */
  lemma LoneAfterIgnored(refAfter: Option<string>)
    ensures RefRange(None, refAfter) == "HEAD" && RefRange(Some(""), refAfter) == "HEAD"
  {
  }

  /** The range always names the before ref when one is given, and HEAD unless an after ref is. */
  lemma RefRangeShape(refBefore: Option<string>, refAfter: Option<string>)
    ensures Given(refBefore) ==> StartsWith(RefRange(refBefore, refAfter), refBefore.value + "..")
    ensures !Given(refAfter) ==> EndsWith(RefRange(refBefore, refAfter), "HEAD")
  {
    var r := RefRange(refBefore, refAfter);
    if Given(refBefore) {
      var b := refBefore.value + "..";
      if Given(refAfter) {
        assert r == b + refAfter.value;
      } else {
        assert r == b + "HEAD";
      }
      assert r[..|b|] == b;
    }
  }

  /** The outcome of one `git diff` run. */
  datatype GitRun = Completed(returnCode: int, stdout: string, stderr: string) | TimedOut | NotFound

  /**
   * `parse_diff`: when the first run fails mentioning HEAD (a repository
   * without commits) the staged changes are diffed instead; a timeout or a
   * missing git gives an empty result with the refs kept.
   */
  function ParseDiff(refBefore: Option<string>, refAfter: Option<string>, first: GitRun, cached: GitRun): (r: DiffResult)
    ensures r.refBefore == refBefore && r.refAfter == refAfter
    ensures !first.Completed? ==> r.files == []
    ensures first.Completed? && (first.returnCode == 0 || !Contains(first.stderr, "HEAD")) ==>
      r == ParseDiffOutput(first.stdout, refBefore, refAfter)
    ensures first.Completed? && first.returnCode != 0 && Contains(first.stderr, "HEAD") ==>
      r == (if cached.Completed? then ParseDiffOutput(cached.stdout, refBefore, refAfter)
            else DiffResult([], refBefore, refAfter))
  {
    if !first.Completed? then DiffResult([], refBefore, refAfter)
    else if first.returnCode != 0 && Contains(first.stderr, "HEAD") then
      if !cached.Completed? then DiffResult([], refBefore, refAfter)
      else ParseDiffOutput(cached.stdout, refBefore, refAfter)
    else ParseDiffOutput(first.stdout, refBefore, refAfter)
  }

  // ----- the line patterns -----

  /**
   * The path of a `diff --git a/X b/Y` line: Y, after the last " b/" that
   * leaves both sides non-empty (the first group is greedy).
   */
  function HeaderPath(line: string): (r: Option<string>)
    ensures r.Some? ==> StartsWith(line, "diff --git a/") && r.value != ""
  {
    if !StartsWith(line, "diff --git a/") then None
    else
      var rest := line[13..];
      match LastSplit(rest, |rest| - 4)
      case None => None
      case Some(j) => Some(rest[j + 3..])
  }

  /** The largest `j <= from` with `j >= 1` where " b/" occurs and something follows it. */
  function LastSplit(rest: string, from: int): (r: Option<nat>)
    ensures r.Some? ==> 1 <= r.value <= from && r.value + 3 < |rest| && OccursAt(rest, " b/", r.value)
    ensures r.Some? ==> forall k :: r.value < k <= from ==> !(k + 3 < |rest| && OccursAt(rest, " b/", k))
    ensures r.None? ==> forall k :: 1 <= k <= from ==> !(k + 3 < |rest| && OccursAt(rest, " b/", k))
    decreases from
  {
    if from < 1 then None
    else if from + 3 < |rest| && OccursAt(rest, " b/", from) then Some(from)
    else LastSplit(rest, from - 1)
  }

  /** The search finds `j` when nothing after it up to `from` qualifies. */
  lemma {:induction false} LastSplitIs(rest: string, from: int, j: nat)
    requires 1 <= j <= from && j + 3 < |rest| && OccursAt(rest, " b/", j)
    requires forall k :: j < k <= from ==> !(k + 3 < |rest| && OccursAt(rest, " b/", k))
    ensures LastSplit(rest, from) == Some(j)
    decreases from
  {
    if from > j {
      LastSplitIs(rest, from - 1, j);
    }
  }

  /** In `X b/Y` no " b/" after the one that ends X qualifies when Y holds none. */
  lemma NoLaterSplit(x: string, y: string, rest: string)
    requires rest == x + " b/" + y && !Contains(y, " b/")
    ensures forall k :: |x| < k <= |rest| - 4 ==> !(k + 3 < |rest| && OccursAt(rest, " b/", k))
  {
    var j := |x|;
    forall k | j < k <= |rest| - 4
      ensures !(k + 3 < |rest| && OccursAt(rest, " b/", k))
    {
      if k == j + 1 {
        assert rest[k] == 'b';
      } else if k == j + 2 {
        assert rest[k] == '/';
      } else {
        assert rest[k..k + 3] == y[k - j - 3..k - j];
        assert !OccursAt(y, " b/", k - j - 3);
      }
    }
  }

  /** For `a/X b/Y` with non-empty X and Y and no " b/" inside Y, the path is Y. */
  lemma HeaderPathOf(x: string, y: string)
    requires x != "" && y != "" && !Contains(y, " b/")
    ensures HeaderPath("diff --git a/" + x + " b/" + y) == Some(y)
  {
    var line := "diff --git a/" + x + " b/" + y;
    var rest := x + " b/" + y;
    assert line == "diff --git a/" + rest;
    assert line[..13] == "diff --git a/" && line[13..] == rest;
    var j := |x|;
    assert rest[j..j + 3] == " b/";
    NoLaterSplit(x, y, rest);
    LastSplitIs(rest, |rest| - 4, j);
    assert rest[j + 3..] == y;
  }

  /** The numbers of one hunk header; omitted counts stand for 1. */
  datatype Hunk = Hunk(oldStart: nat, oldCount: nat, newStart: nat, newCount: nat)

  /** The length of the run of ASCII digits that `s` starts with. */
  function DigitLen(s: string): (n: nat)
    ensures n <= |s|
    ensures forall k :: 0 <= k < n ==> IsDigit(s[k])
    ensures n == |s| || !IsDigit(s[n])
  {
    if |s| > 0 && IsDigit(s[0]) then 1 + DigitLen(s[1..]) else 0
  }

  /** A run of digits followed by a non-digit is found whole. */
  lemma {:induction false} DigitLenOf(d: string, t: string)
    requires forall k :: 0 <= k < |d| ==> IsDigit(d[k])
    requires t == "" || !IsDigit(t[0])
    ensures DigitLen(d + t) == |d|
  {
    if |d| > 0 {
      assert (d + t)[1..] == d[1..] + t;
      DigitLenOf(d[1..], t);
    } else {
      assert d + t == t;
    }
  }

  /** The optional ",digits" that `s` starts with: its count and the text after it, `(1, s)` when absent. */
  function OptCount(s: string): (r: Option<(nat, string)>)
    ensures r.Some? ==> |r.value.1| <= |s|
  {
    if |s| > 0 && s[0] == ',' then
      var n := DigitLen(s[1..]);
      if n == 0 then None else Some((DigitsValue(s[1..][..n]), s[1..][n..]))
    else Some((1, s))
  }

  lemma OptCountAbsent(s: string)
    requires s == "" || s[0] != ','
    ensures OptCount(s) == Some((1, s))
  {
  }

  lemma OptCountOf(d: string, t: string)
    requires AllDigits(d) && (t == "" || !IsDigit(t[0]))
    ensures OptCount("," + (d + t)) == Some((DigitsValue(d), t))
  {
    Split(",", d + t);
    DigitLenOf(d, t);
    assert (d + t)[..|d|] == d && (d + t)[|d|..] == t;
  }

  /** The digits `s` starts with, their value and the text after them. */
  function Number(s: string): (r: Option<(nat, string)>)
    ensures r.Some? ==> |r.value.1| < |s|
  {
    var n := DigitLen(s);
    if n == 0 then None else Some((DigitsValue(s[..n]), s[n..]))
  }

  lemma NumberOf(d: string, t: string)
    requires AllDigits(d) && (t == "" || !IsDigit(t[0]))
    ensures Number(d + t) == Some((DigitsValue(d), t))
  {
    DigitLenOf(d, t);
    assert (d + t)[..|d|] == d && (d + t)[|d|..] == t;
  }

  /** The text after `A[,B] +C[,D]`, and the four numbers. */
  function HunkBody(s: string): (r: Option<(Hunk, string)>)
  {
    match Number(s)
    case None => None
    case Some(a) =>
      match OptCount(a.1)
      case None => None
      case Some(b) =>
        if !StartsWith(b.1, " +") then None
        else match Number(b.1[2..])
          case None => None
          case Some(c) =>
            match OptCount(c.1)
            case None => None
            case Some(d) => Some((Hunk(a.0, b.0, c.0, d.0), d.1))
  }

  /** `@@ -A[,B] +C[,D] @@` at the start of the line. */
  function ParseHunk(line: string): (r: Option<Hunk>)
    ensures r.Some? ==> StartsWith(line, "@@ -")
  {
    if !StartsWith(line, "@@ -") then None
    else match HunkBody(line[4..])
      case None => None
      case Some(hb) => if StartsWith(hb.1, " @@") then Some(hb.0) else None
  }

  lemma ParseHunkOf(body: string, h: Hunk, t: string)
    requires HunkBody(body) == Some((h, t)) && StartsWith(t, " @@")
    ensures ParseHunk("@@ -" + body) == Some(h)
  {
    var line := "@@ -" + body;
    assert line[..4] == "@@ -" && line[4..] == body;
  }

  lemma Split(u: string, v: string)
    ensures (u + v)[..|u|] == u && (u + v)[|u|..] == v
    ensures StartsWith(u + v, u)
  {
  }

  /** `HunkBody` once each of its steps is known. */
  lemma HunkBodyOf(s: string, a: nat, b: nat, c: nat, d: nat, t1: string, t2: string, t3: string, t4: string)
    requires Number(s) == Some((a, t1)) && OptCount(t1) == Some((b, t2))
    requires StartsWith(t2, " +") && Number(t2[2..]) == Some((c, t3)) && OptCount(t3) == Some((d, t4))
    ensures HunkBody(s) == Some((Hunk(a, b, c, d), t4))
  {
  }

  /** "@@ -A +C @@": both counts default to 1. */
  lemma HunkWithoutCounts(a: string, c: string, rest: string)
    requires AllDigits(a) && AllDigits(c)
    ensures ParseHunk("@@ -" + (a + (" +" + (c + (" @@" + rest)))))
      == Some(Hunk(DigitsValue(a), 1, DigitsValue(c), 1))
  {
    var tail := " @@" + rest;
    var mid := " +" + (c + tail);
    NumberOf(a, mid);
    OptCountAbsent(mid);
    Split(" +", c + tail);
    NumberOf(c, tail);
    OptCountAbsent(tail);
    HunkBodyOf(a + mid, DigitsValue(a), 1, DigitsValue(c), 1, mid, mid, tail, tail);
    Split(" @@", rest);
    ParseHunkOf(a + mid, Hunk(DigitsValue(a), 1, DigitsValue(c), 1), tail);
  }

  /** The " +C,D @@" part of a hunk header. */
  lemma NewRangeWithCount(c: string, d: string, rest: string)
    requires AllDigits(c) && AllDigits(d)
    ensures var mid := " +" + (c + ("," + (d + (" @@" + rest))));
      && StartsWith(mid, " +")
      && Number(mid[2..]) == Some((DigitsValue(c), "," + (d + (" @@" + rest))))
      && OptCount("," + (d + (" @@" + rest))) == Some((DigitsValue(d), " @@" + rest))
  {
    var dPart := "," + (d + (" @@" + rest));
    Split(" +", c + dPart);
    NumberBeforeComma(c, d + (" @@" + rest));
    CountBeforeClose(d, rest);
  }

  lemma NumberBeforeComma(a: string, x: string)
    requires AllDigits(a)
    ensures Number(a + ("," + x)) == Some((DigitsValue(a), "," + x))
  {
    var t := "," + x;
    assert t[0] == ',';
    NumberOf(a, t);
  }

  lemma CountBeforePlus(b: string, x: string)
    requires AllDigits(b)
    ensures OptCount("," + (b + (" +" + x))) == Some((DigitsValue(b), " +" + x))
  {
    var t := " +" + x;
    assert t[0] == ' ';
    OptCountOf(b, t);
  }

  lemma CountBeforeClose(d: string, rest: string)
    requires AllDigits(d)
    ensures OptCount("," + (d + (" @@" + rest))) == Some((DigitsValue(d), " @@" + rest))
  {
    var tail := " @@" + rest;
    assert tail[0] == ' ';
    OptCountOf(d, tail);
  }

  /** "@@ -A,B +C,D @@": every number as written. */
  lemma HunkWithCounts(a: string, b: string, c: string, d: string, rest: string)
    requires AllDigits(a) && AllDigits(b) && AllDigits(c) && AllDigits(d)
    ensures ParseHunk("@@ -" + (a + ("," + (b + (" +" + (c + ("," + (d + (" @@" + rest)))))))))
      == Some(Hunk(DigitsValue(a), DigitsValue(b), DigitsValue(c), DigitsValue(d)))
  {
    var tail := " @@" + rest;
    var body := a + ("," + (b + (" +" + (c + ("," + (d + tail))))));
    var h := Hunk(DigitsValue(a), DigitsValue(b), DigitsValue(c), DigitsValue(d));
    BodyWithCounts(a, b, c, d, rest);
    Split(" @@", rest);
    ParseHunkOf(body, h, tail);
  }

  lemma BodyWithCounts(a: string, b: string, c: string, d: string, rest: string)
    requires AllDigits(a) && AllDigits(b) && AllDigits(c) && AllDigits(d)
    ensures HunkBody(a + ("," + (b + (" +" + (c + ("," + (d + (" @@" + rest))))))))
      == Some((Hunk(DigitsValue(a), DigitsValue(b), DigitsValue(c), DigitsValue(d)), " @@" + rest))
  {
    var tail := " @@" + rest;
    var dPart := "," + (d + tail);
    var mid := " +" + (c + dPart);
    var bPart := "," + (b + mid);
    NumberBeforeComma(a, b + mid);
    CountBeforePlus(b, c + dPart);
    NewRangeWithCount(c, d, rest);
    HunkBodyOf(a + bPart, DigitsValue(a), DigitsValue(b), DigitsValue(c), DigitsValue(d), bPart, mid, dPart, tail);
  }

  // ----- the parser -----

  /** The ranges a hunk adds to a file: a count of 0 is not recorded. */
  function WithHunk(f: FileChange, h: Hunk): (g: FileChange)
    ensures g.path == f.path && g.isNew == f.isNew && g.isDeleted == f.isDeleted
    ensures g.deletedLines == f.deletedLines + (if h.oldCount > 0 then [LineRange(h.oldStart, h.oldCount)] else [])
    ensures g.addedLines == f.addedLines + (if h.newCount > 0 then [LineRange(h.newStart, h.newCount)] else [])
  {
    var deleted := if h.oldCount > 0 then f.deletedLines + [LineRange(h.oldStart, h.oldCount)] else f.deletedLines;
    var added := if h.newCount > 0 then f.addedLines + [LineRange(h.newStart, h.newCount)] else f.addedLines;
    f.(deletedLines := deleted, addedLines := added)
  }

  /**
   * One line of `_parse_diff_output`: a header opens a new file; before any
   * header every other line is ignored; afterwards the mode lines and hunk
   * headers update the file opened last.
   */
  function ApplyLine(files: seq<FileChange>, line: string): seq<FileChange>
  {
    match HeaderPath(line)
    case Some(p) => files + [FileChange(p, [], [], false, false)]
    case None =>
      if |files| == 0 then files
      else
        var n := |files| - 1;
        if StartsWith(line, "new file mode") then files[n := files[n].(isNew := true)]
        else if StartsWith(line, "deleted file mode") then files[n := files[n].(isDeleted := true)]
        else match ParseHunk(line)
          case None => files
          case Some(h) => files[n := WithHunk(files[n], h)]
  }

  /** The files after the remaining lines, starting from `files`. */
  function ParseFrom(files: seq<FileChange>, lines: seq<string>): seq<FileChange>
    decreases |lines|
  {
    if |lines| == 0 then files else ParseFrom(ApplyLine(files, lines[0]), lines[1..])
  }

  function ParseDiffOutput(output: string, refBefore: Option<string>, refAfter: Option<string>): DiffResult
  {
    DiffResult(ParseFrom([], SplitLines(output)), refBefore, refAfter)
  }

  /** `_parse_diff_output`, updating the file opened last in place. */
  method ParseDiffOutputLoop(output: string, refBefore: Option<string>, refAfter: Option<string>)
    returns (result: DiffResult)
    ensures result == ParseDiffOutput(output, refBefore, refAfter)
  {
    var lines := SplitLines(output);
    var files: seq<FileChange> := [];
    var i := 0;
    while i < |lines|
      invariant 0 <= i <= |lines|
      invariant ParseFrom(files, lines[i..]) == ParseFrom([], lines)
    {
      var line := lines[i];
      assert lines[i..][1..] == lines[i + 1..];
      var header := HeaderPath(line);
      if header.Some? {
        files := files + [FileChange(header.value, [], [], false, false)];
      } else if |files| > 0 {
        var n := |files| - 1;
        if StartsWith(line, "new file mode") {
          files := files[n := files[n].(isNew := true)];
        } else if StartsWith(line, "deleted file mode") {
          files := files[n := files[n].(isDeleted := true)];
        } else {
          var hunk := ParseHunk(line);
          if hunk.Some? {
            var h := hunk.value;
            var current := files[n];
            if h.oldCount > 0 {
              current := current.(deletedLines := current.deletedLines + [LineRange(h.oldStart, h.oldCount)]);
            }
            if h.newCount > 0 {
              current := current.(addedLines := current.addedLines + [LineRange(h.newStart, h.newCount)]);
            }
            files := files[n := current];
          }
        }
      }
      i := i + 1;
    }
    result := DiffResult(files, refBefore, refAfter);
  }

  // ----- what the parser promises -----

  /** The paths the header lines name, in order. */
  function HeaderPaths(lines: seq<string>): seq<string>
  {
    if |lines| == 0 then []
    else (match HeaderPath(lines[0]) case Some(p) => [p] case None => []) + HeaderPaths(lines[1..])
  }

  lemma PathsOfAppend(files: seq<FileChange>, f: FileChange)
    ensures PathsOf(files + [f]) == PathsOf(files) + [f.path]
  {
    assert |PathsOf(files + [f])| == |PathsOf(files) + [f.path]|;
    forall i | 0 <= i < |files| + 1
      ensures PathsOf(files + [f])[i] == (PathsOf(files) + [f.path])[i]
    {
    }
  }

  lemma PathsOfUpdate(files: seq<FileChange>, n: nat, f: FileChange)
    requires n < |files| && f.path == files[n].path
    ensures PathsOf(files[n := f]) == PathsOf(files)
  {
    assert |PathsOf(files[n := f])| == |PathsOf(files)|;
    forall i | 0 <= i < |files|
      ensures PathsOf(files[n := f])[i] == PathsOf(files)[i]
    {
    }
  }

  /** Only a header line changes the list of paths, and it appends its own. */
  lemma ApplyLinePaths(files: seq<FileChange>, line: string)
    ensures PathsOf(ApplyLine(files, line))
      == PathsOf(files) + (match HeaderPath(line) case Some(p) => [p] case None => [])
  {
    match HeaderPath(line)
    case Some(p) =>
      PathsOfAppend(files, FileChange(p, [], [], false, false));
    case None =>
      if |files| > 0 {
        var n := |files| - 1;
        var r := ApplyLine(files, line);
        assert r == files || (|r| == |files| && r == files[n := r[n]] && r[n].path == files[n].path);
        if r != files {
          PathsOfUpdate(files, n, r[n]);
        }
      }
      assert PathsOf(files) + [] == PathsOf(files);
  }

  /** One changed file per `diff --git` line, in input order, named by its `b/` path. */
  lemma {:induction false} ParsePaths(files: seq<FileChange>, lines: seq<string>)
    ensures PathsOf(ParseFrom(files, lines)) == PathsOf(files) + HeaderPaths(lines)
    decreases |lines|
  {
    if |lines| > 0 {
      var next := ApplyLine(files, lines[0]);
      var own := match HeaderPath(lines[0]) case Some(p) => [p] case None => [];
      ApplyLinePaths(files, lines[0]);
      ParsePaths(next, lines[1..]);
      assert HeaderPaths(lines) == own + HeaderPaths(lines[1..]);
      assert ParseFrom(files, lines) == ParseFrom(next, lines[1..]);
      Ordering.AppendAssoc(PathsOf(files), own, HeaderPaths(lines[1..]));
    }
  }

  /** The diff's paths are exactly the header paths of the output's lines. */
  lemma DiffPaths(output: string, refBefore: Option<string>, refAfter: Option<string>)
    ensures ParseDiffOutput(output, refBefore, refAfter).FilePaths() == HeaderPaths(SplitLines(output))
  {
    ParsePaths([], SplitLines(output));
  }

  /** Lines before the first header are ignored. */
  lemma {:induction false} LeadingLinesIgnored(pre: seq<string>, lines: seq<string>)
    requires forall i :: 0 <= i < |pre| ==> HeaderPath(pre[i]).None?
    ensures ParseFrom([], pre + lines) == ParseFrom([], lines)
  {
    if |pre| > 0 {
      assert (pre + lines)[0] == pre[0];
      assert (pre + lines)[1..] == pre[1..] + lines;
      LeadingLinesIgnored(pre[1..], lines);
    } else {
      assert pre + lines == lines;
    }
  }

  /** An empty output has no files. */
  lemma EmptyOutput(refBefore: Option<string>, refAfter: Option<string>)
    ensures ParseDiffOutput("", refBefore, refAfter).files == []
  {
  }

  /** A mode line marks the file opened last as new or deleted and touches nothing else. */
  lemma ModeLines(files: seq<FileChange>, line: string)
    requires |files| > 0
    ensures StartsWith(line, "new file mode") ==>
      ApplyLine(files, line) == files[|files| - 1 := files[|files| - 1].(isNew := true)]
    ensures StartsWith(line, "deleted file mode") ==>
      ApplyLine(files, line) == files[|files| - 1 := files[|files| - 1].(isDeleted := true)]
  {
    if StartsWith(line, "new file mode") {
      assert line[..13] == "new file mode";
      assert !StartsWith(line, "diff --git a/") by { assert line[0] != "diff --git a/"[0]; }
    }
    if StartsWith(line, "deleted file mode") {
      assert line[..17] == "deleted file mode";
      assert !StartsWith(line, "diff --git a/") by { assert line[1] != "diff --git a/"[1]; }
      assert !StartsWith(line, "new file mode") by { assert line[0] != "new file mode"[0]; }
    }
  }

  /** A hunk header line adds its non-empty ranges to the file opened last. */
  lemma HunkLine(files: seq<FileChange>, line: string, h: Hunk)
    requires |files| > 0 && ParseHunk(line) == Some(h)
    ensures ApplyLine(files, line) == files[|files| - 1 := WithHunk(files[|files| - 1], h)]
  {
    assert line[..4] == "@@ -";
    assert !StartsWith(line, "diff --git a/") by { assert line[0] != "diff --git a/"[0]; }
    assert !StartsWith(line, "new file mode") by { assert line[0] != "new file mode"[0]; }
    assert !StartsWith(line, "deleted file mode") by { assert line[0] != "deleted file mode"[0]; }
    OtherLine(files, line);
  }

  /** A line that is neither a header nor a mode line only matters as a hunk header. */
  lemma OtherLine(files: seq<FileChange>, line: string)
    requires |files| > 0 && !StartsWith(line, "diff --git a/")
    requires !StartsWith(line, "new file mode") && !StartsWith(line, "deleted file mode")
    ensures ApplyLine(files, line) == match ParseHunk(line)
      case None => files
      case Some(h) => files[|files| - 1 := WithHunk(files[|files| - 1], h)]
  {
  }

  /** "@@ -5 +5 @@" (written piece by piece) records the range (5, 1) on both sides. */
  lemma SingleLineChange(files: seq<FileChange>, ctx: string)
    requires |files| > 0
    ensures var f := ApplyLine(files, "@@ -" + ("5" + (" +" + ("5" + (" @@" + ctx)))))[|files| - 1];
      f.addedLines == files[|files| - 1].addedLines + [LineRange(5, 1)]
      && f.deletedLines == files[|files| - 1].deletedLines + [LineRange(5, 1)]
  {
    assert DigitsValue("5") == 5;
    HunkWithoutCounts("5", "5", ctx);
    HunkLine(files, "@@ -" + ("5" + (" +" + ("5" + (" @@" + ctx)))), Hunk(5, 1, 5, 1));
  }

  /** "@@ -15,2 +19,0 @@" (written piece by piece) records only the deletion (15, 2). */
  lemma ZeroCountNotRecorded(files: seq<FileChange>, ctx: string)
    requires |files| > 0
    ensures var line := "@@ -" + ("15" + ("," + ("2" + (" +" + ("19" + ("," + ("0" + (" @@" + ctx))))))));
      var f := ApplyLine(files, line)[|files| - 1];
      f.addedLines == files[|files| - 1].addedLines
      && f.deletedLines == files[|files| - 1].deletedLines + [LineRange(15, 2)]
  {
    assert DigitsValue("15") == 15;
    assert DigitsValue("2") == 2;
    assert DigitsValue("19") == 19;
    assert DigitsValue("0") == 0;
    HunkWithCounts("15", "2", "19", "0", ctx);
    HunkLine(files, "@@ -" + ("15" + ("," + ("2" + (" +" + ("19" + ("," + ("0" + (" @@" + ctx)))))))), Hunk(15, 2, 19, 0));
  }
}
