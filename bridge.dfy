/**
 * `verdict`'s bridge to Sentinel's knowledge store: pitfalls matched
 * against the changed files, the churn data of hot files and the co-change
 * partners the diff leaves out. The store itself, the file reads and the
 * regular-expression engine are foreign and come in as functions.
 */
module Bridge {
  import opened Outcomes
  import opened Models
  import opened Ordering

  /** A Sentinel pitfall; a pitfall without `file_paths` has the empty list. */
  datatype Pitfall = Pitfall(
    id: string,
    description: string,
    severity: string,
    howToPrevent: string,
    filePaths: seq<string>,
    codePattern: string)

  /** A co-change row: two files that changed together `changeCount` times. */
  datatype CoChange = CoChange(fileA: string, fileB: string, changeCount: int)

  /**
   * What an opened `KnowledgeStore` answers: `get_pitfalls(limit=200)`,
   * `get_hot_file(f)` and `get_co_changes(f)`.
   */
  datatype Knowledge = Knowledge(
    pitfalls: seq<Pitfall>,
    hotFile: string -> Option<HotFileInfo>,
    coChanges: string -> seq<CoChange>)

  /**
   * The repository as `_match_pitfalls` sees it: the text of a changed file
   * (None when it does not exist or cannot be read), whether a pattern
   * compiles, and whether a compiled pattern is found in a text.
   */
  datatype Workspace = Workspace(
    read: string -> Option<string>,
    compiles: string -> bool,
    search: (string, string) -> bool)

  // ----- pitfalls -----

  /** `[f for f in pitfall.file_paths if f in changed_set]`. */
  function FilePathHits(paths: seq<string>, changed: seq<string>): (r: seq<string>)
    ensures forall f :: f in r <==> f in paths && f in changed
    ensures |r| <= |paths|
  {
    if |paths| == 0 then []
    else
      assert forall f :: f in paths <==> f in paths[..|paths| - 1] || f == paths[|paths| - 1] by {
        assert paths == paths[..|paths| - 1] + [paths[|paths| - 1]];
      }
      FilePathHits(paths[..|paths| - 1], changed) + (if paths[|paths| - 1] in changed then [paths[|paths| - 1]] else [])
  }

  function MatchOf(p: Pitfall, file: string, matchType: string): PitfallMatch
  {
    PitfallMatch(p.id, p.description, p.severity, p.howToPrevent, file, matchType)
  }

  /** The files of `files` whose text the pattern is found in, in order. */
  function CodeMatches(p: Pitfall, files: seq<string>, w: Workspace): seq<PitfallMatch>
  {
    if |files| == 0 then []
    else
      var f := files[|files| - 1];
      CodeMatches(p, files[..|files| - 1], w)
      + (match w.read(f)
         case Some(content) => if w.search(p.codePattern, content) then [MatchOf(p, f, "code_pattern")] else []
         case None => [])
  }

  /** The matches one pitfall contributes: its first file-path hit, else its pattern's hits. */
  function PitfallMatchesOf(p: Pitfall, changed: seq<string>, w: Workspace): seq<PitfallMatch>
  {
    var hits := FilePathHits(p.filePaths, changed);
    if |p.filePaths| > 0 && |hits| > 0 then [MatchOf(p, hits[0], "file_path")]
    else if p.codePattern == "" || !w.compiles(p.codePattern) then []
    else CodeMatches(p, changed, w)
  }

  /** The matches of the first pitfalls, in order. */
  function Matches(pitfalls: seq<Pitfall>, changed: seq<string>, w: Workspace): seq<PitfallMatch>
  {
    if |pitfalls| == 0 then []
    else Matches(pitfalls[..|pitfalls| - 1], changed, w) + PitfallMatchesOf(pitfalls[|pitfalls| - 1], changed, w)
  }

  /** The first of `paths` that is a changed file. */
  predicate FirstHit(paths: seq<string>, changed: seq<string>, f: string)
  {
    exists i :: 0 <= i < |paths| && paths[i] == f && f in changed
      && forall j :: 0 <= j < i ==> paths[j] !in changed
  }

  lemma {:induction false} FilePathHitsFirst(paths: seq<string>, changed: seq<string>)
    requires |FilePathHits(paths, changed)| > 0
    ensures FirstHit(paths, changed, FilePathHits(paths, changed)[0])
  {
    var init := paths[..|paths| - 1];
    var last := paths[|paths| - 1];
    var before := FilePathHits(init, changed);
    var hits := FilePathHits(paths, changed);
    assert hits == before + (if last in changed then [last] else []);
    if |before| > 0 {
      FilePathHitsFirst(init, changed);
      assert hits[0] == before[0];
      var i :| 0 <= i < |init| && init[i] == before[0] && init[i] in changed
        && forall j :: 0 <= j < i ==> init[j] !in changed;
      assert forall j :: 0 <= j <= i ==> paths[j] == init[j];
      FirstHitAt(paths, changed, i);
    } else {
      assert hits == [last] && last in changed;
      forall j | 0 <= j < |paths| - 1
        ensures paths[j] !in changed
      {
        assert paths[j] == init[j] && init[j] in init;
        assert init[j] !in before;
      }
      FirstHitAt(paths, changed, |paths| - 1);
    }
  }

  lemma FirstHitAt(paths: seq<string>, changed: seq<string>, i: int)
    requires 0 <= i < |paths| && paths[i] in changed && forall j :: 0 <= j < i ==> paths[j] !in changed
    ensures FirstHit(paths, changed, paths[i])
  {
  }

  /** A pitfall that names a changed file is matched once, on the first such file, by path. */
  lemma PathHitMatchesOnce(p: Pitfall, changed: seq<string>, w: Workspace)
    requires exists f :: f in p.filePaths && f in changed
    ensures |PitfallMatchesOf(p, changed, w)| == 1
    ensures var m := PitfallMatchesOf(p, changed, w)[0];
      m.matchType == "file_path" && m.pitfallId == p.id && FirstHit(p.filePaths, changed, m.matchedFile)
  {
    var f :| f in p.filePaths && f in changed;
    assert f in FilePathHits(p.filePaths, changed);
    FilePathHitsFirst(p.filePaths, changed);
  }

  lemma {:induction false} NoHits(paths: seq<string>, changed: seq<string>)
    requires forall f :: f in paths ==> f !in changed
    ensures FilePathHits(paths, changed) == []
  {
    if |paths| > 0 {
      assert paths[|paths| - 1] in paths;
      assert forall f :: f in paths[..|paths| - 1] ==> f in paths;
      NoHits(paths[..|paths| - 1], changed);
    }
  }

  /** Without a path hit, an empty or invalid pattern yields nothing. */
  lemma NoPatternNoMatch(p: Pitfall, changed: seq<string>, w: Workspace)
    requires forall f :: f in p.filePaths ==> f !in changed
    requires p.codePattern == "" || !w.compiles(p.codePattern)
    ensures PitfallMatchesOf(p, changed, w) == []
  {
    NoHits(p.filePaths, changed);
  }

  /** A pattern match names a readable changed file whose text the pattern is found in. */
  lemma {:induction false} CodeMatchesSound(p: Pitfall, files: seq<string>, w: Workspace)
    ensures forall m :: m in CodeMatches(p, files, w) ==>
      m.matchType == "code_pattern" && m.pitfallId == p.id && m.matchedFile in files
      && w.read(m.matchedFile).Some? && w.search(p.codePattern, w.read(m.matchedFile).value)
  {
    if |files| > 0 {
      CodeMatchesSound(p, files[..|files| - 1], w);
      assert forall f :: f in files[..|files| - 1] ==> f in files;
    }
  }

  /** Every match names a changed file and a pitfall of the store. */
  lemma {:induction false} MatchesSound(pitfalls: seq<Pitfall>, changed: seq<string>, w: Workspace)
    ensures forall m :: m in Matches(pitfalls, changed, w) ==>
      m.matchedFile in changed && (m.matchType == "file_path" || m.matchType == "code_pattern")
      && exists p :: p in pitfalls && p.id == m.pitfallId
  {
    if |pitfalls| > 0 {
      var init := pitfalls[..|pitfalls| - 1];
      var p := pitfalls[|pitfalls| - 1];
      MatchesSound(init, changed, w);
      CodeMatchesSound(p, changed, w);
      var hits := FilePathHits(p.filePaths, changed);
      if |hits| > 0 {
        assert hits[0] in hits;
      }
      forall m | m in Matches(pitfalls, changed, w)
        ensures exists q :: q in pitfalls && q.id == m.pitfallId
      {
        if m in Matches(init, changed, w) {
          var q :| q in init && q.id == m.pitfallId;
          assert q in pitfalls;
        } else {
          assert p in pitfalls;
        }
      }
    }
  }

  // ----- hot files -----

  /** `get_hot_file` for each changed file the store knows. */
  function HotFilesOf(k: Knowledge, files: seq<string>): (r: seq<HotFileInfo>)
    ensures |r| <= |files|
  {
    if |files| == 0 then []
    else
      HotFilesOf(k, files[..|files| - 1])
      + (match k.hotFile(files[|files| - 1]) case Some(h) => [h] case None => [])
  }

  /** The hot files of two lists of files are those of each, so each file adds at most one. */
  lemma {:induction false} HotFilesAppend(k: Knowledge, a: seq<string>, b: seq<string>)
    ensures HotFilesOf(k, a + b) == HotFilesOf(k, a) + HotFilesOf(k, b)
  {
    if |b| == 0 {
      assert a + b == a;
    } else {
      assert (a + b)[..|a + b| - 1] == a + b[..|b| - 1];
      HotFilesAppend(k, a, b[..|b| - 1]);
    }
  }

  /** Hot files are exactly the store's entries for changed files it knows. */
  lemma {:induction false} HotFilesExactly(k: Knowledge, files: seq<string>)
    ensures forall h :: h in HotFilesOf(k, files) <==> exists f :: f in files && k.hotFile(f) == Some(h)
  {
    if |files| > 0 {
      var init := files[..|files| - 1];
      HotFilesExactly(k, init);
      assert forall f :: f in files <==> f in init || f == files[|files| - 1] by {
        assert files == init + [files[|files| - 1]];
      }
    }
  }

  // ----- missing co-changes -----

  /** The other file of a co-change row seen from `f`. */
  function Partner(cc: CoChange, f: string): string
  {
    if cc.fileA == f then cc.fileB else cc.fileA
  }

  /** Every (changed file, co-change row) pair, in the order the loops visit them. */
  function Pairs(k: Knowledge, files: seq<string>): seq<(string, CoChange)>
  {
    if |files| == 0 then []
    else
      var f := files[|files| - 1];
      Pairs(k, files[..|files| - 1]) + RowsOf(f, k.coChanges(f))
  }

  function RowsOf(f: string, ccs: seq<CoChange>): (r: seq<(string, CoChange)>)
    ensures |r| == |ccs| && forall j :: 0 <= j < |ccs| ==> r[j] == (f, ccs[j])
  {
    seq(|ccs|, j requires 0 <= j < |ccs| => (f, ccs[j]))
  }

  function PartnerAt(pair: (string, CoChange)): string
  {
    Partner(pair.1, pair.0)
  }

  function EntryOf(pair: (string, CoChange)): MissingCoChange
  {
    MissingCoChange(pair.0, PartnerAt(pair), pair.1.changeCount)
  }

  function PartnersOf(ms: seq<MissingCoChange>): set<string>
  {
    set m | m in ms :: m.partnerFile
  }

  lemma RowsOfSnoc(f: string, ccs: seq<CoChange>, j: int)
    requires 0 <= j < |ccs|
    ensures RowsOf(f, ccs[..j + 1]) == RowsOf(f, ccs[..j]) + [(f, ccs[j])]
  {
  }

  lemma UnsortedSnoc(pairs: seq<(string, CoChange)>, pair: (string, CoChange), changed: seq<string>)
    ensures var prev := Unsorted(pairs, changed);
      Unsorted(pairs + [pair], changed)
        == if PartnerAt(pair) !in changed && PartnerAt(pair) !in PartnersOf(prev) then prev + [EntryOf(pair)] else prev
  {
    assert (pairs + [pair])[..|pairs|] == pairs;
  }

  lemma PartnersOfSnoc(ms: seq<MissingCoChange>, m: MissingCoChange)
    ensures PartnersOf(ms + [m]) == PartnersOf(ms) + {m.partnerFile}
  {
    assert forall x :: x in ms + [m] <==> x in ms || x == m;
  }

  /** The `missing` list after visiting `pairs`, before sorting. */
  function Unsorted(pairs: seq<(string, CoChange)>, changed: seq<string>): seq<MissingCoChange>
  {
    if |pairs| == 0 then []
    else
      var prev := Unsorted(pairs[..|pairs| - 1], changed);
      var pair := pairs[|pairs| - 1];
      if PartnerAt(pair) !in changed && PartnerAt(pair) !in PartnersOf(prev) then prev + [EntryOf(pair)]
      else prev
  }

  function ChangeCountOf(m: MissingCoChange): int
  {
    m.changeCount
  }

  /** `_get_missing_co_changes`: the partners sorted by change count, largest first, ties in visiting order. */
  function MissingCoChanges(k: Knowledge, changed: seq<string>): seq<MissingCoChange>
  {
    SortDesc(Unsorted(Pairs(k, changed), changed), ChangeCountOf)
  }

  /** The first pair whose partner is `p` is the one at index `i`. */
  predicate FirstWithPartner(pairs: seq<(string, CoChange)>, i: int, p: string)
  {
    0 <= i < |pairs| && PartnerAt(pairs[i]) == p
    && forall j :: 0 <= j < i ==> PartnerAt(pairs[j]) != p
  }

  predicate DistinctPartners(ms: seq<MissingCoChange>)
  {
    forall i, j :: 0 <= i < j < |ms| ==> ms[i].partnerFile != ms[j].partnerFile
  }

  /**
   * The missing partners are exactly the partners of the visited rows that
   * are not changed files, each once, from the first row that names it.
   */
  lemma {:induction false} UnsortedExactly(pairs: seq<(string, CoChange)>, changed: seq<string>)
    ensures DistinctPartners(Unsorted(pairs, changed))
    ensures forall p :: p in PartnersOf(Unsorted(pairs, changed)) <==>
      p !in changed && exists i :: 0 <= i < |pairs| && PartnerAt(pairs[i]) == p
    ensures forall m :: m in Unsorted(pairs, changed) ==>
      exists i :: FirstWithPartner(pairs, i, m.partnerFile) && m == EntryOf(pairs[i])
  {
    if |pairs| > 0 {
      var init := pairs[..|pairs| - 1];
      var pair := pairs[|pairs| - 1];
      var prev := Unsorted(init, changed);
      UnsortedExactly(init, changed);
      var r := Unsorted(pairs, changed);
      assert forall i :: 0 <= i < |init| ==> pairs[i] == init[i];
      forall p
        ensures p in PartnersOf(r) <==> p !in changed && exists i :: 0 <= i < |pairs| && PartnerAt(pairs[i]) == p
      {
        if p !in changed && exists i :: 0 <= i < |pairs| && PartnerAt(pairs[i]) == p {
          var i :| 0 <= i < |pairs| && PartnerAt(pairs[i]) == p;
          if i < |init| {
            assert PartnerAt(init[i]) == p;
          }
        }
        if p in PartnersOf(prev) {
          var i :| 0 <= i < |init| && PartnerAt(init[i]) == p;
          assert PartnerAt(pairs[i]) == p;
        }
      }
      forall m | m in r
        ensures exists i :: FirstWithPartner(pairs, i, m.partnerFile) && m == EntryOf(pairs[i])
      {
        if m in prev {
          var i :| FirstWithPartner(init, i, m.partnerFile) && m == EntryOf(init[i]);
          assert FirstWithPartner(pairs, i, m.partnerFile);
        } else {
          assert m == EntryOf(pair);
          forall j | 0 <= j < |pairs| - 1
            ensures PartnerAt(pairs[j]) != m.partnerFile
          {
            assert PartnerAt(init[j]) == PartnerAt(pairs[j]);
          }
          assert FirstWithPartner(pairs, |pairs| - 1, m.partnerFile);
        }
      }
      forall i, j | 0 <= i < j < |r|
        ensures r[i].partnerFile != r[j].partnerFile
      {
        if j == |prev| {
          assert r[i] == prev[i];
          assert prev[i].partnerFile in PartnersOf(prev);
        }
      }
    }
  }

  /** Each visited pair is a changed file and one of its co-change rows. */
  lemma {:induction false} PairsFromStore(k: Knowledge, files: seq<string>)
    ensures forall pair :: pair in Pairs(k, files) ==> pair.0 in files && pair.1 in k.coChanges(pair.0)
  {
    if |files| > 0 {
      var init := files[..|files| - 1];
      var f := files[|files| - 1];
      PairsFromStore(k, init);
      assert forall g :: g in init ==> g in files;
      forall pair | pair in RowsOf(f, k.coChanges(f))
        ensures pair.0 == f && pair.1 in k.coChanges(f)
      {
        var j :| 0 <= j < |k.coChanges(f)| && RowsOf(f, k.coChanges(f))[j] == pair;
      }
    }
  }

  /**
   * The reported co-changes are the missing partners, largest change count
   * first: none is a changed file, none is repeated, each is the partner of
   * the first row naming it, and every partner outside the diff is there.
   */
  lemma MissingCoChangesExactly(k: Knowledge, changed: seq<string>)
    ensures SortedDesc(MissingCoChanges(k, changed), ChangeCountOf)
    ensures multiset(MissingCoChanges(k, changed)) == multiset(Unsorted(Pairs(k, changed), changed))
    ensures forall m :: m in MissingCoChanges(k, changed) ==> m.partnerFile !in changed && m.sourceFile in changed
    ensures forall p :: p in PartnersOf(MissingCoChanges(k, changed)) <==>
      p !in changed && exists i :: 0 <= i < |Pairs(k, changed)| && PartnerAt(Pairs(k, changed)[i]) == p
  {
    var pairs := Pairs(k, changed);
    var u := Unsorted(pairs, changed);
    var r := MissingCoChanges(k, changed);
    SortDescSorted(u, ChangeCountOf);
    UnsortedExactly(pairs, changed);
    PairsFromStore(k, changed);
    assert forall m :: m in r <==> m in u by {
      assert forall m :: m in r <==> m in multiset(r);
      assert forall m :: m in u <==> m in multiset(u);
    }
    forall m | m in r
      ensures m.partnerFile !in changed && m.sourceFile in changed
    {
      assert m.partnerFile in PartnersOf(u);
      var i :| FirstWithPartner(pairs, i, m.partnerFile) && m == EntryOf(pairs[i]);
      assert pairs[i] in pairs;
    }
    assert PartnersOf(r) == PartnersOf(u);
  }

  // ----- the bridge -----

  /** All signals for a set of changes; nothing is available without a store. */
  function SignalsOf(store: Option<Knowledge>, changed: seq<string>, w: Workspace): (s: SentinelSignals)
    ensures store.None? ==> s == NoSignals
    ensures store.Some? ==> s.available && |s.hotFiles| <= |changed|
  {
    match store
    case None => NoSignals
    case Some(k) =>
      SentinelSignals(true, Matches(k.pitfalls, changed, w), HotFilesOf(k, changed), MissingCoChanges(k, changed))
  }

  /**
   * How importing, constructing and opening Sentinel's `KnowledgeStore` ends:
   * the import or the constructor fails (no store), `open()` raises
   * OSError/RuntimeError after the store was assigned (the store is kept,
   * unopened, and `unopened` is what its queries answer), or it opens.
   */
  datatype Connection = NoStore | OpenFailed(unopened: Knowledge) | Opened(knowledge: Knowledge)

  /** The store object the bridge holds after `__init__`. */
  function StoreOf(dbExists: bool, c: Connection): (store: Option<Knowledge>)
    ensures store.None? <==> !dbExists || c.NoStore?
  {
    if !dbExists then None
    else match c
      case NoStore => None
      case OpenFailed(k) => Some(k)
      case Opened(k) => Some(k)
  }

  /**
   * A store whose `open()` failed is still queried: its signals are marked
   * available although the bridge itself is not.
   */
  lemma OpenFailureStillQueried(k: Knowledge, changed: seq<string>, w: Workspace)
    ensures StoreOf(true, OpenFailed(k)).Some?
    ensures SignalsOf(StoreOf(true, OpenFailed(k)), changed, w).available
  {
  }

  class SentinelBridge {
    const repoPath: string
    var store: Option<Knowledge>
    var available: bool

    /** `_available` is set only after a store was assigned and opened. */
    ghost predicate Valid()
      reads this
    {
      available ==> store.Some?
    }

    /**
     * Assigns and opens the store when `.sentinel/sentinel.db` exists;
     * `connection` is how importing and opening Sentinel's store ends.
     */
    constructor (repoPath: string, dbExists: bool, connection: Connection)
      ensures Valid() && this.repoPath == repoPath
      ensures store == StoreOf(dbExists, connection)
      ensures available <==> dbExists && connection.Opened?
    {
      this.repoPath := repoPath;
      store := None;
      available := false;
      if dbExists {
        match connection
        case NoStore =>
        case OpenFailed(k) =>
          store := Some(k);
        case Opened(k) =>
          store := Some(k);
          available := true;
      }
    }

    /** The signals are queried whenever a store object is held, opened or not. */
    method GetRiskSignals(changed: seq<string>, w: Workspace) returns (s: SentinelSignals)
      requires Valid()
      ensures s == SignalsOf(store, changed, w) && s.available == store.Some?
      ensures available ==> s.available
    {
      if store.None? {
        return NoSignals;
      }
      var pitfallMatches := MatchPitfalls(changed, w);
      var hotFiles := GetHotFiles(changed);
      var missing := GetMissingCoChanges(changed);
      s := SentinelSignals(true, pitfallMatches, hotFiles, missing);
    }

    method MatchPitfalls(changed: seq<string>, w: Workspace) returns (matches: seq<PitfallMatch>)
      ensures store.None? ==> matches == []
      ensures store.Some? ==> matches == Matches(store.value.pitfalls, changed, w)
    {
      matches := [];
      if store.None? {
        return;
      }
      var pitfalls := store.value.pitfalls;
      var i := 0;
      while i < |pitfalls|
        invariant 0 <= i <= |pitfalls|
        invariant matches == Matches(pitfalls[..i], changed, w)
      {
        assert pitfalls[..i + 1][..i] == pitfalls[..i];
        var p := pitfalls[i];
        var found := MatchPitfall(p, changed, w);
        matches := matches + found;
        i := i + 1;
      }
      assert pitfalls[..i] == pitfalls;
    }

    /** One turn of `_match_pitfalls`'s loop. */
    method MatchPitfall(p: Pitfall, changed: seq<string>, w: Workspace) returns (found: seq<PitfallMatch>)
      ensures found == PitfallMatchesOf(p, changed, w)
    {
      if |p.filePaths| > 0 {
        var hits := FilePathHits(p.filePaths, changed);
        if |hits| > 0 {
          return [MatchOf(p, hits[0], "file_path")];
        }
      }
      if p.codePattern == "" || !w.compiles(p.codePattern) {
        return [];
      }
      found := [];
      var j := 0;
      while j < |changed|
        invariant 0 <= j <= |changed|
        invariant found == CodeMatches(p, changed[..j], w)
      {
        assert changed[..j + 1][..j] == changed[..j];
        var content := w.read(changed[j]);
        if content.Some? && w.search(p.codePattern, content.value) {
          found := found + [MatchOf(p, changed[j], "code_pattern")];
        }
        j := j + 1;
      }
      assert changed[..j] == changed;
    }

    method GetHotFiles(changed: seq<string>) returns (hot: seq<HotFileInfo>)
      ensures store.None? ==> hot == []
      ensures store.Some? ==> hot == HotFilesOf(store.value, changed)
    {
      hot := [];
      if store.None? {
        return;
      }
      var k := store.value;
      var i := 0;
      while i < |changed|
        invariant 0 <= i <= |changed|
        invariant hot == HotFilesOf(k, changed[..i])
      {
        assert changed[..i + 1][..i] == changed[..i];
        var hf := k.hotFile(changed[i]);
        if hf.Some? {
          hot := hot + [hf.value];
        }
        i := i + 1;
      }
      assert changed[..i] == changed;
    }

    method GetMissingCoChanges(changed: seq<string>) returns (missing: seq<MissingCoChange>)
      ensures store.None? ==> missing == []
      ensures store.Some? ==> missing == MissingCoChanges(store.value, changed)
    {
      if store.None? {
        return [];
      }
      var k := store.value;
      var unsorted := CollectMissing(k, changed);
      missing := SortDesc(unsorted, ChangeCountOf);
    }

    /** The two loops of `_get_missing_co_changes`, with `seen_partners` the partners listed so far. */
    static method CollectMissing(k: Knowledge, changed: seq<string>) returns (missing: seq<MissingCoChange>)
      ensures missing == Unsorted(Pairs(k, changed), changed)
    {
      missing := [];
      var seen: set<string> := {};
      var i := 0;
      while i < |changed|
        invariant 0 <= i <= |changed|
        invariant missing == Unsorted(Pairs(k, changed[..i]), changed)
        invariant seen == PartnersOf(missing)
      {
        assert changed[..i + 1][..i] == changed[..i];
        var f := changed[i];
        missing, seen := VisitPartners(f, k.coChanges(f), Pairs(k, changed[..i]), changed, missing, seen);
        i := i + 1;
      }
      assert changed[..i] == changed;
    }

    /** The inner loop of `_get_missing_co_changes`, over the co-changes of one changed file `f`. */
    static method VisitPartners(f: string, coChanges: seq<CoChange>, before: seq<(string, CoChange)>,
                                changed: seq<string>, missing0: seq<MissingCoChange>, seen0: set<string>)
      returns (missing: seq<MissingCoChange>, seen: set<string>)
      requires missing0 == Unsorted(before, changed) && seen0 == PartnersOf(missing0)
      ensures missing == Unsorted(before + RowsOf(f, coChanges), changed)
      ensures seen == PartnersOf(missing)
    {
      missing, seen := missing0, seen0;
      ghost var visited := before;
      assert before + RowsOf(f, coChanges[..0]) == before;
      var j := 0;
      while j < |coChanges|
        invariant 0 <= j <= |coChanges|
        invariant visited == before + RowsOf(f, coChanges[..j])
        invariant missing == Unsorted(visited, changed)
        invariant seen == PartnersOf(missing)
      {
        var cc := coChanges[j];
        var partner := if cc.fileA == f then cc.fileB else cc.fileA;
        UnsortedSnoc(visited, (f, cc), changed);
        assert PartnerAt((f, cc)) == partner;
        if partner !in changed && partner !in seen {
          PartnersOfSnoc(missing, MissingCoChange(f, partner, cc.changeCount));
          seen := seen + {partner};
          missing := missing + [MissingCoChange(f, partner, cc.changeCount)];
        }
        RowsOfSnoc(f, coChanges, j);
        visited := visited + [(f, cc)];
        j := j + 1;
      }
      assert coChanges[..j] == coChanges;
    }

    /** `close`: the store is dropped and the bridge is unavailable; closing again changes nothing. */
    method Close()
      modifies this
      ensures Valid() && store.None? && !available
    {
      store := None;
      available := false;
    }
  }
}
