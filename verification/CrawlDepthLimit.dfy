/** The crawl under any depth limit and any number of workers: which pages it processes, at which depths it can
    record them, and when it can miss a page that one worker finds. */
module CrawlDepthLimit {
  import opened Text
  import opened JobQueue
  import opened Crawl
  import opened CrawlInvariant
  import opened CrawlSteps
  import opened CrawlReach
  import opened CrawlTermination
  import opened CrawlChords
  import opened CrawlSchedule

  // --- What is processed ---

  /** The row of `url` was recorded above the depth limit. */
  predicate Opened(c: Config, rows: seq<Job>, url: string) {
    exists i :: 0 <= i < |rows| && rows[i].url == url && rows[i].depth < c.maxDepth
  }

  /** A link path from a seed whose pages but the last were all recorded above the depth limit. */
  predicate OpenPath(c: Config, rows: seq<Job>, p: seq<string>) {
    IsPath(c, p) && forall i :: 0 <= i < |p| - 1 ==> Opened(c, rows, p[i])
  }

  ghost predicate OpenlyReached(c: Config, rows: seq<Job>, url: string) {
    exists p :: OpenPath(c, rows, p) && p[|p| - 1] == url
  }

  lemma {:induction false} RowIsOpenlyReached(c: Config, rows: seq<Job>, i: nat)
    requires Parented(c, rows) && i < |rows|
    requires forall k :: 0 <= k < |rows| ==> rows[k].depth <= c.maxDepth
    ensures OpenlyReached(c, rows, rows[i].url)
    decreases i
  {
    assert HasParent(c, rows, i);
    if rows[i].depth == 0 {
      var p := [rows[i].url];
      assert OpenPath(c, rows, p) && p[|p| - 1] == rows[i].url;
    } else {
      var j :| 0 <= j < i && rows[j].depth + 1 == rows[i].depth && rows[i].url in Children(c, rows[j].url);
      RowIsOpenlyReached(c, rows, j);
      var p :| OpenPath(c, rows, p) && p[|p| - 1] == rows[j].url;
      ExtendPath(c, p, rows[i].url);
      var q := p + [rows[i].url];
      assert Opened(c, rows, rows[j].url);
      assert OpenPath(c, rows, q) && q[|q| - 1] == rows[i].url;
    }
  }

  lemma {:induction false} OpenPathIsProcessed(c: Config, rows: seq<Job>, p: seq<string>, n: nat)
    requires Seeded(c, rows) && Closed(c, rows) && OpenPath(c, rows, p) && n < |p|
    requires forall i :: 0 <= i < |rows| ==> rows[i].state.Completed?
    ensures HasUrl(rows, p[n])
    decreases n
  {
    if n > 0 {
      assert Opened(c, rows, p[n - 1]);
      var i :| 0 <= i < |rows| && rows[i].url == p[n - 1] && rows[i].depth < c.maxDepth;
      assert MustLink(c, rows[i]);
      assert p[(n - 1) + 1] in Children(c, p[n - 1]);
    }
  }

  /** Whatever the depth limit, the workers and the crashes, a quiet crawl has processed a URL exactly
      when a link path leads to it on which no earlier page was recorded at the limit. */
  lemma {:induction false} ProcessedExactly(c: Config, now: int, acts: seq<Action>, url: string)
    requires ValidConfig(c) && c.maxPages.None? && c.workers >= 1 && CameToRest(c, now, acts)
    ensures var rows := FinalRows(c, now, acts); HasUrl(rows, url) <==> OpenlyReached(c, rows, url)
  {
    var rows := FinalRows(c, now, acts);
    QuietMeansSettled(c, now, acts);
    if HasUrl(rows, url) {
      var i :| 0 <= i < |rows| && rows[i].url == url;
      RowIsOpenlyReached(c, rows, i);
    }
    if OpenlyReached(c, rows, url) {
      var p :| OpenPath(c, rows, p) && p[|p| - 1] == url;
      OpenPathIsProcessed(c, rows, p, |p| - 1);
    }
  }

  // --- Which depths can be recorded ---

  /** Some history in which no run dies half-way through enqueuing records `url` at `depth`. */
  ghost predicate Records(c: Config, url: string, depth: nat) {
    exists now, acts, job :: RecordsBy(c, now, acts, job) && job.url == url && job.depth == depth
  }

  predicate RecordsBy(c: Config, now: int, acts: seq<Action>, job: Job) {
    Legal(c, Fresh(now), acts) && EnqueuesWhole(acts) && job in FinalRows(c, now, acts)
  }

  ghost predicate ChordlessTo(c: Config, url: string, depth: nat) {
    exists p :: IsChordless(c, p) && |p| == depth + 1 && p[depth] == url
  }

  function With(c: Config, workers: nat): Config {
    c.(workers := workers)
  }

  lemma {:induction false} ChordsWithAnyWorkers(c: Config, workers: nat, p: seq<string>)
    ensures IsChordless(With(c, workers), p) <==> IsChordless(c, p)
    ensures ValidConfig(With(c, workers)) <==> ValidConfig(c)
  {
    assert forall u :: Children(With(c, workers), u) == Children(c, u) by {
      forall u {
        SameChildren(c, workers, u);
      }
    }
  }

  lemma {:induction false} SameChildren(c: Config, workers: nat, url: string)
    ensures Children(With(c, workers), url) == Children(c, url)
  {
    if Answers(c, url) {
      SameLinks(c, workers, c.page(url).value);
    }
  }

  lemma {:induction false} SameLinks(c: Config, workers: nat, links: seq<string>)
    ensures Admissible(With(c, workers), links) == Admissible(c, links)
    decreases |links|
  {
    if links != [] {
      SameLinks(c, workers, links[..|links| - 1]);
    }
  }

  /** The history that starts a run and goes on as `run`. */
  lemma {:induction false} FromStart(c: Config, run: seq<Action>, s: State)
    requires RunTo(c, run, s)
    ensures var acts := [Start] + run;
            && Legal(c, Fresh(0), acts) && After(c, Fresh(0), acts) == s
            && Patient(c, Fresh(0), acts) && EnqueuesWhole(acts) && WithoutFailure(acts)
  {
    var acts := [Start] + run;
    OneStep(c, Fresh(0), Start);
    LegalJoins(c, Fresh(0), [Start], run);
    StartIsPatient(c, run);
  }

  lemma {:induction false} StartIsPatient(c: Config, run: seq<Action>)
    requires Legal(c, Fresh(0), [Start] + run) && OneRun(run)
    ensures Patient(c, Fresh(0), [Start] + run)
    decreases |run|
  {
    var acts := [Start] + run;
    var n := |acts| - 1;
    if run == [] {
      assert acts[..n] == [];
    } else {
      assert acts[..n] == [Start] + run[..n - 1];
      StartIsPatient(c, run[..n - 1]);
    }
  }

  lemma {:induction false} ChordlessIsRecorded(c: Config, p: seq<string>)
    requires ValidConfig(c) && c.maxPages.None? && IsChordless(c, p) && |p| <= c.maxDepth + 1 && Room(c, p, |p|) <= c.workers
    ensures Records(c, p[|p| - 1], |p| - 1)
  {
    var s, i := ReachPage(c, p, |p| - 1);
    var run :| RunTo(c, run, s);
    FromStart(c, run, s);
    assert RecordsBy(c, 0, [Start] + run, s.table.rows[i]);
  }

  /** The depths at which a page can be recorded, by some number of workers, are exactly the lengths of the
      chordless link paths to it within the limit. */
  lemma {:induction false} DepthsRecordable(c: Config, url: string, depth: nat)
    requires ValidConfig(c) && c.maxPages.None?
    ensures (exists w: nat :: Records(With(c, w), url, depth)) <==> ChordlessTo(c, url, depth) && depth <= c.maxDepth
  {
    if w: nat :| Records(With(c, w), url, depth) {
      RecordedIsChordless(c, w, url, depth);
    }
    if ChordlessTo(c, url, depth) && depth <= c.maxDepth {
      var w := EnoughRecord(c, url, depth);
    }
  }

  lemma {:induction false} EnoughRecord(c: Config, url: string, depth: nat) returns (w: nat)
    requires ValidConfig(c) && c.maxPages.None? && ChordlessTo(c, url, depth) && depth <= c.maxDepth
    ensures Records(With(c, w), url, depth)
  {
    var p :| IsChordless(c, p) && |p| == depth + 1 && p[depth] == url;
    w := Room(c, p, |p|);
    ChordsWithAnyWorkers(c, w, p);
    SameRoom(c, w, p, |p|);
    ChordlessIsRecorded(With(c, w), p);
  }

  lemma {:induction false} RecordedIsChordless(c: Config, w: nat, url: string, depth: nat)
    requires ValidConfig(c) && Records(With(c, w), url, depth)
    ensures ChordlessTo(c, url, depth) && depth <= c.maxDepth
  {
    var now, acts, job :| RecordsBy(With(c, w), now, acts, job) && job.url == url && job.depth == depth;
    ChordsWithAnyWorkers(c, w, []);
    var p := DepthIsAChordlessPath(With(c, w), now, acts, job);
    ChordsWithAnyWorkers(c, w, p);
  }

  lemma {:induction false} SameRoom(c: Config, w: nat, p: seq<string>, k: nat)
    requires k <= |p|
    ensures Room(With(c, w), p, k) == Room(c, p, k)
    decreases k
  {
    if k > 0 {
      SameChildren(c, w, p[k - 1]);
      SameRoom(c, w, p, k - 1);
    }
  }

  /** Any number of workers crawls breadth first exactly when every chordless path within the limit is a
      shortest path. */
  lemma {:induction false} ManyWorkersBreadthFirst(c: Config)
    requires ValidConfig(c) && c.maxPages.None?
    ensures (forall w: nat, url, depth: nat :: Records(With(c, w), url, depth) ==> IsDistance(c, url, depth))
            <==> (forall url, depth: nat :: ChordlessTo(c, url, depth) && depth <= c.maxDepth ==> IsDistance(c, url, depth))
  {
    forall url, depth: nat
      ensures (exists w: nat :: Records(With(c, w), url, depth)) <==> ChordlessTo(c, url, depth) && depth <= c.maxDepth
    {
      DepthsRecordable(c, url, depth);
    }
  }

  // --- Pages that can be missed ---

  /** In a run from `s` rows keep their places, URLs and depths. */
  lemma {:induction false} RowsStay(c: Config, s: State, run: seq<Action>, i: nat)
    requires ValidConfig(c) && Inv(c, s) && Legal(c, s, run) && OneRun(run) && i < |s.table.rows|
    ensures var rows := After(c, s, run).table.rows;
            i < |rows| && rows[i].url == s.table.rows[i].url && rows[i].depth == s.table.rows[i].depth
    decreases |run|
  {
    if run != [] {
      var n := |run| - 1;
      RowsStay(c, s, run[..n], i);
      HistoryKeeps(c, s, run[..n]);
      RowStays(c, After(c, s, run[..n]), run[n], i);
    }
  }

  lemma {:induction false} RowStays(c: Config, s: State, a: Action, i: nat)
    requires Inv(c, s) && Enabled(c, s, a) && WithinRun(a) && i < |s.table.rows|
    ensures var rows := Next(c, s, a).table.rows;
            i < |rows| && rows[i].url == s.table.rows[i].url && rows[i].depth == s.table.rows[i].depth
  {
    if a.Finish? {
      var job := s.workers[a.w].job;
      ExpandedGrows(c, s, job);
      assert Next(c, s, a).table.rows == ApplyAll(Complete(job.id), Expanded(c, s, job).rows);
      assert Expanded(c, s, job).rows[i] == s.table.rows[i];
    } else if a.Take? {
      assert Next(c, s, a).table.rows == ApplyAll(Claim(Claimed(c, s).id, s.now + LEASE_SECS), s.table.rows);
    }
  }

  /** A page linked only from a page recorded at the limit has no row. */
  lemma {:induction false} OnlyChildIsMissed(c: Config, rows: seq<Job>, i: nat, url: string)
    requires Parented(c, rows) && KeysUnique(rows) && KeyedRows(c, rows)
    requires forall k :: 0 <= k < |rows| ==> rows[k].depth <= c.maxDepth
    requires i < |rows| && rows[i].depth == c.maxDepth && url !in c.seeds
    requires forall v :: url in Children(c, v) ==> v == rows[i].url
    ensures !HasUrl(rows, url)
  {
    if k :| 0 <= k < |rows| && rows[k].url == url {
      assert HasParent(c, rows, k);
      var j :| 0 <= j < k && rows[j].depth + 1 == rows[k].depth && rows[k].url in Children(c, rows[j].url);
      UrlsUnique(c, rows, i, j);
    }
  }

  /** No job fails without an exception. */
  lemma {:induction false} NothingFails(c: Config, s: State, acts: seq<Action>)
    requires Legal(c, s, acts) && WithoutFailure(acts) && EnqueuesWhole(acts) && ValidConfig(c) && Inv(c, s) && NoneFailed(s)
    ensures NoneFailed(After(c, s, acts))
    decreases |acts|
  {
    if acts != [] {
      var n := |acts| - 1;
      NothingFails(c, s, acts[..n]);
      HistoryKeeps(c, s, acts[..n]);
      StepFailsNothing(c, After(c, s, acts[..n]), acts[n]);
    }
  }

  predicate NoFailedRow(rows: seq<Job>) {
    forall i :: 0 <= i < |rows| ==> !rows[i].state.Failed?
  }

  lemma {:induction false} GrowthFailsNothing(c: Config, t: Table, t': Table, urls: seq<string>, depth: nat)
    requires NoFailedRow(t.rows) && Grown(c, t, t', urls, depth)
    ensures NoFailedRow(t'.rows)
  {
    forall i | 0 <= i < |t'.rows| ensures !t'.rows[i].state.Failed? {
      if i < |t.rows| {
        assert t'.rows[i] == t.rows[i];
      } else {
        assert NewRow(c, t'.rows[i], urls, depth);
      }
    }
  }

  lemma {:induction false} FinishFailsNothing(c: Config, s: State, w: nat)
    requires Inv(c, s) && Enabled(c, s, Finish(w)) && NoFailedRow(s.table.rows)
    ensures NoFailedRow(Next(c, s, Finish(w)).table.rows)
  {
    var job := s.workers[w].job;
    var t := Expanded(c, s, job);
    if Expands(c, s, job) {
      EnqueueAllGrows(c, s.table, Children(c, job.url), job.depth + 1);
      GrowthFailsNothing(c, s.table, t, Children(c, job.url), job.depth + 1);
    }
    UpdateFailsNothing(Complete(job.id), t.rows);
  }

  lemma {:induction false} UpdateFailsNothing(u: Update, rows: seq<Job>)
    requires NoFailedRow(rows) && !u.Fail?
    ensures NoFailedRow(ApplyAll(u, rows))
  {
  }

  lemma {:induction false} StartFailsNothing(c: Config, s: State, seeds: seq<string>)
    requires ValidConfig(c) && Inv(c, s) && NoFailedRow(s.table.rows) && seeds <= c.seeds
    ensures NoFailedRow(EnqueueAll(c, Recovered(c, s), seeds, 0).rows)
  {
    var t := Recovered(c, s);
    StartTable(c, s, seeds);
    UpdateFailsNothing(Reclaim(s.now), s.table.rows);
    GrowthFailsNothing(c, t, EnqueueAll(c, t, seeds, 0), seeds, 0);
  }

  lemma {:induction false} StepFailsNothing(c: Config, s: State, a: Action)
    requires ValidConfig(c) && Inv(c, s) && Enabled(c, s, a) && !a.Abort? && !a.CrashInFinish? && NoFailedRow(s.table.rows)
    ensures NoFailedRow(Next(c, s, a).table.rows)
  {
    if a.Finish? {
      FinishFailsNothing(c, s, a.w);
    } else if a.Start? || a.CrashInStart? {
      StartFailsNothing(c, s, if a.Start? then c.seeds else c.seeds[..a.kept]);
    } else if a.Take? {
      assert Next(c, s, a).table.rows == ApplyAll(Claim(Claimed(c, s).id, s.now + LEASE_SECS), s.table.rows);
    } else {
      assert Next(c, s, a).table.rows == s.table.rows;
    }
  }

  /** At a rest reached from `s`, a page recorded at the limit in `s` still is, and only its child is missed. */
  lemma {:induction false} MissedAtRest(c: Config, s: State, rest: seq<Action>, i: nat, url: string)
    requires ValidConfig(c) && Inv(c, s) && RestsBy(c, s, rest) && i < |s.table.rows| && s.table.rows[i].depth == c.maxDepth
    requires url !in c.seeds && forall v :: url in Children(c, v) ==> v == s.table.rows[i].url
    ensures HasUrl(After(c, s, rest).table.rows, s.table.rows[i].url) && !HasUrl(After(c, s, rest).table.rows, url)
  {
    RowsStay(c, s, rest, i);
    HistoryKeeps(c, s, rest);
    OnlyChildIsMissed(c, After(c, s, rest).table.rows, i, url);
  }

  lemma {:induction false} RestFromStart(c: Config, run: seq<Action>, s: State, rest: seq<Action>) returns (acts: seq<Action>)
    requires ValidConfig(c) && RunTo(c, run, s) && RestsBy(c, s, rest)
    ensures CameToRest(c, 0, acts) && EnqueuesWhole(acts) && FinalRows(c, 0, acts) == After(c, s, rest).table.rows
  {
    RunGoesTo(c, run, s, rest);
    FromStart(c, run + rest, After(c, s, rest));
    acts := [Start] + (run + rest);
    NothingFails(c, Fresh(0), acts);
  }

  /** Where a chordless path as long as the depth limit leads to a page, enough workers can come to rest without
      a page that only it links to. */
  lemma {:induction false} LongPathCanMissPage(c: Config, p: seq<string>, url: string) returns (acts: seq<Action>)
    requires ValidConfig(c) && c.maxPages.None? && IsChordless(c, p) && |p| == c.maxDepth + 1 && Room(c, p, |p|) <= c.workers
    requires url !in c.seeds && forall v :: url in Children(c, v) ==> v == p[|p| - 1]
    ensures CameToRest(c, 0, acts) && EnqueuesWhole(acts)
    ensures HasUrl(FinalRows(c, 0, acts), p[|p| - 1]) && !HasUrl(FinalRows(c, 0, acts), url)
  {
    var s, i := ReachPage(c, p, |p| - 1);
    var run :| RunTo(c, run, s);
    ArrivesMidRun(c, s);
    var rest := CanComeToRest(c, s);
    MissedAtRest(c, s, rest, i, url);
    acts := RestFromStart(c, run, s, rest);
  }

  /** Some quiet crawl, none of whose runs died half-way through enqueuing, has processed `page` but not `url`. */
  ghost predicate Misses(c: Config, page: string, url: string) {
    exists now, acts :: MissesBy(c, now, acts, page, url)
  }

  predicate MissesBy(c: Config, now: int, acts: seq<Action>, page: string, url: string) {
    && CameToRest(c, now, acts) && EnqueuesWhole(acts)
    && HasUrl(FinalRows(c, now, acts), page) && !HasUrl(FinalRows(c, now, acts), url)
  }

  lemma {:induction false} MissedMeansLimit(c: Config, page: string, url: string)
    requires ValidConfig(c) && c.maxPages.None? && c.workers >= 1 && url in Children(c, page) && Misses(c, page, url)
    ensures ChordlessTo(c, page, c.maxDepth)
  {
    var now, acts :| MissesBy(c, now, acts, page, url);
    var rows := FinalRows(c, now, acts);
    QuietMeansSettled(c, now, acts);
    var i :| 0 <= i < |rows| && rows[i].url == page;
    assert !MustLink(c, rows[i]);
    var p := DepthIsAChordlessPath(c, now, acts, rows[i]);
  }

  /** A page that only `page` links to can be missed when `page` is processed, by some number of workers, if and
      only if a chordless path of just as many links as the depth limit leads to `page`. */
  lemma {:induction false} MissableExactly(c: Config, page: string, url: string)
    requires ValidConfig(c) && c.maxPages.None?
    requires url in Children(c, page) && url !in c.seeds && forall v :: url in Children(c, v) ==> v == page
    ensures (exists w: nat :: w >= 1 && Misses(With(c, w), page, url)) <==> ChordlessTo(c, page, c.maxDepth)
  {
    if w: nat :| w >= 1 && Misses(With(c, w), page, url) {
      SameChildren(c, w, page);
      ChordsWithAnyWorkers(c, w, []);
      MissedMeansLimit(With(c, w), page, url);
      var p :| IsChordless(With(c, w), p) && |p| == c.maxDepth + 1 && p[c.maxDepth] == page;
      ChordsWithAnyWorkers(c, w, p);
    }
    if ChordlessTo(c, page, c.maxDepth) {
      var w := EnoughMiss(c, page, url);
    }
  }

  lemma {:induction false} LinkIsProcessed(c: Config, now: int, acts: seq<Action>, page: string, url: string)
    requires ValidConfig(c) && c.maxPages.None? && c.workers >= 1 && CameToRest(c, now, acts) && EnqueuesWhole(acts)
    requires HasUrl(FinalRows(c, now, acts), page) && url in Children(c, page) && !ChordlessTo(c, page, c.maxDepth)
    ensures HasUrl(FinalRows(c, now, acts), url)
  {
    if !HasUrl(FinalRows(c, now, acts), url) {
      assert MissesBy(c, now, acts, page, url);
      MissedMeansLimit(c, page, url);
    }
  }

  /** However many pages link to a page: a crawl at rest has processed the end of every link path no earlier page
      of which has a chordless path as long as the depth limit. */
  lemma {:induction false} ShortPathIsProcessed(c: Config, now: int, acts: seq<Action>, p: seq<string>)
    requires ValidConfig(c) && c.maxPages.None? && c.workers >= 1 && CameToRest(c, now, acts) && EnqueuesWhole(acts)
    requires IsPath(c, p) && forall i :: 0 <= i < |p| - 1 ==> !ChordlessTo(c, p[i], c.maxDepth)
    ensures HasUrl(FinalRows(c, now, acts), p[|p| - 1])
    decreases |p|
  {
    var n := |p| - 1;
    if n == 0 {
      QuietMeansSettled(c, now, acts);
    } else {
      assert IsPath(c, p[..n]) && p[(n - 1) + 1] in Children(c, p[n - 1]);
      ShortPathIsProcessed(c, now, acts, p[..n]);
      LinkIsProcessed(c, now, acts, p[n - 1], p[n]);
    }
  }

  lemma {:induction false} EnoughMiss(c: Config, page: string, url: string) returns (w: nat)
    requires ValidConfig(c) && c.maxPages.None? && ChordlessTo(c, page, c.maxDepth)
    requires url !in c.seeds && forall v :: url in Children(c, v) ==> v == page
    ensures w >= 1 && Misses(With(c, w), page, url)
  {
    var p :| IsChordless(c, p) && |p| == c.maxDepth + 1 && p[c.maxDepth] == page;
    w := Room(c, p, |p|) + 1;
    ChordsWithAnyWorkers(c, w, p);
    SameRoom(c, w, p, |p|);
    forall v ensures Children(With(c, w), v) == Children(c, v) {
      SameChildren(c, w, v);
    }
    var acts := LongPathCanMissPage(With(c, w), p, url);
    assert MissesBy(With(c, w), 0, acts, page, url);
  }

  lemma {:induction false} RunGoesTo(c: Config, run: seq<Action>, s: State, rest: seq<Action>)
    requires RunTo(c, run, s) && RestsBy(c, s, rest)
    ensures RunTo(c, run + rest, After(c, s, rest))
  {
    LegalJoins(c, Started(c, Fresh(0)), run, rest);
  }

  // --- A race ---

  /** Links: s to x, q to d, d to x, x to y. */
  function RacePage(url: string): Option<seq<string>> {
    if url == "s" || url == "d" then Some(["x"])
    else if url == "q" then Some(["d"])
    else if url == "x" then Some(["y"])
    else Some([])
  }

  function RaceSite(): Config {
    Config(1, ["s", "q"], 5, 2, None, _ => true, _ => false, _ => true, RacePage)
  }

  lemma {:induction false} RaceChildren(url: string)
    ensures Children(RaceSite(), url) == RacePage(url).value
  {
    var links := RacePage(url).value;
    if links != [] {
      assert links[..|links| - 1] == [];
      assert links == [links[0]];
    }
  }

  lemma {:induction false} ThreePages(c: Config, a: string, b: string, d: string)
    requires a in c.seeds && b in Children(c, a) && d in Children(c, b)
    ensures IsPath(c, [a, b, d])
    ensures b !in c.seeds && d !in c.seeds && d !in Children(c, a) ==> IsChordless(c, [a, b, d])
    ensures Room(c, [a, b, d], 3) == |c.seeds| + LinkCount(c, a) + LinkCount(c, b) + LinkCount(c, d)
  {
    var p := [a, b, d];
    assert Room(c, p, 1) == |c.seeds| + LinkCount(c, a);
    assert Room(c, p, 2) == Room(c, p, 1) + LinkCount(c, b);
  }

  lemma {:induction false} RacePaths()
    ensures IsChordless(RaceSite(), ["q", "d", "x"]) && ReachedIn(RaceSite(), "y", 2)
    ensures Room(RaceSite(), ["q", "d", "x"], 3) == 5
  {
    RaceChildren("s");
    RaceChildren("q");
    RaceChildren("d");
    RaceChildren("x");
    ThreePages(RaceSite(), "q", "d", "x");
    ThreePages(RaceSite(), "s", "x", "y");
    var p := ["s", "x", "y"];
    assert |p| == 2 + 1 && p[2] == "y";
  }

  lemma {:induction false} OnlyXLinksToY(url: string)
    requires "y" in Children(RaceSite(), url)
    ensures url == "x"
  {
    RaceChildren(url);
  }

  /** A page two links from the start can be missed at depth limit 2, though nothing failed and no limit on pages
      applied: a longer path to its parent was recorded first. */
  lemma {:induction false} DepthLimitCanMissPage() returns (acts: seq<Action>)
    ensures CameToRest(RaceSite(), 0, acts) && RaceSite().maxDepth == 2
    ensures ReachedIn(RaceSite(), "y", 2) && !HasUrl(FinalRows(RaceSite(), 0, acts), "y")
  {
    RacePaths();
    forall v | "y" in Children(RaceSite(), v) ensures v == "x" {
      OnlyXLinksToY(v);
    }
    acts := LongPathCanMissPage(RaceSite(), ["q", "d", "x"], "y");
  }
}
