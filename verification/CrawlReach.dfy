/** Whole-run safety: the page limit, sound quiescence, and completeness. */
module CrawlReach {
  import opened Text
  import opened JobQueue
  import opened Crawl
  import opened CrawlInvariant
  import opened CrawlSteps

  // --- Page limit ---

  /** However w workers interleave, retry and crash, a limit of m >= 1 pages is overshot by at most w - 1. */
  lemma {:induction false} PageLimitOvershoot(c: Config, now: int, acts: seq<Action>)
    requires ValidConfig(c) && Legal(c, Fresh(now), acts) && c.maxPages.Some?
    ensures After(c, Fresh(now), acts).pages <=
            if c.maxPages.value == 0 then 0 else c.maxPages.value + c.workers - 1
  {
    HistoryKeeps(c, Fresh(now), acts);
  }

  // --- Leases ---

  predicate IsHeld(ws: seq<Worker>, j: Job) {
    exists w :: 0 <= w < |ws| && ws[w].Holding? && ws[w].job == j
  }

  /** No lease belongs to a dead run. */
  predicate LeasesHeld(s: State) {
    forall i :: 0 <= i < |s.table.rows| && s.table.rows[i].state.Leased? ==> IsHeld(s.workers, s.table.rows[i])
  }

  /** A step of worker w that leaves row i and every other worker alone leaves row i held. */
  lemma {:induction false} StillHeld(s: State, s': State, w: nat, i: nat)
    requires w < |s.workers| == |s'.workers| && i < |s.table.rows| && i < |s'.table.rows|
    requires LeasesHeld(s) && s'.workers == s.workers[w := s'.workers[w]]
    requires s'.table.rows[i] == s.table.rows[i] && s.table.rows[i].state.Leased?
    requires s.workers[w].Holding? && s.workers[w].job == s.table.rows[i] ==>
               s'.workers[w].Holding? && s'.workers[w].job == s.workers[w].job
    ensures IsHeld(s'.workers, s'.table.rows[i])
  {
    var v :| 0 <= v < |s.workers| && s.workers[v].Holding? && s.workers[v].job == s.table.rows[i];
    assert s'.workers[v].Holding? && s'.workers[v].job == s.table.rows[i];
  }

  lemma {:induction false} TakeKeepsLeases(c: Config, s: State, w: nat)
    requires ValidTable(s.table) && Enabled(c, s, Take(w)) && LeasesHeld(s)
    ensures LeasesHeld(Next(c, s, Take(w)))
  {
    var s' := Next(c, s, Take(w));
    var rows, rows' := s.table.rows, s'.table.rows;
    var k := FirstReady(rows, Some(c.scan));
    forall i | 0 <= i < |rows'| && rows'[i].state.Leased? ensures IsHeld(s'.workers, rows'[i]) {
      if i == k {
        assert s'.workers[w].job == rows'[k];
      } else {
        assert rows[i].id != rows[k].id;
        StillHeld(s, s', w, i);
      }
    }
  }

  /** Settling the job of w, after appending pending rows, leaves the other leases held. */
  lemma {:induction false} SettleKeepsLeases(s: State, s': State, w: nat, u: Update, grown: seq<Job>)
    requires LeasesHeld(s) && IsHolding(s, w)
    requires u == Complete(s.workers[w].job.id) || u == Update.Fail(s.workers[w].job.id)
    requires s.table.rows <= grown && s'.table.rows == ApplyAll(u, grown) && s'.workers == s.workers[w := Idle]
    requires forall i :: |s.table.rows| <= i < |grown| ==> grown[i].state.Pending?
    ensures LeasesHeld(s')
  {
    var rows' := s'.table.rows;
    forall i | 0 <= i < |rows'| && rows'[i].state.Leased? ensures IsHeld(s'.workers, rows'[i]) {
      assert rows'[i] == grown[i];
      StillHeld(s, s', w, i);
    }
  }

  lemma {:induction false} FinishKeepsLeases(c: Config, s: State, w: nat)
    requires ValidTable(s.table) && KeyedRows(c, s.table.rows) && Enabled(c, s, Finish(w)) && LeasesHeld(s)
    ensures LeasesHeld(Next(c, s, Finish(w)))
  {
    var job := s.workers[w].job;
    if Expands(c, s, job) {
      EnqueueAllGrows(c, s.table, Children(c, job.url), job.depth + 1);
    }
    SettleKeepsLeases(s, Next(c, s, Finish(w)), w, Complete(job.id), Expanded(c, s, job).rows);
  }

  lemma {:induction false} StartHoldsLeases(c: Config, s: State)
    requires ValidConfig(c) && TableInv(c, s.table) && LeasesExpired(s)
    ensures LeasesHeld(Started(c, s))
  {
    StartTable(c, s, c.seeds);
    NoneLeased(c, Recovered(c, s), Started(c, s).table, c.seeds);
  }

  lemma {:induction false} NoneLeased(c: Config, t: Table, t': Table, seeds: seq<string>)
    requires Grown(c, t, t', seeds, 0)
    requires forall i :: 0 <= i < |t.rows| ==> !t.rows[i].state.Leased?
    ensures forall i :: 0 <= i < |t'.rows| ==> !t'.rows[i].state.Leased?
  {
    assert forall i :: 0 <= i < |t.rows| ==> t'.rows[i] == t.rows[i];
    assert forall i :: |t.rows| <= i < |t'.rows| ==> NewRow(c, t'.rows[i], seeds, 0);
  }

  /** In a history whose starts are patient, every leased row is held by a live worker. */
  lemma {:induction false} StepKeepsLeases(c: Config, s: State, a: Action)
    requires ValidConfig(c) && Inv(c, s) && Enabled(c, s, a)
    requires s.running ==> LeasesHeld(s)
    requires a.Start? ==> LeasesExpired(s)
    ensures Next(c, s, a).running ==> LeasesHeld(Next(c, s, a))
  {
    var s' := Next(c, s, a);
    match a
    case Start =>
      StartHoldsLeases(c, s);
    case Take(w) =>
      TakeKeepsLeases(c, s, w);
    case Finish(w) =>
      FinishKeepsLeases(c, s, w);
    case Abort(w) =>
      SettleKeepsLeases(s, s', w, Update.Fail(s.workers[w].job.id), s.table.rows);
    case LeaveAtLimit(w) => OtherStepKeepsLeases(s, s', w);
    case LeaveIdle(w) => OtherStepKeepsLeases(s, s', w);
    case Count(w) => OtherStepKeepsLeases(s, s', w);
    case _ =>
  }

  lemma {:induction false} OtherStepKeepsLeases(s: State, s': State, w: nat)
    requires LeasesHeld(s) && s'.table == s.table && w < |s.workers| == |s'.workers|
    requires s'.workers == s.workers[w := s'.workers[w]]
    requires s.workers[w].Holding? ==> s'.workers[w].Holding? && s'.workers[w].job == s.workers[w].job
    ensures LeasesHeld(s')
  {
    forall i | 0 <= i < |s.table.rows| && s.table.rows[i].state.Leased? ensures IsHeld(s'.workers, s.table.rows[i]) {
      StillHeld(s, s', w, i);
    }
  }

  lemma {:induction false} HistoryKeepsLeases(c: Config, now: int, acts: seq<Action>)
    requires ValidConfig(c) && Legal(c, Fresh(now), acts) && Patient(c, Fresh(now), acts)
    ensures After(c, Fresh(now), acts).running ==> LeasesHeld(After(c, Fresh(now), acts))
    decreases |acts|
  {
    if acts != [] {
      var n := |acts| - 1;
      HistoryKeepsLeases(c, now, acts[..n]);
      HistoryKeeps(c, Fresh(now), acts[..n]);
      StepKeepsLeases(c, After(c, Fresh(now), acts[..n]), acts[n]);
    }
  }

  // --- Quiescence ---

  /** Nothing this run could still lease or finish: each row is settled, or leased by a dead run. */
  predicate Exhausted(s: State) {
    && Holders(s.workers) == 0
    && forall i :: 0 <= i < |s.table.rows| ==> !s.table.rows[i].state.Pending?
  }

  predicate SomeLeftIdle(s: State) {
    s.running && exists w :: 0 <= w < |s.workers| && s.workers[w].LeftIdle?
  }

  lemma {:induction false} LeftIdleMeansExhausted(c: Config, s: State)
    requires Sound(c, s) && SomeLeftIdle(s)
    ensures Exhausted(s)
  {
    var rows := s.table.rows;
    forall i | 0 <= i < |rows| ensures !rows[i].state.Pending? {
      assert OwnRow(c, rows[i]) && !Ready(rows[i], Some(c.scan));
    }
  }

  /** A worker leaves through the idle branch only when the scan's queue is exhausted, and
      then no later step of any worker of the run touches a job or adds one. */
  lemma {:induction false} IdleExitIsSound(c: Config, s: State, acts: seq<Action>)
    requires ValidConfig(c) && Inv(c, s) && SomeLeftIdle(s) && Legal(c, s, acts) && OneRun(acts)
    ensures Exhausted(s)
    ensures After(c, s, acts).table.rows == s.table.rows && SomeLeftIdle(After(c, s, acts))
    decreases |acts|
  {
    LeftIdleMeansExhausted(c, s);
    if acts != [] {
      var n := |acts| - 1;
      var before := After(c, s, acts[..n]);
      IdleExitIsSound(c, s, acts[..n]);
      HistoryKeeps(c, s, acts[..n]);
      LeftIdleMeansExhausted(c, before);
      CountsBounded(before.workers);
      var w :| 0 <= w < |before.workers| && before.workers[w].LeftIdle?;
      assert After(c, s, acts).workers[w].LeftIdle?;
    }
  }

  /** When every worker of a patient history has left and no limit applies, all jobs are settled. */
  lemma {:induction false} QuietMeansSettled(c: Config, now: int, acts: seq<Action>)
    requires ValidConfig(c) && c.maxPages.None? && c.workers >= 1 && CameToRest(c, now, acts)
    ensures Inv(c, After(c, Fresh(now), acts))
    ensures forall j :: j in FinalRows(c, now, acts) ==> j.state.Completed?
  {
    var s := After(c, Fresh(now), acts);
    HistoryKeeps(c, Fresh(now), acts);
    HistoryKeepsLeases(c, now, acts);
    assert s.workers[0].LeftIdle?;
    LeftIdleMeansExhausted(c, s);
    CountsBounded(s.workers);
    forall i | 0 <= i < |s.table.rows| ensures s.table.rows[i].state.Completed? {
      assert !IsHeld(s.workers, s.table.rows[i]);
    }
  }

  // --- Depths and paths ---

  /** Whatever the interleaving, a job's depth is the length of a real link path to it. */
  lemma {:induction false} DepthIsAPath(c: Config, rows: seq<Job>, i: nat)
    requires Parented(c, rows) && i < |rows|
    ensures ReachedIn(c, rows[i].url, rows[i].depth)
    ensures rows[i].depth <= i
    decreases i
  {
    assert HasParent(c, rows, i);
    if rows[i].depth == 0 {
      assert IsPath(c, [rows[i].url]);
    } else {
      var j :| 0 <= j < i && rows[j].depth + 1 == rows[i].depth && rows[i].url in Children(c, rows[j].url);
      DepthIsAPath(c, rows, j);
      var p :| IsPath(c, p) && |p| == rows[j].depth + 1 && p[rows[j].depth] == rows[j].url;
      ExtendPath(c, p, rows[i].url);
      var q := p + [rows[i].url];
      assert |q| == rows[i].depth + 1 && q[rows[i].depth] == rows[i].url;
    }
  }

  lemma {:induction false} ExtendPath(c: Config, p: seq<string>, url: string)
    requires IsPath(c, p) && url in Children(c, p[|p| - 1])
    ensures IsPath(c, p + [url])
  {
    var q := p + [url];
    forall i | 0 <= i < |q| - 1 ensures q[i + 1] in Children(c, q[i]) {
      if i < |p| - 1 {
        assert p[i + 1] in Children(c, p[i]);
      }
    }
  }

  lemma {:induction false} HistoryIsParented(c: Config, now: int, acts: seq<Action>)
    requires ValidConfig(c) && Legal(c, Fresh(now), acts)
    ensures Parented(c, FinalRows(c, now, acts))
  {
    HistoryKeeps(c, Fresh(now), acts);
  }

  lemma {:induction false} DistanceIsLeast(c: Config, url: string, d: nat, e: nat)
    requires IsDistance(c, url, d) && ReachedIn(c, url, e)
    ensures d <= e
  {
  }

  /** No job is recorded nearer than its link distance, in any history. */
  lemma {:induction false} DepthNeverBelowDistance(c: Config, now: int, acts: seq<Action>, job: Job, d: nat)
    requires ValidConfig(c) && Legal(c, Fresh(now), acts)
    requires job in FinalRows(c, now, acts) && IsDistance(c, job.url, d)
    ensures ReachedIn(c, job.url, job.depth) && d <= job.depth
  {
    HistoryIsParented(c, now, acts);
    RowIsReached(c, FinalRows(c, now, acts), job);
    DistanceIsLeast(c, job.url, d, job.depth);
  }

  lemma {:induction false} RowIsReached(c: Config, rows: seq<Job>, job: Job)
    requires Parented(c, rows) && job in rows
    ensures ReachedIn(c, job.url, job.depth)
  {
    var i: nat :| i < |rows| && rows[i] == job;
    DepthIsAPath(c, rows, i);
  }

  // --- Distinct URLs ---

  function Urls(rows: seq<Job>): set<string> {
    set i | 0 <= i < |rows| :: rows[i].url
  }

  lemma {:induction false} DistinctUrlsCount(c: Config, rows: seq<Job>)
    requires KeysUnique(rows) && KeyedRows(c, rows)
    ensures |Urls(rows)| == |rows|
    decreases |rows|
  {
    if rows != [] {
      var n := |rows| - 1;
      DistinctUrlsCount(c, rows[..n]);
      assert Urls(rows) == Urls(rows[..n]) + {rows[n].url};
      forall i | 0 <= i < n ensures rows[i].url != rows[n].url {
        DedupeKeyInjective(c.scan, rows[i].url, c.scan, rows[n].url);
      }
      assert rows[n].url !in Urls(rows[..n]);
    }
  }

  lemma {:induction false} SubsetSize<T>(a: set<T>, b: set<T>)
    requires a <= b
    ensures |a| <= |b|
  {
    assert b == a + (b - a);
  }

  /** `all` holds every seed and every admitted URL, so it holds every job's URL. */
  ghost predicate Covers(c: Config, all: set<string>) {
    (forall u :: u in c.seeds ==> u in all) && (forall u :: Admitted(c, u) ==> u in all)
  }

  // --- Simple paths ---

  /** A link path that visits no page twice. */
  predicate IsSimple(c: Config, p: seq<string>) {
    IsPath(c, p) && forall i, j :: 0 <= i < j < |p| ==> p[i] != p[j]
  }

  lemma {:induction false} UrlsDiffer(c: Config, rows: seq<Job>, i: nat, j: nat)
    requires KeysUnique(rows) && KeyedRows(c, rows) && i < j < |rows|
    ensures rows[i].url != rows[j].url
  {
    assert rows[i].key != rows[j].key;
  }

  /** Whatever the interleaving and the crashes, a job's depth is the length of a simple link path. */
  lemma {:induction false} DepthIsASimplePath(c: Config, rows: seq<Job>, i: nat) returns (p: seq<string>)
    requires Parented(c, rows) && KeysUnique(rows) && KeyedRows(c, rows) && i < |rows|
    ensures IsSimple(c, p) && |p| == rows[i].depth + 1 && p[|p| - 1] == rows[i].url
    ensures forall m :: 0 <= m < |p| ==> exists j :: 0 <= j <= i && rows[j].url == p[m]
    decreases i
  {
    assert HasParent(c, rows, i);
    if rows[i].depth == 0 {
      p := [rows[i].url];
    } else {
      var j :| 0 <= j < i && rows[j].depth + 1 == rows[i].depth && rows[i].url in Children(c, rows[j].url);
      var q := DepthIsASimplePath(c, rows, j);
      ExtendPath(c, q, rows[i].url);
      forall m | 0 <= m < |q| ensures q[m] != rows[i].url {
        var k :| 0 <= k <= j && rows[k].url == q[m];
        UrlsDiffer(c, rows, k, i);
      }
      p := q + [rows[i].url];
    }
  }

  /** No simple link path to `url` is as long as the depth limit, so no crawl can record it at the limit. */
  ghost predicate SurelyExpanded(c: Config, url: string) {
    forall p :: IsSimple(c, p) && p[|p| - 1] == url ==> |p| <= c.maxDepth
  }

  lemma {:induction false} SureDepth(c: Config, rows: seq<Job>, i: nat)
    requires Parented(c, rows) && KeysUnique(rows) && KeyedRows(c, rows) && i < |rows|
    requires SurelyExpanded(c, rows[i].url)
    ensures rows[i].depth < c.maxDepth
  {
    var p := DepthIsASimplePath(c, rows, i);
  }

  // --- Completeness ---

  lemma {:induction false} ClosedReachesPath(c: Config, rows: seq<Job>, p: seq<string>, n: nat)
    requires Parented(c, rows) && KeysUnique(rows) && KeyedRows(c, rows)
    requires Seeded(c, rows) && Closed(c, rows) && IsPath(c, p) && n < |p|
    requires forall i :: 0 <= i < |rows| ==> rows[i].state.Completed?
    requires forall i :: 0 <= i < n ==> SurelyExpanded(c, p[i])
    ensures HasUrl(rows, p[n])
    decreases n
  {
    if n > 0 {
      ClosedReachesPath(c, rows, p, n - 1);
      var i :| 0 <= i < |rows| && rows[i].url == p[n - 1];
      SureDepth(c, rows, i);
      assert MustLink(c, rows[i]);
      assert p[(n - 1) + 1] in Children(c, p[n - 1]);
    }
  }

  /** On any site, with any number of workers, interleaving and crashes: a quiet crawl has processed the last
      page of every link path no earlier page of which can be recorded at the depth limit. */
  lemma {:induction false} SurePathIsProcessed(c: Config, now: int, acts: seq<Action>, p: seq<string>)
    requires ValidConfig(c) && c.maxPages.None? && c.workers >= 1 && CameToRest(c, now, acts)
    requires IsPath(c, p) && forall i :: 0 <= i < |p| - 1 ==> SurelyExpanded(c, p[i])
    ensures HasUrl(FinalRows(c, now, acts), p[|p| - 1])
  {
    QuietMeansSettled(c, now, acts);
    ClosedReachesPath(c, FinalRows(c, now, acts), p, |p| - 1);
  }

  /** No page that has links can be recorded at the depth limit. */
  ghost predicate DeepEnough(c: Config) {
    forall u :: Children(c, u) != [] ==> SurelyExpanded(c, u)
  }

  lemma {:induction false} ReachableIsProcessed(c: Config, now: int, acts: seq<Action>, url: string)
    requires ValidConfig(c) && c.maxPages.None? && c.workers >= 1 && CameToRest(c, now, acts) && DeepEnough(c)
    requires Reachable(c, url)
    ensures HasUrl(FinalRows(c, now, acts), url)
  {
    var d: nat :| ReachedIn(c, url, d);
    var p :| IsPath(c, p) && |p| == d + 1 && p[d] == url;
    forall i | 0 <= i < |p| - 1 ensures SurelyExpanded(c, p[i]) {
      assert p[i + 1] in Children(c, p[i]);
    }
    SurePathIsProcessed(c, now, acts, p);
  }

  lemma {:induction false} ProcessedIsReachable(c: Config, rows: seq<Job>, url: string)
    requires Parented(c, rows) && HasUrl(rows, url)
    ensures Reachable(c, url)
  {
    var i :| 0 <= i < |rows| && rows[i].url == url;
    DepthIsAPath(c, rows, i);
  }

  /** Completeness: whatever the interleaving and the crashes, a quiet crawl has processed exactly the URLs its
      seeds reach, one completed job each. */
  lemma {:induction false} Completeness(c: Config, now: int, acts: seq<Action>)
    requires ValidConfig(c) && c.maxPages.None? && c.workers >= 1 && CameToRest(c, now, acts) && DeepEnough(c)
    ensures var rows := FinalRows(c, now, acts);
            && (forall u :: HasUrl(rows, u) <==> Reachable(c, u))
            && (forall i :: 0 <= i < |rows| ==> rows[i].state.Completed?)
            && (forall i, j :: 0 <= i < |rows| && 0 <= j < |rows| && rows[i].url == rows[j].url ==> i == j)
  {
    var rows := FinalRows(c, now, acts);
    QuietMeansSettled(c, now, acts);
    forall u ensures HasUrl(rows, u) <==> Reachable(c, u) {
      if HasUrl(rows, u) {
        ProcessedIsReachable(c, rows, u);
      } else if Reachable(c, u) {
        ReachableIsProcessed(c, now, acts, u);
      }
    }
    forall i, j | 0 <= i < |rows| && 0 <= j < |rows| && rows[i].url == rows[j].url ensures i == j {
      UrlsUnique(c, rows, i, j);
    }
  }

  lemma {:induction false} SimpleIsShort(c: Config, p: seq<string>, all: set<string>)
    requires IsSimple(c, p) && Covers(c, all)
    ensures |p| <= |all|
  {
    var pages := set i | 0 <= i < |p| :: p[i];
    DistinctCount(p);
    forall u | u in pages ensures u in all {
      var i: nat :| i < |p| && p[i] == u;
      if i > 0 {
        assert p[(i - 1) + 1] in Children(c, p[i - 1]);
        ChildIsAdmitted(c, p[i - 1], u);
      }
    }
    SubsetSize(pages, all);
  }

  lemma {:induction false} DistinctCount(p: seq<string>)
    requires forall i, j :: 0 <= i < j < |p| ==> p[i] != p[j]
    ensures |set i | 0 <= i < |p| :: p[i]| == |p|
    decreases |p|
  {
    if p != [] {
      var n := |p| - 1;
      DistinctCount(p[..n]);
      assert (set i | 0 <= i < |p| :: p[i]) == (set i | 0 <= i < n :: p[..n][i]) + {p[n]};
    }
  }

  /** A depth limit no smaller than the number of admissible URLs is deep enough. */
  lemma {:induction false} CountIsDeepEnough(c: Config, all: set<string>)
    requires Covers(c, all) && |all| <= c.maxDepth
    ensures DeepEnough(c)
  {
    forall p | IsSimple(c, p) ensures |p| <= c.maxDepth {
      SimpleIsShort(c, p, all);
    }
  }

  /** Crashes and restarts change nothing in the end: two quiet crawls of a site hold the same jobs. */
  lemma {:induction false} ResumeEqualsUninterrupted(c: Config, now: int, acts: seq<Action>, now': int, acts': seq<Action>)
    requires ValidConfig(c) && c.maxPages.None? && c.workers >= 1 && DeepEnough(c)
    requires CameToRest(c, now, acts) && CameToRest(c, now', acts')
    ensures Urls(FinalRows(c, now, acts)) == Urls(FinalRows(c, now', acts'))
    ensures |FinalRows(c, now, acts)| == |FinalRows(c, now', acts')|
  {
    FinalUrlsAre(c, now, acts);
    FinalUrlsAre(c, now', acts');
  }

  lemma {:induction false} FinalUrlsAre(c: Config, now: int, acts: seq<Action>)
    requires ValidConfig(c) && c.maxPages.None? && c.workers >= 1 && DeepEnough(c) && CameToRest(c, now, acts)
    ensures forall u :: u in Urls(FinalRows(c, now, acts)) <==> Reachable(c, u)
    ensures |FinalRows(c, now, acts)| == |Urls(FinalRows(c, now, acts))|
  {
    var rows := FinalRows(c, now, acts);
    Completeness(c, now, acts);
    assert forall u :: u in Urls(rows) <==> HasUrl(rows, u);
    HistoryKeeps(c, Fresh(now), acts);
    DistinctUrlsCount(c, rows);
  }
}
