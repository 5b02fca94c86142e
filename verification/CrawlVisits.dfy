/** The crawl of a site that changes under it: every visit to a page may answer differently, or fail and never
    be tried again. What holds of such runs too. */
module CrawlVisits {
  import opened Text
  import opened JobQueue
  import opened Crawl
  import opened CrawlInvariant
  import opened CrawlSteps
  import opened CrawlReach
  import opened CrawlTermination

  /** A step, and what the pages answer at that moment. */
  datatype Visit = Visit(page: string -> Option<seq<string>>, act: Action)

  function Showing(c: Config, v: Visit): Config {
    c.(page := v.page)
  }

  predicate LegalVisits(c: Config, s: State, visits: seq<Visit>)
    decreases |visits|, 0
  {
    visits == [] ||
    (var n := |visits| - 1;
     LegalVisits(c, s, visits[..n]) && Enabled(Showing(c, visits[n]), AfterVisits(c, s, visits[..n]), visits[n].act))
  }

  function AfterVisits(c: Config, s: State, visits: seq<Visit>): State
    requires LegalVisits(c, s, visits)
    decreases |visits|, 1
  {
    if visits == [] then s
    else
      var n := |visits| - 1;
      Next(Showing(c, visits[n]), AfterVisits(c, s, visits[..n]), visits[n].act)
  }

  // --- Every step keeps what does not depend on the site ---

  lemma {:induction false} UpdateKeepsOwn(c: Config, u: Update, t: Table)
    requires OwnTable(c, t)
    requires u.Complete? ==> forall i :: 0 <= i < |t.rows| && t.rows[i].id == u.id ==> t.rows[i].attempts >= 1
    ensures OwnTable(c, t.(rows := ApplyAll(u, t.rows)))
    ensures Seeded(c, t.rows) ==> Seeded(c, ApplyAll(u, t.rows))
  {
    UpdateKeepsValid(u, t);
    UpdateKeepsUrls(c, u, t.rows);
  }

  lemma {:induction false} GrowthKeepsOwn(c: Config, t: Table, urls: seq<string>, depth: nat)
    requires OwnTable(c, t) && depth <= c.maxDepth && forall u :: u in urls ==> c.inScope(u)
    ensures var t' := EnqueueAll(c, t, urls, depth);
            OwnTable(c, t') && Grown(c, t, t', urls, depth) && (Seeded(c, t.rows) ==> Seeded(c, t'.rows))
  {
    var t' := EnqueueAll(c, t, urls, depth);
    EnqueueAllGrows(c, t, urls, depth);
    forall i | 0 <= i < |t'.rows| ensures OwnRow(c, t'.rows[i]) {
      if i < |t.rows| {
        assert t'.rows[i] == t.rows[i];
      } else {
        assert NewRow(c, t'.rows[i], urls, depth);
      }
    }
    GrownKeepsClosed(c, t, t', urls, depth);
  }

  lemma {:induction false} ChildrenInScope(c: Config, url: string)
    ensures forall u :: u in Children(c, url) ==> c.inScope(u)
  {
    forall u | u in Children(c, url) ensures c.inScope(u) {
      ChildIsAdmitted(c, url, u);
    }
  }

  lemma {:induction false} TakeStaysSound(c: Config, s: State, w: nat)
    requires Sound(c, s) && Enabled(c, s, Take(w))
    ensures Sound(c, Next(c, s, Take(w)))
  {
    var u := Claim(Claimed(c, s).id, s.now + LEASE_SECS);
    UpdateKeepsOwn(c, u, s.table);
    assert Next(c, s, Take(w)).table == s.table.(rows := ApplyAll(u, s.table.rows));
    TakeKeepsWorkers(c, s, w);
    TakeKeepsCounts(c, s, w);
  }

  lemma {:induction false} AbortStaysSound(c: Config, s: State, w: nat)
    requires Sound(c, s) && Enabled(c, s, Abort(w))
    ensures Sound(c, Next(c, s, Abort(w)))
  {
    var u := Update.Fail(s.workers[w].job.id);
    UpdateKeepsOwn(c, u, s.table);
    ReleaseKeepsWorkers(c, s, Next(c, s, Abort(w)), w, u, s.table.rows);
  }

  lemma {:induction false} ExpandedStaysOwn(c: Config, s: State, job: Job)
    requires OwnTable(c, s.table)
    ensures var t := Expanded(c, s, job);
            && OwnTable(c, t) && s.table.rows <= t.rows && (Seeded(c, s.table.rows) ==> Seeded(c, t.rows))
  {
    if Expands(c, s, job) {
      ChildrenInScope(c, job.url);
      GrowthKeepsOwn(c, s.table, Children(c, job.url), job.depth + 1);
    }
  }

  lemma {:induction false} FinishStaysSound(c: Config, s: State, w: nat)
    requires Sound(c, s) && Enabled(c, s, Finish(w))
    ensures Sound(c, Next(c, s, Finish(w)))
  {
    var job := s.workers[w].job;
    var t := Expanded(c, s, job);
    var k := RowIndex(s.table, job);
    ExpandedStaysOwn(c, s, job);
    assert t.rows[k] == job && forall i :: 0 <= i < |t.rows| && t.rows[i].id == job.id ==> i == k;
    UpdateKeepsOwn(c, Complete(job.id), t);
    ReleaseKeepsWorkers(c, s, Next(c, s, Finish(w)), w, Complete(job.id), t.rows);
  }

  lemma {:induction false} CrashStaysSound(c: Config, s: State, w: nat, kept: nat)
    requires Sound(c, s) && Enabled(c, s, CrashInFinish(w, kept))
    ensures Sound(c, Next(c, s, CrashInFinish(w, kept)))
  {
    var job := s.workers[w].job;
    ChildrenInScope(c, job.url);
    GrowthKeepsOwn(c, s.table, Children(c, job.url)[..kept], job.depth + 1);
  }

  lemma {:induction false} StartStaysOwn(c: Config, s: State, kept: nat)
    requires ValidConfig(c) && OwnTable(c, s.table) && kept <= |c.seeds|
    ensures var t := EnqueueAll(c, Recovered(c, s), c.seeds[..kept], 0);
            OwnTable(c, t) && (kept == |c.seeds| ==> Seeded(c, t.rows))
  {
    UpdateKeepsOwn(c, Reclaim(s.now), s.table);
    PurgeDropsNothing(c, ApplyAll(Reclaim(s.now), s.table.rows));
    GrowthKeepsOwn(c, Recovered(c, s), c.seeds[..kept], 0);
  }

  lemma {:induction false} StartStaysSound(c: Config, s: State)
    requires ValidConfig(c) && Sound(c, s) && Enabled(c, s, Start)
    ensures Sound(c, Next(c, s, Start))
  {
    StartStaysOwn(c, s, |c.seeds|);
    assert c.seeds[..|c.seeds|] == c.seeds;
    CountsBounded(Next(c, s, Start).workers);
  }

  lemma {:induction false} StepStaysSound(c: Config, s: State, a: Action)
    requires ValidConfig(c) && Sound(c, s) && Enabled(c, s, a)
    ensures Sound(c, Next(c, s, a))
  {
    match a
    case Take(w) => TakeStaysSound(c, s, w);
    case Finish(w) => FinishStaysSound(c, s, w);
    case Abort(w) => AbortStaysSound(c, s, w);
    case Start => StartStaysSound(c, s);
    case CrashInStart(kept) => StartStaysOwn(c, s, kept);
    case CrashInFinish(w, kept) => CrashStaysSound(c, s, w, kept);
    case _ => WorkerStepKeeps(c, s, a);
  }

  lemma {:induction false} SoundOnAnySite(c: Config, v: Visit, s: State)
    ensures Sound(Showing(c, v), s) <==> Sound(c, s)
    ensures ValidConfig(Showing(c, v)) <==> ValidConfig(c)
  {
    assert OwnTable(Showing(c, v), s.table) <==> OwnTable(c, s.table) by {
      assert forall j :: OwnRow(Showing(c, v), j) <==> OwnRow(c, j);
    }
  }

  /** Whatever each visit answers, every history keeps: in_flight counts the holders, no job is held twice, and
      the page limit's bound. */
  lemma {:induction false} VisitsStaySound(c: Config, s: State, visits: seq<Visit>)
    requires ValidConfig(c) && Sound(c, s) && LegalVisits(c, s, visits)
    ensures Sound(c, AfterVisits(c, s, visits))
    decreases |visits|
  {
    if visits != [] {
      var n := |visits| - 1;
      var before := AfterVisits(c, s, visits[..n]);
      VisitsStaySound(c, s, visits[..n]);
      SoundOnAnySite(c, visits[n], before);
      StepStaysSound(Showing(c, visits[n]), before, visits[n].act);
      SoundOnAnySite(c, visits[n], AfterVisits(c, s, visits));
    }
  }

  // --- The page limit ---

  lemma {:induction false} VisitsOvershoot(c: Config, now: int, visits: seq<Visit>)
    requires ValidConfig(c) && LegalVisits(c, Fresh(now), visits) && c.maxPages.Some?
    ensures AfterVisits(c, Fresh(now), visits).pages <=
            if c.maxPages.value == 0 then 0 else c.maxPages.value + c.workers - 1
  {
    VisitsStaySound(c, Fresh(now), visits);
  }

  // --- Quiescence ---

  predicate OneRunOfVisits(visits: seq<Visit>) {
    forall i :: 0 <= i < |visits| ==> WithinRun(visits[i].act)
  }

  lemma {:induction false} ExhaustedStepIsIdle(c: Config, s: State, a: Action)
    requires Sound(c, s) && SomeLeftIdle(s) && Enabled(c, s, a) && WithinRun(a)
    ensures Next(c, s, a).table.rows == s.table.rows && SomeLeftIdle(Next(c, s, a))
  {
    LeftIdleMeansExhausted(c, s);
    CountsBounded(s.workers);
    var w :| 0 <= w < |s.workers| && s.workers[w].LeftIdle?;
    assert Next(c, s, a).workers[w].LeftIdle?;
  }

  /** The idle exit is sound on a site that changes: nothing this run could lease is left, and no later step
      touches a job or adds one. */
  lemma {:induction false} VisitsIdleExit(c: Config, s: State, visits: seq<Visit>)
    requires ValidConfig(c) && Sound(c, s) && SomeLeftIdle(s) && LegalVisits(c, s, visits) && OneRunOfVisits(visits)
    ensures Exhausted(s)
    ensures var s' := AfterVisits(c, s, visits); s'.table.rows == s.table.rows && SomeLeftIdle(s')
    decreases |visits|
  {
    LeftIdleMeansExhausted(c, s);
    if visits != [] {
      var n := |visits| - 1;
      var before := AfterVisits(c, s, visits[..n]);
      VisitsIdleExit(c, s, visits[..n]);
      VisitsStaySound(c, s, visits[..n]);
      SoundOnAnySite(c, visits[n], before);
      ExhaustedStepIsIdle(Showing(c, visits[n]), before, visits[n].act);
    }
  }

  // --- Termination ---

  function VisitSteps(visits: seq<Visit>): nat {
    if visits == [] then 0
    else VisitSteps(visits[..|visits| - 1]) + if Progresses(visits[|visits| - 1].act) then 1 else 0
  }

  lemma {:induction false} VisitsUseWork(urls: nat, c: Config, s: State, visits: seq<Visit>)
    requires ValidConfig(c) && Sound(c, s) && LegalVisits(c, s, visits) && OneRunOfVisits(visits)
    ensures VisitSteps(visits) + Work(urls, AfterVisits(c, s, visits)) <= Work(urls, s)
    decreases |visits|
  {
    if visits != [] {
      var n := |visits| - 1;
      var before := AfterVisits(c, s, visits[..n]);
      VisitsUseWork(urls, c, s, visits[..n]);
      VisitsStaySound(c, s, visits[..n]);
      SoundOnAnySite(c, visits[n], before);
      StepUsesWork(urls, Showing(c, visits[n]), before, visits[n].act);
    }
  }

  /** However the pages change, a run takes at most nine steps for each job there ever is, and three for each
      worker, besides waiting. */
  lemma {:induction false} VisitsTerminate(c: Config, s: State, visits: seq<Visit>)
    requires ValidConfig(c) && Sound(c, s) && s.running && LegalVisits(c, s, visits) && OneRunOfVisits(visits)
    ensures VisitSteps(visits) <= NEW_JOB_WORK * |AfterVisits(c, s, visits).table.rows| + 3 * c.workers
  {
    VisitsUseWork(0, c, s, visits);
    WorkIsBounded(s.table.rows, s.workers);
  }

  /** And if all links ever shown lie among finitely many URLs, that is a bound on the whole run. */
  lemma {:induction false} VisitsTerminateWithin(c: Config, s: State, visits: seq<Visit>, all: set<string>)
    requires ValidConfig(c) && Sound(c, s) && s.running && LegalVisits(c, s, visits) && OneRunOfVisits(visits)
    requires Urls(s.table.rows) <= all
    requires forall i, u, child :: 0 <= i < |visits| && child in Children(Showing(c, visits[i]), u) ==> child in all
    ensures VisitSteps(visits) <= NEW_JOB_WORK * |all| + 3 * c.workers
  {
    VisitsTerminate(c, s, visits);
    VisitsStayWithin(c, s, visits, all);
    VisitsStaySound(c, s, visits);
    var rows := AfterVisits(c, s, visits).table.rows;
    DistinctUrlsCount(c, rows);
    SubsetSize(Urls(rows), all);
  }

  lemma {:induction false} VisitsStayWithin(c: Config, s: State, visits: seq<Visit>, all: set<string>)
    requires ValidConfig(c) && Sound(c, s) && LegalVisits(c, s, visits) && OneRunOfVisits(visits)
    requires Urls(s.table.rows) <= all
    requires forall i, u, child :: 0 <= i < |visits| && child in Children(Showing(c, visits[i]), u) ==> child in all
    ensures Urls(AfterVisits(c, s, visits).table.rows) <= all
    decreases |visits|
  {
    if visits != [] {
      var n := |visits| - 1;
      var before := AfterVisits(c, s, visits[..n]);
      VisitsStayWithin(c, s, visits[..n], all);
      VisitsStaySound(c, s, visits[..n]);
      SoundOnAnySite(c, visits[n], before);
      StepStaysWithin(Showing(c, visits[n]), before, visits[n].act, all);
    }
  }

  lemma {:induction false} StepStaysWithin(c: Config, s: State, a: Action, all: set<string>)
    requires OwnTable(c, s.table) && Enabled(c, s, a) && WithinRun(a) && Urls(s.table.rows) <= all
    requires forall u, child :: child in Children(c, u) ==> child in all
    ensures Urls(Next(c, s, a).table.rows) <= all
  {
    var rows' := Next(c, s, a).table.rows;
    forall i | 0 <= i < |rows'| ensures rows'[i].url in all {
      if i < |s.table.rows| {
        assert s.table.rows[i].url in Urls(s.table.rows);
      }
      if a.Finish? && Expands(c, s, s.workers[a.w].job) {
        var job := s.workers[a.w].job;
        EnqueueAllGrows(c, s.table, Children(c, job.url), job.depth + 1);
      }
    }
  }
}
