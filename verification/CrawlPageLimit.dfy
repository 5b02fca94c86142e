/** The page limit from both sides: a run neither runs far past it nor stops short of it. The guards of the
    workers' loop are stated on the queue and the counters themselves. */
module CrawlPageLimit {
  import opened Text
  import opened JobQueue
  import opened Crawl
  import opened CrawlInvariant
  import opened CrawlReach
  import opened CrawlVisits

  // --- The guards of the loop ---

  /** A job is waiting to be leased. */
  predicate SomePending(s: State) {
    exists j :: j in s.table.rows && j.state.Pending?
  }

  lemma {:induction false} ReadyMeansPending(c: Config, s: State)
    requires OwnTable(c, s.table)
    ensures AnyReady(c, s) <==> SomePending(s)
  {
    var rows := s.table.rows;
    if AnyReady(c, s) {
      assert rows[FirstReady(rows, Some(c.scan))] in rows;
    } else {
      forall j | j in rows ensures !j.state.Pending? {
        var i :| 0 <= i < |rows| && rows[i] == j;
        assert OwnRow(c, rows[i]) && !Ready(rows[i], Some(c.scan));
      }
    }
  }

  /** What each of the four branches at the top of the loop waits for: the limit first, then a pending job, then
      workers that still hold one. */
  lemma {:induction false} GuardsAreExact(c: Config, s: State, w: nat)
    requires Sound(c, s)
    ensures var idle := s.running && w < |s.workers| && s.workers[w].Idle?;
            var within := c.maxPages.None? || s.pages < c.maxPages.value;
            var held := exists v :: 0 <= v < |s.workers| && s.workers[v].Holding?;
            && (Enabled(c, s, LeaveAtLimit(w)) <==> idle && c.maxPages.Some? && s.pages >= c.maxPages.value)
            && (Enabled(c, s, Take(w)) <==> idle && within && SomePending(s))
            && (Enabled(c, s, Poll(w)) <==> idle && within && !SomePending(s) && held)
            && (Enabled(c, s, LeaveIdle(w)) <==> idle && within && !SomePending(s) && !held)
  {
    ReadyMeansPending(c, s);
    CountsBounded(s.workers);
  }

  /** A held page is counted exactly when it came back, once, and finished when it was counted or never will be: out
      of scope, blocked, barred by robots.txt, or not fetched. */
  lemma {:induction false} HeldPageIsCounted(c: Config, s: State, w: nat)
    requires s.running && w < |s.workers| && s.workers[w].Holding?
    ensures var url, counted := s.workers[w].job.url, s.workers[w].counted;
            var back := c.inScope(url) && !c.blocked(url) && c.robots(url) && c.page(url).Some?;
            && (Enabled(c, s, Count(w)) <==> back && !counted)
            && (Enabled(c, s, Finish(w)) <==> (back <==> counted))
            && (Enabled(c, s, Count(w)) ==>
                  Next(c, s, Count(w)) == s.(workers := s.workers[w := Holding(s.workers[w].job, true)], pages := s.pages + 1))
  {
  }

  // --- Leaving at the limit ---

  predicate SomeLeftAtLimit(s: State) {
    exists w :: 0 <= w < |s.workers| && s.workers[w].LeftAtLimit?
  }

  /** Whoever left at the limit left because it was reached. */
  predicate LimitWasReached(c: Config, s: State) {
    SomeLeftAtLimit(s) ==> c.maxPages.Some? && s.pages >= c.maxPages.value
  }

  lemma {:induction false} StepKeepsLimitReached(c: Config, s: State, a: Action)
    requires LimitWasReached(c, s) && Enabled(c, s, a)
    ensures LimitWasReached(c, Next(c, s, a))
  {
    var s' := Next(c, s, a);
    if SomeLeftAtLimit(s') {
      var w :| 0 <= w < |s'.workers| && s'.workers[w].LeftAtLimit?;
      if a != LeaveAtLimit(w) {
        assert s.workers[w].LeftAtLimit?;
      }
    }
  }

  lemma {:induction false} VisitsReachLimit(c: Config, now: int, visits: seq<Visit>)
    requires LegalVisits(c, Fresh(now), visits)
    ensures LimitWasReached(c, AfterVisits(c, Fresh(now), visits))
    decreases |visits|
  {
    if visits != [] {
      var n := |visits| - 1;
      VisitsReachLimit(c, now, visits[..n]);
      StepKeepsLimitReached(Showing(c, visits[n]), AfterVisits(c, Fresh(now), visits[..n]), visits[n].act);
    }
  }

  /** A run at rest below the limit has emptied the queue, whatever each visit answered; so a run that left a job
      behind fetched as many pages as it was allowed, and no more than w - 1 over. */
  lemma {:induction false} LimitIsUsedUp(c: Config, now: int, visits: seq<Visit>, m: nat)
    requires ValidConfig(c) && LegalVisits(c, Fresh(now), visits) && c.workers >= 1 && c.maxPages == Some(m)
    requires Quiet(AfterVisits(c, Fresh(now), visits))
    ensures var s := AfterVisits(c, Fresh(now), visits);
            && (s.pages < m ==> forall j :: j in s.table.rows ==> !j.state.Pending?)
            && (SomePending(s) ==> m <= s.pages <= m + c.workers - 1)
  {
    var s := AfterVisits(c, Fresh(now), visits);
    VisitsStaySound(c, Fresh(now), visits);
    VisitsReachLimit(c, now, visits);
    VisitsOvershoot(c, now, visits);
    assert s.workers[0].LeftIdle? || s.workers[0].LeftAtLimit?;
    if s.pages < m {
      assert SomeLeftIdle(s);
      LeftIdleMeansExhausted(c, s);
    }
  }

  /** Without a limit nobody leaves at one. */
  lemma {:induction false} NoLimitNoEarlyExit(c: Config, now: int, visits: seq<Visit>)
    requires ValidConfig(c) && LegalVisits(c, Fresh(now), visits) && c.workers >= 1 && c.maxPages == None
    requires Quiet(AfterVisits(c, Fresh(now), visits))
    ensures forall j :: j in AfterVisits(c, Fresh(now), visits).table.rows ==> !j.state.Pending?
  {
    var s := AfterVisits(c, Fresh(now), visits);
    VisitsStaySound(c, Fresh(now), visits);
    VisitsReachLimit(c, now, visits);
    assert !s.workers[0].LeftAtLimit?;
    LeftIdleMeansExhausted(c, s);
  }

  /** A history on a site that does not change, as visits. */
  function AsVisits(c: Config, acts: seq<Action>): (visits: seq<Visit>)
    ensures |visits| == |acts|
  {
    seq(|acts|, i requires 0 <= i < |acts| => Visit(c.page, acts[i]))
  }

  /** Histories on a fixed site are visits that all answer alike, so the limit is exact for them too. */
  lemma {:induction false} HistoryIsVisits(c: Config, s: State, acts: seq<Action>)
    requires Legal(c, s, acts)
    ensures LegalVisits(c, s, AsVisits(c, acts)) && AfterVisits(c, s, AsVisits(c, acts)) == After(c, s, acts)
    decreases |acts|
  {
    if acts != [] {
      var n := |acts| - 1;
      HistoryIsVisits(c, s, acts[..n]);
      assert AsVisits(c, acts)[..n] == AsVisits(c, acts[..n]);
      assert Showing(c, AsVisits(c, acts)[n]) == c;
    }
  }

  // --- The counter ---

  /** How many pages came back since the last start. */
  function Counted(visits: seq<Visit>): nat {
    if visits == [] || visits[|visits| - 1].act.Start? then 0
    else Counted(visits[..|visits| - 1]) + if visits[|visits| - 1].act.Count? then 1 else 0
  }

  /** The counter of a run is the number of pages that came back in it: a restart counts from nothing. */
  lemma {:induction false} PagesAreThisRuns(c: Config, now: int, visits: seq<Visit>)
    requires LegalVisits(c, Fresh(now), visits)
    ensures var s := AfterVisits(c, Fresh(now), visits); s.running ==> s.pages == Counted(visits)
    decreases |visits|
  {
    if visits != [] {
      PagesAreThisRuns(c, now, visits[..|visits| - 1]);
    }
  }

  // --- Links ---

  lemma {:induction false} ApplyAllKeepsUrl(u: Update, rows: seq<Job>, url: string)
    ensures HasUrl(ApplyAll(u, rows), url) <==> HasUrl(rows, url)
  {
    if i :| 0 <= i < |rows| && rows[i].url == url {
      assert ApplyAll(u, rows)[i].url == url;
    }
  }

  /** The URLs that have a row after enqueuing. */
  lemma {:induction false} GrownUrls(c: Config, t: Table, t': Table, urls: seq<string>, depth: nat, url: string)
    requires Grown(c, t, t', urls, depth)
    ensures HasUrl(t'.rows, url) <==> HasUrl(t.rows, url) || url in urls
  {
    if HasUrl(t.rows, url) {
      PrefixKeepsUrls(t.rows, t'.rows, url);
    } else if HasUrl(t'.rows, url) {
      var i :| 0 <= i < |t'.rows| && t'.rows[i].url == url;
      assert forall k :: 0 <= k < |t.rows| ==> t'.rows[k] == t.rows[k];
    }
  }

  /** Finishing a page adds a row for exactly its admissible links: those of a page that came back, above the
      depth limit, below the page limit, in scope and not blocked. */
  lemma {:induction false} FinishAddsLinks(c: Config, s: State, w: nat, url: string)
    requires Sound(c, s) && Enabled(c, s, Finish(w))
    ensures var job := s.workers[w].job;
            HasUrl(Next(c, s, Finish(w)).table.rows, url) <==>
              || HasUrl(s.table.rows, url)
              || (&& s.workers[w].counted && job.depth < c.maxDepth
                  && (c.maxPages.None? || s.pages < c.maxPages.value)
                  && url in c.page(job.url).value && c.inScope(url) && !c.blocked(url))
  {
    var job := s.workers[w].job;
    var t := Expanded(c, s, job);
    ApplyAllKeepsUrl(Complete(job.id), t.rows, url);
    if Expands(c, s, job) {
      EnqueueAllGrows(c, s.table, Children(c, job.url), job.depth + 1);
      GrownUrls(c, s.table, t, Children(c, job.url), job.depth + 1, url);
      AdmissibleIs(c, c.page(job.url).value, url);
    }
  }

  /** Every row it adds is pending, one level below the page. */
  lemma {:induction false} FinishAddsOneLevelDown(c: Config, s: State, w: nat, i: nat)
    requires Sound(c, s) && Enabled(c, s, Finish(w))
    requires |s.table.rows| <= i < |Next(c, s, Finish(w)).table.rows|
    ensures var j := Next(c, s, Finish(w)).table.rows[i];
            j.depth == s.workers[w].job.depth + 1 && j.state.Pending? && j.attempts == 0
  {
    var job := s.workers[w].job;
    var t := Expanded(c, s, job);
    var k := RowIndex(s.table, job);
    EnqueueAllGrows(c, s.table, Children(c, job.url), job.depth + 1);
    assert NewRow(c, t.rows[i], Children(c, job.url), job.depth + 1);
    assert t.rows[k] == job && t.rows[i].id != job.id;
  }
}
