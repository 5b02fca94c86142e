/** At which depths many workers can record a page: at the lengths of the chordless link paths to it, and at no
    others. A path is chordless when no page links further ahead on it than to its next page. */
module CrawlChords {
  import opened JobQueue
  import opened Crawl
  import opened CrawlInvariant
  import opened CrawlSteps
  import opened CrawlReach

  predicate IsChordless(c: Config, p: seq<string>) {
    && IsPath(c, p)
    && (forall i :: 0 < i < |p| ==> p[i] !in c.seeds)
    && (forall j, i :: 0 <= j && j + 1 < i < |p| ==> p[i] !in Children(c, p[j]))
  }

  /** No run dies half-way through enqueuing a page's links. */
  predicate EnqueuesWhole(acts: seq<Action>) {
    forall i :: 0 <= i < |acts| ==> !acts[i].CrashInFinish?
  }

  // --- Every recorded depth is that of a chordless path ---

  /** Every page of the path but the last has a row for each of its links. */
  predicate Spread(c: Config, rows: seq<Job>, p: seq<string>) {
    forall m, u :: 0 <= m < |p| - 1 && u in Children(c, p[m]) ==> HasUrl(rows, u)
  }

  predicate Wove(c: Config, rows: seq<Job>, p: seq<string>, url: string, depth: nat) {
    IsChordless(c, p) && |p| == depth + 1 && p[|p| - 1] == url && Spread(c, rows, p)
  }

  ghost predicate WovenAt(c: Config, rows: seq<Job>, url: string, depth: nat) {
    exists p :: Wove(c, rows, p, url, depth)
  }

  ghost predicate Woven(c: Config, rows: seq<Job>) {
    forall i :: 0 <= i < |rows| ==> WovenAt(c, rows, rows[i].url, rows[i].depth)
  }

  lemma {:induction false} MoreRowsStayWoven(c: Config, rows: seq<Job>, rows': seq<Job>, url: string, depth: nat)
    requires WovenAt(c, rows, url, depth) && forall u :: HasUrl(rows, u) ==> HasUrl(rows', u)
    ensures WovenAt(c, rows', url, depth)
  {
    var p :| Wove(c, rows, p, url, depth);
    assert Wove(c, rows', p, url, depth);
  }

  lemma {:induction false} UpdateKeepsWoven(c: Config, u: Update, rows: seq<Job>)
    requires Woven(c, rows)
    ensures Woven(c, ApplyAll(u, rows))
  {
    UpdateKeepsUrls(c, u, rows);
    var rows' := ApplyAll(u, rows);
    forall i | 0 <= i < |rows'| ensures WovenAt(c, rows', rows'[i].url, rows'[i].depth) {
      assert WovenAt(c, rows, rows[i].url, rows[i].depth);
      MoreRowsStayWoven(c, rows, rows', rows[i].url, rows[i].depth);
    }
  }

  lemma {:induction false} GrowthKeepsWoven(c: Config, rows: seq<Job>, rows': seq<Job>)
    requires Woven(c, rows) && rows <= rows'
    requires forall i :: |rows| <= i < |rows'| ==> WovenAt(c, rows', rows'[i].url, rows'[i].depth)
    ensures Woven(c, rows')
  {
    forall u | HasUrl(rows, u) ensures HasUrl(rows', u) {
      PrefixKeepsUrls(rows, rows', u);
    }
    forall i | 0 <= i < |rows| ensures WovenAt(c, rows', rows'[i].url, rows'[i].depth) {
      assert rows'[i] == rows[i];
      MoreRowsStayWoven(c, rows, rows', rows[i].url, rows[i].depth);
    }
  }

  lemma {:induction false} ExtendChordless(c: Config, p: seq<string>, url: string)
    requires IsChordless(c, p) && url in Children(c, p[|p| - 1]) && url !in c.seeds
    requires forall m :: 0 <= m < |p| - 1 ==> url !in Children(c, p[m])
    ensures IsChordless(c, p + [url])
  {
    ExtendPath(c, p, url);
  }

  /** A page queued for the first time was linked from no earlier page of its parent's path. */
  lemma {:induction false} ChildIsWoven(c: Config, rows: seq<Job>, rows': seq<Job>, parent: string, depth: nat, url: string)
    requires WovenAt(c, rows, parent, depth) && Seeded(c, rows)
    requires forall u :: HasUrl(rows, u) ==> HasUrl(rows', u)
    requires url in Children(c, parent) && !HasUrl(rows, url)
    requires forall u :: u in Children(c, parent) ==> HasUrl(rows', u)
    ensures WovenAt(c, rows', url, depth + 1)
  {
    var p :| Wove(c, rows, p, parent, depth);
    var q := p + [url];
    forall m | 0 <= m < |p| - 1 ensures url !in Children(c, p[m]) {
      assert Spread(c, rows, p);
    }
    ExtendChordless(c, p, url);
    forall m, u | 0 <= m < |q| - 1 && u in Children(c, q[m]) ensures HasUrl(rows', u) {
      if m < |p| - 1 {
        assert HasUrl(rows, u);
      }
    }
    assert Wove(c, rows', q, url, depth + 1);
  }

  lemma {:induction false} ExpandedKeepsWoven(c: Config, s: State, job: Job)
    requires Inv(c, s) && Seeded(c, s.table.rows) && Woven(c, s.table.rows) && job in s.table.rows
    ensures Woven(c, Expanded(c, s, job).rows)
  {
    var rows, t, links := s.table.rows, Expanded(c, s, job), Children(c, job.url);
    if Expands(c, s, job) {
      EnqueueAllGrows(c, s.table, links, job.depth + 1);
      forall u | HasUrl(rows, u) ensures HasUrl(t.rows, u) {
        PrefixKeepsUrls(rows, t.rows, u);
      }
      forall i | |rows| <= i < |t.rows| ensures WovenAt(c, t.rows, t.rows[i].url, t.rows[i].depth) {
        assert NewRow(c, t.rows[i], links, job.depth + 1);
        ChildIsWoven(c, rows, t.rows, job.url, job.depth, t.rows[i].url);
      }
      GrowthKeepsWoven(c, rows, t.rows);
    }
  }

  lemma {:induction false} FinishKeepsWoven(c: Config, s: State, w: nat)
    requires Inv(c, s) && Woven(c, s.table.rows) && Enabled(c, s, Finish(w))
    ensures Woven(c, Next(c, s, Finish(w)).table.rows)
  {
    var job := s.workers[w].job;
    ExpandedKeepsWoven(c, s, job);
    UpdateKeepsWoven(c, Complete(job.id), Expanded(c, s, job).rows);
  }

  lemma {:induction false} StartKeepsWoven(c: Config, s: State, kept: nat)
    requires ValidConfig(c) && Inv(c, s) && Woven(c, s.table.rows) && kept <= |c.seeds|
    ensures Woven(c, EnqueueAll(c, Recovered(c, s), c.seeds[..kept], 0).rows)
  {
    var t, t' := Recovered(c, s), EnqueueAll(c, Recovered(c, s), c.seeds[..kept], 0);
    StartTable(c, s, c.seeds[..kept]);
    UpdateKeepsWoven(c, Reclaim(s.now), s.table.rows);
    forall i | |t.rows| <= i < |t'.rows| ensures WovenAt(c, t'.rows, t'.rows[i].url, t'.rows[i].depth) {
      assert NewRow(c, t'.rows[i], c.seeds[..kept], 0);
      assert Wove(c, t'.rows, [t'.rows[i].url], t'.rows[i].url, 0);
    }
    GrowthKeepsWoven(c, t.rows, t'.rows);
  }

  lemma {:induction false} StartStepKeepsWoven(c: Config, s: State, a: Action)
    requires ValidConfig(c) && Inv(c, s) && Woven(c, s.table.rows) && Enabled(c, s, a) && (a.Start? || a.CrashInStart?)
    ensures Woven(c, Next(c, s, a).table.rows)
  {
    StartKeepsWoven(c, s, if a.Start? then |c.seeds| else a.kept);
    assert c.seeds[..|c.seeds|] == c.seeds;
  }

  lemma {:induction false} UpdateStepKeepsWoven(c: Config, s: State, a: Action)
    requires Woven(c, s.table.rows) && Enabled(c, s, a) && (a.Take? || a.Abort?)
    ensures Woven(c, Next(c, s, a).table.rows)
  {
    var u := if a.Take? then Claim(Claimed(c, s).id, s.now + LEASE_SECS) else Update.Fail(s.workers[a.w].job.id);
    assert Next(c, s, a).table.rows == ApplyAll(u, s.table.rows);
    UpdateKeepsWoven(c, u, s.table.rows);
  }

  lemma {:induction false} StepKeepsWoven(c: Config, s: State, a: Action)
    requires ValidConfig(c) && Inv(c, s) && Woven(c, s.table.rows) && Enabled(c, s, a) && !a.CrashInFinish?
    ensures Woven(c, Next(c, s, a).table.rows)
  {
    if a.Take? || a.Abort? {
      UpdateStepKeepsWoven(c, s, a);
    } else if a.Finish? {
      FinishKeepsWoven(c, s, a.w);
    } else if a.Start? || a.CrashInStart? {
      StartStepKeepsWoven(c, s, a);
    } else {
      assert Next(c, s, a).table.rows == s.table.rows;
    }
  }

  lemma {:induction false} HistoryKeepsWoven(c: Config, now: int, acts: seq<Action>)
    requires ValidConfig(c) && Legal(c, Fresh(now), acts) && EnqueuesWhole(acts)
    ensures Woven(c, FinalRows(c, now, acts))
    decreases |acts|
  {
    if acts != [] {
      var n := |acts| - 1;
      HistoryKeepsWoven(c, now, acts[..n]);
      HistoryKeeps(c, Fresh(now), acts[..n]);
      StepKeepsWoven(c, After(c, Fresh(now), acts[..n]), acts[n]);
    }
  }

  /** Any number of workers, restarts included: a recorded depth is the length of a chordless path. */
  lemma {:induction false} DepthIsAChordlessPath(c: Config, now: int, acts: seq<Action>, job: Job) returns (p: seq<string>)
    requires ValidConfig(c) && Legal(c, Fresh(now), acts) && EnqueuesWhole(acts) && job in FinalRows(c, now, acts)
    ensures IsChordless(c, p) && |p| == job.depth + 1 && p[|p| - 1] == job.url && job.depth <= c.maxDepth
  {
    var rows := FinalRows(c, now, acts);
    HistoryKeepsWoven(c, now, acts);
    HistoryKeeps(c, Fresh(now), acts);
    var i :| 0 <= i < |rows| && rows[i] == job;
    assert WovenAt(c, rows, rows[i].url, rows[i].depth);
    p :| Wove(c, rows, p, rows[i].url, rows[i].depth);
  }
}
