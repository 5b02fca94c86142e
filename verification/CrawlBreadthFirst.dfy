/** One worker leasing the lowest pending id explores breadth first, restarts included. */
module CrawlBreadthFirst {
  import opened Text
  import opened JobQueue
  import opened Crawl
  import opened CrawlInvariant
  import opened CrawlSteps
  import opened CrawlReach

  predicate Settled(j: Job) {
    j.state.Completed? || j.state.Failed?
  }

  predicate DepthsSorted(rows: seq<Job>) {
    forall i, j :: 0 <= i < j < |rows| ==> rows[i].depth <= rows[j].depth
  }

  /** Rows before `k` are settled, rows after it untouched, and no row is more than one level below row `k`. */
  predicate FrontAt(rows: seq<Job>, k: nat) {
    && k <= |rows|
    && (forall i :: 0 <= i < k ==> Settled(rows[i]))
    && (forall i :: k < i < |rows| ==> rows[i].state.Pending?)
    && (forall i :: k <= i < |rows| ==> rows[i].depth <= rows[k].depth + 1)
    && (k < |rows| ==> !Settled(rows[k]))
  }

  predicate HasUrlBy(rows: seq<Job>, url: string, depth: nat) {
    exists i :: 0 <= i < |rows| && rows[i].url == url && rows[i].depth <= depth
  }

  /** A completed job's links are recorded at most one level below it. */
  predicate ClosedNear(c: Config, rows: seq<Job>) {
    forall i, u :: 0 <= i < |rows| && MustLink(c, rows[i]) && u in Children(c, rows[i].url) ==>
      HasUrlBy(rows, u, rows[i].depth + 1)
  }

  predicate SeededAtTop(c: Config, rows: seq<Job>) {
    forall u :: u in c.seeds ==> HasUrlBy(rows, u, 0)
  }

  /** Only seeds so far, all waiting. */
  predicate JustSeeds(rows: seq<Job>) {
    forall i :: 0 <= i < |rows| ==> rows[i].state.Pending? && rows[i].depth == 0
  }

  ghost predicate Fifo(c: Config, s: State) {
    && DepthsSorted(s.table.rows)
    && (exists k: nat :: FrontAt(s.table.rows, k))
    && ClosedNear(c, s.table.rows)
    && (SeededAtTop(c, s.table.rows) || (!s.running && JustSeeds(s.table.rows)))
  }

  // --- Generic facts ---

  lemma {:induction false} GrownKeepsNear(c: Config, rows: seq<Job>, rows': seq<Job>)
    requires ClosedNear(c, rows) && rows <= rows'
    requires forall i :: |rows| <= i < |rows'| ==> rows'[i].state.Pending?
    ensures ClosedNear(c, rows')
    ensures SeededAtTop(c, rows) ==> SeededAtTop(c, rows')
  {
    forall u, d | HasUrlBy(rows, u, d) ensures HasUrlBy(rows', u, d) {
      var i :| 0 <= i < |rows| && rows[i].url == u && rows[i].depth <= d;
      assert rows'[i] == rows[i];
    }
    forall i, u | 0 <= i < |rows'| && MustLink(c, rows'[i]) && u in Children(c, rows'[i].url)
      ensures HasUrlBy(rows', u, rows'[i].depth + 1)
    {
      assert rows'[i] == rows[i];
    }
  }

  lemma {:induction false} UpdateKeepsNear(c: Config, u: Update, rows: seq<Job>)
    requires ClosedNear(c, rows)
    requires forall i, v :: 0 <= i < |rows| && MustLink(c, Apply(u, rows[i])) && v in Children(c, rows[i].url) ==>
               MustLink(c, rows[i]) || HasUrlBy(rows, v, rows[i].depth + 1)
    ensures ClosedNear(c, ApplyAll(u, rows))
    ensures SeededAtTop(c, rows) ==> SeededAtTop(c, ApplyAll(u, rows))
    ensures DepthsSorted(rows) ==> DepthsSorted(ApplyAll(u, rows))
  {
    var rows' := ApplyAll(u, rows);
    forall v, d | HasUrlBy(rows, v, d) ensures HasUrlBy(rows', v, d) {
      var i :| 0 <= i < |rows| && rows[i].url == v && rows[i].depth <= d;
      assert rows'[i].url == v && rows'[i].depth <= d;
    }
  }

  /** When row `k` settles, the front moves to the next row, if there is one. */
  lemma {:induction false} FrontMoves(rows: seq<Job>, k: nat)
    requires DepthsSorted(rows) && k < |rows|
    requires forall i :: 0 <= i <= k ==> Settled(rows[i])
    requires forall i :: k < i < |rows| ==> rows[i].state.Pending? && rows[i].depth <= rows[k].depth + 1
    ensures FrontAt(rows, k + 1)
  {
  }

  // --- Steps of a lone worker ---

  /** With no lease outstanding the job handed out is the front row. */
  lemma {:induction false} FrontIsFirst(c: Config, rows: seq<Job>, k: nat)
    requires FrontAt(rows, k) && KeyedRows(c, rows) && FirstReady(rows, Some(c.scan)) < |rows|
    requires forall i :: 0 <= i < |rows| ==> !rows[i].state.Leased?
    ensures FirstReady(rows, Some(c.scan)) == k
  {
    FirstReadyIs(rows, Some(c.scan), k);
  }

  /** A claim or a retry of the front row changes nothing else the order depends on. */
  lemma {:induction false} RestateFront(c: Config, rows: seq<Job>, k: nat, u: Update)
    requires DepthsSorted(rows) && FrontAt(rows, k) && k < |rows| && ClosedNear(c, rows)
    requires u.Claim? || u.Fail?
    requires u.id == rows[k].id && forall i :: 0 <= i < |rows| && rows[i].id == u.id ==> i == k
    ensures var rows' := ApplyAll(u, rows);
            && DepthsSorted(rows') && ClosedNear(c, rows') && (exists k': nat :: FrontAt(rows', k'))
            && (SeededAtTop(c, rows) ==> SeededAtTop(c, rows'))
  {
    UpdateKeepsNear(c, u, rows);
    var rows' := ApplyAll(u, rows);
    assert forall i :: 0 <= i < |rows| && i != k ==> rows'[i] == rows[i];
    if rows'[k].state.Failed? {
      FrontMoves(rows', k);
    } else {
      assert FrontAt(rows', k);
    }
  }

  lemma {:induction false} TakeKeepsFifo(c: Config, s: State, w: nat)
    requires OwnTable(c, s.table) && Fifo(c, s) && Enabled(c, s, Take(w)) && |s.workers| == 1 && LeasesHeld(s)
    ensures Fifo(c, Next(c, s, Take(w)))
  {
    var rows := s.table.rows;
    var k: nat :| FrontAt(rows, k);
    forall i | 0 <= i < |rows| ensures !rows[i].state.Leased? {
      assert !IsHeld(s.workers, rows[i]);
    }
    FrontIsFirst(c, rows, k);
    var u := Claim(rows[k].id, s.now + LEASE_SECS);
    RestateFront(c, rows, k, u);
    assert Next(c, s, Take(w)).table.rows == ApplyAll(u, rows);
  }

  /** The lone worker holds the front row. */
  lemma {:induction false} HeldIsFront(c: Config, s: State, w: nat, k: nat)
    requires Inv(c, s) && IsHolding(s, w) && FrontAt(s.table.rows, k)
    ensures k < |s.table.rows| && s.table.rows[k] == s.workers[w].job
    ensures forall i :: 0 <= i < |s.table.rows| && i != k ==> s.table.rows[i].id != s.workers[w].job.id
  {
    var i := RowIndex(s.table, s.workers[w].job);
  }

  lemma {:induction false} AbortKeepsFifo(c: Config, s: State, w: nat)
    requires Inv(c, s) && Fifo(c, s) && Enabled(c, s, Abort(w))
    ensures Fifo(c, Next(c, s, Abort(w)))
  {
    var rows := s.table.rows;
    var k: nat :| FrontAt(rows, k);
    HeldIsFront(c, s, w, k);
    RestateFront(c, rows, k, Update.Fail(rows[k].id));
  }

  /** Appending links of the front row keeps the order and records every link near enough. */
  lemma {:induction false} LinksKeepFifo(c: Config, t: Table, k: nat, links: seq<string>)
    requires OwnTable(c, t) && Parented(c, t.rows) && DepthsSorted(t.rows) && FrontAt(t.rows, k) && k < |t.rows|
    requires ClosedNear(c, t.rows)
    ensures var rows' := EnqueueAll(c, t, links, t.rows[k].depth + 1).rows;
            && t.rows <= rows' && DepthsSorted(rows') && FrontAt(rows', k) && ClosedNear(c, rows')
            && (SeededAtTop(c, t.rows) ==> SeededAtTop(c, rows'))
            && (forall u :: u in links ==> HasUrlBy(rows', u, t.rows[k].depth + 1))
  {
    var d := t.rows[k].depth + 1;
    EnqueueAllGrows(c, t, links, d);
    var rows' := EnqueueAll(c, t, links, d).rows;
    forall i | 0 <= i < |rows'| ensures if i < |t.rows| then rows'[i] == t.rows[i] && rows'[i].depth <= d
                                        else rows'[i].depth == d && rows'[i].state.Pending? {
      assert i >= |t.rows| ==> NewRow(c, rows'[i], links, d);
    }
    GrownKeepsNear(c, t.rows, rows');
    forall u | u in links ensures HasUrlBy(rows', u, d) {
      var i :| 0 <= i < |rows'| && rows'[i].url == u;
    }
  }

  lemma {:induction false} FinishKeepsFifo(c: Config, s: State, w: nat)
    requires Inv(c, s) && Fifo(c, s) && Enabled(c, s, Finish(w)) && c.maxPages.None?
    ensures Fifo(c, Next(c, s, Finish(w)))
  {
    var k: nat :| FrontAt(s.table.rows, k);
    HeldIsFront(c, s, w, k);
    FrontLinksKeepFifo(c, s, k);
    CompleteFront(c, Expanded(c, s, s.table.rows[k]).rows, k);
  }

  lemma {:induction false} FrontLinksKeepFifo(c: Config, s: State, k: nat)
    requires OwnTable(c, s.table) && Parented(c, s.table.rows) && ClosedNear(c, s.table.rows)
    requires DepthsSorted(s.table.rows) && FrontAt(s.table.rows, k) && k < |s.table.rows| && c.maxPages.None?
    ensures var job, rows' := s.table.rows[k], Expanded(c, s, s.table.rows[k]).rows;
            && k < |rows'| && rows'[k] == job
            && DepthsSorted(rows') && FrontAt(rows', k) && ClosedNear(c, rows')
            && (forall i :: 0 <= i < |rows'| && rows'[i].id == job.id ==> i == k)
            && (SeededAtTop(c, s.table.rows) ==> SeededAtTop(c, rows'))
            && (job.depth < c.maxDepth ==>
                  forall u :: u in Children(c, job.url) ==> HasUrlBy(rows', u, job.depth + 1))
  {
    var job := s.table.rows[k];
    if Expands(c, s, job) {
      EnqueueAllGrows(c, s.table, Children(c, job.url), job.depth + 1);
      LinksKeepFifo(c, s.table, k, Children(c, job.url));
    }
  }

  /** Completing the front row, once its links are recorded, moves the front on. */
  lemma {:induction false} CompleteFront(c: Config, rows: seq<Job>, k: nat)
    requires DepthsSorted(rows) && FrontAt(rows, k) && k < |rows| && ClosedNear(c, rows)
    requires forall i :: 0 <= i < |rows| && rows[i].id == rows[k].id ==> i == k
    requires rows[k].depth < c.maxDepth ==>
               forall u :: u in Children(c, rows[k].url) ==> HasUrlBy(rows, u, rows[k].depth + 1)
    ensures var rows' := ApplyAll(Complete(rows[k].id), rows);
            && DepthsSorted(rows') && ClosedNear(c, rows') && (exists k': nat :: FrontAt(rows', k'))
            && (SeededAtTop(c, rows) ==> SeededAtTop(c, rows'))
  {
    var rows' := ApplyAll(Complete(rows[k].id), rows);
    UpdateKeepsNear(c, Complete(rows[k].id), rows);
    assert forall i :: 0 <= i < |rows| && i != k ==> rows'[i] == rows[i];
    FrontMoves(rows', k);
  }

  lemma {:induction false} CrashKeepsFifo(c: Config, s: State, w: nat, kept: nat)
    requires Inv(c, s) && Fifo(c, s) && Enabled(c, s, CrashInFinish(w, kept))
    ensures Fifo(c, Next(c, s, CrashInFinish(w, kept)))
  {
    var k: nat :| FrontAt(s.table.rows, k);
    HeldIsFront(c, s, w, k);
    LinksKeepFifo(c, s.table, k, Children(c, s.workers[w].job.url)[..kept]);
  }

  /** Freed leases leave the front where it was. */
  lemma {:induction false} RecoveryKeepsFifo(c: Config, s: State)
    requires ValidConfig(c) && Inv(c, s) && Fifo(c, s) && LeasesExpired(s)
    ensures var t := Recovered(c, s);
            && OwnTable(c, t) && DepthsSorted(t.rows) && ClosedNear(c, t.rows)
            && (exists k: nat :: FrontAt(t.rows, k))
            && (SeededAtTop(c, s.table.rows) ==> SeededAtTop(c, t.rows))
            && (JustSeeds(s.table.rows) ==> JustSeeds(t.rows))
  {
    StartTable(c, s, []);
    ReclaimKeepsFront(c, s.table.rows, s.now);
  }

  lemma {:induction false} ReclaimKeepsFront(c: Config, rows: seq<Job>, now: int)
    requires DepthsSorted(rows) && ClosedNear(c, rows) && (exists k: nat :: FrontAt(rows, k))
    ensures var rows' := ApplyAll(Reclaim(now), rows);
            && DepthsSorted(rows') && ClosedNear(c, rows') && (exists k: nat :: FrontAt(rows', k))
            && (SeededAtTop(c, rows) ==> SeededAtTop(c, rows'))
            && (JustSeeds(rows) ==> JustSeeds(rows'))
  {
    UpdateKeepsNear(c, Reclaim(now), rows);
    var k: nat :| FrontAt(rows, k);
    assert FrontAt(ApplyAll(Reclaim(now), rows), k);
  }

  lemma {:induction false} KnownUrlsAddNothing(c: Config, t: Table, urls: seq<string>, depth: nat)
    requires KeyedRows(c, t.rows) && forall u :: u in urls ==> HasUrl(t.rows, u)
    ensures EnqueueAll(c, t, urls, depth) == t
    decreases |urls|
  {
    if urls != [] {
      var n := |urls| - 1;
      KnownUrlsAddNothing(c, t, urls[..n], depth);
      assert urls[n] in urls && HasUrl(t.rows, urls[n]);
      var i :| 0 <= i < |t.rows| && t.rows[i].url == urls[n];
      assert t.rows[i].key == Some(DedupeKey(c.scan, urls[n]));
    }
  }

  /** Seeding an already seeded table adds nothing; before that only seeds are waiting. */
  lemma {:induction false} SeedingKeepsFifo(c: Config, t: Table, seeds: seq<string>)
    requires OwnTable(c, t) && DepthsSorted(t.rows) && ClosedNear(c, t.rows) && seeds <= c.seeds
    requires exists k: nat :: FrontAt(t.rows, k)
    requires SeededAtTop(c, t.rows) || JustSeeds(t.rows)
    ensures var rows' := EnqueueAll(c, t, seeds, 0).rows;
            && DepthsSorted(rows') && (exists k: nat :: FrontAt(rows', k)) && ClosedNear(c, rows')
            && (SeededAtTop(c, rows') || (seeds != c.seeds && JustSeeds(rows')))
  {
    var rows, rows' := t.rows, EnqueueAll(c, t, seeds, 0).rows;
    EnqueueAllGrows(c, t, seeds, 0);
    GrownKeepsNear(c, rows, rows');
    if SeededAtTop(c, rows) {
      forall u | u in seeds ensures HasUrl(rows, u) {
        assert u in c.seeds && HasUrlBy(rows, u, 0);
      }
      KnownUrlsAddNothing(c, t, seeds, 0);
    } else {
      forall i | 0 <= i < |rows'| ensures rows'[i].state.Pending? && rows'[i].depth == 0 {
        assert i >= |rows| ==> NewRow(c, rows'[i], seeds, 0);
      }
      assert FrontAt(rows', 0);
      forall u | u in seeds ensures HasUrlBy(rows', u, 0) {
        var i :| 0 <= i < |rows'| && rows'[i].url == u;
      }
    }
  }

  lemma {:induction false} StartKeepsFifo(c: Config, s: State, seeds: seq<string>)
    requires ValidConfig(c) && Inv(c, s) && Fifo(c, s) && !s.running && LeasesExpired(s) && seeds <= c.seeds
    ensures var rows' := EnqueueAll(c, Recovered(c, s), seeds, 0).rows;
            && DepthsSorted(rows') && (exists k: nat :: FrontAt(rows', k)) && ClosedNear(c, rows')
            && (SeededAtTop(c, rows') || (seeds != c.seeds && JustSeeds(rows')))
  {
    RecoveryKeepsFifo(c, s);
    SeedingKeepsFifo(c, Recovered(c, s), seeds);
  }

  lemma {:induction false} StepKeepsFifo(c: Config, s: State, a: Action)
    requires ValidConfig(c) && Inv(c, s) && Fifo(c, s) && Enabled(c, s, a)
    requires c.workers == 1 && c.maxPages.None?
    requires s.running ==> LeasesHeld(s)
    requires a.Start? || a.CrashInStart? ==> LeasesExpired(s)
    ensures Fifo(c, Next(c, s, a))
  {
    match a
    case Take(w) => TakeKeepsFifo(c, s, w);
    case Finish(w) => FinishKeepsFifo(c, s, w);
    case Abort(w) => AbortKeepsFifo(c, s, w);
    case Start => StartKeepsFifo(c, s, c.seeds);
    case CrashInStart(kept) => StartKeepsFifo(c, s, c.seeds[..kept]);
    case CrashInFinish(w, kept) => CrashKeepsFifo(c, s, w, kept);
    case _ =>
  }

  lemma {:induction false} HistoryKeepsFifo(c: Config, now: int, acts: seq<Action>)
    requires ValidConfig(c) && c.workers == 1 && c.maxPages.None?
    requires Legal(c, Fresh(now), acts) && Patient(c, Fresh(now), acts)
    ensures Fifo(c, After(c, Fresh(now), acts))
    decreases |acts|
  {
    if acts == [] {
      assert FrontAt(Fresh(now).table.rows, 0);
    } else {
      var n := |acts| - 1;
      HistoryKeepsFifo(c, now, acts[..n]);
      HistoryKeeps(c, Fresh(now), acts[..n]);
      HistoryKeepsLeases(c, now, acts[..n]);
      StepKeepsFifo(c, After(c, Fresh(now), acts[..n]), acts[n]);
    }
  }

  // --- Exactness ---

  lemma {:induction false} PathIsRecorded(c: Config, rows: seq<Job>, p: seq<string>, n: nat)
    requires SeededAtTop(c, rows) && ClosedNear(c, rows) && IsPath(c, p) && n < |p| && n <= c.maxDepth
    requires forall j :: j in rows ==> j.state.Completed?
    ensures HasUrlBy(rows, p[n], n)
    decreases n
  {
    if n > 0 {
      PathIsRecorded(c, rows, p, n - 1);
      var i :| 0 <= i < |rows| && rows[i].url == p[n - 1] && rows[i].depth <= n - 1;
      assert p[(n - 1) + 1] in Children(c, p[n - 1]);
      assert MustLink(c, rows[i]);
      var j :| 0 <= j < |rows| && rows[j].url == p[n] && rows[j].depth <= rows[i].depth + 1;
    }
  }

  /** With one worker the depths are the link distances, and the jobs are exactly the URLs
      within `maxDepth` links of a seed; crashes and retries change neither. */
  lemma {:induction false} BreadthFirstExactness(c: Config, now: int, acts: seq<Action>)
    requires ValidConfig(c) && c.workers == 1 && c.maxPages.None? && CameToRest(c, now, acts)
    ensures var rows := FinalRows(c, now, acts);
            && (forall i :: 0 <= i < |rows| ==> rows[i].depth <= c.maxDepth && IsDistance(c, rows[i].url, rows[i].depth))
            && (forall u, d: nat :: d <= c.maxDepth && ReachedIn(c, u, d) ==> HasUrl(rows, u))
  {
    var rows := FinalRows(c, now, acts);
    QuietMeansSettled(c, now, acts);
    HistoryKeepsFifo(c, now, acts);
    forall u, d: nat | d <= c.maxDepth && ReachedIn(c, u, d) ensures HasUrlBy(rows, u, d) {
      var p :| IsPath(c, p) && |p| == d + 1 && p[d] == u;
      PathIsRecorded(c, rows, p, d);
    }
    forall i | 0 <= i < |rows| ensures rows[i].depth <= c.maxDepth && IsDistance(c, rows[i].url, rows[i].depth) {
      assert OwnRow(c, rows[i]);
      DepthIsExact(c, rows, i);
    }
  }

  lemma {:induction false} DepthIsExact(c: Config, rows: seq<Job>, i: nat)
    requires Parented(c, rows) && KeysUnique(rows) && KeyedRows(c, rows) && i < |rows| && rows[i].depth <= c.maxDepth
    requires forall u, d: nat :: d <= c.maxDepth && ReachedIn(c, u, d) ==> HasUrlBy(rows, u, d)
    ensures IsDistance(c, rows[i].url, rows[i].depth)
  {
    DepthIsAPath(c, rows, i);
    forall d: nat | ReachedIn(c, rows[i].url, d) ensures rows[i].depth <= d {
      if d <= c.maxDepth {
        var j: nat :| 0 <= j < |rows| && rows[j].url == rows[i].url && rows[j].depth <= d;
        UrlsUnique(c, rows, i, j);
      }
    }
  }

  /** For one worker a crawl that crashed agrees with one that did not at every depth limit:
      same URLs, each at the same depth. */
  lemma {:induction false} LoneResumeEqualsUninterrupted(c: Config, now: int, acts: seq<Action>, now': int, acts': seq<Action>, i: nat)
    requires ValidConfig(c) && c.workers == 1 && c.maxPages.None?
    requires CameToRest(c, now, acts) && CameToRest(c, now', acts') && i < |FinalRows(c, now, acts)|
    ensures var rows, rows' := FinalRows(c, now, acts), FinalRows(c, now', acts');
            exists j :: 0 <= j < |rows'| && rows'[j].url == rows[i].url && rows'[j].depth == rows[i].depth
  {
    var rows, rows' := FinalRows(c, now, acts), FinalRows(c, now', acts');
    BreadthFirstExactness(c, now, acts);
    BreadthFirstExactness(c, now', acts');
    assert IsDistance(c, rows[i].url, rows[i].depth);
    var j :| 0 <= j < |rows'| && rows'[j].url == rows[i].url;
    assert IsDistance(c, rows'[j].url, rows'[j].depth);
  }
}
