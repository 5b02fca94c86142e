/** The schedule by which enough workers record a page at the length of any chordless path to it: the path's
    pages are finished one after the other while every other page is held by a worker that is slow. */
module CrawlSchedule {
  import opened Text
  import opened JobQueue
  import opened Crawl
  import opened CrawlInvariant
  import opened CrawlSteps
  import opened CrawlTermination
  import opened CrawlChords

  // --- Runs ---

  predicate RunTo(c: Config, run: seq<Action>, s: State) {
    && Legal(c, Started(c, Fresh(0)), run) && OneRun(run) && WithoutFailure(run)
    && After(c, Started(c, Fresh(0)), run) == s
  }

  /** A fresh run, with no failure so far, can be in state `s`. */
  ghost predicate Arrives(c: Config, s: State) {
    exists run :: RunTo(c, run, s)
  }

  lemma {:induction false} ArrivesNext(c: Config, s: State, a: Action)
    requires Arrives(c, s) && Enabled(c, s, a) && WithinRun(a) && !a.Abort?
    ensures Arrives(c, Next(c, s, a))
  {
    var run :| RunTo(c, run, s);
    assert (run + [a])[..|run|] == run;
    assert RunTo(c, run + [a], Next(c, s, a));
  }

  lemma {:induction false} ArrivesMidRun(c: Config, s: State)
    requires ValidConfig(c) && Arrives(c, s)
    ensures MidRun(c, s)
  {
    var run :| RunTo(c, run, s);
    StartKeeps(c, Fresh(0));
    HistoryKeeps(c, Started(c, Fresh(0)), run);
    HistoryKeepsCounted(c, Started(c, Fresh(0)), run);
    StaysRunning(c, Started(c, Fresh(0)), run);
  }

  lemma {:induction false} StaysRunning(c: Config, s: State, run: seq<Action>)
    requires Legal(c, s, run) && OneRun(run) && s.running
    ensures After(c, s, run).running
    decreases |run|
  {
    if run != [] {
      StaysRunning(c, s, run[..|run| - 1]);
    }
  }

  // --- Counting ---

  function Leased(rows: seq<Job>): nat {
    if rows == [] then 0 else Leased(rows[..|rows| - 1]) + if rows[|rows| - 1].state.Leased? then 1 else 0
  }

  lemma {:induction false} LeasedAt(rows: seq<Job>, i: nat, j: Job)
    requires i < |rows|
    ensures Leased(rows[i := j]) == Leased(rows) - (if rows[i].state.Leased? then 1 else 0) + (if j.state.Leased? then 1 else 0)
  {
    var n := |rows| - 1;
    if i < n {
      LeasedAt(rows[..n], i, j);
      assert rows[i := j][..n] == rows[..n][i := j];
    } else {
      assert rows[i := j][..n] == rows[..n];
    }
  }

  lemma {:induction false} LeasedGrown(rows: seq<Job>, rows': seq<Job>)
    requires rows <= rows' && forall i :: |rows| <= i < |rows'| ==> rows'[i].state.Pending?
    ensures Leased(rows') == Leased(rows)
  {
    if |rows'| == |rows| {
      assert rows' == rows;
    } else {
      LeasedGrown(rows, rows'[..|rows'| - 1]);
    }
  }

  lemma {:induction false} LeasedBounded(rows: seq<Job>)
    ensures Leased(rows) <= |rows|
    ensures (exists i :: 0 <= i < |rows| && !rows[i].state.Leased?) ==> Leased(rows) < |rows|
  {
    if rows != [] {
      LeasedBounded(rows[..|rows| - 1]);
      assert forall i :: 0 <= i < |rows| - 1 ==> rows[i] == rows[..|rows| - 1][i];
    }
  }

  lemma {:induction false} SomeoneFree(ws: seq<Worker>) returns (w: nat)
    requires Holders(ws) < |ws|
    ensures w < |ws| && !ws[w].Holding?
  {
    var n := |ws| - 1;
    if ws[n].Holding? {
      w := SomeoneFree(ws[..n]);
    } else {
      w := n;
    }
  }

  // --- The stages ---

  function LinkCount(c: Config, url: string): nat {
    |Children(c, url)|
  }

  /** How many rows there can be once the first `k` pages of the path are finished. */
  function Room(c: Config, p: seq<string>, k: nat): nat
    requires k <= |p|
    decreases k
  {
    if k == 0 then |c.seeds| else Room(c, p, k - 1) + LinkCount(c, p[k - 1])
  }

  lemma {:induction false} RoomGrows(c: Config, p: seq<string>, j: nat, k: nat)
    requires j <= k <= |p|
    ensures Room(c, p, j) <= Room(c, p, k)
    decreases k
  {
    if j < k {
      RoomGrows(c, p, j, k - 1);
    }
  }

  /** A seed, or a link of one of the first `k` pages of the path. */
  predicate Seen(c: Config, p: seq<string>, k: nat, url: string)
    requires k <= |p|
  {
    url in c.seeds || exists m :: 0 <= m < k && url in Children(c, p[m])
  }

  /** The first `k` pages of the path are finished and no other, and no worker has left. */
  ghost predicate Held(c: Config, p: seq<string>, k: nat, s: State)
    requires k <= |p|
  {
    && Arrives(c, s) && s.running
    && (forall w :: 0 <= w < |s.workers| ==> s.workers[w].Idle? || s.workers[w].Holding?)
    && |s.table.rows| <= Room(c, p, k) && Holders(s.workers) == Leased(s.table.rows)
    && (forall i :: 0 <= i < |s.table.rows| ==> Seen(c, p, k, s.table.rows[i].url))
  }

  /** Page `k` waits to be leased. */
  predicate Waiting(p: seq<string>, k: nat, s: State, i: nat)
    requires k < |p|
  {
    && i < |s.table.rows| && s.table.rows[i].state.Pending?
    && s.table.rows[i].url == p[k] && s.table.rows[i].depth == k
  }

  lemma {:induction false} FreeWorker(rows: seq<Job>, ws: seq<Worker>, i: nat) returns (w: nat)
    requires Holders(ws) == Leased(rows) && |rows| <= |ws| && i < |rows| && !rows[i].state.Leased?
    ensures w < |ws| && !ws[w].Holding?
  {
    LeasedBounded(rows);
    w := SomeoneFree(ws);
  }

  /** A lease moves one row and one worker. */
  lemma {:induction false} TakeIs(c: Config, s: State, w: nat)
    requires Inv(c, s) && Enabled(c, s, Take(w))
    ensures var f := FirstReady(s.table.rows, Some(c.scan));
            Next(c, s, Take(w)) == s.(table := s.table.(rows := s.table.rows[f := Claimed(c, s)]),
                                      workers := s.workers[w := Holding(Claimed(c, s), false)], inFlight := s.inFlight + 1)
  {
    ClaimOneRow(s.table, FirstReady(s.table.rows, Some(c.scan)), s.now + LEASE_SECS);
  }

  lemma {:induction false} TakeKeepsHeld(c: Config, p: seq<string>, k: nat, s: State, w: nat)
    requires ValidConfig(c) && k <= |p| && Held(c, p, k, s) && Enabled(c, s, Take(w))
    ensures Held(c, p, k, Next(c, s, Take(w)))
    ensures Leased(Next(c, s, Take(w)).table.rows) == Leased(s.table.rows) + 1
  {
    ArrivesMidRun(c, s);
    TakeIs(c, s, w);
    ArrivesNext(c, s, Take(w));
    LeasedAt(s.table.rows, FirstReady(s.table.rows, Some(c.scan)), Claimed(c, s));
    CountsAfter(s.workers, w, Holding(Claimed(c, s), false));
  }

  /** Page `k` is held by worker `w` and has not been read. */
  predicate HeldBy(p: seq<string>, k: nat, s: State, w: nat)
    requires k < |p|
  {
    && w < |s.workers| && s.workers[w].Holding? && !s.workers[w].counted
    && s.workers[w].job.url == p[k] && s.workers[w].job.depth == k
  }

  lemma {:induction false} CanLease(c: Config, p: seq<string>, k: nat, s: State, i: nat) returns (w: nat)
    requires ValidConfig(c) && c.maxPages.None? && k < |p| && Held(c, p, k, s) && Room(c, p, |p|) <= c.workers
    requires Waiting(p, k, s, i)
    ensures Enabled(c, s, Take(w)) && FirstReady(s.table.rows, Some(c.scan)) <= i
  {
    ArrivesMidRun(c, s);
    RoomGrows(c, p, k, |p|);
    assert OwnRow(c, s.table.rows[i]);
    assert Ready(s.table.rows[i], Some(c.scan));
    w := FreeWorker(s.table.rows, s.workers, i);
  }

  /** Leasing another row leaves page `k` waiting; leasing its own hands it to the worker. */
  lemma {:induction false} LeaseOne(c: Config, p: seq<string>, k: nat, s: State, i: nat, w: nat)
    requires ValidConfig(c) && k < |p| && Held(c, p, k, s) && Waiting(p, k, s, i) && Enabled(c, s, Take(w))
    ensures var next := Next(c, s, Take(w));
            if FirstReady(s.table.rows, Some(c.scan)) == i then HeldBy(p, k, next, w) else Waiting(p, k, next, i)
  {
    ArrivesMidRun(c, s);
    TakeIs(c, s, w);
  }

  /** Workers lease the queue up to page `k`. */
  lemma {:induction false} LeaseUpTo(c: Config, p: seq<string>, k: nat, s: State, i: nat) returns (s': State, w: nat)
    requires ValidConfig(c) && c.maxPages.None? && k < |p| && Held(c, p, k, s) && Room(c, p, |p|) <= c.workers
    requires Waiting(p, k, s, i)
    ensures Held(c, p, k, s') && HeldBy(p, k, s', w)
    decreases |s.table.rows| - Leased(s.table.rows)
  {
    var v := CanLease(c, p, k, s, i);
    TakeKeepsHeld(c, p, k, s, v);
    LeaseOne(c, p, k, s, i, v);
    var next := Next(c, s, Take(v));
    if FirstReady(s.table.rows, Some(c.scan)) == i {
      s', w := next, v;
    } else {
      LeasedBounded(next.table.rows);
      s', w := LeaseUpTo(c, p, k, next, i);
    }
  }

  lemma {:induction false} CountKeepsHeld(c: Config, p: seq<string>, k: nat, s: State, w: nat)
    requires ValidConfig(c) && k < |p| && Held(c, p, k, s) && HeldBy(p, k, s, w) && Answers(c, p[k])
    ensures Held(c, p, k, Next(c, s, Count(w)))
  {
    ArrivesMidRun(c, s);
    ArrivesNext(c, s, Count(w));
    CountsAfter(s.workers, w, s.workers[w].(counted := true));
  }

  // --- Finishing a page of the path ---

  lemma {:induction false} EnqueueAllSize(c: Config, t: Table, urls: seq<string>, depth: nat)
    ensures |EnqueueAll(c, t, urls, depth).rows| <= |t.rows| + |urls|
    decreases |urls|
  {
    if urls != [] {
      EnqueueAllSize(c, t, urls[..|urls| - 1], depth);
    }
  }

  lemma {:induction false} CompleteOneRow(t: Table, i: nat)
    requires IdsGrow(t) && i < |t.rows|
    ensures ApplyAll(Complete(t.rows[i].id), t.rows) == t.rows[i := t.rows[i].(state := Completed, leaseUntil := None)]
  {
    assert forall j :: 0 <= j < |t.rows| && j != i ==> t.rows[j].id != t.rows[i].id;
  }

  /** The row of the next page of the path is new when page `k` is finished. */
  lemma {:induction false} NextPageIsNew(c: Config, p: seq<string>, k: nat, rows: seq<Job>)
    requires IsChordless(c, p) && k + 1 < |p|
    requires forall i :: 0 <= i < |rows| ==> Seen(c, p, k, rows[i].url)
    ensures !HasUrl(rows, p[k + 1])
  {
    assert !Seen(c, p, k, p[k + 1]);
  }

  lemma {:induction false} GrownIsSeen(c: Config, p: seq<string>, k: nat, t: Table, t': Table)
    requires k < |p| && Grown(c, t, t', Children(c, p[k]), k + 1)
    requires forall j :: 0 <= j < |t.rows| ==> Seen(c, p, k, t.rows[j].url)
    ensures forall j :: 0 <= j < |t'.rows| ==> Seen(c, p, k + 1, t'.rows[j].url)
  {
    forall j | 0 <= j < |t'.rows| ensures Seen(c, p, k + 1, t'.rows[j].url) {
      if j < |t.rows| {
        assert t'.rows[j] == t.rows[j] && Seen(c, p, k, t.rows[j].url);
      } else {
        assert NewRow(c, t'.rows[j], Children(c, p[k]), k + 1);
      }
    }
  }

  lemma {:induction false} NewPageRow(c: Config, t: Table, t': Table, urls: seq<string>, depth: nat, url: string) returns (i: nat)
    requires Grown(c, t, t', urls, depth) && url in urls && !HasUrl(t.rows, url)
    ensures |t.rows| <= i < |t'.rows| && t'.rows[i].state.Pending? && t'.rows[i].url == url && t'.rows[i].depth == depth
  {
    assert forall j :: 0 <= j < |t.rows| ==> t'.rows[j].url == t.rows[j].url;
    i :| 0 <= i < |t'.rows| && t'.rows[i].url == url;
    assert NewRow(c, t'.rows[i], urls, depth);
  }

  /** Page `k`'s links are queued one level down, the next page of the path among them. */
  lemma {:induction false} ExpandsPage(c: Config, p: seq<string>, k: nat, s: State) returns (i: nat)
    requires IsChordless(c, p) && k + 1 < |p| && ValidTable(s.table) && KeyedRows(c, s.table.rows)
    requires forall i :: 0 <= i < |s.table.rows| ==> Seen(c, p, k, s.table.rows[i].url)
    ensures var t := EnqueueAll(c, s.table, Children(c, p[k]), k + 1);
            && ValidTable(t) && s.table.rows <= t.rows && |t.rows| <= |s.table.rows| + LinkCount(c, p[k])
            && Leased(t.rows) == Leased(s.table.rows)
            && (forall j :: 0 <= j < |t.rows| ==> Seen(c, p, k + 1, t.rows[j].url))
            && |s.table.rows| <= i < |t.rows| && t.rows[i].state.Pending? && t.rows[i].url == p[k + 1] && t.rows[i].depth == k + 1
  {
    var links := Children(c, p[k]);
    var t := EnqueueAll(c, s.table, links, k + 1);
    EnqueueAllGrows(c, s.table, links, k + 1);
    EnqueueAllSize(c, s.table, links, k + 1);
    LeasedGrown(s.table.rows, t.rows);
    NextPageIsNew(c, p, k, s.table.rows);
    GrownIsSeen(c, p, k, s.table, t);
    i := NewPageRow(c, s.table, t, links, k + 1, p[k + 1]);
  }

  predicate ReadBy(p: seq<string>, k: nat, s: State, w: nat)
    requires k < |p|
  {
    && w < |s.workers| && s.workers[w].Holding? && s.workers[w].counted
    && s.workers[w].job.url == p[k] && s.workers[w].job.depth == k
  }

  /** The state after worker `w` has finished row `r` on the table `t`. */
  function Settled(s: State, w: nat, r: nat, t: Table): State
    requires w < |s.workers| && r < |t.rows|
  {
    s.(table := t.(rows := t.rows[r := t.rows[r].(state := Completed, leaseUntil := None)]),
       workers := s.workers[w := Idle], inFlight := s.inFlight - 1)
  }

  lemma {:induction false} FinishIs(c: Config, p: seq<string>, k: nat, s: State, w: nat, r: nat, t: Table)
    requires k < |p| && s.running && ReadBy(p, k, s, w) && Answers(c, p[k]) && c.maxPages.None? && k < c.maxDepth
    requires t == EnqueueAll(c, s.table, Children(c, p[k]), k + 1)
    requires ValidTable(t) && r < |t.rows| && t.rows[r].id == s.workers[w].job.id
    ensures Enabled(c, s, Finish(w)) && Next(c, s, Finish(w)) == Settled(s, w, r, t)
  {
    CompleteOneRow(t, r);
  }

  lemma {:induction false} FinishPage(c: Config, p: seq<string>, k: nat, s: State, w: nat) returns (s': State, i: nat)
    requires ValidConfig(c) && c.maxPages.None? && IsChordless(c, p) && k + 1 < |p| && k < c.maxDepth
    requires Held(c, p, k, s) && ReadBy(p, k, s, w) && Answers(c, p[k])
    ensures Held(c, p, k + 1, s') && Waiting(p, k + 1, s', i)
  {
    ArrivesMidRun(c, s);
    var r := RowIndex(s.table, s.workers[w].job);
    var t := EnqueueAll(c, s.table, Children(c, p[k]), k + 1);
    i := ExpandsPage(c, p, k, s);
    assert t.rows[r] == s.table.rows[r];
    FinishIs(c, p, k, s, w, r, t);
    ArrivesNext(c, s, Finish(w));
    s' := Settled(s, w, r, t);
    SettledHeld(c, p, k, s, w, r, t);
  }

  lemma {:induction false} SettledHeld(c: Config, p: seq<string>, k: nat, s: State, w: nat, r: nat, t: Table)
    requires k < |p| && Held(c, p, k, s) && w < |s.workers| && s.workers[w].Holding?
    requires r < |t.rows| && t.rows[r].state.Leased? && Leased(t.rows) == Leased(s.table.rows)
    requires |t.rows| <= |s.table.rows| + LinkCount(c, p[k])
    requires forall j :: 0 <= j < |t.rows| ==> Seen(c, p, k + 1, t.rows[j].url)
    requires Arrives(c, Settled(s, w, r, t))
    ensures Held(c, p, k + 1, Settled(s, w, r, t))
  {
    LeasedAt(t.rows, r, t.rows[r].(state := Completed, leaseUntil := None));
    CountsAfter(s.workers, w, Idle);
  }

  // --- The whole path ---

  lemma {:induction false} FirstRows(c: Config)
    requires ValidConfig(c)
    ensures var rows := Started(c, Fresh(0)).table.rows;
            && |rows| <= |c.seeds| && Leased(rows) == 0 && Seeded(c, rows)
            && forall j :: 0 <= j < |rows| ==> NewRow(c, rows[j], c.seeds, 0)
  {
    var rows := Started(c, Fresh(0)).table.rows;
    StartTable(c, Fresh(0), c.seeds);
    EnqueueAllSize(c, Recovered(c, Fresh(0)), c.seeds, 0);
    LeasedGrown([], rows);
  }

  lemma {:induction false} FirstWorkers(c: Config)
    ensures var s := Started(c, Fresh(0));
            Arrives(c, s) && s.running && Holders(s.workers) == 0 && forall w :: 0 <= w < |s.workers| ==> s.workers[w].Idle?
  {
    assert RunTo(c, [], Started(c, Fresh(0)));
    CountsBounded(Started(c, Fresh(0)).workers);
  }

  lemma {:induction false} FirstStage(c: Config, p: seq<string>) returns (s: State, i: nat)
    requires ValidConfig(c) && IsPath(c, p)
    ensures Held(c, p, 0, s) && Waiting(p, 0, s, i)
  {
    s := Started(c, Fresh(0));
    FirstRows(c);
    FirstWorkers(c);
    i := FirstRow(c, p, s.table.rows);
    FirstSeen(c, p, s.table.rows);
  }

  lemma {:induction false} FirstRow(c: Config, p: seq<string>, rows: seq<Job>) returns (i: nat)
    requires IsPath(c, p) && Seeded(c, rows) && forall j :: 0 <= j < |rows| ==> NewRow(c, rows[j], c.seeds, 0)
    ensures i < |rows| && rows[i].state.Pending? && rows[i].url == p[0] && rows[i].depth == 0
  {
    i :| 0 <= i < |rows| && rows[i].url == p[0];
    assert NewRow(c, rows[i], c.seeds, 0);
  }

  lemma {:induction false} FirstSeen(c: Config, p: seq<string>, rows: seq<Job>)
    requires forall j :: 0 <= j < |rows| ==> NewRow(c, rows[j], c.seeds, 0)
    ensures forall j :: 0 <= j < |rows| ==> Seen(c, p, 0, rows[j].url)
  {
  }

  /** The schedule: every page of the path is reached in turn and waits to be leased at its place. */
  lemma {:induction false} ReachPage(c: Config, p: seq<string>, k: nat) returns (s: State, i: nat)
    requires ValidConfig(c) && c.maxPages.None? && IsChordless(c, p) && k < |p| <= c.maxDepth + 1 && Room(c, p, |p|) <= c.workers
    ensures Held(c, p, k, s) && Waiting(p, k, s, i)
    decreases k
  {
    if k == 0 {
      s, i := FirstStage(c, p);
    } else {
      var before, j := ReachPage(c, p, k - 1);
      assert p[(k - 1) + 1] in Children(c, p[k - 1]);
      var held, w := LeaseUpTo(c, p, k - 1, before, j);
      CountKeepsHeld(c, p, k - 1, held, w);
      s, i := FinishPage(c, p, k - 1, Next(c, held, Count(w)), w);
    }
  }
}
