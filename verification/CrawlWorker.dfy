/** The code of `run_crawl`, `_worker` and `_enqueue_children`, over the job table all scans share.

    Each method is the code between two awaits, and is proved to be one step of the transition system on
    this scan's rows. It leaves every other scan's rows alone, but for `StartRun`: reclaiming frees the
    expired leases of all scans, so another scan's start can free a lease of this scan that is older than
    120 seconds though its worker is alive. The transition system has no step for that. */
module CrawlWorker {
  import opened Text
  import opened JobQueue
  import opened Crawl

  /** The rows `DELETE FROM jobs` keeps when a scan resumes. */
  function KeptRows(c: Config, rows: seq<Job>): seq<Job>
    decreases |rows|
  {
    if rows == [] then []
    else KeptRows(c, rows[..|rows| - 1]) + if Stale(c, rows[|rows| - 1]) then [] else [rows[|rows| - 1]]
  }

  predicate Stale(c: Config, j: Job) {
    j.scan == c.scan && j.state.Pending? && !c.inScope(j.url)
  }

  lemma {:induction false} ViewAppend(rows: seq<Job>, j: Job, scan: nat)
    ensures View(rows + [j], scan) == if j.scan == scan then View(rows, scan) + [j] else View(rows, scan)
  {
    assert (rows + [j])[..|rows|] == rows;
  }

  lemma {:induction false} PurgeAppend(c: Config, rows: seq<Job>, j: Job)
    ensures Purge(c, rows + [j]) ==
            if j.state.Pending? && !c.inScope(j.url) then Purge(c, rows) else Purge(c, rows) + [j]
  {
    assert (rows + [j])[..|rows|] == rows;
  }

  /** On the resuming scan's rows the DELETE is the purge; it deletes no other scan's row. */
  lemma {:induction false} ViewOfKept(c: Config, rows: seq<Job>)
    ensures View(KeptRows(c, rows), c.scan) == Purge(c, View(rows, c.scan))
    decreases |rows|
  {
    if rows != [] {
      var n := |rows| - 1;
      assert rows == rows[..n] + [rows[n]];
      ViewOfKept(c, rows[..n]);
      ViewOfOneMore(c, rows[..n], rows[n]);
    }
  }

  lemma {:induction false} ViewOfOneMore(c: Config, rows: seq<Job>, j: Job)
    requires View(KeptRows(c, rows), c.scan) == Purge(c, View(rows, c.scan))
    ensures View(KeptRows(c, rows + [j]), c.scan) == Purge(c, View(rows + [j], c.scan))
  {
    KeptAppend(c, rows, j);
    ViewAppend(rows, j, c.scan);
    ViewAppend(KeptRows(c, rows), j, c.scan);
    PurgeAppend(c, View(rows, c.scan), j);
  }

  lemma {:induction false} KeptAppend(c: Config, rows: seq<Job>, j: Job)
    ensures KeptRows(c, rows + [j]) == if Stale(c, j) then KeptRows(c, rows) else KeptRows(c, rows) + [j]
  {
    assert (rows + [j])[..|rows|] == rows;
  }

  lemma {:induction false} OthersOfKept(c: Config, rows: seq<Job>, other: nat)
    requires other != c.scan
    ensures View(KeptRows(c, rows), other) == View(rows, other)
    decreases |rows|
  {
    if rows != [] {
      var n := |rows| - 1;
      assert rows == rows[..n] + [rows[n]];
      OthersOfKept(c, rows[..n], other);
      OthersOfOneMore(c, rows[..n], rows[n], other);
    }
  }

  lemma {:induction false} OthersOfOneMore(c: Config, rows: seq<Job>, j: Job, other: nat)
    requires other != c.scan && View(KeptRows(c, rows), other) == View(rows, other)
    ensures View(KeptRows(c, rows + [j]), other) == View(rows + [j], other)
  {
    KeptAppend(c, rows, j);
    ViewAppend(rows, j, other);
    ViewAppend(KeptRows(c, rows), j, other);
  }

  lemma {:induction false} KeptAreRows(c: Config, rows: seq<Job>, j: Job)
    requires j in KeptRows(c, rows)
    ensures j in rows
    decreases |rows|
  {
    var n := |rows| - 1;
    if j in KeptRows(c, rows[..n]) {
      KeptAreRows(c, rows[..n], j);
    }
  }

  lemma {:induction false} KeptIsValid(c: Config, rows: seq<Job>, nextId: nat)
    requires ValidTable(Table(rows, nextId)) && KeysMatch(rows)
    ensures ValidTable(Table(KeptRows(c, rows), nextId)) && KeysMatch(KeptRows(c, rows))
    decreases |rows|
  {
    if rows != [] {
      var n := |rows| - 1;
      var before := KeptRows(c, rows[..n]);
      KeptIsValid(c, rows[..n], nextId);
      forall i | 0 <= i < |before| ensures before[i].id < rows[n].id && before[i].key != rows[n].key {
        KeptAreRows(c, rows[..n], before[i]);
        var k :| 0 <= k < n && rows[k] == before[i];
      }
      AppendIsValid(before, rows[n], nextId);
    }
  }

  lemma {:induction false} AppendIsValid(rows: seq<Job>, j: Job, nextId: nat)
    requires ValidTable(Table(rows, nextId)) && KeysMatch(rows)
    requires j.id < nextId && j.key == Some(DedupeKey(j.scan, j.url))
    requires forall i :: 0 <= i < |rows| ==> rows[i].id < j.id && rows[i].key != j.key
    ensures ValidTable(Table(rows + [j], nextId)) && KeysMatch(rows + [j])
  {
  }

  class WorkerContext {
    const c: Config
    const table: JobTable
    var inFlight: int
    var pages: nat
    var workers: seq<Worker>
    var now: int
    var running: bool

    constructor (c: Config, table: JobTable, now: int)
      requires table.Valid()
      ensures Valid() && this.c == c && this.table == table
      ensures Abs() == Crawl.State.State(Table(View(table.rows, c.scan), table.nextId), [], 0, 0, now, false)
    {
      this.c, this.table, this.now := c, table, now;
      inFlight, pages, workers, running := 0, 0, [], false;
    }

    ghost predicate Valid()
      reads this, table
    {
      table.Valid()
    }

    function Abs(): Crawl.State
      reads this, table
    {
      Crawl.State.State(Table(View(table.rows, c.scan), table.nextId), workers, inFlight, pages, now, running)
    }

    ghost predicate OthersKept(rows: seq<Job>)
      reads this, table
    {
      forall other: nat :: other != c.scan ==> View(table.rows, other) == View(rows, other)
    }

    /** Queues one URL of this scan. */
    method EnqueueUrl(url: string, depth: nat)
      requires Valid()
      modifies table
      ensures Valid() && OthersKept(old(table.rows))
      ensures Abs() == old(Abs()).(table := Enqueue(c, old(Abs()).table, url, depth))
      ensures old(table.rows) <= table.rows
    {
      ghost var t := table.State();
      forall other: nat {
        ViewOfInsert(t, c.scan, url, depth, other);
      }
      var _ := table.Enqueue(c.scan, url, depth);
    }

    /** `_seed_queue` for each entry point. */
    method SeedQueue()
      requires Valid()
      modifies table
      ensures Valid() && OthersKept(old(table.rows))
      ensures Abs() == old(Abs()).(table := EnqueueAll(c, old(Abs()).table, c.seeds, 0))
    {
      ghost var s := Abs();
      var i := 0;
      while i < |c.seeds|
        invariant 0 <= i <= |c.seeds| && Valid() && OthersKept(old(table.rows))
        invariant Abs() == s.(table := EnqueueAll(c, s.table, c.seeds[..i], 0))
      {
        assert c.seeds[..i + 1][..i] == c.seeds[..i];
        EnqueueUrl(c.seeds[i], 0);
        i := i + 1;
      }
      assert c.seeds[..i] == c.seeds;
    }

    /** `reclaim_expired` and the purge; the reclaim reaches every scan's dead leases. */
    method Recover()
      requires Valid()
      modifies table
      ensures Valid() && Abs() == old(Abs()).(table := Recovered(c, old(Abs())))
      ensures forall other: nat :: other != c.scan ==>
                View(table.rows, other) == ApplyAll(Reclaim(now), View(old(table.rows), other))
    {
      forall other: nat {
        ViewOfUpdate(Reclaim(now), table.rows, other);
      }
      var _ := table.ReclaimExpired(now);
      PurgeOutOfScope();
    }

    /** `run_crawl` up to the first worker: reclaim, purge, seed, spawn. */
    method StartRun()
      requires Valid() && Enabled(c, Abs(), Start)
      modifies this, table
      ensures Valid() && Abs() == Next(c, old(Abs()), Start)
      ensures forall other: nat :: other != c.scan ==>
                View(table.rows, other) == ApplyAll(Reclaim(now), View(old(table.rows), other))
    {
      Recover();
      SeedQueue();
      inFlight, pages, running := 0, 0, true;
      workers := seq(c.workers, _ => Idle);
    }

    method PurgeOutOfScope()
      requires Valid()
      modifies table
      ensures Valid() && OthersKept(old(table.rows))
      ensures Abs() == old(Abs()).(table := old(Abs()).table.(rows := Purge(c, old(Abs()).table.rows)))
    {
      var kept: seq<Job> := [];
      var i := 0;
      while i < |table.rows|
        invariant 0 <= i <= |table.rows|
        invariant kept == KeptRows(c, table.rows[..i])
      {
        assert table.rows[..i + 1][..i] == table.rows[..i];
        if !Stale(c, table.rows[i]) {
          kept := kept + [table.rows[i]];
        }
        i := i + 1;
      }
      assert table.rows[..i] == table.rows;
      KeptIsValid(c, table.rows, table.nextId);
      ViewOfKept(c, table.rows);
      forall other: nat | other != c.scan {
        OthersOfKept(c, table.rows, other);
      }
      table.rows := kept;
    }

    /** `queue.lease` for this scan. */
    method LeaseNext() returns (job: Option<Job>)
      requires Valid()
      modifies table
      ensures Valid() && OthersKept(old(table.rows))
      ensures job.Some? == AnyReady(c, old(Abs()))
      ensures job.Some? ==> job.value == Claimed(c, old(Abs()))
      ensures Abs().table == if job == None then old(Abs()).table else ClaimedTable(old(Abs()))
    {
      ghost var s, before := Abs(), table.State();
      job := table.Lease(Some(c.scan), LEASE_SECS, now);
      LeaseIsTake(s, before, table.rows, job);
    }

    function ClaimedTable(s: Crawl.State): Table
      requires AnyReady(c, s)
    {
      s.table.(rows := ApplyAll(Claim(Claimed(c, s).id, s.now + LEASE_SECS), s.table.rows))
    }

    /** The lease, and `in_flight += 1` when it found a job. */
    method LeaseJob(w: nat) returns (leased: bool)
      requires Valid() && IsIdle(Abs(), w) && !LimitReached(c, Abs())
      modifies this, table
      ensures Valid() && OthersKept(old(table.rows)) && leased == AnyReady(c, old(Abs()))
      ensures Abs() == if leased then Next(c, old(Abs()), Take(w)) else old(Abs())
    {
      var job := LeaseNext();
      if job == None {
        return false;
      }
      inFlight := inFlight + 1;
      workers := workers[w := Holding(job.value, false)];
      return true;
    }

    /** What leasing this scan's next job leaves of the shared rows. */
    predicate LeaseOf(rows: seq<Job>, after: seq<Job>, job: Option<Job>, until: int) {
      var i := FirstReady(rows, Some(c.scan));
      if i == |rows| then job == None && after == rows
      else i < |after| && job == Some(after[i]) && after == ApplyAll(Claim(rows[i].id, until), rows)
    }

    /** The shared table's next job for this scan is the next job of the scan's own rows. */
    lemma {:induction false} LeaseIsTake(s: Crawl.State, before: Table, after: seq<Job>, job: Option<Job>)
      requires IdsGrow(before) && s.table == Table(View(before.rows, c.scan), before.nextId)
      requires LeaseOf(before.rows, after, job, s.now + LEASE_SECS)
      ensures job.Some? == AnyReady(c, s) && (job.Some? ==> job.value == Claimed(c, s))
      ensures View(after, c.scan) == if job == None then s.table.rows else ClaimedTable(s).rows
      ensures forall other: nat :: other != c.scan ==> View(after, other) == View(before.rows, other)
    {
      var i := FirstReady(before.rows, Some(c.scan));
      ViewOfFirstReady(before.rows, c.scan);
      if i < |before.rows| {
        var claim := Claim(before.rows[i].id, s.now + LEASE_SECS);
        ViewOfUpdate(claim, before.rows, c.scan);
        forall other: nat | other != c.scan {
          UpdateLeavesOthers(claim, before.rows, other);
        }
      }
    }

    /** A job of this scan waits to be leased. */
    predicate SomeWaiting(rows: seq<Job>) {
      exists j :: j in rows && j.scan == c.scan && j.state.Pending?
    }

    lemma {:induction false} WaitingIsReady(rows: seq<Job>)
      ensures SomeWaiting(rows) <==> FirstReady(View(rows, c.scan), Some(c.scan)) < |View(rows, c.scan)|
    {
      ViewOfFirstReady(rows, c.scan);
      var i := FirstReady(rows, Some(c.scan));
      if i < |rows| {
        assert rows[i] in rows;
      } else {
        forall j | j in rows ensures !Ready(j, Some(c.scan)) {
          var k :| 0 <= k < |rows| && rows[k] == j;
        }
      }
    }

    /** `_worker` from the top of its loop to the next await: leave, lease a job, or go to sleep. */
    method TopOfLoop(w: nat) returns (a: Action)
      requires Valid() && IsIdle(Abs(), w)
      modifies this, table
      ensures a in [LeaveAtLimit(w), LeaveIdle(w), Poll(w), Take(w)]
      ensures a == LeaveAtLimit(w) <==> c.maxPages.Some? && old(pages) >= c.maxPages.value
      ensures a == Take(w) <==> (c.maxPages.None? || old(pages) < c.maxPages.value) && SomeWaiting(old(table.rows))
      ensures a == LeaveIdle(w) ==> old(inFlight) == 0
      ensures a == Poll(w) ==> old(inFlight) != 0
      ensures Valid() && Enabled(c, old(Abs()), a) && Abs() == Next(c, old(Abs()), a)
      ensures OthersKept(old(table.rows))
    {
      WaitingIsReady(table.rows);
      if c.maxPages.Some? && pages >= c.maxPages.value {
        workers := workers[w := Worker.LeftAtLimit];
        return LeaveAtLimit(w);
      }
      var leased := LeaseJob(w);
      if leased {
        return Take(w);
      }
      var waiting := table.PendingCount(Some(c.scan));
      ViewOfFirstReady(table.rows, c.scan);
      if inFlight == 0 && waiting == 0 {
        workers := workers[w := Worker.LeftIdle];
        return LeaveIdle(w);
      }
      return Poll(w);
    }

    /** The page came back: `pages_fetched += 1`. */
    method CountPage(w: nat)
      requires Valid() && Enabled(c, Abs(), Count(w))
      modifies this
      ensures Valid() && Abs() == Next(c, old(Abs()), Count(w))
    {
      workers := workers[w := workers[w].(counted := true)];
      pages := pages + 1;
    }

    /** One link not seen before: queued if it is admitted. */
    method AdmitLink(url: string, depth: nat)
      requires Valid()
      modifies table
      ensures Valid() && OthersKept(old(table.rows)) && old(table.rows) <= table.rows
      ensures Abs() == if Admitted(c, url) then old(Abs()).(table := Enqueue(c, old(Abs()).table, url, depth)) else old(Abs())
      ensures Admitted(c, url) ==> HasKey(Abs().table.rows, Some(DedupeKey(c.scan, url)))
      ensures forall key :: HasKey(old(Abs()).table.rows, key) ==> HasKey(Abs().table.rows, key)
    {
      if c.inScope(url) && !c.blocked(url) {
        InsertKeepsKeys(Abs().table, url, depth);
        EnqueueUrl(url, depth);
      }
    }

    /** `_enqueue_children`: each distinct admitted link is queued one level down. */
    method EnqueueChildren(links: seq<string>, depth: nat)
      requires Valid()
      modifies table
      ensures Valid() && OthersKept(old(table.rows))
      ensures Abs() == old(Abs()).(table := EnqueueAll(c, old(Abs()).table, Admissible(c, links), depth))
      ensures old(table.rows) <= table.rows
    {
      var seen: set<string> := {};
      ghost var s := Abs();
      var i := 0;
      while i < |links|
        invariant 0 <= i <= |links| && Valid() && OthersKept(old(table.rows)) && old(table.rows) <= table.rows
        invariant Abs() == s.(table := EnqueueAll(c, s.table, Admissible(c, links[..i]), depth))
        invariant Queued(seen, Abs().table.rows)
      {
        OneMoreLink(s.table, links, i, depth);
        if links[i] !in seen {
          AdmitLink(links[i], depth);
          seen := seen + {links[i]};
        }
        i := i + 1;
      }
      assert links[..i] == links;
    }

    /** Every admitted URL already looked at has its row. */
    predicate Queued(seen: set<string>, rows: seq<Job>) {
      forall u :: u in seen && Admitted(c, u) ==> HasKey(rows, Some(DedupeKey(c.scan, u)))
    }

    lemma {:induction false} OneMoreLink(t: Table, links: seq<string>, i: nat, depth: nat)
      requires i < |links|
      ensures var t' := EnqueueAll(c, t, Admissible(c, links[..i]), depth);
              EnqueueAll(c, t, Admissible(c, links[..i + 1]), depth) ==
              if Admitted(c, links[i]) then Enqueue(c, t', links[i], depth) else t'
    {
      var before := Admissible(c, links[..i]);
      assert links[..i + 1][..i] == links[..i];
      assert (before + [links[i]])[..|before|] == before;
      assert before + [] == before;
    }

    lemma {:induction false} InsertKeepsKeys(t: Table, url: string, depth: nat)
      ensures var rows := Enqueue(c, t, url, depth).rows;
              && HasKey(rows, Some(DedupeKey(c.scan, url)))
              && forall key :: HasKey(t.rows, key) ==> HasKey(rows, key)
    {
      var rows := Enqueue(c, t, url, depth).rows;
      if !HasKey(t.rows, Some(DedupeKey(c.scan, url))) {
        assert rows[|t.rows|].key == Some(DedupeKey(c.scan, url));
      }
      forall key | HasKey(t.rows, key) ensures HasKey(rows, key) {
        var k :| 0 <= k < |t.rows| && t.rows[k].key == key;
        assert rows[k] == t.rows[k];
      }
    }

    /** Settling a job of this scan touches no other scan's rows. */
    lemma {:induction false} SettleTouchesOwn(u: Update, rows: seq<Job>, job: Job)
      requires KeysMatch(rows) && job in rows && job.scan == c.scan
      requires forall i, j :: 0 <= i < j < |rows| ==> rows[i].id < rows[j].id
      requires u == Complete(job.id) || u == Update.Fail(job.id)
      ensures View(ApplyAll(u, rows), c.scan) == ApplyAll(u, View(rows, c.scan))
      ensures forall other: nat :: other != c.scan ==> View(ApplyAll(u, rows), other) == View(rows, other)
    {
      var k :| 0 <= k < |rows| && rows[k] == job;
      assert forall i :: 0 <= i < |rows| && rows[i].id == job.id ==> i == k;
      ViewOfUpdate(u, rows, c.scan);
      forall other: nat | other != c.scan {
        UpdateLeavesOthers(u, rows, other);
      }
    }

    /** `queue.complete` or `queue.fail` on a held job. */
    method Settle(u: Update, ghost job: Job)
      requires Valid() && job in table.rows && job.scan == c.scan
      requires u == Complete(job.id) || u == Update.Fail(job.id)
      modifies table
      ensures Valid() && OthersKept(old(table.rows))
      ensures Abs().table == old(Abs()).table.(rows := ApplyAll(u, old(Abs()).table.rows))
    {
      SettleTouchesOwn(u, table.rows, job);
      if u.Complete? {
        table.CompleteJob(u.id);
      } else {
        table.FailJob(u.id);
      }
    }

    lemma {:induction false} EnqueuedHaveKeys(t: Table, urls: seq<string>, depth: nat, url: string)
      requires url in urls || HasKey(t.rows, Some(DedupeKey(c.scan, url)))
      ensures HasKey(EnqueueAll(c, t, urls, depth).rows, Some(DedupeKey(c.scan, url)))
      decreases |urls|
    {
      if urls != [] {
        var n := |urls| - 1;
        InsertKeepsKeys(EnqueueAll(c, t, urls[..n], depth), urls[n], depth);
        if url != urls[n] {
          EnqueuedHaveKeys(t, urls[..n], depth, url);
        }
      }
    }

    /** Below both limits, every admissible link of a finished page has a row. */
    lemma {:induction false} FinishedLinks(s: Crawl.State, job: Job)
      requires Answers(c, job.url) && job.depth < c.maxDepth && (c.maxPages.None? || s.pages < c.maxPages.value)
      ensures var rows := ApplyAll(Complete(job.id), Expanded(c, s, job).rows);
              forall u :: u in c.page(job.url).value && c.inScope(u) && !c.blocked(u) ==>
                HasKey(rows, Some(DedupeKey(c.scan, u)))
    {
      var before := Expanded(c, s, job).rows;
      var rows := ApplyAll(Complete(job.id), before);
      forall u | u in c.page(job.url).value && c.inScope(u) && !c.blocked(u)
        ensures HasKey(rows, Some(DedupeKey(c.scan, u)))
      {
        AdmissibleIs(c, c.page(job.url).value, u);
        EnqueuedHaveKeys(s.table, Children(c, job.url), job.depth + 1, u);
        var i :| 0 <= i < |before| && before[i].key == Some(DedupeKey(c.scan, u));
        assert rows[i].key == before[i].key;
      }
    }

    /** The end of `_process_job`, then `complete`: no await in between. */
    method FinishJob(w: nat)
      requires Valid() && Enabled(c, Abs(), Finish(w))
      requires workers[w].job in table.rows && workers[w].job.scan == c.scan
      modifies this, table
      ensures Valid() && Abs() == Next(c, old(Abs()), Finish(w)) && OthersKept(old(table.rows))
      ensures var job := old(workers[w].job);
              old(workers[w].counted) && job.depth < c.maxDepth && (c.maxPages.None? || old(pages) < c.maxPages.value) ==>
                forall u :: u in c.page(job.url).value && c.inScope(u) && !c.blocked(u) ==>
                  HasKey(Abs().table.rows, Some(DedupeKey(c.scan, u)))
    {
      var job := workers[w].job;
      if workers[w].counted && job.depth < c.maxDepth && !(c.maxPages.Some? && pages >= c.maxPages.value) {
        EnqueueChildren(c.page(job.url).value, job.depth + 1);
      }
      assert Abs().table == Expanded(c, old(Abs()), job);
      if workers[w].counted && job.depth < c.maxDepth && (c.maxPages.None? || pages < c.maxPages.value) {
        FinishedLinks(old(Abs()), job);
      }
      Settle(Complete(job.id), job);
      inFlight := inFlight - 1;
      workers := workers[w := Idle];
    }

    /** An exception while processing: the job goes back to the queue, or fails for good. */
    method AbortJob(w: nat)
      requires Valid() && Enabled(c, Abs(), Abort(w))
      requires workers[w].job in table.rows && workers[w].job.scan == c.scan
      modifies this, table
      ensures Valid() && Abs() == Next(c, old(Abs()), Abort(w)) && OthersKept(old(table.rows))
    {
      Settle(Update.Fail(workers[w].job.id), workers[w].job);
      inFlight := inFlight - 1;
      workers := workers[w := Idle];
    }
  }
}
