/** Each step of the crawl keeps the invariant. */
module CrawlSteps {
  import opened Text
  import opened JobQueue
  import opened Crawl
  import opened CrawlInvariant

  /** A step that changes one worker's status and no row. */
  lemma {:induction false} StatusStepKeeps(c: Config, s: State, a: Action)
    requires Sound(c, s) && Enabled(c, s, a) && (a.LeaveAtLimit? || a.LeaveIdle? || a.Count?)
    ensures Sound(c, Next(c, s, a))
  {
    var s' := Next(c, s, a);
    CountsAfter(s.workers, a.w, s'.workers[a.w]);
    CountsBounded(s.workers);
    assert s'.table == s.table;
  }

  lemma {:induction false} WorkerStepKeeps(c: Config, s: State, a: Action)
    requires Sound(c, s) && Enabled(c, s, a)
    requires a.Wait? || a.Crash? || a.LeaveAtLimit? || a.LeaveIdle? || a.Poll? || a.Count?
    ensures Sound(c, Next(c, s, a)) && (Inv(c, s) ==> Inv(c, Next(c, s, a)))
  {
    if a.LeaveAtLimit? || a.LeaveIdle? || a.Count? {
      StatusStepKeeps(c, s, a);
    }
  }

  lemma {:induction false} TakeKeeps(c: Config, s: State, w: nat)
    requires Inv(c, s) && Enabled(c, s, Take(w))
    ensures Inv(c, Next(c, s, Take(w)))
  {
    var s' := Next(c, s, Take(w));
    var u := Claim(Claimed(c, s).id, s.now + LEASE_SECS);
    assert s'.table == s.table.(rows := ApplyAll(u, s.table.rows));
    UpdateKeepsTable(c, u, s.table);
    TakeKeepsWorkers(c, s, w);
    TakeKeepsCounts(c, s, w);
  }

  lemma {:induction false} TakeKeepsCounts(c: Config, s: State, w: nat)
    requires WorkersAgree(c, s) && IdleLeftNothing(c, s) && UnderLimit(c, s) && Enabled(c, s, Take(w))
    ensures IdleLeftNothing(c, Next(c, s, Take(w))) && UnderLimit(c, Next(c, s, Take(w)))
  {
    var s' := Next(c, s, Take(w));
    CountsAfter(s.workers, w, s'.workers[w]);
    CountsBounded(s.workers);
    CountsBounded(s'.workers);
    assert forall v :: 0 <= v < |s'.workers| && v != w ==> s'.workers[v] == s.workers[v];
  }

  lemma {:induction false} TakeKeepsWorkers(c: Config, s: State, w: nat)
    requires ValidTable(s.table) && WorkersAgree(c, s) && Enabled(c, s, Take(w))
    ensures WorkersAgree(c, Next(c, s, Take(w)))
  {
    var s' := Next(c, s, Take(w));
    var rows, rows' := s.table.rows, s'.table.rows;
    var k := FirstReady(rows, Some(c.scan));
    CountsAfter(s.workers, w, s'.workers[w]);
    assert rows'[k] == Claimed(c, s);
    forall v | 0 <= v < |s.workers| && s.workers[v].Holding?
      ensures s.workers[v].job in rows' && s.workers[v].job.id != rows[k].id
    {
      var i := RowIndex(s.table, s.workers[v].job);
      assert rows'[i] == rows[i];
    }
  }

  lemma {:induction false} AbortKeeps(c: Config, s: State, w: nat)
    requires Inv(c, s) && Enabled(c, s, Abort(w))
    ensures Inv(c, Next(c, s, Abort(w)))
  {
    var job := s.workers[w].job;
    var s' := Next(c, s, Abort(w));
    var u := Update.Fail(job.id);
    UpdateKeepsTable(c, u, s.table);
    ReleaseKeepsWorkers(c, s, s', w, u, s.table.rows);
  }

  /** A worker that settles its own row, whatever was appended first, disturbs no other worker. */
  lemma {:induction false} ReleaseKeepsWorkers(c: Config, s: State, s': State, w: nat, u: Update, grown: seq<Job>)
    requires Sound(c, s) && IsHolding(s, w)
    requires u == Complete(s.workers[w].job.id) || u == Update.Fail(s.workers[w].job.id)
    requires s.table.rows <= grown && s'.table.rows == ApplyAll(u, grown)
    requires s' == s.(table := s'.table, workers := s.workers[w := Idle], inFlight := s.inFlight - 1)
    ensures WorkersAgree(c, s') && IdleLeftNothing(c, s') && UnderLimit(c, s')
  {
    CountsAfter(s.workers, w, Idle);
    CountsBounded(s.workers);
    forall v | 0 <= v < |s'.workers| && s'.workers[v].Holding? ensures s'.workers[v].job in s'.table.rows {
      var i := RowIndex(s.table, s.workers[v].job);
      assert grown[i] == s.table.rows[i];
      assert s'.table.rows[i] == s.table.rows[i];
    }
  }

  lemma {:induction false} FinishKeeps(c: Config, s: State, w: nat)
    requires Inv(c, s) && Enabled(c, s, Finish(w))
    ensures Inv(c, Next(c, s, Finish(w)))
  {
    var job := s.workers[w].job;
    var k := RowIndex(s.table, job);
    var t := Expanded(c, s, job);
    ExpandedKeeps(c, s, k);
    CompleteKeeps(c, t, k);
    ReleaseKeepsWorkers(c, s, Next(c, s, Finish(w)), w, Complete(job.id), t.rows);
  }

  /** Expanding row `k` adds its links and changes no row. */
  lemma {:induction false} ExpandedKeeps(c: Config, s: State, k: nat)
    requires TableInv(c, s.table) && k < |s.table.rows|
    ensures var job, t := s.table.rows[k], Expanded(c, s, s.table.rows[k]);
            && TableInv(c, t) && s.table.rows <= t.rows
            && (Seeded(c, s.table.rows) ==> Seeded(c, t.rows))
            && (!LimitReached(c, s) ==> Linked(c, t.rows, job))
            && (forall i :: |s.table.rows| <= i < |t.rows| ==>
                  NewRow(c, t.rows[i], Children(c, job.url), job.depth + 1))
  {
    var job := s.table.rows[k];
    if Expands(c, s, job) {
      LinksKeepTable(c, s.table, k, Children(c, job.url));
    }
  }

  lemma {:induction false} CompleteKeeps(c: Config, t: Table, k: nat)
    requires TableInv(c, t) && k < |t.rows| && t.rows[k].state.Leased?
    requires c.maxPages.None? ==> Linked(c, t.rows, t.rows[k])
    ensures TableInv(c, t.(rows := ApplyAll(Complete(t.rows[k].id), t.rows)))
    ensures Seeded(c, t.rows) ==> Seeded(c, ApplyAll(Complete(t.rows[k].id), t.rows))
  {
    assert forall i :: 0 <= i < |t.rows| && t.rows[i].id == t.rows[k].id ==> i == k;
    UpdateKeepsTable(c, Complete(t.rows[k].id), t);
  }

  lemma {:induction false} CrashKeeps(c: Config, s: State, w: nat, kept: nat)
    requires Inv(c, s) && Enabled(c, s, CrashInFinish(w, kept))
    ensures Inv(c, Next(c, s, CrashInFinish(w, kept)))
  {
    var k := RowIndex(s.table, s.workers[w].job);
    LinksKeepTable(c, s.table, k, Children(c, s.table.rows[k].url)[..kept]);
  }

  /** Under an unchanged scope every queued job is in scope, so a restart purges nothing. */
  lemma {:induction false} PurgeDropsNothing(c: Config, rows: seq<Job>)
    requires forall i :: 0 <= i < |rows| ==> c.inScope(rows[i].url)
    ensures Purge(c, rows) == rows
    decreases |rows|
  {
    if rows != [] {
      PurgeDropsNothing(c, rows[..|rows| - 1]);
    }
  }

  lemma {:induction false} SeedingKeeps(c: Config, t: Table, seeds: seq<string>)
    requires ValidConfig(c) && TableInv(c, t) && seeds <= c.seeds
    ensures var t' := EnqueueAll(c, t, seeds, 0);
            TableInv(c, t') && Grown(c, t, t', seeds, 0)
  {
    var t' := EnqueueAll(c, t, seeds, 0);
    EnqueueAllGrows(c, t, seeds, 0);
    forall i | 0 <= i < |t'.rows| ensures OwnRow(c, t'.rows[i]) && HasParent(c, t'.rows, i) {
      if i < |t.rows| {
        assert t'.rows[i] == t.rows[i];
        PrefixKeepsParent(c, t.rows, t'.rows, i);
      } else {
        assert NewRow(c, t'.rows[i], seeds, 0);
      }
    }
    GrownKeepsClosed(c, t, t', seeds, 0);
  }

  lemma {:induction false} StartKeeps(c: Config, s: State)
    requires ValidConfig(c) && Inv(c, s) && Enabled(c, s, Start)
    ensures Inv(c, Next(c, s, Start))
  {
    StartTable(c, s, c.seeds);
    CountsBounded(Next(c, s, Start).workers);
  }

  lemma {:induction false} CrashInStartKeeps(c: Config, s: State, kept: nat)
    requires ValidConfig(c) && Inv(c, s) && Enabled(c, s, CrashInStart(kept))
    ensures Inv(c, Next(c, s, CrashInStart(kept)))
  {
    StartTable(c, s, c.seeds[..kept]);
  }

  /** A start frees the expired leases, then appends the seeds that have no row yet. */
  lemma {:induction false} StartTable(c: Config, s: State, seeds: seq<string>)
    requires ValidConfig(c) && TableInv(c, s.table) && seeds <= c.seeds
    ensures Recovered(c, s) == s.table.(rows := ApplyAll(Reclaim(s.now), s.table.rows))
    ensures TableInv(c, Recovered(c, s))
    ensures var t' := EnqueueAll(c, Recovered(c, s), seeds, 0);
            TableInv(c, t') && Grown(c, Recovered(c, s), t', seeds, 0)
  {
    UpdateKeepsTable(c, Reclaim(s.now), s.table);
    PurgeDropsNothing(c, ApplyAll(Reclaim(s.now), s.table.rows));
    SeedingKeeps(c, Recovered(c, s), seeds);
  }

  lemma {:induction false} StepKeeps(c: Config, s: State, a: Action)
    requires ValidConfig(c) && Inv(c, s) && Enabled(c, s, a)
    ensures Inv(c, Next(c, s, a))
  {
    match a
    case Take(w) => TakeKeeps(c, s, w);
    case Finish(w) => FinishKeeps(c, s, w);
    case Abort(w) => AbortKeeps(c, s, w);
    case Start => StartKeeps(c, s);
    case CrashInStart(kept) => CrashInStartKeeps(c, s, kept);
    case CrashInFinish(w, kept) => CrashKeeps(c, s, w, kept);
    case _ => WorkerStepKeeps(c, s, a);
  }

  /** The invariant holds after every history of starts, crashes and worker interleavings. */
  lemma {:induction false} HistoryKeeps(c: Config, s: State, acts: seq<Action>)
    requires ValidConfig(c) && Inv(c, s) && Legal(c, s, acts)
    ensures Inv(c, After(c, s, acts))
    decreases |acts|
  {
    if acts != [] {
      var n := |acts| - 1;
      HistoryKeeps(c, s, acts[..n]);
      StepKeeps(c, After(c, s, acts[..n]), acts[n]);
    }
  }
}
