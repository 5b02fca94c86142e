/** The life of one job, step by step: what each step of the crawl does to a row, and which rows it adds. */
module CrawlRowSteps {
  import opened Text
  import opened JobQueue
  import opened Crawl
  import opened CrawlInvariant
  import opened CrawlSteps
  import opened CrawlVisits

  predicate HeldBy(s: State, w: nat, j: Job) {
    w < |s.workers| && s.workers[w].Holding? && s.workers[w].job == j
  }

  /** The pending row with the lowest id. */
  predicate FirstPending(rows: seq<Job>, i: nat)
    requires i < |rows|
  {
    rows[i].state.Pending? && forall k :: 0 <= k < i ==> !rows[k].state.Pending?
  }

  predicate Restarts(a: Action) {
    a.Start? || a.CrashInStart?
  }

  /** A job waits, is leased for 120 seconds with its attempt counted, is completed by the worker that holds it, goes
      back to the queue on its first two failed attempts and is given up on any later one, and is freed by a start
      after its lease has run out. No step does anything else to a row. */
  function RowAfter(s: State, a: Action, i: nat): Job
    requires i < |s.table.rows|
  {
    var j := s.table.rows[i];
    if a.Take? && FirstPending(s.table.rows, i) then
      j.(state := Leased, leaseUntil := Some(s.now + 120), attempts := j.attempts + 1)
    else if a.Finish? && HeldBy(s, a.w, j) then j.(state := Completed, leaseUntil := None)
    else if a.Abort? && HeldBy(s, a.w, j) then
      j.(state := if j.attempts < 3 then Pending else Failed, leaseUntil := None)
    else if Restarts(a) && j.state.Leased? && j.leaseUntil.Some? && j.leaseUntil.value < s.now then
      j.(state := Pending, leaseUntil := None)
    else j
  }

  lemma {:induction false} TakeIsFirstPending(c: Config, s: State, w: nat, i: nat)
    requires OwnTable(c, s.table) && Enabled(c, s, Take(w)) && i < |s.table.rows|
    ensures FirstPending(s.table.rows, i) <==> i == FirstReady(s.table.rows, Some(c.scan))
  {
    var rows := s.table.rows;
    var k := FirstReady(rows, Some(c.scan));
    assert OwnRow(c, rows[i]) && OwnRow(c, rows[k]);
    forall n | 0 <= n < k ensures !rows[n].state.Pending? {
      assert OwnRow(c, rows[n]) && !Ready(rows[n], Some(c.scan));
    }
  }

  lemma {:induction false} TakeRow(c: Config, s: State, w: nat, i: nat)
    requires OwnTable(c, s.table) && Enabled(c, s, Take(w)) && i < |s.table.rows|
    ensures Next(c, s, Take(w)).table.rows[i] == RowAfter(s, Take(w), i)
    ensures FirstPending(s.table.rows, i) ==> HeldBy(Next(c, s, Take(w)), w, RowAfter(s, Take(w), i))
  {
    var k := FirstReady(s.table.rows, Some(c.scan));
    TakeIsFirstPending(c, s, w, i);
    ClaimOneRow(s.table, k, s.now + LEASE_SECS);
  }

  /** A worker settles the row it holds and no other. */
  lemma {:induction false} HeldIsById(c: Config, s: State, w: nat, i: nat)
    requires ValidTable(s.table) && WorkersAgree(c, s) && IsHolding(s, w) && i < |s.table.rows|
    ensures s.table.rows[i].id == s.workers[w].job.id <==> HeldBy(s, w, s.table.rows[i])
  {
    var k := RowIndex(s.table, s.workers[w].job);
  }

  lemma {:induction false} RecoveredRows(c: Config, s: State)
    requires OwnTable(c, s.table)
    ensures Recovered(c, s) == s.table.(rows := ApplyAll(Reclaim(s.now), s.table.rows))
    ensures OwnTable(c, Recovered(c, s))
  {
    UpdateKeepsOwn(c, Reclaim(s.now), s.table);
    PurgeDropsNothing(c, ApplyAll(Reclaim(s.now), s.table.rows));
  }

  lemma {:induction false} RestartRow(c: Config, s: State, a: Action, seeds: seq<string>, i: nat)
    requires OwnTable(c, s.table) && i < |s.table.rows| && Restarts(a)
    ensures var rows' := EnqueueAll(c, Recovered(c, s), seeds, 0).rows;
            i < |rows'| && rows'[i] == RowAfter(s, a, i)
  {
    var t := Recovered(c, s);
    RecoveredRows(c, s);
    assert t.rows[i] == Apply(Reclaim(s.now), s.table.rows[i]) == RowAfter(s, a, i);
    KeptByEnqueuing(c, t, seeds, 0, i);
  }

  lemma {:induction false} KeptByEnqueuing(c: Config, t: Table, urls: seq<string>, depth: nat, i: nat)
    requires OwnTable(c, t) && i < |t.rows|
    ensures var rows' := EnqueueAll(c, t, urls, depth).rows; i < |rows'| && rows'[i] == t.rows[i]
  {
    EnqueueAllGrows(c, t, urls, depth);
  }

  /** Settling after expanding changes the held row alone. */
  lemma {:induction false} FinishRow(c: Config, s: State, w: nat, i: nat)
    requires Sound(c, s) && Enabled(c, s, Finish(w)) && i < |s.table.rows|
    ensures var rows' := Next(c, s, Finish(w)).table.rows; i < |rows'| && rows'[i] == RowAfter(s, Finish(w), i)
  {
    var job := s.workers[w].job;
    HeldIsById(c, s, w, i);
    KeptByEnqueuing(c, s.table, Children(c, job.url), job.depth + 1, i);
    assert Expanded(c, s, job).rows[i] == s.table.rows[i];
  }

  lemma {:induction false} AbortRow(c: Config, s: State, w: nat, i: nat)
    requires ValidTable(s.table) && WorkersAgree(c, s) && IsHolding(s, w) && i < |s.table.rows|
    ensures Apply(Update.Fail(s.workers[w].job.id), s.table.rows[i]) == RowAfter(s, Abort(w), i)
  {
    HeldIsById(c, s, w, i);
  }

  /** Every step, crashes and restarts included, takes each row to `RowAfter`. */
  lemma {:induction false} RowStep(c: Config, s: State, a: Action, i: nat)
    requires ValidConfig(c) && Sound(c, s) && Enabled(c, s, a) && i < |s.table.rows|
    ensures var rows' := Next(c, s, a).table.rows; i < |rows'| && rows'[i] == RowAfter(s, a, i)
  {
    match a
    case Take(w) => TakeRow(c, s, w, i);
    case Finish(w) => FinishRow(c, s, w, i);
    case Abort(w) => AbortRow(c, s, w, i);
    case Start => RestartRow(c, s, a, c.seeds, i);
    case CrashInStart(kept) => RestartRow(c, s, a, c.seeds[..kept], i);
    case CrashInFinish(w, kept) =>
      var job := s.workers[w].job;
      KeptByEnqueuing(c, s.table, Children(c, job.url)[..kept], job.depth + 1, i);
    case _ =>
  }

  predicate FailedLate(rows: seq<Job>) {
    forall i :: 0 <= i < |rows| && rows[i].state.Failed? ==> rows[i].attempts >= 3
  }

  /** No job is ever given up before its third attempt, whatever each visit answers. */
  lemma {:induction false} GivenUpLate(c: Config, now: int, visits: seq<Visit>)
    requires ValidConfig(c) && LegalVisits(c, Fresh(now), visits)
    ensures FailedLate(AfterVisits(c, Fresh(now), visits).table.rows)
    decreases |visits|
  {
    if visits != [] {
      var n := |visits| - 1;
      var before := AfterVisits(c, Fresh(now), visits[..n]);
      GivenUpLate(c, now, visits[..n]);
      VisitsStaySound(c, Fresh(now), visits[..n]);
      SoundOnAnySite(c, visits[n], before);
      StepFailsLate(Showing(c, visits[n]), before, visits[n].act);
    }
  }

  lemma {:induction false} StepFailsLate(c: Config, s: State, a: Action)
    requires ValidConfig(c) && Sound(c, s) && Enabled(c, s, a) && FailedLate(s.table.rows)
    ensures FailedLate(Next(c, s, a).table.rows)
  {
    var rows' := Next(c, s, a).table.rows;
    forall i | 0 <= i < |rows'| && rows'[i].state.Failed? ensures rows'[i].attempts >= 3 {
      if i < |s.table.rows| {
        RowStep(c, s, a, i);
      } else {
        NewRowStep(c, s, a, i);
      }
    }
  }

  /** A row only a seed or a link of a held page can have brought in. */
  predicate Brought(c: Config, s: State, a: Action, j: Job) {
    if Restarts(a) then j.url in c.seeds && j.depth == 0
    else
      && (a.Finish? || a.CrashInFinish?) && IsHolding(s, a.w)
      && c.page(s.workers[a.w].job.url).Some? && j.url in c.page(s.workers[a.w].job.url).value
      && c.inScope(j.url) && !c.blocked(j.url)
      && j.depth == s.workers[a.w].job.depth + 1 && j.depth <= c.maxDepth
  }

  /** Every row a step adds is pending and untried, for a URL that had none: a seed at depth 0, or a link in scope
      and not blocked, one level below the held page and no deeper than the depth limit. */
  lemma {:induction false} NewRowStep(c: Config, s: State, a: Action, i: nat)
    requires ValidConfig(c) && Sound(c, s) && Enabled(c, s, a)
    requires |s.table.rows| <= i < |Next(c, s, a).table.rows|
    ensures var j := Next(c, s, a).table.rows[i];
            && j.state.Pending? && j.leaseUntil.None? && j.attempts == 0
            && !HasUrl(s.table.rows, j.url) && Brought(c, s, a, j)
  {
    match a
    case Finish(w) =>
      var job := s.workers[w].job;
      BroughtByLinks(c, s, a, Expanded(c, s, job), Children(c, job.url), i);
      var k := RowIndex(s.table, job);
      ExpandedStaysOwn(c, s, job);
      assert Expanded(c, s, job).rows[k] == job && Expanded(c, s, job).rows[i].id != job.id;
    case CrashInFinish(w, kept) =>
      var job := s.workers[w].job;
      BroughtByLinks(c, s, a, Next(c, s, a).table, Children(c, job.url)[..kept], i);
    case Start => BroughtBySeeds(c, s, a, c.seeds, i);
    case CrashInStart(kept) => BroughtBySeeds(c, s, a, c.seeds[..kept], i);
    case _ =>
  }

  lemma {:induction false} BroughtByLinks(c: Config, s: State, a: Action, t: Table, links: seq<string>, i: nat)
    requires OwnTable(c, s.table) && (a.Finish? || a.CrashInFinish?) && IsHolding(s, a.w)
    requires var job := s.workers[a.w].job;
             && Expands(c, s, job) && links <= Children(c, job.url)
             && t == EnqueueAll(c, s.table, links, job.depth + 1)
    requires |s.table.rows| <= i < |t.rows|
    ensures NewRow(c, t.rows[i], links, s.workers[a.w].job.depth + 1) && !HasUrl(s.table.rows, t.rows[i].url)
    ensures Brought(c, s, a, t.rows[i])
  {
    var job := s.workers[a.w].job;
    EnqueueAllGrows(c, s.table, links, job.depth + 1);
    assert NewRow(c, t.rows[i], links, job.depth + 1);
    AdmissibleIs(c, c.page(job.url).value, t.rows[i].url);
  }

  lemma {:induction false} BroughtBySeeds(c: Config, s: State, a: Action, seeds: seq<string>, i: nat)
    requires ValidConfig(c) && OwnTable(c, s.table) && seeds <= c.seeds && Restarts(a)
    requires |s.table.rows| <= i < |EnqueueAll(c, Recovered(c, s), seeds, 0).rows|
    ensures var j := EnqueueAll(c, Recovered(c, s), seeds, 0).rows[i];
            NewRow(c, j, seeds, 0) && !HasUrl(s.table.rows, j.url) && Brought(c, s, a, j)
  {
    RecoveredRows(c, s);
    EnqueueAllGrows(c, Recovered(c, s), seeds, 0);
    UpdateKeepsUrls(c, Reclaim(s.now), s.table.rows);
  }

  // --- The order of the links ---

  /** The place of the first occurrence, or the length when there is none. */
  function PlaceIn(urls: seq<string>, url: string): (k: nat)
    ensures k <= |urls| && (k < |urls| <==> url in urls)
    ensures k < |urls| ==> urls[k] == url
  {
    if urls == [] || urls[0] == url then 0 else 1 + PlaceIn(urls[1..], url)
  }

  lemma {:induction false} PlaceInMore(urls: seq<string>, last: string, url: string)
    ensures PlaceIn(urls + [last], url) ==
            if url in urls then PlaceIn(urls, url) else if url == last then |urls| else |urls| + 1
  {
    if urls == [] {
      assert [] + [last] == [last] && [last][1..] == [];
    } else {
      assert (urls + [last])[1..] == urls[1..] + [last];
      PlaceInMore(urls[1..], last, url);
    }
  }

  /** New rows stand in the order in which their URLs were first given. */
  predicate InOrderOf(rows: seq<Job>, from: nat, urls: seq<string>) {
    forall i, j :: from <= i < j < |rows| ==> PlaceIn(urls, rows[i].url) < PlaceIn(urls, rows[j].url)
  }

  lemma {:induction false} EnqueuedInOrder(c: Config, t: Table, urls: seq<string>, depth: nat)
    requires ValidTable(t) && KeyedRows(c, t.rows)
    ensures InOrderOf(EnqueueAll(c, t, urls, depth).rows, |t.rows|, urls)
    decreases |urls|
  {
    if urls != [] {
      var n := |urls| - 1;
      var init, last := urls[..n], urls[n];
      var mid := EnqueueAll(c, t, init, depth);
      assert urls == init + [last];
      EnqueuedInOrder(c, t, init, depth);
      EnqueueAllGrows(c, t, init, depth);
      KeyIsUrl(c, mid.rows, last);
      OneMoreInOrder(c, t, mid, init, last, depth);
    }
  }

  lemma {:induction false} OneMoreInOrder(c: Config, t: Table, mid: Table, init: seq<string>, last: string, depth: nat)
    requires Grown(c, t, mid, init, depth) && InOrderOf(mid.rows, |t.rows|, init)
    requires HasKey(mid.rows, Some(DedupeKey(c.scan, last))) <==> HasUrl(mid.rows, last)
    ensures InOrderOf(Enqueue(c, mid, last, depth).rows, |t.rows|, init + [last])
  {
    var rows := Enqueue(c, mid, last, depth).rows;
    assert !HasUrl(mid.rows, last) ==> last !in init;
    forall i, j | |t.rows| <= i < j < |rows|
      ensures PlaceIn(init + [last], rows[i].url) < PlaceIn(init + [last], rows[j].url)
    {
      assert NewRow(c, mid.rows[i], init, depth);
      PlaceInMore(init, last, rows[i].url);
      PlaceInMore(init, last, rows[j].url);
      if j < |mid.rows| {
        assert NewRow(c, mid.rows[j], init, depth);
      }
    }
  }

  lemma {:induction false} PlaceAmong(c: Config, init: seq<string>, last: string, url: string)
    requires Admitted(c, url)
    ensures url in Admissible(c, init) <==> url in init
    ensures PlaceIn(init + [last], url) ==
            if url in init then PlaceIn(init, url) else if url == last then |init| else |init| + 1
    ensures var links, before := Admissible(c, init + [last]), Admissible(c, init);
            PlaceIn(links, url) ==
            if url in before then PlaceIn(before, url) else if url == last then |before| else |links|
    ensures |Admissible(c, init)| <= |Admissible(c, init + [last])| <= |Admissible(c, init)| + 1
  {
    var before := Admissible(c, init);
    assert (init + [last])[..|init|] == init && before + [] == before;
    PlaceInMore(init, last, url);
    PlaceInMore(before, last, url);
    AdmissibleIs(c, init, url);
  }

  lemma {:induction false} AdmissibleInOrder(c: Config, links: seq<string>, a: string, b: string)
    requires Admitted(c, a) && Admitted(c, b)
    ensures PlaceIn(Admissible(c, links), a) < PlaceIn(Admissible(c, links), b) <==> PlaceIn(links, a) < PlaceIn(links, b)
    decreases |links|
  {
    if links != [] {
      var n := |links| - 1;
      var init, last := links[..n], links[n];
      assert links == init + [last];
      AdmissibleInOrder(c, init, a, b);
      PlaceAmong(c, init, last, a);
      PlaceAmong(c, init, last, b);
    }
  }

  /** The links of a finished page are queued in the order in which the page has them. */
  lemma {:induction false} LinksKeepOrder(c: Config, s: State, w: nat, i: nat, j: nat)
    requires ValidConfig(c) && Sound(c, s) && Enabled(c, s, Finish(w))
    requires |s.table.rows| <= i < j < |Next(c, s, Finish(w)).table.rows|
    ensures var rows, links := Next(c, s, Finish(w)).table.rows, c.page(s.workers[w].job.url);
            links.Some? && PlaceIn(links.value, rows[i].url) < PlaceIn(links.value, rows[j].url)
  {
    var job := s.workers[w].job;
    var rows := Next(c, s, Finish(w)).table.rows;
    NewRowStep(c, s, Finish(w), i);
    NewRowStep(c, s, Finish(w), j);
    EnqueuedInOrder(c, s.table, Children(c, job.url), job.depth + 1);
    assert rows[i].url == Expanded(c, s, job).rows[i].url && rows[j].url == Expanded(c, s, job).rows[j].url;
    AdmissibleInOrder(c, c.page(job.url).value, rows[i].url, rows[j].url);
  }

  /** What a purge would keep under a changed scope: every job but the pending ones outside it. */
  lemma {:induction false} PurgeIs(c: Config, rows: seq<Job>, j: Job)
    ensures j in Purge(c, rows) <==> j in rows && !(j.state.Pending? && !c.inScope(j.url))
    decreases |rows|
  {
    if rows != [] {
      var n := |rows| - 1;
      PurgeIs(c, rows[..n], j);
      assert rows == rows[..n] + [rows[n]];
    }
  }
}
