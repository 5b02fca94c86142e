/** What every step of the crawl keeps, crashes and restarts included. */
module CrawlInvariant {
  import opened Text
  import opened JobQueue
  import opened Crawl

  /** Seeds are checked against the scope before they are queued. */
  predicate ValidConfig(c: Config) {
    forall u :: u in c.seeds ==> c.inScope(u)
  }

  predicate OwnRow(c: Config, j: Job) {
    && j.scan == c.scan
    && j.key == Some(DedupeKey(c.scan, j.url))
    && c.inScope(j.url)
    && j.depth <= c.maxDepth
    && (j.state.Leased? <==> j.leaseUntil.Some?)
    && (!j.state.Pending? ==> j.attempts >= 1)
  }

  predicate OwnTable(c: Config, t: Table) {
    ValidTable(t) && forall i :: 0 <= i < |t.rows| ==> OwnRow(c, t.rows[i])
  }

  /** A job above depth 0 was linked from an earlier job one level up. */
  predicate Parented(c: Config, rows: seq<Job>) {
    forall i :: 0 <= i < |rows| ==> HasParent(c, rows, i)
  }

  predicate HasParent(c: Config, rows: seq<Job>, i: nat)
    requires i < |rows|
  {
    if rows[i].depth == 0 then rows[i].url in c.seeds
    else exists j :: 0 <= j < i && rows[j].depth + 1 == rows[i].depth && rows[i].url in Children(c, rows[j].url)
  }

  /** Every completed job that had to be expanded has a row for each of its links. */
  predicate Closed(c: Config, rows: seq<Job>) {
    forall i, u :: 0 <= i < |rows| && MustLink(c, rows[i]) && u in Children(c, rows[i].url) ==> HasUrl(rows, u)
  }

  predicate MustLink(c: Config, j: Job) {
    j.state.Completed? && j.depth < c.maxDepth
  }

  predicate Linked(c: Config, rows: seq<Job>, j: Job) {
    j.depth < c.maxDepth ==> forall u :: u in Children(c, j.url) ==> HasUrl(rows, u)
  }

  predicate Seeded(c: Config, rows: seq<Job>) {
    forall u :: u in c.seeds ==> HasUrl(rows, u)
  }

  /** `in_flight` counts the holders; every held job is the leased row it was read from,
      and no job is held twice. */
  predicate WorkersAgree(c: Config, s: State) {
    && (s.running ==> |s.workers| == c.workers)
    && (!s.running ==> s.workers == [])
    && s.inFlight == Holders(s.workers)
    && (forall w :: 0 <= w < |s.workers| && s.workers[w].Holding? ==>
          s.workers[w].job in s.table.rows && s.workers[w].job.state.Leased?)
    && (forall v, w :: 0 <= v < w < |s.workers| && s.workers[v].Holding? && s.workers[w].Holding? ==>
          s.workers[v].job.id != s.workers[w].job.id)
  }

  predicate IdleLeftNothing(c: Config, s: State) {
    (exists w :: 0 <= w < |s.workers| && s.workers[w].LeftIdle?) ==> !AnyReady(c, s) && s.inFlight == 0
  }

  predicate UnderLimit(c: Config, s: State) {
    match c.maxPages
    case None => forall w :: 0 <= w < |s.workers| ==> !s.workers[w].LeftAtLimit?
    case Some(m) =>
      if m == 0 then s.pages == 0 && Holders(s.workers) == 0
      else s.pages + Uncounted(s.workers) <= m - 1 + c.workers
  }

  predicate TableInv(c: Config, t: Table) {
    && OwnTable(c, t)
    && Parented(c, t.rows)
    && (c.maxPages.None? ==> Closed(c, t.rows))
  }

  /** What holds whatever the pages answer. */
  predicate Sound(c: Config, s: State) {
    && OwnTable(c, s.table)
    && (s.running ==> Seeded(c, s.table.rows))
    && WorkersAgree(c, s)
    && IdleLeftNothing(c, s)
    && UnderLimit(c, s)
  }

  predicate Inv(c: Config, s: State) {
    Sound(c, s) && TableInv(c, s.table)
  }

  // --- Counting workers ---

  lemma {:induction false} CountsAfter(ws: seq<Worker>, w: nat, x: Worker)
    requires w < |ws|
    ensures Holders(ws[w := x]) ==
            Holders(ws) - (if ws[w].Holding? then 1 else 0) + (if x.Holding? then 1 else 0)
    ensures Uncounted(ws[w := x]) ==
            Uncounted(ws) - (if ws[w].Holding? && !ws[w].counted then 1 else 0)
            + (if x.Holding? && !x.counted then 1 else 0)
  {
    var n := |ws| - 1;
    if w < n {
      CountsAfter(ws[..n], w, x);
      assert ws[w := x][..n] == ws[..n][w := x];
    } else {
      assert ws[w := x][..n] == ws[..n];
    }
  }

  lemma {:induction false} CountsBounded(ws: seq<Worker>)
    ensures Uncounted(ws) <= Holders(ws) <= |ws|
    ensures Holders(ws) == 0 <==> forall w :: 0 <= w < |ws| ==> !ws[w].Holding?
    ensures (exists w :: 0 <= w < |ws| && !ws[w].Holding?) ==> Holders(ws) < |ws|
  {
    if ws != [] {
      var n := |ws| - 1;
      CountsBounded(ws[..n]);
      assert forall w :: 0 <= w < n ==> ws[w] == ws[..n][w];
    }
  }

  // --- Enqueuing ---

  predicate NewRow(c: Config, j: Job, urls: seq<string>, depth: nat) {
    && j.scan == c.scan
    && j.key == Some(DedupeKey(c.scan, j.url))
    && j.url in urls
    && j.depth == depth
    && j.state.Pending? && j.leaseUntil.None? && j.attempts == 0
  }

  predicate KeyedRows(c: Config, rows: seq<Job>) {
    forall i :: 0 <= i < |rows| ==> rows[i].scan == c.scan && rows[i].key == Some(DedupeKey(c.scan, rows[i].url))
  }

  /** What enqueuing `urls` does to a table: new pending rows at the end, one for each URL that had none. */
  predicate Grown(c: Config, t: Table, t': Table, urls: seq<string>, depth: nat) {
    && ValidTable(t') && KeyedRows(c, t'.rows)
    && t.rows <= t'.rows && t.nextId <= t'.nextId
    && (forall i :: |t.rows| <= i < |t'.rows| ==>
          NewRow(c, t'.rows[i], urls, depth) && !HasUrl(t.rows, t'.rows[i].url) && t'.rows[i].id >= t.nextId)
    && (forall u :: u in urls ==> HasUrl(t'.rows, u))
  }

  lemma {:induction false} KeyIsUrl(c: Config, rows: seq<Job>, url: string)
    requires KeyedRows(c, rows)
    ensures HasKey(rows, Some(DedupeKey(c.scan, url))) <==> HasUrl(rows, url)
  {
    forall i | 0 <= i < |rows| ensures rows[i].key == Some(DedupeKey(c.scan, url)) <==> rows[i].url == url {
      DedupeKeyInjective(c.scan, rows[i].url, c.scan, url);
    }
  }

  lemma {:induction false} EnqueueAllGrows(c: Config, t: Table, urls: seq<string>, depth: nat)
    requires ValidTable(t) && KeyedRows(c, t.rows)
    ensures Grown(c, t, EnqueueAll(c, t, urls, depth), urls, depth)
    decreases |urls|
  {
    if urls != [] {
      var n := |urls| - 1;
      EnqueueAllGrows(c, t, urls[..n], depth);
      EnqueueGrows(c, t, EnqueueAll(c, t, urls[..n], depth), urls[..n], urls[n], depth);
      assert urls == urls[..n] + [urls[n]];
    }
  }

  lemma {:induction false} EnqueueGrows(c: Config, t: Table, mid: Table, urls: seq<string>, url: string, depth: nat)
    requires ValidTable(t) && Grown(c, t, mid, urls, depth)
    ensures Grown(c, t, Enqueue(c, mid, url, depth), urls + [url], depth)
  {
    KeyIsUrl(c, mid.rows, url);
    var t' := Enqueue(c, mid, url, depth);
    forall u | u in urls + [url] ensures HasUrl(t'.rows, u) {
      if u in urls {
        PrefixKeepsUrls(mid.rows, t'.rows, u);
      } else if !HasUrl(mid.rows, url) {
        assert t'.rows[|mid.rows|].url == u;
      }
    }
    if !HasUrl(mid.rows, url) && HasUrl(t.rows, url) {
      PrefixKeepsUrls(t.rows, mid.rows, url);
    }
  }

  lemma {:induction false} UrlsUnique(c: Config, rows: seq<Job>, i: nat, j: nat)
    requires KeysUnique(rows) && KeyedRows(c, rows)
    requires i < |rows| && j < |rows| && rows[i].url == rows[j].url
    ensures i == j
  {
  }

  /** The links of an earlier job, one level deeper, keep the table's invariants. */
  lemma {:induction false} LinksKeepTable(c: Config, t: Table, k: nat, links: seq<string>)
    requires TableInv(c, t)
    requires k < |t.rows| && t.rows[k].depth < c.maxDepth
    requires forall u :: u in links ==> u in Children(c, t.rows[k].url)
    ensures var t' := EnqueueAll(c, t, links, t.rows[k].depth + 1);
            && TableInv(c, t') && Grown(c, t, t', links, t.rows[k].depth + 1)
            && (Seeded(c, t.rows) ==> Seeded(c, t'.rows))
  {
    var depth := t.rows[k].depth + 1;
    var t' := EnqueueAll(c, t, links, depth);
    EnqueueAllGrows(c, t, links, depth);
    LinkedRowsKeepOwn(c, t, t', k, links);
    GrownKeepsClosed(c, t, t', links, depth);
  }

  lemma {:induction false} LinkedRowsKeepOwn(c: Config, t: Table, t': Table, k: nat, links: seq<string>)
    requires OwnTable(c, t) && Parented(c, t.rows)
    requires k < |t.rows| && t.rows[k].depth < c.maxDepth && Grown(c, t, t', links, t.rows[k].depth + 1)
    requires forall u :: u in links ==> u in Children(c, t.rows[k].url)
    ensures OwnTable(c, t') && Parented(c, t'.rows)
  {
    forall i | 0 <= i < |t'.rows| ensures OwnRow(c, t'.rows[i]) && HasParent(c, t'.rows, i) {
      if i < |t.rows| {
        assert t'.rows[i] == t.rows[i];
        PrefixKeepsParent(c, t.rows, t'.rows, i);
      } else {
        assert t'.rows[k] == t.rows[k];
        assert NewRow(c, t'.rows[i], links, t.rows[k].depth + 1);
        ChildIsAdmitted(c, t.rows[k].url, t'.rows[i].url);
      }
    }
  }

  lemma {:induction false} GrownKeepsClosed(c: Config, t: Table, t': Table, urls: seq<string>, depth: nat)
    requires Grown(c, t, t', urls, depth)
    ensures Closed(c, t.rows) ==> Closed(c, t'.rows)
    ensures Seeded(c, t.rows) ==> Seeded(c, t'.rows)
  {
    if Closed(c, t.rows) {
      PrefixKeepsClosed(c, t.rows, t'.rows);
    }
    forall u | HasUrl(t.rows, u) ensures HasUrl(t'.rows, u) {
      PrefixKeepsUrls(t.rows, t'.rows, u);
    }
  }

  lemma {:induction false} PrefixKeepsParent(c: Config, rows: seq<Job>, rows': seq<Job>, i: nat)
    requires rows <= rows' && i < |rows| && HasParent(c, rows, i)
    ensures HasParent(c, rows', i)
  {
    if rows[i].depth > 0 {
      var j :| 0 <= j < i && rows[j].depth + 1 == rows[i].depth && rows[i].url in Children(c, rows[j].url);
      assert rows'[j] == rows[j] && rows'[i] == rows[i];
    }
  }

  lemma {:induction false} PrefixKeepsUrls(rows: seq<Job>, rows': seq<Job>, u: string)
    requires rows <= rows' && HasUrl(rows, u)
    ensures HasUrl(rows', u)
  {
    var i :| 0 <= i < |rows| && rows[i].url == u;
    assert rows'[i] == rows[i];
  }

  /** Growing a table keeps every completed job's links present. */
  lemma {:induction false} PrefixKeepsClosed(c: Config, rows: seq<Job>, rows': seq<Job>)
    requires rows <= rows' && Closed(c, rows)
    requires forall i :: |rows| <= i < |rows'| ==> rows'[i].state.Pending?
    ensures Closed(c, rows')
  {
    forall i, u | 0 <= i < |rows'| && MustLink(c, rows'[i]) && u in Children(c, rows'[i].url)
      ensures HasUrl(rows', u)
    {
      assert rows'[i] == rows[i];
      PrefixKeepsUrls(rows, rows', u);
    }
  }

  // --- Updates ---

  /** An UPDATE changes no URL, depth or order. */
  lemma {:induction false} UpdateKeepsUrls(c: Config, u: Update, rows: seq<Job>)
    ensures forall url :: HasUrl(ApplyAll(u, rows), url) <==> HasUrl(rows, url)
    ensures Parented(c, rows) ==> Parented(c, ApplyAll(u, rows))
    ensures Seeded(c, rows) ==> Seeded(c, ApplyAll(u, rows))
  {
    var rows' := ApplyAll(u, rows);
    forall url ensures HasUrl(rows', url) <==> HasUrl(rows, url) {
      if i :| 0 <= i < |rows| && rows[i].url == url {
        assert rows'[i].url == url;
      }
    }
    forall i | Parented(c, rows) && 0 <= i < |rows'| ensures HasParent(c, rows', i) {
      assert HasParent(c, rows, i);
      if rows[i].depth > 0 {
        var j :| 0 <= j < i && rows[j].depth + 1 == rows[i].depth && rows[i].url in Children(c, rows[j].url);
        assert rows'[j].url == rows[j].url;
      }
    }
  }

  lemma {:induction false} UpdateKeepsClosed(c: Config, u: Update, rows: seq<Job>)
    requires Closed(c, rows)
    requires forall i, v :: 0 <= i < |rows| && MustLink(c, Apply(u, rows[i])) && v in Children(c, rows[i].url) ==>
               MustLink(c, rows[i]) || HasUrl(rows, v)
    ensures Closed(c, ApplyAll(u, rows))
  {
    UpdateKeepsUrls(c, u, rows);
  }

  /** An UPDATE that completes only claimed, fully linked jobs keeps the table's invariants. */
  lemma {:induction false} UpdateKeepsTable(c: Config, u: Update, t: Table)
    requires TableInv(c, t)
    requires u.Complete? ==> forall i :: 0 <= i < |t.rows| && t.rows[i].id == u.id ==> t.rows[i].attempts >= 1
    requires u.Complete? && c.maxPages.None? ==>
               forall i :: 0 <= i < |t.rows| && t.rows[i].id == u.id ==> Linked(c, t.rows, t.rows[i])
    ensures TableInv(c, t.(rows := ApplyAll(u, t.rows)))
    ensures Seeded(c, t.rows) ==> Seeded(c, ApplyAll(u, t.rows))
  {
    UpdateKeepsValid(u, t);
    UpdateKeepsUrls(c, u, t.rows);
    if c.maxPages.None? {
      UpdateKeepsClosed(c, u, t.rows);
    }
  }

  /** The index of a row known to be in the table. */
  lemma {:induction false} RowIndex(t: Table, j: Job) returns (i: nat)
    requires IdsGrow(t) && j in t.rows
    ensures i < |t.rows| && t.rows[i] == j
    ensures forall k :: 0 <= k < |t.rows| && t.rows[k].id == j.id ==> k == i
  {
    i :| 0 <= i < |t.rows| && t.rows[i] == j;
  }
}
