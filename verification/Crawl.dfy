/** The crawl engine of `src/audit/crawler/orchestrator.py` as a transition system.

    Workers are cooperative coroutines, so one step is the code between two awaits.  What a
    page turns out to be is a parameter: a page answers with its links, or not at all. */
module Crawl {
  import opened Text
  import opened JobQueue

  datatype Config = Config(
    scan: nat,
    seeds: seq<string>,             // entry URL, then the search page when one is configured
    workers: nat,
    maxDepth: nat,
    maxPages: Option<nat>,
    inScope: string -> bool,
    blocked: string -> bool,        // blocklist patterns and excluded scopes
    robots: string -> bool,
    page: string -> Option<seq<string>>)  // None: the fetch failed; links are normalized

  const LEASE_SECS := 120

  /** Where one worker coroutine is suspended. */
  datatype Worker =
    | Idle
    | Holding(job: Job, counted: bool)
    | LeftIdle
    | LeftAtLimit

  datatype State = State(
    table: Table,
    workers: seq<Worker>,
    inFlight: int,
    pages: nat,
    now: int,
    running: bool)

  datatype Action =
    | Wait(now: int, nextId: nat)   // time passes; other scans take ids
    | Take(w: nat)
    | LeaveAtLimit(w: nat)
    | LeaveIdle(w: nat)
    | Poll(w: nat)
    | Count(w: nat)                 // the page came back and is counted
    | Finish(w: nat)                // links enqueued, job completed
    | Abort(w: nat)                 // an exception: the job is failed
    | Start
    | Crash
    | CrashInStart(kept: nat)       // dies after enqueuing only `kept` seeds
    | CrashInFinish(w: nat, kept: nat)  // dies after enqueuing only `kept` links

  // --- Pages and links ---

  predicate Admitted(c: Config, url: string) {
    c.inScope(url) && !c.blocked(url)
  }

  predicate Visitable(c: Config, url: string) {
    Admitted(c, url) && c.robots(url)
  }

  /** Whether processing `url` ends with a page to count. */
  predicate Answers(c: Config, url: string) {
    Visitable(c, url) && c.page(url).Some?
  }

  function Admissible(c: Config, links: seq<string>): seq<string>
    decreases |links|
  {
    if links == [] then []
    else
      var last := links[|links| - 1];
      Admissible(c, links[..|links| - 1]) + if Admitted(c, last) then [last] else []
  }

  /** The URLs the crawl may reach from `url` in one link. */
  function Children(c: Config, url: string): seq<string> {
    if Answers(c, url) then Admissible(c, c.page(url).value) else []
  }

  lemma {:induction false} AdmissibleIs(c: Config, links: seq<string>, url: string)
    ensures url in Admissible(c, links) <==> url in links && Admitted(c, url)
    decreases |links|
  {
    if links != [] {
      AdmissibleIs(c, links[..|links| - 1], url);
    }
  }

  lemma {:induction false} ChildIsAdmitted(c: Config, url: string, child: string)
    requires child in Children(c, url)
    ensures Answers(c, url) && Admitted(c, child)
  {
    AdmissibleIs(c, c.page(url).value, child);
  }

  // --- Steps ---

  predicate LimitReached(c: Config, s: State) {
    c.maxPages.Some? && s.pages >= c.maxPages.value
  }

  predicate Expands(c: Config, s: State, job: Job) {
    Answers(c, job.url) && job.depth < c.maxDepth && !LimitReached(c, s)
  }

  function Enqueue(c: Config, t: Table, url: string, depth: nat): Table {
    Insert(t, c.scan, url, depth, Some(DedupeKey(c.scan, url)))
  }

  function EnqueueAll(c: Config, t: Table, urls: seq<string>, depth: nat): Table
    decreases |urls|
  {
    if urls == [] then t
    else Enqueue(c, EnqueueAll(c, t, urls[..|urls| - 1], depth), urls[|urls| - 1], depth)
  }

  function Purge(c: Config, rows: seq<Job>): seq<Job>
    decreases |rows|
  {
    if rows == [] then []
    else
      var last := rows[|rows| - 1];
      Purge(c, rows[..|rows| - 1]) + if last.state.Pending? && !c.inScope(last.url) then [] else [last]
  }

  function AnyReady(c: Config, s: State): bool {
    FirstReady(s.table.rows, Some(c.scan)) < |s.table.rows|
  }

  predicate IsIdle(s: State, w: nat) {
    s.running && w < |s.workers| && s.workers[w].Idle?
  }

  predicate IsHolding(s: State, w: nat) {
    s.running && w < |s.workers| && s.workers[w].Holding?
  }

  predicate Enabled(c: Config, s: State, a: Action) {
    match a
    case Wait(now, nextId) => s.now <= now && s.table.nextId <= nextId
    case Take(w) => IsIdle(s, w) && !LimitReached(c, s) && AnyReady(c, s)
    case LeaveAtLimit(w) => IsIdle(s, w) && LimitReached(c, s)
    case LeaveIdle(w) => IsIdle(s, w) && !LimitReached(c, s) && !AnyReady(c, s) && s.inFlight == 0
    case Poll(w) => IsIdle(s, w) && !LimitReached(c, s) && !AnyReady(c, s) && s.inFlight != 0
    case Count(w) => IsHolding(s, w) && !s.workers[w].counted && Answers(c, s.workers[w].job.url)
    case Finish(w) => IsHolding(s, w) && s.workers[w].counted == Answers(c, s.workers[w].job.url)
    case Abort(w) => IsHolding(s, w)
    case Start => !s.running
    case Crash => s.running
    case CrashInStart(kept) => !s.running && kept <= |c.seeds|
    case CrashInFinish(w, kept) =>
      && IsHolding(s, w)
      && s.workers[w].counted
      && Expands(c, s, s.workers[w].job)
      && kept <= |Children(c, s.workers[w].job.url)|
  }

  function Claimed(c: Config, s: State): Job
    requires AnyReady(c, s)
  {
    var row := s.table.rows[FirstReady(s.table.rows, Some(c.scan))];
    row.(state := Leased, leaseUntil := Some(s.now + LEASE_SECS), attempts := row.attempts + 1)
  }

  /** The table after the links of a finished job are enqueued, before it is completed. */
  function Expanded(c: Config, s: State, job: Job): Table {
    if Expands(c, s, job) then EnqueueAll(c, s.table, Children(c, job.url), job.depth + 1) else s.table
  }

  function Halted(s: State, t: Table): State {
    s.(table := t, workers := [], inFlight := 0, running := false)
  }

  /** The table a start works on: expired leases freed, out-of-scope pending jobs dropped. */
  function Recovered(c: Config, s: State): Table {
    s.table.(rows := Purge(c, ApplyAll(Reclaim(s.now), s.table.rows)))
  }

  function Started(c: Config, s: State): State {
    State(EnqueueAll(c, Recovered(c, s), c.seeds, 0), seq(c.workers, _ => Idle), 0, 0, s.now, true)
  }

  function Next(c: Config, s: State, a: Action): State
    requires Enabled(c, s, a)
  {
    match a
    case Wait(now, nextId) => s.(now := now, table := s.table.(nextId := nextId))
    case Take(w) =>
      var job := Claimed(c, s);
      s.(table := s.table.(rows := ApplyAll(Claim(job.id, s.now + LEASE_SECS), s.table.rows)),
         workers := s.workers[w := Holding(job, false)],
         inFlight := s.inFlight + 1)
    case LeaveAtLimit(w) => s.(workers := s.workers[w := Worker.LeftAtLimit])
    case LeaveIdle(w) => s.(workers := s.workers[w := Worker.LeftIdle])
    case Poll(w) => s
    case Count(w) => s.(workers := s.workers[w := s.workers[w].(counted := true)], pages := s.pages + 1)
    case Finish(w) =>
      var job := s.workers[w].job;
      var t := Expanded(c, s, job);
      s.(table := t.(rows := ApplyAll(Complete(job.id), t.rows)),
         workers := s.workers[w := Idle],
         inFlight := s.inFlight - 1)
    case Abort(w) =>
      s.(table := s.table.(rows := ApplyAll(Update.Fail(s.workers[w].job.id), s.table.rows)),
         workers := s.workers[w := Idle],
         inFlight := s.inFlight - 1)
    case Start => Started(c, s)
    case Crash => Halted(s, s.table)
    case CrashInStart(kept) => Halted(s, EnqueueAll(c, Recovered(c, s), c.seeds[..kept], 0))
    case CrashInFinish(w, kept) =>
      var job := s.workers[w].job;
      Halted(s, EnqueueAll(c, s.table, Children(c, job.url)[..kept], job.depth + 1))
  }

  // --- Histories ---

  function Fresh(now: int): State {
    State(Table([], 1), [], 0, 0, now, false)
  }

  /** `acts` is a legal history from `s`. */
  predicate Legal(c: Config, s: State, acts: seq<Action>)
    decreases |acts|, 0
  {
    acts == [] ||
    (var n := |acts| - 1;
     Legal(c, s, acts[..n]) && Enabled(c, After(c, s, acts[..n]), acts[n]))
  }

  /** The state a legal history leads to. */
  function After(c: Config, s: State, acts: seq<Action>): State
    requires Legal(c, s, acts)
    decreases |acts|, 1
  {
    if acts == [] then s
    else
      var n := |acts| - 1;
      Next(c, After(c, s, acts[..n]), acts[n])
  }

  predicate LeasesExpired(s: State) {
    forall i :: 0 <= i < |s.table.rows| && s.table.rows[i].leaseUntil.Some? ==>
      s.table.rows[i].leaseUntil.value < s.now
  }

  /** Every start waits until the leases of a dead run have run out. */
  predicate Patient(c: Config, s: State, acts: seq<Action>)
    requires Legal(c, s, acts)
    decreases |acts|
  {
    acts == [] ||
    (var n := |acts| - 1;
     Patient(c, s, acts[..n]) && (acts[n].Start? || acts[n].CrashInStart? ==> LeasesExpired(After(c, s, acts[..n]))))
  }

  predicate WithinRun(a: Action) {
    !a.Start? && !a.Crash? && !a.CrashInStart? && !a.CrashInFinish?
  }

  /** A history with no start and no crash: what one run of the workers does. */
  predicate OneRun(acts: seq<Action>) {
    forall i :: 0 <= i < |acts| ==> WithinRun(acts[i])
  }

  /** Every worker has returned. */
  predicate Quiet(s: State) {
    s.running && forall w :: 0 <= w < |s.workers| ==> s.workers[w].LeftIdle? || s.workers[w].LeftAtLimit?
  }

  predicate NoneFailed(s: State) {
    forall i :: 0 <= i < |s.table.rows| ==> !s.table.rows[i].state.Failed?
  }

  /** A crawl from scratch, restarted any number of times, that came to rest with no job failed. */
  predicate CameToRest(c: Config, now: int, acts: seq<Action>) {
    && Legal(c, Fresh(now), acts)
    && Patient(c, Fresh(now), acts)
    && Quiet(After(c, Fresh(now), acts))
    && NoneFailed(After(c, Fresh(now), acts))
  }

  /** The jobs a crawl from scratch leaves behind. */
  function FinalRows(c: Config, now: int, acts: seq<Action>): seq<Job>
    requires Legal(c, Fresh(now), acts)
  {
    After(c, Fresh(now), acts).table.rows
  }

  // --- The link graph ---

  predicate IsPath(c: Config, p: seq<string>) {
    && p != []
    && p[0] in c.seeds
    && forall i :: 0 <= i < |p| - 1 ==> p[i + 1] in Children(c, p[i])
  }

  /** `url` is reachable in `d` links from a seed. */
  ghost predicate ReachedIn(c: Config, url: string, d: nat) {
    exists p :: IsPath(c, p) && |p| == d + 1 && p[d] == url
  }

  ghost predicate Reachable(c: Config, url: string) {
    exists d: nat :: ReachedIn(c, url, d)
  }

  /** `d` is the link distance of `url`. */
  ghost predicate IsDistance(c: Config, url: string, d: nat) {
    ReachedIn(c, url, d) && forall e: nat :: ReachedIn(c, url, e) ==> d <= e
  }

  predicate HasUrl(rows: seq<Job>, url: string) {
    exists i :: 0 <= i < |rows| && rows[i].url == url
  }

  function Holders(ws: seq<Worker>): nat {
    if ws == [] then 0 else Holders(ws[..|ws| - 1]) + if ws[|ws| - 1].Holding? then 1 else 0
  }

  function Uncounted(ws: seq<Worker>): nat {
    if ws == [] then 0
    else Uncounted(ws[..|ws| - 1]) + if ws[|ws| - 1].Holding? && !ws[|ws| - 1].counted then 1 else 0
  }
}
