/** Every run of the workers is finite, on any site and from any table a crash left behind. */
module CrawlTermination {
  import opened Text
  import opened JobQueue
  import opened Crawl
  import opened CrawlInvariant
  import opened CrawlSteps
  import opened CrawlReach

  // --- The URLs a depth limit leaves within reach ---

  function OneMore<T>(next: T -> set<T>, from: set<T>): set<T> {
    from + set u, v | u in from && v in next(u) :: v
  }

  function Within<T>(next: T -> set<T>, from: set<T>, d: nat): set<T> {
    if d == 0 then from else OneMore(next, Within(next, from, d - 1))
  }

  lemma {:induction false} WithinGrows<T>(next: T -> set<T>, from: set<T>, d: nat, e: nat)
    requires d <= e
    ensures Within(next, from, d) <= Within(next, from, e)
  {
    if d < e {
      WithinGrows(next, from, d, e - 1);
    }
  }

  lemma {:induction false} WithinStep<T>(next: T -> set<T>, from: set<T>, d: nat, u: T, v: T)
    requires u in Within(next, from, d) && v in next(u)
    ensures v in Within(next, from, d + 1)
  {
  }

  function Members<T>(s: seq<T>): set<T> {
    set x | x in s
  }

  function LinkSet(c: Config): string -> set<string> {
    u => Members(Children(c, u))
  }

  /** The finitely many URLs at most `d` links from a seed. */
  function Ball(c: Config, d: nat): set<string> {
    Within(LinkSet(c), Members(c.seeds), d)
  }

  lemma {:induction false} BallGrows(c: Config, d: nat, e: nat, url: string)
    requires d <= e && url in Ball(c, d)
    ensures url in Ball(c, e)
  {
    WithinGrows(LinkSet(c), Members(c.seeds), d, e);
  }

  lemma {:induction false} BallStep(c: Config, d: nat, u: string, v: string)
    requires u in Ball(c, d) && v in Children(c, u)
    ensures v in Ball(c, d + 1)
  {
    assert v in LinkSet(c)(u);
    WithinStep(LinkSet(c), Members(c.seeds), d, u, v);
  }

  lemma {:induction false} PathInBall(c: Config, p: seq<string>, n: nat)
    requires IsPath(c, p) && n < |p|
    ensures p[n] in Ball(c, n)
    decreases n
  {
    if n > 0 {
      PathInBall(c, p, n - 1);
      assert p[(n - 1) + 1] in Children(c, p[n - 1]);
      BallStep(c, n - 1, p[n - 1], p[n]);
    } else {
      assert Ball(c, 0) == Members(c.seeds);
    }
  }

  lemma {:induction false} RowsInBall(c: Config, rows: seq<Job>, i: nat)
    requires Parented(c, rows) && i < |rows|
    ensures rows[i].url in Ball(c, rows[i].depth)
  {
    DepthIsAPath(c, rows, i);
    var p :| IsPath(c, p) && |p| == rows[i].depth + 1 && p[rows[i].depth] == rows[i].url;
    PathInBall(c, p, rows[i].depth);
  }

  /** A crawl never creates more jobs than there are URLs within its depth limit. */
  lemma {:induction false} JobsBounded(c: Config, s: State)
    requires Inv(c, s)
    ensures |s.table.rows| <= |Ball(c, c.maxDepth)|
  {
    var rows := s.table.rows;
    forall i | 0 <= i < |rows| ensures rows[i].url in Ball(c, c.maxDepth) {
      assert OwnRow(c, rows[i]);
      RowsInBall(c, rows, i);
      BallGrows(c, rows[i].depth, c.maxDepth, rows[i].url);
    }
    DistinctUrlsCount(c, rows);
    SubsetSize(Urls(rows), Ball(c, c.maxDepth));
  }

  // --- The measure ---

  const NEW_JOB_WORK := 9

  function Remaining(attempts: nat): nat {
    if attempts >= MAX_ATTEMPTS then 0 else MAX_ATTEMPTS - attempts
  }

  /** Steps a job can still cause: each attempt is a claim, a count and a finish. */
  function JobWork(j: Job): nat {
    match j.state
    case Pending => 3 * if Remaining(j.attempts) == 0 then 1 else Remaining(j.attempts)
    case Leased => 3 * Remaining(j.attempts)
    case _ => 0
  }

  function WorkerWork(w: Worker): nat {
    match w
    case Idle => 1
    case Holding(_, counted) => if counted then 2 else 3
    case _ => 0
  }

  function JobsWork(rows: seq<Job>): nat {
    if rows == [] then 0 else JobsWork(rows[..|rows| - 1]) + JobWork(rows[|rows| - 1])
  }

  function WorkersWork(ws: seq<Worker>): nat {
    if ws == [] then 0 else WorkersWork(ws[..|ws| - 1]) + WorkerWork(ws[|ws| - 1])
  }

  /** Bounds the steps a run has left; of `urls` URLs in all, those unseen are work to come. */
  function Work(urls: nat, s: State): int {
    WorkOf(urls, s.table.rows, s.workers)
  }

  function WorkOf(urls: nat, rows: seq<Job>, ws: seq<Worker>): int {
    NEW_JOB_WORK * (urls - |rows|) + JobsWork(rows) + WorkersWork(ws)
  }

  lemma {:induction false} JobsWorkAt(rows: seq<Job>, rows': seq<Job>, k: nat)
    requires |rows| == |rows'| && k < |rows|
    requires forall i :: 0 <= i < |rows| && i != k ==> rows'[i] == rows[i]
    ensures JobsWork(rows') == JobsWork(rows) - JobWork(rows[k]) + JobWork(rows'[k])
  {
    var n := |rows| - 1;
    if k < n {
      JobsWorkAt(rows[..n], rows'[..n], k);
    } else {
      assert rows'[..n] == rows[..n];
    }
  }

  lemma {:induction false} JobsWorkGrown(rows: seq<Job>, rows': seq<Job>)
    requires rows <= rows'
    requires forall i :: |rows| <= i < |rows'| ==> rows'[i].state.Pending? && rows'[i].attempts == 0
    ensures JobsWork(rows') == JobsWork(rows) + NEW_JOB_WORK * (|rows'| - |rows|)
  {
    if |rows'| == |rows| {
      assert rows' == rows;
    } else {
      JobsWorkGrown(rows, rows'[..|rows'| - 1]);
    }
  }

  lemma {:induction false} WorkersWorkAt(ws: seq<Worker>, w: nat, x: Worker)
    requires w < |ws|
    ensures WorkersWork(ws[w := x]) == WorkersWork(ws) - WorkerWork(ws[w]) + WorkerWork(x)
  {
    var n := |ws| - 1;
    if w < n {
      WorkersWorkAt(ws[..n], w, x);
      assert ws[w := x][..n] == ws[..n][w := x];
    } else {
      assert ws[w := x][..n] == ws[..n];
    }
  }

  /** A worker's progress counts as long as the rows pay for their growth. */
  lemma {:induction false} ProgressUsesWork(urls: nat, rows: seq<Job>, rows': seq<Job>, ws: seq<Worker>, w: nat, x: Worker)
    requires JobsWork(rows') <= JobsWork(rows) + NEW_JOB_WORK * (|rows'| - |rows|)
    requires w < |ws| && WorkerWork(x) < WorkerWork(ws[w])
    ensures WorkOf(urls, rows', ws[w := x]) < WorkOf(urls, rows, ws)
  {
    WorkersWorkAt(ws, w, x);
  }

  // --- Every step but waiting uses up work ---

  predicate Progresses(a: Action) {
    WithinRun(a) && !a.Wait? && !a.Poll?
  }

  lemma {:induction false} TakeUsesWork(urls: nat, c: Config, s: State, w: nat)
    requires ValidTable(s.table) && Enabled(c, s, Take(w))
    ensures Work(urls, Next(c, s, Take(w))) < Work(urls, s)
  {
    var s' := Next(c, s, Take(w));
    var k := FirstReady(s.table.rows, Some(c.scan));
    assert s'.table.rows[k] == Claimed(c, s);
    JobsWorkAt(s.table.rows, s'.table.rows, k);
    WorkersWorkAt(s.workers, w, s'.workers[w]);
  }

  lemma {:induction false} AbortUsesWork(urls: nat, c: Config, s: State, w: nat)
    requires ValidTable(s.table) && Enabled(c, s, Abort(w))
    requires s.workers[w].job in s.table.rows && s.workers[w].job.state.Leased?
    ensures Work(urls, Next(c, s, Abort(w))) < Work(urls, s)
  {
    var s' := Next(c, s, Abort(w));
    var k := RowIndex(s.table, s.workers[w].job);
    JobsWorkAt(s.table.rows, s'.table.rows, k);
    WorkersWorkAt(s.workers, w, Idle);
  }

  /** Completing a job pays for the links it adds: each was work to come. */
  lemma {:induction false} CompleteUsesWork(rows: seq<Job>, grown: seq<Job>, k: nat)
    requires k < |rows| && rows <= grown && IdsGrow(Table(grown, grown[|grown| - 1].id + 1))
    requires forall i :: |rows| <= i < |grown| ==> grown[i].state.Pending? && grown[i].attempts == 0
    ensures JobsWork(ApplyAll(Complete(rows[k].id), grown)) <= JobsWork(rows) + NEW_JOB_WORK * (|grown| - |rows|)
  {
    JobsWorkGrown(rows, grown);
    assert grown[k] == rows[k];
    JobsWorkAt(grown, ApplyAll(Complete(rows[k].id), grown), k);
  }

  lemma {:induction false} ExpandedGrows(c: Config, s: State, job: Job)
    requires ValidTable(s.table) && KeyedRows(c, s.table.rows)
    ensures var t := Expanded(c, s, job);
            && s.table.rows <= t.rows && ValidTable(t)
            && forall i :: |s.table.rows| <= i < |t.rows| ==> t.rows[i].state.Pending? && t.rows[i].attempts == 0
  {
    if Expands(c, s, job) {
      EnqueueAllGrows(c, s.table, Children(c, job.url), job.depth + 1);
    }
  }

  lemma {:induction false} FinishUsesWork(urls: nat, c: Config, s: State, w: nat)
    requires ValidTable(s.table) && KeyedRows(c, s.table.rows) && Enabled(c, s, Finish(w))
    requires s.workers[w].job in s.table.rows
    ensures Work(urls, Next(c, s, Finish(w))) < Work(urls, s)
  {
    var job := s.workers[w].job;
    var k := RowIndex(s.table, job);
    var t := Expanded(c, s, job);
    ExpandedGrows(c, s, job);
    CompleteUsesWork(s.table.rows, t.rows, k);
    ProgressUsesWork(urls, s.table.rows, ApplyAll(Complete(job.id), t.rows), s.workers, w, Idle);
  }

  lemma {:induction false} OtherUsesWork(urls: nat, c: Config, s: State, a: Action)
    requires Enabled(c, s, a) && (a.LeaveAtLimit? || a.LeaveIdle? || a.Count? || a.Wait? || a.Poll?)
    ensures Work(urls, Next(c, s, a)) <= Work(urls, s) - if Progresses(a) then 1 else 0
  {
    assert Next(c, s, a).table.rows == s.table.rows;
    if Progresses(a) {
      var x := Next(c, s, a).workers[a.w];
      assert Next(c, s, a).workers == s.workers[a.w := x];
      ProgressUsesWork(urls, s.table.rows, s.table.rows, s.workers, a.w, x);
    }
  }

  lemma {:induction false} StepUsesWork(urls: nat, c: Config, s: State, a: Action)
    requires Sound(c, s) && Enabled(c, s, a) && WithinRun(a)
    ensures Work(urls, Next(c, s, a)) <= Work(urls, s) - if Progresses(a) then 1 else 0
  {
    match a
    case Take(w) => TakeUsesWork(urls, c, s, w);
    case Finish(w) => FinishUsesWork(urls, c, s, w);
    case Abort(w) => AbortUsesWork(urls, c, s, w);
    case _ => OtherUsesWork(urls, c, s, a);
  }

  function Steps(acts: seq<Action>): nat {
    if acts == [] then 0 else Steps(acts[..|acts| - 1]) + if Progresses(acts[|acts| - 1]) then 1 else 0
  }

  lemma {:induction false} RunUsesWork(urls: nat, c: Config, s: State, acts: seq<Action>)
    requires ValidConfig(c) && Inv(c, s) && Legal(c, s, acts) && OneRun(acts)
    ensures Steps(acts) + Work(urls, After(c, s, acts)) <= Work(urls, s)
    decreases |acts|
  {
    if acts != [] {
      var n := |acts| - 1;
      RunUsesWork(urls, c, s, acts[..n]);
      HistoryKeeps(c, s, acts[..n]);
      StepUsesWork(urls, c, After(c, s, acts[..n]), acts[n]);
    }
  }

  lemma {:induction false} WorkIsBounded(rows: seq<Job>, ws: seq<Worker>)
    ensures JobsWork(rows) <= NEW_JOB_WORK * |rows| && WorkersWork(ws) <= 3 * |ws|
  {
    if rows != [] {
      WorkIsBounded(rows[..|rows| - 1], ws);
    } else if ws != [] {
      WorkIsBounded(rows, ws[..|ws| - 1]);
    }
  }

  /** Termination: from any reachable state a run takes at most this many steps besides waiting,
      however large the site, however the workers interleave, and whatever crash came before. */
  lemma {:induction false} RunTerminates(c: Config, s: State, acts: seq<Action>)
    requires ValidConfig(c) && Inv(c, s) && s.running && Legal(c, s, acts) && OneRun(acts)
    ensures Steps(acts) <= NEW_JOB_WORK * |Ball(c, c.maxDepth)| + 3 * c.workers
  {
    RunUsesWork(|Ball(c, c.maxDepth)|, c, s, acts);
    HistoryKeeps(c, s, acts);
    JobsBounded(c, s);
    JobsBounded(c, After(c, s, acts));
    WorkIsBounded(s.table.rows, s.workers);
  }

  // --- A run that has not ended can go on ---

  /** A page is counted only when it answers. */
  predicate CountedAnswers(c: Config, s: State) {
    forall w :: 0 <= w < |s.workers| && s.workers[w].Holding? && s.workers[w].counted ==> Answers(c, s.workers[w].job.url)
  }

  lemma {:induction false} StepKeepsCounted(c: Config, s: State, a: Action)
    requires CountedAnswers(c, s) && Enabled(c, s, a)
    ensures CountedAnswers(c, Next(c, s, a))
  {
  }

  lemma {:induction false} HistoryKeepsCounted(c: Config, s: State, acts: seq<Action>)
    requires CountedAnswers(c, s) && Legal(c, s, acts)
    ensures CountedAnswers(c, After(c, s, acts))
    decreases |acts|
  {
    if acts != [] {
      var n := |acts| - 1;
      HistoryKeepsCounted(c, s, acts[..n]);
      StepKeepsCounted(c, After(c, s, acts[..n]), acts[n]);
    }
  }

  /** While a worker has not left, some worker can do more than wait, and without an exception. */
  lemma {:induction false} RunGoesOn(c: Config, s: State) returns (a: Action)
    requires WorkersAgree(c, s) && CountedAnswers(c, s) && s.running && !Quiet(s)
    ensures Progresses(a) && !a.Abort? && Enabled(c, s, a)
  {
    CountsBounded(s.workers);
    if w: nat :| w < |s.workers| && s.workers[w].Holding? {
      a := if s.workers[w].counted || !Answers(c, s.workers[w].job.url) then Finish(w) else Count(w);
    } else {
      var w: nat :| w < |s.workers| && s.workers[w].Idle?;
      a := if LimitReached(c, s) then Action.LeaveAtLimit(w) else if AnyReady(c, s) then Take(w) else Action.LeaveIdle(w);
    }
  }

  predicate WithoutFailure(acts: seq<Action>) {
    forall i :: 0 <= i < |acts| ==> !acts[i].Abort?
  }

  predicate Leads(c: Config, s: State, acts: seq<Action>, end: State) {
    Legal(c, s, acts) && After(c, s, acts) == end
  }

  lemma {:induction false} LeadsLast(c: Config, s: State, acts: seq<Action>, end: State) returns (before: State)
    requires Leads(c, s, acts, end) && acts != []
    ensures var n := |acts| - 1;
            Leads(c, s, acts[..n], before) && Enabled(c, before, acts[n]) && end == Next(c, before, acts[n])
  {
    before := After(c, s, acts[..|acts| - 1]);
  }

  lemma {:induction false} LeadsOn(c: Config, s: State, acts: seq<Action>, before: State, a: Action)
    requires Leads(c, s, acts, before) && Enabled(c, before, a)
    ensures Leads(c, s, acts + [a], Next(c, before, a))
  {
    assert (acts + [a])[..|acts|] == acts;
  }

  lemma {:induction false} LeadsJoins(c: Config, s: State, a: seq<Action>, middle: State, b: seq<Action>, end: State)
    requires Leads(c, s, a, middle) && Leads(c, middle, b, end)
    ensures Leads(c, s, a + b, end)
    decreases |b|
  {
    if b == [] {
      assert a + b == a;
    } else {
      var n := |b| - 1;
      var before := LeadsLast(c, middle, b, end);
      assert a + b == (a + b[..n]) + [b[n]];
      LeadsJoins(c, s, a, middle, b[..n], before);
      LeadsOn(c, s, a + b[..n], before, b[n]);
    }
  }

  lemma {:induction false} LegalJoins(c: Config, s: State, a: seq<Action>, b: seq<Action>)
    requires Legal(c, s, a) && Legal(c, After(c, s, a), b)
    ensures Legal(c, s, a + b) && After(c, s, a + b) == After(c, After(c, s, a), b)
  {
    LeadsJoins(c, s, a, After(c, s, a), b, After(c, After(c, s, a), b));
  }

  /** A state a run can reach, on a fixed site. */
  predicate MidRun(c: Config, s: State) {
    Inv(c, s) && CountedAnswers(c, s) && s.running
  }

  lemma {:induction false} RunStep(c: Config, s: State) returns (a: Action)
    requires ValidConfig(c) && MidRun(c, s) && !Quiet(s)
    ensures WithinRun(a) && !a.Abort? && Enabled(c, s, a) && MidRun(c, Next(c, s, a))
    ensures var urls := |Ball(c, c.maxDepth)|; 0 <= Work(urls, Next(c, s, a)) < Work(urls, s)
  {
    a := RunGoesOn(c, s);
    StepUsesWork(|Ball(c, c.maxDepth)|, c, s, a);
    StepKeeps(c, s, a);
    StepKeepsCounted(c, s, a);
    JobsBounded(c, Next(c, s, a));
  }

  lemma {:induction false} OneStep(c: Config, s: State, a: Action)
    requires Enabled(c, s, a)
    ensures Legal(c, s, [a]) && After(c, s, [a]) == Next(c, s, a)
  {
    assert [a][..0] == [];
    assert Legal(c, s, []);
  }

  predicate RestsBy(c: Config, s: State, acts: seq<Action>) {
    Legal(c, s, acts) && OneRun(acts) && WithoutFailure(acts) && Quiet(After(c, s, acts))
  }

  lemma {:induction false} RestsAfter(c: Config, s: State, a: Action, rest: seq<Action>)
    requires Enabled(c, s, a) && WithinRun(a) && !a.Abort? && RestsBy(c, Next(c, s, a), rest)
    ensures RestsBy(c, s, [a] + rest)
  {
    OneStep(c, s, a);
    LegalJoins(c, s, [a], rest);
  }

  /** From any reachable state a run can come to rest, with no job failing on the way. */
  lemma {:induction false} CanComeToRest(c: Config, s: State) returns (acts: seq<Action>)
    requires ValidConfig(c) && MidRun(c, s)
    ensures RestsBy(c, s, acts)
    decreases Work(|Ball(c, c.maxDepth)|, s)
  {
    if Quiet(s) {
      acts := [];
    } else {
      var a := RunStep(c, s);
      var rest := CanComeToRest(c, Next(c, s, a));
      RestsAfter(c, s, a, rest);
      acts := [a] + rest;
    }
  }

  // --- Leases of a fresh run ---

  function Takes(acts: seq<Action>): nat {
    if acts == [] then 0 else Takes(acts[..|acts| - 1]) + if acts[|acts| - 1].Take? then 1 else 0
  }

  function Attempts(rows: seq<Job>): nat {
    if rows == [] then 0 else Attempts(rows[..|rows| - 1]) + rows[|rows| - 1].attempts
  }

  predicate AttemptsBounded(rows: seq<Job>) {
    forall i :: 0 <= i < |rows| ==> rows[i].attempts <= if rows[i].state.Pending? then MAX_ATTEMPTS - 1 else MAX_ATTEMPTS
  }

  lemma {:induction false} AttemptsAt(rows: seq<Job>, rows': seq<Job>, k: nat)
    requires |rows| == |rows'| && k < |rows|
    requires forall i :: 0 <= i < |rows| && i != k ==> rows'[i].attempts == rows[i].attempts
    ensures Attempts(rows') == Attempts(rows) - rows[k].attempts + rows'[k].attempts
  {
    var n := |rows| - 1;
    if k < n {
      AttemptsAt(rows[..n], rows'[..n], k);
    } else {
      AttemptsSame(rows[..n], rows'[..n]);
    }
  }

  lemma {:induction false} AttemptsSame(rows: seq<Job>, rows': seq<Job>)
    requires |rows| == |rows'| && forall i :: 0 <= i < |rows| ==> rows'[i].attempts == rows[i].attempts
    ensures Attempts(rows') == Attempts(rows)
  {
    if rows != [] {
      AttemptsSame(rows[..|rows| - 1], rows'[..|rows| - 1]);
    }
  }

  lemma {:induction false} AttemptsGrown(rows: seq<Job>, rows': seq<Job>)
    requires rows <= rows' && forall i :: |rows| <= i < |rows'| ==> rows'[i].attempts == 0
    ensures Attempts(rows') == Attempts(rows)
  {
    if |rows'| == |rows| {
      assert rows' == rows;
    } else {
      AttemptsGrown(rows, rows'[..|rows'| - 1]);
    }
  }

  lemma {:induction false} TakeCountsAttempts(c: Config, s: State, w: nat)
    requires ValidTable(s.table) && Enabled(c, s, Take(w)) && AttemptsBounded(s.table.rows)
    ensures AttemptsBounded(Next(c, s, Take(w)).table.rows)
    ensures Attempts(Next(c, s, Take(w)).table.rows) == Attempts(s.table.rows) + 1
  {
    var k := FirstReady(s.table.rows, Some(c.scan));
    ClaimOneRow(s.table, k, s.now + LEASE_SECS);
    AttemptsAt(s.table.rows, Next(c, s, Take(w)).table.rows, k);
  }

  lemma {:induction false} StepCountsAttempts(c: Config, s: State, a: Action)
    requires OwnTable(c, s.table) && Enabled(c, s, a) && WithinRun(a) && AttemptsBounded(s.table.rows)
    ensures AttemptsBounded(Next(c, s, a).table.rows)
    ensures Attempts(Next(c, s, a).table.rows) == Attempts(s.table.rows) + if a.Take? then 1 else 0
  {
    var rows, rows' := s.table.rows, Next(c, s, a).table.rows;
    match a
    case Take(w) => TakeCountsAttempts(c, s, w);
    case Finish(w) => FinishCountsAttempts(c, s, w);
    case Abort(w) => AttemptsSame(rows, rows');
    case _ =>
  }

  lemma {:induction false} FinishCountsAttempts(c: Config, s: State, w: nat)
    requires ValidTable(s.table) && KeyedRows(c, s.table.rows)
    requires Enabled(c, s, Finish(w)) && AttemptsBounded(s.table.rows)
    ensures AttemptsBounded(Next(c, s, Finish(w)).table.rows)
    ensures Attempts(Next(c, s, Finish(w)).table.rows) == Attempts(s.table.rows)
  {
    var rows := s.table.rows;
    var job := s.workers[w].job;
    var t := Expanded(c, s, job);
    if Expands(c, s, job) {
      EnqueueAllGrows(c, s.table, Children(c, job.url), job.depth + 1);
    }
    CompleteCountsAttempts(rows, t.rows, job.id);
  }

  lemma {:induction false} CompleteCountsAttempts(rows: seq<Job>, grown: seq<Job>, id: nat)
    requires AttemptsBounded(rows) && rows <= grown
    requires forall i :: |rows| <= i < |grown| ==> grown[i].state.Pending? && grown[i].attempts == 0
    ensures AttemptsBounded(ApplyAll(Complete(id), grown))
    ensures Attempts(ApplyAll(Complete(id), grown)) == Attempts(rows)
  {
    assert forall i :: 0 <= i < |rows| ==> grown[i] == rows[i];
    AttemptsGrown(rows, grown);
    AttemptsSame(grown, ApplyAll(Complete(id), grown));
  }

  lemma {:induction false} RunCountsAttempts(c: Config, s: State, acts: seq<Action>)
    requires ValidConfig(c) && Inv(c, s) && Legal(c, s, acts) && OneRun(acts)
    requires AttemptsBounded(s.table.rows)
    ensures AttemptsBounded(After(c, s, acts).table.rows)
    ensures Attempts(After(c, s, acts).table.rows) == Attempts(s.table.rows) + Takes(acts)
    decreases |acts|
  {
    if acts != [] {
      var n := |acts| - 1;
      RunCountsAttempts(c, s, acts[..n]);
      HistoryKeeps(c, s, acts[..n]);
      StepCountsAttempts(c, After(c, s, acts[..n]), acts[n]);
    }
  }

  lemma {:induction false} AttemptsTotal(rows: seq<Job>)
    requires AttemptsBounded(rows)
    ensures Attempts(rows) <= MAX_ATTEMPTS * |rows|
  {
    if rows != [] {
      AttemptsTotal(rows[..|rows| - 1]);
    }
  }

  lemma {:induction false} FreshStart(c: Config, now: int)
    requires ValidConfig(c)
    ensures var rows := Started(c, Fresh(now)).table.rows;
            AttemptsBounded(rows) && Attempts(rows) == 0
  {
    StartTable(c, Fresh(now), c.seeds);
    var rows := Started(c, Fresh(now)).table.rows;
    forall i | 0 <= i < |rows| ensures rows[i].state.Pending? && rows[i].attempts == 0 {
      assert NewRow(c, rows[i], c.seeds, 0);
    }
    AttemptsGrown([], rows);
  }

  lemma {:induction false} FreshRunCounts(c: Config, now: int, acts: seq<Action>)
    requires ValidConfig(c) && Legal(c, Started(c, Fresh(now)), acts) && OneRun(acts)
    ensures Inv(c, After(c, Started(c, Fresh(now)), acts))
    ensures var rows := After(c, Started(c, Fresh(now)), acts).table.rows;
            AttemptsBounded(rows) && Takes(acts) == Attempts(rows)
  {
    var s := Started(c, Fresh(now));
    StartKeeps(c, Fresh(now));
    FreshStart(c, now);
    RunCountsAttempts(c, s, acts);
    HistoryKeeps(c, s, acts);
  }

  /** A fresh run leases each job at most three times, and in all at most three times per job. */
  lemma {:induction false} FreshRunLeases(c: Config, now: int, acts: seq<Action>)
    requires ValidConfig(c) && Legal(c, Started(c, Fresh(now)), acts) && OneRun(acts)
    ensures var rows := After(c, Started(c, Fresh(now)), acts).table.rows;
            && (forall i :: 0 <= i < |rows| ==> rows[i].attempts <= MAX_ATTEMPTS)
            && Takes(acts) <= MAX_ATTEMPTS * |rows|
            && |rows| <= |Ball(c, c.maxDepth)|
  {
    FreshRunCounts(c, now, acts);
    AttemptsTotal(After(c, Started(c, Fresh(now)), acts).table.rows);
    JobsBounded(c, After(c, Started(c, Fresh(now)), acts));
  }
}
