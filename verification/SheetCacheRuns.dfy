/** Whole runs of the shared sheet cache: it answers as direct recursive fetching would, it never
    deadlocks, and every run is short. */
module SheetCacheRuns {
  import opened Text
  import opened StyleText
  import opened SheetFetch
  import opened SheetCache
  import opened SheetCacheSteps

  function Value(w: Web, url: string): Option<Css> {
    Direct(w, url, 0)
  }

  // --- Raised requests ---

  /** A request that raised lies on a chain of at most `n` imports from `url`. */
  predicate Tainted(w: Web, url: string, raised: set<string>, n: nat)
    decreases n, 1
  {
    url in raised || Inside(w, url, raised, n)
  }

  /** As `Tainted`, but strictly below `url`. */
  predicate Inside(w: Web, url: string, raised: set<string>, n: nat)
    decreases n, 0
  {
    exists i :: 0 <= i < |ImportsOf(w, url)| && n > 0 && Tainted(w, Target(w, url, i), raised, n - 1)
  }

  lemma {:induction false} TaintedMore(w: Web, url: string, a: set<string>, b: set<string>, n: nat, m: nat)
    requires Tainted(w, url, a, n) && a <= b && n <= m
    ensures Tainted(w, url, b, m)
    ensures Inside(w, url, a, n) ==> Inside(w, url, b, m)
    decreases n
  {
    if Inside(w, url, a, n) {
      var i :| 0 <= i < |ImportsOf(w, url)| && n > 0 && Tainted(w, Target(w, url, i), a, n - 1);
      TaintedMore(w, Target(w, url, i), a, b, n - 1, m - 1);
    }
  }

  /** Chains below a shallow address are no longer than they can be. */
  lemma {:induction false} TaintedWithin(w: Web, url: string, raised: set<string>, n: nat, m: nat)
    requires Tainted(w, url, raised, n) && Shallow(w, url, m)
    ensures Tainted(w, url, raised, m)
    decreases n
  {
    if url !in raised {
      var i :| 0 <= i < |ImportsOf(w, url)| && n > 0 && Tainted(w, Target(w, url, i), raised, n - 1);
      TaintedWithin(w, Target(w, url, i), raised, n - 1, m - 1);
    }
  }

  /** The value direct fetching gives, or a miss a raised request explains. */
  predicate Right(w: Web, raised: set<string>, url: string, value: Option<Css>) {
    value == Value(w, url) || (value.None? && Tainted(w, url, raised, MAX_IMPORT_DEPTH))
  }

  predicate RightKept(w: Web, raised: set<string>, url: string, value: Option<Css>) {
    value == Value(w, url) || (value.None? && Inside(w, url, raised, MAX_IMPORT_DEPTH))
  }

  // --- The invariant on values ---

  predicate RightFrame(w: Web, raised: set<string>, f: Frame) {
    && f.depth <= MAX_IMPORT_DEPTH && Shallow(w, f.url, MAX_IMPORT_DEPTH - f.depth)
    && (f.phase.Importing? ==> RightSoFar(w, f))
    && (f.phase.Ready? ==> Right(w, raised, f.url, f.phase.value))
  }

  predicate RightSoFar(w: Web, f: Frame)
    requires f.depth <= MAX_IMPORT_DEPTH && f.phase.Importing?
  {
    && w.respond(f.url).Sheet? && f.phase.next <= |ImportsOf(w, f.url)|
    && Joined(Some(f.phase.pieces), DirectFrom(w, f.url, f.phase.next, f.depth)) == DirectFrom(w, f.url, 0, f.depth)
  }

  predicate RightTask(w: Web, raised: set<string>, task: Task) {
    forall i :: 0 <= i < |task| ==> RightFrame(w, raised, task[i])
  }

  predicate Refines(w: Web, s: State) {
    && (forall u :: u in s.cache.done ==> RightKept(w, s.raised, u, s.cache.done[u]))
    && (forall t :: 0 <= t < |s.tasks| ==> RightTask(w, s.raised, s.tasks[t]))
  }

  lemma {:induction false} SetTopRefines(w: Web, s: State, t: nat, phase: Phase)
    requires Refines(w, s) && t < |s.tasks| && s.tasks[t] != []
    requires RightFrame(w, s.raised, Top(s.tasks[t]).(phase := phase))
    ensures Refines(w, SetTop(s, t, phase))
  {
  }

  lemma {:induction false} FinishRefines(w: Web, s: State, t: nat, value: Option<Css>, keep: bool)
    requires Refines(w, s) && t < |s.tasks| && s.tasks[t] != []
    requires Right(w, s.raised, Top(s.tasks[t]).url, value)
    requires keep ==> RightKept(w, s.raised, Top(s.tasks[t]).url, value)
    ensures Refines(w, Finish(w, s, t, value, keep))
  {
    var r := Finish(w, s, t, value, keep);
    forall x, i | 0 <= x < |s.tasks| && 0 <= i < |s.tasks[x]| ensures RightFrame(w, r.raised, r.tasks[x][i]) {
      assert RightFrame(w, s.raised, s.tasks[x][i]);
    }
  }

  lemma {:induction false} RaisedRefines(w: Web, s: State, raised: set<string>)
    requires Refines(w, s) && s.raised <= raised
    ensures Refines(w, s.(raised := raised))
  {
    var r := s.(raised := raised);
    forall u | u in s.cache.done ensures RightKept(w, raised, u, s.cache.done[u]) {
      if Inside(w, u, s.raised, MAX_IMPORT_DEPTH) {
        TaintedMore(w, u, s.raised, raised, MAX_IMPORT_DEPTH, MAX_IMPORT_DEPTH);
      }
    }
    forall x, i | 0 <= x < |s.tasks| && 0 <= i < |s.tasks[x]| ensures RightFrame(w, raised, r.tasks[x][i]) {
      var f := s.tasks[x][i];
      assert RightFrame(w, s.raised, f);
      if f.phase.Ready? && Tainted(w, f.url, s.raised, MAX_IMPORT_DEPTH) {
        TaintedMore(w, f.url, s.raised, raised, MAX_IMPORT_DEPTH, MAX_IMPORT_DEPTH);
      }
    }
  }

  // --- Steps ---

  lemma {:induction false} EnterRefines(w: Web, s: State, t: nat)
    requires Refines(w, s) && CanStep(s, Enter(t))
    ensures Refines(w, AfterEnter(s, t))
  {
    var f := Top(s.tasks[t]);
    assert RightFrame(w, s.raised, f);
    if f.url in s.cache.done {
      SetTopRefines(w, s, t, Ready(s.cache.done[f.url]));
    } else if f.url in s.cache.pending {
      SetTopRefines(w, s, t, Waiting);
    } else {
      SetTopRefines(w, s, t, Requesting);
    }
  }

  lemma {:induction false} RespondRefines(w: Web, s: State, t: nat, raises: bool)
    requires Refines(w, s) && CanStep(s, Respond(t, raises))
    ensures Refines(w, AfterRespond(w, s, t, raises))
  {
    var f := Top(s.tasks[t]);
    assert RightFrame(w, s.raised, f);
    if raises {
      var marked := s.(raised := s.raised + {f.url});
      RaisedRefines(w, s, marked.raised);
      FinishRefines(w, marked, t, None, false);
    } else if w.respond(f.url).Unusable? {
      FinishRefines(w, s, t, None, true);
    } else {
      JoinedNothing(DirectFrom(w, f.url, 0, f.depth));
      SetTopRefines(w, s, t, Importing([], 0));
    }
  }

  lemma {:induction false} AdvanceRefines(w: Web, s: State, t: nat)
    requires Refines(w, s) && CanStep(s, Advance(t))
    ensures Refines(w, AfterAdvance(w, s, t))
  {
    var f := Top(s.tasks[t]);
    assert RightFrame(w, s.raised, f);
    if f.phase.next >= |ImportsOf(w, f.url)| {
      assert f.phase.pieces + [] == f.phase.pieces;
      DepthIsIrrelevant(w, f.url, MAX_IMPORT_DEPTH - f.depth, f.depth, 0);
      FinishRefines(w, s, t, Closed(w, Some(f.phase.pieces), RestOf(w, f.url)), true);
    } else {
      var child := Frame(Target(w, f.url, f.phase.next), f.depth + 1, Entering);
      assert RightFrame(w, s.raised, child);
    }
  }

  /** What an inner call's value makes of the sheet that asked for it. */
  lemma {:induction false} ReturnIsRight(w: Web, raised: set<string>, f: Frame, inner: Frame)
    requires RightFrame(w, raised, f) && RightFrame(w, raised, inner)
    requires Calls(w, f, inner) && inner.depth == f.depth + 1 && inner.phase.Ready?
    ensures match inner.phase.value
            case None => RightKept(w, raised, f.url, None)
            case Some(css) =>
              RightSoFar(w, f.(phase := Importing(
                f.phase.pieces + Wrapped(css, ConditionsOf(w, f.url, f.phase.next)), f.phase.next + 1)))
  {
    var k, n := f.phase.next, MAX_IMPORT_DEPTH - f.depth;
    var u := inner.url;
    DepthIsIrrelevant(w, u, n - 1, inner.depth, 0);
    DepthIsIrrelevant(w, f.url, n, f.depth, 0);
    match inner.phase.value
    case None =>
      if Value(w, u).Some? {
        TaintedWithin(w, u, raised, MAX_IMPORT_DEPTH, n - 1);
        assert Inside(w, f.url, raised, n);
        TaintedMore(w, f.url, raised, raised, n, MAX_IMPORT_DEPTH);
      } else {
        assert DirectWrapped(w, f.url, k, f.depth) == None;
        assert DirectFrom(w, f.url, k, f.depth) == None;
        assert Direct(w, f.url, f.depth) == None;
      }
    case Some(css) =>
      var piece := Wrapped(css, ConditionsOf(w, f.url, k));
      assert Direct(w, u, f.depth + 1) == Some(css);
      assert DirectWrapped(w, f.url, k, f.depth) == Some(piece);
      assert DirectFrom(w, f.url, k, f.depth) == Joined(Some(piece), DirectFrom(w, f.url, k + 1, f.depth));
      JoinedAssociates(f.phase.pieces, piece, DirectFrom(w, f.url, k + 1, f.depth));
  }

  lemma {:induction false} JoinedNothing(c: Option<Css>)
    ensures Joined(Some([]), c) == c
  {
    if c.Some? {
      assert [] + c.value == c.value;
    }
  }

  lemma {:induction false} JoinedAssociates(a: Css, b: Css, c: Option<Css>)
    ensures Joined(Some(a), Joined(Some(b), c)) == Joined(Some(a + b), c)
  {
    if c.Some? {
      assert a + (b + c.value) == (a + b) + c.value;
    }
  }

  lemma {:induction false} ReturnRefines(w: Web, s: State, t: nat)
    requires Inv(w, s) && Refines(w, s) && CanStep(s, Return(t))
    ensures Refines(w, AfterReturn(w, s, t))
  {
    var task := s.tasks[t];
    var top := |task| - 1;
    var f, inner := task[top - 1], task[top];
    ReturnFrames(w, s, t);
    ReturnIsRight(w, s.raised, f, inner);
    var under := Popped(s, t);
    PoppedRefines(w, s, t);
    match inner.phase.value
    case None => FinishRefines(w, under, t, None, true);
    case Some(css) =>
      SetTopRefines(w, under, t,
                    Importing(f.phase.pieces + Wrapped(css, ConditionsOf(w, f.url, f.phase.next)), f.phase.next + 1));
  }

  lemma {:induction false} ReturnFrames(w: Web, s: State, t: nat)
    requires Inv(w, s) && Refines(w, s) && CanStep(s, Return(t))
    ensures var task := s.tasks[t];
            var f, inner := task[|task| - 2], task[|task| - 1];
            && RightFrame(w, s.raised, f) && RightFrame(w, s.raised, inner)
            && Calls(w, f, inner) && inner.depth == f.depth + 1
  {
    var task := s.tasks[t];
    assert GoodFrame(w, s.cache, task, t, |task| - 2) && GoodFrame(w, s.cache, task, t, |task| - 1);
    assert RightTask(w, s.raised, task);
  }

  lemma {:induction false} PoppedRefines(w: Web, s: State, t: nat)
    requires Refines(w, s) && CanStep(s, Return(t))
    ensures Refines(w, Popped(s, t)) && Top(Popped(s, t).tasks[t]) == s.tasks[t][|s.tasks[t]| - 2]
  {
    var under := Popped(s, t);
    forall x | 0 <= x < |under.tasks| ensures RightTask(w, s.raised, under.tasks[x]) {
      assert RightTask(w, s.raised, s.tasks[x]);
    }
  }

  lemma {:induction false} StepRefines(w: Web, s: State, step: Step)
    requires Inv(w, s) && Refines(w, s) && CanStep(s, step)
    ensures Refines(w, After(w, s, step))
  {
    match step
    case Enter(t) => EnterRefines(w, s, t);
    case Respond(t, raises) => RespondRefines(w, s, t, raises);
    case Advance(t) => AdvanceRefines(w, s, t);
    case Return(t) => ReturnRefines(w, s, t);
  }

  lemma {:induction false} RunRefines(w: Web, s: State, steps: seq<Step>)
    requires Inv(w, s) && Refines(w, s) && Runs(w, s, steps)
    ensures Refines(w, AfterAll(w, s, steps))
    decreases |steps|
  {
    if steps != [] {
      StepKeeps(w, s, steps[0]);
      StepRefines(w, s, steps[0]);
      RunRefines(w, After(w, s, steps[0]), steps[1..]);
    }
  }

  predicate AllShallow(w: Web, urls: seq<string>) {
    forall i :: 0 <= i < |urls| ==> Shallow(w, urls[i], MAX_IMPORT_DEPTH)
  }

  lemma {:induction false} StartRefines(w: Web, urls: seq<string>)
    requires AllShallow(w, urls)
    ensures Refines(w, Start(urls))
  {
  }

  /** In every interleaving, a caller that has its answer has what direct fetching gives, and so has the
      cache; a miss is otherwise explained by a request that raised, and a miss is kept only for a
      raise strictly below the address. */
  lemma {:induction false} CacheRefinesDirect(w: Web, urls: seq<string>, steps: seq<Step>)
    requires AllShallow(w, urls) && Runs(w, Start(urls), steps)
    ensures var s := AfterAll(w, Start(urls), steps);
            && |s.tasks| == |urls|
            && (forall u :: u in s.cache.done ==> RightKept(w, s.raised, u, s.cache.done[u]))
            && (forall t :: 0 <= t < |urls| && Finished(s.tasks[t]) ==>
                  Right(w, s.raised, urls[t], s.tasks[t][0].phase.value))
  {
    StartIsGood(w, urls);
    StartRefines(w, urls);
    RunRefines(w, Start(urls), steps);
    TasksStay(w, Start(urls), steps);
    var s := AfterAll(w, Start(urls), steps);
    forall t | 0 <= t < |urls| && Finished(s.tasks[t])
      ensures Right(w, s.raised, urls[t], s.tasks[t][0].phase.value)
    {
      assert RightFrame(w, s.raised, s.tasks[t][0]);
      assert SameCaller(Start(urls).tasks[t], s.tasks[t]);
    }
  }

  /** Without raised requests the shared cache and direct fetching agree exactly. */
  lemma {:induction false} CacheIsDirect(w: Web, urls: seq<string>, steps: seq<Step>)
    requires AllShallow(w, urls) && Runs(w, Start(urls), steps)
    requires AfterAll(w, Start(urls), steps).raised == {}
    ensures var s := AfterAll(w, Start(urls), steps);
            && |s.tasks| == |urls|
            && (forall u :: u in s.cache.done ==> s.cache.done[u] == Direct(w, u, 0))
            && (forall t :: 0 <= t < |urls| && Finished(s.tasks[t]) ==> s.tasks[t][0].phase.value == Direct(w, urls[t], 0))
  {
    CacheRefinesDirect(w, urls, steps);
    var s := AfterAll(w, Start(urls), steps);
    forall u | u in s.cache.done ensures s.cache.done[u] == Direct(w, u, 0) {
      NothingTainted(w, u, MAX_IMPORT_DEPTH);
    }
    forall t | 0 <= t < |urls| && Finished(s.tasks[t]) ensures s.tasks[t][0].phase.value == Direct(w, urls[t], 0) {
      NothingTainted(w, urls[t], MAX_IMPORT_DEPTH);
    }
  }

  lemma {:induction false} NothingTainted(w: Web, url: string, n: nat)
    ensures !Tainted(w, url, {}, n)
    decreases n
  {
    forall i | 0 <= i < |ImportsOf(w, url)| && n > 0 ensures !Tainted(w, Target(w, url, i), {}, n - 1) {
      NothingTainted(w, Target(w, url, i), n - 1);
    }
  }

  predicate SameCaller(a: Task, b: Task) {
    a != [] && b != [] && a[0].url == b[0].url
  }

  predicate SameCallers(a: seq<Task>, b: seq<Task>) {
    |a| == |b| && forall t :: 0 <= t < |a| ==> SameCaller(a[t], b[t])
  }

  lemma {:induction false} FinishStays(w: Web, s: State, t: nat, value: Option<Css>, keep: bool)
    requires t < |s.tasks| && SameCallers(s.tasks, s.tasks)
    ensures SameCallers(s.tasks, Finish(w, s, t, value, keep).tasks)
  {
    var r := Finish(w, s, t, value, keep);
    forall x | 0 <= x < |s.tasks| ensures SameCaller(s.tasks[x], r.tasks[x]) {
      assert SameCaller(s.tasks[x], s.tasks[x]);
    }
  }

  lemma {:induction false} StepStays(w: Web, s: State, step: Step)
    requires CanStep(s, step) && SameCallers(s.tasks, s.tasks)
    ensures SameCallers(s.tasks, After(w, s, step).tasks)
  {
    var t := step.task;
    match step
    case Enter(_) =>
    case Respond(_, raises) =>
      FinishStays(w, s, t, None, !raises);
    case Advance(_) =>
      var f := Top(s.tasks[t]);
      FinishStays(w, s, t, None, true);
      FinishStays(w, s, t, Closed(w, Some(f.phase.pieces), RestOf(w, f.url)), true);
    case Return(_) =>
      var under := Popped(s, t);
      assert SameCallers(s.tasks, under.tasks);
      assert SameCallers(under.tasks, under.tasks);
      FinishStays(w, under, t, None, true);
  }

  lemma {:induction false} TasksStay(w: Web, s: State, steps: seq<Step>)
    requires Runs(w, s, steps) && SameCallers(s.tasks, s.tasks)
    ensures SameCallers(s.tasks, AfterAll(w, s, steps).tasks)
    decreases |steps|
  {
    if steps != [] {
      var next := After(w, s, steps[0]);
      StepStays(w, s, steps[0]);
      assert SameCallers(next.tasks, next.tasks);
      TasksStay(w, next, steps[1..]);
    }
  }

  // --- No deadlock ---

  /** The longest chain of imports below an address. */
  function Height(w: Web, url: string, n: nat): (h: nat)
    requires Shallow(w, url, n)
    ensures h <= n && Shallow(w, url, h)
    ensures forall m: nat :: Shallow(w, url, m) ==> h <= m
  {
    if n == 0 || !Shallow(w, url, n - 1) then HeightIs(w, url, n); n else Height(w, url, n - 1)
  }

  lemma {:induction false} HeightIs(w: Web, url: string, n: nat)
    requires n == 0 || !Shallow(w, url, n - 1)
    ensures forall m: nat :: Shallow(w, url, m) ==> n <= m
  {
    forall m: nat | Shallow(w, url, m) ensures n <= m {
      if m < n {
        ShallowMore(w, url, m, n - 1);
      }
    }
  }

  function Tall(w: Web, f: Frame): nat
    requires f.depth <= MAX_IMPORT_DEPTH && Shallow(w, f.url, MAX_IMPORT_DEPTH - f.depth)
  {
    Height(w, f.url, MAX_IMPORT_DEPTH - f.depth)
  }

  lemma {:induction false} CallDescends(w: Web, f: Frame, inner: Frame)
    requires f.depth <= MAX_IMPORT_DEPTH && Shallow(w, f.url, MAX_IMPORT_DEPTH - f.depth)
    requires inner.depth <= MAX_IMPORT_DEPTH && Shallow(w, inner.url, MAX_IMPORT_DEPTH - inner.depth)
    requires Calls(w, f, inner)
    ensures Tall(w, inner) < Tall(w, f)
  {
    assert Shallow(w, f.url, Tall(w, f));
    assert Shallow(w, Target(w, f.url, f.phase.next), Tall(w, f) - 1);
  }

  lemma {:induction false} StackDescends(w: Web, s: State, t: nat, i: nat)
    requires Inv(w, s) && Refines(w, s) && t < |s.tasks| && i < |s.tasks[t]|
    ensures RightFrame(w, s.raised, s.tasks[t][i]) && RightFrame(w, s.raised, Top(s.tasks[t]))
    ensures i < |s.tasks[t]| - 1 ==> Tall(w, Top(s.tasks[t])) < Tall(w, s.tasks[t][i])
    decreases |s.tasks[t]| - i
  {
    var task := s.tasks[t];
    assert RightFrame(w, s.raised, task[i]);
    assert GoodFrame(w, s.cache, task, t, i);
    if i < |task| - 1 {
      StackDescends(w, s, t, i + 1);
      CallDescends(w, task[i], task[i + 1]);
    }
  }

  ghost predicate SomeStep(s: State) {
    exists step :: CanStep(s, step)
  }

  /** A call that waits leads to a task that can move: heights fall along every chain of waiting. */
  lemma {:induction false} SomeoneMoves(w: Web, s: State, t: nat)
    requires Inv(w, s) && Refines(w, s) && t < |s.tasks| && !Finished(s.tasks[t])
    requires RightFrame(w, s.raised, Top(s.tasks[t]))
    ensures SomeStep(s)
    decreases Tall(w, Top(s.tasks[t]))
  {
    var task := s.tasks[t];
    var top := |task| - 1;
    assert GoodFrame(w, s.cache, task, t, top);
    match Top(task).phase
    case Entering => assert CanStep(s, Enter(t));
    case Requesting => assert CanStep(s, Respond(t, false));
    case Importing(_, _) => assert CanStep(s, Advance(t));
    case Ready(_) =>
      assert GoodFrame(w, s.cache, task, t, top - 1);
      assert CanStep(s, Return(t));
    case Waiting =>
      var url := Top(task).url;
      var x, i := s.cache.pending[url].0, s.cache.pending[url].1;
      assert HeldBy(s, url);
      assert GoodFrame(w, s.cache, s.tasks[x], x, i);
      StackDescends(w, s, x, i);
      HolderMoves(w, s, x, i, Top(task));
      if i < |s.tasks[x]| - 1 {
        SomeoneMoves(w, s, x);
      }
  }

  lemma {:induction false} HolderMoves(w: Web, s: State, x: nat, i: nat, waiting: Frame)
    requires x < |s.tasks| && i < |s.tasks[x]| && Owns(s.tasks[x][i]) && s.tasks[x][i].url == waiting.url
    requires RightFrame(w, s.raised, s.tasks[x][i]) && RightFrame(w, s.raised, waiting)
    ensures i == |s.tasks[x]| - 1 ==> SomeStep(s)
    ensures Tall(w, s.tasks[x][i]) == Tall(w, waiting)
  {
    if i == |s.tasks[x]| - 1 {
      assert CanStep(s, Respond(x, false)) || CanStep(s, Advance(x));
    }
  }

  /** A run that cannot go on has answered every caller. */
  lemma {:induction false} NoDeadlock(w: Web, urls: seq<string>, steps: seq<Step>)
    requires AllShallow(w, urls) && Runs(w, Start(urls), steps)
    requires !SomeStep(AfterAll(w, Start(urls), steps))
    ensures var s := AfterAll(w, Start(urls), steps);
            |s.tasks| == |urls| && forall t :: 0 <= t < |urls| ==> Finished(s.tasks[t])
  {
    StartIsGood(w, urls);
    StartRefines(w, urls);
    RunKeeps(w, Start(urls), steps);
    RunRefines(w, Start(urls), steps);
    TasksStay(w, Start(urls), steps);
    var s := AfterAll(w, Start(urls), steps);
    forall t | 0 <= t < |urls| ensures Finished(s.tasks[t]) {
      if !Finished(s.tasks[t]) {
        StackDescends(w, s, t, |s.tasks[t]| - 1);
        SomeoneMoves(w, s, t);
      }
    }
  }
}
