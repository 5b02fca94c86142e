/** Every run of the shared sheet cache is short: each step uses up some of a fixed amount of work. */
module SheetCacheEnds {
  import opened Text
  import opened StyleText
  import opened SheetFetch
  import opened SheetCache
  import opened SheetCacheSteps

  // --- Work left ---

  /** A `get` call's whole work, its inner calls included. */
  function Cost(w: Web, url: string, depth: nat): nat
    requires depth <= MAX_IMPORT_DEPTH
    decreases MAX_IMPORT_DEPTH - depth, |ImportsOf(w, url)| + 1
  {
    3 + CostFrom(w, url, 0, depth)
  }

  /** The work of a sheet's imports from the `k`th on. */
  function CostFrom(w: Web, url: string, k: nat, depth: nat): nat
    requires depth <= MAX_IMPORT_DEPTH && k <= |ImportsOf(w, url)|
    decreases MAX_IMPORT_DEPTH - depth, |ImportsOf(w, url)| - k
  {
    if k == |ImportsOf(w, url)| || depth == MAX_IMPORT_DEPTH then 0
    else 2 + CostOfImport(w, url, k, depth) + CostFrom(w, url, k + 1, depth)
  }

  function CostOfImport(w: Web, url: string, k: nat, depth: nat): nat
    requires depth < MAX_IMPORT_DEPTH && k < |ImportsOf(w, url)|
    decreases MAX_IMPORT_DEPTH - depth, 0
  {
    Cost(w, Target(w, url, k), depth + 1)
  }

  predicate Placed(w: Web, f: Frame) {
    f.depth <= MAX_IMPORT_DEPTH && (f.phase.Importing? ==> f.phase.next <= |ImportsOf(w, f.url)|)
  }

  function TopWork(w: Web, f: Frame): nat
    requires Placed(w, f)
  {
    match f.phase
    case Entering => Cost(w, f.url, f.depth)
    case Requesting => 2 + CostFrom(w, f.url, 0, f.depth)
    case Importing(_, next) => 1 + CostFrom(w, f.url, next, f.depth)
    case Waiting => 1
    case Ready(_) => 0
  }

  /** A call with an inner call above it has that import's work counted there. */
  function UnderWork(w: Web, f: Frame): nat
    requires Placed(w, f)
  {
    if f.phase.Importing? && f.phase.next < |ImportsOf(w, f.url)|
    then 2 + CostFrom(w, f.url, f.phase.next + 1, f.depth)
    else 0
  }

  predicate AllPlaced(w: Web, task: Task) {
    forall i :: 0 <= i < |task| ==> Placed(w, task[i])
  }

  function UnderAll(w: Web, task: Task): nat
    requires AllPlaced(w, task)
  {
    if task == [] then 0 else UnderWork(w, task[|task| - 1]) + UnderAll(w, task[..|task| - 1])
  }

  function TaskWork(w: Web, task: Task): nat
    requires AllPlaced(w, task)
  {
    if task == [] then 0 else TopWork(w, Top(task)) + UnderAll(w, task[..|task| - 1])
  }

  predicate TasksPlaced(w: Web, tasks: seq<Task>) {
    forall t :: 0 <= t < |tasks| ==> AllPlaced(w, tasks[t])
  }

  function Work(w: Web, tasks: seq<Task>): nat
    requires TasksPlaced(w, tasks)
  {
    if tasks == [] then 0 else TaskWork(w, tasks[0]) + Work(w, tasks[1..])
  }

  lemma {:induction false} WorkFalls(w: Web, a: seq<Task>, b: seq<Task>, t: nat)
    requires TasksPlaced(w, a) && TasksPlaced(w, b) && |a| == |b| && t < |a|
    requires forall x :: 0 <= x < |a| ==> TaskWork(w, b[x]) <= TaskWork(w, a[x])
    requires TaskWork(w, b[t]) < TaskWork(w, a[t])
    ensures Work(w, b) < Work(w, a)
  {
    if t > 0 {
      WorkFalls(w, a[1..], b[1..], t - 1);
    } else {
      WorkStays(w, a[1..], b[1..]);
    }
  }

  lemma {:induction false} WorkStays(w: Web, a: seq<Task>, b: seq<Task>)
    requires TasksPlaced(w, a) && TasksPlaced(w, b) && |a| == |b|
    requires forall x :: 0 <= x < |a| ==> TaskWork(w, b[x]) <= TaskWork(w, a[x])
    ensures Work(w, b) <= Work(w, a)
  {
    if a != [] {
      WorkStays(w, a[1..], b[1..]);
    }
  }

  // --- Steps use up work ---

  lemma {:induction false} UnderUnchanged(w: Web, a: Task, b: Task)
    requires AllPlaced(w, a) && AllPlaced(w, b) && |a| == |b|
    requires forall i :: 0 <= i < |a| ==> UnderWork(w, b[i]) <= UnderWork(w, a[i])
    ensures UnderAll(w, b) <= UnderAll(w, a)
  {
    if a != [] {
      UnderUnchanged(w, a[..|a| - 1], b[..|b| - 1]);
    }
  }

  lemma {:induction false} WokenPlaced(w: Web, task: Task, url: string, value: Option<Css>)
    requires AllPlaced(w, task)
    ensures AllPlaced(w, WokenTask(task, url, value))
    ensures TaskWork(w, WokenTask(task, url, value)) <= TaskWork(w, task)
  {
    if task != [] {
      var woken := WokenTask(task, url, value);
      UnderUnchanged(w, task[..|task| - 1], woken[..|task| - 1]);
    }
  }

  lemma {:induction false} TopWorkOf(w: Web, task: Task, f: Frame)
    requires task != [] && AllPlaced(w, task) && Placed(w, f)
    ensures AllPlaced(w, WithTop(task, f))
    ensures TaskWork(w, WithTop(task, f)) == TopWork(w, f) + UnderAll(w, task[..|task| - 1])
  {
    assert WithTop(task, f)[..|task| - 1] == task[..|task| - 1];
  }

  lemma {:induction false} SetTopUses(w: Web, s: State, t: nat, phase: Phase)
    requires t < |s.tasks| && s.tasks[t] != [] && TasksPlaced(w, s.tasks)
    requires var f := Top(s.tasks[t]); var g := f.(phase := phase); Placed(w, g) && TopWork(w, g) < TopWork(w, f)
    ensures TasksPlaced(w, SetTop(s, t, phase).tasks) && Work(w, SetTop(s, t, phase).tasks) < Work(w, s.tasks)
  {
    TopWorkOf(w, s.tasks[t], Top(s.tasks[t]).(phase := phase));
    WorkFalls(w, s.tasks, SetTop(s, t, phase).tasks, t);
  }

  lemma {:induction false} FinishUses(w: Web, s: State, t: nat, value: Option<Css>, keep: bool)
    requires t < |s.tasks| && s.tasks[t] != [] && TasksPlaced(w, s.tasks) && Owns(Top(s.tasks[t]))
    ensures var r := Finish(w, s, t, value, keep);
            TasksPlaced(w, r.tasks) && Work(w, r.tasks) < Work(w, s.tasks)
  {
    var f := Top(s.tasks[t]);
    var r := Finish(w, s, t, value, keep);
    var woken := WokenTask(s.tasks[t], f.url, value);
    forall x | 0 <= x < |s.tasks|
      ensures AllPlaced(w, r.tasks[x]) && TaskWork(w, r.tasks[x]) <= TaskWork(w, s.tasks[x])
      ensures x == t ==> TaskWork(w, r.tasks[x]) < TaskWork(w, s.tasks[x])
    {
      WokenPlaced(w, s.tasks[x], f.url, value);
      if x == t {
        TopWorkOf(w, woken, f.(phase := Ready(value)));
        UnderUnchanged(w, s.tasks[t][..|woken| - 1], woken[..|woken| - 1]);
      }
    }
    WorkFalls(w, s.tasks, r.tasks, t);
  }

  lemma {:induction false} CallUses(w: Web, s: State, t: nat)
    requires TasksPlaced(w, s.tasks) && CanStep(s, Advance(t))
    requires var f := Top(s.tasks[t]); f.phase.next < |ImportsOf(w, f.url)| && f.depth < MAX_IMPORT_DEPTH
    ensures var r := AfterAdvance(w, s, t); TasksPlaced(w, r.tasks) && Work(w, r.tasks) < Work(w, s.tasks)
  {
    var task := s.tasks[t];
    var f := Top(task);
    var child := Frame(Target(w, f.url, f.phase.next), f.depth + 1, Entering);
    var r := AfterAdvance(w, s, t);
    assert r.tasks[t] == task + [child];
    assert (task + [child])[..|task|] == task;
    assert TopWork(w, child) == CostOfImport(w, f.url, f.phase.next, f.depth);
    WorkFalls(w, s.tasks, r.tasks, t);
  }

  /** The caller, having counted the import it asked for. */
  function Counted(s: State, t: nat, pieces: Css): State
    requires CanStep(s, Return(t))
  {
    var under := Popped(s, t);
    SetTop(under, t, Importing(pieces, Top(under.tasks[t]).phase.next + 1))
  }

  lemma {:induction false} CountedUses(w: Web, s: State, t: nat, pieces: Css)
    requires Inv(w, s) && CanStep(s, Return(t)) && TasksPlaced(w, s.tasks)
    ensures var r := Counted(s, t, pieces); TasksPlaced(w, r.tasks) && Work(w, r.tasks) < Work(w, s.tasks)
  {
    var task := s.tasks[t];
    var below := task[..|task| - 1];
    var f := Top(below);
    assert GoodFrame(w, s.cache, task, t, |task| - 2);
    var r := Counted(s, t, pieces);
    TopWorkOf(w, below, f.(phase := Importing(pieces, f.phase.next + 1)));
    assert r.tasks[t] == WithTop(below, f.(phase := Importing(pieces, f.phase.next + 1)));
    WorkFalls(w, s.tasks, r.tasks, t);
  }

  lemma {:induction false} FinishForgetsPhase(w: Web, s: State, t: nat, phase: Phase, value: Option<Css>, keep: bool)
    requires t < |s.tasks| && s.tasks[t] != []
    ensures Finish(w, SetTop(s, t, phase), t, value, keep).tasks == Finish(w, s, t, value, keep).tasks
  {
    var f := Top(s.tasks[t]);
    var a, b := Finish(w, SetTop(s, t, phase), t, value, keep).tasks, Finish(w, s, t, value, keep).tasks;
    forall x | 0 <= x < |s.tasks| ensures a[x] == b[x] {
      assert |a[x]| == |b[x]| && forall i :: 0 <= i < |a[x]| ==> a[x][i] == b[x][i];
    }
  }

  lemma {:induction false} CountedOwns(w: Web, s: State, t: nat, pieces: Css)
    requires CanStep(s, Return(t))
    ensures var r := Counted(s, t, pieces); t < |r.tasks| && r.tasks[t] != [] && Owns(Top(r.tasks[t]))
  {
  }

  /** A miss ends the caller as if it had just counted the import. */
  lemma {:induction false} MissIsFinish(w: Web, s: State, t: nat, pieces: Css)
    requires CanStep(s, Return(t)) && Top(s.tasks[t]).phase.value.None?
    ensures AfterReturn(w, s, t).tasks == Finish(w, Counted(s, t, pieces), t, None, true).tasks
  {
    var f := Top(Popped(s, t).tasks[t]);
    FinishForgetsPhase(w, Popped(s, t), t, Importing(pieces, f.phase.next + 1), None, true);
  }

  lemma {:induction false} MissUses(w: Web, s: State, t: nat, pieces: Css)
    requires Inv(w, s) && CanStep(s, Return(t)) && TasksPlaced(w, s.tasks) && Top(s.tasks[t]).phase.value.None?
    ensures var r := AfterReturn(w, s, t); TasksPlaced(w, r.tasks) && Work(w, r.tasks) < Work(w, s.tasks)
  {
    var counted := Counted(s, t, pieces);
    MissIsFinish(w, s, t, pieces);
    CountedUses(w, s, t, pieces);
    CountedOwns(w, s, t, pieces);
    FinishUses(w, counted, t, None, true);
  }

  lemma {:induction false} ReturnUses(w: Web, s: State, t: nat)
    requires Inv(w, s) && CanStep(s, Return(t)) && TasksPlaced(w, s.tasks)
    ensures var r := AfterReturn(w, s, t); TasksPlaced(w, r.tasks) && Work(w, r.tasks) < Work(w, s.tasks)
  {
    var value := Top(s.tasks[t]).phase.value;
    if value.None? {
      MissUses(w, s, t, []);
    } else {
      var f := Top(Popped(s, t).tasks[t]);
      CountedUses(w, s, t, f.phase.pieces + Wrapped(value.value, ConditionsOf(w, f.url, f.phase.next)));
    }
  }

  lemma {:induction false} StepUsesWork(w: Web, s: State, step: Step)
    requires Inv(w, s) && CanStep(s, step) && TasksPlaced(w, s.tasks)
    ensures var r := After(w, s, step); TasksPlaced(w, r.tasks) && Work(w, r.tasks) < Work(w, s.tasks)
  {
    var t := step.task;
    var f := Top(s.tasks[t]);
    assert GoodFrame(w, s.cache, s.tasks[t], t, |s.tasks[t]| - 1);
    match step
    case Enter(_) =>
      if f.url in s.cache.done {
        SetTopUses(w, s, t, Ready(s.cache.done[f.url]));
      } else if f.url in s.cache.pending {
        SetTopUses(w, s, t, Waiting);
      } else {
        SetTopUses(w, s, t, Requesting);
      }
    case Respond(_, raises) =>
      if raises || w.respond(f.url).Unusable? {
        FinishUses(w, s, t, None, !raises);
      } else {
        SetTopUses(w, s, t, Importing([], 0));
      }
    case Advance(_) =>
      if f.phase.next >= |ImportsOf(w, f.url)| {
        FinishUses(w, s, t, Closed(w, Some(f.phase.pieces), RestOf(w, f.url)), true);
      } else if f.depth >= MAX_IMPORT_DEPTH {
        FinishUses(w, s, t, None, true);
      } else {
        CallUses(w, s, t);
      }
    case Return(_) => ReturnUses(w, s, t);
  }

  lemma {:induction false} RunUsesWork(w: Web, s: State, steps: seq<Step>)
    requires Inv(w, s) && Runs(w, s, steps) && TasksPlaced(w, s.tasks)
    ensures |steps| <= Work(w, s.tasks)
    decreases |steps|
  {
    if steps != [] {
      StepKeeps(w, s, steps[0]);
      StepUsesWork(w, s, steps[0]);
      RunUsesWork(w, After(w, s, steps[0]), steps[1..]);
    }
  }

  function TotalCost(w: Web, urls: seq<string>): nat {
    if urls == [] then 0 else Cost(w, urls[0], 0) + TotalCost(w, urls[1..])
  }

  lemma {:induction false} StartWork(w: Web, urls: seq<string>)
    ensures TasksPlaced(w, Start(urls).tasks) && Work(w, Start(urls).tasks) == TotalCost(w, urls)
    decreases |urls|
  {
    if urls != [] {
      StartWork(w, urls[1..]);
      assert Start(urls).tasks[1..] == Start(urls[1..]).tasks;
      var task := Start(urls).tasks[0];
      assert task == [Frame(urls[0], 0, Entering)] && task[..0] == [];
    }
  }

  /** No run takes more steps than its callers' trees of imports, cut at the depth bound, have work. */
  lemma {:induction false} RunsAreShort(w: Web, urls: seq<string>, steps: seq<Step>)
    requires Runs(w, Start(urls), steps)
    ensures |steps| <= TotalCost(w, urls)
  {
    StartIsGood(w, urls);
    StartWork(w, urls);
    RunUsesWork(w, Start(urls), steps);
  }
}
