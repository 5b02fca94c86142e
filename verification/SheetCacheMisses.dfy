/** When the shared sheet cache keeps a wrong answer, or gives none: a request that raises below an importing
    sheet, a chain of imports that is too long, and a sheet that imports itself. */
module SheetCacheMisses {
  import opened Text
  import opened StyleText
  import opened SheetImports
  import opened SheetFetch
  import opened SheetCache
  import opened SheetCacheSteps
  import opened SheetCacheRuns

  // --- What is kept stays ---

  predicate KeptIn(a: map<string, Option<Css>>, b: map<string, Option<Css>>) {
    forall u :: u in a ==> u in b && b[u] == a[u]
  }

  lemma {:induction false} FinishKeepsKept(w: Web, s: State, t: nat, value: Option<Css>, keep: bool)
    requires Inv(w, s) && t < |s.tasks| && s.tasks[t] != [] && Owns(Top(s.tasks[t]))
    ensures KeptIn(s.cache.done, Finish(w, s, t, value, keep).cache.done)
  {
    assert GoodFrame(w, s.cache, s.tasks[t], t, |s.tasks[t]| - 1);
  }

  lemma {:induction false} StepKeepsKept(w: Web, s: State, step: Step)
    requires Inv(w, s) && CanStep(s, step)
    ensures KeptIn(s.cache.done, After(w, s, step).cache.done)
  {
    match step
    case Enter(_) =>
    case Respond(t, raises) => FinishKeepsKept(w, s, t, None, !raises);
    case Advance(t) =>
      var f := Top(s.tasks[t]);
      if f.phase.next >= |ImportsOf(w, f.url)| {
        FinishKeepsKept(w, s, t, Closed(w, Some(f.phase.pieces), RestOf(w, f.url)), true);
      } else if f.depth >= MAX_IMPORT_DEPTH {
        FinishKeepsKept(w, s, t, None, true);
      }
    case Return(t) =>
      PopKeeps(w, s, t);
      FinishKeepsKept(w, Popped(s, t), t, None, true);
  }

  /** Whatever is once kept is kept, unchanged, for the rest of the scan. */
  lemma {:induction false} RunKeepsKept(w: Web, s: State, steps: seq<Step>)
    requires Inv(w, s) && Runs(w, s, steps)
    ensures KeptIn(s.cache.done, AfterAll(w, s, steps).cache.done)
    decreases |steps|
  {
    if steps != [] {
      StepKeeps(w, s, steps[0]);
      StepKeepsKept(w, s, steps[0]);
      RunKeepsKept(w, After(w, s, steps[0]), steps[1..]);
    }
  }

  // --- Runs step by step ---

  lemma {:induction false} TraceExtends(w: Web, states: seq<State>, steps: seq<Step>, a: Step, b: Step)
    requires Traces(w, states, steps)
    requires CanStep(states[|steps|], a) && CanStep(After(w, states[|steps|], a), b)
    ensures var next := After(w, states[|steps|], a);
            Traces(w, states + [next, After(w, next, b)], steps + [a, b])
  {
    var next := After(w, states[|steps|], a);
    var longer, more := states + [next, After(w, next, b)], steps + [a, b];
    forall i | 0 <= i < |more| ensures CanStep(longer[i], more[i]) && longer[i + 1] == After(w, longer[i], more[i]) {
      if i < |steps| {
        assert longer[i] == states[i] && longer[i + 1] == states[i + 1] && more[i] == steps[i];
      } else if i == |steps| {
        assert longer[i] == states[i] && longer[i + 1] == next && more[i] == a;
      } else {
        assert longer[i] == next && longer[i + 1] == After(w, next, b) && more[i] == b;
      }
    }
  }

  lemma {:induction false} OneCall(s: State, f: Frame)
    requires |s.tasks| == 1 && |s.tasks[0]| == 1 && s.tasks[0][0] == f
    ensures s.tasks == [[f]]
  {
    assert s.tasks[0] == [f];
  }

  lemma {:induction false} TwoCalls(s: State, f: Frame, g: Frame)
    requires |s.tasks| == 1 && |s.tasks[0]| == 2 && s.tasks[0][0] == f && s.tasks[0][1] == g
    ensures s.tasks == [[f, g]]
  {
    assert s.tasks[0] == [f, g];
  }

  predicate Traces(w: Web, states: seq<State>, steps: seq<Step>) {
    && |states| == |steps| + 1
    && forall i :: 0 <= i < |steps| ==> CanStep(states[i], steps[i]) && states[i + 1] == After(w, states[i], steps[i])
  }

  lemma {:induction false} TraceIsRun(w: Web, states: seq<State>, steps: seq<Step>)
    requires Traces(w, states, steps)
    ensures Runs(w, states[0], steps) && AfterAll(w, states[0], steps) == states[|steps|]
    decreases |steps|
  {
    if steps != [] {
      assert CanStep(states[0], steps[0]) && states[1] == After(w, states[0], steps[0]);
      TraceRest(w, states, steps);
      TraceIsRun(w, states[1..], steps[1..]);
    }
  }

  lemma {:induction false} TraceRest(w: Web, states: seq<State>, steps: seq<Step>)
    requires Traces(w, states, steps) && steps != []
    ensures Traces(w, states[1..], steps[1..])
  {
    forall i | 0 <= i < |steps| - 1
      ensures CanStep(states[1..][i], steps[1..][i]) && states[1..][i + 1] == After(w, states[1..][i], steps[1..][i])
    {
      assert CanStep(states[i + 1], steps[i + 1]);
    }
  }

  // --- A raise that is remembered ---

  lemma {:induction false} NotItsOwnTarget(w: Web, url: string, n: nat, i: nat)
    requires Shallow(w, url, n) && i < |ImportsOf(w, url)|
    ensures Target(w, url, i) != url
    decreases n
  {
    var target := Target(w, url, i);
    if target == url {
      NotItsOwnTarget(w, url, n - 1, i);
    }
  }

  /** A sheet with imports has answered and asks for the first of them. */
  lemma {:induction false} AsksForImport(w: Web, outer: string, inner: string) returns (states: seq<State>)
    requires ImportsOf(w, outer) != [] && inner == Target(w, outer, 0) && inner != outer
    ensures |states| == 5 && states[0] == Start([outer])
    ensures Traces(w, states, [Enter(0), Respond(0, false), Advance(0), Enter(0)])
    ensures states[4].tasks == [[Frame(outer, 0, Importing([], 0)), Frame(inner, 1, Requesting)]]
    ensures states[4].cache.done == map[]
  {
    var s0 := Start([outer]);
    OneCall(s0, Frame(outer, 0, Entering));
    var s1 := After(w, s0, Enter(0));
    OneCall(s1, Frame(outer, 0, Requesting));
    var s2 := After(w, s1, Respond(0, false));
    var f := Frame(outer, 0, Importing([], 0));
    OneCall(s2, f);
    var s3 := After(w, s2, Advance(0));
    TwoCalls(s3, f, Frame(inner, 1, Entering));
    var s4 := After(w, s3, Enter(0));
    TwoCalls(s4, f, Frame(inner, 1, Requesting));
    states := [s0, s1, s2, s3, s4];
  }

  /** The import's request raises: it is forgotten, and the importing sheet is kept as missing. */
  lemma {:induction false} RaiseEnds(w: Web, s: State, outer: string, inner: string) returns (last: State)
    requires s.tasks == [[Frame(outer, 0, Importing([], 0)), Frame(inner, 1, Requesting)]] && s.cache.done == map[]
    ensures CanStep(s, Respond(0, true)) && CanStep(After(w, s, Respond(0, true)), Return(0))
    ensures last == After(w, After(w, s, Respond(0, true)), Return(0)) && last.cache.done == map[outer := None]
  {
    var s5 := After(w, s, Respond(0, true));
    TwoCalls(s5, Frame(outer, 0, Importing([], 0)), Frame(inner, 1, Ready(None)));
    assert s5.cache.done == map[];
    last := After(w, s5, Return(0));
  }

  const RAISING_RUN := [Enter(0), Respond(0, false), Advance(0), Enter(0), Respond(0, true), Return(0)]

  /** The first import of a sheet raises once: it is forgotten and can be asked for again, but the importing
      sheet is kept as missing. */
  lemma {:induction false} RaiseIsKept(w: Web, url: string)
    requires ImportsOf(w, url) != [] && Target(w, url, 0) != url
    ensures Runs(w, Start([url]), RAISING_RUN)
    ensures AfterAll(w, Start([url]), RAISING_RUN).cache.done == map[url := None]
  {
    var inner := Target(w, url, 0);
    var states := AsksForImport(w, url, inner);
    var last := RaiseEnds(w, states[4], url, inner);
    var all := states + [After(w, states[4], Respond(0, true)), last];
    TraceExtends(w, states, [Enter(0), Respond(0, false), Advance(0), Enter(0)], Respond(0, true), Return(0));
    assert RAISING_RUN == [Enter(0), Respond(0, false), Advance(0), Enter(0)] + [Respond(0, true), Return(0)];
    TraceIsRun(w, all, RAISING_RUN);
  }

  predicate KeepsWrong(w: Web, urls: seq<string>, steps: seq<Step>, url: string) {
    && AllShallow(w, urls) && Runs(w, Start(urls), steps)
    && var done := AfterAll(w, Start(urls), steps).cache.done; url in done && done[url] != Direct(w, url, 0)
  }

  /** Some run of some callers keeps, for the rest of the scan, an answer that direct fetching does not give. */
  ghost predicate CanKeepWrong(w: Web, url: string) {
    exists urls, steps :: KeepsWrong(w, urls, steps, url)
  }

  /** A wrong answer can be kept for a sheet if and only if the sheet can be had and imports another. */
  lemma {:induction false} WrongIsKeptExactly(w: Web, url: string)
    requires Shallow(w, url, MAX_IMPORT_DEPTH)
    ensures CanKeepWrong(w, url) <==> Direct(w, url, 0).Some? && ImportsOf(w, url) != []
  {
    if CanKeepWrong(w, url) {
      var urls, steps :| KeepsWrong(w, urls, steps, url);
      CacheRefinesDirect(w, urls, steps);
    }
    if Direct(w, url, 0).Some? && ImportsOf(w, url) != [] {
      NotItsOwnTarget(w, url, MAX_IMPORT_DEPTH, 0);
      RaiseIsKept(w, url);
      assert KeepsWrong(w, [url], RAISING_RUN, url);
    }
  }

  /** And it is the only kind of wrong answer: the sheet is kept as missing. */
  lemma {:induction false} WrongIsMissing(w: Web, urls: seq<string>, steps: seq<Step>, url: string)
    requires KeepsWrong(w, urls, steps, url)
    ensures AfterAll(w, Start(urls), steps).cache.done[url] == None
  {
    CacheRefinesDirect(w, urls, steps);
  }

  /** A sheet with one import, neither with a rule of its own, that is kept as missing though it can be had; its
      import is not kept. */
  lemma {:induction false} RaiseBelowIsRemembered(w: Web, outer: string, rule: Import, inner: string)
    requires inner == w.join(outer, rule.href) && inner != outer
    requires w.respond(outer) == Sheet([rule], []) && w.respond(inner) == Sheet([], [])
    requires !w.tooLong([]) && !w.tooLong(Wrapped([], rule.conditions))
    ensures Direct(w, outer, 0).Some? && CanKeepWrong(w, outer)
    ensures Runs(w, Start([outer]), RAISING_RUN)
    ensures var done := AfterAll(w, Start([outer]), RAISING_RUN).cache.done;
            outer in done && done[outer] == None && inner !in done
  {
    DirectOfOne(w, outer, rule, inner);
    assert Target(w, outer, 0) == inner && ImportsOf(w, inner) == [];
    assert Shallow(w, inner, 0) && ImportsOf(w, outer) == [rule];
    assert Shallow(w, outer, 1);
    ShallowMore(w, outer, 1, MAX_IMPORT_DEPTH);
    WrongIsKeptExactly(w, outer);
    RaiseIsKept(w, outer);
  }

  lemma {:induction false} DirectOfOne(w: Web, outer: string, rule: Import, inner: string)
    requires inner == w.join(outer, rule.href)
    requires w.respond(outer) == Sheet([rule], []) && w.respond(inner) == Sheet([], [])
    requires !w.tooLong([]) && !w.tooLong(Wrapped([], rule.conditions))
    ensures Direct(w, outer, 0).Some?
  {
    var nothing: Css := [];
    assert nothing + nothing == nothing;
    assert Direct(w, inner, 1) == Some([]);
    var piece := Wrapped([], rule.conditions);
    assert DirectWrapped(w, outer, 0, 0) == Some(piece);
    assert DirectFrom(w, outer, 1, 0) == Some([]);
    assert piece + [] == piece;
    assert DirectFrom(w, outer, 0, 0) == Some(piece);
  }

  // --- A chain of imports that is too long ---

  /** Nine imports in a row, each the first of a different sheet. */
  predicate IsChain(w: Web, chain: seq<string>) {
    && |chain| == 10
    && (forall i :: 0 <= i < |chain| - 1 ==> Importer(w, chain[i], chain[i + 1]))
    && (forall i, j :: 0 <= i < j < |chain| ==> chain[i] != chain[j])
  }

  predicate Importer(w: Web, outer: string, inner: string) {
    ImportsOf(w, outer) != [] && Target(w, outer, 0) == inner
  }

  /** The calls for the first `k` sheets wait inside one another, and the next sheet's is in `phase`. */
  function Nested(chain: seq<string>, k: nat, phase: Phase): (task: Task)
    requires k < |chain|
    ensures |task| == k + 1
    ensures forall i :: 0 <= i <= k ==> task[i] == Frame(chain[i], i, if i < k then Importing([], 0) else phase)
  {
    seq(k + 1, i requires 0 <= i <= k => Frame(chain[i], i, if i < k then Importing([], 0) else phase))
  }

  ghost predicate Descended(w: Web, chain: seq<string>, k: nat, phase: Phase, s: State)
    requires k < |chain|
  {
    && s.tasks == [Nested(chain, k, phase)] && s.cache.done == map[] && s.raised == {}
    && exists steps :: Leads(w, chain[0], steps, s)
  }

  predicate Leads(w: Web, url: string, steps: seq<Step>, s: State) {
    Runs(w, Start([url]), steps) && AfterAll(w, Start([url]), steps) == s
  }

  lemma {:induction false} RunsOn(w: Web, s: State, steps: seq<Step>, step: Step)
    requires Runs(w, s, steps) && CanStep(AfterAll(w, s, steps), step)
    ensures Runs(w, s, steps + [step]) && AfterAll(w, s, steps + [step]) == After(w, AfterAll(w, s, steps), step)
    decreases |steps|
  {
    if steps == [] {
      assert [step][1..] == [];
      assert [] + [step] == [step];
    } else {
      RunsOn(w, After(w, s, steps[0]), steps[1..], step);
      assert (steps + [step])[1..] == steps[1..] + [step];
    }
  }

  lemma {:induction false} DescendsBy(w: Web, chain: seq<string>, k: nat, phase: Phase, s: State, step: Step, m: nat, next: Phase)
    requires k < |chain| && m < |chain| && Descended(w, chain, k, phase, s) && CanStep(s, step)
    requires After(w, s, step).tasks == [Nested(chain, m, next)] && After(w, s, step).cache.done == map[]
    requires After(w, s, step).raised == {}
    ensures Descended(w, chain, m, next, After(w, s, step))
  {
    var steps :| Leads(w, chain[0], steps, s);
    RunsOn(w, Start([chain[0]]), steps, step);
    assert Leads(w, chain[0], steps + [step], After(w, s, step));
  }

  lemma {:induction false} OneTask(tasks: seq<Task>, task: Task)
    requires |tasks| == 1 && |tasks[0]| == |task| && forall i :: 0 <= i < |task| ==> tasks[0][i] == task[i]
    ensures tasks == [task]
  {
    assert tasks[0] == task;
  }

  /** A sheet of the chain answers, and its call goes on to its imports. */
  lemma {:induction false} Answers(w: Web, chain: seq<string>, k: nat, s: State) returns (r: State)
    requires IsChain(w, chain) && k < |chain| - 1 && Descended(w, chain, k, Requesting, s)
    ensures Descended(w, chain, k, Importing([], 0), r)
  {
    assert Importer(w, chain[k], chain[k + 1]);
    r := After(w, s, Respond(0, false));
    OneTask(r.tasks, Nested(chain, k, Importing([], 0)));
    DescendsBy(w, chain, k, Requesting, s, Respond(0, false), k, Importing([], 0));
  }

  /** Its call calls for its first import. */
  lemma {:induction false} CallsNext(w: Web, chain: seq<string>, k: nat, s: State) returns (r: State)
    requires IsChain(w, chain) && k < MAX_IMPORT_DEPTH && Descended(w, chain, k, Importing([], 0), s)
    ensures Descended(w, chain, k + 1, Entering, r)
  {
    assert Importer(w, chain[k], chain[k + 1]);
    r := After(w, s, Advance(0));
    OneTask(r.tasks, Nested(chain, k + 1, Entering));
    DescendsBy(w, chain, k, Importing([], 0), s, Advance(0), k + 1, Entering);
  }

  lemma {:induction false} NotPending(w: Web, chain: seq<string>, k: nat, s: State)
    requires IsChain(w, chain) && k < |chain| && Descended(w, chain, k, Entering, s)
    ensures chain[k] !in s.cache.pending
  {
    var steps :| Leads(w, chain[0], steps, s);
    StartIsGood(w, [chain[0]]);
    RunKeeps(w, Start([chain[0]]), steps);
    assert GoodFrame(w, s.cache, s.tasks[0], 0, k);
  }

  lemma {:induction false} EntersNext(w: Web, chain: seq<string>, k: nat, s: State) returns (r: State)
    requires IsChain(w, chain) && k < |chain| && Descended(w, chain, k, Entering, s)
    ensures Descended(w, chain, k, Requesting, r)
  {
    NotPending(w, chain, k, s);
    r := After(w, s, Enter(0));
    OneTask(r.tasks, Nested(chain, k, Requesting));
    DescendsBy(w, chain, k, Entering, s, Enter(0), k, Requesting);
  }

  lemma {:induction false} Descends(w: Web, chain: seq<string>, k: nat) returns (s: State)
    requires IsChain(w, chain) && k <= MAX_IMPORT_DEPTH
    ensures Descended(w, chain, k, Requesting, s)
    decreases k
  {
    if k == 0 {
      var start := Start([chain[0]]);
      OneTask(start.tasks, Nested(chain, 0, Entering));
      assert Leads(w, chain[0], [], start);
      s := EntersNext(w, chain, 0, start);
    } else {
      var before := Descends(w, chain, k - 1);
      var answered := Answers(w, chain, k - 1, before);
      var called := CallsNext(w, chain, k - 1, answered);
      s := EntersNext(w, chain, k, called);
    }
  }

  /** The sheet eight imports down is cut off at the depth bound and kept as missing, though a page that uses it
      directly could have it. */
  lemma {:induction false} LongChainIsKept(w: Web, chain: seq<string>) returns (steps: seq<Step>)
    requires IsChain(w, chain) && Direct(w, chain[8], 0).Some?
    ensures Runs(w, Start([chain[0]]), steps) && AfterAll(w, Start([chain[0]]), steps).raised == {}
    ensures var url, done := chain[8], AfterAll(w, Start([chain[0]]), steps).cache.done;
            url in done && done[url] == None && Direct(w, url, 0).Some?
  {
    var k := 8;
    var asked := Descends(w, chain, k);
    var s := Answers(w, chain, k, asked);
    assert Importer(w, chain[k], chain[k + 1]);
    var before :| Leads(w, chain[0], before, s);
    RunsOn(w, Start([chain[0]]), before, Advance(0));
    steps := before + [Advance(0)];
  }

  // --- A sheet that imports itself ---

  predicate ImportsItself(w: Web, url: string, rule: Import) {
    w.respond(url).Sheet? && w.respond(url).imports == [rule] && w.join(url, rule.href) == url
  }

  lemma {:induction false} SelfImportIsMissing(w: Web, url: string, rule: Import, depth: nat)
    requires ImportsItself(w, url, rule) && depth <= MAX_IMPORT_DEPTH
    ensures Direct(w, url, depth) == None
    decreases MAX_IMPORT_DEPTH - depth
  {
    if depth < MAX_IMPORT_DEPTH {
      SelfImportIsMissing(w, url, rule, depth + 1);
      assert Target(w, url, 0) == url;
      assert DirectWrapped(w, url, 0, depth) == None;
    }
    assert DirectFrom(w, url, 0, depth) == None;
  }

  /** Its caller waits for itself: uncached fetching would give up at the depth bound and answer that the sheet is
      missing, but the cache never answers. */
  lemma {:induction false} SelfImportHangs(w: Web, url: string, rule: Import)
    requires ImportsItself(w, url, rule)
    ensures Direct(w, url, 0) == None
    ensures var steps := [Enter(0), Respond(0, false), Advance(0), Enter(0)];
            Runs(w, Start([url]), steps)
            && var s := AfterAll(w, Start([url]), steps); !SomeStep(s) && !Finished(s.tasks[0])
  {
    SelfImportIsMissing(w, url, rule, 0);
    var s0 := Start([url]);
    OneCall(s0, Frame(url, 0, Entering));
    var s1 := After(w, s0, Enter(0));
    OneCall(s1, Frame(url, 0, Requesting));
    var s2 := After(w, s1, Respond(0, false));
    var f := Frame(url, 0, Importing([], 0));
    OneCall(s2, f);
    var s3 := After(w, s2, Advance(0));
    TwoCalls(s3, f, Frame(url, 1, Entering));
    var s4 := After(w, s3, Enter(0));
    TwoCalls(s4, f, Frame(url, 1, Waiting));
    var steps := [Enter(0), Respond(0, false), Advance(0), Enter(0)];
    var states := [s0, s1, s2, s3, s4];
    assert Traces(w, states, steps);
    TraceIsRun(w, states, steps);
  }
}
