/** `SheetCache` of `src/audit/crawler/style_snapshot.py`: concurrent callers share one request for
    each address. A task is a stack of `get` calls; a step is the code between two awaits. */
module SheetCache {
  import opened Text
  import opened StyleText
  import opened SheetFetch

  /** Where one `get` call stands. */
  datatype Phase =
    | Entering
    | Requesting
    | Importing(pieces: Css, next: nat)
    | Waiting
    | Ready(value: Option<Css>)

  datatype Frame = Frame(url: string, depth: nat, phase: Phase)
  type Task = seq<Frame>

  /** `pending` also says which call holds the request: its task and its place on that task's stack. */
  datatype Cache = Cache(done: map<string, Option<Css>>, pending: map<string, (nat, nat)>, bytes: nat)

  /** `raised` remembers the addresses whose request raised, for stating properties. */
  datatype State = State(cache: Cache, tasks: seq<Task>, raised: set<string>)

  datatype Step = Enter(task: nat) | Respond(task: nat, raises: bool) | Advance(task: nat) | Return(task: nat)

  function Top(task: Task): Frame
    requires task != []
  {
    task[|task| - 1]
  }

  function WithTop(task: Task, f: Frame): Task
    requires task != []
  {
    task[|task| - 1 := f]
  }

  function Size(w: Web, value: Option<Css>): nat {
    match value case Some(css) => w.length(css) case None => 0
  }

  function Drop(m: map<string, (nat, nat)>, url: string): map<string, (nat, nat)> {
    map u | u in m && u != url :: m[u]
  }

  /** The end of `get` by the call that held the request. */
  function Settled(w: Web, c: Cache, url: string, value: Option<Css>, keep: bool): Cache {
    var fits := value.None? || c.bytes + Size(w, value) <= w.maxBytes;
    if keep && fits then Cache(c.done[url := value], Drop(c.pending, url), c.bytes + Size(w, value))
    else c.(pending := Drop(c.pending, url))
  }

  /** A result that may be kept is kept exactly when its text fits what is left of the bound; a missing sheet takes no
      room. Nothing else that was kept changes, and the address is no longer being fetched. */
  lemma {:induction false} FittingIsKept(w: Web, c: Cache, url: string, value: Option<Css>, keep: bool)
    requires url !in c.done
    ensures var after := Settled(w, c, url, value, keep);
            && (url in after.done <==> keep && (value.None? || c.bytes + w.length(value.value) <= w.maxBytes))
            && (url in after.done ==> after.done == c.done[url := value])
            && (url !in after.done ==> after.done == c.done)
            && after.bytes == c.bytes + (if url in after.done && value.Some? then w.length(value.value) else 0)
            && after.pending.Keys == c.pending.Keys - {url}
            && forall u :: u in after.pending ==> after.pending[u] == c.pending[u]
  {
  }

  /** Callers that wait for `url` are given its value. */
  function Woken(f: Frame, url: string, value: Option<Css>): Frame {
    if f.phase.Waiting? && f.url == url then f.(phase := Ready(value)) else f
  }

  function WokenTask(task: Task, url: string, value: Option<Css>): (r: Task)
    ensures |r| == |task| && forall i :: 0 <= i < |task| ==> r[i] == Woken(task[i], url, value)
  {
    seq(|task|, i requires 0 <= i < |task| => Woken(task[i], url, value))
  }

  function WokenAll(tasks: seq<Task>, url: string, value: Option<Css>): (r: seq<Task>)
    ensures |r| == |tasks| && forall t :: 0 <= t < |tasks| ==> r[t] == WokenTask(tasks[t], url, value)
  {
    seq(|tasks|, t requires 0 <= t < |tasks| => WokenTask(tasks[t], url, value))
  }

  /** Task `t`'s topmost call ends with `value`. */
  function Finish(w: Web, s: State, t: nat, value: Option<Css>, keep: bool): State
    requires t < |s.tasks| && s.tasks[t] != []
  {
    var f := Top(s.tasks[t]);
    var woken := WokenAll(s.tasks, f.url, value);
    s.(cache := Settled(w, s.cache, f.url, value, keep),
       tasks := woken[t := WithTop(woken[t], f.(phase := Ready(value)))])
  }

  predicate CanStep(s: State, step: Step) {
    && step.task < |s.tasks| && s.tasks[step.task] != []
    && var phase := Top(s.tasks[step.task]).phase;
       match step
       case Enter(_) => phase.Entering?
       case Respond(_, _) => phase.Requesting?
       case Advance(_) => phase.Importing?
       case Return(t) => phase.Ready? && |s.tasks[t]| >= 2 && s.tasks[t][|s.tasks[t]| - 2].phase.Importing?
  }

  function SetTop(s: State, t: nat, phase: Phase): State
    requires t < |s.tasks| && s.tasks[t] != []
  {
    s.(tasks := s.tasks[t := WithTop(s.tasks[t], Top(s.tasks[t]).(phase := phase))])
  }

  /** The start of `get`: an address neither kept nor being fetched is now this call's to fetch. */
  function Claimed(c: Cache, url: string, holder: (nat, nat)): Cache {
    if url in c.done || url in c.pending then c else c.(pending := c.pending[url := holder])
  }

  function AfterEnter(s: State, t: nat): State
    requires t < |s.tasks| && s.tasks[t] != []
  {
    var url := Top(s.tasks[t]).url;
    var phase :=
      if url in s.cache.done then Ready(s.cache.done[url]) else if url in s.cache.pending then Waiting else Requesting;
    SetTop(s, t, phase).(cache := Claimed(s.cache, url, (t, |s.tasks[t]| - 1)))
  }

  function AfterRespond(w: Web, s: State, t: nat, raises: bool): State
    requires t < |s.tasks| && s.tasks[t] != []
  {
    var url := Top(s.tasks[t]).url;
    if raises then Finish(w, s, t, None, false).(raised := s.raised + {url})
    else if w.respond(url).Unusable? then Finish(w, s, t, None, true)
    else SetTop(s, t, Importing([], 0))
  }

  function AfterAdvance(w: Web, s: State, t: nat): State
    requires t < |s.tasks| && s.tasks[t] != [] && Top(s.tasks[t]).phase.Importing?
  {
    var f := Top(s.tasks[t]);
    if f.phase.next >= |ImportsOf(w, f.url)| then
      Finish(w, s, t, Closed(w, Some(f.phase.pieces), RestOf(w, f.url)), true)
    else if f.depth >= MAX_IMPORT_DEPTH then Finish(w, s, t, None, true)
    else
      var child := Frame(Target(w, f.url, f.phase.next), f.depth + 1, Entering);
      s.(tasks := s.tasks[t := s.tasks[t] + [child]])
  }

  /** The caller takes an inner call's value: a missing import makes the whole sheet missing. */
  function AfterReturn(w: Web, s: State, t: nat): State
    requires CanStep(s, Return(t))
  {
    var value := Top(s.tasks[t]).phase.value;
    var under := s.(tasks := s.tasks[t := s.tasks[t][..|s.tasks[t]| - 1]]);
    var f := Top(under.tasks[t]);
    if value.None? then Finish(w, under, t, None, true)
    else
      var piece := Wrapped(value.value, ConditionsOf(w, f.url, f.phase.next));
      SetTop(under, t, Importing(f.phase.pieces + piece, f.phase.next + 1))
  }

  function After(w: Web, s: State, step: Step): State
    requires CanStep(s, step)
  {
    match step
    case Enter(t) => AfterEnter(s, t)
    case Respond(t, raises) => AfterRespond(w, s, t, raises)
    case Advance(t) => AfterAdvance(w, s, t)
    case Return(t) => AfterReturn(w, s, t)
  }

  predicate Runs(w: Web, s: State, steps: seq<Step>)
    decreases |steps|
  {
    steps == [] || (CanStep(s, steps[0]) && Runs(w, After(w, s, steps[0]), steps[1..]))
  }

  function AfterAll(w: Web, s: State, steps: seq<Step>): State
    requires Runs(w, s, steps)
    decreases |steps|
  {
    if steps == [] then s else AfterAll(w, After(w, s, steps[0]), steps[1..])
  }

  /** A fresh cache and callers about to ask for `urls`. */
  function Start(urls: seq<string>): State {
    State(Cache(map[], map[], 0), seq(|urls|, i requires 0 <= i < |urls| => [Frame(urls[i], 0, Entering)]), {})
  }

  predicate Finished(task: Task) {
    |task| == 1 && task[0].phase.Ready?
  }

  // --- What is kept ---

  /** The length of everything kept. */
  ghost function Kept(w: Web, done: map<string, Option<Css>>): nat {
    if done == map[] then 0
    else
      var url :| url in done;
      Size(w, done[url]) + Kept(w, done - {url})
  }

  lemma {:induction false} KeptWithout(w: Web, done: map<string, Option<Css>>, url: string)
    requires url in done
    ensures Kept(w, done) == Size(w, done[url]) + Kept(w, done - {url})
    decreases |done|
  {
    var first :| first in done && Kept(w, done) == Size(w, done[first]) + Kept(w, done - {first});
    if first != url {
      KeptWithout(w, done - {first}, url);
      KeptWithout(w, done - {url}, first);
      assert done - {first} - {url} == done - {url} - {first};
    }
  }

  lemma {:induction false} KeptWith(w: Web, done: map<string, Option<Css>>, url: string, value: Option<Css>)
    requires url !in done
    ensures Kept(w, done[url := value]) == Kept(w, done) + Size(w, value)
  {
    KeptWithout(w, done[url := value], url);
    assert done[url := value] - {url} == done;
  }

  // --- Ownership ---

  predicate Owns(f: Frame) {
    f.phase.Requesting? || f.phase.Importing?
  }

  /** A call on a stack is where it should be, and holds its address's request exactly when it says so. */
  predicate GoodFrame(w: Web, c: Cache, task: Task, t: nat, i: nat)
    requires i < |task|
  {
    var f := task[i];
    && f.depth == i <= MAX_IMPORT_DEPTH
    && (f.phase.Importing? ==> w.respond(f.url).Sheet? && f.phase.next <= |ImportsOf(w, f.url)|)
    && (i + 1 < |task| ==> Calls(w, f, task[i + 1]))
    && (Owns(f) <==> f.url in c.pending && c.pending[f.url] == (t, i))
    && (f.phase.Waiting? ==> f.url in c.pending)
  }

  predicate Calls(w: Web, f: Frame, inner: Frame) {
    && f.phase.Importing? && f.phase.next < |ImportsOf(w, f.url)|
    && inner.url == Target(w, f.url, f.phase.next)
  }

  predicate GoodTask(w: Web, c: Cache, task: Task, t: nat) {
    task != [] && forall i :: 0 <= i < |task| ==> GoodFrame(w, c, task, t, i)
  }

  ghost predicate GoodCache(w: Web, s: State) {
    && (forall u :: u in s.cache.pending ==> u !in s.cache.done && HeldBy(s, u))
    && s.cache.bytes == Kept(w, s.cache.done) <= w.maxBytes
  }

  predicate HeldBy(s: State, u: string)
    requires u in s.cache.pending
  {
    CallAt(s.tasks, s.cache.pending[u].0, s.cache.pending[u].1, u)
  }

  predicate CallAt(tasks: seq<Task>, t: nat, i: nat, url: string) {
    t < |tasks| && i < |tasks[t]| && tasks[t][i].url == url
  }

  ghost predicate Inv(w: Web, s: State) {
    && GoodCache(w, s)
    && forall t :: 0 <= t < |s.tasks| ==> GoodTask(w, s.cache, s.tasks[t], t)
  }
}
