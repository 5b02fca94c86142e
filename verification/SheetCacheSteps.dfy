/** What every step of the shared sheet cache keeps: one call holds each outstanding request, and the
    byte count is exactly what is kept. */
module SheetCacheSteps {
  import opened Text
  import opened StyleText
  import opened SheetFetch
  import opened SheetCache

  // --- Replacing the topmost call ---

  /** Everything but one task's topmost call stays good when the cache gains no claim on it. */
  lemma {:induction false} SetTopKeeps(w: Web, s: State, t: nat, phase: Phase)
    requires Inv(w, s) && t < |s.tasks|
    requires var f := Top(s.tasks[t]).(phase := phase);
             GoodFrame(w, s.cache, WithTop(s.tasks[t], f), t, |s.tasks[t]| - 1)
    ensures Inv(w, SetTop(s, t, phase))
  {
    var r := SetTop(s, t, phase);
    var task := s.tasks[t];
    forall i | 0 <= i < |task| ensures GoodFrame(w, r.cache, r.tasks[t], t, i) {
      assert GoodFrame(w, s.cache, task, t, i);
      assert i + 1 < |task| ==> r.tasks[t][i + 1].url == task[i + 1].url;
    }
    forall u | u in r.cache.pending ensures u !in r.cache.done && HeldBy(r, u) {
      assert HeldBy(s, u);
    }
  }

  // --- Claiming a request ---

  lemma {:induction false} ClaimKeeps(w: Web, s: State, t: nat)
    requires Inv(w, s) && CanStep(s, Enter(t))
    requires Top(s.tasks[t]).url !in s.cache.done && Top(s.tasks[t]).url !in s.cache.pending
    ensures Inv(w, AfterEnter(s, t))
  {
    var r := AfterEnter(s, t);
    var url, top := Top(s.tasks[t]).url, |s.tasks[t]| - 1;
    forall x, i | 0 <= x < |s.tasks| && 0 <= i < |s.tasks[x]| ensures GoodFrame(w, r.cache, r.tasks[x], x, i) {
      assert GoodFrame(w, s.cache, s.tasks[x], x, i);
      assert i + 1 < |s.tasks[x]| ==> r.tasks[x][i + 1].url == s.tasks[x][i + 1].url;
    }
    forall u | u in r.cache.pending ensures u !in r.cache.done && HeldBy(r, u) {
      assert u != url ==> HeldBy(s, u);
    }
  }

  lemma {:induction false} EnterKeeps(w: Web, s: State, t: nat)
    requires Inv(w, s) && CanStep(s, Enter(t))
    ensures Inv(w, AfterEnter(s, t))
  {
    var f := Top(s.tasks[t]);
    assert GoodFrame(w, s.cache, s.tasks[t], t, |s.tasks[t]| - 1);
    if f.url in s.cache.done {
      SetTopKeeps(w, s, t, Ready(s.cache.done[f.url]));
    } else if f.url in s.cache.pending {
      SetTopKeeps(w, s, t, Waiting);
    } else {
      ClaimKeeps(w, s, t);
    }
  }

  // --- Ending a request ---

  lemma {:induction false} FinishKeepsFrames(w: Web, s: State, t: nat, value: Option<Css>, keep: bool, x: nat)
    requires Inv(w, s) && t < |s.tasks| && Owns(Top(s.tasks[t])) && x < |s.tasks|
    ensures var r := Finish(w, s, t, value, keep); GoodTask(w, r.cache, r.tasks[x], x)
  {
    var r := Finish(w, s, t, value, keep);
    var top := |s.tasks[t]| - 1;
    assert GoodFrame(w, s.cache, s.tasks[t], t, top);
    forall i | 0 <= i < |s.tasks[x]| ensures GoodFrame(w, r.cache, r.tasks[x], x, i) {
      assert GoodFrame(w, s.cache, s.tasks[x], x, i);
      assert i + 1 < |s.tasks[x]| ==> r.tasks[x][i + 1].url == s.tasks[x][i + 1].url;
    }
  }

  lemma {:induction false} FinishKeepsCache(w: Web, s: State, t: nat, value: Option<Css>, keep: bool)
    requires Inv(w, s) && t < |s.tasks| && Owns(Top(s.tasks[t]))
    ensures GoodCache(w, Finish(w, s, t, value, keep))
  {
    var r := Finish(w, s, t, value, keep);
    var url := Top(s.tasks[t]).url;
    assert GoodFrame(w, s.cache, s.tasks[t], t, |s.tasks[t]| - 1);
    KeptWith(w, s.cache.done, url, value);
    forall u | u in r.cache.pending ensures u !in r.cache.done && HeldBy(r, u) {
      assert HeldBy(s, u);
    }
  }

  lemma {:induction false} FinishKeeps(w: Web, s: State, t: nat, value: Option<Css>, keep: bool)
    requires Inv(w, s) && t < |s.tasks| && Owns(Top(s.tasks[t]))
    ensures Inv(w, Finish(w, s, t, value, keep))
  {
    FinishKeepsCache(w, s, t, value, keep);
    forall x | 0 <= x < |s.tasks|
      ensures GoodTask(w, Finish(w, s, t, value, keep).cache, Finish(w, s, t, value, keep).tasks[x], x)
    {
      FinishKeepsFrames(w, s, t, value, keep, x);
    }
  }

  // --- Inner calls ---

  lemma {:induction false} CallKeeps(w: Web, s: State, t: nat)
    requires Inv(w, s) && CanStep(s, Advance(t))
    requires var f := Top(s.tasks[t]); f.phase.next < |ImportsOf(w, f.url)| && f.depth < MAX_IMPORT_DEPTH
    ensures Inv(w, AfterAdvance(w, s, t))
  {
    var r := AfterAdvance(w, s, t);
    var task := s.tasks[t];
    assert GoodFrame(w, s.cache, task, t, |task| - 1);
    forall i | 0 <= i < |r.tasks[t]| ensures GoodFrame(w, r.cache, r.tasks[t], t, i) {
      if i < |task| {
        assert GoodFrame(w, s.cache, task, t, i);
      } else {
        NotHeldBeyond(w, s, t, i);
      }
    }
    forall u | u in r.cache.pending ensures u !in r.cache.done && HeldBy(r, u) {
      assert HeldBy(s, u);
    }
  }

  lemma {:induction false} NotHeldBeyond(w: Web, s: State, t: nat, i: nat)
    requires Inv(w, s) && t < |s.tasks| && i >= |s.tasks[t]|
    ensures forall u :: u in s.cache.pending ==> s.cache.pending[u] != (t, i)
  {
    forall u | u in s.cache.pending ensures s.cache.pending[u] != (t, i) {
      assert HeldBy(s, u);
    }
  }

  function Popped(s: State, t: nat): State
    requires t < |s.tasks| && s.tasks[t] != []
  {
    s.(tasks := s.tasks[t := s.tasks[t][..|s.tasks[t]| - 1]])
  }

  lemma {:induction false} PopKeeps(w: Web, s: State, t: nat)
    requires Inv(w, s) && CanStep(s, Return(t))
    ensures Inv(w, Popped(s, t)) && Owns(Top(Popped(s, t).tasks[t]))
  {
    var r := Popped(s, t);
    var top := |s.tasks[t]| - 1;
    assert GoodFrame(w, s.cache, s.tasks[t], t, top);
    forall i | 0 <= i < |r.tasks[t]| ensures GoodFrame(w, r.cache, r.tasks[t], t, i) {
      assert GoodFrame(w, s.cache, s.tasks[t], t, i);
    }
    forall u | u in r.cache.pending ensures u !in r.cache.done && HeldBy(r, u) {
      assert HeldBy(s, u);
      assert s.cache.pending[u] != (t, top);
    }
  }

  lemma {:induction false} ReturnKeeps(w: Web, s: State, t: nat)
    requires Inv(w, s) && CanStep(s, Return(t))
    ensures Inv(w, AfterReturn(w, s, t))
  {
    var value := Top(s.tasks[t]).phase.value;
    var under := Popped(s, t);
    PopKeeps(w, s, t);
    var f := Top(under.tasks[t]);
    if value.None? {
      FinishKeeps(w, under, t, None, true);
    } else {
      var i := |under.tasks[t]| - 1;
      assert GoodFrame(w, s.cache, s.tasks[t], t, i);
      assert GoodFrame(w, under.cache, under.tasks[t], t, i);
      SetTopKeeps(w, under, t,
                  Importing(f.phase.pieces + Wrapped(value.value, ConditionsOf(w, f.url, f.phase.next)), f.phase.next + 1));
    }
  }

  lemma {:induction false} AdvanceKeeps(w: Web, s: State, t: nat)
    requires Inv(w, s) && CanStep(s, Advance(t))
    ensures Inv(w, AfterAdvance(w, s, t))
  {
    var f := Top(s.tasks[t]);
    if f.phase.next >= |ImportsOf(w, f.url)| {
      FinishKeeps(w, s, t, Closed(w, Some(f.phase.pieces), RestOf(w, f.url)), true);
    } else if f.depth >= MAX_IMPORT_DEPTH {
      FinishKeeps(w, s, t, None, true);
    } else {
      CallKeeps(w, s, t);
    }
  }

  lemma {:induction false} RaisedIsOnlyRemembered(w: Web, s: State, raised: set<string>)
    requires Inv(w, s)
    ensures Inv(w, s.(raised := raised))
  {
    var r := s.(raised := raised);
    forall u | u in r.cache.pending ensures u !in r.cache.done && HeldBy(r, u) {
      assert HeldBy(s, u);
    }
  }

  lemma {:induction false} RespondKeeps(w: Web, s: State, t: nat, raises: bool)
    requires Inv(w, s) && CanStep(s, Respond(t, raises))
    ensures Inv(w, AfterRespond(w, s, t, raises))
  {
    var url := Top(s.tasks[t]).url;
    if raises {
      FinishKeeps(w, s, t, None, false);
      RaisedIsOnlyRemembered(w, Finish(w, s, t, None, false), s.raised + {url});
    } else if w.respond(url).Unusable? {
      FinishKeeps(w, s, t, None, true);
    } else {
      assert GoodFrame(w, s.cache, s.tasks[t], t, |s.tasks[t]| - 1);
      SetTopKeeps(w, s, t, Importing([], 0));
    }
  }

  lemma {:induction false} StepKeeps(w: Web, s: State, step: Step)
    requires Inv(w, s) && CanStep(s, step)
    ensures Inv(w, After(w, s, step))
  {
    match step
    case Enter(t) => EnterKeeps(w, s, t);
    case Respond(t, raises) => RespondKeeps(w, s, t, raises);
    case Advance(t) => AdvanceKeeps(w, s, t);
    case Return(t) => ReturnKeeps(w, s, t);
  }

  lemma {:induction false} RunKeeps(w: Web, s: State, steps: seq<Step>)
    requires Inv(w, s) && Runs(w, s, steps)
    ensures Inv(w, AfterAll(w, s, steps))
    decreases |steps|
  {
    if steps != [] {
      StepKeeps(w, s, steps[0]);
      RunKeeps(w, After(w, s, steps[0]), steps[1..]);
    }
  }

  lemma {:induction false} StartIsGood(w: Web, urls: seq<string>)
    ensures Inv(w, Start(urls))
  {
  }

  // --- What this means ---

  /** Two calls never have a request for one address outstanding at once. */
  lemma {:induction false} OneRequestEach(w: Web, urls: seq<string>, steps: seq<Step>, t: nat, i: nat, u: nat, j: nat)
    requires Runs(w, Start(urls), steps)
    requires var s := AfterAll(w, Start(urls), steps);
             t < |s.tasks| && i < |s.tasks[t]| && u < |s.tasks| && j < |s.tasks[u]|
    ensures var s := AfterAll(w, Start(urls), steps);
            var f, g := s.tasks[t][i], s.tasks[u][j];
            f.phase.Requesting? && g.phase.Requesting? && f.url == g.url ==> t == u && i == j
  {
    StartIsGood(w, urls);
    RunKeeps(w, Start(urls), steps);
    var s := AfterAll(w, Start(urls), steps);
    assert GoodFrame(w, s.cache, s.tasks[t], t, i) && GoodFrame(w, s.cache, s.tasks[u], u, j);
  }

  /** The byte count is the total length kept, and within its bound, whatever happens. */
  lemma {:induction false} BytesAreExact(w: Web, urls: seq<string>, steps: seq<Step>)
    requires Runs(w, Start(urls), steps)
    ensures var c := AfterAll(w, Start(urls), steps).cache; c.bytes == Kept(w, c.done) <= w.maxBytes
  {
    StartIsGood(w, urls);
    RunKeeps(w, Start(urls), steps);
  }
}
