/** Status changes and their log, `src/audit/db/repo.py`: the log of every finding must replay to the
    status it has, through any mix of bulk changes and later crawls. One instance of the table stands
    for `findings`, another for `page_a11y_findings`; the two bulk functions are alike. */
module StatusHistory {
  import opened Text
  import opened FindingStatus

  const MAX_RATIONALE := 2000

  datatype Actor = System | User | OtherActor
  datatype Error = UnknownStatus | TooLong | RationaleRequired | UnknownActor

  // --- Rationales ---

  predicate Decisive(status: Status) {
    status.InProgress? || status.Remediated? || status.AcceptedRisk? || status.FalsePositive?
  }

  /** `normalize_status_rationale`; `status` is `None` for a text that names none, and `redact` stands
      for the redaction of secrets. */
  function NormalizeRationale(status: Option<Status>, rationale: Option<string>, redact: string -> string)
    : (r: Result<Option<string>, Error>)
    ensures r.Ok? && r.value.Some? ==> 0 < |r.value.value| <= MAX_RATIONALE
    ensures r.Ok? ==> status.Some? && (Decisive(status.value) ==> r.value.Some?)
    ensures r.Err? && r.error.TooLong? ==> rationale.Some? && |Strip(rationale.value)| > MAX_RATIONALE
  {
    if status.None? then Err(UnknownStatus)
    else
      var normalized := if rationale.Some? then Strip(rationale.value) else [];
      if |normalized| > MAX_RATIONALE then Err(TooLong)
      else
        var redacted := if normalized == [] then [] else redact(normalized);
        TrimRightFacts(redacted);
        var safe := Bounded(redacted);
        if Decisive(status.value) && safe == [] then Err(RationaleRequired)
        else Ok(if safe == [] then None else Some(safe))
  }

  function Bounded(s: string): (r: string)
    ensures |r| <= MAX_RATIONALE
  {
    if |s| > MAX_RATIONALE then
      TrimRightFacts(s[..MAX_RATIONALE]);
      TrimRight(s[..MAX_RATIONALE])
    else s
  }

  /** What is kept of a reason: the trimmed text redacted, whole when it fits 2000 characters and cut to them when it
      does not; a text already too long is refused before it is redacted, and four statuses are refused without one. */
  lemma {:induction false} NoteIsRedacted(status: Option<Status>, rationale: Option<string>, redact: string -> string)
    ensures var given := if rationale.Some? then Strip(rationale.value) else "";
            var safe := if given == "" then "" else redact(given);
            var kept := if |safe| <= 2000 then safe else TrimRight(safe[..2000]);
            && kept <= safe
            && NormalizeRationale(status, rationale, redact) ==
                 if status.None? then Err(UnknownStatus)
                 else if |given| > 2000 then Err(TooLong)
                 else if kept != "" then Ok(Some(kept))
                 else if status.value in {InProgress, Remediated, AcceptedRisk, FalsePositive} then Err(RationaleRequired)
                 else Ok(None)
  {
    var given := if rationale.Some? then Strip(rationale.value) else "";
    var safe := if given == "" then "" else redact(given);
    if |safe| > 2000 {
      TrimRightFacts(safe[..2000]);
    }
  }

  // --- The table and its log ---

  /** What a crawl identifies a finding by. */
  datatype NaturalKey = ImageKey(image: nat, scan: nat) | PageKey(page: nat, rule: string, target: string)

  datatype Finding = Finding(key: NaturalKey, status: Status, details: string)

  datatype Entry = Entry(finding: nat, before: Status, after: Status, actor: Actor, note: Option<string>)

  /** Rows by id, ids below `next`, the unique index on natural keys, and the log. */
  datatype State = State(rows: map<nat, Finding>, ids: map<NaturalKey, nat>, next: nat, log: seq<Entry>)

  const EMPTY := State(map[], map[], 1, [])

  /** A crawl sees a finding: a new row starts as `New`, a known one keeps its status. */
  function Upserted(s: State, key: NaturalKey, details: string): State {
    if key in s.ids && s.ids[key] in s.rows then
      s.(rows := s.rows[s.ids[key] := s.rows[s.ids[key]].(details := details)])
    else
      State(s.rows[s.next := Finding(key, New, details)], s.ids[key := s.next], s.next + 1, s.log)
  }

  predicate Changes(s: State, finding: nat, ids: seq<nat>, status: Status) {
    finding in s.rows && finding in ids && s.rows[finding].status != status
  }

  /** The rows below `hi` that a bulk change affects, each once, whatever the list repeats. */
  function Changed(s: State, ids: seq<nat>, status: Status, hi: nat): (r: seq<nat>)
    ensures forall k :: 0 <= k < |r| ==> r[k] < hi && Changes(s, r[k], ids, status)
    ensures forall j, k :: 0 <= j < k < |r| ==> r[j] < r[k]
  {
    if hi == 0 then []
    else Changed(s, ids, status, hi - 1) + if Changes(s, hi - 1, ids, status) then [hi - 1] else []
  }

  function Entries(s: State, changed: seq<nat>, status: Status, actor: Actor, note: Option<string>): (r: seq<Entry>)
    requires forall k :: 0 <= k < |changed| ==> changed[k] in s.rows
    ensures |r| == |changed|
    ensures forall k :: 0 <= k < |r| ==> r[k] == Entry(changed[k], s.rows[changed[k]].status, status, actor, note)
  {
    seq(|changed|, k requires 0 <= k < |changed| => Entry(changed[k], s.rows[changed[k]].status, status, actor, note))
  }

  function WithStatus(s: State, changed: seq<nat>, status: Status): map<nat, Finding> {
    map f | f in s.rows :: if f in changed then s.rows[f].(status := status) else s.rows[f]
  }

  function BulkSet(s: State, ids: seq<nat>, status: Status, actor: Actor, note: Option<string>): State {
    var changed := Changed(s, ids, status, s.next);
    s.(rows := WithStatus(s, changed, status), log := s.log + Entries(s, changed, status, actor, note))
  }

  // --- Replay ---

  /** The status the log leads to, starting from `New`; `None` when an entry does not follow on from the
      one before, or changes nothing. */
  function Replay(log: seq<Entry>, finding: nat): Option<Status> {
    if log == [] then Some(New)
    else
      var before, last := Replay(log[..|log| - 1], finding), log[|log| - 1];
      if last.finding != finding then before
      else if before == Some(last.before) && last.before != last.after then Some(last.after)
      else None
  }

  predicate Mentions(log: seq<Entry>, finding: nat) {
    exists k :: 0 <= k < |log| && log[k].finding == finding
  }

  /** A decision is logged with its reason. */
  predicate Reasoned(e: Entry) {
    && (Decisive(e.after) ==> e.note.Some?)
    && (e.note.Some? ==> 0 < |e.note.value| <= MAX_RATIONALE)
  }

  predicate Valid(s: State) {
    && (forall f :: f in s.rows ==> f < s.next && Replay(s.log, f) == Some(s.rows[f].status))
    && (forall f :: f in s.rows ==> s.rows[f].key in s.ids && s.ids[s.rows[f].key] == f)
    && (forall k :: k in s.ids ==> s.ids[k] in s.rows && s.rows[s.ids[k]].key == k)
    && (forall k :: 0 <= k < |s.log| ==> s.log[k].finding in s.rows && Reasoned(s.log[k]))
  }

  lemma {:induction false} ReplayUnmentioned(log: seq<Entry>, more: seq<Entry>, finding: nat)
    requires !Mentions(more, finding)
    ensures Replay(log + more, finding) == Replay(log, finding)
    decreases |more|
  {
    if more == [] {
      assert log + more == log;
    } else {
      var init, last := more[..|more| - 1], more[|more| - 1];
      assert last.finding != finding;
      assert !Mentions(init, finding) by {
        assert forall k :: 0 <= k < |init| ==> init[k] == more[k];
      }
      ReplayUnmentioned(log, init, finding);
      assert (log + more)[..|log + more| - 1] == log + init;
    }
  }

  /** One entry for a finding among entries for others. */
  lemma {:induction false} ReplayOnce(log: seq<Entry>, more: seq<Entry>, k: nat)
    requires k < |more| && more[k].before != more[k].after
    requires Replay(log, more[k].finding) == Some(more[k].before)
    requires forall j :: 0 <= j < |more| && j != k ==> more[j].finding != more[k].finding
    ensures Replay(log + more, more[k].finding) == Some(more[k].after)
    decreases |more|
  {
    var init, last := more[..|more| - 1], more[|more| - 1];
    assert (log + more)[..|log + more| - 1] == log + init;
    if k == |more| - 1 {
      ReplayUnmentioned(log, init, last.finding);
    } else {
      ReplayOnce(log, init, k);
    }
  }

  lemma {:induction false} ChangedHasAll(s: State, ids: seq<nat>, status: Status, hi: nat, f: nat)
    requires f < hi && Changes(s, f, ids, status)
    ensures f in Changed(s, ids, status, hi)
  {
    if f < hi - 1 {
      ChangedHasAll(s, ids, status, hi - 1, f);
    }
  }

  predicate Distinct(ids: seq<nat>) {
    forall j, k :: 0 <= j < k < |ids| ==> ids[j] != ids[k]
  }

  /** Entries for different findings, each following on from what the log says of its own. */
  lemma {:induction false} EntriesReplay(s: State, changed: seq<nat>, status: Status, actor: Actor, note: Option<string>, f: nat)
    requires Distinct(changed) && forall k :: 0 <= k < |changed| ==> changed[k] in s.rows
    requires f in s.rows && Replay(s.log, f) == Some(s.rows[f].status)
    requires f in changed ==> s.rows[f].status != status
    ensures Replay(s.log + Entries(s, changed, status, actor, note), f) ==
            Some(if f in changed then status else s.rows[f].status)
  {
    var entries := Entries(s, changed, status, actor, note);
    if f in changed {
      var k :| 0 <= k < |changed| && changed[k] == f;
      assert forall j :: 0 <= j < |entries| && j != k ==> entries[j].finding == changed[j];
      ReplayOnce(s.log, entries, k);
    } else {
      assert forall j :: 0 <= j < |entries| ==> entries[j].finding == changed[j];
      ReplayUnmentioned(s.log, entries, f);
    }
  }

  lemma {:induction false} BulkKeepsReplay(s: State, ids: seq<nat>, status: Status, actor: Actor, note: Option<string>, f: nat)
    requires Valid(s) && f in s.rows
    ensures var t := BulkSet(s, ids, status, actor, note); f in t.rows && Replay(t.log, f) == Some(t.rows[f].status)
  {
    EntriesReplay(s, Changed(s, ids, status, s.next), status, actor, note, f);
  }

  lemma {:induction false} BulkKeepsLog(s: State, ids: seq<nat>, status: Status, actor: Actor, note: Option<string>, k: nat)
    requires Valid(s) && (Decisive(status) ==> note.Some?) && (note.Some? ==> 0 < |note.value| <= MAX_RATIONALE)
    requires k < |BulkSet(s, ids, status, actor, note).log|
    ensures var t := BulkSet(s, ids, status, actor, note); t.log[k].finding in t.rows && Reasoned(t.log[k])
  {
    var changed := Changed(s, ids, status, s.next);
    if k >= |s.log| {
      assert changed[k - |s.log|] in s.rows;
    }
  }

  lemma {:induction false} BulkKeepsKeys(s: State, ids: seq<nat>, status: Status, actor: Actor, note: Option<string>)
    requires Valid(s)
    ensures var t := BulkSet(s, ids, status, actor, note);
            t.rows.Keys == s.rows.Keys && forall f :: f in s.rows ==> t.rows[f].key == s.rows[f].key
  {
  }

  lemma {:induction false} BulkKeepsValid(s: State, ids: seq<nat>, status: Status, actor: Actor, note: Option<string>)
    requires Valid(s) && (Decisive(status) ==> note.Some?) && (note.Some? ==> 0 < |note.value| <= MAX_RATIONALE)
    ensures Valid(BulkSet(s, ids, status, actor, note))
  {
    var t := BulkSet(s, ids, status, actor, note);
    BulkKeepsKeys(s, ids, status, actor, note);
    forall f | f in t.rows ensures f < t.next && Replay(t.log, f) == Some(t.rows[f].status) {
      BulkKeepsReplay(s, ids, status, actor, note, f);
    }
    forall k | 0 <= k < |t.log| ensures t.log[k].finding in t.rows && Reasoned(t.log[k]) {
      BulkKeepsLog(s, ids, status, actor, note, k);
    }
  }

  lemma {:induction false} ReplayNew(log: seq<Entry>, f: nat)
    requires !Mentions(log, f)
    ensures Replay(log, f) == Some(New)
  {
    ReplayUnmentioned([], log, f);
    assert [] + log == log;
  }

  lemma {:induction false} NewRowReplays(s: State)
    requires Valid(s)
    ensures Replay(s.log, s.next) == Some(New) && s.next !in s.rows
  {
    forall k | 0 <= k < |s.log| ensures s.log[k].finding != s.next {
      assert s.log[k].finding in s.rows;
    }
    ReplayNew(s.log, s.next);
  }

  lemma {:induction false} UpsertKeepsValid(s: State, key: NaturalKey, details: string)
    requires Valid(s)
    ensures Valid(Upserted(s, key, details))
  {
    if key !in s.ids {
      NewRowReplays(s);
    }
  }

  // --- Runs ---

  datatype Op =
    | Upsert(key: NaturalKey, details: string)
    | Bulk(ids: seq<nat>, status: Option<Status>, actor: Actor, rationale: Option<string>)

  function Next(s: State, op: Op, redact: string -> string): State {
    match op
    case Upsert(key, details) => Upserted(s, key, details)
    case Bulk(ids, status, actor, rationale) =>
      var note := NormalizeRationale(status, rationale, redact);
      if note.Err? || actor.OtherActor? then s else BulkSet(s, ids, status.value, actor, note.value)
  }

  function After(s: State, ops: seq<Op>, redact: string -> string): State {
    if ops == [] then s else Next(After(s, ops[..|ops| - 1], redact), ops[|ops| - 1], redact)
  }

  lemma {:induction false} StepKeepsValid(s: State, op: Op, redact: string -> string)
    requires Valid(s)
    ensures Valid(Next(s, op, redact))
  {
    match op
    case Upsert(key, details) => UpsertKeepsValid(s, key, details);
    case Bulk(ids, status, actor, rationale) =>
      var note := NormalizeRationale(status, rationale, redact);
      if note.Ok? {
        BulkKeepsValid(s, ids, status.value, actor, note.value);
      }
  }

  /** After any run, every finding's log chains from `New` to its status without an empty change, and
      every decision carries a bounded reason. */
  lemma {:induction false} HistoryReplays(ops: seq<Op>, redact: string -> string)
    ensures Valid(After(EMPTY, ops, redact))
    decreases |ops|
  {
    if ops != [] {
      HistoryReplays(ops[..|ops| - 1], redact);
      StepKeepsValid(After(EMPTY, ops[..|ops| - 1], redact), ops[|ops| - 1], redact);
    }
  }

  /** A later crawl never changes a status or the log. */
  lemma {:induction false} UpsertKeepsDecisions(s: State, key: NaturalKey, details: string, f: nat)
    requires Valid(s) && f in s.rows
    ensures var t := Upserted(s, key, details);
            && t.log == s.log && f in t.rows && t.rows[f].status == s.rows[f].status && t.rows[f].key == s.rows[f].key
            && (key in s.ids ==> t.rows.Keys == s.rows.Keys)
  {
  }

  /** A bulk change gives exactly the findings asked for the new status and changes nothing else of any. */
  lemma {:induction false} BulkSetsExactly(s: State, ids: seq<nat>, status: Status, actor: Actor, note: Option<string>, f: nat)
    requires Valid(s) && f in s.rows
    ensures var t := BulkSet(s, ids, status, actor, note);
            && t.rows.Keys == s.rows.Keys && t.ids == s.ids
            && t.rows[f] == if f in ids then s.rows[f].(status := status) else s.rows[f]
  {
    if f in ids && s.rows[f].status != status {
      ChangedHasAll(s, ids, status, s.next, f);
    }
  }

  predicate Logs(entries: seq<Entry>, f: nat) {
    exists e :: e in entries && e.finding == f
  }

  /** It logs a finding exactly when its status changes, with both statuses, the actor and the note. */
  lemma {:induction false} BulkLogsExactly(s: State, ids: seq<nat>, status: Status, actor: Actor, note: Option<string>, f: nat)
    requires Valid(s) && f in s.rows
    ensures var log := BulkSet(s, ids, status, actor, note).log;
            && s.log <= log
            && (Logs(log[|s.log|..], f) <==> f in ids && s.rows[f].status != status)
            && forall e :: e in log[|s.log|..] && e.finding == f ==> e == Entry(f, s.rows[f].status, status, actor, note)
  {
    var changed := Changed(s, ids, status, s.next);
    var entries := Entries(s, changed, status, actor, note);
    assert (s.log + entries)[|s.log|..] == entries;
    EntriesLog(s, changed, status, actor, note, f);
    if f in ids && s.rows[f].status != status {
      ChangedHasAll(s, ids, status, s.next, f);
    }
  }

  lemma {:induction false} EntriesLog(s: State, changed: seq<nat>, status: Status, actor: Actor, note: Option<string>, f: nat)
    requires f in s.rows && forall k :: 0 <= k < |changed| ==> changed[k] in s.rows
    ensures var entries := Entries(s, changed, status, actor, note);
            && (Logs(entries, f) <==> f in changed)
            && forall e :: e in entries && e.finding == f ==> e == Entry(f, s.rows[f].status, status, actor, note)
  {
    var entries := Entries(s, changed, status, actor, note);
    if f in changed {
      var k :| 0 <= k < |changed| && changed[k] == f;
      assert entries[k] in entries && entries[k].finding == f;
    }
  }

  /** A crawl that sees a finding: a known one only has its details renewed, an unknown one is added as new. */
  lemma {:induction false} UpsertSetsExactly(s: State, key: NaturalKey, details: string)
    requires Valid(s)
    ensures var t := Upserted(s, key, details);
            && key in t.ids && t.log == s.log
            && t.rows == s.rows[t.ids[key] := Finding(key, if key in s.ids then s.rows[s.ids[key]].status else New, details)]
            && (if key in s.ids then t.ids == s.ids else t.ids[key] !in s.rows && t.ids == s.ids[key := t.ids[key]])
  {
  }

  // --- The table as the program changes it ---

  class FindingTable {
    var rows: map<nat, Finding>
    var ids: map<NaturalKey, nat>
    var next: nat
    var log: seq<Entry>

    constructor ()
      ensures Contents() == EMPTY
    {
      rows, ids, next, log := map[], map[], 1, [];
    }

    ghost function Contents(): State
      reads this
    {
      State(rows, ids, next, log)
    }

    method UpsertFinding(key: NaturalKey, details: string) returns (id: nat)
      requires Valid(Contents())
      modifies this
      ensures Contents() == Upserted(old(Contents()), key, details) && Valid(Contents())
      ensures key in ids && ids[key] == id && id in rows
    {
      UpsertKeepsValid(Contents(), key, details);
      if key in ids {
        id := ids[key];
        rows := rows[id := rows[id].(details := details)];
      } else {
        id := next;
        rows := rows[id := Finding(key, New, details)];
        ids := ids[key := id];
        next := next + 1;
      }
    }

    /** The affected rows with the status each had, in row order. */
    method SelectChanged(wanted: seq<nat>, status: Status) returns (changed: seq<nat>)
      ensures changed == Changed(Contents(), wanted, status, next)
    {
      changed := [];
      for f := 0 to next
        invariant changed == Changed(Contents(), wanted, status, f)
      {
        if f in rows && f in wanted && rows[f].status != status {
          changed := changed + [f];
        }
      }
    }

    /** Logs each change, then makes them all. */
    method WriteChanges(changed: seq<nat>, status: Status, actor: Actor, note: Option<string>)
      requires forall k :: 0 <= k < |changed| ==> changed[k] in rows
      modifies this`rows, this`log
      ensures log == old(log) + Entries(old(Contents()), changed, status, actor, note)
      ensures rows == WithStatus(old(Contents()), changed, status)
    {
      ghost var entries := Entries(Contents(), changed, status, actor, note);
      for i := 0 to |changed|
        invariant rows == old(rows) && log == old(log) + entries[..i]
      {
        log := log + [Entry(changed[i], rows[changed[i]].status, status, actor, note)];
      }
      rows := map f | f in rows :: if f in changed then rows[f].(status := status) else rows[f];
    }

    /** The rows that change, logged and written. */
    method SetStatus(wanted: seq<nat>, status: Status, actor: Actor, note: Option<string>) returns (count: nat)
      modifies this`rows, this`log
      ensures Contents() == BulkSet(old(Contents()), wanted, status, actor, note)
      ensures count == |Changed(old(Contents()), wanted, status, next)|
    {
      NothingChanges(Contents(), wanted, status, actor, note);
      if wanted == [] {
        return 0;
      }
      var changed := SelectChanged(wanted, status);
      if changed == [] {
        return 0;
      }
      WriteChanges(changed, status, actor, note);
      return |changed|;
    }

    method BulkSetStatus(wanted: seq<nat>, status: Option<Status>, actor: Actor, rationale: Option<string>,
                         redact: string -> string)
      returns (r: Result<nat, Error>)
      requires Valid(Contents())
      modifies this`rows, this`log
      ensures Contents() == Next(old(Contents()), Bulk(wanted, status, actor, rationale), redact) && Valid(Contents())
      ensures r.Err? ==> Contents() == old(Contents())
      ensures r.Ok? ==> |log| == |old(log)| + r.value
      ensures r.Ok? ==> status.Some? && r.value == |Affected(old(Contents()), wanted, status.value)|
      ensures r.Ok? <==> NormalizeRationale(status, rationale, redact).Ok? && !actor.OtherActor?
    {
      StepKeepsValid(Contents(), Bulk(wanted, status, actor, rationale), redact);
      var note := NormalizeRationale(status, rationale, redact);
      if note.Err? {
        return Err(note.error);
      }
      if actor.OtherActor? {
        return Err(UnknownActor);
      }
      ChangedAreAffected(Contents(), wanted, status.value);
      var count := SetStatus(wanted, status.value, actor, note.value);
      return Ok(count);
    }
  }

  lemma {:induction false} NothingChanges(s: State, wanted: seq<nat>, status: Status, actor: Actor, note: Option<string>)
    ensures var changed := Changed(s, wanted, status, s.next);
            (wanted == [] ==> changed == []) && (changed == [] ==> BulkSet(s, wanted, status, actor, note) == s)
  {
    var changed := Changed(s, wanted, status, s.next);
    if changed != [] {
      assert changed[0] in wanted;
    } else {
      assert WithStatus(s, [], status) == s.rows;
      assert s.log + [] == s.log;
    }
  }

  /** The different findings a bulk change asks to change. */
  function Affected(s: State, wanted: seq<nat>, status: Status): set<nat> {
    set f | f in s.rows && f in wanted && s.rows[f].status != status
  }

  /** As many rows are changed, and logged, as there are different findings to change. */
  lemma {:induction false} ChangedAreAffected(s: State, wanted: seq<nat>, status: Status)
    requires Valid(s)
    ensures |Changed(s, wanted, status, s.next)| == |Affected(s, wanted, status)|
  {
    var changed := Changed(s, wanted, status, s.next);
    forall f | f in Affected(s, wanted, status) ensures f in changed {
      ChangedHasAll(s, wanted, status, s.next, f);
    }
    DistinctCount(changed, Affected(s, wanted, status));
  }

  lemma {:induction false} DistinctCount(s: seq<nat>, all: set<nat>)
    requires Distinct(s) && (forall k :: 0 <= k < |s| ==> s[k] in all) && (forall f :: f in all ==> f in s)
    ensures |all| == |s|
    decreases |s|
  {
    if s != [] {
      var init, last := s[..|s| - 1], s[|s| - 1];
      forall f | f in all - {last} ensures f in init {
        assert f in s;
      }
      DistinctCount(init, all - {last});
    }
  }
}
