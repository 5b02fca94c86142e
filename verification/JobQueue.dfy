/** The persistent job table of `src/audit/db/queue.py`.

    A row keeps its id for life and ids only grow, so the table is a sequence of rows in id
    order.  Every statement but INSERT rewrites rows one by one, so it is an `Update` mapped
    over the sequence; the class below runs the statements in place. */
module JobQueue {
  import opened Text

  datatype JobState = Pending | Leased | Completed | Failed

  datatype Job = Job(id: nat, scan: nat, url: string, depth: nat, key: Option<string>,
                     state: JobState, leaseUntil: Option<int>, attempts: nat)

  datatype Table = Table(rows: seq<Job>, nextId: nat)

  const JOB_KIND := "fetch"
  const MAX_ATTEMPTS := 3

  /** The value the crawler stores in the UNIQUE `dedupe_key` column. */
  function DedupeKey(scan: nat, url: string): string {
    JOB_KIND + ":" + (Decimal(scan) + [':'] + url)
  }

  /** Two jobs collide on their key exactly when they are the same URL of the same scan. */
  lemma {:induction false} DedupeKeyInjective(scan: nat, url: string, scan': nat, url': string)
    ensures DedupeKey(scan, url) == DedupeKey(scan', url') <==> scan == scan' && url == url'
    ensures DedupeKey(scan, url) == "fetch" + ":" + (Decimal(scan) + ":" + url)
  {
    if DedupeKey(scan, url) == DedupeKey(scan', url') {
      var a, b := Decimal(scan) + [':'] + url, Decimal(scan') + [':'] + url';
      var p := JOB_KIND + ":";
      assert a == (p + a)[|p|..] && b == (p + b)[|p|..];
      SplitUnique(Decimal(scan), url, Decimal(scan'), url', ':');
      DecimalInjective(scan, scan');
    }
  }

  // --- The statements ---

  datatype Update =
    | Claim(id: nat, until: int)
    | Complete(id: nat)
    | Fail(id: nat)
    | Reclaim(now: int)

  function Apply(u: Update, j: Job): Job {
    match u
    case Claim(id, until) =>
      if j.id == id then j.(state := Leased, leaseUntil := Some(until), attempts := j.attempts + 1) else j
    case Complete(id) =>
      if j.id == id then j.(state := Completed, leaseUntil := None) else j
    case Fail(id) =>
      if j.id == id then
        j.(state := if j.attempts >= MAX_ATTEMPTS then Failed else Pending, leaseUntil := None)
      else j
    case Reclaim(now) =>
      if Expired(j, now) then
        j.(state := Pending, leaseUntil := None)
      else j
  }

  predicate Expired(j: Job, now: int) {
    j.state.Leased? && j.leaseUntil.Some? && j.leaseUntil.value < now
  }

  function ExpiredCount(rows: seq<Job>, now: int): nat {
    if rows == [] then 0
    else ExpiredCount(rows[..|rows| - 1], now) + if Expired(rows[|rows| - 1], now) then 1 else 0
  }

  function ApplyAll(u: Update, rows: seq<Job>): (r: seq<Job>)
    ensures |r| == |rows| && forall i :: 0 <= i < |r| ==> r[i] == Apply(u, rows[i])
  {
    seq(|rows|, i requires 0 <= i < |rows| => Apply(u, rows[i]))
  }

  predicate HasKey(rows: seq<Job>, key: Option<string>) {
    key.Some? && exists i :: 0 <= i < |rows| && rows[i].key == key
  }

  /** INSERT OR IGNORE: a row whose key is taken is not inserted. */
  function Insert(t: Table, scan: nat, url: string, depth: nat, key: Option<string>): Table {
    if HasKey(t.rows, key) then t
    else Table(t.rows + [Job(t.nextId, scan, url, depth, key, Pending, None, 0)], t.nextId + 1)
  }

  predicate Ready(j: Job, scan: Option<nat>) {
    j.state.Pending? && (scan.None? || j.scan == scan.value)
  }

  /** The row `ORDER BY id LIMIT 1` selects, or the table's length when no row is ready. */
  function FirstReady(rows: seq<Job>, scan: Option<nat>): (i: nat)
    ensures i <= |rows|
    ensures forall k :: 0 <= k < i ==> !Ready(rows[k], scan)
    ensures i < |rows| ==> Ready(rows[i], scan)
  {
    if rows == [] || Ready(rows[0], scan) then 0 else 1 + FirstReady(rows[1..], scan)
  }

  lemma {:induction false} FirstReadyIs(rows: seq<Job>, scan: Option<nat>, i: nat)
    requires i <= |rows|
    requires forall k :: 0 <= k < i ==> !Ready(rows[k], scan)
    requires i < |rows| ==> Ready(rows[i], scan)
    ensures FirstReady(rows, scan) == i
  {
  }

  // --- Table invariant ---

  predicate IdsGrow(t: Table) {
    && (forall i, j :: 0 <= i < j < |t.rows| ==> t.rows[i].id < t.rows[j].id)
    && (forall i :: 0 <= i < |t.rows| ==> t.rows[i].id < t.nextId)
  }

  predicate KeysUnique(rows: seq<Job>) {
    forall i, j :: 0 <= i < j < |rows| && rows[i].key.Some? ==> rows[i].key != rows[j].key
  }

  predicate ValidTable(t: Table) {
    IdsGrow(t) && KeysUnique(t.rows)
  }

  /** Ids, URLs and keys never change, so uniqueness outlives every UPDATE. */
  lemma {:induction false} UpdateKeepsValid(u: Update, t: Table)
    requires ValidTable(t)
    ensures ValidTable(Table(ApplyAll(u, t.rows), t.nextId))
    ensures KeysMatch(t.rows) ==> KeysMatch(ApplyAll(u, t.rows))
  {
  }

  lemma {:induction false} ClaimOneRow(t: Table, i: nat, until: int)
    requires IdsGrow(t) && i < |t.rows|
    ensures ApplyAll(Claim(t.rows[i].id, until), t.rows) ==
            t.rows[i := t.rows[i].(state := Leased, leaseUntil := Some(until), attempts := t.rows[i].attempts + 1)]
  {
    assert forall k :: 0 <= k < |t.rows| && k != i ==> t.rows[k].id != t.rows[i].id;
  }

  // --- One scan of a table many scans share ---

  /** The rows of one scan, in id order. */
  function View(rows: seq<Job>, scan: nat): seq<Job> {
    if rows == [] then []
    else
      var last := rows[|rows| - 1];
      View(rows[..|rows| - 1], scan) + if last.scan == scan then [last] else []
  }

  lemma {:induction false} InView(rows: seq<Job>, scan: nat, j: Job)
    ensures j in View(rows, scan) <==> j in rows && j.scan == scan
  {
    if rows != [] {
      var n := |rows| - 1;
      InView(rows[..n], scan, j);
      assert rows == rows[..n] + [rows[n]];
    }
  }

  predicate KeysMatch(rows: seq<Job>) {
    forall i :: 0 <= i < |rows| ==> rows[i].key == Some(DedupeKey(rows[i].scan, rows[i].url))
  }

  /** An UPDATE acts on each scan's rows as it would on a table holding only that scan. */
  lemma {:induction false} ViewOfUpdate(u: Update, rows: seq<Job>, scan: nat)
    ensures View(ApplyAll(u, rows), scan) == ApplyAll(u, View(rows, scan))
  {
    if rows != [] {
      var n := |rows| - 1;
      var last := [rows[n]];
      ViewOfUpdate(u, rows[..n], scan);
      assert rows == rows[..n] + last;
      ApplyAllConcat(u, rows[..n], last);
      ApplyAllConcat(u, View(rows[..n], scan), if rows[n].scan == scan then last else []);
      var all := ApplyAll(u, rows);
      assert all[..n] == ApplyAll(u, rows[..n]) && all[n] == Apply(u, rows[n]);
    }
  }

  lemma {:induction false} ApplyAllConcat(u: Update, a: seq<Job>, b: seq<Job>)
    ensures ApplyAll(u, a + b) == ApplyAll(u, a) + ApplyAll(u, b)
  {
  }

  /** An UPDATE addressed to one scan's row leaves every other scan's rows alone. */
  lemma {:induction false} UpdateLeavesOthers(u: Update, rows: seq<Job>, scan: nat)
    requires !u.Reclaim? && forall i :: 0 <= i < |rows| && rows[i].id == u.id ==> rows[i].scan != scan
    ensures View(ApplyAll(u, rows), scan) == View(rows, scan)
  {
    ViewOfUpdate(u, rows, scan);
    var v := View(rows, scan);
    forall i | 0 <= i < |v| ensures Apply(u, v[i]) == v[i] {
      InView(rows, scan, v[i]);
    }
  }

  /** A job is inserted into the shared table exactly when its own scan lacks the URL. */
  lemma {:induction false} ViewOfInsert(t: Table, scan: nat, url: string, depth: nat, other: nat)
    requires KeysMatch(t.rows)
    ensures var key := Some(DedupeKey(scan, url));
            var t' := Insert(t, scan, url, depth, key);
            && KeysMatch(t'.rows)
            && View(t'.rows, scan) == Insert(Table(View(t.rows, scan), t.nextId), scan, url, depth, key).rows
            && t'.nextId == Insert(Table(View(t.rows, scan), t.nextId), scan, url, depth, key).nextId
            && (other != scan ==> View(t'.rows, other) == View(t.rows, other))
  {
    var key := Some(DedupeKey(scan, url));
    var v := View(t.rows, scan);
    assert HasKey(v, key) == HasKey(t.rows, key) by {
      if HasKey(t.rows, key) {
        var i :| 0 <= i < |t.rows| && t.rows[i].key == key;
        DedupeKeyInjective(scan, url, t.rows[i].scan, t.rows[i].url);
        InView(t.rows, scan, t.rows[i]);
      }
      if HasKey(v, key) {
        var i :| 0 <= i < |v| && v[i].key == key;
        InView(t.rows, scan, v[i]);
      }
    }
    if !HasKey(t.rows, key) {
      var rows' := Insert(t, scan, url, depth, key).rows;
      assert rows'[..|rows'| - 1] == t.rows;
    }
  }

  /** `lease` with a scan id hands out the job that scan's own queue would. */
  lemma {:induction false} ViewOfFirstReady(rows: seq<Job>, scan: nat)
    ensures var i, v := FirstReady(rows, Some(scan)), View(rows, scan);
            var k := FirstReady(v, Some(scan));
            (i < |rows| <==> k < |v|) && (i < |rows| ==> v[k] == rows[i])
  {
    var i, v := FirstReady(rows, Some(scan)), View(rows, scan);
    if i == |rows| {
      forall k | 0 <= k < |v| ensures !Ready(v[k], Some(scan)) {
        InView(rows, scan, v[k]);
      }
      FirstReadyIs(v, Some(scan), |v|);
    } else {
      ViewPrefix(rows, scan, i + 1);
      var before := View(rows[..i], scan);
      assert rows[..i + 1][..i] == rows[..i];
      assert View(rows[..i + 1], scan) == before + [rows[i]];
      forall k | 0 <= k < |before| ensures !Ready(before[k], Some(scan)) {
        InView(rows[..i], scan, before[k]);
      }
      assert v[..|before| + 1] == before + [rows[i]];
      forall k | 0 <= k < |before| ensures v[k] == before[k] {
        assert v[k] == v[..|before| + 1][k];
      }
      assert v[|before|] == v[..|before| + 1][|before|];
      FirstReadyIs(v, Some(scan), |before|);
    }
  }

  lemma {:induction false} ViewPrefix(rows: seq<Job>, scan: nat, n: nat)
    requires n <= |rows|
    ensures View(rows[..n], scan) <= View(rows, scan)
  {
    if n < |rows| {
      ViewPrefix(rows[..|rows| - 1], scan, n);
      assert rows[..|rows| - 1][..n] == rows[..n];
    } else {
      assert rows[..n] == rows;
    }
  }

  // --- The table, updated in place ---

  class JobTable {
    var rows: seq<Job>
    var nextId: nat

    constructor ()
      ensures rows == [] && Valid()
    {
      rows, nextId := [], 1;
    }

    function State(): Table
      reads this
    {
      Table(rows, nextId)
    }

    ghost predicate Valid()
      reads this
    {
      ValidTable(State()) && KeysMatch(rows)
    }

    method Enqueue(scan: nat, url: string, depth: nat) returns (id: Option<nat>)
      requires Valid()
      modifies this
      ensures Valid()
      ensures State() == Insert(old(State()), scan, url, depth, Some(DedupeKey(scan, url)))
      ensures id == if HasKey(old(rows), Some(DedupeKey(scan, url))) then None else Some(old(nextId))
    {
      var key := Some(DedupeKey(scan, url));
      var i := 0;
      while i < |rows|
        invariant 0 <= i <= |rows|
        invariant forall k :: 0 <= k < i ==> rows[k].key != key
      {
        if rows[i].key == key {
          return None;
        }
        i := i + 1;
      }
      id := Some(nextId);
      rows := rows + [Job(nextId, scan, url, depth, key, Pending, None, 0)];
      nextId := nextId + 1;
    }

    /** The `SELECT id ... ORDER BY id LIMIT 1` of a lease. */
    method FindReady(scan: Option<nat>) returns (i: nat)
      ensures i == FirstReady(rows, scan)
    {
      i := 0;
      while i < |rows| && !Ready(rows[i], scan)
        invariant 0 <= i <= |rows|
        invariant forall k :: 0 <= k < i ==> !Ready(rows[k], scan)
      {
        i := i + 1;
      }
      FirstReadyIs(rows, scan, i);
    }

    /** Claims the pending row with the lowest id; its attempt is counted at the claim. */
    method Lease(scan: Option<nat>, leaseSecs: int, now: int) returns (job: Option<Job>)
      requires Valid()
      modifies this
      ensures Valid() && nextId == old(nextId)
      ensures var i := FirstReady(old(rows), scan);
              if i == |old(rows)| then job == None && rows == old(rows)
              else i < |rows| && job == Some(rows[i]) && rows == ApplyAll(Claim(old(rows)[i].id, now + leaseSecs), old(rows))
    {
      var i := FindReady(scan);
      if i == |rows| {
        return None;
      }
      var row, until := rows[i], now + leaseSecs;
      ClaimOneRow(State(), i, until);
      UpdateKeepsValid(Claim(row.id, until), State());
      rows := rows[i := row.(state := Leased, leaseUntil := Some(until), attempts := row.attempts + 1)];
      assert State() == Table(ApplyAll(Claim(row.id, until), old(rows)), old(nextId));
      job := Some(rows[i]);
    }

    /** UPDATE ... WHERE id = ?, whoever holds the lease. */
    method CompleteJob(id: nat)
      requires Valid()
      modifies this
      ensures Valid() && State() == Table(ApplyAll(Complete(id), old(rows)), old(nextId))
    {
      var i := 0;
      while i < |rows|
        invariant 0 <= i <= |rows| == |old(rows)|
        invariant nextId == old(nextId)
        invariant forall k :: 0 <= k < |rows| ==>
          rows[k] == if k < i then Apply(Complete(id), old(rows)[k]) else old(rows)[k]
      {
        if rows[i].id == id {
          rows := rows[i := rows[i].(state := Completed, leaseUntil := None)];
        }
        i := i + 1;
      }
      assert rows == ApplyAll(Complete(id), old(rows));
      UpdateKeepsValid(Complete(id), old(State()));
    }

    method FailJob(id: nat)
      requires Valid()
      modifies this
      ensures Valid() && State() == Table(ApplyAll(Fail(id), old(rows)), old(nextId))
    {
      var i := 0;
      while i < |rows|
        invariant 0 <= i <= |rows| == |old(rows)|
        invariant nextId == old(nextId)
        invariant forall k :: 0 <= k < |rows| ==>
          rows[k] == if k < i then Apply(Fail(id), old(rows)[k]) else old(rows)[k]
      {
        if rows[i].id == id {
          var state := if rows[i].attempts >= MAX_ATTEMPTS then Failed else Pending;
          rows := rows[i := rows[i].(state := state, leaseUntil := None)];
        }
        i := i + 1;
      }
      assert rows == ApplyAll(Fail(id), old(rows));
      UpdateKeepsValid(Fail(id), old(State()));
    }

    method ReclaimExpired(now: int) returns (count: nat)
      requires Valid()
      modifies this
      ensures Valid() && State() == Table(ApplyAll(Reclaim(now), old(rows)), old(nextId))
      ensures count == ExpiredCount(old(rows), now)
    {
      var i := 0;
      count := 0;
      while i < |rows|
        invariant 0 <= i <= |rows| == |old(rows)|
        invariant nextId == old(nextId)
        invariant forall k :: 0 <= k < |rows| ==>
          rows[k] == if k < i then Apply(Reclaim(now), old(rows)[k]) else old(rows)[k]
        invariant count == ExpiredCount(old(rows)[..i], now)
      {
        assert old(rows)[..i + 1][..i] == old(rows)[..i];
        if Expired(rows[i], now) {
          rows := rows[i := rows[i].(state := Pending, leaseUntil := None)];
          count := count + 1;
        }
        i := i + 1;
      }
      assert old(rows)[..i] == old(rows);
      assert rows == ApplyAll(Reclaim(now), old(rows));
      UpdateKeepsValid(Reclaim(now), old(State()));
    }

    method PendingCount(scan: Option<nat>) returns (count: nat)
      ensures count == |set i | 0 <= i < |rows| && Ready(rows[i], scan)|
      ensures count == 0 <==> FirstReady(rows, scan) == |rows|
    {
      var i := 0;
      count := 0;
      ghost var found: set<int> := {};
      while i < |rows|
        invariant 0 <= i <= |rows|
        invariant found == set k | 0 <= k < i && Ready(rows[k], scan)
        invariant count == |found|
      {
        if Ready(rows[i], scan) {
          found := found + {i};
          count := count + 1;
        }
        i := i + 1;
      }
      assert found == set k | 0 <= k < |rows| && Ready(rows[k], scan);
      var first := FirstReady(rows, scan);
      assert first < |rows| ==> first in found;
      assert first == |rows| ==> forall k :: k !in found;
    }
  }
}
