/** The expert evaluation of a scan, `src/audit/evaluation.py`: a completed evaluation claims that every
    criterion was judged with a reason, and the claim must outlive every later edit. */
module Evaluation {
  import opened Text

  datatype Outcome = NotStarted | Pass | Fail | NotTested | NeedsFollowUp | UnknownOutcome
  datatype Level = A | AA | AAA | UnknownLevel
  datatype Status = Draft | InProgress | Completed | UnknownStatus

  datatype Record = Record(
    level: Level, reviewer: string, purpose: string, scopeIncluded: string, methods: string, limitations: string,
    status: Status)

  datatype Check = Check(outcome: Outcome, rationale: string)

  datatype Evidence = Evidence(scan: nat, criterion: string, page: Option<nat>, note: string)

  /** The tables. A result row belongs to its scan's one evaluation. */
  datatype State = State(reports: map<nat, Record>, results: map<(nat, string), Check>, evidence: seq<Evidence>)

  /** What never changes: the criteria, and which pages a scan has. */
  datatype World = World(matrix: seq<string>, pages: set<(nat, nat)>)

  datatype Blocker =
    | MissingContext(labels: seq<string>)
    | NotStartedYet(criteria: seq<string>)
    | StillFollowUp(criteria: seq<string>)
    | WithoutRationale(criteria: seq<string>)

  datatype Error =
    | BadLevel | BadStatus | UnknownCriterion | UnknownResult | RationaleRequired | PageNotInReport
    | Blocked(blockers: seq<Blocker>) | ReopenFirst

  const DEFAULT := Record(AA, "", "", "", "", "", Draft)

  predicate Blank(s: string) {
    Strip(s) == []
  }

  // --- Reading ---

  function GetEvaluation(s: State, scan: nat): Record {
    if scan in s.reports then s.reports[scan] else DEFAULT
  }

  /** A criterion as the matrix shows it: without a row it is not started. */
  function CheckOf(s: State, scan: nat, criterion: string): Check {
    if (scan, criterion) in s.results then s.results[(scan, criterion)] else Check(NotStarted, "")
  }

  datatype Listed = Listed(criterion: string, check: Check)

  method ListManualChecks(w: World, s: State, scan: nat) returns (checks: seq<Listed>)
    ensures |checks| == |w.matrix|
    ensures forall i :: 0 <= i < |checks| ==> checks[i] == Listed(w.matrix[i], CheckOf(s, scan, w.matrix[i]))
  {
    checks := [];
    for i := 0 to |w.matrix|
      invariant |checks| == i
      invariant forall k :: 0 <= k < i ==> checks[k] == Listed(w.matrix[k], CheckOf(s, scan, w.matrix[k]))
    {
      checks := checks + [Listed(w.matrix[i], CheckOf(s, scan, w.matrix[i]))];
    }
  }

  // --- Completion ---

  function Labelled(text: string, name: string): seq<string> {
    if Blank(text) then [name] else []
  }

  function MissingLabels(r: Record): seq<string> {
    Labelled(r.reviewer, "reviewer") + Labelled(r.purpose, "purpose") + Labelled(r.scopeIncluded, "included scope")
    + Labelled(r.methods, "methods used") + Labelled(r.limitations, "limitations")
  }

  predicate IsNotStarted(c: Check) {
    c.outcome.NotStarted?
  }

  predicate NeedsMore(c: Check) {
    c.outcome.NeedsFollowUp?
  }

  predicate Unexplained(c: Check) {
    !c.outcome.NotStarted? && Blank(c.rationale)
  }

  /** The criteria whose check has a property, in matrix order. */
  function Those(s: State, scan: nat, criteria: seq<string>, p: Check -> bool): seq<string> {
    if criteria == [] then []
    else
      Those(s, scan, criteria[..|criteria| - 1], p)
      + var c := criteria[|criteria| - 1]; if p(CheckOf(s, scan, c)) then [c] else []
  }

  function ContextBlockers(r: Record): seq<Blocker> {
    if MissingLabels(r) != [] then [MissingContext(MissingLabels(r))] else []
  }

  function CriteriaBlockers(unstarted: seq<string>, follow: seq<string>, silent: seq<string>): seq<Blocker> {
    (if unstarted != [] then [NotStartedYet(unstarted)] else [])
    + (if follow != [] then [StillFollowUp(follow)] else [])
    + (if silent != [] then [WithoutRationale(silent)] else [])
  }

  function Blockers(w: World, s: State, scan: nat, r: Record): seq<Blocker> {
    ContextBlockers(r)
    + CriteriaBlockers(Those(s, scan, w.matrix, IsNotStarted), Those(s, scan, w.matrix, NeedsMore),
                       Those(s, scan, w.matrix, Unexplained))
  }

  method Collect(s: State, scan: nat, checks: seq<Listed>, criteria: seq<string>, p: Check -> bool) returns (r: seq<string>)
    requires |checks| == |criteria|
    requires forall i :: 0 <= i < |checks| ==> checks[i] == Listed(criteria[i], CheckOf(s, scan, criteria[i]))
    ensures r == Those(s, scan, criteria, p)
  {
    r := [];
    for i := 0 to |checks|
      invariant r == Those(s, scan, criteria[..i], p)
    {
      assert criteria[..i + 1][..i] == criteria[..i];
      if p(checks[i].check) {
        r := r + [checks[i].criterion];
      }
    }
    assert criteria[..|criteria|] == criteria;
  }

  method AddCriteriaBlockers(blockers: seq<Blocker>, unstarted: seq<string>, follow: seq<string>, silent: seq<string>)
    returns (r: seq<Blocker>)
    ensures r == blockers + CriteriaBlockers(unstarted, follow, silent)
  {
    r := blockers;
    if unstarted != [] {
      r := r + [NotStartedYet(unstarted)];
    }
    if follow != [] {
      r := r + [StillFollowUp(follow)];
    }
    if silent != [] {
      r := r + [WithoutRationale(silent)];
    }
  }

  method EvaluationCompletionBlockers(w: World, s: State, scan: nat, r: Record) returns (blockers: seq<Blocker>)
    ensures blockers == Blockers(w, s, scan, r)
  {
    blockers := [];
    var missing := MissingLabels(r);
    if missing != [] {
      blockers := [MissingContext(missing)];
    }
    var checks := ListManualChecks(w, s, scan);
    var notStarted := Collect(s, scan, checks, w.matrix, IsNotStarted);
    var followUp := Collect(s, scan, checks, w.matrix, NeedsMore);
    var unexplained := Collect(s, scan, checks, w.matrix, Unexplained);
    blockers := AddCriteriaBlockers(blockers, notStarted, followUp, unexplained);
  }

  /** What a completed evaluation claims. */
  predicate Explained(r: Record) {
    !Blank(r.reviewer) && !Blank(r.purpose) && !Blank(r.scopeIncluded) && !Blank(r.methods) && !Blank(r.limitations)
  }

  predicate Judged(s: State, scan: nat, criterion: string) {
    && (scan, criterion) in s.results
    && var c := s.results[(scan, criterion)];
       c.outcome !in {NotStarted, NeedsFollowUp} && !Blank(c.rationale)
  }

  predicate Defensible(w: World, s: State, scan: nat, r: Record) {
    Explained(r) && forall i :: 0 <= i < |w.matrix| ==> Judged(s, scan, w.matrix[i])
  }

  lemma {:induction false} ThoseIsEmpty(s: State, scan: nat, criteria: seq<string>, p: Check -> bool)
    ensures Those(s, scan, criteria, p) == [] <==> forall i :: 0 <= i < |criteria| ==> !p(CheckOf(s, scan, criteria[i]))
  {
    if criteria != [] {
      var init := criteria[..|criteria| - 1];
      ThoseIsEmpty(s, scan, init, p);
      assert forall i :: 0 <= i < |init| ==> init[i] == criteria[i];
    }
  }

  /** The list of blockers is empty exactly when every claim of a completed evaluation holds. */
  lemma {:induction false} BlockersAreExact(w: World, s: State, scan: nat, r: Record)
    ensures Blockers(w, s, scan, r) == [] <==> Defensible(w, s, scan, r)
  {
    ThoseIsEmpty(s, scan, w.matrix, IsNotStarted);
    ThoseIsEmpty(s, scan, w.matrix, NeedsMore);
    ThoseIsEmpty(s, scan, w.matrix, Unexplained);
    assert MissingLabels(r) == [] <==> Explained(r);
    forall i | 0 <= i < |w.matrix|
      ensures Judged(s, scan, w.matrix[i]) <==>
              var c := CheckOf(s, scan, w.matrix[i]); !IsNotStarted(c) && !NeedsMore(c) && !Unexplained(c)
    {
    }
  }

  lemma {:induction false} ThoseHas(s: State, scan: nat, criteria: seq<string>, p: Check -> bool, c: string)
    ensures c in Those(s, scan, criteria, p) <==> c in criteria && p(CheckOf(s, scan, c))
  {
    if criteria != [] {
      var init := criteria[..|criteria| - 1];
      ThoseHas(s, scan, init, p, c);
      assert criteria == init + [criteria[|criteria| - 1]];
    }
  }

  /** Some blocker names a criterion as not started, as still in need of follow-up, or as without a reason. */
  predicate Names(blockers: seq<Blocker>, c: string, kind: Blocker) {
    exists b :: b in blockers && !b.MissingContext? && c in b.criteria
                && (b.NotStartedYet? == kind.NotStartedYet? && b.StillFollowUp? == kind.StillFollowUp?)
  }

  /** Each criterion in the way is named, and for what is wrong with it; no other is. */
  lemma {:induction false} BlockersNameCriteria(w: World, s: State, scan: nat, r: Record, c: string)
    ensures var blockers, check := Blockers(w, s, scan, r), CheckOf(s, scan, c);
            && (Names(blockers, c, NotStartedYet([])) <==> c in w.matrix && check.outcome == NotStarted)
            && (Names(blockers, c, StillFollowUp([])) <==> c in w.matrix && check.outcome == NeedsFollowUp)
            && (Names(blockers, c, WithoutRationale([])) <==>
                  c in w.matrix && check.outcome != NotStarted && Strip(check.rationale) == "")
  {
    var unstarted, follow, silent :=
      Those(s, scan, w.matrix, IsNotStarted), Those(s, scan, w.matrix, NeedsMore), Those(s, scan, w.matrix, Unexplained);
    ThoseHas(s, scan, w.matrix, IsNotStarted, c);
    ThoseHas(s, scan, w.matrix, NeedsMore, c);
    ThoseHas(s, scan, w.matrix, Unexplained, c);
    NamedIn(ContextBlockers(r), unstarted, follow, silent, c);
  }

  lemma {:induction false} NamedIn(context: seq<Blocker>, unstarted: seq<string>, follow: seq<string>, silent: seq<string>, c: string)
    requires forall b :: b in context ==> b.MissingContext?
    ensures var blockers := context + CriteriaBlockers(unstarted, follow, silent);
            && (Names(blockers, c, NotStartedYet([])) <==> c in unstarted)
            && (Names(blockers, c, StillFollowUp([])) <==> c in follow)
            && (Names(blockers, c, WithoutRationale([])) <==> c in silent)
  {
    var blockers := context + CriteriaBlockers(unstarted, follow, silent);
    assert unstarted != [] ==> NotStartedYet(unstarted) in blockers;
    assert follow != [] ==> StillFollowUp(follow) in blockers;
    assert silent != [] ==> WithoutRationale(silent) in blockers;
  }

  /** The missing context is named field by field. */
  lemma {:induction false} MissingLabelsSay(r: Record)
    ensures var missing := MissingLabels(r);
            && ("reviewer" in missing <==> Strip(r.reviewer) == "") && ("purpose" in missing <==> Strip(r.purpose) == "")
            && ("included scope" in missing <==> Strip(r.scopeIncluded) == "")
            && ("methods used" in missing <==> Strip(r.methods) == "")
            && ("limitations" in missing <==> Strip(r.limitations) == "")
  {
    LabelsDiffer();
  }

  lemma {:induction false} MissingContextIsFirst(w: World, s: State, scan: nat, r: Record)
    requires MissingLabels(r) != []
    ensures Blockers(w, s, scan, r) != [] && Blockers(w, s, scan, r)[0] == MissingContext(MissingLabels(r))
  {
    assert ContextBlockers(r)[0] == MissingContext(MissingLabels(r));
  }

  lemma {:induction false} LabelsDiffer()
    ensures "reviewer"[0] == 'r' && "purpose"[0] == 'p' && "included scope"[0] == 'i' && "methods used"[0] == 'm'
            && "limitations"[0] == 'l'
  {
  }

  // --- Writing ---

  datatype Op =
    | Upsert(scan: nat, values: Record)
    | Update(scan: nat, criterion: string, outcome: Outcome, rationale: string)
    | Attach(scan: nat, criterion: string, page: Option<nat>, note: string)

  /** What an operation refuses. */
  function Refusal(w: World, s: State, op: Op): Option<Error> {
    match op
    case Upsert(scan, values) =>
      if values.level.UnknownLevel? then Some(BadLevel)
      else if values.status.UnknownStatus? then Some(BadStatus)
      else if values.status.Completed? && Blockers(w, s, scan, values) != []
      then Some(Blocked(Blockers(w, s, scan, values)))
      else None
    case Update(scan, criterion, outcome, rationale) =>
      if criterion !in w.matrix then Some(UnknownCriterion)
      else if outcome.UnknownOutcome? then Some(UnknownResult)
      else if !outcome.NotStarted? && Blank(rationale) then Some(RationaleRequired)
      else if GetEvaluation(s, scan).status.Completed? && outcome in {NotStarted, NeedsFollowUp} then Some(ReopenFirst)
      else None
    case Attach(scan, criterion, page, _) =>
      if criterion !in w.matrix then Some(UnknownCriterion)
      else if page.Some? && (page.value, scan) !in w.pages then Some(PageNotInReport)
      else None
  }

  /** A scan that had no evaluation gets the default draft. */
  function Ensured(s: State, scan: nat): State {
    if scan in s.reports then s else s.(reports := s.reports[scan := DEFAULT])
  }

  function WithRow(s: State, scan: nat, criterion: string): State {
    if (scan, criterion) in s.results then s
    else s.(results := s.results[(scan, criterion) := Check(NotStarted, "")])
  }

  function Accepted(s: State, op: Op): State {
    match op
    case Upsert(scan, values) => s.(reports := s.reports[scan := values])
    case Update(scan, criterion, outcome, rationale) =>
      var e := Ensured(s, scan);
      e.(results := e.results[(scan, criterion) := Check(outcome, Strip(rationale))])
    case Attach(scan, criterion, page, note) =>
      var e := WithRow(Ensured(s, scan), scan, criterion);
      e.(evidence := e.evidence + [Evidence(scan, criterion, page, note)])
  }

  function Next(w: World, s: State, op: Op): State {
    if Refusal(w, s, op).Some? then s else Accepted(s, op)
  }

  function After(w: World, s: State, ops: seq<Op>): State {
    if ops == [] then s else Next(w, After(w, s, ops[..|ops| - 1]), ops[|ops| - 1])
  }

  const EMPTY := State(map[], map[], [])

  // --- The invariant ---

  ghost predicate Valid(w: World, s: State) {
    && (forall scan :: scan in s.reports && s.reports[scan].status.Completed? ==>
          Blockers(w, s, scan, s.reports[scan]) == [])
    && (forall k :: k in s.results ==> k.0 in s.reports)
  }

  predicate SameOutside(s: State, t: State, scan: nat) {
    && (forall x :: x in s.reports && x != scan ==> x in t.reports && t.reports[x] == s.reports[x])
    && (forall x :: x in t.reports && x != scan ==> x in s.reports)
    && (forall k :: k in s.results && k.0 != scan ==> k in t.results && t.results[k] == s.results[k])
    && (forall k :: k in t.results && k.0 != scan ==> k in s.results)
  }

  lemma {:induction false} AcceptedIsLocal(s: State, op: Op)
    ensures SameOutside(s, Accepted(s, op), op.scan)
  {
  }

  lemma {:induction false} LocalKeepsBlockers(w: World, s: State, t: State, scan: nat, other: nat, r: Record)
    requires SameOutside(s, t, scan) && other != scan
    ensures Defensible(w, s, other, r) ==> Defensible(w, t, other, r)
  {
  }

  lemma {:induction false} UpdateStaysDefensible(w: World, s: State, scan: nat, criterion: string, outcome: Outcome, rationale: string, r: Record)
    requires Defensible(w, s, scan, r) && scan in s.reports
    requires outcome !in {NotStarted, NeedsFollowUp} && !Blank(rationale)
    ensures Defensible(w, Accepted(s, Update(scan, criterion, outcome, rationale)), scan, r)
  {
    var t := Accepted(s, Update(scan, criterion, outcome, rationale));
    StripFacts(rationale);
    StripTrimmed(Strip(rationale));
    forall i | 0 <= i < |w.matrix| ensures Judged(t, scan, w.matrix[i]) {
      assert Judged(s, scan, w.matrix[i]);
    }
  }

  lemma {:induction false} AttachStaysDefensible(w: World, s: State, scan: nat, criterion: string, page: Option<nat>, note: string, r: Record)
    requires Defensible(w, s, scan, r)
    ensures Defensible(w, Accepted(s, Attach(scan, criterion, page, note)), scan, r)
  {
    var t := Accepted(s, Attach(scan, criterion, page, note));
    forall i | 0 <= i < |w.matrix| ensures Judged(t, scan, w.matrix[i]) {
      assert Judged(s, scan, w.matrix[i]);
    }
  }

  /** The edited scan, when it stays or becomes completed. */
  lemma {:induction false} EditedStaysDefensible(w: World, s: State, op: Op)
    requires Valid(w, s) && Refusal(w, s, op).None?
    requires op.scan in Accepted(s, op).reports && Accepted(s, op).reports[op.scan].status.Completed?
    ensures Defensible(w, Accepted(s, op), op.scan, Accepted(s, op).reports[op.scan])
  {
    match op
    case Upsert(scan, values) =>
      BlockersAreExact(w, s, scan, values);
    case Update(scan, criterion, outcome, rationale) =>
      BlockersAreExact(w, s, scan, s.reports[scan]);
      UpdateStaysDefensible(w, s, scan, criterion, outcome, rationale, s.reports[scan]);
    case Attach(scan, criterion, page, note) =>
      BlockersAreExact(w, s, scan, s.reports[scan]);
      AttachStaysDefensible(w, s, scan, criterion, page, note, s.reports[scan]);
  }

  lemma {:induction false} StepKeepsValid(w: World, s: State, op: Op)
    requires Valid(w, s)
    ensures Valid(w, Next(w, s, op))
  {
    if Refusal(w, s, op).None? {
      var t := Accepted(s, op);
      AcceptedIsLocal(s, op);
      forall scan | scan in t.reports && t.reports[scan].status.Completed?
        ensures Blockers(w, t, scan, t.reports[scan]) == []
      {
        BlockersAreExact(w, t, scan, t.reports[scan]);
        if scan == op.scan {
          EditedStaysDefensible(w, s, op);
        } else {
          BlockersAreExact(w, s, scan, s.reports[scan]);
          LocalKeepsBlockers(w, s, t, op.scan, scan, s.reports[scan]);
        }
      }
    }
  }

  /** Over every run of the three operations, a completed evaluation is one every claim of which holds. */
  lemma {:induction false} CompletedStaysDefensible(w: World, ops: seq<Op>)
    ensures var s := After(w, EMPTY, ops);
            && Valid(w, s)
            && forall scan :: scan in s.reports && s.reports[scan].status.Completed? ==>
                 Defensible(w, s, scan, s.reports[scan])
    decreases |ops|
  {
    if ops != [] {
      CompletedStaysDefensible(w, ops[..|ops| - 1]);
      StepKeepsValid(w, After(w, EMPTY, ops[..|ops| - 1]), ops[|ops| - 1]);
    }
    var s := After(w, EMPTY, ops);
    forall scan | scan in s.reports && s.reports[scan].status.Completed?
      ensures Defensible(w, s, scan, s.reports[scan])
    {
      BlockersAreExact(w, s, scan, s.reports[scan]);
    }
  }

  lemma {:induction false} AcceptedEvidence(s: State, scan: nat, criterion: string, page: Option<nat>, note: string)
    requires scan in s.reports && (scan, criterion) in s.results
    ensures Accepted(s, Attach(scan, criterion, page, note)) ==
            s.(evidence := s.evidence + [Evidence(scan, criterion, page, note)])
  {
  }

  /** Evidence added to a completed evaluation never opens a fresh, unjudged criterion. */
  lemma {:induction false} EvidenceOpensNothing(w: World, s: State, scan: nat, criterion: string, page: Option<nat>, note: string)
    requires Valid(w, s) && scan in s.reports && s.reports[scan].status.Completed?
    ensures var op := Attach(scan, criterion, page, note);
            Next(w, s, op) == if Refusal(w, s, op).Some? then s
                              else s.(evidence := s.evidence + [Evidence(scan, criterion, page, note)])
  {
    if criterion in w.matrix {
      BlockersAreExact(w, s, scan, s.reports[scan]);
      var i :| 0 <= i < |w.matrix| && w.matrix[i] == criterion;
      assert Judged(s, scan, w.matrix[i]);
      AcceptedEvidence(s, scan, criterion, page, note);
    }
  }

  /** Only an upsert for the same scan ends a completed evaluation. */
  lemma {:induction false} OnlyUpsertReopens(w: World, s: State, op: Op, scan: nat)
    requires scan in s.reports && s.reports[scan].status.Completed?
    requires scan in Next(w, s, op).reports ==> !Next(w, s, op).reports[scan].status.Completed?
    ensures op.Upsert? && op.scan == scan && !op.values.status.Completed?
  {
  }

  // --- What an accepted operation changes ---

  /** Refused and so without effect: an unknown criterion or outcome, an outcome without a reason, and taking back a
      judgement of a completed evaluation. Everything else is done. */
  lemma {:induction false} UpdateIsRefusedExactly(w: World, s: State, scan: nat, criterion: string, outcome: Outcome, rationale: string)
    ensures var op := Update(scan, criterion, outcome, rationale);
            var completed := scan in s.reports && s.reports[scan].status == Completed;
            && (Refusal(w, s, op).Some? <==>
                  || criterion !in w.matrix || outcome == UnknownOutcome
                  || (outcome != NotStarted && Strip(rationale) == "")
                  || (completed && (outcome == NotStarted || outcome == NeedsFollowUp)))
            && (Refusal(w, s, op).Some? ==> Next(w, s, op) == s)
  {
  }

  /** A record is refused for an unknown level or status, and for claiming completion without what it claims. */
  lemma {:induction false} UpsertIsRefusedExactly(w: World, s: State, scan: nat, values: Record)
    ensures Refusal(w, s, Upsert(scan, values)).Some? <==>
              || values.level == UnknownLevel || values.status == UnknownStatus
              || (values.status == Completed && !Defensible(w, s, scan, values))
  {
    BlockersAreExact(w, s, scan, values);
  }

  ghost predicate SameChecks(s: State, t: State) {
    forall scan: nat, criterion :: CheckOf(t, scan, criterion) == CheckOf(s, scan, criterion)
  }

  predicate SameRecords(s: State, t: State) {
    forall scan :: scan in s.reports ==> scan in t.reports && t.reports[scan] == s.reports[scan]
  }

  /** An accepted update stores just its own outcome, with its reason trimmed. */
  lemma {:induction false} UpdateStores(w: World, s: State, op: Op)
    requires op.Update? && Refusal(w, s, op).None?
    ensures var t := Next(w, s, op);
            && CheckOf(t, op.scan, op.criterion) == Check(op.outcome, Strip(op.rationale))
            && (forall scan: nat, criterion :: (scan, criterion) != (op.scan, op.criterion) ==>
                  CheckOf(t, scan, criterion) == CheckOf(s, scan, criterion))
            && t.evidence == s.evidence && SameRecords(s, t)
            && GetEvaluation(t, op.scan) == GetEvaluation(s, op.scan)
  {
  }

  /** An accepted upsert stores just its own record. */
  lemma {:induction false} UpsertStores(w: World, s: State, op: Op)
    requires op.Upsert? && Refusal(w, s, op).None?
    ensures var t := Next(w, s, op);
            && GetEvaluation(t, op.scan) == op.values
            && (forall scan: nat :: scan != op.scan ==> GetEvaluation(t, scan) == GetEvaluation(s, scan))
            && SameChecks(s, t) && t.evidence == s.evidence
  {
  }

  /** An accepted attachment appends one entry and judges nothing. */
  lemma {:induction false} AttachStores(w: World, s: State, op: Op)
    requires op.Attach? && Refusal(w, s, op).None?
    ensures var t := Next(w, s, op);
            && t.evidence == s.evidence + [Evidence(op.scan, op.criterion, op.page, op.note)]
            && SameChecks(s, t) && SameRecords(s, t)
            && GetEvaluation(t, op.scan) == GetEvaluation(s, op.scan)
            && op.criterion in w.matrix && (op.page.Some? ==> (op.page.value, op.scan) in w.pages)
  {
  }

  /** The `k`th operation of a run judged a criterion and was accepted. */
  predicate Judges(w: World, ops: seq<Op>, k: nat, scan: nat, criterion: string) {
    && k < |ops| && ops[k].Update? && ops[k].scan == scan && ops[k].criterion == criterion
    && Refusal(w, After(w, EMPTY, ops[..k]), ops[k]).None?
  }

  lemma {:induction false} JudgesEarlier(w: World, ops: seq<Op>, op: Op, k: nat, scan: nat, criterion: string)
    requires k < |ops|
    ensures Judges(w, ops + [op], k, scan, criterion) <==> Judges(w, ops, k, scan, criterion)
  {
    assert (ops + [op])[..k] == ops[..k];
  }

  /** The last accepted judgement of a criterion in a run, if there was one. */
  ghost predicate IsLastJudgement(w: World, ops: seq<Op>, scan: nat, criterion: string, last: Option<nat>) {
    && (last.Some? ==> Judges(w, ops, last.value, scan, criterion))
    && (forall k: nat :: Judges(w, ops, k, scan, criterion) ==> last.Some? && k <= last.value)
  }

  function Shown(ops: seq<Op>, last: Option<nat>): Check
    requires last.Some? ==> last.value < |ops| && ops[last.value].Update?
  {
    if last.None? then Check(NotStarted, "") else Check(ops[last.value].outcome, Strip(ops[last.value].rationale))
  }

  /** Whatever else happened in a run, a criterion shows the last accepted judgement of it, or that there was none. */
  lemma {:induction false} LastJudgementStands(w: World, ops: seq<Op>, scan: nat, criterion: string) returns (last: Option<nat>)
    ensures IsLastJudgement(w, ops, scan, criterion, last)
    ensures CheckOf(After(w, EMPTY, ops), scan, criterion) == Shown(ops, last)
    decreases |ops|
  {
    if ops == [] {
      return None;
    }
    var init, op := ops[..|ops| - 1], ops[|ops| - 1];
    assert ops == init + [op];
    last := LastJudgementStands(w, init, scan, criterion);
    OneMoreOp(w, After(w, EMPTY, init), op, scan, criterion);
    LastOfMore(w, init, op, scan, criterion, last);
    if Judges(w, ops, |init|, scan, criterion) {
      last := Some(|init|);
    }
  }

  lemma {:induction false} LastOfMore(w: World, init: seq<Op>, op: Op, scan: nat, criterion: string, last: Option<nat>)
    requires IsLastJudgement(w, init, scan, criterion, last)
    ensures var now := Judges(w, init + [op], |init|, scan, criterion);
            && IsLastJudgement(w, init + [op], scan, criterion, if now then Some(|init|) else last)
            && (now <==> op.Update? && op.scan == scan && op.criterion == criterion
                         && Refusal(w, After(w, EMPTY, init), op).None?)
  {
    assert (init + [op])[..|init|] == init;
    forall k: nat | k < |init| {
      JudgesEarlier(w, init, op, k, scan, criterion);
    }
  }

  lemma {:induction false} OneMoreOp(w: World, s: State, op: Op, scan: nat, criterion: string)
    ensures CheckOf(Next(w, s, op), scan, criterion) ==
            if op.Update? && op.scan == scan && op.criterion == criterion && Refusal(w, s, op).None?
            then Check(op.outcome, Strip(op.rationale)) else CheckOf(s, scan, criterion)
  {
    if Refusal(w, s, op).None? {
      match op
      case Upsert(_, _) => UpsertStores(w, s, op);
      case Update(_, _, _, _) => UpdateStores(w, s, op);
      case Attach(_, _, _, _) => AttachStores(w, s, op);
    }
  }

  // --- The store ---

  class EvaluationStore {
    const w: World
    var reports: map<nat, Record>
    var results: map<(nat, string), Check>
    var evidence: seq<Evidence>

    constructor (w: World)
      ensures this.w == w && Contents() == EMPTY
    {
      this.w := w;
      reports, results, evidence := map[], map[], [];
    }

    ghost function Contents(): State
      reads this
    {
      State(reports, results, evidence)
    }

    method UpsertEvaluation(scan: nat, values: Record) returns (r: Result<Record, Error>)
      requires Valid(w, Contents())
      modifies this`reports
      ensures Contents() == Next(w, old(Contents()), Upsert(scan, values)) && Valid(w, Contents())
      ensures r == match Refusal(w, old(Contents()), Upsert(scan, values))
                   case Some(e) => Err(e)
                   case None => Ok(values)
      ensures r.Ok? ==> reports == old(reports)[scan := values]
      ensures r.Err? ==> reports == old(reports)
    {
      StepKeepsValid(w, Contents(), Upsert(scan, values));
      if values.level.UnknownLevel? {
        return Err(BadLevel);
      }
      if values.status.UnknownStatus? {
        return Err(BadStatus);
      }
      if values.status.Completed? {
        var blockers := EvaluationCompletionBlockers(w, State(reports, results, evidence), scan, values);
        if blockers != [] {
          return Err(Blocked(blockers));
        }
      }
      reports := reports[scan := values];
      return Ok(reports[scan]);
    }

    method EnsureEvaluation(scan: nat)
      requires Valid(w, Contents())
      modifies this`reports
      ensures Contents() == Ensured(old(Contents()), scan)
    {
      if scan !in reports {
        var created := UpsertEvaluation(scan, DEFAULT);
      }
    }

    method UpdateManualCheck(scan: nat, criterion: string, outcome: Outcome, rationale: string)
      returns (r: Result<Check, Error>)
      requires Valid(w, Contents())
      modifies this
      ensures Contents() == Next(w, old(Contents()), Update(scan, criterion, outcome, rationale)) && Valid(w, Contents())
      ensures r == match Refusal(w, old(Contents()), Update(scan, criterion, outcome, rationale))
                   case Some(e) => Err(e)
                   case None => Ok(Check(outcome, Strip(rationale)))
      ensures r.Ok? ==> results == old(results)[(scan, criterion) := Check(outcome, Strip(rationale))]
      ensures r.Ok? ==> scan in reports && (scan in old(reports) ==> reports == old(reports))
      ensures evidence == old(evidence) && (r.Err? ==> Contents() == old(Contents()))
    {
      StepKeepsValid(w, Contents(), Update(scan, criterion, outcome, rationale));
      if criterion !in w.matrix {
        return Err(UnknownCriterion);
      }
      if outcome.UnknownOutcome? {
        return Err(UnknownResult);
      }
      if !outcome.NotStarted? && Strip(rationale) == [] {
        return Err(RationaleRequired);
      }
      var status := GetEvaluation(State(reports, results, evidence), scan).status;
      if status.Completed? && (outcome.NotStarted? || outcome.NeedsFollowUp?) {
        return Err(ReopenFirst);
      }
      EnsureEvaluation(scan);
      results := results[(scan, criterion) := Check(outcome, Strip(rationale))];
      return Ok(results[(scan, criterion)]);
    }

    method AddManualEvidence(scan: nat, criterion: string, page: Option<nat>, note: string) returns (r: Result<Evidence, Error>)
      requires Valid(w, Contents())
      modifies this
      ensures Contents() == Next(w, old(Contents()), Attach(scan, criterion, page, note)) && Valid(w, Contents())
      ensures r == match Refusal(w, old(Contents()), Attach(scan, criterion, page, note))
                   case Some(e) => Err(e)
                   case None => Ok(Evidence(scan, criterion, page, note))
      ensures r.Ok? ==> evidence == old(evidence) + [Evidence(scan, criterion, page, note)]
      ensures (scan, criterion) in old(results) ==> results == old(results)
      ensures r.Err? ==> Contents() == old(Contents())
    {
      StepKeepsValid(w, Contents(), Attach(scan, criterion, page, note));
      if criterion !in w.matrix {
        return Err(UnknownCriterion);
      }
      if page.Some? && (page.value, scan) !in w.pages {
        return Err(PageNotInReport);
      }
      EnsureEvaluation(scan);
      if (scan, criterion) !in results {
        results := results[(scan, criterion) := Check(NotStarted, "")];
      }
      var entry := Evidence(scan, criterion, page, note);
      evidence := evidence + [entry];
      return Ok(entry);
    }
  }
}
