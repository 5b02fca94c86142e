/** `_bucket_rows_into_cards` of `src/audit/exports/audit_report.py`: grouped issue rows become cards of
    open issues, Appendix B rows and receipts for what was triaged. Findings must not get lost between. */
module AuditReport {
  import opened Text
  import opened FindingStatus

  const TRIAGED := {Remediated, AcceptedRisk, FalsePositive}
  const OPEN := {New, Reviewing, InProgress}
  const CONFIRMED := {InProgress}
  const UNCONFIRMED := {New, Reviewing}

  /** A finding's table and id: image findings have a table of their own. */
  datatype Key = Key(image: bool, id: nat)

  type Store = map<Key, Status>

  type Summary = map<Status, nat>

  datatype Row = Row(
    image: bool, lane: string, conformance: string, wcagSc: Option<string>,
    ids: seq<nat>, summary: Summary, occurrences: nat, pages: nat, highConfidence: nat)

  function At(m: Summary, s: Status): nat {
    if s in m then m[s] else 0
  }

  function OpenTotal(m: Summary): nat {
    At(m, New) + At(m, Reviewing) + At(m, InProgress)
  }

  function TriagedTotal(m: Summary): nat {
    At(m, Remediated) + At(m, AcceptedRisk) + At(m, FalsePositive)
  }

  predicate IsFullyTriaged(row: Row) {
    OpenTotal(row.summary) + TriagedTotal(row.summary) > 0 && OpenTotal(row.summary) == 0
  }

  // --- Projection onto statuses ---

  predicate HasStatus(store: Store, image: bool, id: nat, statuses: set<Status>) {
    Key(image, id) in store && store[Key(image, id)] in statuses
  }

  function Select(store: Store, image: bool, ids: seq<nat>, statuses: set<Status>): seq<nat> {
    if ids == [] then []
    else
      Select(store, image, ids[..|ids| - 1], statuses)
      + if HasStatus(store, image, ids[|ids| - 1], statuses) then [ids[|ids| - 1]] else []
  }

  /** How many of `ids` have status `s`. */
  function CountOf(store: Store, image: bool, ids: seq<nat>, s: Status): nat {
    |Select(store, image, ids, {s})|
  }

  /** Occurrences and pages behind a set of findings, as the database counts them. */
  type Scope = (bool, seq<nat>) -> (nat, nat)

  /** `projected` is `row` cut down to the findings with one of `statuses`, its counts made over. */
  ghost predicate Projects(store: Store, scope: Scope, row: Row, statuses: set<Status>, projected: Row) {
    && projected.ids == Select(store, row.image, row.ids, statuses) != []
    && (forall s :: At(projected.summary, s) == CountOf(store, row.image, projected.ids, s))
    && (projected.occurrences, projected.pages) == scope(row.image, projected.ids)
    && projected.highConfidence == (if row.highConfidence < projected.occurrences then row.highConfidence
                                    else projected.occurrences)
    && (projected.image, projected.lane, projected.conformance, projected.wcagSc) ==
       (row.image, row.lane, row.conformance, row.wcagSc)
  }

  method ProjectRowForStatuses(store: Store, scope: Scope, row: Row, statuses: set<Status>)
    returns (projected: Option<Row>)
    ensures projected.None? <==> Select(store, row.image, row.ids, statuses) == []
    ensures projected.Some? ==> Projects(store, scope, row, statuses, projected.value)
  {
    var selected: seq<nat> := [];
    for i := 0 to |row.ids|
      invariant selected == Select(store, row.image, row.ids[..i], statuses)
    {
      assert row.ids[..i + 1][..i] == row.ids[..i];
      if HasStatus(store, row.image, row.ids[i], statuses) {
        selected := selected + [row.ids[i]];
      }
    }
    assert row.ids[..|row.ids|] == row.ids;
    if selected == [] {
      return None;
    }
    var summary: Summary := map[];
    for i := 0 to |selected|
      invariant forall s :: At(summary, s) == CountOf(store, row.image, selected[..i], s)
    {
      SelectedAreStored(store, row.image, row.ids, statuses, i);
      CountNext(store, row.image, selected, i);
      var status := store[Key(row.image, selected[i])];
      ghost var before := summary;
      summary := summary[status := At(summary, status) + 1];
      forall s ensures At(summary, s) == CountOf(store, row.image, selected[..i + 1], s) {
        assert At(before, s) == CountOf(store, row.image, selected[..i], s);
      }
    }
    assert selected[..|selected|] == selected;
    var counts := scope(row.image, selected);
    projected := Some(row.(ids := selected, summary := summary, occurrences := counts.0, pages := counts.1,
                           highConfidence := if row.highConfidence < counts.0 then row.highConfidence else counts.0));
  }

  lemma {:induction false} CountNext(store: Store, image: bool, ids: seq<nat>, i: nat)
    requires i < |ids| && Key(image, ids[i]) in store
    ensures forall s :: CountOf(store, image, ids[..i + 1], s) ==
                        CountOf(store, image, ids[..i], s) + if s == store[Key(image, ids[i])] then 1 else 0
  {
    assert ids[..i + 1][..i] == ids[..i];
  }

  lemma {:induction false} SelectedAreStored(store: Store, image: bool, ids: seq<nat>, statuses: set<Status>, i: nat)
    requires i < |Select(store, image, ids, statuses)|
    ensures HasStatus(store, image, Select(store, image, ids, statuses)[i], statuses)
  {
    var init := ids[..|ids| - 1];
    if i < |Select(store, image, init, statuses)| {
      SelectedAreStored(store, image, init, statuses, i);
    }
  }

  // --- Receipts ---

  /** One line of Appendix A: the row's triaged findings, counted by status. */
  datatype Receipt = Receipt(image: bool, wcagSc: Option<string>, whole: bool, triaged: Summary)

  function Terminal(m: Summary): Summary {
    map s | s in m && s in TRIAGED && m[s] > 0 :: m[s]
  }

  function ReceiptsOf(row: Row): seq<Receipt> {
    if IsFullyTriaged(row) then [Receipt(row.image, row.wcagSc, true, Terminal(row.summary))]
    else if Terminal(row.summary) != map[] then [Receipt(row.image, row.wcagSc, false, Terminal(row.summary))]
    else []
  }

  // --- Buckets ---

  predicate IsWcagBarrier(row: Row) {
    row.lane == "likely_barrier" && row.conformance != "BP" && row.wcagSc.Some? && row.wcagSc.value != ""
  }

  /** Which statuses of a row that is not fully triaged go to cards. */
  function CardStatuses(row: Row): set<Status> {
    if row.lane == "expert_review" then CONFIRMED else if IsWcagBarrier(row) then OPEN else {}
  }

  /** The rest of the open statuses goes to Appendix B. */
  function LeadStatuses(row: Row): set<Status> {
    OPEN - CardStatuses(row)
  }

  function KeysOf(image: bool, ids: seq<nat>): (keys: seq<Key>)
    ensures |keys| == |ids| && forall i :: 0 <= i < |keys| ==> keys[i] == Key(image, ids[i])
  {
    seq(|ids|, i requires 0 <= i < |ids| => Key(image, ids[i]))
  }

  function RowKeys(row: Row): seq<Key> {
    KeysOf(row.image, row.ids)
  }

  /** All findings behind some rows, each as often as it is there. */
  function Findings(rows: seq<Row>): multiset<Key> {
    multiset(FlatMap(RowKeys, rows))
  }

  /** The findings of one row with one of `statuses`. */
  function Having(store: Store, row: Row, statuses: set<Status>): multiset<Key> {
    multiset(KeysOf(row.image, Select(store, row.image, row.ids, statuses)))
  }

  /** What one row owes the cards, or Appendix B. */
  function Owed(store: Store, row: Row, statuses: set<Status>): multiset<Key> {
    if IsFullyTriaged(row) then multiset{} else Having(store, row, statuses)
  }

  function Total(f: Row -> multiset<Key>, rows: seq<Row>): multiset<Key> {
    if rows == [] then multiset{} else Total(f, rows[..|rows| - 1]) + f(rows[|rows| - 1])
  }

  function OwedCards(store: Store): Row -> multiset<Key> {
    row => Owed(store, row, CardStatuses(row))
  }

  function OwedLeads(store: Store): Row -> multiset<Key> {
    row => Owed(store, row, LeadStatuses(row))
  }

  function OpenFindings(store: Store): Row -> multiset<Key> {
    row => Having(store, row, OPEN)
  }

  ghost predicate AllHave(store: Store, row: Row, statuses: set<Status>) {
    forall id :: id in row.ids ==> HasStatus(store, row.image, id, statuses)
  }

  /** A card holds open findings only, those of an expert-review row only once confirmed, and any other
      row is a barrier with a success criterion. */
  ghost predicate GoodCard(store: Store, row: Row) {
    && row.ids != [] && AllHave(store, row, {New, Reviewing, InProgress})
    && (if row.lane == "expert_review" then AllHave(store, row, {InProgress}) else IsWcagBarrier(row))
  }

  lemma {:induction false} FindingsNext(rows: seq<Row>, row: Row)
    ensures Findings(rows + [row]) == Findings(rows) + multiset(RowKeys(row))
  {
    FlatMapJoins(RowKeys, rows, [row]);
    FlatMapOne(RowKeys, row);
  }

  lemma {:induction false} SelectHas(store: Store, image: bool, ids: seq<nat>, statuses: set<Status>)
    ensures forall id :: id in Select(store, image, ids, statuses) ==> HasStatus(store, image, id, statuses)
  {
    if ids != [] {
      SelectHas(store, image, ids[..|ids| - 1], statuses);
    }
  }

  /** A projection, put where it belongs. */
  method Place(store: Store, scope: Scope, row: Row, statuses: set<Status>, bucket: seq<Row>)
    returns (r: seq<Row>)
    ensures bucket <= r && Findings(r) == Findings(bucket) + Having(store, row, statuses)
    ensures forall p :: p in r[|bucket|..] ==> Projects(store, scope, row, statuses, p) && AllHave(store, p, statuses)
  {
    var projected := ProjectRowForStatuses(store, scope, row, statuses);
    SelectHas(store, row.image, row.ids, statuses);
    if projected.Some? {
      FindingsNext(bucket, projected.value);
      return bucket + [projected.value];
    }
    return bucket;
  }

  /** `card` is what one of `rows`, with something open, shows of its findings that go to cards. */
  ghost predicate CardOf(store: Store, scope: Scope, rows: seq<Row>, card: Row) {
    exists row :: row in rows && !IsFullyTriaged(row) && Projects(store, scope, row, CardStatuses(row), card)
  }

  ghost predicate LeadOf(store: Store, scope: Scope, rows: seq<Row>, lead: Row) {
    exists row :: row in rows && !IsFullyTriaged(row) && Projects(store, scope, row, LeadStatuses(row), lead)
  }

  ghost predicate AllCards(store: Store, scope: Scope, rows: seq<Row>, cards: seq<Row>) {
    forall card :: card in cards ==> CardOf(store, scope, rows, card)
  }

  ghost predicate AllLeads(store: Store, scope: Scope, rows: seq<Row>, leads: seq<Row>) {
    forall lead :: lead in leads ==> LeadOf(store, scope, rows, lead)
  }

  /** What `rows` have put in the three buckets. */
  ghost predicate Bucketed(store: Store, scope: Scope, rows: seq<Row>, open: seq<Row>, receipts: seq<Receipt>, leads: seq<Row>) {
    && Findings(open) == Total(OwedCards(store), rows) && Findings(leads) == Total(OwedLeads(store), rows)
    && receipts == FlatMap(ReceiptsOf, rows)
    && (forall card :: card in open ==> GoodCard(store, card))
    && AllCards(store, scope, rows, open) && AllLeads(store, scope, rows, leads)
  }

  lemma {:induction false} TotalNext(f: Row -> multiset<Key>, rows: seq<Row>, row: Row)
    ensures Total(f, rows + [row]) == Total(f, rows) + f(row)
  {
    assert (rows + [row])[..|rows|] == rows;
  }

  lemma {:induction false} ReceiptsNext(rows: seq<Row>, row: Row)
    ensures FlatMap(ReceiptsOf, rows + [row]) == FlatMap(ReceiptsOf, rows) + ReceiptsOf(row)
  {
    FlatMapJoins(ReceiptsOf, rows, [row]);
    FlatMapOne(ReceiptsOf, row);
  }

  lemma {:induction false} RowsStay(store: Store, scope: Scope, rows: seq<Row>, row: Row, open: seq<Row>, leads: seq<Row>)
    requires AllCards(store, scope, rows, open) && AllLeads(store, scope, rows, leads)
    ensures AllCards(store, scope, rows + [row], open) && AllLeads(store, scope, rows + [row], leads)
  {
  }

  /** A row that is fully triaged adds to neither cards nor leads. */
  lemma {:induction false} TriagedRowBuckets(store: Store, scope: Scope, rows: seq<Row>, row: Row,
                                             open: seq<Row>, receipts: seq<Receipt>, leads: seq<Row>)
    requires Bucketed(store, scope, rows, open, receipts, leads) && IsFullyTriaged(row)
    ensures Bucketed(store, scope, rows + [row], open, receipts + ReceiptsOf(row), leads)
  {
    TotalNext(OwedCards(store), rows, row);
    TotalNext(OwedLeads(store), rows, row);
    ReceiptsNext(rows, row);
    RowsStay(store, scope, rows, row, open, leads);
  }

  lemma {:induction false} OneMoreRow(store: Store, scope: Scope, rows: seq<Row>, row: Row,
                                      open: seq<Row>, newOpen: seq<Row>, leads: seq<Row>, newLeads: seq<Row>)
    requires AllCards(store, scope, rows, open) && AllLeads(store, scope, rows, leads)
    requires !IsFullyTriaged(row) && open <= newOpen && leads <= newLeads
    requires forall p :: p in newOpen[|open|..] ==> Projects(store, scope, row, CardStatuses(row), p)
    requires forall p :: p in newLeads[|leads|..] ==> Projects(store, scope, row, LeadStatuses(row), p)
    ensures AllCards(store, scope, rows + [row], newOpen) && AllLeads(store, scope, rows + [row], newLeads)
  {
    RowsStay(store, scope, rows, row, open, leads);
    assert newOpen == open + newOpen[|open|..] && newLeads == leads + newLeads[|leads|..];
  }

  lemma {:induction false} OpenRowBuckets(store: Store, scope: Scope, rows: seq<Row>, row: Row, open: seq<Row>, newOpen: seq<Row>,
                                          receipts: seq<Receipt>, leads: seq<Row>, newLeads: seq<Row>)
    requires Bucketed(store, scope, rows, open, receipts, leads) && !IsFullyTriaged(row)
    requires Findings(newOpen) == Findings(open) + Having(store, row, CardStatuses(row))
    requires Findings(newLeads) == Findings(leads) + Having(store, row, LeadStatuses(row))
    requires forall card :: card in newOpen ==> GoodCard(store, card)
    requires AllCards(store, scope, rows + [row], newOpen) && AllLeads(store, scope, rows + [row], newLeads)
    ensures Bucketed(store, scope, rows + [row], newOpen, receipts + ReceiptsOf(row), newLeads)
  {
    TotalNext(OwedCards(store), rows, row);
    TotalNext(OwedLeads(store), rows, row);
    ReceiptsNext(rows, row);
  }

  /** One round of the loop. */
  method BucketRow(store: Store, scope: Scope, ghost before: seq<Row>, row: Row, open: seq<Row>, receipts: seq<Receipt>, leads: seq<Row>)
    returns (newOpen: seq<Row>, newReceipts: seq<Receipt>, newLeads: seq<Row>)
    requires Bucketed(store, scope, before, open, receipts, leads)
    ensures Bucketed(store, scope, before + [row], newOpen, newReceipts, newLeads)
  {
    newOpen, newReceipts, newLeads := open, receipts, leads;
    if IsFullyTriaged(row) {
      newReceipts := receipts + [Receipt(row.image, row.wcagSc, true, Terminal(row.summary))];
      TriagedRowBuckets(store, scope, before, row, open, receipts, leads);
      return;
    }
    if Terminal(row.summary) != map[] {
      newReceipts := receipts + [Receipt(row.image, row.wcagSc, false, Terminal(row.summary))];
    }
    assert newReceipts == receipts + ReceiptsOf(row);
    newOpen, newLeads := BucketOpenRow(store, scope, row, open, leads);
    OneMoreRow(store, scope, before, row, open, newOpen, leads, newLeads);
    OpenRowBuckets(store, scope, before, row, open, newOpen, receipts, leads, newLeads);
  }

  method BucketRows(store: Store, scope: Scope, rows: seq<Row>)
    returns (open: seq<Row>, receipts: seq<Receipt>, leads: seq<Row>)
    ensures Bucketed(store, scope, rows, open, receipts, leads)
  {
    open, receipts, leads := [], [], [];
    for i := 0 to |rows|
      invariant Bucketed(store, scope, rows[..i], open, receipts, leads)
    {
      TakeNext([], rows, i);
      open, receipts, leads := BucketRow(store, scope, rows[..i], rows[i], open, receipts, leads);
    }
    assert rows[..|rows|] == rows;
  }

  /** A row with something open: an expert-review row is projected twice, any other once. */
  method BucketOpenRow(store: Store, scope: Scope, row: Row, open: seq<Row>, leads: seq<Row>)
    returns (newOpen: seq<Row>, newLeads: seq<Row>)
    requires forall card :: card in open ==> GoodCard(store, card)
    ensures Findings(newOpen) == Findings(open) + Having(store, row, CardStatuses(row))
    ensures Findings(newLeads) == Findings(leads) + Having(store, row, LeadStatuses(row))
    ensures forall card :: card in newOpen ==> GoodCard(store, card)
    ensures open <= newOpen && forall p :: p in newOpen[|open|..] ==> Projects(store, scope, row, CardStatuses(row), p)
    ensures leads <= newLeads && forall p :: p in newLeads[|leads|..] ==> Projects(store, scope, row, LeadStatuses(row), p)
  {
    newOpen, newLeads := open, leads;
    if row.lane == "expert_review" {
      newOpen := Place(store, scope, row, CONFIRMED, open);
      assert LeadStatuses(row) == UNCONFIRMED;
      newLeads := Place(store, scope, row, UNCONFIRMED, leads);
    } else if IsWcagBarrier(row) {
      newOpen := Place(store, scope, row, OPEN, open);
      assert LeadStatuses(row) == {};
      SelectNone(store, row.image, row.ids);
    } else {
      assert LeadStatuses(row) == OPEN;
      newLeads := Place(store, scope, row, OPEN, leads);
      SelectNone(store, row.image, row.ids);
    }
    forall card | card in newOpen ensures GoodCard(store, card) {
      if card !in open {
        assert card in newOpen[|open|..];
      }
    }
  }

  lemma {:induction false} SelectNone(store: Store, image: bool, ids: seq<nat>)
    ensures Select(store, image, ids, {}) == []
  {
    if ids != [] {
      SelectNone(store, image, ids[..|ids| - 1]);
    }
  }

  // --- Cards in order ---

  /** Severity first, then reach. */
  predicate Before(rank: Row -> nat, a: Row, b: Row) {
    rank(a) < rank(b) || (rank(a) == rank(b) && a.pages >= b.pages)
  }

  function Insert(rank: Row -> nat, cards: seq<Row>, card: Row): seq<Row> {
    if cards == [] || Before(rank, cards[|cards| - 1], card) then cards + [card]
    else Insert(rank, cards[..|cards| - 1], card) + [cards[|cards| - 1]]
  }

  function Sort(rank: Row -> nat, cards: seq<Row>): seq<Row> {
    if cards == [] then [] else Insert(rank, Sort(rank, cards[..|cards| - 1]), cards[|cards| - 1])
  }

  predicate InOrder(rank: Row -> nat, cards: seq<Row>) {
    forall i, j :: 0 <= i < j < |cards| ==> Before(rank, cards[i], cards[j])
  }

  lemma {:induction false} InsertPermutes(rank: Row -> nat, cards: seq<Row>, card: Row)
    ensures multiset(Insert(rank, cards, card)) == multiset(cards) + multiset{card}
  {
    if cards != [] && !Before(rank, cards[|cards| - 1], card) {
      assert cards == cards[..|cards| - 1] + [cards[|cards| - 1]];
      InsertPermutes(rank, cards[..|cards| - 1], card);
    }
  }

  lemma {:induction false} InsertKeepsFindings(rank: Row -> nat, cards: seq<Row>, card: Row)
    ensures Findings(Insert(rank, cards, card)) == Findings(cards) + multiset(RowKeys(card))
  {
    if cards == [] || Before(rank, cards[|cards| - 1], card) {
      FindingsNext(cards, card);
    } else {
      var init, last := cards[..|cards| - 1], cards[|cards| - 1];
      assert cards == init + [last];
      InsertKeepsFindings(rank, init, card);
      FindingsNext(init, last);
      FindingsNext(Insert(rank, init, card), last);
    }
  }

  lemma {:induction false} InsertOrders(rank: Row -> nat, cards: seq<Row>, card: Row)
    requires InOrder(rank, cards)
    ensures InOrder(rank, Insert(rank, cards, card))
  {
    if cards != [] && !Before(rank, cards[|cards| - 1], card) {
      var init, last := cards[..|cards| - 1], cards[|cards| - 1];
      InsertOrders(rank, init, card);
      InsertPermutes(rank, init, card);
      var inserted := Insert(rank, init, card);
      forall i | 0 <= i < |inserted| ensures Before(rank, inserted[i], last) {
        assert inserted[i] in multiset(inserted);
      }
    }
  }

  lemma {:induction false} SortOrders(rank: Row -> nat, cards: seq<Row>)
    ensures InOrder(rank, Sort(rank, cards))
  {
    if cards != [] {
      SortOrders(rank, cards[..|cards| - 1]);
      InsertOrders(rank, Sort(rank, cards[..|cards| - 1]), cards[|cards| - 1]);
    }
  }

  lemma {:induction false} SortPermutes(rank: Row -> nat, cards: seq<Row>)
    ensures multiset(Sort(rank, cards)) == multiset(cards)
  {
    if cards != [] {
      var init, last := cards[..|cards| - 1], cards[|cards| - 1];
      assert cards == init + [last];
      SortPermutes(rank, init);
      InsertPermutes(rank, Sort(rank, init), last);
    }
  }

  lemma {:induction false} FindingsLast(rows: seq<Row>)
    requires rows != []
    ensures Findings(rows) == Findings(rows[..|rows| - 1]) + multiset(RowKeys(rows[|rows| - 1]))
  {
    FindingsNext(rows[..|rows| - 1], rows[|rows| - 1]);
    assert rows == rows[..|rows| - 1] + [rows[|rows| - 1]];
  }

  lemma {:induction false} SortLast(rank: Row -> nat, cards: seq<Row>)
    requires cards != []
    ensures Findings(Sort(rank, cards)) ==
            Findings(Sort(rank, cards[..|cards| - 1])) + multiset(RowKeys(cards[|cards| - 1]))
  {
    InsertKeepsFindings(rank, Sort(rank, cards[..|cards| - 1]), cards[|cards| - 1]);
  }

  lemma {:induction false} SortKeepsFindings(rank: Row -> nat, cards: seq<Row>)
    ensures Findings(Sort(rank, cards)) == Findings(cards)
    decreases |cards|
  {
    if cards != [] {
      SortKeepsFindings(rank, cards[..|cards| - 1]);
      SortLast(rank, cards);
      FindingsLast(cards);
    }
  }

  method BucketRowsIntoCards(store: Store, scope: Scope, rank: Row -> nat, rows: seq<Row>)
    returns (cards: seq<Row>, receipts: seq<Receipt>, leads: seq<Row>)
    ensures Findings(cards) == Total(OwedCards(store), rows)
    ensures forall i, j :: 0 <= i < j < |cards| ==>
              rank(cards[i]) < rank(cards[j]) || (rank(cards[i]) == rank(cards[j]) && cards[i].pages >= cards[j].pages)
    ensures Findings(leads) == Total(OwedLeads(store), rows)
    ensures receipts == FlatMap(ReceiptsOf, rows)
    ensures forall card :: card in cards ==> GoodCard(store, card) && CardOf(store, scope, rows, card)
    ensures forall lead :: lead in leads ==> LeadOf(store, scope, rows, lead)
  {
    var open;
    open, receipts, leads := BucketRows(store, scope, rows);
    SortOrders(rank, open);
    SortPermutes(rank, open);
    SortKeepsFindings(rank, open);
    cards := Sort(rank, open);
    forall card | card in cards ensures GoodCard(store, card) && CardOf(store, scope, rows, card) {
      assert card in multiset(cards);
    }
    forall i, j | 0 <= i < j < |cards|
      ensures rank(cards[i]) < rank(cards[j]) || (rank(cards[i]) == rank(cards[j]) && cards[i].pages >= cards[j].pages)
    {
      assert Before(rank, cards[i], cards[j]);
    }
  }

  // --- Where a finding goes ---

  function Times(ids: seq<nat>, id: nat): nat {
    multiset(ids)[id]
  }

  lemma {:induction false} SelectedTimes(store: Store, image: bool, ids: seq<nat>, statuses: set<Status>, id: nat)
    ensures multiset(KeysOf(image, Select(store, image, ids, statuses)))[Key(image, id)] ==
            if HasStatus(store, image, id, statuses) then Times(ids, id) else 0
  {
    if ids != [] {
      var init, last := ids[..|ids| - 1], ids[|ids| - 1];
      assert ids == init + [last];
      SelectedTimes(store, image, init, statuses, id);
      KeysNext(image, Select(store, image, init, statuses), last);
    }
  }

  /** A finding of a row that has something open, or whose summary is empty: to the cards go the confirmed ones of an
      expert-review row and the open ones of a likely barrier with a success criterion and a conformance level; the
      other open ones go to Appendix B; and each goes as often as its row has it. */
  lemma {:induction false} WhereFindingsGo(store: Store, row: Row, id: nat)
    requires At(row.summary, New) + At(row.summary, Reviewing) + At(row.summary, InProgress) > 0 || row.summary == map[]
    ensures var key := Key(row.image, id);
            var open := key in store && store[key] in {New, Reviewing, InProgress};
            var barrier := row.lane == "likely_barrier" && row.conformance != "BP" && row.wcagSc.Some? && row.wcagSc.value != "";
            var card := open && if row.lane == "expert_review" then store[key] == InProgress else barrier;
            && Owed(store, row, CardStatuses(row))[key] == (if card then Times(row.ids, id) else 0)
            && Owed(store, row, LeadStatuses(row))[key] == (if open && !card then Times(row.ids, id) else 0)
  {
    SelectedTimes(store, row.image, row.ids, CardStatuses(row), id);
    SelectedTimes(store, row.image, row.ids, LeadStatuses(row), id);
  }

  /** A row that reads as fully triaged, by its summary, shows no finding at all and is received as a whole. */
  lemma {:induction false} TriagedRowsShowNothing(store: Store, row: Row)
    requires At(row.summary, New) + At(row.summary, Reviewing) + At(row.summary, InProgress) == 0
    requires At(row.summary, Remediated) + At(row.summary, AcceptedRisk) + At(row.summary, FalsePositive) > 0
    ensures Owed(store, row, CardStatuses(row)) == Owed(store, row, LeadStatuses(row)) == multiset{}
    ensures |ReceiptsOf(row)| == 1 && ReceiptsOf(row)[0].whole
  {
  }

  /** A receipt names its row, says whether nothing of it is open, and gives the row's own count for each terminal
      status and none for the others. */
  lemma {:induction false} ReceiptSays(row: Row, receipt: Receipt, s: Status)
    requires receipt in ReceiptsOf(row)
    ensures receipt.image == row.image && receipt.wcagSc == row.wcagSc
    ensures At(receipt.triaged, s) == if s in {Remediated, AcceptedRisk, FalsePositive} then At(row.summary, s) else 0
    ensures receipt.whole <==> At(row.summary, New) + At(row.summary, Reviewing) + At(row.summary, InProgress) == 0
  {
    if !receipt.whole {
      var k :| k in Terminal(row.summary);
      assert At(row.summary, k) > 0;
    }
  }

  // --- Conservation ---

  lemma {:induction false} HavingSplits(store: Store, image: bool, ids: seq<nat>, a: set<Status>, b: set<Status>)
    requires a !! b
    ensures multiset(KeysOf(image, Select(store, image, ids, a + b))) ==
            multiset(KeysOf(image, Select(store, image, ids, a))) + multiset(KeysOf(image, Select(store, image, ids, b)))
  {
    if ids != [] {
      var init, id := ids[..|ids| - 1], ids[|ids| - 1];
      HavingSplits(store, image, init, a, b);
      KeysNext(image, Select(store, image, init, a), id);
      KeysNext(image, Select(store, image, init, b), id);
      KeysNext(image, Select(store, image, init, a + b), id);
    }
  }

  lemma {:induction false} KeysNext(image: bool, ids: seq<nat>, id: nat)
    ensures multiset(KeysOf(image, ids + [id])) == multiset(KeysOf(image, ids)) + multiset{Key(image, id)}
    ensures ids + [] == ids
  {
    assert KeysOf(image, ids + [id]) == KeysOf(image, ids) + [Key(image, id)];
  }

  /** A row the report treats as fully triaged has nothing open. */
  predicate Honest(store: Store, row: Row) {
    IsFullyTriaged(row) ==> Select(store, row.image, row.ids, OPEN) == []
  }

  lemma {:induction false} RowConserves(store: Store, row: Row)
    ensures var owed := Owed(store, row, CardStatuses(row)) + Owed(store, row, LeadStatuses(row));
            var open := Having(store, row, OPEN);
            && owed <= open && (owed == open <==> Honest(store, row))
  {
    HavingSplits(store, row.image, row.ids, CardStatuses(row), LeadStatuses(row));
    assert CardStatuses(row) + LeadStatuses(row) == OPEN;
    assert |Having(store, row, OPEN)| == |Select(store, row.image, row.ids, OPEN)|;
  }

  /** What the report shows of some rows. */
  function ShownOf(store: Store, rows: seq<Row>): multiset<Key> {
    Total(OwedCards(store), rows) + Total(OwedLeads(store), rows)
  }

  lemma {:induction false} ShownNext(store: Store, rows: seq<Row>, row: Row)
    ensures ShownOf(store, rows + [row]) ==
            ShownOf(store, rows) + (Owed(store, row, CardStatuses(row)) + Owed(store, row, LeadStatuses(row)))
    ensures Total(OpenFindings(store), rows + [row]) == Total(OpenFindings(store), rows) + Having(store, row, OPEN)
  {
    assert (rows + [row])[..|rows|] == rows;
  }

  predicate AllHonest(store: Store, rows: seq<Row>) {
    forall i :: 0 <= i < |rows| ==> Honest(store, rows[i])
  }

  /** What is shown of some rows is part of what is open, and all of it just when they are honest. */
  predicate ShowsOpen(store: Store, rows: seq<Row>) {
    && ShownOf(store, rows) <= Total(OpenFindings(store), rows)
    && (ShownOf(store, rows) == Total(OpenFindings(store), rows) <==> AllHonest(store, rows))
  }

  lemma {:induction false} OneMoreShown(store: Store, rows: seq<Row>, row: Row)
    requires ShowsOpen(store, rows)
    ensures ShowsOpen(store, rows + [row])
  {
    RowConserves(store, row);
    ShownNext(store, rows, row);
    AllHonestNext(store, rows, row);
    SumsAgree(ShownOf(store, rows), Total(OpenFindings(store), rows),
              Owed(store, row, CardStatuses(row)) + Owed(store, row, LeadStatuses(row)), Having(store, row, OPEN));
  }

  lemma {:induction false} AllHonestNext(store: Store, rows: seq<Row>, row: Row)
    ensures AllHonest(store, rows + [row]) <==> AllHonest(store, rows) && Honest(store, row)
  {
    var all := rows + [row];
    assert all[|rows|] == row && forall i :: 0 <= i < |rows| ==> all[i] == rows[i];
  }

  /** Every open finding is in exactly one of a card and an Appendix B row, as often as the rows have it,
      precisely when no row reads as fully triaged while one of its findings is open. */
  lemma {:induction false} OpenFindingsAreConserved(store: Store, rows: seq<Row>)
    ensures ShowsOpen(store, rows)
    decreases |rows|
  {
    if rows != [] {
      assert rows == rows[..|rows| - 1] + [rows[|rows| - 1]];
      OpenFindingsAreConserved(store, rows[..|rows| - 1]);
      OneMoreShown(store, rows[..|rows| - 1], rows[|rows| - 1]);
    }
  }

  lemma {:induction false} SumsAgree(a: multiset<Key>, b: multiset<Key>, c: multiset<Key>, d: multiset<Key>)
    requires a <= b && c <= d
    ensures a + c <= b + d && (a + c == b + d <==> a == b && c == d)
  {
    if a + c == b + d {
      forall k ensures a[k] == b[k] && c[k] == d[k] {
        assert (a + c)[k] == (b + d)[k];
      }
    }
  }

  /** The row's summary counts its findings as they are stored. */
  ghost predicate Matching(store: Store, row: Row) {
    forall s :: At(row.summary, s) == CountOf(store, row.image, row.ids, s)
  }

  lemma {:induction false} CountsAddUp(store: Store, image: bool, ids: seq<nat>)
    ensures |Select(store, image, ids, OPEN)| ==
            CountOf(store, image, ids, New) + CountOf(store, image, ids, Reviewing) + CountOf(store, image, ids, InProgress)
    ensures |Select(store, image, ids, TRIAGED)| ==
            CountOf(store, image, ids, Remediated) + CountOf(store, image, ids, AcceptedRisk)
            + CountOf(store, image, ids, FalsePositive)
  {
    if ids != [] {
      CountsAddUp(store, image, ids[..|ids| - 1]);
    }
  }

  lemma {:induction false} MatchingIsHonest(store: Store, row: Row)
    requires Matching(store, row)
    ensures Honest(store, row)
  {
    CountsAddUp(store, row.image, row.ids);
  }

  function ReceiptTotal(receipts: seq<Receipt>, s: Status): nat {
    if receipts == [] then 0 else At(receipts[0].triaged, s) + ReceiptTotal(receipts[1..], s)
  }

  lemma {:induction false} ReceiptTotalJoins(a: seq<Receipt>, b: seq<Receipt>, s: Status)
    ensures ReceiptTotal(a + b, s) == ReceiptTotal(a, s) + ReceiptTotal(b, s)
  {
    if a == [] {
      assert a + b == b;
    } else {
      ReceiptTotalJoins(a[1..], b, s);
      assert (a + b)[1..] == a[1..] + b;
    }
  }

  function StoredTotal(store: Store, rows: seq<Row>, s: Status): nat {
    if rows == [] then 0
    else StoredTotal(store, rows[..|rows| - 1], s) + CountOf(store, rows[|rows| - 1].image, rows[|rows| - 1].ids, s)
  }

  lemma {:induction false} ReceiptOfRow(store: Store, row: Row, s: Status)
    requires Matching(store, row) && s in TRIAGED
    ensures ReceiptTotal(ReceiptsOf(row), s) == CountOf(store, row.image, row.ids, s)
  {
    var receipts := ReceiptsOf(row);
    assert receipts != [] ==> receipts[1..] == [];
    assert At(row.summary, s) == CountOf(store, row.image, row.ids, s);
    if At(row.summary, s) > 0 {
      assert s in Terminal(row.summary);
    }
  }

  /** When summaries match what is stored, the receipts count every triaged finding, status by status. */
  lemma {:induction false} TriagedFindingsHaveReceipts(store: Store, rows: seq<Row>, s: Status)
    requires (forall i :: 0 <= i < |rows| ==> Matching(store, rows[i])) && s in TRIAGED
    ensures ReceiptTotal(FlatMap(ReceiptsOf, rows), s) == StoredTotal(store, rows, s)
  {
    if rows != [] {
      var init, row := rows[..|rows| - 1], rows[|rows| - 1];
      TriagedFindingsHaveReceipts(store, init, s);
      FlatMapNext(ReceiptsOf, rows, |init|);
      assert rows[..|init| + 1] == rows;
      ReceiptTotalJoins(FlatMap(ReceiptsOf, init), ReceiptsOf(row), s);
      ReceiptOfRow(store, row, s);
    }
  }

  predicate AllStored(store: Store, row: Row) {
    forall i :: 0 <= i < |row.ids| ==> Key(row.image, row.ids[i]) in store
  }

  lemma {:induction false} StoredIsOpenOrTriaged(store: Store, image: bool, ids: seq<nat>)
    requires forall i :: 0 <= i < |ids| ==> Key(image, ids[i]) in store
    ensures |ids| == |Select(store, image, ids, OPEN)| + |Select(store, image, ids, TRIAGED)|
  {
    if ids != [] {
      StoredIsOpenOrTriaged(store, image, ids[..|ids| - 1]);
      var status := store[Key(image, ids[|ids| - 1])];
      OpenOrTriaged(status);
    }
  }

  lemma {:induction false} OpenOrTriaged(status: Status)
    ensures status in OPEN <==> status !in TRIAGED
  {
    match status
    case New =>
    case Reviewing =>
    case InProgress =>
    case Remediated =>
    case AcceptedRisk =>
    case FalsePositive =>
  }

  lemma {:induction false} OpenAndTriagedAreAll(store: Store, rows: seq<Row>)
    requires forall i :: 0 <= i < |rows| ==> AllStored(store, rows[i])
    ensures |Findings(rows)| == |Total(OpenFindings(store), rows)| + StoredTotal(store, rows, Remediated)
                                + StoredTotal(store, rows, AcceptedRisk) + StoredTotal(store, rows, FalsePositive)
  {
    if rows != [] {
      var init, row := rows[..|rows| - 1], rows[|rows| - 1];
      OpenAndTriagedAreAll(store, init);
      FindingsNext(init, row);
      assert rows == init + [row];
      StoredIsOpenOrTriaged(store, row.image, row.ids);
      CountsAddUp(store, row.image, row.ids);
      assert |Having(store, row, OPEN)| == |Select(store, row.image, row.ids, OPEN)|;
    }
  }

  /** No finding is lost or shown twice: what the report shows is the rows' open findings, its receipts
      count their triaged ones, and together they are all there is. */
  lemma {:induction false} ReportConservesFindings(store: Store, rows: seq<Row>)
    requires forall i :: 0 <= i < |rows| ==> Matching(store, rows[i]) && AllStored(store, rows[i])
    ensures var receipts := FlatMap(ReceiptsOf, rows);
            && ShownOf(store, rows) == Total(OpenFindings(store), rows)
            && |ShownOf(store, rows)| + ReceiptTotal(receipts, Remediated) + ReceiptTotal(receipts, AcceptedRisk)
               + ReceiptTotal(receipts, FalsePositive) == |Findings(rows)|
  {
    forall i | 0 <= i < |rows| ensures Honest(store, rows[i]) {
      MatchingIsHonest(store, rows[i]);
    }
    OpenFindingsAreConserved(store, rows);
    OpenAndTriagedAreAll(store, rows);
    TriagedFindingsHaveReceipts(store, rows, Remediated);
    TriagedFindingsHaveReceipts(store, rows, AcceptedRisk);
    TriagedFindingsHaveReceipts(store, rows, FalsePositive);
  }

  /** A row whose summary is out of date: its open finding is in no bucket. */
  lemma {:induction false} StaleSummaryHidesFinding(row: Row)
    requires row == Row(false, "likely_barrier", "AA", Some("1.1.1"), [1], map[Remediated := 1], 1, 1, 0)
    ensures var store := map[Key(false, 1) := New];
            ShownOf(store, [row]) == multiset{} && Total(OpenFindings(store), [row]) == multiset{Key(false, 1)}
  {
    var store := map[Key(false, 1) := New];
    assert IsFullyTriaged(row);
    ShownNext(store, [], row);
    assert [] + [row] == [row];
    assert row.ids[..0] == [];
    assert Select(store, false, row.ids, OPEN) == [1];
    assert KeysOf(false, [1]) == [Key(false, 1)];
  }
}
