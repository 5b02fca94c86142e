/** `build_snapshot` and the whole capture of `src/audit/crawler/style_snapshot.py`: what the page's
    sheets meant is what the saved text means, unless the snapshot says it is incomplete. */
module StyleSnapshot {
  import opened Text
  import opened StyleText
  import opened StyleWalk

  const MAX_SHEET_BYTES := 10_000_000
  const MAX_PAGE_BYTES := 50_000_000
  const MAX_SHEETS := 2_000
  const MAX_IMPORT_DEPTH := 8

  datatype Snapshot = Snapshot(sheets: seq<Captured>, complete: bool)

  function TotalBytes(bytes: Css -> nat, sheets: seq<Captured>): nat {
    if sheets == [] then 0 else TotalBytes(bytes, sheets[..|sheets| - 1]) + bytes(Last(sheets).css)
  }

  predicate EachFits(bytes: Css -> nat, sheets: seq<Captured>) {
    sheets == [] || (EachFits(bytes, sheets[..|sheets| - 1]) && bytes(Last(sheets).css) <= MAX_SHEET_BYTES)
  }

  /** The three bounds of a stored page. */
  predicate WithinBounds(bytes: Css -> nat, sheets: seq<Captured>) {
    |sheets| <= MAX_SHEETS && EachFits(bytes, sheets) && TotalBytes(bytes, sheets) <= MAX_PAGE_BYTES
  }

  /** The bounds in figures: 2000 sheets of at most ten million bytes, fifty million in all. */
  lemma {:induction false} StoredBounds(bytes: Css -> nat, sheets: seq<Captured>)
    ensures EachFits(bytes, sheets) <==> forall s :: s in sheets ==> bytes(s.css) <= 10_000_000
    ensures WithinBounds(bytes, sheets) <==>
            && |sheets| <= 2_000 && TotalBytes(bytes, sheets) <= 50_000_000
            && forall s :: s in sheets ==> bytes(s.css) <= 10_000_000
    decreases |sheets|
  {
    if sheets != [] {
      StoredBounds(bytes, sheets[..|sheets| - 1]);
      assert sheets == sheets[..|sheets| - 1] + [Last(sheets)];
    }
  }

  // --- One part ---

  /** A text part's rules with their addresses resolved. */
  function Resolved(env: Env, rules: seq<string>, base: string): (css: Css)
    ensures |css| == |rules|
    ensures forall i :: 0 <= i < |css| ==> css[i] == Rule(env.resolve(base, rules[i]))
  {
    seq(|rules|, i requires 0 <= i < |rules| => Rule(env.resolve(base, rules[i])))
  }

  lemma {:induction false} DenoteResolved(env: Env, rules: seq<string>, base: string, stack: seq<Condition>)
    ensures Denote(Resolved(env, rules, base), stack) == DenoteTexts(env, rules, base, stack)
    decreases |rules|
  {
    if rules != [] {
      DenoteResolved(env, rules[1..], base, stack);
      assert Resolved(env, rules, base)[1..] == Resolved(env, rules[1..], base);
      assert DenoteTexts(env, rules, base, stack)[1..] == DenoteTexts(env, rules[1..], base, stack);
    }
  }

  /** A part's text before its conditions are put around it. */
  function TextOf(env: Env, part: Part): Option<Css> {
    match part
    case TextPart(rules, base, _, _, _) => Some(Resolved(env, rules, base))
    case FetchPart(href, _, _) => if href == "" then None else env.fetch(href)
    case OtherPart(_) => None
  }

  /** A fetched part's answer means what its address holds. */
  predicate TellsPart(env: Env, part: Part) {
    part.FetchPart? ==> Tells(env, part.href)
  }

  predicate EachTells(env: Env, parts: seq<Part>) {
    forall i :: 0 <= i < |parts| ==> TellsPart(env, parts[i])
  }

  predicate EachHasText(env: Env, parts: seq<Part>) {
    forall i :: 0 <= i < |parts| ==> TextOf(env, parts[i]).Some?
  }

  lemma {:induction false} DenoteTextOf(env: Env, part: Part)
    requires TextOf(env, part).Some? && TellsPart(env, part)
    ensures Denote(Wrapped(TextOf(env, part).value, part.wrappers), UnderMedia(part.media)) == DenotePart(env, part)
  {
    var css := TextOf(env, part).value;
    var outer := UnderMedia(part.media);
    StackOne(Media(part.media));
    DenoteWrapped(css, part.wrappers, outer);
    StackJoins([Media(part.media)], part.wrappers);
    if part.TextPart? {
      DenoteResolved(env, part.rules, part.base, FullStack(part.media, part.wrappers));
    } else {
      SameAnywhere(css, env.holds(part.href), FullStack(part.media, part.wrappers));
    }
  }

  // --- build_snapshot ---

  /** The sheets a snapshot that loses nothing keeps of the parts. */
  function Saved(env: Env, parts: seq<Part>): seq<Captured> {
    FlatMap(SavedPart(env), parts)
  }

  function SavedPart(env: Env): Part -> seq<Captured> {
    part => SavedOf(env, part)
  }

  function SavedOf(env: Env, part: Part): seq<Captured> {
    match TextOf(env, part)
    case Some(text) => [Captured(Wrapped(text, part.wrappers), part.media)]
    case None => []
  }

  lemma {:induction false} SavedOfMeans(env: Env, part: Part)
    requires TellsPart(env, part)
    ensures Loses(FlatMap(SheetMeaning, SavedOf(env, part)), DenotePart(env, part), TextOf(env, part).None?)
  {
    if TextOf(env, part).Some? {
      DenoteTextOf(env, part);
      FlatMapOne(SheetMeaning, SavedOf(env, part)[0]);
      SubsequenceOfItself(DenotePart(env, part));
    }
  }

  /** The saved sheets mean what the parts mean, less the parts whose text could not be had. */
  lemma {:induction false} SavedMeans(env: Env, parts: seq<Part>)
    requires EachTells(env, parts)
    ensures Loses(FlatMap(SheetMeaning, Saved(env, parts)), DenoteParts(env, parts), !EachHasText(env, parts))
  {
    if parts != [] {
      assert forall i :: 0 <= i < |parts| - 1 ==> parts[1..][i] == parts[i + 1];
      SavedMeans(env, parts[1..]);
      SavedOfMeans(env, parts[0]);
      FlatMapJoins(SheetMeaning, SavedOf(env, parts[0]), Saved(env, parts[1..]));
      LosesJoins(FlatMap(SheetMeaning, SavedOf(env, parts[0])), DenotePart(env, parts[0]),
                 FlatMap(SheetMeaning, Saved(env, parts[1..])), DenoteParts(env, parts[1..]),
                 TextOf(env, parts[0]).None?, !EachHasText(env, parts[1..]));
    }
  }

  lemma {:induction false} SavedNext(env: Env, parts: seq<Part>, part: Part)
    ensures Saved(env, parts + [part]) == Saved(env, parts) + SavedOf(env, part)
  {
    FlatMapJoins(SavedPart(env), parts, [part]);
    FlatMapOne(SavedPart(env), part);
  }

  lemma {:induction false} WithinNext(bytes: Css -> nat, sheets: seq<Captured>, s: Captured)
    ensures TotalBytes(bytes, sheets + [s]) == TotalBytes(bytes, sheets) + bytes(s.css)
    ensures EachFits(bytes, sheets + [s]) <==> EachFits(bytes, sheets) && bytes(s.css) <= MAX_SHEET_BYTES
  {
    assert (sheets + [s])[..|sheets|] == sheets;
  }

  lemma {:induction false} WithinPrefix(bytes: Css -> nat, a: seq<Captured>, b: seq<Captured>)
    requires WithinBounds(bytes, a + b)
    ensures WithinBounds(bytes, a)
    decreases |b|
  {
    if b == [] {
      assert a + b == a;
    } else {
      var init := b[..|b| - 1];
      assert a + b == (a + init) + [Last(b)];
      WithinNext(bytes, a + init, Last(b));
      WithinPrefix(bytes, a, init);
    }
  }

  /** Every part's text can be had, and all of them fit. */
  predicate Storable(env: Env, bytes: Css -> nat, parts: seq<Part>) {
    EachHasText(env, parts) && WithinBounds(bytes, Saved(env, parts))
  }

  /** Sheets kept of the parts so far, within the bounds; `total` is their size. They are all of them, unless
      something was `lost` before or a part could not be stored. */
  ghost predicate Holding(env: Env, bytes: Css -> nat, sheets: seq<Captured>, total: nat, parts: seq<Part>, lost: bool, lossy: bool) {
    && WithinBounds(bytes, sheets) && total == TotalBytes(bytes, sheets)
    && Adds([], sheets, Saved(env, parts), lossy)
    && (lossy <==> lost || !Storable(env, bytes, parts))
  }

  lemma {:induction false} StorablePrefix(env: Env, bytes: Css -> nat, parts: seq<Part>, rest: seq<Part>)
    requires Storable(env, bytes, parts + rest)
    ensures Storable(env, bytes, parts) && EachHasText(env, rest)
  {
    FlatMapJoins(SavedPart(env), parts, rest);
    WithinPrefix(bytes, Saved(env, parts), Saved(env, rest));
    assert forall i :: 0 <= i < |parts| ==> (parts + rest)[i] == parts[i];
    assert forall i :: 0 <= i < |rest| ==> (parts + rest)[|parts| + i] == rest[i];
  }

  /** Sheets not kept of `rest` are a loss. */
  lemma {:induction false} HoldsLess(env: Env, bytes: Css -> nat, sheets: seq<Captured>, total: nat, parts: seq<Part>,
                                     rest: seq<Part>, lost: bool, lossy: bool)
    requires Holding(env, bytes, sheets, total, parts, lost, lossy) && (lossy || !Storable(env, bytes, parts + rest))
    ensures Holding(env, bytes, sheets, total, parts + rest, lost, true)
  {
    FlatMapJoins(SavedPart(env), parts, rest);
    AddsNothing(sheets, Saved(env, rest), true);
    AddsMore([], sheets, sheets, Saved(env, parts), Saved(env, rest), lossy, true);
    if Storable(env, bytes, parts + rest) {
      StorablePrefix(env, bytes, parts, rest);
    }
  }

  lemma {:induction false} OneMoreStorable(env: Env, bytes: Css -> nat, sheets: seq<Captured>, parts: seq<Part>, part: Part,
                                           lost: bool, lossy: bool)
    requires TextOf(env, part).Some? && (lossy <==> lost || !Storable(env, bytes, parts))
    requires !lossy ==> sheets == Saved(env, parts)
    requires WithinBounds(bytes, sheets + SavedOf(env, part))
    ensures lossy <==> lost || !Storable(env, bytes, parts + [part])
  {
    SavedNext(env, parts, part);
    if Storable(env, bytes, parts + [part]) {
      StorablePrefix(env, bytes, parts, [part]);
    }
  }

  lemma {:induction false} OneMoreFits(bytes: Css -> nat, sheets: seq<Captured>, s: Captured)
    requires WithinBounds(bytes, sheets) && |sheets| < MAX_SHEETS
    requires bytes(s.css) <= MAX_SHEET_BYTES && TotalBytes(bytes, sheets) + bytes(s.css) <= MAX_PAGE_BYTES
    ensures WithinBounds(bytes, sheets + [s]) && TotalBytes(bytes, sheets + [s]) == TotalBytes(bytes, sheets) + bytes(s.css)
  {
    WithinNext(bytes, sheets, s);
  }

  lemma {:induction false} HoldsMore(env: Env, bytes: Css -> nat, sheets: seq<Captured>, total: nat, parts: seq<Part>,
                                     part: Part, lost: bool, lossy: bool)
    requires |sheets| < MAX_SHEETS && Holding(env, bytes, sheets, total, parts, lost, lossy) && TextOf(env, part).Some?
    requires var size := bytes(SavedOf(env, part)[0].css); size <= MAX_SHEET_BYTES && total + size <= MAX_PAGE_BYTES
    ensures Holding(env, bytes, sheets + SavedOf(env, part), total + bytes(SavedOf(env, part)[0].css), parts + [part], lost, lossy)
  {
    var own := SavedOf(env, part);
    assert own == [own[0]] && (!lossy ==> sheets == Saved(env, parts));
    SavedNext(env, parts, part);
    OneMoreFits(bytes, sheets, own[0]);
    AddsAll(sheets, own, lossy);
    AddsMore([], sheets, sheets + own, Saved(env, parts), own, lossy, lossy);
    OneMoreStorable(env, bytes, sheets, parts, part, lost, lossy);
  }

  /** A text too big for the sheet bound or for what the page bound leaves cannot be stored. */
  lemma {:induction false} TooBig(env: Env, bytes: Css -> nat, sheets: seq<Captured>, parts: seq<Part>, part: Part)
    requires sheets == Saved(env, parts) && TextOf(env, part).Some?
    requires var size := bytes(SavedOf(env, part)[0].css);
             |sheets| >= MAX_SHEETS || size > MAX_SHEET_BYTES || TotalBytes(bytes, sheets) + size > MAX_PAGE_BYTES
    ensures !Storable(env, bytes, parts + [part])
  {
    SavedNext(env, parts, part);
    WithinNext(bytes, sheets, SavedOf(env, part)[0]);
  }

  /** One part: kept when its text is there and fits, and the snapshot incomplete otherwise. */
  method KeepPart(part: Part, sheets: seq<Captured>, total: nat, complete: bool, ghost before: seq<Part>, ghost lost: bool,
                  env: Env, bytes: Css -> nat)
    returns (kept: seq<Captured>, newTotal: nat, whole: bool)
    requires |sheets| < MAX_SHEETS && Holding(env, bytes, sheets, total, before, lost, !complete)
    ensures Holding(env, bytes, kept, newTotal, before + [part], lost, !whole)
  {
    assert sheets[0..] == sheets && [] + Saved(env, before) == Saved(env, before);
    match TextOf(env, part) {
      case None =>
        assert (before + [part])[|before|] == part;
        HoldsLess(env, bytes, sheets, total, before, [part], lost, !complete);
        return sheets, total, false;
      case Some(text) =>
        var css := WrapConditions(text, part.wrappers);
        var size := bytes(css);
        if size > MAX_SHEET_BYTES || total + size > MAX_PAGE_BYTES {
          if complete {
            TooBig(env, bytes, sheets, before, part);
          }
          HoldsLess(env, bytes, sheets, total, before, [part], lost, !complete);
          return sheets, total, false;
        }
        HoldsMore(env, bytes, sheets, total, before, part, lost, !complete);
        return sheets + [Captured(css, part.media)], total + size, complete;
    }
  }

  lemma {:induction false} RestIsLost(env: Env, bytes: Css -> nat, sheets: seq<Captured>, total: nat, parts: seq<Part>, i: nat,
                                      lost: bool, lossy: bool)
    requires i < |parts| && |sheets| >= MAX_SHEETS && Holding(env, bytes, sheets, total, parts[..i], lost, lossy)
    ensures Holding(env, bytes, sheets, total, parts, lost, true)
  {
    assert parts[..i] + parts[i..] == parts && parts[..i] + [parts[i]] == parts[..i + 1];
    assert parts[..i + 1] + parts[i + 1..] == parts && (parts[..i] + parts[i..])[i] == parts[i];
    assert sheets[0..] == sheets && [] + Saved(env, parts[..i]) == Saved(env, parts[..i]);
    if !lossy && Storable(env, bytes, parts) {
      StorablePrefix(env, bytes, parts[..i + 1], parts[i + 1..]);
      TooBig(env, bytes, sheets, parts[..i], parts[i]);
    }
    HoldsLess(env, bytes, sheets, total, parts[..i], parts[i..], lost, lossy);
  }

  /** The flag is exact: a snapshot is complete when the walk lost nothing, every part's text could be had,
      and all of them fit. */
  method BuildSnapshot(parts: seq<Part>, incomplete: bool, env: Env, bytes: Css -> nat) returns (snapshot: Snapshot)
    ensures WithinBounds(bytes, snapshot.sheets)
    ensures snapshot.complete <==> !incomplete && Storable(env, bytes, parts)
    ensures Adds([], snapshot.sheets, Saved(env, parts), !snapshot.complete)
  {
    var complete := !incomplete;
    var sheets: seq<Captured>, total: nat := [], 0;
    var i := 0;
    AddsNothing<Captured>([], [], incomplete);
    assert parts[..0] == [];
    while i < |parts| && |sheets| < MAX_SHEETS
      invariant i <= |parts|
      invariant Holding(env, bytes, sheets, total, parts[..i], incomplete, !complete)
    {
      TakeNext([], parts, i);
      sheets, total, complete := KeepPart(parts[i], sheets, total, complete, parts[..i], incomplete, env, bytes);
      i := i + 1;
    }
    if i < |parts| {
      RestIsLost(env, bytes, sheets, total, parts, i, incomplete, !complete);
    } else {
      assert parts[..i] == parts;
    }
    snapshot := Snapshot(sheets, complete && i == |parts|);
  }

  // --- The whole capture ---

  /** The page's enabled sheets in cascade order. */
  function DenoteDocument(env: Env, sheets: seq<Sheet>, deep: bool): seq<Styled> {
    FlatMap(TopMeaning(env, deep), sheets)
  }

  function TopMeaning(env: Env, deep: bool): Sheet -> seq<Styled> {
    sheet => DenoteTop(env, sheet, deep)
  }

  function DenoteTop(env: Env, sheet: Sheet, deep: bool): seq<Styled> {
    if sheet.disabled then [] else DenoteSheet(env, sheet, UnderMedia(sheet.media), deep)
  }

  lemma {:induction false} DenoteDocumentNext(env: Env, sheets: seq<Sheet>, sheet: Sheet, deep: bool)
    ensures DenoteDocument(env, sheets + [sheet], deep) ==
            DenoteDocument(env, sheets, deep) + DenoteTop(env, sheet, deep)
  {
    FlatMapJoins(TopMeaning(env, deep), sheets, [sheet]);
    FlatMapOne(TopMeaning(env, deep), sheet);
  }

  /** A sheet of the page that is switched off leaves no trace in what the page means or in what is saved. */
  lemma {:induction false} DisabledSheetIsSkipped(env: Env, before: seq<Sheet>, off: Sheet, after: seq<Sheet>, deep: bool)
    requires off.disabled
    ensures DenoteDocument(env, before + ([off] + after), deep) == DenoteDocument(env, before + after, deep)
    ensures DocumentParts(env, before + ([off] + after)) == DocumentParts(env, before + after)
  {
    FlatMapJoins(TopMeaning(env, deep), before, [off] + after);
    FlatMapJoins(TopMeaning(env, deep), before, after);
    FlatMapJoins(TopParts(env), before, [off] + after);
    FlatMapJoins(TopParts(env), before, after);
    assert ([off] + after)[1..] == after;
    assert [] + DenoteDocument(env, after, deep) == DenoteDocument(env, after, deep);
    assert [] + DocumentParts(env, after) == DocumentParts(env, after);
  }

  /** The parts of the page when the walk loses nothing. */
  function DocumentParts(env: Env, sheets: seq<Sheet>): seq<Part> {
    FlatMap(TopParts(env), sheets)
  }

  function TopParts(env: Env): Sheet -> seq<Part> {
    sheet => TopPartsOf(env, sheet)
  }

  function TopPartsOf(env: Env, sheet: Sheet): seq<Part> {
    if sheet.disabled then [] else SheetParts(env, sheet, sheet.media, [])
  }

  predicate LegibleTop(sheet: Sheet) {
    !sheet.disabled ==> Legible(sheet, 0, MAX_IMPORT_DEPTH)
  }

  /** Every enabled sheet and what it imports can be read or has an address, no deeper than the bound. */
  predicate LegiblePage(sheets: seq<Sheet>) {
    forall i :: 0 <= i < |sheets| ==> LegibleTop(sheets[i])
  }

  lemma {:induction false} LegibleFirst(sheets: seq<Sheet>)
    requires sheets != []
    ensures LegiblePage(sheets) <==> LegibleTop(sheets[0]) && LegiblePage(sheets[1..])
  {
    assert forall i :: 0 < i < |sheets| ==> sheets[i] == sheets[1..][i - 1];
    assert forall i :: 0 <= i < |sheets| - 1 ==> sheets[1..][i] == sheets[i + 1];
  }

  lemma {:induction false} DocumentPartsMean(env: Env, sheets: seq<Sheet>)
    ensures Loses(DenoteParts(env, DocumentParts(env, sheets)), DenoteDocument(env, sheets, true), !LegiblePage(sheets))
  {
    if sheets != [] {
      var first := sheets[0];
      DocumentPartsMean(env, sheets[1..]);
      LegibleFirst(sheets);
      DenotePartsJoin(env, TopPartsOf(env, first), DocumentParts(env, sheets[1..]));
      TopPartsMean(env, first);
      LosesJoins(DenoteParts(env, TopPartsOf(env, first)), DenoteTop(env, first, true),
                 DenoteParts(env, DocumentParts(env, sheets[1..])), DenoteDocument(env, sheets[1..], true),
                 !LegibleTop(first), !LegiblePage(sheets[1..]));
    }
  }

  lemma {:induction false} TopPartsMean(env: Env, sheet: Sheet)
    ensures Loses(DenoteParts(env, TopPartsOf(env, sheet)), DenoteTop(env, sheet, true), !LegibleTop(sheet))
  {
    if !sheet.disabled {
      StackOne(Media(sheet.media));
      assert [Media(sheet.media)] + [] == [Media(sheet.media)];
      SheetPartsMean(env, sheet, sheet.media, [], 0, MAX_IMPORT_DEPTH);
    }
  }

  /** The sheets of a snapshot that loses nothing. */
  function SavedDocument(env: Env, sheets: seq<Sheet>): seq<Captured> {
    Saved(env, DocumentParts(env, sheets))
  }

  /** Cut into runs, wrapped and put together again, the page's rules keep their conditions and order; only
      sheets that cannot be read or fetched leave rules out. */
  lemma {:induction false} SavedDocumentMeans(env: Env, sheets: seq<Sheet>)
    requires EachTells(env, DocumentParts(env, sheets))
    ensures Loses(Denote(Concatenated(SavedDocument(env, sheets)), []), DenoteDocument(env, sheets, true),
                  !LegiblePage(sheets) || !EachHasText(env, DocumentParts(env, sheets)))
  {
    var parts := DocumentParts(env, sheets);
    DocumentPartsMean(env, sheets);
    SavedMeans(env, parts);
    ConcatenatedMeans(SavedDocument(env, sheets));
    SubsequenceTransitive(FlatMap(SheetMeaning, Saved(env, parts)), DenoteParts(env, parts), DenoteDocument(env, sheets, true));
  }

  const PAGE_LIMITS := Limits(MAX_SHEETS, MAX_SHEET_BYTES, MAX_PAGE_BYTES, MAX_IMPORT_DEPTH)

  /** Nothing stands in the way of a complete snapshot: every sheet can be read or fetched, and neither the
      walk's bounds nor the stored page's are passed. */
  predicate Capturable(env: Env, bytes: Css -> nat, sheets: seq<Sheet>) {
    && LegiblePage(sheets)
    && Bounded(PAGE_LIMITS, DocumentParts(env, sheets))
    && Storable(env, bytes, DocumentParts(env, sheets))
  }

  /** A chain of n imports that ends in a rule. */
  function Nested(n: nat): Sheet {
    Sheet("", true, false, "",
          if n == 0 then [StyleRule("p{}")] else [ImportRule("", "", None, "", Some(Nested(n - 1)))])
  }

  /** Eight imports deep is read; a ninth level is not. */
  lemma {:induction false} NestingIsLegible(n: nat, depth: nat)
    ensures Legible(Nested(n), depth, MAX_IMPORT_DEPTH) <==> n == 0 || depth + n <= 8
    decreases n
  {
    LegibleOne(Nested(n).rules[0], depth);
    if n > 0 {
      NestingIsLegible(n - 1, depth + 1);
    }
  }

  /** The figures of a complete snapshot. */
  lemma {:induction false} CapturableWithin(env: Env, bytes: Css -> nat, sheets: seq<Sheet>)
    ensures Capturable(env, bytes, sheets) <==>
            && LegiblePage(sheets)
            && var parts, saved := DocumentParts(env, sheets), SavedDocument(env, sheets);
               && |parts| <= 2_000 && TextChars(parts) <= 50_000_000
               && (forall p :: p in parts && p.TextPart? ==> Chars(p.rules) <= 10_000_000)
               && EachHasText(env, parts) && |saved| <= 2_000 && TotalBytes(bytes, saved) <= 50_000_000
               && forall s :: s in saved ==> bytes(s.css) <= 10_000_000
  {
    StoredBounds(bytes, SavedDocument(env, sheets));
  }

  /** The walker has visited `sheets`. */
  ghost predicate Visited(walker: Walker, env: Env, sheets: seq<Sheet>)
    reads walker
  {
    && walker.limits == PAGE_LIMITS && walker.Valid()
    && walker.Made([], DocumentParts(env, sheets), !LegiblePage(sheets))
  }

  method WalkAll(walker: Walker, sheets: seq<Sheet>, ghost before: seq<Sheet>, env: Env)
    requires Visited(walker, env, before)
    modifies walker
    ensures Visited(walker, env, before + sheets)
  {
    assert before + sheets[..0] == before;
    for i := 0 to |sheets|
      invariant Visited(walker, env, before + sheets[..i])
    {
      TakeNext(before, sheets, i);
      WalkTop(walker, sheets[i], before + sheets[..i], env);
    }
    assert sheets[..|sheets|] == sheets;
  }

  lemma {:induction false} LegibleNext(sheets: seq<Sheet>, sheet: Sheet)
    ensures LegiblePage(sheets + [sheet]) <==> LegiblePage(sheets) && LegibleTop(sheet)
  {
    var all := sheets + [sheet];
    assert all[|sheets|] == sheet && forall i :: 0 <= i < |sheets| ==> all[i] == sheets[i];
  }

  method WalkTop(walker: Walker, sheet: Sheet, ghost before: seq<Sheet>, env: Env)
    requires Visited(walker, env, before)
    modifies walker
    ensures Visited(walker, env, before + [sheet])
  {
    ghost var parts, flagged := walker.parts, walker.incomplete;
    FlatMapJoins(TopParts(env), before, [sheet]);
    FlatMapOne(TopParts(env), sheet);
    LegibleNext(before, sheet);
    if sheet.disabled {
      TracksNothing(walker.limits, parts, [], flagged);
    } else {
      walker.Walk(sheet, sheet.media, [], 0, env);
    }
    TracksMore(PAGE_LIMITS, [], parts, walker.parts, DocumentParts(env, before), TopPartsOf(env, sheet),
               !LegiblePage(before), !LegibleTop(sheet), flagged, walker.incomplete);
  }

  /** From the page's sheets to the stored snapshot. The flag is exact: `complete` is set exactly when every
      sheet could be read or fetched and no bound was passed. The sheets are then those that stand for the
      page, and otherwise some of them, in order. If every answer told what its address holds, the text
      denotes the page's rules under their own conditions in their own order, all of them when complete. */
  method CaptureStyles(styleSheets: seq<Sheet>, adopted: seq<Sheet>, env: Env, bytes: Css -> nat)
    returns (snapshot: Snapshot)
    ensures snapshot.complete <==> Capturable(env, bytes, styleSheets + adopted)
    ensures Loses(snapshot.sheets, SavedDocument(env, styleSheets + adopted), !snapshot.complete)
    ensures EachTells(env, DocumentParts(env, styleSheets + adopted)) ==>
              Loses(Denote(Concatenated(snapshot.sheets), []), DenoteDocument(env, styleSheets + adopted, true), !snapshot.complete)
    ensures |snapshot.sheets| <= 2_000 && TotalBytes(bytes, snapshot.sheets) <= 50_000_000
    ensures forall s :: s in snapshot.sheets ==> bytes(s.css) <= 10_000_000
  {
    ghost var page := styleSheets + adopted;
    var walker := new Walker(PAGE_LIMITS);
    AddsNothing<Part>([], [], false);
    WalkAll(walker, styleSheets, [], env);
    assert [] + styleSheets == styleSheets;
    WalkAll(walker, adopted, styleSheets, env);
    snapshot := BuildSnapshot(walker.parts, walker.incomplete, env, bytes);
    FlagIsExact(env, bytes, page, walker.parts, walker.incomplete, snapshot);
    StoredBounds(bytes, snapshot.sheets);
    if EachTells(env, DocumentParts(env, page)) {
      KeptMeans(env, bytes, page, snapshot);
    }
  }

  lemma {:induction false} FlagIsExact(env: Env, bytes: Css -> nat, page: seq<Sheet>, parts: seq<Part>, incomplete: bool, snapshot: Snapshot)
    requires Tracks(PAGE_LIMITS, [], parts, DocumentParts(env, page), !LegiblePage(page), incomplete)
    requires snapshot.complete <==> !incomplete && Storable(env, bytes, parts)
    requires Adds([], snapshot.sheets, Saved(env, parts), !snapshot.complete)
    ensures snapshot.complete <==> Capturable(env, bytes, page)
    ensures Loses(snapshot.sheets, SavedDocument(env, page), !snapshot.complete)
  {
    SavedInOrder(env, page, parts, incomplete, snapshot.sheets, !snapshot.complete);
    assert [] + DocumentParts(env, page) == DocumentParts(env, page);
  }

  /** Losing parts and then losing sheets loses sheets. */
  lemma {:induction false} SavedInOrder(env: Env, page: seq<Sheet>, parts: seq<Part>, lost: bool,
                                        sheets: seq<Captured>, lossy: bool)
    requires Adds([], parts, DocumentParts(env, page), lost) && Adds([], sheets, Saved(env, parts), lossy)
    requires lost ==> lossy
    ensures Loses(sheets, SavedDocument(env, page), lossy)
    ensures !lost ==> parts == DocumentParts(env, page)
  {
    assert parts[0..] == parts && sheets[0..] == sheets;
    assert [] + DocumentParts(env, page) == DocumentParts(env, page) && [] + Saved(env, parts) == Saved(env, parts);
    FlatMapThins(SavedPart(env), parts, DocumentParts(env, page));
    SubsequenceTransitive(sheets, Saved(env, parts), SavedDocument(env, page));
  }

  lemma {:induction false} KeptMeans(env: Env, bytes: Css -> nat, page: seq<Sheet>, snapshot: Snapshot)
    requires EachTells(env, DocumentParts(env, page)) && Loses(snapshot.sheets, SavedDocument(env, page), !snapshot.complete)
    requires snapshot.complete ==> Capturable(env, bytes, page)
    ensures Loses(Denote(Concatenated(snapshot.sheets), []), DenoteDocument(env, page, true), !snapshot.complete)
  {
    ConcatenatedMeans(snapshot.sheets);
    ConcatenatedMeans(SavedDocument(env, page));
    SavedDocumentMeans(env, page);
    FlatMapThins(SheetMeaning, snapshot.sheets, SavedDocument(env, page));
    SubsequenceTransitive(FlatMap(SheetMeaning, snapshot.sheets), FlatMap(SheetMeaning, SavedDocument(env, page)),
                          DenoteDocument(env, page, true));
  }

  // --- Imported sheets that were disabled ---

  /** No imported sheet that was switched off holds a rule. */
  predicate NothingOff(env: Env, sheet: Sheet, stack: seq<Condition>)
    decreases sheet
  {
    InPage(sheet) ==> NothingOffIn(env, sheet.rules, BaseOf(env, sheet), stack)
  }

  predicate NothingOffIn(env: Env, rules: seq<DomRule>, base: string, stack: seq<Condition>)
    decreases rules
  {
    rules == [] || (NothingOffAt(env, rules[0], base, stack) && NothingOffIn(env, rules[1..], base, stack))
  }

  predicate NothingOffAt(env: Env, rule: DomRule, base: string, stack: seq<Condition>)
    decreases rule
  {
    rule.ImportRule? && rule.sheet.Some? ==>
      var inner := stack + UnderImport(rule.media, rule.supports, rule.layer);
      if rule.sheet.value.disabled then DenoteSheet(env, rule.sheet.value, inner, true) == []
      else NothingOff(env, rule.sheet.value, inner)
  }

  predicate SameExactlyWhen<T(==)>(live: seq<T>, walked: seq<T>, condition: bool) {
    && |live| <= |walked|
    && (condition <==> |live| == |walked|)
    && (condition ==> live == walked)
  }

  lemma {:induction false} SameJoins<T>(a: seq<T>, b: seq<T>, c: seq<T>, d: seq<T>, p: bool, q: bool)
    requires SameExactlyWhen(a, b, p) && SameExactlyWhen(c, d, q)
    ensures SameExactlyWhen(a + c, b + d, p && q)
  {
  }

  lemma {:induction false} SheetOff(env: Env, sheet: Sheet, stack: seq<Condition>)
    ensures SameExactlyWhen(DenoteSheet(env, sheet, stack, false), DenoteSheet(env, sheet, stack, true),
                            NothingOff(env, sheet, stack))
    decreases sheet
  {
    if InPage(sheet) {
      RulesOff(env, sheet.rules, BaseOf(env, sheet), stack);
    }
  }

  lemma {:induction false} RulesOff(env: Env, rules: seq<DomRule>, base: string, stack: seq<Condition>)
    ensures SameExactlyWhen(DenoteRules(env, rules, base, stack, false), DenoteRules(env, rules, base, stack, true),
                            NothingOffIn(env, rules, base, stack))
    decreases rules
  {
    if rules != [] {
      RuleOff(env, rules[0], base, stack);
      RulesOff(env, rules[1..], base, stack);
      SameJoins(DenoteRule(env, rules[0], base, stack, false), DenoteRule(env, rules[0], base, stack, true),
                DenoteRules(env, rules[1..], base, stack, false), DenoteRules(env, rules[1..], base, stack, true),
                NothingOffAt(env, rules[0], base, stack), NothingOffIn(env, rules[1..], base, stack));
    }
  }

  lemma {:induction false} RuleOff(env: Env, rule: DomRule, base: string, stack: seq<Condition>)
    ensures SameExactlyWhen(DenoteRule(env, rule, base, stack, false), DenoteRule(env, rule, base, stack, true),
                            NothingOffAt(env, rule, base, stack))
    decreases rule
  {
    if rule.ImportRule? && rule.sheet.Some? && !rule.sheet.value.disabled {
      SheetOff(env, rule.sheet.value, stack + UnderImport(rule.media, rule.supports, rule.layer));
    }
  }

  predicate NothingOffTop(env: Env, sheet: Sheet) {
    !sheet.disabled ==> NothingOff(env, sheet, UnderMedia(sheet.media))
  }

  predicate NothingOffAnywhere(env: Env, sheets: seq<Sheet>) {
    forall i :: 0 <= i < |sheets| ==> NothingOffTop(env, sheets[i])
  }

  lemma {:induction false} TopOff(env: Env, sheet: Sheet)
    ensures SameExactlyWhen(DenoteTop(env, sheet, false), DenoteTop(env, sheet, true), NothingOffTop(env, sheet))
  {
    if !sheet.disabled {
      SheetOff(env, sheet, UnderMedia(sheet.media));
    }
  }

  lemma {:induction false} DocumentOff(env: Env, sheets: seq<Sheet>)
    ensures SameExactlyWhen(DenoteDocument(env, sheets, false), DenoteDocument(env, sheets, true),
                            NothingOffAnywhere(env, sheets))
    decreases |sheets|
  {
    if sheets != [] {
      var init, last := sheets[..|sheets| - 1], Last(sheets);
      DocumentOff(env, init);
      TopOff(env, last);
      assert sheets == init + [last];
      DenoteDocumentNext(env, init, last, false);
      DenoteDocumentNext(env, init, last, true);
      assert NothingOffAnywhere(env, sheets) <==> NothingOffAnywhere(env, init) && NothingOffTop(env, last);
      SameJoins(DenoteDocument(env, init, false), DenoteDocument(env, init, true),
                DenoteTop(env, last, false), DenoteTop(env, last, true),
                NothingOffAnywhere(env, init), NothingOffTop(env, last));
    }
  }

  /** The walk skips disabled top-level sheets but not disabled imported ones: what it keeps is what was
      in force exactly when no disabled imported sheet holds a rule. */
  lemma {:induction false} DisabledImports(env: Env, sheets: seq<Sheet>)
    ensures DenoteDocument(env, sheets, true) == DenoteDocument(env, sheets, false)
            <==> NothingOffAnywhere(env, sheets)
  {
    DocumentOff(env, sheets);
  }

  /** A page whose disabled import reaches a snapshot that says it is complete. */
  lemma {:induction false} DisabledImportIsKept(env: Env, bytes: Css -> nat)
    requires bytes([Rule(env.resolve("http://h/b.css", "p{}"))]) <= 10_000_000
    ensures var off := Sheet("http://h/b.css", true, true, "", [StyleRule("p{}")]);
            var page := Sheet("", true, false, "", [ImportRule("", "", None, "b.css", Some(off))]);
            && Capturable(env, bytes, [page])
            && DenoteDocument(env, [page], false) == [] && |DenoteDocument(env, [page], true)| == 1
  {
    var off := Sheet("http://h/b.css", true, true, "", [StyleRule("p{}")]);
    var rule := ImportRule("", "", None, "b.css", Some(off));
    var page := Sheet("", true, false, "", [rule]);
    assert off.rules == [StyleRule("p{}")] && page.rules == [rule];
    forall deep: bool ensures DenoteDocument(env, [page], deep) == DenoteTop(env, page, deep) {
      DenoteDocumentNext(env, [], page, deep);
      assert [] + [page] == [page];
    }
    var stack := UnderMedia("");
    forall deep: bool ensures DenoteTop(env, page, deep) == DenoteRule(env, rule, env.docBase, stack, deep) {
      DenoteOneRule(env, rule, env.docBase, stack, deep);
    }
    var inner := stack + UnderImport("", "", None);
    DenoteOneRule(env, StyleRule("p{}"), off.href, inner, true);
    OneRuleFits(env, bytes, page, off);
  }

  /** One imported rule can be captured, whether or not its sheet is disabled. */
  lemma {:induction false} OneRuleFits(env: Env, bytes: Css -> nat, page: Sheet, off: Sheet)
    requires off.readable && off.href == "http://h/b.css" && off.rules == [StyleRule("p{}")]
    requires page == Sheet("", true, false, "", [ImportRule("", "", None, "b.css", Some(off))])
    requires bytes([Rule(env.resolve("http://h/b.css", "p{}"))]) <= MAX_SHEET_BYTES
    ensures Capturable(env, bytes, [page])
  {
    var part := TextPart(["p{}"], "http://h/b.css", "http://h/b.css", "", []);
    OneRulePart(env, page, off, part);
    FlatMapOne(TopParts(env), page);
    LegibleOne(off.rules[0], 1);
    LegibleOne(page.rules[0], 0);
    assert off.rules == [off.rules[0]] && page.rules == [page.rules[0]];
    assert TextOf(env, part).value == [Rule(env.resolve("http://h/b.css", "p{}"))];
    CharsNext([], "p{}");
    OnePartIsBounded(part);
    OnePartIsStorable(env, bytes, part);
  }

  lemma {:induction false} OneRulePart(env: Env, page: Sheet, off: Sheet, part: Part)
    requires off.readable && off.href == "http://h/b.css" && off.rules == [StyleRule("p{}")]
    requires page == Sheet("", true, false, "", [ImportRule("", "", None, "b.css", Some(off))])
    requires part == TextPart(["p{}"], "http://h/b.css", "http://h/b.css", "", [])
    ensures SheetParts(env, page, "", []) == [part]
  {
    var rule, from := page.rules[0], OriginOf(env, page, "", []);
    assert off.rules[1..] == [] && page.rules[1..] == [] && [] + ["p{}"] == ["p{}"];
    assert RulesParts(env, off.rules, [], OriginOf(env, off, "", [])) == [part];
    assert [] + Recorded("", "", None) == [];
    assert ImportParts(env, rule, from) == [part];
    assert ([] + [part]) + [] == [part];
    assert RulesParts(env, page.rules, [], from) == (RunPart([], from) + ImportParts(env, rule, from)) + RulesParts(env, [], [], from);
  }

  lemma {:induction false} LegibleOne(rule: DomRule, depth: nat)
    ensures LegibleRules([rule], depth, MAX_IMPORT_DEPTH) <==> LegibleRule(rule, depth, MAX_IMPORT_DEPTH)
  {
    assert [rule][1..] == [];
  }

  lemma {:induction false} OnePartIsBounded(part: Part)
    requires part.TextPart? ==> Chars(part.rules) <= MAX_SHEET_BYTES
    ensures Bounded(PAGE_LIMITS, [part])
  {
    TextCharsNext([], part);
    assert [] + [part] == [part];
  }

  lemma {:induction false} OnePartIsStorable(env: Env, bytes: Css -> nat, part: Part)
    requires TextOf(env, part).Some? && part.wrappers == [] && bytes(TextOf(env, part).value) <= MAX_SHEET_BYTES
    ensures Storable(env, bytes, [part])
  {
    FlatMapOne(SavedPart(env), part);
    OneSheetFits(bytes, Captured(TextOf(env, part).value, part.media));
  }

  lemma {:induction false} OneSheetFits(bytes: Css -> nat, sheet: Captured)
    requires bytes(sheet.css) <= MAX_SHEET_BYTES
    ensures WithinBounds(bytes, [sheet])
  {
    WithinNext(bytes, [], sheet);
    assert [] + [sheet] == [sheet];
  }

  lemma {:induction false} DenoteOneRule(env: Env, rule: DomRule, base: string, stack: seq<Condition>, deep: bool)
    ensures DenoteRules(env, [rule], base, stack, deep) == DenoteRule(env, rule, base, stack, deep)
  {
    assert [rule][1..] == [];
  }
}
