/** The in-page walk of `src/audit/crawler/style_snapshot.py` (the `walk`, `flush` and `push` of its
    page script): a tree of style sheets becomes a bounded list of parts. */
module StyleWalk {
  import opened Text
  import opened StyleText

  // --- The page ---

  /** A sheet of the page; an inline one has no `href`. The script sees `rules` only when it can read them;
      those of another origin are what the address holds. */
  datatype Sheet = Sheet(href: string, readable: bool, disabled: bool, media: string, rules: seq<DomRule>)

  datatype DomRule =
    | StyleRule(text: string)
    | CharsetRule
    | ImportRule(media: string, supports: string, layer: Option<string>, href: string, sheet: Option<Sheet>)

  /** What the page cannot decide alone: its base address, joining addresses, rewriting a rule's
      addresses against its sheet's, the rules an address holds, and the text it answers with. */
  datatype Env = Env(
    docBase: string,
    join: (string, string) -> string,
    resolve: (string, string) -> string,
    holds: string -> Css,
    fetch: string -> Option<Css>)

  /** If an address answers, its answer means what the address holds. */
  predicate Tells(env: Env, href: string) {
    env.fetch(href).Some? ==> Denote(env.fetch(href).value, []) == Denote(env.holds(href), [])
  }

  // --- What the page's sheets mean ---

  predicate InPage(sheet: Sheet) {
    sheet.readable || sheet.href == ""
  }

  /** Every rule of a sheet in cascade order, whether or not it can be read or fetched, imports in place;
      `deep` says whether an imported sheet that was disabled still counts. */
  function DenoteSheet(env: Env, sheet: Sheet, stack: seq<Condition>, deep: bool): seq<Styled>
    decreases sheet
  {
    if InPage(sheet) then
      DenoteRules(env, sheet.rules, if sheet.href != "" then sheet.href else env.docBase, stack, deep)
    else Denote(env.holds(sheet.href), stack)
  }

  function DenoteRules(env: Env, rules: seq<DomRule>, base: string, stack: seq<Condition>, deep: bool): seq<Styled>
    decreases rules
  {
    if rules == [] then []
    else DenoteRule(env, rules[0], base, stack, deep) + DenoteRules(env, rules[1..], base, stack, deep)
  }

  function DenoteRule(env: Env, rule: DomRule, base: string, stack: seq<Condition>, deep: bool): seq<Styled>
    decreases rule
  {
    match rule
    case StyleRule(text) => [Styled(stack, env.resolve(base, text))]
    case CharsetRule => []
    case ImportRule(media, supports, layer, href, sheet) =>
      var inner := stack + UnderImport(media, supports, layer);
      if sheet.Some? then
        if sheet.value.disabled && !deep then [] else DenoteSheet(env, sheet.value, inner, deep)
      else Denote(env.holds(env.join(base, href)), inner)
  }

  /** One rule of an imported sheet, read or fetched, stands under the import's conditions after those around it: its
      media unless blank or `all`, its test in brackets unless blank, its layer when it has one. Addresses are
      resolved against the imported sheet, or against the page when that sheet has no address. */
  lemma {:induction false} ImportedRuleStandsUnder(env: Env, rule: DomRule, text: string, own: string, base: string,
                                                   stack: seq<Condition>)
    requires rule.ImportRule?
    ensures var m, t := Strip(rule.media), Strip(rule.supports);
            var inner := stack
              + (((if m != "" && Lower(m) != "all" then [Media(m)] else [])
                  + (if t == "" then [] else [Supports(if t[0] == '(' then t else "(" + t + ")")]))
                 + if rule.layer.Some? then [Layer(Strip(rule.layer.value))] else []);
            && (rule.sheet == Some(Sheet(own, true, false, "", [StyleRule(text)])) ==>
                  DenoteRule(env, rule, base, stack, true) ==
                  [Styled(inner, env.resolve(if own == "" then env.docBase else own, text))])
            && (rule.sheet == None && env.holds(env.join(base, rule.href)) == [Rule(text)] ==>
                  DenoteRule(env, rule, base, stack, true) == [Styled(inner, text)])
  {
    var inner := stack + UnderImport(rule.media, rule.supports, rule.layer);
    OneRule(env, text, if own == "" then env.docBase else own, inner);
    assert Denote([Rule(text)], inner) == [Styled(inner, text)] by {
      assert [Rule(text)][1..] == [];
    }
  }

  lemma {:induction false} OneRule(env: Env, text: string, base: string, stack: seq<Condition>)
    ensures DenoteRules(env, [StyleRule(text)], base, stack, true) == [Styled(stack, env.resolve(base, text))]
  {
    assert [StyleRule(text)][1..] == [];
  }

  // --- Parts ---

  datatype Part =
    | TextPart(rules: seq<string>, base: string, href: string, media: string, wrappers: seq<Condition>)
    | FetchPart(href: string, media: string, wrappers: seq<Condition>)
    | OtherPart(unknown: seq<Styled>)  // of no known kind, whatever it stands for

  function DenoteTexts(env: Env, rules: seq<string>, base: string, stack: seq<Condition>): (r: seq<Styled>)
    ensures |r| == |rules|
    ensures forall i :: 0 <= i < |r| ==> r[i] == Styled(stack, env.resolve(base, rules[i]))
  {
    seq(|rules|, i requires 0 <= i < |rules| => Styled(stack, env.resolve(base, rules[i])))
  }

  lemma {:induction false} DenoteTextsNext(env: Env, rules: seq<string>, text: string, base: string, stack: seq<Condition>)
    ensures DenoteTexts(env, rules + [text], base, stack) ==
            DenoteTexts(env, rules, base, stack) + [Styled(stack, env.resolve(base, text))]
  {
  }

  function FullStack(media: string, wrappers: seq<Condition>): seq<Condition> {
    Stack([Media(media)] + wrappers)
  }

  function DenotePart(env: Env, part: Part): seq<Styled> {
    match part
    case TextPart(rules, base, _, media, wrappers) => DenoteTexts(env, rules, base, FullStack(media, wrappers))
    case FetchPart(href, media, wrappers) => Denote(env.holds(href), FullStack(media, wrappers))
    case OtherPart(unknown) => unknown
  }

  function PartMeaning(env: Env): Part -> seq<Styled> {
    part => DenotePart(env, part)
  }

  function DenoteParts(env: Env, parts: seq<Part>): seq<Styled> {
    FlatMap(PartMeaning(env), parts)
  }

  lemma {:induction false} DenotePartsJoin(env: Env, a: seq<Part>, b: seq<Part>)
    ensures DenoteParts(env, a + b) == DenoteParts(env, a) + DenoteParts(env, b)
  {
    FlatMapJoins(PartMeaning(env), a, b);
  }

  // --- The parts of a walk that loses nothing ---

  /** An import's conditions that say something, as recorded with its parts. */
  function Recorded(media: string, supports: string, layer: Option<string>): seq<Condition> {
    ((if media != "" && media != "all" then [Media(media)] else [])
     + (if supports != "" then [Supports(supports)] else []))
    + (if layer.Some? then [Layer(layer.value)] else [])
  }

  /** The script's `base`, against which a sheet's addresses are resolved. */
  function BaseOf(env: Env, sheet: Sheet): string {
    if sheet.href != "" then sheet.href else env.docBase
  }

  /** Where a part comes from: its sheet's base and address, and the conditions it stands under. */
  datatype Origin = Origin(base: string, href: string, media: string, wrappers: seq<Condition>)

  function RunPart(run: seq<string>, from: Origin): seq<Part> {
    if run == [] then [] else [TextPart(run, from.base, from.href, from.media, from.wrappers)]
  }

  function OriginOf(env: Env, sheet: Sheet, media: string, wrappers: seq<Condition>): Origin {
    Origin(BaseOf(env, sheet), sheet.href, media, wrappers)
  }

  function SheetParts(env: Env, sheet: Sheet, media: string, wrappers: seq<Condition>): seq<Part>
    decreases sheet
  {
    if sheet.readable then RulesParts(env, sheet.rules, [], OriginOf(env, sheet, media, wrappers))
    else if sheet.href != "" then [FetchPart(sheet.href, media, wrappers)]
    else []
  }

  /** One part for each unbroken run of rules; `run` holds the rules read since the last import. */
  function RulesParts(env: Env, rules: seq<DomRule>, run: seq<string>, from: Origin): seq<Part>
    decreases rules
  {
    if rules == [] then RunPart(run, from)
    else match rules[0]
      case StyleRule(text) => RulesParts(env, rules[1..], run + [text], from)
      case CharsetRule => RulesParts(env, rules[1..], run, from)
      case ImportRule(_, _, _, _, _) =>
        (RunPart(run, from) + ImportParts(env, rules[0], from)) + RulesParts(env, rules[1..], [], from)
  }

  function ImportParts(env: Env, rule: DomRule, from: Origin): seq<Part>
    requires rule.ImportRule?
    decreases rule
  {
    var wrappers := from.wrappers + Recorded(rule.media, rule.supports, rule.layer);
    if rule.sheet.Some? then SheetParts(env, rule.sheet.value, from.media, wrappers)
    else if rule.href != "" then [FetchPart(env.join(from.base, rule.href), from.media, wrappers)]
    else []
  }

  // --- Which sheets can be captured at all ---

  /** Every sheet can be read or has an address to fetch, and no import stands deeper than the bound. */
  predicate Legible(sheet: Sheet, depth: nat, maxDepth: nat)
    decreases sheet
  {
    if sheet.readable then LegibleRules(sheet.rules, depth, maxDepth) else sheet.href != ""
  }

  predicate LegibleRules(rules: seq<DomRule>, depth: nat, maxDepth: nat)
    decreases rules
  {
    rules == [] || (LegibleRule(rules[0], depth, maxDepth) && LegibleRules(rules[1..], depth, maxDepth))
  }

  predicate LegibleRule(rule: DomRule, depth: nat, maxDepth: nat)
    decreases rule
  {
    rule.ImportRule? ==>
      && depth < maxDepth
      && if rule.sheet.Some? then Legible(rule.sheet.value, depth + 1, maxDepth) else rule.href != ""
  }

  // --- The parts mean what the sheets mean ---

  lemma {:induction false} RecordedStack(media: string, supports: string, layer: Option<string>)
    ensures Stack(Recorded(media, supports, layer)) == UnderImport(media, supports, layer)
  {
    var m := if media != "" && media != "all" then [Media(media)] else [];
    var s := if supports != "" then [Supports(supports)] else [];
    var l := if layer.Some? then [Layer(layer.value)] else [];
    RecordedMedia(media);
    RecordedTest(supports, layer);
    StackJoins(m, s);
    StackJoins(m + s, l);
  }

  lemma {:induction false} RecordedMedia(media: string)
    ensures Stack(if media != "" && media != "all" then [Media(media)] else []) == UnderMedia(media)
  {
    StackOne(Media(media));
    if media == "all" {
      assert Strip("all") == "all";
      assert Lower("all") == "all";
    }
  }

  lemma {:induction false} RecordedTest(supports: string, layer: Option<string>)
    ensures Stack(if supports != "" then [Supports(supports)] else []) == UnderSupports(supports)
    ensures Stack(if layer.Some? then [Layer(layer.value)] else []) ==
            if layer.Some? then UnderLayer(layer.value) else []
  {
    StackOne(Supports(supports));
    if layer.Some? {
      StackOne(Layer(layer.value));
    }
  }

  lemma {:induction false} InnerStack(media: string, wrappers: seq<Condition>, own: seq<Condition>)
    ensures FullStack(media, wrappers + own) == FullStack(media, wrappers) + Stack(own)
  {
    assert [Media(media)] + (wrappers + own) == ([Media(media)] + wrappers) + own;
    StackJoins([Media(media)] + wrappers, own);
  }

  lemma {:induction false} OnePartMeans(env: Env, part: Part)
    ensures DenoteParts(env, [part]) == DenotePart(env, part)
  {
    FlatMapOne(PartMeaning(env), part);
  }

  lemma {:induction false} RunPartMeans(env: Env, run: seq<string>, from: Origin)
    ensures DenoteParts(env, RunPart(run, from)) ==
            DenoteTexts(env, run, from.base, FullStack(from.media, from.wrappers))
  {
    if run != [] {
      OnePartMeans(env, RunPart(run, from)[0]);
    }
  }

  /** The parts of a sheet denote every rule of it and of its imports, in cascade order, when each can be
      read or fetched, and leave rules out otherwise. */
  lemma {:induction false} SheetPartsMean(env: Env, sheet: Sheet, media: string, wrappers: seq<Condition>, depth: nat, maxDepth: nat)
    ensures Loses(DenoteParts(env, SheetParts(env, sheet, media, wrappers)),
                  DenoteSheet(env, sheet, FullStack(media, wrappers), true), !Legible(sheet, depth, maxDepth))
    decreases sheet
  {
    if sheet.readable {
      RulesPartsMean(env, sheet.rules, [], OriginOf(env, sheet, media, wrappers), depth, maxDepth);
      var rules := DenoteRules(env, sheet.rules, BaseOf(env, sheet), FullStack(media, wrappers), true);
      assert DenoteTexts(env, [], BaseOf(env, sheet), FullStack(media, wrappers)) + rules == rules;
    } else if sheet.href != "" {
      OnePartMeans(env, FetchPart(sheet.href, media, wrappers));
      SubsequenceOfItself(Denote(env.holds(sheet.href), FullStack(media, wrappers)));
    }
  }

  lemma {:induction false} RulesPartsMean(env: Env, rules: seq<DomRule>, run: seq<string>, from: Origin, depth: nat, maxDepth: nat)
    ensures var stack := FullStack(from.media, from.wrappers);
            Loses(DenoteParts(env, RulesParts(env, rules, run, from)),
                  DenoteTexts(env, run, from.base, stack) + DenoteRules(env, rules, from.base, stack, true),
                  !LegibleRules(rules, depth, maxDepth))
    decreases rules
  {
    var stack := FullStack(from.media, from.wrappers);
    var texts := DenoteTexts(env, run, from.base, stack);
    if rules == [] {
      RunPartMeans(env, run, from);
      assert texts + [] == texts;
      SubsequenceOfItself(texts);
    } else {
      match rules[0]
      case StyleRule(text) =>
        RulesPartsMean(env, rules[1..], run + [text], from, depth, maxDepth);
        DenoteTextsNext(env, run, text, from.base, stack);
        JoinAssociates(texts, [Styled(stack, env.resolve(from.base, text))], DenoteRules(env, rules[1..], from.base, stack, true));
      case CharsetRule =>
        RulesPartsMean(env, rules[1..], run, from, depth, maxDepth);
        assert [] + DenoteRules(env, rules[1..], from.base, stack, true) == DenoteRules(env, rules[1..], from.base, stack, true);
      case ImportRule(_, _, _, _, _) =>
        ImportStepMeans(env, rules, run, from, depth, maxDepth);
    }
  }

  lemma {:induction false} ImportStepMeans(env: Env, rules: seq<DomRule>, run: seq<string>, from: Origin, depth: nat, maxDepth: nat)
    requires rules != [] && rules[0].ImportRule?
    ensures var stack := FullStack(from.media, from.wrappers);
            Loses(DenoteParts(env, RulesParts(env, rules, run, from)),
                  DenoteTexts(env, run, from.base, stack) + DenoteRules(env, rules, from.base, stack, true),
                  !LegibleRules(rules, depth, maxDepth))
    decreases rules, 0
  {
    var stack := FullStack(from.media, from.wrappers);
    var texts, rest := DenoteTexts(env, run, from.base, stack), DenoteRules(env, rules[1..], from.base, stack, true);
    var imported, parts := DenoteRule(env, rules[0], from.base, stack, true), ImportParts(env, rules[0], from);
    RulesPartsMean(env, rules[1..], [], from, depth, maxDepth);
    assert DenoteTexts(env, [], from.base, stack) + rest == rest;
    ImportPartsMean(env, rules[0], from, depth, maxDepth);
    RunPartMeans(env, run, from);
    DenotePartsJoin(env, RunPart(run, from), parts);
    DenotePartsJoin(env, RunPart(run, from) + parts, RulesParts(env, rules[1..], [], from));
    SubsequenceOfItself(texts);
    LosesJoins(texts, texts, DenoteParts(env, parts), imported, false, !LegibleRule(rules[0], depth, maxDepth));
    LosesJoins(texts + DenoteParts(env, parts), texts + imported, DenoteParts(env, RulesParts(env, rules[1..], [], from)), rest,
               !LegibleRule(rules[0], depth, maxDepth), !LegibleRules(rules[1..], depth, maxDepth));
    JoinAssociates(texts, imported, rest);
  }

  lemma {:induction false} ImportPartsMean(env: Env, rule: DomRule, from: Origin, depth: nat, maxDepth: nat)
    requires rule.ImportRule?
    ensures Loses(DenoteParts(env, ImportParts(env, rule, from)),
                  DenoteRule(env, rule, from.base, FullStack(from.media, from.wrappers), true),
                  !LegibleRule(rule, depth, maxDepth))
    decreases rule
  {
    var own := Recorded(rule.media, rule.supports, rule.layer);
    RecordedStack(rule.media, rule.supports, rule.layer);
    InnerStack(from.media, from.wrappers, own);
    if rule.sheet.Some? {
      SheetPartsMean(env, rule.sheet.value, from.media, from.wrappers + own, depth + 1, maxDepth);
    } else if rule.href != "" {
      OnePartMeans(env, FetchPart(env.join(from.base, rule.href), from.media, from.wrappers + own));
      SubsequenceOfItself(DenoteRule(env, rule, from.base, FullStack(from.media, from.wrappers), true));
    }
  }

  // --- Sizes ---

  /** Each rule counts its characters and a line break. */
  function Chars(rules: seq<string>): nat {
    if rules == [] then 0 else Chars(rules[..|rules| - 1]) + |Last(rules)| + 1
  }

  lemma {:induction false} CharsNext(rules: seq<string>, text: string)
    ensures Chars(rules + [text]) == Chars(rules) + |text| + 1
  {
    assert (rules + [text])[..|rules|] == rules;
  }

  function TextChars(parts: seq<Part>): nat {
    if parts == [] then 0
    else TextChars(parts[..|parts| - 1]) + if Last(parts).TextPart? then Chars(Last(parts).rules) else 0
  }

  lemma {:induction false} TextCharsNext(parts: seq<Part>, part: Part)
    ensures TextChars(parts + [part]) == TextChars(parts) + if part.TextPart? then Chars(part.rules) else 0
  {
    assert (parts + [part])[..|parts|] == parts;
  }

  datatype Limits = Limits(maxSheets: nat, maxSheetChars: nat, maxPageChars: nat, maxDepth: nat)

  predicate Bounded(limits: Limits, parts: seq<Part>) {
    && |parts| <= limits.maxSheets
    && TextChars(parts) <= limits.maxPageChars
    && forall p :: p in parts && p.TextPart? ==> Chars(p.rules) <= limits.maxSheetChars
  }

  lemma {:induction false} BoundedPrefix(limits: Limits, a: seq<Part>, b: seq<Part>)
    requires Bounded(limits, a + b)
    ensures Bounded(limits, a)
    decreases |b|
  {
    if b == [] {
      assert a + b == a;
    } else {
      var init := b[..|b| - 1];
      assert a + b == (a + init) + [Last(b)];
      TextCharsNext(a + init, Last(b));
      BoundedPrefix(limits, a, init);
    }
  }

  /** The parts since `before` are those `made`, or some of them when flagged; and the flag is set exactly
      when something was lost on the way or the bounds do not leave room for all that was made. */
  predicate Tracks(limits: Limits, before: seq<Part>, after: seq<Part>, made: seq<Part>, lost: bool, flagged: bool) {
    Adds(before, after, made, flagged) && (flagged <==> lost || !Bounded(limits, before + made))
  }

  lemma {:induction false} TracksMore(limits: Limits, a: seq<Part>, b: seq<Part>, c: seq<Part>, x: seq<Part>, y: seq<Part>,
                                      lost: bool, more: bool, flagged: bool, flaggedMore: bool)
    requires Tracks(limits, a, b, x, lost, flagged) && Tracks(limits, b, c, y, flagged || more, flaggedMore)
    ensures Tracks(limits, a, c, x + y, lost || more, flaggedMore)
  {
    AddsMore(a, b, c, x, y, flagged, flaggedMore);
    assert (a + x) + y == a + (x + y);
    if Bounded(limits, (a + x) + y) {
      BoundedPrefix(limits, a + x, y);
    }
  }

  lemma {:induction false} TracksNothing(limits: Limits, parts: seq<Part>, made: seq<Part>, lost: bool)
    requires lost || (made == [] && Bounded(limits, parts))
    ensures Tracks(limits, parts, parts, made, lost, lost)
  {
    AddsNothing(parts, made, lost);
    assert parts + [] == parts;
  }

  // --- The walk ---

  /** The script's `importWrappers`: only conditions that say something. */
  method ImportWrappers(media: string, supports: string, layer: Option<string>) returns (wrappers: seq<Condition>)
    ensures wrappers == Recorded(media, supports, layer)
    ensures Stack(wrappers) == UnderImport(media, supports, layer)
  {
    wrappers := [];
    if media != "" && media != "all" {
      wrappers := wrappers + [Media(media)];
    }
    if supports != "" {
      wrappers := wrappers + [Supports(supports)];
    }
    if layer.Some? {
      wrappers := wrappers + [Layer(layer.value)];
    }
    RecordedStack(media, supports, layer);
  }

  class Walker {
    const limits: Limits
    var parts: seq<Part>
    var total: nat
    var incomplete: bool

    constructor (limits: Limits)
      ensures Valid() && this.limits == limits && parts == [] && !incomplete
    {
      this.limits := limits;
      parts, total, incomplete := [], 0, false;
    }

    ghost predicate Valid()
      reads this
    {
      && Bounded(limits, parts)
      && TextChars(parts) <= total <= limits.maxPageChars
      && (!incomplete ==> total == TextChars(parts))
    }

    /** The walk since `before` made `made`. */
    ghost predicate Made(before: seq<Part>, made: seq<Part>, lost: bool)
      reads this
    {
      Tracks(limits, before, parts, made, lost, incomplete)
    }

    method Push(part: Part)
      requires |parts| < limits.maxSheets ==> Bounded(limits, parts + [part])
      requires |parts| <= limits.maxSheets
      modifies this`parts, this`incomplete
      ensures if old(|parts|) < limits.maxSheets then parts == old(parts) + [part] && incomplete == old(incomplete)
              else parts == old(parts) && incomplete
      ensures Made(old(parts), [part], old(incomplete))
    {
      if |parts| >= limits.maxSheets {
        AddsNothing(parts, [part], true);
        incomplete := true;
      } else {
        AddsAll(parts, [part], incomplete);
        parts := parts + [part];
      }
    }

    method PushFetch(href: string, media: string, wrappers: seq<Condition>)
      requires Valid()
      modifies this`parts, this`incomplete
      ensures Valid() && Made(old(parts), [FetchPart(href, media, wrappers)], old(incomplete))
    {
      TextCharsNext(parts, FetchPart(href, media, wrappers));
      Push(FetchPart(href, media, wrappers));
    }

    /** Emits the rules read since the last import; `over` says they passed the sheet bound. */
    method Flush(chunk: seq<string>, over: bool, from: Origin, ghost run: seq<string>)
      requires Valid()
      requires over <==> Chars(run) > limits.maxSheetChars
      requires !over ==> chunk == run
      modifies this
      ensures Valid() && Made(old(parts), RunPart(run, from), old(incomplete))
    {
      if over {
        TextCharsNext(parts, RunPart(run, from)[0]);
        assert RunPart(run, from)[0] in parts + RunPart(run, from);
        incomplete := true;
        AddsNothing(parts, RunPart(run, from), true);
      } else if chunk != [] {
        var size := Chars(chunk);
        var part := TextPart(chunk, from.base, from.href, from.media, from.wrappers);
        TextCharsNext(parts, part);
        if total + size > limits.maxPageChars {
          incomplete := true;
          AddsNothing(parts, RunPart(run, from), true);
        } else {
          total := total + size;
          Push(part);
        }
      } else {
        AddsNothing(parts, [], incomplete);
        assert parts + [] == parts;
      }
    }

    method Walk(sheet: Sheet, media: string, wrappers: seq<Condition>, depth: nat, env: Env)
      requires Valid()
      modifies this
      ensures Valid()
      ensures Made(old(parts), SheetParts(env, sheet, media, wrappers), old(incomplete) || !Legible(sheet, depth, limits.maxDepth))
      decreases sheet, 2
    {
      if !sheet.readable {
        if sheet.href != "" {
          PushFetch(sheet.href, media, wrappers);
        } else {
          TracksNothing(limits, parts, [], true);
          incomplete := true;
        }
        return;
      }
      var from := Origin(BaseOf(env, sheet), sheet.href, media, wrappers);
      var chunk: seq<string>, size: nat, over := [], 0, false;
      ghost var made: seq<Part>, run: seq<string>, lost := [], [], incomplete;
      TracksNothing(limits, parts, [], incomplete);
      assert sheet.rules[0..] == sheet.rules;
      for i := 0 to |sheet.rules|
        invariant Valid() && Made(old(parts), made, lost)
        invariant made + RulesParts(env, sheet.rules[i..], run, from) == SheetParts(env, sheet, media, wrappers)
        invariant lost || !LegibleRules(sheet.rules[i..], depth, limits.maxDepth) <==>
                  old(incomplete) || !LegibleRules(sheet.rules, depth, limits.maxDepth)
        invariant over <==> Chars(run) > limits.maxSheetChars
        invariant !over ==> chunk == run && size == Chars(chunk)
      {
        assert sheet.rules[i..][1..] == sheet.rules[i + 1..];
        var rule := sheet.rules[i];
        match rule {
          case StyleRule(text) =>
            CharsNext(run, text);
            run := run + [text];
            if !over {
              size := size + |text| + 1;
              if size > limits.maxSheetChars {
                over, chunk := true, [];
              } else {
                chunk := chunk + [text];
              }
            }
          case CharsetRule =>
          case ImportRule(_, _, _, _, _) =>
            FlushAndImport(chunk, over, rule, from, depth, run, old(parts), made, lost, env);
            JoinAssociates(made, RunPart(run, from) + ImportParts(env, rule, from),
                           RulesParts(env, sheet.rules[i + 1..], [], from));
            made := made + (RunPart(run, from) + ImportParts(env, rule, from));
            lost := lost || !LegibleRule(rule, depth, limits.maxDepth);
            chunk, size, over, run := [], 0, false, [];
        }
      }
      FlushMore(chunk, over, from, run, old(parts), made, lost);
    }

    /** `Flush`, with what was made since `start` made plain. */
    method FlushMore(chunk: seq<string>, over: bool, from: Origin, ghost run: seq<string>,
                     ghost start: seq<Part>, ghost made: seq<Part>, ghost lost: bool)
      requires Valid() && Made(start, made, lost)
      requires over <==> Chars(run) > limits.maxSheetChars
      requires !over ==> chunk == run
      modifies this
      ensures Valid() && Made(start, made + RunPart(run, from), lost)
    {
      Flush(chunk, over, from, run);
      TracksMore(limits, start, old(parts), parts, made, RunPart(run, from), lost, false, old(incomplete), incomplete);
    }

    method FlushAndImport(chunk: seq<string>, over: bool, rule: DomRule, from: Origin, depth: nat, ghost run: seq<string>,
                          ghost start: seq<Part>, ghost made: seq<Part>, ghost lost: bool, env: Env)
      requires Valid() && Made(start, made, lost) && rule.ImportRule?
      requires over <==> Chars(run) > limits.maxSheetChars
      requires !over ==> chunk == run
      modifies this
      ensures Valid()
      ensures Made(start, made + (RunPart(run, from) + ImportParts(env, rule, from)),
                   lost || !LegibleRule(rule, depth, limits.maxDepth))
      decreases rule, 1
    {
      FlushMore(chunk, over, from, run, start, made, lost);
      ghost var flushed, flagged := parts, incomplete;
      WalkImport(rule, from, depth, env);
      TracksMore(limits, start, flushed, parts, made + RunPart(run, from), ImportParts(env, rule, from),
                 lost, !LegibleRule(rule, depth, limits.maxDepth), flagged, incomplete);
      JoinAssociates(made, RunPart(run, from), ImportParts(env, rule, from));
    }

    /** What an `@import` rule leads to, one level deeper. */
    method WalkImport(rule: DomRule, from: Origin, depth: nat, env: Env)
      requires Valid() && rule.ImportRule?
      modifies this
      ensures Valid()
      ensures Made(old(parts), ImportParts(env, rule, from), old(incomplete) || !LegibleRule(rule, depth, limits.maxDepth))
      decreases rule, 0
    {
      if depth >= limits.maxDepth {
        TracksNothing(limits, parts, ImportParts(env, rule, from), true);
        incomplete := true;
        return;
      }
      var own := ImportWrappers(rule.media, rule.supports, rule.layer);
      if rule.sheet.Some? {
        Walk(rule.sheet.value, from.media, from.wrappers + own, depth + 1, env);
      } else if rule.href != "" {
        PushFetch(env.join(from.base, rule.href), from.media, from.wrappers + own);
      } else {
        TracksNothing(limits, parts, [], true);
        incomplete := true;
      }
    }
  }
}
