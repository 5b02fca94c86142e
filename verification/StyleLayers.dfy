/** Anonymous layers. To a browser every unnamed layer is a layer of its own, so cutting a sheet into
    parts and wrapping each can turn one such layer into several; this says exactly when it does. */
module StyleLayers {
  import opened Text
  import opened StyleText
  import opened StyleWalk
  import opened StyleSnapshot

  // --- Sums ---

  function Total<A>(f: A -> nat, s: seq<A>): nat {
    if s == [] then 0 else f(s[0]) + Total(f, s[1..])
  }

  lemma {:induction false} TotalJoins<A>(f: A -> nat, a: seq<A>, b: seq<A>)
    ensures Total(f, a + b) == Total(f, a) + Total(f, b)
  {
    if a == [] {
      assert a + b == b;
    } else {
      TotalJoins(f, a[1..], b);
      assert (a + b)[1..] == a[1..] + b;
    }
  }

  lemma {:induction false} TotalOne<A>(f: A -> nat, x: A)
    ensures Total(f, [x]) == f(x)
  {
    assert [x][1..] == [];
  }

  // --- Layers of a text ---

  predicate Holds(css: Css) {
    Denote(css, []) != []
  }

  /** The unnamed layers of a text that hold a rule. */
  function Layers(css: Css): nat {
    if css == [] then 0 else LayersOfItem(css[0]) + Layers(css[1..])
  }

  function LayersOfItem(item: Item): nat {
    match item
    case Rule(_) => 0
    case Block(condition, body) => Layers(body) + if condition == Layer([]) && Holds(body) then 1 else 0
  }

  lemma {:induction false} LayersJoin(a: Css, b: Css)
    ensures Layers(a + b) == Layers(a) + Layers(b)
  {
    if a == [] {
      assert a + b == b;
    } else {
      LayersJoin(a[1..], b);
      assert (a + b)[1..] == a[1..] + b;
    }
  }

  lemma {:induction false} RulesAnywhere(css: Css, a: seq<Condition>, b: seq<Condition>)
    ensures |Denote(css, a)| == |Denote(css, b)|
    decreases css
  {
    if css != [] {
      RulesAnywhere(css[1..], a, b);
      match css[0]
      case Rule(_) =>
      case Block(condition, body) => RulesAnywhere(body, a + [condition], b + [condition]);
    }
  }

  predicate Anonymous(c: Condition) {
    Effective(c) == Some(Layer([]))
  }

  function AnonymousIn(conditions: seq<Condition>): nat {
    Total(CountAnonymous, conditions)
  }

  function CountAnonymous(c: Condition): nat {
    if Anonymous(c) then 1 else 0
  }

  lemma {:induction false} WrappedHolds(css: Css, conditions: seq<Condition>)
    ensures Holds(Wrapped(css, conditions)) <==> Holds(css)
  {
    DenoteWrapped(css, conditions, []);
    RulesAnywhere(css, [] + Stack(conditions), []);
  }

  lemma {:induction false} LayersOfWrapOne(css: Css, c: Condition)
    ensures Layers(WrapOne(css, c)) == Layers(css) + if Holds(css) then CountAnonymous(c) else 0
  {
    match Effective(c)
    case Some(e) => assert WrapOne(css, c)[1..] == [];
    case None =>
  }

  /** Wrapping adds one layer for each unnamed layer among the conditions, if there is a rule inside. */
  lemma {:induction false} LayersOfWrapped(css: Css, conditions: seq<Condition>)
    ensures Layers(Wrapped(css, conditions)) == Layers(css) + if Holds(css) then AnonymousIn(conditions) else 0
  {
    if conditions != [] {
      LayersOfWrapped(css, conditions[1..]);
      WrappedHolds(css, conditions[1..]);
      LayersOfWrapOne(Wrapped(css, conditions[1..]), conditions[0]);
    }
  }

  function CapturedLayers(s: Captured): nat {
    Layers(s.css)
  }

  lemma {:induction false} LayersOfConcatenated(sheets: seq<Captured>)
    ensures Layers(Concatenated(sheets)) == Total(CapturedLayers, sheets)
    decreases |sheets|
  {
    if sheets != [] {
      var init, last := sheets[..|sheets| - 1], Last(sheets);
      assert sheets == init + [last];
      LayersOfConcatenated(init);
      LayersJoin(Concatenated(init), WrapOne(last.css, Media(last.media)));
      LayersOfWrapOne(last.css, Media(last.media));
      TotalJoins(CapturedLayers, init, [last]);
      TotalOne(CapturedLayers, last);
    }
  }

  // --- Layers of the page ---

  function RemoteOf(env: Env, rule: DomRule, base: string): Css
    requires rule.ImportRule?
  {
    env.holds(env.join(base, rule.href))
  }

  predicate Unnamed(rule: DomRule)
    requires rule.ImportRule?
  {
    rule.layer.Some? && Anonymous(Layer(rule.layer.value))
  }

  /** The unnamed layers of a sheet and what it imports that hold a rule, each import into an unnamed
      layer being one. */
  function SheetLayers(env: Env, sheet: Sheet): nat
    decreases sheet
  {
    if InPage(sheet) then RulesLayers(env, sheet.rules, BaseOf(env, sheet)) else Layers(env.holds(sheet.href))
  }

  function RulesLayers(env: Env, rules: seq<DomRule>, base: string): nat
    decreases rules
  {
    if rules == [] then 0 else RuleLayers(env, rules[0], base) + RulesLayers(env, rules[1..], base)
  }

  function RuleLayers(env: Env, rule: DomRule, base: string): nat
    decreases rule
  {
    if !rule.ImportRule? then 0
    else (if rule.sheet.Some? then SheetLayers(env, rule.sheet.value) else Layers(RemoteOf(env, rule, base)))
         + if Unnamed(rule) && DenoteRule(env, rule, base, [], true) != [] then 1 else 0
  }

  function PageLayers(env: Env, sheets: seq<Sheet>): nat {
    Total(TopLayers(env), sheets)
  }

  function TopLayers(env: Env): Sheet -> nat {
    sheet => TopLayersOf(env, sheet)
  }

  function TopLayersOf(env: Env, sheet: Sheet): nat {
    if sheet.disabled then 0 else SheetLayers(env, sheet)
  }

  // --- Runs ---

  /** In how many texts the rules of a sheet and its imports are captured. */
  function Runs(env: Env, sheet: Sheet): nat
    decreases sheet
  {
    if InPage(sheet) then RunsIn(env, sheet.rules, BaseOf(env, sheet), false)
    else if Holds(env.holds(sheet.href)) then 1 else 0
  }

  function RunsIn(env: Env, rules: seq<DomRule>, base: string, open: bool): nat
    decreases rules
  {
    if rules == [] then if open then 1 else 0
    else match rules[0]
      case StyleRule(_) => RunsIn(env, rules[1..], base, true)
      case CharsetRule => RunsIn(env, rules[1..], base, open)
      case ImportRule(_, _, _, _, _) =>
        (if open then 1 else 0) + ImportRuns(env, rules[0], base) + RunsIn(env, rules[1..], base, false)
  }

  function ImportRuns(env: Env, rule: DomRule, base: string): nat
    requires rule.ImportRule?
    decreases rule
  {
    if rule.sheet.Some? then Runs(env, rule.sheet.value) else if Holds(RemoteOf(env, rule, base)) then 1 else 0
  }

  /** No import into an unnamed layer is captured in more than one text. */
  predicate Uncut(env: Env, sheet: Sheet)
    decreases sheet
  {
    InPage(sheet) ==> UncutRules(env, sheet.rules, BaseOf(env, sheet))
  }

  predicate UncutRules(env: Env, rules: seq<DomRule>, base: string)
    decreases rules
  {
    rules == [] || (UncutRule(env, rules[0], base) && UncutRules(env, rules[1..], base))
  }

  predicate UncutRule(env: Env, rule: DomRule, base: string)
    decreases rule
  {
    rule.ImportRule? ==>
      && (Unnamed(rule) ==> ImportRuns(env, rule, base) <= 1)
      && (rule.sheet.Some? ==> Uncut(env, rule.sheet.value))
  }

  predicate UncutPage(env: Env, sheets: seq<Sheet>) {
    forall i :: 0 <= i < |sheets| && !sheets[i].disabled ==> Uncut(env, sheets[i])
  }

  // --- Layers of the saved text ---

  /** The unnamed layers saved of a sheet that stands under `around` of them: every run repeats them. */
  function SavedLayers(env: Env, sheet: Sheet, around: nat): nat
    decreases sheet
  {
    if InPage(sheet) then SavedRulesLayers(env, sheet.rules, BaseOf(env, sheet), false, around)
    else SavedRemoteLayers(env.holds(sheet.href), around)
  }

  function SavedRemoteLayers(css: Css, around: nat): nat {
    Layers(css) + if Holds(css) then around else 0
  }

  function SavedRulesLayers(env: Env, rules: seq<DomRule>, base: string, open: bool, around: nat): nat
    decreases rules
  {
    if rules == [] then if open then around else 0
    else match rules[0]
      case StyleRule(_) => SavedRulesLayers(env, rules[1..], base, true, around)
      case CharsetRule => SavedRulesLayers(env, rules[1..], base, open, around)
      case ImportRule(_, _, _, _, _) =>
        (if open then around else 0) + SavedImportLayers(env, rules[0], base, around)
        + SavedRulesLayers(env, rules[1..], base, false, around)
  }

  function SavedImportLayers(env: Env, rule: DomRule, base: string, around: nat): nat
    requires rule.ImportRule?
    decreases rule
  {
    var inner := around + if Unnamed(rule) then 1 else 0;
    if rule.sheet.Some? then SavedLayers(env, rule.sheet.value, inner)
    else SavedRemoteLayers(RemoteOf(env, rule, base), inner)
  }

  function PartLayers(env: Env): Part -> nat {
    part => LayersOfPart(env, part)
  }

  function LayersOfPart(env: Env, part: Part): nat {
    match TextOf(env, part)
    case Some(text) => Layers(text) + if Holds(text) then AnonymousIn(part.wrappers) else 0
    case None => 0
  }

  lemma {:induction false} LayersOfSaved(env: Env, parts: seq<Part>)
    ensures Total(CapturedLayers, Saved(env, parts)) == Total(PartLayers(env), parts)
  {
    if parts != [] {
      LayersOfSaved(env, parts[1..]);
      TotalJoins(CapturedLayers, SavedOf(env, parts[0]), Saved(env, parts[1..]));
      match TextOf(env, parts[0])
      case Some(text) =>
        LayersOfWrapped(text, parts[0].wrappers);
        TotalOne(CapturedLayers, SavedOf(env, parts[0])[0]);
      case None =>
    }
  }

  lemma {:induction false} PlainRules(css: Css)
    requires forall i :: 0 <= i < |css| ==> css[i].Rule?
    ensures Layers(css) == 0 && (Holds(css) <==> css != [])
  {
    if css != [] {
      PlainRules(css[1..]);
      DenoteFirst(css, []);
    }
  }

  lemma {:induction false} LayersOfRun(env: Env, run: seq<string>, from: Origin)
    ensures Total(PartLayers(env), RunPart(run, from)) == if run == [] then 0 else AnonymousIn(from.wrappers)
  {
    if run != [] {
      PlainRules(Resolved(env, run, from.base));
      TotalOne(PartLayers(env), RunPart(run, from)[0]);
    }
  }

  /** A part whose text can be had, and tells the rules and the layers its address holds. */
  predicate ExactPart(env: Env, part: Part) {
    && TextOf(env, part).Some? && TellsPart(env, part)
    && (part.FetchPart? ==> Layers(TextOf(env, part).value) == Layers(env.holds(part.href)))
  }

  predicate EachExact(env: Env, parts: seq<Part>) {
    forall i :: 0 <= i < |parts| ==> ExactPart(env, parts[i])
  }

  lemma {:induction false} EachExactSplits(env: Env, a: seq<Part>, b: seq<Part>)
    requires EachExact(env, a + b)
    ensures EachExact(env, a) && EachExact(env, b)
  {
    assert forall i :: 0 <= i < |a| ==> (a + b)[i] == a[i];
    assert forall i :: 0 <= i < |b| ==> (a + b)[|a| + i] == b[i];
  }

  lemma {:induction false} LayersOfFetch(env: Env, href: string, media: string, wrappers: seq<Condition>)
    requires ExactPart(env, FetchPart(href, media, wrappers))
    ensures Total(PartLayers(env), [FetchPart(href, media, wrappers)]) ==
            SavedRemoteLayers(env.holds(href), AnonymousIn(wrappers))
  {
    TotalOne(PartLayers(env), FetchPart(href, media, wrappers));
  }

  lemma {:induction false} AnonymousInRecorded(wrappers: seq<Condition>, rule: DomRule)
    requires rule.ImportRule?
    ensures AnonymousIn(wrappers + Recorded(rule.media, rule.supports, rule.layer)) ==
            AnonymousIn(wrappers) + if Unnamed(rule) then 1 else 0
  {
    var m := if rule.media != "" && rule.media != "all" then [Media(rule.media)] else [];
    var s := if rule.supports != "" then [Supports(rule.supports)] else [];
    var l := if rule.layer.Some? then [Layer(rule.layer.value)] else [];
    TotalJoins(CountAnonymous, wrappers, (m + s) + l);
    TotalJoins(CountAnonymous, m + s, l);
    TotalJoins(CountAnonymous, m, s);
    TotalOne(CountAnonymous, Media(rule.media));
    TotalOne(CountAnonymous, Supports(rule.supports));
    if rule.layer.Some? {
      TotalOne(CountAnonymous, Layer(rule.layer.value));
    }
  }

  lemma {:induction false} SheetPartsLayers(env: Env, sheet: Sheet, media: string, wrappers: seq<Condition>, depth: nat, maxDepth: nat)
    requires Legible(sheet, depth, maxDepth) && EachExact(env, SheetParts(env, sheet, media, wrappers))
    ensures Total(PartLayers(env), SheetParts(env, sheet, media, wrappers)) ==
            SavedLayers(env, sheet, AnonymousIn(wrappers))
    decreases sheet
  {
    if sheet.readable {
      RulesPartsLayers(env, sheet.rules, [], OriginOf(env, sheet, media, wrappers), depth, maxDepth);
    } else {
      assert ExactPart(env, SheetParts(env, sheet, media, wrappers)[0]);
      LayersOfFetch(env, sheet.href, media, wrappers);
    }
  }

  lemma {:induction false} RulesPartsLayers(env: Env, rules: seq<DomRule>, run: seq<string>, from: Origin, depth: nat, maxDepth: nat)
    requires LegibleRules(rules, depth, maxDepth) && EachExact(env, RulesParts(env, rules, run, from))
    ensures Total(PartLayers(env), RulesParts(env, rules, run, from)) ==
            SavedRulesLayers(env, rules, from.base, run != [], AnonymousIn(from.wrappers))
    decreases rules
  {
    if rules == [] {
      LayersOfRun(env, run, from);
    } else {
      match rules[0]
      case StyleRule(text) =>
        RulesPartsLayers(env, rules[1..], run + [text], from, depth, maxDepth);
      case CharsetRule =>
        RulesPartsLayers(env, rules[1..], run, from, depth, maxDepth);
      case ImportRule(_, _, _, _, _) =>
        EachExactSplits(env, RunPart(run, from) + ImportParts(env, rules[0], from), RulesParts(env, rules[1..], [], from));
        EachExactSplits(env, RunPart(run, from), ImportParts(env, rules[0], from));
        RulesPartsLayers(env, rules[1..], [], from, depth, maxDepth);
        ImportPartsLayers(env, rules[0], from, depth, maxDepth);
        LayersOfRun(env, run, from);
        TotalJoins(PartLayers(env), RunPart(run, from), ImportParts(env, rules[0], from));
        TotalJoins(PartLayers(env), RunPart(run, from) + ImportParts(env, rules[0], from),
                   RulesParts(env, rules[1..], [], from));
    }
  }

  lemma {:induction false} ImportPartsLayers(env: Env, rule: DomRule, from: Origin, depth: nat, maxDepth: nat)
    requires rule.ImportRule? && LegibleRule(rule, depth, maxDepth) && EachExact(env, ImportParts(env, rule, from))
    ensures Total(PartLayers(env), ImportParts(env, rule, from)) ==
            SavedImportLayers(env, rule, from.base, AnonymousIn(from.wrappers))
    decreases rule
  {
    var wrappers := from.wrappers + Recorded(rule.media, rule.supports, rule.layer);
    AnonymousInRecorded(from.wrappers, rule);
    if rule.sheet.Some? {
      SheetPartsLayers(env, rule.sheet.value, from.media, wrappers, depth + 1, maxDepth);
    } else {
      assert ExactPart(env, ImportParts(env, rule, from)[0]);
      LayersOfFetch(env, env.join(from.base, rule.href), from.media, wrappers);
    }
  }

  // --- What survives ---

  /** There is a run exactly when there is a rule. */
  lemma {:induction false} RunsMean(env: Env, sheet: Sheet, stack: seq<Condition>)
    ensures Runs(env, sheet) > 0 <==> DenoteSheet(env, sheet, stack, true) != []
    decreases sheet
  {
    if InPage(sheet) {
      RunsInMean(env, sheet.rules, BaseOf(env, sheet), false, stack);
    } else {
      RulesAnywhere(env.holds(sheet.href), [], stack);
    }
  }

  lemma {:induction false} RunsInMean(env: Env, rules: seq<DomRule>, base: string, open: bool, stack: seq<Condition>)
    ensures RunsIn(env, rules, base, open) > 0 <==> open || DenoteRules(env, rules, base, stack, true) != []
    decreases rules
  {
    if rules != [] {
      match rules[0]
      case StyleRule(text) =>
        RunsInMean(env, rules[1..], base, true, stack);
      case CharsetRule =>
        RunsInMean(env, rules[1..], base, open, stack);
      case ImportRule(_, _, _, _, _) =>
        RunsInMean(env, rules[1..], base, false, stack);
        ImportRunsMean(env, rules[0], base, stack);
    }
  }

  lemma {:induction false} ImportRunsMean(env: Env, rule: DomRule, base: string, stack: seq<Condition>)
    requires rule.ImportRule?
    ensures ImportRuns(env, rule, base) > 0 <==> DenoteRule(env, rule, base, stack, true) != []
    decreases rule
  {
    var inner := stack + UnderImport(rule.media, rule.supports, rule.layer);
    if rule.sheet.Some? {
      RunsMean(env, rule.sheet.value, inner);
    } else {
      RulesAnywhere(RemoteOf(env, rule, base), [], inner);
    }
  }

  /** `saved` layers stand for `here` and the `around` ones of something captured in `runs` texts. */
  predicate Covers(saved: nat, here: nat, around: nat, runs: nat, uncut: bool) {
    var needed := here + if runs > 0 then around else 0;
    saved >= needed && (saved == needed <==> uncut && (around == 0 || runs <= 1))
  }

  lemma {:induction false} RemoteLayersSurvive(css: Css, around: nat)
    ensures Covers(SavedRemoteLayers(css, around), Layers(css), around, if Holds(css) then 1 else 0, true)
  {
  }

  lemma {:induction false} SheetLayersSurvive(env: Env, sheet: Sheet, around: nat)
    ensures Covers(SavedLayers(env, sheet, around), SheetLayers(env, sheet), around, Runs(env, sheet), Uncut(env, sheet))
    decreases sheet
  {
    if InPage(sheet) {
      RulesLayersSurvive(env, sheet.rules, BaseOf(env, sheet), false, around);
    }
  }

  lemma {:induction false} RulesLayersSurvive(env: Env, rules: seq<DomRule>, base: string, open: bool, around: nat)
    ensures Covers(SavedRulesLayers(env, rules, base, open, around), RulesLayers(env, rules, base), around,
                   RunsIn(env, rules, base, open), UncutRules(env, rules, base))
    decreases rules
  {
    if rules != [] {
      match rules[0]
      case StyleRule(_) => RulesLayersSurvive(env, rules[1..], base, true, around);
      case CharsetRule => RulesLayersSurvive(env, rules[1..], base, open, around);
      case ImportRule(_, _, _, _, _) =>
        RulesLayersSurvive(env, rules[1..], base, false, around);
        ImportLayersSurvive(env, rules[0], base, around);
    }
  }

  lemma {:induction false} ImportLayersSurvive(env: Env, rule: DomRule, base: string, around: nat)
    requires rule.ImportRule?
    ensures Covers(SavedImportLayers(env, rule, base, around), RuleLayers(env, rule, base), around,
                   ImportRuns(env, rule, base), UncutRule(env, rule, base))
    decreases rule
  {
    var inner := around + if Unnamed(rule) then 1 else 0;
    ImportRunsMean(env, rule, base, []);
    if rule.sheet.Some? {
      SheetLayersSurvive(env, rule.sheet.value, inner);
    } else {
      RemoteLayersSurvive(RemoteOf(env, rule, base), inner);
    }
  }

  lemma {:induction false} TopLayersSurvive(env: Env, sheet: Sheet)
    requires LegibleTop(sheet) && EachExact(env, TopPartsOf(env, sheet))
    ensures var saved := Total(PartLayers(env), TopPartsOf(env, sheet));
            saved >= TopLayersOf(env, sheet) && (saved == TopLayersOf(env, sheet) <==> sheet.disabled || Uncut(env, sheet))
  {
    if !sheet.disabled {
      SheetPartsLayers(env, sheet, sheet.media, [], 0, MAX_IMPORT_DEPTH);
      SheetLayersSurvive(env, sheet, 0);
    }
  }

  lemma {:induction false} PartsLayersSurvive(env: Env, sheets: seq<Sheet>)
    requires LegiblePage(sheets) && EachExact(env, DocumentParts(env, sheets))
    ensures var saved := Total(PartLayers(env), DocumentParts(env, sheets));
            saved >= PageLayers(env, sheets) && (saved == PageLayers(env, sheets) <==> UncutPage(env, sheets))
  {
    if sheets != [] {
      LegibleFirst(sheets);
      EachExactSplits(env, TopPartsOf(env, sheets[0]), DocumentParts(env, sheets[1..]));
      PartsLayersSurvive(env, sheets[1..]);
      TotalJoins(PartLayers(env), TopPartsOf(env, sheets[0]), DocumentParts(env, sheets[1..]));
      TopLayersSurvive(env, sheets[0]);
      UncutFirst(env, sheets);
    }
  }

  lemma {:induction false} UncutFirst(env: Env, sheets: seq<Sheet>)
    requires sheets != []
    ensures UncutPage(env, sheets) <==> (sheets[0].disabled || Uncut(env, sheets[0])) && UncutPage(env, sheets[1..])
  {
    forall i | 0 <= i < |sheets[1..]| ensures sheets[1..][i] == sheets[i + 1] {
    }
    if UncutPage(env, sheets[1..]) {
      forall i | 0 < i < |sheets| && !sheets[i].disabled ensures Uncut(env, sheets[i]) {
        assert sheets[1..][i - 1] == sheets[i];
      }
    }
  }

  /** A page saved without loss never has fewer unnamed layers than the page, and has as many exactly when no
      import into one is captured in several texts. */
  lemma {:induction false} LayersSurvive(env: Env, sheets: seq<Sheet>)
    requires LegiblePage(sheets) && EachExact(env, DocumentParts(env, sheets))
    ensures var saved := Layers(Concatenated(SavedDocument(env, sheets)));
            saved >= PageLayers(env, sheets) && (saved == PageLayers(env, sheets) <==> UncutPage(env, sheets))
  {
    LayersOfConcatenated(SavedDocument(env, sheets));
    LayersOfSaved(env, DocumentParts(env, sheets));
    PartsLayersSurvive(env, sheets);
  }

  // --- A layer that is cut ---

  function InnerSheet(): Sheet {
    Sheet("http://h/b.css", true, false, "", [StyleRule("q{}")])
  }

  function LayeredSheet(): Sheet {
    Sheet("http://h/a.css", true, false, "", [ImportRule("", "", None, "b.css", Some(InnerSheet())), StyleRule("p{}")])
  }

  function LayeredPage(): Sheet {
    Sheet("", true, false, "", [ImportRule("", "", Some(""), "a.css", Some(LayeredSheet()))])
  }

  function CutParts(): seq<Part> {
    [TextPart(["q{}"], "http://h/b.css", "http://h/b.css", "", [Layer("")]),
     TextPart(["p{}"], "http://h/a.css", "http://h/a.css", "", [Layer("")])]
  }

  lemma {:induction false} CutSheetParts(env: Env)
    ensures SheetParts(env, LayeredSheet(), "", [Layer("")]) == CutParts()
  {
    var sheet, parts := LayeredSheet(), CutParts();
    var from := OriginOf(env, sheet, "", [Layer("")]);
    assert InnerSheet().rules[1..] == [] && [] + ["q{}"] == ["q{}"] && [] + ["p{}"] == ["p{}"];
    assert [Layer("")] + Recorded("", "", None) == [Layer("")];
    assert RulesParts(env, InnerSheet().rules, [], OriginOf(env, InnerSheet(), "", [Layer("")])) == [parts[0]];
    assert ImportParts(env, sheet.rules[0], from) == [parts[0]];
    assert sheet.rules[1..] == [StyleRule("p{}")] && sheet.rules[1..][1..] == [];
    assert RulesParts(env, sheet.rules[1..], [], from) == [parts[1]];
    assert ([] + [parts[0]]) + [parts[1]] == parts;
  }

  lemma {:induction false} CutPageParts(env: Env)
    ensures DocumentParts(env, [LayeredPage()]) == CutParts()
  {
    var page, parts := LayeredPage(), CutParts();
    var from := OriginOf(env, page, "", []);
    CutSheetParts(env);
    assert [] + Recorded("", "", Some("")) == [Layer("")];
    assert ImportParts(env, page.rules[0], from) == parts;
    assert page.rules[1..] == [] && ([] + parts) + [] == parts;
    assert RulesParts(env, page.rules, [], from) == parts;
    FlatMapOne(TopParts(env), page);
  }

  lemma {:induction false} CutPageIsLegible()
    ensures LegiblePage([LayeredPage()])
  {
    LegibleOne(InnerSheet().rules[0], 2);
    LegibleOne(LayeredSheet().rules[1], 1);
    assert LayeredSheet().rules[1..] == [LayeredSheet().rules[1]];
    assert LegibleRule(LayeredSheet().rules[0], 1, MAX_IMPORT_DEPTH);
    assert Legible(LayeredSheet(), 1, MAX_IMPORT_DEPTH);
    LegibleOne(LayeredPage().rules[0], 0);
  }

  lemma {:induction false} CutPageFits(env: Env, bytes: Css -> nat)
    requires forall i :: 0 <= i < 2 ==> bytes(SavedOf(env, CutParts()[i])[0].css) <= MAX_SHEET_BYTES
    ensures Bounded(PAGE_LIMITS, CutParts()) && Storable(env, bytes, CutParts())
  {
    var a, b := CutParts()[0], CutParts()[1];
    OnePartIsBounded(a);
    CharsNext([], "q{}");
    CharsNext([], "p{}");
    assert [a] + [b] == CutParts() && [] + ["q{}"] == ["q{}"] && [] + ["p{}"] == ["p{}"];
    TextCharsNext([], a);
    TextCharsNext([a], b);
    TwoPartsFit(env, bytes, a, b);
  }

  lemma {:induction false} TwoPartsFit(env: Env, bytes: Css -> nat, a: Part, b: Part)
    requires TextOf(env, a).Some? && TextOf(env, b).Some?
    requires bytes(SavedOf(env, a)[0].css) <= MAX_SHEET_BYTES && bytes(SavedOf(env, b)[0].css) <= MAX_SHEET_BYTES
    ensures Storable(env, bytes, [a, b])
  {
    FlatMapOne(SavedPart(env), a);
    SavedNext(env, [a], b);
    assert [a] + [b] == [a, b];
    OneSheetFits(bytes, SavedOf(env, a)[0]);
    WithinNext(bytes, [], SavedOf(env, a)[0]);
    assert [] + [SavedOf(env, a)[0]] == SavedOf(env, a);
    WithinNext(bytes, SavedOf(env, a), SavedOf(env, b)[0]);
  }

  lemma {:induction false} CutPageIsCut(env: Env)
    ensures !UncutPage(env, [LayeredPage()])
  {
    var inner, layered, page := InnerSheet(), LayeredSheet(), LayeredPage();
    var second := StyleRule("p{}");
    assert inner.rules[1..] == [] && layered.rules[1..] == [second] && [second][1..] == [];
    assert Runs(env, inner) == 1;
    assert RunsIn(env, [second], "http://h/a.css", false) == 1;
    assert RunsIn(env, layered.rules, "http://h/a.css", false) == 2;
    assert Runs(env, layered) == 2;
    assert !UncutRule(env, page.rules[0], env.docBase);
    assert [page][0] == page && !Uncut(env, page);
  }

  /** A page whose one unnamed layer is saved as two, in a snapshot that says it is complete: the layer's sheet
      imports another and has a rule itself. */
  lemma {:induction false} LayerIsCut(env: Env, bytes: Css -> nat)
    requires forall i :: 0 <= i < 2 ==> bytes(SavedOf(env, CutParts()[i])[0].css) <= MAX_SHEET_BYTES
    ensures var page := [LayeredPage()];
            Capturable(env, bytes, page) && Layers(Concatenated(SavedDocument(env, page))) > PageLayers(env, page)
  {
    CutPageParts(env);
    CutPageIsLegible();
    CutPageFits(env, bytes);
    CutPageIsCut(env);
    LayersSurvive(env, [LayeredPage()]);
  }
}
