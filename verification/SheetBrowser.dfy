/** Splitting, fetching and capturing together: what a fetched text is to what a browser makes of the same
    address, and so when a captured page means what the page meant. */
module SheetBrowser {
  import opened Text
  import opened StyleText
  import opened StyleWalk
  import opened StyleSnapshot
  import SI = SheetImports
  import SF = SheetFetch
  import SC = SheetCache
  import SR = SheetCacheRuns

  /** The sheets addresses hold, whether they answer, and how addresses are joined and rewritten. */
  datatype Site = Site(
    items: string -> seq<SI.SheetItem>,
    answers: string -> bool,
    join: (string, string) -> string,
    resolve: (string, string) -> string,
    length: Css -> nat,
    tooLong: Css -> bool,
    maxBytes: nat)

  function RuleOf(site: Site, url: string, item: SI.SheetItem): Item {
    Rule(site.resolve(url, match item case ImportItem(_) => "" case LayerItem(text) => text case RuleItem(text) => text))
  }

  function RuleAt(site: Site, url: string): SI.SheetItem -> Item {
    item => RuleOf(site, url, item)
  }

  /** What `_fetch` reads of the site: each sheet as `split_imports` splits it. */
  function WebOf(site: Site): SF.Web {
    SF.Web(url => ResponseAt(site, url), site.join, site.length, site.tooLong, site.maxBytes)
  }

  function ResponseAt(site: Site, url: string): SF.Response {
    if site.answers(url) then
      SF.Response.Sheet(SI.LeadingImports(site.items(url)), SI.DenoteRest(site.items(url), RuleAt(site, url)))
    else SF.Unusable
  }

  // --- What a browser makes of an address ---

  /** The sheet with its valid imports in place, as far as imports nest to the bound. */
  function LiveText(site: Site, url: string, depth: nat): Css
    requires depth <= SF.MAX_IMPORT_DEPTH
    decreases SF.MAX_IMPORT_DEPTH - depth, 2
  {
    SI.DenoteLive(site.items(url), LiveImport(site, url, depth), RuleAt(site, url), true)
  }

  function LiveImport(site: Site, url: string, depth: nat): SI.Import -> Css
    requires depth <= SF.MAX_IMPORT_DEPTH
    decreases SF.MAX_IMPORT_DEPTH - depth, 1
  {
    i => LiveImported(site, url, i, depth)
  }

  function LiveImported(site: Site, url: string, i: SI.Import, depth: nat): Css
    requires depth <= SF.MAX_IMPORT_DEPTH
    decreases SF.MAX_IMPORT_DEPTH - depth, 0
  {
    if depth == SF.MAX_IMPORT_DEPTH then [] else Wrapped(LiveText(site, site.join(url, i.href), depth + 1), i.conditions)
  }

  // --- What an answer loses ---

  /** Two ways to compare texts: as they stand, or by the rules they mean. */
  datatype Reading = AsText | AsRules

  predicate Same(reading: Reading, a: Css, b: Css) {
    match reading
    case AsText => a == b
    case AsRules => Denote(a, []) == Denote(b, [])
  }

  function Weight(css: Css): nat {
    if css == [] then 0 else ItemWeight(css[0]) + Weight(css[1..])
  }

  function ItemWeight(item: Item): nat {
    match item
    case Rule(_) => 1
    case Block(_, body) => 1 + Weight(body)
  }

  function Size(reading: Reading, css: Css): nat {
    match reading
    case AsText => Weight(css)
    case AsRules => |Denote(css, [])|
  }

  lemma {:induction false} SizeJoins(reading: Reading, a: Css, b: Css)
    ensures Size(reading, a + b) == Size(reading, a) + Size(reading, b)
  {
    DenoteJoins(a, b, []);
    WeightJoins(a, b);
  }

  lemma {:induction false} WeightJoins(a: Css, b: Css)
    ensures Weight(a + b) == Weight(a) + Weight(b)
  {
    if a == [] {
      assert a + b == b;
    } else {
      WeightJoins(a[1..], b);
      assert (a + b)[1..] == a[1..] + b;
    }
  }

  lemma {:induction false} SameJoins(reading: Reading, a: Css, b: Css, c: Css, d: Css)
    requires Same(reading, a, b) && Same(reading, c, d)
    ensures Same(reading, a + c, b + d)
  {
    DenoteJoins(a, c, []);
    DenoteJoins(b, d, []);
  }

  /** How much conditions add to a text. */
  function Wraps(reading: Reading, conditions: seq<Condition>): nat {
    if reading.AsRules? || conditions == [] then 0
    else Wraps(reading, conditions[1..]) + if Effective(conditions[0]).Some? then 1 else 0
  }

  lemma {:induction false} WeightOfWrapOne(css: Css, c: Condition)
    ensures Weight(WrapOne(css, c)) == Weight(css) + if Effective(c).Some? then 1 else 0
  {
    match Effective(c)
    case Some(e) => assert WrapOne(css, c) == [Block(e, css)] && [Block(e, css)][1..] == [];
    case None =>
  }

  lemma {:induction false} SizeOfWrapped(reading: Reading, css: Css, conditions: seq<Condition>)
    ensures Size(reading, Wrapped(css, conditions)) == Size(reading, css) + Wraps(reading, conditions)
  {
    match reading
    case AsText =>
      if conditions != [] {
        SizeOfWrapped(reading, css, conditions[1..]);
        WeightOfWrapOne(Wrapped(css, conditions[1..]), conditions[0]);
      }
    case AsRules =>
      DenoteWrapped(css, conditions, []);
      DenoteRaised(css, Stack(conditions), []);
      assert [] + Stack(conditions) == Stack(conditions) + [];
  }

  lemma {:induction false} SameWrapped(reading: Reading, a: Css, b: Css, conditions: seq<Condition>)
    requires Same(reading, a, b)
    ensures Same(reading, Wrapped(a, conditions), Wrapped(b, conditions))
  {
    if reading.AsRules? {
      DenoteWrapped(a, conditions, []);
      DenoteWrapped(b, conditions, []);
      SameAnywhere(a, b, [] + Stack(conditions));
    }
  }

  /** `a` reads as `b`, or is smaller when something was lost. */
  predicate Below(reading: Reading, a: Css, b: Css, lost: bool) {
    Size(reading, a) <= Size(reading, b) && if lost then Size(reading, a) < Size(reading, b) else Same(reading, a, b)
  }

  lemma {:induction false} BelowMeans(reading: Reading, a: Css, b: Css, lost: bool)
    requires Below(reading, a, b, lost)
    ensures Same(reading, a, b) <==> !lost
  {
  }

  lemma {:induction false} BelowItself(reading: Reading, a: Css)
    ensures Below(reading, a, a, false)
  {
  }

  lemma {:induction false} BelowJoins(reading: Reading, a: Css, b: Css, c: Css, d: Css, lost: bool, more: bool)
    requires Below(reading, a, b, lost) && Below(reading, c, d, more)
    ensures Below(reading, a + c, b + d, lost || more)
  {
    SizeJoins(reading, a, c);
    SizeJoins(reading, b, d);
    if !lost && !more {
      SameJoins(reading, a, b, c, d);
    }
  }

  lemma {:induction false} BelowWrapped(reading: Reading, a: Css, b: Css, conditions: seq<Condition>, lost: bool)
    requires Below(reading, a, b, lost)
    ensures Below(reading, Wrapped(a, conditions), Wrapped(b, conditions), lost)
  {
    SizeOfWrapped(reading, a, conditions);
    SizeOfWrapped(reading, b, conditions);
    if !lost {
      SameWrapped(reading, a, b, conditions);
    }
  }

  /** Leaving a text out loses it unless there is nothing to read in it. */
  lemma {:induction false} BelowWithout(reading: Reading, css: Css)
    ensures Below(reading, [], css, !Same(reading, css, []))
  {
    if reading.AsText? && css != [] {
      assert Weight(css) >= 1;
    }
  }

  // --- Hidden imports ---

  type Texts = SI.Import -> Css

  predicate AnyHolds(reading: Reading, imports: seq<SI.Import>, texts: Texts) {
    imports != [] && (!Same(reading, texts(imports[0]), []) || AnyHolds(reading, imports[1..], texts))
  }

  /** An import the browser follows, behind a layer statement, holds something. */
  predicate Hides(reading: Reading, items: seq<SI.SheetItem>, texts: Texts) {
    if items == [] || items[0].RuleItem? then false
    else if items[0].LayerItem? then AnyHolds(reading, SI.ValidImports(items[1..]), texts)
    else Hides(reading, items[1..], texts)
  }

  /** Without its imports a sheet is what it was, less what the valid ones hold. */
  lemma {:induction false} RestBelowLive(reading: Reading, items: seq<SI.SheetItem>, texts: Texts, rule: SI.SheetItem -> Item, open: bool)
    ensures Below(reading, SI.DenoteRest(items, rule), SI.DenoteLive(items, texts, rule, open),
                  open && AnyHolds(reading, SI.ValidImports(items), texts))
    decreases |items|
  {
    if items == [] {
      BelowItself(reading, []);
    } else {
      SI.DenoteRestStep(items, rule);
      var still := open && !items[0].RuleItem?;
      RestBelowLive(reading, items[1..], texts, rule, still);
      var rest, live := SI.DenoteRest(items[1..], rule), SI.DenoteLive(items[1..], texts, rule, still);
      var more := still && AnyHolds(reading, SI.ValidImports(items[1..]), texts);
      if items[0].ImportItem? {
        var text := if open then texts(items[0].rule) else [];
        BelowWithout(reading, text);
        BelowJoins(reading, [], text, rest, live, !Same(reading, text, []), more);
        assert [] + rest == rest;
        ImportFirst(items);
      } else {
        BelowItself(reading, [rule(items[0])]);
        BelowJoins(reading, [rule(items[0])], [rule(items[0])], rest, live, false, more);
      }
    }
  }

  lemma {:induction false} ImportFirst(items: seq<SI.SheetItem>)
    requires items != [] && items[0].ImportItem?
    ensures SI.ValidImports(items)[0] == items[0].rule && SI.ValidImports(items)[1..] == SI.ValidImports(items[1..])
    ensures SI.LeadingImports(items)[0] == items[0].rule && SI.LeadingImports(items)[1..] == SI.LeadingImports(items[1..])
  {
  }

  /** A split sheet is what it was, less what the imports behind layer statements hold. */
  lemma {:induction false} SplitBelowLive(reading: Reading, items: seq<SI.SheetItem>, texts: Texts, rule: SI.SheetItem -> Item)
    ensures Below(reading, FlatMap(texts, SI.LeadingImports(items)) + SI.DenoteRest(items, rule),
                  SI.DenoteLive(items, texts, rule, true), Hides(reading, items, texts))
    decreases |items|
  {
    var rest := SI.DenoteRest(items, rule);
    if items != [] && items[0].ImportItem? {
      var first, found := texts(items[0].rule), FlatMap(texts, SI.LeadingImports(items[1..]));
      SplitBelowLive(reading, items[1..], texts, rule);
      SI.DenoteRestStep(items, rule);
      ImportFirst(items);
      BelowItself(reading, first);
      BelowJoins(reading, first, first, found + rest, SI.DenoteLive(items[1..], texts, rule, true),
                 false, Hides(reading, items[1..], texts));
      JoinAssociates(first, found, rest);
    } else {
      assert [] + rest == rest;
      RestBelowLive(reading, items, texts, rule, true);
    }
  }

  /** Somewhere in the tree of imports found below an address, a sheet hides an import that holds something. */
  predicate Lost(reading: Reading, site: Site, url: string, depth: nat)
    requires depth <= SF.MAX_IMPORT_DEPTH
    decreases SF.MAX_IMPORT_DEPTH - depth, 1
  {
    Hides(reading, site.items(url), LiveImport(site, url, depth)) || LostFrom(reading, site, url, 0, depth)
  }

  /** ... below one of the imports found, from the `k`th on. */
  predicate LostFrom(reading: Reading, site: Site, url: string, k: nat, depth: nat)
    requires depth <= SF.MAX_IMPORT_DEPTH
    decreases SF.MAX_IMPORT_DEPTH - depth, 0
  {
    && depth < SF.MAX_IMPORT_DEPTH
    && exists i :: k <= i < |SI.LeadingImports(site.items(url))| &&
                   Lost(reading, site, site.join(url, SI.LeadingImports(site.items(url))[i].href), depth + 1)
  }

  lemma {:induction false} FetchBelowLive(reading: Reading, site: Site, url: string, depth: nat)
    requires depth <= SF.MAX_IMPORT_DEPTH && SF.Direct(WebOf(site), url, depth).Some?
    ensures Below(reading, SF.Direct(WebOf(site), url, depth).value, LiveText(site, url, depth), Lost(reading, site, url, depth))
    decreases SF.MAX_IMPORT_DEPTH - depth, |SI.LeadingImports(site.items(url))| + 1
  {
    var items, live := site.items(url), LiveImport(site, url, depth);
    var rest, found := SI.DenoteRest(items, RuleAt(site, url)), SF.DirectFrom(WebOf(site), url, 0, depth).value;
    assert SI.LeadingImports(items)[0..] == SI.LeadingImports(items);
    PiecesBelowLive(reading, site, url, 0, depth);
    SplitBelowLive(reading, items, live, RuleAt(site, url));
    BelowItself(reading, rest);
    BelowJoins(reading, found, FlatMap(live, SI.LeadingImports(items)), rest, rest, LostFrom(reading, site, url, 0, depth), false);
    BelowTwice(reading, found + rest, FlatMap(live, SI.LeadingImports(items)) + rest, LiveText(site, url, depth),
               LostFrom(reading, site, url, 0, depth), Hides(reading, items, live));
  }

  lemma {:induction false} BelowTwice(reading: Reading, a: Css, b: Css, c: Css, lost: bool, more: bool)
    requires Below(reading, a, b, lost) && Below(reading, b, c, more)
    ensures Below(reading, a, c, lost || more)
  {
  }

  lemma {:induction false} PiecesBelowLive(reading: Reading, site: Site, url: string, k: nat, depth: nat)
    requires depth <= SF.MAX_IMPORT_DEPTH && site.answers(url)
    requires k <= |SI.LeadingImports(site.items(url))| && SF.DirectFrom(WebOf(site), url, k, depth).Some?
    ensures Below(reading, SF.DirectFrom(WebOf(site), url, k, depth).value,
                  FlatMap(LiveImport(site, url, depth), SI.LeadingImports(site.items(url))[k..]),
                  LostFrom(reading, site, url, k, depth))
    decreases SF.MAX_IMPORT_DEPTH - depth, |SI.LeadingImports(site.items(url))| - k
  {
    var imports := SI.LeadingImports(site.items(url));
    assert SF.ImportsOf(WebOf(site), url) == imports;
    if k == |imports| {
      BelowItself(reading, []);
    } else {
      PieceBelowLive(reading, site, url, k, depth);
      PiecesBelowLive(reading, site, url, k + 1, depth);
      LostNext(reading, site, url, k, depth);
      BelowJoins(reading, SF.DirectWrapped(WebOf(site), url, k, depth).value, LiveImported(site, url, imports[k], depth),
                 SF.DirectFrom(WebOf(site), url, k + 1, depth).value,
                 FlatMap(LiveImport(site, url, depth), imports[k + 1..]),
                 LostAt(reading, site, url, k, depth), LostFrom(reading, site, url, k + 1, depth));
      assert imports[k..][1..] == imports[k + 1..];
    }
  }

  predicate LostAt(reading: Reading, site: Site, url: string, k: nat, depth: nat)
    requires depth < SF.MAX_IMPORT_DEPTH && k < |SI.LeadingImports(site.items(url))|
  {
    Lost(reading, site, site.join(url, SI.LeadingImports(site.items(url))[k].href), depth + 1)
  }

  lemma {:induction false} LostNext(reading: Reading, site: Site, url: string, k: nat, depth: nat)
    requires depth < SF.MAX_IMPORT_DEPTH && k < |SI.LeadingImports(site.items(url))|
    ensures LostFrom(reading, site, url, k, depth) <==>
            LostAt(reading, site, url, k, depth) || LostFrom(reading, site, url, k + 1, depth)
  {
  }

  lemma {:induction false} PieceBelowLive(reading: Reading, site: Site, url: string, k: nat, depth: nat)
    requires depth < SF.MAX_IMPORT_DEPTH && site.answers(url) && k < |SI.LeadingImports(site.items(url))|
    requires SF.ImportsOf(WebOf(site), url) == SI.LeadingImports(site.items(url))
    requires SF.DirectWrapped(WebOf(site), url, k, depth).Some?
    ensures Below(reading, SF.DirectWrapped(WebOf(site), url, k, depth).value,
                  LiveImported(site, url, SI.LeadingImports(site.items(url))[k], depth), LostAt(reading, site, url, k, depth))
    decreases SF.MAX_IMPORT_DEPTH - depth, 0
  {
    var i := SI.LeadingImports(site.items(url))[k];
    var inner := site.join(url, i.href);
    FetchBelowLive(reading, site, inner, depth + 1);
    BelowWrapped(reading, SF.Direct(WebOf(site), inner, depth + 1).value, LiveText(site, inner, depth + 1),
                 i.conditions, Lost(reading, site, inner, depth + 1));
  }

  /** A fetched text reads as what a browser makes of its address if and only if no sheet in the tree of imports
      found hides an import that holds something: any text, or any rule. */
  lemma {:induction false} FetchIsLiveExactly(reading: Reading, site: Site, url: string, depth: nat)
    requires depth <= SF.MAX_IMPORT_DEPTH && SF.Direct(WebOf(site), url, depth).Some?
    ensures Same(reading, SF.Direct(WebOf(site), url, depth).value, LiveText(site, url, depth)) <==>
            !Lost(reading, site, url, depth)
  {
    FetchBelowLive(reading, site, url, depth);
    BelowMeans(reading, SF.Direct(WebOf(site), url, depth).value, LiveText(site, url, depth), Lost(reading, site, url, depth));
  }

  /** No sheet in the tree below an address imports behind a layer statement. */
  predicate NothingHidden(site: Site, url: string, depth: nat)
    requires depth <= SF.MAX_IMPORT_DEPTH
    decreases SF.MAX_IMPORT_DEPTH - depth
  {
    && !SI.ImportAfterLayer(site.items(url))
    && (depth < SF.MAX_IMPORT_DEPTH ==>
          forall i :: 0 <= i < |SI.LeadingImports(site.items(url))| ==>
            NothingHidden(site, site.join(url, SI.LeadingImports(site.items(url))[i].href), depth + 1))
  }

  lemma {:induction false} NothingHiddenHere(reading: Reading, items: seq<SI.SheetItem>, texts: Texts)
    requires !SI.ImportAfterLayer(items)
    ensures !Hides(reading, items, texts)
    decreases |items|
  {
    if items != [] && items[0].ImportItem? {
      NothingHiddenHere(reading, items[1..], texts);
    }
  }

  lemma {:induction false} NothingHiddenNothingLost(reading: Reading, site: Site, url: string, depth: nat)
    requires depth <= SF.MAX_IMPORT_DEPTH && NothingHidden(site, url, depth)
    ensures !Lost(reading, site, url, depth)
    decreases SF.MAX_IMPORT_DEPTH - depth
  {
    var imports := SI.LeadingImports(site.items(url));
    NothingHiddenHere(reading, site.items(url), LiveImport(site, url, depth));
    forall i | depth < SF.MAX_IMPORT_DEPTH && 0 <= i < |imports|
      ensures !Lost(reading, site, site.join(url, imports[i].href), depth + 1)
    {
      NothingHiddenNothingLost(reading, site, site.join(url, imports[i].href), depth + 1);
    }
  }

  /** In particular a fetched text is what a browser makes of its address, item for item, when no sheet in the
      tree imports behind a layer statement at all. */
  lemma {:induction false} FetchIsLive(site: Site, url: string, depth: nat)
    requires depth <= SF.MAX_IMPORT_DEPTH && NothingHidden(site, url, depth)
    requires SF.Direct(WebOf(site), url, depth).Some?
    ensures SF.Direct(WebOf(site), url, depth).value == LiveText(site, url, depth)
  {
    NothingHiddenNothingLost(AsText, site, url, depth);
    FetchIsLiveExactly(AsText, site, url, depth);
  }

  // --- Pages ---

  /** A page whose addresses are those of the site, each answering as a direct fetch of it would. */
  ghost predicate Serves(site: Site, env: Env, page: seq<StyleWalk.Sheet>) {
    && (forall url :: env.holds(url) == LiveText(site, url, 0))
    && forall p :: p in DocumentParts(env, page) && p.FetchPart? ==> env.fetch(p.href) == SF.Direct(WebOf(site), p.href, 0)
  }

  /** What a caller of the shared cache that asked for `url` was answered. */
  predicate AnsweredBy(w: SF.Web, urls: seq<string>, steps: seq<SC.Step>, url: string, answer: Option<Css>) {
    && SC.Runs(w, SC.Start(urls), steps)
    && var tasks := SC.AfterAll(w, SC.Start(urls), steps).tasks;
       exists t :: 0 <= t < |urls| && t < |tasks| && urls[t] == url && SC.Finished(tasks[t]) && tasks[t][0].phase.value == answer
  }

  /** A run of the shared cache in which no request raised serves the page: every part is what some caller got,
      whatever other pages asked for at the same time. */
  lemma {:induction false} CacheServes(site: Site, env: Env, page: seq<StyleWalk.Sheet>, urls: seq<string>, steps: seq<SC.Step>)
    requires forall url :: env.holds(url) == LiveText(site, url, 0)
    requires SR.AllShallow(WebOf(site), urls) && SC.Runs(WebOf(site), SC.Start(urls), steps)
    requires SC.AfterAll(WebOf(site), SC.Start(urls), steps).raised == {}
    requires forall p :: p in DocumentParts(env, page) && p.FetchPart? ==>
               AnsweredBy(WebOf(site), urls, steps, p.href, env.fetch(p.href))
    ensures Serves(site, env, page)
  {
    SR.CacheIsDirect(WebOf(site), urls, steps);
  }

  /** Every answer a page is captured from means what its address holds if and only if no sheet in the tree of
      imports below it hides an import that holds a rule. */
  lemma {:induction false} FetchedPageTells(site: Site, env: Env, page: seq<StyleWalk.Sheet>)
    requires Serves(site, env, page)
    ensures EachTells(env, DocumentParts(env, page)) <==>
            forall p :: p in DocumentParts(env, page) && p.FetchPart? && env.fetch(p.href).Some? ==> !Lost(AsRules, site, p.href, 0)
  {
    var parts := DocumentParts(env, page);
    forall p | p in parts && p.FetchPart? && env.fetch(p.href).Some?
      ensures TellsPart(env, p) <==> !Lost(AsRules, site, p.href, 0)
    {
      FetchIsLiveExactly(AsRules, site, p.href, 0);
    }
    assert EachTells(env, parts) <==> forall p :: p in parts ==> TellsPart(env, p);
  }

  // --- A hidden import ---

  /** A sheet that orders its layers before it imports a sheet with one rule. */
  predicate LayersThenImports(site: Site, url: string) {
    && site.items(url) == [SI.LayerItem("@layer a, b;"), SI.ImportItem(SI.Import("b.css", []))]
    && site.items(site.join(url, "b.css")) == [SI.RuleItem("p{}")]
  }

  lemma {:induction false} OneRuleLive<T>(item: SI.SheetItem, meaning: SI.Import -> seq<T>, rule: SI.SheetItem -> T)
    requires item.RuleItem?
    ensures SI.DenoteLive([item], meaning, rule, true) == [rule(item)]
  {
    assert [item][1..] == [];
  }

  lemma {:induction false} LayerThenImportLive<T>(items: seq<SI.SheetItem>, meaning: SI.Import -> seq<T>, rule: SI.SheetItem -> T)
    requires |items| == 2 && items[0].LayerItem? && items[1].ImportItem?
    ensures SI.DenoteLive(items, meaning, rule, true) == [rule(items[0])] + meaning(items[1].rule)
  {
    assert items[1..] == [items[1]] && items[1..][1..] == [];
    assert meaning(items[1].rule) + [] == meaning(items[1].rule);
    assert SI.DenoteLive(items[1..], meaning, rule, true) == meaning(items[1].rule) + SI.DenoteLive([], meaning, rule, true);
  }

  lemma {:induction false} HiddenImportTexts(site: Site, url: string)
    requires LayersThenImports(site, url) && site.answers(url)
    requires !site.tooLong([Rule(site.resolve(url, "@layer a, b;"))])
    ensures SF.Direct(WebOf(site), url, 0) == Some([Rule(site.resolve(url, "@layer a, b;"))])
    ensures |LiveText(site, url, 0)| == 2 && forall i :: 0 <= i < 2 ==> LiveText(site, url, 0)[i].Rule?
  {
    var items, inner := site.items(url), site.join(url, "b.css");
    var layer := Rule(site.resolve(url, "@layer a, b;"));
    assert items[1..] == [items[1]] && items[1..][1..] == [] && site.items(inner)[1..] == [];
    assert SI.WithoutImports(items) == [items[0]] + SI.WithoutImports(items[1..]);
    assert SI.WithoutImports(items[1..]) == [] && [items[0]] + [] == [items[0]];
    assert SI.DenoteRest(items, RuleAt(site, url)) == [layer];
    assert [] + [layer] == [layer];
    OneRuleLive(SI.RuleItem("p{}"), LiveImport(site, inner, 1), RuleAt(site, inner));
    LayerThenImportLive(items, LiveImport(site, url, 0), RuleAt(site, url));
    assert LiveText(site, inner, 1) == [Rule(site.resolve(inner, "p{}"))];
    assert LiveImported(site, url, items[1].rule, 0) == LiveText(site, inner, 1);
  }

  lemma {:induction false} TwoRulesMeanTwo(css: Css)
    requires |css| <= 2 && forall i :: 0 <= i < |css| ==> css[i].Rule?
    ensures |Denote(css, [])| == |css|
  {
    if css != [] {
      TwoRulesMeanTwo(css[1..]);
    }
  }

  /** A page whose sheet loses an import to a layer statement, in a snapshot that says it is complete. */
  lemma {:induction false} HiddenImportIsLost(site: Site, env: Env, bytes: Css -> nat, url: string)
    requires Serves(site, env, [StyleWalk.Sheet.Sheet(url, false, false, "", [])])
    requires LayersThenImports(site, url) && url != "" && site.answers(url)
    requires var text := [Rule(site.resolve(url, "@layer a, b;"))];
             !site.tooLong(text) && bytes(text) <= MAX_SHEET_BYTES
    ensures var page := [StyleWalk.Sheet.Sheet(url, false, false, "", [])];
            && Capturable(env, bytes, page)
            && |Denote(Concatenated(SavedDocument(env, page)), [])| < |DenoteDocument(env, page, true)|
  {
    var sheet := StyleWalk.Sheet.Sheet(url, false, false, "", []);
    var part := FetchPart(url, "", []);
    var text := [Rule(site.resolve(url, "@layer a, b;"))];
    HiddenImportTexts(site, url);
    FlatMapOne(TopParts(env), sheet);
    assert DocumentParts(env, [sheet]) == [part];
    OnePartIsBounded(part);
    OnePartIsStorable(env, bytes, part);
    FlatMapOne(SavedPart(env), part);
    ConcatenatedMeans(SavedDocument(env, [sheet]));
    FlatMapOne(SheetMeaning, Captured(text, ""));
    FlatMapOne(TopMeaning(env, true), sheet);
    DenoteRaised(text, UnderMedia(""), []);
    DenoteRaised(env.holds(url), UnderMedia(""), []);
    assert UnderMedia("") + [] == UnderMedia("");
    TwoRulesMeanTwo(text);
    TwoRulesMeanTwo(env.holds(url));
  }
}
