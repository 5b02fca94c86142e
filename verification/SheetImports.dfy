/** `split_imports` of `src/audit/crawler/style_snapshot.py`: which rules of a fetched sheet count as
    imports. Comments and `@charset` rules are already gone from the items. */
module SheetImports {
  import opened Text
  import opened StyleText

  datatype Import = Import(href: string, conditions: seq<Condition>)

  datatype SheetItem = ImportItem(rule: Import) | LayerItem(text: string) | RuleItem(text: string)

  datatype Split = Split(imports: seq<Import>, rest: seq<SheetItem>)

  function WithoutImports(items: seq<SheetItem>): seq<SheetItem> {
    if items == [] then []
    else if items[0].ImportItem? then WithoutImports(items[1..])
    else [items[0]] + WithoutImports(items[1..])
  }

  /** The imports at the very front. */
  function LeadingImports(items: seq<SheetItem>): seq<Import> {
    if items == [] || !items[0].ImportItem? then [] else [items[0].rule] + LeadingImports(items[1..])
  }

  method SplitImports(items: seq<SheetItem>) returns (split: Split)
    ensures split.imports == LeadingImports(items)
    ensures split.rest == WithoutImports(items)
  {
    var imports: seq<Import> := [];
    var position := 0;
    assert items[0..] == items;
    while position < |items| && items[position].ImportItem?
      invariant position <= |items|
      invariant imports + LeadingImports(items[position..]) == LeadingImports(items)
      invariant WithoutImports(items[position..]) == WithoutImports(items)
    {
      AtPosition(items, position);
      imports := imports + [items[position].rule];
      position := position + 1;
    }
    var rest: seq<SheetItem> := [];
    for i := position to |items|
      invariant rest + WithoutImports(items[i..]) == WithoutImports(items)
    {
      AtPosition(items, i);
      if !items[i].ImportItem? {
        rest := rest + [items[i]];
      }
    }
    split := Split(imports, rest);
  }

  lemma {:induction false} AtPosition(items: seq<SheetItem>, i: nat)
    requires i < |items|
    ensures LeadingImports(items[i..]) ==
            if items[i].ImportItem? then [items[i].rule] + LeadingImports(items[i + 1..]) else []
    ensures WithoutImports(items[i..]) ==
            (if items[i].ImportItem? then [] else [items[i]]) + WithoutImports(items[i + 1..])
  {
    assert items[i..][1..] == items[i + 1..];
  }

  // --- What a browser takes as imports ---

  /** Imports before the first rule; `@layer` statements may come between them
      (section 2 of CSS Cascading and Inheritance Level 5). */
  function ValidImports(items: seq<SheetItem>): seq<Import> {
    if items == [] || items[0].RuleItem? then []
    else if items[0].LayerItem? then ValidImports(items[1..])
    else [items[0].rule] + ValidImports(items[1..])
  }

  /** An import the browser follows stands behind a `@layer` statement. */
  predicate ImportAfterLayer(items: seq<SheetItem>) {
    if items == [] || items[0].RuleItem? then false
    else if items[0].LayerItem? then ValidImports(items[1..]) != []
    else ImportAfterLayer(items[1..])
  }

  /** What the sheet is to a browser, `meaning` giving what each import stands for: imports count in
      place while they are valid, and `rule` gives what the other items stand for. */
  function DenoteLive<T>(items: seq<SheetItem>, meaning: Import -> seq<T>, rule: SheetItem -> T, open: bool): seq<T>
  {
    if items == [] then []
    else if items[0].ImportItem? then
      (if open then meaning(items[0].rule) else []) + DenoteLive(items[1..], meaning, rule, open)
    else [rule(items[0])] + DenoteLive(items[1..], meaning, rule, open && items[0].LayerItem?)
  }

  /** What the split denotes: the imports, then the rest. */
  function DenoteSplit<T>(split: Split, meaning: Import -> seq<T>, rule: SheetItem -> T): seq<T> {
    FlatMap(meaning, split.imports) + seq(|split.rest|, i requires 0 <= i < |split.rest| => rule(split.rest[i]))
  }

  function DenoteRest<T>(items: seq<SheetItem>, rule: SheetItem -> T): seq<T> {
    var rest := WithoutImports(items);
    seq(|rest|, i requires 0 <= i < |rest| => rule(rest[i]))
  }

  lemma {:induction false} DenoteRestStep<T>(items: seq<SheetItem>, rule: SheetItem -> T)
    requires items != []
    ensures DenoteRest(items, rule) ==
            if items[0].ImportItem? then DenoteRest(items[1..], rule) else [rule(items[0])] + DenoteRest(items[1..], rule)
  {
  }

  lemma {:induction false} ClosedDenotesRest<T>(
      items: seq<SheetItem>, meaning: Import -> seq<T>, rule: SheetItem -> T, open: bool)
    requires open ==> ValidImports(items) == []
    ensures DenoteLive(items, meaning, rule, open) == DenoteRest(items, rule)
    decreases |items|
  {
    if items != [] {
      DenoteRestStep(items, rule);
      ClosedDenotesRest(items[1..], meaning, rule, open && items[0].LayerItem?);
    }
  }

  /** The split keeps a sheet's meaning whenever no import stands behind a `@layer` statement. */
  lemma {:induction false} SplitKeepsMeaning<T>(
      items: seq<SheetItem>, meaning: Import -> seq<T>, rule: SheetItem -> T)
    requires !ImportAfterLayer(items)
    ensures DenoteSplit(Split(LeadingImports(items), WithoutImports(items)), meaning, rule) ==
            DenoteLive(items, meaning, rule, true)
    decreases |items|
  {
    if items != [] && items[0].ImportItem? {
      SplitKeepsMeaning(items[1..], meaning, rule);
      JoinAssociates(meaning(items[0].rule), FlatMap(meaning, LeadingImports(items[1..])), DenoteRest(items[1..], rule));
      assert LeadingImports(items)[1..] == LeadingImports(items[1..]);
    } else {
      ClosedDenotesRest(items, meaning, rule, true);
    }
  }

  /** Otherwise imports the browser follows are lost: the two lists of imports agree exactly then. */
  lemma {:induction false} SplitFindsAllImports(items: seq<SheetItem>)
    ensures LeadingImports(items) == ValidImports(items) <==> !ImportAfterLayer(items)
    ensures LeadingImports(items) <= ValidImports(items)
    decreases |items|
  {
    if items != [] && items[0].ImportItem? {
      SplitFindsAllImports(items[1..]);
      assert LeadingImports(items)[1..] == LeadingImports(items[1..]);
      assert ValidImports(items)[1..] == ValidImports(items[1..]);
    }
  }

  /** A sheet that orders its layers before importing loses its import. */
  lemma {:induction false} LayerStatementHidesImport(rule: Import)
    ensures var items := [LayerItem("@layer a, b;"), ImportItem(rule)];
            LeadingImports(items) == [] && ValidImports(items) == [rule] && ImportAfterLayer(items)
  {
    var items := [LayerItem("@layer a, b;"), ImportItem(rule)];
    assert items[1..] == [ImportItem(rule)] && items[1..][1..] == [];
    assert ValidImports(items[1..]) == [rule];
  }
}
