/** CSS text at the level of its rules, and what it means: every rule with the stack of conditions
    it stands under. `src/audit/crawler/style_snapshot.py` rewrites text; meanings must survive. */
module StyleText {
  import opened Text

  datatype Condition = Media(text: string) | Supports(text: string) | Layer(text: string)

  datatype Item = Rule(text: string) | Block(condition: Condition, body: Css)
  type Css = seq<Item>

  /** One rule and the conditions it applies under, outermost first. */
  datatype Styled = Styled(stack: seq<Condition>, rule: string)

  function Denote(css: Css, stack: seq<Condition>): seq<Styled> {
    if css == [] then [] else DenoteItem(css[0], stack) + Denote(css[1..], stack)
  }

  function DenoteItem(item: Item, stack: seq<Condition>): seq<Styled> {
    match item
    case Rule(text) => [Styled(stack, text)]
    case Block(condition, body) => Denote(body, stack + [condition])
  }

  // --- What conditions mean ---

  /** What a media text imposes in CSS: nothing when it is blank or `all`. */
  function UnderMedia(text: string): seq<Condition> {
    var media := Strip(text);
    if media == [] || Lower(media) == "all" then [] else [Media(media)]
  }

  /** What a `supports` text imposes: nothing when it is blank, and a bare declaration reads as if in brackets. */
  function UnderSupports(text: string): seq<Condition> {
    var test := Strip(text);
    if test == [] then [] else if test[0] == '(' then [Supports(test)] else [Supports("(" + test + ")")]
  }

  /** What a layer imposes; an empty name is an anonymous layer, which is a condition. */
  function UnderLayer(name: string): seq<Condition> {
    [Layer(Strip(name))]
  }

  /** What an import puts its rules under: its media, then `supports`, then its layer. */
  function UnderImport(media: string, supports: string, layer: Option<string>): seq<Condition> {
    (UnderMedia(media) + UnderSupports(supports)) + if layer.Some? then UnderLayer(layer.value) else []
  }

  function Imposed(c: Condition): seq<Condition> {
    match c
    case Media(text) => UnderMedia(text)
    case Supports(text) => UnderSupports(text)
    case Layer(name) => UnderLayer(name)
  }

  function Stack(conditions: seq<Condition>): seq<Condition> {
    FlatMap(Imposed, conditions)
  }

  lemma {:induction false} StackJoins(a: seq<Condition>, b: seq<Condition>)
    ensures Stack(a + b) == Stack(a) + Stack(b)
  {
    FlatMapJoins(Imposed, a, b);
  }

  lemma {:induction false} StackOne(c: Condition)
    ensures Stack([c]) == Imposed(c)
  {
    FlatMapOne(Imposed, c);
  }

  // --- Wrapping ---

  /** The at-rule `wrap_conditions` writes for a recorded condition, if it writes one. */
  function Effective(c: Condition): Option<Condition> {
    var text := Strip(c.text);
    match c
    case Media(_) => if text != [] && Lower(text) != "all" then Some(Media(text)) else None
    case Supports(_) =>
      if text != [] then Some(Supports(if "(" <= text then text else "(" + text + ")")) else None
    case Layer(_) => Some(Layer(text))
  }

  /** What is written is what the condition means. */
  lemma {:induction false} WrittenIsImposed(c: Condition)
    ensures Imposed(c) == match Effective(c) case Some(e) => [e] case None => []
  {
  }

  function WrapOne(css: Css, c: Condition): Css {
    match Effective(c) case Some(e) => [Block(e, css)] case None => css
  }

  /** Wrapped in `conditions`, the first outermost. */
  function Wrapped(css: Css, conditions: seq<Condition>): Css {
    if conditions == [] then css else WrapOne(Wrapped(css, conditions[1..]), conditions[0])
  }

  lemma {:induction false} WrappedLast(css: Css, conditions: seq<Condition>, c: Condition)
    ensures Wrapped(css, conditions + [c]) == Wrapped(WrapOne(css, c), conditions)
  {
    if conditions == [] {
      assert conditions + [c] == [c];
      assert [c][1..] == [];
    } else {
      WrappedLast(css, conditions[1..], c);
      assert (conditions + [c])[1..] == conditions[1..] + [c];
    }
  }

  lemma {:induction false} WrappedTake(css: Css, conditions: seq<Condition>, k: nat)
    requires k < |conditions|
    ensures Wrapped(css, conditions[..k + 1]) == Wrapped(WrapOne(css, conditions[k]), conditions[..k])
  {
    assert conditions[..k + 1] == conditions[..k] + [conditions[k]];
    WrappedLast(css, conditions[..k], conditions[k]);
  }

  method WrapConditions(css: Css, conditions: seq<Condition>) returns (r: Css)
    ensures r == Wrapped(css, conditions)
  {
    r := css;
    var k := |conditions|;
    assert conditions[..k] == conditions;
    while k > 0
      invariant k <= |conditions|
      invariant Wrapped(r, conditions[..k]) == Wrapped(css, conditions)
    {
      k := k - 1;
      WrappedTake(r, conditions, k);
      match Effective(conditions[k])
      case Some(c) => r := [Block(c, r)];
      case None =>
    }
  }

  lemma {:induction false} DenoteWrapOne(css: Css, c: Condition, stack: seq<Condition>)
    ensures Denote(WrapOne(css, c), stack) == Denote(css, stack + Stack([c]))
  {
    StackOne(c);
    WrittenIsImposed(c);
    match Effective(c)
    case Some(e) =>
      assert WrapOne(css, c)[1..] == [];
    case None =>
      assert stack + Stack([c]) == stack;
  }

  /** Wrapping puts exactly the effective conditions in front of every rule, and changes nothing else. */
  lemma {:induction false} DenoteWrapped(css: Css, conditions: seq<Condition>, stack: seq<Condition>)
    ensures Denote(Wrapped(css, conditions), stack) == Denote(css, stack + Stack(conditions))
  {
    if conditions == [] {
      assert stack + Stack(conditions) == stack;
    } else {
      var c := conditions[0];
      DenoteWrapOne(Wrapped(css, conditions[1..]), c, stack);
      DenoteWrapped(css, conditions[1..], stack + Stack([c]));
      StackFirst(conditions);
      JoinAssociates(stack, Stack([c]), Stack(conditions[1..]));
    }
  }

  /** A rule wrapped in one condition stands under the condition as CSS reads it, in brackets where the text has
      none; blank texts and media `all` are no condition, and a layer always is. */
  lemma {:induction false} WrappedRuleStandsUnder(rule: string, text: string, stack: seq<Condition>)
    ensures var t := Strip(text);
            && Denote(Wrapped([Rule(rule)], [Media(text)]), stack) ==
                 [Styled(if t == "" || Lower(t) == "all" then stack else stack + [Media(t)], rule)]
            && Denote(Wrapped([Rule(rule)], [Supports(text)]), stack) ==
                 [Styled(if t == "" then stack else stack + [Supports(if t[0] == '(' then t else "(" + t + ")")], rule)]
            && Denote(Wrapped([Rule(rule)], [Layer(text)]), stack) == [Styled(stack + [Layer(t)], rule)]
  {
    OneRuleUnder(rule, Media(text), stack);
    OneRuleUnder(rule, Supports(text), stack);
    OneRuleUnder(rule, Layer(text), stack);
    assert stack + [] == stack;
  }

  lemma {:induction false} OneRuleUnder(rule: string, c: Condition, stack: seq<Condition>)
    ensures Denote(Wrapped([Rule(rule)], [c]), stack) == [Styled(stack + Imposed(c), rule)]
  {
    DenoteWrapped([Rule(rule)], [c], stack);
    StackOne(c);
    assert [Rule(rule)][1..] == [];
  }

  lemma {:induction false} StackFirst(conditions: seq<Condition>)
    requires conditions != []
    ensures Stack(conditions) == Stack([conditions[0]]) + Stack(conditions[1..])
  {
    StackJoins([conditions[0]], conditions[1..]);
    assert [conditions[0]] + conditions[1..] == conditions;
  }

  lemma {:induction false} DenoteJoins(a: Css, b: Css, stack: seq<Condition>)
    ensures Denote(a + b, stack) == Denote(a, stack) + Denote(b, stack)
  {
    if a == [] {
      assert a + b == b;
    } else {
      DenoteJoins(a[1..], b, stack);
      DenoteFirst(a, stack);
      DenoteFirst(a + b, stack);
      assert (a + b)[1..] == a[1..] + b;
      JoinAssociates(DenoteItem(a[0], stack), Denote(a[1..], stack), Denote(b, stack));
    }
  }

  lemma {:induction false} DenoteFirst(css: Css, stack: seq<Condition>)
    requires css != []
    ensures Denote(css, stack) == DenoteItem(css[0], stack) + Denote(css[1..], stack)
  {
  }

  // --- Meanings under other conditions ---

  function Raised(outer: seq<Condition>, rules: seq<Styled>): seq<Styled> {
    seq(|rules|, i requires 0 <= i < |rules| => Styled(outer + rules[i].stack, rules[i].rule))
  }

  lemma {:induction false} RaisedJoins(outer: seq<Condition>, a: seq<Styled>, b: seq<Styled>)
    ensures Raised(outer, a + b) == Raised(outer, a) + Raised(outer, b)
  {
  }

  lemma {:induction false} DenoteRaised(css: Css, outer: seq<Condition>, stack: seq<Condition>)
    ensures Denote(css, outer + stack) == Raised(outer, Denote(css, stack))
    decreases css
  {
    if css != [] {
      DenoteRaised(css[1..], outer, stack);
      RaisedJoins(outer, DenoteItem(css[0], stack), Denote(css[1..], stack));
      match css[0]
      case Rule(_) =>
      case Block(condition, body) =>
        DenoteRaised(body, outer, stack + [condition]);
        assert (outer + stack) + [condition] == outer + (stack + [condition]);
    }
  }

  /** Texts that mean the same mean the same under any conditions. */
  lemma {:induction false} SameAnywhere(a: Css, b: Css, stack: seq<Condition>)
    requires Denote(a, []) == Denote(b, [])
    ensures Denote(a, stack) == Denote(b, stack)
  {
    DenoteRaised(a, stack, []);
    DenoteRaised(b, stack, []);
    assert stack + [] == stack;
  }

  // --- Concatenating captured sheets ---

  datatype Captured = Captured(css: Css, media: string)

  function Concatenated(sheets: seq<Captured>): Css {
    if sheets == [] then []
    else Concatenated(sheets[..|sheets| - 1]) + WrapOne(Last(sheets).css, Media(Last(sheets).media))
  }

  function Last<T>(s: seq<T>): T
    requires s != []
  {
    s[|s| - 1]
  }

  method Concatenate(sheets: seq<Captured>) returns (css: Css)
    ensures css == Concatenated(sheets)
  {
    css := [];
    for i := 0 to |sheets|
      invariant css == Concatenated(sheets[..i])
    {
      assert sheets[..i + 1][..i] == sheets[..i];
      var media := Strip(sheets[i].media);
      if media != [] && Lower(media) != "all" {
        css := css + [Block(Media(media), sheets[i].css)];
      } else {
        css := css + sheets[i].css;
      }
    }
    assert sheets[..|sheets|] == sheets;
  }

  lemma {:induction false} DenoteNext(sheets: seq<Captured>, s: Captured)
    ensures Denote(Concatenated(sheets + [s]), []) ==
            Denote(Concatenated(sheets), []) + Denote(s.css, UnderMedia(s.media))
  {
    var all := sheets + [s];
    assert all[..|all| - 1] == sheets;
    var wrapped := WrapOne(s.css, Media(s.media));
    DenoteJoins(Concatenated(sheets), wrapped, []);
    DenoteWrapOne(s.css, Media(s.media), []);
    StackOne(Media(s.media));
    assert [] + UnderMedia(s.media) == UnderMedia(s.media);
  }

  /** What one captured sheet adds to the page. */
  function SheetMeaning(s: Captured): seq<Styled> {
    Denote(s.css, UnderMedia(s.media))
  }

  lemma {:induction false} ConcatenatedMeans(sheets: seq<Captured>)
    ensures Denote(Concatenated(sheets), []) == FlatMap(SheetMeaning, sheets)
    decreases |sheets|
  {
    if sheets != [] {
      var init, last := sheets[..|sheets| - 1], Last(sheets);
      assert sheets == init + [last];
      ConcatenatedMeans(init);
      DenoteNext(init, last);
      FlatMapJoins(SheetMeaning, init, [last]);
      FlatMapOne(SheetMeaning, last);
    }
  }

  // --- Losing rules ---

  /** `a` is `b` with some entries left out. */
  predicate Subsequence<T(==)>(a: seq<T>, b: seq<T>) {
    || a == []
    || (b != [] && ((a[0] == b[0] && Subsequence(a[1..], b[1..])) || Subsequence(a, b[1..])))
  }

  lemma {:induction false} SubsequenceOfItself<T>(a: seq<T>)
    ensures Subsequence(a, a)
  {
    if a != [] {
      SubsequenceOfItself(a[1..]);
    }
  }

  lemma {:induction false} SubsequenceJoins<T>(a: seq<T>, b: seq<T>, c: seq<T>, d: seq<T>)
    requires Subsequence(a, b) && Subsequence(c, d)
    ensures Subsequence(a + c, b + d)
    decreases |b|
  {
    if b == [] {
      assert a + c == c && b + d == d;
    } else {
      assert (b + d)[1..] == b[1..] + d;
      if a != [] && a[0] == b[0] && Subsequence(a[1..], b[1..]) {
        SubsequenceJoins(a[1..], b[1..], c, d);
        assert (a + c)[1..] == a[1..] + c;
      } else {
        SubsequenceJoins(a, b[1..], c, d);
      }
    }
  }

  lemma {:induction false} SubsequenceTransitive<T>(a: seq<T>, b: seq<T>, c: seq<T>)
    requires Subsequence(a, b) && Subsequence(b, c)
    ensures Subsequence(a, c)
    decreases |b| + |c|
  {
    if a != [] {
      if b[0] == c[0] && Subsequence(b[1..], c[1..]) {
        if a[0] == b[0] && Subsequence(a[1..], b[1..]) {
          SubsequenceTransitive(a[1..], b[1..], c[1..]);
        } else {
          SubsequenceTransitive(a, b[1..], c[1..]);
        }
      } else {
        SubsequenceTransitive(a, b, c[1..]);
      }
    }
  }

  /** `a` is `b` with entries left out, and with none left out unless `lossy`. */
  predicate Loses<T(==)>(a: seq<T>, b: seq<T>, lossy: bool) {
    Subsequence(a, b) && (!lossy ==> a == b)
  }

  lemma {:induction false} LosesJoins<T>(a: seq<T>, b: seq<T>, c: seq<T>, d: seq<T>, p: bool, q: bool)
    requires Loses(a, b, p) && Loses(c, d, q)
    ensures Loses(a + c, b + d, p || q)
  {
    SubsequenceJoins(a, b, c, d);
  }

  /** `after` is `before` with part of `full` added, and all of it unless something was lost. */
  predicate Adds<T(==)>(before: seq<T>, after: seq<T>, full: seq<T>, lossy: bool) {
    && before <= after
    && Subsequence(after[|before|..], full)
    && (!lossy ==> after == before + full)
  }

  lemma {:induction false} AddsNothing<T>(before: seq<T>, full: seq<T>, lossy: bool)
    requires lossy || full == []
    ensures Adds(before, before, full, lossy)
  {
    assert before[|before|..] == [];
  }

  lemma {:induction false} AddsAll<T>(before: seq<T>, full: seq<T>, lossy: bool)
    ensures Adds(before, before + full, full, lossy)
  {
    assert (before + full)[|before|..] == full;
    SubsequenceOfItself(full);
  }

  lemma {:induction false} AddsMore<T>(a: seq<T>, b: seq<T>, c: seq<T>, x: seq<T>, y: seq<T>, lossy: bool, lossier: bool)
    requires Adds(a, b, x, lossy) && Adds(b, c, y, lossier) && (lossy ==> lossier)
    ensures Adds(a, c, x + y, lossier)
  {
    SubsequenceJoins(b[|a|..], x, c[|b|..], y);
    assert c[|a|..] == b[|a|..] + c[|b|..];
    if !lossier {
      assert (a + x) + y == a + (x + y);
    }
  }

  /** Entries left out take what they stand for with them and nothing else. */
  lemma {:induction false} FlatMapThins<A, B>(f: A -> seq<B>, a: seq<A>, b: seq<A>)
    requires Subsequence(a, b)
    ensures Subsequence(FlatMap(f, a), FlatMap(f, b))
    decreases |b|
  {
    if a != [] {
      if a[0] == b[0] && Subsequence(a[1..], b[1..]) {
        SubsequenceOfItself(f(a[0]));
        FlatMapThins(f, a[1..], b[1..]);
        SubsequenceJoins(f(a[0]), f(a[0]), FlatMap(f, a[1..]), FlatMap(f, b[1..]));
      } else {
        FlatMapThins(f, a, b[1..]);
        SubsequenceJoins([], f(b[0]), FlatMap(f, a), FlatMap(f, b[1..]));
        assert [] + FlatMap(f, a) == FlatMap(f, a);
      }
    }
  }
}
