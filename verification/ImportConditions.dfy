/** `parse_import_conditions` of `src/audit/crawler/style_snapshot.py`: the text after an `@import`
    address, read as the conditions the imported rules stand under. */
module ImportConditions {
  import opened Text
  import opened StyleText

  // --- Reading ---

  /** What was recognised at the front, and the trimmed text after it. */
  datatype Taken = Taken(found: Option<string>, rest: string)

  predicate StartsWith(s: string, lowered: string) {
    |lowered| <= |s| && Lower(s[..|lowered|]) == lowered
  }

  predicate EndsWord(s: string, i: nat)
    requires i <= |s|
  {
    i == |s| || IsSpace(s[i])
  }

  const LAYER := "layer"
  const SUPPORTS := "supports("

  /** `layer` or `layer(name)`, ending at white space or the end of the text. */
  function TakeLayer(s: string): Taken {
    if !StartsWith(s, LAYER) then Taken(None, s)
    else if EndsWord(s, |LAYER|) then Taken(Some([]), Strip(s[|LAYER|..]))
    else
      var inner := s[|LAYER|..];
      var close := IndexOf(inner, ')');
      if inner[0] == '(' && close < |inner| && EndsWord(inner, close + 1)
      then Taken(Some(Strip(inner[1..close])), Strip(inner[close + 1..]))
      else Taken(None, s)
  }

  /** Where the bracket depth first returns to zero, or the length when it never does. */
  function Close(s: string, depth: int): (i: nat)
    ensures i <= |s|
  {
    if s == [] then 0
    else if s[0] == '(' then 1 + Close(s[1..], depth + 1)
    else if s[0] == ')' then if depth == 1 then 0 else 1 + Close(s[1..], depth - 1)
    else 1 + Close(s[1..], depth)
  }

  function TakeSupports(s: string): Taken {
    if !StartsWith(s, SUPPORTS) then Taken(None, s)
    else
      var inner := s[|SUPPORTS|..];
      var close := Close(inner, 1);
      if close == |inner| then Taken(None, s)
      else Taken(Some(Strip(inner[..close])), Strip(inner[close + 1..]))
  }

  /** Media outermost, then `supports`, then the layer. */
  function Ordered(layer: Option<string>, supports: Option<string>, media: string): seq<Condition> {
    (if media != [] && Lower(media) != "all" then [Media(media)] else [])
    + (if supports.Some? && supports.value != [] then [Supports(supports.value)] else [])
    + (if layer.Some? then [Layer(layer.value)] else [])
  }

  function Parsed(tail: string): seq<Condition> {
    var layer := TakeLayer(Strip(tail));
    var supports := TakeSupports(layer.rest);
    Ordered(layer.found, supports.found, supports.rest)
  }

  lemma {:induction false} CloseAt(s: string, i: nat, depth: int)
    requires i < |s|
    ensures Close(s[i..], depth) ==
            if s[i] == ')' && depth == 1 then 0
            else 1 + Close(s[i + 1..], depth + if s[i] == '(' then 1 else if s[i] == ')' then -1 else 0)
  {
    assert s[i..][1..] == s[i + 1..];
  }

  lemma {:induction false} TakenAt(s: string, i: nat)
    requires StartsWith(s, SUPPORTS) && 9 <= i < |s| && Close(s[9..], 1) == i - 9
    ensures TakeSupports(s) == Taken(Some(Strip(s[9..i])), Strip(s[i + 1..]))
  {
    assert s[9..][..i - 9] == s[9..i] && s[9..][i - 9 + 1..] == s[i + 1..];
  }

  /** The scan of the source over the whole text, from its first character. */
  method ScanSupports(s: string) returns (taken: Taken)
    requires StartsWith(s, SUPPORTS)
    ensures taken == TakeSupports(s)
  {
    var depth := 0;
    var i := 0;
    while i < |s|
      invariant i <= |s|
      invariant i <= 8 ==> depth == 0
      invariant i > 8 ==> depth >= 1 && Close(s[9..], 1) == i - 9 + Close(s[i..], depth)
    {
      PlainHead(s, i);
      CloseAt(s, i, depth);
      if s[i] == '(' {
        depth := depth + 1;
      } else if s[i] == ')' {
        depth := depth - 1;
        if depth == 0 {
          TakenAt(s, i);
          return Taken(Some(Strip(s[9..i])), Strip(s[i + 1..]));
        }
      }
      i := i + 1;
    }
    taken := Taken(None, s);
  }

  lemma {:induction false} PlainHead(s: string, i: nat)
    requires StartsWith(s, SUPPORTS) && i < |s|
    ensures i < 8 ==> s[i] != '(' && s[i] != ')'
    ensures i == 8 ==> s[i] == '('
  {
    if i <= 8 {
      assert LowerChar(s[i]) == Lower(s[..9])[i] == SUPPORTS[i];
    }
  }

  method Assemble(layer: Option<string>, supports: Option<string>, media: string) returns (out: seq<Condition>)
    ensures out == Ordered(layer, supports, media)
  {
    out := [];
    if media != [] && Lower(media) != "all" {
      out := out + [Media(media)];
    }
    if supports.Some? && supports.value != [] {
      out := out + [Supports(supports.value)];
    }
    if layer.Some? {
      out := out + [Layer(layer.value)];
    }
  }

  method ParseImportConditions(tail: string) returns (out: seq<Condition>)
    ensures out == Parsed(tail)
  {
    var layer := TakeLayer(Strip(tail));
    var supports := Taken(None, layer.rest);
    if StartsWith(layer.rest, SUPPORTS) {
      supports := ScanSupports(layer.rest);
    }
    out := Assemble(layer.found, supports.found, supports.rest);
  }

  // --- Printing ---

  function Spaced(a: string, b: string): string {
    if a == [] then b else if b == [] then a else a + [' '] + b
  }

  function LayerText(layer: Option<string>): string {
    match layer case None => [] case Some(name) => if name == [] then LAYER else LAYER + ['('] + name + [')']
  }

  function SupportsText(supports: Option<string>): string {
    match supports case None => [] case Some(condition) => SUPPORTS + condition + [')']
  }

  /** The tail of an `@import` as CSS writes it. */
  function Printed(layer: Option<string>, supports: Option<string>, media: string): string {
    Spaced(LayerText(layer), Spaced(SupportsText(supports), media))
  }

  predicate BalancedFrom(s: string, depth: nat) {
    if s == [] then depth == 0
    else if s[0] == '(' then BalancedFrom(s[1..], depth + 1)
    else if s[0] == ')' then depth > 0 && BalancedFrom(s[1..], depth - 1)
    else BalancedFrom(s[1..], depth)
  }

  /** Conditions as a style sheet can write them. */
  predicate Writable(layer: Option<string>, supports: Option<string>, media: string) {
    && (layer.Some? ==> Trimmed(layer.value) && ')' !in layer.value)
    && (supports.Some? ==> Trimmed(supports.value) && supports.value != [] && BalancedFrom(supports.value, 0))
    && Trimmed(media)
  }

  /** A media list that reads as a layer or a `supports` where none is written before it. */
  predicate ReadsOtherwise(layer: Option<string>, supports: Option<string>, media: string) {
    supports.None? && ((layer.None? && TakeLayer(media).found.Some?) || TakeSupports(media).found.Some?)
  }

  // --- Trimming ---

  lemma {:induction false} SpacedTrimmed(a: string, b: string)
    requires Trimmed(a) && Trimmed(b)
    ensures Trimmed(Spaced(a, b))
  {
  }

  lemma {:induction false} KeywordsAreText()
    ensures Trimmed(LAYER) && Trimmed(SUPPORTS) && Lower(LAYER) == LAYER && Lower(SUPPORTS) == SUPPORTS
    ensures LAYER[0] != SUPPORTS[0]
  {
  }

  // --- Reading what was printed ---

  function AfterSpace(rest: string): string {
    if rest == [] then [] else [' '] + rest
  }

  lemma {:induction false} StripAfterSpace(rest: string)
    requires Trimmed(rest)
    ensures Strip(AfterSpace(rest)) == rest
  {
    StripTrimmed(rest);
  }

  lemma {:induction false} LayerPrefix(s: string, after: string)
    requires s == LAYER + after
    ensures StartsWith(s, LAYER) && s[5..] == after
  {
    assert s[..5] == LAYER;
    KeywordsAreText();
  }

  lemma {:induction false} TakesBareLayer(rest: string)
    requires Trimmed(rest)
    ensures TakeLayer(Spaced(LAYER, rest)) == Taken(Some([]), rest)
  {
    assert Spaced(LAYER, rest) == LAYER + AfterSpace(rest);
    LayerPrefix(Spaced(LAYER, rest), AfterSpace(rest));
    StripAfterSpace(rest);
  }

  lemma {:induction false} NamedLayerIs(s: string, name: string, after: string)
    requires StartsWith(s, LAYER) && s[5..] == ['('] + name + [')'] + after && ')' !in name
    requires after == [] || IsSpace(after[0])
    ensures TakeLayer(s) == Taken(Some(Strip(name)), Strip(after))
  {
    var inner := s[5..];
    IndexOfIs(inner, ')', |name| + 1);
    assert inner[1..|name| + 1] == name && inner[|name| + 2..] == after;
    assert s[5] == inner[0] == '(';
  }

  /** A printed layer is taken, whatever follows it. */
  lemma {:induction false} TakesLayer(name: string, rest: string)
    requires Trimmed(name) && ')' !in name && Trimmed(rest)
    ensures TakeLayer(Spaced(LayerText(Some(name)), rest)) == Taken(Some(name), rest)
  {
    if name == [] {
      TakesBareLayer(rest);
    } else {
      var s := Spaced(LayerText(Some(name)), rest);
      assert s == LAYER + (['('] + name + [')'] + AfterSpace(rest));
      LayerPrefix(s, ['('] + name + [')'] + AfterSpace(rest));
      NamedLayerIs(s, name, AfterSpace(rest));
      StripTrimmed(name);
      StripAfterSpace(rest);
    }
  }

  lemma {:induction false} CloseOfBalanced(s: string, depth: nat, rest: string)
    requires BalancedFrom(s, depth)
    ensures Close(s + [')'] + rest, depth + 1) == |s|
    decreases |s|
  {
    var t := s + [')'] + rest;
    if s != [] {
      assert t[1..] == s[1..] + [')'] + rest;
      if s[0] == '(' {
        CloseOfBalanced(s[1..], depth + 1, rest);
      } else if s[0] == ')' {
        CloseOfBalanced(s[1..], depth - 1, rest);
      } else {
        CloseOfBalanced(s[1..], depth, rest);
      }
    }
  }

  lemma {:induction false} SupportsIs(s: string, condition: string, after: string)
    requires StartsWith(s, SUPPORTS) && s[9..] == condition + [')'] + after && BalancedFrom(condition, 0)
    ensures TakeSupports(s) == Taken(Some(Strip(condition)), Strip(after))
  {
    CloseOfBalanced(condition, 0, after);
    var inner := s[9..];
    assert inner[..|condition|] == condition && inner[|condition| + 1..] == after;
  }

  lemma {:induction false} SupportsSpaced(condition: string, rest: string)
    ensures Spaced(SupportsText(Some(condition)), rest) == SUPPORTS + (condition + [')'] + AfterSpace(rest))
  {
  }

  lemma {:induction false} TakesSupports(condition: string, rest: string)
    requires Trimmed(condition) && BalancedFrom(condition, 0) && Trimmed(rest)
    ensures TakeSupports(Spaced(SupportsText(Some(condition)), rest)) == Taken(Some(condition), rest)
  {
    var s := Spaced(SupportsText(Some(condition)), rest);
    SupportsSpaced(condition, rest);
    SupportsPrefix(s, condition + [')'] + AfterSpace(rest));
    SupportsIs(s, condition, AfterSpace(rest));
    StripTrimmed(condition);
    StripAfterSpace(rest);
  }

  lemma {:induction false} SupportsPrefix(s: string, after: string)
    requires s == SUPPORTS + after
    ensures StartsWith(s, SUPPORTS) && s[9..] == after
  {
    KeywordsAreText();
    assert s[..9] == SUPPORTS;
  }

  lemma {:induction false} NoLayerBeforeSupports(condition: string, rest: string)
    ensures TakeLayer(Spaced(SupportsText(Some(condition)), rest)).found.None?
  {
    var s := Spaced(SupportsText(Some(condition)), rest);
    KeywordsAreText();
    assert s[0] == SUPPORTS[0];
    assert Lower(s[..5])[0] == LowerChar(s[0]);
  }

  lemma {:induction false} PrintedIsTrimmed(layer: Option<string>, supports: Option<string>, media: string)
    requires Writable(layer, supports, media)
    ensures Strip(Printed(layer, supports, media)) == Printed(layer, supports, media)
    ensures Trimmed(Spaced(SupportsText(supports), media))
  {
    KeywordsAreText();
    SpacedTrimmed(SupportsText(supports), media);
    SpacedTrimmed(LayerText(layer), Spaced(SupportsText(supports), media));
    StripTrimmed(Printed(layer, supports, media));
  }

  /** The layer read from a printed tail is the one written, unless a bare media list reads as one. */
  lemma {:induction false} LayerRead(layer: Option<string>, supports: Option<string>, media: string)
    requires Writable(layer, supports, media)
    ensures var taken := TakeLayer(Printed(layer, supports, media));
            if layer.None? && supports.None? && TakeLayer(media).found.Some? then taken.found.Some?
            else taken == Taken(layer, Spaced(SupportsText(supports), media))
  {
    PrintedIsTrimmed(layer, supports, media);
    if layer.Some? {
      TakesLayer(layer.value, Spaced(SupportsText(supports), media));
    } else if supports.Some? {
      NoLayerBeforeSupports(supports.value, media);
    }
  }

  /** Two readings give the same conditions only when they agree on the layer and on the media list. */
  lemma {:induction false} OrderedTellsApart(layer: Option<string>, found: Option<string>, rest: string, media: string)
    requires found.Some? ==> |rest| < |media| && Lower(media) != "all"
    requires found.None? ==> rest == media
    ensures Ordered(layer, found, rest) == Ordered(layer, None, media) <==> found.None?
  {
    if found.Some? {
      var read := Ordered(layer, found, rest);
      assert Ordered(layer, None, media)[0] == Media(media);
      assert read == [] || read[0] != Media(media);
    }
  }

  lemma {:induction false} MisreadLayer(name: string, found: Option<string>, rest: string, media: string)
    ensures Ordered(Some(name), found, rest) != Ordered(None, None, media)
  {
    var read := Ordered(Some(name), found, rest);
    assert Layer(name) == read[|read| - 1];
  }

  /** What `parse_import_conditions` reads back from a printed tail: exactly the conditions written,
      unless the media list itself starts like a layer or a `supports` that was not written. */
  lemma {:induction false} ImportConditionsRoundTrip(layer: Option<string>, supports: Option<string>, media: string)
    requires Writable(layer, supports, media)
    ensures Parsed(Printed(layer, supports, media)) == Ordered(layer, supports, media)
            <==> !ReadsOtherwise(layer, supports, media)
  {
    PrintedIsTrimmed(layer, supports, media);
    LayerRead(layer, supports, media);
    if supports.Some? {
      TakesSupports(supports.value, media);
    } else if layer.None? && TakeLayer(media).found.Some? {
      var taken := TakeLayer(media);
      var more := TakeSupports(taken.rest);
      MisreadLayer(taken.found.value, more.found, more.rest, media);
    } else {
      SupportsShortens(media);
      var more := TakeSupports(media);
      OrderedTellsApart(layer, more.found, more.rest, media);
    }
  }

  /** Reading a `supports` leaves less text. */
  lemma {:induction false} SupportsShortens(s: string)
    ensures TakeSupports(s).found.Some? ==> |TakeSupports(s).rest| < |s| && Lower(s) != "all"
    ensures TakeSupports(s).found.None? ==> TakeSupports(s).rest == s
  {
    if TakeSupports(s).found.Some? {
      var inner := s[|SUPPORTS|..];
      StripFacts(inner[Close(inner, 1) + 1..]);
    }
  }

  lemma {:induction false} OrderedImposes(layer: Option<string>, supports: Option<string>, media: string)
    requires Trimmed(media)
    ensures Stack(Ordered(layer, supports, media)) ==
            UnderImport(media, if supports.Some? then supports.value else "", layer)
  {
    var m := if media != [] && Lower(media) != "all" then [Media(media)] else [];
    var s := if supports.Some? && supports.value != [] then [Supports(supports.value)] else [];
    var l := if layer.Some? then [Layer(layer.value)] else [];
    StripTrimmed(media);
    StackOne(Media(media));
    if supports.Some? {
      StackOne(Supports(supports.value));
    }
    if layer.Some? {
      StackOne(Layer(layer.value));
    }
    assert m + s + l == Ordered(layer, supports, media);
    StackJoins(m, s);
    StackJoins(m + s, l);
  }

  /** Wrapping with the conditions read back puts what the import imposes in CSS, and nothing else, before every
      rule's own conditions. */
  lemma {:induction false} WrappedByPrintedImport(layer: Option<string>, supports: Option<string>, media: string,
                               css: Css, stack: seq<Condition>)
    requires Writable(layer, supports, media) && !ReadsOtherwise(layer, supports, media)
    ensures Denote(Wrapped(css, Parsed(Printed(layer, supports, media))), stack) ==
            Denote(css, stack + UnderImport(media, if supports.Some? then supports.value else "", layer))
  {
    ImportConditionsRoundTrip(layer, supports, media);
    OrderedImposes(layer, supports, media);
    DenoteWrapped(css, Ordered(layer, supports, media), stack);
  }

  lemma {:induction false} FullTailIsPrinted(name: string, condition: string, media: string)
    requires name != [] && condition != [] && media != []
    ensures Printed(Some(name), Some(condition), media) ==
            ("layer(" + name + ")") + " " + (("supports(" + condition + ")") + " " + media)
  {
    assert LayerText(Some(name)) == "layer(" + name + ")";
    assert SupportsText(Some(condition)) == "supports(" + condition + ")";
  }

  /** A tail with all three conditions, spelled out. */
  lemma {:induction false} FullTailIsRead(name: string, condition: string, media: string)
    requires Trimmed(name) && name != [] && ')' !in name
    requires Trimmed(condition) && condition != [] && BalancedFrom(condition, 0)
    requires Trimmed(media) && media != [] && Lower(media) != "all"
    ensures Parsed(("layer(" + name + ")") + " " + (("supports(" + condition + ")") + " " + media)) ==
            [Media(media), Supports(condition), Layer(name)]
  {
    FullTailIsPrinted(name, condition, media);
    ImportConditionsRoundTrip(Some(name), Some(condition), media);
  }
}
