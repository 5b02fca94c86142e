/** `_fetch` of `src/audit/crawler/style_snapshot.py` without its cache: the text of a sheet with its
    imports put in place, as one direct recursive fetch would give it. */
module SheetFetch {
  import opened Text
  import opened StyleText
  import opened SheetImports

  const MAX_IMPORT_DEPTH := 8

  /** How a sheet's address answers: not at all usefully, or with its leading imports and the text
      of its other rules, their addresses already absolute. */
  datatype Response = Unusable | Sheet(imports: seq<Import>, rest: Css)

  datatype Web = Web(
    respond: string -> Response,
    join: (string, string) -> string,
    length: Css -> nat,
    tooLong: Css -> bool,
    maxBytes: nat)

  function ImportsOf(w: Web, url: string): seq<Import> {
    match w.respond(url) case Sheet(imports, _) => imports case Unusable => []
  }

  function RestOf(w: Web, url: string): Css {
    match w.respond(url) case Sheet(_, rest) => rest case Unusable => []
  }

  function ConditionsOf(w: Web, url: string, i: nat): seq<Condition> {
    if i < |ImportsOf(w, url)| then ImportsOf(w, url)[i].conditions else []
  }

  function Target(w: Web, url: string, i: nat): string
    requires i < |ImportsOf(w, url)|
  {
    w.join(url, ImportsOf(w, url)[i].href)
  }

  /** The text of a sheet, `None` when it or any import cannot be had. */
  function Direct(w: Web, url: string, depth: nat): Option<Css>
    requires depth <= MAX_IMPORT_DEPTH
    decreases MAX_IMPORT_DEPTH - depth, |ImportsOf(w, url)| + 1
  {
    if w.respond(url).Unusable? then None else Closed(w, DirectFrom(w, url, 0, depth), RestOf(w, url))
  }

  function Closed(w: Web, pieces: Option<Css>, rest: Css): Option<Css> {
    if pieces.None? || w.tooLong(pieces.value + rest) then None else Some(pieces.value + rest)
  }

  /** The wrapped texts of the imports from the `k`th on. */
  function DirectFrom(w: Web, url: string, k: nat, depth: nat): Option<Css>
    requires depth <= MAX_IMPORT_DEPTH && k <= |ImportsOf(w, url)|
    decreases MAX_IMPORT_DEPTH - depth, |ImportsOf(w, url)| - k
  {
    if k == |ImportsOf(w, url)| then Some([])
    else if depth == MAX_IMPORT_DEPTH then None
    else Joined(DirectWrapped(w, url, k, depth), DirectFrom(w, url, k + 1, depth))
  }

  function DirectWrapped(w: Web, url: string, k: nat, depth: nat): Option<Css>
    requires depth < MAX_IMPORT_DEPTH && k < |ImportsOf(w, url)|
    decreases MAX_IMPORT_DEPTH - depth, 0
  {
    match Direct(w, Target(w, url, k), depth + 1)
    case Some(css) => Some(Wrapped(css, ConditionsOf(w, url, k)))
    case None => None
  }

  function Joined(a: Option<Css>, b: Option<Css>): Option<Css> {
    if a.Some? && b.Some? then Some(a.value + b.value) else None
  }

  lemma {:induction false} DirectFromWhen(w: Web, url: string, k: nat, depth: nat)
    requires depth <= 8 && k <= |ImportsOf(w, url)|
    ensures DirectFrom(w, url, k, depth).Some? <==>
              (k < |ImportsOf(w, url)| ==> depth < 8)
              && forall i :: depth < 8 && k <= i < |ImportsOf(w, url)| ==> Direct(w, Target(w, url, i), depth + 1).Some?
    decreases |ImportsOf(w, url)| - k
  {
    if k < |ImportsOf(w, url)| && depth < 8 {
      DirectFromWhen(w, url, k + 1, depth);
    }
  }

  /** A sheet can be had exactly when its address answers with one, everything it imports can be had one level deeper and
      no deeper than eight, and the whole text is not too long. */
  lemma {:induction false} DirectWhen(w: Web, url: string, depth: nat)
    requires depth <= 8
    ensures Direct(w, url, depth).Some? <==>
              && w.respond(url).Sheet? && (ImportsOf(w, url) != [] ==> depth < 8)
              && (forall i :: depth < 8 && 0 <= i < |ImportsOf(w, url)| ==> Direct(w, Target(w, url, i), depth + 1).Some?)
              && DirectFrom(w, url, 0, depth).Some?
              && !w.tooLong(DirectFrom(w, url, 0, depth).value + RestOf(w, url))
  {
    DirectFromWhen(w, url, 0, depth);
  }

  // --- Import chains ---

  /** No chain of imports below `url` is longer than `n`. */
  predicate Shallow(w: Web, url: string, n: nat)
    decreases n
  {
    forall i :: 0 <= i < |ImportsOf(w, url)| ==> n > 0 && Shallow(w, Target(w, url, i), n - 1)
  }

  lemma {:induction false} ShallowMore(w: Web, url: string, n: nat, m: nat)
    requires Shallow(w, url, n) && n <= m
    ensures Shallow(w, url, m)
    decreases n
  {
    forall i | 0 <= i < |ImportsOf(w, url)| ensures m > 0 && Shallow(w, Target(w, url, i), m - 1) {
      ShallowMore(w, Target(w, url, i), n - 1, m - 1);
    }
  }

  /** Where no chain is cut off, the depth of a request does not matter. */
  lemma {:induction false} DepthIsIrrelevant(w: Web, url: string, n: nat, d: nat, e: nat)
    requires Shallow(w, url, n) && d + n <= MAX_IMPORT_DEPTH && e + n <= MAX_IMPORT_DEPTH
    ensures Direct(w, url, d) == Direct(w, url, e)
    decreases n, |ImportsOf(w, url)| + 1
  {
    if w.respond(url).Sheet? {
      DepthIsIrrelevantFrom(w, url, 0, n, d, e);
    }
  }

  lemma {:induction false} DepthIsIrrelevantFrom(w: Web, url: string, k: nat, n: nat, d: nat, e: nat)
    requires Shallow(w, url, n) && d + n <= MAX_IMPORT_DEPTH && e + n <= MAX_IMPORT_DEPTH
    requires k <= |ImportsOf(w, url)|
    ensures DirectFrom(w, url, k, d) == DirectFrom(w, url, k, e)
    decreases n, |ImportsOf(w, url)| - k
  {
    if k < |ImportsOf(w, url)| {
      assert Shallow(w, Target(w, url, k), n - 1);
      DepthIsIrrelevant(w, Target(w, url, k), n - 1, d + 1, e + 1);
      DepthIsIrrelevantFrom(w, url, k + 1, n, d, e);
    }
  }

  // --- Meaning ---

  /** What the tree of imports below an address denotes: each import's rules under its conditions, then
      the sheet's own; chains end at the depth bound. */
  function TreeMeaning(w: Web, url: string, depth: nat, stack: seq<Condition>): seq<Styled>
    requires depth <= MAX_IMPORT_DEPTH
    decreases MAX_IMPORT_DEPTH - depth, |ImportsOf(w, url)| + 1
  {
    ImportsMeaning(w, url, 0, depth, stack) + Denote(RestOf(w, url), stack)
  }

  function ImportsMeaning(w: Web, url: string, k: nat, depth: nat, stack: seq<Condition>): seq<Styled>
    requires depth <= MAX_IMPORT_DEPTH && k <= |ImportsOf(w, url)|
    decreases MAX_IMPORT_DEPTH - depth, |ImportsOf(w, url)| - k
  {
    if k == |ImportsOf(w, url)| || depth == MAX_IMPORT_DEPTH then []
    else ImportMeaning(w, url, k, depth, stack) + ImportsMeaning(w, url, k + 1, depth, stack)
  }

  function ImportMeaning(w: Web, url: string, k: nat, depth: nat, stack: seq<Condition>): seq<Styled>
    requires depth < MAX_IMPORT_DEPTH && k < |ImportsOf(w, url)|
    decreases MAX_IMPORT_DEPTH - depth, 0
  {
    TreeMeaning(w, Target(w, url, k), depth + 1, stack + Stack(ConditionsOf(w, url, k)))
  }

  /** A fetched text means what its tree of imports means, rule by rule and in order. */
  lemma {:induction false} FetchKeepsMeaning(w: Web, url: string, depth: nat, stack: seq<Condition>)
    requires depth <= MAX_IMPORT_DEPTH && Direct(w, url, depth).Some?
    ensures Denote(Direct(w, url, depth).value, stack) == TreeMeaning(w, url, depth, stack)
    decreases MAX_IMPORT_DEPTH - depth, |ImportsOf(w, url)| + 1
  {
    var pieces := DirectFrom(w, url, 0, depth).value;
    PiecesKeepMeaning(w, url, 0, depth, stack);
    DenoteJoins(pieces, RestOf(w, url), stack);
  }

  lemma {:induction false} PiecesKeepMeaning(w: Web, url: string, k: nat, depth: nat, stack: seq<Condition>)
    requires depth <= MAX_IMPORT_DEPTH && k <= |ImportsOf(w, url)| && DirectFrom(w, url, k, depth).Some?
    ensures Denote(DirectFrom(w, url, k, depth).value, stack) == ImportsMeaning(w, url, k, depth, stack)
    decreases MAX_IMPORT_DEPTH - depth, |ImportsOf(w, url)| - k
  {
    if k < |ImportsOf(w, url)| {
      PieceKeepsMeaning(w, url, k, depth, stack);
      PiecesKeepMeaning(w, url, k + 1, depth, stack);
      DenoteJoins(DirectWrapped(w, url, k, depth).value, DirectFrom(w, url, k + 1, depth).value, stack);
    }
  }

  lemma {:induction false} PieceKeepsMeaning(w: Web, url: string, k: nat, depth: nat, stack: seq<Condition>)
    requires depth < MAX_IMPORT_DEPTH && k < |ImportsOf(w, url)| && DirectWrapped(w, url, k, depth).Some?
    ensures Denote(DirectWrapped(w, url, k, depth).value, stack) == ImportMeaning(w, url, k, depth, stack)
    decreases MAX_IMPORT_DEPTH - depth, 0
  {
    var inner := stack + Stack(ConditionsOf(w, url, k));
    FetchKeepsMeaning(w, Target(w, url, k), depth + 1, inner);
    DenoteWrapped(Direct(w, Target(w, url, k), depth + 1).value, ConditionsOf(w, url, k), stack);
  }
}
