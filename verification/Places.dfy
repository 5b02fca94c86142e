/** `src/audit/extractor/places.py`: an element is named by counting, and the count must be the one the
    inspector's browser makes on the copy it shows. */
module Places {
  import opened Text

  datatype Attrs = Attrs(src: Option<string>, srcset: Option<string>)

  // --- Documents ---

  /** The page as its bytes describe it; `id` tells elements apart. */
  datatype Node = Node(id: nat, tag: string, attrs: Attrs, children: seq<Node>)

  /** The parsed page: elements in document order, each with its parent's position. */
  datatype Element = Element(id: nat, tag: string, attrs: Attrs, parent: Option<nat>)
  type Document = seq<Element>

  predicate Rooted(doc: Document) {
    RootedFrom(doc, 0)
  }

  /** Every parent comes before its child, for a stretch that starts at position `base`. */
  predicate RootedFrom(doc: Document, base: nat) {
    forall i :: 0 <= i < |doc| && doc[i].parent.Some? ==> doc[i].parent.value < base + i
  }

  /** What the parser makes of a list of siblings, starting at position `base`. */
  function Parsed(nodes: seq<Node>, parent: Option<nat>, base: nat): Document
    decreases nodes
  {
    if nodes == [] then []
    else
      var first := ParsedNode(nodes[0], parent, base);
      first + Parsed(nodes[1..], parent, base + |first|)
  }

  function ParsedNode(node: Node, parent: Option<nat>, base: nat): (doc: Document)
    ensures doc != []
    decreases node
  {
    [Element(node.id, node.tag, node.attrs, parent)] + Parsed(node.children, Some(base), base + 1)
  }

  datatype Selector = Type(tag: string) | Child(parent: string, tag: string)

  predicate Matches(selector: Selector, tag: string, parent: Option<string>) {
    tag == selector.tag && (selector.Child? ==> parent == Some(selector.parent))
  }

  function ParentTag(doc: Document, parent: Option<nat>): Option<string>
    requires parent.Some? ==> parent.value < |doc|
  {
    if parent.Some? then Some(doc[parent.value].tag) else None
  }

  // --- What the inspector's browser counts ---

  predicate DropsContent(tag: string) {
    tag == "template" || tag == "noscript"
  }

  /** The copy on show: `noscript` is removed, and a template's content is not in the document. */
  function Shown(nodes: seq<Node>): seq<Node>
    decreases nodes
  {
    if nodes == [] then [] else ShownNode(nodes[0]) + Shown(nodes[1..])
  }

  function ShownNode(node: Node): seq<Node>
    decreases node
  {
    if node.tag == "noscript" then []
    else if node.tag == "template" then [node.(children := [])]
    else [node.(children := Shown(node.children))]
  }

  /** The elements a selector matches, in document order. */
  function Selected(nodes: seq<Node>, parent: Option<string>, selector: Selector): seq<nat>
    decreases nodes
  {
    if nodes == [] then [] else SelectedAt(nodes[0], parent, selector) + Selected(nodes[1..], parent, selector)
  }

  function SelectedAt(node: Node, parent: Option<string>, selector: Selector): seq<nat>
    decreases node
  {
    (if Matches(selector, node.tag, parent) then [node.id] else [])
    + Selected(node.children, Some(node.tag), selector)
  }

  // --- hidden_from_inspector ---

  predicate Hidden(doc: Document, i: nat)
    requires Rooted(doc) && i < |doc|
  {
    HiddenBelow(doc, doc[i].parent)
  }

  /** Whether what stands under `parent` is hidden. */
  predicate HiddenBelow(doc: Document, parent: Option<nat>)
    requires Rooted(doc) && (parent.Some? ==> parent.value < |doc|)
    decreases if parent.Some? then parent.value + 1 else 0
  {
    parent.Some? && (DropsContent(doc[parent.value].tag) || HiddenBelow(doc, doc[parent.value].parent))
  }

  method HiddenFromInspector(doc: Document, i: nat) returns (hidden: bool)
    requires Rooted(doc) && i < |doc|
    ensures hidden == Hidden(doc, i)
  {
    var parent: Option<nat> := doc[i].parent;
    while parent.Some?
      invariant parent.Some? ==> parent.value < |doc|
      invariant HiddenBelow(doc, parent) == Hidden(doc, i)
      decreases if parent.Some? then parent.value + 1 else 0
    {
      if DropsContent(doc[parent.value].tag) {
        return true;
      }
      parent := doc[parent.value].parent;
    }
    return false;
  }

  // --- Counting ---

  predicate IsLive(doc: Document, selector: Selector, i: nat)
    requires Rooted(doc) && i < |doc|
  {
    Matches(selector, doc[i].tag, ParentTag(doc, doc[i].parent)) && !Hidden(doc, i)
  }

  /** Positions from `lo` up to `hi` that count. */
  function Live(doc: Document, selector: Selector, lo: nat, hi: nat): (r: seq<nat>)
    requires Rooted(doc) && lo <= hi <= |doc|
    ensures forall k :: 0 <= k < |r| ==> lo <= r[k] < hi && IsLive(doc, selector, r[k])
    ensures forall j, k :: 0 <= j < k < |r| ==> r[j] < r[k]
  {
    if lo == hi then []
    else Live(doc, selector, lo, hi - 1) + if IsLive(doc, selector, hi - 1) then [hi - 1] else []
  }

  lemma {:induction false} LiveHasAll(doc: Document, selector: Selector, lo: nat, hi: nat, i: nat)
    requires Rooted(doc) && lo <= i < hi <= |doc| && IsLive(doc, selector, i)
    ensures i in Live(doc, selector, lo, hi)
  {
    if i < hi - 1 {
      LiveHasAll(doc, selector, lo, hi - 1, i);
    }
  }

  datatype Place = Place(selector: Selector, index: nat, total: nat)

  function Position(s: seq<nat>, x: nat): (i: nat)
    requires x in s
    ensures i < |s| && s[i] == x
  {
    if s[0] == x then 0 else 1 + Position(s[1..], x)
  }

  function PlaceOf(doc: Document, i: nat, selector: Selector): Option<Place>
    requires Rooted(doc)
  {
    var live := Live(doc, selector, 0, |doc|);
    if i in live then Some(Place(selector, Position(live, i), |live|)) else None
  }

  /** `index` gives each of the `total` entries of `live` its place. */
  predicate Numbered(live: seq<nat>, index: map<nat, nat>, total: nat) {
    && total == |live|
    && (forall k :: 0 <= k < |live| ==> live[k] in index)
    && (forall n :: n in index ==> index[n] < total && live[index[n]] == n)
  }

  lemma {:induction false} NumberedNext(live: seq<nat>, index: map<nat, nat>, total: nat, n: nat)
    requires Numbered(live, index, total) && n !in live
    ensures Numbered(live + [n], index[n := total], total + 1)
  {
    var more := live + [n];
    forall k | 0 <= k < |more| ensures more[k] in index[n := total] {
      assert k < |live| ==> more[k] == live[k];
    }
  }

  lemma {:induction false} PlaceFromCount(doc: Document, selector: Selector, index: map<nat, nat>, total: nat, i: nat)
    requires Rooted(doc) && Numbered(Live(doc, selector, 0, |doc|), index, total)
    ensures PlaceOf(doc, i, selector) == if i in index then Some(Place(selector, index[i], total)) else None
  {
  }

  class Finder {
    const doc: Document
    var indexes: map<Selector, map<nat, nat>>
    var totals: map<Selector, nat>

    constructor (doc: Document)
      requires Rooted(doc)
      ensures this.doc == doc && Valid()
    {
      this.doc := doc;
      indexes, totals := map[], map[];
    }

    ghost predicate Valid()
      reads this
    {
      Rooted(doc) && indexes.Keys == totals.Keys && forall s :: s in indexes ==> Counted(s, indexes[s], totals[s])
    }

    ghost predicate Counted(selector: Selector, index: map<nat, nat>, total: nat)
      requires Rooted(doc)
    {
      Numbered(Live(doc, selector, 0, |doc|), index, total)
    }

    /** The elements that count for `selector`, numbered. */
    method Count(selector: Selector) returns (index: map<nat, nat>, total: nat)
      requires Rooted(doc)
      ensures Counted(selector, index, total)
    {
      index, total := map[], 0;
      for i := 0 to |doc|
        invariant Numbered(Live(doc, selector, 0, i), index, total)
      {
        if Matches(selector, doc[i].tag, ParentTag(doc, doc[i].parent)) {
          var hidden := HiddenFromInspector(doc, i);
          if !hidden {
            NumberedNext(Live(doc, selector, 0, i), index, total, i);
            index := index[i := total];
            total := total + 1;
          }
        }
      }
    }

    /** Whatever was asked before, the answer is the element's place in the whole document. */
    method Of(i: nat, selector: Selector) returns (place: Option<Place>)
      requires Valid()
      modifies this
      ensures Valid() && place == PlaceOf(doc, i, selector)
    {
      if selector !in indexes {
        var index, total := Count(selector);
        indexes, totals := indexes[selector := index], totals[selector := total];
      }
      PlaceFromCount(doc, selector, indexes[selector], totals[selector], i);
      if i !in indexes[selector] {
        return None;
      }
      return Some(Place(selector, indexes[selector][i], totals[selector]));
    }
  }

  // --- Pruning keeps every count ---

  /** The ids of the live elements, read off the tree. */
  function LiveIn(nodes: seq<Node>, parent: Option<string>, hidden: bool, selector: Selector): seq<nat>
    decreases nodes
  {
    if nodes == [] then []
    else LiveAt(nodes[0], parent, hidden, selector) + LiveIn(nodes[1..], parent, hidden, selector)
  }

  function LiveAt(node: Node, parent: Option<string>, hidden: bool, selector: Selector): seq<nat>
    decreases node
  {
    (if Matches(selector, node.tag, parent) && !hidden then [node.id] else [])
    + LiveIn(node.children, Some(node.tag), hidden || DropsContent(node.tag), selector)
  }

  function IdsAt(doc: Document, positions: seq<nat>): seq<nat>
    requires forall k :: 0 <= k < |positions| ==> positions[k] < |doc|
  {
    seq(|positions|, k requires 0 <= k < |positions| => doc[positions[k]].id)
  }

  function LiveIds(doc: Document, selector: Selector, lo: nat, hi: nat): seq<nat>
    requires Rooted(doc) && lo <= hi <= |doc|
  {
    IdsAt(doc, Live(doc, selector, lo, hi))
  }

  lemma {:induction false} LiveJoins(doc: Document, selector: Selector, lo: nat, mid: nat, hi: nat)
    requires Rooted(doc) && lo <= mid <= hi <= |doc|
    ensures Live(doc, selector, lo, hi) == Live(doc, selector, lo, mid) + Live(doc, selector, mid, hi)
    decreases hi - mid
  {
    if mid < hi {
      LiveJoins(doc, selector, lo, mid, hi - 1);
      JoinAssociates(Live(doc, selector, lo, mid), Live(doc, selector, mid, hi - 1),
                     if IsLive(doc, selector, hi - 1) then [hi - 1] else []);
    }
  }

  lemma {:induction false} LiveIdsJoin(doc: Document, selector: Selector, lo: nat, mid: nat, hi: nat)
    requires Rooted(doc) && lo <= mid <= hi <= |doc|
    ensures LiveIds(doc, selector, lo, hi) == LiveIds(doc, selector, lo, mid) + LiveIds(doc, selector, mid, hi)
  {
    LiveJoins(doc, selector, lo, mid, hi);
  }

  /** A stretch of the document that was parsed from `nodes`. */
  predicate IsParsed(doc: Document, nodes: seq<Node>, parent: Option<nat>, lo: nat, hi: nat) {
    && lo <= hi <= |doc| && (parent.Some? ==> parent.value < lo)
    && doc[lo..hi] == Parsed(nodes, parent, lo)
  }

  predicate IsParsedNode(doc: Document, node: Node, parent: Option<nat>, lo: nat, hi: nat) {
    && lo <= hi <= |doc| && (parent.Some? ==> parent.value < lo)
    && doc[lo..hi] == ParsedNode(node, parent, lo)
  }

  lemma {:induction false} LiveOfParsed(
      doc: Document, nodes: seq<Node>, parent: Option<nat>, lo: nat, hi: nat, selector: Selector)
    requires Rooted(doc) && IsParsed(doc, nodes, parent, lo, hi)
    ensures LiveIds(doc, selector, lo, hi) ==
            LiveIn(nodes, ParentTag(doc, parent), HiddenBelow(doc, parent), selector)
    decreases nodes
  {
    if nodes == [] {
      ParsedNothing(doc, parent, lo, hi);
    } else {
      var mid := lo + |ParsedNode(nodes[0], parent, lo)|;
      ParsedSplits(doc, nodes, parent, lo, hi);
      LiveOfParsedNode(doc, nodes[0], parent, lo, mid, selector);
      LiveOfParsed(doc, nodes[1..], parent, mid, hi, selector);
      LiveInJoins(doc, nodes, parent, lo, mid, hi, selector);
    }
  }

  lemma {:induction false} LiveInJoins(
      doc: Document, nodes: seq<Node>, parent: Option<nat>, lo: nat, mid: nat, hi: nat, selector: Selector)
    requires Rooted(doc) && lo <= mid <= hi <= |doc| && nodes != [] && (parent.Some? ==> parent.value < |doc|)
    requires var tag, hidden := ParentTag(doc, parent), HiddenBelow(doc, parent);
             && LiveIds(doc, selector, lo, mid) == LiveAt(nodes[0], tag, hidden, selector)
             && LiveIds(doc, selector, mid, hi) == LiveIn(nodes[1..], tag, hidden, selector)
    ensures LiveIds(doc, selector, lo, hi) ==
            LiveIn(nodes, ParentTag(doc, parent), HiddenBelow(doc, parent), selector)
  {
    LiveIdsJoin(doc, selector, lo, mid, hi);
    LiveInFirst(nodes, ParentTag(doc, parent), HiddenBelow(doc, parent), selector);
  }

  lemma {:induction false} ParsedNothing(doc: Document, parent: Option<nat>, lo: nat, hi: nat)
    requires IsParsed(doc, [], parent, lo, hi)
    ensures lo == hi
  {
    assert |doc[lo..hi]| == 0;
  }

  lemma {:induction false} LiveInFirst(nodes: seq<Node>, parent: Option<string>, hidden: bool, selector: Selector)
    requires nodes != []
    ensures LiveIn(nodes, parent, hidden, selector) ==
            LiveAt(nodes[0], parent, hidden, selector) + LiveIn(nodes[1..], parent, hidden, selector)
  {
  }

  lemma {:induction false} ParsedSplits(doc: Document, nodes: seq<Node>, parent: Option<nat>, lo: nat, hi: nat)
    requires IsParsed(doc, nodes, parent, lo, hi) && nodes != []
    ensures var mid := lo + |ParsedNode(nodes[0], parent, lo)|;
            IsParsedNode(doc, nodes[0], parent, lo, mid) && IsParsed(doc, nodes[1..], parent, mid, hi)
  {
    var first := ParsedNode(nodes[0], parent, lo);
    var mid := lo + |first|;
    assert doc[lo..mid] == doc[lo..hi][..|first|];
    assert doc[mid..hi] == doc[lo..hi][|first|..];
  }

  lemma {:induction false} ParsedNodeSplits(doc: Document, node: Node, parent: Option<nat>, lo: nat, hi: nat)
    requires IsParsedNode(doc, node, parent, lo, hi)
    ensures lo < hi && doc[lo] == Element(node.id, node.tag, node.attrs, parent)
    ensures IsParsed(doc, node.children, Some(lo), lo + 1, hi)
  {
    assert doc[lo] == doc[lo..hi][0];
    assert doc[lo + 1..hi] == doc[lo..hi][1..];
  }

  lemma {:induction false} LiveOne(doc: Document, selector: Selector, lo: nat)
    requires Rooted(doc) && lo < |doc|
    ensures LiveIds(doc, selector, lo, lo + 1) == if IsLive(doc, selector, lo) then [doc[lo].id] else []
  {
    assert Live(doc, selector, lo, lo) == [];
  }

  lemma {:induction false} LiveOfParsedNode(
      doc: Document, node: Node, parent: Option<nat>, lo: nat, hi: nat, selector: Selector)
    requires Rooted(doc) && IsParsedNode(doc, node, parent, lo, hi)
    ensures LiveIds(doc, selector, lo, hi) ==
            LiveAt(node, ParentTag(doc, parent), HiddenBelow(doc, parent), selector)
    decreases node
  {
    ParsedNodeSplits(doc, node, parent, lo, hi);
    LiveOfParsed(doc, node.children, Some(lo), lo + 1, hi, selector);
    LiveIdsJoin(doc, selector, lo, lo + 1, hi);
    LiveOne(doc, selector, lo);
  }

  lemma {:induction false} ParsedIsRooted(nodes: seq<Node>, parent: Option<nat>, base: nat)
    requires parent.Some? ==> parent.value < base
    ensures RootedFrom(Parsed(nodes, parent, base), base)
    decreases nodes
  {
    if nodes != [] {
      var first := ParsedNode(nodes[0], parent, base);
      ParsedNodeIsRooted(nodes[0], parent, base);
      ParsedIsRooted(nodes[1..], parent, base + |first|);
    }
  }

  lemma {:induction false} ParsedNodeIsRooted(node: Node, parent: Option<nat>, base: nat)
    requires parent.Some? ==> parent.value < base
    ensures RootedFrom(ParsedNode(node, parent, base), base)
    decreases node
  {
    ParsedIsRooted(node.children, Some(base), base + 1);
  }

  lemma {:induction false} NothingLiveInHidden(nodes: seq<Node>, parent: Option<string>, selector: Selector)
    ensures LiveIn(nodes, parent, true, selector) == []
    decreases nodes
  {
    if nodes != [] {
      NothingLiveInHidden(nodes[0].children, Some(nodes[0].tag), selector);
      NothingLiveInHidden(nodes[1..], parent, selector);
    }
  }

  /** A `noscript` that is not itself hidden: the inspector removes it, but the count keeps it. */
  predicate CountsNoscript(nodes: seq<Node>, parent: Option<string>, selector: Selector)
    decreases nodes
  {
    nodes != [] && (CountsNoscriptAt(nodes[0], parent, selector) || CountsNoscript(nodes[1..], parent, selector))
  }

  predicate CountsNoscriptAt(node: Node, parent: Option<string>, selector: Selector)
    decreases node
  {
    if DropsContent(node.tag) then node.tag == "noscript" && Matches(selector, node.tag, parent)
    else CountsNoscript(node.children, Some(node.tag), selector)
  }

  /** `shown` is `live`, or shorter when something shown to nobody was counted. */
  predicate Agrees(live: seq<nat>, shown: seq<nat>, extra: bool) {
    if extra then |shown| < |live| else live == shown
  }

  /** What is counted over the parsed page against what the browser selects on the copy it shows. */
  lemma {:induction false} LiveAgainstShown(nodes: seq<Node>, parent: Option<string>, selector: Selector)
    ensures Agrees(LiveIn(nodes, parent, false, selector), Selected(Shown(nodes), parent, selector),
                   CountsNoscript(nodes, parent, selector))
    decreases nodes
  {
    if nodes != [] {
      NodeAgainstShown(nodes[0], parent, selector);
      LiveAgainstShown(nodes[1..], parent, selector);
      SelectedJoins(ShownNode(nodes[0]), Shown(nodes[1..]), parent, selector);
    }
  }

  lemma {:induction false} NodeAgainstShown(node: Node, parent: Option<string>, selector: Selector)
    ensures Agrees(LiveAt(node, parent, false, selector), Selected(ShownNode(node), parent, selector),
                   CountsNoscriptAt(node, parent, selector))
    decreases node
  {
    if DropsContent(node.tag) {
      NothingLiveInHidden(node.children, Some(node.tag), selector);
      SelectedOne(node.(children := []), parent, selector);
    } else {
      LiveAgainstShown(node.children, Some(node.tag), selector);
      SelectedOne(node.(children := Shown(node.children)), parent, selector);
    }
  }

  lemma {:induction false} SelectedOne(node: Node, parent: Option<string>, selector: Selector)
    ensures Selected([node], parent, selector) == SelectedAt(node, parent, selector)
  {
    assert [node][1..] == [];
  }

  lemma {:induction false} SelectedJoins(a: seq<Node>, b: seq<Node>, parent: Option<string>, selector: Selector)
    ensures Selected(a + b, parent, selector) == Selected(a, parent, selector) + Selected(b, parent, selector)
    decreases |a|
  {
    if a == [] {
      assert a + b == b;
    } else {
      SelectedJoins(a[1..], b, parent, selector);
      assert (a + b)[1..] == a[1..] + b;
      JoinAssociates(SelectedAt(a[0], parent, selector), Selected(a[1..], parent, selector),
                     Selected(b, parent, selector));
    }
  }

  /** Counting over the parsed page is counting over the copy the inspector shows, in the same order,
      exactly when the selector counts no visible `noscript`. */
  lemma {:induction false} PlacesSurvivePruning(nodes: seq<Node>, selector: Selector)
    ensures Rooted(Parsed(nodes, None, 0))
    ensures var doc := Parsed(nodes, None, 0);
            LiveIds(doc, selector, 0, |doc|) == Selected(Shown(nodes), None, selector)
            <==> !CountsNoscript(nodes, None, selector)
  {
    var doc := Parsed(nodes, None, 0);
    ParsedIsRooted(nodes, None, 0);
    assert doc[0..|doc|] == doc;
    LiveOfParsed(doc, nodes, None, 0, |doc|, selector);
    LiveAgainstShown(nodes, None, selector);
  }

  /** The first `noscript` of a page has a place of its own, though the shown copy has no such element. */
  lemma {:induction false} NoscriptIsCounted(id: nat, attrs: Attrs)
    ensures var nodes := [Node(id, "noscript", attrs, [])];
            && Rooted(Parsed(nodes, None, 0))
            && Selected(Shown(nodes), None, Type("noscript")) == []
            && LiveIds(Parsed(nodes, None, 0), Type("noscript"), 0, |Parsed(nodes, None, 0)|) != []
  {
    var nodes := [Node(id, "noscript", attrs, [])];
    assert nodes[1..] == [];
    assert CountsNoscriptAt(nodes[0], None, Type("noscript"));
    PlacesSurvivePruning(nodes, Type("noscript"));
  }

  /** An element's place leads the browser to that element: the counts agree, and the element at that
      count is the one that was named; an element in a hidden subtree has no place. */
  lemma {:induction false} PlaceNamesElement(nodes: seq<Node>, i: nat, selector: Selector)
    requires i < |Parsed(nodes, None, 0)| && Rooted(Parsed(nodes, None, 0))
    requires !CountsNoscript(nodes, None, selector)
    ensures var doc, shown := Parsed(nodes, None, 0), Selected(Shown(nodes), None, selector);
            match PlaceOf(doc, i, selector)
            case Some(place) =>
              !Hidden(doc, i) && place.total == |shown| && place.index < |shown| && shown[place.index] == doc[i].id
            case None => Hidden(doc, i) || !Matches(selector, doc[i].tag, ParentTag(doc, doc[i].parent))
  {
    var doc := Parsed(nodes, None, 0);
    PlacesSurvivePruning(nodes, selector);
    if PlaceOf(doc, i, selector).None? && IsLive(doc, selector, i) {
      LiveHasAll(doc, selector, 0, |doc|, i);
    }
  }
}
