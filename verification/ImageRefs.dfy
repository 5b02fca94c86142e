/** `src/audit/extractor/html_images.py`: the image references of a page and where they sit. The two
    lists are made by separate passes over the same bytes and must number the same things alike. */
module ImageRefs {
  import opened Text
  import opened Places

  // --- Attributes ---

  /** A trimmed attribute, blank as good as missing. */
  function Attr(value: Option<string>): Option<string> {
    if value.None? || Strip(value.value) == [] then None else Some(Strip(value.value))
  }

  /** `re.split(r",\s*")`: white space after a comma goes with it. */
  function SplitCommas(s: string): seq<string>
    decreases |s|
  {
    var i := IndexOf(s, ',');
    if i == |s| then [s]
    else
      TrimLeftFacts(s[i + 1..]);
      [s[..i]] + SplitCommas(TrimLeft(s[i + 1..]))
  }

  predicate StartsWithText(part: string) {
    part != [] ==> !IsSpace(part[0])
  }

  /** No candidate of a trimmed list starts with white space, so each that is there has a first word. */
  lemma {:induction false} CandidatesHaveWords(s: string)
    requires StartsWithText(s)
    ensures forall k :: 0 <= k < |SplitCommas(s)| ==> StartsWithText(SplitCommas(s)[k])
    decreases |s|
  {
    var i := IndexOf(s, ',');
    if i < |s| {
      TrimLeftFacts(s[i + 1..]);
      CandidatesHaveWords(TrimLeft(s[i + 1..]));
    }
  }

  /** `split(None, 1)[0]`, defined only when there is a word. */
  function FirstWord(part: string): (word: string)
    requires part != [] && !IsSpace(part[0])
    ensures word != [] && forall k :: 0 <= k < |word| ==> !IsSpace(word[k])
  {
    if |part| == 1 || IsSpace(part[1]) then part[..1] else [part[0]] + FirstWord(part[1..])
  }

  function WordsOf(parts: seq<string>): seq<string>
    requires forall k :: 0 <= k < |parts| ==> StartsWithText(parts[k])
  {
    if parts == [] then []
    else
      var part := parts[|parts| - 1];
      assert StartsWithText(part);
      WordsOf(parts[..|parts| - 1]) + if part == [] then [] else [FirstWord(part)]
  }

  function SrcsetUrls(raw: Option<string>): seq<string> {
    if raw.None? then []
    else
      StripFacts(raw.value);
      CandidatesHaveWords(Strip(raw.value));
      WordsOf(SplitCommas(Strip(raw.value)))
  }

  method ParseSrcset(raw: Option<string>) returns (urls: seq<string>)
    ensures urls == SrcsetUrls(raw)
  {
    if raw.None? {
      return [];
    }
    StripFacts(raw.value);
    CandidatesHaveWords(Strip(raw.value));
    var parts := SplitCommas(Strip(raw.value));
    urls := [];
    for i := 0 to |parts|
      invariant urls == WordsOf(parts[..i])
    {
      assert parts[..i + 1][..i] == parts[..i];
      if parts[i] != [] {
        urls := urls + [FirstWord(parts[i])];
      }
    }
    assert parts[..|parts|] == parts;
  }

  // --- References ---

  /** A URL an element names, and whether its `srcset` does. */
  datatype Candidate = Candidate(url: string, viaSrcset: bool)

  function UrlsOf(attrs: Attrs): seq<Candidate> {
    var src, srcset := Attr(attrs.src), SrcsetUrls(Attr(attrs.srcset));
    (if src.Some? then [Candidate(src.value, false)] else [])
    + seq(|srcset|, i requires 0 <= i < |srcset| => Candidate(srcset[i], true))
  }

  method UrlsFromNode(attrs: Attrs) returns (out: seq<Candidate>)
    ensures out == UrlsOf(attrs)
  {
    out := [];
    if Attr(attrs.src).Some? {
      out := [Candidate(Attr(attrs.src).value, false)];
    }
    ghost var own := out;
    var candidates := ParseSrcset(Attr(attrs.srcset));
    for i := 0 to |candidates|
      invariant out == own + seq(i, k requires 0 <= k < i => Candidate(candidates[k], true))
    {
      out := out + [Candidate(candidates[i], true)];
    }
  }

  const IMG := Type("img")
  const SOURCE := Child("picture", "source")

  /** `urljoin` against the page's address, which may refuse. */
  type Join = string -> Option<string>

  function Resolve(join: Join, url: string): Option<string> {
    var u := Strip(url);
    if u == [] || "data:" <= u || "javascript:" <= u then None else join(u)
  }

  datatype Ref = Ref(node: nat, candidate: Candidate, resolved: string)

  /** Positions of the elements a selector matches, hidden or not. */
  function AllMatching(doc: Document, selector: Selector, hi: nat): (r: seq<nat>)
    requires Rooted(doc) && hi <= |doc|
    ensures forall k :: 0 <= k < |r| ==> r[k] < |doc| && Matches(selector, doc[r[k]].tag, ParentTag(doc, doc[r[k]].parent))
  {
    if hi == 0 then []
    else
      AllMatching(doc, selector, hi - 1)
      + if Matches(selector, doc[hi - 1].tag, ParentTag(doc, doc[hi - 1].parent)) then [hi - 1] else []
  }

  /** The parser lists a selector group selector by selector. */
  function Sources(doc: Document): (r: seq<nat>)
    requires Rooted(doc)
    ensures forall k :: 0 <= k < |r| ==> r[k] < |doc|
  {
    AllMatching(doc, IMG, |doc|) + AllMatching(doc, SOURCE, |doc|)
  }

  /** The reference an element's candidate gives, if it resolves. */
  function RefOf(node: nat, join: Join): Candidate -> seq<Ref> {
    (candidate: Candidate) =>
      var resolved := Resolve(join, candidate.url);
      if resolved.Some? then [Ref(node, candidate, resolved.value)] else []
  }

  function RefsOf(doc: Document, join: Join): nat -> seq<Ref> {
    (node: nat) => if node < |doc| then FlatMap(RefOf(node, join), UrlsOf(doc[node].attrs)) else []
  }

  /** Every reference of the page in walk order; a reference's position is its place in this list. */
  function Refs(doc: Document, join: Join): seq<Ref>
    requires Rooted(doc)
  {
    FlatMap(RefsOf(doc, join), Sources(doc))
  }

  datatype Numbered = Numbered(position: nat, ref: Ref)

  function WithPositions(refs: seq<Ref>): seq<Numbered> {
    seq(|refs|, i requires 0 <= i < |refs| => Numbered(i, refs[i]))
  }

  lemma {:induction false} WithPositionsNext(refs: seq<Ref>, ref: Ref)
    ensures WithPositions(refs + [ref]) == WithPositions(refs) + [Numbered(|refs|, ref)]
  {
  }

  /** One element's references, numbered on from those before. */
  method WalkUrls(node: nat, urls: seq<Candidate>, join: Join, before: seq<Numbered>, position: nat, ghost done: seq<Ref>)
    returns (out: seq<Numbered>, next: nat)
    requires before == WithPositions(done) && position == |done|
    ensures var all := done + FlatMap(RefOf(node, join), urls); out == WithPositions(all) && next == |all|
  {
    out, next := before, position;
    ghost var sofar := done;
    for u := 0 to |urls|
      invariant sofar == done + FlatMap(RefOf(node, join), urls[..u])
      invariant out == WithPositions(sofar) && next == |sofar|
    {
      FlatMapNext(RefOf(node, join), urls, u);
      var resolved := Resolve(join, urls[u].url);
      if resolved.Some? {
        var ref := Ref(node, urls[u], resolved.value);
        WithPositionsNext(sofar, ref);
        out, next := out + [Numbered(next, ref)], next + 1;
        sofar := sofar + [ref];
      }
    }
    assert urls[..|urls|] == urls;
  }

  method WalkNode(doc: Document, node: nat, join: Join, before: seq<Numbered>, position: nat, ghost done: seq<Ref>)
    returns (out: seq<Numbered>, next: nat)
    requires node < |doc| && before == WithPositions(done) && position == |done|
    ensures var all := done + RefsOf(doc, join)(node); out == WithPositions(all) && next == |all|
  {
    var urls := UrlsFromNode(doc[node].attrs);
    out, next := WalkUrls(node, urls, join, before, position, done);
  }

  /** The one walk: a counter that moves only for a reference that resolves. */
  method WalkNodes(doc: Document, nodes: seq<nat>, join: Join) returns (out: seq<Numbered>)
    requires forall k :: 0 <= k < |nodes| ==> nodes[k] < |doc|
    ensures out == WithPositions(FlatMap(RefsOf(doc, join), nodes))
  {
    out := [];
    var position := 0;
    ghost var done: seq<Ref> := [];
    for n := 0 to |nodes|
      invariant done == FlatMap(RefsOf(doc, join), nodes[..n])
      invariant out == WithPositions(done) && position == |done|
    {
      FlatMapNext(RefsOf(doc, join), nodes, n);
      out, position := WalkNode(doc, nodes[n], join, out, position, done);
      done := done + RefsOf(doc, join)(nodes[n]);
    }
    assert nodes[..|nodes|] == nodes;
  }

  method WalkRefs(doc: Document, join: Join) returns (out: seq<Numbered>)
    requires Rooted(doc)
    ensures out == WithPositions(Refs(doc, join))
  {
    out := WalkNodes(doc, Sources(doc), join);
  }

  // --- The two passes ---

  datatype ImageRef = ImageRef(url: string, position: nat, node: nat, viaSrcset: bool)

  /** `tree.body`: a page without one has no references. */
  method ExtractImageRefs(body: Option<Document>, join: Join) returns (refs: seq<ImageRef>)
    requires body.Some? ==> Rooted(body.value)
    ensures |refs| == |RefsIn(body, join)|
    ensures forall i :: 0 <= i < |refs| ==>
              var ref := RefsIn(body, join)[i];
              refs[i] == ImageRef(ref.resolved, i, ref.node, ref.candidate.viaSrcset)
  {
    if body.None? {
      return [];
    }
    var walked := WalkRefs(body.value, join);
    refs := seq(|walked|, i requires 0 <= i < |walked| => Extracted(walked[i].ref, walked[i].position));
  }

  function RefsIn(body: Option<Document>, join: Join): seq<Ref>
    requires body.Some? ==> Rooted(body.value)
  {
    if body.Some? then Refs(body.value, join) else []
  }

  function Extracted(ref: Ref, position: nat): ImageRef {
    ImageRef(ref.resolved, position, ref.node, ref.candidate.viaSrcset)
  }

  datatype ImageElement = ImageElement(tag: string, place: Option<Place>, candidate: string)

  function SelectorOf(tag: string): Selector {
    if tag == "img" then IMG else SOURCE
  }

  function Located(doc: Document, ref: Ref): ImageElement
    requires Rooted(doc) && ref.node < |doc|
  {
    var tag := doc[ref.node].tag;
    ImageElement(if tag == "img" then "img" else "source", PlaceOf(doc, ref.node, SelectorOf(tag)), ref.candidate.url)
  }

  /** Every reference comes from one of the walk's elements and resolves a URL written there. */
  lemma {:induction false} RefComesFrom(doc: Document, join: Join, ref: Ref)
    requires Rooted(doc) && ref in Refs(doc, join)
    ensures ref.node in Sources(doc) && ref.node < |doc|
    ensures ref.candidate in UrlsOf(doc[ref.node].attrs) && Resolve(join, ref.candidate.url) == Some(ref.resolved)
  {
    var node := FlatMapSource(RefsOf(doc, join), Sources(doc), ref);
    var candidate := FlatMapSource(RefOf(node, join), UrlsOf(doc[node].attrs), ref);
  }

  predicate InDocument(doc: Document, refs: seq<Ref>) {
    forall k :: 0 <= k < |refs| ==> refs[k].node < |doc|
  }

  /** `out` locates just the first `n` references. */
  ghost predicate LocatesFirst(doc: Document, refs: seq<Ref>, out: map<nat, ImageElement>, n: nat)
    requires Rooted(doc) && InDocument(doc, refs) && n <= |refs|
  {
    && (forall k :: k in out ==> k < n)
    && (forall k :: 0 <= k < n ==> k in out && out[k] == Located(doc, refs[k]))
  }

  lemma {:induction false} LocatesNext(doc: Document, refs: seq<Ref>, out: map<nat, ImageElement>, n: nat)
    requires Rooted(doc) && InDocument(doc, refs) && n < |refs| && LocatesFirst(doc, refs, out, n)
    ensures LocatesFirst(doc, refs, out[n := Located(doc, refs[n])], n + 1)
  {
  }

  method LocateIn(doc: Document, walked: seq<Numbered>, ghost refs: seq<Ref>) returns (out: map<nat, ImageElement>)
    requires Rooted(doc) && InDocument(doc, refs) && walked == WithPositions(refs)
    ensures LocatesFirst(doc, refs, out, |refs|)
  {
    out := map[];
    var places := new Finder(doc);
    for i := 0 to |walked|
      invariant places.Valid() && places.doc == doc && fresh(places)
      invariant LocatesFirst(doc, refs, out, i)
    {
      var ref := walked[i].ref;
      var isImg := doc[ref.node].tag == "img";
      var place := places.Of(ref.node, if isImg then IMG else SOURCE);
      LocatesNext(doc, refs, out, i);
      out := out[walked[i].position := ImageElement(if isImg then "img" else "source", place, ref.candidate.url)];
    }
  }

  lemma {:induction false} RefsInDocument(doc: Document, join: Join)
    requires Rooted(doc)
    ensures InDocument(doc, Refs(doc, join))
  {
    forall k | 0 <= k < |Refs(doc, join)| ensures Refs(doc, join)[k].node < |doc| {
      RefComesFrom(doc, join, Refs(doc, join)[k]);
    }
  }

  method LocateImageRefs(body: Option<Document>, join: Join) returns (out: map<nat, ImageElement>)
    requires body.Some? ==> Rooted(body.value)
    ensures body.None? ==> out == map[]
    ensures body.Some? ==> InDocument(body.value, RefsIn(body, join))
                           && LocatesFirst(body.value, RefsIn(body, join), out, |RefsIn(body, join)|)
  {
    if body.None? {
      return map[];
    }
    RefsInDocument(body.value, join);
    var walked := WalkRefs(body.value, join);
    out := LocateIn(body.value, walked, Refs(body.value, join));
  }

  /** Each stored position leads to the element its reference was taken from: the element carries the
      written URL that resolves to the stored one, and its place, when it has one, selects exactly it
      in the copy the inspector shows. */
  lemma {:induction false} PositionsAgree(nodes: seq<Node>, join: Join, i: nat)
    requires Rooted(Parsed(nodes, None, 0)) && i < |Refs(Parsed(nodes, None, 0), join)|
    ensures var doc := Parsed(nodes, None, 0);
            var ref := Refs(doc, join)[i];
            && ref.node < |doc|
            && (doc[ref.node].tag == "img" || doc[ref.node].tag == "source")
            && ref.candidate in UrlsOf(doc[ref.node].attrs)
            && Resolve(join, ref.candidate.url) == Some(ref.resolved)
            && var found := Located(doc, ref);
               var shown := Selected(Shown(nodes), None, SelectorOf(doc[ref.node].tag));
               && found.tag == doc[ref.node].tag && found.candidate == ref.candidate.url
               && match found.place
               case Some(place) =>
                 place.total == |shown| && place.index < |shown| && shown[place.index] == doc[ref.node].id
               case None => Hidden(doc, ref.node)
  {
    var doc := Parsed(nodes, None, 0);
    var ref := Refs(doc, join)[i];
    RefComesFrom(doc, join, ref);
    SourcesMatch(doc, ref.node);
    NoNoscript(nodes, None, SelectorOf(doc[ref.node].tag));
    PlaceNamesElement(nodes, ref.node, SelectorOf(doc[ref.node].tag));
  }

  lemma {:induction false} SourcesMatch(doc: Document, node: nat)
    requires Rooted(doc) && node in Sources(doc)
    ensures node < |doc| && (doc[node].tag == "img" || doc[node].tag == "source")
    ensures Matches(SelectorOf(doc[node].tag), doc[node].tag, ParentTag(doc, doc[node].parent))
  {
    assert node in AllMatching(doc, IMG, |doc|) || node in AllMatching(doc, SOURCE, |doc|);
    assert "img" != "source";
  }

  lemma {:induction false} NoNoscript(nodes: seq<Node>, parent: Option<string>, selector: Selector)
    requires selector.tag != "noscript"
    ensures !CountsNoscript(nodes, parent, selector)
    decreases nodes
  {
    if nodes != [] {
      NoNoscriptAt(nodes[0], parent, selector);
      NoNoscript(nodes[1..], parent, selector);
    }
  }

  lemma {:induction false} NoNoscriptAt(node: Node, parent: Option<string>, selector: Selector)
    requires selector.tag != "noscript"
    ensures !CountsNoscriptAt(node, parent, selector)
    decreases node
  {
    if !DropsContent(node.tag) {
      NoNoscript(node.children, Some(node.tag), selector);
    }
  }

  // --- Nothing is left out ---

  lemma {:induction false} AllMatchingHas(doc: Document, selector: Selector, hi: nat, node: nat)
    requires Rooted(doc) && hi <= |doc| && node < hi
    ensures node in AllMatching(doc, selector, hi) <==>
            Matches(selector, doc[node].tag, ParentTag(doc, doc[node].parent))
  {
    var all := AllMatching(doc, selector, hi);
    if node < hi - 1 {
      AllMatchingHas(doc, selector, hi - 1, node);
    } else {
      MatchingInOrder(doc, selector, hi - 1);
    }
  }

  /** Each selector's elements are visited once, in document order. */
  lemma {:induction false} MatchingInOrder(doc: Document, selector: Selector, hi: nat)
    requires Rooted(doc) && hi <= |doc|
    ensures forall k :: 0 <= k < |AllMatching(doc, selector, hi)| ==> AllMatching(doc, selector, hi)[k] < hi
    ensures forall j, k :: 0 <= j < k < |AllMatching(doc, selector, hi)| ==>
              AllMatching(doc, selector, hi)[j] < AllMatching(doc, selector, hi)[k]
  {
    if hi > 0 {
      MatchingInOrder(doc, selector, hi - 1);
    }
  }

  /** The walk visits every `img`, and every `source` whose parent is a `picture`, and no other element. */
  lemma {:induction false} SourcesAreExact(doc: Document, node: nat)
    requires Rooted(doc) && node < |doc|
    ensures var parent := ParentTag(doc, doc[node].parent);
            node in Sources(doc) <==> doc[node].tag == "img" || (doc[node].tag == "source" && parent == Some("picture"))
  {
    AllMatchingHas(doc, IMG, |doc|, node);
    AllMatchingHas(doc, SOURCE, |doc|, node);
  }

  /** Every URL written on a visited element that is not blank, a data or a script address, and resolves, is a
      reference of the page, and so has a position; and every reference is one of these. */
  lemma {:induction false} RefsAreExact(doc: Document, join: Join, ref: Ref)
    requires Rooted(doc)
    ensures ref in Refs(doc, join) <==>
              && ref.node < |doc| && ref.node in Sources(doc) && ref.candidate in UrlsOf(doc[ref.node].attrs)
              && var url := Strip(ref.candidate.url);
                 url != "" && !("data:" <= url) && !("javascript:" <= url) && join(url) == Some(ref.resolved)
  {
    if ref in Refs(doc, join) {
      RefComesFrom(doc, join, ref);
    } else if ref.node < |doc| && ref.node in Sources(doc) && ref.candidate in UrlsOf(doc[ref.node].attrs)
           && Resolve(join, ref.candidate.url) == Some(ref.resolved) {
      FlatMapHas(RefOf(ref.node, join), UrlsOf(doc[ref.node].attrs), ref.candidate, ref);
      FlatMapHas(RefsOf(doc, join), Sources(doc), ref.node, ref);
    }
  }

  // --- Reading a srcset ---

  /** A candidate as a page writes it: a URL, and perhaps a width or a density. */
  datatype Written = Written(url: string, descriptor: string)

  predicate Writable(w: Written) {
    && w.url != "" && ',' !in w.url && (forall k :: 0 <= k < |w.url| ==> !IsSpace(w.url[k]))
    && ',' !in w.descriptor && Trimmed(w.descriptor)
  }

  function CandidateText(w: Written): string {
    if w.descriptor == "" then w.url else w.url + " " + w.descriptor
  }

  function SrcsetText(list: seq<Written>): string {
    if list == [] then ""
    else if |list| == 1 then CandidateText(list[0])
    else CandidateText(list[0]) + (", " + SrcsetText(list[1..]))
  }

  function UrlsIn(list: seq<Written>): (urls: seq<string>)
    ensures |urls| == |list| && forall i :: 0 <= i < |urls| ==> urls[i] == list[i].url
  {
    seq(|list|, i requires 0 <= i < |list| => list[i].url)
  }

  lemma {:induction false} CandidateShape(w: Written)
    requires Writable(w)
    ensures var text := CandidateText(w); text != "" && Trimmed(text) && ',' !in text && FirstWord(text) == w.url
  {
    assert IsSpace(' ');
    FirstWordIs(w.url, if w.descriptor == "" then "" else " " + w.descriptor);
    assert w.url + "" == w.url && (w.url + " ") + w.descriptor == w.url + (" " + w.descriptor);
  }

  lemma {:induction false} FirstWordIs(word: string, rest: string)
    requires word != "" && (forall k :: 0 <= k < |word| ==> !IsSpace(word[k])) && (rest != "" ==> IsSpace(rest[0]))
    ensures FirstWord(word + rest) == word
  {
    assert (word + rest)[1..] == word[1..] + rest;
    if |word| > 1 {
      FirstWordIs(word[1..], rest);
    }
  }

  lemma {:induction false} SrcsetShape(list: seq<Written>)
    requires forall i :: 0 <= i < |list| ==> Writable(list[i])
    ensures Trimmed(SrcsetText(list)) && (list != [] ==> SrcsetText(list) != "")
  {
    if list != [] {
      CandidateShape(list[0]);
      SrcsetShape(list[1..]);
    }
  }

  function CandidateTexts(list: seq<Written>): (texts: seq<string>)
    ensures |texts| == |list| && forall i :: 0 <= i < |texts| ==> texts[i] == CandidateText(list[i])
  {
    seq(|list|, i requires 0 <= i < |list| => CandidateText(list[i]))
  }

  lemma {:induction false} SplitFirst(first: string, more: string)
    requires ',' !in first && more != "" && !IsSpace(more[0])
    ensures SplitCommas(first + (", " + more)) == [first] + SplitCommas(more)
  {
    var text := first + (", " + more);
    IndexOfIs(text, ',', |first|);
    assert text[..|first|] == first && text[|first| + 1..] == [' '] + more;
    assert ([' '] + more)[1..] == more;
    assert TrimLeft([' '] + more) == TrimLeft(more) == more;
  }

  lemma {:induction false} SplitOne(text: string)
    requires ',' !in text
    ensures SplitCommas(text) == [text]
  {
    IndexOfIs(text, ',', |text|);
  }

  lemma {:induction false} FirstCandidate(list: seq<Written>)
    requires list != []
    ensures CandidateTexts(list) == [CandidateText(list[0])] + CandidateTexts(list[1..])
  {
  }

  lemma {:induction false} SrcsetSplits(list: seq<Written>)
    requires list != [] && forall i :: 0 <= i < |list| ==> Writable(list[i])
    ensures SplitCommas(SrcsetText(list)) == CandidateTexts(list)
    decreases |list|
  {
    CandidateShape(list[0]);
    if |list| == 1 {
      SplitOne(CandidateText(list[0]));
    } else {
      SrcsetShape(list[1..]);
      SplitFirst(CandidateText(list[0]), SrcsetText(list[1..]));
      SrcsetSplits(list[1..]);
      FirstCandidate(list);
    }
  }

  lemma {:induction false} WordsOfCandidates(list: seq<Written>)
    requires forall i :: 0 <= i < |list| ==> Writable(list[i]) && StartsWithText(CandidateText(list[i]))
    ensures WordsOf(CandidateTexts(list)) == UrlsIn(list)
    decreases |list|
  {
    if list != [] {
      var n := |list| - 1;
      WordsOfCandidates(list[..n]);
      CandidateShape(list[n]);
      assert CandidateTexts(list)[..n] == CandidateTexts(list[..n]);
      assert UrlsIn(list) == UrlsIn(list[..n]) + [list[n].url];
    }
  }

  /** Of a srcset as pages write it, exactly the URLs are read, in order. */
  lemma {:induction false} SrcsetIsRead(list: seq<Written>)
    requires list != [] && forall i :: 0 <= i < |list| ==> Writable(list[i])
    ensures SrcsetUrls(Some(SrcsetText(list))) == UrlsIn(list)
  {
    SrcsetShape(list);
    StripTrimmed(SrcsetText(list));
    SrcsetSplits(list);
    forall i | 0 <= i < |list| ensures StartsWithText(CandidateText(list[i])) {
      CandidateShape(list[i]);
    }
    WordsOfCandidates(list);
  }

  /** An element gives its `src` first, if it has one, and then what its `srcset` lists; attributes are trimmed, and a
      blank one is none. */
  lemma {:induction false} SrcComesFirst(attrs: Attrs)
    ensures var listed := SrcsetUrls(Attr(attrs.srcset));
            var own := match Attr(attrs.src) case Some(src) => [Candidate(src, false)] case None => [];
            && |UrlsOf(attrs)| == |own| + |listed| && own <= UrlsOf(attrs)
            && forall i :: 0 <= i < |listed| ==> UrlsOf(attrs)[|own| + i] == Candidate(listed[i], true)
    ensures forall v :: v in {attrs.src, attrs.srcset} ==>
              Attr(v) == if v.Some? && Strip(v.value) != "" then Some(Strip(v.value)) else None
  {
  }
}
