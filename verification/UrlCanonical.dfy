/** What `normalize` promises: two URLs share a normal form exactly when they name the same
    page, and normalizing again changes nothing but trailing white space of a bare path. */
module UrlCanonical {
  import opened Text
  import opened FormEncoding
  import opened UrlNormal

  // --- Pieces of a split URL ---

  /** Characters no part of a network location may hold. */
  predicate NetlocChar(c: char) {
    !IsUnsafe(c) && !EndsNetloc(c) && c != '[' && c != ']'
  }

  predicate NetlocText(s: string) {
    forall i :: 0 <= i < |s| ==> NetlocChar(s[i])
  }

  predicate Lacks(s: string, c: char) {
    forall i :: 0 <= i < |s| ==> s[i] != c
  }

  predicate SplitShape(p: Parts) {
    && NoUnsafe(p.netloc) && NoUnsafe(p.path) && NoUnsafe(p.query) && NoUnsafe(p.fragment)
    && NetlocLength(p.netloc) == |p.netloc|
    && Lacks(p.path, '#') && Lacks(p.path, '?') && Lacks(p.query, '#')
    && (p.netloc != [] ==> p.path == [] || "/" <= p.path)
  }

  lemma {:induction false} SliceIsSafe(s: string, i: nat, j: nat)
    requires NoUnsafe(s) && i <= j <= |s|
    ensures NoUnsafe(s[i..j])
  {
  }

  /** Where the path, the query and the fragment lie in what follows the network location. */
  lemma {:induction false} TailPieces(scheme: string, netloc: string, s: string)
    ensures var p := SplitTail(scheme, netloc, s);
            && Lacks(p.path, '#') && Lacks(p.path, '?') && Lacks(p.query, '#')
            && p.path <= s
  {
    IndexOfFacts(s, '#');
    var f := IndexOf(s, '#');
    var head := s[..f];
    assert Lacks(head, '#');
    IndexOfFacts(head, '?');
    var q := IndexOf(head, '?');
    assert s[..q] == head[..q];
    if q < f {
      assert s[q + 1..f] == head[q + 1..];
    }
  }

  lemma {:induction false} TailIsSafe(scheme: string, netloc: string, s: string)
    requires NoUnsafe(s)
    ensures var p := SplitTail(scheme, netloc, s); NoUnsafe(p.path) && NoUnsafe(p.query) && NoUnsafe(p.fragment)
  {
    var f := IndexOf(s, '#');
    var q := IndexOf(s[..f], '?');
    SliceIsSafe(s, 0, q);
    if q < f {
      SliceIsSafe(s, q + 1, f);
    }
    if f < |s| {
      SliceIsSafe(s, f + 1, |s|);
    }
  }

  lemma {:induction false} TailShape(scheme: string, netloc: string, s: string)
    requires NoUnsafe(s) && NoUnsafe(netloc) && NetlocLength(netloc) == |netloc|
    requires netloc != [] && s != [] ==> EndsNetloc(s[0])
    ensures SplitShape(SplitTail(scheme, netloc, s))
  {
    TailPieces(scheme, netloc, s);
    TailIsSafe(scheme, netloc, s);
    var path := SplitTail(scheme, netloc, s).path;
    if path != [] {
      assert path[0] == s[0];
    }
  }

  lemma {:induction false} NetlocTakes(after: string)
    ensures var n := NetlocLength(after); NetlocLength(after[..n]) == n
  {
    NetlocLengthFacts(after);
    NetlocLengthIs(after[..NetlocLength(after)], NetlocLength(after));
  }

  lemma {:induction false} NetlocShape(scheme: string, rest: string)
    requires NoUnsafe(rest)
    ensures SplitShape(SplitNetloc(scheme, rest))
  {
    if "//" <= rest {
      var after := rest[2..];
      var n := NetlocLength(after);
      NetlocTakes(after);
      NetlocLengthFacts(after);
      assert rest[2..2 + n] == after[..n] && rest[2 + n..] == after[n..];
      SliceIsSafe(rest, 2, 2 + n);
      SliceIsSafe(rest, 2 + n, |rest|);
      TailShape(scheme, after[..n], after[n..]);
    } else {
      TailShape(scheme, [], rest);
    }
  }

  lemma {:induction false} CleanedShape(u: string)
    requires NoUnsafe(u)
    ensures SplitShape(SplitCleaned(u))
  {
    var n := SchemeLength(u);
    SliceIsSafe(u, n, |u|);
    NetlocShape(if n == 0 then [] else Lower(u[..n - 1]), u[n..]);
  }

  lemma {:induction false} DropUnsafeIsSafe(s: string)
    ensures NoUnsafe(DropUnsafe(s))
  {
    if s != [] {
      DropUnsafeIsSafe(s[1..]);
    }
  }

  lemma {:induction false} SplitHasShape(s: string)
    ensures SplitShape(SplitUrl(s))
  {
    DropUnsafeIsSafe(DropControls(s));
    CleanedShape(Clean(s));
  }

  // --- Canonical components ---

  predicate ValidComponents(c: Components) {
    && c.scheme in ["http", "https"]
    && NetlocText(c.user) && NetlocText(c.password) && NetlocText(c.host)
    && Lacks(c.user, ':') && Lacks(c.host, ':') && Lacks(c.host, '@')
    && Lower(c.host) == c.host && c.host != []
    && (c.port.Some? ==> c.port.value <= 65535 && c.port.value != DefaultPort(c.scheme))
    && "/" <= c.path && Lacks(c.path, '#') && Lacks(c.path, '?') && NoUnsafe(c.path)
    && c.query == UrlEncode(Sort(ParseQuery(c.query)))
    && SpaRoute(c.fragment) == c.fragment && NoUnsafe(c.fragment)
  }

  lemma {:induction false} LowerTwice(s: string)
    ensures Lower(Lower(s)) == Lower(s)
  {
  }

  lemma {:induction false} LowerKeeps(s: string)
    requires NetlocText(s)
    ensures NetlocText(Lower(s))
    ensures Lacks(s, ':') ==> Lacks(Lower(s), ':')
    ensures Lacks(s, '@') ==> Lacks(Lower(s), '@')
  {
  }

  lemma {:induction false} AtPieces(netloc: string)
    requires NetlocText(netloc)
    ensures NetlocText(UserInfoIn(netloc)) && NetlocText(HostPortIn(netloc)) && Lacks(HostPortIn(netloc), '@')
  {
    LastIndexOfFacts(netloc, '@');
  }

  lemma {:induction false} ColonPieces(s: string)
    requires NetlocText(s)
    ensures NetlocText(BeforeColon(s)) && NetlocText(AfterColon(s)) && Lacks(BeforeColon(s), ':')
    ensures Lacks(s, '@') ==> Lacks(BeforeColon(s), '@')
  {
    IndexOfFacts(s, ':');
  }

  lemma {:induction false} AuthorityShape(netloc: string)
    requires NetlocText(netloc)
    ensures var a := ParseAuthority(netloc);
            && NetlocText(a.user) && NetlocText(a.password) && NetlocText(a.host)
            && Lacks(a.user, ':') && Lacks(a.host, ':') && Lacks(a.host, '@') && Lower(a.host) == a.host
  {
    var host := BeforeColon(HostPortIn(netloc));
    AtPieces(netloc);
    ColonPieces(UserInfoIn(netloc));
    ColonPieces(HostPortIn(netloc));
    LowerTwice(host);
    LowerKeeps(host);
  }

  lemma {:induction false} QueryIsCanonical(pairs: seq<Pair>)
    ensures UrlEncode(Sort(ParseQuery(UrlEncode(Sort(pairs))))) == UrlEncode(Sort(pairs))
  {
    QueryRoundTrip(Sort(pairs));
    SortCanonical(pairs, pairs);
  }

  lemma {:induction false} NetlocTextOf(netloc: string)
    requires NoUnsafe(netloc) && NetlocLength(netloc) == |netloc| && !HasBracket(netloc)
    ensures NetlocText(netloc)
  {
    NetlocLengthFacts(netloc);
  }

  /** The two parts `ComponentsOf` combines, named. */
  predicate ComesFrom(c: Components, p: Parts, a: Authority) {
    && a == ParseAuthority(p.netloc)
    && c.scheme == p.scheme && c.user == a.user && c.password == a.password && c.host == a.host
    && (a.port.Some? ==> IsPortText(a.port.value)) && c.port == DropDefault(p.scheme, PortNumber(a))
    && c.path == (if p.path == [] then "/" else p.path)
    && c.query == UrlEncode(Sort(ParseQuery(p.query)))
    && c.fragment == SpaRoute(p.fragment)
  }

  lemma {:induction false} PortIsSmall(scheme: string, a: Authority)
    requires a.port.Some? ==> IsPortText(a.port.value)
    ensures var port := DropDefault(scheme, PortNumber(a));
            port.Some? ==> port.value <= 65535 && port.value != DefaultPort(scheme)
  {
  }

  lemma {:induction false} PartsAreValid(c: Components, p: Parts, a: Authority)
    requires ComesFrom(c, p, a)
    requires c.scheme in ["http", "https"] && c.host != [] && NetlocText(p.netloc)
    requires p.path == [] || "/" <= p.path
    requires Lacks(p.path, '#') && Lacks(p.path, '?') && NoUnsafe(p.path) && NoUnsafe(p.fragment)
    ensures ValidComponents(c)
  {
    AuthorityShape(p.netloc);
    QueryIsCanonical(ParseQuery(p.query));
    PortIsSmall(c.scheme, a);
  }

  lemma {:induction false} ComponentsAreValid(url: string)
    requires HttpUrl(url) && PortIsValid(url)
    ensures ValidComponents(ComponentsOf(url))
  {
    var p := SplitUrl(Strip(url));
    SplitHasShape(Strip(url));
    NetlocTextOf(p.netloc);
    PartsAreValid(ComponentsOf(url), p, ParseAuthority(p.netloc));
  }

  // --- Reading a rendered URL back ---

  lemma {:induction false} ColonSplits(before: string, after: string)
    requires Lacks(before, ':')
    ensures BeforeColon(before + [':'] + after) == before && AfterColon(before + [':'] + after) == after
    ensures BeforeColon(before) == before && AfterColon(before) == []
  {
    var s := before + [':'] + after;
    IndexOfIs(s, ':', |before|);
    IndexOfIs(before, ':', |before|);
    assert s[..|before|] == before && s[|before| + 1..] == after;
  }

  /** The last at-sign separates the user information from the host. */
  lemma {:induction false} AtSignSplits(info: string, hostPort: string)
    requires Lacks(hostPort, '@')
    ensures HostPortIn(info + ['@'] + hostPort) == hostPort && UserInfoIn(info + ['@'] + hostPort) == info
    ensures HostPortIn(hostPort) == hostPort && UserInfoIn(hostPort) == []
  {
    var s := info + ['@'] + hostPort;
    LastIndexOfIs(s, '@', |info|);
    LastIndexOfFacts(hostPort, '@');
    assert s[..|info|] == info && s[|info| + 1..] == hostPort;
  }

  lemma {:induction false} HostPortSplits(host: string, port: Option<nat>)
    requires Lacks(host, ':') && Lacks(host, '@')
    ensures var s := HostPortOf(host, port);
            && Lacks(s, '@') && BeforeColon(s) == host
            && AfterColon(s) == if port.Some? then Decimal(port.value) else []
  {
    ColonSplits(host, if port.Some? then Decimal(port.value) else []);
  }

  lemma {:induction false} AuthorityRoundTrip(c: Components)
    requires Lacks(c.user, ':') && Lacks(c.host, ':') && Lacks(c.host, '@') && Lower(c.host) == c.host
    ensures ParseAuthority(NetlocOf(c)) ==
            Authority(c.user, c.password, c.host, if c.port.Some? then Some(Decimal(c.port.value)) else None)
  {
    HostPortSplits(c.host, c.port);
    AtSignSplits(UserInfoOf(c.user, c.password), HostPortOf(c.host, c.port));
    ColonSplits(c.user, c.password);
    ColonSplits([], []);
  }

  lemma {:induction false} DecimalPort(n: nat)
    requires n <= 65535
    ensures IsPortText(Decimal(n)) && ParseDecimal(Decimal(n)) == n
  {
    ParseDecimalInverts(n);
  }

  function PartsOf(c: Components): Parts {
    Parts(c.scheme, NetlocOf(c), c.path, c.query, c.fragment)
  }

  lemma {:induction false} NetlocIsText(c: Components)
    requires NetlocText(c.user) && NetlocText(c.password) && NetlocText(c.host)
    ensures NetlocText(NetlocOf(c)) && NetlocLength(NetlocOf(c)) == |NetlocOf(c)|
    ensures NoUnsafe(NetlocOf(c)) && !HasBracket(NetlocOf(c))
  {
    var s := NetlocOf(c);
    assert c.port.Some? ==> NetlocText(Decimal(c.port.value));
    assert NetlocText(HostPortOf(c.host, c.port)) && NetlocText(UserInfoOf(c.user, c.password));
    NetlocLengthIs(s, |s|);
  }

  predicate QueryChar(c: char) {
    QuotedChar(c) || c == '=' || c == '&'
  }

  lemma {:induction false} QueryCharIsPlain(c: char)
    requires QueryChar(c)
    ensures !IsUnsafe(c) && c != '#' && !IsSpace(c)
  {
  }

  lemma {:induction false} QueryIsText(q: string)
    requires q == UrlEncode(Sort(ParseQuery(q)))
    ensures NoUnsafe(q) && Lacks(q, '#') && (q != [] ==> !IsSpace(q[|q| - 1]))
  {
    EncodedIsPlain(Sort(ParseQuery(q)));
    forall i | 0 <= i < |q| ensures !IsUnsafe(q[i]) && q[i] != '#' && !IsSpace(q[i]) {
      QueryCharIsPlain(q[i]);
    }
  }

  /** Rendered components split into themselves. */
  lemma {:induction false} RenderSplits(c: Components)
    requires ValidComponents(c)
    ensures SplitUrl(Render(c)) == PartsOf(c)
  {
    NetlocIsText(c);
    QueryIsText(c.query);
    SplitInvertsUnsplit(PartsOf(c));
  }

  /** A URL that splits into canonical components has just those components. */
  lemma {:induction false} CanonicalComponents(url: string, c: Components)
    requires ValidComponents(c) && SplitUrl(Strip(url)) == PartsOf(c)
    ensures HttpUrl(url) && PortIsValid(url) && ComponentsOf(url) == c
  {
    AuthorityRoundTrip(c);
    NetlocIsText(c);
    if c.port.Some? {
      DecimalPort(c.port.value);
    }
  }

  lemma {:induction false} RenderInjective(c: Components, d: Components)
    requires ValidComponents(c) && ValidComponents(d)
    ensures Render(c) == Render(d) ==> c == d
  {
    RenderSplits(c);
    RenderSplits(d);
    AuthorityRoundTrip(c);
    AuthorityRoundTrip(d);
    if Render(c) == Render(d) && c.port.Some? && d.port.Some? {
      DecimalInjective(c.port.value, d.port.value);
    }
  }

  // --- Exactness ---

  lemma {:induction false} IdentityPort(scheme: string, a: Authority)
    requires scheme in ["http", "https"] && (a.port.Some? ==> IsPortText(a.port.value))
    ensures var own, kept := if scheme == "https" then 443 else 80, DropDefault(scheme, PortNumber(a));
            && kept != Some(own)
            && (if a.port.Some? then ParseDecimal(a.port.value) else own) == if kept.Some? then kept.value else own
  {
  }

  lemma {:induction false} IdentityRoute(fragment: string)
    ensures SpaRoute(fragment) == if fragment != "" && (fragment[0] == '/' || "!/" <= fragment) then fragment else ""
  {
  }

  /** All of an identity but its query is in the components, the port filled in. */
  lemma {:induction false} IdentityFields(url: string)
    requires HttpUrl(url) && PortIsValid(url)
    ensures var c, own := ComponentsOf(url), if ComponentsOf(url).scheme == "https" then 443 else 80;
            && c.port != Some(own)
            && IdentityOf(url) ==
                 Identity(c.scheme, c.user, c.password, c.host, if c.port.Some? then c.port.value else own, c.path,
                          multiset(ParseQuery(SplitUrl(Strip(url)).query)), c.fragment)
  {
    var p := SplitUrl(Strip(url));
    IdentityPort(p.scheme, ParseAuthority(p.netloc));
    IdentityRoute(p.fragment);
  }

  lemma {:induction false} QueriesAgree(p: seq<Pair>, q: seq<Pair>)
    ensures UrlEncode(Sort(p)) == UrlEncode(Sort(q)) <==> multiset(p) == multiset(q)
  {
    SortCanonical(p, q);
    QueryRoundTrip(Sort(p));
    QueryRoundTrip(Sort(q));
  }

  lemma {:induction false} ComponentsAreIdentity(a: string, b: string)
    requires HttpUrl(a) && PortIsValid(a) && HttpUrl(b) && PortIsValid(b)
    ensures ComponentsOf(a) == ComponentsOf(b) <==> IdentityOf(a) == IdentityOf(b)
  {
    var p, q := ParseQuery(SplitUrl(Strip(a)).query), ParseQuery(SplitUrl(Strip(b)).query);
    QueriesAgree(p, q);
    IdentityFields(a);
    IdentityFields(b);
    assert ComponentsOf(a).query == UrlEncode(Sort(p)) && ComponentsOf(b).query == UrlEncode(Sort(q));
  }

  /** Two URLs share a normal form iff they agree on scheme, host, effective port, path, user
      information, the multiset of decoded query pairs and the SPA fragment. */
  lemma {:induction false} NormalFormIsExact(a: string, b: string)
    requires HttpUrl(a) && PortIsValid(a) && HttpUrl(b) && PortIsValid(b)
    ensures Normalize(a) == Normalize(b) <==> IdentityOf(a) == IdentityOf(b)
  {
    ComponentsAreValid(a);
    ComponentsAreValid(b);
    RenderInjective(ComponentsOf(a), ComponentsOf(b));
    ComponentsAreIdentity(a, b);
  }

  /** The port left in a normal form: none when none is written or it is 443 of https or 80 of http. */
  lemma {:induction false} PortIsExact(url: string)
    requires HttpUrl(url) && PortIsValid(url)
    ensures var p := SplitUrl(Strip(url));
            var written := AfterColon(HostPortIn(p.netloc));
            ComponentsOf(url).port ==
            if written == "" || ParseDecimal(written) == (if p.scheme == "https" then 443 else 80) then None
            else Some(ParseDecimal(written))
  {
  }

  // --- The normal form, spelled out ---

  /** A host and port as written, with user information or without. */
  function WrittenNetloc(user: string, password: string, host: string, port: Option<nat>): string {
    (if user == "" && password == "" then "" else if password == "" then user + "@" else user + ":" + password + "@")
    + (host + if port.Some? then ":" + Decimal(port.value) else "")
  }

  lemma {:induction false} WrittenNetlocIs(user: string, password: string, host: string, port: Option<nat>)
    ensures WrittenNetloc(user, password, host, port) ==
            NetlocOf(Components("", user, password, host, port, "", "", ""))
  {
  }

  lemma {:induction false} WrittenAuthority(user: string, password: string, host: string, port: Option<nat>)
    requires Lacks(user, ':') && Lacks(host, ':') && Lacks(host, '@')
    ensures ParseAuthority(WrittenNetloc(user, password, host, port)) ==
            Authority(user, password, Lower(host), if port.Some? then Some(Decimal(port.value)) else None)
  {
    WrittenNetlocIs(user, password, host, port);
    HostPortSplits(host, port);
    AtSignSplits(UserInfoOf(user, password), HostPortOf(host, port));
    ColonSplits(user, password);
    ColonSplits([], []);
  }

  /** `normalize` on a URL put together from its parts: the host in lower case, the port unless it is the scheme's own,
      a bare path as a slash, the query pairs sorted, and the fragment only when it is a route. */
  lemma {:induction false} NormalizeWritten(p: Parts, user: string, password: string, host: string, port: Option<nat>)
    requires SplitsCleanly(p) && Trimmed(UnsplitUrl(p)) && !HasBracket(p.netloc) && host != ""
    requires p.netloc == WrittenNetloc(user, password, host, port)
    requires Lacks(user, ':') && Lacks(host, ':') && Lacks(host, '@') && (port.Some? ==> port.value <= 65535)
    ensures var own := if p.scheme == "https" then Some(443) else Some(80);
            var route := p.fragment != "" && (p.fragment[0] == '/' || "!/" <= p.fragment);
            && HttpUrl(UnsplitUrl(p)) && PortIsValid(UnsplitUrl(p))
            && Normalize(UnsplitUrl(p)) == Ok(UnsplitUrl(Parts(
                 p.scheme, WrittenNetloc(user, password, Lower(host), if port == own then None else port),
                 if p.path == "" then "/" else p.path, UrlEncode(Sort(ParseQuery(p.query))),
                 if route then p.fragment else "")))
  {
    var url := UnsplitUrl(p);
    StripTrimmed(url);
    SplitInvertsUnsplit(p);
    WrittenAuthority(user, password, host, port);
    if port.Some? {
      DecimalPort(port.value);
    }
    WrittenNetlocIs(user, password, Lower(host), DropDefault(p.scheme, port));
    IdentityRoute(p.fragment);
  }

  // --- Normalizing twice ---

  /** The one shape a second pass changes: nothing follows the path, and it ends in white space. */
  predicate EndsInSpace(c: Components) {
    c.query == [] && c.fragment == [] && c.path != [] && IsSpace(c.path[|c.path| - 1])
  }

  lemma {:induction false} TrimRightSuffix(a: string, b: string)
    requires TrimRight(b) != []
    ensures TrimRight(a + b) == a + TrimRight(b)
    decreases |b|
  {
    var s := a + b;
    if IsSpace(b[|b| - 1]) {
      assert s[..|s| - 1] == a + b[..|b| - 1];
      TrimRightSuffix(a, b[..|b| - 1]);
    }
  }

  /** The components after a second pass. */
  function Settled(c: Components): Components {
    if EndsInSpace(c) then c.(path := TrimRight(c.path)) else c
  }

  lemma {:induction false} SettledIsValid(c: Components)
    requires ValidComponents(c)
    ensures ValidComponents(Settled(c)) && !EndsInSpace(Settled(c))
  {
    TrimRightFacts(c.path);
    var path := TrimRight(c.path);
    assert c.path[0] == '/';
    if EndsInSpace(c) {
      assert path[0] == c.path[0];
      assert "/" <= path;
    }
  }

  /** A kept fragment never ends in white space: the input was stripped. */
  predicate FragmentIsTrimmed(c: Components) {
    c.fragment != [] ==> !IsSpace(c.fragment[|c.fragment| - 1])
  }

  lemma {:induction false} StripOfRender(c: Components)
    requires ValidComponents(c) && FragmentIsTrimmed(c)
    ensures Strip(Render(c)) == Render(Settled(c))
  {
    TrimLeftOfRender(c);
    if EndsInSpace(c) {
      StripOfBarePath(c);
    } else {
      TrimRightOfRender(c);
    }
  }

  lemma {:induction false} TrimLeftOfRender(c: Components)
    requires c.scheme in ["http", "https"]
    ensures TrimLeft(Render(c)) == Render(c)
  {
    WebScheme(c.scheme);
    assert Render(c)[0] == c.scheme[0];
  }

  lemma {:induction false} TrimRightOfRender(c: Components)
    requires ValidComponents(c) && FragmentIsTrimmed(c) && !EndsInSpace(c)
    ensures TrimRight(Render(c)) == Render(c)
  {
    QueryIsText(c.query);
    LastOfRender(c);
  }

  lemma {:induction false} StripOfBarePath(c: Components)
    requires EndsInSpace(c) && "/" <= c.path
    ensures TrimRight(Render(c)) == Render(c.(path := TrimRight(c.path)))
  {
    var head := c.scheme + "://" + NetlocOf(c);
    assert c.path[0] == '/';
    TrimRightFacts(c.path);
    TrimRightSuffix(head, c.path);
    assert Render(c) == head + c.path;
    assert Render(c.(path := TrimRight(c.path))) == head + TrimRight(c.path);
  }

  lemma {:induction false} LastOfRender(c: Components)
    requires c.path != []
    ensures var s := Render(c);
            s != [] && s[|s| - 1] ==
              if c.fragment != [] then c.fragment[|c.fragment| - 1]
              else if c.query != [] then c.query[|c.query| - 1]
              else c.path[|c.path| - 1]
  {
  }

  lemma {:induction false} DropUnsafeKeepsLast(s: string)
    requires s != [] && !IsUnsafe(s[|s| - 1])
    ensures var r := DropUnsafe(s); r != [] && r[|r| - 1] == s[|s| - 1]
  {
    if |s| > 1 {
      DropUnsafeKeepsLast(s[1..]);
    }
  }

  lemma {:induction false} DropControlsFacts(s: string)
    ensures DropControls(s) != [] ==> DropControls(s)[|DropControls(s)| - 1] == s[|s| - 1]
    ensures |DropControls(s)| <= |s|
  {
    if s != [] && s[0] <= ' ' {
      DropControlsFacts(s[1..]);
    }
  }

  predicate SameLast(f: string, s: string) {
    f != [] && s != [] && f[|f| - 1] == s[|s| - 1]
  }

  lemma {:induction false} SuffixEnds(f: string, s: string, i: nat)
    requires i <= |s| && SameLast(f, s[i..])
    ensures SameLast(f, s)
  {
  }

  lemma {:induction false} TailFragmentIsLast(scheme: string, netloc: string, s: string)
    requires SplitTail(scheme, netloc, s).fragment != []
    ensures SameLast(SplitTail(scheme, netloc, s).fragment, s)
  {
  }

  lemma {:induction false} NetlocFragmentIsLast(scheme: string, rest: string)
    requires SplitNetloc(scheme, rest).fragment != []
    ensures SameLast(SplitNetloc(scheme, rest).fragment, rest)
  {
    if "//" <= rest {
      var n := NetlocLength(rest[2..]);
      TailFragmentIsLast(scheme, rest[2..2 + n], rest[2 + n..]);
      SuffixEnds(SplitNetloc(scheme, rest).fragment, rest, 2 + n);
    } else {
      TailFragmentIsLast(scheme, [], rest);
    }
  }

  lemma {:induction false} FragmentIsLast(u: string)
    requires SplitCleaned(u).fragment != []
    ensures SameLast(SplitCleaned(u).fragment, u)
  {
    var n := SchemeLength(u);
    NetlocFragmentIsLast(SplitCleaned(u).scheme, u[n..]);
    SuffixEnds(SplitCleaned(u).fragment, u, n);
  }

  lemma {:induction false} FragmentEnds(url: string)
    requires SplitUrl(Strip(url)).fragment != []
    ensures var f := SplitUrl(Strip(url)).fragment; !IsSpace(f[|f| - 1])
  {
    FragmentIsLast(Clean(Strip(url)));
    CleanEnds(url);
  }

  lemma {:induction false} CleanEnds(url: string)
    ensures var u := Clean(Strip(url)); u != [] ==> !IsSpace(u[|u| - 1])
  {
    var s := Strip(url);
    TrimRightFacts(TrimLeft(url));
    DropControlsFacts(s);
    var controlled := DropControls(s);
    if controlled != [] {
      assert !IsSpace(controlled[|controlled| - 1]);
      DropUnsafeKeepsLast(controlled);
    }
  }

  lemma {:induction false} ComponentsAreTrimmed(url: string)
    requires HttpUrl(url) && PortIsValid(url)
    ensures ValidComponents(ComponentsOf(url)) && FragmentIsTrimmed(ComponentsOf(url))
  {
    ComponentsAreValid(url);
    RouteIsTrimmed(url);
  }

  lemma {:induction false} RouteIsTrimmed(url: string)
    requires PortIsValid(url)
    ensures FragmentIsTrimmed(ComponentsOf(url))
  {
    var fragment := SplitUrl(Strip(url)).fragment;
    if fragment != [] {
      FragmentEnds(url);
    }
    RouteKeepsTrim(fragment, ComponentsOf(url));
  }

  lemma {:induction false} RouteKeepsTrim(fragment: string, c: Components)
    requires c.fragment == SpaRoute(fragment)
    requires fragment != [] ==> !IsSpace(fragment[|fragment| - 1])
    ensures FragmentIsTrimmed(c)
  {
  }

  lemma {:induction false} RenderNormalizes(c: Components)
    requires ValidComponents(c) && FragmentIsTrimmed(c)
    ensures HttpUrl(Render(c)) && PortIsValid(Render(c)) && Normalize(Render(c)) == Ok(Render(Settled(c)))
  {
    SettledIsValid(c);
    StripOfRender(c);
    RenderSplits(Settled(c));
    CanonicalComponents(Render(c), Settled(c));
  }

  /** Normalizing a normal form: exact, except that a bare path loses its trailing white space. */
  lemma {:induction false} NormalizeTwice(url: string)
    requires HttpUrl(url) && PortIsValid(url)
    ensures var c := ComponentsOf(url);
            && HttpUrl(Render(c)) && PortIsValid(Render(c))
            && Normalize(Render(c)) == Ok(Render(Settled(c)))
            && (Normalize(Render(c)) == Normalize(url) <==> !EndsInSpace(c))
  {
    var c := ComponentsOf(url);
    ComponentsAreTrimmed(url);
    RenderNormalizes(c);
    SettledIsValid(c);
    RenderInjective(c, Settled(c));
    TrimRightFacts(c.path);
  }

  /** A third pass never changes anything. */
  lemma {:induction false} NormalizeSettles(url: string)
    requires HttpUrl(url) && PortIsValid(url)
    ensures var twice := Render(Settled(ComponentsOf(url)));
            HttpUrl(twice) && PortIsValid(twice) && Normalize(twice) == Ok(twice)
  {
    ComponentsAreTrimmed(url);
    SettledIsValid(ComponentsOf(url));
    RenderNormalizes(Settled(ComponentsOf(url)));
  }

  /** The defect is real: the link `http://h/a #x` normalizes to a URL whose normal form differs. */
  lemma {:induction false} IdempotenceFails()
    ensures var url := "http://h/a #x";
            HttpUrl(url) && PortIsValid(url) && Normalize(url) == Ok("http://h/a ") && EndsInSpace(ComponentsOf(url))
  {
    ExampleSplits();
    ExampleNormalizes("http://h/a #x");
  }

  lemma {:induction false} ExampleNormalizes(url: string)
    requires SplitUrl(Strip(url)) == Parts("http", "h", "/a ", [], "x")
    ensures HttpUrl(url) && PortIsValid(url) && Normalize(url) == Ok("http://h/a ") && EndsInSpace(ComponentsOf(url))
  {
    ExampleAuthority();
    ExampleFragment();
    BareIsHttp(url, SplitUrl(Strip(url)), "h");
    BareComponents(url, SplitUrl(Strip(url)), "h");
    ExampleRenders(ComponentsOf(url));
  }

  lemma {:induction false} ExampleFragment()
    ensures SpaRoute("x") == []
  {
    var f := "x";
    assert f[0] != '/' && f[0] != '!';
    assert "/"[0] == '/' && "!/"[0] == '!';
  }

  lemma {:induction false} BareIsHttp(url: string, p: Parts, host: string)
    requires SplitUrl(Strip(url)) == p && p.scheme in ["http", "https"] && !HasBracket(p.netloc) && host != []
    requires ParseAuthority(p.netloc) == Authority([], [], host, None)
    ensures HttpUrl(url) && PortIsValid(url)
  {
  }

  /** A URL with nothing but a host and a path. */
  lemma {:induction false} BareComponents(url: string, p: Parts, host: string)
    requires SplitUrl(Strip(url)) == p && p.path != [] && p.query == [] && SpaRoute(p.fragment) == []
    requires ParseAuthority(p.netloc) == Authority([], [], host, None)
    ensures PortIsValid(url) && ComponentsOf(url) == Components(p.scheme, [], [], host, None, p.path, [], [])
  {
    EmptyQuery();
  }

  lemma {:induction false} EmptyQuery()
    ensures UrlEncode(Sort(ParseQuery([]))) == []
  {
    assert ParseQuery([]) == [];
    assert Sort([]) == [];
  }

  lemma {:induction false} ExampleRenders(c: Components)
    requires c == Components("http", [], [], "h", None, "/a ", [], [])
    ensures Render(c) == "http://h/a " && EndsInSpace(c)
  {
    assert NetlocOf(c) == "h";
    assert "http" + "://" + "h" + "/a " + [] + [] == "http://h/a ";
  }

  lemma {:induction false} ExampleSplits()
    ensures var url := "http://h/a #x";
            Strip(url) == url && SplitUrl(url) == Parts("http", "h", "/a ", [], "x")
  {
    var url := "http://h/a #x";
    assert !IsSpace(url[0]) && !IsSpace(url[|url| - 1]);
    var p := Parts("http", "h", "/a ", [], "x");
    ExampleIsClean(p);
    ExampleUnsplits(p);
    SplitInvertsUnsplit(p);
  }

  lemma {:induction false} ExampleUnsplits(p: Parts)
    requires p == Parts("http", "h", "/a ", [], "x")
    ensures UnsplitUrl(p) == "http://h/a #x"
  {
  }

  lemma {:induction false} ExampleIsClean(p: Parts)
    requires p == Parts("http", "h", "/a ", [], "x")
    ensures SplitsCleanly(p)
  {
    NetlocLengthIs(p.netloc, 1);
  }

  lemma {:induction false} ExampleAuthority()
    ensures ParseAuthority("h") == Authority([], [], "h", None) && !HasBracket("h")
  {
    var c := Components("http", [], [], "h", None, "/", [], []);
    assert NetlocOf(c) == "h";
    AuthorityRoundTrip(c);
  }
}
