/** `normalize` and the crawl scope of `src/audit/crawler/url_policy.py`, on strings.

    `SplitUrl` and `UnsplitUrl` are Python's `urlsplit` and `urlunsplit` for URLs whose network
    location has no bracketed address; letters are lower-cased in ASCII. */
module UrlNormal {
  import opened Text
  import opened FormEncoding

  // --- Strings ---

  /** The index of the last `c` in `s`, or `|s|` when there is none. */
  function LastIndexOf(s: string, c: char): (i: nat)
    ensures i <= |s|
  {
    if s == [] then 0
    else if s[|s| - 1] == c then |s| - 1
    else
      var i := LastIndexOf(s[..|s| - 1], c);
      if i == |s| - 1 then |s| else i
  }

  lemma {:induction false} LastIndexOfFacts(s: string, c: char)
    ensures var i := LastIndexOf(s, c);
            && (forall k :: i < k < |s| ==> s[k] != c)
            && if i < |s| then s[i] == c else forall k :: 0 <= k < |s| ==> s[k] != c
  {
    if s != [] && s[|s| - 1] != c {
      LastIndexOfFacts(s[..|s| - 1], c);
      assert forall k :: 0 <= k < |s| - 1 ==> s[k] == s[..|s| - 1][k];
    }
  }

  lemma {:induction false} LastIndexOfIs(s: string, c: char, i: nat)
    requires i < |s| && s[i] == c && forall k :: i < k < |s| ==> s[k] != c
    ensures LastIndexOf(s, c) == i
  {
    LastIndexOfFacts(s, c);
  }

  predicate HasBracket(s: string) {
    exists i :: 0 <= i < |s| && (s[i] == '[' || s[i] == ']')
  }

  // --- urlsplit ---

  datatype Parts = Parts(scheme: string, netloc: string, path: string, query: string, fragment: string)

  /** Leading control characters and spaces go. */
  function DropControls(s: string): string {
    if s != [] && s[0] <= ' ' then DropControls(s[1..]) else s
  }

  predicate IsUnsafe(c: char) {
    c == '\t' || c == '\r' || c == '\n'
  }

  /** Tabs and line breaks go, wherever they are. */
  function DropUnsafe(s: string): string {
    if s == [] then [] else (if IsUnsafe(s[0]) then [] else [s[0]]) + DropUnsafe(s[1..])
  }

  function Clean(s: string): string {
    DropUnsafe(DropControls(s))
  }

  predicate IsLetter(c: char) {
    'a' <= c <= 'z' || 'A' <= c <= 'Z'
  }

  predicate IsSchemeText(s: string) {
    s != [] && IsLetter(s[0]) &&
    forall i :: 0 <= i < |s| ==> IsLetter(s[i]) || IsDigit(s[i]) || s[i] == '+' || s[i] == '-' || s[i] == '.'
  }

  predicate EndsNetloc(c: char) {
    c == '/' || c == '?' || c == '#'
  }

  function NetlocLength(s: string): (n: nat)
    ensures n <= |s|
  {
    if s == [] || EndsNetloc(s[0]) then 0 else 1 + NetlocLength(s[1..])
  }

  lemma {:induction false} NetlocLengthFacts(s: string)
    ensures var n := NetlocLength(s); (forall i :: 0 <= i < n ==> !EndsNetloc(s[i])) && (n < |s| ==> EndsNetloc(s[n]))
  {
    if s != [] && !EndsNetloc(s[0]) {
      NetlocLengthFacts(s[1..]);
    }
  }

  function SplitTail(scheme: string, netloc: string, s: string): Parts {
    var f := IndexOf(s, '#');
    var q := IndexOf(s[..f], '?');
    Parts(scheme, netloc, s[..q], if q < f then s[q + 1..f] else [], if f < |s| then s[f + 1..] else [])
  }

  function SplitNetloc(scheme: string, rest: string): Parts {
    if "//" <= rest then
      var n := NetlocLength(rest[2..]);
      SplitTail(scheme, rest[2..2 + n], rest[2 + n..])
    else SplitTail(scheme, [], rest)
  }

  function SplitUrl(s: string): Parts {
    SplitCleaned(Clean(s))
  }

  /** How much of `u` is a scheme with its colon. */
  function SchemeLength(u: string): (n: nat)
    ensures n <= |u|
  {
    var i := IndexOf(u, ':');
    if i < |u| && IsSchemeText(u[..i]) then i + 1 else 0
  }

  function SplitCleaned(u: string): Parts {
    var n := SchemeLength(u);
    SplitNetloc(if n == 0 then [] else Lower(u[..n - 1]), u[n..])
  }

  // --- The network location ---

  datatype Authority = Authority(user: string, password: string, host: string, port: Option<string>)

  /** What follows the last at-sign. */
  function HostPortIn(netloc: string): string {
    var at := LastIndexOf(netloc, '@');
    if at < |netloc| then netloc[at + 1..] else netloc
  }

  function UserInfoIn(netloc: string): string {
    var at := LastIndexOf(netloc, '@');
    if at < |netloc| then netloc[..at] else []
  }

  function BeforeColon(s: string): string {
    s[..IndexOf(s, ':')]
  }

  function AfterColon(s: string): string {
    var i := IndexOf(s, ':');
    if i < |s| then s[i + 1..] else []
  }

  /** A missing user name, password or port reads as empty, as `normalize` treats both alike. */
  function ParseAuthority(netloc: string): Authority {
    var info, hostPort := UserInfoIn(netloc), HostPortIn(netloc);
    var port := AfterColon(hostPort);
    Authority(BeforeColon(info), AfterColon(info), Lower(BeforeColon(hostPort)),
              if port == [] then None else Some(port))
  }

  predicate IsPortText(s: string) {
    s != [] && (forall i :: 0 <= i < |s| ==> IsDigit(s[i])) && ParseDecimal(s) <= 65535
  }

  function PortNumber(a: Authority): Option<nat>
    requires a.port.Some? ==> IsPortText(a.port.value)
  {
    if a.port.Some? then Some(ParseDecimal(a.port.value)) else None
  }

  function DefaultPort(scheme: string): nat {
    if scheme == "https" then 443 else 80
  }

  // --- normalize ---

  /** The URLs the crawl keeps: http or https, with a host that is not a bracketed address. */
  predicate HttpUrl(url: string) {
    var p := SplitUrl(Strip(url));
    p.scheme in ["http", "https"] && !HasBracket(p.netloc) && ParseAuthority(p.netloc).host != []
  }

  predicate PortIsValid(url: string) {
    var a := ParseAuthority(SplitUrl(Strip(url)).netloc);
    a.port.Some? ==> IsPortText(a.port.value)
  }

  datatype Components = Components(
    scheme: string, user: string, password: string, host: string, port: Option<nat>,
    path: string, query: string, fragment: string)

  function DropDefault(scheme: string, port: Option<nat>): Option<nat> {
    if port == Some(DefaultPort(scheme)) then None else port
  }

  /** A fragment counts only when it has the shape of a client-side route. */
  function SpaRoute(fragment: string): string {
    if "/" <= fragment || "!/" <= fragment then fragment else []
  }

  function ComponentsOf(url: string): Components
    requires PortIsValid(url)
  {
    var p := SplitUrl(Strip(url));
    var a := ParseAuthority(p.netloc);
    Components(p.scheme, a.user, a.password, a.host, DropDefault(p.scheme, PortNumber(a)),
               if p.path == [] then "/" else p.path,
               UrlEncode(Sort(ParseQuery(p.query))),
               SpaRoute(p.fragment))
  }

  function HostPortOf(host: string, port: Option<nat>): string {
    if port.Some? then host + [':'] + Decimal(port.value) else host
  }

  function UserInfoOf(user: string, password: string): string {
    if password == [] then user else user + [':'] + password
  }

  function NetlocOf(c: Components): string {
    if c.user == [] && c.password == [] then HostPortOf(c.host, c.port)
    else UserInfoOf(c.user, c.password) + ['@'] + HostPortOf(c.host, c.port)
  }

  /** `urlunsplit`, for a URL with a network location. */
  function UnsplitUrl(p: Parts): string {
    p.scheme + "://" + p.netloc + p.path
    + (if p.query == [] then [] else ['?'] + p.query)
    + (if p.fragment == [] then [] else ['#'] + p.fragment)
  }

  function Render(c: Components): string {
    UnsplitUrl(Parts(c.scheme, NetlocOf(c), c.path, c.query, c.fragment))
  }

  /** `normalize`; a malformed port raises. */
  function Normalize(url: string): Result<string, string>
    requires HttpUrl(url)
  {
    if PortIsValid(url) then Ok(Render(ComponentsOf(url))) else Err("port")
  }

  // --- What two URLs must share ---

  datatype Identity = Identity(
    scheme: string, user: string, password: string, host: string, port: nat,
    path: string, pairs: multiset<Pair>, fragment: string)

  function IdentityOf(url: string): Identity
    requires PortIsValid(url)
  {
    var p := SplitUrl(Strip(url));
    var a := ParseAuthority(p.netloc);
    Identity(p.scheme, a.user, a.password, a.host,
             if a.port.Some? then ParseDecimal(a.port.value) else if p.scheme == "https" then 443 else 80,
             if p.path == "" then "/" else p.path,
             multiset(ParseQuery(p.query)),
             if p.fragment != "" && (p.fragment[0] == '/' || "!/" <= p.fragment) then p.fragment else "")
  }

  // --- Splitting a rendered URL ---

  predicate NoUnsafe(s: string) {
    forall i :: 0 <= i < |s| ==> !IsUnsafe(s[i])
  }

  predicate SplitsCleanly(p: Parts) {
    && p.scheme in ["http", "https"]
    && NoUnsafe(p.netloc) && NoUnsafe(p.path) && NoUnsafe(p.query) && NoUnsafe(p.fragment)
    && NetlocLength(p.netloc) == |p.netloc|
    && (p.path == [] || p.path[0] == '/') && '#' !in p.path && '?' !in p.path
    && '#' !in p.query
  }

  lemma {:induction false} DropUnsafeKeeps(s: string)
    requires NoUnsafe(s)
    ensures DropUnsafe(s) == s
  {
    if s != [] {
      DropUnsafeKeeps(s[1..]);
      assert s == [s[0]] + s[1..];
    }
  }

  lemma {:induction false} NetlocLengthIs(s: string, n: nat)
    requires n <= |s| && (forall i :: 0 <= i < n ==> !EndsNetloc(s[i])) && (n < |s| ==> EndsNetloc(s[n]))
    ensures NetlocLength(s) == n
  {
    if n > 0 {
      NetlocLengthIs(s[1..], n - 1);
    }
  }

  function HeadOf(p: Parts): string {
    p.path + if p.query == [] then [] else ['?'] + p.query
  }

  function TailOf(p: Parts): string {
    HeadOf(p) + if p.fragment == [] then [] else ['#'] + p.fragment
  }

  lemma {:induction false} HeadSplits(p: Parts)
    requires SplitsCleanly(p)
    ensures var h := HeadOf(p);
            && IndexOf(h, '?') == |p.path| && h[..|p.path|] == p.path
            && (|p.path| < |h| ==> h[|p.path| + 1..] == p.query) && (|p.path| == |h| ==> p.query == [])
  {
    IndexOfIs(HeadOf(p), '?', |p.path|);
  }

  lemma {:induction false} HashFollowsHead(p: Parts)
    requires SplitsCleanly(p)
    ensures IndexOf(TailOf(p), '#') == |HeadOf(p)|
  {
    IndexOfIs(TailOf(p), '#', |HeadOf(p)|);
  }

  lemma {:induction false} TailSplits(p: Parts)
    requires SplitsCleanly(p)
    ensures SplitTail(p.scheme, p.netloc, TailOf(p)) == p
  {
    var s, h := TailOf(p), HeadOf(p);
    HashFollowsHead(p);
    HeadSplits(p);
    assert s[..|h|] == h && s[..|p.path|] == h[..|p.path|];
    if |p.path| < |h| {
      assert s[|p.path| + 1..|h|] == h[|p.path| + 1..];
    }
    if p.fragment != [] {
      assert s[|h| + 1..] == p.fragment;
    }
  }

  lemma {:induction false} NetlocSplits(p: Parts)
    requires SplitsCleanly(p)
    ensures SplitNetloc(p.scheme, "//" + (p.netloc + TailOf(p))) == p
  {
    var body := p.netloc + TailOf(p);
    var after := "//" + body;
    assert after[2..] == body;
    NetlocLengthFacts(p.netloc);
    NetlocLengthIs(body, |p.netloc|);
    assert after[2..2 + |p.netloc|] == p.netloc && after[2 + |p.netloc|..] == TailOf(p);
    TailSplits(p);
  }

  lemma {:induction false} SchemeSplits(scheme: string, after: string)
    requires scheme in ["http", "https"] && NoUnsafe(after)
    ensures SplitUrl(scheme + [':'] + after) == SplitNetloc(scheme, after)
  {
    var s := scheme + [':'] + after;
    WebScheme(scheme);
    DropUnsafeKeeps(s);
    assert Clean(s) == s;
    IndexOfIs(s, ':', |scheme|);
    assert s[..|scheme|] == scheme;
    assert SchemeLength(s) == |scheme| + 1;
    assert s[|scheme| + 1..] == after;
  }

  lemma {:induction false} WebScheme(scheme: string)
    requires scheme in ["http", "https"]
    ensures IsSchemeText(scheme) && Lower(scheme) == scheme && scheme[0] == 'h'
    ensures NoUnsafe(scheme) && forall i :: 0 <= i < |scheme| ==> scheme[i] != ':'
  {
  }

  /** `urlsplit` undoes `urlunsplit`. */
  lemma {:induction false} SplitInvertsUnsplit(p: Parts)
    requires SplitsCleanly(p)
    ensures SplitUrl(UnsplitUrl(p)) == p
  {
    var after := "//" + (p.netloc + TailOf(p));
    assert UnsplitUrl(p) == p.scheme + [':'] + after;
    assert NoUnsafe(TailOf(p));
    SchemeSplits(p.scheme, after);
    NetlocSplits(p);
  }

  // --- What splitting overlooks ---

  lemma {:induction false} DropUnsafeJoins(a: string, b: string)
    ensures DropUnsafe(a + b) == DropUnsafe(a) + DropUnsafe(b)
  {
    if a == [] {
      assert a + b == b;
    } else {
      assert (a + b)[1..] == a[1..] + b;
      DropUnsafeJoins(a[1..], b);
    }
  }

  lemma {:induction false} CleanOverlooks(a: string, c: char, b: string)
    requires c in "\t\r\n"
    ensures Clean(a + ([c] + b)) == Clean(a + b)
    decreases |a|
  {
    var whole := a + ([c] + b);
    if a == [] {
      assert whole == [c] + b && a + b == b && ([c] + b)[1..] == b;
    } else if a[0] <= ' ' {
      assert whole[1..] == a[1..] + ([c] + b) && (a + b)[1..] == a[1..] + b;
      CleanOverlooks(a[1..], c, b);
    } else {
      UnsafeOverlooked(a, c, b);
    }
  }

  lemma {:induction false} UnsafeOverlooked(a: string, c: char, b: string)
    requires c in "\t\r\n"
    ensures DropUnsafe(a + ([c] + b)) == DropUnsafe(a + b)
  {
    DropUnsafeJoins(a, [c] + b);
    DropUnsafeJoins(a, b);
    assert ([c] + b)[1..] == b && [] + DropUnsafe(b) == DropUnsafe(b);
  }

  /** A tab or a line break inside a URL makes no difference, wherever it stands. */
  lemma {:induction false} BreaksAreOverlooked(a: string, c: char, b: string)
    requires c in "\t\r\n"
    ensures SplitUrl(a + ([c] + b)) == SplitUrl(a + b)
  {
    CleanOverlooks(a, c, b);
  }

  /** A scheme is read whatever its letter case. */
  lemma {:induction false} SchemeInAnyCase(written: string, after: string)
    requires Lower(written) in ["http", "https"] && NoUnsafe(after)
    ensures SplitUrl(written + ([':'] + after)) == SplitNetloc(Lower(written), after)
  {
    var s := written + ([':'] + after);
    WebScheme(Lower(written));
    forall i | 0 <= i < |written| ensures IsLetter(written[i]) && written[i] != ':' && !IsUnsafe(written[i]) {
      assert IsLetter(Lower(written)[i]) by {
        WebLetters(Lower(written), i);
      }
    }
    DropUnsafeKeeps(s);
    assert Clean(s) == s;
    IndexOfIs(s, ':', |written|);
    assert s[..|written|] == written;
    assert SchemeLength(s) == |written| + 1;
    assert s[|written| + 1..] == after;
  }

  lemma {:induction false} WebLetters(scheme: string, i: nat)
    requires scheme in ["http", "https"] && i < |scheme|
    ensures 'a' <= scheme[i] <= 'z'
  {
  }
}
