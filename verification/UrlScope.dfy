/** The crawl scope of `src/audit/crawler/url_policy.py`: what a seed URL admits. The public-suffix
    lookup is a function parameter, `domain`. */
module UrlScope {
  import opened Text
  import opened UrlNormal
  import opened UrlCanonical

  type DomainOf = string -> string

  datatype HostScope = HostScope(domain: string, host: string, prefix: string)

  // --- The path part ---

  predicate LooksLikeFile(segment: string) {
    '.' in segment && segment[0] != '.'
  }

  predicate EndsInSlash(path: string) {
    path != [] && path[|path| - 1] == '/'
  }

  /** What follows the last slash. */
  function LastSegment(path: string): string {
    var i := LastIndexOf(path, '/');
    if i < |path| then path[i + 1..] else path
  }

  function Directory(path: string): string {
    var i := LastIndexOf(path, '/');
    if i < |path| then path[..i + 1] else []
  }

  function PathPrefixFor(path: string): string {
    if path == [] then "/"
    else if EndsInSlash(path) then path
    else if LooksLikeFile(LastSegment(path)) then Directory(path)
    else path + ['/']
  }

  function StripSlashes(path: string): string {
    if EndsInSlash(path) then StripSlashes(path[..|path| - 1]) else path
  }

  predicate PathInScope(path: string, prefix: string) {
    prefix == "/" || path == StripSlashes(prefix) || prefix <= path
  }

  // --- Scope of a URL ---

  function PathOf(url: string): string {
    var path := SplitUrl(url).path;
    if path == [] then "/" else path
  }

  function HostOf(url: string): string {
    ParseAuthority(SplitUrl(url).netloc).host
  }

  function BuildScope(seed: string, wholeHost: bool, domain: DomainOf): HostScope {
    HostScope(domain(HostOf(seed)), HostOf(seed), if wholeHost then "/" else PathPrefixFor(PathOf(seed)))
  }

  function StripWww(host: string): string {
    if "www." <= host then host[4..] else host
  }

  predicate IsInScope(url: string, scope: HostScope, allowSubdomains: bool, domain: DomainOf) {
    && SplitUrl(url).scheme in ["http", "https"]
    && HostOf(url) != []
    && (if allowSubdomains then domain(HostOf(url)) == scope.domain
        else StripWww(HostOf(url)) == StripWww(scope.host))
    && PathInScope(PathOf(url), scope.prefix)
  }

  function SeedPath(path: string): string {
    if path == [] || EndsInSlash(path) || LooksLikeFile(LastSegment(path)) then path else path + ['/']
  }

  /** `normalize_seed_url`: a seed that reads as a directory gets its trailing slash. */
  function NormalizeSeedUrl(seed: string): string {
    var p := SplitUrl(Strip(seed));
    UnsplitUrl(p.(path := SeedPath(p.path)))
  }

  // --- The prefix ---

  lemma {:induction false} PrefixIsDirectory(path: string)
    requires path == [] || path[0] == '/'
    ensures var prefix := PathPrefixFor(path); "/" <= prefix && EndsInSlash(prefix)
  {
    LastIndexOfFacts(path, '/');
  }

  lemma {:induction false} SlashesOff(path: string)
    requires !EndsInSlash(path)
    ensures StripSlashes(path + ['/']) == path
  {
    assert (path + ['/'])[..|path|] == path;
  }

  lemma {:induction false} PathInOwnScope(path: string)
    requires path != [] && path[0] == '/'
    ensures PathInScope(path, PathPrefixFor(path))
  {
    if !EndsInSlash(path) && !LooksLikeFile(LastSegment(path)) {
      SlashesOff(path);
    }
  }

  /** The page a crawl starts from is never refused by the crawl's own scope. */
  lemma {:induction false} SeedInOwnScope(seed: string, wholeHost: bool, allowSubdomains: bool, domain: DomainOf)
    requires SplitUrl(seed).scheme in ["http", "https"] && HostOf(seed) != []
    ensures IsInScope(seed, BuildScope(seed, wholeHost, domain), allowSubdomains, domain)
  {
    SplitHasShape(seed);
    HostNeedsNetloc(SplitUrl(seed).netloc);
    PathInOwnScope(PathOf(seed));
  }

  lemma {:induction false} HostNeedsNetloc(netloc: string)
    requires ParseAuthority(netloc).host != []
    ensures netloc != []
  {
  }

  // --- Scope and normal forms ---

  /** Checking a link before or after normalizing it gives the same answer. */
  lemma {:induction false} ScopeOfNormalForm(url: string, scope: HostScope, allowSubdomains: bool, domain: DomainOf)
    requires HttpUrl(url) && PortIsValid(url)
    ensures IsInScope(Render(ComponentsOf(url)), scope, allowSubdomains, domain)
            <==> IsInScope(Strip(url), scope, allowSubdomains, domain)
  {
    var c := ComponentsOf(url);
    ComponentsAreValid(url);
    RenderSplits(c);
    AuthorityRoundTrip(c);
  }

  lemma {:induction false} SeedPathKeepsPrefix(path: string)
    ensures PathPrefixFor(SeedPath(path)) == PathPrefixFor(path)
  {
  }

  lemma {:induction false} SeedSplits(seed: string)
    requires HttpUrl(seed)
    ensures var p := SplitUrl(Strip(seed));
            SplitUrl(NormalizeSeedUrl(seed)) == p.(path := SeedPath(p.path))
  {
    var p := SplitUrl(Strip(seed));
    SplitHasShape(Strip(seed));
    HostNeedsNetloc(p.netloc);
    SeedPathIsClean(p);
    SplitInvertsUnsplit(p.(path := SeedPath(p.path)));
  }

  lemma {:induction false} SeedPathIsClean(p: Parts)
    requires SplitShape(p) && p.netloc != [] && p.scheme in ["http", "https"]
    ensures SplitsCleanly(p.(path := SeedPath(p.path)))
  {
  }

  lemma {:induction false} ScopeDependsOn(u: string, v: string, wholeHost: bool, domain: DomainOf)
    requires SplitUrl(u).netloc == SplitUrl(v).netloc && PathPrefixFor(PathOf(u)) == PathPrefixFor(PathOf(v))
    ensures BuildScope(u, wholeHost, domain) == BuildScope(v, wholeHost, domain)
  {
  }

  /** With or without its trailing slash, a seed gives one and the same scope. */
  lemma {:induction false} SeedSpellingsAgree(seed: string, wholeHost: bool, domain: DomainOf)
    requires HttpUrl(seed)
    ensures BuildScope(NormalizeSeedUrl(seed), wholeHost, domain) == BuildScope(Strip(seed), wholeHost, domain)
  {
    SeedSplits(seed);
    SeedPathKeepsPrefix(SplitUrl(Strip(seed)).path);
    ScopeDependsOn(NormalizeSeedUrl(seed), Strip(seed), wholeHost, domain);
  }

  // --- What the scope refuses ---

  lemma {:induction false} PrefixOfDirectory(dir: string)
    requires !EndsInSlash(dir) && dir != "" && !LooksLikeFile(LastSegment(dir))
    ensures PathPrefixFor(dir) == dir + "/" && PathPrefixFor(dir + "/") == dir + "/" && StripSlashes(dir + "/") == dir
  {
    SlashesOff(dir);
  }

  /** A directory as seed, with its trailing slash or without, admits itself and what lies below it: a path that only
      starts with the same letters is refused. */
  lemma {:induction false} DirectoryAdmits(dir: string, path: string)
    requires "/" < dir && !EndsInSlash(dir) && !LooksLikeFile(LastSegment(dir))
    ensures PathInScope(path, PathPrefixFor(dir)) <==> path == dir || dir + "/" <= path
    ensures PathInScope(path, PathPrefixFor(dir + "/")) <==> path == dir || dir + "/" <= path
  {
    PrefixOfDirectory(dir);
    assert (dir + "/")[0] == '/' && |dir + "/"| > 1;
  }

  lemma {:induction false} FileIsLast(dir: string, file: string)
    requires '/' !in file && '.' in file && file[0] != '.'
    ensures var seed := dir + "/" + file;
            !EndsInSlash(seed) && LastSegment(seed) == file && Directory(seed) == dir + "/"
  {
    var seed := dir + "/" + file;
    LastIndexOfIs(seed, '/', |dir|);
    assert seed[|dir| + 1..] == file && seed[..|dir| + 1] == dir + "/";
    assert file[|file| - 1] in file;
  }

  /** A file as seed admits its directory and what lies below that; at the top, the whole host. */
  lemma {:induction false} FileAdmits(dir: string, file: string, path: string)
    requires (dir == "" || "/" < dir) && !EndsInSlash(dir)
    requires '/' !in file && '.' in file && file[0] != '.'
    ensures PathInScope(path, PathPrefixFor(dir + "/" + file)) <==> dir == "" || path == dir || dir + "/" <= path
  {
    FileIsLast(dir, file);
    SlashesOff(dir);
    assert PathPrefixFor(dir + "/" + file) == dir + "/";
    assert |dir + "/"| == |dir| + 1;
  }

  /** What a crawl from a directory follows: web links on its own host, `www.` or not, or on its registrable domain when
      subdomains are allowed, and unless the whole host is wanted only the directory itself and what is below. */
  lemma {:induction false} ScopeIsExact(seed: string, dir: string, url: string, wholeHost: bool, allowSubdomains: bool, domain: DomainOf)
    requires PathOf(seed) == dir && "/" < dir && !EndsInSlash(dir) && !LooksLikeFile(LastSegment(dir))
    ensures var host, home := HostOf(url), HostOf(seed);
            IsInScope(url, BuildScope(seed, wholeHost, domain), allowSubdomains, domain) <==>
              && SplitUrl(url).scheme in ["http", "https"] && host != ""
              && (if allowSubdomains then domain(host) == domain(home) else StripWww(host) == StripWww(home))
              && (wholeHost || PathOf(url) == dir || dir + "/" <= PathOf(url))
  {
    DirectoryAdmits(dir, PathOf(url));
  }

  lemma {:induction false} WwwIsDropped(host: string)
    ensures StripWww("www." + host) == host && (!("www." <= host) ==> StripWww(host) == host)
  {
  }

  /** A seed that reads as a directory gets the slash it lacks; one that ends in a slash, in a file, or at the host is
      left as it is. */
  lemma {:induction false} SeedGetsSlash(p: Parts)
    requires SplitsCleanly(p) && Trimmed(UnsplitUrl(p))
    ensures NormalizeSeedUrl(UnsplitUrl(p)) ==
            if p.path == "" || p.path[|p.path| - 1] == '/' || ('.' in LastSegment(p.path) && LastSegment(p.path)[0] != '.')
            then UnsplitUrl(p) else UnsplitUrl(p.(path := p.path + "/"))
  {
    StripTrimmed(UnsplitUrl(p));
    SplitInvertsUnsplit(p);
  }
}
