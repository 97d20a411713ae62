/**
 * The endpoint-discovery crawl: which URLs are worth visiting, how URLs are
 * normalised for de-duplication, and the worklist crawl that visits each
 * normalised page once, records the API calls it saw and the links it found,
 * and collects the distinct API endpoints.
 *
 * URL parsing is a parameter (`parse`), and the live site is an oracle
 * (`Site`): what a navigation raises, which responses a page receives while
 * it loads and settles, and the anchors it holds.
 */
module Discovery {
  import opened Wrappers
  import opened Text

  const BASE_DOMAIN: string := "app.cocos.capital"
  const API_DOMAIN: string := "api.cocos.capital"
  /** Path fragments of pages that would end the session or are not worth crawling. */
  const SKIP_PATTERNS: seq<string> := ["/login", "/logout", "/register", "/forgot-password"]

  /** The parts of a URL, as a standard URL parser splits it. */
  datatype Url = Url(scheme: string, netloc: string, path: string, query: string, fragment: string)

  /** Whether one of `patterns` occurs in `s`. */
  function MatchesAny(s: string, patterns: seq<string>): bool {
    if patterns == [] then false
    else Contains(s, patterns[0]) || MatchesAny(s, patterns[1..])
  }

  lemma {:induction false} MatchesAnyIff(s: string, patterns: seq<string>)
    ensures MatchesAny(s, patterns) <==> exists i :: 0 <= i < |patterns| && Contains(s, patterns[i])
    decreases |patterns|
  {
    if patterns != [] {
      MatchesAnyIff(s, patterns[1..]);
      if MatchesAny(s, patterns[1..]) {
        var i :| 0 <= i < |patterns[1..]| && Contains(s, patterns[1..][i]);
        assert patterns[1..][i] == patterns[i + 1];
      }
      if i :| 0 < i < |patterns| && Contains(s, patterns[i]) {
        assert patterns[1..][i - 1] == patterns[i];
      }
    }
  }

  /** A URL is skipped when its path (not its query or fragment) contains a skip pattern. */
  function ShouldSkip(parse: string -> Url, url: string): bool {
    MatchesAny(parse(url).path, SKIP_PATTERNS)
  }

  lemma ShouldSkipIff(parse: string -> Url, url: string)
    ensures ShouldSkip(parse, url) <==>
              exists i :: 0 <= i < |SKIP_PATTERNS| && Contains(parse(url).path, SKIP_PATTERNS[i])
  {
    MatchesAnyIff(parse(url).path, SKIP_PATTERNS);
  }

  /** The URL without its query and fragment. */
  function Joined(u: Url): string {
    u.scheme + "://" + u.netloc + u.path
  }

  /** Scheme, `://`, host and path, with trailing slashes stripped. */
  function NormalizeUrl(parse: string -> Url, url: string): string {
    StripTrailing(Joined(parse(url)), '/')
  }

  /**
   * A normalised URL is the scheme, host and path up to a final run of slashes,
   * and does not end in a slash.
   */
  lemma NormalizeShape(parse: string -> Url, url: string)
    ensures var j, r := Joined(parse(url)), NormalizeUrl(parse, url);
            r == j[..|r|] && (r == [] || r[|r| - 1] != '/')
            && forall i :: |r| <= i < |j| ==> j[i] == '/'
  {
    StripDropsOnly(Joined(parse(url)), '/');
  }

  /** URLs that differ only in their query or fragment normalise alike. */
  lemma NormalizeIgnoresQuery(parse: string -> Url, a: string, b: string)
    requires parse(a).scheme == parse(b).scheme && parse(a).netloc == parse(b).netloc
    requires parse(a).path == parse(b).path
    ensures NormalizeUrl(parse, a) == NormalizeUrl(parse, b)
  {
  }

  /** A response the page receives, as the browser reports it. */
  datatype Response = Response(url: string, verb: string, status: int, headers: map<string, string>)

  /** A captured API call, as the report records it. */
  datatype ApiCall = ApiCall(url: string, verb: string, status: int, contentType: string)

  function CallOf(r: Response): ApiCall {
    ApiCall(r.url, r.verb, r.status, if "content-type" in r.headers then r.headers["content-type"] else "")
  }

  /** The elements of `xs` that `keep` accepts, in order. */
  function Filter<T>(xs: seq<T>, keep: T -> bool): (r: seq<T>)
    ensures |r| <= |xs|
  {
    if xs == [] then []
    else (if keep(xs[0]) then [xs[0]] else []) + Filter(xs[1..], keep)
  }

  lemma {:induction false} FilterMembers<T>(xs: seq<T>, keep: T -> bool)
    ensures forall x :: x in Filter(xs, keep) <==> x in xs && keep(x)
    decreases |xs|
  {
    if xs != [] {
      FilterMembers(xs[1..], keep);
      assert xs == [xs[0]] + xs[1..];
    }
  }

  predicate IsApiResponse(r: Response) {
    Contains(r.url, API_DOMAIN)
  }

  /** The API calls a page's listener records: the responses from the API host, in arrival order. */
  function Captured(rs: seq<Response>): seq<ApiCall> {
    var api := Filter(rs, IsApiResponse);
    seq(|api|, i requires 0 <= i < |api| => CallOf(api[i]))
  }

  /** Exactly the responses from the API host are captured. */
  lemma CapturedApiOnly(rs: seq<Response>)
    ensures forall c :: c in Captured(rs) ==> Contains(c.url, API_DOMAIN)
    ensures forall r :: r in rs && IsApiResponse(r) ==> CallOf(r) in Captured(rs)
  {
    var api := Filter(rs, IsApiResponse);
    FilterMembers(rs, IsApiResponse);
    forall r | r in rs && IsApiResponse(r) ensures CallOf(r) in Captured(rs) {
      var i :| 0 <= i < |api| && api[i] == r;
      assert Captured(rs)[i] == CallOf(r);
    }
    forall c | c in Captured(rs) ensures Contains(c.url, API_DOMAIN) {
      var i :| 0 <= i < |api| && Captured(rs)[i] == c;
      assert api[i] in api;
    }
  }

  /** An endpoint: the method, a space, and the URL up to its query string. */
  function EndpointKey(c: ApiCall): string {
    c.verb + " " + Before(c.url, '?')
  }

  /** The key names the method and a prefix of the URL that holds no `?`, the whole URL when it has none. */
  lemma EndpointKeyShape(c: ApiCall)
    ensures var k, p := EndpointKey(c), |c.verb| + 1;
            k[..p] == c.verb + " " && k[p..] <= c.url
            && (forall i :: p <= i < |k| ==> k[i] != '?')
            && ('?' !in c.url ==> k[p..] == c.url)
  {
    var k, p, b := EndpointKey(c), |c.verb| + 1, Before(c.url, '?');
    assert k[p..] == b;
    BeforeExcludes(c.url, '?');
    forall i | p <= i < |k| ensures k[i] != '?' {
      assert k[i] == b[i - p];
    }
  }

  /** The live site, as the crawl observes it. */
  datatype Site = Site(
    parse: string -> Url,
    /** The error a navigation to the page raises, if any. */
    navigationError: string -> Option<string>,
    /** The responses the page receives while it loads and settles. */
    responses: string -> seq<Response>,
    /** The targets of the page's anchors; None when reading them raises. */
    hrefs: string -> Option<seq<string>>)

  /** The page's anchors that point into the web app (an unreadable page has none). */
  function PageLinks(site: Site, page: string): seq<string> {
    match site.hrefs(page)
    case None => []
    case Some(hs) => Filter(hs, h => Contains(h, BASE_DOMAIN))
  }

  /** A link is followed when it is on the web app's host and is not skipped. */
  predicate Followed(parse: string -> Url, link: string) {
    parse(link).netloc == BASE_DOMAIN && !ShouldSkip(parse, link)
  }

  /** The normalisations of the links worth following. */
  function FollowedLinks(parse: string -> Url, links: seq<string>): set<string> {
    set l | l in links && Followed(parse, l) :: NormalizeUrl(parse, l)
  }

  lemma FollowedLinksAppend(parse: string -> Url, links: seq<string>, link: string)
    ensures FollowedLinks(parse, links + [link]) ==
            FollowedLinks(parse, links) + (if Followed(parse, link) then {NormalizeUrl(parse, link)} else {})
  {
    var f := FollowedLinks(parse, links + [link]);
    var g := FollowedLinks(parse, links) + (if Followed(parse, link) then {NormalizeUrl(parse, link)} else {});
    forall x | x in f ensures x in g {
      var l :| l in links + [link] && Followed(parse, l) && x == NormalizeUrl(parse, l);
      if l != link {
        assert l in links;
      }
    }
  }

  /** The normalised links a loaded page leads to. */
  function LinksOf(site: Site, page: string): set<string> {
    FollowedLinks(site.parse, PageLinks(site, page))
  }

  /** What the report holds for a page: the error, or the API calls and the sorted links. */
  datatype PageRecord = PageRecord(error: Option<string>, apiCalls: seq<ApiCall>, linksFound: seq<string>)

  /** The record of visiting `page`: a failed navigation records only its error. */
  function RecordOf(site: Site, page: string): PageRecord {
    match site.navigationError(page)
    case Some(e) => PageRecord(Some(e), [], [])
    case None => PageRecord(None, Captured(site.responses(page)), SortedList(LinksOf(site, page)))
  }

  /** The links a visit to `page` queues: none when the navigation fails. */
  function FoundOf(site: Site, page: string): set<string> {
    if site.navigationError(page).Some? then {} else LinksOf(site, page)
  }

  /** A loaded page's record lists the links it leads to once each, sorted. */
  lemma RecordLinksSorted(site: Site, page: string)
    ensures SortedListOf(RecordOf(site, page).linksFound, FoundOf(site, page))
  {
    SortedListSorts(LinksOf(site, page));
    SortedListSorts({});
  }

  /** The seeds: the configured web-app URLs that are not skipped, normalised. */
  function Seeds(parse: string -> Url, urls: seq<string>): set<string> {
    set u | u in urls && !ShouldSkip(parse, u) :: NormalizeUrl(parse, u)
  }

  lemma SeedsAppend(parse: string -> Url, urls: seq<string>, url: string)
    ensures Seeds(parse, urls + [url]) ==
            Seeds(parse, urls) + (if ShouldSkip(parse, url) then {} else {NormalizeUrl(parse, url)})
  {
    forall x | x in Seeds(parse, urls + [url])
      ensures x in Seeds(parse, urls) + (if ShouldSkip(parse, url) then {} else {NormalizeUrl(parse, url)})
    {
      var u :| u in urls + [url] && !ShouldSkip(parse, u) && x == NormalizeUrl(parse, u);
      if u != url {
        assert u in urls;
      }
    }
  }

  /** The endpoint keys of some calls. */
  function KeysOf(calls: seq<ApiCall>): set<string> {
    set c | c in calls :: EndpointKey(c)
  }

  lemma KeysOfAppend(calls: seq<ApiCall>, c: ApiCall)
    ensures KeysOf(calls + [c]) == KeysOf(calls) + {EndpointKey(c)}
  {
    forall k | k in KeysOf(calls + [c]) ensures k in KeysOf(calls) + {EndpointKey(c)} {
      var d :| d in calls + [c] && k == EndpointKey(d);
      if d != c {
        assert d in calls;
      }
    }
  }

  /** The endpoints of every page of a report. */
  function EndpointsOf(pages: map<string, PageRecord>): set<string> {
    set u, c | u in pages && c in pages[u].apiCalls :: EndpointKey(c)
  }

  /** Recording a new page adds its endpoints. */
  lemma EndpointsOfAdd(pages: map<string, PageRecord>, page: string, r: PageRecord)
    requires page !in pages
    ensures EndpointsOf(pages[page := r]) == EndpointsOf(pages) + KeysOf(r.apiCalls)
  {
    var p := pages[page := r];
    forall k | k in EndpointsOf(p) ensures k in EndpointsOf(pages) + KeysOf(r.apiCalls) {
      var u, c :| u in p && c in p[u].apiCalls && k == EndpointKey(c);
      if u != page {
        assert u in pages && c in pages[u].apiCalls;
      }
    }
    forall k | k in EndpointsOf(pages) + KeysOf(r.apiCalls) ensures k in EndpointsOf(p) {
      if k in EndpointsOf(pages) {
        var u, c :| u in pages && c in pages[u].apiCalls && k == EndpointKey(c);
        assert u in p && p[u] == pages[u];
      } else {
        var c :| c in r.apiCalls && k == EndpointKey(c);
        assert page in p && p[page] == r;
      }
    }
  }

  /** No element occurs twice. */
  predicate Distinct(xs: seq<string>) {
    forall i, j :: 0 <= i < j < |xs| ==> xs[i] != xs[j]
  }

  /**
   * A finite part of the web that the crawl cannot leave: it holds the
   * normalisation of each of its URLs and the links each of its pages leads to.
   */
  ghost predicate Closed(site: Site, universe: set<string>) {
    (forall u {:trigger NormalizeUrl(site.parse, u)} :: u in universe ==> NormalizeUrl(site.parse, u) in universe)
    && (forall u {:trigger LinksOf(site, u)} :: u in universe ==> LinksOf(site, u) <= universe)
  }

  /** A URL of a closed universe normalises into it, and the page it names leads only into it. */
  lemma ClosedStep(site: Site, universe: set<string>, url: string)
    requires Closed(site, universe) && url in universe
    ensures NormalizeUrl(site.parse, url) in universe
    ensures FoundOf(site, NormalizeUrl(site.parse, url)) <= universe
  {
  }

  /** Seeds the worklist from the configured web-app URLs. */
  method SeedUrls(parse: string -> Url, urls: seq<string>) returns (toVisit: set<string>)
    ensures toVisit == Seeds(parse, urls)
  {
    toVisit := {};
    for i := 0 to |urls|
      invariant toVisit == Seeds(parse, urls[..i])
    {
      assert urls[..i + 1] == urls[..i] + [urls[i]];
      SeedsAppend(parse, urls[..i], urls[i]);
      if !ShouldSkip(parse, urls[i]) {
        toVisit := toVisit + {NormalizeUrl(parse, urls[i])};
      }
    }
    assert urls[..|urls|] == urls;
  }

  /** The normalised links of a loaded page worth following. */
  method CollectLinks(site: Site, page: string) returns (newLinks: set<string>)
    ensures newLinks == LinksOf(site, page)
  {
    var links := PageLinks(site, page);
    newLinks := {};
    for i := 0 to |links|
      invariant newLinks == FollowedLinks(site.parse, links[..i])
    {
      var link := links[i];
      assert links[..i + 1] == links[..i] + [link];
      FollowedLinksAppend(site.parse, links[..i], link);
      if site.parse(link).netloc == BASE_DOMAIN && !ShouldSkip(site.parse, link) {
        newLinks := newLinks + {NormalizeUrl(site.parse, link)};
      }
    }
    assert links[..|links|] == links;
  }

  /** Adds the endpoint key of each call. */
  method AddEndpoints(calls: seq<ApiCall>, endpoints: set<string>) returns (r: set<string>)
    ensures r == endpoints + KeysOf(calls)
  {
    r := endpoints;
    for i := 0 to |calls|
      invariant r == endpoints + KeysOf(calls[..i])
    {
      assert calls[..i + 1] == calls[..i] + [calls[i]];
      KeysOfAppend(calls[..i], calls[i]);
      r := r + {EndpointKey(calls[i])};
    }
    assert calls[..|calls|] == calls;
  }

  /**
   * One visit: navigates to the page; a failed navigation yields its error and no
   * links, a loaded page its captured API calls and the links it leads to.
   */
  method Visit(site: Site, page: string) returns (record: PageRecord, found: set<string>)
    ensures record == RecordOf(site, page) && found == FoundOf(site, page)
  {
    var error := site.navigationError(page);
    if error.Some? {
      return PageRecord(error, [], []), {};
    }
    found := CollectLinks(site, page);
    record := PageRecord(None, Captured(site.responses(page)), SortedList(found));
  }

  /** `log` lists the visited pages, each once. */
  ghost predicate Logged(log: seq<string>, visited: set<string>) {
    Distinct(log) && forall u :: u in visited <==> u in log
  }

  lemma LogVisit(log: seq<string>, visited: set<string>, page: string)
    requires Logged(log, visited) && page !in visited
    ensures Logged(log + [page], visited + {page})
  {
    forall i, j | 0 <= i < j < |log| + 1 ensures (log + [page])[i] != (log + [page])[j] {
      if j == |log| {
        assert log[i] in log;
      }
    }
  }

  /** Each visited page, and only those, has the record of its visit. */
  ghost predicate Recorded(site: Site, pages: map<string, PageRecord>, visited: set<string>) {
    pages.Keys == visited && forall u :: u in pages ==> pages[u] == RecordOf(site, u)
  }

  lemma RecordVisit(site: Site, pages: map<string, PageRecord>, visited: set<string>, page: string)
    requires Recorded(site, pages, visited)
    ensures Recorded(site, pages[page := RecordOf(site, page)], visited + {page})
  {
  }

  /**
   * Nothing the crawl has to reach is lost: each seed and each link a visited page
   * queued is still waiting, or is visited, or its normalisation is.
   */
  ghost predicate Reached(site: Site, seeds: set<string>, toVisit: set<string>, visited: set<string>) {
    (forall s :: s in seeds ==> s in toVisit || NormalizeUrl(site.parse, s) in visited)
    && forall u, l :: u in visited && l in FoundOf(site, u) ==>
         l in toVisit || l in visited || NormalizeUrl(site.parse, l) in visited
  }

  /** Dropping a URL whose normalisation is visited loses nothing. */
  lemma ReachedSkip(site: Site, seeds: set<string>, toVisit: set<string>, visited: set<string>, url: string)
    requires Reached(site, seeds, toVisit, visited) && NormalizeUrl(site.parse, url) in visited
    ensures Reached(site, seeds, toVisit - {url}, visited)
  {
  }

  /** Visiting a URL's normalisation and queueing the new links it leads to loses nothing. */
  lemma ReachedVisit(site: Site, seeds: set<string>, toVisit: set<string>, visited: set<string>, url: string)
    requires Reached(site, seeds, toVisit, visited)
    ensures var page := NormalizeUrl(site.parse, url);
            Reached(site, seeds, (toVisit - {url}) + (FoundOf(site, page) - (visited + {page})), visited + {page})
  {
    var page := NormalizeUrl(site.parse, url);
    var toVisit', visited' := (toVisit - {url}) + (FoundOf(site, page) - (visited + {page})), visited + {page};
    forall s | s in seeds
      ensures s in toVisit' || NormalizeUrl(site.parse, s) in visited'
    {
    }
    forall u, l | u in visited' && l in FoundOf(site, u)
      ensures l in toVisit' || l in visited' || NormalizeUrl(site.parse, l) in visited'
    {
      if u != page {
        assert u in visited;
      }
    }
  }

  /** Every link the pages of `log` lead to. */
  ghost function FoundAll(site: Site, log: seq<string>): set<string>
    decreases |log|
  {
    if log == [] then {} else FoundAll(site, log[..|log| - 1]) + FoundOf(site, log[|log| - 1])
  }

  /** A link the pages of `log` lead to comes from one of those pages; `j` is its place in `log`. */
  lemma {:induction false} FoundAllSource(site: Site, log: seq<string>, x: string) returns (j: int)
    requires x in FoundAll(site, log)
    ensures 0 <= j < |log| && x in FoundOf(site, log[j])
    decreases |log|
  {
    var n := |log| - 1;
    if x in FoundOf(site, log[n]) {
      j := n;
    } else {
      j := FoundAllSource(site, log[..n], x);
      assert log[..n][j] == log[j];
    }
  }

  /**
   * Each page of `log` is the normalisation of a seed or of a link of a page that
   * comes before it in `log`.
   */
  ghost predicate LedFrom(site: Site, seeds: set<string>, log: seq<string>) {
    forall i :: 0 <= i < |log| ==>
      exists x :: log[i] == NormalizeUrl(site.parse, x)
                  && (x in seeds || exists j :: 0 <= j < i && x in FoundOf(site, log[j]))
  }

  /** Appending the normalisation of a seed or of a link of a listed page keeps a log led from the seeds. */
  lemma LedFromAppend(site: Site, seeds: set<string>, log: seq<string>, x: string)
    requires LedFrom(site, seeds, log) && x in seeds + FoundAll(site, log)
    ensures LedFrom(site, seeds, log + [NormalizeUrl(site.parse, x)])
  {
    var log' := log + [NormalizeUrl(site.parse, x)];
    forall i | 0 <= i < |log'|
      ensures exists y :: log'[i] == NormalizeUrl(site.parse, y)
                          && (y in seeds || exists j :: 0 <= j < i && y in FoundOf(site, log'[j]))
    {
      if i < |log| {
        var y :| log[i] == NormalizeUrl(site.parse, y)
                 && (y in seeds || exists j :: 0 <= j < i && y in FoundOf(site, log[j]));
        if y !in seeds {
          var j :| 0 <= j < i && y in FoundOf(site, log[j]);
          assert log'[j] == log[j];
        }
        assert log'[i] == log[i];
      } else if x !in seeds {
        var j := FoundAllSource(site, log, x);
        assert log'[j] == log[j];
      }
    }
  }

  /**
   * Each page of `log` is the normalisation of the URL `sources` records for it, and
   * that URL is a seed or a link of a page visited before it.
   */
  ghost predicate Derived(site: Site, seeds: set<string>, log: seq<string>, sources: seq<string>) {
    |sources| == |log|
    && forall i :: 0 <= i < |log| ==>
         log[i] == NormalizeUrl(site.parse, sources[i]) && sources[i] in seeds + FoundAll(site, log[..i])
  }

  /**
   * Nothing is reached that the crawl was not led to: each URL waiting in the worklist
   * is a seed or a link of a page visited so far (`reached` collects those links), and
   * each visited page is derived from a seed or from such a link.
   */
  ghost predicate Traced(site: Site, seeds: set<string>, toVisit: set<string>, reached: set<string>,
                        log: seq<string>, sources: seq<string>) {
    reached == FoundAll(site, log) && toVisit <= seeds + reached
    && Derived(site, seeds, log, sources)
  }

  /**
   * Visiting a waiting URL's normalisation traces the new page to that URL, and the
   * links it queues to the new page.
   */
  lemma TracedVisit(site: Site, seeds: set<string>, toVisit: set<string>, visited: set<string>, reached: set<string>,
                    log: seq<string>, sources: seq<string>, url: string)
    requires Traced(site, seeds, toVisit, reached, log, sources) && url in toVisit
    ensures var page := NormalizeUrl(site.parse, url);
            Traced(site, seeds, (toVisit - {url}) + (FoundOf(site, page) - (visited + {page})),
                   reached + FoundOf(site, page), log + [page], sources + [url])
  {
    var page := NormalizeUrl(site.parse, url);
    var log' := log + [page];
    assert log'[..|log|] == log;
    forall i | 0 <= i < |log|
      ensures log'[..i] == log[..i]
    {
    }
  }

  /** A derived log is led from the seeds. */
  lemma DerivedLed(site: Site, seeds: set<string>, log: seq<string>, sources: seq<string>)
    requires Derived(site, seeds, log, sources)
    ensures LedFrom(site, seeds, log)
  {
    forall i | 0 <= i < |log|
      ensures exists x :: log[i] == NormalizeUrl(site.parse, x)
                          && (x in seeds || exists j :: 0 <= j < i && x in FoundOf(site, log[j]))
    {
      var x := sources[i];
      assert log[i] == NormalizeUrl(site.parse, x);
      if x !in seeds {
        var j := FoundAllSource(site, log[..i], x);
        assert log[..i][j] == log[j];
      }
    }
    assert forall i :: 0 <= i < |log| ==>
      exists x :: log[i] == NormalizeUrl(site.parse, x)
                  && (x in seeds || exists j :: 0 <= j < i && x in FoundOf(site, log[j]));
  }

  /** Visiting a new page of the universe leaves fewer pages to visit. */
  lemma FewerLeft(universe: set<string>, visited: set<string>, page: string)
    requires page in universe && page !in visited
    ensures |universe - (visited + {page})| < |universe - visited|
  {
    assert universe - visited == (universe - (visited + {page})) + {page};
  }

  /** What holds of the crawl's state between two pops of the worklist. */
  ghost predicate CrawlState(site: Site, seeds: set<string>, universe: set<string>, toVisit: set<string>,
                             visited: set<string>, pages: map<string, PageRecord>, endpoints: set<string>,
                             reached: set<string>, log: seq<string>, sources: seq<string>)
  {
    toVisit <= universe && visited <= universe
    && Logged(log, visited) && Recorded(site, pages, visited)
    && endpoints == EndpointsOf(pages)
    && Reached(site, seeds, toVisit, visited)
    && Traced(site, seeds, toVisit, reached, log, sources)
  }

  /** Popping a URL whose normalisation was visited keeps the crawl's state. */
  lemma CrawlSkip(site: Site, seeds: set<string>, universe: set<string>, toVisit: set<string>,
                  visited: set<string>, pages: map<string, PageRecord>, endpoints: set<string>, reached: set<string>,
                  log: seq<string>, sources: seq<string>, url: string)
    requires CrawlState(site, seeds, universe, toVisit, visited, pages, endpoints, reached, log, sources)
    requires NormalizeUrl(site.parse, url) in visited
    ensures CrawlState(site, seeds, universe, toVisit - {url}, visited, pages, endpoints, reached, log, sources)
  {
    ReachedSkip(site, seeds, toVisit, visited, url);
  }

  /** Visiting a popped URL's normalisation keeps the crawl's state. */
  lemma CrawlVisit(site: Site, seeds: set<string>, universe: set<string>, toVisit: set<string>,
                   visited: set<string>, pages: map<string, PageRecord>, endpoints: set<string>, reached: set<string>,
                  log: seq<string>, sources: seq<string>, url: string)
    requires CrawlState(site, seeds, universe, toVisit, visited, pages, endpoints, reached, log, sources)
    requires Closed(site, universe) && url in toVisit && NormalizeUrl(site.parse, url) !in visited
    ensures var page := NormalizeUrl(site.parse, url);
            var visited' := visited + {page};
            var record := RecordOf(site, page);
            CrawlState(site, seeds, universe, (toVisit - {url}) + (FoundOf(site, page) - visited'), visited',
                       pages[page := record], endpoints + KeysOf(record.apiCalls),
                       reached + FoundOf(site, page), log + [page], sources + [url])
  {
    var page := NormalizeUrl(site.parse, url);
    ClosedStep(site, universe, url);
    ReachedVisit(site, seeds, toVisit, visited, url);
    TracedVisit(site, seeds, toVisit, visited, reached, log, sources, url);
    LogVisit(log, visited, page);
    RecordVisit(site, pages, visited, page);
    EndpointsOfAdd(pages, page, RecordOf(site, page));
  }

  /** When the worklist is empty, everything the crawl had to reach is visited. */
  lemma CrawlDone(site: Site, seeds: set<string>, universe: set<string>,
                  visited: set<string>, pages: map<string, PageRecord>, endpoints: set<string>,
                  reached: set<string>, log: seq<string>, sources: seq<string>)
    requires CrawlState(site, seeds, universe, {}, visited, pages, endpoints, reached, log, sources)
    ensures forall s :: s in seeds ==> NormalizeUrl(site.parse, s) in visited
    ensures forall u, l :: u in visited && l in FoundOf(site, u) ==> l in visited || NormalizeUrl(site.parse, l) in visited
    ensures LedFrom(site, seeds, log)
  {
    DerivedLed(site, seeds, log, sources);
  }

  /**
   * The crawl: repeatedly takes a URL from the worklist, normalises it, and skips it
   * when already visited; otherwise marks it visited, then navigates. A failed
   * navigation records its error and the crawl goes on; a loaded page queues its
   * unvisited links and records its API calls and links. `log` lists the visited
   * pages in visiting order.
   */
  method Crawl(site: Site, seeds: set<string>, ghost universe: set<string>)
    returns (visited: set<string>, pages: map<string, PageRecord>, endpoints: set<string>, ghost log: seq<string>)
    requires seeds <= universe && Closed(site, universe)
    ensures pages.Keys == visited
    ensures Distinct(log) && forall u :: u in visited <==> u in log
    ensures forall u :: u in pages ==> pages[u] == RecordOf(site, u)
    ensures endpoints == EndpointsOf(pages)
    ensures forall s :: s in seeds ==> NormalizeUrl(site.parse, s) in visited
    ensures forall u, l :: u in visited && l in FoundOf(site, u) ==> l in visited || NormalizeUrl(site.parse, l) in visited
    ensures LedFrom(site, seeds, log)
  {
    visited, pages, endpoints, log := {}, map[], {}, [];
    var toVisit := seeds;
    ghost var reached, sources := {}, [];
    while toVisit != {}
      invariant CrawlState(site, seeds, universe, toVisit, visited, pages, endpoints, reached, log, sources)
      decreases |universe - visited|, |toVisit|
    {
      var url :| url in toVisit;
      var normalized := NormalizeUrl(site.parse, url);
      if normalized in visited {
        CrawlSkip(site, seeds, universe, toVisit, visited, pages, endpoints, reached, log, sources, url);
        toVisit := toVisit - {url};
        continue;
      }
      CrawlVisit(site, seeds, universe, toVisit, visited, pages, endpoints, reached, log, sources, url);
      ClosedStep(site, universe, url);
      FewerLeft(universe, visited, normalized);
      toVisit := toVisit - {url};
      visited := visited + {normalized};
      log := log + [normalized];
      sources := sources + [url];
      var record, found := Visit(site, normalized);
      toVisit := toVisit + (found - visited);
      reached := reached + found;
      pages := pages[normalized := record];
      endpoints := AddEndpoints(record.apiCalls, endpoints);
    }
    CrawlDone(site, seeds, universe, visited, pages, endpoints, reached, log, sources);
  }

  /** The report: the visited pages and the distinct endpoints sorted, and each page's record. */
  datatype Report = Report(discoveredPages: seq<string>, pages: map<string, PageRecord>, allApiEndpoints: seq<string>)

  /**
   * Seeds the worklist from the configured web-app URLs, crawls, and sorts what it found.
   * Every seed is visited, and every page a visited page leads to is visited too; in the
   * visiting order `order`, every page comes from a seed or from a page visited before it.
   */
  method Discover(site: Site, appUrls: seq<string>, ghost universe: set<string>)
    returns (report: Report, ghost order: seq<string>)
    requires Seeds(site.parse, appUrls) <= universe && Closed(site, universe)
    ensures SortedListOf(report.discoveredPages, report.pages.Keys)
    ensures SortedListOf(report.allApiEndpoints, EndpointsOf(report.pages))
    ensures forall u :: u in report.pages ==> report.pages[u] == RecordOf(site, u)
    ensures forall s :: s in Seeds(site.parse, appUrls) ==> NormalizeUrl(site.parse, s) in report.pages
    ensures forall u, l :: u in report.pages && l in FoundOf(site, u) ==>
              l in report.pages || NormalizeUrl(site.parse, l) in report.pages
    ensures Distinct(order) && forall u :: u in report.pages <==> u in order
    ensures LedFrom(site, Seeds(site.parse, appUrls), order)
  {
    var toVisit := SeedUrls(site.parse, appUrls);
    var visited, pages, endpoints;
    visited, pages, endpoints, order := Crawl(site, toVisit, universe);
    SortedListSorts(visited);
    SortedListSorts(endpoints);
    report := Report(SortedList(visited), pages, SortedList(endpoints));
  }
}
