/**
 * `scrape_website_emails_for_task`: the bounded breadth-first crawl of one
 * website. The network, the HTML parser and the email regular expression are
 * inputs (a `Web`); what remains is the frontier queue, the visited set and
 * the rules for what is fetched and what is queued.
 */
module Crawler {
  import opened Strings
  import opened Urls
  import opened Emails
  import opened Tasks

  /** An `<a href=...>` element: its `href` attribute and its visible text. */
  datatype Anchor = Anchor(href: string, text: string)

  /** A parsed page: its visible text (`get_text(separator=' ')`) and its anchors that have an `href`. */
  datatype Page = Page(text: string, anchors: seq<Anchor>)

  /** What fetching a URL gives: a page, or the text of the exception raised on the way. */
  datatype FetchResult = Fetched(page: Page) | FetchFailed(error: string)

  /**
   * Everything outside the application the crawl depends on: URL parsing and
   * joining, fetching and parsing a page, and `re.findall` with the email
   * pattern of app.py:45.
   */
  datatype Web = Web(urls: UrlLib, fetch: string -> FetchResult, emailMatches: string -> seq<string>)

  /** `TARGET_PAGE_KEYWORDS` (app.py:21-24). */
  const TargetPageKeywords: seq<string> := ["about", "contact", "support", "contact-us", "about-us", "contactus", "aboutus"]

  /** A queue entry: a URL and the depth it was found at. */
  type Entry = (string, int)

  // ------------------------------------------------------------ page text

  /** The text of s before the first occurrence of pat, or all of s. */
  function BeforeFirst(s: string, pat: string): (r: string)
    ensures |r| <= |s| && r == s[..|r|]
    decreases |s|
  {
    if s == [] || StartsWith(s, pat) then [] else [s[0]] + BeforeFirst(s[1..], pat)
  }

  /** `href.split('mailto:')[1].split('?')[0]` for an href that starts with `mailto:` (app.py:97). */
  function MailtoAddress(href: string): string
    requires StartsWith(href, "mailto:")
  {
    Split(BeforeFirst(href[|"mailto:"|..], "mailto:"), '?')[0]
  }

  /** The text app.py:92-98 builds: the visible text, then `" " + address` for every mailto link, in order. */
  function MailtoText(anchors: seq<Anchor>): string
    decreases |anchors|
  {
    if anchors == [] then ""
    else
      var a := anchors[|anchors| - 1];
      MailtoText(anchors[..|anchors| - 1]) + (if StartsWith(a.href, "mailto:") then " " + MailtoAddress(a.href) else "")
  }

  /** app.py:92-98: the page text that the email pattern is run over. */
  method BuildPageText(page: Page) returns (pageText: string)
    ensures pageText == page.text + MailtoText(page.anchors)
  {
    pageText := page.text;
    for i := 0 to |page.anchors|
      invariant pageText == page.text + MailtoText(page.anchors[..i])
    {
      var href := page.anchors[i].href;
      assert page.anchors[..i + 1][..i] == page.anchors[..i];
      if StartsWith(href, "mailto:") {
        pageText := pageText + " " + MailtoAddress(href);
      }
    }
    assert page.anchors[..|page.anchors|] == page.anchors;
  }

  /** The emails found on the page at url: none when the fetch fails. */
  function PageEmails(web: Web, url: string): set<string> {
    match web.fetch(url)
    case Fetched(page) => Filtered(set c | c in web.emailMatches(page.text + MailtoText(page.anchors)))
    case FetchFailed(_) => {}
  }

  /** Every address a page yields is lower case and plausible. */
  lemma PageEmailsPlausible(web: Web, url: string)
    ensures forall e :: e in PageEmails(web, url) ==> IsLower(e) && IsPlausibleEmail(e)
  {
    if web.fetch(url).Fetched? {
      var page := web.fetch(url).page;
      FilteredPlausible(set c | c in web.emailMatches(page.text + MailtoText(page.anchors)));
    }
  }

  /** The emails of the pages at urls, together. */
  function EmailsOf(web: Web, urls: seq<string>): set<string>
    decreases |urls|
  {
    if urls == [] then {} else EmailsOf(web, urls[..|urls| - 1]) + PageEmails(web, urls[|urls| - 1])
  }

  // ------------------------------------------------------- link discovery

  /** app.py:113-115: the href or the link text, lower-cased, holds one of the keywords. */
  predicate IsTargetLink(a: Anchor) {
    exists k :: 0 <= k < |TargetPageKeywords| &&
      (Contains(Lower(a.href), TargetPageKeywords[k]) || Contains(Lower(a.text), TargetPageKeywords[k]))
  }

  /** app.py:118-120: a resolved link is queued when it is on the crawl's host, unseen, valid and not yet queued. */
  predicate MayQueue(lib: UrlLib, domain: string, next: string, visited: set<string>, queued: seq<string>) {
    Netloc(lib, next) == domain && next !in visited && IsValidUrl(lib, next) && next !in queued
  }

  /**
   * The URLs app.py:110-123 appends, in order, when it scans `anchors` of the
   * page at `current` with `queued` already in the frontier.
   */
  function Targets(lib: UrlLib, domain: string, current: string, anchors: seq<Anchor>,
                   visited: set<string>, queued: seq<string>): seq<string>
    decreases |anchors|
  {
    if anchors == [] then []
    else
      var a := anchors[0];
      var next := lib.join(current, a.href);
      if a.href != "" && IsTargetLink(a) && MayQueue(lib, domain, next, visited, queued)
      then [next] + Targets(lib, domain, current, anchors[1..], visited, queued + [next])
      else Targets(lib, domain, current, anchors[1..], visited, queued)
  }

  /** No element occurs twice. */
  predicate NoDuplicates(s: seq<string>) {
    forall i, j :: 0 <= i < j < |s| ==> s[i] != s[j]
  }

  /** The URLs of a frontier, in order. */
  function FrontierUrls(frontier: seq<Entry>): seq<string>
    decreases |frontier|
  {
    if frontier == [] then [] else [frontier[0].0] + FrontierUrls(frontier[1..])
  }

  /** The frontier entries for urls, all at one depth. */
  function Enqueued(urls: seq<string>, depth: int): seq<Entry>
    decreases |urls|
  {
    if urls == [] then [] else [(urls[0], depth)] + Enqueued(urls[1..], depth)
  }

  /** The "Queued target page" lines for urls. */
  function QueuedLines(urls: seq<string>): seq<Message>
    decreases |urls|
  {
    if urls == [] then [] else [QueuedTarget(urls[0])] + QueuedLines(urls[1..])
  }

  lemma AppendAssoc<T>(a: seq<T>, b: seq<T>, c: seq<T>)
    ensures a + (b + c) == (a + b) + c
  {
  }

  lemma {:induction false} FrontierUrlsAppend(a: seq<Entry>, b: seq<Entry>)
    ensures FrontierUrls(a + b) == FrontierUrls(a) + FrontierUrls(b)
    decreases |a|
  {
    if a == [] {
      assert a + b == b;
    } else {
      assert (a + b)[1..] == a[1..] + b;
      FrontierUrlsAppend(a[1..], b);
    }
  }

  lemma {:induction false} EnqueuedAppend(a: seq<string>, b: seq<string>, depth: int)
    ensures Enqueued(a + b, depth) == Enqueued(a, depth) + Enqueued(b, depth)
    decreases |a|
  {
    if a == [] {
      assert a + b == b;
    } else {
      assert (a + b)[1..] == a[1..] + b;
      EnqueuedAppend(a[1..], b, depth);
    }
  }

  lemma {:induction false} QueuedLinesAppend(a: seq<string>, b: seq<string>)
    ensures QueuedLines(a + b) == QueuedLines(a) + QueuedLines(b)
    decreases |a|
  {
    if a == [] {
      assert a + b == b;
    } else {
      assert (a + b)[1..] == a[1..] + b;
      QueuedLinesAppend(a[1..], b);
    }
  }

  /** Queuing urls at one depth queues exactly those URLs, in order. */
  lemma {:induction false} FrontierUrlsOfEnqueued(urls: seq<string>, depth: int)
    ensures FrontierUrls(Enqueued(urls, depth)) == urls
    decreases |urls|
  {
    if urls != [] {
      FrontierUrlsOfEnqueued(urls[1..], depth);
    }
  }

  /** u is what some non-empty keyword link of the page resolves to. */
  predicate FromTargetLink(lib: UrlLib, current: string, anchors: seq<Anchor>, u: string) {
    exists i :: 0 <= i < |anchors| && anchors[i].href != "" && IsTargetLink(anchors[i]) && lib.join(current, anchors[i].href) == u
  }

  /**
   * What is queued is sound: a non-empty keyword link of the page, resolved,
   * on the crawl's host, unvisited, valid, not queued before, and never twice.
   */
  lemma {:induction false} TargetsSound(lib: UrlLib, domain: string, current: string, anchors: seq<Anchor>,
                                        visited: set<string>, queued: seq<string>)
    ensures var found := Targets(lib, domain, current, anchors, visited, queued);
      && NoDuplicates(found)
      && forall u :: u in found ==> MayQueue(lib, domain, u, visited, queued) && FromTargetLink(lib, current, anchors, u)
    decreases |anchors|
  {
    if anchors != [] {
      var a := anchors[0];
      var next := lib.join(current, a.href);
      var found := Targets(lib, domain, current, anchors, visited, queued);
      if a.href != "" && IsTargetLink(a) && MayQueue(lib, domain, next, visited, queued) {
        var rest := Targets(lib, domain, current, anchors[1..], visited, queued + [next]);
        TargetsSound(lib, domain, current, anchors[1..], visited, queued + [next]);
        assert found == [next] + rest;
        forall u | u in rest
          ensures u != next && MayQueue(lib, domain, u, visited, queued)
        {
          assert u !in queued + [next];
        }
        forall u | u in found
          ensures FromTargetLink(lib, current, anchors, u)
        {
          if u == next {
            assert anchors[0] == a;
          } else {
            var i :| 0 <= i < |anchors[1..]| && anchors[1..][i].href != "" && IsTargetLink(anchors[1..][i])
                     && lib.join(current, anchors[1..][i].href) == u;
            assert anchors[i + 1] == anchors[1..][i];
          }
        }
        forall i, j | 0 <= i < j < |found|
          ensures found[i] != found[j]
        {
          if i > 0 {
            assert found[i] == rest[i - 1] && found[j] == rest[j - 1];
          } else {
            assert found[j] == rest[j - 1] && found[j] in rest;
          }
        }
      } else {
        TargetsSound(lib, domain, current, anchors[1..], visited, queued);
        forall u | u in found
          ensures FromTargetLink(lib, current, anchors, u)
        {
          var i :| 0 <= i < |anchors[1..]| && anchors[1..][i].href != "" && IsTargetLink(anchors[1..][i])
                   && lib.join(current, anchors[1..][i].href) == u;
          assert anchors[i + 1] == anchors[1..][i];
        }
      }
    }
  }

  /**
   * What is queued is complete: every non-empty keyword link of the page whose
   * resolution is on the crawl's host, unvisited and valid ends up queued
   * (before the scan, or by it).
   */
  lemma {:induction false} TargetsComplete(lib: UrlLib, domain: string, current: string, anchors: seq<Anchor>,
                                           visited: set<string>, queued: seq<string>, i: int)
    requires 0 <= i < |anchors| && anchors[i].href != "" && IsTargetLink(anchors[i])
    requires var next := lib.join(current, anchors[i].href);
      Netloc(lib, next) == domain && next !in visited && IsValidUrl(lib, next)
    ensures lib.join(current, anchors[i].href) in queued + Targets(lib, domain, current, anchors, visited, queued)
    decreases |anchors|
  {
    var a := anchors[0];
    var next := lib.join(current, a.href);
    var found := Targets(lib, domain, current, anchors, visited, queued);
    if a.href != "" && IsTargetLink(a) && MayQueue(lib, domain, next, visited, queued) {
      if i > 0 {
        assert anchors[1..][i - 1] == anchors[i];
        TargetsComplete(lib, domain, current, anchors[1..], visited, queued + [next], i - 1);
        assert queued + [next] + Targets(lib, domain, current, anchors[1..], visited, queued + [next]) == queued + found;
      }
    } else if i > 0 {
      assert anchors[1..][i - 1] == anchors[i];
      TargetsComplete(lib, domain, current, anchors[1..], visited, queued, i - 1);
    }
  }

  /** An anchor that does not qualify adds nothing to the scan. */
  lemma TargetsSkipAt(lib: UrlLib, domain: string, current: string, anchors: seq<Anchor>, i: int,
                      visited: set<string>, queued: seq<string>)
    requires 0 <= i < |anchors|
    requires var a := anchors[i];
      !(a.href != "" && IsTargetLink(a) && MayQueue(lib, domain, lib.join(current, a.href), visited, queued))
    ensures Targets(lib, domain, current, anchors[i..], visited, queued)
         == Targets(lib, domain, current, anchors[i + 1..], visited, queued)
  {
    assert anchors[i..][0] == anchors[i] && anchors[i..][1..] == anchors[i + 1..];
  }

  /** An anchor that qualifies puts its resolved URL first and counts as queued for the rest of the scan. */
  lemma TargetsTakeAt(lib: UrlLib, domain: string, current: string, anchors: seq<Anchor>, i: int,
                      visited: set<string>, queued: seq<string>)
    requires 0 <= i < |anchors|
    requires var a := anchors[i];
      a.href != "" && IsTargetLink(a) && MayQueue(lib, domain, lib.join(current, a.href), visited, queued)
    ensures var next := lib.join(current, anchors[i].href);
      Targets(lib, domain, current, anchors[i..], visited, queued)
      == [next] + Targets(lib, domain, current, anchors[i + 1..], visited, queued + [next])
  {
    assert anchors[i..][0] == anchors[i] && anchors[i..][1..] == anchors[i + 1..];
  }

  /** The lines logged by one scan for target pages that queued `found`. */
  function SearchLines(current: string, found: seq<string>): seq<Message> {
    [SearchingTargets(current)] + QueuedLines(found) + (if found == [] then [NoNewTargets(current)] else [])
  }

  /** The bookkeeping of one more target: frontier, log lines and queued urls all grow by it. */
  lemma QueueOne(frontier: seq<Entry>, found: seq<string>, next: string, depth: int, current: string,
                 rest: seq<string>)
    ensures frontier + Enqueued(found, depth) + [(next, depth)] == frontier + Enqueued(found + [next], depth)
    ensures [SearchingTargets(current)] + QueuedLines(found) + [QueuedTarget(next)]
         == [SearchingTargets(current)] + QueuedLines(found + [next])
    ensures FrontierUrls(frontier) + found + [next] == FrontierUrls(frontier) + (found + [next])
    ensures found + ([next] + rest) == found + [next] + rest
  {
    AppendAssoc(frontier, Enqueued(found, depth), [(next, depth)]);
    AppendAssoc([SearchingTargets(current)], QueuedLines(found), [QueuedTarget(next)]);
    AppendAssoc(FrontierUrls(frontier), found, [next]);
    AppendAssoc(found, [next], rest);
    EnqueuedAppend(found, [next], depth);
    QueuedLinesAppend(found, [next]);
    assert Enqueued([next], depth) == [(next, depth)] + [];
    assert QueuedLines([next]) == [QueuedTarget(next)] + [];
  }

  /**
   * app.py:107-125, the scan of one page for target links: every anchor in
   * order, the qualifying ones appended to the frontier one level deeper, one
   * line per queued page, and a closing line when none was queued.
   */
  method SearchTargetPages(lib: UrlLib, domain: string, current: string, depth: int, anchors: seq<Anchor>,
                           visited: set<string>, frontier: seq<Entry>)
    returns (newFrontier: seq<Entry>, lines: seq<Message>)
    ensures var found := Targets(lib, domain, current, anchors, visited, FrontierUrls(frontier));
      && newFrontier == frontier + Enqueued(found, depth + 1)
      && lines == SearchLines(current, found)
  {
    lines := [SearchingTargets(current)];
    var foundTargetPage := false;
    newFrontier := frontier;
    ghost var found: seq<string> := [];
    assert anchors[0..] == anchors && FrontierUrls(frontier) + found == FrontierUrls(frontier);
    for i := 0 to |anchors|
      invariant newFrontier == frontier + Enqueued(found, depth + 1)
      invariant lines == [SearchingTargets(current)] + QueuedLines(found)
      invariant foundTargetPage <==> found != []
      invariant found + Targets(lib, domain, current, anchors[i..], visited, FrontierUrls(frontier) + found)
             == Targets(lib, domain, current, anchors, visited, FrontierUrls(frontier))
    {
      var link := anchors[i];
      ghost var queued := FrontierUrls(frontier) + found;
      FrontierUrlsAppend(frontier, Enqueued(found, depth + 1));
      FrontierUrlsOfEnqueued(found, depth + 1);
      if link.href == "" {
        TargetsSkipAt(lib, domain, current, anchors, i, visited, queued);
        continue;
      }
      var isTargetLink := IsTargetLink(link);
      if isTargetLink {
        var next := lib.join(current, link.href);
        if Netloc(lib, next) == domain && next !in visited && IsValidUrl(lib, next) && next !in FrontierUrls(newFrontier) {
          TargetsTakeAt(lib, domain, current, anchors, i, visited, queued);
          QueueOne(frontier, found, next, depth + 1, current,
                   Targets(lib, domain, current, anchors[i + 1..], visited, queued + [next]));
          newFrontier := newFrontier + [(next, depth + 1)];
          lines := lines + [QueuedTarget(next)];
          foundTargetPage := true;
          found := found + [next];
        } else {
          TargetsSkipAt(lib, domain, current, anchors, i, visited, queued);
        }
      } else {
        TargetsSkipAt(lib, domain, current, anchors, i, visited, queued);
      }
    }
    assert anchors[|anchors|..] == [];
    assert Targets(lib, domain, current, [], visited, FrontierUrls(frontier) + found) == [];
    assert found + [] == found;
    if !foundTargetPage {
      lines := lines + [NoNewTargets(current)];
    }
  }

  // --------------------------------------------------- reading the log back

  /** The URLs of the "Scraping" lines of a log: the pages fetched, in order. */
  function Visited(log: seq<Message>): seq<string>
    decreases |log|
  {
    if log == [] then []
    else Visited(log[..|log| - 1]) + (if log[|log| - 1].Scraping? then [log[|log| - 1].url] else [])
  }

  /** The URLs of the "Queued target page" lines of a log, in order. */
  function Queued(log: seq<Message>): seq<string>
    decreases |log|
  {
    if log == [] then []
    else Queued(log[..|log| - 1]) + (if log[|log| - 1].QueuedTarget? then [log[|log| - 1].url] else [])
  }

  lemma {:induction false} ProjectionsAppend(a: seq<Message>, b: seq<Message>)
    ensures Visited(a + b) == Visited(a) + Visited(b)
    ensures Queued(a + b) == Queued(a) + Queued(b)
    decreases |b|
  {
    if b == [] {
      assert a + b == a;
    } else {
      var b' := b[..|b| - 1];
      assert (a + b)[..|a + b| - 1] == a + b';
      ProjectionsAppend(a, b');
    }
  }

  lemma {:induction false} ProjectionsOfQueuedLines(found: seq<string>)
    ensures Visited(QueuedLines(found)) == []
    ensures Queued(QueuedLines(found)) == found
    decreases |found|
  {
    if found != [] {
      var head := [QueuedTarget(found[0])];
      ProjectionsOfQueuedLines(found[1..]);
      ProjectionsAppend(head, QueuedLines(found[1..]));
      assert head[..0] == [];
    }
  }

  /** A scan for target pages fetches nothing and logs exactly the pages it queues. */
  lemma ProjectionsOfSearch(current: string, found: seq<string>)
    ensures Visited(SearchLines(current, found)) == []
    ensures Queued(SearchLines(current, found)) == found
  {
    ProjectionsOfQueuedLines(found);
    ProjectionsAppend([SearchingTargets(current)], QueuedLines(found));
    ProjectionsAppend([SearchingTargets(current)] + QueuedLines(found), if found == [] then [NoNewTargets(current)] else []);
  }

  lemma EmailsOfAppend(web: Web, urls: seq<string>, u: string)
    ensures EmailsOf(web, urls + [u]) == EmailsOf(web, urls) + PageEmails(web, u)
  {
    assert (urls + [u])[..|urls|] == urls;
  }

  // ------------------------------------------------------------ one page

  /** The pages a visit of url queues: its target links, when it is fetched at depth 0 and one hop is allowed. */
  function PageTargets(web: Web, domain: string, url: string, depth: int, maxDepth: int,
                       visited: set<string>, queue: seq<Entry>): (r: seq<string>)
    ensures r != [] ==> depth == 0 && maxDepth >= 1 && web.fetch(url).Fetched?
  {
    match web.fetch(url)
    case FetchFailed(_) => []
    case Fetched(page) =>
      if maxDepth >= 1 && depth == 0 then Targets(web.urls, domain, url, page.anchors, visited, FrontierUrls(queue)) else []
  }

  /** The lines app.py:85-127 log for one visited page. */
  function PageLines(web: Web, domain: string, url: string, depth: int, maxDepth: int,
                     visited: set<string>, queue: seq<Entry>): seq<Message> {
    [Scraping(if depth == 0 then Homepage else TargetPage, url)] + FetchLines(web, domain, url, depth, maxDepth, visited, queue)
  }

  /** The lines logged after the "Scraping" line: the failure, or the emails found and the scan for targets. */
  function FetchLines(web: Web, domain: string, url: string, depth: int, maxDepth: int,
                      visited: set<string>, queue: seq<Entry>): seq<Message> {
    match web.fetch(url)
    case FetchFailed(error) => [ScrapeFailed(url, error)]
    case Fetched(page) =>
      var emails := PageEmails(web, url);
      (if emails != {} then [FoundEmails(emails, url)] else []) +
      (if maxDepth >= 1 && depth == 0 then SearchLines(url, PageTargets(web, domain, url, depth, maxDepth, visited, queue)) else [])
  }

  /** A one-line log reads back as that line's fetch or queued page, if it is one. */
  lemma ProjectionsOfLine(m: Message)
    ensures Visited([m]) == (if m.Scraping? then [m.url] else [])
    ensures Queued([m]) == (if m.QueuedTarget? then [m.url] else [])
  {
    assert [m][..0] == [];
  }

  /** One page visit fetches exactly that page and logs exactly the pages it queues. */
  lemma ProjectionsOfPage(web: Web, domain: string, url: string, depth: int, maxDepth: int,
                          visited: set<string>, queue: seq<Entry>)
    ensures Visited(PageLines(web, domain, url, depth, maxDepth, visited, queue)) == [url]
    ensures Queued(PageLines(web, domain, url, depth, maxDepth, visited, queue)) == PageTargets(web, domain, url, depth, maxDepth, visited, queue)
  {
    var head := Scraping(if depth == 0 then Homepage else TargetPage, url);
    ProjectionsAppend([head], FetchLines(web, domain, url, depth, maxDepth, visited, queue));
    ProjectionsOfLine(head);
    ProjectionsOfFetch(web, domain, url, depth, maxDepth, visited, queue);
  }

  /** What follows the "Scraping" line fetches nothing more and logs exactly the pages queued. */
  lemma ProjectionsOfFetch(web: Web, domain: string, url: string, depth: int, maxDepth: int,
                           visited: set<string>, queue: seq<Entry>)
    ensures Visited(FetchLines(web, domain, url, depth, maxDepth, visited, queue)) == []
    ensures Queued(FetchLines(web, domain, url, depth, maxDepth, visited, queue)) == PageTargets(web, domain, url, depth, maxDepth, visited, queue)
  {
    match web.fetch(url)
    case FetchFailed(error) =>
      ProjectionsOfLine(ScrapeFailed(url, error));
    case Fetched(page) =>
      var emails := PageEmails(web, url);
      var found := PageTargets(web, domain, url, depth, maxDepth, visited, queue);
      var first := if emails != {} then [FoundEmails(emails, url)] else [];
      var second := if maxDepth >= 1 && depth == 0 then SearchLines(url, found) else [];
      ProjectionsAppend(first, second);
      ProjectionsOfLine(FoundEmails(emails, url));
      ProjectionsOfSearch(url, found);
  }

  /**
   * app.py:87-127 for one visited page: fetch it, add the address of every
   * mailto link to its text, filter the matches, and on the homepage scan it
   * for target pages. A failed fetch is logged and yields nothing.
   */
  method ScrapePage(web: Web, domain: string, url: string, depth: int, maxDepth: int,
                    visited: set<string>, queue: seq<Entry>)
    returns (emailsOnPage: set<string>, newQueue: seq<Entry>, lines: seq<Message>)
    ensures emailsOnPage == PageEmails(web, url)
    ensures newQueue == queue + Enqueued(PageTargets(web, domain, url, depth, maxDepth, visited, queue), depth + 1)
    ensures lines == PageLines(web, domain, url, depth, maxDepth, visited, queue)
  {
    var scraping := Scraping(if depth == 0 then Homepage else TargetPage, url);
    newQueue := queue;
    emailsOnPage := {};
    var fetchLines: seq<Message>;
    match web.fetch(url) {
      case FetchFailed(error) =>
        fetchLines := [ScrapeFailed(url, error)];
      case Fetched(page) =>
        var pageText := BuildPageText(page);
        emailsOnPage := FindEmailsOnPage(web.emailMatches(pageText));
        var emailLines: seq<Message> := [];
        if emailsOnPage != {} {
          emailLines := [FoundEmails(emailsOnPage, url)];
        }
        var searchLines: seq<Message> := [];
        if maxDepth >= 1 && depth == 0 {
          newQueue, searchLines := SearchTargetPages(web.urls, domain, url, depth, page.anchors, visited, queue);
        }
        fetchLines := emailLines + searchLines;
    }
    lines := [scraping] + fetchLines;
  }

  // ---------------------------------------------------------------- crawl

  /** The state of the crawl loop: frontier, visited set, emails so far. The log is kept apart, in FinishLog. */
  datatype Crawl = Crawl(queue: seq<Entry>, visited: set<string>, emails: set<string>)

  /** The number of frontier entries at depth 0: only those can add to the frontier. */
  function DepthZero(queue: seq<Entry>): nat {
    if queue == [] then 0 else (if queue[0].1 == 0 then 1 else 0) + DepthZero(queue[1..])
  }

  lemma {:induction false} DepthZeroAppend(a: seq<Entry>, b: seq<Entry>)
    ensures DepthZero(a + b) == DepthZero(a) + DepthZero(b)
    decreases |a|
  {
    if a == [] {
      assert a + b == b;
    } else {
      assert (a + b)[1..] == a[1..] + b;
      DepthZeroAppend(a[1..], b);
    }
  }

  lemma {:induction false} DepthZeroOfDeeper(urls: seq<string>)
    ensures DepthZero(Enqueued(urls, 1)) == 0
    decreases |urls|
  {
    if urls != [] {
      assert Enqueued(urls, 1)[1..] == Enqueued(urls[1..], 1);
      DepthZeroOfDeeper(urls[1..]);
    }
  }

  /** The loop passes over url without fetching it: already visited, not a valid URL, or on another host. */
  predicate Skipped(web: Web, domain: string, url: string, visited: set<string>) {
    url in visited || !IsValidUrl(web.urls, url) || Netloc(web.urls, url) != domain
  }

  /** One turn of the loop of app.py:79-127: pop the head of the frontier and visit it unless it is skipped. */
  function Step(web: Web, domain: string, maxDepth: int, c: Crawl): Crawl
    requires c.queue != []
  {
    var url, depth := c.queue[0].0, c.queue[0].1;
    var rest := c.queue[1..];
    if Skipped(web, domain, url, c.visited) then c.(queue := rest)
    else Visit(web, domain, maxDepth, url, depth, rest, c)
  }

  /** The visit of url at depth, with `rest` left of the frontier: mark it, queue what it queues, keep its emails. */
  function Visit(web: Web, domain: string, maxDepth: int, url: string, depth: int, rest: seq<Entry>, c: Crawl): Crawl {
    var visited := c.visited + {url};
    Crawl(rest + Enqueued(PageTargets(web, domain, url, depth, maxDepth, visited, rest), depth + 1),
          visited, c.emails + PageEmails(web, url))
  }

  /** The lines one turn logs: none for a skipped entry, the page's lines for a visited one. */
  function TurnLines(web: Web, domain: string, maxDepth: int, c: Crawl): seq<Message>
    requires c.queue != []
  {
    var url := c.queue[0].0;
    if Skipped(web, domain, url, c.visited) then []
    else PageLines(web, domain, url, c.queue[0].1, maxDepth, c.visited + {url}, c.queue[1..])
  }

  /** The frontier q is smaller than queue: fewer depth-0 entries, or as many and fewer entries. */
  predicate Shrinks(q: seq<Entry>, queue: seq<Entry>) {
    DepthZero(q) < DepthZero(queue) || (DepthZero(q) == DepthZero(queue) && |q| < |queue|)
  }

  /** A turn takes a depth-0 entry off the frontier, or keeps them all and shortens it. */
  lemma StepDecreases(web: Web, domain: string, maxDepth: int, c: Crawl)
    requires c.queue != []
    ensures Shrinks(Step(web, domain, maxDepth, c).queue, c.queue)
  {
    var url, depth := c.queue[0].0, c.queue[0].1;
    var rest := c.queue[1..];
    if Skipped(web, domain, url, c.visited) {
      QueueAfterVisit(c.queue, []);
      assert rest + Enqueued([], depth + 1) == rest;
    } else {
      QueueAfterVisit(c.queue, PageTargets(web, domain, url, depth, maxDepth, c.visited + {url}, rest));
    }
  }

  /** Popping an entry and queueing one level deeper, which only a depth-0 entry may do, shrinks the frontier. */
  lemma QueueAfterVisit(queue: seq<Entry>, found: seq<string>)
    requires queue != [] && (found != [] ==> queue[0].1 == 0)
    ensures Shrinks(queue[1..] + Enqueued(found, queue[0].1 + 1), queue)
  {
    DepthZeroAppend(queue[1..], Enqueued(found, queue[0].1 + 1));
    if found != [] {
      DepthZeroOfDeeper(found);
    }
  }

  /** The state the loop ends in. */
  function Finish(web: Web, domain: string, maxDepth: int, c: Crawl): Crawl
    decreases DepthZero(c.queue), |c.queue|
  {
    if c.queue == [] then c
    else
      StepDecreases(web, domain, maxDepth, c);
      Finish(web, domain, maxDepth, Step(web, domain, maxDepth, c))
  }

  /** The lines the loop logs from state c on, turn after turn. */
  function FinishLog(web: Web, domain: string, maxDepth: int, c: Crawl): seq<Message>
    decreases DepthZero(c.queue), |c.queue|
  {
    if c.queue == [] then []
    else
      StepDecreases(web, domain, maxDepth, c);
      TurnLines(web, domain, maxDepth, c) + FinishLog(web, domain, maxDepth, Step(web, domain, maxDepth, c))
  }

  /** A turn that skips its entry only drops it, and logs nothing. */
  lemma StepSkips(web: Web, domain: string, maxDepth: int, c: Crawl)
    requires c.queue != [] && Skipped(web, domain, c.queue[0].0, c.visited)
    ensures Step(web, domain, maxDepth, c) == c.(queue := c.queue[1..])
    ensures TurnLines(web, domain, maxDepth, c) == []
  {
  }

  /**
   * A turn that visits its entry marks it visited, queues what the page
   * queues, and adds the page's emails.
   */
  lemma StepVisits(web: Web, domain: string, maxDepth: int, c: Crawl)
    requires c.queue != [] && !Skipped(web, domain, c.queue[0].0, c.visited)
    ensures Step(web, domain, maxDepth, c) == Visit(web, domain, maxDepth, c.queue[0].0, c.queue[0].1, c.queue[1..], c)
  {
  }

  /** A turn that visits its entry logs the page's lines. */
  lemma TurnVisits(web: Web, domain: string, maxDepth: int, c: Crawl)
    requires c.queue != [] && !Skipped(web, domain, c.queue[0].0, c.visited)
    ensures TurnLines(web, domain, maxDepth, c) ==
      PageLines(web, domain, c.queue[0].0, c.queue[0].1, maxDepth, c.visited + {c.queue[0].0}, c.queue[1..])
  {
  }

  /** Logging a visit adds one fetch of the page and the pages it queues. */
  lemma LogOfVisit(web: Web, domain: string, url: string, depth: int, maxDepth: int,
                   visited: set<string>, rest: seq<Entry>, log: seq<Message>)
    ensures Visited(log + PageLines(web, domain, url, depth, maxDepth, visited, rest)) == Visited(log) + [url]
    ensures Queued(log + PageLines(web, domain, url, depth, maxDepth, visited, rest)) ==
      Queued(log) + PageTargets(web, domain, url, depth, maxDepth, visited, rest)
  {
    ProjectionsOfPage(web, domain, url, depth, maxDepth, visited, rest);
    ProjectionsAppend(log, PageLines(web, domain, url, depth, maxDepth, visited, rest));
  }

  /** What one page visit yields, put together, is the turn that visits it. */
  lemma VisitIsStep(web: Web, domain: string, maxDepth: int, c: Crawl,
                    emailsOnPage: set<string>, newQueue: seq<Entry>, lines: seq<Message>)
    requires c.queue != [] && !Skipped(web, domain, c.queue[0].0, c.visited)
    requires var url, depth := c.queue[0].0, c.queue[0].1;
      && emailsOnPage == PageEmails(web, url)
      && newQueue == c.queue[1..] + Enqueued(PageTargets(web, domain, url, depth, maxDepth, c.visited + {url}, c.queue[1..]), depth + 1)
      && lines == PageLines(web, domain, url, depth, maxDepth, c.visited + {url}, c.queue[1..])
    ensures Step(web, domain, maxDepth, c) == Crawl(newQueue, c.visited + {c.queue[0].0}, c.emails + emailsOnPage)
    ensures TurnLines(web, domain, maxDepth, c) == lines
  {
    StepVisits(web, domain, maxDepth, c);
    TurnVisits(web, domain, maxDepth, c);
  }

  /** The loop's outcome does not change across a turn. */
  lemma FinishStep(web: Web, domain: string, maxDepth: int, c: Crawl)
    requires c.queue != []
    ensures Finish(web, domain, maxDepth, c) == Finish(web, domain, maxDepth, Step(web, domain, maxDepth, c))
  {
  }

  /** A turn moves its lines from what is left to log to what has been logged. */
  lemma FinishLogStep(web: Web, domain: string, maxDepth: int, c: Crawl, log: seq<Message>)
    requires c.queue != []
    ensures log + FinishLog(web, domain, maxDepth, c) ==
      (log + TurnLines(web, domain, maxDepth, c)) + FinishLog(web, domain, maxDepth, Step(web, domain, maxDepth, c))
  {
  }

  /** The state before the first turn. */
  function Start(baseUrl: string): Crawl {
    Crawl([(baseUrl, 0)], {}, {})
  }

  /** The pages queued from the homepage: its target links, when it was fetched and one hop is allowed. */
  function SeedTargets(web: Web, baseUrl: string, maxDepth: int): seq<string> {
    match web.fetch(baseUrl)
    case FetchFailed(_) => []
    case Fetched(page) =>
      if maxDepth >= 1 then Targets(web.urls, Netloc(web.urls, baseUrl), baseUrl, page.anchors, {baseUrl}, [])
      else []
  }

  /** Every address of a set of pages is lower case and plausible. */
  lemma {:induction false} EmailsOfPlausible(web: Web, urls: seq<string>)
    ensures forall e :: e in EmailsOf(web, urls) ==> IsLower(e) && IsPlausibleEmail(e)
    decreases |urls|
  {
    if urls != [] {
      EmailsOfPlausible(web, urls[..|urls| - 1]);
      PageEmailsPlausible(web, urls[|urls| - 1]);
    }
  }

  /** The emails one crawl of baseUrl collects. */
  function SiteEmails(web: Web, baseUrl: string, maxDepth: int): set<string> {
    if IsValidUrl(web.urls, baseUrl) then EmailsOf(web, [baseUrl] + SeedTargets(web, baseUrl, maxDepth)) else {}
  }

  /** The lines one crawl of baseUrl logs. */
  function SiteLog(web: Web, baseUrl: string, maxDepth: int): seq<Message> {
    if IsValidUrl(web.urls, baseUrl) then
      [StartingScrape(baseUrl, maxDepth)] + FinishLog(web, Netloc(web.urls, baseUrl), maxDepth, Start(baseUrl))
    else [SkippingInvalidBase(baseUrl)]
  }

  /** The homepage and its queued pages: all distinct, all valid, all on the homepage's host. */
  lemma SeedTargetsWellFormed(web: Web, baseUrl: string, maxDepth: int)
    requires IsValidUrl(web.urls, baseUrl)
    ensures var pages := [baseUrl] + SeedTargets(web, baseUrl, maxDepth);
      && NoDuplicates(pages)
      && forall u :: u in pages ==> IsValidUrl(web.urls, u) && Netloc(web.urls, u) == Netloc(web.urls, baseUrl)
  {
    var pages := [baseUrl] + SeedTargets(web, baseUrl, maxDepth);
    if web.fetch(baseUrl).Fetched? && maxDepth >= 1 {
      TargetsSound(web.urls, Netloc(web.urls, baseUrl), baseUrl, web.fetch(baseUrl).page.anchors, {baseUrl}, []);
      assert forall i :: 1 <= i < |pages| ==> pages[i] in pages[1..];
    }
  }

  /**
   * The state of the crawl once the homepage and the first k of its queued
   * pages are done, with log logged so far: the rest of them are queued at
   * depth 1, the visited set is what the log says was fetched, and the emails
   * are those of those pages.
   */
  ghost predicate AfterHome(web: Web, baseUrl: string, targets: seq<string>, k: int, c: Crawl, log: seq<Message>) {
    && 0 <= k <= |targets|
    && c.queue == Enqueued(targets[k..], 1)
    && (forall u :: u in c.visited <==> u in Visited(log))
    && Visited(log) == [baseUrl] + targets[..k]
    && Queued(log) == targets
    && c.emails == EmailsOf(web, Visited(log))
  }

  /** The pages queued from the homepage are distinct from it and each other, valid, and on its host. */
  ghost predicate WellQueued(web: Web, baseUrl: string, targets: seq<string>) {
    && NoDuplicates([baseUrl] + targets)
    && forall u :: u in targets ==> IsValidUrl(web.urls, u) && Netloc(web.urls, u) == Netloc(web.urls, baseUrl)
  }

  /** The next queued page has not been fetched yet. */
  lemma NextUnvisited(web: Web, baseUrl: string, targets: seq<string>, k: int, c: Crawl, log: seq<Message>)
    requires WellQueued(web, baseUrl, targets) && AfterHome(web, baseUrl, targets, k, c, log) && k < |targets|
    ensures targets[k] !in c.visited
  {
    var pages := [baseUrl] + targets;
    forall j | 0 <= j < k + 1
      ensures ([baseUrl] + targets[..k])[j] != targets[k]
    {
      assert ([baseUrl] + targets[..k])[j] == pages[j] && pages[k + 1] == targets[k];
    }
  }

  /** Visiting the next queued page, which queues nothing, moves the crawl one page on. */
  lemma AfterHomeAdvance(web: Web, baseUrl: string, targets: seq<string>, k: int, c: Crawl, log: seq<Message>,
                         next: Crawl, nextLog: seq<Message>)
    requires AfterHome(web, baseUrl, targets, k, c, log) && k < |targets|
    requires next.queue == Enqueued(targets[k + 1..], 1)
    requires next.visited == c.visited + {targets[k]}
    requires Visited(nextLog) == Visited(log) + [targets[k]]
    requires Queued(nextLog) == Queued(log)
    requires next.emails == c.emails + PageEmails(web, targets[k])
    ensures AfterHome(web, baseUrl, targets, k + 1, next, nextLog)
  {
    FetchedAdvance(baseUrl, targets, k, Visited(log), Visited(nextLog));
    EmailsOfAppend(web, Visited(log), targets[k]);
  }

  /** Fetching the next queued page extends the pages fetched by it. */
  lemma FetchedAdvance(baseUrl: string, targets: seq<string>, k: int, fetched: seq<string>, fetched': seq<string>)
    requires 0 <= k < |targets| && fetched == [baseUrl] + targets[..k] && fetched' == fetched + [targets[k]]
    ensures fetched' == [baseUrl] + targets[..k + 1]
  {
    assert targets[..k + 1] == targets[..k] + [targets[k]];
  }

  /** A turn on a queued page visits it, queues nothing, adds its emails and logs its fetch. */
  lemma TargetTurn(web: Web, baseUrl: string, maxDepth: int, targets: seq<string>, k: int, c: Crawl, log: seq<Message>)
    requires WellQueued(web, baseUrl, targets) && AfterHome(web, baseUrl, targets, k, c, log) && k < |targets|
    ensures c.queue != []
    ensures var domain := Netloc(web.urls, baseUrl);
      AfterHome(web, baseUrl, targets, k + 1, Step(web, domain, maxDepth, c), log + TurnLines(web, domain, maxDepth, c))
  {
    var domain := Netloc(web.urls, baseUrl);
    var url := targets[k];
    assert c.queue[0] == (url, 1) && c.queue[1..] == Enqueued(targets[k + 1..], 1) by {
      assert targets[k..][0] == url && targets[k..][1..] == targets[k + 1..];
    }
    assert url in targets;
    NextUnvisited(web, baseUrl, targets, k, c, log);
    StepVisits(web, domain, maxDepth, c);
    TurnVisits(web, domain, maxDepth, c);
    LogOfVisit(web, domain, url, 1, maxDepth, c.visited + {url}, c.queue[1..], log);
    assert PageTargets(web, domain, url, 1, maxDepth, c.visited + {url}, c.queue[1..]) == [];
    assert c.queue[1..] + Enqueued([], 2) == c.queue[1..];
    AfterHomeAdvance(web, baseUrl, targets, k, c, log, Step(web, domain, maxDepth, c), log + TurnLines(web, domain, maxDepth, c));
  }

  /**
   * The crawl after the homepage: the queued pages are visited one by one,
   * none is skipped, none queues more, and each adds its emails and its fetch.
   */
  lemma {:induction false} FinishTargets(web: Web, baseUrl: string, maxDepth: int, targets: seq<string>, k: int,
                                         c: Crawl, log: seq<Message>)
    requires WellQueued(web, baseUrl, targets) && AfterHome(web, baseUrl, targets, k, c, log)
    ensures var domain := Netloc(web.urls, baseUrl);
      AfterHome(web, baseUrl, targets, |targets|, Finish(web, domain, maxDepth, c), log + FinishLog(web, domain, maxDepth, c))
    decreases |targets| - k
  {
    var domain := Netloc(web.urls, baseUrl);
    if k == |targets| {
      assert c.queue == [] by {
        assert targets[k..] == [];
      }
      assert log + [] == log;
    } else {
      TargetTurn(web, baseUrl, maxDepth, targets, k, c, log);
      FinishStep(web, domain, maxDepth, c);
      FinishLogStep(web, domain, maxDepth, c, log);
      FinishTargets(web, baseUrl, maxDepth, targets, k + 1, Step(web, domain, maxDepth, c), log + TurnLines(web, domain, maxDepth, c));
    }
  }

  /** The turn on the homepage: it is fetched, its target pages queued, its emails kept. */
  lemma HomeVisit(web: Web, baseUrl: string, maxDepth: int, next: Crawl, lines: seq<Message>)
    requires var domain := Netloc(web.urls, baseUrl);
      && next == Crawl([] + Enqueued(PageTargets(web, domain, baseUrl, 0, maxDepth, {baseUrl}, []), 0 + 1),
                       {baseUrl}, {} + PageEmails(web, baseUrl))
      && lines == PageLines(web, domain, baseUrl, 0, maxDepth, {baseUrl}, [])
    ensures AfterHome(web, baseUrl, SeedTargets(web, baseUrl, maxDepth), 0, next, [StartingScrape(baseUrl, maxDepth)] + lines)
  {
    var domain := Netloc(web.urls, baseUrl);
    var log := [StartingScrape(baseUrl, maxDepth)];
    var targets := SeedTargets(web, baseUrl, maxDepth);
    assert PageTargets(web, domain, baseUrl, 0, maxDepth, {baseUrl}, []) == targets by {
      assert FrontierUrls([]) == [];
    }
    LogOfVisit(web, domain, baseUrl, 0, maxDepth, {baseUrl}, [], log);
    assert Visited(log) == [] && Queued(log) == [] by {
      assert log[..0] == [];
    }
    AfterHomeStart(web, baseUrl, targets, next, log + lines);
  }

  /** Visiting the homepage, which queues targets, starts the crawl after the homepage. */
  lemma AfterHomeStart(web: Web, baseUrl: string, targets: seq<string>, next: Crawl, log: seq<Message>)
    requires next.queue == [] + Enqueued(targets, 0 + 1)
    requires next.visited == {baseUrl}
    requires Visited(log) == [] + [baseUrl]
    requires Queued(log) == [] + targets
    requires next.emails == {} + PageEmails(web, baseUrl)
    ensures AfterHome(web, baseUrl, targets, 0, next, log)
  {
    EmailsOfAppend(web, [], baseUrl);
    assert [] + [baseUrl] == [baseUrl];
    assert targets[0..] == targets && targets[..0] == [];
  }

  /**
   * The outcome of the crawl of a valid base URL: the homepage is fetched
   * first, then exactly the pages queued from it, each once; and the emails
   * collected are those of the pages fetched.
   */
  lemma CrawlOutcome(web: Web, baseUrl: string, maxDepth: int)
    requires IsValidUrl(web.urls, baseUrl)
    ensures var log := SiteLog(web, baseUrl, maxDepth);
      && Visited(log) == [baseUrl] + SeedTargets(web, baseUrl, maxDepth)
      && Queued(log) == SeedTargets(web, baseUrl, maxDepth)
      && SiteEmails(web, baseUrl, maxDepth) == EmailsOf(web, Visited(log))
      && Finish(web, Netloc(web.urls, baseUrl), maxDepth, Start(baseUrl)).emails == EmailsOf(web, Visited(log))
  {
    var domain := Netloc(web.urls, baseUrl);
    var c := Start(baseUrl);
    var targets := SeedTargets(web, baseUrl, maxDepth);
    var head := [StartingScrape(baseUrl, maxDepth)];
    var next := Step(web, domain, maxDepth, c);
    StepVisits(web, domain, maxDepth, c);
    TurnVisits(web, domain, maxDepth, c);
    assert c.queue[1..] == [] && c.visited + {baseUrl} == {baseUrl};
    HomeVisit(web, baseUrl, maxDepth, next, TurnLines(web, domain, maxDepth, c));
    FinishStep(web, domain, maxDepth, c);
    FinishLogStep(web, domain, maxDepth, c, head);
    SeedTargetsWellFormed(web, baseUrl, maxDepth);
    FinishTargets(web, baseUrl, maxDepth, targets, 0, next, head + TurnLines(web, domain, maxDepth, c));
    assert targets[..|targets|] == targets;
  }

  /**
   * No page is fetched twice in one crawl, and every page fetched passes
   * `is_valid_url` and is on the base URL's host.
   */
  lemma CrawlFetchesEachOnce(web: Web, baseUrl: string, maxDepth: int)
    ensures var fetched := Visited(SiteLog(web, baseUrl, maxDepth));
      && NoDuplicates(fetched)
      && forall u :: u in fetched ==> IsValidUrl(web.urls, u) && Netloc(web.urls, u) == Netloc(web.urls, baseUrl)
  {
    if IsValidUrl(web.urls, baseUrl) {
      CrawlOutcome(web, baseUrl, maxDepth);
      SeedTargetsWellFormed(web, baseUrl, maxDepth);
    } else {
      ProjectionsOfLine(SkippingInvalidBase(baseUrl));
    }
  }

  // ------------------------------------------------------- what a crawl logs

  /** A line that a crawl logs, as opposed to the lines of the batch around it. */
  predicate IsCrawlLine(m: Message) {
    || m.SkippingInvalidBase? || m.StartingScrape? || m.Scraping? || m.FoundEmails?
    || m.SearchingTargets? || m.QueuedTarget? || m.NoNewTargets? || m.ScrapeFailed?
  }

  predicate AllCrawlLines(lines: seq<Message>) {
    forall i :: 0 <= i < |lines| ==> IsCrawlLine(lines[i])
  }

  lemma {:induction false} QueuedLinesAreCrawlLines(urls: seq<string>)
    ensures AllCrawlLines(QueuedLines(urls))
    decreases |urls|
  {
    if urls != [] {
      QueuedLinesAreCrawlLines(urls[1..]);
    }
  }

  lemma PageLinesAreCrawlLines(web: Web, domain: string, url: string, depth: int, maxDepth: int,
                               visited: set<string>, queue: seq<Entry>)
    ensures AllCrawlLines(PageLines(web, domain, url, depth, maxDepth, visited, queue))
  {
    if web.fetch(url).Fetched? {
      SearchLinesAreCrawlLines(url, PageTargets(web, domain, url, depth, maxDepth, visited, queue));
    }
  }

  lemma SearchLinesAreCrawlLines(current: string, found: seq<string>)
    ensures AllCrawlLines(SearchLines(current, found))
  {
    QueuedLinesAreCrawlLines(found);
  }

  /** The loop logs crawl lines only. */
  lemma {:induction false} FinishLogsCrawlLines(web: Web, domain: string, maxDepth: int, c: Crawl)
    ensures AllCrawlLines(FinishLog(web, domain, maxDepth, c))
    decreases DepthZero(c.queue), |c.queue|
  {
    if c.queue != [] {
      if !Skipped(web, domain, c.queue[0].0, c.visited) {
        TurnVisits(web, domain, maxDepth, c);
        var url := c.queue[0].0;
        PageLinesAreCrawlLines(web, domain, url, c.queue[0].1, maxDepth, c.visited + {url}, c.queue[1..]);
      }
      StepDecreases(web, domain, maxDepth, c);
      FinishLogsCrawlLines(web, domain, maxDepth, Step(web, domain, maxDepth, c));
    }
  }

  /** Whatever the web does, a crawl logs nothing but crawl lines. */
  lemma SiteLogCrawlLines(web: Web, baseUrl: string, maxDepth: int)
    ensures AllCrawlLines(SiteLog(web, baseUrl, maxDepth))
  {
    if IsValidUrl(web.urls, baseUrl) {
      FinishLogsCrawlLines(web, Netloc(web.urls, baseUrl), maxDepth, Start(baseUrl));
    }
  }

  /**
   * One turn of the loop of app.py:79-127: take the head of the frontier; skip
   * it when it was visited, is not a valid URL or is on another host;
   * otherwise mark it visited, log it and scrape it.
   */
  method VisitNext(web: Web, domain: string, maxDepth: int, queue: seq<Entry>, visited: set<string>, emails: set<string>)
    returns (queue': seq<Entry>, visited': set<string>, emails': set<string>, lines: seq<Message>)
    requires queue != []
    ensures Crawl(queue', visited', emails') == Step(web, domain, maxDepth, Crawl(queue, visited, emails))
    ensures lines == TurnLines(web, domain, maxDepth, Crawl(queue, visited, emails))
  {
    ghost var before := Crawl(queue, visited, emails);
    var currentUrl, currentDepth := queue[0].0, queue[0].1;
    queue', visited', emails', lines := queue[1..], visited, emails, [];
    if currentUrl in visited || !IsValidUrl(web.urls, currentUrl) {
      StepSkips(web, domain, maxDepth, before);
      return;
    }
    if Netloc(web.urls, currentUrl) != domain {
      StepSkips(web, domain, maxDepth, before);
      return;
    }
    visited' := visited + {currentUrl};
    var emailsOnPage;
    emailsOnPage, queue', lines := ScrapePage(web, domain, currentUrl, currentDepth, maxDepth, visited', queue');
    VisitIsStep(web, domain, maxDepth, before, emailsOnPage, queue', lines);
    emails' := emails + emailsOnPage;
  }

  /**
   * `scrape_website_emails_for_task` (app.py:61-128), without the sleep. An
   * invalid base URL is refused with one line. Otherwise the homepage is
   * fetched first, then exactly the pages queued from it, each once; the log
   * records those fetches and those queued pages; the emails returned are
   * those of the pages fetched, all lower case and plausible.
   */
  method ScrapeWebsite(web: Web, baseUrl: string, maxDepth: int) returns (emailsCollected: set<string>, log: seq<Message>)
    ensures !IsValidUrl(web.urls, baseUrl) ==> emailsCollected == {} && log == [SkippingInvalidBase(baseUrl)]
    ensures IsValidUrl(web.urls, baseUrl) ==>
      && |log| > 0 && log[0] == StartingScrape(baseUrl, maxDepth)
      && Queued(log) == SeedTargets(web, baseUrl, maxDepth)
      && Visited(log) == [baseUrl] + Queued(log)
      && emailsCollected == EmailsOf(web, Visited(log))
    ensures emailsCollected == SiteEmails(web, baseUrl, maxDepth) && log == SiteLog(web, baseUrl, maxDepth)
  {
    if !IsValidUrl(web.urls, baseUrl) {
      return {}, [SkippingInvalidBase(baseUrl)];
    }
    var visitedUrls: set<string> := {};
    emailsCollected := {};
    var urlsToVisit: seq<Entry> := [(baseUrl, 0)];
    var baseDomain := Netloc(web.urls, baseUrl);
    log := [StartingScrape(baseUrl, maxDepth)];

    while urlsToVisit != []
      invariant Finish(web, baseDomain, maxDepth, Crawl(urlsToVisit, visitedUrls, emailsCollected))
             == Finish(web, baseDomain, maxDepth, Start(baseUrl))
      invariant log + FinishLog(web, baseDomain, maxDepth, Crawl(urlsToVisit, visitedUrls, emailsCollected))
             == SiteLog(web, baseUrl, maxDepth)
      decreases DepthZero(urlsToVisit), |urlsToVisit|
    {
      ghost var before := Crawl(urlsToVisit, visitedUrls, emailsCollected);
      StepDecreases(web, baseDomain, maxDepth, before);
      FinishStep(web, baseDomain, maxDepth, before);
      FinishLogStep(web, baseDomain, maxDepth, before, log);
      var lines;
      urlsToVisit, visitedUrls, emailsCollected, lines := VisitNext(web, baseDomain, maxDepth, urlsToVisit, visitedUrls, emailsCollected);
      log := log + lines;
    }
    assert log + [] == log;
    CrawlOutcome(web, baseUrl, maxDepth);
  }
}
