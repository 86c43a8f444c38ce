/**
 * `run_scraping_task_thread` (app.py:141-190): the worker that processes one
 * task's batch of websites, one crawl each, records the lines of every crawl
 * in the task's log, builds one result row per website and ends the task
 * complete, or in error when the result file cannot be written.
 */
module Runner {
  import opened Wrappers
  import opened Strings
  import opened Sorting
  import opened Emails
  import opened Tasks
  import opened Urls
  import opened Crawler

  /** `MAX_DEPTH` (app.py:19): the homepage and the pages it links to. */
  const MaxDepth: int := 1

  /** The emails cell of a website for which nothing was found (app.py:163). */
  const NoEmailsSentinel: string := "NO_EMAILS_FOUND_OR_ERROR"

  /** One row of the result file: the website as submitted and its emails cell. */
  datatype Row = Row(website: string, emails: string)

  /** The emails cell: the addresses in ascending order joined by ", ", or the sentinel when there are none. */
  function EmailsText(found: set<string>): string {
    if found == {} then NoEmailsSentinel else Join(SortedSet(found), ", ")
  }

  /** The name of a task's result file (app.py:167). */
  function ResultFilename(taskId: string): string {
    "scraped_emails_" + taskId + ".csv"
  }

  /** The row of one website. */
  function SiteRow(web: Web, site: string): Row {
    Row(site, EmailsText(SiteEmails(web, site, MaxDepth)))
  }

  /** f applied to each website of a batch, in order. */
  function PerSite<T>(f: string -> T, sites: seq<string>): seq<T>
    decreases |sites|
  {
    if sites == [] then [] else PerSite(f, sites[..|sites| - 1]) + [f(sites[|sites| - 1])]
  }

  lemma {:induction false} PerSiteIndexed<T>(f: string -> T, sites: seq<string>)
    ensures |PerSite(f, sites)| == |sites| && forall i :: 0 <= i < |sites| ==> PerSite(f, sites)[i] == f(sites[i])
    decreases |sites|
  {
    if sites != [] {
      var n := |sites| - 1;
      PerSiteIndexed(f, sites[..n]);
      assert forall i :: 0 <= i < n ==> sites[..n][i] == sites[i];
    }
  }

  /** The rows of a batch: one per website, in order. */
  function Rows(web: Web, sites: seq<string>): seq<Row> {
    PerSite(site => SiteRow(web, site), sites)
  }

  /** The line that closes one website's part of the log (app.py:157-164). */
  function SiteOutcome(site: string, found: set<string>): Message {
    if found != {} then SiteScraped(|found|, site, EmailsText(found)) else NoEmailsForSite(site)
  }

  /** The lines logged for the website at 1-based `position` of a batch of `total`. */
  function SiteLines(web: Web, site: string, position: nat, total: nat): seq<Message> {
    [ProcessingWebsite(position, total, site)] + SiteLog(web, site, MaxDepth) + [SiteOutcome(site, SiteEmails(web, site, MaxDepth))]
  }

  /** The lines logged for the websites `sites`, the first `|sites|` of a batch of `total`. */
  function RunLines(web: Web, sites: seq<string>, total: nat): seq<Message>
    decreases |sites|
  {
    if sites == [] then []
    else RunLines(web, sites[..|sites| - 1], total) + SiteLines(web, sites[|sites| - 1], |sites|, total)
  }

  /**
   * The record of a task once the loop is done: complete with its result file
   * and the number of websites processed, or in error when writing the file
   * raised `saveFailure`.
   */
  function Concluded(t: Task, taskId: string, processed: nat, saveFailure: Option<string>): Task {
    match saveFailure
    case Some(error) =>
      t.(status := Error, errorMessage := Some(error), messages := t.messages + [CriticalError(error)])
    case None =>
      var filename := ResultFilename(taskId);
      t.(status := Complete, filename := Some(filename), summary := Some(processed),
         messages := t.messages + [ScrapingComplete(filename)])
  }

  /** The record of a task once its whole batch is done. */
  function RunOutcome(t: Task, web: Web, taskId: string, websites: seq<string>, saveFailure: Option<string>): Task {
    Concluded(t.(messages := t.messages + RunLines(web, websites, |websites|)), taskId, |websites|, saveFailure)
  }

  // ------------------------------------------------------------ the worker

  lemma RunLinesExtend(web: Web, sites: seq<string>, i: int, total: nat)
    requires 0 <= i < |sites|
    ensures RunLines(web, sites[..i + 1], total) == RunLines(web, sites[..i], total) + SiteLines(web, sites[i], i + 1, total)
  {
    assert sites[..i + 1][..i] == sites[..i];
  }

  /** One website of the batch: its rows and its lines (app.py:152-164). */
  method ProcessWebsite(registry: TaskRegistry, taskId: string, web: Web, site: string, position: nat, total: nat)
    returns (row: Row)
    modifies registry
    ensures row == SiteRow(web, site)
    ensures registry.tasks == WithLines(old(registry.tasks), taskId, SiteLines(web, site, position, total))
  {
    ghost var before := registry.tasks;
    registry.LogProgress(taskId, ProcessingWebsite(position, total, site));
    var emailsFound, lines := ScrapeWebsite(web, site, MaxDepth);
    registry.LogAll(taskId, lines);
    var outcome: Message;
    if emailsFound != {} {
      var emailsString := Join(SortedSet(emailsFound), ", ");
      row := Row(site, emailsString);
      outcome := SiteScraped(|emailsFound|, site, emailsString);
    } else {
      row := Row(site, NoEmailsSentinel);
      outcome := NoEmailsForSite(site);
    }
    registry.LogProgress(taskId, outcome);
    WithLinesTwice(before, taskId, [ProcessingWebsite(position, total, site)], lines);
    WithLinesTwice(before, taskId, [ProcessingWebsite(position, total, site)] + lines, [outcome]);
  }

  /** The loop of app.py:152-164 over the whole batch: one row and one run of lines per website, in order. */
  method ProcessAll(registry: TaskRegistry, taskId: string, web: Web, websites: seq<string>)
    returns (rows: seq<Row>)
    modifies registry
    ensures registry.tasks == WithLines(old(registry.tasks), taskId, RunLines(web, websites, |websites|))
    ensures rows == Rows(web, websites) && |rows| == |websites|
  {
    ghost var start := registry.tasks;
    rows := [];
    var totalWebsites := |websites|;
    assert websites[..0] == [] && RunLines(web, [], totalWebsites) == [] && Rows(web, []) == [];
    assert WithLines(start, taskId, []) == start by {
      if taskId in start {
        assert start[taskId].messages + [] == start[taskId].messages;
      }
    }
    for i := 0 to |websites|
      invariant registry.tasks == WithLines(start, taskId, RunLines(web, websites[..i], totalWebsites))
      invariant rows == Rows(web, websites[..i]) && |rows| == i
    {
      var row := ProcessWebsite(registry, taskId, web, websites[i], i + 1, totalWebsites);
      rows := rows + [row];
      RunLinesExtend(web, websites, i, totalWebsites);
      assert websites[..i + 1][..i] == websites[..i];
      assert Rows(web, websites[..i + 1]) == Rows(web, websites[..i]) + [SiteRow(web, websites[i])];
      WithLinesTwice(start, taskId, RunLines(web, websites[..i], totalWebsites), SiteLines(web, websites[i], i + 1, totalWebsites));
    }
    assert websites[..|websites|] == websites;
  }

  /**
   * `run_scraping_task_thread`: mark the task processing, crawl every website
   * in order, then end complete with the result file or, when writing it
   * fails, in error. An unknown task id changes nothing and yields no rows.
   * The rows are those written to the result file, one per website, in order.
   */
  method RunScrapingTask(registry: TaskRegistry, taskId: string, websites: seq<string>, web: Web, saveFailure: Option<string>)
    returns (rows: seq<Row>)
    modifies registry
    ensures taskId in old(registry.tasks) ==>
      registry.tasks == old(registry.tasks)[taskId := RunOutcome(old(registry.tasks)[taskId], web, taskId, websites, saveFailure)]
    ensures taskId in old(registry.tasks) ==> rows == Rows(web, websites)
    ensures taskId !in old(registry.tasks) ==> registry.tasks == old(registry.tasks) && rows == []
  {
    var found := registry.SetProcessing(taskId);
    if !found {
      return [];
    }
    RunOutcomeSteps(old(registry.tasks), taskId, RunLines(web, websites, |websites|), |websites|, saveFailure);
    rows := ProcessAll(registry, taskId, web, websites);
    Conclude(registry, taskId, |rows|, saveFailure);
  }

  /** The three updates of the worker (processing, the batch's lines, the conclusion) compose to one conclusion. */
  lemma RunOutcomeSteps(tasks: map<string, Task>, id: string, lines: seq<Message>, processed: nat, saveFailure: Option<string>)
    requires id in tasks
    ensures var processing := tasks[id := tasks[id].(status := Processing)];
      var logged := WithLines(processing, id, lines);
      && id in logged
      && logged[id := Concluded(logged[id], id, processed, saveFailure)]
         == tasks[id := Concluded(tasks[id].(messages := tasks[id].messages + lines), id, processed, saveFailure)]
  {
    var t := tasks[id];
    var processing := tasks[id := t.(status := Processing)];
    var logged := WithLines(processing, id, lines);
    assert logged == tasks[id := t.(status := Processing, messages := t.messages + lines)];
  }

  /** app.py:166-190: write the result file, then record completion, or the error writing it raised. */
  method Conclude(registry: TaskRegistry, taskId: string, processed: nat, saveFailure: Option<string>)
    modifies registry
    requires taskId in registry.tasks
    ensures registry.tasks == old(registry.tasks)[taskId := Concluded(old(registry.tasks)[taskId], taskId, processed, saveFailure)]
  {
    var csvFilename := ResultFilename(taskId);
    match saveFailure {
      case Some(error) =>
        registry.ReportError(taskId, error);
      case None =>
        registry.LogProgress(taskId, ScrapingComplete(csvFilename));
        registry.SetComplete(taskId, csvFilename, processed);
    }
  }

  // ------------------------------------------------------------ properties

  /**
   * The sentinel cell is written exactly for the websites with no email:
   * every address found contains an `@`, and the sentinel does not.
   */
  lemma EmailsTextSentinel(found: set<string>)
    requires forall e :: e in found ==> IsPlausibleEmail(e)
    ensures EmailsText(found) == NoEmailsSentinel <==> found == {}
  {
    if found != {} {
      var listing := SortedSet(found);
      assert listing[0] in found;
      var at :| OnlyAtSign(listing[0], at);
      JoinStartsWithFirst(listing, ", ");
      assert EmailsText(found)[at] == '@';
      assert forall k :: 0 <= k < |NoEmailsSentinel| ==> NoEmailsSentinel[k] != '@';
    }
  }

  /** The emails cell of a website names every address found on it. */
  lemma EmailsTextListsAll(found: set<string>)
    ensures forall e :: e in found ==> Contains(EmailsText(found), e)
  {
    var listing := SortedSet(found);
    JoinContainsParts(listing, ", ");
    forall e | e in found
      ensures Contains(EmailsText(found), e)
    {
      var k :| 0 <= k < |listing| && listing[k] == e;
    }
  }

  /**
   * A website's emails cell is the sentinel exactly when nothing was found on
   * it, and otherwise names every address found there.
   */
  lemma SiteRowCell(web: Web, site: string)
    ensures var row := SiteRow(web, site);
      && row.website == site
      && (row.emails == NoEmailsSentinel <==> SiteEmails(web, site, MaxDepth) == {})
      && forall e :: e in SiteEmails(web, site, MaxDepth) ==> Contains(row.emails, e)
  {
    if IsValidUrl(web.urls, site) {
      EmailsOfPlausible(web, [site] + SeedTargets(web, site, MaxDepth));
    }
    EmailsTextSentinel(SiteEmails(web, site, MaxDepth));
    EmailsTextListsAll(SiteEmails(web, site, MaxDepth));
  }

  /** The result file has one row per website, in the order submitted. */
  lemma RowsOfSites(web: Web, sites: seq<string>)
    ensures var rows := Rows(web, sites);
      |rows| == |sites| && forall i :: 0 <= i < |sites| ==> rows[i] == SiteRow(web, sites[i])
  {
    PerSiteIndexed(site => SiteRow(web, site), sites);
  }

  /** The lines of a log that belong to the batch rather than to a crawl. */
  function BatchLines(lines: seq<Message>): seq<Message>
    decreases |lines|
  {
    if lines == [] then []
    else BatchLines(lines[..|lines| - 1]) + (if IsCrawlLine(lines[|lines| - 1]) then [] else [lines[|lines| - 1]])
  }

  lemma {:induction false} BatchLinesAppend(a: seq<Message>, b: seq<Message>)
    ensures BatchLines(a + b) == BatchLines(a) + BatchLines(b)
    decreases |b|
  {
    if b == [] {
      assert a + b == a;
    } else {
      assert (a + b)[..|a + b| - 1] == a + b[..|b| - 1];
      BatchLinesAppend(a, b[..|b| - 1]);
    }
  }

  lemma {:induction false} BatchLinesOfCrawl(lines: seq<Message>)
    requires AllCrawlLines(lines)
    ensures BatchLines(lines) == []
    decreases |lines|
  {
    if lines != [] {
      BatchLinesOfCrawl(lines[..|lines| - 1]);
    }
  }

  lemma SiteBatchLines(web: Web, site: string, position: nat, total: nat)
    ensures BatchLines(SiteLines(web, site, position, total))
         == [ProcessingWebsite(position, total, site), SiteOutcome(site, SiteEmails(web, site, MaxDepth))]
  {
    var head := [ProcessingWebsite(position, total, site)];
    var crawl := SiteLog(web, site, MaxDepth);
    var tail := [SiteOutcome(site, SiteEmails(web, site, MaxDepth))];
    SiteLogCrawlLines(web, site, MaxDepth);
    BatchLinesOfCrawl(crawl);
    BatchLinesAppend(head + crawl, tail);
    BatchLinesAppend(head, crawl);
    assert BatchLines(head) == BatchLines([]) + head;
    assert BatchLines(tail) == BatchLines([]) + tail;
  }

  lemma BatchLinesOfRun(web: Web, sites: seq<string>, total: nat)
    requires sites != []
    ensures var n := |sites| - 1;
      BatchLines(RunLines(web, sites, total)) == BatchLines(RunLines(web, sites[..n], total)) +
        [ProcessingWebsite(n + 1, total, sites[n]), SiteOutcome(sites[n], SiteEmails(web, sites[n], MaxDepth))]
  {
    var n := |sites| - 1;
    BatchLinesAppend(RunLines(web, sites[..n], total), SiteLines(web, sites[n], n + 1, total));
    SiteBatchLines(web, sites[n], n + 1, total);
  }

  /** For each website, at its 1-based position, the line first(position, site) followed by second(site). */
  function Pairs(first: (nat, string) -> Message, second: string -> Message, sites: seq<string>): seq<Message>
    decreases |sites|
  {
    if sites == [] then []
    else Pairs(first, second, sites[..|sites| - 1]) + [first(|sites|, sites[|sites| - 1]), second(sites[|sites| - 1])]
  }

  lemma {:induction false} PairsIndexed(first: (nat, string) -> Message, second: string -> Message, sites: seq<string>)
    ensures var b := Pairs(first, second, sites);
      && |b| == 2 * |sites|
      && forall i :: 0 <= i < |sites| ==> b[2 * i] == first(i + 1, sites[i]) && b[2 * i + 1] == second(sites[i])
    decreases |sites|
  {
    if sites != [] {
      var n := |sites| - 1;
      var init := sites[..n];
      PairsIndexed(first, second, init);
      var front := Pairs(first, second, init);
      var b := Pairs(first, second, sites);
      forall i | 0 <= i < |sites|
        ensures b[2 * i] == first(i + 1, sites[i]) && b[2 * i + 1] == second(sites[i])
      {
        if i < n {
          assert init[i] == sites[i];
          assert b[2 * i] == front[2 * i] && b[2 * i + 1] == front[2 * i + 1];
        }
      }
    }
  }

  /** The line announcing a website at its 1-based position in a batch of `total` (app.py:153). */
  function Announce(total: nat): (nat, string) -> Message {
    (position: nat, site: string) => ProcessingWebsite(position, total, site)
  }

  /** The line closing a website's part of the log, given what its crawl found. */
  function Outcome(web: Web): string -> Message {
    site => SiteOutcome(site, SiteEmails(web, site, MaxDepth))
  }

  /** The batch's own lines for each website: its announcement, then its outcome. */
  function Announcements(web: Web, sites: seq<string>, total: nat): seq<Message> {
    Pairs(Announce(total), Outcome(web), sites)
  }

  lemma {:induction false} RunBatchLines(web: Web, sites: seq<string>, total: nat)
    ensures BatchLines(RunLines(web, sites, total)) == Announcements(web, sites, total)
    decreases |sites|
  {
    if sites != [] {
      RunBatchLines(web, sites[..|sites| - 1], total);
      BatchLinesOfRun(web, sites, total);
    }
  }

  /**
   * Leaving the crawls' own lines aside, the log of a batch announces each
   * website in order with its position and the batch size, and follows each
   * announcement with that website's outcome line.
   */
  lemma RunLinesAnnounceEachSite(web: Web, sites: seq<string>, total: nat)
    ensures |BatchLines(RunLines(web, sites, total))| == 2 * |sites|
    ensures forall i :: 0 <= i < |sites| ==>
      && BatchLines(RunLines(web, sites, total))[2 * i] == ProcessingWebsite(i + 1, total, sites[i])
      && BatchLines(RunLines(web, sites, total))[2 * i + 1] == SiteOutcome(sites[i], SiteEmails(web, sites[i], MaxDepth))
  {
    var b := BatchLines(RunLines(web, sites, total));
    RunBatchLines(web, sites, total);
    PairsIndexed(Announce(total), Outcome(web), sites);
    AnnouncementsIndexed(web, sites, total, b);
  }

  lemma AnnouncementsIndexed(web: Web, sites: seq<string>, total: nat, b: seq<Message>)
    requires b == Announcements(web, sites, total) && |b| == 2 * |sites|
    ensures forall i :: 0 <= i < |sites| ==>
      && b[2 * i] == ProcessingWebsite(i + 1, total, sites[i])
      && b[2 * i + 1] == SiteOutcome(sites[i], SiteEmails(web, sites[i], MaxDepth))
  {
    forall i | 0 <= i < |sites|
      ensures b[2 * i] == ProcessingWebsite(i + 1, total, sites[i])
      ensures b[2 * i + 1] == SiteOutcome(sites[i], SiteEmails(web, sites[i], MaxDepth))
    {
      PairAt(Announce(total), Outcome(web), sites, i);
      assert Announce(total)(i + 1, sites[i]) == ProcessingWebsite(i + 1, total, sites[i]);
      assert Outcome(web)(sites[i]) == SiteOutcome(sites[i], SiteEmails(web, sites[i], MaxDepth));
    }
  }

  lemma PairAt(first: (nat, string) -> Message, second: string -> Message, sites: seq<string>, i: int)
    requires 0 <= i < |sites|
    ensures var b := Pairs(first, second, sites);
      2 * i + 1 < |b| && b[2 * i] == first(i + 1, sites[i]) && b[2 * i + 1] == second(sites[i])
  {
    PairsIndexed(first, second, sites);
  }

  /**
   * A finished task is complete exactly when its result file was written, and
   * in error otherwise; its log keeps every earlier line, ends with the line
   * that says which, and a complete task names its result file and the
   * number of websites processed.
   */
  lemma RunOutcomeFinal(t: Task, web: Web, taskId: string, websites: seq<string>, saveFailure: Option<string>)
    ensures var r := RunOutcome(t, web, taskId, websites, saveFailure);
      && StatusStep(Processing, r.status)
      && (r.status == Complete <==> saveFailure == None)
      && r.urls == t.urls
      && t.messages < r.messages
      && (r.status == Complete ==>
           && r.messages[|r.messages| - 1] == ScrapingComplete(ResultFilename(taskId))
           && r.filename == Some(ResultFilename(taskId)) && r.summary == Some(|websites|))
      && (r.status == Error ==>
           && r.messages[|r.messages| - 1] == CriticalError(saveFailure.value)
           && r.errorMessage == saveFailure)
  {
    var r := RunOutcome(t, web, taskId, websites, saveFailure);
    assert r.messages[..|t.messages|] == t.messages;
  }
}
