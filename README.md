# Flask email scraper: a Dafny model

This project models `app.py`, a small web application that collects email
addresses from websites. A user submits a list of websites. The application
stores a task for the batch and starts a worker. For each website, the worker
crawls the homepage and the "about"/"contact"/"support" pages the homepage
links to, keeping plausible addresses. It writes one result row per website,
and a browser follows the task's progress log as a stream of events. Finished
results are downloaded by file name.

The model is split into modules that follow the program:

- `Strings`: the Python `str` operations the program relies on (`in`, `lower`,
  `split`, `join`, `strip`, `splitlines`).
- `Sorting`: `sorted()` of a set of strings.
- `Urls`: `is_valid_url` over an opaque `urlparse`.
- `Emails`: the filter of `find_emails_on_page`.
- `Tasks`: the `tasks` registry, as a class over a map, and `log_progress`.
- `Crawler`: `scrape_website_emails_for_task`, the breadth-first crawl, as a
  method with its loop proved against a function of the crawl state.
- `Runner`: `run_scraping_task_thread`.
- `Routes`: the request handlers `request_scrape`, `progress_stream` and
  `download_file`.
- `Wrappers`: `Option`.

Progress lines are a `Message` datatype, one constructor per f-string, and
stream events are an `Event` datatype; their text formatting is not modelled.
The network, the HTML parser, the email regular expression and the URL
library are inputs, described below. The crawl returns the lines it logs,
which the worker appends to the task's log in the same order. The worker's
result file is given as the rows it would write and, when writing fails, as
the error raised.

The main results:

- `Crawler.CrawlOutcome` and `Crawler.ScrapeWebsite`: a crawl fetches the
  homepage first, then exactly the pages queued from it, each once. The
  emails it returns are those of the pages fetched.
- `Crawler.TargetsSound` and `Crawler.TargetsComplete`: the pages queued are
  exactly the keyword links of the homepage that are valid, on its host and
  not yet seen. None is queued twice.
- `Emails.PassesFilterIffPlausible`: the address filter has an independent,
  index-based characterisation.
- `Routes.StreamShowsLog` and `Routes.StreamEndsOnce`: the progress stream
  shows every log line exactly once, in order, and ends with a single
  closing event exactly when the task completes, fails or is missing.
- `Routes.ResubmitWebsites`: normalising the submitted list is a round trip
  on its own results.
- `Runner.RunScrapingTask` and `Runner.RunOutcomeFinal`: the worker's effect
  on the registry and the final state of the task.

Where the code and its design description differ, the model follows the
code:

- A `mailto:` link can never be malformed in the sense of `app.py:99-100`.
  The href starts with `mailto:`, so splitting on it always yields a second
  piece. The warning line is therefore never logged and has no `Message`
  constructor.
- The address of a `mailto:` link is the text between the first and a
  possible second `mailto:`, cut at the first `?`, as `app.py:97` computes
  it (`Crawler.MailtoAddress`).
- A fatal error does not reach the progress stream: see "## Findings".

## Model

| member | source | states |
|---|---|---|
| Strings.ContainsAt | app.py:52-53 | `p in s` holds exactly when p occurs at some index of s |
| Strings.JoinSplit | app.py:55-56 | joining the pieces of `s.split(sep)` with sep gives s back |
| Strings.SplitPieces | app.py:54-56 | a split has one more piece than s has separators, and no piece holds one |
| Strings.SplitLast | app.py:56 | the last piece of a split is the longest suffix of s without a separator: it is all of s, or it follows a separator |
| Strings.SplitLastIsWhole | app.py:56 | the last piece is all of s exactly when s holds no separator |
| Strings.JoinStartsWithFirst | app.py:159 | a non-empty join begins with its first part |
| Strings.JoinEndsWithLast | app.py:159 | a non-empty join ends with its last part |
| Strings.JoinContainsParts | app.py:159 | every part occurs in the joined string |
| Strings.TrimStart | app.py:204 | `lstrip()` removes a prefix made only of whitespace, and what remains does not start with whitespace |
| Strings.TrimEnd | app.py:204 | `rstrip()` removes a suffix made only of whitespace, and what remains does not end with whitespace |
| Strings.Strip | app.py:207 | the result of `strip()` has no whitespace at either end |
| Strings.StripKeepsMiddle | app.py:207 | what `strip()` leaves is a slice of s with only whitespace around it |
| Strings.StrippedIsFixpoint | app.py:207 | a string with no whitespace at either end is its own strip |
| Strings.StripEmptyIffBlank | app.py:208 | `strip()` yields the empty string exactly when s is all whitespace |
| Strings.LineEnd | app.py:204 | the first line boundary, or the end of s when there is none; no boundary comes before it |
| Strings.SplitLines | app.py:204 | no line of `splitlines()` holds a line boundary |
| Strings.SplitLinesKeepsText | app.py:204 | `splitlines()` removes only the line boundaries: every other character survives, in order |
| Strings.SplitLinesJoin | app.py:204 | non-empty lines without boundaries, joined with newlines, split back into themselves |
| Strings.BlankConcat | app.py:204-208 | a concatenation of lines is blank exactly when every line is |
| Sorting.LexIrreflexive | app.py:159 | Python's string order is irreflexive |
| Sorting.LexAsymmetric | app.py:159 | Python's string order is asymmetric |
| Sorting.LexTransitive | app.py:159 | Python's string order is transitive |
| Sorting.LexTotal | app.py:159 | any two distinct strings are ordered one way or the other |
| Sorting.SortedSet | app.py:159 | `sorted()` of a set lists its elements in strictly increasing order, each exactly once |
| Sorting.IncreasingListingUnique | app.py:159 | two strictly increasing listings of one set are equal, so the order of iterating the set does not matter |
| Urls.IsValidUrl | app.py:40-42 | `is_valid_url`: the scheme and the host are present and the scheme is neither `mailto` nor `tel`; its partner is Crawler.CrawlFetchesEachOnce |
| Emails.ContainsAnyAvoids | app.py:52-53 | `any(p in e ...)` is false exactly when no pattern occurs anywhere in e |
| Emails.CountOneIffOnly | app.py:54 | `count('@') == 1` holds exactly when there is a single position holding `@` |
| Emails.SplitAtOnly | app.py:55 | splitting at the only `@` gives the text before it and the text after it |
| Emails.DomainTest | app.py:56 | the domain test holds exactly when the last dot of e comes after the `@` with at least two characters after it |
| Emails.PassesFilterIffPlausible | app.py:50-58 | the filter keeps a lower-cased candidate exactly when the index-based definition of a plausible address holds |
| Emails.LowerIsLower | app.py:51 | `lower()` leaves no upper-case letter |
| Emails.FilteredPlausible | app.py:44-59 | every address kept is lower case and plausible, and every candidate whose lower case is plausible is kept |
| Emails.FilteredInsert | app.py:50-58 | one more candidate adds its lower case exactly when that passes the filter |
| Emails.CheckCandidate | app.py:51-58 | the method's verdict on one match agrees with plausibility of its lower case |
| Emails.FindEmailsOnPage | app.py:44-59 | the loop over the matches yields the filter of the set of matches |
| Tasks.WithLinesTwice | app.py:130-139 | two appends to a log are one append of the two runs of lines |
| Tasks.WithLinesGrows | app.py:130-139 | appending only extends logs, and only the log of the task named |
| Tasks.ReportErrorAsWrittenBlocks | app.py:184-188 | as written, the error handler marks a known task as failed and then blocks on the lock it holds, without logging its line |
| Tasks.TaskRegistry.constructor | app.py:36 | the registry starts empty |
| Tasks.TaskRegistry.Create | app.py:217-225 | a new pending record with the one line "Task initiated." is stored under the new id; for a fresh id, no other task changes |
| Tasks.TaskRegistry.LogProgress | app.py:130-139 | the line is appended at the end of a known task's log; an unknown id changes nothing |
| Tasks.TaskRegistry.LogAll | app.py:130-139 | a run of lines is appended at the end of a known task's log, in order |
| Tasks.TaskRegistry.SetProcessing | app.py:145-146 | a known task becomes processing; for an unknown id the method reports it and changes nothing |
| Tasks.TaskRegistry.SetComplete | app.py:177-180 | a known task becomes complete with its file name and the number of websites processed |
| Tasks.TaskRegistry.ReportError | app.py:184-190 | a known task becomes failed with the error text, and its log ends with the critical-error line; an unknown id changes nothing |
| Crawler.BuildPageText | app.py:92-98 | the page text is the visible text followed by `" " + address` for every mailto link, in order |
| Crawler.PageEmailsPlausible | app.py:102-105 | every address a page yields is lower case and plausible |
| Crawler.TargetsSound | app.py:110-123 | every page queued comes from a non-empty keyword link of the page, is on the crawl's host, valid and unvisited, was not already queued, and is not queued twice |
| Crawler.TargetsComplete | app.py:110-123 | every non-empty keyword link whose resolution is valid, unvisited and on the host ends up queued, before the scan or by it |
| Crawler.FrontierUrlsOfEnqueued | app.py:120-121 | queuing urls queues exactly those urls, in order |
| Crawler.SearchTargetPages | app.py:107-125 | the scan appends exactly the target pages to the frontier, one level deeper, logs one line per page queued, and adds a closing line when none was queued |
| Crawler.PageTargets | app.py:107 | only a homepage that was fetched, under a depth limit of at least 1, queues pages |
| Crawler.ProjectionsOfPage | app.py:83-127 | the lines of one visit record one fetch, of that page, and exactly the pages it queues |
| Crawler.ScrapePage | app.py:87-127 | one page yields its emails (none when the fetch fails), the frontier with its target pages appended, and its log lines |
| Crawler.StepDecreases | app.py:78-121 | each turn shrinks the frontier, because only depth-0 entries add to it, so the loop terminates |
| Crawler.EmailsOfPlausible | app.py:102-105 | every address collected from a list of pages is lower case and plausible |
| Crawler.SeedTargetsWellFormed | app.py:107-123 | the homepage and the pages queued from it are all distinct, all valid and all on the homepage's host |
| Crawler.TargetTurn | app.py:79-127 | each turn after the homepage visits the next queued page, queues nothing and adds that page's fetch and emails |
| Crawler.FinishTargets | app.py:78-127 | after the homepage, the loop visits the queued pages one by one and ends with the frontier empty |
| Crawler.CrawlOutcome | app.py:61-128 | a crawl of a valid base URL fetches the homepage and then exactly the pages queued from it, each once, and collects exactly the emails of those pages |
| Crawler.CrawlFetchesEachOnce | app.py:78-83 | no page is fetched twice in one crawl, and every page fetched passes `is_valid_url` and is on the base URL's host |
| Crawler.SiteLogCrawlLines | app.py:61-128 | a crawl logs crawl lines only, whatever the web returns |
| Crawler.VisitNext | app.py:79-127 | one turn of the loop computes the next crawl state and its log lines |
| Crawler.ScrapeWebsite | app.py:61-128 | an invalid base URL is refused with one line and no emails. Otherwise the log starts with the start line, fetches the homepage and then exactly the queued pages, and the emails are those of the pages fetched |
| Runner.EmailsTextSentinel | app.py:157-163 | the emails cell is the sentinel exactly when no address was found |
| Runner.EmailsTextListsAll | app.py:159 | the emails cell names every address found |
| Runner.SiteRowCell | app.py:152-164 | a website's row carries that website, and the sentinel exactly when its crawl found nothing; otherwise it names every address found |
| Runner.RowsOfSites | app.py:152-164 | the result has one row per website, in the order submitted |
| Runner.ProcessWebsite | app.py:152-164 | one website yields its row and appends its announcement, its crawl's lines and its outcome line to the task's log |
| Runner.ProcessAll | app.py:152-164 | the loop yields one row per website, in order, and appends each website's lines in order |
| Runner.RunOutcomeSteps | app.py:145-180 | marking processing, appending the batch's lines and concluding compose to one update of the task |
| Runner.Conclude | app.py:166-190 | the task ends complete with its file, or failed with the error that writing the file raised |
| Runner.RunScrapingTask | app.py:142-190 | for a known task, the registry ends with that task concluded after its batch's lines, nothing else changed, and the rows are one per website in order; an unknown id changes nothing |
| Runner.RunBatchLines | app.py:152-164 | leaving the crawls' lines aside, the batch logs an announcement and an outcome line per website |
| Runner.RunLinesAnnounceEachSite | app.py:152-164 | the log announces website i as `i+1` of the batch size and follows it with that website's outcome line |
| Runner.RunOutcomeFinal | app.py:166-190 | a finished task is complete exactly when its file was written; its log keeps every earlier line and ends with the line saying which; a complete task names its file and the number of websites processed |
| Routes.NormalizeLine | app.py:207-211 | one raw line yields its stripped text with a scheme, or nothing when it is blank |
| Routes.NormalizeLines | app.py:206-211 | the loop over the raw lines yields their entries, in order |
| Routes.NormalizeUrls | app.py:204-211 | the websites of a submitted text are the entries of the lines of its stripped form |
| Routes.RequestScrape | app.py:198-231 | an absent or empty field is refused; a text with no website is refused; otherwise a pending task for the websites is stored under the new id, and nothing changes when a request is refused |
| Routes.WithSchemeIsWebsite | app.py:209-210 | a non-empty stripped URL with a scheme added is a website as the worker expects it |
| Routes.NormalizedAreWebsites | app.py:206-211 | every entry of the list is non-empty, stripped and has an http or https scheme |
| Routes.NormalizedEmptyIffBlank | app.py:206-211 | the list is empty exactly when every line is blank |
| Routes.WebsitesEmptyIffBlank | app.py:201-214 | a non-empty text is refused as having no valid URL exactly when it is all whitespace (the empty text is refused earlier, for providing no URLs) |
| Routes.CollectAppend | app.py:206-211 | the entries of two runs of lines are the entries of each, one after the other |
| Routes.NormalizedIdempotent | app.py:206-211 | normalising a list a second time changes nothing |
| Routes.NormalizedOneLine | app.py:204-211 | lines without line boundaries yield websites without line boundaries |
| Routes.ResubmitWebsites | app.py:204-211 | resubmitting the accepted list, one website per line, yields the same list |
| Routes.Advance | app.py:251 | the stream's cursor never moves back |
| Routes.PollOnce | app.py:238-259 | one poll sends the lines past the cursor, then the closing event when the task is gone, complete or failed, and moves the cursor past what it sent |
| Routes.GenerateTurn | app.py:237-261 | one turn of the stream keeps its invariant: what was sent, followed by what remains, is the whole stream |
| Routes.Generate | app.py:235-261 | the generator sends exactly the stream of the polls it makes |
| Routes.ShownPollEvents | app.py:246-251 | a poll that finds the task shows exactly the log lines past the cursor |
| Routes.StreamShowsLog | app.py:235-261 | while the log only grows, the stream shows every line past the cursor, each once, in order, up to the last poll |
| Routes.PollEventsShape | app.py:248-259 | a poll's events are lines, closed by one other event exactly when the poll stops the stream |
| Routes.SomeStopsExists | app.py:253-259 | the recursive "some poll stops" agrees with "there is a poll that stops" |
| Routes.StreamEndsOnce | app.py:237-259 | the stream ends with its only non-line event, and it has one exactly when some poll finds the task gone, complete or failed |
| Routes.DownloadFile | app.py:265-275 | a name is refused exactly when it contains `..` or starts with `/`; a safe name that is a file is sent, and a safe name that is not answers 404 |
| Routes.TraversalRefused | app.py:267-268 | every name with `..` in it, and every name starting at the root, is refused whatever files exist |
| Routes.NoDotPair | app.py:267 | a name with no two dots in a row does not contain `..` |
| Routes.ResultFileDownloadable | app.py:167 | the file a completed task names passes the guard when the task id has no dot, and is sent once it exists |

## Left out

- Fetching pages is left out: the HTTP request, its headers, timeout, redirects and `raise_for_status`, and HTML parsing. Fetching is an input `Web.fetch` that gives a page's visible text and its anchors, or the text of the exception raised.
- Every failure of fetching or parsing a page counts as that page's fetch failing (`Web.fetch` gives `FetchFailed`), which the block at app.py:126-127 logs.
- `UrlLib.parse` and `UrlLib.join` are total. The `ValueError` that `urlparse` and `urljoin` raise for a host with an unbalanced `[` (an invalid IPv6 literal) is not modelled; the next two lines give its consequences.
- Crawler.PageLines: a keyword link with such a host on a fetched homepage raises at app.py:117-118, inside the page's `try`. The source then logs "Error scraping" after the page's emails were kept and its earlier targets queued, and logs no closing "No new target pages" line. The model always closes the scan.
- Runner.RunScrapingTask: a submitted website with such a host (for example `[::1`, which becomes `http://[::1`) raises at app.py:63, outside any per-page `try`. The source then skips the remaining websites and goes to the error handler at app.py:182-190. The model processes every website, and its only error is `saveFailure`.
- `re.findall` with the email pattern of `app.py:45` is an input, `Web.emailMatches`. The regular expression itself is not modelled.
- `urlparse` and `urljoin` are inputs, `UrlLib.parse` and `UrlLib.join`. Only the scheme and host are compared.
- `time.sleep` is left out: the crawl delay and the stream's half-second wait. Timing has no effect on the values computed.
- Threads and `tasks_lock` are not modelled. Each registry method is one critical section run to completion.
- The interleaving of the worker with stream readers is not modelled. A stream is modelled over the list of records its successive polls find (`Routes.Generate`).
- Routes.Generate: the source keeps polling while the task is pending or processing. The model takes a finite list of polls and ends the stream still open when the list runs out.
- The CSV file is left out: its header, its quoting and writing it to disk. The worker yields the rows it would write, and a `saveFailure` input stands for an exception from opening or writing the file.
- `uuid.uuid4()` is an input `newId` of `Routes.RequestScrape`. The model assumes it is fresh, as uuid4 ids are.
- Routes.ResultFileDownloadable: the property is stated for task ids without a dot, which covers the hyphenated hexadecimal strings uuid4 draws, rather than for arbitrary ids.
- `os.path.isfile` and `send_file` are an input `isFile` and a `SendFile` answer.
- Calls to the `logging` module are left out: they write only to the process log.
- Text formatting is left out: the f-strings, `data: ...` event framing and `str(e)`. Lines and events are datatypes carrying the values interpolated.
- The `FoundEmails` line carries the set of addresses. The source joins them in set iteration order, which is unspecified.
- `results_summary` is kept as the number of websites it reports.
- The `last_message_index_sent` field of a task record is never read and is left out.
- Strings.Lower: `str.lower()` is modelled for ASCII letters only. Other characters are left as they are, while Python also lowers non-ASCII letters.
- Dafny strings are sequences of code points, like Python's `str`. No encoding is modelled.
- The `index` route, its template, the Flask application object and `app.run` are left out: they hold no logic.
- Tasks.TaskRegistry.ReportError: the method appends the critical-error line, as the handler evidently intends. The handler as written deadlocks before appending it (see "## Findings" and `Tasks.ReportErrorAsWritten`).

## Findings

| source | as written | input that shows it | evidently intended | confidence | as-written member | corrected member |
|---|---|---|---|---|---|---|
| app.py:184-188 | the error handler holds `tasks_lock` (a non-reentrant `threading.Lock`) and calls `log_progress`, which acquires it again, so the worker thread blocks forever while holding the lock | any exception escaping the batch for a task that exists, e.g. the result file cannot be opened for writing | mark the task as failed and append "A critical error occurred" to its log, then release the lock so that progress streams end with the error event | high; not executed | Tasks.ReportErrorAsWrittenBlocks | Tasks.TaskRegistry.ReportError |
