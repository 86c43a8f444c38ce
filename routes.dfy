/**
 * The request handlers of app.py that hold logic of their own: the URL list a
 * scrape request submits (app.py:198-231), the progress stream of a task
 * (app.py:233-263) and the guard on downloaded file names (app.py:265-268).
 */
module Routes {
  import opened Wrappers
  import opened Strings
  import opened Tasks
  import opened Runner
  import Crawler

  // ------------------------------------------------------- request_scrape

  const HttpPrefix: string := "http://"
  const HttpsPrefix: string := "https://"

  /** The URL already names the scheme `http` or `https`. */
  predicate HasScheme(url: string) {
    StartsWith(url, HttpPrefix) || StartsWith(url, HttpsPrefix)
  }

  /** A URL as submitted, given the `http://` scheme when it names neither (app.py:209-210). */
  function WithScheme(url: string): string {
    if HasScheme(url) then url else HttpPrefix + url
  }

  /** What one raw line contributes (app.py:207-211): nothing when it strips to nothing, else its stripped text with a scheme. */
  function Entry(line: string): seq<string> {
    var url := Strip(line);
    if url != "" then [WithScheme(url)] else []
  }

  /** The entries of the lines under `entry`, one after the other, in order. */
  function Collect(entry: string -> seq<string>, lines: seq<string>): seq<string>
    decreases |lines|
  {
    if lines == [] then [] else Collect(entry, lines[..|lines| - 1]) + entry(lines[|lines| - 1])
  }

  /** The websites a list of raw lines yields, in order. */
  function Normalized(lines: seq<string>): seq<string> {
    Collect(Entry, lines)
  }

  /** The websites of a submitted text: its lines, once the text as a whole is stripped (app.py:204). */
  function Websites(urlsText: string): seq<string> {
    Normalized(SplitLines(Strip(urlsText)))
  }

  /** app.py:207-211: one raw line, stripped, and given a scheme when it names none. */
  method NormalizeLine(line: string) returns (entry: seq<string>)
    ensures entry == Entry(line)
  {
    var url := Strip(line);
    if url == "" {
      return [];
    }
    if !(StartsWith(url, HttpPrefix) || StartsWith(url, HttpsPrefix)) {
      url := HttpPrefix + url;
    }
    entry := [url];
  }

  /** app.py:206-211: the websites of the raw lines, built line by line. */
  method NormalizeLines(rawUrls: seq<string>) returns (websites: seq<string>)
    ensures websites == Normalized(rawUrls)
  {
    websites := [];
    for i := 0 to |rawUrls|
      invariant websites == Collect(Entry, rawUrls[..i])
    {
      var entry := NormalizeLine(rawUrls[i]);
      assert rawUrls[..i + 1][..i] == rawUrls[..i];
      websites := websites + entry;
    }
    assert rawUrls[..|rawUrls|] == rawUrls;
  }

  /** app.py:204-211: the list of websites to process. */
  method NormalizeUrls(urlsText: string) returns (websites: seq<string>)
    ensures websites == Websites(urlsText)
  {
    var rawUrls := SplitLines(Strip(urlsText));
    websites := NormalizeLines(rawUrls);
  }

  /** What the submission endpoint answers: the new task's id, or a 400 error with its message. */
  datatype Submission = Accepted(taskId: string) | Rejected(error: string)

  const NoUrlsError: string := "Please provide some URLs."
  const NoValidUrlsError: string := "No valid URLs to process."

  /**
   * `request_scrape` (app.py:198-231). `urlsText` is the form field, absent
   * or present; `newId` is the id `uuid4` draws. An accepted request stores a
   * pending task for the websites, which are returned for the worker
   * (`RunScrapingTask`) to process.
   */
  method RequestScrape(registry: TaskRegistry, urlsText: Option<string>, newId: string)
    returns (response: Submission, websites: seq<string>)
    modifies registry
    ensures urlsText == None || urlsText == Some("") ==>
      response == Rejected(NoUrlsError) && registry.tasks == old(registry.tasks)
    ensures urlsText.Some? && urlsText.value != "" ==> websites == Websites(urlsText.value)
    ensures urlsText.Some? && urlsText.value != "" && websites == [] ==>
      response == Rejected(NoValidUrlsError) && registry.tasks == old(registry.tasks)
    ensures urlsText.Some? && urlsText.value != "" && websites != [] ==>
      response == Accepted(newId) && registry.tasks == old(registry.tasks)[newId := NewTask(websites)]
  {
    if urlsText == None || urlsText == Some("") {
      return Rejected(NoUrlsError), [];
    }
    websites := NormalizeUrls(urlsText.value);
    if websites == [] {
      return Rejected(NoValidUrlsError), websites;
    }
    registry.Create(newId, websites);
    response := Accepted(newId);
  }

  // ----------------------------------------------- properties of the list

  /** A website of the list is as the worker expects it: non-empty, stripped, with an http or https scheme. */
  predicate IsWebsite(url: string) {
    url != "" && IsStripped(url) && HasScheme(url)
  }

  lemma WithSchemeIsWebsite(url: string)
    requires url != "" && IsStripped(url)
    ensures IsWebsite(WithScheme(url))
  {
    if !HasScheme(url) {
      var w := HttpPrefix + url;
      assert w[..|HttpPrefix|] == HttpPrefix;
      assert w[0] == 'h' && w[|w| - 1] == url[|url| - 1];
    }
  }

  /** Every entry of the list is a website as the worker expects it. */
  lemma {:induction false} NormalizedAreWebsites(lines: seq<string>)
    ensures forall j :: 0 <= j < |Normalized(lines)| ==> IsWebsite(Normalized(lines)[j])
    decreases |lines|
  {
    if lines != [] {
      NormalizedAreWebsites(lines[..|lines| - 1]);
      var url := Strip(lines[|lines| - 1]);
      if url != "" {
        WithSchemeIsWebsite(url);
      }
      var init := Normalized(lines[..|lines| - 1]);
      var e := Entry(lines[|lines| - 1]);
      assert Normalized(lines) == init + e;
      assert forall j :: 0 <= j < |init| ==> (init + e)[j] == init[j];
    }
  }

  lemma EntryEmptyIffBlank(line: string)
    ensures Entry(line) == [] <==> IsBlank(line)
  {
    StripEmptyIffBlank(line);
  }

  /** The list is empty exactly when every line is blank. */
  lemma {:induction false} NormalizedEmptyIffBlank(lines: seq<string>)
    ensures Normalized(lines) == [] <==> forall j :: 0 <= j < |lines| ==> IsBlank(lines[j])
  {
    CollectEmpty(Entry, lines);
    forall j | 0 <= j < |lines|
      ensures Entry(lines[j]) == [] <==> IsBlank(lines[j])
    {
      EntryEmptyIffBlank(lines[j]);
    }
  }

  lemma {:induction false} CollectEmpty(entry: string -> seq<string>, lines: seq<string>)
    ensures Collect(entry, lines) == [] <==> forall j :: 0 <= j < |lines| ==> entry(lines[j]) == []
    decreases |lines|
  {
    if lines != [] {
      var n := |lines| - 1;
      var init := lines[..n];
      CollectEmpty(entry, init);
      assert forall j :: 0 <= j < n ==> init[j] == lines[j];
    }
  }

  /**
   * A submitted text yields no website exactly when it is whitespace only:
   * a present, non-empty text is refused with "No valid URLs" precisely then.
   */
  lemma WebsitesEmptyIffBlank(urlsText: string)
    ensures Websites(urlsText) == [] <==> IsBlank(urlsText)
  {
    var stripped := Strip(urlsText);
    var lines := SplitLines(stripped);
    NormalizedEmptyIffBlank(lines);
    BlankConcat(lines);
    SplitLinesKeepsText(stripped);
    BlankTextOf(stripped);
    StripEmptyIffBlank(urlsText);
    StripEmptyIffBlank(stripped);
    if stripped != "" {
      assert !IsSpace(stripped[0]);
    }
  }

  /** The lines of the websites joined with newlines: the list as the form would show it. */
  function WebsitesText(websites: seq<string>): string {
    Join(websites, "\n")
  }

  lemma {:induction false} CollectAppend(entry: string -> seq<string>, a: seq<string>, b: seq<string>)
    ensures Collect(entry, a + b) == Collect(entry, a) + Collect(entry, b)
    decreases |b|
  {
    if b == [] {
      assert a + b == a;
    } else {
      var n := |b| - 1;
      var ab := a + b;
      assert ab[..|ab| - 1] == a + b[..n];
      CollectAppend(entry, a, b[..n]);
      calc {
        Collect(entry, ab);
        Collect(entry, a + b[..n]) + entry(b[n]);
        (Collect(entry, a) + Collect(entry, b[..n])) + entry(b[n]);
        Collect(entry, a) + (Collect(entry, b[..n]) + entry(b[n]));
        Collect(entry, a) + Collect(entry, b);
      }
    }
  }

  /** Collecting twice is collecting once, when each entry collects to itself. */
  lemma {:induction false} CollectIdempotent(entry: string -> seq<string>, lines: seq<string>)
    requires forall line :: Collect(entry, entry(line)) == entry(line)
    ensures Collect(entry, Collect(entry, lines)) == Collect(entry, lines)
    decreases |lines|
  {
    if lines != [] {
      var n := |lines| - 1;
      CollectIdempotent(entry, lines[..n]);
      CollectAppend(entry, Collect(entry, lines[..n]), entry(lines[n]));
    }
  }

  /** A line's entry is its own normalisation. */
  lemma EntryIsFixpoint(line: string)
    ensures Normalized(Entry(line)) == Entry(line)
  {
    var url := Strip(line);
    if url != "" {
      var w := WithScheme(url);
      WithSchemeIsWebsite(url);
      StrippedIsFixpoint(w);
      assert Entry(w) == [w];
      assert Normalized([w]) == Normalized([]) + Entry(w);
    }
  }

  /** Normalising a list a second time changes nothing. */
  lemma NormalizedIdempotent(lines: seq<string>)
    ensures Normalized(Normalized(lines)) == Normalized(lines)
  {
    forall line
      ensures Collect(Entry, Entry(line)) == Entry(line)
    {
      EntryIsFixpoint(line);
    }
    CollectIdempotent(Entry, lines);
  }

  lemma WithSchemeKeepsOneLine(url: string)
    requires IsOneLine(url)
    ensures IsOneLine(WithScheme(url))
  {
    if !HasScheme(url) {
      var w := HttpPrefix + url;
      assert forall k :: |HttpPrefix| <= k < |w| ==> w[k] == url[k - |HttpPrefix|];
    }
  }

  lemma StripKeepsOneLine(s: string)
    requires IsOneLine(s)
    ensures IsOneLine(Strip(s))
  {
    var t := TrimStart(s);
    OneLineSlice(s, |s| - |t|, |s|);
    OneLineSlice(t, 0, |TrimEnd(t)|);
  }

  lemma OneLineSlice(s: string, i: int, j: int)
    requires IsOneLine(s) && 0 <= i <= j <= |s|
    ensures IsOneLine(s[i..j])
  {
    assert forall k :: 0 <= k < j - i ==> s[i..j][k] == s[i + k];
  }

  /** Every entry collected from lines that meet pre meets post, when that holds of each line's own entries. */
  lemma {:induction false} CollectKeeps(entry: string -> seq<string>, pre: string -> bool, post: string -> bool, lines: seq<string>)
    requires forall line :: pre(line) ==> forall x :: x in entry(line) ==> post(x)
    requires forall j :: 0 <= j < |lines| ==> pre(lines[j])
    ensures forall x :: x in Collect(entry, lines) ==> post(x)
    decreases |lines|
  {
    if lines != [] {
      CollectKeeps(entry, pre, post, lines[..|lines| - 1]);
    }
  }

  /** Lines free of line boundaries yield websites free of them. */
  lemma NormalizedOneLine(lines: seq<string>)
    requires forall j :: 0 <= j < |lines| ==> IsOneLine(lines[j])
    ensures forall j :: 0 <= j < |Normalized(lines)| ==> IsOneLine(Normalized(lines)[j])
  {
    forall line | IsOneLine(line)
      ensures forall x :: x in Entry(line) ==> IsOneLine(x)
    {
      StripKeepsOneLine(line);
      if Strip(line) != "" {
        WithSchemeKeepsOneLine(Strip(line));
      }
    }
    CollectKeeps(Entry, IsOneLine, IsOneLine, lines);
  }

  /**
   * Resubmitting the accepted list, one website per line, yields the same
   * list: normalising is a round trip on its own results.
   */
  lemma ResubmitWebsites(urlsText: string)
    ensures Websites(WebsitesText(Websites(urlsText))) == Websites(urlsText)
  {
    var lines := SplitLines(Strip(urlsText));
    var websites := Normalized(lines);
    NormalizedAreWebsites(lines);
    NormalizedOneLine(lines);
    WebsitesTextStripped(websites);
    SplitLinesJoin(websites);
    NormalizedIdempotent(lines);
  }

  /** A list of websites, one per line, has no whitespace at either end. */
  lemma WebsitesTextStripped(websites: seq<string>)
    requires forall j :: 0 <= j < |websites| ==> IsWebsite(websites[j])
    ensures Strip(WebsitesText(websites)) == WebsitesText(websites)
  {
    var text := WebsitesText(websites);
    if websites == [] {
      assert text == "";
    } else {
      JoinStartsWithFirst(websites, "\n");
      JoinEndsWithLast(websites, "\n");
      var first, last := websites[0], websites[|websites| - 1];
      assert text[0] == first[0];
      assert text[|text| - 1] == last[|last| - 1];
    }
    StrippedIsFixpoint(text);
  }

  // ------------------------------------------------------- progress_stream

  /** One event of the progress stream (app.py:240, 249, 254, 258). */
  datatype Event =
    | NotFound(taskId: string)
    | Line(message: Message)
    | Completed(filename: Option<string>)
    | Failed(error: Option<string>)

  /** `messages[cursor + 1:]` as Python slices a list: empty once the cursor is at or past the end. */
  function NewLines(messages: seq<Message>, cursor: int): seq<Message>
    requires cursor >= -1
  {
    if cursor + 1 <= |messages| then messages[cursor + 1..] else []
  }

  /** One line event per message, in order. */
  function LineEvents(lines: seq<Message>): seq<Event>
    decreases |lines|
  {
    if lines == [] then [] else LineEvents(lines[..|lines| - 1]) + [Line(lines[|lines| - 1])]
  }

  /** A poll that ends the stream: the task is gone, complete or in error. */
  predicate Stops(snapshot: Option<Task>) {
    snapshot.None? || snapshot.value.status.Complete? || snapshot.value.status.Error?
  }

  /** The events one poll sends, from cursor `cursor` on (app.py:239-259). */
  function PollEvents(taskId: string, snapshot: Option<Task>, cursor: int): seq<Event>
    requires cursor >= -1
  {
    if snapshot.None? then [NotFound(taskId)]
    else
      var t := snapshot.value;
      LineEvents(NewLines(t.messages, cursor)) +
        (if t.status.Complete? then [Completed(t.filename)]
         else if t.status.Error? then [Failed(t.errorMessage)]
         else [])
  }

  /** The cursor after one poll: moved past the lines it sent (app.py:251). */
  function Advance(snapshot: Option<Task>, cursor: int): (r: int)
    requires cursor >= -1
    ensures r >= cursor
  {
    if snapshot.None? then cursor else cursor + |NewLines(snapshot.value.messages, cursor)|
  }

  /**
   * The events of the stream from poll `from` on, given what the task record
   * is at each of the successive polls, with cursor `cursor` (app.py:237-261).
   */
  function Stream(taskId: string, polls: seq<Option<Task>>, from: nat, cursor: int): seq<Event>
    requires cursor >= -1
    decreases |polls| - from
  {
    if from >= |polls| then []
    else if Stops(polls[from]) then PollEvents(taskId, polls[from], cursor)
    else PollEvents(taskId, polls[from], cursor) + Stream(taskId, polls, from + 1, Advance(polls[from], cursor))
  }

  /** The stream so far, followed by the stream from poll `i` on, once poll `i` is taken. */
  lemma StreamStep(taskId: string, polls: seq<Option<Task>>, i: nat, cursor: int, events: seq<Event>)
    requires i < |polls| && cursor >= -1
    ensures Stops(polls[i]) ==> events + Stream(taskId, polls, i, cursor) == events + PollEvents(taskId, polls[i], cursor)
    ensures !Stops(polls[i]) ==>
      events + Stream(taskId, polls, i, cursor) ==
      (events + PollEvents(taskId, polls[i], cursor)) + Stream(taskId, polls, i + 1, Advance(polls[i], cursor))
  {
    if !Stops(polls[i]) {
      Crawler.AppendAssoc(events, PollEvents(taskId, polls[i], cursor), Stream(taskId, polls, i + 1, Advance(polls[i], cursor)));
    }
  }

  /** One turn of `generate` keeps its loop invariant: what was sent, followed by what is left, is the stream. */
  lemma GenerateTurn(taskId: string, polls: seq<Option<Task>>, i: nat, cursor: int, events: seq<Event>, whole: seq<Event>,
                     pollEvents: seq<Event>, cursor': int, done: bool)
    requires i < |polls| && cursor >= -1
    requires events + Stream(taskId, polls, i, cursor) == whole
    requires pollEvents == PollEvents(taskId, polls[i], cursor) && cursor' == Advance(polls[i], cursor) && done == Stops(polls[i])
    ensures done ==> events + pollEvents == whole
    ensures !done ==> cursor' >= -1 && (events + pollEvents) + Stream(taskId, polls, i + 1, cursor') == whole
  {
    StreamStep(taskId, polls, i, cursor, events);
  }

  /** The events of one poll and the cursor after it (app.py:239-259). */
  method PollOnce(taskId: string, snapshot: Option<Task>, cursor: int) returns (events: seq<Event>, cursor': int, done: bool)
    requires cursor >= -1
    ensures done == Stops(snapshot)
    ensures events == PollEvents(taskId, snapshot, cursor)
    ensures cursor' == Advance(snapshot, cursor)
  {
    cursor' := cursor;
    if snapshot == None {
      return [NotFound(taskId)], cursor', true;
    }
    var currentTask := snapshot.value;
    var newMessages := NewLines(currentTask.messages, cursor);
    events := [];
    assert newMessages[..0] == [];
    for k := 0 to |newMessages|
      invariant events == LineEvents(newMessages[..k])
    {
      events := events + [Line(newMessages[k])];
      assert newMessages[..k + 1][..k] == newMessages[..k];
    }
    assert newMessages[..|newMessages|] == newMessages;
    cursor' := cursor + |newMessages|;
    done := false;
    if currentTask.status == Complete {
      events := events + [Completed(currentTask.filename)];
      done := true;
    } else if currentTask.status == Error {
      events := events + [Failed(currentTask.errorMessage)];
      done := true;
    }
  }

  /**
   * `generate` (app.py:235-261), over the records the successive polls find:
   * each poll sends the lines past the cursor; the loop breaks at the first
   * poll that finds the task gone, complete or in error, and otherwise runs
   * out of polls still open.
   */
  method Generate(taskId: string, polls: seq<Option<Task>>) returns (events: seq<Event>)
    ensures events == Stream(taskId, polls, 0, -1)
  {
    ghost var whole := Stream(taskId, polls, 0, -1);
    var lastSentIdx := -1;
    events := [];
    var i := 0;
    while i < |polls|
      invariant 0 <= i <= |polls| && lastSentIdx >= -1
      invariant events + Stream(taskId, polls, i, lastSentIdx) == whole
    {
      var pollEvents, cursor', done := PollOnce(taskId, polls[i], lastSentIdx);
      GenerateTurn(taskId, polls, i, lastSentIdx, events, whole, pollEvents, cursor', done);
      events := events + pollEvents;
      if done {
        break;
      }
      lastSentIdx := cursor';
      i := i + 1;
    }
    if i == |polls| {
      assert events + [] == events;
    }
  }

  // ---------------------------------------------- properties of the stream

  /** The messages that the line events of a stream carry, in order. */
  function Shown(events: seq<Event>): seq<Message>
    decreases |events|
  {
    if events == [] then []
    else Shown(events[..|events| - 1]) + (if events[|events| - 1].Line? then [events[|events| - 1].message] else [])
  }

  lemma {:induction false} ShownAppend(a: seq<Event>, b: seq<Event>)
    ensures Shown(a + b) == Shown(a) + Shown(b)
    decreases |b|
  {
    if b == [] {
      assert a + b == a;
    } else {
      assert (a + b)[..|a + b| - 1] == a + b[..|b| - 1];
      ShownAppend(a, b[..|b| - 1]);
    }
  }

  lemma {:induction false} ShownLineEvents(lines: seq<Message>)
    ensures Shown(LineEvents(lines)) == lines
    ensures forall k :: 0 <= k < |LineEvents(lines)| ==> LineEvents(lines)[k].Line?
    decreases |lines|
  {
    if lines != [] {
      var init := lines[..|lines| - 1];
      ShownLineEvents(init);
      ShownAppend(LineEvents(init), [Line(lines[|lines| - 1])]);
      assert Shown([Line(lines[|lines| - 1])]) == Shown([]) + [lines[|lines| - 1]];
    }
  }

  /** Every poll finds the task, and its log only ever grows at the end. */
  ghost predicate LogOnlyGrows(polls: seq<Option<Task>>) {
    && (forall i :: 0 <= i < |polls| ==> polls[i].Some?)
    && (forall i :: 0 <= i < |polls| - 1 ==> polls[i].value.messages <= polls[i + 1].value.messages)
  }

  /** The record at the first poll from `from` on that stops the stream, or at the last poll when none does. */
  function LastSeen(polls: seq<Option<Task>>, from: nat): Task
    requires from < |polls| && forall i :: 0 <= i < |polls| ==> polls[i].Some?
    decreases |polls| - from
  {
    if from == |polls| - 1 || Stops(polls[from]) then polls[from].value else LastSeen(polls, from + 1)
  }

  lemma {:induction false} LastSeenExtends(polls: seq<Option<Task>>, from: nat)
    requires from < |polls| && LogOnlyGrows(polls)
    ensures polls[from].value.messages <= LastSeen(polls, from).messages
    decreases |polls| - from
  {
    if from < |polls| - 1 && !Stops(polls[from]) {
      LastSeenExtends(polls, from + 1);
    }
  }

  /** A poll that finds the task shows exactly the lines past the cursor. */
  lemma ShownPollEvents(taskId: string, snapshot: Option<Task>, cursor: int)
    requires snapshot.Some? && cursor >= -1
    ensures Shown(PollEvents(taskId, snapshot, cursor)) == NewLines(snapshot.value.messages, cursor)
  {
    var t := snapshot.value;
    var unsent := NewLines(t.messages, cursor);
    ShownLineEvents(unsent);
    var closing: seq<Event> :=
      if t.status.Complete? then [Completed(t.filename)]
      else if t.status.Error? then [Failed(t.errorMessage)]
      else [];
    ShownAppend(LineEvents(unsent), closing);
    assert Shown(closing) == [] by {
      if closing != [] {
        assert Shown(closing) == Shown([]) + [];
      }
    }
  }

  /** A list that extends another, sliced past a point inside the shorter one. */
  lemma SlicePastPrefix(a: seq<Message>, b: seq<Message>, from: int)
    requires a <= b && 0 <= from <= |a|
    ensures b[from..] == a[from..] + b[|a|..]
  {
  }

  /**
   * While the log only grows, the stream shows every line of the log the
   * last poll saw that lies past the cursor, each once, in order: no line is
   * skipped or repeated across polls.
   */
  lemma {:induction false} StreamShowsLog(taskId: string, polls: seq<Option<Task>>, from: nat, cursor: int)
    requires from < |polls| && LogOnlyGrows(polls)
    requires -1 <= cursor && cursor + 1 <= |polls[from].value.messages|
    ensures polls[from].value.messages <= LastSeen(polls, from).messages
    ensures Shown(Stream(taskId, polls, from, cursor)) == LastSeen(polls, from).messages[cursor + 1..]
    decreases |polls| - from
  {
    var t := polls[from].value;
    LastSeenExtends(polls, from);
    ShownPollEvents(taskId, polls[from], cursor);
    var next := Advance(polls[from], cursor);
    if Stops(polls[from]) {
    } else if from == |polls| - 1 {
      ShownAppend(PollEvents(taskId, polls[from], cursor), []);
    } else {
      StreamShowsLog(taskId, polls, from + 1, next);
      ShownAppend(PollEvents(taskId, polls[from], cursor), Stream(taskId, polls, from + 1, next));
      SlicePastPrefix(t.messages, LastSeen(polls, from + 1).messages, cursor + 1);
    }
  }

  /** A poll's events are lines, closed by one other event exactly when the poll stops the stream. */
  lemma PollEventsShape(taskId: string, snapshot: Option<Task>, cursor: int)
    requires cursor >= -1
    ensures var e := PollEvents(taskId, snapshot, cursor);
      && (forall k :: 0 <= k < |e| - 1 ==> e[k].Line?)
      && (Stops(snapshot) <==> e != [] && !e[|e| - 1].Line?)
      && (!Stops(snapshot) ==> forall k :: 0 <= k < |e| ==> e[k].Line?)
  {
    if snapshot.Some? {
      ShownLineEvents(NewLines(snapshot.value.messages, cursor));
    }
  }

  /** Some poll from `from` on stops the stream. */
  predicate SomeStops(polls: seq<Option<Task>>, from: nat)
    decreases |polls| - from
  {
    from < |polls| && (Stops(polls[from]) || SomeStops(polls, from + 1))
  }

  /** SomeStops says that there is a poll, from `from` on, that stops the stream. */
  lemma {:induction false} SomeStopsExists(polls: seq<Option<Task>>, from: nat)
    ensures SomeStops(polls, from) <==> exists i :: from <= i < |polls| && Stops(polls[i])
    decreases |polls| - from
  {
    if from < |polls| {
      SomeStopsExists(polls, from + 1);
      if exists i :: from <= i < |polls| && Stops(polls[i]) {
        var i :| from <= i < |polls| && Stops(polls[i]);
        assert i == from || (from + 1 <= i < |polls| && Stops(polls[i]));
      }
    }
  }

  /** Line events followed by a stream: the closing event, if any, is the stream's. */
  lemma LinesThenRest(e: seq<Event>, rest: seq<Event>)
    requires forall k :: 0 <= k < |e| ==> e[k].Line?
    requires forall k :: 0 <= k < |rest| - 1 ==> rest[k].Line?
    ensures forall k :: 0 <= k < |e + rest| - 1 ==> (e + rest)[k].Line?
    ensures (e + rest != [] && !(e + rest)[|e + rest| - 1].Line?) <==> (rest != [] && !rest[|rest| - 1].Line?)
  {
    if rest == [] {
      assert e + rest == e;
    }
  }

  /**
   * The stream ends with its only non-line event, and has one exactly when
   * some poll finds the task gone, complete or in error.
   */
  lemma {:induction false} StreamEndsOnce(taskId: string, polls: seq<Option<Task>>, from: nat, cursor: int)
    requires cursor >= -1
    ensures var events := Stream(taskId, polls, from, cursor);
      && (forall k :: 0 <= k < |events| - 1 ==> events[k].Line?)
      && ((events != [] && !events[|events| - 1].Line?) <==> SomeStops(polls, from))
    decreases |polls| - from
  {
    if from < |polls| {
      var e := PollEvents(taskId, polls[from], cursor);
      PollEventsShape(taskId, polls[from], cursor);
      if !Stops(polls[from]) {
        var next := Advance(polls[from], cursor);
        StreamEndsOnce(taskId, polls, from + 1, next);
        LinesThenRest(e, Stream(taskId, polls, from + 1, next));
      }
    }
  }

  // --------------------------------------------------------- download_file

  /** The download guard (app.py:267): no `..` anywhere and no leading `/`. */
  predicate IsSafeFilename(name: string) {
    !Contains(name, "..") && !StartsWith(name, "/")
  }

  /** What the download endpoint answers. */
  datatype Download = InvalidFilename | FileNotFound | SendFile(name: string)

  /**
   * `download_file` (app.py:265-275); `isFile` says which names are files in
   * the results directory.
   */
  function DownloadFile(filename: string, isFile: string -> bool): (r: Download)
    ensures r == InvalidFilename <==> !IsSafeFilename(filename)
    ensures r == SendFile(filename) <==> IsSafeFilename(filename) && isFile(filename)
    ensures r.SendFile? ==> r.name == filename
  {
    if Contains(filename, "..") || StartsWith(filename, "/") then InvalidFilename
    else if !isFile(filename) then FileNotFound
    else SendFile(filename)
  }

  /** A name that climbs out of the results directory, or starts at the root, is refused, whatever files exist. */
  lemma TraversalRefused(before: string, after: string, isFile: string -> bool)
    ensures DownloadFile(before + ".." + after, isFile) == InvalidFilename
    ensures DownloadFile("/" + after, isFile) == InvalidFilename
  {
    assert (".." + after)[..2] == "..";
    ContainsInSuffix(before, ".." + after, "..");
    assert before + ".." + after == before + (".." + after);
    assert ("/" + after)[..1] == "/";
  }

  /** A name with no two dots in a row does not contain `..`. */
  lemma {:induction false} NoDotPair(name: string)
    requires forall k :: 0 <= k < |name| - 1 ==> name[k] != '.' || name[k + 1] != '.'
    ensures !Contains(name, "..")
    decreases |name|
  {
    if name != [] {
      if |name| >= 2 {
        assert name[..2][0] == name[0] && name[..2][1] == name[1];
      }
      var tail := name[1..];
      assert forall k :: 0 <= k < |tail| ==> tail[k] == name[k + 1];
      NoDotPair(tail);
    }
  }

  /** A stem with no dot, followed by an extension with one leading dot, has no two dots in a row. */
  lemma StemThenExtension(stem: string, ext: string)
    requires forall k :: 0 <= k < |stem| ==> stem[k] != '.'
    requires forall k :: 1 <= k < |ext| ==> ext[k] != '.'
    ensures var name := stem + ext;
      forall k :: 0 <= k < |name| - 1 ==> name[k] != '.' || name[k + 1] != '.'
  {
    var name := stem + ext;
    forall k | 0 <= k < |name| - 1
      ensures name[k] != '.' || name[k + 1] != '.'
    {
      if k < |stem| {
        assert name[k] == stem[k];
      } else {
        assert name[k + 1] == ext[k + 1 - |stem|];
      }
    }
  }

  /**
   * The file a completed task names (app.py:167) passes the guard whenever
   * the task id has no dot in it, as the ids `uuid4` draws do; once written,
   * it is sent.
   */
  lemma ResultFileDownloadable(taskId: string, isFile: string -> bool)
    requires forall k :: 0 <= k < |taskId| ==> taskId[k] != '.'
    ensures IsSafeFilename(ResultFilename(taskId))
    ensures isFile(ResultFilename(taskId)) ==> DownloadFile(ResultFilename(taskId), isFile) == SendFile(ResultFilename(taskId))
  {
    var prefix := "scraped_emails_";
    var stem := prefix + taskId;
    assert forall k :: 0 <= k < |prefix| ==> prefix[k] != '.';
    assert forall k :: 0 <= k < |stem| ==> stem[k] != '.' by {
      forall k | 0 <= k < |stem|
        ensures stem[k] != '.'
      {
        if k >= |prefix| {
          assert stem[k] == taskId[k - |prefix|];
        }
      }
    }
    StemThenExtension(stem, ".csv");
    assert ResultFilename(taskId) == stem + ".csv";
    NoDotPair(stem + ".csv");
    assert ResultFilename(taskId)[0] == 's';
  }
}
