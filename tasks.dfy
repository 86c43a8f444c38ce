/**
 * The task registry: the module-level `tasks` dictionary of app.py, one
 * record per submitted batch, and the operations that change it. The lock
 * that guards it is not modelled: each operation here is one critical
 * section, run to completion.
 */
module Tasks {
  import opened Wrappers

  /** The `status` field of a task record. */
  datatype Status = Pending | Processing | Complete | Error

  /** The `page_type` of a scraping line: depth 0 is the homepage, anything deeper a target page. */
  datatype PageKind = Homepage | TargetPage

  /**
   * One progress line. Each constructor stands for one f-string of app.py and
   * carries the values that string interpolates; the text formatting itself
   * is not modelled.
   */
  datatype Message =
    | TaskInitiated                                          // app.py:221
    | SkippingInvalidBase(url: string)                       // app.py:66
    | StartingScrape(url: string, depth: int)                // app.py:76
    | Scraping(kind: PageKind, url: string)                  // app.py:85
    | FoundEmails(emails: set<string>, url: string)          // app.py:104
    | SearchingTargets(url: string)                          // app.py:108
    | QueuedTarget(url: string)                              // app.py:122
    | NoNewTargets(url: string)                              // app.py:125
    | ScrapeFailed(url: string, error: string)               // app.py:127
    | ProcessingWebsite(position: nat, total: nat, url: string) // app.py:153
    | SiteScraped(count: nat, url: string, joined: string)   // app.py:161
    | NoEmailsForSite(url: string)                           // app.py:164
    | ScrapingComplete(filename: string)                     // app.py:176
    | CriticalError(error: string)                           // app.py:188

  /**
   * A task record (app.py:218-225, 179-180, 187). `summary` holds the number
   * of websites that `results_summary` reports.
   */
  datatype Task = Task(
    status: Status,
    urls: seq<string>,
    messages: seq<Message>,
    filename: Option<string>,
    errorMessage: Option<string>,
    summary: Option<nat>)

  /** The record `request_scrape` stores for a new batch. */
  function NewTask(urls: seq<string>): Task {
    Task(Pending, urls, [TaskInitiated], None, None, None)
  }

  /** Status changes the application makes: pending to processing, processing to complete or error. */
  predicate StatusStep(from: Status, to: Status) {
    || (from == Pending && to == Processing)
    || (from == Processing && (to == Complete || to == Error))
  }

  /** Every task of `before` is still there, with its log extended at the end only. */
  ghost predicate LogsOnlyGrow(before: map<string, Task>, after: map<string, Task>) {
    forall id :: id in before ==> id in after && before[id].messages <= after[id].messages
  }

  /** The tasks other than `id` are exactly as they were. */
  ghost predicate OthersUnchanged(before: map<string, Task>, after: map<string, Task>, id: string) {
    && (forall t :: t in after && t != id ==> t in before)
    && (forall t :: t in before && t != id ==> t in after && after[t] == before[t])
  }

  /** The registry with `lines` appended to the log of task `id`; an unknown id changes nothing. */
  function WithLines(tasks: map<string, Task>, id: string, lines: seq<Message>): map<string, Task> {
    if id in tasks then tasks[id := tasks[id].(messages := tasks[id].messages + lines)] else tasks
  }

  /** Appending twice is appending the two runs of lines one after the other. */
  lemma WithLinesTwice(tasks: map<string, Task>, id: string, a: seq<Message>, b: seq<Message>)
    ensures WithLines(WithLines(tasks, id, a), id, b) == WithLines(tasks, id, a + b)
  {
    if id in tasks {
      assert tasks[id].messages + a + b == tasks[id].messages + (a + b);
    }
  }

  /** Appending only extends logs, and only the log of `id`. */
  lemma WithLinesGrows(tasks: map<string, Task>, id: string, lines: seq<Message>)
    ensures LogsOnlyGrow(tasks, WithLines(tasks, id, lines)) && OthersUnchanged(tasks, WithLines(tasks, id, lines), id)
  {
  }

  // ------------------------------------------- the error handler as written

  /**
   * How a critical section ends: the lock released with the registry it
   * leaves, or the thread blocked for good, holding the lock, with the
   * registry as it stood.
   */
  datatype Section = Released(tasks: map<string, Task>) | Blocked(tasks: map<string, Task>)

  /**
   * `log_progress` (app.py:130-139) entered by a thread that may already hold
   * `tasks_lock`. The lock is a plain `threading.Lock`, which is not
   * reentrant: acquiring it while holding it never returns.
   */
  function LogProgressHolding(held: bool, tasks: map<string, Task>, id: string, message: Message): Section {
    if held then Blocked(tasks) else Released(WithLines(tasks, id, [message]))
  }

  /**
   * The error handler of app.py:184-190 as written: inside `with tasks_lock:`
   * it marks a known task as failed, then calls `log_progress`.
   */
  function ReportErrorAsWritten(tasks: map<string, Task>, id: string, error: string): Section {
    if id in tasks then
      var marked := tasks[id := tasks[id].(status := Error, errorMessage := Some(error))];
      LogProgressHolding(true, marked, id, CriticalError(error))
    else Released(tasks)
  }

  /**
   * For every known task the handler as written never releases the lock: the
   * task is marked as failed, but the closing line is never logged, and every
   * later `with tasks_lock:` (progress polls, new requests, other workers)
   * waits forever.
   */
  lemma ReportErrorAsWrittenBlocks(tasks: map<string, Task>, id: string, error: string)
    requires id in tasks
    ensures var r := ReportErrorAsWritten(tasks, id, error);
      && r.Blocked?
      && id in r.tasks && r.tasks[id].status == Error
      && r.tasks[id].messages == tasks[id].messages
      && CriticalError(error) !in r.tasks[id].messages[|tasks[id].messages|..]
  {
  }

  class TaskRegistry {
    var tasks: map<string, Task>

    constructor ()
      ensures tasks == map[]
    {
      tasks := map[];
    }

    /** A consistent copy of one record, or None for an unknown id. */
    function Snapshot(id: string): Option<Task>
      reads this
    {
      if id in tasks then Some(tasks[id]) else None
    }

    /** app.py:217-225: store a new pending record under `id`. */
    method Create(id: string, urls: seq<string>)
      modifies this
      ensures tasks == old(tasks)[id := NewTask(urls)]
      ensures id !in old(tasks) ==> LogsOnlyGrow(old(tasks), tasks) && OthersUnchanged(old(tasks), tasks, id)
    {
      tasks := tasks[id := NewTask(urls)];
    }

    /**
     * `log_progress` (app.py:130-139): append one line at the end of the log
     * of a known task; an unknown id changes nothing.
     */
    method LogProgress(id: string, message: Message)
      modifies this
      ensures tasks == WithLines(old(tasks), id, [message])
    {
      if id in tasks {
        tasks := tasks[id := tasks[id].(messages := tasks[id].messages + [message])];
      }
    }

    /**
     * The `log_progress` calls one crawl makes for a task (app.py:76-127),
     * taken together: the lines land at the end of its log, in order.
     */
    method LogAll(id: string, lines: seq<Message>)
      modifies this
      ensures tasks == WithLines(old(tasks), id, lines)
    {
      if id in tasks {
        tasks := tasks[id := tasks[id].(messages := tasks[id].messages + lines)];
      }
    }

    /** app.py:145-146: mark a task as processing; false when the id is unknown (a KeyError in the source). */
    method SetProcessing(id: string) returns (found: bool)
      modifies this
      ensures found == (id in old(tasks))
      ensures found ==> tasks == old(tasks)[id := old(tasks)[id].(status := Processing)]
      ensures !found ==> tasks == old(tasks)
    {
      found := id in tasks;
      if found {
        tasks := tasks[id := tasks[id].(status := Processing)];
      }
    }

    /** app.py:177-180: mark a task complete with its result file and the number of websites processed. */
    method SetComplete(id: string, filename: string, processed: nat)
      modifies this
      ensures id in old(tasks) ==> tasks == old(tasks)[id := old(tasks)[id].(status := Complete, filename := Some(filename), summary := Some(processed))]
      ensures id !in old(tasks) ==> tasks == old(tasks)
    {
      if id in tasks {
        tasks := tasks[id := tasks[id].(status := Complete, filename := Some(filename), summary := Some(processed))];
      }
    }

    /**
     * app.py:184-190: record a fatal error on a known task (status, message
     * and a final log line); an unknown id changes nothing.
     */
    method ReportError(id: string, error: string)
      modifies this
      ensures id in old(tasks) ==> tasks == old(tasks)[id := old(tasks)[id].(
        status := Error, errorMessage := Some(error), messages := old(tasks)[id].messages + [CriticalError(error)])]
      ensures id !in old(tasks) ==> tasks == old(tasks)
    {
      if id in tasks {
        tasks := tasks[id := tasks[id].(status := Error, errorMessage := Some(error))];
        LogProgress(id, CriticalError(error));
      }
    }
  }
}
