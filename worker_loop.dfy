/** The `runSingleWorker` loop of packages/ingestion/src/ingest/worker.ts as
    imperative code over the two tables, proved to do what Worker.Run says. */
module WorkerLoop {
  import opened Wrappers
  import opened Types
  import opened Backoff
  import opened Client
  import opened ProgressStore
  import opened EventStore
  import opened Worker

  /** The page transaction: insert the page, update the progress row, commit;
      on a failure at any of the three statements, roll both tables back. */
  method CommitPage(progressTable: ProgressTable, eventTable: EventTable, rows: seq<InsertableEvent>,
                    p: Progress, fault: TxFault, stringify: Value -> string)
    returns (inserted: nat)
    modifies progressTable, eventTable
    ensures fault == NoFault ==>
              && eventTable.rows == InsertAll(old(eventTable.rows), RowsOf(rows, stringify))
              && progressTable.rows == SavedRows(old(progressTable.rows), PROGRESS_KEY, p)
              && inserted == NewRowCount(old(eventTable.rows), eventTable.rows)
    ensures fault != NoFault ==> eventTable.rows == old(eventTable.rows) && progressTable.rows == old(progressTable.rows)
  {
    var eventsAtBegin := eventTable.rows;
    var progressAtBegin := progressTable.rows;
    inserted := 0;
    if fault == InsertFails {
      eventTable.Rollback(eventsAtBegin);
      progressTable.Rollback(progressAtBegin);
      return;
    }
    inserted := eventTable.InsertBatch(rows, stringify);
    if fault == UpdateFails {
      eventTable.Rollback(eventsAtBegin);
      progressTable.Rollback(progressAtBegin);
      return;
    }
    progressTable.SaveProgress(PROGRESS_KEY, p);
    if fault == CommitFails {
      eventTable.Rollback(eventsAtBegin);
      progressTable.Rollback(progressAtBegin);
    }
  }

  /** The branches for a failed fetch, in the order the source tests them. */
  method HandleFailure(progressTable: ProgressTable, loop: Loop, status: int, error: Option<DataSyncError>,
                       retryAfterMs: Option<int>, draw: RandomDraw, saveFails: bool)
    returns (next: Loop, outcome: Outcome, sleeps: seq<int>)
    modifies progressTable
    ensures var r := OnFailure(Store(map[], old(progressTable.rows)), loop, status, error, retryAfterMs, draw, saveFails);
            && next == r.loop && outcome == r.outcome && sleeps == r.sleeps
            && progressTable.rows == r.store.progress
  {
    next, sleeps := loop, [];
    if IsInvalidCursor(status, error) {
      var fallbackUntil := if loop.progress.checkpointMs.Some? then loop.progress.checkpointMs else loop.progress.untilMs;
      var progress := loop.progress.(untilMs := fallbackUntil, cursor := None);
      next := loop.(progress := progress);
      if saveFails {
        outcome := Aborted(RecoverySaveFault);
        return;
      }
      progressTable.SaveProgress(PROGRESS_KEY, progress);
      next := next.(consecutiveErrors := 0);
      outcome := Continue;
      return;
    }
    if IsTransientChaosResponse(status, error) {
      next := loop.(consecutiveErrors := loop.consecutiveErrors + 1);
      sleeps := [ComputeBackoffMs(next.consecutiveErrors, CHAOS_BASE_MS, CHAOS_MAX_MS, draw)];
      outcome := Continue;
      return;
    }
    if status == 429 || status >= 500 {
      next := loop.(consecutiveErrors := loop.consecutiveErrors + 1);
      var waitMs := if retryAfterMs.Some? then retryAfterMs.value
                    else ComputeBackoffMs(next.consecutiveErrors, DEFAULT_BASE_MS, DEFAULT_MAX_MS, draw);
      sleeps := [waitMs];
      outcome := Continue;
      return;
    }
    outcome := Aborted(ApiError(status, FailureDetail(error)));
  }

  /** The branch for a fetched page: stop on an empty last page, then normalise. */
  method HandlePage(host: Host, progressTable: ProgressTable, eventTable: EventTable, loop: Loop,
                    body: FeedResponse, rateLimit: RateLimitInfo, it: Iteration)
    returns (next: Loop, outcome: Outcome, sleeps: seq<int>)
    modifies progressTable, eventTable
    ensures var r := OnPage(host, Store(old(eventTable.rows), old(progressTable.rows)), loop, body, rateLimit, it);
            && next == r.loop && outcome == r.outcome && sleeps == r.sleeps
            && eventTable.rows == r.store.events && progressTable.rows == r.store.progress
  {
    next, sleeps := loop.(consecutiveErrors := 0), [];
    var events := PageEvents(body);
    var hasMore := HasMore(body);
    if |events| == 0 && !hasMore {
      outcome := Finished;
      return;
    }
    var normalized := NormalizeAll(events, host.dateParse);
    if normalized.Err? {
      outcome := Aborted(normalized.error);
      return;
    }
    next, outcome, sleeps := HandleRows(host, progressTable, eventTable, loop, body, rateLimit, it, normalized.value);
  }

  /** The page transaction and the pacing that follows it. */
  method HandleRows(host: Host, progressTable: ProgressTable, eventTable: EventTable, loop: Loop,
                    body: FeedResponse, rateLimit: RateLimitInfo, it: Iteration, rows: seq<InsertableEvent>)
    returns (next: Loop, outcome: Outcome, sleeps: seq<int>)
    modifies progressTable, eventTable
    ensures var r := OnRows(host, Store(old(eventTable.rows), old(progressTable.rows)), loop, body, rateLimit, it, rows);
            && next == r.loop && outcome == r.outcome && sleeps == r.sleeps
            && eventTable.rows == r.store.events && progressTable.rows == r.store.progress
  {
    ghost var events0, progress0 := eventTable.rows, progressTable.rows;
    next, sleeps := loop.(consecutiveErrors := 0), [];
    var hasMore := HasMore(body);
    var oldestTs := OldestTimestamp(rows, it.checkpointClockMs);
    var progress := Progress(loop.progress.untilMs, if hasMore then NextCursor(body) else None, Some(oldestTs));
    assert progress == CommittedProgress(loop.progress, body, rows, it.checkpointClockMs);
    var inserted := CommitPage(progressTable, eventTable, rows, progress, it.txFault, host.stringify);
    if it.txFault != NoFault {
      if it.txFault != InsertFails {
        next := next.(progress := progress);
      }
      outcome := Aborted(TransactionFault(it.txFault));
      OnRowsFaulted(host, Store(events0, progress0), loop, body, rateLimit, it, rows);
      return;
    }
    next := Loop(progress, 0, loop.page + 1, loop.fetchedTotal + |rows|, loop.insertedTotal + inserted);
    OnRowsCommitted(host, Store(events0, progress0), loop, body, rateLimit, it, rows);
    if !hasMore {
      outcome := Finished;
      return;
    }
    var sleepMs := PacingSleepMs(rateLimit, it.finishedAtMs - it.startedAtMs);
    if sleepMs > 0 {
      sleeps := [sleepMs];
    }
    outcome := Continue;
  }

  /** One pass through the loop body: build and send the request, then take
      the failure or the page branch. */
  method Iterate(feedLimit: int, host: Host, progressTable: ProgressTable, eventTable: EventTable,
                 loop: Loop, it: Iteration)
    returns (next: Loop, outcome: Outcome, query: Query, sleeps: seq<int>)
    modifies progressTable, eventTable
    ensures var r := Step(host, Store(old(eventTable.rows), old(progressTable.rows)), loop, it);
            && next == r.loop && outcome == r.outcome && query == QueryOf(feedLimit, loop) && sleeps == r.sleeps
            && eventTable.rows == r.store.events && progressTable.rows == r.store.progress
  {
    query := BuildQuery(feedLimit, loop.progress.cursor, loop.progress.untilMs);
    if it.response.None? {
      next, outcome, sleeps := loop, Aborted(TransportFault), [];
      return;
    }
    var result := InterpretResponse(it.response.value, it.respondedAtMs, host);
    if result.FetchFailed? {
      next, outcome, sleeps := HandleFailure(progressTable, loop, result.status, result.error, result.retryAfterMs, it.draw, it.recoverySaveFails);
    } else {
      next, outcome, sleeps := HandlePage(host, progressTable, eventTable, loop, result.data, result.rateLimit, it);
    }
  }

  /** `runSingleWorker` over the iterations `script`: ensure and load the
      progress row, then loop until the feed is drained, an error is thrown,
      or the iterations run out. */
  method RunSingleWorker(feedLimit: int, host: Host, progressTable: ProgressTable, eventTable: EventTable,
                         script: seq<Iteration>)
    returns (end: RunEnd, loop: Loop, queries: seq<Query>, sleeps: seq<int>)
    modifies progressTable, eventTable
    ensures var r := RunWorker(feedLimit, host, Store(old(eventTable.rows), old(progressTable.rows)), script);
            && end == r.end && loop == r.loop && queries == r.queries && sleeps == r.sleeps
            && eventTable.rows == r.store.events && progressTable.rows == r.store.progress
  {
    ghost var total := RunWorker(feedLimit, host, Store(eventTable.rows, progressTable.rows), script);
    progressTable.EnsureProgressRow(PROGRESS_KEY);
    var progress := progressTable.LoadProgress(PROGRESS_KEY);
    loop := Loop(progress, 0, 0, 0, 0);
    queries, sleeps := [], [];
    var i := 0;
    while i < |script|
      invariant 0 <= i <= |script|
      invariant Run(feedLimit, host, Store(eventTable.rows, progressTable.rows), loop, script[i..], queries, sleeps) == total
      decreases |script| - i
    {
      assert script[i..][0] == script[i] && script[i..][1..] == script[i + 1..];
      ghost var store0, loop0, queries0, sleeps0 := Store(eventTable.rows, progressTable.rows), loop, queries, sleeps;
      var next, outcome, query, waits := Iterate(feedLimit, host, progressTable, eventTable, loop, script[i]);
      queries, sleeps, loop := queries + [query], sleeps + waits, next;
      match outcome
      case Finished =>
        RunFinishes(feedLimit, host, store0, loop0, script[i..], queries0, sleeps0);
        end := Completed;
        return;
      case Aborted(f) =>
        RunAborts(feedLimit, host, store0, loop0, script[i..], queries0, sleeps0);
        end := Failed(f);
        return;
      case Continue =>
        RunContinues(feedLimit, host, store0, loop0, script[i..], queries0, sleeps0);
        i := i + 1;
    }
    end := Suspended;
  }
}
