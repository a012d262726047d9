/** The ingestion worker of packages/ingestion/src/ingest/worker.ts as a
    specification: event normalisation, failure classification, pacing, and
    one iteration of the `runSingleWorker` loop as a function `Step` from the
    stored tables, the loop's working state and the iteration's inputs to the
    new tables, the new working state and what happens next. `Run` strings the
    steps together; module WorkerLoop holds the imperative loop proved equal to it. */
module Worker {
  import opened Wrappers
  import opened Types
  import opened Text
  import opened Backoff
  import opened Client
  import opened ProgressStore
  import opened EventStore

  /** The progress row the worker owns. */
  const PROGRESS_KEY := "events"
  /** Backoff bounds for transient malformed responses. */
  const CHAOS_BASE_MS: nat := 200
  const CHAOS_MAX_MS: nat := 5_000

  // ---------------------------------------------------------------------------
  // normalizeEvent

  /** `out` is `v` when `v` is a string and null otherwise. */
  predicate KeepsString(out: Option<string>, v: Value) {
    (out.Some? <==> v.Str?) && (out.Some? ==> v == Str(out.value))
  }

  /** `out` is `v ?? null`. */
  predicate NullsMissing(out: Value, v: Value) {
    (IsNullish(v) ==> out == Null) && (!IsNullish(v) ==> out == v)
  }

  function StringOrNull(v: Value): (r: Option<string>)
    ensures KeepsString(r, v)
  {
    if v.Str? then Some(v.s) else None
  }

  function NullIfMissing(v: Value): (r: Value)
    ensures NullsMissing(r, v)
  {
    if v.Undefined? then Null else v
  }

  /** A database failure inside the page transaction, by the statement it hits. */
  datatype TxFault = NoFault | InsertFails | UpdateFails | CommitFails

  /** The errors that end a run. */
  datatype Fault =
    | TransportFault
    | ApiError(status: int, detail: string)
    | UnparseableTimestamp(value: Value)
    | TransactionFault(stage: TxFault)
    | RecoverySaveFault

  /** `normalizeEvent`: fails exactly when the timestamp does not parse. */
  function NormalizeEvent(e: DataSyncEvent, dateParse: string -> Option<int>): (r: Result<InsertableEvent, Fault>)
    ensures r.Ok? <==> ParseTimestampMs(e.timestamp, dateParse).Ok?
    ensures r.Err? ==> r.error == UnparseableTimestamp(e.timestamp)
    ensures r.Ok? ==>
              && r.value.id == e.id && r.value.raw == e
              && r.value.timestampMs == ParseTimestampMs(e.timestamp, dateParse).value
              && KeepsString(r.value.eventType, e.eventType) && KeepsString(r.value.name, e.name)
              && KeepsString(r.value.userId, e.userId) && KeepsString(r.value.sessionId, e.sessionId)
              && NullsMissing(r.value.properties, e.properties) && NullsMissing(r.value.session, e.session)
  {
    match ParseTimestampMs(e.timestamp, dateParse)
    case Err(v) => Err(UnparseableTimestamp(v))
    case Ok(ts) =>
      Ok(InsertableEvent(e.id, ts, StringOrNull(e.eventType), StringOrNull(e.name),
                         StringOrNull(e.userId), StringOrNull(e.sessionId),
                         NullIfMissing(e.properties), NullIfMissing(e.session), e))
  }

  /** `events.map(normalizeEvent)`: all events normalised in order, or the
      error of the first one that fails. */
  function NormalizeAll(events: seq<DataSyncEvent>, dateParse: string -> Option<int>): (r: Result<seq<InsertableEvent>, Fault>)
    ensures r.Ok? <==> forall i :: 0 <= i < |events| ==> NormalizeEvent(events[i], dateParse).Ok?
    ensures r.Ok? ==> |r.value| == |events|
    ensures r.Ok? ==> forall i :: 0 <= i < |events| ==> NormalizeEvent(events[i], dateParse) == Ok(r.value[i])
    ensures r.Err? ==> exists i :: 0 <= i < |events| && NormalizeEvent(events[i], dateParse) == Err(r.error)
                                   && forall j :: 0 <= j < i ==> NormalizeEvent(events[j], dateParse).Ok?
    decreases |events|
  {
    if events == [] then Ok([])
    else match NormalizeEvent(events[0], dateParse)
      case Err(f) => Err(f)
      case Ok(first) =>
        match NormalizeAll(events[1..], dateParse)
        case Err(f) =>
          FirstFailureShifts(events, dateParse, f);
          Err(f)
        case Ok(rest) =>
          assert forall i :: 1 <= i < |events| ==> events[i] == events[1..][i - 1];
          Ok([first] + rest)
  }

  /** When the first event normalises, the first failure of the tail is the
      first failure of the whole page. */
  lemma FirstFailureShifts(events: seq<DataSyncEvent>, dateParse: string -> Option<int>, f: Fault)
    requires events != [] && NormalizeEvent(events[0], dateParse).Ok?
    requires exists i :: 0 <= i < |events[1..]| && NormalizeEvent(events[1..][i], dateParse) == Err(f)
                         && forall j :: 0 <= j < i ==> NormalizeEvent(events[1..][j], dateParse).Ok?
    ensures exists i :: 0 <= i < |events| && NormalizeEvent(events[i], dateParse) == Err(f)
                        && forall j :: 0 <= j < i ==> NormalizeEvent(events[j], dateParse).Ok?
  {
    var i :| 0 <= i < |events[1..]| && NormalizeEvent(events[1..][i], dateParse) == Err(f)
             && forall j :: 0 <= j < i ==> NormalizeEvent(events[1..][j], dateParse).Ok?;
    assert NormalizeEvent(events[i + 1], dateParse) == Err(f);
    forall j | 0 <= j < i + 1 ensures NormalizeEvent(events[j], dateParse).Ok? {
      if j > 0 { assert events[j] == events[1..][j - 1]; }
    }
  }

  /** `reduce((min, e) => Math.min(min, e.timestampMs), acc)`. */
  function MinFold(acc: int, rows: seq<InsertableEvent>): (m: int)
    ensures m <= acc
    ensures forall i :: 0 <= i < |rows| ==> m <= rows[i].timestampMs
    ensures m == acc || exists i :: 0 <= i < |rows| && rows[i].timestampMs == m
    decreases |rows|
  {
    if rows == [] then acc
    else
      var m := MinFold(Min(acc, rows[0].timestampMs), rows[1..]);
      assert forall i :: 1 <= i < |rows| ==> rows[i] == rows[1..][i - 1];
      m
  }

  /** `oldestTs`: the smallest timestamp of the page, or the clock value
      `nowMs` (`Date.now()`) when the page is empty. */
  function OldestTimestamp(rows: seq<InsertableEvent>, nowMs: int): (m: int)
    ensures rows == [] ==> m == nowMs
    ensures rows != [] ==> (exists i :: 0 <= i < |rows| && rows[i].timestampMs == m)
                           && forall i :: 0 <= i < |rows| ==> m <= rows[i].timestampMs
  {
    MinFold(if rows == [] then nowMs else rows[0].timestampMs, rows)
  }

  // ---------------------------------------------------------------------------
  // Failure classification

  /** `err?.code ?? ""`. */
  function CodeOf(err: Option<DataSyncError>): string {
    if err.Some? && err.value.code.Some? then err.value.code.value else ""
  }

  /** `err?.message ?? ""`. */
  function MessageOf(err: Option<DataSyncError>): string {
    if err.Some? && err.value.message.Some? then err.value.message.value else ""
  }

  /** `isInvalidCursor`: HTTP 400 whose code or message mentions "cursor" in
      any letter case. */
  function IsInvalidCursor(status: int, err: Option<DataSyncError>): (r: bool)
    ensures r <==> status == 400 && (ContainsIgnoringCase(CodeOf(err), "cursor") ||
                                     ContainsIgnoringCase(MessageOf(err), "cursor"))
  {
    if status != 400 then false
    else
      var code := Upper(CodeOf(err));
      var msg := Lower(MessageOf(err));
      assert Upper("cursor") == "CURSOR";
      assert Lower("cursor") == "cursor";
      UpperContainsIgnoresCase(CodeOf(err), "cursor");
      LowerContainsIgnoresCase(MessageOf(err), "cursor");
      Contains(code, "CURSOR") || Contains(msg, "cursor")
  }

  /** With no error object, or with neither field, a 400 is not a cursor error. */
  lemma MissingFieldsAreEmpty(err: Option<DataSyncError>)
    requires err.None? || (err.value.code.None? && err.value.message.None?)
    ensures !IsInvalidCursor(400, err)
  {
    ShortStringContainsNothing("", "cursor");
  }

  /** `isTransientChaosResponse`: HTTP 200 carrying one of the two codes the
      client synthesises, in any letter case. */
  function IsTransientChaosResponse(status: int, err: Option<DataSyncError>): (r: bool)
    ensures r <==> status == 200 && (EqualsIgnoringCase(CodeOf(err), "EMPTY_RESPONSE") ||
                                     EqualsIgnoringCase(CodeOf(err), "INVALID_RESPONSE"))
  {
    if status != 200 then false
    else
      var code := Upper(CodeOf(err));
      assert Upper("EMPTY_RESPONSE") == "EMPTY_RESPONSE";
      assert Upper("INVALID_RESPONSE") == "INVALID_RESPONSE";
      UpperEqualsIgnoresCase(CodeOf(err), "EMPTY_RESPONSE");
      UpperEqualsIgnoresCase(CodeOf(err), "INVALID_RESPONSE");
      code == "EMPTY_RESPONSE" || code == "INVALID_RESPONSE"
  }

  datatype FailureClass = InvalidCursor | TransientChaos | Overloaded | Unrecoverable

  /** The order in which the loop tests a failed fetch. */
  function Classify(status: int, err: Option<DataSyncError>): FailureClass {
    if IsInvalidCursor(status, err) then InvalidCursor
    else if IsTransientChaosResponse(status, err) then TransientChaos
    else if status == 429 || status >= 500 then Overloaded
    else Unrecoverable
  }

  /** The three recoverable classes need different statuses, so the order of
      the tests never changes the outcome; everything else is fatal. */
  lemma ClassifyByStatus(status: int, err: Option<DataSyncError>)
    ensures Classify(status, err) == InvalidCursor ==> status == 400
    ensures Classify(status, err) == TransientChaos ==> status == 200
    ensures Classify(status, err) == Overloaded <==> status == 429 || status >= 500
    ensures Classify(status, err) == Unrecoverable <==>
              !IsInvalidCursor(status, err) && !IsTransientChaosResponse(status, err) && status != 429 && status < 500
  {
  }

  /** The failures the client synthesises for a 200 response are exactly the
      ones the worker retries with the short backoff. */
  lemma SynthesisedFailuresAreTransient(res: HttpResponse, nowMs: int, host: Host)
    requires res.status == 200
    requires !IsObject(ReadJsonSafely(res.text, host.jsonParse))
    ensures var r := InterpretResponse(res, nowMs, host);
            r.FetchFailed? && Classify(r.status, r.error) == TransientChaos
  {
    var r := InterpretResponse(res, nowMs, host);
    assert CodeOf(r.error) == "EMPTY_RESPONSE" || CodeOf(r.error) == "INVALID_RESPONSE";
    UpperEqualsIgnoresCase(CodeOf(r.error), CodeOf(r.error));
  }

  /** For any other 2xx status the same synthesised failure is fatal: an empty
      204, for instance, ends the run. */
  lemma SynthesisedFailuresOutside200AreFatal(res: HttpResponse, nowMs: int, host: Host)
    requires IsSuccessStatus(res.status) && res.status != 200
    requires !IsObject(ReadJsonSafely(res.text, host.jsonParse))
    ensures var r := InterpretResponse(res, nowMs, host);
            r.FetchFailed? && Classify(r.status, r.error) == Unrecoverable
  {
  }

  /** The text of the thrown API error: `error?.code ?? error?.message ?? "unknown"`. */
  function FailureDetail(err: Option<DataSyncError>): string {
    if err.Some? && err.value.code.Some? then err.value.code.value
    else if err.Some? && err.value.message.Some? then err.value.message.value
    else "unknown"
  }

  // ---------------------------------------------------------------------------
  // Pacing

  /** `Math.ceil(a / b)` for a positive divisor. */
  function CeilDiv(a: int, b: int): (q: int)
    requires b > 0
    ensures b * (q - 1) < a <= b * q
  {
    var f := (-a) / b;
    assert -a == b * f + (-a) % b;
    -f
  }

  /** Pacing applies when the limit is present and non-zero (JavaScript
      truthiness), the remaining quota is present and the reset window is a
      positive number of seconds. */
  predicate PacingApplies(rl: RateLimitInfo) {
    && rl.limit.Some? && rl.limit.value != 0
    && rl.remaining.Some?
    && rl.resetSeconds.Some? && rl.resetSeconds.value > 0
  }

  /** `targetSpacingMs`: past the reset when the quota is used up, otherwise
      the window shared out over the remaining requests, rounded up. */
  function TargetSpacingMs(remaining: int, resetSeconds: int): (s: int)
    requires resetSeconds > 0
    ensures remaining <= 0 ==> s == resetSeconds * 1000 + 250
    ensures remaining > 0 ==> (remaining + 1) * (s - 1) < resetSeconds * 1000 <= (remaining + 1) * s
  {
    if remaining <= 0 then resetSeconds * 1000 + 250 else CeilDiv(resetSeconds * 1000, remaining + 1)
  }

  /** `sleepMs`: the rest of the target spacing not already spent since the
      iteration began, and nothing when pacing does not apply. */
  function PacingSleepMs(rl: RateLimitInfo, elapsedMs: int): (r: int)
    ensures r >= 0
    ensures !PacingApplies(rl) ==> r == 0
    ensures PacingApplies(rl) ==> r + elapsedMs >= TargetSpacingMs(rl.remaining.value, rl.resetSeconds.value)
    ensures PacingApplies(rl) && r > 0 ==> r + elapsedMs == TargetSpacingMs(rl.remaining.value, rl.resetSeconds.value)
  {
    if PacingApplies(rl) then Max(0, TargetSpacingMs(rl.remaining.value, rl.resetSeconds.value) - elapsedMs)
    else 0
  }

  /** limit 100, one request left, a 10 s window and 500 ms already spent:
      a 5000 ms spacing, so 4500 ms of sleep. */
  lemma PacingExample()
    ensures TargetSpacingMs(1, 10) == 5000
    ensures PacingSleepMs(RateLimitInfo(Some(100), Some(1), Some(10)), 500) == 4500
  {
  }

  // ---------------------------------------------------------------------------
  // One iteration of the loop

  /** The variables the loop reassigns. */
  datatype Loop = Loop(progress: Progress, consecutiveErrors: nat, page: nat, fetchedTotal: nat, insertedTotal: nat)

  /** The two tables. */
  datatype Store = Store(events: map<string, EventRow>, progress: map<string, Progress>)

  /** What the environment supplies to one iteration: the HTTP exchange
      (`None` when `fetch` throws), the clock at the four places it is read,
      the random draw of the backoff, whether the page transaction fails and
      whether the progress save after an invalid cursor fails. */
  datatype Iteration = Iteration(
    response: Option<HttpResponse>,
    startedAtMs: int,
    respondedAtMs: int,
    checkpointClockMs: int,
    finishedAtMs: int,
    draw: RandomDraw,
    txFault: TxFault,
    recoverySaveFails: bool)

  datatype Outcome = Continue | Finished | Aborted(fault: Fault)

  /** The effect of one iteration: the tables and loop variables afterwards,
      how the loop goes on and the sleeps it requested. */
  datatype StepResult = StepResult(store: Store, loop: Loop, outcome: Outcome, sleeps: seq<int>)

  /** Invalid-cursor recovery: drop the cursor and bound the feed by the last checkpoint. */
  function RecoveredProgress(p: Progress): Progress {
    Progress(if p.checkpointMs.Some? then p.checkpointMs else p.untilMs, None, p.checkpointMs)
  }

  /** The branch for a failed fetch. */
  function OnFailure(store: Store, loop: Loop, status: int, err: Option<DataSyncError>,
                     retryAfterMs: Option<int>, draw: RandomDraw, saveFails: bool): (r: StepResult)
    ensures r.store.events == store.events && r.outcome != Finished
    ensures r.outcome.Aborted? ==> r.store == store
    ensures r.store != store ==> r.store.progress == SavedRows(store.progress, PROGRESS_KEY, r.loop.progress)
  {
    match Classify(status, err)
    case InvalidCursor =>
      var p := RecoveredProgress(loop.progress);
      if saveFails then
        // The working progress is reassigned before the save is attempted.
        StepResult(store, loop.(progress := p), Aborted(RecoverySaveFault), [])
      else
        StepResult(store.(progress := SavedRows(store.progress, PROGRESS_KEY, p)),
                   loop.(progress := p, consecutiveErrors := 0), Continue, [])
    case TransientChaos =>
      var n := loop.consecutiveErrors + 1;
      StepResult(store, loop.(consecutiveErrors := n), Continue,
                 [ComputeBackoffMs(n, CHAOS_BASE_MS, CHAOS_MAX_MS, draw)])
    case Overloaded =>
      var n := loop.consecutiveErrors + 1;
      var waitMs := if retryAfterMs.Some? then retryAfterMs.value
                    else ComputeBackoffMs(n, DEFAULT_BASE_MS, DEFAULT_MAX_MS, draw);
      StepResult(store, loop.(consecutiveErrors := n), Continue, [waitMs])
    case Unrecoverable =>
      StepResult(store, loop, Aborted(ApiError(status, FailureDetail(err))), [])
  }

  /** `body.data ?? []`. */
  function PageEvents(body: FeedResponse): seq<DataSyncEvent> {
    body.data.GetOr([])
  }

  /** `Boolean(body.pagination?.hasMore)`. */
  predicate HasMore(body: FeedResponse) {
    body.pagination.Some? && body.pagination.value.hasMore
  }

  /** `body.pagination?.nextCursor ?? null`. */
  function NextCursor(body: FeedResponse): Option<string> {
    if body.pagination.Some? then body.pagination.value.nextCursor else None
  }

  /** The progress committed with a page. */
  function CommittedProgress(p: Progress, body: FeedResponse, rows: seq<InsertableEvent>, clockMs: int): Progress {
    Progress(p.untilMs, if HasMore(body) then NextCursor(body) else None, Some(OldestTimestamp(rows, clockMs)))
  }

  /** The branch for a successful fetch. */
  function OnPage(host: Host, store: Store, loop: Loop, body: FeedResponse, rateLimit: RateLimitInfo,
                  it: Iteration): StepResult
  {
    var events := PageEvents(body);
    if |events| == 0 && !HasMore(body) then
      StepResult(store, loop.(consecutiveErrors := 0), Finished, [])
    else match NormalizeAll(events, host.dateParse)
      case Err(f) => StepResult(store, loop.(consecutiveErrors := 0), Aborted(f), [])
      case Ok(rows) => OnRows(host, store, loop, body, rateLimit, it, rows)
  }

  /** The page transaction for the normalised rows, then pacing. */
  function OnRows(host: Host, store: Store, loop: Loop, body: FeedResponse, rateLimit: RateLimitInfo,
                  it: Iteration, rows: seq<InsertableEvent>): StepResult
  {
    var reset := loop.(consecutiveErrors := 0);
    var p := CommittedProgress(loop.progress, body, rows, it.checkpointClockMs);
    if it.txFault != NoFault then
      // The working progress is reassigned once the insert has succeeded.
      var working := if it.txFault == InsertFails then reset else reset.(progress := p);
      StepResult(store, working, Aborted(TransactionFault(it.txFault)), [])
    else
      var table := InsertAll(store.events, RowsOf(rows, host.stringify));
      var inserted := NewRowCount(store.events, table);
      var next := Loop(p, 0, loop.page + 1, loop.fetchedTotal + |rows|, loop.insertedTotal + inserted);
      var committed := Store(table, SavedRows(store.progress, PROGRESS_KEY, p));
      if !HasMore(body) then
        StepResult(committed, next, Finished, [])
      else
        var pause := PacingSleepMs(rateLimit, it.finishedAtMs - it.startedAtMs);
        StepResult(committed, next, Continue, if pause > 0 then [pause] else [])
  }

  /** The query parameters of the request an iteration starts with. */
  function QueryOf(feedLimit: int, loop: Loop): Query {
    BuildQuery(feedLimit, loop.progress.cursor, loop.progress.untilMs)
  }

  /** One iteration of the `while (true)` loop of `runSingleWorker`. */
  function Step(host: Host, store: Store, loop: Loop, it: Iteration): StepResult {
    match it.response
    case None => StepResult(store, loop, Aborted(TransportFault), [])
    case Some(res) =>
      match InterpretResponse(res, it.respondedAtMs, host)
      case FetchFailed(status, err, _, retryAfterMs, _) =>
        OnFailure(store, loop, status, err, retryAfterMs, it.draw, it.recoverySaveFails)
      case Fetched(body, rateLimit, _) =>
        OnPage(host, store, loop, body, rateLimit, it)
  }

  // ---------------------------------------------------------------------------
  // The whole run

  /** How a run stops: the feed is drained, an error is thrown, or the
      modelled iterations run out while the loop would go on. */
  datatype RunEnd = Completed | Failed(fault: Fault) | Suspended

  datatype RunResult = RunResult(store: Store, loop: Loop, end: RunEnd, queries: seq<Query>, sleeps: seq<int>)

  /** The loop from `loop` over the iterations `script`, with the queries and
      sleeps so far. */
  function Run(feedLimit: int, host: Host, store: Store, loop: Loop, script: seq<Iteration>,
               queries: seq<Query>, sleeps: seq<int>): RunResult
    decreases |script|
  {
    if script == [] then RunResult(store, loop, Suspended, queries, sleeps)
    else
      var r := Step(host, store, loop, script[0]);
      match r.outcome
      case Continue => Run(feedLimit, host, r.store, r.loop, script[1..], queries + [QueryOf(feedLimit, loop)], sleeps + r.sleeps)
      case Finished => RunResult(r.store, r.loop, Completed, queries + [QueryOf(feedLimit, loop)], sleeps + r.sleeps)
      case Aborted(f) => RunResult(r.store, r.loop, Failed(f), queries + [QueryOf(feedLimit, loop)], sleeps + r.sleeps)
  }

  /** The loop's state right after `ensureProgressRow` and `loadProgress`. */
  function StartLoop(rows: map<string, Progress>): Loop {
    Loop(LoadedRow(rows, PROGRESS_KEY), 0, 0, 0, 0)
  }

  /** `runSingleWorker` up to its final count query. */
  function RunWorker(feedLimit: int, host: Host, store: Store, script: seq<Iteration>): RunResult {
    var rows := EnsuredRows(store.progress, PROGRESS_KEY);
    Run(feedLimit, host, Store(store.events, rows), StartLoop(rows), script, [], [])
  }

  // ---------------------------------------------------------------------------
  // Properties of one iteration

  /** The failure a fetch produced, when it produced one. */
  predicate FailedWith(host: Host, it: Iteration, c: FailureClass) {
    && it.response.Some?
    && var f := InterpretResponse(it.response.value, it.respondedAtMs, host);
       f.FetchFailed? && Classify(f.status, f.error) == c
  }

  /** Invalid-cursor recovery: cursor dropped, the bound moved to the last
      checkpoint (or kept when there is none), the checkpoint kept, the new
      progress saved, the counter reset and no sleep; and the next request is
      sent without a cursor and bounded by that checkpoint. */
  lemma InvalidCursorRecovery(feedLimit: int, host: Host, store: Store, loop: Loop, it: Iteration)
    requires FailedWith(host, it, InvalidCursor)
    requires PROGRESS_KEY in store.progress
    ensures var r := Step(host, store, loop, it);
            var p := loop.progress;
            var until := if p.checkpointMs.Some? then p.checkpointMs else p.untilMs;
            && r.sleeps == [] && r.store.events == store.events
            && r.loop.progress == Progress(until, None, p.checkpointMs)
            && (it.recoverySaveFails ==>
                  && r.outcome == Aborted(RecoverySaveFault) && r.store.progress == store.progress
                  && r.loop.consecutiveErrors == loop.consecutiveErrors)
            && (!it.recoverySaveFails ==>
                  && r.outcome == Continue && r.loop.consecutiveErrors == 0
                  && r.store.progress == store.progress[PROGRESS_KEY := r.loop.progress])
            && var q := BuildQuery(feedLimit, r.loop.progress.cursor, r.loop.progress.untilMs);
               && Lookup(q, "cursor") == None
               && Lookup(q, "until") == (if until.Some? then Some(IntString(until.value)) else None)
  {
  }

  /** A transient malformed response: one more consecutive error, the
      tables and the progress untouched, and a short-bounds backoff. */
  lemma TransientChaosRetry(host: Host, store: Store, loop: Loop, it: Iteration)
    requires FailedWith(host, it, TransientChaos)
    ensures var r := Step(host, store, loop, it);
            && r.outcome == Continue && r.store == store && r.loop.progress == loop.progress
            && r.loop.consecutiveErrors == loop.consecutiveErrors + 1
            && r.sleeps == [ComputeBackoffMs(loop.consecutiveErrors + 1, CHAOS_BASE_MS, CHAOS_MAX_MS, it.draw)]
            && 200 <= r.sleeps[0] <= 5_249
  {
    ExpDelayMonotone(0, loop.consecutiveErrors + 1, CHAOS_BASE_MS, CHAOS_MAX_MS);
  }

  /** 429 or a server error: one more consecutive error, the tables and the
      progress untouched, and a sleep of the server's Retry-After when it gave
      one, the default backoff otherwise. */
  lemma OverloadRetry(host: Host, store: Store, loop: Loop, it: Iteration)
    requires FailedWith(host, it, Overloaded)
    ensures var r := Step(host, store, loop, it);
            var f := InterpretResponse(it.response.value, it.respondedAtMs, host);
            && r.outcome == Continue && r.store == store && r.loop.progress == loop.progress
            && r.loop.consecutiveErrors == loop.consecutiveErrors + 1
            && |r.sleeps| == 1 && r.sleeps[0] >= 0
            && (f.retryAfterMs.Some? ==> r.sleeps[0] == f.retryAfterMs.value)
            && (f.retryAfterMs.None? ==>
                  r.sleeps[0] == ComputeBackoffMs(loop.consecutiveErrors + 1, DEFAULT_BASE_MS, DEFAULT_MAX_MS, it.draw))
  {
  }

  /** Everything else aborts the run with the status, leaving the tables alone. */
  lemma UnrecoverableAborts(host: Host, store: Store, loop: Loop, it: Iteration)
    requires FailedWith(host, it, Unrecoverable)
    ensures var r := Step(host, store, loop, it);
            var f := InterpretResponse(it.response.value, it.respondedAtMs, host);
            r.outcome == Aborted(ApiError(f.status, FailureDetail(f.error))) && r.store == store
  {
  }

  /** The page a fetch returned, when it returned one. */
  predicate FetchedPage(host: Host, it: Iteration) {
    it.response.Some? && InterpretResponse(it.response.value, it.respondedAtMs, host).Fetched?
  }

  function PageOf(host: Host, it: Iteration): FeedResponse
    requires FetchedPage(host, it)
  {
    InterpretResponse(it.response.value, it.respondedAtMs, host).data
  }

  /** Any successful fetch resets the counter; an empty last page ends the
      run without touching either table or the working progress. */
  lemma EmptyFinalPageStops(host: Host, store: Store, loop: Loop, it: Iteration)
    requires FetchedPage(host, it)
    ensures Step(host, store, loop, it).loop.consecutiveErrors == 0
    ensures |PageEvents(PageOf(host, it))| == 0 && !HasMore(PageOf(host, it)) ==>
              var r := Step(host, store, loop, it);
              r.outcome == Finished && r.store == store && r.loop.progress == loop.progress && r.sleeps == []
  {
  }

  /** A page that normalises and commits: its rows are inserted, the progress
      row becomes {same bound, the next cursor while more pages remain, the
      oldest timestamp of the page}, and the loop goes on exactly when more
      pages remain. */
  lemma PageCommit(host: Host, store: Store, loop: Loop, it: Iteration)
    requires FetchedPage(host, it) && it.txFault == NoFault
    requires var body := PageOf(host, it);
             (|PageEvents(body)| > 0 || HasMore(body)) && NormalizeAll(PageEvents(body), host.dateParse).Ok?
    requires PROGRESS_KEY in store.progress
    ensures var r := Step(host, store, loop, it);
            var body := PageOf(host, it);
            var rows := NormalizeAll(PageEvents(body), host.dateParse).value;
            && r.store.events == InsertAll(store.events, RowsOf(rows, host.stringify))
            && r.store.progress == store.progress[PROGRESS_KEY := r.loop.progress]
            && r.loop.progress.untilMs == loop.progress.untilMs
            && r.loop.progress.cursor == (if HasMore(body) then NextCursor(body) else None)
            && (rows != [] ==> r.loop.progress.checkpointMs.Some?
                               && (exists i :: 0 <= i < |rows| && rows[i].timestampMs == r.loop.progress.checkpointMs.value)
                               && forall i :: 0 <= i < |rows| ==> r.loop.progress.checkpointMs.value <= rows[i].timestampMs)
            && (forall i :: 0 <= i < |rows| ==> rows[i].id in r.store.events)
            && r.loop.consecutiveErrors == 0
            && r.loop.page == loop.page + 1 && r.loop.fetchedTotal == loop.fetchedTotal + |rows|
            && (r.outcome == Continue <==> HasMore(body)) && (r.outcome == Finished <==> !HasMore(body))
    ensures var r := Step(host, store, loop, it);
            var body := PageOf(host, it);
            var pause := PacingSleepMs(InterpretResponse(it.response.value, it.respondedAtMs, host).rateLimit,
                                       it.finishedAtMs - it.startedAtMs);
            r.sleeps == (if HasMore(body) && pause > 0 then [pause] else [])
  {
    var body := PageOf(host, it);
    var f := InterpretResponse(it.response.value, it.respondedAtMs, host);
    assert Step(host, store, loop, it) == OnPage(host, store, loop, body, f.rateLimit, it);
    var rows := NormalizeAll(PageEvents(body), host.dateParse).value;
    assert OnPage(host, store, loop, body, f.rateLimit, it) == OnRows(host, store, loop, body, f.rateLimit, it, rows);
    RowsCommit(host, store, loop, body, f.rateLimit, it, rows);
    RowsPacing(host, store, loop, body, f.rateLimit, it, rows);
  }

  /** The commit branch of `OnRows`, for any normalised rows. */
  lemma RowsCommit(host: Host, store: Store, loop: Loop, body: FeedResponse, rateLimit: RateLimitInfo,
                   it: Iteration, rows: seq<InsertableEvent>)
    requires it.txFault == NoFault && PROGRESS_KEY in store.progress
    ensures var r := OnRows(host, store, loop, body, rateLimit, it, rows);
            && r.store.events == InsertAll(store.events, RowsOf(rows, host.stringify))
            && r.store.progress == store.progress[PROGRESS_KEY := r.loop.progress]
            && r.loop.progress.untilMs == loop.progress.untilMs
            && r.loop.progress.cursor == (if HasMore(body) then NextCursor(body) else None)
            && (rows != [] ==> r.loop.progress.checkpointMs.Some?
                               && (exists i :: 0 <= i < |rows| && rows[i].timestampMs == r.loop.progress.checkpointMs.value)
                               && forall i :: 0 <= i < |rows| ==> r.loop.progress.checkpointMs.value <= rows[i].timestampMs)
            && (forall i :: 0 <= i < |rows| ==> rows[i].id in r.store.events)
            && r.loop.consecutiveErrors == 0
            && r.loop.page == loop.page + 1 && r.loop.fetchedTotal == loop.fetchedTotal + |rows|
  {
    var r := OnRows(host, store, loop, body, rateLimit, it, rows);
    var p := CommittedProgress(loop.progress, body, rows, it.checkpointClockMs);
    var table := InsertAll(store.events, RowsOf(rows, host.stringify));
    assert r.store == Store(table, SavedRows(store.progress, PROGRESS_KEY, p));
    assert r.loop.progress == p;
    assert SavedRows(store.progress, PROGRESS_KEY, p) == store.progress[PROGRESS_KEY := p];
    PageRowsInserted(store.events, rows, host.stringify);
  }

  /** A failed transaction aborts with both tables as they were; the working
      progress moves once the insert has succeeded. */
  lemma OnRowsFaulted(host: Host, store: Store, loop: Loop, body: FeedResponse, rateLimit: RateLimitInfo,
                      it: Iteration, rows: seq<InsertableEvent>)
    requires it.txFault != NoFault
    ensures var r := OnRows(host, store, loop, body, rateLimit, it, rows);
            var p := CommittedProgress(loop.progress, body, rows, it.checkpointClockMs);
            && r.store == store && r.sleeps == [] && r.outcome == Aborted(TransactionFault(it.txFault))
            && r.loop == (if it.txFault == InsertFails then loop.(consecutiveErrors := 0)
                          else loop.(consecutiveErrors := 0, progress := p))
  {
  }

  /** A committed transaction stores the page's rows and the new progress and
      moves the counters on. */
  lemma OnRowsCommitted(host: Host, store: Store, loop: Loop, body: FeedResponse, rateLimit: RateLimitInfo,
                        it: Iteration, rows: seq<InsertableEvent>)
    requires it.txFault == NoFault
    ensures var r := OnRows(host, store, loop, body, rateLimit, it, rows);
            var p := CommittedProgress(loop.progress, body, rows, it.checkpointClockMs);
            var table := InsertAll(store.events, RowsOf(rows, host.stringify));
            && r.store == Store(table, SavedRows(store.progress, PROGRESS_KEY, p))
            && r.loop.progress == p
    ensures var r := OnRows(host, store, loop, body, rateLimit, it, rows);
            r.loop.consecutiveErrors == 0 && r.loop.page == loop.page + 1 && r.loop.fetchedTotal == loop.fetchedTotal + |rows|
    ensures var r := OnRows(host, store, loop, body, rateLimit, it, rows);
            r.loop.insertedTotal == loop.insertedTotal + NewRowCount(store.events, InsertAll(store.events, RowsOf(rows, host.stringify)))
  {
  }

  /** After a commit the loop finishes on the last page and otherwise goes on,
      sleeping the pacing delay when it is positive. */
  lemma RowsPacing(host: Host, store: Store, loop: Loop, body: FeedResponse, rateLimit: RateLimitInfo,
                   it: Iteration, rows: seq<InsertableEvent>)
    requires it.txFault == NoFault
    ensures var r := OnRows(host, store, loop, body, rateLimit, it, rows);
            && (r.outcome == Continue <==> HasMore(body)) && (r.outcome == Finished <==> !HasMore(body))
            && var pause := PacingSleepMs(rateLimit, it.finishedAtMs - it.startedAtMs);
               r.sleeps == (if HasMore(body) && pause > 0 then [pause] else [])
  {
  }

  /** Inserting a page leaves every one of its ids in the table. */
  lemma PageRowsInserted(table: map<string, EventRow>, rows: seq<InsertableEvent>, stringify: Value -> string)
    ensures forall i :: 0 <= i < |rows| ==> rows[i].id in InsertAll(table, RowsOf(rows, stringify))
  {
    InsertAllKeys(table, RowsOf(rows, stringify));
    forall i | 0 <= i < |rows| ensures rows[i].id in IdsOf(RowsOf(rows, stringify)) {
      assert RowsOf(rows, stringify)[i].id == rows[i].id;
    }
  }

  /** An empty page that still has more to come sets the checkpoint to the
      clock value, not to any event's timestamp. */
  lemma EmptyPageStampsClock(host: Host, store: Store, loop: Loop, it: Iteration)
    requires FetchedPage(host, it) && it.txFault == NoFault
    requires |PageEvents(PageOf(host, it))| == 0 && HasMore(PageOf(host, it))
    ensures Step(host, store, loop, it).loop.progress.checkpointMs == Some(it.checkpointClockMs)
  {
  }

  /** A page whose transaction fails, or which does not normalise, leaves
      both tables exactly as they were, and the run ends. */
  lemma FailedPageLeavesStore(host: Host, store: Store, loop: Loop, it: Iteration)
    requires FetchedPage(host, it)
    requires var body := PageOf(host, it);
             (|PageEvents(body)| > 0 || HasMore(body))
             && (it.txFault != NoFault || NormalizeAll(PageEvents(body), host.dateParse).Err?)
    ensures var r := Step(host, store, loop, it);
            r.outcome.Aborted? && r.store == store
  {
  }

  /** A transport failure of `fetch` is not retried: it ends the run. */
  lemma TransportFaultAborts(host: Host, store: Store, loop: Loop, it: Iteration)
    requires it.response.None?
    ensures var r := Step(host, store, loop, it);
            r.outcome == Aborted(TransportFault) && r.store == store
  {
  }

  /** Every abort leaves both tables as they were. */
  lemma AbortKeepsStore(host: Host, store: Store, loop: Loop, it: Iteration)
    ensures var r := Step(host, store, loop, it);
            r.outcome.Aborted? ==> r.store == store
  {
  }

  /** No iteration changes or removes a stored event row. */
  lemma StepKeepsStoredEvents(host: Host, store: Store, loop: Loop, it: Iteration)
    ensures var r := Step(host, store, loop, it);
            store.events.Keys <= r.store.events.Keys &&
            forall k :: k in store.events ==> r.store.events[k] == store.events[k]
  {
    var r := Step(host, store, loop, it);
    if r.store.events != store.events {
      var body := PageOf(host, it);
      var rows := NormalizeAll(PageEvents(body), host.dateParse).value;
      InsertAllKeepsExisting(store.events, RowsOf(rows, host.stringify));
    }
  }

  /** An iteration either leaves the progress table and the working progress
      alone, or saves the new working progress, or aborts. */
  lemma StepSavesOrKeeps(host: Host, store: Store, loop: Loop, it: Iteration)
    ensures var r := Step(host, store, loop, it);
            || r.store.progress == SavedRows(store.progress, PROGRESS_KEY, r.loop.progress)
            || (r.store.progress == store.progress && (r.loop.progress == loop.progress || r.outcome.Aborted?))
  {
    if it.response.Some? {
      var f := InterpretResponse(it.response.value, it.respondedAtMs, host);
      if f.FetchFailed? {
        assert Step(host, store, loop, it) == OnFailure(store, loop, f.status, f.error, f.retryAfterMs, it.draw, it.recoverySaveFails);
      } else {
        assert Step(host, store, loop, it) == OnPage(host, store, loop, f.data, f.rateLimit, it);
        var events := PageEvents(f.data);
        if !(|events| == 0 && !HasMore(f.data)) && NormalizeAll(events, host.dateParse).Ok? {
          var rows := NormalizeAll(events, host.dateParse).value;
          assert OnPage(host, store, loop, f.data, f.rateLimit, it) == OnRows(host, store, loop, f.data, f.rateLimit, it, rows);
        }
      }
    }
  }

  /** No iteration touches another feed's progress row, or adds or drops a row. */
  lemma StepKeepsOtherProgress(host: Host, store: Store, loop: Loop, it: Iteration)
    ensures var r := Step(host, store, loop, it);
            r.store.progress.Keys == store.progress.Keys &&
            forall n :: n in store.progress && n != PROGRESS_KEY ==> r.store.progress[n] == store.progress[n]
  {
    StepSavesOrKeeps(host, store, loop, it);
  }

  /** The stored progress row is the loop's working progress. */
  predicate Synced(store: Store, loop: Loop) {
    PROGRESS_KEY in store.progress && store.progress[PROGRESS_KEY] == loop.progress
  }

  /** Every iteration that goes on or finishes keeps the stored progress
      equal to the working one, so a restart resumes exactly where the loop
      was; an abort may leave the working copy ahead of the stored row (after
      a failed update or commit), and the thrown error discards it. */
  lemma StepKeepsSynced(host: Host, store: Store, loop: Loop, it: Iteration)
    requires Synced(store, loop)
    ensures var r := Step(host, store, loop, it);
            PROGRESS_KEY in r.store.progress
    ensures var r := Step(host, store, loop, it);
            Synced(r.store, r.loop) || r.outcome.Aborted?
  {
    StepSavesOrKeeps(host, store, loop, it);
  }

  // ---------------------------------------------------------------------------
  // Properties of a whole run

  /** Run's bookkeeping: one query per iteration consumed, and all of them
      when the iterations ran out. */
  lemma {:induction false} RunQueries(feedLimit: int, host: Host, store: Store, loop: Loop, script: seq<Iteration>,
                                      queries: seq<Query>, sleeps: seq<int>)
    ensures var r := Run(feedLimit, host, store, loop, script, queries, sleeps);
            && |queries| <= |r.queries| <= |queries| + |script|
            && r.queries[..|queries|] == queries
            && (r.end == Suspended ==> |r.queries| == |queries| + |script|)
    decreases |script|
  {
    if script != [] {
      var r := Step(host, store, loop, script[0]);
      if r.outcome == Continue {
        RunQueries(feedLimit, host, r.store, r.loop, script[1..], queries + [QueryOf(feedLimit, loop)], sleeps + r.sleeps);
        var rr := Run(feedLimit, host, r.store, r.loop, script[1..], queries + [QueryOf(feedLimit, loop)], sleeps + r.sleeps);
        assert rr.queries[..|queries|] == (queries + [QueryOf(feedLimit, loop)])[..|queries|];
      }
    }
  }

  /** No run loses or rewrites a stored event. */
  lemma {:induction false} RunKeepsStoredEvents(feedLimit: int, host: Host, store: Store, loop: Loop,
                                                script: seq<Iteration>, queries: seq<Query>, sleeps: seq<int>)
    ensures var r := Run(feedLimit, host, store, loop, script, queries, sleeps);
            store.events.Keys <= r.store.events.Keys &&
            forall k :: k in store.events ==> r.store.events[k] == store.events[k]
    decreases |script|
  {
    if script != [] {
      var r := Step(host, store, loop, script[0]);
      StepKeepsStoredEvents(host, store, loop, script[0]);
      if r.outcome == Continue {
        RunKeepsStoredEvents(feedLimit, host, r.store, r.loop, script[1..], queries + [QueryOf(feedLimit, loop)], sleeps + r.sleeps);
      }
    }
  }

  /** A run keeps the progress row, and stops with the stored progress equal
      to the working progress unless it failed. */
  lemma {:induction false} RunKeepsSynced(feedLimit: int, host: Host, store: Store, loop: Loop,
                                          script: seq<Iteration>, queries: seq<Query>, sleeps: seq<int>)
    requires Synced(store, loop)
    ensures var r := Run(feedLimit, host, store, loop, script, queries, sleeps);
            PROGRESS_KEY in r.store.progress
    ensures var r := Run(feedLimit, host, store, loop, script, queries, sleeps);
            Synced(r.store, r.loop) || r.end.Failed?
    decreases |script|
  {
    if script != [] {
      var r := Step(host, store, loop, script[0]);
      StepKeepsSynced(host, store, loop, script[0]);
      if r.outcome == Continue {
        RunKeepsSynced(feedLimit, host, r.store, r.loop, script[1..], queries + [QueryOf(feedLimit, loop)], sleeps + r.sleeps);
      }
    }
  }

  /** From the start of `runSingleWorker`: the progress row exists, equals
      the working progress unless the run failed, and no event row that was
      stored before the run is lost or changed. */
  lemma RunWorkerInvariants(feedLimit: int, host: Host, store: Store, script: seq<Iteration>)
    ensures var r := RunWorker(feedLimit, host, store, script);
            && PROGRESS_KEY in r.store.progress
            && (Synced(r.store, r.loop) || r.end.Failed?)
            && store.events.Keys <= r.store.events.Keys
            && (forall k :: k in store.events ==> r.store.events[k] == store.events[k])
  {
    var rows := EnsuredRows(store.progress, PROGRESS_KEY);
    RunKeepsSynced(feedLimit, host, Store(store.events, rows), StartLoop(rows), script, [], []);
    RunKeepsStoredEvents(feedLimit, host, Store(store.events, rows), StartLoop(rows), script, [], []);
  }

  /** Run over a script whose first iteration goes on. */
  lemma RunContinues(feedLimit: int, host: Host, store: Store, loop: Loop, script: seq<Iteration>,
                     queries: seq<Query>, sleeps: seq<int>)
    requires script != [] && Step(host, store, loop, script[0]).outcome == Continue
    ensures var r := Step(host, store, loop, script[0]);
            Run(feedLimit, host, store, loop, script, queries, sleeps) ==
            Run(feedLimit, host, r.store, r.loop, script[1..], queries + [QueryOf(feedLimit, loop)], sleeps + r.sleeps)
  {
  }

  /** Run over a script whose first iteration finishes the feed. */
  lemma RunFinishes(feedLimit: int, host: Host, store: Store, loop: Loop, script: seq<Iteration>,
                    queries: seq<Query>, sleeps: seq<int>)
    requires script != [] && Step(host, store, loop, script[0]).outcome == Finished
    ensures var r := Step(host, store, loop, script[0]);
            Run(feedLimit, host, store, loop, script, queries, sleeps) ==
            RunResult(r.store, r.loop, Completed, queries + [QueryOf(feedLimit, loop)], sleeps + r.sleeps)
  {
  }

  /** Run over a script whose first iteration ends the run with an error. */
  lemma RunAborts(feedLimit: int, host: Host, store: Store, loop: Loop, script: seq<Iteration>,
                  queries: seq<Query>, sleeps: seq<int>)
    requires script != [] && Step(host, store, loop, script[0]).outcome.Aborted?
    ensures var r := Step(host, store, loop, script[0]);
            Run(feedLimit, host, store, loop, script, queries, sleeps) ==
            RunResult(r.store, r.loop, Failed(r.outcome.fault), queries + [QueryOf(feedLimit, loop)], sleeps + r.sleeps)
  {
  }

  /** A run of two iterations of which the first goes on and the second finishes. */
  lemma RunTwoSteps(feedLimit: int, host: Host, store: Store, loop: Loop, it1: Iteration, it2: Iteration)
    requires Step(host, store, loop, it1).outcome == Continue
    requires var r1 := Step(host, store, loop, it1);
             Step(host, r1.store, r1.loop, it2).outcome == Finished
    ensures var r1 := Step(host, store, loop, it1);
            var r2 := Step(host, r1.store, r1.loop, it2);
            Run(feedLimit, host, store, loop, [it1, it2], [], []) ==
            RunResult(r2.store, r2.loop, Completed, [QueryOf(feedLimit, loop), QueryOf(feedLimit, r1.loop)],
                      r1.sleeps + r2.sleeps)
  {
    var r1 := Step(host, store, loop, it1);
    RunContinues(feedLimit, host, store, loop, [it1, it2], [], []);
    assert [it1, it2][1..] == [it2];
    RunFinishes(feedLimit, host, r1.store, r1.loop, [it2], [QueryOf(feedLimit, loop)], r1.sleeps);
  }

  /** The oldest of three ascending timestamps is the first. */
  lemma OldestOfThree(rows: seq<InsertableEvent>, clockMs: int, t1: int, t2: int, t3: int)
    requires |rows| == 3 && t1 < t2 < t3
    requires rows[0].timestampMs == t1 && rows[1].timestampMs == t2 && rows[2].timestampMs == t3
    ensures OldestTimestamp(rows, clockMs) == t1
  {
    var oldest := OldestTimestamp(rows, clockMs);
    var k :| 0 <= k < |rows| && rows[k].timestampMs == oldest;
    assert oldest <= rows[0].timestampMs;
  }

  /** The first page of the two-page run below: committed with checkpoint t1. */
  lemma FirstPageOfTwo(host: Host, store: Store, loop: Loop, it1: Iteration, t1: int, t2: int, t3: int)
    requires t1 < t2 < t3 && PROGRESS_KEY in store.progress
    requires FetchedPage(host, it1) && it1.txFault == NoFault
    requires var evs := PageEvents(PageOf(host, it1));
             && |evs| == 3 && HasMore(PageOf(host, it1)) && NextCursor(PageOf(host, it1)) == Some("abc")
             && evs[0].timestamp == Num(Finite(t1)) && evs[1].timestamp == Num(Finite(t2))
             && evs[2].timestamp == Num(Finite(t3))
    ensures var r := Step(host, store, loop, it1);
            var evs := PageEvents(PageOf(host, it1));
            && r.outcome == Continue
            && r.loop.progress == Progress(loop.progress.untilMs, Some("abc"), Some(t1))
            && Synced(r.store, r.loop)
            && evs[0].id in r.store.events && evs[1].id in r.store.events && evs[2].id in r.store.events
  {
    var f := InterpretResponse(it1.response.value, it1.respondedAtMs, host);
    var body := f.data;
    assert Step(host, store, loop, it1) == OnPage(host, store, loop, body, f.rateLimit, it1);
    var evs := PageEvents(body);
    assert forall i :: 0 <= i < 3 ==> NormalizeEvent(evs[i], host.dateParse).Ok?;
    var rows := NormalizeAll(evs, host.dateParse).value;
    assert OnPage(host, store, loop, body, f.rateLimit, it1) == OnRows(host, store, loop, body, f.rateLimit, it1, rows);
    assert rows[0].timestampMs == t1 && rows[1].timestampMs == t2 && rows[2].timestampMs == t3;
    assert rows[0].id == evs[0].id && rows[1].id == evs[1].id && rows[2].id == evs[2].id;
    OldestOfThree(rows, it1.checkpointClockMs, t1, t2, t3);
    PageRowsInserted(store.events, rows, host.stringify);
  }

  /** Two pages: three events with timestamps t1 < t2 < t3 and `nextCursor`
      "abc", then an empty last page. The run completes after two requests,
      the second carrying cursor "abc"; the three ids are stored and the
      checkpoint is t1. The empty last page writes no progress, so the stored
      cursor stays "abc". */
  lemma TwoPageRun(feedLimit: int, host: Host, store: Store, it1: Iteration, it2: Iteration,
                   t1: int, t2: int, t3: int)
    requires t1 < t2 < t3
    requires FetchedPage(host, it1) && it1.txFault == NoFault
    requires var evs := PageEvents(PageOf(host, it1));
             && |evs| == 3 && HasMore(PageOf(host, it1)) && NextCursor(PageOf(host, it1)) == Some("abc")
             && evs[0].timestamp == Num(Finite(t1)) && evs[1].timestamp == Num(Finite(t2))
             && evs[2].timestamp == Num(Finite(t3))
    requires FetchedPage(host, it2) && PageEvents(PageOf(host, it2)) == [] && !HasMore(PageOf(host, it2))
    ensures var r := RunWorker(feedLimit, host, store, [it1, it2]);
            var start := LoadedRow(EnsuredRows(store.progress, PROGRESS_KEY), PROGRESS_KEY);
            var evs := PageEvents(PageOf(host, it1));
            && r.end == Completed && |r.queries| == 2
            && Lookup(r.queries[1], "cursor") == Some("abc")
            && PROGRESS_KEY in r.store.progress
            && r.store.progress[PROGRESS_KEY] == Progress(start.untilMs, Some("abc"), Some(t1))
            && evs[0].id in r.store.events && evs[1].id in r.store.events && evs[2].id in r.store.events
  {
    var rows0 := EnsuredRows(store.progress, PROGRESS_KEY);
    var s0 := Store(store.events, rows0);
    var l0 := StartLoop(rows0);
    FirstPageOfTwo(host, s0, l0, it1, t1, t2, t3);
    var r1 := Step(host, s0, l0, it1);
    EmptyFinalPageStops(host, r1.store, r1.loop, it2);
    RunTwoSteps(feedLimit, host, s0, l0, it1, it2);
    assert RunWorker(feedLimit, host, store, [it1, it2]) == Run(feedLimit, host, s0, l0, [it1, it2], [], []);
  }
}
