# Ingestion worker — a Dafny model

This project models the core of an ingestion service. The service pulls a
paginated event feed from a remote API and stores it in two tables:

- `ingested_events` holds one row per event id. Inserting is idempotent (`ON CONFLICT (id) DO NOTHING`).
- `ingestion_progress` holds one resume point per feed name: an upper time bound, a cursor and a checkpoint.

The worker loop does the following, one page per iteration:

1. Fetch a page.
2. If the fetch failed, classify the failure and recover, retry after a backoff, or stop:
   - an invalid cursor;
   - a malformed 200 response that the client synthesised;
   - overload or a server fault;
   - anything else, which is fatal.
3. Otherwise normalise the page's events.
4. Commit the rows and the new progress in one transaction.
5. Pace the next request from the rate-limit headers.

The model is split into modules as follows:

- `Wrappers`, `Types`: `Option`/`Result`, the feed's wire types and a JavaScript value type.
- `Text`: what the code uses from JavaScript's string and number built-ins:
  - ASCII `toUpperCase`/`toLowerCase`, `includes`;
  - `/^\d+$/`;
  - `String(n)` and `Number(s)` for integer spellings.
- `Backoff`: `computeBackoffMs`. `Math.random()` is an input draw `d < 2^53`.
- `Client`: the feed client.
  - Query building, header parsing, `Retry-After`, `parseTimestampMs`, `readJsonSafely`.
  - The classification of a response once it has arrived.
  - `withRetries`, as a method that loops over the outcomes of successive calls.
- `ProgressStore`: the progress table as a class `ProgressTable` over a `map`. Its specification is given as functions on the map.
- `EventStore`: the event table as a class `EventTable`.
  - `insertBatch` is a method: a loop builds the nine column arrays, and the table map is updated once.
  - The specification is the insert-if-absent fold `InsertAll`.
- `Worker`: the specification of the worker.
  - Normalisation, failure classification and pacing.
  - One iteration of the loop as a function `Step`.
  - The whole run as a tail-recursive `Run` over a finite script of iterations.
  - The lemmas about them.
- `WorkerLoop`: `runSingleWorker` as imperative code over the two table objects, proved equal to `Run` step by step.

Everything the code gets from its environment is a parameter or an input of an iteration:

- `JSON.parse`, `JSON.stringify` and `Date.parse` are functions passed in (`Types.Host`).
- The response of `fetch` is an input; `None` stands for a transport error or timeout.
- The four readings of `Date.now()` are inputs.
- The random draw is an input.
- Whether the page transaction fails, and at which statement, is an input.
- Whether the progress save after an invalid cursor fails is an input.

Sleeps are not performed. They are recorded as the requested delays.

The model follows the code where its behaviour may be unexpected:

- **Overload waits:** `Retry-After`, when present, replaces the computed backoff (`??`). It is not the maximum of the two (worker.ts:82).
- **Empty non-final page:** an empty page that still has more to come sets the checkpoint to the clock value `Date.now()`. It does not keep the checkpoint unchanged (worker.ts:102). See `Worker.EmptyPageStampsClock`.
- **Final empty page:** an empty final page ends the loop without writing progress, so the stored cursor of the previous page stays (worker.ts:97-98). See `Worker.EmptyFinalPageStops` and `Worker.TwoPageRun`.
- **Other 2xx statuses:** a 2xx status other than 200 (a 204, say) with an empty or non-object body becomes a synthesised `EMPTY_RESPONSE`/`INVALID_RESPONSE` failure with that status. The worker only retries those at status 200, so the run ends (`Worker.SynthesisedFailuresOutside200AreFatal`).
- **`withRetries`:** the worker does not call `withRetries`; it is modelled on its own.

## Model

| member | source | states |
|---|---|---|
| Text.Upper | packages/ingestion/src/ingest/worker.ts:26 | upper-casing keeps the length; every character is the same letter ignoring case as the original one, and none is lower case |
| Text.Lower | packages/ingestion/src/ingest/worker.ts:27 | lower-casing keeps the length; every character is the same letter ignoring case as the original one, and none is upper case |
| Text.UpperAgreesWithLower | packages/ingestion/src/ingest/worker.ts:26 | two characters upper-case to the same character exactly when they are the same letter ignoring case |
| Text.UpperContainsIgnoresCase | packages/ingestion/src/ingest/worker.ts:26-28 | `Upper(s).includes(Upper(p))` holds exactly when `p` occurs in `s` ignoring case (both directions) |
| Text.LowerContainsIgnoresCase | packages/ingestion/src/ingest/worker.ts:27-28 | `Lower(s).includes(Lower(p))` holds exactly when `p` occurs in `s` ignoring case (both directions) |
| Text.UpperEqualsIgnoresCase | packages/ingestion/src/ingest/worker.ts:33-34 | comparing upper-cased strings is equality ignoring case (both directions) |
| Text.ShortStringContainsNothing | packages/ingestion/src/ingest/worker.ts:26-28 | a string shorter than the pattern does not contain it, with or without case; so a missing code or message never matches "cursor" |
| Text.DigitChar | packages/ingestion/src/datasync/client.ts:70 | every digit value has a digit character that reads back as that value |
| Text.DecimalString | packages/ingestion/src/datasync/client.ts:90 | the decimal spelling of a natural number is a nonempty all-digit string |
| Text.DecimalRoundTrip | packages/ingestion/src/datasync/client.ts:70 | reading back the decimal spelling of `n` gives `n` |
| Text.Contains | packages/ingestion/src/ingest/worker.ts:28 | `s.includes(p)`; specified by `Text.UpperContainsIgnoresCase`, `Text.LowerContainsIgnoresCase` and `Text.ShortStringContainsNothing` |
| Text.IsDigits | packages/ingestion/src/datasync/client.ts:70 | `/^\d+$/`; specified through `Client.ParseTimestampMs` and `Client.ParseTimestampDates` |
| Text.DigitsValue | packages/ingestion/src/datasync/client.ts:70 | `Number(s)` of a digit string; specified by `Text.DecimalRoundTrip` and `Client.ParseTimestampDigits` |
| Text.IntString | packages/ingestion/src/datasync/client.ts:90 | `String(n)` is nonempty and starts with `-` exactly when `n` is negative; `Text.IntStringRoundTrip` reads it back |
| Text.IntStringRoundTrip | packages/ingestion/src/datasync/client.ts:38 | `Number(String(n)) == n` for every integer `n` |
| Text.ToNumber | packages/ingestion/src/datasync/client.ts:38 | `Number(s)` on integer spellings; specified by `Text.IntStringRoundTrip`, `Text.DecimalRoundTrip` and `Client.RetryAfterCases` (`"+5"` and `"05"` read as 5) |
| Backoff.Pow2 | packages/ingestion/src/util/backoff.ts:6 | helper for `Backoff.ExpDelay`'s bounds: a power of two is at least 1 |
| Backoff.Pow2Monotone | packages/ingestion/src/util/backoff.ts:6 | powers of two grow with the exponent |
| Backoff.ExpDelay | packages/ingestion/src/util/backoff.ts:6 | the deterministic delay never exceeds `maxMs`; an attempt of 0 or less behaves like attempt 0 |
| Backoff.Jitter | packages/ingestion/src/util/backoff.ts:7 | the jitter is below `min(250, exp)` and is 0 when `exp` is 0 |
| Backoff.ComputeBackoffMs | packages/ingestion/src/util/backoff.ts:5-9 | the delay lies in `[exp, exp + min(250, exp) - 1]`: never below the exponential part and below it plus the jitter cap |
| Backoff.ExpDelayMonotone | packages/ingestion/src/util/backoff.ts:6 | the deterministic delay never shrinks as the attempt grows |
| Backoff.ExpDelaySaturates | packages/ingestion/src/util/backoff.ts:6 | once the cap is reached, every later attempt stays at the cap |
| Backoff.DefaultSchedule | packages/ingestion/src/util/backoff.ts:5-6 | with the defaults the schedule is 500, 1000, 2000, 4000, 8000 and then 10000 for every attempt from 5 on |
| Backoff.BackoffCeilings | packages/ingestion/src/util/backoff.ts:5-9 | no delay exceeds 10249 ms with the defaults or 5249 ms with the worker's (200, 5000) bounds |
| Client.LookupConcat | packages/ingestion/src/datasync/client.ts:90-92 | the first parameter named `key` of a concatenation comes from the first part when it has one |
| Client.BuildQuery | packages/ingestion/src/datasync/client.ts:89-92 | the request carries `limit` as `String(limit)`; `cursor` only when it is non-null and nonempty; `until` exactly when a bound is given, as `String(untilMs)`; no other parameter |
| Client.QueryNumbersRoundTrip | packages/ingestion/src/datasync/client.ts:90-92 | the feed reads back exactly the limit and bound the client sent |
| Client.ReadRateLimitInfo | packages/ingestion/src/datasync/client.ts:42-48 | the three rate-limit fields are the three headers read by `parseIntHeader`; specified through `Client.ParseIntHeader` and `Client.InterpretResponse` |
| Client.ParseIntHeader | packages/ingestion/src/datasync/client.ts:35-40 | a value comes only from a present, nonempty header whose `Number` is finite, and every such header gives one |
| Client.ParseIntHeaderCases | packages/ingestion/src/datasync/client.ts:35-40 | `String(n)` parses to `n`; junk, an absent header and an empty header give null |
| Client.ReadChaosInfo | packages/ingestion/src/datasync/client.ts:60-65 | the two chaos headers; they are never used by the worker, so nothing is proved about them |
| Client.ReadRetryAfterMs | packages/ingestion/src/datasync/client.ts:50-58 | a delay is never negative; an absent or empty header gives null |
| Client.RetryAfterCases | packages/ingestion/src/datasync/client.ts:53-57 | every nonempty header whose `Number` is a finite `s` (`"5"`, `"+5"`, `"05"`, `String(n)`) waits `max(0, 1000 s)` whatever the date parser says; a date waits `max(0, when - now)`; anything else gives null |
| Client.ParseTimestampMs | packages/ingestion/src/datasync/client.ts:67-75 | a finite number is kept as it is; every digit string, leading zeros included, reads as its decimal value; success needs a finite number or a string; a failure reports the offending value |
| Client.ParseTimestampDigits | packages/ingestion/src/datasync/client.ts:68-74 | `"007"` reads as 7 and `String(n)` reads back as `n` for every `n >= 0`; null, undefined and non-finite numbers are rejected |
| Client.ParseTimestampDates | packages/ingestion/src/datasync/client.ts:71-74 | a string that is not all digits parses exactly when `Date.parse` accepts it, to that date |
| Client.ReadJsonSafely | packages/ingestion/src/datasync/client.ts:14-22 | empty text is null; nonempty text `JSON.parse` accepts gives the parsed value; text it rejects is kept as a string; null only for empty text or the literal `null` |
| Client.InterpretResponse | packages/ingestion/src/datasync/client.ts:99-130 | the result is a page exactly for a 2xx status with an object body, and the page is that parsed body; a failure keeps the status and the parsed `Retry-After`; the rate-limit headers are always read |
| Client.AsError | packages/ingestion/src/datasync/client.ts:104 | `body as DataSyncError`; specified through `Client.ErrorStatusKeepsBody` |
| Types.IsObject | packages/ingestion/src/datasync/client.ts:104 | `typeof body === "object" && body !== null`, also the test at client.ts:119; specified through `Client.InterpretResponse` and `Client.ErrorStatusKeepsBody` |
| Client.TypeOfName | packages/ingestion/src/datasync/client.ts:123 | `typeof body` of a non-object body; specified through `Client.NonObjectBodyIsInvalidResponse` |
| Client.InvalidResponseError | packages/ingestion/src/datasync/client.ts:119-128 | the synthesised `INVALID_RESPONSE` error; specified by `Client.NonObjectBodyIsInvalidResponse` |
| Client.AsFeed | packages/ingestion/src/datasync/client.ts:130 | `body as FeedResponse`; specified through `Client.InterpretResponse` |
| Client.IsSuccessStatus | packages/ingestion/src/datasync/client.ts:103 | `res.ok`: a status from 200 to 299; specified through `Client.InterpretResponse` and `Client.ErrorStatusKeepsBody` |
| Client.ErrorStatusKeepsBody | packages/ingestion/src/datasync/client.ts:103-106 | a non-2xx response is a failure whose error is the object body (an array gives an error with no fields), or null when the body is not an object |
| Client.EmptyBodyIsEmptyResponse | packages/ingestion/src/datasync/client.ts:108-117 | a 2xx response with an empty or `null` body is a failure carrying exactly the `EMPTY_RESPONSE` error of client.ts:112 (`Client.EMPTY_RESPONSE_ERROR`) |
| Client.NonObjectBodyIsInvalidResponse | packages/ingestion/src/datasync/client.ts:119-128 | a 2xx response whose body is a non-JSON string, number or boolean is a failure with code `INVALID_RESPONSE`, error `InvalidResponse` and the message naming the body's `typeof` |
| Client.WithRetries | packages/ingestion/src/datasync/client.ts:136-150 | returns the first success within 8 calls, or the 8th failure; every earlier call failed; the waits between calls are `computeBackoffMs(1..)` with the given draws |
| ProgressStore.EnsuredRows | packages/ingestion/src/db/progress.ts:9-11 | ensuring adds the name if absent, as an all-null row; every existing row is kept |
| ProgressStore.LoadedRow | packages/ingestion/src/db/progress.ts:13-25 | the row `loadProgress` returns; specified by `ProgressStore.SaveThenLoad` and `ProgressStore.SaveAbsentIsNoop` |
| ProgressStore.SavedRows | packages/ingestion/src/db/progress.ts:27-34 | saving overwrites only the named row, and only when it exists; no row is added or removed |
| ProgressStore.EnsureIdempotent | packages/ingestion/src/db/progress.ts:9-11 | ensuring twice equals ensuring once, and an existing row is left alone |
| ProgressStore.SaveThenLoad | packages/ingestion/src/db/progress.ts:9-34 | after ensuring a row, what is saved is what is loaded |
| ProgressStore.SaveAbsentIsNoop | packages/ingestion/src/db/progress.ts:27-34 | saving under a name with no row changes nothing, and loading it reads all nulls |
| ProgressStore.ProgressTable.constructor | packages/ingestion/src/db/progress.ts:9-34 | the `ingestion_progress` table the progress functions act on, as a map from name to row; it starts with the given rows |
| ProgressStore.ProgressTable.EnsureProgressRow | packages/ingestion/src/db/progress.ts:9-11 | the table becomes `EnsuredRows` of the old table |
| ProgressStore.ProgressTable.LoadProgress | packages/ingestion/src/db/progress.ts:13-25 | returns the stored row, or all nulls when there is none; the table is unchanged |
| ProgressStore.ProgressTable.SaveProgress | packages/ingestion/src/db/progress.ts:27-34 | the table becomes `SavedRows` of the old table |
| ProgressStore.ProgressTable.Rollback | packages/ingestion/src/ingest/worker.ts:137 | a rollback restores the table as of the transaction's start |
| EventStore.JsonColumn | packages/ingestion/src/db/ingestedEvents.ts:37-38 | a JSON column is null exactly when the value is null or undefined, and otherwise holds `JSON.stringify` of the value |
| EventStore.Unnest | packages/ingestion/src/db/ingestedEvents.ts:44-57 | zipping the columns back gives one row per id, row `i` made of entry `i` of every column |
| EventStore.BuildColumns | packages/ingestion/src/db/ingestedEvents.ts:20-40 | all nine columns have one entry per event, and entry `i` of each is the matching field of event `i` (JSON-encoded where the source encodes it) |
| EventStore.InsertRow | packages/ingestion/src/db/ingestedEvents.ts:72 | `ON CONFLICT (id) DO NOTHING` for one row; specified through the `InsertAll` lemmas below |
| EventStore.InsertAll | packages/ingestion/src/db/ingestedEvents.ts:58-75 | the batch inserted row by row; specified by `EventStore.InsertAllKeepsExisting`, `InsertAllKeys`, `InsertAllNewRowIsFirst`, `InsertAllPresentIsNoop`, `InsertAllIdempotent` and `InsertAllCountBound` |
| EventStore.NewRowCount | packages/ingestion/src/db/ingestedEvents.ts:73-80 | the number of rows `RETURNING 1` yields; specified by `EventStore.EventTable.InsertBatch`, `EventStore.InsertAllCountBound` and `EventStore.InsertAllIdempotent` |
| EventStore.InsertAllKeepsExisting | packages/ingestion/src/db/ingestedEvents.ts:72 | inserting never changes or removes an existing row |
| EventStore.InsertAllKeys | packages/ingestion/src/db/ingestedEvents.ts:58-73 | afterwards the ids are exactly the old ids plus the batch's ids |
| EventStore.InsertAllNewRowIsFirst | packages/ingestion/src/db/ingestedEvents.ts:58-73 | a newly stored id holds the first row of the batch with that id |
| EventStore.InsertAllPresentIsNoop | packages/ingestion/src/db/ingestedEvents.ts:72 | a batch whose ids are all stored changes nothing |
| EventStore.InsertAllIdempotent | packages/ingestion/src/db/ingestedEvents.ts:72-80 | inserting a batch twice equals inserting it once, and the second time inserts 0 rows |
| EventStore.InsertAllCountBound | packages/ingestion/src/db/ingestedEvents.ts:72-80 | a batch of `n` rows adds at most `n` ids |
| EventStore.SubsetCardinality | packages/ingestion/src/db/ingestedEvents.ts:75 | helper: a subset is no larger than its superset (used for the count bound) |
| EventStore.EventTable.constructor | packages/ingestion/src/db/ingestedEvents.ts:17 | a table starts with the given rows |
| EventStore.EventTable.InsertBatch | packages/ingestion/src/db/ingestedEvents.ts:17-81 | the table becomes `InsertAll` of the old table and the batch's rows; the result is the number of new ids; an empty batch changes nothing and returns 0 |
| EventStore.EventTable.Rollback | packages/ingestion/src/ingest/worker.ts:137 | a rollback restores the table as of the transaction's start |
| Worker.StringOrNull | packages/ingestion/src/ingest/worker.ts:14-17 | a field is kept exactly when it is a string, and is null otherwise |
| Worker.NullIfMissing | packages/ingestion/src/ingest/worker.ts:18-19 | `v ?? null`: null for null or undefined, the value otherwise |
| Worker.NormalizeEvent | packages/ingestion/src/ingest/worker.ts:10-22 | fails exactly when the timestamp does not parse, reporting that value; on success the id and raw event are kept, the timestamp is the parsed one, the four string fields are kept only as strings and the two payloads become `?? null` |
| Worker.NormalizeAll | packages/ingestion/src/ingest/worker.ts:101 | succeeds exactly when every event normalises, giving the normalised events in order; otherwise reports the error of the first event that fails |
| Worker.FirstFailureShifts | packages/ingestion/src/ingest/worker.ts:101 | helper for `Worker.NormalizeAll`: when the first event normalises, the first failure of the rest is the first failure of the page |
| Worker.MinFold | packages/ingestion/src/ingest/worker.ts:102 | the fold's result is at most the start value and every element, and is one of them |
| Worker.OldestTimestamp | packages/ingestion/src/ingest/worker.ts:102 | an empty page gives the clock value; otherwise the result is a timestamp of the page and no timestamp is smaller |
| Worker.CodeOf | packages/ingestion/src/ingest/worker.ts:26 | `err?.code ?? ""`; specified through `Worker.IsInvalidCursor`, `Worker.IsTransientChaosResponse` and `Worker.MissingFieldsAreEmpty` |
| Worker.MessageOf | packages/ingestion/src/ingest/worker.ts:27 | `err?.message ?? ""`; specified through `Worker.IsInvalidCursor` and `Worker.MissingFieldsAreEmpty` |
| Worker.IsInvalidCursor | packages/ingestion/src/ingest/worker.ts:24-29 | true exactly for status 400 whose code or message contains "cursor" in any letter case |
| Worker.MissingFieldsAreEmpty | packages/ingestion/src/ingest/worker.ts:26-28 | a 400 without an error object, or without code and message, is not a cursor error |
| Worker.IsTransientChaosResponse | packages/ingestion/src/ingest/worker.ts:31-35 | true exactly for status 200 whose code equals `EMPTY_RESPONSE` or `INVALID_RESPONSE` in any letter case |
| Worker.Classify | packages/ingestion/src/ingest/worker.ts:63-88 | the order of the failure tests; specified by `Worker.ClassifyByStatus` |
| Worker.ClassifyByStatus | packages/ingestion/src/ingest/worker.ts:63-88 | cursor errors are 400s and transient malformed responses are 200s; overload is exactly 429 or at least 500; everything else is fatal |
| Worker.SynthesisedFailuresAreTransient | packages/ingestion/src/ingest/worker.ts:72-78 | a 200 whose body is empty or not an object is always retried as a transient malformed response |
| Worker.SynthesisedFailuresOutside200AreFatal | packages/ingestion/src/ingest/worker.ts:72-88 | the same response with any other 2xx status ends the run |
| Worker.FailureDetail | packages/ingestion/src/ingest/worker.ts:88 | `code ?? message ?? "unknown"`; specified by `Worker.UnrecoverableAborts` |
| Worker.CeilDiv | packages/ingestion/src/ingest/worker.ts:149 | `Math.ceil(a / b)` is the least `q` with `a <= b q` |
| Worker.PacingApplies | packages/ingestion/src/ingest/worker.ts:148 | the pacing guard: limit present and nonzero, remaining present, reset present and positive; specified by `Worker.PacingSleepMs` |
| Worker.TargetSpacingMs | packages/ingestion/src/ingest/worker.ts:149 | with no quota left, the spacing is past the reset (`reset*1000 + 250`); otherwise it is the least spacing that spreads the window over `remaining + 1` requests |
| Worker.PacingSleepMs | packages/ingestion/src/ingest/worker.ts:145-156 | the sleep is never negative; it is 0 unless limit, remaining and a positive reset are all present; otherwise sleep plus elapsed time reaches the target spacing, exactly when there is a sleep |
| Worker.PacingExample | packages/ingestion/src/ingest/worker.ts:145-156 | limit 100, one request left, a 10 s window and 500 ms already elapsed give a 4500 ms sleep |
| Worker.RecoveredProgress | packages/ingestion/src/ingest/worker.ts:64-66 | the progress after an invalid cursor; specified by `Worker.InvalidCursorRecovery` |
| Worker.OnFailure | packages/ingestion/src/ingest/worker.ts:60-89 | a failed fetch never changes the event table and never finishes the run; an abort changes no table; a change of the progress table is the save of the new working progress |
| Worker.InvalidCursorRecovery | packages/ingestion/src/ingest/worker.ts:63-69 | the cursor is dropped and the bound moves to the checkpoint (or stays when there is none); the next request has no cursor and that bound; there is no sleep; when the save succeeds it is stored and the counter resets; when it fails the run ends with the progress table unchanged, the counter kept and the working progress already moved |
| Worker.TransientChaosRetry | packages/ingestion/src/ingest/worker.ts:72-78 | one more consecutive error, tables and progress untouched, and a wait of `computeBackoffMs(n, 200, 5000)`, between 200 and 5249 ms |
| Worker.OverloadRetry | packages/ingestion/src/ingest/worker.ts:80-86 | one more consecutive error, tables and progress untouched, and a wait of `Retry-After` when present, the default backoff otherwise |
| Worker.UnrecoverableAborts | packages/ingestion/src/ingest/worker.ts:88 | any other failure ends the run with its status and `code ?? message ?? "unknown"`, tables untouched |
| Worker.PageEvents | packages/ingestion/src/ingest/worker.ts:93 | `body.data ?? []`; specified through `Worker.PageCommit` and `Worker.EmptyFinalPageStops` |
| Worker.HasMore | packages/ingestion/src/ingest/worker.ts:94 | `Boolean(body.pagination?.hasMore)`; specified through `Worker.PageCommit` |
| Worker.NextCursor | packages/ingestion/src/ingest/worker.ts:95 | `body.pagination?.nextCursor ?? null`; specified through `Worker.PageCommit` and `Worker.FirstPageOfTwo` |
| Worker.CommittedProgress | packages/ingestion/src/ingest/worker.ts:109-113 | the progress a committed page saves; specified by `Worker.PageCommit` and `Worker.EmptyPageStampsClock` |
| Worker.OnPage | packages/ingestion/src/ingest/worker.ts:91-101 | the page branch; specified by `Worker.EmptyFinalPageStops`, `Worker.FailedPageLeavesStore` and `Worker.PageCommit` |
| Worker.OnRows | packages/ingestion/src/ingest/worker.ts:102-156 | the transaction and pacing; specified by `Worker.PageCommit`, `Worker.EmptyPageStampsClock` and `Worker.FailedPageLeavesStore` |
| Worker.QueryOf | packages/ingestion/src/ingest/worker.ts:51-58 | the request parameters of an iteration; specified by `Client.BuildQuery`, `Worker.InvalidCursorRecovery`, `Worker.RunQueries` and `Worker.TwoPageRun` |
| Worker.Step | packages/ingestion/src/ingest/worker.ts:49-156 | one iteration; specified by the per-iteration lemmas from `Worker.InvalidCursorRecovery` to `Worker.StepKeepsSynced` |
| Worker.EmptyFinalPageStops | packages/ingestion/src/ingest/worker.ts:91-99 | a fetched page resets the counter; an empty last page ends the run with tables and progress untouched |
| Worker.PageCommit | packages/ingestion/src/ingest/worker.ts:101-156 | a committed page inserts its rows and saves {same bound, next cursor while more pages remain, page minimum}; every id is then stored; the counter resets, the page count grows by one and the fetched count by the page size; the loop goes on exactly when more pages remain, then sleeping the pacing delay when it is positive and otherwise not at all |
| Worker.OnRowsFaulted | packages/ingestion/src/ingest/worker.ts:104-141 | helper for `WorkerLoop.HandleRows`: a failed transaction aborts with both tables as they were, and the working progress has moved once the insert succeeded |
| Worker.OnRowsCommitted | packages/ingestion/src/ingest/worker.ts:104-143 | helper for `WorkerLoop.HandleRows`: a commit stores the page's rows and the new progress, resets the counter and moves the page, fetched and inserted counts on |
| Worker.RowsCommit | packages/ingestion/src/ingest/worker.ts:102-143 | helper for `Worker.PageCommit`: the table, progress and counter part of a commit, for any normalised rows |
| Worker.RowsPacing | packages/ingestion/src/ingest/worker.ts:145-156 | helper for `Worker.PageCommit`: after a commit the loop finishes on the last page and otherwise goes on, sleeping the pacing delay when it is positive |
| Worker.PageRowsInserted | packages/ingestion/src/ingest/worker.ts:108 | after inserting a page every one of its ids is stored |
| Worker.EmptyPageStampsClock | packages/ingestion/src/ingest/worker.ts:102 | an empty page that has more to come sets the checkpoint to the clock value |
| Worker.FailedPageLeavesStore | packages/ingestion/src/ingest/worker.ts:101-141 | a page that does not normalise, or whose transaction fails, ends the run with both tables exactly as before |
| Worker.TransportFaultAborts | packages/ingestion/src/ingest/worker.ts:51-58 | a transport failure of the fetch ends the run, tables untouched |
| Worker.AbortKeepsStore | packages/ingestion/src/ingest/worker.ts:88-141 | no iteration that ends the run changes a table |
| Worker.StepKeepsStoredEvents | packages/ingestion/src/ingest/worker.ts:101-143 | no iteration changes or removes a stored event row |
| Worker.StepSavesOrKeeps | packages/ingestion/src/ingest/worker.ts:63-143 | an iteration either saves its new working progress or leaves the progress table alone, keeping the working progress unless it aborts |
| Worker.StepKeepsOtherProgress | packages/ingestion/src/ingest/worker.ts:67-117 | no iteration adds or drops a progress row or touches another feed's row |
| Worker.StepKeepsSynced | packages/ingestion/src/ingest/worker.ts:63-143 | an iteration that goes on or finishes leaves the stored progress equal to the working progress |
| Worker.Run | packages/ingestion/src/ingest/worker.ts:49-157 | the loop over a script of iterations; specified by `Worker.RunQueries`, `Worker.RunKeepsStoredEvents`, `Worker.RunKeepsSynced` and the scenarios below |
| Worker.StartLoop | packages/ingestion/src/ingest/worker.ts:40-47 | the loop variables after `loadProgress`; specified by `Worker.RunWorkerInvariants` |
| Worker.RunWorker | packages/ingestion/src/ingest/worker.ts:37-157 | `runSingleWorker` from ensuring and loading the progress row; specified by `Worker.RunWorkerInvariants` and `Worker.TwoPageRun` |
| Worker.RunQueries | packages/ingestion/src/ingest/worker.ts:49-58 | a run keeps the earlier requests as a prefix and adds between 0 and one per iteration of the script, exactly one per iteration when it ends `Suspended` |
| Worker.RunKeepsStoredEvents | packages/ingestion/src/ingest/worker.ts:49-157 | no run loses or rewrites a stored event |
| Worker.RunKeepsSynced | packages/ingestion/src/ingest/worker.ts:49-157 | a run keeps the progress row and stops with it equal to the working progress unless it failed |
| Worker.RunWorkerInvariants | packages/ingestion/src/ingest/worker.ts:37-157 | from the start of `runSingleWorker` the progress row exists; it equals the working progress unless the run failed; and stored events are never lost |
| Worker.RunContinues | packages/ingestion/src/ingest/worker.ts:49-86 | an iteration that goes on is followed by the rest of the run, one query later |
| Worker.RunFinishes | packages/ingestion/src/ingest/worker.ts:97-98 | an iteration that finishes completes the run |
| Worker.RunAborts | packages/ingestion/src/ingest/worker.ts:88-141 | an iteration that aborts ends the run as `Failed` with that fault, one query later |
| Worker.RunTwoSteps | packages/ingestion/src/ingest/worker.ts:49-157 | two iterations, the first going on and the second finishing, complete the run with two queries |
| Worker.OldestOfThree | packages/ingestion/src/ingest/worker.ts:102 | the oldest of three ascending timestamps is the first |
| Worker.FirstPageOfTwo | packages/ingestion/src/ingest/worker.ts:101-143 | a page of three events with cursor "abc" is committed with checkpoint t1 and goes on |
| Worker.TwoPageRun | packages/ingestion/src/ingest/worker.ts:37-157 | three events then an empty last page: the run completes after two requests, the second with cursor "abc"; the three ids are stored and the checkpoint is t1 |
| WorkerLoop.CommitPage | packages/ingestion/src/ingest/worker.ts:104-141 | without a fault the rows are inserted and the progress saved; the result counts the new ids; a fault at any statement leaves both tables as they were |
| WorkerLoop.HandleFailure | packages/ingestion/src/ingest/worker.ts:60-89 | the failure branches do what `Worker.OnFailure` specifies, including skipping the progress save when it fails |
| WorkerLoop.HandlePage | packages/ingestion/src/ingest/worker.ts:91-101 | the page branch does what `Worker.OnPage` specifies |
| WorkerLoop.HandleRows | packages/ingestion/src/ingest/worker.ts:102-156 | the transaction and pacing do what `Worker.OnRows` specifies |
| WorkerLoop.Iterate | packages/ingestion/src/ingest/worker.ts:50-156 | one pass of the loop body sends `QueryOf` the working progress and does what `Worker.Step` specifies to both tables |
| WorkerLoop.RunSingleWorker | packages/ingestion/src/ingest/worker.ts:37-157 | the imperative loop ends in the state `Worker.RunWorker` specifies: the same tables, working state, end, queries and sleeps |

## Left out

- The HTTP fetch itself is not modelled: the URL origin, the API-key header, the abort timer (client.ts:5-12, 94-98) and `res.text()`. A response is an input, and a missing one stands for any transport error or timeout.
- `Date.now()`, `Date.parse`, `Math.random()`, `JSON.parse` and `JSON.stringify` are not modelled. They are inputs or functions passed in, because they are host built-ins.
- Sleeping is not modelled. Each `sleep(ms)` is recorded as a requested delay.
- SQL and the `pg` driver are not modelled. Each table is a map, and a transaction is a snapshot plus rollback. `BEGIN` failing counts as the insert failing.
- The `updated_at` and `inserted_at` columns and the derived `timestamp` column are not modelled, because they hold database clock values.
- uuid validation of the id column by the database is not modelled.
- The feed body is cast, not checked (client.ts:130). Fields of a `FeedResponse` that are present are assumed to have the types of types.ts. A `hasMore` of `"false"` (truthy under `Boolean` at worker.ts:94), a `data` that is not an array (on which `.map` at worker.ts:101 throws) and a non-string `nextCursor` are not modelled.
- `EventStore.InsertRow`: ids are compared as strings. The database casts them to `uuid` (ingestedEvents.ts:47), so `ON CONFLICT (id)` (ingestedEvents.ts:72) treats spellings that differ only in letter case, braces or hyphens as one id, and stores the lower-case hyphenated form. The model keeps such spellings as distinct rows. `EventStore.InsertAllKeys` and the count `EventStore.EventTable.InsertBatch` returns agree with the database only when every id is already spelled in that canonical form.
- Numbers are unbounded integers. Non-integer timestamps, headers and `Retry-After` values are not modelled, because there is no floating point. The rounding of `Number()` above 2^53 (client.ts:38, 70) and the range of the `$2::bigint[]` column (ingestedEvents.ts:48) are not modelled either.
- `Text.ToNumber` (JavaScript `Number`) accepts only an optional sign followed by digits, plus the empty string. Decimal points, exponents and surrounding white space give `NonFinite`.
- `Text.Upper`, `Text.Lower`: only ASCII letters change case; full Unicode case mapping is not modelled.
- `Worker.IsInvalidCursor`, `Worker.IsTransientChaosResponse`: an error `code` that is not a string would make `toUpperCase` throw; the model types `code` and `message` as strings.
- `Client.ReadChaosInfo`: the chaos headers are read and returned, but never used by the worker, so nothing is proved about them.
- Logging is not modelled: `log` and `console.log`.
- A failure of `ensureProgressRow` or `loadProgress` at startup (worker.ts:39-40) is not modelled: either would end `runSingleWorker` before the loop starts, with no table changed beyond what `ensureProgressRow` inserts.
- The final `SELECT COUNT(*)` after the loop (worker.ts:159-163) is not modelled, because it only feeds a log line.
- config.ts, index.ts and migrations.ts are not part of this model.
- `WorkerLoop.RunSingleWorker`: the source loops with `while (true)`. The model runs over a finite script of iterations and reports `Suspended` when the script runs out while the loop would go on.
- The working counters (`page`, `fetchedTotal`, `insertedTotal`) only feed log lines. `Worker.PageCommit` and `Worker.OnRowsCommitted` state how a commit moves them; no run-level property is proved about them.
- `Client.WithRetries`: a "call" is its outcome function `fn(i)`, so side effects of `fn` are not modelled.
