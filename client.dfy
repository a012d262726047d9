/** The feed client of packages/ingestion/src/datasync/client.ts: query
    construction, header parsing, timestamp parsing, defensive body parsing and
    classification, and the bounded retry combinator. The HTTP exchange itself
    is an input: a status, the headers read and the body text. */
module Client {
  import opened Wrappers
  import opened Types
  import opened Text
  import opened Backoff

  /** Query parameters in the order `URLSearchParams.set` adds them. */
  type Query = seq<(string, string)>

  /** The value of the first parameter named `key`. */
  function Lookup(q: Query, key: string): Option<string> {
    if q == [] then None
    else if q[0].0 == key then Some(q[0].1)
    else Lookup(q[1..], key)
  }

  lemma {:induction false} LookupConcat(a: Query, b: Query, key: string)
    ensures Lookup(a + b, key) == if Lookup(a, key).Some? then Lookup(a, key) else Lookup(b, key)
  {
    if a != [] {
      assert (a + b)[1..] == a[1..] + b;
      LookupConcat(a[1..], b, key);
    } else {
      assert a + b == b;
    }
  }

  /** The query of one page request: `limit` always; `cursor` only for a
      non-empty cursor (a JavaScript truthiness test); `until` whenever an
      upper bound is held. */
  function BuildQuery(limit: int, cursor: Option<string>, untilMs: Option<int>): (q: Query)
    ensures Lookup(q, "limit") == Some(IntString(limit))
    ensures Lookup(q, "cursor") == (if cursor.Some? && cursor.value != "" then cursor else None)
    ensures Lookup(q, "until") == (if untilMs.Some? then Some(IntString(untilMs.value)) else None)
    ensures forall i :: 0 <= i < |q| ==> q[i].0 == "limit" || q[i].0 == "cursor" || q[i].0 == "until"
  {
    var withCursor := if cursor.Some? && cursor.value != "" then [("cursor", cursor.value)] else [];
    var withUntil := if untilMs.Some? then [("until", IntString(untilMs.value))] else [];
    var q := [("limit", IntString(limit))] + withCursor + withUntil;
    assert "limit" != "cursor" && "limit" != "until" && "cursor" != "until";
    LookupConcat([("limit", IntString(limit))] + withCursor, withUntil, "cursor");
    LookupConcat([("limit", IntString(limit))] + withCursor, withUntil, "until");
    LookupConcat([("limit", IntString(limit))], withCursor, "cursor");
    LookupConcat([("limit", IntString(limit))], withCursor, "until");
    q
  }

  /** The feed reads back exactly the numbers the client sent. */
  lemma QueryNumbersRoundTrip(limit: int, cursor: Option<string>, untilMs: Option<int>)
    ensures ToNumber(Lookup(BuildQuery(limit, cursor, untilMs), "limit").value) == Finite(limit)
    ensures untilMs.Some? ==>
              ToNumber(Lookup(BuildQuery(limit, cursor, untilMs), "until").value) == Finite(untilMs.value)
  {
    IntStringRoundTrip(limit);
    if untilMs.Some? {
      IntStringRoundTrip(untilMs.value);
    }
  }

  /** The response headers the client reads (`Headers.get` is case-insensitive,
      so one field per header name). */
  datatype Headers = Headers(
    rateLimitLimit: Option<string>,
    rateLimitRemaining: Option<string>,
    rateLimitReset: Option<string>,
    retryAfter: Option<string>,
    chaosApplied: Option<string>,
    chaosDescription: Option<string>)

  datatype RateLimitInfo = RateLimitInfo(limit: Option<int>, remaining: Option<int>, resetSeconds: Option<int>)

  datatype ChaosInfo = ChaosInfo(applied: Option<string>, description: Option<string>)

  /** `parseIntHeader`: absent or empty gives `null`, otherwise `Number(value)`
      when it is finite and `null` when it is not. */
  function ParseIntHeader(value: Option<string>): (r: Option<int>)
    ensures r.Some? ==> value.Some? && value.value != "" && ToNumber(value.value) == Finite(r.value)
    ensures value.Some? && value.value != "" && ToNumber(value.value).Finite? ==> r == Some(ToNumber(value.value).value)
  {
    if value.None? || value.value == "" then None
    else match ToNumber(value.value)
      case Finite(n) => Some(n)
      case NonFinite => None
  }

  /** A header holding `String(n)` parses to `n`, and one the number parser
      rejects parses to nothing. */
  lemma ParseIntHeaderCases(n: int, junk: string)
    requires ToNumber(junk) == NonFinite
    ensures ParseIntHeader(Some(IntString(n))) == Some(n)
    ensures ParseIntHeader(Some(junk)) == None
    ensures ParseIntHeader(None) == None && ParseIntHeader(Some("")) == None
  {
    IntStringRoundTrip(n);
    assert IntString(n) != "";
  }

  function ReadRateLimitInfo(h: Headers): RateLimitInfo {
    RateLimitInfo(ParseIntHeader(h.rateLimitLimit), ParseIntHeader(h.rateLimitRemaining), ParseIntHeader(h.rateLimitReset))
  }

  function ReadChaosInfo(h: Headers): ChaosInfo {
    ChaosInfo(h.chaosApplied, h.chaosDescription)
  }

  /** `readRetryAfterMs`: a delay in milliseconds from a count of seconds or an
      HTTP date (parsed by `dateParse`), never negative; `nowMs` is `Date.now()`. */
  function ReadRetryAfterMs(header: Option<string>, nowMs: int, dateParse: string -> Option<int>): (r: Option<int>)
    ensures r.Some? ==> r.value >= 0
    ensures header.None? || header == Some("") ==> r.None?
  {
    if header.None? || header.value == "" then None
    else match ToNumber(header.value)
      case Finite(seconds) => Some(Max(0, seconds * 1000))
      case NonFinite =>
        match dateParse(header.value)
        case Some(when) => Some(Max(0, when - nowMs))
        case None => None
  }

  /** A header `Number` reads as `s` seconds (`"5"`, `"+5"`, `"05"`) waits
      `max(0, 1000 s)`, whatever the date parser does; in particular `String(n)`
      waits `max(0, 1000 n)`. A date waits until it is reached, or not at all
      once it has passed. */
  lemma RetryAfterCases(h: string, n: int, date: string, nowMs: int, dateParse: string -> Option<int>)
    requires date != "" && ToNumber(date) == NonFinite
    ensures h != "" && ToNumber(h).Finite? ==>
              ReadRetryAfterMs(Some(h), nowMs, dateParse) == Some(Max(0, ToNumber(h).value * 1000))
    ensures ReadRetryAfterMs(Some("+5"), nowMs, dateParse) == Some(5000)
    ensures ReadRetryAfterMs(Some("05"), nowMs, dateParse) == Some(5000)
    ensures ReadRetryAfterMs(Some(IntString(n)), nowMs, dateParse) == Some(Max(0, n * 1000))
    ensures dateParse(date).Some? ==>
              ReadRetryAfterMs(Some(date), nowMs, dateParse) == Some(Max(0, dateParse(date).value - nowMs))
    ensures dateParse(date).None? ==> ReadRetryAfterMs(Some(date), nowMs, dateParse) == None
  {
    IntStringRoundTrip(n);
    assert IntString(n) != "";
  }

  /** `parseTimestampMs`: a finite number as it is, a digit string as its
      decimal value, any other string through the date parser; everything else
      throws "Unparseable timestamp", modelled as `Err` carrying the value. */
  function ParseTimestampMs(v: Value, dateParse: string -> Option<int>): (r: Result<int, Value>)
    ensures v.Num? && v.n.Finite? ==> r == Ok(v.n.value)
    ensures v.Str? && IsDigits(v.s) ==> r == Ok(DigitsValue(v.s))
    ensures r.Ok? ==> (v.Num? && v.n.Finite?) || v.Str?
    ensures r.Err? ==> r.error == v
  {
    match v
    case Num(Finite(n)) => Ok(n)
    case Str(s) =>
      if IsDigits(s) then Ok(DigitsValue(s))
      else (
        match dateParse(s)
        case Some(ms) => Ok(ms)
        case None => Err(v))
    case _ => Err(v)
  }

  /** Every digit string reads as its decimal value, leading zeros included,
      and never reaches the date parser; so `String(n)` for `n >= 0` reads back
      as `n`. `null`, missing and non-finite numbers are rejected. */
  lemma ParseTimestampDigits(n: nat, dateParse: string -> Option<int>)
    ensures ParseTimestampMs(Str("007"), dateParse) == Ok(7)
    ensures ParseTimestampMs(Str(DecimalString(n)), dateParse) == Ok(n)
    ensures ParseTimestampMs(Null, dateParse).Err? && ParseTimestampMs(Undefined, dateParse).Err?
    ensures ParseTimestampMs(Num(NonFinite), dateParse).Err?
  {
    DecimalRoundTrip(n);
    assert IsDigits("007");
    assert "007"[..2] == "00" && "00"[..1] == "0" && "0"[..0] == [];
    assert DigitsValue("007") == 7;
  }

  /** A string that is not all digits is a date or nothing. */
  lemma ParseTimestampDates(s: string, dateParse: string -> Option<int>)
    requires !IsDigits(s)
    ensures ParseTimestampMs(Str(s), dateParse).Ok? <==> dateParse(s).Some?
    ensures dateParse(s).Some? ==> ParseTimestampMs(Str(s), dateParse) == Ok(dateParse(s).value)
  {
  }

  /** `readJsonSafely`: empty text is `null`, text `JSON.parse` rejects is
      returned as the raw string. */
  function ReadJsonSafely(text: string, jsonParse: string -> Option<Json>): (j: Json)
    ensures text == "" ==> j == JNull
    ensures text != "" && jsonParse(text).None? ==> j == JString(text)
    ensures j.JNull? ==> text == "" || jsonParse(text) == Some(JNull)
    ensures text != "" && jsonParse(text).Some? ==> j == jsonParse(text).value
  {
    if text == "" then JNull
    else match jsonParse(text)
      case Some(parsed) => parsed
      case None => JString(text)
  }

  /** One HTTP exchange: the response status, the headers read and the body text. */
  datatype HttpResponse = HttpResponse(status: int, headers: Headers, text: string)

  /** The tagged result of `fetchEventsPage`. */
  datatype FetchResult =
    | Fetched(data: FeedResponse, rateLimit: RateLimitInfo, chaos: ChaosInfo)
    | FetchFailed(status: int, error: Option<DataSyncError>, rateLimit: RateLimitInfo,
                  retryAfterMs: Option<int>, chaos: ChaosInfo)

  /** `Response.ok`. */
  predicate IsSuccessStatus(status: int) {
    200 <= status <= 299
  }

  /** `typeof v` for the non-object bodies. */
  function TypeOfName(j: Json): string {
    match j
    case JBool(_) => "boolean"
    case JNumber(_) => "number"
    case JString(_) => "string"
    case _ => "object"
  }

  const EMPTY_RESPONSE_ERROR := DataSyncError(
    Some("EmptyResponse"), Some("Received a null response body"), Some("EMPTY_RESPONSE"), None)

  function InvalidResponseError(j: Json): DataSyncError {
    DataSyncError(Some("InvalidResponse"), Some("Unexpected response type: " + TypeOfName(j)),
                  Some("INVALID_RESPONSE"), None)
  }

  /** An object body cast to `DataSyncError`. */
  function AsError(j: Json): DataSyncError
    requires IsObject(j)
  {
    if j.JObject? then j.asError else DataSyncError(None, None, None, None)
  }

  /** An object body cast to `FeedResponse`. */
  function AsFeed(j: Json): FeedResponse
    requires IsObject(j)
  {
    if j.JObject? then j.asFeed else FeedResponse(None, None, None)
  }

  /** What `fetchEventsPage` returns once the response has arrived; `nowMs` is
      the clock `readRetryAfterMs` reads. */
  function InterpretResponse(res: HttpResponse, nowMs: int, host: Host): (r: FetchResult)
    ensures r.Fetched? <==> IsSuccessStatus(res.status) && IsObject(ReadJsonSafely(res.text, host.jsonParse))
    ensures r.FetchFailed? ==> r.status == res.status
    ensures r.FetchFailed? ==> r.retryAfterMs == ReadRetryAfterMs(res.headers.retryAfter, nowMs, host.dateParse)
    ensures r.rateLimit == ReadRateLimitInfo(res.headers)
    ensures r.Fetched? ==> r.data == AsFeed(ReadJsonSafely(res.text, host.jsonParse))
  {
    var rateLimit := ReadRateLimitInfo(res.headers);
    var retryAfterMs := ReadRetryAfterMs(res.headers.retryAfter, nowMs, host.dateParse);
    var chaos := ReadChaosInfo(res.headers);
    var body := ReadJsonSafely(res.text, host.jsonParse);
    if !IsSuccessStatus(res.status) then
      FetchFailed(res.status, if IsObject(body) then Some(AsError(body)) else None, rateLimit, retryAfterMs, chaos)
    else if body.JNull? then
      FetchFailed(res.status, Some(EMPTY_RESPONSE_ERROR), rateLimit, retryAfterMs, chaos)
    else if !IsObject(body) then
      FetchFailed(res.status, Some(InvalidResponseError(body)), rateLimit, retryAfterMs, chaos)
    else
      Fetched(AsFeed(body), rateLimit, chaos)
  }

  /** A non-2xx response is a failure with the same status whose error is the
      body exactly when the body is a non-null object. */
  lemma ErrorStatusKeepsBody(res: HttpResponse, nowMs: int, host: Host)
    requires !IsSuccessStatus(res.status)
    ensures var r := InterpretResponse(res, nowMs, host);
            var body := ReadJsonSafely(res.text, host.jsonParse);
            && r.FetchFailed? && r.status == res.status
            && (r.error.Some? <==> IsObject(body))
            && (body.JObject? ==> r.error == Some(body.asError))
            && (body.JArray? ==> r.error == Some(DataSyncError(None, None, None, None)))
  {
  }

  /** A 2xx response whose body is empty text or the literal `null` is an
      `EMPTY_RESPONSE` failure. */
  lemma EmptyBodyIsEmptyResponse(res: HttpResponse, nowMs: int, host: Host)
    requires IsSuccessStatus(res.status)
    requires res.text == "" || host.jsonParse(res.text) == Some(JNull)
    ensures var r := InterpretResponse(res, nowMs, host);
            && r.FetchFailed? && r.status == res.status && r.error.Some? && r.error.value.code == Some("EMPTY_RESPONSE")
            && r.error == Some(DataSyncError(Some("EmptyResponse"), Some("Received a null response body"),
                                             Some("EMPTY_RESPONSE"), None))
  {
  }

  /** A 2xx response whose text is not JSON, or is a JSON number, boolean or
      string, is an `INVALID_RESPONSE` failure. */
  lemma NonObjectBodyIsInvalidResponse(res: HttpResponse, nowMs: int, host: Host)
    requires IsSuccessStatus(res.status) && res.text != ""
    requires match host.jsonParse(res.text)
             case None => true
             case Some(j) => j.JBool? || j.JNumber? || j.JString?
    ensures var r := InterpretResponse(res, nowMs, host);
            && r.FetchFailed? && r.status == res.status && r.error.Some? && r.error.value.code == Some("INVALID_RESPONSE")
            && r.error.value.error == Some("InvalidResponse")
            && r.error.value.message == Some("Unexpected response type: " +
                 match host.jsonParse(res.text)
                 case None => "string"
                 case Some(j) => if j.JBool? then "boolean" else if j.JNumber? then "number" else "string")
  {
  }

  /** The attempt ceiling of `withRetries`. */
  const MAX_ATTEMPTS: nat := 8

  /** `withRetries(fn)`: `fn(i)` is the outcome of the i-th invocation (0-based)
      and `draw(i)` the random draw of the i-th wait. Returns the outcome it
      ends with, the number of invocations and the waits it requested. */
  method WithRetries<T, E>(fn: nat -> Result<T, E>, draw: nat -> RandomDraw)
    returns (r: Result<T, E>, calls: nat, waits: seq<nat>)
    ensures 1 <= calls <= MAX_ATTEMPTS
    ensures r == fn(calls - 1)
    ensures forall i :: 0 <= i < calls - 1 ==> fn(i).Err?
    ensures r.Err? ==> calls == MAX_ATTEMPTS
    ensures |waits| == calls - 1
    ensures forall i :: 0 <= i < |waits| ==>
              waits[i] == ComputeBackoffMs(i + 1, DEFAULT_BASE_MS, DEFAULT_MAX_MS, draw(i))
  {
    var attempt: nat := 0;
    waits := [];
    while true
      invariant attempt < MAX_ATTEMPTS
      invariant |waits| == attempt
      invariant forall i :: 0 <= i < attempt ==> fn(i).Err?
      invariant forall i :: 0 <= i < attempt ==>
                  waits[i] == ComputeBackoffMs(i + 1, DEFAULT_BASE_MS, DEFAULT_MAX_MS, draw(i))
      decreases MAX_ATTEMPTS - attempt
    {
      var outcome := fn(attempt);
      if outcome.Ok? {
        return outcome, attempt + 1, waits;
      }
      attempt := attempt + 1;
      if attempt >= MAX_ATTEMPTS {
        return outcome, attempt, waits;
      }
      var waitMs := ComputeBackoffMs(attempt, DEFAULT_BASE_MS, DEFAULT_MAX_MS, draw(attempt - 1));
      waits := waits + [waitMs];
    }
  }
}
