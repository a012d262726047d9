/** The feed's wire types (packages/ingestion/src/datasync/types.ts) and the
    JavaScript values the client and the worker inspect at run time. */
module Types {
  import opened Wrappers

  /** A JavaScript number. Only integers are modelled; `NonFinite` stands for
      `NaN`, `Infinity` and `-Infinity`, which `Number.isFinite` rejects. */
  datatype Number = Finite(value: int) | NonFinite

  /** An arbitrary JavaScript value as produced by `JSON.parse` or read from an
      object field: `Undefined` is a missing field. */
  datatype Value =
    | Undefined
    | Null
    | Bool(b: bool)
    | Num(n: Number)
    | Str(s: string)
    | Arr(items: seq<Value>)
    | Obj(fields: map<string, Value>)

  /** An error body (`DataSyncError`). The cast in the client is unchecked, so
      every field may be missing, including the two the type calls required. */
  datatype DataSyncError = DataSyncError(
    error: Option<string>,
    message: Option<string>,
    code: Option<string>,
    hint: Option<string>)

  /** One raw feed record (`DataSyncEvent`). Every field but `id` is `unknown`
      at run time; `extra` holds the additional fields kept verbatim. */
  datatype DataSyncEvent = DataSyncEvent(
    id: string,
    sessionId: Value,
    userId: Value,
    eventType: Value,
    name: Value,
    timestamp: Value,
    properties: Value,
    session: Value,
    extra: map<string, Value>)

  datatype Pagination = Pagination(
    limit: int,
    hasMore: bool,
    nextCursor: Option<string>,
    cursorExpiresIn: Option<int>)

  datatype Meta = Meta(
    total: Option<int>,
    returned: Option<int>,
    requestId: Option<string>,
    extra: map<string, Value>)

  /** A success body (`FeedResponse`); the cast is unchecked, so `data` and
      `pagination` may be missing. Fields that are present are taken to have
      their declared types. */
  datatype FeedResponse = FeedResponse(
    data: Option<seq<DataSyncEvent>>,
    pagination: Option<Pagination>,
    meta: Option<Meta>)

  /** What `JSON.parse` returns for a response body. An object is seen through
      the two casts the client applies to it (as a page and as an error);
      an array is an object on which every field the client reads is missing. */
  datatype Json =
    | JNull
    | JBool(b: bool)
    | JNumber(n: Number)
    | JString(s: string)
    | JArray(items: seq<Value>)
    | JObject(asFeed: FeedResponse, asError: DataSyncError)

  /** `typeof body === "object" && body !== null`. */
  predicate IsObject(j: Json) {
    j.JArray? || j.JObject?
  }

  /** The record as a plain object, the value `JSON.stringify(e)` serialises. */
  function EventAsValue(e: DataSyncEvent): Value {
    Obj(e.extra + map[
      "id" := Str(e.id),
      "sessionId" := e.sessionId,
      "userId" := e.userId,
      "type" := e.eventType,
      "name" := e.name,
      "timestamp" := e.timestamp,
      "properties" := e.properties,
      "session" := e.session])
  }

  /** The functions of the JavaScript host the core calls but does not define:
      `JSON.parse` (`None` when it throws), `Date.parse` (`None` for `NaN`) and
      `JSON.stringify`. */
  datatype Host = Host(
    jsonParse: string -> Option<Json>,
    dateParse: string -> Option<int>,
    stringify: Value -> string)
}
