/** The `ingested_events` table of packages/ingestion/src/db/ingestedEvents.ts.
    The table is a map from event id (its primary key) to the stored row;
    `insertBatch` adds the rows whose id is not yet present. */
module EventStore {
  import opened Wrappers
  import opened Types

  /** A normalised event, ready to be stored (`InsertableEvent`). */
  datatype InsertableEvent = InsertableEvent(
    id: string,
    timestampMs: int,
    eventType: Option<string>,
    name: Option<string>,
    userId: Option<string>,
    sessionId: Option<string>,
    properties: Value,
    session: Value,
    raw: DataSyncEvent)

  /** One stored row: the nine columns `insertBatch` passes to the database. */
  datatype EventRow = EventRow(
    id: string,
    timestampMs: int,
    eventType: Option<string>,
    name: Option<string>,
    userId: Option<string>,
    sessionId: Option<string>,
    propertiesJson: Option<string>,
    sessionJson: Option<string>,
    rawJson: string)

  /** The nine parallel column arrays of one batch. */
  datatype Columns = Columns(
    ids: seq<string>,
    timestampMs: seq<int>,
    types: seq<Option<string>>,
    names: seq<Option<string>>,
    userIds: seq<Option<string>>,
    sessionIds: seq<Option<string>>,
    propertiesJson: seq<Option<string>>,
    sessionJson: seq<Option<string>>,
    rawJson: seq<string>)

  /** `v == null` in JavaScript: `null` or `undefined`. */
  predicate IsNullish(v: Value) {
    v.Null? || v.Undefined?
  }

  /** `v == null ? null : JSON.stringify(v)`. */
  function JsonColumn(v: Value, stringify: Value -> string): (c: Option<string>)
    ensures c.None? <==> IsNullish(v)
    ensures c.Some? ==> c.value == stringify(v)
  {
    if IsNullish(v) then None else Some(stringify(v))
  }

  /** The row that describes `e`. */
  function RowOf(e: InsertableEvent, stringify: Value -> string): EventRow {
    EventRow(e.id, e.timestampMs, e.eventType, e.name, e.userId, e.sessionId,
             JsonColumn(e.properties, stringify), JsonColumn(e.session, stringify),
             stringify(EventAsValue(e.raw)))
  }

  /** The rows of a batch, one per event and in order. */
  function RowsOf(events: seq<InsertableEvent>, stringify: Value -> string): (rows: seq<EventRow>)
    ensures |rows| == |events| && forall i :: 0 <= i < |events| ==> rows[i] == RowOf(events[i], stringify)
  {
    seq(|events|, i requires 0 <= i < |events| => RowOf(events[i], stringify))
  }

  /** All nine columns have `n` entries. */
  predicate HasLength(c: Columns, n: nat) {
    && |c.ids| == n && |c.timestampMs| == n && |c.types| == n && |c.names| == n
    && |c.userIds| == n && |c.sessionIds| == n && |c.propertiesJson| == n
    && |c.sessionJson| == n && |c.rawJson| == n
  }

  /** The `i`-th row of the columns, as `unnest` reassembles it. */
  function RowAt(c: Columns, i: nat): EventRow
    requires HasLength(c, |c.ids|) && i < |c.ids|
  {
    EventRow(c.ids[i], c.timestampMs[i], c.types[i], c.names[i], c.userIds[i], c.sessionIds[i],
             c.propertiesJson[i], c.sessionJson[i], c.rawJson[i])
  }

  /** `unnest($1, ..., $9)`: the columns zipped back into rows. */
  function Unnest(c: Columns): (rows: seq<EventRow>)
    requires HasLength(c, |c.ids|)
    ensures |rows| == |c.ids|
    ensures forall i :: 0 <= i < |c.ids| ==> rows[i] == RowAt(c, i)
  {
    seq(|c.ids|, i requires 0 <= i < |c.ids| => RowAt(c, i))
  }

  /** The loop of `insertBatch` that pushes one entry per event into each of
      the nine column arrays. */
  method BuildColumns(events: seq<InsertableEvent>, stringify: Value -> string) returns (c: Columns)
    ensures HasLength(c, |events|)
    ensures forall i :: 0 <= i < |events| ==>
              && c.ids[i] == events[i].id
              && c.timestampMs[i] == events[i].timestampMs
              && c.types[i] == events[i].eventType
              && c.names[i] == events[i].name
              && c.userIds[i] == events[i].userId
              && c.sessionIds[i] == events[i].sessionId
              && c.propertiesJson[i] == JsonColumn(events[i].properties, stringify)
              && c.sessionJson[i] == JsonColumn(events[i].session, stringify)
              && c.rawJson[i] == stringify(EventAsValue(events[i].raw))
  {
    var ids: seq<string> := [];
    var timestampMs: seq<int> := [];
    var types: seq<Option<string>> := [];
    var names: seq<Option<string>> := [];
    var userIds: seq<Option<string>> := [];
    var sessionIds: seq<Option<string>> := [];
    var propertiesJson: seq<Option<string>> := [];
    var sessionJson: seq<Option<string>> := [];
    var rawJson: seq<string> := [];
    for k := 0 to |events|
      invariant HasLength(Columns(ids, timestampMs, types, names, userIds, sessionIds,
                                  propertiesJson, sessionJson, rawJson), k)
      invariant forall i :: 0 <= i < k ==>
                  && ids[i] == events[i].id
                  && timestampMs[i] == events[i].timestampMs
                  && types[i] == events[i].eventType
                  && names[i] == events[i].name
                  && userIds[i] == events[i].userId
                  && sessionIds[i] == events[i].sessionId
                  && propertiesJson[i] == JsonColumn(events[i].properties, stringify)
                  && sessionJson[i] == JsonColumn(events[i].session, stringify)
                  && rawJson[i] == stringify(EventAsValue(events[i].raw))
    {
      var e := events[k];
      ids := ids + [e.id];
      timestampMs := timestampMs + [e.timestampMs];
      types := types + [e.eventType];
      names := names + [e.name];
      userIds := userIds + [e.userId];
      sessionIds := sessionIds + [e.sessionId];
      propertiesJson := propertiesJson + [if IsNullish(e.properties) then None else Some(stringify(e.properties))];
      sessionJson := sessionJson + [if IsNullish(e.session) then None else Some(stringify(e.session))];
      rawJson := rawJson + [stringify(EventAsValue(e.raw))];
    }
    c := Columns(ids, timestampMs, types, names, userIds, sessionIds, propertiesJson, sessionJson, rawJson);
  }

  /** `ON CONFLICT (id) DO NOTHING` for one row. */
  function InsertRow(table: map<string, EventRow>, row: EventRow): map<string, EventRow> {
    if row.id in table then table else table[row.id := row]
  }

  /** The table after inserting `rows` in order, each only if its id is absent
      (a later duplicate inside the batch conflicts with the earlier one). */
  function InsertAll(table: map<string, EventRow>, rows: seq<EventRow>): map<string, EventRow>
    decreases |rows|
  {
    if rows == [] then table else InsertAll(InsertRow(table, rows[0]), rows[1..])
  }

  /** How many ids `after` has that `before` lacks: the count `insertBatch` returns. */
  function NewRowCount(before: map<string, EventRow>, after: map<string, EventRow>): nat {
    |after.Keys - before.Keys|
  }

  /** The ids of a batch. */
  function IdsOf(rows: seq<EventRow>): set<string> {
    set i | 0 <= i < |rows| :: rows[i].id
  }

  /** Rows already stored are never changed or removed. */
  lemma {:induction false} InsertAllKeepsExisting(table: map<string, EventRow>, rows: seq<EventRow>)
    ensures table.Keys <= InsertAll(table, rows).Keys
    ensures forall k :: k in table ==> InsertAll(table, rows)[k] == table[k]
    decreases |rows|
  {
    if rows != [] {
      InsertAllKeepsExisting(InsertRow(table, rows[0]), rows[1..]);
    }
  }

  /** Afterwards every id of the batch is present, and nothing else was added. */
  lemma {:induction false} InsertAllKeys(table: map<string, EventRow>, rows: seq<EventRow>)
    ensures InsertAll(table, rows).Keys == table.Keys + IdsOf(rows)
    decreases |rows|
  {
    if rows != [] {
      InsertAllKeys(InsertRow(table, rows[0]), rows[1..]);
      assert IdsOf(rows) == {rows[0].id} + IdsOf(rows[1..]) by {
        forall k | k in IdsOf(rows) ensures k in {rows[0].id} + IdsOf(rows[1..]) {
          var i :| 0 <= i < |rows| && rows[i].id == k;
          if i > 0 { assert rows[1..][i - 1].id == k; }
        }
        forall k | k in IdsOf(rows[1..]) ensures k in IdsOf(rows) {
          var i :| 0 <= i < |rows[1..]| && rows[1..][i].id == k;
          assert rows[i + 1].id == k;
        }
      }
    }
  }

  /** A newly stored id holds the first row of the batch with that id. */
  lemma {:induction false} InsertAllNewRowIsFirst(table: map<string, EventRow>, rows: seq<EventRow>, k: string)
    requires k !in table && k in InsertAll(table, rows)
    ensures exists i :: 0 <= i < |rows| && rows[i] == InsertAll(table, rows)[k]
                        && rows[i].id == k && forall j :: 0 <= j < i ==> rows[j].id != k
    decreases |rows|
  {
    if rows == [] {
    } else if rows[0].id == k {
      InsertAllKeepsExisting(InsertRow(table, rows[0]), rows[1..]);
      assert rows[0] == InsertAll(table, rows)[k];
    } else {
      InsertAllNewRowIsFirst(InsertRow(table, rows[0]), rows[1..], k);
      var i :| 0 <= i < |rows[1..]| && rows[1..][i] == InsertAll(table, rows)[k]
               && rows[1..][i].id == k && forall j :: 0 <= j < i ==> rows[1..][j].id != k;
      assert rows[i + 1] == InsertAll(table, rows)[k];
      forall j | 0 <= j < i + 1 ensures rows[j].id != k {
        if j > 0 { assert rows[1..][j - 1] == rows[j]; }
      }
    }
  }

  /** Inserting a batch whose ids are all present changes nothing. */
  lemma {:induction false} InsertAllPresentIsNoop(table: map<string, EventRow>, rows: seq<EventRow>)
    requires forall i :: 0 <= i < |rows| ==> rows[i].id in table
    ensures InsertAll(table, rows) == table
  {
    if rows != [] {
      InsertAllPresentIsNoop(table, rows[1..]);
    }
  }

  /** Inserting the same batch twice leaves the table as after the first call,
      and the second call adds no row. */
  lemma InsertAllIdempotent(table: map<string, EventRow>, rows: seq<EventRow>)
    ensures InsertAll(InsertAll(table, rows), rows) == InsertAll(table, rows)
    ensures |InsertAll(InsertAll(table, rows), rows).Keys - InsertAll(table, rows).Keys| == 0
  {
    InsertAllKeys(table, rows);
    assert forall i :: 0 <= i < |rows| ==> rows[i].id in IdsOf(rows);
    InsertAllPresentIsNoop(InsertAll(table, rows), rows);
  }

  /** A batch of `n` rows adds at most `n` ids. */
  lemma {:induction false} InsertAllCountBound(table: map<string, EventRow>, rows: seq<EventRow>)
    ensures |InsertAll(table, rows).Keys - table.Keys| <= |rows|
    decreases |rows|
  {
    if rows != [] {
      var t1 := InsertRow(table, rows[0]);
      var r := InsertAll(t1, rows[1..]);
      InsertAllCountBound(t1, rows[1..]);
      assert r.Keys - table.Keys <= (r.Keys - t1.Keys) + {rows[0].id};
      SubsetCardinality(r.Keys - table.Keys, (r.Keys - t1.Keys) + {rows[0].id});
    }
  }

  lemma {:induction false} SubsetCardinality<T>(a: set<T>, b: set<T>)
    requires a <= b
    ensures |a| <= |b|
  {
    if a != {} {
      var x :| x in a;
      SubsetCardinality(a - {x}, b - {x});
    }
  }

  /** The table as an object that `insertBatch` writes. */
  class EventTable {
    var rows: map<string, EventRow>

    constructor (initial: map<string, EventRow>)
      ensures rows == initial
    {
      rows := initial;
    }

    /** `insertBatch`: nothing happens for an empty batch; otherwise the
        columns are built, zipped back into rows and inserted with
        `ON CONFLICT (id) DO NOTHING`, and the count of new rows is returned. */
    method InsertBatch(events: seq<InsertableEvent>, stringify: Value -> string) returns (inserted: nat)
      modifies this
      ensures rows == InsertAll(old(rows), RowsOf(events, stringify))
      ensures inserted == NewRowCount(old(rows), rows)
      ensures events == [] ==> rows == old(rows) && inserted == 0
    {
      if |events| == 0 {
        return 0;
      }
      var columns := BuildColumns(events, stringify);
      var batch := Unnest(columns);
      assert batch == RowsOf(events, stringify);
      var before := rows;
      rows := InsertAll(rows, batch);
      inserted := NewRowCount(before, rows);
    }

    /** `ROLLBACK` of a transaction that began when the table was `snapshot`. */
    method Rollback(snapshot: map<string, EventRow>)
      modifies this
      ensures rows == snapshot
    {
      rows := snapshot;
    }
  }
}
