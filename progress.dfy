/** The `ingestion_progress` table of packages/ingestion/src/db/progress.ts:
    one row per feed name holding its resume point. The table is a map from
    name to row; every column defaults to null. */
module ProgressStore {
  import opened Wrappers

  /** A feed's resume point: the optional upper time bound, the continuation
      token and the oldest timestamp of the last committed page. */
  datatype Progress = Progress(untilMs: Option<int>, cursor: Option<string>, checkpointMs: Option<int>)

  /** A freshly inserted row: all three columns null. */
  const NO_PROGRESS := Progress(None, None, None)

  /** The table after `INSERT ... (name) ON CONFLICT (name) DO NOTHING`. */
  function EnsuredRows(rows: map<string, Progress>, name: string): (r: map<string, Progress>)
    ensures r.Keys == rows.Keys + {name}
    ensures forall n :: n in rows ==> r[n] == rows[n]
    ensures name !in rows ==> r[name] == NO_PROGRESS
  {
    if name in rows then rows else rows[name := NO_PROGRESS]
  }

  /** The row `SELECT ... WHERE name = $1 LIMIT 1` reads, or all nulls when there is none. */
  function LoadedRow(rows: map<string, Progress>, name: string): Progress {
    if name in rows then rows[name] else NO_PROGRESS
  }

  /** The table after `UPDATE ... SET until_ms, cursor, checkpoint_ms WHERE name = $1`. */
  function SavedRows(rows: map<string, Progress>, name: string, p: Progress): (r: map<string, Progress>)
    ensures r.Keys == rows.Keys
    ensures forall n :: n in rows && n != name ==> r[n] == rows[n]
    ensures name in rows ==> r[name] == p
  {
    if name in rows then rows[name := p] else rows
  }

  /** Ensuring twice is ensuring once, and an existing row is left alone. */
  lemma EnsureIdempotent(rows: map<string, Progress>, name: string)
    ensures EnsuredRows(EnsuredRows(rows, name), name) == EnsuredRows(rows, name)
    ensures name in rows ==> EnsuredRows(rows, name) == rows
  {
  }

  /** After ensuring a row, what is saved is what is loaded. */
  lemma SaveThenLoad(rows: map<string, Progress>, name: string, p: Progress)
    ensures LoadedRow(SavedRows(EnsuredRows(rows, name), name, p), name) == p
  {
  }

  /** Saving to a name that has no row changes nothing. */
  lemma SaveAbsentIsNoop(rows: map<string, Progress>, name: string, p: Progress)
    requires name !in rows
    ensures SavedRows(rows, name, p) == rows
    ensures LoadedRow(SavedRows(rows, name, p), name) == NO_PROGRESS
  {
  }

  /** The table as an object whose rows the three operations read and write. */
  class ProgressTable {
    var rows: map<string, Progress>

    constructor (initial: map<string, Progress>)
      ensures rows == initial
    {
      rows := initial;
    }

    /** `ensureProgressRow`. */
    method EnsureProgressRow(name: string)
      modifies this
      ensures rows == EnsuredRows(old(rows), name)
    {
      if name !in rows {
        rows := rows[name := NO_PROGRESS];
      }
    }

    /** `loadProgress`: the three columns, nulls kept as nulls; no row reads as all nulls. */
    method LoadProgress(name: string) returns (p: Progress)
      ensures name in rows ==> p == rows[name]
      ensures name !in rows ==> p == NO_PROGRESS
    {
      if name in rows {
        var row := rows[name];
        p := Progress(row.untilMs, row.cursor, row.checkpointMs);
      } else {
        p := NO_PROGRESS;
      }
    }

    /** `saveProgress`: overwrites the three fields of the named row, if there is one. */
    method SaveProgress(name: string, p: Progress)
      modifies this
      ensures rows == SavedRows(old(rows), name, p)
    {
      if name in rows {
        rows := rows[name := p];
      }
    }

    /** `ROLLBACK` of a transaction that began when the table was `snapshot`. */
    method Rollback(snapshot: map<string, Progress>)
      modifies this
      ensures rows == snapshot
    {
      rows := snapshot;
    }
  }
}
