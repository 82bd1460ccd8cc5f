/**
 * The reference-data sync: every `PART` row fetched from the SQL source is
 * upserted into `parts` by stock code, in the order fetched. Any exception
 * stops the remaining rows and is swallowed; the SQL connection, once open,
 * is closed on every path.
 */
module Sync {
  import opened Common
  import opened Documents

  /** One row of `SELECT ID, DESCRIPTION FROM PART`. */
  datatype Row = Row(id: string, description: Option<string>)

  /**
   * What the SQL side does: the connection fails, the query fails, or the
   * rows are fetched and, possibly, the upsert of the row at `failAt` raises.
   */
  datatype SqlSource =
    | ConnectFails
    | QueryFails
    | Fetched(rows: seq<Row>, failAt: Option<nat>)

  datatype ConnState = NoConnection | Open | Closed

  /** `parts` after upserting `rows` in order. */
  function SyncFold(parts: map<string, Part>, rows: seq<Row>): map<string, Part> {
    if rows == [] then parts
    else
      var last := rows[|rows| - 1];
      SetPartDescriptions(SyncFold(parts, rows[..|rows| - 1]), last.id, last.description)
  }

  /** The last row with stock code `k`, which is the one whose description wins. */
  function LastRow(rows: seq<Row>, k: string): (r: Option<nat>)
    ensures r.Some? ==> r.value < |rows| && rows[r.value].id == k
    ensures r.Some? ==> forall j :: r.value < j < |rows| ==> rows[j].id != k
    ensures r.None? <==> forall j :: 0 <= j < |rows| ==> rows[j].id != k
  {
    if rows == [] then None
    else if rows[|rows| - 1].id == k then Some(|rows| - 1)
    else LastRow(rows[..|rows| - 1], k)
  }

  /**
   * What the sync leaves under one stock code: an untouched part when no
   * row has that code; otherwise the last such row's description in both
   * description fields, every other stored field kept.
   */
  lemma {:induction false} SyncFoldAt(parts: map<string, Part>, rows: seq<Row>, k: string)
    ensures k in SyncFold(parts, rows) <==> k in parts || LastRow(rows, k).Some?
    ensures LastRow(rows, k).None? && k in parts ==> SyncFold(parts, rows)[k] == parts[k]
    ensures LastRow(rows, k).Some? ==>
      var d := rows[LastRow(rows, k).value].description;
      SyncFold(parts, rows)[k] == Part(d, d, if k in parts then parts[k].otherFields else map[])
  {
    if rows != [] {
      SyncFoldAt(parts, rows[..|rows| - 1], k);
    }
  }

  /** A part whose stock code no row carries is exactly as it was. */
  lemma SyncLeavesOthers(parts: map<string, Part>, rows: seq<Row>, k: string)
    requires forall j :: 0 <= j < |rows| ==> rows[j].id != k
    ensures k in SyncFold(parts, rows) <==> k in parts
    ensures k in parts ==> SyncFold(parts, rows)[k] == parts[k]
  {
    SyncFoldAt(parts, rows, k);
  }

  /** With duplicate stock codes, the last row's description is the one stored. */
  lemma SyncLastWriterWins(parts: map<string, Part>, rows: seq<Row>, i: nat)
    requires i < |rows|
    requires forall j :: i < j < |rows| ==> rows[j].id != rows[i].id
    ensures rows[i].id in SyncFold(parts, rows)
    ensures SyncFold(parts, rows)[rows[i].id].description == rows[i].description
    ensures SyncFold(parts, rows)[rows[i].id].longDescription == rows[i].description
  {
    SyncFoldAt(parts, rows, rows[i].id);
  }

  /** Running the sync twice over the same rows leaves what running it once did. */
  lemma SyncIdempotent(parts: map<string, Part>, rows: seq<Row>)
    ensures SyncFold(SyncFold(parts, rows), rows) == SyncFold(parts, rows)
  {
    var once := SyncFold(parts, rows);
    var twice := SyncFold(once, rows);
    forall k | true
      ensures k in twice <==> k in once
      ensures k in once ==> twice[k] == once[k]
    {
      SyncFoldAt(parts, rows, k);
      SyncFoldAt(once, rows, k);
    }
    assert twice.Keys == once.Keys;
  }

  /** The number of rows upserted before the one at `failAt` raises, or all of them. */
  function RowsBeforeFailure(rows: seq<Row>, failAt: Option<nat>): (stop: nat)
    ensures stop <= |rows|
    ensures stop < |rows| <==> failAt.Some? && failAt.value < |rows|
    ensures failAt.Some? && failAt.value < |rows| ==> stop == failAt.value
    ensures !(failAt.Some? && failAt.value < |rows|) ==> stop == |rows|
  {
    if failAt.Some? && failAt.value < |rows| then failAt.value else |rows|
  }

  /** The loop over the fetched rows; the upsert of the row at `failAt` raises and ends it. */
  method UpsertRows(db: Db, rows: seq<Row>, failAt: Option<nat>) returns (synced: nat)
    requires db.Valid()
    modifies db`parts
    ensures db.Valid()
    ensures synced == RowsBeforeFailure(rows, failAt)
    ensures db.parts == SyncFold(old(db.parts), rows[..synced])
  {
    synced := 0;
    var i := 0;
    while i < |rows|
      invariant 0 <= i <= |rows| && synced == i
      invariant forall j :: 0 <= j < i ==> failAt != Some(j)
      invariant db.Valid() && db.parts == SyncFold(old(db.parts), rows[..i])
    {
      if failAt == Some(i) {
        break;
      }
      assert rows[..i + 1][..i] == rows[..i];
      db.UpdatePart(rows[i].id, rows[i].description);
      synced := synced + 1;
      i := i + 1;
    }
  }

  /**
   * `sync_data_from_sql`. Without a Mongo configuration the connection
   * helper raises before the `try`, so the caller sees the exception;
   * every other failure is caught and logged.
   */
  method SyncDataFromSql(db: Db, mongoConfigured: bool, source: SqlSource)
    returns (raised: bool, synced: nat, conn: ConnState)
    requires db.Valid()
    modifies db`parts
    ensures db.Valid()
    ensures raised <==> !mongoConfigured
    ensures conn != Open
    ensures !mongoConfigured || source.ConnectFails? || source.QueryFails? ==> db.parts == old(db.parts) && synced == 0
    ensures mongoConfigured ==> (conn == Closed <==> !source.ConnectFails?)
    ensures mongoConfigured && source.Fetched? ==>
      var stop := RowsBeforeFailure(source.rows, source.failAt);
      synced == stop && db.parts == SyncFold(old(db.parts), source.rows[..stop])
  {
    synced := 0;
    conn := NoConnection;
    if !mongoConfigured {
      return true, 0, conn;
    }
    raised := false;
    if !source.ConnectFails? {
      conn := Open;
      if source.Fetched? {
        synced := UpsertRows(db, source.rows, source.failAt);
      }
    }
    // `finally`: close the connection if it was opened.
    if conn == Open {
      conn := Closed;
    }
  }
}
