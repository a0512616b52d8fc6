/**
  The events table of the SQLite database: init_db creates it if it does not
  exist, store_diun_payload inserts one row, and the query of
  get_homer_messages reads every row ordered by timestamp, newest first.
  The table is an in-memory sequence of rows; the AUTOINCREMENT counter and
  the clock behind DEFAULT CURRENT_TIMESTAMP are fields of the database.
*/
module EventLog {
  import opened Wrappers
  import opened Payload

  /** Why an operation on the table failed: it has not been created. */
  datatype StoreError = NoSuchTable

  /** One row of the events table. */
  datatype Row = Row(
    id: nat,
    image: string,
    status: string,
    platform: Option<string>,
    tag: Option<string>,
    message: string,
    timestamp: nat)

  /** Newest first: timestamps never increase along the sequence. */
  ghost predicate SortedDesc(s: seq<Row>) {
    forall i, j :: 0 <= i < j < |s| ==> s[i].timestamp >= s[j].timestamp
  }

  /** Puts x in front of the first row that is not newer than it. */
  function Insert(x: Row, s: seq<Row>): (r: seq<Row>)
    ensures |r| == |s| + 1
    ensures multiset(r) == multiset(s) + multiset{x}
  {
    if s == [] || s[0].timestamp <= x.timestamp then
      [x] + s
    else
      assert s == [s[0]] + s[1..];
      [s[0]] + Insert(x, s[1..])
  }

  /** Inserting into a newest-first sequence keeps it newest-first. */
  lemma {:induction false} InsertSorted(x: Row, s: seq<Row>)
    requires SortedDesc(s)
    ensures SortedDesc(Insert(x, s))
  {
    if s != [] && s[0].timestamp > x.timestamp {
      var rest := Insert(x, s[1..]);
      InsertSorted(x, s[1..]);
      forall k | 0 <= k < |rest| ensures s[0].timestamp >= rest[k].timestamp {
        assert rest[k] in multiset(s[1..]) + multiset{x} by { assert rest[k] in multiset(rest); }
        if rest[k] != x {
          var m :| 0 <= m < |s[1..]| && s[1..][m] == rest[k];
          assert s[m + 1] == rest[k];
        }
      }
      assert Insert(x, s) == [s[0]] + rest;
    }
  }

  /** ORDER BY timestamp DESC: a newest-first permutation of the rows. The
      order of rows with equal timestamps is left open by the query; this
      is one admissible order. */
  function SortByTimestampDesc(rows: seq<Row>): (r: seq<Row>)
    ensures |r| == |rows|
    ensures multiset(r) == multiset(rows)
    ensures SortedDesc(r)
  {
    if rows == [] then []
    else
      assert rows == [rows[0]] + rows[1..];
      var sorted := SortByTimestampDesc(rows[1..]);
      InsertSorted(rows[0], sorted);
      Insert(rows[0], sorted)
  }

  /** A row stored with the newest timestamp heads the listing. */
  lemma NewestFirst(rows: seq<Row>, row: Row)
    requires forall i :: 0 <= i < |rows| ==> rows[i].timestamp <= row.timestamp
    ensures var listing := SortByTimestampDesc(rows + [row]);
      |listing| == |rows| + 1 && row in listing && listing[0].timestamp == row.timestamp
  {
    var listing := SortByTimestampDesc(rows + [row]);
    assert row in multiset(rows + [row]);
    assert row in listing;
    assert |listing| == |rows + [row]| by {
      assert |multiset(listing)| == |multiset(rows + [row])|;
    }
    var j :| 0 <= j < |listing| && listing[j] == row;
    assert listing[0].timestamp >= row.timestamp;
    assert listing[0] in multiset(rows + [row]);
    assert listing[0] in rows + [row];
  }

  class Database {
    /** Whether CREATE TABLE has run. */
    var tableExists: bool
    /** The rows, in insertion order. */
    var rows: seq<Row>
    /** The AUTOINCREMENT counter: the id the next row receives. */
    var nextId: nat
    /** The store-side clock that CURRENT_TIMESTAMP reads. */
    var clock: nat

    /** Ids rise and timestamps never fall in insertion order, every id lies
        below the counter, and no timestamp is ahead of the clock. */
    ghost predicate Valid()
      reads this
    {
      && nextId >= 1
      && (!tableExists ==> rows == [] && nextId == 1)
      && (forall i :: 0 <= i < |rows| ==> 1 <= rows[i].id < nextId && rows[i].timestamp <= clock)
      && (forall i, j :: 0 <= i < j < |rows| ==>
            rows[i].id < rows[j].id && rows[i].timestamp <= rows[j].timestamp)
    }

    /** A database file in which the table has not been created yet. */
    constructor(now: nat)
      ensures Valid()
      ensures !tableExists && rows == [] && nextId == 1 && clock == now
    {
      tableExists := false;
      rows := [];
      nextId := 1;
      clock := now;
    }

    /** init_db: CREATE TABLE IF NOT EXISTS. Rows and counter are untouched,
        so running it on an existing table changes nothing. */
    method InitDb()
      requires Valid()
      modifies this
      ensures Valid()
      ensures tableExists
      ensures rows == old(rows) && nextId == old(nextId) && clock == old(clock)
      ensures old(tableExists) ==> unchanged(this)
    {
      tableExists := true;
    }

    /** store_diun_payload: INSERT one row carrying the payload's five named
        fields, with the next id and the clock's time after `elapsed` ticks.
        Without the table the insert fails and nothing is stored. */
    method StoreDiunPayload(p: DiunPayload, elapsed: nat) returns (stored: bool)
      requires Valid()
      modifies this
      ensures Valid()
      ensures stored == old(tableExists) && tableExists == old(tableExists)
      ensures clock == old(clock) + elapsed
      ensures !stored ==> rows == old(rows) && nextId == old(nextId)
      ensures stored ==> nextId == old(nextId) + 1
      ensures stored ==> rows == old(rows) + [Row(old(nextId), p.image, p.status, p.platform, p.tag, p.message, clock)]
      ensures stored ==> forall i :: 0 <= i < |old(rows)| ==>
        old(rows)[i].id < rows[|rows| - 1].id && old(rows)[i].timestamp <= rows[|rows| - 1].timestamp
      ensures stored ==> rows[|rows| - 1] in Select() && Select()[0].timestamp == clock
    {
      clock := clock + elapsed;
      if !tableExists {
        return false;
      }
      var row := Row(nextId, p.image, p.status, p.platform, p.tag, p.message, clock);
      NewestFirst(rows, row);
      rows := rows + [row];
      nextId := nextId + 1;
      stored := true;
    }

    /** SELECT ... FROM events ORDER BY timestamp DESC. */
    function Select(): (r: seq<Row>)
      reads this
      ensures |r| == |rows|
      ensures multiset(r) == multiset(rows)
      ensures SortedDesc(r)
    {
      SortByTimestampDesc(rows)
    }
  }
}
