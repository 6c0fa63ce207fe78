/**
  The SQLite `streams` table of the older standalone datastore, keyed by video id:
  single and bulk inserts, lookup, update, delete and the listing newest first.
  The database's own failures are oracles: `fault` is the error a statement
  reports, if any.
 */
module SqliteStore {
  import opened Wrappers
  import TimeAgo
  import LegacyStreamDomain

  type Stream = LegacyStreamDomain.Stream

  /** The columns of a stored stream besides its id; the timestamp column holds the date read at insert time. */
  datatype Row = Row(title: string, viewCount: string, streamedDate: string, streamTimestamp: int,
                     duration: string, closedCaptionsSummary: string)

  datatype InsertFailReason = DuplicateEntry | OtherError(msg: string)

  datatype FailedInsert = FailedInsert(videoId: string, reason: InsertFailReason)

  datatype BulkInsertResult = BulkInsertResult(successfulInserts: nat, failedInserts: seq<FailedInsert>)

  const TimestampFailed := "Failed to get timestamp"
  const BeginFailed := "Failed to start transaction"
  const CommitFailed := "Failed to commit transaction"
  const RollbackFailed := "Failed to rollback transaction"
  const GetFailed := "Failed to get stream"
  const UpdateFailed := "Failed to update stream"
  const DeleteFailed := "Failed to delete stream"
  const ListFailed := "Failed to list streams"
  /** SQLite's message for a second row with the same primary key. */
  const UniqueViolation := "UNIQUE constraint failed: streams.video_id"

  function RowOf(s: Stream, timestamp: int): Row {
    Row(s.title, s.viewCount, s.streamedDate, timestamp, s.duration, s.closedCaptionsSummary)
  }

  /** The stream a row reads back as. */
  function StreamOf(id: string, row: Row): (s: Stream)
    ensures s.videoId == id
  {
    LegacyStreamDomain.Stream(id, row.title, row.viewCount, row.streamedDate, row.duration, row.closedCaptionsSummary)
  }

  /** A row that reads back as the stream it was made from. */
  lemma RowRoundTrip(s: Stream, timestamp: int)
    ensures StreamOf(s.videoId, RowOf(s, timestamp)) == s
    ensures RowOf(s, timestamp).streamTimestamp == timestamp
  {
  }

  /** The outcome of a statement and the table after it. */
  datatype Outcome<T> = Outcome(result: Result<T, string>, rows: map<string, Row>)

  /**
    `insert_stream`: the date is read before the statement runs; a taken id violates
    the primary key; `fault` is any other error of the statement.
   */
  function Insert(rows: map<string, Row>, s: Stream, timestamp: Option<int>, fault: Option<string>): Outcome<()> {
    if timestamp.None? then Outcome(Err(TimestampFailed), rows)
    else if s.videoId in rows then Outcome(Err(UniqueViolation), rows)
    else if fault.Some? then Outcome(Err(fault.value), rows)
    else Outcome(Ok(()), rows[s.videoId := RowOf(s, timestamp.value)])
  }

  /** `get_stream`. */
  function Get(rows: map<string, Row>, id: string, fault: Option<string>): Result<Option<Stream>, string> {
    if fault.Some? then Err(GetFailed)
    else if id in rows then Ok(Some(StreamOf(id, rows[id])))
    else Ok(None)
  }

  /** `update_stream`: title, view count, duration and summary of the row with the id; no row, no change. */
  function Update(rows: map<string, Row>, s: Stream, fault: Option<string>): Outcome<()> {
    if fault.Some? then Outcome(Err(UpdateFailed), rows)
    else if s.videoId !in rows then Outcome(Ok(()), rows)
    else
      var prior := rows[s.videoId];
      Outcome(Ok(()), rows[s.videoId := prior.(title := s.title, viewCount := s.viewCount, duration := s.duration,
                                             closedCaptionsSummary := s.closedCaptionsSummary)])
  }

  /** `delete_stream`: removes the row with the id, if there is one. */
  function Delete(rows: map<string, Row>, id: string, fault: Option<string>): Outcome<()> {
    if fault.Some? then Outcome(Err(DeleteFailed), rows)
    else Outcome(Ok(()), rows - {id})
  }

  /** The table inside the transaction, with the counts of the bulk insert so far. */
  datatype Batch = Batch(rows: map<string, Row>, successes: nat, failures: seq<FailedInsert>)

  /**
    `bulk_insert_streams_tx`: each stream in order; a date that does not parse ends the
    whole batch with an error; a taken id or another fault is a failure and the loop goes on.
   */
  function InsertAllTx(rows: map<string, Row>, streams: seq<Stream>, stamp: Stream -> Option<int>,
                       fault: nat -> Option<string>): Result<Batch, string>
    decreases |streams|
  {
    if streams == [] then Ok(Batch(rows, 0, []))
    else
      var n := |streams| - 1;
      match InsertAllTx(rows, streams[..n], stamp, fault)
      case Err(e) => Err(e)
      case Ok(b) =>
        var s := streams[n];
        if stamp(s).None? then Err(TimestampFailed)
        else if s.videoId in b.rows then Ok(b.(failures := b.failures + [FailedInsert(s.videoId, DuplicateEntry)]))
        else if fault(n).Some? then Ok(b.(failures := b.failures + [FailedInsert(s.videoId, OtherError(fault(n).value))]))
        else Ok(b.(rows := b.rows[s.videoId := RowOf(s, stamp(s).value)], successes := b.successes + 1))
  }

  /**
    `bulk_insert_streams`: begin, insert in the transaction, then commit on success and
    roll back on error. Whatever fails, the table is left as it was.
   */
  function BulkInsert(rows: map<string, Row>, streams: seq<Stream>, stamp: Stream -> Option<int>,
                      begin: bool, fault: nat -> Option<string>, commit: bool, rollback: bool): Outcome<BulkInsertResult>
  {
    if !begin then Outcome(Err(BeginFailed), rows)
    else
      match InsertAllTx(rows, streams, stamp, fault)
      case Ok(b) =>
        if commit then Outcome(Ok(BulkInsertResult(b.successes, b.failures)), b.rows)
        else Outcome(Err(CommitFailed), rows)
      case Err(e) => Outcome(Err(if rollback then e else RollbackFailed), rows)
  }

  /** On `Ok` every stream is counted once and each success adds one row; the old rows stay. */
  lemma {:induction false} InsertAllTxCounts(rows: map<string, Row>, streams: seq<Stream>, stamp: Stream -> Option<int>,
                                             fault: nat -> Option<string>)
    ensures var r := InsertAllTx(rows, streams, stamp, fault);
      r.Ok? ==>
        && r.value.successes + |r.value.failures| == |streams|
        && |r.value.rows| == |rows| + r.value.successes
        && (forall id :: id in rows ==> id in r.value.rows && r.value.rows[id] == rows[id])
    decreases |streams|
  {
    if streams != [] {
      var n := |streams| - 1;
      InsertAllTxCounts(rows, streams[..n], stamp, fault);
    }
  }

  /** The batch fails exactly when some stream's date does not parse. */
  lemma {:induction false} InsertAllTxErrIffBadDate(rows: map<string, Row>, streams: seq<Stream>, stamp: Stream -> Option<int>,
                                                    fault: nat -> Option<string>)
    ensures InsertAllTx(rows, streams, stamp, fault).Err? <==> exists k :: 0 <= k < |streams| && stamp(streams[k]).None?
    ensures InsertAllTx(rows, streams, stamp, fault).Err? ==> InsertAllTx(rows, streams, stamp, fault).error == TimestampFailed
    decreases |streams|
  {
    if streams != [] {
      var n := |streams| - 1;
      InsertAllTxErrIffBadDate(rows, streams[..n], stamp, fault);
      if exists k :: 0 <= k < n && stamp(streams[..n][k]).None? {
        var k :| 0 <= k < n && stamp(streams[..n][k]).None?;
        assert stamp(streams[k]).None?;
      }
      if exists k :: 0 <= k < |streams| && stamp(streams[k]).None? {
        var k :| 0 <= k < |streams| && stamp(streams[k]).None?;
        if k < n {
          assert stamp(streams[..n][k]).None?;
        }
      }
    }
  }

  /** An unparseable date anywhere in the batch stores nothing of it. */
  lemma BadDateStoresNothing(rows: map<string, Row>, streams: seq<Stream>, stamp: Stream -> Option<int>,
                             begin: bool, fault: nat -> Option<string>, commit: bool, rollback: bool, k: nat)
    requires k < |streams| && stamp(streams[k]).None?
    ensures var o := BulkInsert(rows, streams, stamp, begin, fault, commit, rollback);
      o.result.Err? && o.rows == rows
  {
    InsertAllTxErrIffBadDate(rows, streams, stamp, fault);
  }

  /** An `Ok` result accounts for every stream; any error leaves the table as it was. */
  lemma BulkInsertSpec(rows: map<string, Row>, streams: seq<Stream>, stamp: Stream -> Option<int>,
                       begin: bool, fault: nat -> Option<string>, commit: bool, rollback: bool)
    ensures var o := BulkInsert(rows, streams, stamp, begin, fault, commit, rollback);
      && (o.result.Ok? <==> begin && commit && forall k :: 0 <= k < |streams| ==> stamp(streams[k]).Some?)
      && (o.result.Ok? ==> o.result.value.successfulInserts + |o.result.value.failedInserts| == |streams|
                           && |o.rows| == |rows| + o.result.value.successfulInserts)
      && (o.result.Err? ==> o.rows == rows)
  {
    InsertAllTxErrIffBadDate(rows, streams, stamp, fault);
    InsertAllTxCounts(rows, streams, stamp, fault);
  }

  /** Three streams, the third repeating the first's id: two are stored and one duplicate is reported. */
  lemma DuplicateInBatch(streams: seq<Stream>, stamp: Stream -> Option<int>, fault: nat -> Option<string>)
    requires |streams| == 3 && streams[0].videoId == streams[2].videoId && streams[0].videoId != streams[1].videoId
    requires forall k :: 0 <= k < 3 ==> stamp(streams[k]).Some? && fault(k).None?
    ensures var o := BulkInsert(map[], streams, stamp, true, fault, true, true);
      && o.result == Ok(BulkInsertResult(2, [FailedInsert(streams[0].videoId, DuplicateEntry)]))
      && |o.rows| == 2
  {
    var s0, s1 := streams[0], streams[1];
    assert streams[..2][..1][..0] == [];
    assert streams[..2][..1] == [s0];
    assert InsertAllTx(map[], streams[..2][..1][..0], stamp, fault) == Ok(Batch(map[], 0, []));
    var one := map[s0.videoId := RowOf(s0, stamp(s0).value)];
    assert InsertAllTx(map[], streams[..2][..1], stamp, fault) == Ok(Batch(one, 1, []));
    var two := one[s1.videoId := RowOf(s1, stamp(s1).value)];
    assert InsertAllTx(map[], streams[..2], stamp, fault) == Ok(Batch(two, 2, []));
    assert streams[..|streams| - 1] == streams[..2];
    assert streams[2].videoId in two && stamp(streams[2]).Some?;
    var dup := FailedInsert(s0.videoId, DuplicateEntry);
    assert [] + [dup] == [dup];
    assert InsertAllTx(map[], streams, stamp, fault) == Ok(Batch(two, 2, [FailedInsert(s0.videoId, DuplicateEntry)]));
    assert |two| == 2;
  }

  /** A second insert of the same id fails and changes nothing; so does a date that does not parse. */
  lemma InsertRejects(rows: map<string, Row>, s: Stream, timestamp: Option<int>, fault: Option<string>)
    requires s.videoId in rows || timestamp.None?
    ensures Insert(rows, s, timestamp, fault).result.Err? && Insert(rows, s, timestamp, fault).rows == rows
  {
  }

  /** What is inserted reads back as itself. */
  lemma InsertThenGet(rows: map<string, Row>, s: Stream, t: int, fault: Option<string>)
    requires s.videoId !in rows && fault.None?
    ensures Get(Insert(rows, s, Some(t), None).rows, s.videoId, fault) == Ok(Some(s))
  {
  }

  /**
    An update of an existing row shows the new title, view count, duration and
    summary, keeps its date and timestamp, and leaves every other row as it was.
   */
  lemma UpdateSpec(rows: map<string, Row>, s: Stream)
    ensures var after := Update(rows, s, None).rows;
      && after.Keys == rows.Keys
      && (forall id :: id in rows && id != s.videoId ==> after[id] == rows[id])
      && (s.videoId in rows ==>
            && Get(after, s.videoId, None) == Ok(Some(s.(streamedDate := rows[s.videoId].streamedDate)))
            && after[s.videoId].streamTimestamp == rows[s.videoId].streamTimestamp)
  {
  }

  /** Deleting a present id removes exactly that row; deleting a missing id succeeds and changes nothing. */
  lemma DeleteSpec(rows: map<string, Row>, id: string)
    ensures var o := Delete(rows, id, None);
      && o.result.Ok?
      && Get(o.rows, id, None) == Ok(None)
      && (id in rows ==> |o.rows| == |rows| - 1)
      && (id !in rows ==> o.rows == rows)
      && (forall k :: k in rows && k != id ==> k in o.rows && o.rows[k] == rows[k])
  {
    if id !in rows {
      assert rows - {id} == rows;
    }
  }

  /** The newest-first order of `list_streams`, by the timestamp column. */
  predicate NewestFirst(rows: map<string, Row>, ids: seq<string>)
    requires forall i :: 0 <= i < |ids| ==> ids[i] in rows
  {
    forall i, j :: 0 <= i < j < |ids| ==> rows[ids[i]].streamTimestamp >= rows[ids[j]].streamTimestamp
  }

  /** A non-empty set of ids holds one whose row is at least as new as every other's. */
  lemma {:induction false} NewestExists(rows: map<string, Row>, ids: set<string>)
    requires ids != {} && ids <= rows.Keys
    ensures exists m :: m in ids && forall k :: k in ids ==> rows[k].streamTimestamp <= rows[m].streamTimestamp
    decreases |ids|
  {
    var x :| x in ids;
    var rest := ids - {x};
    if rest == {} {
      assert ids == {x};
    } else {
      NewestExists(rows, rest);
      var m :| m in rest && forall k :: k in rest ==> rows[k].streamTimestamp <= rows[m].streamTimestamp;
      if rows[x].streamTimestamp <= rows[m].streamTimestamp {
        assert forall k :: k in ids ==> rows[k].streamTimestamp <= rows[m].streamTimestamp;
      } else {
        assert forall k :: k in ids ==> rows[k].streamTimestamp <= rows[x].streamTimestamp;
      }
    }
  }

  /** The table of the datastore. */
  class DataStore {
    var rows: map<string, Row>

    constructor ()
      ensures rows == map[]
    {
      rows := map[];
    }

    /** `insert_stream`. */
    method InsertStream(s: Stream, now: int, fault: Option<string>) returns (r: Result<(), string>)
      requires TimeAgo.AmountFits(s.streamedDate)
      modifies this
      ensures Outcome(r, rows) == Insert(old(rows), s, s.TimestampFromTimeAgo(now), fault)
    {
      var timestamp := s.TimestampFromTimeAgo(now);
      if timestamp.None? {
        return Err(TimestampFailed);
      }
      if s.videoId in rows {
        return Err(UniqueViolation);
      }
      if fault.Some? {
        return Err(fault.value);
      }
      rows := rows[s.videoId := RowOf(s, timestamp.value)];
      r := Ok(());
    }

    /** `get_stream`. */
    method GetStream(id: string, fault: Option<string>) returns (r: Result<Option<Stream>, string>)
      ensures r == Get(rows, id, fault)
    {
      if fault.Some? {
        return Err(GetFailed);
      }
      if id in rows {
        r := Ok(Some(StreamOf(id, rows[id])));
      } else {
        r := Ok(None);
      }
    }

    /** `stream_exists`: whether `get_stream` finds a row. */
    method StreamExists(id: string, fault: Option<string>) returns (r: Result<bool, string>)
      ensures r.Err? <==> Get(rows, id, fault).Err?
      ensures r.Ok? ==> (r.value <==> Get(rows, id, fault).value.Some?)
      ensures r.Ok? ==> (r.value <==> id in rows)
    {
      var existing := GetStream(id, fault);
      if existing.Err? {
        return Err(existing.error);
      }
      r := Ok(existing.value.Some?);
    }

    /** `update_stream`. */
    method UpdateStream(s: Stream, fault: Option<string>) returns (r: Result<(), string>)
      modifies this
      ensures Outcome(r, rows) == Update(old(rows), s, fault)
    {
      if fault.Some? {
        return Err(UpdateFailed);
      }
      if s.videoId in rows {
        var prior := rows[s.videoId];
        rows := rows[s.videoId := prior.(title := s.title, viewCount := s.viewCount, duration := s.duration,
                                       closedCaptionsSummary := s.closedCaptionsSummary)];
      }
      r := Ok(());
    }

    /** `delete_stream`. */
    method DeleteStream(id: string, fault: Option<string>) returns (r: Result<(), string>)
      modifies this
      ensures Outcome(r, rows) == Delete(old(rows), id, fault)
    {
      if fault.Some? {
        return Err(DeleteFailed);
      }
      rows := rows - {id};
      r := Ok(());
    }

    /** `list_streams`: every row once, newest first. */
    method ListStreams(fault: Option<string>) returns (r: Result<seq<Stream>, string>)
      ensures r.Err? <==> fault.Some?
      ensures r.Ok? ==> Listing(rows, Ids(r.value))
      ensures r.Ok? ==> forall i :: 0 <= i < |r.value| ==> r.value[i] == StreamOf(r.value[i].videoId, rows[r.value[i].videoId])
    {
      if fault.Some? {
        return Err(ListFailed);
      }
      var ids := OrderNewestFirst(rows);
      var out: seq<Stream> := [];
      for i := 0 to |ids|
        invariant |out| == i
        invariant forall k :: 0 <= k < i ==> out[k] == StreamOf(ids[k], rows[ids[k]])
      {
        out := out + [StreamOf(ids[i], rows[ids[i]])];
      }
      assert Ids(out) == ids;
      r := Ok(out);
    }
  }

  /** The video ids of a list of streams. */
  function Ids(streams: seq<Stream>): (ids: seq<string>)
    ensures |ids| == |streams| && forall i :: 0 <= i < |streams| ==> ids[i] == streams[i].videoId
  {
    seq(|streams|, i requires 0 <= i < |streams| => streams[i].videoId)
  }

  /** Every id of the table once, and nothing else, newest row first. */
  predicate Listing(rows: map<string, Row>, ids: seq<string>) {
    && |ids| == |rows|
    && (forall i :: 0 <= i < |ids| ==> ids[i] in rows)
    && (forall id :: id in rows ==> exists i :: 0 <= i < |ids| && ids[i] == id)
    && (forall i, j :: 0 <= i < j < |ids| ==> ids[i] != ids[j])
    && NewestFirst(rows, ids)
  }

  /** The ids of the table ordered by `ORDER BY stream_timestamp DESC`. */
  method OrderNewestFirst(rows: map<string, Row>) returns (ids: seq<string>)
    ensures Listing(rows, ids)
  {
    var left := rows.Keys;
    ids := [];
    while left != {}
      invariant left <= rows.Keys
      invariant forall i :: 0 <= i < |ids| ==> ids[i] in rows && ids[i] !in left
      invariant forall id :: id in rows ==> id in left || id in ids
      invariant forall i, j :: 0 <= i < j < |ids| ==> ids[i] != ids[j]
      invariant NewestFirst(rows, ids)
      invariant forall i, k :: 0 <= i < |ids| && k in left ==> rows[k].streamTimestamp <= rows[ids[i]].streamTimestamp
      decreases |left|
    {
      NewestExists(rows, left);
      var m :| m in left && forall k :: k in left ==> rows[k].streamTimestamp <= rows[m].streamTimestamp;
      ids := ids + [m];
      left := left - {m};
    }
    IdsCoverKeys(rows, ids);
  }

  /** A duplicate-free listing of exactly the table's keys is as long as the table. */
  lemma IdsCoverKeys(rows: map<string, Row>, ids: seq<string>)
    requires forall i :: 0 <= i < |ids| ==> ids[i] in rows
    requires forall id :: id in rows ==> id in ids
    requires forall i, j :: 0 <= i < j < |ids| ==> ids[i] != ids[j]
    ensures |ids| == |rows|
  {
    var s := set i | 0 <= i < |ids| :: ids[i];
    assert s == rows.Keys;
    DistinctCard(ids);
  }

  lemma {:induction false} DistinctCard(ids: seq<string>)
    requires forall i, j :: 0 <= i < j < |ids| ==> ids[i] != ids[j]
    ensures |set i | 0 <= i < |ids| :: ids[i]| == |ids|
    decreases |ids|
  {
    if ids != [] {
      var init := ids[..|ids| - 1];
      DistinctCard(init);
      var s := set i | 0 <= i < |init| :: init[i];
      assert (set i | 0 <= i < |ids| :: ids[i]) == s + {ids[|ids| - 1]};
      assert ids[|ids| - 1] !in s;
    }
  }
}
