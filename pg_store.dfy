/**
  The Postgres `streams` table of the datastore crate, keyed by video id, with
  its bulk insert and its existence check. The database's own failures (a
  transaction that cannot begin or commit, an insert rejected for a reason other
  than the primary key) are oracles.
 */
module PgStore {
  import opened Wrappers
  import TimeAgo
  import StreamDomain

  /** The columns of a stored stream besides its id. */
  datatype Row = Row(title: string, viewCount: string, streamTimestamp: int, duration: string,
                     summaryMd: Option<string>, timestampMd: Option<string>)

  datatype InsertFailReason = DuplicateEntry | OtherError(msg: string)

  datatype FailedInsert = FailedInsert(videoId: string, reason: InsertFailReason)

  datatype BulkInsertResult = BulkInsertResult(successfulInserts: nat, failedInserts: seq<FailedInsert>)

  const InvalidTimestamp := "Invalid timestamp"

  function RowOf(s: StreamDomain.Stream, timestamp: int): Row {
    Row(s.title, s.viewCount, timestamp, s.duration, s.summaryMd, s.timestampMd)
  }

  /** The table inside the transaction, with the counts of the bulk insert so far. */
  datatype Batch = Batch(rows: map<string, Row>, successes: nat, failures: seq<FailedInsert>)

  /**
    One stream of the bulk insert: a date that does not parse is a failure without an
    insert; an id already present violates `streams_pkey`; `fault` is any other
    error the database reports for this insert.
   */
  function InsertOne(b: Batch, s: StreamDomain.Stream, timestamp: Option<int>, fault: Option<string>): Batch {
    match timestamp
    case None => b.(failures := b.failures + [FailedInsert(s.videoId, OtherError(InvalidTimestamp))])
    case Some(t) =>
      if s.videoId in b.rows then b.(failures := b.failures + [FailedInsert(s.videoId, DuplicateEntry)])
      else if fault.Some? then b.(failures := b.failures + [FailedInsert(s.videoId, OtherError(fault.value))])
      else b.(rows := b.rows[s.videoId := RowOf(s, t)], successes := b.successes + 1)
  }

  /** Every stream's date can be read without a panic. */
  predicate AllDatesFit(streams: seq<StreamDomain.Stream>) {
    forall i :: 0 <= i < |streams| ==> TimeAgo.AmountFits(streams[i].streamedDate)
  }

  /**
    The timestamp of each stream's date at instant `now`; the guard never fails
    where the streams' dates fit, which the bulk insert requires.
   */
  function DateStamp(now: int): StreamDomain.Stream -> Option<int> {
    (s: StreamDomain.Stream) => if TimeAgo.AmountFits(s.streamedDate) then s.TimestampFromTimeAgo(now) else None
  }

  /**
    The loop of `bulk_insert_streams` over the streams, in order: `stamp` reads each
    stream's date and `fault(i)` answers for the `i`-th insert.
   */
  function InsertAll(rows: map<string, Row>, streams: seq<StreamDomain.Stream>, stamp: StreamDomain.Stream -> Option<int>,
                     fault: nat -> Option<string>): Batch
    decreases |streams|
  {
    if streams == [] then Batch(rows, 0, [])
    else
      var n := |streams| - 1;
      InsertOne(InsertAll(rows, streams[..n], stamp, fault), streams[n], stamp(streams[n]), fault(n))
  }

  /** One insert adds a row and counts a success, or records one failure with the stream's id. */
  lemma InsertOneShape(b: Batch, s: StreamDomain.Stream, timestamp: Option<int>, fault: Option<string>)
    ensures var a := InsertOne(b, s, timestamp, fault);
      || (a.failures == b.failures && a.successes == b.successes + 1 && s.videoId !in b.rows
          && a.rows == b.rows[s.videoId := RowOf(s, timestamp.value)])
      || (a.successes == b.successes && a.rows == b.rows && |a.failures| == |b.failures| + 1
          && a.failures[..|b.failures|] == b.failures && a.failures[|b.failures|].videoId == s.videoId)
  {
  }

  /**
    Every stream is counted once, as a success or a failure; each success adds one
    row; the rows that were there stay as they were.
   */
  lemma {:induction false} InsertAllCounts(rows: map<string, Row>, streams: seq<StreamDomain.Stream>,
                                           stamp: StreamDomain.Stream -> Option<int>, fault: nat -> Option<string>)
    ensures var b := InsertAll(rows, streams, stamp, fault);
      && b.successes + |b.failures| == |streams|
      && |b.rows| == |rows| + b.successes
      && (forall id :: id in rows ==> id in b.rows && b.rows[id] == rows[id])
    decreases |streams|
  {
    if streams != [] {
      var n := |streams| - 1;
      InsertAllCounts(rows, streams[..n], stamp, fault);
      InsertOneShape(InsertAll(rows, streams[..n], stamp, fault), streams[n], stamp(streams[n]), fault(n));
    }
  }

  /** The failures of the first `k` streams are the first failures of the whole batch: failures come in input order. */
  lemma {:induction false} FailuresInOrder(rows: map<string, Row>, streams: seq<StreamDomain.Stream>,
                                           stamp: StreamDomain.Stream -> Option<int>, fault: nat -> Option<string>, k: nat)
    requires k <= |streams|
    ensures var before, all := InsertAll(rows, streams[..k], stamp, fault).failures, InsertAll(rows, streams, stamp, fault).failures;
      |before| <= |all| && all[..|before|] == before
    decreases |streams|
  {
    if k == |streams| {
      assert streams[..k] == streams;
    } else {
      var n := |streams| - 1;
      assert streams[..n][..k] == streams[..k];
      FailuresInOrder(rows, streams[..n], stamp, fault, k);
      InsertOneShape(InsertAll(rows, streams[..n], stamp, fault), streams[n], stamp(streams[n]), fault(n));
    }
  }

  /** The `k`-th stream either is stored or adds exactly one failure, tagged with its own id. */
  lemma FailureTagged(rows: map<string, Row>, streams: seq<StreamDomain.Stream>,
                      stamp: StreamDomain.Stream -> Option<int>, fault: nat -> Option<string>, k: nat)
    requires k < |streams|
    ensures var before, after := InsertAll(rows, streams[..k], stamp, fault), InsertAll(rows, streams[..k + 1], stamp, fault);
      || (after.failures == before.failures && after.successes == before.successes + 1 && streams[k].videoId in after.rows)
      || (after.successes == before.successes && |after.failures| == |before.failures| + 1
          && after.failures[..|before.failures|] == before.failures
          && after.failures[|before.failures|].videoId == streams[k].videoId)
  {
    assert streams[..k + 1][..k] == streams[..k];
    InsertOneShape(InsertAll(rows, streams[..k], stamp, fault), streams[k], stamp(streams[k]), fault(k));
  }

  /** The outcome of a bulk insert and the table after it. */
  datatype BulkOutcome = BulkOutcome(result: Result<BulkInsertResult, string>, rows: map<string, Row>)

  /**
    `bulk_insert_streams`: begin a transaction (`begin` is its error, if any), insert
    the streams, commit (`commit` is its error, if any). A failed begin or commit
    leaves the table as it was.
   */
  function BulkInsert(rows: map<string, Row>, streams: seq<StreamDomain.Stream>, now: int,
                      begin: Option<string>, fault: nat -> Option<string>, commit: Option<string>): BulkOutcome
    requires AllDatesFit(streams)
  {
    if begin.Some? then BulkOutcome(Err(begin.value), rows)
    else
      var b := InsertAll(rows, streams, DateStamp(now), fault);
      if commit.Some? then BulkOutcome(Err("Failed to commit transaction"), rows)
      else BulkOutcome(Ok(BulkInsertResult(b.successes, b.failures)), b.rows)
  }

  /** An `Ok` result accounts for every stream; an `Err` changes nothing. */
  lemma BulkInsertSpec(rows: map<string, Row>, streams: seq<StreamDomain.Stream>, now: int,
                       begin: Option<string>, fault: nat -> Option<string>, commit: Option<string>)
    requires AllDatesFit(streams)
    ensures var o := BulkInsert(rows, streams, now, begin, fault, commit);
      && (o.result.Ok? <==> begin.None? && commit.None?)
      && (o.result.Ok? ==> o.result.value.successfulInserts + |o.result.value.failedInserts| == |streams|)
      && (o.result.Ok? ==> |o.rows| == |rows| + o.result.value.successfulInserts)
      && (o.result.Err? ==> o.rows == rows)
  {
    InsertAllCounts(rows, streams, DateStamp(now), fault);
  }

  /** Two new streams with distinct ids and readable dates are both stored, with no failure. */
  lemma TwoFreshStreams(streams: seq<StreamDomain.Stream>, stamp: StreamDomain.Stream -> Option<int>, fault: nat -> Option<string>)
    requires |streams| == 2 && streams[0].videoId != streams[1].videoId
    requires stamp(streams[0]).Some? && stamp(streams[1]).Some?
    requires fault(0).None? && fault(1).None?
    ensures var b := InsertAll(map[], streams, stamp, fault);
      && b.successes == 2 && b.failures == []
      && streams[0].videoId in b.rows && streams[1].videoId in b.rows
  {
    assert streams[..1][..0] == [];
    assert InsertAll(map[], streams[..1][..0], stamp, fault) == Batch(map[], 0, []);
    assert streams[..1][0] == streams[0];
    var first := InsertAll(map[], streams[..1], stamp, fault);
    assert first == Batch(map[streams[0].videoId := RowOf(streams[0], stamp(streams[0]).value)], 1, []);
    assert streams[1].videoId !in first.rows;
  }

  /** The table of the datastore. */
  class DataStore {
    var rows: map<string, Row>

    constructor ()
      ensures rows == map[]
    {
      rows := map[];
    }

    /** `stream_exists`: whether the count of rows with the id is positive; `fault` is a failing query. */
    method StreamExists(id: string, fault: Option<string>) returns (r: Result<bool, string>)
      ensures fault.Some? ==> r == Err("Failed to check if stream exists")
      ensures fault.None? ==> r == Ok(id in rows)
    {
      if fault.Some? {
        return Err("Failed to check if stream exists");
      }
      var count := if id in rows then 1 else 0;
      r := Ok(count > 0);
    }

    /** `bulk_insert_streams`. */
    method BulkInsertStreams(streams: seq<StreamDomain.Stream>, now: int,
                             begin: Option<string>, fault: nat -> Option<string>, commit: Option<string>)
      returns (r: Result<BulkInsertResult, string>)
      requires AllDatesFit(streams)
      modifies this
      ensures BulkOutcome(r, rows) == BulkInsert(old(rows), streams, now, begin, fault, commit)
    {
      if begin.Some? {
        return Err(begin.value);
      }
      var tx := rows;
      var successfulInserts := 0;
      var failedInserts: seq<FailedInsert> := [];
      for i := 0 to |streams|
        invariant Batch(tx, successfulInserts, failedInserts) == InsertAll(rows, streams[..i], DateStamp(now), fault)
      {
        assert streams[..i + 1][..i] == streams[..i];
        var s := streams[i];
        var timestamp := s.TimestampFromTimeAgo(now);
        assert timestamp == DateStamp(now)(s);
        if timestamp.None? {
          failedInserts := failedInserts + [FailedInsert(s.videoId, OtherError(InvalidTimestamp))];
          continue;
        }
        if s.videoId in tx {
          failedInserts := failedInserts + [FailedInsert(s.videoId, DuplicateEntry)];
        } else if fault(i).Some? {
          failedInserts := failedInserts + [FailedInsert(s.videoId, OtherError(fault(i).value))];
        } else {
          tx := tx[s.videoId := RowOf(s, timestamp.value)];
          successfulInserts := successfulInserts + 1;
        }
      }
      assert streams[..|streams|] == streams;
      if commit.Some? {
        return Err("Failed to commit transaction");
      }
      rows := tx;
      r := Ok(BulkInsertResult(successfulInserts, failedInserts));
    }
  }
}
