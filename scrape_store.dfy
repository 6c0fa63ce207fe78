/**
  The SQLite datastore of the scraper: a `streams` table keyed by video id and a
  `stream_closed_captions` table whose key refers to it. SQLite enforces that
  reference, so every captions row belongs to a stored stream. The database's
  own failures are oracles: `fault` is the error a statement reports, if any.
 */
module ScrapeStore {
  import opened Wrappers
  import opened ScrapeStream

  /** The columns of a stored stream besides its id. */
  datatype Row = Row(title: string, viewCount: string, streamedDate: string, duration: string)

  /** `StreamClosedCaptions`. */
  datatype ClosedCaptions = ClosedCaptions(videoId: string, closedCaptionText: string, closedCaptionSummary: Option<string>)

  /** The two tables. */
  datatype Tables = Tables(streams: map<string, Row>, captions: map<string, ClosedCaptions>)
  {
    /** The foreign key: each captions row is keyed by its own id, and that id is a stored stream. */
    predicate Valid() {
      forall id :: id in captions ==> id in streams && captions[id].videoId == id
    }
  }

  datatype InsertFailReason = DuplicateEntry | OtherError(msg: string)

  datatype FailedInsert = FailedInsert(videoId: string, reason: InsertFailReason)

  datatype BulkInsertResult = BulkInsertResult(successfulInserts: nat, failedInserts: seq<FailedInsert>)

  const BeginFailed := "Failed to start transaction"
  const CommitFailed := "Failed to commit transaction"
  const GetFailed := "Failed to get stream"
  const UpdateFailed := "Failed to update stream"
  const DeleteFailed := "Failed to delete stream"
  const ListFailed := "Failed to list streams"
  const InsertCaptionsFailed := "Failed to insert closed captions"
  const GetCaptionsFailed := "Failed to get closed captions"
  const UpdateCaptionsFailed := "Failed to update closed captions"
  const DeleteCaptionsFailed := "Failed to delete closed captions"
  /** SQLite's message for a second row with the same primary key. */
  const UniqueViolation := "UNIQUE constraint failed: streams.video_id"

  function RowOf(s: Stream): Row {
    Row(s.title, s.viewCount, s.streamedDate, s.duration)
  }

  /** The stream a row reads back as. */
  function StreamOf(id: string, row: Row): (s: Stream)
    ensures s.id == id && RowOf(s) == row
  {
    Stream(id, row.title, row.viewCount, row.streamedDate, row.duration)
  }

  /** The outcome of a statement and the tables after it. */
  datatype Outcome<T> = Outcome(result: Result<T, ScrapeError>, tables: Tables)

  /** `insert_stream`: a taken id is a unique-constraint violation, any other fault an internal error. */
  function InsertStream(t: Tables, s: Stream, fault: Option<string>): Outcome<()> {
    if s.id in t.streams then Outcome(Err(UniqueConstraintViolation(UniqueViolation)), t)
    else if fault.Some? then Outcome(Err(InternalError(fault.value)), t)
    else Outcome(Ok(()), t.(streams := t.streams[s.id := RowOf(s)]))
  }

  /** `get_stream`. */
  function GetStream(t: Tables, id: string, fault: Option<string>): Result<Option<Stream>, ScrapeError> {
    if fault.Some? then Err(InternalError(GetFailed))
    else if id in t.streams then Ok(Some(StreamOf(id, t.streams[id])))
    else Ok(None)
  }

  /** `update_stream`: title, view count, date and duration of the row with the id; no row, no change. */
  function UpdateStream(t: Tables, s: Stream, fault: Option<string>): Outcome<()> {
    if fault.Some? then Outcome(Err(InternalError(UpdateFailed)), t)
    else if s.id !in t.streams then Outcome(Ok(()), t)
    else Outcome(Ok(()), t.(streams := t.streams[s.id := RowOf(s)]))
  }

  /**
    `delete_stream`: removes the row with the id; while captions refer to it the
    foreign key refuses the delete.
   */
  function DeleteStream(t: Tables, id: string, fault: Option<string>): Outcome<()> {
    if fault.Some? || id in t.captions then Outcome(Err(InternalError(DeleteFailed)), t)
    else Outcome(Ok(()), t.(streams := t.streams - {id}))
  }

  /**
    `insert_closed_captions`: refused when the stream is not stored (foreign key),
    when captions for it exist (primary key), or on any other fault.
   */
  function InsertCaptions(t: Tables, c: ClosedCaptions, fault: Option<string>): Outcome<()> {
    if c.videoId !in t.streams || c.videoId in t.captions || fault.Some? then Outcome(Err(InternalError(InsertCaptionsFailed)), t)
    else Outcome(Ok(()), t.(captions := t.captions[c.videoId := c]))
  }

  /** `get_closed_captions`. */
  function GetCaptions(t: Tables, id: string, fault: Option<string>): Result<Option<ClosedCaptions>, ScrapeError> {
    if fault.Some? then Err(InternalError(GetCaptionsFailed))
    else if id in t.captions then Ok(Some(t.captions[id]))
    else Ok(None)
  }

  /** `update_closed_captions`: the text and summary of the captions with the id; none, no change. */
  function UpdateCaptions(t: Tables, c: ClosedCaptions, fault: Option<string>): Outcome<()> {
    if fault.Some? then Outcome(Err(InternalError(UpdateCaptionsFailed)), t)
    else if c.videoId !in t.captions then Outcome(Ok(()), t)
    else Outcome(Ok(()), t.(captions := t.captions[c.videoId := c]))
  }

  /** `delete_closed_captions`. */
  function DeleteCaptions(t: Tables, id: string, fault: Option<string>): Outcome<()> {
    if fault.Some? then Outcome(Err(InternalError(DeleteCaptionsFailed)), t)
    else Outcome(Ok(()), t.(captions := t.captions - {id}))
  }

  /** The streams table inside the transaction, with the counts of the bulk insert so far. */
  datatype Batch = Batch(streams: map<string, Row>, successes: nat, failures: seq<FailedInsert>)

  /**
    `bulk_insert_streams_tx`: each stream in order; a taken id or another fault is a
    failure and the loop goes on. It has no error of its own, so the rollback
    branch of `bulk_insert_streams` is never taken.
   */
  function InsertAllTx(streams: map<string, Row>, batch: seq<Stream>, fault: nat -> Option<string>): Batch
    decreases |batch|
  {
    if batch == [] then Batch(streams, 0, [])
    else
      var n := |batch| - 1;
      var b := InsertAllTx(streams, batch[..n], fault);
      var s := batch[n];
      if s.id in b.streams then b.(failures := b.failures + [FailedInsert(s.id, DuplicateEntry)])
      else if fault(n).Some? then b.(failures := b.failures + [FailedInsert(s.id, OtherError(fault(n).value))])
      else b.(streams := b.streams[s.id := RowOf(s)], successes := b.successes + 1)
  }

  /** `bulk_insert_streams`: begin, insert in the transaction, commit. */
  function BulkInsert(t: Tables, batch: seq<Stream>, begin: bool, fault: nat -> Option<string>, commit: bool): Outcome<BulkInsertResult> {
    if !begin then Outcome(Err(InternalError(BeginFailed)), t)
    else
      var b := InsertAllTx(t.streams, batch, fault);
      if commit then Outcome(Ok(BulkInsertResult(b.successes, b.failures)), t.(streams := b.streams))
      else Outcome(Err(InternalError(CommitFailed)), t)
  }

  /** Every stream is counted once and each success adds one row; the old rows stay. */
  lemma {:induction false} InsertAllTxCounts(streams: map<string, Row>, batch: seq<Stream>, fault: nat -> Option<string>)
    ensures var b := InsertAllTx(streams, batch, fault);
      && b.successes + |b.failures| == |batch|
      && |b.streams| == |streams| + b.successes
      && (forall id :: id in streams ==> id in b.streams && b.streams[id] == streams[id])
    decreases |batch|
  {
    if batch != [] {
      InsertAllTxCounts(streams, batch[..|batch| - 1], fault);
    }
  }

  /** Once begun, the bulk insert succeeds exactly when the commit does, and accounts for every stream. */
  lemma BulkInsertSpec(t: Tables, batch: seq<Stream>, begin: bool, fault: nat -> Option<string>, commit: bool)
    ensures var o := BulkInsert(t, batch, begin, fault, commit);
      && (o.result.Ok? <==> begin && commit)
      && (o.result.Ok? ==> o.result.value.successfulInserts + |o.result.value.failedInserts| == |batch|
                           && |o.tables.streams| == |t.streams| + o.result.value.successfulInserts)
      && (o.result.Err? ==> o.tables == t)
  {
    InsertAllTxCounts(t.streams, batch, fault);
  }

  /** Three streams, the third repeating the first's id: two are stored and one duplicate is reported. */
  lemma DuplicateInBatch(t: Tables, batch: seq<Stream>, fault: nat -> Option<string>)
    requires t.streams == map[]
    requires |batch| == 3 && batch[0].id == batch[2].id && batch[0].id != batch[1].id
    requires fault(0).None? && fault(1).None?
    ensures var o := BulkInsert(t, batch, true, fault, true);
      && o.result == Ok(BulkInsertResult(2, [FailedInsert(batch[0].id, DuplicateEntry)]))
      && |o.tables.streams| == 2
  {
    var s0, s1 := batch[0], batch[1];
    assert batch[..2][..1][..0] == [];
    assert batch[..2][..1] == [s0];
    var one := map[s0.id := RowOf(s0)];
    assert InsertAllTx(map[], batch[..2][..1], fault) == Batch(one, 1, []);
    var two := one[s1.id := RowOf(s1)];
    assert InsertAllTx(map[], batch[..2], fault) == Batch(two, 2, []);
    assert batch[..|batch| - 1] == batch[..2];
    assert batch[2].id in two;
    var dup := FailedInsert(s0.id, DuplicateEntry);
    assert [] + [dup] == [dup];
    assert |two| == 2;
  }

  /** Every single-row operation keeps the foreign key. */
  lemma OperationsKeepValid(t: Tables, s: Stream, c: ClosedCaptions, id: string, fault: Option<string>)
    requires t.Valid()
    ensures InsertStream(t, s, fault).tables.Valid()
    ensures UpdateStream(t, s, fault).tables.Valid()
    ensures DeleteStream(t, id, fault).tables.Valid()
    ensures InsertCaptions(t, c, fault).tables.Valid()
    ensures UpdateCaptions(t, c, fault).tables.Valid()
    ensures DeleteCaptions(t, id, fault).tables.Valid()
  {
  }

  /** The bulk insert keeps the foreign key, whether it commits or not. */
  lemma BulkInsertKeepsValid(t: Tables, batch: seq<Stream>, faults: nat -> Option<string>, begin: bool, commit: bool)
    requires t.Valid()
    ensures BulkInsert(t, batch, begin, faults, commit).tables.Valid()
  {
    InsertAllTxCounts(t.streams, batch, faults);
  }

  /** An inserted stream reads back as itself; a second insert of its id is a unique-constraint violation. */
  lemma InsertThenGet(t: Tables, s: Stream, s2: Stream, fault: Option<string>)
    requires s.id !in t.streams && s2.id == s.id
    ensures var after := InsertStream(t, s, None).tables;
      && GetStream(after, s.id, None) == Ok(Some(s))
      && InsertStream(after, s2, fault) == Outcome(Err(UniqueConstraintViolation(UniqueViolation)), after)
  {
  }

  /**
    An update of a stored stream reads back as the update; of a missing one it
    succeeds and changes nothing. Other rows and the captions are untouched.
   */
  lemma UpdateThenGet(t: Tables, s: Stream)
    ensures var o := UpdateStream(t, s, None);
      && o.result.Ok?
      && (s.id in t.streams ==> GetStream(o.tables, s.id, None) == Ok(Some(s)))
      && (s.id !in t.streams ==> o.tables == t)
      && o.tables.captions == t.captions && o.tables.streams.Keys == t.streams.Keys
      && (forall k :: k in t.streams && k != s.id ==> o.tables.streams[k] == t.streams[k])
  {
  }

  /**
    Deleting a stream without captions removes exactly it: the lookup then finds
    nothing and one row fewer is listed. A missing id is no error.
   */
  lemma DeleteThenGet(t: Tables, id: string)
    requires id !in t.captions
    ensures var o := DeleteStream(t, id, None);
      && o.result.Ok?
      && GetStream(o.tables, id, None) == Ok(None)
      && (id in t.streams ==> |o.tables.streams| == |t.streams| - 1)
      && (id !in t.streams ==> o.tables == t)
  {
    if id !in t.streams {
      assert t.streams - {id} == t.streams;
    }
  }

  /** A stream with captions cannot be deleted. */
  lemma DeleteRefusedWithCaptions(t: Tables, id: string, fault: Option<string>)
    requires id in t.captions
    ensures DeleteStream(t, id, fault) == Outcome(Err(InternalError(DeleteFailed)), t)
  {
  }

  /** Captions round trip: insert then get returns them, update then get the new text, delete then get nothing. */
  lemma CaptionsRoundTrip(t: Tables, c: ClosedCaptions, c2: ClosedCaptions)
    requires t.Valid() && c.videoId in t.streams && c.videoId !in t.captions && c2.videoId == c.videoId
    ensures var t1 := InsertCaptions(t, c, None).tables;
      var t2 := UpdateCaptions(t1, c2, None).tables;
      var t3 := DeleteCaptions(t2, c.videoId, None).tables;
      && InsertCaptions(t, c, None).result.Ok?
      && GetCaptions(t1, c.videoId, None) == Ok(Some(c))
      && GetCaptions(t2, c.videoId, None) == Ok(Some(c2))
      && GetCaptions(t3, c.videoId, None) == Ok(None)
      && t3.streams == t.streams
  {
  }

  /** Captions for a stream that is not stored are refused, whatever else holds. */
  lemma CaptionsNeedStream(t: Tables, c: ClosedCaptions, fault: Option<string>)
    requires c.videoId !in t.streams
    ensures InsertCaptions(t, c, fault) == Outcome(Err(InternalError(InsertCaptionsFailed)), t)
  {
  }

  /** Every id of the streams table once, in some order. */
  predicate Listing(streams: map<string, Row>, ids: seq<string>) {
    && |ids| == |streams|
    && (forall i :: 0 <= i < |ids| ==> ids[i] in streams)
    && (forall id :: id in streams ==> exists i :: 0 <= i < |ids| && ids[i] == id)
    && (forall i, j :: 0 <= i < j < |ids| ==> ids[i] != ids[j])
  }

  function Ids(streams: seq<Stream>): (ids: seq<string>)
    ensures |ids| == |streams| && forall i :: 0 <= i < |streams| ==> ids[i] == streams[i].id
  {
    seq(|streams|, i requires 0 <= i < |streams| => streams[i].id)
  }

  /** The ids of the table, each once, in the order the set of keys gives them up. */
  method ListIds(streams: map<string, Row>) returns (ids: seq<string>)
    ensures Listing(streams, ids)
  {
    var left := streams.Keys;
    ids := [];
    while left != {}
      invariant left <= streams.Keys
      invariant forall i :: 0 <= i < |ids| ==> ids[i] in streams && ids[i] !in left
      invariant forall id :: id in streams ==> id in left || id in ids
      invariant forall i, j :: 0 <= i < j < |ids| ==> ids[i] != ids[j]
      decreases |left|
    {
      var id :| id in left;
      ids := ids + [id];
      left := left - {id};
    }
    IdsCoverKeys(streams, ids);
  }

  /** A duplicate-free listing of exactly the table's keys is as long as the table. */
  lemma IdsCoverKeys(streams: map<string, Row>, ids: seq<string>)
    requires forall i :: 0 <= i < |ids| ==> ids[i] in streams
    requires forall id :: id in streams ==> id in ids
    requires forall i, j :: 0 <= i < j < |ids| ==> ids[i] != ids[j]
    ensures |ids| == |streams|
  {
    var s := set i | 0 <= i < |ids| :: ids[i];
    assert s == streams.Keys;
    DistinctCard(ids);
  }

  lemma {:induction false} DistinctCard(ids: seq<string>)
    requires forall i, j :: 0 <= i < j < |ids| ==> ids[i] != ids[j]
    ensures |set i | 0 <= i < |ids| :: ids[i]| == |ids|
    decreases |ids|
  {
    if ids != [] {
      var init := ids[..|ids| - 1];
      DistinctCard(init);
      var s := set i | 0 <= i < |init| :: init[i];
      assert (set i | 0 <= i < |ids| :: ids[i]) == s + {ids[|ids| - 1]};
      assert ids[|ids| - 1] !in s;
    }
  }

  /** The two tables. */
  class DataStore {
    var streams: map<string, Row>
    var captions: map<string, ClosedCaptions>

    function State(): Tables
      reads this
    {
      Tables(streams, captions)
    }

    /** `DataStore::new` on a fresh database: both tables empty. */
    constructor ()
      ensures State() == Tables(map[], map[]) && State().Valid()
    {
      streams := map[];
      captions := map[];
    }

    method Insert(s: Stream, fault: Option<string>) returns (r: Result<(), ScrapeError>)
      modifies this
      ensures Outcome(r, State()) == InsertStream(old(State()), s, fault)
    {
      if s.id in streams {
        return Err(UniqueConstraintViolation(UniqueViolation));
      }
      if fault.Some? {
        return Err(InternalError(fault.value));
      }
      streams := streams[s.id := RowOf(s)];
      r := Ok(());
    }

    /** `bulk_insert_streams` with its transaction. */
    method BulkInsertStreams(batch: seq<Stream>, begin: bool, fault: nat -> Option<string>, commit: bool)
      returns (r: Result<BulkInsertResult, ScrapeError>)
      modifies this
      ensures Outcome(r, State()) == BulkInsert(old(State()), batch, begin, fault, commit)
    {
      if !begin {
        return Err(InternalError(BeginFailed));
      }
      var tx := streams;
      var successfulInserts := 0;
      var failedInserts: seq<FailedInsert> := [];
      for i := 0 to |batch|
        invariant Batch(tx, successfulInserts, failedInserts) == InsertAllTx(streams, batch[..i], fault)
      {
        assert batch[..i + 1][..i] == batch[..i];
        var s := batch[i];
        if s.id in tx {
          failedInserts := failedInserts + [FailedInsert(s.id, DuplicateEntry)];
        } else if fault(i).Some? {
          failedInserts := failedInserts + [FailedInsert(s.id, OtherError(fault(i).value))];
        } else {
          tx := tx[s.id := RowOf(s)];
          successfulInserts := successfulInserts + 1;
        }
      }
      assert batch[..|batch|] == batch;
      if !commit {
        return Err(InternalError(CommitFailed));
      }
      streams := tx;
      r := Ok(BulkInsertResult(successfulInserts, failedInserts));
    }

    method Get(id: string, fault: Option<string>) returns (r: Result<Option<Stream>, ScrapeError>)
      ensures r == GetStream(State(), id, fault)
    {
      if fault.Some? {
        return Err(InternalError(GetFailed));
      }
      r := if id in streams then Ok(Some(StreamOf(id, streams[id]))) else Ok(None);
    }

    method Update(s: Stream, fault: Option<string>) returns (r: Result<(), ScrapeError>)
      modifies this
      ensures Outcome(r, State()) == UpdateStream(old(State()), s, fault)
    {
      if fault.Some? {
        return Err(InternalError(UpdateFailed));
      }
      if s.id in streams {
        streams := streams[s.id := RowOf(s)];
      }
      r := Ok(());
    }

    method Delete(id: string, fault: Option<string>) returns (r: Result<(), ScrapeError>)
      modifies this
      ensures Outcome(r, State()) == DeleteStream(old(State()), id, fault)
    {
      if fault.Some? || id in captions {
        return Err(InternalError(DeleteFailed));
      }
      streams := streams - {id};
      r := Ok(());
    }

    /** `list_streams`: every stored stream once; the query fixes no order. */
    method List(fault: Option<string>) returns (r: Result<seq<Stream>, ScrapeError>)
      ensures r.Err? <==> fault.Some?
      ensures r.Ok? ==> Listing(streams, Ids(r.value))
      ensures r.Ok? ==> forall i :: 0 <= i < |r.value| ==> r.value[i] == StreamOf(r.value[i].id, streams[r.value[i].id])
    {
      if fault.Some? {
        return Err(InternalError(ListFailed));
      }
      var ids := ListIds(streams);
      var out: seq<Stream> := [];
      for i := 0 to |ids|
        invariant |out| == i
        invariant forall k :: 0 <= k < i ==> out[k] == StreamOf(ids[k], streams[ids[k]])
      {
        out := out + [StreamOf(ids[i], streams[ids[i]])];
      }
      assert Ids(out) == ids;
      r := Ok(out);
    }

    method InsertClosedCaptions(c: ClosedCaptions, fault: Option<string>) returns (r: Result<(), ScrapeError>)
      modifies this
      ensures Outcome(r, State()) == InsertCaptions(old(State()), c, fault)
    {
      if c.videoId !in streams || c.videoId in captions || fault.Some? {
        return Err(InternalError(InsertCaptionsFailed));
      }
      captions := captions[c.videoId := c];
      r := Ok(());
    }

    method GetClosedCaptions(id: string, fault: Option<string>) returns (r: Result<Option<ClosedCaptions>, ScrapeError>)
      ensures r == GetCaptions(State(), id, fault)
    {
      if fault.Some? {
        return Err(InternalError(GetCaptionsFailed));
      }
      r := if id in captions then Ok(Some(captions[id])) else Ok(None);
    }

    method UpdateClosedCaptions(c: ClosedCaptions, fault: Option<string>) returns (r: Result<(), ScrapeError>)
      modifies this
      ensures Outcome(r, State()) == UpdateCaptions(old(State()), c, fault)
    {
      if fault.Some? {
        return Err(InternalError(UpdateCaptionsFailed));
      }
      if c.videoId in captions {
        captions := captions[c.videoId := c];
      }
      r := Ok(());
    }

    method DeleteClosedCaptions(id: string, fault: Option<string>) returns (r: Result<(), ScrapeError>)
      modifies this
      ensures Outcome(r, State()) == DeleteCaptions(old(State()), id, fault)
    {
      if fault.Some? {
        return Err(InternalError(DeleteCaptionsFailed));
      }
      captions := captions - {id};
      r := Ok(());
    }
  }
}
