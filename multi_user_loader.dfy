// The multi-user YCSB loader: loadRecords cuts the record ids into one
// contiguous range per thread, and each thread's loadRange writes its records
// one transaction each, counting loaded and remaining records and reporting
// progress every REPORTING_INTERVAL records.
//
// The java.util.Random draws, whether each probing get throws, how each
// record's transaction ends and whether another thread has cancelled the
// load are parameters.  The usertable is a field of the loader; only this
// thread writes the records of its range.
module MultiUserLoader {
  import opened Wrappers
  import opened JavaInt
  import opened Store
  import opened Intervals
  import opened YcsbCommon

  const REPORTING_INTERVAL: int := 10000

  // ---- loadRecords ----------------------------------------------------------------------

  /**
   * The range loadRecords gives thread i: [i * rpt, (i + 1) * rpt) with
   * rpt = recordCount / numThreads in Java's int arithmetic, the last thread
   * running to recordCount.
   */
  function ThreadSlice(i: int, recordCount: int, numThreads: int): (int, int)
    requires numThreads != 0
  {
    var rpt := Quot(recordCount, numThreads);
    (Wrap32(i * rpt), if i == numThreads - 1 then recordCount else Wrap32((i + 1) * rpt))
  }

  /** The ranges of threads 0 .. count - 1. */
  function Slices(recordCount: int, numThreads: int, count: nat): (r: seq<(int, int)>)
    requires numThreads != 0
    ensures |r| == count
    ensures forall i :: 0 <= i < count ==> r[i] == ThreadSlice(i, recordCount, numThreads)
  {
    seq(count, i requires 0 <= i < count => ThreadSlice(i, recordCount, numThreads))
  }

  /**
   * loadRecords: one range per thread, in thread order.  With no threads the
   * division by zero throws.
   */
  method LoadRecords(recordCount: int, numThreads: int) returns (r: Result<seq<(int, int)>, TxError>)
    requires IsInt32(recordCount) && IsInt32(numThreads)
    ensures r.Err? <==> numThreads == 0
    ensures r.Err? ==> r.error == DivisionByZero
    ensures r.Ok? ==> r.value == Slices(recordCount, numThreads, if numThreads > 0 then numThreads else 0)
  {
    if numThreads == 0 {
      return Err(DivisionByZero);
    }
    var recordsPerThread := Quot(recordCount, numThreads);
    var ranges: seq<(int, int)> := [];
    var i := 0;
    while i < numThreads
      invariant 0 <= i <= if numThreads > 0 then numThreads else 0
      invariant ranges == Slices(recordCount, numThreads, i)
    {
      var start := Wrap32(i * recordsPerThread);
      var end := if i == numThreads - 1 then recordCount else Wrap32((i + 1) * recordsPerThread);
      ranges := ranges + [(start, end)];
      i := i + 1;
    }
    return Ok(ranges);
  }

  /** The ids the ranges cover, range after range. */
  function Spans(ranges: seq<(int, int)>): seq<int>
    decreases |ranges|
  {
    if |ranges| == 0 then []
    else Spans(ranges[..|ranges| - 1]) + Interval(ranges[|ranges| - 1].0, ranges[|ranges| - 1].1)
  }

  /** Thread i's range without Java's wrap-around, for a non-negative record count. */
  lemma SliceBounds(i: int, recordCount: int, numThreads: int)
    requires 0 <= i < numThreads && 0 <= recordCount && IsInt32(recordCount)
    ensures ThreadSlice(i, recordCount, numThreads).0 == i * (recordCount / numThreads)
    ensures ThreadSlice(i, recordCount, numThreads).1
            == if i == numThreads - 1 then recordCount else (i + 1) * (recordCount / numThreads)
  {
    EvenSlices(i, numThreads, recordCount);
    assert Quot(recordCount, numThreads) == recordCount / numThreads;
  }

  /** The ranges of all threads but the last run without gap or overlap from 0 to count * rpt. */
  lemma {:induction false} SlicesPrefix(recordCount: int, numThreads: int, count: nat)
    requires count < numThreads && 0 <= recordCount && IsInt32(recordCount)
    ensures Spans(Slices(recordCount, numThreads, count)) == Interval(0, count * (recordCount / numThreads))
    decreases count
  {
    if count > 0 {
      var rpt := recordCount / numThreads;
      var prefix := Slices(recordCount, numThreads, count);
      assert prefix[..count - 1] == Slices(recordCount, numThreads, count - 1);
      SlicesPrefix(recordCount, numThreads, count - 1);
      SliceBounds(count - 1, recordCount, numThreads);
      EvenSlices(count - 1, numThreads, recordCount);
      IntervalAppend(0, (count - 1) * rpt, count * rpt);
    }
  }

  /**
   * For a non-negative record count, the threads' ranges together are the
   * record ids 0 .. recordCount - 1, each exactly once and in order.
   */
  lemma LoadRecordsCover(recordCount: int, numThreads: int)
    requires 0 <= recordCount && IsInt32(recordCount) && 1 <= numThreads
    ensures Spans(Slices(recordCount, numThreads, numThreads)) == Interval(0, recordCount)
  {
    var rpt := recordCount / numThreads;
    var all := Slices(recordCount, numThreads, numThreads);
    assert all[..numThreads - 1] == Slices(recordCount, numThreads, numThreads - 1);
    SlicesPrefix(recordCount, numThreads, numThreads - 1);
    SliceBounds(numThreads - 1, recordCount, numThreads);
    EvenSlices(numThreads - 1, numThreads, recordCount);
    IntervalAppend(0, (numThreads - 1) * rpt, recordCount);
  }

  // ---- one record's transaction ---------------------------------------------------------

  /** The key loadRange's get names: partition key ycsb_key = i and no clustering key. */
  function ProbeKey(i: int): Key
  {
    Key(NAMESPACE + "." + TABLE, [Column(YCSB_KEY, IntV(i))], [])
  }

  /**
   * One record's operations as loadRange writes them: with overwrite a put;
   * without, a get of ProbeKey(i), then a put only when that get throws a
   * CrudException.
   */
  function RecordOpsAsWritten(i: int, payload: string, overwrite: bool, getThrows: bool): (ops: seq<Op>)
    ensures PreparePut(NAMESPACE, TABLE, i, payload) in ops <==> overwrite || getThrows
    ensures !overwrite ==> |ops| > 0 && ops[0] == GetOp(ProbeKey(i))
  {
    if overwrite then [PreparePut(NAMESPACE, TABLE, i, payload)]
    else [GetOp(ProbeKey(i))] + if getThrows then [PreparePut(NAMESPACE, TABLE, i, payload)] else []
  }

  /**
   * Without overwrite, a record missing from the table stays missing: its
   * get returns an empty result instead of throwing, and the get names
   * another key than the record's.
   */
  lemma AsWrittenSkipsMissingRecord(db: Db, i: int, payload: string)
    requires PrepareGet(NAMESPACE, TABLE, i).key !in db
    ensures ProbeKey(i) != PrepareGet(NAMESPACE, TABLE, i).key
    ensures PrepareGet(NAMESPACE, TABLE, i).key !in Apply(db, RecordOpsAsWritten(i, payload, false, false))
  {
    var ops := RecordOpsAsWritten(i, payload, false, false);
    assert ops == [GetOp(ProbeKey(i))];
    assert Apply(db, ops) == Apply(db, []);
  }

  /**
   * One record's operations as the comments describe them: with overwrite a
   * put; without, a get of the record, then a put only when the record is
   * missing.
   */
  function RecordOps(db: Db, i: int, payload: string, overwrite: bool): (ops: seq<Op>)
    ensures PreparePut(NAMESPACE, TABLE, i, payload) in ops <==> overwrite || PrepareGet(NAMESPACE, TABLE, i).key !in db
  {
    var get := PrepareGet(NAMESPACE, TABLE, i);
    if overwrite then [PreparePut(NAMESPACE, TABLE, i, payload)]
    else [get] + if get.key in db then [] else [PreparePut(NAMESPACE, TABLE, i, payload)]
  }

  /** Record i holds a payload of `len` printable characters. */
  predicate HoldsPayload(db: Db, i: int, len: int)
  {
    var k := PrepareGet(NAMESPACE, TABLE, i).key;
    k in db && PAYLOAD in db[k] && db[k][PAYLOAD].TextV? && IsPayload(db[k][PAYLOAD].s, len)
  }

  /**
   * A committed record transaction: the record is present afterwards; it
   * holds the new payload when it was written (overwrite, or missing
   * before); a record already present is left alone without overwrite; no
   * other record changes.
   */
  lemma RecordOpsStore(db: Db, i: int, payload: string, overwrite: bool)
    ensures var after := Apply(db, RecordOps(db, i, payload, overwrite));
            var k := PrepareGet(NAMESPACE, TABLE, i).key;
            && k in after
            && (overwrite || k !in db ==> Holds(after, k, PAYLOAD, TextV(payload)))
            && (!overwrite && k in db ==> after == db)
            && (forall k' :: k' != k ==> (k' in after <==> k' in db))
            && (forall k' :: k' != k && k' in db ==> after[k'] == db[k'])
  {
    var k := PrepareGet(NAMESPACE, TABLE, i).key;
    var put := PreparePut(NAMESPACE, TABLE, i, payload);
    var ops := RecordOps(db, i, payload, overwrite);
    PutThenGet(db, NAMESPACE, TABLE, i, payload);
    assert Apply(db, [put]) == Put(db, k, put.values);
    if overwrite {
      assert ops == [put];
    } else if k in db {
      assert ops == [PrepareGet(NAMESPACE, TABLE, i)];
      assert Apply(db, ops) == Apply(db, []);
    } else {
      assert ops == [PrepareGet(NAMESPACE, TABLE, i), put];
      assert ops[..1] == [PrepareGet(NAMESPACE, TABLE, i)];
      assert Apply(db, ops[..1]) == Apply(db, []);
    }
  }

  /**
   * A committed record transaction as written: when a put is issued
   * (overwrite, or the probing get threw) the record is present and holds the
   * new payload; otherwise the table is unchanged; no other record changes.
   */
  lemma RecordOpsAsWrittenStore(db: Db, i: int, payload: string, overwrite: bool, getThrows: bool)
    ensures var after := Apply(db, RecordOpsAsWritten(i, payload, overwrite, getThrows));
            var k := PrepareGet(NAMESPACE, TABLE, i).key;
            && (overwrite || getThrows ==> Holds(after, k, PAYLOAD, TextV(payload)))
            && (!overwrite && !getThrows ==> after == db)
            && (forall k' :: k' != k ==> (k' in after <==> k' in db))
            && (forall k' :: k' != k && k' in db ==> after[k'] == db[k'])
  {
    var k := PrepareGet(NAMESPACE, TABLE, i).key;
    var put := PreparePut(NAMESPACE, TABLE, i, payload);
    var ops := RecordOpsAsWritten(i, payload, overwrite, getThrows);
    PutThenGet(db, NAMESPACE, TABLE, i, payload);
    assert Apply(db, [put]) == Put(db, k, put.values);
    if overwrite {
      assert ops == [put];
    } else if !getThrows {
      assert ops == [GetOp(ProbeKey(i))];
      assert Apply(db, ops) == Apply(db, []);
    } else {
      assert ops == [GetOp(ProbeKey(i)), put];
      assert ops[..1] == [GetOp(ProbeKey(i))];
      assert Apply(db, ops[..1]) == Apply(db, []);
    }
  }

  /** Whether loadRange as written puts the record at offset j: always with overwrite, else when its probing get threw. */
  function Writes(overwrite: bool, getThrows: seq<bool>, j: int): bool
  {
    overwrite || (0 <= j < |getThrows| && getThrows[j])
  }

  /** Key k is the record of an id in [start, start + count) that loadRange puts. */
  predicate Loaded(k: Key, start: int, count: int, overwrite: bool, getThrows: seq<bool>)
  {
    && k == PrepareGet(NAMESPACE, TABLE, RecordId(k)).key && start <= RecordId(k) < start + count
    && Writes(overwrite, getThrows, RecordId(k) - start)
  }

  /** The table holds what it held before plus exactly the records of start .. start + count - 1 that were put. */
  ghost predicate AddsRecords(before: Db, db: Db, start: int, count: int, overwrite: bool, getThrows: seq<bool>)
  {
    forall k :: k in db <==> k in before || Loaded(k, start, count, overwrite, getThrows)
  }

  /** Every record not put is as before. */
  ghost predicate KeepsOthers(before: Db, db: Db, start: int, count: int, overwrite: bool, getThrows: seq<bool>)
  {
    forall k :: k in before && !Loaded(k, start, count, overwrite, getThrows) ==> k in db && db[k] == before[k]
  }

  /** Every record put holds a payload of `len` printable characters. */
  ghost predicate PayloadsWritten(db: Db, start: int, count: int, overwrite: bool, getThrows: seq<bool>, len: int)
  {
    forall j :: start <= j < start + count && Writes(overwrite, getThrows, j - start) ==> HoldsPayload(db, j, len)
  }

  /**
   * What loading records start .. start + count - 1 as written leaves in the
   * table, from `before`: exactly the records put are added, every other
   * record is unchanged, and every record put holds a payload of `len`
   * printable characters.
   */
  ghost predicate LoadedFrom(before: Db, db: Db, start: int, count: int, overwrite: bool, getThrows: seq<bool>,
                             len: int)
  {
    && AddsRecords(before, db, start, count, overwrite, getThrows)
    && KeepsOthers(before, db, start, count, overwrite, getThrows)
    && PayloadsWritten(db, start, count, overwrite, getThrows, len)
  }

  /** `after` differs from `db` at most in the record under `key`. */
  ghost predicate ChangesOnly(db: Db, after: Db, key: Key)
  {
    && (forall k :: k != key ==> (k in after <==> k in db))
    && (forall k :: k != key && k in db ==> after[k] == db[k])
  }

  lemma LoadedNext(start: int, count: nat, overwrite: bool, getThrows: seq<bool>)
    ensures var key := PrepareGet(NAMESPACE, TABLE, start + count).key;
            forall k :: Loaded(k, start, count + 1, overwrite, getThrows) <==>
              Loaded(k, start, count, overwrite, getThrows) || (k == key && Writes(overwrite, getThrows, count))
  {
    assert RecordId(PrepareGet(NAMESPACE, TABLE, start + count).key) == start + count;
  }

  lemma AddsNext(before: Db, db: Db, after: Db, start: int, count: nat, overwrite: bool, getThrows: seq<bool>)
    requires AddsRecords(before, db, start, count, overwrite, getThrows)
    requires var key := PrepareGet(NAMESPACE, TABLE, start + count).key;
             && ChangesOnly(db, after, key)
             && (Writes(overwrite, getThrows, count) ==> key in after)
             && (!Writes(overwrite, getThrows, count) ==> after == db)
    ensures AddsRecords(before, after, start, count + 1, overwrite, getThrows)
  {
    LoadedNext(start, count, overwrite, getThrows);
  }

  lemma KeepsNext(before: Db, db: Db, after: Db, start: int, count: nat, overwrite: bool, getThrows: seq<bool>)
    requires AddsRecords(before, db, start, count, overwrite, getThrows)
    requires KeepsOthers(before, db, start, count, overwrite, getThrows)
    requires var key := PrepareGet(NAMESPACE, TABLE, start + count).key;
             && ChangesOnly(db, after, key)
             && (!Writes(overwrite, getThrows, count) ==> after == db)
    ensures KeepsOthers(before, after, start, count + 1, overwrite, getThrows)
  {
    LoadedNext(start, count, overwrite, getThrows);
  }

  lemma PayloadsNext(db: Db, after: Db, start: int, count: nat, overwrite: bool, getThrows: seq<bool>, len: int)
    requires PayloadsWritten(db, start, count, overwrite, getThrows, len)
    requires ChangesOnly(db, after, PrepareGet(NAMESPACE, TABLE, start + count).key)
    requires Writes(overwrite, getThrows, count) ==> HoldsPayload(after, start + count, len)
    ensures PayloadsWritten(after, start, count + 1, overwrite, getThrows, len)
  {
    var i := start + count;
    forall j | start <= j < i + 1 && Writes(overwrite, getThrows, j - start)
      ensures HoldsPayload(after, j, len)
    {
      if j < i {
        RecordKeyInjective(NAMESPACE, TABLE, j, i);
        assert HoldsPayload(db, j, len);
      } else {
        assert j - start == count;
      }
    }
  }

  /** Committing the next record's operations as written extends what the earlier records leave by that record. */
  lemma LoadStep(before: Db, db: Db, start: int, count: nat, payload: string, overwrite: bool,
                 getThrows: seq<bool>, len: int)
    requires LoadedFrom(before, db, start, count, overwrite, getThrows, len) && IsPayload(payload, len)
    requires count < |getThrows|
    ensures LoadedFrom(before, Apply(db, RecordOpsAsWritten(start + count, payload, overwrite, getThrows[count])),
                       start, count + 1, overwrite, getThrows, len)
  {
    var i := start + count;
    var key := PrepareGet(NAMESPACE, TABLE, i).key;
    var after := Apply(db, RecordOpsAsWritten(i, payload, overwrite, getThrows[count]));
    RecordOpsAsWrittenStore(db, i, payload, overwrite, getThrows[count]);
    assert ChangesOnly(db, after, key);
    AddsNext(before, db, after, start, count, overwrite, getThrows);
    KeepsNext(before, db, after, start, count, overwrite, getThrows);
    PayloadsNext(db, after, start, count, overwrite, getThrows, len);
  }

  /**
   * Without overwrite, and with no probing get throwing, loading leaves the
   * table as it was: the records missing before are still missing.
   */
  lemma AsWrittenLoadsNothing(before: Db, db: Db, start: int, count: int, getThrows: seq<bool>, len: int)
    requires LoadedFrom(before, db, start, count, false, getThrows, len)
    requires forall j :: 0 <= j < |getThrows| ==> !getThrows[j]
    ensures db == before
  {
    assert forall k :: !Loaded(k, start, count, false, getThrows);
  }

  /** The progress reports of the first `loaded` records: (loaded, remaining) at every REPORTING_INTERVAL-th one. */
  function Reports(loaded: int, total: int): seq<(int, int)>
    decreases loaded
  {
    if loaded <= 0 then []
    else Reports(loaded - 1, total) + if loaded % REPORTING_INTERVAL == 0 then [(loaded, total - loaded)] else []
  }

  /** A report is made exactly when the loaded count reaches a multiple of REPORTING_INTERVAL, with the records then remaining. */
  lemma {:induction false} ReportsExactly(loaded: int, total: int, n: int, m: int)
    ensures (n, m) in Reports(loaded, total) <==>
              1 <= n <= loaded && n % REPORTING_INTERVAL == 0 && m == total - n
    decreases loaded
  {
    if loaded > 0 {
      ReportsExactly(loaded - 1, total, n, m);
    }
  }

  class MultiUserLoader {
    const recordCount: int
    const loadConcurrency: int
    const overwrite: bool
    const payloadSize: int
    /** The usertable. */
    var db: Db
    /** numFinished: the threads that have loaded their whole range. */
    var numFinished: int

    constructor (recordCount: int, loadConcurrency: int, overwrite: bool, payloadSize: int, db: Db)
      ensures this.recordCount == recordCount && this.loadConcurrency == loadConcurrency
      ensures this.overwrite == overwrite && this.payloadSize == payloadSize
      ensures this.db == db && numFinished == 0
    {
      this.recordCount := recordCount;
      this.loadConcurrency := loadConcurrency;
      this.overwrite := overwrite;
      this.payloadSize := payloadSize;
      this.db := db;
      numFinished := 0;
    }

    /**
     * One committed record transaction: a fresh payload array filled by
     * randomFastChars, then the record's operations as loadRange writes them
     * applied to the table.
     */
    method LoadRecord(start: int, count: nat, d: FastDraws, getThrows: seq<bool>, ghost before: Db)
      requires DrawsFor(d, payloadSize) && count < |getThrows|
      requires LoadedFrom(before, db, start, count, overwrite, getThrows, payloadSize)
      modifies this`db
      ensures LoadedFrom(before, db, start, count + 1, overwrite, getThrows, payloadSize)
    {
      var payload := new char[payloadSize];
      var filled := RandomFastChars(payload, d);
      FastCharsPrintable(d, payloadSize);
      LoadStep(before, db, start, count, filled[..], overwrite, getThrows, payloadSize);
      db := Apply(db, RecordOpsAsWritten(start + count, filled[..], overwrite, getThrows[count]));
    }

    /**
     * loadRange(threadId, startInclusive, endExclusive): one transaction per
     * record, in id order, with the operations as written: whether each
     * record's probing get throws is an input.  A failed transaction ends the
     * thread: quietly when the load was cancelled, with the error otherwise.
     * A negative payload size fails on the first record.
     */
    method LoadRange(start: int, end: int, draws: seq<FastDraws>, getThrows: seq<bool>,
                     outcomes: seq<Result<(), TxError>>, canceled: bool)
      returns (r: Result<(), TxError>, loaded: int, remaining: int, reports: seq<(int, int)>)
      requires IsInt32(start) && IsInt32(end) && IsInt32(end - start)
      requires |Interval(start, end)| <= |draws| && |Interval(start, end)| <= |outcomes|
      requires |Interval(start, end)| <= |getThrows|
      requires payloadSize >= 0 ==> DrawsForEach(draws, payloadSize)
      modifies this`db, this`numFinished
      ensures loaded + remaining == end - start
      ensures 0 <= loaded <= |Interval(start, end)|
      ensures forall j :: 0 <= j < loaded ==> outcomes[j].Ok?
      ensures r.Ok? && loaded < |Interval(start, end)| ==> canceled && outcomes[loaded].Err?
      ensures r.Err? ==> loaded < |Interval(start, end)|
      ensures r.Err? && payloadSize >= 0 ==> !canceled && r == outcomes[loaded]
      ensures numFinished == old(numFinished) + if r.Ok? && loaded == |Interval(start, end)| then 1 else 0
      ensures reports == Reports(loaded, end - start)
      ensures LoadedFrom(old(db), db, start, loaded, overwrite, getThrows, payloadSize)
    {
      loaded := 0;
      remaining := end - start;
      reports := [];
      var i := start;
      while i < end
        invariant start <= i && (start <= end ==> i <= end)
        invariant loaded == i - start && loaded + remaining == end - start
        invariant loaded <= |Interval(start, end)|
        invariant forall j :: 0 <= j < loaded ==> outcomes[j].Ok?
        invariant reports == Reports(loaded, end - start)
        invariant LoadedFrom(old(db), db, start, loaded, overwrite, getThrows, payloadSize)
        invariant numFinished == old(numFinished)
      {
        if payloadSize < 0 {
          r := Err(BadArgument("negative array size"));
          return;
        }
        var outcome := outcomes[i - start];
        if outcome.Err? {
          r := if canceled then Ok(()) else outcome;
          return;
        }
        LoadRecord(start, loaded, draws[i - start], getThrows, old(db));
        loaded := loaded + 1;
        remaining := remaining - 1;
        if loaded % REPORTING_INTERVAL == 0 {
          reports := reports + [(loaded, remaining)];
        }
        i := i + 1;
      }
      numFinished := numFinished + 1;
      r := Ok(());
    }
  }
}
