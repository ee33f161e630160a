// One thread of the YCSB loader.  Thread `id` of `concurrency` takes the
// record ids [numPerThread * id, min(numPerThread * (id + 1), recordCount))
// with numPerThread = ceil(recordCount / concurrency), cuts them into batches
// of batchSize ids, and for each id refills the one payload array in place
// with randomFastChars and upserts it to object storage.
//
// The object storage is a log of the upserts made (record id, payload);
// prepareObjectKey is not part of this model, so an upsert is named by its
// record id.  The resilience4j retry around a batch is not modelled: every
// batch runs once and succeeds.  The random draws are parameters, one
// FastDraws per record in the order the records are written.
module LoadRunner {
  import opened Wrappers
  import opened JavaInt
  import opened Store
  import opened Intervals
  import opened YcsbCommon

  /** numPerThread = (recordCount + concurrency - 1) / concurrency: the ceiling of recordCount / concurrency. */
  function NumPerThread(recordCount: int, concurrency: int): (n: nat)
    requires recordCount >= 0 && concurrency >= 1
    ensures n * concurrency >= recordCount
    ensures n == 0 || (n - 1) * concurrency < recordCount
  {
    (recordCount + concurrency - 1) / concurrency
  }

  /** The ids thread `id` loads: [numPerThread * id, min(numPerThread * (id + 1), recordCount)). */
  function ThreadRange(recordCount: int, concurrency: int, id: nat): (r: (int, int))
    requires recordCount >= 0 && concurrency >= 1
  {
    var n := NumPerThread(recordCount, concurrency);
    (n * id, Min(n * (id + 1), recordCount))
  }

  /** The number of batches, (numPerThread + batchSize - 1) / batchSize: enough batches of batchSize for numPerThread ids. */
  function BatchCount(numPerThread: nat, batchSize: int): (b: nat)
    requires batchSize >= 1
    ensures b * batchSize >= numPerThread
    ensures b == 0 || (b - 1) * batchSize < numPerThread
  {
    (numPerThread + batchSize - 1) / batchSize
  }

  /** Where the ids stay within Java's int range. */
  predicate Fits(recordCount: int, concurrency: int, batchSize: int)
  {
    recordCount >= 0 && concurrency >= 1 && batchSize >= 1 && recordCount + concurrency + batchSize <= TWO_31
  }

  /**
   * The batches of one thread, batch i being [start + batchSize * i,
   * min(start + batchSize * (i + 1), end)), together cover exactly the
   * thread's range [start, end), in order and once each.
   */
  lemma ThreadBatchesCover(recordCount: int, concurrency: int, batchSize: int, id: nat)
    requires Fits(recordCount, concurrency, batchSize)
    ensures var (start, end) := ThreadRange(recordCount, concurrency, id);
            var n := NumPerThread(recordCount, concurrency);
            Chunks(start, end, batchSize, BatchCount(n, batchSize)) == Interval(start, end)
  {
    var (start, end) := ThreadRange(recordCount, concurrency, id);
    var n := NumPerThread(recordCount, concurrency);
    var b := BatchCount(n, batchSize);
    ChunksCover(start, end, batchSize, b);
    assert n * (id + 1) == start + n;
    assert end <= start + batchSize * b;
  }

  /** The ids the first `count` threads load, thread after thread. */
  function AllThreads(recordCount: int, concurrency: int, count: nat): seq<int>
    requires recordCount >= 0 && concurrency >= 1
  {
    if count == 0 then []
    else
      var (start, end) := ThreadRange(recordCount, concurrency, count - 1);
      AllThreads(recordCount, concurrency, count - 1) + Interval(start, end)
  }

  lemma {:induction false} AllThreadsAreChunks(recordCount: int, concurrency: int, count: nat)
    requires recordCount >= 0 && concurrency >= 1
    ensures AllThreads(recordCount, concurrency, count)
              == Chunks(0, recordCount, NumPerThread(recordCount, concurrency), count)
  {
    if count > 0 {
      AllThreadsAreChunks(recordCount, concurrency, count - 1);
    }
  }

  /**
   * Threads 0 .. concurrency - 1 together load every record id in
   * [0, recordCount) exactly once, in ascending order of thread and id.
   */
  lemma AllThreadsCover(recordCount: int, concurrency: int)
    requires recordCount >= 0 && concurrency >= 1
    ensures AllThreads(recordCount, concurrency, concurrency) == Interval(0, recordCount)
  {
    var n := NumPerThread(recordCount, concurrency);
    AllThreadsAreChunks(recordCount, concurrency, concurrency);
    ChunksCover(0, recordCount, n, concurrency);
    assert Min(0 + n * concurrency, recordCount) == recordCount;
  }

  /** The record ids of an upsert log, in order. */
  function Ids(log: seq<(int, string)>): seq<int>
  {
    seq(|log|, k requires 0 <= k < |log| => log[k].0)
  }

  lemma IdsSnoc(log: seq<(int, string)>, u: (int, string))
    ensures Ids(log + [u]) == Ids(log) + [u.0]
  {
  }

  /** From position `from` on, every upsert of the log carries such a payload. */
  predicate PayloadsFrom(log: seq<(int, string)>, from: nat, len: int)
  {
    from <= |log| && forall k :: from <= k < |log| ==> IsPayload(log[k].1, len)
  }

  lemma MulStep(size: int, i: nat)
    requires size >= 1
    ensures size * i >= 0 && size * (i + 1) == size * i + size
  {
  }

  /** Two stretches of upserts, one after the other, make one. */
  lemma LogStep(base: seq<(int, string)>, mid: seq<(int, string)>, log: seq<(int, string)>, a: seq<int>, b: seq<int>, len: int)
    requires base <= mid && mid <= log
    requires Ids(mid) == Ids(base) + a && Ids(log) == Ids(mid) + b
    requires PayloadsFrom(mid, |base|, len) && PayloadsFrom(log, |mid|, len)
    ensures base <= log
    ensures Ids(log) == Ids(base) + (a + b)
    ensures PayloadsFrom(log, |base|, len)
  {
    assert log[..|mid|] == mid;
  }

  // ---- object storage writes of the transaction variant --------------------------------

  /** putForSingleStorage: a get of the record first only when overwriting, then the put. */
  function PutForSingleStorage(overwrite: bool, userId: int, payload: string): (ops: seq<Op>)
    ensures overwrite <==> exists k :: 0 <= k < |ops| && ops[k].GetOp?
  {
    var ops := (if overwrite then [PrepareGet(NAMESPACE, TABLE, userId)] else [])
               + [PreparePut(NAMESPACE, TABLE, userId, payload)];
    assert overwrite ==> ops[0].GetOp?;
    ops
  }

  /** putForMultiStorage: gets of both copies first only when overwriting, then the same put to both namespaces. */
  function PutForMultiStorage(overwrite: bool, userId: int, payload: string): (ops: seq<Op>)
    ensures overwrite <==> exists k :: 0 <= k < |ops| && ops[k].GetOp?
  {
    var ops := (if overwrite then [PrepareGet(NAMESPACE_PRIMARY, TABLE, userId), PrepareGet(NAMESPACE_SECONDARY, TABLE, userId)]
                else [])
               + [PreparePut(NAMESPACE_PRIMARY, TABLE, userId, payload), PreparePut(NAMESPACE_SECONDARY, TABLE, userId, payload)];
    assert overwrite ==> ops[0].GetOp?;
    ops
  }

  /** The reads overwrite adds change nothing: with or without it, the record holds the payload. */
  lemma SingleStorageWrites(db: Db, overwrite: bool, userId: int, payload: string)
    ensures Apply(db, PutForSingleStorage(overwrite, userId, payload))
              == Apply(db, [PreparePut(NAMESPACE, TABLE, userId, payload)])
    ensures Holds(Apply(db, PutForSingleStorage(overwrite, userId, payload)),
                  PrepareGet(NAMESPACE, TABLE, userId).key, PAYLOAD, TextV(payload))
  {
    var ops := PutForSingleStorage(overwrite, userId, payload);
    if overwrite {
      assert ops[..1] == [PrepareGet(NAMESPACE, TABLE, userId)];
      assert ops[..1][..0] == [];
    }
    PutThenGet(db, NAMESPACE, TABLE, userId, payload);
  }

  /** Both namespaces end up holding the same payload for the record. */
  lemma MultiStorageWrites(db: Db, overwrite: bool, userId: int, payload: string)
    ensures var done := Apply(db, PutForMultiStorage(overwrite, userId, payload));
            && Holds(done, PrepareGet(NAMESPACE_PRIMARY, TABLE, userId).key, PAYLOAD, TextV(payload))
            && Holds(done, PrepareGet(NAMESPACE_SECONDARY, TABLE, userId).key, PAYLOAD, TextV(payload))
  {
    var ops := PutForMultiStorage(overwrite, userId, payload);
    var g := |ops| - 2;
    var primary := PreparePut(NAMESPACE_PRIMARY, TABLE, userId, payload);
    var secondary := PreparePut(NAMESPACE_SECONDARY, TABLE, userId, payload);
    assert ops[g] == primary && ops[g + 1] == secondary;
    assert forall k :: 0 <= k < g ==> ops[k].GetOp?;
    GetsChangeNothing(db, ops[..g]);
    assert ops[..g + 1][..g] == ops[..g];
    assert ops[..|ops| - 1] == ops[..g + 1];
    var before := Apply(db, ops[..g + 1]);
    assert before == Apply(db, [primary]);
    PutThenGet(db, NAMESPACE_PRIMARY, TABLE, userId, payload);
    assert NAMESPACE_PRIMARY[5] != NAMESPACE_SECONDARY[5];
    assert primary.key.table != secondary.key.table;
    PutThenGet(before, NAMESPACE_SECONDARY, TABLE, userId, payload);
  }

  /** A run of gets leaves the store as it was. */
  lemma {:induction false} GetsChangeNothing(db: Db, ops: seq<Op>)
    requires forall k :: 0 <= k < |ops| ==> ops[k].GetOp?
    ensures Apply(db, ops) == db
    decreases |ops|
  {
    if |ops| > 0 {
      GetsChangeNothing(db, ops[..|ops| - 1]);
    }
  }

  // ---- the loader thread ------------------------------------------------------------

  class LoadRunner {
    const id: nat
    const concurrency: int
    const batchSize: int
    const recordCount: int
    const overwrite: bool
    /** The payload array every record of this thread refills. */
    const payload: array<char>
    /** The object-storage upserts made so far: record id and payload, in order. */
    var upserts: seq<(int, string)>

    constructor (threadId: nat, concurrency: int, batchSize: int, recordCount: int, payloadSize: nat, overwrite: bool)
      ensures id == threadId && this.concurrency == concurrency && this.batchSize == batchSize
      ensures this.recordCount == recordCount && this.overwrite == overwrite
      ensures fresh(payload) && payload.Length == payloadSize && upserts == []
    {
      id := threadId;
      this.concurrency := concurrency;
      this.batchSize := batchSize;
      this.recordCount := recordCount;
      this.overwrite := overwrite;
      payload := new char[payloadSize];
      upserts := [];
    }

    /** The ids this thread loads. */
    function Range(): (int, int)
      requires recordCount >= 0 && concurrency >= 1
    {
      ThreadRange(recordCount, concurrency, id)
    }

    /**
     * run(forMultiStorage): every batch in order; the flag is handed to
     * populateWithTx, which does not use it.  The thread upserts exactly the
     * ids of its range, in ascending order, each once, with the payload its
     * draws give.
     */
    method Run(forMultiStorage: bool, draws: seq<FastDraws>)
      requires Fits(recordCount, concurrency, batchSize) && id < concurrency
      requires |draws| == |Interval(Range().0, Range().1)| && DrawsForEach(draws, payload.Length)
      modifies this`upserts, payload
      ensures old(upserts) <= upserts
      ensures Ids(upserts) == Ids(old(upserts)) + Interval(Range().0, Range().1)
      ensures PayloadsFrom(upserts, |old(upserts)|, payload.Length)
    {
      var numPerThread := NumPerThread(recordCount, concurrency);
      var (start, end) := ThreadRange(recordCount, concurrency, id);
      var batches := BatchCount(numPerThread, batchSize);
      for i := 0 to batches
        invariant old(upserts) <= upserts
        invariant Ids(upserts) == Ids(old(upserts)) + Interval(start, Min(start + batchSize * i, end))
        invariant PayloadsFrom(upserts, |old(upserts)|, payload.Length)
      {
        var startId := start + batchSize * i;
        MulStep(batchSize, i);
        Batch(start, end, startId, forMultiStorage, draws, old(upserts));
      }
      ChunksCover(start, end, batchSize, batches);
      ThreadBatchesCover(recordCount, concurrency, batchSize, id);
    }

    /**
     * The body of run's forEach for the batch starting at startId = start +
     * batchSize * i: it ends at min(startId + batchSize, end), and its records
     * take the draws that follow those of the batches before it.
     */
    method Batch(start: int, end: int, startId: int, forMultiStorage: bool, draws: seq<FastDraws>, ghost base: seq<(int, string)>)
      requires batchSize >= 1 && start <= startId
      requires |draws| == |Interval(start, end)| && DrawsForEach(draws, payload.Length)
      requires base <= upserts
      requires Ids(upserts) == Ids(base) + Interval(start, Min(startId, end))
      requires PayloadsFrom(upserts, |base|, payload.Length)
      modifies this`upserts, payload
      ensures base <= upserts
      ensures Ids(upserts) == Ids(base) + Interval(start, Min(startId + batchSize, end))
      ensures PayloadsFrom(upserts, |base|, payload.Length)
    {
      var endId := Min(startId + batchSize, end);
      var written := if Min(startId, end) > start then Min(startId, end) - start else 0;
      if startId < end {
        IntervalAppend(start, startId, endId);
      }
      ghost var mid := upserts;
      PopulateWithTx(startId, endId, forMultiStorage, draws[written..]);
      LogStep(base, mid, upserts, Interval(start, Min(startId, end)), Interval(startId, endId), payload.Length);
    }

    /** populateWithTx: for each id of the batch, refill the payload in place and upsert it. */
    method PopulateWithTx(startId: int, endId: int, forMultiStorage: bool, draws: seq<FastDraws>)
      requires |Interval(startId, endId)| <= |draws| && DrawsForEach(draws, payload.Length)
      modifies this`upserts, payload
      ensures old(upserts) <= upserts
      ensures Ids(upserts) == Ids(old(upserts)) + Interval(startId, endId)
      ensures PayloadsFrom(upserts, |old(upserts)|, payload.Length)
    {
      var i := startId;
      while i < endId
        invariant startId <= endId ==> startId <= i <= endId
        invariant startId > endId ==> i == startId
        invariant old(upserts) <= upserts
        invariant Ids(upserts) == Ids(old(upserts)) + Interval(startId, i)
        invariant PayloadsFrom(upserts, |old(upserts)|, payload.Length)
      {
        var filled := RandomFastChars(payload, draws[i - startId]);
        FastCharsPrintable(draws[i - startId], payload.Length);
        IdsSnoc(upserts, (i, filled[..]));
        upserts := upserts + [(i, filled[..])];
        assert Interval(startId, i + 1) == Interval(startId, i) + [i];
        i := i + 1;
      }
    }
  }
}
