// The shared pieces of the YCSB workloads: the 95 printable symbols the
// payloads are made of, randomFastChars (which fills a char array in place,
// ten characters per random draw through ten fixed bit masks, then one draw
// per remaining character), and the key layout of every get and put: the
// partition key ycsb_key is always 0 and the record id is the clustering key
// ycsb_clustering_key.
//
// The java.util.Random draws are parameters: `rounds` are the nextInt(10000)
// draws, one per block of ten, and `rest` the nextInt(95) draws of the tail.
module YcsbCommon {
  import opened Wrappers
  import opened JavaInt
  import opened Store

  const NAMESPACE: string := "ycsb"
  const NAMESPACE_PRIMARY: string := "ycsb_primary"
  const NAMESPACE_SECONDARY: string := "ycsb_secondary"
  const TABLE: string := "usertable"
  const YCSB_KEY: string := "ycsb_key"
  const YCSB_CLUSTERING_KEY: string := "ycsb_clustering_key"
  const PAYLOAD: string := "payload"

  const CHAR_START: int := 32   // ' '
  const CHAR_STOP: int := 126   // '~'
  const SYMBOL_COUNT: int := 1 + CHAR_STOP - CHAR_START

  /** CHAR_SYMBOLS[i] as the static initializer leaves it: the character CHAR_START + i. */
  function CharSymbol(i: int): char
    requires 0 <= i < SYMBOL_COUNT
  {
    (CHAR_START + i) as char
  }

  const FAST_MASKS: seq<nat> := [554189328, 277094664, 138547332, 69273666, 34636833,
                                 346368330, 727373493, 588826161, 935194491, 658099827]

  /** The static initializer: CHAR_SYMBOLS[i] = (char) (CHAR_START + i) for every slot. */
  method InitCharSymbols() returns (symbols: seq<char>)
    ensures |symbols| == SYMBOL_COUNT
    ensures forall i :: 0 <= i < |symbols| ==> symbols[i] as int == CHAR_START + i
  {
    var a := new char[1 + CHAR_STOP - CHAR_START];
    for i := 0 to a.Length
      invariant forall j :: 0 <= j < i ==> a[j] as int == CHAR_START + j
    {
      a[i] := (CHAR_START + i) as char;
    }
    symbols := a[..];
  }

  predicate Printable(c: char) { CHAR_START <= c as int <= CHAR_STOP }

  // ---- randomFastChars ----------------------------------------------------------

  /** A nextInt(CHAR_SYMBOLS.length) draw: an index of the symbol table. */
  type SymbolIndex = i: int | 0 <= i < 95

  /** A nextInt(10000) draw, one per block of ten characters. */
  type BlockDraw = r: int | 0 <= r < 10000

  /** The draws randomFastChars makes: nextInt(10000) per block, nextInt(95) per tail character. */
  datatype FastDraws = FastDraws(rounds: seq<BlockDraw>, rest: seq<SymbolIndex>)

  /** The draws for an array of `len` characters: len / 10 blocks, len % 10 single characters. */
  predicate DrawsFor(d: FastDraws, len: int)
  {
    && len >= 0
    && |d.rounds| == len / |FAST_MASKS| && |d.rest| == len % |FAST_MASKS|
  }

  /** The symbol one mask picks from a block's draw: CHAR_SYMBOLS[(rand | mask) % 95]. */
  function Masked(rand: BlockDraw, m: int): char
    requires 0 <= m < |FAST_MASKS|
  {
    CharSymbol(Or(rand, FAST_MASKS[m]) % SYMBOL_COUNT)
  }

  /** The ten characters of one block, one per mask in FAST_MASKS order. */
  function Block(rand: BlockDraw): seq<char>
  {
    seq(10, m requires 0 <= m < 10 => Masked(rand, m))
  }

  /** The blocks of the draws in `rounds`, in draw order. */
  function Blocks(rounds: seq<BlockDraw>): seq<char>
    decreases |rounds|
  {
    if |rounds| == 0 then [] else Blocks(rounds[..|rounds| - 1]) + Block(rounds[|rounds| - 1])
  }

  /**
   * What randomFastChars leaves in the array: the blocks, then one symbol per
   * tail draw.
   */
  function FastChars(d: FastDraws): seq<char>
    decreases |d.rest|
  {
    if |d.rest| == 0 then Blocks(d.rounds)
    else FastChars(FastDraws(d.rounds, d.rest[..|d.rest| - 1])) + [CharSymbol(d.rest[|d.rest| - 1])]
  }

  /** Character k of the blocks comes from draw k / 10 through mask k % 10. */
  lemma {:induction false} BlocksAt(rounds: seq<BlockDraw>, k: int)
    requires 0 <= k < 10 * |rounds|
    ensures |Blocks(rounds)| == 10 * |rounds|
    ensures Blocks(rounds)[k] == Masked(rounds[k / 10], k % 10)
    decreases |rounds|
  {
    var n := |rounds| - 1;
    BlocksLength(rounds[..n]);
    if k < 10 * n {
      BlocksAt(rounds[..n], k);
    } else {
      assert Blocks(rounds)[k] == Block(rounds[n])[k - 10 * n];
      assert k / 10 == n && k % 10 == k - 10 * n;
    }
  }

  lemma {:induction false} BlocksLength(rounds: seq<BlockDraw>)
    ensures |Blocks(rounds)| == 10 * |rounds|
    decreases |rounds|
  {
    if |rounds| > 0 {
      BlocksLength(rounds[..|rounds| - 1]);
    }
  }

  /**
   * randomFastChars fills every slot: the first 10 * (len / 10) characters
   * block by block from one draw each, the last len % 10 from one draw each,
   * and every character is printable (32 .. 126).
   */
  lemma {:induction false} FastCharsAt(d: FastDraws, len: int, k: int)
    requires DrawsFor(d, len) && 0 <= k < len
    ensures |FastChars(d)| == len
    ensures k < 10 * (len / 10) ==> FastChars(d)[k] == Masked(d.rounds[k / 10], k % 10)
    ensures k >= 10 * (len / 10) ==> FastChars(d)[k] == CharSymbol(d.rest[k - 10 * (len / 10)])
    ensures Printable(FastChars(d)[k])
    decreases |d.rest|
  {
    BlocksLength(d.rounds);
    var n := |d.rest|;
    if n > 0 && k < len - 1 {
      FastCharsAt(FastDraws(d.rounds, d.rest[..n - 1]), len - 1, k);
    } else if n == 0 {
      BlocksAt(d.rounds, k);
    } else {
      FastCharsLength(FastDraws(d.rounds, d.rest[..n - 1]));
    }
  }

  lemma {:induction false} FastCharsLength(d: FastDraws)
    ensures |FastChars(d)| == 10 * |d.rounds| + |d.rest|
    decreases |d.rest|
  {
    BlocksLength(d.rounds);
    if |d.rest| > 0 {
      FastCharsLength(FastDraws(d.rounds, d.rest[..|d.rest| - 1]));
    }
  }

  /** Every FastDraws fills a payload array of `len` characters. */
  predicate DrawsForEach(draws: seq<FastDraws>, len: int)
  {
    forall k :: 0 <= k < |draws| ==> DrawsFor(draws[k], len)
  }

  /** A payload as randomFastChars leaves it in an array of `len` characters: that many printable symbols. */
  predicate IsPayload(p: string, len: int)
  {
    |p| == len && forall j :: 0 <= j < |p| ==> Printable(p[j])
  }

  /** Every character randomFastChars produces is one of the printable symbols. */
  lemma FastCharsPrintable(d: FastDraws, len: int)
    requires DrawsFor(d, len)
    ensures |FastChars(d)| == len
    ensures forall k :: 0 <= k < len ==> Printable(FastChars(d)[k])
  {
    FastCharsLength(d);
    forall k | 0 <= k < len
      ensures Printable(FastChars(d)[k])
    {
      FastCharsAt(d, len, k);
    }
  }

  /**
   * randomFastChars(rng, chars): fills `chars` in place and returns the same
   * array.  The loop variable `i` runs over the whole array: ten slots per
   * block draw, then one slot per tail draw.
   */
  method RandomFastChars(chars: array<char>, d: FastDraws) returns (r: array<char>)
    requires DrawsFor(d, chars.Length)
    modifies chars
    ensures r == chars
    ensures chars[..] == FastChars(d)
  {
    var numRounds := chars.Length / |FAST_MASKS|;
    var i := 0;
    for ctr := 0 to numRounds
      invariant i == 10 * ctr
      invariant chars[..i] == Blocks(d.rounds[..ctr])
    {
      var rand := d.rounds[ctr];
      FillBlock(chars, i, rand);
      i := i + |FAST_MASKS|;
      assert d.rounds[..ctr + 1][..ctr] == d.rounds[..ctr];
    }
    assert d.rounds[..numRounds] == d.rounds;
    while i < chars.Length
      invariant 10 * numRounds <= i <= chars.Length
      invariant chars[..i] == FastChars(FastDraws(d.rounds, d.rest[..i - 10 * numRounds]))
    {
      chars[i] := CharSymbol(d.rest[i - 10 * numRounds]);
      assert chars[..i + 1] == chars[..i] + [chars[i]];
      assert d.rest[..i + 1 - 10 * numRounds][..i - 10 * numRounds] == d.rest[..i - 10 * numRounds];
      i := i + 1;
    }
    assert chars[..] == chars[..i];
    assert d.rest[..i - 10 * numRounds] == d.rest;
    return chars;
  }

  /** The inner loop of randomFastChars: one draw, one symbol per mask, written at `at`, `at` + 1, ... */
  method FillBlock(chars: array<char>, at: int, rand: BlockDraw)
    requires 0 <= at && at + |FAST_MASKS| <= chars.Length
    modifies chars
    ensures chars[..at + |FAST_MASKS|] == old(chars[..at]) + Block(rand)
  {
    ghost var done := chars[..at];
    var i := at;
    for m := 0 to |FAST_MASKS|
      invariant i == at + m
      invariant chars[..i] == done + Block(rand)[..m]
    {
      chars[i] := CharSymbol(Or(rand, FAST_MASKS[m]) % SYMBOL_COUNT);
      assert chars[..i + 1] == chars[..i] + [chars[i]];
      assert Block(rand)[..m + 1] == Block(rand)[..m] + [Block(rand)[m]];
      i := i + 1;
    }
  }

  // ---- key layout ------------------------------------------------------------------

  /** The store key of namespace `ns`, table `table`, record `key`: partition ycsb_key = 0, clustering ycsb_clustering_key = key. */
  function RecordKey(ns: string, table: string, key: int): Key
  {
    Key(ns + "." + table, [Column(YCSB_KEY, IntV(0))], [Column(YCSB_CLUSTERING_KEY, IntV(key))])
  }

  /** A store operation a YCSB transaction issues. */
  datatype Op = GetOp(key: Key) | PutOp(key: Key, values: seq<Column>)

  /** prepareGet(namespace, table, key). */
  function PrepareGet(ns: string, table: string, key: int): (op: Op)
    ensures op.GetOp? && op.key.table == ns + "." + table
    ensures op.key.partition == [Column(YCSB_KEY, IntV(0))]
    ensures op.key.clustering == [Column(YCSB_CLUSTERING_KEY, IntV(key))]
  {
    GetOp(RecordKey(ns, table, key))
  }

  /** preparePut(namespace, table, key, payload): the same key, the payload as the one text value. */
  function PreparePut(ns: string, table: string, key: int, payload: string): (op: Op)
    ensures op.PutOp? && op.key == PrepareGet(ns, table, key).key
    ensures op.values == [Column(PAYLOAD, TextV(payload))]
  {
    PutOp(RecordKey(ns, table, key), [Column(PAYLOAD, TextV(payload))])
  }

  /** The store after the operations: puts applied in order, gets change nothing. */
  function Apply(db: Db, ops: seq<Op>): Db
    decreases |ops|
  {
    if |ops| == 0 then db
    else
      var before := Apply(db, ops[..|ops| - 1]);
      var op := ops[|ops| - 1];
      if op.PutOp? then Put(before, op.key, op.values) else before
  }

  /** The record id a key of the record layout names: its int clustering key (-1 for a key of another shape). */
  function RecordId(k: Key): int
  {
    if |k.clustering| > 0 && k.clustering[0].value.IntV? then k.clustering[0].value.i else -1
  }

  /** Distinct record ids are distinct records. */
  lemma RecordKeyInjective(ns: string, table: string, a: int, b: int)
    requires a != b
    ensures PrepareGet(ns, table, a).key != PrepareGet(ns, table, b).key
  {
    assert PrepareGet(ns, table, a).key.clustering[0].value.i == a;
  }

  /** A get prepared for a record reads back what a put prepared for it wrote. */
  lemma PutThenGet(db: Db, ns: string, table: string, key: int, payload: string)
    ensures var written := Apply(db, [PreparePut(ns, table, key, payload)]);
            && Holds(written, PrepareGet(ns, table, key).key, PAYLOAD, TextV(payload))
            && Holds(written, PrepareGet(ns, table, key).key, YCSB_CLUSTERING_KEY, IntV(key))
            && Holds(written, PrepareGet(ns, table, key).key, YCSB_KEY, IntV(0))
  {
    var k := RecordKey(ns, table, key);
    var values := [Column(PAYLOAD, TextV(payload))];
    assert Apply(db, [PreparePut(ns, table, key, payload)]) == Put(db, k, values);
    PutReadsBackAt(db, k, values, 0);
    var cols := KeyColumns(k) + values;
    assert cols == [Column(YCSB_KEY, IntV(0)), Column(YCSB_CLUSTERING_KEY, IntV(key)), Column(PAYLOAD, TextV(payload))];
    assert YCSB_KEY != YCSB_CLUSTERING_KEY && YCSB_KEY[5] != PAYLOAD[5] && YCSB_CLUSTERING_KEY[0] != PAYLOAD[0];
    RowOfAt(cols, 0);
    RowOfAt(cols, 1);
  }
}
