// The ScalarDB transactional store as the benchmark sees it: a map from
// (table, partition key, clustering key) to a row of named values.  A put
// merges its columns into the row (creating it if absent), a delete removes
// the record, a get returns the row if present, a scan returns the records of
// one partition ordered by clustering key, and an index scan returns the
// records whose indexed column holds a given value.
module Store {
  import opened Wrappers
  import opened Text

  datatype Value = IntV(i: int) | BigIntV(b: int) | DoubleV(d: real) | TextV(s: string)
  datatype Column = Column(name: string, value: Value)
  datatype Key = Key(table: string, partition: seq<Column>, clustering: seq<Column>)
  type Row = map<string, Value>
  type Db = map<Key, Row>
  datatype Entry = Entry(key: Key, row: Row)

  /** The exceptions a transaction body can raise; any of them aborts the transaction. */
  datatype TxError =
    | NotFound(what: string)        // a TransactionException for a missing record
    | NoSuchValue(column: string)   // Optional.get() on a column the row lacks
    | BadIndex(what: string)        // an index outside a list or an array
    | BadArgument(what: string)     // an IllegalArgumentException or IllegalStateException
    | Conflict                      // a CrudConflictException or CommitConflictException
    | DivisionByZero                // an ArithmeticException from an integer division by zero

  /** The row a list of columns writes; a later column with the same name wins. */
  function RowOf(cols: seq<Column>): Row
    decreases |cols|
  {
    if |cols| == 0 then map[]
    else
      var last := cols[|cols| - 1];
      RowOf(cols[..|cols| - 1])[last.name := last.value]
  }

  /** The row names exactly the columns listed. */
  lemma {:induction false} RowOfNames(cols: seq<Column>)
    ensures forall n :: n in RowOf(cols) <==> exists c :: c in cols && c.name == n
    decreases |cols|
  {
    if |cols| > 0 {
      var last := cols[|cols| - 1];
      RowOfNames(cols[..|cols| - 1]);
      assert forall c :: c in cols <==> c in cols[..|cols| - 1] || c == last;
    }
  }

  predicate DistinctNames(cols: seq<Column>)
  {
    forall i, j :: 0 <= i < j < |cols| ==> cols[i].name != cols[j].name
  }

  /** With distinct names, each column's value is what the row holds under its name. */
  lemma {:induction false} RowOfLookup(cols: seq<Column>, i: int)
    requires DistinctNames(cols) && 0 <= i < |cols|
    ensures cols[i].name in RowOf(cols) && RowOf(cols)[cols[i].name] == cols[i].value
    decreases |cols|
  {
    if i < |cols| - 1 {
      RowOfLookup(cols[..|cols| - 1], i);
    }
  }

  /** The stored row does not depend on the order in which distinct columns are listed. */
  lemma RowOfOrderIrrelevant(a: seq<Column>, b: seq<Column>)
    requires DistinctNames(a) && DistinctNames(b)
    requires forall c :: c in a <==> c in b
    ensures RowOf(a) == RowOf(b)
  {
    RowOfNames(a);
    RowOfNames(b);
    forall n | n in RowOf(a)
      ensures n in RowOf(b) && RowOf(a)[n] == RowOf(b)[n]
    {
      var i :| 0 <= i < |a| && a[i].name == n;
      RowOfLookup(a, i);
      var j :| 0 <= j < |b| && b[j] == a[i];
      RowOfLookup(b, j);
    }
  }

  function KeyColumns(k: Key): seq<Column> { k.partition + k.clustering }

  /** A put keeps the columns it does not name and sets the key columns and the ones it names. */
  function Put(db: Db, k: Key, values: seq<Column>): Db
  {
    var prev := if k in db then db[k] else map[];
    db[k := prev + RowOf(KeyColumns(k) + values)]
  }

  /** A put followed by a get returns what was put under each named column (names being distinct). */
  lemma PutReadsBack(db: Db, k: Key, values: seq<Column>, i: int)
    requires DistinctNames(KeyColumns(k) + values) && 0 <= i < |values|
    ensures k in Put(db, k, values) && values[i].name in Put(db, k, values)[k]
    ensures Put(db, k, values)[k][values[i].name] == values[i].value
  {
    var cols := KeyColumns(k) + values;
    var j := |KeyColumns(k)| + i;
    assert cols[j] == values[i];
    RowOfLookup(cols, j);
  }

  /** Whether the store holds record `k` with value `v` under column `name`. */
  predicate Holds(db: Db, k: Key, name: string, v: Value)
  {
    k in db && name in db[k] && db[k][name] == v
  }

  /** A get whose absent result the caller turns into a TransactionException naming `what`. */
  function GetOr(db: Db, k: Key, what: string): (r: Result<Row, TxError>)
    ensures r.Ok? <==> k in db
    ensures r.Ok? ==> r.value == db[k]
    ensures r.Err? ==> r.error == NotFound(what)
  {
    if k in db then Ok(db[k]) else Err(NotFound(what))
  }

  /** A column no later column renames is what the row holds under its name. */
  lemma {:induction false} RowOfAt(cols: seq<Column>, i: int)
    requires 0 <= i < |cols|
    requires forall j :: i < j < |cols| ==> cols[j].name != cols[i].name
    ensures cols[i].name in RowOf(cols) && RowOf(cols)[cols[i].name] == cols[i].value
    decreases |cols|
  {
    if i < |cols| - 1 {
      RowOfAt(cols[..|cols| - 1], i);
    }
  }

  /** After a put, a value column no later value column renames reads back as written. */
  lemma PutReadsBackAt(db: Db, k: Key, values: seq<Column>, i: int)
    requires 0 <= i < |values|
    requires forall j :: i < j < |values| ==> values[j].name != values[i].name
    ensures k in Put(db, k, values) && values[i].name in Put(db, k, values)[k]
    ensures Put(db, k, values)[k][values[i].name] == values[i].value
  {
    var cols := KeyColumns(k) + values;
    var n := |KeyColumns(k)|;
    assert cols[n + i] == values[i];
    assert forall j :: n + i < j < |cols| ==> cols[j] == values[j - n];
    RowOfAt(cols, n + i);
  }

  /** A put leaves a column it does not name as the row held it (absent when the row was). */
  lemma PutKeepsColumn(db: Db, k: Key, values: seq<Column>, name: string)
    requires forall c :: c in KeyColumns(k) + values ==> c.name != name
    ensures k in Put(db, k, values)
    ensures name in Put(db, k, values)[k] <==> k in db && name in db[k]
    ensures name in Put(db, k, values)[k] ==> Put(db, k, values)[k][name] == db[k][name]
  {
    RowOfNames(KeyColumns(k) + values);
  }

  /** Record `k` is in both stores or neither, and the same in both. */
  predicate SameRecord(db: Db, db': Db, k: Key)
  {
    (k in db' <==> k in db) && (k in db ==> db'[k] == db[k])
  }

  function Delete(db: Db, k: Key): (r: Db)
    ensures r.Keys == db.Keys - {k}
    ensures forall k' :: k' in r ==> r[k'] == db[k']
  {
    db - {k}
  }

  // ---- reading typed columns of a row -------------------------------------

  function IntOf(row: Row, name: string): (r: Result<int, TxError>)
    ensures r.Ok? <==> name in row && row[name].IntV?
    ensures r.Ok? ==> row[name] == IntV(r.value)
  {
    if name in row && row[name].IntV? then Ok(row[name].i) else Err(NoSuchValue(name))
  }

  function BigIntOf(row: Row, name: string): (r: Result<int, TxError>)
    ensures r.Ok? <==> name in row && row[name].BigIntV?
    ensures r.Ok? ==> row[name] == BigIntV(r.value)
  {
    if name in row && row[name].BigIntV? then Ok(row[name].b) else Err(NoSuchValue(name))
  }

  /**
   * getValue(name).get().getAsLong() on a BIGINT column of the table's schema:
   * a column no put wrote is null, and ScalarDB reads a null BIGINT as 0.
   */
  function NullableBigIntOf(row: Row, name: string): (r: Result<int, TxError>)
    ensures r.Ok? <==> name !in row || row[name].BigIntV?
    ensures r.Ok? && name in row ==> row[name] == BigIntV(r.value)
    ensures name !in row ==> r == Ok(0)
  {
    if name !in row then Ok(0) else BigIntOf(row, name)
  }

  function DoubleOf(row: Row, name: string): (r: Result<real, TxError>)
    ensures r.Ok? <==> name in row && row[name].DoubleV?
    ensures r.Ok? ==> row[name] == DoubleV(r.value)
  {
    if name in row && row[name].DoubleV? then Ok(row[name].d) else Err(NoSuchValue(name))
  }

  function TextOf(row: Row, name: string): (r: Result<string, TxError>)
    ensures r.Ok? <==> name in row && row[name].TextV?
    ensures r.Ok? ==> row[name] == TextV(r.value)
  {
    if name in row && row[name].TextV? then Ok(row[name].s) else Err(NoSuchValue(name))
  }

  // ---- the order of keys ---------------------------------------------------

  function Rank(v: Value): int
  {
    match v
    case IntV(_) => 0
    case BigIntV(_) => 1
    case DoubleV(_) => 2
    case TextV(_) => 3
  }

  predicate ValueLess(a: Value, b: Value)
  {
    if Rank(a) != Rank(b) then Rank(a) < Rank(b)
    else match a
      case IntV(x) => x < b.i
      case BigIntV(x) => x < b.b
      case DoubleV(x) => x < b.d
      case TextV(x) => StrLess(x, b.s)
  }

  predicate ColumnLess(a: Column, b: Column)
  {
    ValueLess(a.value, b.value) || (a.value == b.value && StrLess(a.name, b.name))
  }

  /** Lexicographic order of key column lists, a proper prefix first. */
  predicate ColsLess(a: seq<Column>, b: seq<Column>)
    decreases |a|
  {
    if |a| == 0 then |b| > 0
    else if |b| == 0 then false
    else ColumnLess(a[0], b[0]) || (a[0] == b[0] && ColsLess(a[1..], b[1..]))
  }

  predicate KeyLess(a: Key, b: Key)
  {
    StrLess(a.table, b.table) ||
    (a.table == b.table &&
      (ColsLess(a.partition, b.partition) ||
       (a.partition == b.partition && ColsLess(a.clustering, b.clustering))))
  }

  lemma ValueLessFacts(a: Value, b: Value, c: Value)
    ensures !ValueLess(a, a)
    ensures ValueLess(a, b) && ValueLess(b, c) ==> ValueLess(a, c)
    ensures a != b ==> ValueLess(a, b) || ValueLess(b, a)
  {
    if a.TextV? {
      StrLessIrreflexive(a.s);
    }
    if a.TextV? && b.TextV? && c.TextV? && ValueLess(a, b) && ValueLess(b, c) {
      StrLessTransitive(a.s, b.s, c.s);
    }
    if a.TextV? && b.TextV? && a != b {
      StrLessTotal(a.s, b.s);
    }
  }

  lemma ColumnLessFacts(a: Column, b: Column, c: Column)
    ensures !ColumnLess(a, a)
    ensures ColumnLess(a, b) && ColumnLess(b, c) ==> ColumnLess(a, c)
    ensures a != b ==> ColumnLess(a, b) || ColumnLess(b, a)
  {
    ValueLessFacts(a.value, b.value, c.value);
    ValueLessFacts(b.value, a.value, c.value);
    ValueLessFacts(a.value, c.value, b.value);
    StrLessIrreflexive(a.name);
    if ColumnLess(a, b) && ColumnLess(b, c) && a.value == b.value == c.value {
      StrLessTransitive(a.name, b.name, c.name);
    }
    if a != b && a.value == b.value {
      StrLessTotal(a.name, b.name);
    }
  }

  lemma {:induction false} ColsLessFacts(a: seq<Column>, b: seq<Column>, c: seq<Column>)
    ensures !ColsLess(a, a)
    ensures ColsLess(a, b) && ColsLess(b, c) ==> ColsLess(a, c)
    ensures a != b ==> ColsLess(a, b) || ColsLess(b, a)
    decreases |a|
  {
    if |a| > 0 && |b| > 0 && |c| > 0 {
      ColumnLessFacts(a[0], b[0], c[0]);
      ColsLessFacts(a[1..], b[1..], c[1..]);
    } else if |a| > 0 && |b| > 0 {
      ColumnLessFacts(a[0], b[0], a[0]);
      ColsLessFacts(a[1..], b[1..], b[1..]);
      if a != b && a[0] == b[0] {
        assert a == [a[0]] + a[1..] && b == [b[0]] + b[1..];
      }
    } else if |a| > 0 {
      ColumnLessFacts(a[0], a[0], a[0]);
      ColsLessFacts(a[1..], a[1..], a[1..]);
    }
  }

  lemma KeyLessFacts(a: Key, b: Key, c: Key)
    ensures !KeyLess(a, a)
    ensures KeyLess(a, b) && KeyLess(b, c) ==> KeyLess(a, c)
    ensures a != b ==> KeyLess(a, b) || KeyLess(b, a)
  {
    StrLessIrreflexive(a.table);
    ColsLessFacts(a.partition, b.partition, c.partition);
    ColsLessFacts(a.clustering, b.clustering, c.clustering);
    ColsLessFacts(b.partition, a.partition, c.partition);
    ColsLessFacts(b.clustering, a.clustering, c.clustering);
    if KeyLess(a, b) && KeyLess(b, c) && StrLess(a.table, b.table) && StrLess(b.table, c.table) {
      StrLessTransitive(a.table, b.table, c.table);
    }
    if a.table != b.table {
      StrLessTotal(a.table, b.table);
    }
  }

  /** Within one partition of one table, keys are ordered by their clustering columns. */
  lemma KeyLessInPartition(a: Key, b: Key)
    requires a.table == b.table && a.partition == b.partition
    ensures KeyLess(a, b) <==> ColsLess(a.clustering, b.clustering)
  {
    StrLessIrreflexive(a.table);
    ColsLessFacts(a.partition, a.partition, a.partition);
  }

  /** A single int clustering column orders keys by that int. */
  lemma ColsLessSingleInt(n: string, x: int, y: int)
    ensures ColsLess([Column(n, IntV(x))], [Column(n, IntV(y))]) <==> x < y
  {
    StrLessIrreflexive(n);
    var a, b := [Column(n, IntV(x))], [Column(n, IntV(y))];
    assert a[1..] == [] && b[1..] == [];
  }

  // ---- sorting a set of keys -------------------------------------------------

  predicate IsMin(m: Key, s: set<Key>)
  {
    m in s && forall k | k in s :: !KeyLess(k, m)
  }

  lemma MinExists(s: set<Key>)
    requires s != {}
    ensures exists m :: IsMin(m, s)
    decreases |s|
  {
    var x :| x in s;
    if s != {x} {
      MinExists(s - {x});
      var m :| IsMin(m, s - {x});
      if KeyLess(x, m) {
        forall k | k in s ensures !KeyLess(k, x) {
          KeyLessFacts(k, x, m);
          KeyLessFacts(x, x, x);
        }
        assert IsMin(x, s);
      } else {
        assert IsMin(m, s);
      }
    } else {
      KeyLessFacts(x, x, x);
      assert IsMin(x, s);
    }
  }

  lemma MinUnique(s: set<Key>, m1: Key, m2: Key)
    requires IsMin(m1, s) && IsMin(m2, s)
    ensures m1 == m2
  {
    KeyLessFacts(m1, m2, m1);
  }

  ghost function MinOf(s: set<Key>): (m: Key)
    requires s != {}
    ensures IsMin(m, s)
  {
    MinExists(s);
    var m :| IsMin(m, s); m
  }

  /** The keys of `s` in ascending key order. */
  ghost function SortedKeys(s: set<Key>): seq<Key>
    decreases |s|
  {
    if s == {} then [] else [MinOf(s)] + SortedKeys(s - {MinOf(s)})
  }

  predicate StrictlyAscending(keys: seq<Key>)
  {
    forall i, j :: 0 <= i < j < |keys| ==> KeyLess(keys[i], keys[j])
  }

  /** The sorted keys are the keys of the set. */
  lemma {:induction false} SortedKeysMembers(s: set<Key>)
    ensures |SortedKeys(s)| == |s|
    ensures forall k :: k in SortedKeys(s) <==> k in s
    decreases |s|
  {
    if s != {} {
      SortedKeysMembers(s - {MinOf(s)});
    }
  }

  lemma {:induction false} SortedKeysSpec(s: set<Key>)
    ensures |SortedKeys(s)| == |s|
    ensures forall k :: k in SortedKeys(s) <==> k in s
    ensures StrictlyAscending(SortedKeys(s))
    decreases |s|
  {
    SortedKeysMembers(s);
    if s != {} {
      var m := MinOf(s);
      SortedKeysSpec(s - {m});
      var r := SortedKeys(s);
      forall i, j | 0 <= i < j < |r| ensures KeyLess(r[i], r[j]) {
        if i == 0 {
          assert r[j] in s && r[j] != m;
          KeyLessFacts(m, r[j], m);
        }
      }
    }
  }

  /** The first key of a non-empty sequence is one of its keys. */
  lemma HeadMember(s: seq<Key>)
    requires |s| != 0
    ensures s[0] in s
  {
  }

  /** Two strictly ascending sequences with the same keys are the same sequence. */
  lemma {:induction false} AscendingUnique(s1: seq<Key>, s2: seq<Key>)
    requires StrictlyAscending(s1) && StrictlyAscending(s2)
    requires forall k :: k in s1 <==> k in s2
    ensures s1 == s2
    decreases |s1|
  {
    if |s1| != 0 {
      assert s1[0] in s2;
      var x, y := s1[0], s2[0];
      if x != y {
        assert y in s1;
        var i :| 0 <= i < |s1| && s1[i] == y;
        var j :| 0 <= j < |s2| && s2[j] == x;
        KeyLessFacts(x, y, x);
      }
      forall k ensures k in s1[1..] <==> k in s2[1..] {
        if k in s1[1..] {
          var i :| 0 <= i < |s1| - 1 && s1[1..][i] == k;
          assert s1[i + 1] == k;
          KeyLessFacts(x, k, x);
          assert k in s1 && k in s2;
          var j :| 0 <= j < |s2| && s2[j] == k;
          assert s2[1..][j - 1] == k;
        }
        if k in s2[1..] {
          var j :| 0 <= j < |s2| - 1 && s2[1..][j] == k;
          assert s2[j + 1] == k;
          KeyLessFacts(y, k, y);
          assert k in s2 && k in s1;
          var i :| 0 <= i < |s1| && s1[i] == k;
          assert s1[1..][i - 1] == k;
        }
      }
      AscendingUnique(s1[1..], s2[1..]);
      assert s1 == [x] + s1[1..] && s2 == [y] + s2[1..];
    } else if |s2| != 0 {
      HeadMember(s2);
      assert false;
    }
  }

  method SortKeys(s: set<Key>) returns (r: seq<Key>)
    ensures r == SortedKeys(s)
  {
    r := [];
    var rest := s;
    while rest != {}
      invariant r + SortedKeys(rest) == SortedKeys(s)
      decreases |rest|
    {
      MinExists(rest);
      var m :| IsMin(m, rest);
      MinUnique(rest, m, MinOf(rest));
      r, rest := r + [m], rest - {m};
    }
  }

  function Reverse<T>(s: seq<T>): (r: seq<T>)
    ensures |r| == |s|
    ensures forall i :: 0 <= i < |s| ==> r[i] == s[|s| - 1 - i]
  {
    if |s| == 0 then [] else Reverse(s[1..]) + [s[0]]
  }

  // ---- scans -----------------------------------------------------------------

  /** A scan range on the first clustering column, inclusive at both ends (`withStart`/`withEnd`). */
  predicate InRange(k: Key, range: Option<(int, int)>)
  {
    range.None? ||
    (|k.clustering| > 0 && k.clustering[0].value.IntV? &&
     range.value.0 <= k.clustering[0].value.i <= range.value.1)
  }

  function Matching(db: Db, table: string, partition: seq<Column>, range: Option<(int, int)>): set<Key>
  {
    set k | k in db && k.table == table && k.partition == partition && InRange(k, range)
  }

  function Entries(db: Db, keys: seq<Key>): (r: seq<Entry>)
    requires forall k :: k in keys ==> k in db
    ensures |r| == |keys|
    ensures forall i :: 0 <= i < |keys| ==> r[i] == Entry(keys[i], db[keys[i]])
  {
    if |keys| == 0 then [] else [Entry(keys[0], db[keys[0]])] + Entries(db, keys[1..])
  }

  /** The first `limit` keys, or all of them when `limit` is 0 (no limit). */
  function Limit(keys: seq<Key>, limit: nat): (r: seq<Key>)
    ensures |r| == if limit == 0 || limit >= |keys| then |keys| else limit
    ensures r == keys[..|r|]
  {
    if limit == 0 || limit >= |keys| then keys else keys[..limit]
  }

  /** The keys a scan returns: `m` ordered ascending or descending, cut to the limit. */
  ghost function ScanKeys(m: set<Key>, ascending: bool, limit: nat): (r: seq<Key>)
    ensures forall k :: k in r ==> k in m
  {
    SortedKeysSpec(m);
    var sorted := SortedKeys(m);
    Limit(if ascending then sorted else Reverse(sorted), limit)
  }

  /** The keys of `keys` that belong to the partition (and range), in the order of `keys`. */
  function Select(keys: seq<Key>, table: string, partition: seq<Column>, range: Option<(int, int)>): (r: seq<Key>)
    ensures forall k :: k in r ==> k in keys
  {
    if |keys| == 0 then []
    else
      var rest := Select(keys[1..], table, partition, range);
      if keys[0].table == table && keys[0].partition == partition && InRange(keys[0], range) then [keys[0]] + rest
      else rest
  }

  lemma {:induction false} SelectMembers(keys: seq<Key>, table: string, partition: seq<Column>, range: Option<(int, int)>)
    ensures forall k :: k in Select(keys, table, partition, range) <==>
                          k in keys && k.table == table && k.partition == partition && InRange(k, range)
    decreases |keys|
  {
    if |keys| > 0 {
      SelectMembers(keys[1..], table, partition, range);
      assert forall k :: k in keys <==> k == keys[0] || k in keys[1..];
    }
  }

  lemma {:induction false} SelectAscending(keys: seq<Key>, table: string, partition: seq<Column>,
                                           range: Option<(int, int)>)
    requires StrictlyAscending(keys)
    ensures StrictlyAscending(Select(keys, table, partition, range))
    decreases |keys|
  {
    if |keys| > 0 {
      var rest := Select(keys[1..], table, partition, range);
      assert StrictlyAscending(keys[1..]) by {
        forall i, j | 0 <= i < j < |keys| - 1 ensures KeyLess(keys[1..][i], keys[1..][j]) {
          assert keys[1..][i] == keys[i + 1] && keys[1..][j] == keys[j + 1];
        }
      }
      SelectAscending(keys[1..], table, partition, range);
      var r := Select(keys, table, partition, range);
      if r != rest {
        forall i, j | 0 <= i < j < |r| ensures KeyLess(r[i], r[j]) {
          if i == 0 {
            assert r[j] in keys[1..];
          } else {
            assert r[i] == rest[i - 1] && r[j] == rest[j - 1];
          }
        }
      }
    }
  }

  /**
   * What `Scan(partition).withStart/withEnd/withOrdering/withLimit` returns:
   * the stored keys in key order, those of the partition (and range) kept,
   * reversed for a descending scan, cut to the limit.
   */
  ghost function ScanSpec(db: Db, table: string, partition: seq<Column>, range: Option<(int, int)>,
                          ascending: bool, limit: nat): seq<Entry>
  {
    SortedKeysMembers(db.Keys);
    var selected := Select(SortedKeys(db.Keys), table, partition, range);
    Entries(db, Limit(if ascending then selected else Reverse(selected), limit))
  }

  method Scan(db: Db, table: string, partition: seq<Column>, range: Option<(int, int)>,
              ascending: bool, limit: nat) returns (res: seq<Entry>)
    ensures res == ScanSpec(db, table, partition, range, ascending, limit)
  {
    var sorted := SortKeys(db.Keys);
    SortedKeysMembers(db.Keys);
    var selected := Select(sorted, table, partition, range);
    res := Entries(db, Limit(if ascending then selected else Reverse(selected), limit));
  }

  /** A scan lists the keys of the partition (and range) in sorted order. */
  lemma ScanSpecSorted(db: Db, table: string, partition: seq<Column>, range: Option<(int, int)>,
                       ascending: bool, limit: nat)
    ensures ScanSpec(db, table, partition, range, ascending, limit)
            == Entries(db, ScanKeys(Matching(db, table, partition, range), ascending, limit))
  {
    var m := Matching(db, table, partition, range);
    SortedKeysSpec(db.Keys);
    SortedKeysSpec(m);
    SelectMembers(SortedKeys(db.Keys), table, partition, range);
    SelectAscending(SortedKeys(db.Keys), table, partition, range);
    AscendingUnique(Select(SortedKeys(db.Keys), table, partition, range), SortedKeys(m));
  }

  /** The scanned keys are the first `limit` of the set in the requested order. */
  lemma ScanKeysProperties(m: set<Key>, ascending: bool, limit: nat)
    ensures var r := ScanKeys(m, ascending, limit);
            && |r| == (if limit == 0 || limit >= |m| then |m| else limit)
            && (forall i, j :: 0 <= i < j < |r| ==>
                  if ascending then KeyLess(r[i], r[j]) else KeyLess(r[j], r[i]))
            && (forall k, i :: k in m && k !in r && 0 <= i < |r| ==>
                  if ascending then KeyLess(r[i], k) else KeyLess(k, r[i]))
  {
    SortedKeysSpec(m);
    if ascending {
      AscendingPrefix(SortedKeys(m), Limit(SortedKeys(m), limit), KeyLess);
    } else {
      ScanKeysDescending(m, limit);
    }
  }

  lemma ScanKeysDescending(m: set<Key>, limit: nat)
    ensures var r := ScanKeys(m, false, limit);
            && (forall i, j :: 0 <= i < j < |r| ==> KeyLess(r[j], r[i]))
            && (forall k, i :: k in m && k !in r && 0 <= i < |r| ==> KeyLess(k, r[i]))
  {
    SortedKeysSpec(m);
    ReversedPrefix(SortedKeys(m), ScanKeys(m, false, limit), KeyLess);
  }

  lemma ReversedPrefix<T>(sorted: seq<T>, r: seq<T>, less: (T, T) -> bool)
    requires forall i, j :: 0 <= i < j < |sorted| ==> less(sorted[i], sorted[j])
    requires |r| <= |sorted| && r == Reverse(sorted)[..|r|]
    ensures forall i, j :: 0 <= i < j < |r| ==> less(r[j], r[i])
    ensures forall k, i :: k in sorted && k !in r && 0 <= i < |r| ==> less(k, r[i])
  {
    var n := |sorted|;
    assert forall i :: 0 <= i < |r| ==> r[i] == Reverse(sorted)[i];
    forall j | n - |r| <= j < n ensures sorted[j] == r[n - 1 - j] {
      assert r[n - 1 - j] == Reverse(sorted)[n - 1 - j];
    }
    DescendingPrefix(sorted, r, less);
  }

  lemma AscendingPrefix<T>(sorted: seq<T>, r: seq<T>, less: (T, T) -> bool)
    requires forall i, j :: 0 <= i < j < |sorted| ==> less(sorted[i], sorted[j])
    requires |r| <= |sorted| && r == sorted[..|r|]
    ensures forall i, j :: 0 <= i < j < |r| ==> less(r[i], r[j])
    ensures forall k, i :: k in sorted && k !in r && 0 <= i < |r| ==> less(r[i], k)
  {
    assert forall i :: 0 <= i < |r| ==> r[i] == sorted[i];
    forall k, i | k in sorted && k !in r && 0 <= i < |r| ensures less(r[i], k) {
      var p :| 0 <= p < |sorted| && sorted[p] == k;
      assert p >= |r|;
    }
  }

  lemma DescendingPrefix<T>(sorted: seq<T>, r: seq<T>, less: (T, T) -> bool)
    requires forall i, j :: 0 <= i < j < |sorted| ==> less(sorted[i], sorted[j])
    requires |r| <= |sorted| && forall i :: 0 <= i < |r| ==> r[i] == sorted[|sorted| - 1 - i]
    requires forall j :: |sorted| - |r| <= j < |sorted| ==> sorted[j] == r[|sorted| - 1 - j]
    ensures forall i, j :: 0 <= i < j < |r| ==> less(r[j], r[i])
    ensures forall k, i :: k in sorted && k !in r && 0 <= i < |r| ==> less(k, r[i])
  {
    var n := |sorted|;
    forall k, i | k in sorted && k !in r && 0 <= i < |r| ensures less(k, r[i]) {
      var p :| 0 <= p < n && sorted[p] == k;
      assert n - 1 - p >= |r|;
    }
  }

  /** A scan returns records of the partition only, in the requested order, and no more than the limit;
      every matching record it leaves out comes after all those it returns. */
  lemma ScanSpecProperties(db: Db, table: string, partition: seq<Column>, range: Option<(int, int)>,
                           ascending: bool, limit: nat)
    ensures var res := ScanSpec(db, table, partition, range, ascending, limit);
            var m := Matching(db, table, partition, range);
            && |res| == (if limit == 0 || limit >= |m| then |m| else limit)
            && (forall i :: 0 <= i < |res| ==> res[i].key in m && res[i].row == db[res[i].key])
            && (forall i, j :: 0 <= i < j < |res| ==>
                  if ascending then KeyLess(res[i].key, res[j].key) else KeyLess(res[j].key, res[i].key))
            && (forall k, i :: k in m && 0 <= i < |res| && (forall j :: 0 <= j < |res| ==> res[j].key != k) ==>
                  if ascending then KeyLess(res[i].key, k) else KeyLess(k, res[i].key))
  {
    var m := Matching(db, table, partition, range);
    var keys := ScanKeys(m, ascending, limit);
    var res := ScanSpec(db, table, partition, range, ascending, limit);
    assert res == Entries(db, keys) by {
      ScanSpecSorted(db, table, partition, range, ascending, limit);
    }
    ScanKeysProperties(m, ascending, limit);
    assert forall i :: 0 <= i < |res| ==> res[i].key == keys[i];
    forall k, i | k in m && 0 <= i < |res| && (forall j :: 0 <= j < |res| ==> res[j].key != k)
      ensures if ascending then KeyLess(res[i].key, k) else KeyLess(k, res[i].key)
    {
      assert k !in keys;
    }
  }

  /** Every record a range scan returns is a stored record of the partition whose first clustering int is in range. */
  lemma ScanRangeMembers(db: Db, table: string, partition: seq<Column>, lo: int, hi: int, ascending: bool, limit: nat)
    ensures var res := ScanSpec(db, table, partition, Some((lo, hi)), ascending, limit);
            forall i :: 0 <= i < |res| ==>
              && res[i].key in db && res[i].row == db[res[i].key]
              && res[i].key.table == table && res[i].key.partition == partition
              && lo <= FirstClusteringInt(res[i].key) <= hi
  {
    ScanSpecProperties(db, table, partition, Some((lo, hi)), ascending, limit);
  }

  /** A scan without a limit returns every matching record. */
  lemma ScanCoversMatching(db: Db, table: string, partition: seq<Column>, range: Option<(int, int)>, k: Key)
    requires k in Matching(db, table, partition, range)
    ensures var res := ScanSpec(db, table, partition, range, true, 0);
            exists i :: 0 <= i < |res| && res[i].key == k
  {
    var m := Matching(db, table, partition, range);
    var keys := ScanKeys(m, true, 0);
    assert k in keys by {
      SortedKeysSpec(m);
      assert keys == SortedKeys(m);
    }
    var i :| 0 <= i < |keys| && keys[i] == k;
    ScanSpecSorted(db, table, partition, range, true, 0);
    assert ScanSpec(db, table, partition, range, true, 0)[i].key == k;
  }

  /** The int a key's first clustering column holds (0 for a key of another shape). */
  function FirstClusteringInt(k: Key): int
  {
    if |k.clustering| > 0 && k.clustering[0].value.IntV? then k.clustering[0].value.i else 0
  }

  /**
   * A limit-1 scan over a partition clustered by one int column returns one
   * record exactly when the partition has some; it holds the smallest int
   * (ascending) or the largest (descending) of the partition.
   */
  lemma ScanFirstByInt(db: Db, table: string, partition: seq<Column>, name: string, ascending: bool)
    requires forall k :: k in Matching(db, table, partition, None) ==>
               exists v :: k.clustering == [Column(name, IntV(v))]
    ensures var res := ScanSpec(db, table, partition, None, ascending, 1);
            var m := Matching(db, table, partition, None);
            && |res| <= 1
            && (|res| == 1 <==> m != {})
            && (|res| == 1 ==>
                  && res[0].key in m && res[0].row == db[res[0].key]
                  && forall k :: k in m && k != res[0].key ==>
                       if ascending then FirstClusteringInt(res[0].key) < FirstClusteringInt(k)
                       else FirstClusteringInt(k) < FirstClusteringInt(res[0].key))
  {
    var res := ScanSpec(db, table, partition, None, ascending, 1);
    var m := Matching(db, table, partition, None);
    ScanSpecProperties(db, table, partition, None, ascending, 1);
    if |res| == 1 {
      forall k | k in m && k != res[0].key
        ensures if ascending then FirstClusteringInt(res[0].key) < FirstClusteringInt(k)
                else FirstClusteringInt(k) < FirstClusteringInt(res[0].key)
      {
        var a :| res[0].key.clustering == [Column(name, IntV(a))];
        var b :| k.clustering == [Column(name, IntV(b))];
        KeyLessInPartition(res[0].key, k);
        KeyLessInPartition(k, res[0].key);
        ColsLessSingleInt(name, a, b);
        ColsLessSingleInt(name, b, a);
      }
    }
  }

  /** Listing the same keys of two stores that agree on them gives the same entries. */
  lemma EntriesFrame(db: Db, db': Db, keys: seq<Key>)
    requires forall k :: k in keys ==> k in db && k in db' && db[k] == db'[k]
    ensures Entries(db, keys) == Entries(db', keys)
  {
    var r, r' := Entries(db, keys), Entries(db', keys);
    assert forall i :: 0 <= i < |keys| ==> r[i] == r'[i];
  }

  /** A scan sees only the records of its table: stores that agree on them scan alike. */
  lemma ScanSpecFrame(db: Db, db': Db, table: string, partition: seq<Column>, range: Option<(int, int)>,
                      ascending: bool, limit: nat)
    requires forall k: Key :: k.table == table && k.partition == partition ==> SameRecord(db, db', k)
    ensures ScanSpec(db, table, partition, range, ascending, limit) == ScanSpec(db', table, partition, range, ascending, limit)
  {
    var m := Matching(db, table, partition, range);
    assert m == Matching(db', table, partition, range);
    ScanSpecSorted(db, table, partition, range, ascending, limit);
    ScanSpecSorted(db', table, partition, range, ascending, limit);
    EntriesFrame(db, db', ScanKeys(m, ascending, limit));
  }

  /** The entries of `rows` whose `column` holds `value`, in the order of `rows`. */
  function WhereColumn(rows: seq<Entry>, column: string, value: Value): (r: seq<Entry>)
    ensures forall e :: e in r <==> e in rows && column in e.row && e.row[column] == value
  {
    if |rows| == 0 then []
    else
      var rest := WhereColumn(rows[1..], column, value);
      assert forall e :: e in rows <==> e == rows[0] || e in rows[1..];
      if column in rows[0].row && rows[0].row[column] == value then [rows[0]] + rest else rest
  }

  /** The records of `table` whose `column` holds `value`, in key order (ScalarDB leaves the order open). */
  function IndexMatching(db: Db, table: string, column: string, value: Value): set<Key>
  {
    set k | k in db && k.table == table && column in db[k] && db[k][column] == value
  }

  ghost function IndexScanSpec(db: Db, table: string, column: string, value: Value): seq<Entry>
  {
    var sorted := SortedKeys(IndexMatching(db, table, column, value));
    SortedKeysSpec(IndexMatching(db, table, column, value));
    Entries(db, sorted)
  }

  method IndexScan(db: Db, table: string, column: string, value: Value) returns (res: seq<Entry>)
    ensures res == IndexScanSpec(db, table, column, value)
  {
    var sorted := SortKeys(IndexMatching(db, table, column, value));
    SortedKeysSpec(IndexMatching(db, table, column, value));
    res := Entries(db, sorted);
  }

  lemma IndexScanProperties(db: Db, table: string, column: string, value: Value)
    ensures var res := IndexScanSpec(db, table, column, value);
            && |res| == |IndexMatching(db, table, column, value)|
            && forall e :: e in res <==> e.key in IndexMatching(db, table, column, value) && e.row == db[e.key]
  {
    var m := IndexMatching(db, table, column, value);
    SortedKeysSpec(m);
    var res := IndexScanSpec(db, table, column, value);
    forall e: Entry | e.key in m && e.row == db[e.key] ensures e in res {
      var i :| 0 <= i < |SortedKeys(m)| && SortedKeys(m)[i] == e.key;
      assert res[i] == e;
    }
  }

  /** An index scan sees only the records of its table: stores that agree on them scan alike. */
  lemma IndexScanSpecFrame(db: Db, db': Db, table: string, column: string, value: Value)
    requires forall k: Key :: k.table == table ==> SameRecord(db, db', k)
    ensures IndexScanSpec(db, table, column, value) == IndexScanSpec(db', table, column, value)
  {
    var m := IndexMatching(db, table, column, value);
    assert m == IndexMatching(db', table, column, value);
    SortedKeysSpec(m);
    EntriesFrame(db, db', SortedKeys(m));
  }
}
