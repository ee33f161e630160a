// The common shape of every TPC-C record (TpccRecordBase) and the Address
// value object.  A record holds three insertion-ordered maps from column name
// to field: the partition key, the clustering key and the values.  Building a
// key or a value list walks a map in order, skips null fields and expands an
// address into its five text columns; inserting a record puts those columns
// in one transaction and commits it.
module Records {
  import opened Wrappers
  import opened Store
  import opened TpccUtil
  import Text

  const KEY_STREET_1: string := "street_1"
  const KEY_STREET_2: string := "street_2"
  const KEY_CITY: string := "city"
  const KEY_STATE: string := "state"
  const KEY_ZIP: string := "zip"

  const MIN_STREET: int := 10
  const MAX_STREET: int := 20
  const MIN_CITY: int := 10
  const MAX_CITY: int := 20
  const STATE_SIZE: int := 2
  const ZIP_SIZE: int := 4

  // ---- Address -----------------------------------------------------------------

  /** An address whose columns are named with a table's prefix ("w_", "d_" or "c_"). */
  datatype Address = Address(prefix: string, street1: string, street2: string,
                             city: string, state: string, zip: string)

  /** Address.createValues: the five text columns, prefix + street_1, street_2, city, state and zip. */
  function AddressValues(a: Address): (cols: seq<Column>)
    ensures |cols| == 5 && DistinctNames(cols)
    ensures forall i :: 0 <= i < 5 ==> cols[i].value.TextV? && |cols[i].name| > |a.prefix|
  {
    SuffixesDistinct(a.prefix);
    var cols := [Column(a.prefix + KEY_STREET_1, TextV(a.street1)),
     Column(a.prefix + KEY_STREET_2, TextV(a.street2)),
     Column(a.prefix + KEY_CITY, TextV(a.city)),
     Column(a.prefix + KEY_STATE, TextV(a.state)),
     Column(a.prefix + KEY_ZIP, TextV(a.zip))];
    assert forall i :: 0 <= i < 5 ==> cols[i].name == [a.prefix + KEY_STREET_1, a.prefix + KEY_STREET_2,
      a.prefix + KEY_CITY, a.prefix + KEY_STATE, a.prefix + KEY_ZIP][i];
    cols
  }

  lemma SuffixesDistinct(p: string)
    ensures var names := [p + KEY_STREET_1, p + KEY_STREET_2, p + KEY_CITY, p + KEY_STATE, p + KEY_ZIP];
            forall i, j :: 0 <= i < j < 5 ==> names[i] != names[j]
  {
    var names := [p + KEY_STREET_1, p + KEY_STREET_2, p + KEY_CITY, p + KEY_STATE, p + KEY_ZIP];
    var suffixes := [KEY_STREET_1, KEY_STREET_2, KEY_CITY, KEY_STATE, KEY_ZIP];
    forall i, j | 0 <= i < j < 5 ensures names[i] != names[j] {
      assert names[i][|p|..] == suffixes[i] && names[j][|p|..] == suffixes[j];
    }
  }

  /** Reads an address with the given prefix back from a stored row. */
  function AddressOf(prefix: string, row: Row): Option<Address>
  {
    var s1 := TextOf(row, prefix + KEY_STREET_1);
    var s2 := TextOf(row, prefix + KEY_STREET_2);
    var c := TextOf(row, prefix + KEY_CITY);
    var st := TextOf(row, prefix + KEY_STATE);
    var z := TextOf(row, prefix + KEY_ZIP);
    if s1.Ok? && s2.Ok? && c.Ok? && st.Ok? && z.Ok? then
      Some(Address(prefix, s1.value, s2.value, c.value, st.value, z.value))
    else None
  }

  /** The explicit constructor keeps its arguments: the columns it writes read back as the same address. */
  lemma AddressRoundTrip(a: Address)
    ensures AddressOf(a.prefix, RowOf(AddressValues(a))) == Some(a)
  {
    var cols := AddressValues(a);
    RowOfLookup(cols, 0);
    RowOfLookup(cols, 1);
    RowOfLookup(cols, 2);
    RowOfLookup(cols, 3);
    RowOfLookup(cols, 4);
  }

  /**
   * The generating constructor: streets and city are drawn alphanumerics of
   * 10..20 characters, the state has 2, and the zip is 4 drawn digits followed
   * by "11111".
   */
  function GeneratedAddress(prefix: string, street1: string, street2: string, city: string,
                            state: string, zipDigits: string): (a: Address)
    requires IsAlphaString(street1, MIN_STREET, MAX_STREET) && IsAlphaString(street2, MIN_STREET, MAX_STREET)
    requires IsAlphaString(city, MIN_CITY, MAX_CITY) && IsAlphaString(state, STATE_SIZE, STATE_SIZE)
    requires IsNumberString(zipDigits, ZIP_SIZE, ZIP_SIZE)
    ensures a.prefix == prefix && |a.zip| == 9 && a.zip[4..] == "11111"
    ensures forall i :: 0 <= i < 9 ==> Text.IsDigit(a.zip[i])
    ensures ValidGeneratedAddress(a)
  {
    Address(prefix, street1, street2, city, state, zipDigits + "11111")
  }

  predicate ValidGeneratedAddress(a: Address)
  {
    && IsAlphaString(a.street1, MIN_STREET, MAX_STREET) && IsAlphaString(a.street2, MIN_STREET, MAX_STREET)
    && IsAlphaString(a.city, MIN_CITY, MAX_CITY) && IsAlphaString(a.state, STATE_SIZE, STATE_SIZE)
    && |a.zip| == 9 && a.zip[4..] == "11111" && (forall i :: 0 <= i < 9 ==> Text.IsDigit(a.zip[i]))
  }

  // ---- records -------------------------------------------------------------------

  /** A field of a record map: the Java value's runtime type, or null. */
  datatype Field =
    | FInt(i: int)
    | FDouble(d: real)
    | FText(s: string)
    | FDate(millis: int)       // java.util.Date, by its getTime()
    | FAddress(address: Address)
    | FNull

  datatype Record = Record(table: string,
                           partitionKeyMap: seq<(string, Field)>,
                           clusteringKeyMap: seq<(string, Field)>,
                           valueMap: seq<(string, Field)>)

  predicate IsScalar(f: Field) { f.FInt? || f.FDouble? || f.FText? || f.FDate? }

  /** createSingleValue: Integer, Double, String and Date become Int, Double, Text and BigInt(millis). */
  function SingleValue(f: Field): (v: Value)
    requires IsScalar(f)
    ensures f.FInt? <==> v.IntV?
    ensures f.FText? <==> v.TextV?
    ensures f.FDate? <==> v.BigIntV?
    ensures f.FDouble? <==> v.DoubleV?
  {
    match f
    case FInt(i) => IntV(i)
    case FDouble(d) => DoubleV(d)
    case FText(s) => TextV(s)
    case FDate(ms) => BigIntV(ms)
  }

  /** The text a field holds ("" for a field of another kind). */
  function FieldText(f: Field): string { if f.FText? then f.s else "" }

  /** The int a field holds (0 for a field of another kind). */
  function FieldInt(f: Field): int { if f.FInt? then f.i else 0 }

  /** The milliseconds a date field holds (0 for a field of another kind). */
  function FieldDate(f: Field): int { if f.FDate? then f.millis else 0 }

  /** A key map holds only scalar fields or nulls. */
  predicate KeyMap(m: seq<(string, Field)>)
  {
    forall i :: 0 <= i < |m| ==> IsScalar(m[i].1) || m[i].1.FNull?
  }

  /** The key columns of a key map: one per non-null entry, in map order. */
  function KeyColumnsOf(m: seq<(string, Field)>): (cols: seq<Column>)
    requires KeyMap(m)
    ensures |cols| <= |m|
    ensures forall c :: c in cols ==> exists i :: 0 <= i < |m| && m[i].0 == c.name && !m[i].1.FNull?
    decreases |m|
  {
    if |m| == 0 then []
    else
      var (n, f) := m[|m| - 1];
      var front := KeyColumnsOf(m[..|m| - 1]);
      if f.FNull? then front else front + [Column(n, SingleValue(f))]
  }

  /** Key maps of one, two and three scalar fields yield one column per field. */
  lemma ScalarKey1(n1: string, f1: Field)
    requires IsScalar(f1)
    ensures KeyMap([(n1, f1)]) && KeyColumnsOf([(n1, f1)]) == [Column(n1, SingleValue(f1))]
  {
    var m := [(n1, f1)];
    assert m[..0] == [];
  }

  lemma ScalarKey2(n1: string, f1: Field, n2: string, f2: Field)
    requires IsScalar(f1) && IsScalar(f2)
    ensures var m := [(n1, f1), (n2, f2)];
            KeyMap(m) && KeyColumnsOf(m) == [Column(n1, SingleValue(f1)), Column(n2, SingleValue(f2))]
  {
    var m := [(n1, f1), (n2, f2)];
    assert m[..1] == [(n1, f1)];
    ScalarKey1(n1, f1);
  }

  lemma ScalarKey3(n1: string, f1: Field, n2: string, f2: Field, n3: string, f3: Field)
    requires IsScalar(f1) && IsScalar(f2) && IsScalar(f3)
    ensures var m := [(n1, f1), (n2, f2), (n3, f3)];
            KeyMap(m) &&
            KeyColumnsOf(m) == [Column(n1, SingleValue(f1)), Column(n2, SingleValue(f2)), Column(n3, SingleValue(f3))]
  {
    var m := [(n1, f1), (n2, f2), (n3, f3)];
    assert m[..2] == [(n1, f1), (n2, f2)];
    ScalarKey2(n1, f1, n2, f2);
  }

  /** The value columns of a value map: scalars as one column, an address as its five, nulls as none. */
  function ValueColumns(m: seq<(string, Field)>): (cols: seq<Column>)
    decreases |m|
  {
    if |m| == 0 then []
    else
      var (n, f) := m[|m| - 1];
      var front := ValueColumns(m[..|m| - 1]);
      if f.FNull? then front
      else if f.FAddress? then front + AddressValues(f.address)
      else front + [Column(n, SingleValue(f))]
  }

  /** A value map of scalars only yields one column per entry, in the same order. */
  lemma {:induction false} ValueColumnsOfScalars(m: seq<(string, Field)>)
    requires forall i :: 0 <= i < |m| ==> IsScalar(m[i].1)
    ensures |ValueColumns(m)| == |m|
    ensures forall i :: 0 <= i < |m| ==> ValueColumns(m)[i] == Column(m[i].0, SingleValue(m[i].1))
    decreases |m|
  {
    if |m| > 0 {
      ValueColumnsOfScalars(m[..|m| - 1]);
    }
  }

  /** A null entry between two parts of a value map adds no column. */
  lemma {:induction false} ValueColumnsSkipsNull(front: seq<(string, Field)>, name: string, back: seq<(string, Field)>)
    ensures ValueColumns(front + [(name, FNull)] + back) == ValueColumns(front + back)
    decreases |back|
  {
    var m := front + [(name, FNull)] + back;
    if |back| == 0 {
      assert m[..|m| - 1] == front;
      assert front + back == front;
    } else {
      var back' := back[..|back| - 1];
      assert m[..|m| - 1] == front + [(name, FNull)] + back';
      assert (front + back)[..|front + back| - 1] == front + back';
      ValueColumnsSkipsNull(front, name, back');
    }
  }

  /** Every non-null entry yields its column; null entries yield none. */
  lemma {:induction false} KeyColumnsOfComplete(m: seq<(string, Field)>, i: int)
    requires KeyMap(m) && 0 <= i < |m| && !m[i].1.FNull?
    ensures Column(m[i].0, SingleValue(m[i].1)) in KeyColumnsOf(m)
    decreases |m|
  {
    if i < |m| - 1 {
      KeyColumnsOfComplete(m[..|m| - 1], i);
    }
  }

  /** Every non-null scalar value is a column; every address contributes its five columns. */
  lemma {:induction false} ValueColumnsComplete(m: seq<(string, Field)>, i: int)
    requires 0 <= i < |m| && !m[i].1.FNull?
    ensures IsScalar(m[i].1) ==> Column(m[i].0, SingleValue(m[i].1)) in ValueColumns(m)
    ensures m[i].1.FAddress? ==> forall c :: c in AddressValues(m[i].1.address) ==> c in ValueColumns(m)
    decreases |m|
  {
    if i < |m| - 1 {
      ValueColumnsComplete(m[..|m| - 1], i);
    }
  }

  /** Without addresses, the value columns are exactly the non-null entries: one each, in order. */
  lemma {:induction false} ValueColumnsCount(m: seq<(string, Field)>)
    requires forall i :: 0 <= i < |m| ==> !m[i].1.FAddress?
    ensures |ValueColumns(m)| == NonNullCount(m)
    decreases |m|
  {
    if |m| > 0 {
      ValueColumnsCount(m[..|m| - 1]);
    }
  }

  function NonNullCount(m: seq<(string, Field)>): nat
  {
    if |m| == 0 then 0 else NonNullCount(m[..|m| - 1]) + (if m[|m| - 1].1.FNull? then 0 else 1)
  }

  method CreatePartitionKey(r: Record) returns (cols: seq<Column>)
    requires KeyMap(r.partitionKeyMap)
    ensures cols == KeyColumnsOf(r.partitionKeyMap)
  {
    cols := CreateKey(r.partitionKeyMap);
  }

  method CreateClusteringKey(r: Record) returns (cols: seq<Column>)
    requires KeyMap(r.clusteringKeyMap)
    ensures cols == KeyColumnsOf(r.clusteringKeyMap)
  {
    cols := CreateKey(r.clusteringKeyMap);
  }

  /** The forEach of createPartitionKey and createClusteringKey. */
  method CreateKey(m: seq<(string, Field)>) returns (cols: seq<Column>)
    requires KeyMap(m)
    ensures cols == KeyColumnsOf(m)
  {
    cols := [];
    for i := 0 to |m|
      invariant cols == KeyColumnsOf(m[..i])
    {
      assert m[..i + 1][..i] == m[..i];
      var (n, f) := m[i];
      if !f.FNull? {
        cols := cols + [Column(n, SingleValue(f))];
      }
    }
    assert m[..|m|] == m;
  }

  method CreateValues(r: Record) returns (cols: seq<Column>)
    ensures cols == ValueColumns(r.valueMap)
  {
    var m := r.valueMap;
    cols := [];
    for i := 0 to |m|
      invariant cols == ValueColumns(m[..i])
    {
      assert m[..i + 1][..i] == m[..i];
      var (n, f) := m[i];
      if !f.FNull? {
        if f.FAddress? {
          cols := cols + AddressValues(f.address);
        } else {
          cols := cols + [Column(n, SingleValue(f))];
        }
      }
    }
    assert m[..|m|] == m;
  }

  predicate WellFormed(r: Record)
  {
    KeyMap(r.partitionKeyMap) && KeyMap(r.clusteringKeyMap)
  }

  /** The store key of a record: its table and its two key column lists. */
  function KeyOf(r: Record): Key
    requires WellFormed(r)
  {
    Key(r.table, KeyColumnsOf(r.partitionKeyMap), KeyColumnsOf(r.clusteringKeyMap))
  }

  /** The field a map holds under `name`: the latest entry with that name, as HashMap.put keeps the last. */
  function Lookup(m: seq<(string, Field)>, name: string): Option<Field>
    decreases |m|
  {
    if |m| == 0 then None
    else if m[|m| - 1].0 == name then Some(m[|m| - 1].1)
    else Lookup(m[..|m| - 1], name)
  }

  /** What Lookup finds is an entry of the map under that name; it finds nothing only when no entry has the name. */
  lemma {:induction false} LookupFound(m: seq<(string, Field)>, name: string)
    ensures Lookup(m, name).Some? ==> exists i :: 0 <= i < |m| && m[i] == (name, Lookup(m, name).value)
    ensures Lookup(m, name).None? <==> forall i :: 0 <= i < |m| ==> m[i].0 != name
    decreases |m|
  {
    if |m| > 0 && m[|m| - 1].0 != name {
      LookupFound(m[..|m| - 1], name);
      assert forall i :: 0 <= i < |m| - 1 ==> m[..|m| - 1][i] == m[i];
    }
  }

  /** An entry that no later entry renames is what Lookup finds under its name. */
  lemma {:induction false} LookupAt(m: seq<(string, Field)>, i: int)
    requires 0 <= i < |m| && forall j :: i < j < |m| ==> m[j].0 != m[i].0
    ensures Lookup(m, m[i].0) == Some(m[i].1)
    decreases |m|
  {
    if i < |m| - 1 {
      LookupAt(m[..|m| - 1], i);
    }
  }

  /** Entries appended under other names do not change what Lookup finds. */
  lemma {:induction false} LookupAppend(m: seq<(string, Field)>, n: seq<(string, Field)>, name: string)
    requires forall j :: 0 <= j < |n| ==> n[j].0 != name
    ensures Lookup(m + n, name) == Lookup(m, name)
    decreases |n|
  {
    if |n| > 0 {
      var n' := n[..|n| - 1];
      assert (m + n)[..|m + n| - 1] == m + n';
      LookupAppend(m, n', name);
    } else {
      assert m + n == m;
    }
  }

  /** createPut: the store write of a record, its key columns and its value columns. */
  function ApplyPut(db: Db, r: Record): Db
    requires WellFormed(r)
  {
    Put(db, KeyOf(r), ValueColumns(r.valueMap))
  }

  /**
   * insert: start a transaction, put the record's key and values, commit.
   * `committed` says whether the commit succeeded; on failure the transaction
   * is aborted, the exception propagates and the store is unchanged.
   */
  function Insert(db: Db, r: Record, committed: bool): (res: Result<Db, TxError>)
    requires WellFormed(r)
    ensures res.Ok? <==> committed
    ensures res.Ok? ==> res.value == ApplyPut(db, r)
  {
    if committed then Ok(ApplyPut(db, r)) else Err(Conflict)
  }

  /** After a put, the record's row holds each scalar field under its column name (names being distinct). */
  lemma PutReadsBack(db: Db, r: Record, name: string)
    requires WellFormed(r) && Lookup(r.valueMap, name).Some? && IsScalar(Lookup(r.valueMap, name).value)
    requires DistinctNames(Store.KeyColumns(KeyOf(r)) + ValueColumns(r.valueMap))
    ensures var row := ApplyPut(db, r)[KeyOf(r)];
            name in row && row[name] == SingleValue(Lookup(r.valueMap, name).value)
  {
    var f := Lookup(r.valueMap, name).value;
    LookupFound(r.valueMap, name);
    var i :| 0 <= i < |r.valueMap| && r.valueMap[i] == (name, f);
    var vals := ValueColumns(r.valueMap);
    ValueColumnsComplete(r.valueMap, i);
    var j :| 0 <= j < |vals| && vals[j] == Column(name, SingleValue(f));
    Store.PutReadsBack(db, KeyOf(r), vals, j);
  }

  /** After a put, an address field reads back as the same address (names being distinct). */
  lemma PutReadsBackAddress(db: Db, r: Record, name: string)
    requires WellFormed(r) && Lookup(r.valueMap, name).Some? && Lookup(r.valueMap, name).value.FAddress?
    requires DistinctNames(Store.KeyColumns(KeyOf(r)) + ValueColumns(r.valueMap))
    ensures var a := Lookup(r.valueMap, name).value.address;
            AddressOf(a.prefix, ApplyPut(db, r)[KeyOf(r)]) == Some(a)
  {
    var a := Lookup(r.valueMap, name).value.address;
    LookupFound(r.valueMap, name);
    var i :| 0 <= i < |r.valueMap| && r.valueMap[i] == (name, FAddress(a));
    var vals := ValueColumns(r.valueMap);
    var cols := AddressValues(a);
    ValueColumnsComplete(r.valueMap, i);
    var row := ApplyPut(db, r)[KeyOf(r)];
    forall k | 0 <= k < 5 ensures cols[k].name in row && row[cols[k].name] == cols[k].value {
      assert cols[k] in vals;
      var j :| 0 <= j < |vals| && vals[j] == cols[k];
      Store.PutReadsBack(db, KeyOf(r), vals, j);
    }
    AddressOfRow(a, row);
  }

  /** A row holding the five columns of an address reads back as that address. */
  lemma AddressOfRow(a: Address, row: Row)
    requires forall k :: 0 <= k < 5 ==>
      AddressValues(a)[k].name in row && row[AddressValues(a)[k].name] == AddressValues(a)[k].value
    ensures AddressOf(a.prefix, row) == Some(a)
  {
    var cols := AddressValues(a);
    assert cols[0].name in row && row[cols[0].name] == cols[0].value;
    assert cols[1].name in row && row[cols[1].name] == cols[1].value;
    assert cols[2].name in row && row[cols[2].name] == cols[2].value;
    assert cols[3].name in row && row[cols[3].name] == cols[3].value;
    assert cols[4].name in row && row[cols[4].name] == cols[4].value;
  }
}
