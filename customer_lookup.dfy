// Resolving a customer by last name (TpccUtil.getCustomerIdBySecondaryIndex
// and getCustomerIdByTableIndex): scan the customers of a district with that
// last name, and take the midpoint row, (n + 1) / 2 - 1, of the rows ordered
// by first name.  The secondary-index strategy sorts the scanned rows itself
// with FIRST_NAME_COMPARATOR; the table-index strategy relies on the
// customer_secondary clustering order.
module CustomerLookup {
  import opened Wrappers
  import opened Store
  import opened Text
  import Customer
  import CustomerSecondary
  import TpccUtil

  /** Whether the comparator can read the row's first name: c_first is present and text. */
  predicate FirstNamed(e: Entry)
  {
    Customer.KEY_FIRST in e.row && e.row[Customer.KEY_FIRST].TextV?
  }

  /** The first name FIRST_NAME_COMPARATOR compares ("" when absent; the comparator then throws). */
  function FirstOf(e: Entry): string
  {
    if FirstNamed(e) then e.row[Customer.KEY_FIRST].s else ""
  }

  /** Ordered by first name: no row has a first name before that of a row ahead of it. */
  predicate SortedByFirst(s: seq<Entry>)
  {
    forall i, j :: 0 <= i < j < |s| ==> !StrLess(FirstOf(s[j]), FirstOf(s[i]))
  }

  /** "Not before" is transitive, because compareTo is a total order. */
  lemma NotBeforeTransitive(a: string, b: string, c: string)
    requires !StrLess(b, a) && !StrLess(c, b)
    ensures !StrLess(c, a)
  {
    if StrLess(c, a) {
      if a == b {
      } else {
        StrLessTotal(a, b);
        StrLessTransitive(c, a, b);
      }
    }
  }

  /** Every pair of rows up to `i` is in order, leaving out the row at `j`. */
  predicate SortedExcept(s: seq<Entry>, i: int, j: int)
    requires i < |s|
  {
    forall p, q :: 0 <= p < q <= i && p != j && q != j ==> !StrLess(FirstOf(s[q]), FirstOf(s[p]))
  }

  /** The row at `j` has a first name before those of the rows after it up to `i`. */
  predicate BeforeRest(s: seq<Entry>, i: int, j: int)
    requires 0 <= j <= i < |s|
  {
    forall q :: j < q <= i ==> StrLess(FirstOf(s[j]), FirstOf(s[q]))
  }

  /** Swapping the moving row with a neighbour whose name comes after it keeps both properties. */
  lemma SwapStep(s: seq<Entry>, i: int, j: int)
    requires 0 < j <= i < |s| && SortedExcept(s, i, j) && BeforeRest(s, i, j)
    requires StrLess(FirstOf(s[j]), FirstOf(s[j - 1]))
    ensures var t := s[j - 1 := s[j]][j := s[j - 1]];
            SortedExcept(t, i, j - 1) && BeforeRest(t, i, j - 1)
  {
  }

  /** Once the moving row's neighbour does not come after it, the rows up to `i` are sorted. */
  lemma StopStep(s: seq<Entry>, i: int, j: int)
    requires 0 <= j <= i < |s| && SortedExcept(s, i, j) && BeforeRest(s, i, j)
    requires j > 0 ==> !StrLess(FirstOf(s[j]), FirstOf(s[j - 1]))
    ensures SortedByFirst(s[..i + 1])
  {
    forall p, q | 0 <= p < q <= i ensures !StrLess(FirstOf(s[q]), FirstOf(s[p])) {
      if q == j && p < j - 1 {
        NotBeforeTransitive(FirstOf(s[p]), FirstOf(s[j - 1]), FirstOf(s[j]));
      } else if p == j {
        StrLessAsymmetric(FirstOf(s[j]), FirstOf(s[q]));
      }
    }
  }

  /** Swapping two neighbouring rows keeps the same rows. */
  lemma SwapKeepsRows(s: seq<Entry>, j: int)
    requires 0 < j < |s|
    ensures multiset(s[j - 1 := s[j]][j := s[j - 1]]) == multiset(s)
  {
  }

  /**
   * One step of the insertion sort: the row at `i` is swapped towards the front
   * while its first name comes before its neighbour's.
   */
  method InsertAt(a: array<Entry>, i: int)
    requires 0 <= i < a.Length && SortedByFirst(a[..i])
    modifies a
    ensures SortedByFirst(a[..i + 1]) && a[i + 1..] == old(a[i + 1..])
    ensures multiset(a[..]) == multiset(old(a[..]))
  {
    var j := i;
    assert forall p :: 0 <= p < i ==> a[..i][p] == a[p];
    while j > 0 && StrLess(FirstOf(a[j]), FirstOf(a[j - 1]))
      invariant 0 <= j <= i
      invariant multiset(a[..]) == multiset(old(a[..])) && a[i + 1..] == old(a[i + 1..])
      invariant SortedExcept(a[..], i, j) && BeforeRest(a[..], i, j)
    {
      ghost var before := a[..];
      SwapStep(before, i, j);
      SwapKeepsRows(before, j);
      a[j - 1], a[j] := a[j], a[j - 1];
      assert a[..] == before[j - 1 := before[j]][j := before[j - 1]];
      j := j - 1;
    }
    StopStep(a[..], i, j);
  }

  /**
   * results.sort(FIRST_NAME_COMPARATOR): an insertion sort in place, leaving the
   * rows a permutation of what they were, ordered by first name.
   */
  method SortByFirstName(a: array<Entry>)
    modifies a
    ensures SortedByFirst(a[..]) && multiset(a[..]) == multiset(old(a[..]))
  {
    for i := 0 to a.Length
      invariant SortedByFirst(a[..i]) && multiset(a[..]) == multiset(old(a[..]))
    {
      InsertAt(a, i);
    }
    assert a[..a.Length] == a[..];
  }

  /**
   * results.get(offset).getValue(name).get().getAsInt() at the midpoint offset:
   * an empty list has no midpoint, and the row must hold `name` as an int.
   */
  function MidpointId(rows: seq<Entry>, name: string): (r: Result<int, TxError>)
    ensures |rows| == 0 ==> r.Err?
    ensures |rows| > 0 ==> r == IntOf(rows[TpccUtil.MidpointOffset(|rows|)].row, name)
  {
    if |rows| == 0 then Err(BadIndex("results.get(-1)"))
    else IntOf(rows[TpccUtil.MidpointOffset(|rows|)].row, name)
  }

  /**
   * Whether the comparator can run on every row: a list of fewer than two rows
   * is never compared, a longer one compares every row at least once.
   */
  predicate Comparable(rows: seq<Entry>)
  {
    |rows| < 2 || forall i :: 0 <= i < |rows| ==> FirstNamed(rows[i])
  }

  /** The customer rows the index scan of a last name returns. */
  ghost function IndexRows(db: Db, warehouseId: int, districtId: int, last: string): seq<Entry>
  {
    IndexScanSpec(db, Customer.TABLE_NAME, Customer.KEY_INDEX,
                  TextV(Customer.IndexString(warehouseId, districtId, last)))
  }

  /** The scanned rows as the mutable list the sort works on. */
  method RowList(rows: seq<Entry>) returns (a: array<Entry>)
    ensures fresh(a) && a[..] == rows
  {
    a := new Entry[|rows|](i requires 0 <= i < |rows| => rows[i]);
  }

  /**
   * getCustomerIdBySecondaryIndex: scan c_index, sort by first name, take the
   * c_id of the midpoint row.  It fails when the scan is empty, when the
   * comparator meets a row without a text first name, or when the midpoint row
   * lacks an int c_id.
   */
  method BySecondaryIndex(db: Db, warehouseId: int, districtId: int, last: string) returns (r: Result<int, TxError>)
    ensures !Comparable(IndexRows(db, warehouseId, districtId, last)) ==> r.Err?
    ensures |IndexRows(db, warehouseId, districtId, last)| == 0 ==> r.Err?
    ensures Comparable(IndexRows(db, warehouseId, districtId, last)) ==>
              exists s :: SortedByFirst(s) && multiset(s) == multiset(IndexRows(db, warehouseId, districtId, last))
                          && r == MidpointId(s, Customer.KEY_ID)
  {
    var rows := Customer.Scan(db, warehouseId, districtId, last);
    if |rows| >= 2 && exists i :: 0 <= i < |rows| && !FirstNamed(rows[i]) {
      return Err(NoSuchValue(Customer.KEY_FIRST));
    }
    var a := RowList(rows);
    SortByFirstName(a);
    r := MidpointId(a[..], Customer.KEY_ID);
    assert SortedByFirst(a[..]) && multiset(a[..]) == multiset(rows);
  }

  /** Every row of the c_index scan is a customer of that district with that last name. */
  lemma IndexRowsMatch(db: Db, warehouseId: int, districtId: int, last: string, e: Entry,
                       w: int, d: int, name: string)
    requires 0 <= warehouseId < 100000 && 0 <= districtId < 1000 && 0 <= w < 100000 && 0 <= d < 1000
    requires e in IndexRows(db, warehouseId, districtId, last)
    requires Customer.KEY_INDEX in e.row && e.row[Customer.KEY_INDEX] == TextV(Customer.IndexString(w, d, name))
    ensures w == warehouseId && d == districtId && name == last
  {
    IndexScanProperties(db, Customer.TABLE_NAME, Customer.KEY_INDEX,
                        TextV(Customer.IndexString(warehouseId, districtId, last)));
    Customer.IndexStringInjective(w, d, name, warehouseId, districtId, last);
  }

  /** The customer_secondary rows of a last name, in clustering order. */
  ghost function TableRows(db: Db, warehouseId: int, districtId: int, last: string): seq<Entry>
  {
    ScanSpec(db, CustomerSecondary.TABLE_NAME, CustomerSecondary.PartitionKey(warehouseId, districtId, last),
             None, true, 0)
  }

  /**
   * getCustomerIdByTableIndex: scan customer_secondary and take the c_id of
   * the midpoint row as the scan orders them; no sort.
   */
  method ByTableIndex(db: Db, warehouseId: int, districtId: int, last: string) returns (r: Result<int, TxError>)
    ensures r == MidpointId(TableRows(db, warehouseId, districtId, last), CustomerSecondary.KEY_CUSTOMER_ID)
    ensures |TableRows(db, warehouseId, districtId, last)| == 0 ==> r.Err?
  {
    var rows := CustomerSecondary.Scan(db, warehouseId, districtId, last);
    r := MidpointId(rows, CustomerSecondary.KEY_CUSTOMER_ID);
  }
}
