# ScalarDB TPC-C and YCSB benchmark core in Dafny

This project models the logic of the ScalarDB benchmark suite: the TPC-C driver and the YCSB helpers that run on ScalarDB. ScalarDB is used through its transactional key-value API. Each part of the model keeps the shape of the Java code it models. Pure code becomes functions and lemmas. Code that updates objects or arrays becomes classes and methods with loop invariants, each proved against a specification function.

What is modelled:

- **Generators** (`TpccUtil`, the legacy `TPCCUtil`). This covers:
  - NURand (TPC-C clause 2.1.6), with its constant table and Java `int` arithmetic;
  - the syllable last names (clause 4.3.2.3), with their decoder;
  - the restricted-alphabet random strings, filled in place;
  - the "ORIGINAL" marker strings;
  - customer and item ids;
  - the midpoint-customer lookups by secondary index and by table index.
- **Records** (`table/*`, `TpccRecordBase`, `Address`, the legacy `TPCCTable`). For every table the model has:
  - the key layout, as partition-key and clustering-key maps in insertion order;
  - each constructor: generated, explicit, update, CSV;
  - how the maps flatten into ScalarDB columns (`Address` expands to five columns, nulls are dropped);
  - the put, delete and scan builders.
- **Transactions** (`transaction/*`). New-Order, Payment, Order-Status, Delivery and Stock-Level are classes whose fields `generate` fills from explicit draws. Each `execute` is a method over a store, a map from (table, partition key, clustering key) to a row. It returns the new store or the error that aborts it; an aborted transaction leaves the store as it was. Each method is proved equal to a specification function, and the profile's properties are lemmas about that function.
- **Runners and configuration**:
  - `TpccRunner`'s cumulative-percentage type selector, its retry loop and its single-shot run;
  - `TpccConfig`'s builder and validation;
  - the legacy `TPCCRunner` and `TPCCConfig`.
- **Loaders** (`TpccLoader`, the legacy `TPCCLoader`). The producer is a class that appends to a queue: either CSV rows, or the synthetic population, which uses a shuffled customer permutation for the orders. The consumers drain the queue and count each insert as succeeded or failed.
- **YCSB helpers**:
  - `YcsbCommon`: the symbol table, `randomFastChars` filling a `char[]` in place, and the get/put key layout;
  - `LoadRunner`: range and batch splitting, single- and multi-storage puts;
  - `MultiUserWorkloadC`: key ranges per user, thread ids, the choice of manager, the retry loop;
  - `MultiUserLoader`: range splitting, the per-record loop with its `loaded`/`remaining` counters and its progress reports.

Modelling choices:

- Randomness is explicit. Every draw (`ThreadLocalRandom`, `Random`, `UUID`, the swap positions of `Collections.shuffle`) is a parameter. Where the source's draw is bounded, the parameter carries that bound as a precondition.
- Java `int` arithmetic is explicit: `Wrap32` for overflow, `Rem`/`Quot` for the truncating `%` and `/`, `Or` for `|`.
- Doubles are exact `real`s. Dates are milliseconds. Parsing dates and doubles, and `String.format("%7.2f")`, are function parameters.
- The outcome of each commit, or of each attempt in a retry loop, is an input.

The model keeps the code's behaviour where it departs from the TPC-C standard or from what the names suggest:

- New-Order computes the adjusted stock quantity (`s - q`, or `s - q + 91`) and then writes the order quantity as `s_quantity`. The stock row it updates is keyed by the home warehouse, not the supplying one (`NewOrderTransaction.java:175-185`).
- Payment resolves and updates the customer under the home warehouse and district, not the customer's (`PaymentTransaction.java:135-166`).
- Delivery aborts the whole transaction unless every district's new-order scan returns exactly one row (`DeliveryTransaction.java:50-54`).
- The Warehouse CSV constructor fills `w_ytd` from the `w_tax` column (`table/Warehouse.java:77-78`).
- In the legacy code:
  - `randomInt` can return `max + 1` when `min` is negative;
  - `getRandomStringWithOriginal` ignores its rate and builds a marker string two characters short;
  - `getItemId` draws from 1..100;
  - `TPCCTable`'s open orders have no carrier column;
  - the legacy `OrderSecondary.insert` does nothing.

Where the snapshot calls helpers whose source is not in the repository, the model defines them from their call sites:

- `Order.createGet` and `District.createGet` (the get of the row under the given key);
- `Order.createScan(warehouseId, districtId, customerId)`: a scan of the district's partition of `oorder`, keeping the rows whose `o_c_id` is the customer;
- `ORDER_ID_COMPARATOR` (descending order id);
- the four-argument `Order` constructor that sets the carrier;
- `TpccConfig.useTableIndex`, which is a parameter;
- the `TpccTable.*` imports, taken to be the `table` package's classes.

## Model

| member | source | states |
|---|---|---|
| JavaInt.Wrap32 | src/main/java/com/scalar/db/benchmarks/tpcc/transaction/DeliveryTransaction.java:86 | a Java int result lies in the 32-bit range, is congruent to the exact value modulo 2^32, and equals it when no overflow occurs |
| JavaInt.Rem | src/main/java/com/scalar/db/benchmarks/ycsb/MultiUserWorkloadC.java:66 | Java's % keeps the dividend's sign and stays below the divisor's magnitude, agreeing with the mathematical remainder on non-negative operands |
| JavaInt.Quot | src/main/java/com/scalar/db/benchmarks/ycsb/MultiUserLoader.java:145 | Java's / truncates toward zero: quotient times divisor plus the remainder gives back the dividend |
| JavaInt.QuotRem | src/main/java/com/scalar/db/benchmarks/ycsb/MultiUserWorkloadC.java:201 | the truncated quotient is the quotient of the magnitudes, negated when the signs differ |
| JavaInt.Abs | src/main/java/com/scalar/db/benchmarks/ycsb/MultiUserWorkloadC.java:66 | Math.abs returns the argument or its negation |
| JavaInt.OrBound | src/main/java/com/scalar/db/benchmarks/tpcc/TpccUtil.java:169 | bitwise OR of two values below 2^k stays below 2^k |
| JavaInt.OrAtLeast | src/main/java/com/scalar/db/benchmarks/tpcc/TpccUtil.java:169 | bitwise OR of non-negative values is at least each operand |
| Text.StrLessIrreflexive | src/main/java/com/scalar/db/benchmarks/tpcc/table/Customer.java:54-58 | no first name sorts before itself under String.compareTo |
| Text.StrLessTransitive | src/main/java/com/scalar/db/benchmarks/tpcc/table/Customer.java:54-58 | the String.compareTo order is transitive |
| Text.StrLessTotal | src/main/java/com/scalar/db/benchmarks/tpcc/table/Customer.java:54-58 | two different names are ordered one way or the other |
| Text.StrLessAsymmetric | src/main/java/com/scalar/db/benchmarks/tpcc/table/Customer.java:54-58 | two names are never each before the other |
| Text.Digits | src/main/java/com/scalar/db/benchmarks/tpcc/table/Customer.java:186-187 | the decimal digits of a number, with no leading zero |
| Text.DigitsRoundTrip | src/main/java/com/scalar/db/benchmarks/tpcc/table/Customer.java:186-187 | the printed digits read back as the number |
| Text.ZeroPad | src/main/java/com/scalar/db/benchmarks/tpcc/table/Customer.java:186-187 | String.format with a %0Nd pattern is at least N characters long for a non-negative number |
| Text.ZeroPadExact | src/main/java/com/scalar/db/benchmarks/tpcc/table/Customer.java:186-187 | a number below 10^N pads to exactly N digits that read back as the number |
| Text.ParseInt | src/main/java/com/scalar/db/benchmarks/tpcc/table/Warehouse.java:70 | Integer.parseInt only ever yields a 32-bit int |
| Text.ParseIntRoundTrip | src/main/java/com/scalar/db/benchmarks/tpcc/table/Warehouse.java:70 | every int printed in decimal is read back unchanged by Integer.parseInt |
| Csv.Cell | src/main/java/com/scalar/db/benchmarks/tpcc/table/Warehouse.java:70 | CSVRecord.get yields the cell exactly when the header has the column |
| Csv.GetInt | src/main/java/com/scalar/db/benchmarks/tpcc/table/Stock.java:94-101 | an int cell reads exactly when the column exists and parses |
| Csv.GetDouble | src/main/java/com/scalar/db/benchmarks/tpcc/table/Stock.java:99 | a double cell reads exactly when the column exists and parses |
| Csv.GetDate | src/main/java/com/scalar/db/benchmarks/tpcc/table/OrderLine.java:144-150 | a date cell reads exactly when the column exists and parses |
| Csv.ReadCell | src/main/java/com/scalar/db/benchmarks/tpcc/table/Order.java:88-93 | a cell read as its column's kind, with an empty or `\N` carrier read as 0 and such a delivery date as null |
| Csv.ReadCells | src/main/java/com/scalar/db/benchmarks/tpcc/table/Stock.java:92-107 | a CSV constructor reads all its columns in order and throws as soon as one cannot be read |
| Csv.ReadText | src/main/java/com/scalar/db/benchmarks/tpcc/table/Stock.java:102 | a text column of a readable row is read as the cell itself |
| Csv.ReadInt | src/main/java/com/scalar/db/benchmarks/tpcc/table/Stock.java:94-101 | an int column of a readable row is read as the cell parsed by Integer.parseInt |
| Csv.ReadDateOrNull | src/main/java/com/scalar/db/benchmarks/tpcc/table/OrderLine.java:144-150 | a nullable delivery date is null for an empty or `\N` cell and the parsed date otherwise |
| Stock.DistNamesShape | src/main/java/com/scalar/db/benchmarks/tpcc/table/Stock.java:81-84 | the ten s_dist_NN column names are nine characters long |
| TpccUtil.NonUniformRandomInt | src/main/java/com/scalar/db/benchmarks/tpcc/TpccUtil.java:163-170 | NURand over the integers lies in [min, max] |
| TpccUtil.ParseLastName | src/main/java/com/scalar/db/benchmarks/tpcc/TpccUtil.java:124-126 | decoding a last name yields a number in 0..999 |
| PaymentTx.Truncate | src/main/java/com/scalar/db/benchmarks/tpcc/transaction/PaymentTransaction.java:87-95 | cutting a name to n characters keeps its first min(n, length) characters |
| Records.CreateKey | src/main/java/com/scalar/db/benchmarks/tpcc/table/TpccRecordBase.java:79-100 | the forEach over a key map builds exactly the columns KeyColumnsOf describes |
| Records.AddressOfRow | src/main/java/com/scalar/db/benchmarks/tpcc/table/Address.java:32-67 | a row holding an address's five columns reads back as that address |
| YcsbCommon.InitCharSymbols | src/main/java/com/scalar/db/benchmarks/ycsb/YcsbCommon.java:31-51 | the symbol table has 1 + 126 - 32 = 95 slots and slot i holds the character with code 32 + i |
| YcsbCommon.BlocksAt | src/main/java/com/scalar/db/benchmarks/ycsb/YcsbCommon.java:151-158 | the block part is ten characters per round, and character k comes from round k / 10 under mask k % 10 |
| YcsbCommon.FastCharsAt | src/main/java/com/scalar/db/benchmarks/ycsb/YcsbCommon.java:146-165 | randomFastChars produces exactly `len` characters: position k below 10 * (len / 10) is round k / 10 under mask k % 10, later positions take one tail draw each, and every character is printable (codes 32..126) |
| YcsbCommon.FastCharsPrintable | src/main/java/com/scalar/db/benchmarks/ycsb/YcsbCommon.java:146-165 | for draws that fit the array length, the filled array has that length and holds only printable symbols |
| YcsbCommon.RandomFastChars | src/main/java/com/scalar/db/benchmarks/ycsb/YcsbCommon.java:146-165 | fills the given array in place (same array returned) with the characters FastCharsAt describes |
| YcsbCommon.FillBlock | src/main/java/com/scalar/db/benchmarks/ycsb/YcsbCommon.java:154-157 | one draw writes ten consecutive slots, one per mask in FAST_MASKS order, leaving the earlier slots as they were |
| YcsbCommon.PrepareGet | src/main/java/com/scalar/db/benchmarks/ycsb/YcsbCommon.java:61-69 | a get on table `namespace.table` with partition key ycsb_key = 0 and clustering key ycsb_clustering_key = key |
| YcsbCommon.PreparePut | src/main/java/com/scalar/db/benchmarks/ycsb/YcsbCommon.java:113-122 | a put on the same record key as prepareGet with the payload as its single text column |
| YcsbCommon.RecordKeyInjective | src/main/java/com/scalar/db/benchmarks/ycsb/YcsbCommon.java:61-122 | distinct record ids give distinct record keys |
| YcsbCommon.PutThenGet | src/main/java/com/scalar/db/benchmarks/ycsb/YcsbCommon.java:61-122 | after the prepared put, the record prepareGet names holds the payload and both key columns |
| LoadRunner.NumPerThread | src/main/java/com/scalar/db/benchmarks/ycsb/LoadRunner.java:59 | numPerThread is the ceiling of recordCount / concurrency: enough threads' worth to hold every record, and no thread's worth to spare |
| LoadRunner.BatchCount | src/main/java/com/scalar/db/benchmarks/ycsb/LoadRunner.java:62 | the batch count is the ceiling of numPerThread / batchSize |
| LoadRunner.ThreadBatchesCover | src/main/java/com/scalar/db/benchmarks/ycsb/LoadRunner.java:59-68 | one thread's batches [start + batchSize * i, min(start + batchSize * (i + 1), end)) together are exactly its range [start, end), in order, each id once |
| LoadRunner.AllThreadsAreChunks | src/main/java/com/scalar/db/benchmarks/ycsb/LoadRunner.java:59-61 | the ranges of the first `count` threads are the consecutive numPerThread-sized chunks of [0, recordCount) |
| LoadRunner.AllThreadsCover | src/main/java/com/scalar/db/benchmarks/ycsb/LoadRunner.java:59-61 | threads 0 .. concurrency - 1 together load every record id in [0, recordCount) exactly once, in ascending order |
| LoadRunner.PutForSingleStorage | src/main/java/com/scalar/db/benchmarks/ycsb/LoadRunner.java:90-98 | a get is issued if and only if overwrite is set |
| LoadRunner.PutForMultiStorage | src/main/java/com/scalar/db/benchmarks/ycsb/LoadRunner.java:100-112 | gets are issued if and only if overwrite is set |
| LoadRunner.SingleStorageWrites | src/main/java/com/scalar/db/benchmarks/ycsb/LoadRunner.java:90-98 | with or without the overwrite get, the store ends as after the single put, and the record holds the payload |
| LoadRunner.MultiStorageWrites | src/main/java/com/scalar/db/benchmarks/ycsb/LoadRunner.java:100-112 | the record holds the same payload in both the primary and the secondary namespace |
| LoadRunner.GetsChangeNothing | src/main/java/com/scalar/db/benchmarks/ycsb/LoadRunner.java:92-95 | gets leave the store unchanged |
| LoadRunner.LoadRunner.constructor | src/main/java/com/scalar/db/benchmarks/ycsb/LoadRunner.java:40-48 | the runner keeps the thread id and the configured settings, and its payload buffer is a fresh array of payloadSize characters |
| LoadRunner.LoadRunner.Run | src/main/java/com/scalar/db/benchmarks/ycsb/LoadRunner.java:58-69 | the thread upserts exactly the ids of its range, in ascending order, each once, with a printable payload of the buffer's length |
| LoadRunner.LoadRunner.Batch | src/main/java/com/scalar/db/benchmarks/ycsb/LoadRunner.java:64-67 | batch i extends the upserted ids from [start, startId) to [start, min(startId + batchSize, end)) |
| LoadRunner.LoadRunner.PopulateWithTx | src/main/java/com/scalar/db/benchmarks/ycsb/LoadRunner.java:71-88 | upserts the ids startId .. endId - 1 in order, each with the buffer refilled by randomFastChars |
| MultiUserWorkloadC.ThreadId | src/main/java/com/scalar/db/benchmarks/ycsb/MultiUserWorkloadC.java:66 | Math.abs(hash % userCount) throws (division by zero) if and only if userCount is 0, and otherwise is an index in [0, abs(userCount)) |
| MultiUserWorkloadC.CalculateKeyRange | src/main/java/com/scalar/db/benchmarks/ycsb/MultiUserWorkloadC.java:196-212 | an IllegalArgumentException if and only if threadId >= userCount |
| MultiUserWorkloadC.RangeBounds | src/main/java/com/scalar/db/benchmarks/ycsb/MultiUserWorkloadC.java:201-211 | thread t's range starts at t * (recordCount / userCount) and ends one before the next thread's start, the last thread at recordCount - 1 |
| MultiUserWorkloadC.KeyRangesTile | src/main/java/com/scalar/db/benchmarks/ycsb/MultiUserWorkloadC.java:196-212 | the threads' ranges tile [0, recordCount - 1]: the first starts at 0, each next one starts right after the previous one ends, and the last ends at the last record |
| MultiUserWorkloadC.KeyOwnedOnce | src/main/java/com/scalar/db/benchmarks/ycsb/MultiUserWorkloadC.java:196-212 | each record id lies in the range of exactly one thread, its owner |
| MultiUserWorkloadC.InitialKeyRange | src/main/java/com/scalar/db/benchmarks/ycsb/MultiUserWorkloadC.java:64-71 | the thread-local initializer succeeds if and only if userCount > 0; it then yields a user index below userCount and that index's range |
| MultiUserWorkloadC.RangeWithinRecords | src/main/java/com/scalar/db/benchmarks/ycsb/MultiUserWorkloadC.java:196-212 | every thread's range, possibly empty, lies within the record ids 0 .. recordCount - 1 |
| MultiUserWorkloadC.ChooseKeys | src/main/java/com/scalar/db/benchmarks/ycsb/MultiUserWorkloadC.java:123-129 | the key choice succeeds if and only if opsPerTx is 0, or is positive with a non-empty range; it then yields opsPerTx keys, key i being startKey plus draw i and lying in the thread's range |
| MultiUserWorkloadC.CreateUserManagers | src/main/java/com/scalar/db/benchmarks/ycsb/MultiUserWorkloadC.java:78-115 | as written: the list holds exactly the users whose manager was created, in ascending order, so a failed creation shifts the later ones down |
| MultiUserWorkloadC.ChooseManager | src/main/java/com/scalar/db/benchmarks/ycsb/MultiUserWorkloadC.java:132-140 | as written: a user manager is chosen if and only if the thread's user index is below the list's size, else the admin's |
| MultiUserWorkloadC.ManagerOfAnotherUser | src/main/java/com/scalar/db/benchmarks/ycsb/MultiUserWorkloadC.java:88-135 | with two users and only user 1's manager created, thread 0 reads under user 1's manager |
| MultiUserWorkloadC.CreateUserManagerSlots | src/main/java/com/scalar/db/benchmarks/ycsb/MultiUserWorkloadC.java:88-108 | corrected: one slot per user (none for a non-positive count), holding that user's manager when its creation succeeded and empty otherwise |
| MultiUserWorkloadC.OwnManagerOrAdmin | src/main/java/com/scalar/db/benchmarks/ycsb/MultiUserWorkloadC.java:132-140 | corrected: a thread reads under its own user's manager when it exists, else under the admin's, never under another user's |
| MultiUserWorkloadC.Gets | src/main/java/com/scalar/db/benchmarks/ycsb/MultiUserWorkloadC.java:146-148 | one attempt issues prepareGet of each chosen key, in order |
| MultiUserWorkloadC.FirstSettled | src/main/java/com/scalar/db/benchmarks/ycsb/MultiUserWorkloadC.java:143-158 | the attempt that ends the retry loop is the first one that does not end in a conflict |
| MultiUserWorkloadC.MultiUserWorkloadC.constructor | src/main/java/com/scalar/db/benchmarks/ycsb/MultiUserWorkloadC.java:50-60 | the workload keeps its settings and managers, with no retries counted and nothing read |
| MultiUserWorkloadC.MultiUserWorkloadC.Transact | src/main/java/com/scalar/db/benchmarks/ycsb/MultiUserWorkloadC.java:143-158 | every conflict before the first settled attempt adds one retry; each attempt issues, in order, the gets of the keys up to the one that throws (all of them when none does) under the chosen manager; the loop's result is the settled attempt's outcome (a commit, or the rethrown exception) |
| MultiUserWorkloadC.MultiUserWorkloadC.ReadKeys | src/main/java/com/scalar/db/benchmarks/ycsb/MultiUserWorkloadC.java:146-148 | appends one get per key up to the given count, in order, tagged with the manager |
| MultiUserWorkloadC.MultiUserWorkloadC.ExecuteEach | src/main/java/com/scalar/db/benchmarks/ycsb/MultiUserWorkloadC.java:118-159 | with no users it fails and changes nothing; when the key choice fails (negative opsPerTx, or keys asked of an empty range) it fails and changes nothing; otherwise it returns the settled attempt's outcome, commit or rethrown exception, and counts each conflict before it as a retry; every read runs under the manager `userManagers.get(userIndex)` picks from the list as createUserManagers left it (the admin's when the index is past its end) and names a record id within the thread's own key range, itself within [0, recordCount) |
| MultiUserWorkloadC.AttemptGetsInRange | src/main/java/com/scalar/db/benchmarks/ycsb/MultiUserWorkloadC.java:143-148 | across any number of attempts, each ending at its own get, every get runs under the one manager and reads a record whose id lies in the thread's range |
| MultiUserLoader.Slices | src/main/java/com/scalar/db/benchmarks/ycsb/MultiUserLoader.java:148-151 | entry i is thread i's range [i * recordsPerThread, end), the last thread's end being recordCount |
| MultiUserLoader.LoadRecords | src/main/java/com/scalar/db/benchmarks/ycsb/MultiUserLoader.java:142-156 | loadRecords throws (division by zero) if and only if there are no threads; otherwise it starts one loadRange per thread, in thread order, on that thread's range |
| MultiUserLoader.SliceBounds | src/main/java/com/scalar/db/benchmarks/ycsb/MultiUserLoader.java:145-151 | for a non-negative record count, thread i's range is [i * (recordCount / n), (i + 1) * (recordCount / n)), the last thread's reaching recordCount |
| MultiUserLoader.SlicesPrefix | src/main/java/com/scalar/db/benchmarks/ycsb/MultiUserLoader.java:145-151 | the ranges of the threads before the last run without gap or overlap from 0 |
| MultiUserLoader.LoadRecordsCover | src/main/java/com/scalar/db/benchmarks/ycsb/MultiUserLoader.java:142-156 | together the threads' ranges are the record ids 0 .. recordCount - 1, each once and in order |
| MultiUserLoader.RecordOpsAsWritten | src/main/java/com/scalar/db/benchmarks/ycsb/MultiUserLoader.java:219-232 | as written: the put is issued if and only if overwrite is set or the probing get throws; without overwrite the first operation is a get of partition ycsb_key = i with no clustering key |
| MultiUserLoader.AsWrittenSkipsMissingRecord | src/main/java/com/scalar/db/benchmarks/ycsb/MultiUserLoader.java:222-231 | as written: the probing get names another key than the record's, so a record missing from the table stays missing when that get returns an empty result |
| MultiUserLoader.RecordOps | src/main/java/com/scalar/db/benchmarks/ycsb/MultiUserLoader.java:218-232 | corrected: the put is issued if and only if overwrite is set or the record is missing |
| MultiUserLoader.RecordOpsStore | src/main/java/com/scalar/db/benchmarks/ycsb/MultiUserLoader.java:215-233 | after a committed record transaction the record is present; it holds the new payload when it was written; without overwrite an existing record is left alone; no other record changes |
| MultiUserLoader.RecordOpsAsWrittenStore | src/main/java/com/scalar/db/benchmarks/ycsb/MultiUserLoader.java:219-232 | as written: a record transaction puts the payload when overwrite is set or the probing get throws, leaves the table unchanged otherwise, and touches no other record |
| MultiUserLoader.AsWrittenLoadsNothing | src/main/java/com/scalar/db/benchmarks/ycsb/MultiUserLoader.java:219-232 | as written: without overwrite, a range whose probing gets never throw leaves the table exactly as it was |
| MultiUserLoader.LoadStep | src/main/java/com/scalar/db/benchmarks/ycsb/MultiUserLoader.java:211-237 | committing the next record's operations as written extends the loaded prefix by that record: it is put exactly when overwrite is set or its probing get throws, and what the earlier records established is kept |
| MultiUserLoader.ReportsExactly | src/main/java/com/scalar/db/benchmarks/ycsb/MultiUserLoader.java:236-250 | a progress report (loaded, remaining) is made exactly when the loaded count reaches a multiple of 10000 |
| MultiUserLoader.MultiUserLoader.constructor | src/main/java/com/scalar/db/benchmarks/ycsb/MultiUserLoader.java:53-61 | the loader keeps its settings, with no thread finished |
| MultiUserLoader.MultiUserLoader.LoadRecord | src/main/java/com/scalar/db/benchmarks/ycsb/MultiUserLoader.java:212-233 | a fresh payload array filled by randomFastChars, then one committed record transaction as written, extends the loaded prefix by one record, written exactly when overwrite is set or the probing get throws |
| MultiUserLoader.MultiUserLoader.LoadRange | src/main/java/com/scalar/db/benchmarks/ycsb/MultiUserLoader.java:172-283 | loaded + remaining stays the range's size; the records loaded are those before the first failed transaction; a failure returns quietly if and only if the load was cancelled, and otherwise carries the error; numFinished grows by one only when the whole range was loaded; the reports are those at multiples of 10000; the table gains exactly the loaded records that were put (overwrite set, or the probing get threw), each holding a payload of the configured size, and changes nothing else |
| Records.AddressValues | src/main/java/com/scalar/db/benchmarks/tpcc/table/Address.java:59-67 | createValues yields five text columns with distinct names, each the prefix followed by a suffix |
| Records.AddressRoundTrip | src/main/java/com/scalar/db/benchmarks/tpcc/table/Address.java:32-67 | the explicit constructor keeps its arguments: the five columns it writes read back as the same address |
| Records.GeneratedAddress | src/main/java/com/scalar/db/benchmarks/tpcc/table/Address.java:45-52 | the generating constructor keeps the prefix; its zip is nine digits, four drawn and then "11111", and streets, city and state have the drawn lengths |
| Records.SingleValue | src/main/java/com/scalar/db/benchmarks/tpcc/table/TpccRecordBase.java:63-74 | createSingleValue maps Integer, Double, String and Date to Int, Double, Text and BigInt values, each kind to its own |
| Records.KeyColumnsOf | src/main/java/com/scalar/db/benchmarks/tpcc/table/TpccRecordBase.java:79-100 | a key has at most one column per key-map entry, each named after a non-null entry |
| Records.ScalarKey3 | src/main/java/com/scalar/db/benchmarks/tpcc/table/TpccRecordBase.java:79-100 | a key map of three scalar fields yields the three columns in map order |
| Records.ValueColumnsOfScalars | src/main/java/com/scalar/db/benchmarks/tpcc/table/TpccRecordBase.java:107-119 | a value map of scalars yields one column per entry, in map order |
| Records.ValueColumnsSkipsNull | src/main/java/com/scalar/db/benchmarks/tpcc/table/TpccRecordBase.java:109-110 | a null entry adds no column |
| Records.KeyColumnsOfComplete | src/main/java/com/scalar/db/benchmarks/tpcc/table/TpccRecordBase.java:81-85 | every non-null key-map entry yields its column |
| Records.ValueColumnsComplete | src/main/java/com/scalar/db/benchmarks/tpcc/table/TpccRecordBase.java:109-117 | every non-null scalar value is a column, and every address contributes its five columns |
| Records.ValueColumnsCount | src/main/java/com/scalar/db/benchmarks/tpcc/table/TpccRecordBase.java:107-119 | without addresses, the value columns are exactly the non-null entries, one each |
| Records.CreatePartitionKey | src/main/java/com/scalar/db/benchmarks/tpcc/table/TpccRecordBase.java:79-87 | the loop over the partition-key map builds the key KeyColumnsOf describes |
| Records.CreateClusteringKey | src/main/java/com/scalar/db/benchmarks/tpcc/table/TpccRecordBase.java:92-100 | the loop over the clustering-key map builds the key KeyColumnsOf describes |
| Records.CreateValues | src/main/java/com/scalar/db/benchmarks/tpcc/table/TpccRecordBase.java:107-119 | the loop over the value map builds the columns ValueColumns describes, addresses expanded |
| Records.Insert | src/main/java/com/scalar/db/benchmarks/tpcc/table/TpccRecordBase.java:24-61 | insert succeeds if and only if the commit does, and then the store is the old one with the record put |
| Records.PutReadsBack | src/main/java/com/scalar/db/benchmarks/tpcc/table/TpccRecordBase.java:24-119 | after the insert, the record's row holds each scalar field under its name |
| Records.PutReadsBackAddress | src/main/java/com/scalar/db/benchmarks/tpcc/table/TpccRecordBase.java:24-119 | after the insert, an address field reads back as the same address |
| Customer.IndexStringInjective | src/main/java/com/scalar/db/benchmarks/tpcc/table/Customer.java:185-189 | for ids that fit their widths (5 and 3 digits), the index string determines the warehouse, the district and the last name |
| Customer.IndexStringParts | src/main/java/com/scalar/db/benchmarks/tpcc/table/Customer.java:185-189 | the index string is the warehouse id padded to 5 digits, the district id padded to 3, then the last name, and each part reads back |
| Customer.Scan | src/main/java/com/scalar/db/benchmarks/tpcc/table/Customer.java:196-199 | the c_index lookup returns the customers whose index column holds the index string of (warehouse, district, last name) |
| Customer.WithIndexColumn | src/main/java/com/scalar/db/benchmarks/tpcc/table/Customer.java:229-235 | buildIndexColumn succeeds if and only if both ids are ints and c_last is text or absent; it sets c_index to the index string (a missing last name reads "null") and changes no other field or key |
| Customer.ForPayment | src/main/java/com/scalar/db/benchmarks/tpcc/table/Customer.java:71-83 | the payment record is keyed by the three ids and writes balance, ytd payment, payment count, and c_data unless null |
| Customer.ForDelivery | src/main/java/com/scalar/db/benchmarks/tpcc/table/Customer.java:88-98 | the delivery record is keyed by the three ids and writes only balance and delivery count |
| Customer.PaymentColumnsReadBack | src/main/java/com/scalar/db/benchmarks/tpcc/table/Customer.java:71-83 | after the payment put, the customer holds the new balance, ytd payment and count, and the new c_data when one was given |
| Customer.DeliveryColumnsReadBack | src/main/java/com/scalar/db/benchmarks/tpcc/table/Customer.java:88-98 | after the delivery put, the customer holds the new balance and delivery count |
| Customer.ForPaymentPut | src/main/java/com/scalar/db/benchmarks/tpcc/table/Customer.java:71-224 | putting the payment record is a put of its columns under the customer's key |
| Customer.ForDeliveryPut | src/main/java/com/scalar/db/benchmarks/tpcc/table/Customer.java:88-224 | putting the delivery record is a put of its columns under the customer's key |
| Customer.GeneratedLastName | src/main/java/com/scalar/db/benchmarks/tpcc/table/Customer.java:116-120 | customers 1..1000 get getLastName(customerId - 1); every generated last name is getLastName(n) for some n in [0, 999] |
| Customer.Generated | src/main/java/com/scalar/db/benchmarks/tpcc/table/Customer.java:107-136 | the generated customer is keyed by its ids, has that last name, credit "BC" exactly when the draw is below 10, a discount in [0, 0.5], balance 10.00, payment count 1 and delivery count 0 |
| Customer.Values | src/main/java/com/scalar/db/benchmarks/tpcc/table/Customer.java:113-166 | the value map holds each field under its own column name |
| Customer.FromCsv | src/main/java/com/scalar/db/benchmarks/tpcc/table/Customer.java:143-167 | the CSV constructor succeeds if and only if every listed cell is present and parses as its kind |
| Customer.FromCsvKey | src/main/java/com/scalar/db/benchmarks/tpcc/table/Customer.java:144-147 | a loaded customer is keyed by its three id cells read as ints |
| Customer.FromCsvLast | src/main/java/com/scalar/db/benchmarks/tpcc/table/Customer.java:152 | a loaded customer keeps its c_last cell as text |
| CustomerSecondary.Make | src/main/java/com/scalar/db/benchmarks/tpcc/table/CustomerSecondary.java:25-83 | the index record is keyed by (warehouse, district, last name) and (first name, customer id) and carries no value columns |
| CustomerSecondary.FromCsv | src/main/java/com/scalar/db/benchmarks/tpcc/table/CustomerSecondary.java:42-51 | the CSV constructor succeeds if and only if every cell is readable, and then builds the record of the two ids, the names and the customer id read from the row |
| CustomerSecondary.Scan | src/main/java/com/scalar/db/benchmarks/tpcc/TpccUtil.java:58-59 | the scan of the partition (warehouse, district, last name) returns every entry of that partition in ascending clustering order |
| District.Generated | src/main/java/com/scalar/db/benchmarks/tpcc/table/District.java:38-49 | the generated district is keyed by its ids, keeps the drawn name and address, has tax in [0, 0.2], ytd 30000.00 and next order id 3001 |
| District.FromCsv | src/main/java/com/scalar/db/benchmarks/tpcc/table/District.java:56-69 | the CSV constructor succeeds if and only if every listed cell is present and parses as its kind |
| District.FromCsvKey | src/main/java/com/scalar/db/benchmarks/tpcc/table/District.java:57-59 | a loaded district is keyed by its two id cells read as ints |
| District.FromCsvNextOrderId | src/main/java/com/scalar/db/benchmarks/tpcc/table/District.java:68 | a loaded district's next order id is its d_next_o_id cell read as an int |
| Warehouse.WithYtd | src/main/java/com/scalar/db/benchmarks/tpcc/table/Warehouse.java:39-45 | the payment record is keyed by the warehouse id and writes only w_ytd |
| Warehouse.Generated | src/main/java/com/scalar/db/benchmarks/tpcc/table/Warehouse.java:52-61 | the generated warehouse is keyed by its id, keeps the drawn name and address, has tax in [0, 0.2] and ytd 300000.00 |
| Warehouse.FromCsv | src/main/java/com/scalar/db/benchmarks/tpcc/table/Warehouse.java:68-79 | the CSV constructor succeeds if and only if every listed cell is present and parses as its kind |
| Warehouse.FromCsvYtdIsTax | src/main/java/com/scalar/db/benchmarks/tpcc/table/Warehouse.java:77-78 | the CSV constructor fills w_ytd from the w_tax cell, so the two fields are equal |
| Warehouse.FromCsvKey | src/main/java/com/scalar/db/benchmarks/tpcc/table/Warehouse.java:70 | a loaded warehouse is keyed by its w_id cell read as an int |
| Item.Generated | src/main/java/com/scalar/db/benchmarks/tpcc/table/Item.java:32-41 | the generated item is keyed by its id, keeps the drawn name, has a price in [1.00, 10.00], data of 26..50 alphanumerics and an image id in [1, 10000] |
| Item.FromCsv | src/main/java/com/scalar/db/benchmarks/tpcc/table/Item.java:48-57 | the CSV constructor succeeds if and only if every listed cell is present and parses as its kind |
| Item.FromCsvKey | src/main/java/com/scalar/db/benchmarks/tpcc/table/Item.java:49-55 | a loaded item is keyed by its i_id cell read as an int and keeps its i_data cell as text |
| Stock.DistNameShape | src/main/java/com/scalar/db/benchmarks/tpcc/table/Stock.java:81-84 | district column k is "s_dist_" followed by k + 1 padded to two digits |
| Stock.DistNameInjective | src/main/java/com/scalar/db/benchmarks/tpcc/table/Stock.java:81-84 | different loop indexes name different district columns |
| Stock.DistKey | src/main/java/com/scalar/db/benchmarks/tpcc/transaction/NewOrderTransaction.java:70-95 | getDistInfo names a column if and only if the district id is in 1..10, and then it is that district's s_dist_NN column |
| Stock.WithCounts | src/main/java/com/scalar/db/benchmarks/tpcc/table/Stock.java:51-62 | the update record is keyed by (warehouse, item) and writes quantity, ytd, order count and remote count only |
| Stock.WithCountsPut | src/main/java/com/scalar/db/benchmarks/tpcc/table/Stock.java:141-145 | putting the update record is a put of its four columns under the stock key |
| Stock.CountColumnsReadBack | src/main/java/com/scalar/db/benchmarks/tpcc/table/Stock.java:51-62 | after the update put, the stock holds the quantity, ytd, order count and remote count written |
| Stock.Generated | src/main/java/com/scalar/db/benchmarks/tpcc/table/Stock.java:70-85 | the generated stock is keyed by its ids, has the drawn quantity in [10, 100], ytd 0.00, both counters 0, data of 26..50 alphanumerics, and each of the ten district columns holds its drawn string |
| Stock.ReadDists | src/main/java/com/scalar/db/benchmarks/tpcc/table/Stock.java:103-106 | the loop over the ten district cells reads them in order, and fails if and only if one is missing |
| Stock.FromCsv | src/main/java/com/scalar/db/benchmarks/tpcc/table/Stock.java:92-107 | the CSV constructor succeeds if and only if every fixed cell is readable and every district cell is present; the record is keyed by the two id cells, s_quantity, s_order_cnt and s_remote_cnt hold their cells parsed as ints, s_ytd its cell parsed as a double, s_data its text, and each district column holds its cell |
| Stock.CsvKey | src/main/java/com/scalar/db/benchmarks/tpcc/table/Stock.java:93-95 | a readable stock row's key is its two id cells read as ints |
| Order.Make | src/main/java/com/scalar/db/benchmarks/tpcc/table/Order.java:32-47 | the explicit constructor is keyed by (warehouse, district) and the order id, and writes customer, carrier (0 included), line count, all-local flag and entry date |
| Order.MakePut | src/main/java/com/scalar/db/benchmarks/tpcc/table/Order.java:126-131 | putting the explicit constructor's record is a put of its columns under the order's key |
| Order.ColumnsReadBack | src/main/java/com/scalar/db/benchmarks/tpcc/table/Order.java:32-47 | after the order put, the order holds its customer, carrier, line count and all-local flag |
| Order.Scan | src/main/java/com/scalar/db/benchmarks/tpcc/transaction/OrderStatusTransaction.java:31-32 | Order.createScan, as defined here, returns the district's order rows whose o_c_id is the customer |
| Order.CustomerOrdersMembers | src/main/java/com/scalar/db/benchmarks/tpcc/transaction/OrderStatusTransaction.java:31-32 | a row is among the customer's scanned orders if and only if it is a stored `oorder` row of the (warehouse, district) partition whose o_c_id is the customer |
| Order.Generated | src/main/java/com/scalar/db/benchmarks/tpcc/table/Order.java:52-71 | a generated order below id 2101 has a carrier in [1, 10], one at or above 2101 has carrier 0 (written as a column); the line count is in [5, 15] and all-local is 1 |
| Order.WithCarrier | src/main/java/com/scalar/db/benchmarks/tpcc/transaction/DeliveryTransaction.java:67 | the delivery record is keyed by the order and writes only the new carrier |
| Order.LineCount | src/main/java/com/scalar/db/benchmarks/tpcc/table/Order.java:133-135 | getOrderLineCount succeeds if and only if o_ol_cnt holds an int, and returns it |
| Order.FromCsv | src/main/java/com/scalar/db/benchmarks/tpcc/table/Order.java:78-102 | the CSV constructor succeeds if and only if every listed cell is readable (an empty or \N carrier counts as 0) |
| Order.FromCsvIsMake | src/main/java/com/scalar/db/benchmarks/tpcc/table/Order.java:78-102 | a loaded order is the explicit constructor applied to the row's cells, the carrier being 0 for an empty or \N cell |
| OrderLine.Keys | src/main/java/com/scalar/db/benchmarks/tpcc/table/OrderLine.java:160-175 | a line's partition key is (warehouse, district) and its clustering key (order id, line number), ints each |
| OrderLine.ForDelivery | src/main/java/com/scalar/db/benchmarks/tpcc/table/OrderLine.java:44-55 | the delivery record is keyed by the line and writes only the delivery date |
| OrderLine.Make | src/main/java/com/scalar/db/benchmarks/tpcc/table/OrderLine.java:70-87 | the insert constructor is keyed by the line and writes item, supplier, amount, quantity and district info; its null delivery date is not written |
| OrderLine.MakePut | src/main/java/com/scalar/db/benchmarks/tpcc/table/OrderLine.java:183-188 | putting the insert constructor's record is a put of its columns under the line's key |
| OrderLine.ColumnsReadBack | src/main/java/com/scalar/db/benchmarks/tpcc/table/OrderLine.java:70-87 | after the line put, the line holds its item, supplier, amount, quantity and district info |
| OrderLine.Generated | src/main/java/com/scalar/db/benchmarks/tpcc/table/OrderLine.java:100-122 | a generated line of an order below 2101 has the load date as delivery date and amount 0.00; a later one has none and an amount in [0.01, 9999.99]; the quantity is 5 and the district info has 24 characters |
| OrderLine.FromCsv | src/main/java/com/scalar/db/benchmarks/tpcc/table/OrderLine.java:129-151 | the CSV constructor succeeds if and only if every listed cell is readable |
| OrderLine.FromCsvDelivery | src/main/java/com/scalar/db/benchmarks/tpcc/table/OrderLine.java:144-150 | a loaded line's delivery date is null exactly when its cell is empty or \N, and is the parsed date otherwise |
| OrderLine.FromCsvKey | src/main/java/com/scalar/db/benchmarks/tpcc/table/OrderLine.java:130-136 | a loaded line is keyed by its four id cells read as ints |
| OrderLine.ScanRange | src/main/java/com/scalar/db/benchmarks/tpcc/table/OrderLine.java:200-205 | the range scan returns the district's lines whose order id lies in [start, end], in key order |
| OrderLine.Scan | src/main/java/com/scalar/db/benchmarks/tpcc/table/OrderLine.java:193-195 | the single-order scan is the range scan from the order to itself |
| OrderLine.ScanOnlyOrder | src/main/java/com/scalar/db/benchmarks/tpcc/table/OrderLine.java:193-205 | every row the single-order scan returns is a stored line of the district with that order id |
| OrderLine.ScanAllLines | src/main/java/com/scalar/db/benchmarks/tpcc/table/OrderLine.java:193-205 | the single-order scan returns every stored line of the order |
| NewOrder.Make | src/main/java/com/scalar/db/benchmarks/tpcc/table/NewOrder.java:29-36 | the new-order record is keyed by (warehouse, district) and the order id and carries no value columns |
| NewOrder.MakePut | src/main/java/com/scalar/db/benchmarks/tpcc/table/NewOrder.java:82-86 | putting a new-order record writes only its key columns |
| NewOrder.FromCsv | src/main/java/com/scalar/db/benchmarks/tpcc/table/NewOrder.java:43-50 | the CSV constructor succeeds if and only if the three id cells parse, and builds the record of those ids |
| NewOrder.Scan | src/main/java/com/scalar/db/benchmarks/tpcc/table/NewOrder.java:100-106 | the scan returns the district's new orders by ascending order id, at most one |
| NewOrder.ScanFindsOldest | src/main/java/com/scalar/db/benchmarks/tpcc/table/NewOrder.java:100-106 | the scan returns one record exactly when the district has a new order, and it is the one with the smallest order id |
| OrderSecondary.Make | src/main/java/com/scalar/db/benchmarks/tpcc/table/OrderSecondary.java:24-32 | the index record is keyed by (warehouse, district, customer) and the order id and carries no value columns |
| OrderSecondary.FromCsv | src/main/java/com/scalar/db/benchmarks/tpcc/table/OrderSecondary.java:39-47 | the CSV constructor succeeds if and only if the four id cells parse, and builds the record of those ids |
| OrderSecondary.Scan | src/main/java/com/scalar/db/benchmarks/tpcc/table/OrderSecondary.java:81-87 | the scan returns the customer's index entries by descending order id, at most one |
| OrderSecondary.ScanFindsLatest | src/main/java/com/scalar/db/benchmarks/tpcc/table/OrderSecondary.java:81-87 | the scan returns one entry exactly when the customer has an order, and it is the one with the largest order id |
| History.Make | src/main/java/com/scalar/db/benchmarks/tpcc/table/History.java:45-66 | the history record is keyed by its UUID and its value columns are the eight fields in order, so the customer, warehouse, date, amount and data are found under their names |
| History.MakePut | src/main/java/com/scalar/db/benchmarks/tpcc/table/History.java:126-130 | putting a history record is a put of its columns under its UUID key |
| History.ColumnsReadBack | src/main/java/com/scalar/db/benchmarks/tpcc/table/History.java:45-66 | after the history put, the record holds the five ids, the amount and the data |
| History.Generated | src/main/java/com/scalar/db/benchmarks/tpcc/table/History.java:78-97 | the generated history record has amount 10.00 and data of 12..24 alphanumerics |
| History.FromCsv | src/main/java/com/scalar/db/benchmarks/tpcc/table/History.java:104-118 | the CSV constructor succeeds if and only if every listed cell is readable, and keys the record by a fresh UUID |
| NewOrderTx.AdjustedQuantity | src/main/java/com/scalar/db/benchmarks/tpcc/transaction/NewOrderTransaction.java:175-180 | the computed stock quantity is s - q when s > q + 10 and s - q + 91 otherwise, which stays in [11, 101] for a loaded stock and a drawn quantity |
| NewOrderTx.DistInfo | src/main/java/com/scalar/db/benchmarks/tpcc/transaction/NewOrderTransaction.java:70-95 | getDistInfo reads the stock's s_dist_NN column of the district for ids 1..10 and throws "No such district ID" for any other |
| NewOrderTx.WriteHeaderWrites | src/main/java/com/scalar/db/benchmarks/tpcc/transaction/NewOrderTransaction.java:114-144 | the header's puts leave the next order id bumped, the new-order row present and the order row with customer, carrier 0, line count and all-local flag, and touch no other table |
| NewOrderTx.ReadLine | src/main/java/com/scalar/db/benchmarks/tpcc/transaction/NewOrderTransaction.java:152-181 | a line's reads fail with "Item not found" when the item is missing, and on success both the item and the home warehouse's stock row exist and the ytd and counters read are the stock's |
| NewOrderTx.LineWriteFrame | src/main/java/com/scalar/db/benchmarks/tpcc/transaction/NewOrderTransaction.java:182-191 | a line writes only stock rows and its own order line |
| NewOrderTx.LineWriteWrites | src/main/java/com/scalar/db/benchmarks/tpcc/transaction/NewOrderTransaction.java:187-191 | a line's writes put order line number i + 1 with the generated item, supplier and quantity |
| NewOrderTx.StockWrite | src/main/java/com/scalar/db/benchmarks/tpcc/transaction/NewOrderTransaction.java:162-185 | the stock row written is keyed by the home warehouse and the item, gets s_quantity = the order quantity, ytd + quantity, order count + 1 and remote count + 1 exactly when the order is remote (Java int arithmetic) |
| NewOrderTx.LineStepKeeps | src/main/java/com/scalar/db/benchmarks/tpcc/transaction/NewOrderTransaction.java:147-192 | a successful line extends the progress of the lines before it |
| NewOrderTx.LinesKeep | src/main/java/com/scalar/db/benchmarks/tpcc/transaction/NewOrderTransaction.java:147-192 | when the line loop succeeds, every order line is written, the header kept, untouched tables unchanged, and every line's item was present |
| NewOrderTx.DrawnRanges | src/main/java/com/scalar/db/benchmarks/tpcc/transaction/NewOrderTransaction.java:51-62 | drawn items are in [1, 100000], quantities in [1, 10], suppliers among the warehouses and equal to the home warehouse exactly on home lines; the order is remote exactly when some supplier differs |
| NewOrderTx.DrawLines | src/main/java/com/scalar/db/benchmarks/tpcc/transaction/NewOrderTransaction.java:45-62 | the line loop fills three fresh distinct arrays with the draws of each line and reports whether any line was remote |
| NewOrderTx.MoveLastItem | src/main/java/com/scalar/db/benchmarks/tpcc/transaction/NewOrderTransaction.java:64-67 | the rollback adds 100000 to the last item id and changes nothing else |
| NewOrderTx.HeaderStepOutcome | src/main/java/com/scalar/db/benchmarks/tpcc/transaction/NewOrderTransaction.java:106-144 | the header fails with "Warehouse not found", "District not found" or "Customer not found" when those rows are missing and the reads before them succeed, and on success reads the next order id, writes the header for it and creates no stock row |
| NewOrderTx.ExecutionFails | src/main/java/com/scalar/db/benchmarks/tpcc/transaction/NewOrderTransaction.java:102-199 | execute fails on a missing warehouse, district or customer with their messages (the reads before them succeeding), whenever an ordered item or its home-warehouse stock row is missing, and when the commit conflicts |
| NewOrderTx.ExecutionWrites | src/main/java/com/scalar/db/benchmarks/tpcc/transaction/NewOrderTransaction.java:102-199 | a successful execute leaves the district's next order id bumped past the id read, the new-order and order rows, every order line, and every other table unchanged |
| NewOrderTx.RollbackFails | src/main/java/com/scalar/db/benchmarks/tpcc/transaction/NewOrderTransaction.java:64-67 | against a loaded item table, an order whose rollback moved an item out of range always fails |
| NewOrderTx.NewOrderTransaction.constructor | src/main/java/com/scalar/db/benchmarks/tpcc/transaction/NewOrderTransaction.java:22-32 | a fresh transaction object is valid with no lines |
| NewOrderTx.NewOrderTransaction.Generate | src/main/java/com/scalar/db/benchmarks/tpcc/transaction/NewOrderTransaction.java:39-68 | generate sets the home warehouse, district, NURand customer, rollback and line count from the draws, fills fresh arrays with the drawn lines, and moves the last item out of range exactly when rollback is 1 |
| NewOrderTx.NewOrderTransaction.Execute | src/main/java/com/scalar/db/benchmarks/tpcc/transaction/NewOrderTransaction.java:102-199 | execute computes exactly the execution function over the object's arguments |
| NewOrderTx.NewOrderTransaction.ExecuteLines | src/main/java/com/scalar/db/benchmarks/tpcc/transaction/NewOrderTransaction.java:147-192 | the for loop over line numbers 1..orderLineCount computes the loop of line steps |
| NewOrderTx.NewOrderTransaction.ReadLineOf | src/main/java/com/scalar/db/benchmarks/tpcc/transaction/NewOrderTransaction.java:148-181 | one pass's reads are the specification's reads of that line |
| NewOrderTx.NewOrderTransaction.WriteLineOf | src/main/java/com/scalar/db/benchmarks/tpcc/transaction/NewOrderTransaction.java:159-191 | one pass's puts are the specification's writes of that line |
| NewOrderTx.NewOrderTransaction.ExecuteLine | src/main/java/com/scalar/db/benchmarks/tpcc/transaction/NewOrderTransaction.java:147-192 | one pass of the loop is the line step of its index |
| PaymentTx.HistoryData | src/main/java/com/scalar/db/benchmarks/tpcc/transaction/PaymentTransaction.java:87-95 | the history data is the warehouse name and the district name, each cut to its first ten characters, joined by four spaces, so at most 24 characters |
| PaymentTx.CustomerData | src/main/java/com/scalar/db/benchmarks/tpcc/transaction/PaymentTransaction.java:77-85 | the new c_data is a prefix of the description followed by the old data, of at most 500 characters, the whole text when it fits and exactly 500 characters otherwise |
| PaymentTx.CustomerDataKeepsHead | src/main/java/com/scalar/db/benchmarks/tpcc/transaction/PaymentTransaction.java:77-85 | when the description fits in 500 characters, the cut removes only old data: the result is the description followed by the beginning of the old data |
| PaymentTx.HomeStepOutcome | src/main/java/com/scalar/db/benchmarks/tpcc/transaction/PaymentTransaction.java:106-132 | the warehouse and district updates fail with "Warehouse not found" or "District not found" when those rows are missing; otherwise both ytd columns gain the amount, the names read are returned and no other record changes |
| PaymentTx.HomeStepKeepsLookup | src/main/java/com/scalar/db/benchmarks/tpcc/transaction/PaymentTransaction.java:106-142 | the ytd updates leave the by-name lookup's answer unchanged |
| PaymentTx.CustomerStepOutcome | src/main/java/com/scalar/db/benchmarks/tpcc/transaction/PaymentTransaction.java:134-166 | the customer update fails when the lookup fails and with "Customer not found" when the resolved customer is missing under the home warehouse and district; otherwise balance and ytd payment gain the amount, the count gains one, c_data is rewritten exactly for credit "BC", and no other record changes |
| PaymentTx.ExecutionFails | src/main/java/com/scalar/db/benchmarks/tpcc/transaction/PaymentTransaction.java:102-182 | a payment fails with "Warehouse not found" or "District not found" when those rows are missing, and whenever the commit conflicts |
| PaymentTx.ExecutionFailsOnCustomer | src/main/java/com/scalar/db/benchmarks/tpcc/transaction/PaymentTransaction.java:134-148 | a payment fails with "Customer not found" when the resolved customer is missing, and fails when a by-name scan finds no customer |
| PaymentTx.ExecutionStopsAtError | src/main/java/com/scalar/db/benchmarks/tpcc/transaction/PaymentTransaction.java:102-182 | the payment's error is the error of its first failing step |
| PaymentTx.ExecutionWrites | src/main/java/com/scalar/db/benchmarks/tpcc/transaction/PaymentTransaction.java:102-182 | a committed payment raises both ytd columns by the amount, applies the payment to the customer resolved under the home keys, writes the history row, and leaves every other record as it was |
| PaymentTx.PaymentTransaction.constructor | src/main/java/com/scalar/db/benchmarks/tpcc/transaction/PaymentTransaction.java:26-35 | a fresh transaction object holds default fields |
| PaymentTx.PaymentTransaction.Generate | src/main/java/com/scalar/db/benchmarks/tpcc/transaction/PaymentTransaction.java:42-75 | generate sets home warehouse and district, an amount in [1.00, 5000.00], a home customer for x <= 85 and otherwise a drawn district with a different warehouse when there are several, and a last name exactly when y <= 60, a NURand id otherwise |
| PaymentTx.PaymentTransaction.UpdateHome | src/main/java/com/scalar/db/benchmarks/tpcc/transaction/PaymentTransaction.java:106-132 | the warehouse and district read-modify-writes compute the home step |
| PaymentTx.PaymentTransaction.UpdateCustomer | src/main/java/com/scalar/db/benchmarks/tpcc/transaction/PaymentTransaction.java:143-166 | the customer read-modify-write computes the update of the customer the customerId field names |
| PaymentTx.PaymentTransaction.NewCustomerColumns | src/main/java/com/scalar/db/benchmarks/tpcc/transaction/PaymentTransaction.java:149-164 | the customer's new columns are those the specification derives from its current row |
| PaymentTx.PaymentTransaction.Execute | src/main/java/com/scalar/db/benchmarks/tpcc/transaction/PaymentTransaction.java:102-182 | execute computes the execution function and leaves customerId overwritten by the by-name lookup and every other field as it was |
| OrderStatusTx.MaxOrderId | src/main/java/com/scalar/db/benchmarks/tpcc/transaction/OrderStatusTransaction.java:31-38 | the largest order id among the rows: no row has a larger one and some row has it |
| OrderStatusTx.LatestOrderId | src/main/java/com/scalar/db/benchmarks/tpcc/transaction/OrderStatusTransaction.java:31-38 | the secondary-index lookup throws "Invalid scan on order-secondary" on an empty scan, fails when two or more rows are compared and one lacks an int o_id, succeeds whenever every row has one, and then returns an o_id some row holds that no row exceeds |
| OrderStatusTx.SortNewestFirst | src/main/java/com/scalar/db/benchmarks/tpcc/transaction/OrderStatusTransaction.java:36 | the in-place sort leaves the rows ordered by descending o_id and a permutation of the rows it was given |
| OrderStatusTx.InsertAt | src/main/java/com/scalar/db/benchmarks/tpcc/transaction/OrderStatusTransaction.java:36 | one insertion step extends the sorted prefix by one row, permutes the array and leaves the rows after it alone |
| OrderStatusTx.SwapBack | src/main/java/com/scalar/db/benchmarks/tpcc/transaction/OrderStatusTransaction.java:36 | one swap of the insertion sort keeps the sort's invariant with the moving row one place further forward, and permutes the array |
| OrderStatusTx.FirstIsLatest | src/main/java/com/scalar/db/benchmarks/tpcc/transaction/OrderStatusTransaction.java:36-37 | after sorting rows that all hold an int o_id, the first row holds the largest |
| OrderStatusTx.OrderIdBySecondaryIndex | src/main/java/com/scalar/db/benchmarks/tpcc/transaction/OrderStatusTransaction.java:31-38 | getOrderIdBySecondaryIndex computes the latest order id of the rows |
| OrderStatusTx.TableOrderId | src/main/java/com/scalar/db/benchmarks/tpcc/transaction/OrderStatusTransaction.java:40-46 | the table-index lookup throws "Invalid scan on order-secondary" unless the scan returns exactly one row, and succeeds exactly when that row's o_id is an int, returning it |
| OrderStatusTx.OrderIdByTableIndex | src/main/java/com/scalar/db/benchmarks/tpcc/transaction/OrderStatusTransaction.java:40-46 | getOrderIdByTableIndex scans order_secondary for the customer and reads the only row |
| OrderStatusTx.SecondaryOrderIdIsLatest | src/main/java/com/scalar/db/benchmarks/tpcc/transaction/OrderStatusTransaction.java:31-38 | the secondary-index lookup throws when the customer has no stored order in the district, and otherwise returns the o_id of one of the customer's stored orders, no order of the customer holding a larger one |
| OrderStatusTx.TableOrderIdIsLatest | src/main/java/com/scalar/db/benchmarks/tpcc/transaction/OrderStatusTransaction.java:40-46 | the table-index lookup fails when the customer has no order_secondary row and otherwise returns the stored row with the largest order id |
| OrderStatusTx.LineRead | src/main/java/com/scalar/db/benchmarks/tpcc/transaction/OrderStatusTransaction.java:107-113 | reading a line succeeds exactly when supplier, item and quantity are ints, the amount a double and the delivery date a long or null (an undelivered line, read as 0) |
| OrderStatusTx.InsertedLineReads | src/main/java/com/scalar/db/benchmarks/tpcc/transaction/OrderStatusTransaction.java:107-112 | an order line just inserted by new-order has no delivery date, and reading it succeeds |
| OrderStatusTx.StampedLineReads | src/main/java/com/scalar/db/benchmarks/tpcc/transaction/OrderStatusTransaction.java:107-112 | a readable order line stays readable after delivery stamps its delivery date |
| OrderStatusTx.LinesReadAll | src/main/java/com/scalar/db/benchmarks/tpcc/transaction/OrderStatusTransaction.java:106-113 | the forEach completes exactly when every line reads |
| OrderStatusTx.LinesReadFirstError | src/main/java/com/scalar/db/benchmarks/tpcc/transaction/OrderStatusTransaction.java:106-113 | a failing forEach reports the error of the first line that fails |
| OrderStatusTx.ReadLines | src/main/java/com/scalar/db/benchmarks/tpcc/transaction/OrderStatusTransaction.java:106-113 | the forEach over the lines computes the lines' read |
| OrderStatusTx.LookupsReadOnly | src/main/java/com/scalar/db/benchmarks/tpcc/transaction/OrderStatusTransaction.java:85-115 | order-status writes nothing: when it commits, the store is the one it started from |
| OrderStatusTx.LookupsSucceed | src/main/java/com/scalar/db/benchmarks/tpcc/transaction/OrderStatusTransaction.java:85-115 | order-status commits exactly when the customer, the last order id, the order and every line of it can be read and the commit succeeds |
| OrderStatusTx.LookupsFail | src/main/java/com/scalar/db/benchmarks/tpcc/transaction/OrderStatusTransaction.java:85-115 | the lookups fail with "Customer not found", the lookup's own error, or "Order not found" in that order, and fail whenever the table-index scan does not find exactly one row or the customer has no order in the district's order partition |
| OrderStatusTx.OrderStatusTransaction.constructor | src/main/java/com/scalar/db/benchmarks/tpcc/transaction/OrderStatusTransaction.java:27-29 | a fresh transaction object holds default fields |
| OrderStatusTx.OrderStatusTransaction.Generate | src/main/java/com/scalar/db/benchmarks/tpcc/transaction/OrderStatusTransaction.java:52-63 | generate draws the warehouse and district, and by last name exactly when y <= 60, with customerId set to UNUSED_ID and a run-time NURand name; otherwise a NURand id and the name left as it was |
| OrderStatusTx.OrderStatusTransaction.ResolveCustomer | src/main/java/com/scalar/db/benchmarks/tpcc/transaction/OrderStatusTransaction.java:75-83 | the by-name resolution uses the table-index or the secondary-index lookup as the configuration selects |
| OrderStatusTx.OrderStatusTransaction.ReadLastOrder | src/main/java/com/scalar/db/benchmarks/tpcc/transaction/OrderStatusTransaction.java:85-115 | the reads after resolution, with the customer's orders scanned from the store itself on the secondary-index path, compute the lookups over the object's arguments |
| OrderStatusTx.OrderStatusTransaction.Execute | src/main/java/com/scalar/db/benchmarks/tpcc/transaction/OrderStatusTransaction.java:71-120 | execute resolves the customer, overwrites customerId with the resolved id, and computes the execution over the original arguments |
| DeliveryTx.DeliveriesSucceed | src/main/java/com/scalar/db/benchmarks/tpcc/transaction/DeliveryTransaction.java:71-78 | the line loop completes exactly when every line holds an int number and a double amount |
| DeliveryTx.DeliveriesSum | src/main/java/com/scalar/db/benchmarks/tpcc/transaction/DeliveryTransaction.java:71-78 | the loop's total is the starting total plus the sum of the lines' amounts |
| DeliveryTx.StampKeepsDate | src/main/java/com/scalar/db/benchmarks/tpcc/transaction/DeliveryTransaction.java:76-77 | stamping one line keeps every delivery date already equal to the stamp |
| DeliveryTx.DeliveriesStamp | src/main/java/com/scalar/db/benchmarks/tpcc/transaction/DeliveryTransaction.java:71-78 | after the loop every line read carries the delivery date, and no earlier stamp is lost |
| DeliveryTx.DeliveriesFrame | src/main/java/com/scalar/db/benchmarks/tpcc/transaction/DeliveryTransaction.java:71-78 | the line loop changes no table but order_line |
| DeliveryTx.OldestOrderId | src/main/java/com/scalar/db/benchmarks/tpcc/transaction/DeliveryTransaction.java:50-54 | the new-order lookup throws "Invalid scan on new-order" unless the scan returns exactly one row, and succeeds exactly when that row's o_id is an int, returning it |
| DeliveryTx.CreditCustomerWrites | src/main/java/com/scalar/db/benchmarks/tpcc/transaction/DeliveryTransaction.java:80-89 | the customer update raises the balance by the total and the delivery count by one (Java int), and changes no other record |
| DeliveryTx.SetCarrierWrites | src/main/java/com/scalar/db/benchmarks/tpcc/transaction/DeliveryTransaction.java:59-68 | the order update reads the order's customer, writes the carrier, and changes no other record |
| DeliveryTx.DeliverOrderStamps | src/main/java/com/scalar/db/benchmarks/tpcc/transaction/DeliveryTransaction.java:70-78 | delivering an order stamps every line of it with the delivery date |
| DeliveryTx.DeliverOrderCredits | src/main/java/com/scalar/db/benchmarks/tpcc/transaction/DeliveryTransaction.java:70-89 | delivering an order credits its customer with the sum of the line amounts and one more delivery |
| DeliveryTx.DeliverOrderFrame | src/main/java/com/scalar/db/benchmarks/tpcc/transaction/DeliveryTransaction.java:70-89 | delivering an order's lines changes only order lines and the customer |
| DeliveryTx.StepSeesLines | src/main/java/com/scalar/db/benchmarks/tpcc/transaction/DeliveryTransaction.java:56-72 | the delete and the carrier update leave the order's lines as the line scan sees them |
| DeliveryTx.DistrictStepUpdatesOrder | src/main/java/com/scalar/db/benchmarks/tpcc/transaction/DeliveryTransaction.java:49-68 | a district's step deletes the oldest new-order row, writes the carrier into its order and keeps every other record before the lines are delivered |
| DeliveryTx.DistrictStepFrame | src/main/java/com/scalar/db/benchmarks/tpcc/transaction/DeliveryTransaction.java:48-90 | a successful district step deletes the new-order row, sets the order's carrier and changes nothing but that order, its customer and order lines |
| DeliveryTx.DistrictStepStamps | src/main/java/com/scalar/db/benchmarks/tpcc/transaction/DeliveryTransaction.java:48-90 | a successful district step stamps every line of the oldest order with the delivery date |
| DeliveryTx.DistrictStepCredits | src/main/java/com/scalar/db/benchmarks/tpcc/transaction/DeliveryTransaction.java:48-90 | a successful district step credits the order's customer with the lines' total and one more delivery |
| DeliveryTx.DistrictStepKeepsOthers | src/main/java/com/scalar/db/benchmarks/tpcc/transaction/DeliveryTransaction.java:48-90 | one district's step leaves every other district's new-order rows as they were |
| DeliveryTx.DistrictStepNeedsOne | src/main/java/com/scalar/db/benchmarks/tpcc/transaction/DeliveryTransaction.java:50-53 | a district step succeeds only when the district's new-order scan returns exactly one row |
| DeliveryTx.ExecutionNeedsEveryDistrict | src/main/java/com/scalar/db/benchmarks/tpcc/transaction/DeliveryTransaction.java:44-97 | delivery fails when any of the ten districts has no outstanding new order, and whenever the commit conflicts |
| DeliveryTx.DeliveryTransaction.constructor | src/main/java/com/scalar/db/benchmarks/tpcc/transaction/DeliveryTransaction.java:25-27 | a fresh transaction object holds default fields |
| DeliveryTx.DeliveryTransaction.Generate | src/main/java/com/scalar/db/benchmarks/tpcc/transaction/DeliveryTransaction.java:31-36 | generate sets a warehouse in [1, n], a carrier in [1, 10] and the date |
| DeliveryTx.DeliveryTransaction.DeliverLines | src/main/java/com/scalar/db/benchmarks/tpcc/transaction/DeliveryTransaction.java:71-78 | the for loop over the lines computes the lines' deliveries from a zero total |
| DeliveryTx.DeliveryTransaction.UpdateOrder | src/main/java/com/scalar/db/benchmarks/tpcc/transaction/DeliveryTransaction.java:59-68 | the order read and carrier put compute the carrier update |
| DeliveryTx.DeliveryTransaction.UpdateCustomer | src/main/java/com/scalar/db/benchmarks/tpcc/transaction/DeliveryTransaction.java:80-89 | the customer read and put compute the credit |
| DeliveryTx.DeliveryTransaction.DeliverOrderLines | src/main/java/com/scalar/db/benchmarks/tpcc/transaction/DeliveryTransaction.java:70-89 | the scan, the line loop and the customer update compute the order's delivery |
| DeliveryTx.DeliveryTransaction.DeliverDistrict | src/main/java/com/scalar/db/benchmarks/tpcc/transaction/DeliveryTransaction.java:49-89 | one pass of the district loop is the district step |
| DeliveryTx.DeliveryTransaction.DeliverDistricts | src/main/java/com/scalar/db/benchmarks/tpcc/transaction/DeliveryTransaction.java:48-90 | the loop over districts 1..10 computes the loop of district steps |
| DeliveryTx.DeliveryTransaction.Execute | src/main/java/com/scalar/db/benchmarks/tpcc/transaction/DeliveryTransaction.java:44-97 | execute computes the execution function over the object's arguments |
| StockLevelTx.ItemSet | src/main/java/com/scalar/db/benchmarks/tpcc/transaction/StockLevelTransaction.java:60-67 | the distinct-items loop succeeds exactly when every line read holds an int item id, and then collects exactly the item ids other than UNUSED_ID that the lines hold |
| StockLevelTx.ItemSetStops | src/main/java/com/scalar/db/benchmarks/tpcc/transaction/StockLevelTransaction.java:62-67 | once a line fails, later lines do not change the error |
| StockLevelTx.StockQuantity | src/main/java/com/scalar/db/benchmarks/tpcc/transaction/StockLevelTransaction.java:72-76 | a stock read succeeds exactly when the row exists with an int quantity, and throws "Stock not found" when it is missing |
| StockLevelTx.LowStock | src/main/java/com/scalar/db/benchmarks/tpcc/transaction/StockLevelTransaction.java:69-80 | the counting loop succeeds exactly when every item's stock quantity can be read |
| StockLevelTx.LowItemsAdd | src/main/java/com/scalar/db/benchmarks/tpcc/transaction/StockLevelTransaction.java:69-80 | adding an item to the counted set raises the low-stock count by one exactly when its quantity is below the threshold |
| StockLevelTx.LowItemsBounded | src/main/java/com/scalar/db/benchmarks/tpcc/transaction/StockLevelTransaction.java:69-80 | the low-stock count is at most the number of distinct items |
| StockLevelTx.ExecutionReadOnly | src/main/java/com/scalar/db/benchmarks/tpcc/transaction/StockLevelTransaction.java:45-87 | stock-level writes nothing, and a committed run's count is at most the size of a set of valid item ids whose stocks exist |
| StockLevelTx.RecentLinesRange | src/main/java/com/scalar/db/benchmarks/tpcc/transaction/StockLevelTransaction.java:56-58 | the scan returns stored lines of the district whose order id is in [next - 20, next - 1], and every such line |
| StockLevelTx.ExecutionFails | src/main/java/com/scalar/db/benchmarks/tpcc/transaction/StockLevelTransaction.java:45-87 | stock-level fails with "District not found" on a missing district, when the next order id or a line's item id is unreadable, or a stock is missing, and otherwise commits with the number of distinct items whose stock is below the threshold, or fails on a conflict |
| StockLevelTx.StockLevelTransaction.constructor | src/main/java/com/scalar/db/benchmarks/tpcc/transaction/StockLevelTransaction.java:26-28 | a fresh transaction object holds default fields |
| StockLevelTx.StockLevelTransaction.Generate | src/main/java/com/scalar/db/benchmarks/tpcc/transaction/StockLevelTransaction.java:31-37 | generate sets a warehouse in [1, n], a district in [1, 10] and a threshold in [10, 20] |
| StockLevelTx.StockLevelTransaction.CollectItems | src/main/java/com/scalar/db/benchmarks/tpcc/transaction/StockLevelTransaction.java:61-67 | the loop over the lines computes the distinct item set |
| StockLevelTx.StockLevelTransaction.CountLowStock | src/main/java/com/scalar/db/benchmarks/tpcc/transaction/StockLevelTransaction.java:70-80 | the loop over the items succeeds exactly when the specification's count does, returns it (at most the item count), and otherwise reports the missing-stock error of some item |
| StockLevelTx.StockLevelTransaction.CountLines | src/main/java/com/scalar/db/benchmarks/tpcc/transaction/StockLevelTransaction.java:60-82 | the two loops and the commit compute the count over the lines read |
| StockLevelTx.StockLevelTransaction.Execute | src/main/java/com/scalar/db/benchmarks/tpcc/transaction/StockLevelTransaction.java:45-87 | execute computes the execution function over the object's arguments |
| TpccUtil.Syllables | src/main/java/com/scalar/db/benchmarks/tpcc/TpccUtil.java:124-126 | three syllables of the table, picked by the hundreds, tens and units digits, spell a name of 9 to 15 characters |
| TpccUtil.SyllablesRoundTrip | src/main/java/com/scalar/db/benchmarks/tpcc/TpccUtil.java:124-126 | decoding a name built from a valid syllable table gives back its number |
| TpccUtil.ParseNamesJoin | src/main/java/com/scalar/db/benchmarks/tpcc/TpccUtil.java:124-126 | splitting joined syllables gives the syllables back |
| TpccUtil.NameTokensValid | src/main/java/com/scalar/db/benchmarks/tpcc/TpccUtil.java:16-18 | the ten syllables BAR .. EING form a table no syllable of which is a prefix of another |
| TpccUtil.LastName | src/main/java/com/scalar/db/benchmarks/tpcc/TpccUtil.java:124-126 | getLastName(num) for num in [0, 999] has 9 to 15 characters |
| TpccUtil.LastNameRoundTrip | src/main/java/com/scalar/db/benchmarks/tpcc/TpccUtil.java:124-126 | decoding a generated last name gives back its number |
| TpccUtil.LastNameInjective | src/main/java/com/scalar/db/benchmarks/tpcc/TpccUtil.java:124-126 | two numbers in [0, 999] give the same last name exactly when they are equal |
| TpccUtil.Constant | src/main/java/com/scalar/db/benchmarks/tpcc/TpccUtil.java:172-183 | the NURand constant is nonzero exactly for A = 255, 1023 or 8191, is at most A, and for A = 255 is 250 at load and 150 at run time |
| TpccUtil.LastNameConstantsDelta | src/main/java/com/scalar/db/benchmarks/tpcc/TpccUtil.java:21-22 | the load and run constants for last names differ by between 65 and 119, and by neither 96 nor 112 |
| TpccUtil.NonUniformRandom | src/main/java/com/scalar/db/benchmarks/tpcc/TpccUtil.java:163-170 | NURand in Java int arithmetic is always an int, and when (x OR y) + C does not overflow it lies in [min, max] and equals ((x OR y) + C) mod (max - min + 1) + min |
| TpccUtil.NonUniformRandomStep | src/main/java/com/scalar/db/benchmarks/tpcc/TpccUtil.java:169 | the final remainder and addition of NURand, in int arithmetic, land in [min, max] and equal the mathematical formula when the sum did not overflow |
| TpccUtil.NonUniformRandomInRange | src/main/java/com/scalar/db/benchmarks/tpcc/TpccUtil.java:163-170 | with A and max below 2^30 NURand always lies in [min, max] |
| TpccUtil.NonUniformRandomIsInt | src/main/java/com/scalar/db/benchmarks/tpcc/TpccUtil.java:163-170 | with A and max below 2^30 the int NURand never overflows and equals the integer formula |
| TpccUtil.CustomerId | src/main/java/com/scalar/db/benchmarks/tpcc/TpccUtil.java:69-71 | getCustomerId lies in [1, 3000] |
| TpccUtil.ItemId | src/main/java/com/scalar/db/benchmarks/tpcc/TpccUtil.java:78-80 | getItemId lies in [1, 100000] |
| TpccUtil.RandomLastName | src/main/java/com/scalar/db/benchmarks/tpcc/TpccUtil.java:105-116 | the run and load last names are getLastName of some number in [0, 999] |
| TpccUtil.CharactersFacts | src/main/java/com/scalar/db/benchmarks/tpcc/TpccUtil.java:129 | the character table has 62 characters, all alphanumeric, the first ten digits |
| TpccUtil.RandomString | src/main/java/com/scalar/db/benchmarks/tpcc/TpccUtil.java:128-153 | randomString fills a string of the drawn length with the table characters the draws pick, digits only when numbers only are asked for, and always alphanumeric of a length in [min, max] |
| TpccUtil.RandomStringWithOriginal | src/main/java/com/scalar/db/benchmarks/tpcc/TpccUtil.java:90-98 | the string keeps the drawn length; below the rate "ORIGINAL" replaces the eight characters from the drawn start and nothing else changes; otherwise it is the drawn string |
| TpccUtil.WithOriginalIsAlpha | src/main/java/com/scalar/db/benchmarks/tpcc/TpccUtil.java:90-98 | inserting "ORIGINAL" keeps the string alphanumeric of the same length bounds |
| TpccUtil.RandomDouble | src/main/java/com/scalar/db/benchmarks/tpcc/TpccUtil.java:159-161 | randomDouble lies between min / divider and max / divider |
| TpccUtil.MidpointOffset | src/main/java/com/scalar/db/benchmarks/tpcc/TpccUtil.java:41 | the midpoint offset (n + 1) / 2 - 1 indexes the list exactly when it is non-empty, with the rows before it at most as many as after, and at most one fewer |
| CustomerLookup.NotBeforeTransitive | src/main/java/com/scalar/db/benchmarks/tpcc/table/Customer.java:54-58 | the first-name order the comparator defines is transitive |
| CustomerLookup.SortByFirstName | src/main/java/com/scalar/db/benchmarks/tpcc/TpccUtil.java:40 | the in-place sort leaves the rows ordered by first name and a permutation of the scanned rows |
| CustomerLookup.InsertAt | src/main/java/com/scalar/db/benchmarks/tpcc/TpccUtil.java:40 | one insertion step extends the sorted prefix by one row, permutes the list and leaves the rows after it alone |
| CustomerLookup.SwapStep | src/main/java/com/scalar/db/benchmarks/tpcc/TpccUtil.java:40 | swapping the moving row past a neighbour whose name comes after it keeps the insertion invariant |
| CustomerLookup.StopStep | src/main/java/com/scalar/db/benchmarks/tpcc/TpccUtil.java:40 | when the moving row's neighbour does not come after it, the prefix through it is sorted |
| CustomerLookup.SwapKeepsRows | src/main/java/com/scalar/db/benchmarks/tpcc/TpccUtil.java:40 | swapping two neighbouring rows keeps the same rows |
| CustomerLookup.MidpointId | src/main/java/com/scalar/db/benchmarks/tpcc/TpccUtil.java:41-42 | the midpoint id fails on an empty list and otherwise is the int column of the midpoint row |
| CustomerLookup.RowList | src/main/java/com/scalar/db/benchmarks/tpcc/TpccUtil.java:39 | the mutable list holds the scanned rows in scan order |
| CustomerLookup.BySecondaryIndex | src/main/java/com/scalar/db/benchmarks/tpcc/TpccUtil.java:36-43 | getCustomerIdBySecondaryIndex fails on an empty scan or a row without a text first name, and otherwise returns the c_id of the midpoint row of a first-name-sorted permutation of the scan |
| CustomerLookup.IndexRowsMatch | src/main/java/com/scalar/db/benchmarks/tpcc/table/Customer.java:196-199 | every row of the c_index scan belongs to that warehouse and district and carries that last name |
| CustomerLookup.ByTableIndex | src/main/java/com/scalar/db/benchmarks/tpcc/TpccUtil.java:55-62 | getCustomerIdByTableIndex returns the c_id of the midpoint row of the customer_secondary scan in scan order, and fails on an empty scan |
| LegacyUtil.TruncateToInt | src/main/java/com/scalar/db/benchmarks/tpcc/TPCCUtil.java:78 | the int cast truncates toward zero: the result is the whole part of the double, from below for non-negative values and from above for negative ones |
| LegacyUtil.RandomInt | src/main/java/com/scalar/db/benchmarks/tpcc/TPCCUtil.java:77-79 | the legacy randomInt lies in [min, max + 1], and in [min, max] when min is not negative |
| LegacyUtil.RandomIntAboveMax | src/main/java/com/scalar/db/benchmarks/tpcc/TPCCUtil.java:77-79 | with a negative min the truncation can return max + 1: randomInt(-1, -1) gives 0 for the draw 0.5 |
| LegacyUtil.RandomDouble | src/main/java/com/scalar/db/benchmarks/tpcc/TPCCUtil.java:81-83 | the legacy randomDouble lies between min / divider and max / divider |
| LegacyUtil.LastName | src/main/java/com/scalar/db/benchmarks/tpcc/TPCCUtil.java:9-10 | the legacy syllables are those of TpccUtil, so the legacy getLastName is TpccUtil's |
| LegacyUtil.NonUniformRandom | src/main/java/com/scalar/db/benchmarks/tpcc/TPCCUtil.java:85-105 | NURand over the legacy draws lies in [min, max] for A and max below 2^30 |
| LegacyUtil.CustomerId | src/main/java/com/scalar/db/benchmarks/tpcc/TPCCUtil.java:18-20 | the legacy getCustomerId lies in [1, 3000] |
| LegacyUtil.ItemId | src/main/java/com/scalar/db/benchmarks/tpcc/TPCCUtil.java:26-29 | the legacy getItemId lies in [1, 100], a strict part of the item range |
| LegacyUtil.RandomLastName | src/main/java/com/scalar/db/benchmarks/tpcc/TPCCUtil.java:42-48 | the legacy run and load last names are getLastName of some number in [0, 999] |
| LegacyUtil.RandomString | src/main/java/com/scalar/db/benchmarks/tpcc/TPCCUtil.java:50-59 | randomString fails when the drawn length is negative, and otherwise holds the characters its draws pick, digits only when numbers only are asked for, always alphanumeric |
| LegacyUtil.RandomStringWithOriginal | src/main/java/com/scalar/db/benchmarks/tpcc/TPCCUtil.java:31-40 | without the marker the result is the plain drawn string; with it, "ORIGINAL" sits from position start - 1, the result is two characters shorter than the drawn length (one when the marker is last), and it fails only when the suffix length is -1 |
| LegacyUtil.RateIgnored | src/main/java/com/scalar/db/benchmarks/tpcc/TPCCUtil.java:31-40 | the rate argument makes no difference: the marker rate is always 10 |
| LegacyUtil.WithOriginalDropsTwo | src/main/java/com/scalar/db/benchmarks/tpcc/TPCCUtil.java:31-40 | a drawn length of 26 with the marker at 2 yields 24 characters, not 26 |
| TpccConfig.Validate | src/main/java/com/scalar/db/benchmarks/tpcc/TpccConfig.java:108-117 | build succeeds exactly when the five rates add up to 100 and order-status, delivery and stock-level are 0, keeps the values, and otherwise throws "Total rate must be 100." before "Currently TPC-C NP only." |
| TpccConfig.ValidMix | src/main/java/com/scalar/db/benchmarks/tpcc/TpccConfig.java:108-117 | a config that builds is a New-Order/Payment mix whose two rates add up to 100 when they are percentages |
| TpccConfig.DefaultsBuild | src/main/java/com/scalar/db/benchmarks/tpcc/TpccConfig.java:64-71 | building from the defaults succeeds and gives the defaults |
| TpccConfig.Builder.constructor | src/main/java/com/scalar/db/benchmarks/tpcc/TpccConfig.java:64-71 | a new builder holds rates 50/50/0/0/0 and one warehouse |
| TpccConfig.Builder.RateNewOrder | src/main/java/com/scalar/db/benchmarks/tpcc/TpccConfig.java:73-76 | the setter changes only the new-order rate and returns the builder |
| TpccConfig.Builder.RatePayment | src/main/java/com/scalar/db/benchmarks/tpcc/TpccConfig.java:78-81 | the setter changes only the payment rate and returns the builder |
| TpccConfig.Builder.RateOrderStatus | src/main/java/com/scalar/db/benchmarks/tpcc/TpccConfig.java:83-86 | the setter changes only the order-status rate and returns the builder |
| TpccConfig.Builder.RateDelivery | src/main/java/com/scalar/db/benchmarks/tpcc/TpccConfig.java:88-91 | the setter changes only the delivery rate and returns the builder |
| TpccConfig.Builder.RateStockLevel | src/main/java/com/scalar/db/benchmarks/tpcc/TpccConfig.java:93-96 | the setter changes only the stock-level rate and returns the builder |
| TpccConfig.Builder.NumWarehouse | src/main/java/com/scalar/db/benchmarks/tpcc/TpccConfig.java:98-101 | the setter changes only the warehouse count and returns the builder |
| TpccConfig.Builder.Build | src/main/java/com/scalar/db/benchmarks/tpcc/TpccConfig.java:108-117 | build computes the validation of the builder's values |
| TpccRunner.DecideType | src/main/java/com/scalar/db/benchmarks/tpcc/TpccRunner.java:58-76 | decideType never returns NONE and returns NEW_ORDER exactly when the draw is at most the new-order rate |
| TpccRunner.DecideTypeBands | src/main/java/com/scalar/db/benchmarks/tpcc/TpccRunner.java:58-76 | for a mix, a draw in [1, 100] selects a type exactly when it falls in that type's band of the running sums |
| TpccRunner.Count | src/main/java/com/scalar/db/benchmarks/tpcc/TpccRunner.java:58-76 | the number of draws in [1, n] selecting a type is at most n |
| TpccRunner.CountIsBand | src/main/java/com/scalar/db/benchmarks/tpcc/TpccRunner.java:58-76 | the draws in [1, n] selecting a type are those of its band |
| TpccRunner.RatesAreFrequencies | src/main/java/com/scalar/db/benchmarks/tpcc/TpccRunner.java:58-76 | for a mix, each type is selected by exactly as many of the 100 draws as its rate, and a type of rate 0 never |
| TpccRunner.NeverNone | src/main/java/com/scalar/db/benchmarks/tpcc/TpccRunner.java:58-76 | no draw selects NONE |
| TpccRunner.BuiltConfigIsNP | src/main/java/com/scalar/db/benchmarks/tpcc/TpccRunner.java:58-76 | a built config sends every draw to New-Order or Payment |
| TpccRunner.Retry | src/main/java/com/scalar/db/benchmarks/tpcc/TpccRunner.java:83-91 | the retry loop makes between i and the number of readings attempts |
| TpccRunner.RetryProperties | src/main/java/com/scalar/db/benchmarks/tpcc/TpccRunner.java:79-92 | every attempt is made while running; each attempt but the last conflicted; the loop ends on a commit, on another exception which run rethrows, or after conflicts only when isRunning reads false; no attempt once it reads false |
| TpccRunner.ConflictsCounted | src/main/java/com/scalar/db/benchmarks/tpcc/TpccRunner.java:87-89 | the error counter grows by one per conflicting attempt: all but a committing or failing last one |
| TpccRunner.ErrorCounter.constructor | src/main/java/com/scalar/db/benchmarks/tpcc/TpccRunner.java:79 | a new counter is 0 |
| TpccRunner.ErrorCounter.Increment | src/main/java/com/scalar/db/benchmarks/tpcc/TpccRunner.java:88 | incrementAndGet raises the counter by one |
| TpccRunner.Runner.constructor | src/main/java/com/scalar/db/benchmarks/tpcc/TpccRunner.java:31-47 | a runner keeps its config and has made no calls yet |
| TpccRunner.Runner.RunWithRetry | src/main/java/com/scalar/db/benchmarks/tpcc/TpccRunner.java:79-92 | run(isRunning, errorCounter) decides the type, generates once, executes once per attempt of the retry loop, ends as the loop does and counts its conflicts |
| TpccRunner.Runner.Run | src/main/java/com/scalar/db/benchmarks/tpcc/TpccRunner.java:95-100 | run() decides the type, generates and executes once, and ends as execute does |
| LegacyRunner.MakeConfig | src/main/java/com/scalar/db/benchmarks/tpcc/TPCCConfig.java:3-13 | the two-argument constructor sets the warehouse count and payment rate and keeps the field defaults (new-order 50, order-status 0, delivery 0) |
| LegacyRunner.Choose | src/main/java/com/scalar/db/benchmarks/tpcc/TPCCRunner.java:28-35 | a draw at most the payment rate picks Payment, any larger one New-Order |
| LegacyRunner.DecideType | src/main/java/com/scalar/db/benchmarks/tpcc/TPCCRunner.java:28-35 | the legacy decideType only ever picks Payment or New-Order |
| LegacyRunner.ExtremeRates | src/main/java/com/scalar/db/benchmarks/tpcc/TPCCRunner.java:28-35 | a payment rate of 0 or less always picks New-Order, one of 100 or more always Payment |
| LegacyRunner.PaymentCount | src/main/java/com/scalar/db/benchmarks/tpcc/TPCCRunner.java:28-35 | the number of draws in [1, n] picking Payment is at most n |
| LegacyRunner.PaymentShare | src/main/java/com/scalar/db/benchmarks/tpcc/TPCCRunner.java:28-35 | of the draws in [1, n], exactly the payment rate clamped to [0, n] pick Payment |
| LegacyRunner.LegacyTpccRunner.constructor | src/main/java/com/scalar/db/benchmarks/tpcc/TPCCRunner.java:14-17 | a runner keeps its config and has made no calls yet |
| LegacyRunner.LegacyTpccRunner.Run | src/main/java/com/scalar/db/benchmarks/tpcc/TPCCRunner.java:37-52 | run generates with the warehouse count and executes the chosen transaction once each, and ends as execute does |
| LegacyTable.GeneratedCustomer | src/main/java/com/scalar/db/benchmarks/tpcc/TPCCTable.java:143-173 | the generated customer has the last name of its id - 1 for the first 1000 ids and a load-phase NURand name otherwise, balance -10.00, ytd payment 10.00, one payment, no delivery, middle "OE", credit limit 50000.00, a discount in [0, 0.5], credit "BC" or "GC" and the zip "11111" suffix |
| LegacyTable.CustomerKey | src/main/java/com/scalar/db/benchmarks/tpcc/TPCCTable.java:213-219 | the legacy customer key is the current customer table's key |
| LegacyTable.CustomerValues | src/main/java/com/scalar/db/benchmarks/tpcc/TPCCTable.java:221-242 | createValues always writes all eighteen customer columns, in order: eleven texts, four doubles, two ints and the since date as a bigint |
| LegacyTable.GeneratedDistrict | src/main/java/com/scalar/db/benchmarks/tpcc/TPCCTable.java:358-370 | the generated district has tax in [0, 0.2], ytd 30000.00, next order id 3001 and the zip "11111" suffix |
| LegacyTable.DistrictKey | src/main/java/com/scalar/db/benchmarks/tpcc/TPCCTable.java:393-398 | the legacy district key is the current district table's key |
| LegacyTable.DistrictValues | src/main/java/com/scalar/db/benchmarks/tpcc/TPCCTable.java:400-412 | createValues writes six texts, tax and ytd as doubles and the next order id as an int |
| LegacyTable.WarehouseKey | src/main/java/com/scalar/db/benchmarks/tpcc/TPCCTable.java:1047-1049 | the legacy warehouse key is the current warehouse table's key |
| LegacyTable.WarehouseValues | src/main/java/com/scalar/db/benchmarks/tpcc/TPCCTable.java:1051-1062 | createValues writes six texts, then the tax and the ytd |
| LegacyTable.ItemKey | src/main/java/com/scalar/db/benchmarks/tpcc/TPCCTable.java:553-555 | the legacy item key is the current item table's key |
| LegacyTable.ItemValues | src/main/java/com/scalar/db/benchmarks/tpcc/TPCCTable.java:557-564 | createValues writes name, price, data and image id, in that order |
| LegacyTable.HistoryKey | src/main/java/com/scalar/db/benchmarks/tpcc/TPCCTable.java:488-490 | the legacy history key is the current history table's key |
| LegacyTable.HistoryValues | src/main/java/com/scalar/db/benchmarks/tpcc/TPCCTable.java:492-503 | createValues writes the five ids as ints, the date as a bigint, the amount and the data |
| LegacyTable.NewOrderKey | src/main/java/com/scalar/db/benchmarks/tpcc/TPCCTable.java:606-615 | the legacy new-order key is the current new-order table's key |
| LegacyTable.CustomerSecondaryKey | src/main/java/com/scalar/db/benchmarks/tpcc/TPCCTable.java:305-318 | the legacy customer_secondary key is the current table's key |
| LegacyTable.GeneratedOrder | src/main/java/com/scalar/db/benchmarks/tpcc/TPCCTable.java:656-669 | a generated order below 2101 has a carrier in [1, 10], a later one carrier 0, 5 to 15 lines, all local |
| LegacyTable.OrderKey | src/main/java/com/scalar/db/benchmarks/tpcc/TPCCTable.java:703-712 | the legacy order key is the current order table's key |
| LegacyTable.OrderValues | src/main/java/com/scalar/db/benchmarks/tpcc/TPCCTable.java:714-724 | createValues writes the carrier column exactly when the carrier is positive, so five or four columns, customer first and entry date last |
| LegacyTable.OpenOrderCarrier | src/main/java/com/scalar/db/benchmarks/tpcc/TPCCTable.java:656-724 | an open order loaded by the legacy driver has no carrier column, where the current driver writes carrier 0 |
| LegacyTable.NewOrderLine | src/main/java/com/scalar/db/benchmarks/tpcc/TPCCTable.java:778-790 | the insert constructor's line is not delivered and keeps amount, quantity and item |
| LegacyTable.GeneratedOrderLine | src/main/java/com/scalar/db/benchmarks/tpcc/TPCCTable.java:792-809 | a generated line is delivered at the load date with amount 0 exactly when its order is below 2101, has an amount in [0.01, 9999.99] otherwise, and quantity 5 |
| LegacyTable.OrderLineKey | src/main/java/com/scalar/db/benchmarks/tpcc/TPCCTable.java:848-860 | the legacy order-line key is the current order-line table's key |
| LegacyTable.OrderLineValues | src/main/java/com/scalar/db/benchmarks/tpcc/TPCCTable.java:862-873 | createValues writes the delivery date column exactly when the line has one, so six or five columns |
| LegacyTable.UpdatedStock | src/main/java/com/scalar/db/benchmarks/tpcc/TPCCTable.java:917-926 | the update constructor leaves s_data and the ten district strings null |
| LegacyTable.GenerateStock | src/main/java/com/scalar/db/benchmarks/tpcc/TPCCTable.java:927-939 | the generated stock has quantity in [10, 100], zero ytd and counters, the drawn data, and the loop fills the ten district strings in order |
| LegacyTable.StockKey | src/main/java/com/scalar/db/benchmarks/tpcc/TPCCTable.java:960-965 | the legacy stock key is the current stock table's key |
| LegacyTable.DistColumns | src/main/java/com/scalar/db/benchmarks/tpcc/TPCCTable.java:976-982 | the district loop of createValues writes one column per non-null string |
| LegacyTable.DistColumnsComplete | src/main/java/com/scalar/db/benchmarks/tpcc/TPCCTable.java:976-982 | every non-null district string has its column, named by its index |
| LegacyTable.DistColumnsSound | src/main/java/com/scalar/db/benchmarks/tpcc/TPCCTable.java:976-982 | every district column written is that of a non-null string at its index |
| LegacyTable.CreateStockValues | src/main/java/com/scalar/db/benchmarks/tpcc/TPCCTable.java:967-983 | createValues writes the four counters, s_data when set and the set district strings, so 4 + (1 if data) + the number set |
| LegacyTable.NoDistColumns | src/main/java/com/scalar/db/benchmarks/tpcc/TPCCTable.java:976-982 | with every district string null, no district column is written |
| LegacyTable.UpdateWritesFour | src/main/java/com/scalar/db/benchmarks/tpcc/TPCCTable.java:917-983 | the update constructor's record writes exactly the four counter columns |
| LegacyTable.AllDistColumns | src/main/java/com/scalar/db/benchmarks/tpcc/TPCCTable.java:976-982 | with every district string set, all are counted |
| LegacyTable.GeneratedWritesFifteen | src/main/java/com/scalar/db/benchmarks/tpcc/TPCCTable.java:927-983 | a generated stock row writes fifteen columns, among them each district string under its own name |
| LegacyTable.InsertRecord | src/main/java/com/scalar/db/benchmarks/tpcc/TPCCTable.java:41-79 | insert puts the record in one transaction, succeeds exactly when the commit does, changes only the record's key, and the order_secondary insert does nothing |
| TpccLoader.NextInt | src/main/java/com/scalar/db/benchmarks/tpcc/TpccLoader.java:191 | the shuffle's random index for a bound n lies in 0..n-1 |
| TpccLoader.SwapPermutes | src/main/java/com/scalar/db/benchmarks/tpcc/TpccLoader.java:191 | one swap of the shuffle keeps the list's elements and their multiplicities |
| TpccLoader.ShuffledPermutes | src/main/java/com/scalar/db/benchmarks/tpcc/TpccLoader.java:191 | Collections.shuffle yields a permutation of the customer list, whatever the draws |
| TpccLoader.Shuffle | src/main/java/com/scalar/db/benchmarks/tpcc/TpccLoader.java:191 | the in-place shuffle leaves the array as the specified sequence of swaps of its old contents |
| TpccLoader.AscendingOnce | src/main/java/com/scalar/db/benchmarks/tpcc/TpccLoader.java:187-190 | the list built by the loop holds each id 1..n exactly once and nothing else |
| TpccLoader.PermutationOfCustomers | src/main/java/com/scalar/db/benchmarks/tpcc/TpccLoader.java:187-192 | the permutation array has 3000 entries, each customer id 1..3000 exactly once and no other value |
| TpccLoader.ItemsStep | src/main/java/com/scalar/db/benchmarks/tpcc/TpccLoader.java:285-288 | one more pass of the item loop appends item n+1 |
| TpccLoader.StocksStep | src/main/java/com/scalar/db/benchmarks/tpcc/TpccLoader.java:149-152 | one more pass of the stock loop appends the stock of item n+1 |
| TpccLoader.WarehousesStep | src/main/java/com/scalar/db/benchmarks/tpcc/TpccLoader.java:146-154 | one more pass of the warehouse loop appends that warehouse's group |
| TpccLoader.WarehousesDone | src/main/java/com/scalar/db/benchmarks/tpcc/TpccLoader.java:146-154 | when the loop ends the queue holds the groups of warehouses 1..numWarehouse, none for a count of 0 or less |
| TpccLoader.LinesNumbered | src/main/java/com/scalar/db/benchmarks/tpcc/TpccLoader.java:206-212 | an order's lines are numbered 1..n, each supplied by the home warehouse with its drawn item |
| TpccLoader.CustomersLength | src/main/java/com/scalar/db/benchmarks/tpcc/TpccLoader.java:169-182 | the customers of a district queue three records each |
| TpccLoader.CustomerTriple | src/main/java/com/scalar/db/benchmarks/tpcc/TpccLoader.java:169-182 | customer c's records sit at positions 3c-3..3c-1: the customer, its secondary row, its history |
| TpccLoader.CustomerTriples | src/main/java/com/scalar/db/benchmarks/tpcc/TpccLoader.java:169-182 | every customer yields customer, secondary row and history in that order, the secondary row carrying the customer's own names |
| TpccLoader.Tally | src/main/java/com/scalar/db/benchmarks/tpcc/TpccLoader.java:143-219 | the number of queued records of a kind is at most the queue length |
| TpccLoader.TallyAppend | src/main/java/com/scalar/db/benchmarks/tpcc/TpccLoader.java:143-219 | counts of a kind add up over concatenated queues |
| TpccLoader.OrderGroupTally | src/main/java/com/scalar/db/benchmarks/tpcc/TpccLoader.java:194-218 | an order's group counts its order, and one New-Order only when the order id is above 2100 |
| TpccLoader.ItemsFirst | src/main/java/com/scalar/db/benchmarks/tpcc/TpccLoader.java:285-289 | the synthetic load queues items 1..100000 first, and no item after any other record |
| TpccLoader.OrderGroupOrders | src/main/java/com/scalar/db/benchmarks/tpcc/TpccLoader.java:194-218 | an order's group holds exactly its own order record, and its New-Order only above 2100 |
| TpccLoader.OrdersOfCustomers | src/main/java/com/scalar/db/benchmarks/tpcc/TpccLoader.java:194-204 | order o of a district, for o in 1..n, belongs to the o-th entry of the permutation and to no other customer |
| TpccLoader.UndeliveredOrders | src/main/java/com/scalar/db/benchmarks/tpcc/TpccLoader.java:213-217 | a district's New-Order records are exactly those of orders 2101..n |
| TpccLoader.NewOrdersPerDistrict | src/main/java/com/scalar/db/benchmarks/tpcc/TpccLoader.java:213-217 | the orders 1..n queue n-2100 New-Orders when n exceeds 2100, none otherwise (900 per district) |
| TpccLoader.OrdersPerCustomer | src/main/java/com/scalar/db/benchmarks/tpcc/TpccLoader.java:194-204 | orders 1..n give a customer as many orders as it occurs among the first n permutation entries |
| TpccLoader.OneOrderPerCustomer | src/main/java/com/scalar/db/benchmarks/tpcc/TpccLoader.java:187-218 | each customer of a district gets exactly one of its 3000 orders and no other id gets any |
| TpccLoader.AcceptedCount | src/main/java/com/scalar/db/benchmarks/tpcc/TpccLoader.java:303-352 | the number of rows queued from a file is at most its row count |
| TpccLoader.AcceptedPrefix | src/main/java/com/scalar/db/benchmarks/tpcc/TpccLoader.java:303-352 | a file queues its rows in order up to the first row whose constructor throws, and none from there on |
| TpccLoader.Successes | src/main/java/com/scalar/db/benchmarks/tpcc/TpccLoader.java:253-259 | the number of committed inserts is at most the number of inserts |
| TpccLoader.Loader.constructor | src/main/java/com/scalar/db/benchmarks/tpcc/TpccLoader.java:234-240 | the loader starts with an empty queue and all counters at zero |
| TpccLoader.Loader.Put | src/main/java/com/scalar/db/benchmarks/tpcc/TpccLoader.java:147-148 | a put appends the record to the queue and leaves the consumer counters alone |
| TpccLoader.Loader.QueueItems | src/main/java/com/scalar/db/benchmarks/tpcc/TpccLoader.java:285-288 | the item loop appends items 1..100000 |
| TpccLoader.Loader.QueueWarehouses | src/main/java/com/scalar/db/benchmarks/tpcc/TpccLoader.java:143-155 | queueWarehouses appends the group of every warehouse 1..numWarehouse |
| TpccLoader.Loader.QueueWarehouse | src/main/java/com/scalar/db/benchmarks/tpcc/TpccLoader.java:147-153 | one warehouse: the warehouse, its 100000 stock records, its districts |
| TpccLoader.Loader.QueueStocks | src/main/java/com/scalar/db/benchmarks/tpcc/TpccLoader.java:149-152 | the stock loop appends stock 1..100000 of the warehouse |
| TpccLoader.Loader.QueueDistricts | src/main/java/com/scalar/db/benchmarks/tpcc/TpccLoader.java:157-165 | queueDistricts appends districts 1..10, each followed by its customers and orders |
| TpccLoader.Loader.QueueDistrict | src/main/java/com/scalar/db/benchmarks/tpcc/TpccLoader.java:160-163 | one district: the district, its customers, its orders |
| TpccLoader.Loader.QueueCustomers | src/main/java/com/scalar/db/benchmarks/tpcc/TpccLoader.java:167-183 | queueCustomers appends customers 1..3000 with their secondary rows and histories |
| TpccLoader.Loader.QueueCustomer | src/main/java/com/scalar/db/benchmarks/tpcc/TpccLoader.java:170-181 | one customer: the customer, the secondary row with the same names, the history |
| TpccLoader.Loader.CustomerPermutation | src/main/java/com/scalar/db/benchmarks/tpcc/TpccLoader.java:187-192 | the permutation array is the shuffled list of ids 1..3000 |
| TpccLoader.Loader.QueueOrders | src/main/java/com/scalar/db/benchmarks/tpcc/TpccLoader.java:185-219 | queueOrders appends orders 1..3000, order o going to the o-th customer of the permutation |
| TpccLoader.Loader.QueueOrder | src/main/java/com/scalar/db/benchmarks/tpcc/TpccLoader.java:195-217 | one order: the order, its secondary row, its lines, and a New-Order when the id is above 2100 |
| TpccLoader.Loader.QueueLines | src/main/java/com/scalar/db/benchmarks/tpcc/TpccLoader.java:205-212 | the order-line loop appends lines 1..count, each on a drawn item, supplied by the home warehouse |
| TpccLoader.Loader.QueueCsv | src/main/java/com/scalar/db/benchmarks/tpcc/TpccLoader.java:303-352 | queueCsv appends a file's rows until a constructor throws, which ends that file |
| TpccLoader.Loader.QueueCsvFiles | src/main/java/com/scalar/db/benchmarks/tpcc/TpccLoader.java:272-283 | the CSV branch queues the eleven files in the fixed order warehouse, item, stock, district, customer, customer secondary, history, order, new-order, order-line, order secondary |
| TpccLoader.Loader.Produce | src/main/java/com/scalar/db/benchmarks/tpcc/TpccLoader.java:272-291 | the producer queues the CSV files when a directory is given, else items then warehouses |
| TpccLoader.Loader.Consume | src/main/java/com/scalar/db/benchmarks/tpcc/TpccLoader.java:242-262 | the consumers drain the queue, inserting each record and counting it as succeeded or failed |
| TpccLoader.Loader.Load | src/main/java/com/scalar/db/benchmarks/tpcc/TpccLoader.java:234-301 | after load every queued record is counted once, as succeeded when its insert committed and failed otherwise |
| LegacyLoader.WithoutSecondary | src/main/java/com/scalar/db/benchmarks/tpcc/TPCCLoader.java:194-224 | dropping order-secondary records never lengthens a queue |
| LegacyLoader.WithoutSecondaryAppend | src/main/java/com/scalar/db/benchmarks/tpcc/TPCCLoader.java:194-224 | dropping order-secondary records distributes over concatenation |
| LegacyLoader.WithoutSecondaryKeeps | src/main/java/com/scalar/db/benchmarks/tpcc/TPCCLoader.java:194-224 | a queue with no order-secondary record is unchanged by the drop |
| LegacyLoader.OrderGroupFiltered | src/main/java/com/scalar/db/benchmarks/tpcc/TPCCLoader.java:203-223 | a legacy order group is the current loader's group without its secondary-index row |
| LegacyLoader.LegacySyntheticHasNoOrderSecondary | src/main/java/com/scalar/db/benchmarks/tpcc/TPCCLoader.java:152-224 | the legacy synthetic load queues no order_secondary record at all |
| LegacyLoader.AcceptedFromFile | src/main/java/com/scalar/db/benchmarks/tpcc/TPCCLoader.java:294-343 | every record queued from a file is a row of that file |
| LegacyLoader.CsvLoadIsPrefix | src/main/java/com/scalar/db/benchmarks/tpcc/TPCCLoader.java:264-275 | with the same row checks the current loader queues the legacy CSV records followed by order_secondary.csv, which the legacy loader never reads |
| LegacyLoader.LegacyLoader.constructor | src/main/java/com/scalar/db/benchmarks/tpcc/TPCCLoader.java:226-232 | the loader starts with an empty queue and all counters at zero |
| LegacyLoader.LegacyLoader.Put | src/main/java/com/scalar/db/benchmarks/tpcc/TPCCLoader.java:156-157 | a put appends the record to the queue and leaves the consumer counters alone |
| LegacyLoader.LegacyLoader.QueueItems | src/main/java/com/scalar/db/benchmarks/tpcc/TPCCLoader.java:276-279 | the item loop appends items 1..100000 |
| LegacyLoader.LegacyLoader.QueueWarehouses | src/main/java/com/scalar/db/benchmarks/tpcc/TPCCLoader.java:152-164 | queueWarehouses appends the group of every warehouse 1..numWarehouse |
| LegacyLoader.LegacyLoader.QueueWarehouse | src/main/java/com/scalar/db/benchmarks/tpcc/TPCCLoader.java:156-162 | one warehouse: the warehouse, its 100000 stock records, its districts |
| LegacyLoader.LegacyLoader.QueueStocks | src/main/java/com/scalar/db/benchmarks/tpcc/TPCCLoader.java:158-161 | the stock loop appends stock 1..100000 of the warehouse |
| LegacyLoader.LegacyLoader.QueueDistricts | src/main/java/com/scalar/db/benchmarks/tpcc/TPCCLoader.java:166-174 | queueDistricts appends districts 1..10, each followed by its customers and orders |
| LegacyLoader.LegacyLoader.QueueDistrict | src/main/java/com/scalar/db/benchmarks/tpcc/TPCCLoader.java:169-172 | one district: the district, its customers, its orders |
| LegacyLoader.LegacyLoader.QueueCustomers | src/main/java/com/scalar/db/benchmarks/tpcc/TPCCLoader.java:176-192 | queueCustomers appends customers 1..3000 with their secondary rows and histories |
| LegacyLoader.LegacyLoader.CustomerPermutation | src/main/java/com/scalar/db/benchmarks/tpcc/TPCCLoader.java:196-201 | the permutation array is the shuffled list of ids 1..3000 |
| LegacyLoader.LegacyLoader.QueueOrders | src/main/java/com/scalar/db/benchmarks/tpcc/TPCCLoader.java:194-224 | queueOrders appends orders 1..3000 without secondary rows, order o going to the o-th customer of the permutation |
| LegacyLoader.LegacyLoader.QueueOrder | src/main/java/com/scalar/db/benchmarks/tpcc/TPCCLoader.java:204-222 | one order: the order, its lines, and a New-Order when the id is above 2100 |
| LegacyLoader.LegacyLoader.QueueLines | src/main/java/com/scalar/db/benchmarks/tpcc/TPCCLoader.java:211-217 | the order-line loop appends lines 1..count, each on a drawn item, supplied by the home warehouse |
| LegacyLoader.LegacyLoader.QueueCsv | src/main/java/com/scalar/db/benchmarks/tpcc/TPCCLoader.java:294-343 | queueCSV appends a file's rows until a constructor throws, which ends that file |
| LegacyLoader.LegacyLoader.QueueCsvFiles | src/main/java/com/scalar/db/benchmarks/tpcc/TPCCLoader.java:264-275 | the CSV branch queues the ten files in the fixed order, with no order_secondary.csv |
| LegacyLoader.LegacyLoader.Produce | src/main/java/com/scalar/db/benchmarks/tpcc/TPCCLoader.java:264-281 | the producer queues the CSV files when a directory is given, else items then warehouses |
| LegacyLoader.LegacyLoader.Consume | src/main/java/com/scalar/db/benchmarks/tpcc/TPCCLoader.java:234-254 | the consumers drain the queue, inserting each record and counting it as succeeded or failed |
| LegacyLoader.LegacyLoader.Load | src/main/java/com/scalar/db/benchmarks/tpcc/TPCCLoader.java:226-292 | after load every queued record is counted once, as succeeded when its insert committed and failed otherwise |

## Left out

- Threads and executors are not modelled: the loader's consumer threads, its monitor task, the blocking queue's waits, the `AtomicBoolean` handshake, the YCSB thread pools and futures. The loaders are modelled as one producer run followed by one consumer run, which is the state the monitor waits for.
- Logging and printing are not modelled: progress lines, stack traces, the YCSB log calls. The progress reports of `MultiUserLoader` are kept as a list of (loaded, remaining) pairs.
- Sleeps are not modelled: the retry backoff `config.getBackoff()` in `TpccRunner.java:89` (the shown `TpccConfig` has no backoff) and the consumers' polling pauses.
- The command-line front ends and reporting are not modelled: `TpccBench`, `TPCCBench`, `TpccReporter`, `Common`, the picocli options, and the YCSB `Loader`, `MultiStorageLoader` and workload wrappers other than `MultiUserWorkloadC`.
- The ScalarDB transaction manager is an abstract store. Conflicts are not computed: each commit's or attempt's outcome is an input. The serialisability of concurrent `next_o_id` updates belongs to the store.
- Floating point is exact. `real` stands for `double` and for the `float` payment amount. The line-amount formula is kept symbolic, and `%7.2f` is the `amountText` parameter of the Payment customer data.
- `SimpleDateFormat`, `Double.parseDouble`, `java.util.Date` and the CSV library are not modelled. Dates are milliseconds, and the two parsers are function parameters. A CSV row is a map from column name to cell.
- The legacy `TPCCTable` CSV constructors are not modelled. `LegacyLoader.LegacyLoader.QueueCsv` takes whether each row parses as a parameter (`accepts`).
- `MultiUserLoader` user setup is not modelled: `createScalarDbUsers` (user and privilege DDL), the table probe before loading, `execute`'s catch-all and the JSON state set by both `close` methods.
- `MultiUserWorkloadC` is modelled without the closing of managers. Whether a user manager's creation fails is an input (`created`). So is each attempt's course: how many gets it issued before one threw (all of them when none did) and how it ended.
- `MultiUserLoader`: whether each record's probing get throws is an input (`getThrows`), because the store's reason for throwing is not part of this model.
- `LoadRunner.LoadRunner.Run`: the resilience4j retry around a batch is not modelled. Every batch runs once and succeeds.
- The rest of `YcsbCommon` is not modelled: `prepareScan` and `prepareScanAll` (no caller in the core), the `Config` getters with their defaults, and `AGE`/`prepareObjectKey` (not in the shown source).
- `TpccLoader.Loader.Consume`: inserts are taken in queue order. With several consumers the order differs, but the counts the contract states do not.
- `CustomerLookup.SortByFirstName` and `OrderStatusTx.SortNewestFirst` model `List.sort` (TimSort) as an in-place insertion sort. Both are stable, so they give the same list.
- `StockLevelTx.StockLevelTransaction.CountLowStock`: a `HashSet`'s iteration order is unspecified. When several stock rows are missing, the contract says only that the error is that of some missing item in the set, not which one.
- `MultiUserWorkloadC.MultiUserWorkloadC.ExecuteEach`: requires a non-negative record count. With a negative count the Java key range is inverted and `nextInt` throws, which is not modelled.
- `LoadRunner.LoadRunner.Run`: requires that the thread's range and batch arithmetic fit in an `int` (`Fits`). The wrapped ranges of an overflowing configuration are not modelled.
- `MultiUserLoader.MultiUserLoader.LoadRange`: a failed record transaction is an input outcome (with its abort). The exception text and the cancellation flag set by other threads are not modelled.
- `TpccLoader.Shuffle`: the draws are arbitrary integers reduced by `nextInt`. The uniformity of `Collections.shuffle` is not modelled, only that it permutes.

## Findings

`MultiUserWorkloadC.MultiUserWorkloadC` and `MultiUserLoader.MultiUserLoader` run the code as written. The corrected members are proved beside them and state what the fix would give.

| source | as written | input that shows it | evidently intended | confidence | as-written member | corrected member |
|---|---|---|---|---|---|---|
| src/main/java/com/scalar/db/benchmarks/ycsb/MultiUserWorkloadC.java:88-140 | `createUserManagers` appends only the managers it could create, so after a failed creation the later users' managers move down one index. `executeEach` then picks `userManagers.get(userIndex)` by user index. | userCount = 2, where user 0's manager fails to be created and user 1's is created: thread 0 reads under user 1's manager. | Each thread uses its own user's manager, or the admin's when that one is missing. | not executed | MultiUserWorkloadC.ManagerOfAnotherUser | MultiUserWorkloadC.OwnManagerOrAdmin |
| src/main/java/com/scalar/db/benchmarks/ycsb/MultiUserLoader.java:219-232 | Without overwrite, the put runs only when the probing get throws. The get names partition `ycsb_key = i` with no clustering key, while records live at `ycsb_key = 0`, clustering key `i`. | overwrite = false, on an empty table: the get returns empty without throwing, nothing is put, and the record is still counted as loaded. | Without overwrite, a missing record is written and an existing one is left alone. | not executed | MultiUserLoader.AsWrittenSkipsMissingRecord | MultiUserLoader.RecordOpsStore |
