// The multi-user variant of YCSB workload C: every client thread reads only
// from its own slice of the record ids, under the credentials of the user
// whose index the thread's name hashes to.
//
// The thread's name hash, the java.util.Random draws, whether each user's
// transaction manager could be created and how each transaction attempt ends
// are parameters.  A transaction manager is named by the user it was created
// for; the admin manager is `Admin`.
module MultiUserWorkloadC {
  import opened Wrappers
  import opened JavaInt
  import opened Store
  import opened Intervals
  import opened YcsbCommon

  const DEFAULT_OPS_PER_TX: int := 2

  /** The keys a thread reads from: startKey .. endKey, both inclusive. */
  datatype KeyRange = KeyRange(startKey: int, endKey: int)

  predicate InRange(r: KeyRange, key: int) { r.startKey <= key <= r.endKey }

  // ---- the thread's user index and key range ------------------------------------------

  /**
   * Math.abs(name.hashCode() % userCount): an ArithmeticException when there
   * are no users, otherwise an index below |userCount|.
   */
  function ThreadId(hash: int, userCount: int): (r: Result<int, TxError>)
    requires IsInt32(hash)
    ensures r.Err? <==> userCount == 0
    ensures r.Err? ==> r.error == DivisionByZero
    ensures r.Ok? ==> 0 <= r.value < Abs(userCount)
  {
    if userCount == 0 then Err(DivisionByZero) else Ok(Abs(Rem(hash, userCount)))
  }

  /**
   * calculateKeyRange(threadId, userCount, recordCount): recordCount / userCount
   * keys per thread, the last thread also taking the remainder.  A thread id
   * that is not below userCount is an IllegalArgumentException.
   */
  function CalculateKeyRange(threadId: int, userCount: int, recordCount: int): (r: Result<KeyRange, TxError>)
    requires 0 <= threadId && IsInt32(threadId) && IsInt32(userCount) && IsInt32(recordCount)
    ensures r.Err? <==> threadId >= userCount
    ensures r.Err? ==> r.error.BadArgument?
  {
    if threadId >= userCount then Err(BadArgument("Thread ID must be less than user count"))
    else
      var rangeSize := Quot(recordCount, userCount);
      if threadId == userCount - 1 then Ok(KeyRange(threadId * rangeSize, Wrap32(recordCount - 1)))
      else Ok(KeyRange(threadId * rangeSize, Wrap32((threadId + 1) * rangeSize - 1)))
  }

  /** The range of thread t when the user count and record count are sensible. */
  function RangeOf(t: int, userCount: int, recordCount: int): KeyRange
    requires 0 <= t < userCount && IsInt32(userCount) && 0 <= recordCount && IsInt32(recordCount)
  {
    CalculateKeyRange(t, userCount, recordCount).value
  }

  /** Where the slices can be compared: at least one user and a non-negative record count. */
  predicate Sensible(userCount: int, recordCount: int)
  {
    1 <= userCount && IsInt32(userCount) && 0 <= recordCount && IsInt32(recordCount)
  }

  /** The bounds of thread t's range, written without Java's wrap-around. */
  lemma RangeBounds(t: int, userCount: int, recordCount: int)
    requires Sensible(userCount, recordCount) && 0 <= t < userCount
    ensures RangeOf(t, userCount, recordCount).startKey == t * (recordCount / userCount)
    ensures RangeOf(t, userCount, recordCount).endKey
            == if t == userCount - 1 then recordCount - 1 else (t + 1) * (recordCount / userCount) - 1
  {
    EvenSlices(t, userCount, recordCount);
    assert Quot(recordCount, userCount) == recordCount / userCount;
  }

  /**
   * The threads' ranges tile [0, recordCount - 1]: thread 0 starts at 0, each
   * next thread starts right after the previous one ends, and the last one
   * ends at the last record.
   */
  lemma KeyRangesTile(userCount: int, recordCount: int)
    requires Sensible(userCount, recordCount)
    ensures RangeOf(0, userCount, recordCount).startKey == 0
    ensures RangeOf(userCount - 1, userCount, recordCount).endKey == recordCount - 1
    ensures forall t :: 0 <= t < userCount - 1 ==>
              RangeOf(t, userCount, recordCount).endKey + 1 == RangeOf(t + 1, userCount, recordCount).startKey
  {
    RangeBounds(0, userCount, recordCount);
    RangeBounds(userCount - 1, userCount, recordCount);
    forall t | 0 <= t < userCount - 1
      ensures RangeOf(t, userCount, recordCount).endKey + 1 == RangeOf(t + 1, userCount, recordCount).startKey
    {
      RangeBounds(t, userCount, recordCount);
      RangeBounds(t + 1, userCount, recordCount);
    }
  }

  /** The thread whose range holds record `key`. */
  function Owner(userCount: int, recordCount: int, key: int): int
    requires Sensible(userCount, recordCount) && 0 <= key
  {
    var size := recordCount / userCount;
    if size == 0 then userCount - 1 else Min(key / size, userCount - 1)
  }

  /** A key lies in the slice [t * size, (t + 1) * size) exactly when key / size is t. */
  lemma InnerSlice(key: int, size: int, t: int)
    requires size > 0 && 0 <= key && 0 <= t
    ensures t * size <= key <= (t + 1) * size - 1 <==> key / size == t
  {
    var q := key / size;
    assert q * size <= key < (q + 1) * size;
    if q < t {
      MulMono(q + 1, t, size);
    } else if q > t {
      MulMono(t + 1, q, size);
    }
  }

  /** A key lies at or above t * size exactly when key / size is at least t. */
  lemma TailSlice(key: int, size: int, t: int)
    requires size > 0 && 0 <= key && 0 <= t
    ensures t * size <= key <==> key / size >= t
  {
    var q := key / size;
    assert q * size <= key < (q + 1) * size;
    if q < t {
      MulMono(q + 1, t, size);
    } else {
      MulMono(t, q, size);
    }
  }

  /** The owner of `key` is the one thread whose slice bounds enclose it. */
  lemma SliceOwner(userCount: int, recordCount: int, key: int, t: int)
    requires Sensible(userCount, recordCount) && 0 <= key < recordCount && 0 <= t < userCount
    ensures var size := recordCount / userCount;
            t * size <= key <= (if t == userCount - 1 then recordCount - 1 else (t + 1) * size - 1)
            <==> t == Owner(userCount, recordCount, key)
  {
    var size := recordCount / userCount;
    EvenSlices(t, userCount, recordCount);
    if size == 0 {
      assert t * size == 0;
    } else if t < userCount - 1 {
      InnerSlice(key, size, t);
    } else {
      TailSlice(key, size, t);
    }
  }

  /**
   * Every record id is read by exactly one thread: record `key` lies in thread
   * t's range if and only if t is its owner.
   */
  lemma KeyOwnedOnce(userCount: int, recordCount: int, key: int, t: int)
    requires Sensible(userCount, recordCount) && 0 <= key < recordCount && 0 <= t < userCount
    ensures InRange(RangeOf(t, userCount, recordCount), key) <==> t == Owner(userCount, recordCount, key)
  {
    RangeBounds(t, userCount, recordCount);
    SliceOwner(userCount, recordCount, key, t);
  }

  /**
   * The ThreadLocal initializer: the thread's user index, then its key range.
   * It fails when there are no users (division by zero) or fewer than none
   * (the index is never below a negative count).
   */
  function InitialKeyRange(hash: int, userCount: int, recordCount: int): (r: Result<(int, KeyRange), TxError>)
    requires IsInt32(hash) && IsInt32(userCount) && IsInt32(recordCount)
    ensures r.Ok? <==> userCount > 0
    ensures r.Ok? ==> 0 <= r.value.0 < userCount
    ensures r.Ok? && 0 <= recordCount ==> r.value.1 == RangeOf(r.value.0, userCount, recordCount)
  {
    var threadId :- ThreadId(hash, userCount);
    var range :- CalculateKeyRange(threadId, userCount, recordCount);
    Ok((threadId, range))
  }

  /** Every thread's range lies within the record ids 0 .. recordCount - 1 (it may be empty). */
  lemma RangeWithinRecords(t: int, userCount: int, recordCount: int)
    requires Sensible(userCount, recordCount) && 0 <= t < userCount
    ensures 0 <= RangeOf(t, userCount, recordCount).startKey
    ensures RangeOf(t, userCount, recordCount).startKey <= RangeOf(t, userCount, recordCount).endKey + 1
    ensures RangeOf(t, userCount, recordCount).endKey + 1 <= recordCount
  {
    RangeBounds(t, userCount, recordCount);
    EvenSlices(t, userCount, recordCount);
  }

  // ---- one transaction ----------------------------------------------------------------

  /**
   * The keys one transaction reads: opsPerTx draws of random.nextInt(endKey -
   * startKey + 1) added to startKey.  A negative opsPerTx is the ArrayList's
   * IllegalArgumentException; an empty range makes nextInt throw one as soon
   * as a key is drawn.
   */
  method ChooseKeys(range: KeyRange, opsPerTx: int, draws: seq<int>) returns (r: Result<seq<int>, TxError>)
    requires IsInt32(range.startKey) && IsInt32(range.endKey) && IsInt32(range.endKey - range.startKey + 1)
    requires opsPerTx <= |draws|
    requires range.endKey - range.startKey + 1 > 0 ==>
               forall i :: 0 <= i < |draws| ==> 0 <= draws[i] < range.endKey - range.startKey + 1
    ensures r.Ok? <==> opsPerTx == 0 || (opsPerTx > 0 && range.startKey <= range.endKey)
    ensures r.Ok? ==> |r.value| == opsPerTx
    ensures r.Ok? ==> forall i :: 0 <= i < |r.value| ==> InRange(range, r.value[i]) && r.value[i] == range.startKey + draws[i]
  {
    if opsPerTx < 0 {
      return Err(BadArgument("Illegal Capacity"));
    }
    var userIds: seq<int> := [];
    for i := 0 to opsPerTx
      invariant |userIds| == i
      invariant i > 0 ==> range.startKey <= range.endKey
      invariant forall j :: 0 <= j < i ==> InRange(range, userIds[j]) && userIds[j] == range.startKey + draws[j]
    {
      var bound := range.endKey - range.startKey + 1;
      if bound <= 0 {
        return Err(BadArgument("bound must be positive"));
      }
      var key := range.startKey + draws[i];
      userIds := userIds + [key];
    }
    return Ok(userIds);
  }

  /** A transaction manager: the admin's, or the one created for a user. */
  datatype Manager = Admin | UserManager(user: nat)

  /**
   * What createUserManagers as written leaves: the users whose manager could
   * be created, in ascending order; a failed user leaves no slot.
   */
  predicate ManagersOf(userCount: int, created: seq<bool>, managers: seq<nat>)
    requires userCount <= |created|
  {
    && (forall p :: 0 <= p < |managers| ==> managers[p] < userCount && created[managers[p]])
    && (forall p, q :: 0 <= p < q < |managers| ==> managers[p] < managers[q])
    && (forall i :: 0 <= i < userCount && created[i] ==> i in managers)
  }

  /** createUserManagers as written: each created manager is appended to the list. */
  method CreateUserManagers(userCount: int, created: seq<bool>) returns (managers: seq<nat>)
    requires userCount <= |created|
    ensures ManagersOf(userCount, created, managers)
  {
    managers := [];
    var i := 0;
    while i < userCount
      invariant 0 <= i <= if userCount > 0 then userCount else 0
      invariant forall p :: 0 <= p < |managers| ==> managers[p] < i && created[managers[p]]
      invariant forall p, q :: 0 <= p < q < |managers| ==> managers[p] < managers[q]
      invariant forall j :: 0 <= j < i && created[j] ==> j in managers
    {
      if created[i] {
        managers := managers + [i];
      }
      i := i + 1;
    }
  }

  /** The manager executeEach picks from that list: the one at the thread's user index, else the admin's. */
  function ChooseManager(userIndex: Option<int>, managers: seq<nat>): (m: Manager)
    requires userIndex.Some? ==> userIndex.value >= 0
    ensures m.UserManager? <==> userIndex.Some? && userIndex.value < |managers|
  {
    if userIndex.Some? && userIndex.value < |managers| then UserManager(managers[userIndex.value]) else Admin
  }

  /**
   * When the first of two users' managers could not be created, the thread
   * of user 0 runs its reads under user 1's credentials instead of the
   * admin's.
   */
  lemma ManagerOfAnotherUser(managers: seq<nat>)
    requires ManagersOf(2, [false, true], managers)
    ensures ChooseManager(Some(0), managers) == UserManager(1)
  {
    assert 1 in managers;
  }

  /** createUserManagers with a slot per user, empty when the user's manager could not be created. */
  method CreateUserManagerSlots(userCount: int, created: seq<bool>) returns (slots: seq<Option<nat>>)
    requires userCount <= |created|
    ensures |slots| == if userCount > 0 then userCount else 0
    ensures forall i :: 0 <= i < |slots| ==> slots[i] == if created[i] then Some(i) else None
  {
    slots := [];
    var i := 0;
    while i < userCount
      invariant 0 <= i <= if userCount > 0 then userCount else 0
      invariant |slots| == i
      invariant forall j :: 0 <= j < i ==> slots[j] == if created[j] then Some(j) else None
    {
      slots := slots + [if created[i] then Some(i) else None];
      i := i + 1;
    }
  }

  /** The user index's own manager when it exists (the null check), else the admin's. */
  function ChooseManagerSlot(userIndex: Option<int>, slots: seq<Option<nat>>): Manager
    requires userIndex.Some? ==> userIndex.value >= 0
  {
    if userIndex.Some? && userIndex.value < |slots| && slots[userIndex.value].Some? then
      UserManager(slots[userIndex.value].value)
    else Admin
  }

  /** With a slot per user, a thread reads as its own user when that user's manager exists, else as the admin, never as another user. */
  lemma OwnManagerOrAdmin(userCount: int, created: seq<bool>, slots: seq<Option<nat>>, t: int)
    requires userCount <= |created| && 0 <= t < userCount
    requires |slots| == userCount && forall i :: 0 <= i < |slots| ==> slots[i] == if created[i] then Some(i) else None
    ensures ChooseManagerSlot(Some(t), slots) == if created[t] then UserManager(t) else Admin
  {
  }

  /** The gets of one attempt: prepareGet of each chosen key, in order. */
  function Gets(keys: seq<int>): (ops: seq<Op>)
    ensures |ops| == |keys|
    ensures forall i :: 0 <= i < |keys| ==> ops[i] == PrepareGet(NAMESPACE, TABLE, keys[i])
  {
    seq(|keys|, i requires 0 <= i < |keys| => PrepareGet(NAMESPACE, TABLE, keys[i]))
  }

  /**
   * How one attempt of the retry loop ends: the number of gets it issued and
   * its outcome.  A get that throws ends the attempt, so an attempt that read
   * fewer than all its keys ended in an exception; one that read them all
   * ends as its commit does.
   */
  datatype Attempt = Attempt(gets: nat, outcome: Result<(), TxError>)

  /** Each attempt issued at most the chosen keys' gets, and stopped early only on an exception. */
  predicate Attempts(count: int, attempts: seq<Attempt>)
  {
    forall j :: 0 <= j < |attempts| ==>
      attempts[j].gets <= count && (attempts[j].gets < count ==> attempts[j].outcome.Err?)
  }

  /** Some attempt ends other than by a conflict, so the retry loop stops. */
  predicate Settles(attempts: seq<Attempt>)
  {
    exists k :: 0 <= k < |attempts| && attempts[k].outcome != Err(Conflict)
  }

  /** The index of the first attempt that does not end in a conflict. */
  function FirstSettled(attempts: seq<Attempt>): (k: nat)
    requires Settles(attempts)
    ensures k < |attempts| && attempts[k].outcome != Err(Conflict)
    ensures forall j :: 0 <= j < k ==> attempts[j].outcome == Err(Conflict)
    decreases |attempts|
  {
    if attempts[0].outcome != Err(Conflict) then 0
    else
      var k :| 0 <= k < |attempts| && attempts[k].outcome != Err(Conflict);
      assert attempts[1..][k - 1] == attempts[k];
      1 + FirstSettled(attempts[1..])
  }

  /** The gets the attempts issue, one attempt after another. */
  function AttemptGets(keys: seq<int>, attempts: seq<Attempt>): seq<Op>
    requires Attempts(|keys|, attempts)
  {
    if |attempts| == 0 then []
    else
      var last := attempts[|attempts| - 1];
      assert Attempts(|keys|, attempts[..|attempts| - 1]) by {
        assert forall j :: 0 <= j < |attempts| - 1 ==> attempts[..|attempts| - 1][j] == attempts[j];
      }
      AttemptGets(keys, attempts[..|attempts| - 1]) + Gets(keys[..last.gets])
  }

  class MultiUserWorkloadC {
    const userCount: int
    const recordCount: int
    const opsPerTx: int
    /**
     * The user managers as createUserManagers leaves them: the users whose
     * manager could be created, in ascending order, with no slot for the
     * others.
     */
    const userManagers: seq<nat>
    /** transactionRetryCount. */
    var retryCount: nat
    /** Every get issued so far, with the manager it ran under. */
    var issued: seq<(Manager, Op)>

    constructor (userCount: int, recordCount: int, opsPerTx: int, userManagers: seq<nat>)
      ensures this.userCount == userCount && this.recordCount == recordCount && this.opsPerTx == opsPerTx
      ensures this.userManagers == userManagers && retryCount == 0 && issued == []
    {
      this.userCount := userCount;
      this.recordCount := recordCount;
      this.opsPerTx := opsPerTx;
      this.userManagers := userManagers;
      retryCount := 0;
      issued := [];
    }

    /**
     * The retry loop of executeEach: every attempt gets the keys in order
     * until one get throws; a conflict aborts and counts a retry; any other
     * exception is rethrown; a commit ends the loop.
     */
    method Transact(manager: Manager, keys: seq<int>, attempts: seq<Attempt>) returns (r: Result<(), TxError>)
      requires Attempts(|keys|, attempts) && Settles(attempts)
      modifies this`retryCount, this`issued
      ensures var k := FirstSettled(attempts);
              && retryCount == old(retryCount) + k
              && issued == old(issued) + Tagged(manager, AttemptGets(keys, attempts[..k + 1]))
              && r == attempts[k].outcome
    {
      ghost var k := FirstSettled(attempts);
      var attempt := 0;
      while true
        invariant 0 <= attempt <= k
        invariant retryCount == old(retryCount) + attempt
        invariant issued == old(issued) + Tagged(manager, AttemptGets(keys, attempts[..attempt]))
        decreases k - attempt
      {
        ReadKeys(manager, keys, attempts[attempt].gets);
        IssuedNext(old(issued), manager, keys, attempts, attempt);
        var outcome := attempts[attempt].outcome;
        if outcome != Err(Conflict) {
          assert attempt == k;
        }
        if outcome.Ok? {
          return outcome;
        } else if outcome.error == Conflict {
          retryCount := retryCount + 1;
          attempt := attempt + 1;
        } else {
          return outcome;
        }
      }
    }

    /** One attempt's reads: a get of each of the first `count` keys, in order, under `manager`. */
    method ReadKeys(manager: Manager, keys: seq<int>, count: nat)
      requires count <= |keys|
      modifies this`issued
      ensures issued == old(issued) + Tagged(manager, Gets(keys[..count]))
    {
      for i := 0 to count
        invariant issued == old(issued) + Tagged(manager, Gets(keys[..i]))
      {
        GetsSnoc(manager, keys, i);
        issued := issued + [(manager, PrepareGet(NAMESPACE, TABLE, keys[i]))];
      }
    }

    /**
     * executeEach: the thread's key range and user index (from its name's
     * hash), the keys, the manager at the user index of the list
     * createUserManagers built, then the retry loop.
     */
    method ExecuteEach(hash: int, draws: seq<int>, attempts: seq<Attempt>) returns (r: Result<(), TxError>)
      requires IsInt32(hash) && IsInt32(userCount) && 0 <= recordCount && IsInt32(recordCount) && opsPerTx <= |draws|
      requires userCount > 0 ==> forall i :: 0 <= i < |draws| ==> 0 <= draws[i] < InitialRangeSize(hash)
      requires Settles(attempts) && (opsPerTx >= 0 ==> Attempts(opsPerTx, attempts))
      modifies this`retryCount, this`issued
      ensures userCount <= 0 ==> r.Err? && retryCount == old(retryCount) && issued == old(issued)
      ensures r.Ok? ==> r == attempts[FirstSettled(attempts)].outcome
                        && retryCount == old(retryCount) + FirstSettled(attempts)
      ensures old(issued) <= issued
      ensures userCount > 0 ==> forall j :: |old(issued)| <= j < |issued| ==>
                && issued[j].0 == ChooseManager(Some(ThreadId(hash, userCount).value), userManagers)
                && 0 <= RecordId(issued[j].1.key) < recordCount
      ensures userCount > 0 ==>
                var range := RangeOf(ThreadId(hash, userCount).value, userCount, recordCount);
                && (forall j :: |old(issued)| <= j < |issued| ==>
                      range.startKey <= RecordId(issued[j].1.key) <= range.endKey)
                && (opsPerTx == 0 || (opsPerTx > 0 && range.startKey <= range.endKey) ==>
                      && r == attempts[FirstSettled(attempts)].outcome
                      && retryCount == old(retryCount) + FirstSettled(attempts))
                && (!(opsPerTx == 0 || (opsPerTx > 0 && range.startKey <= range.endKey)) ==>
                      r.Err? && retryCount == old(retryCount) && issued == old(issued))
    {
      var init := InitialKeyRange(hash, userCount, recordCount);
      if init.Err? {
        return Err(init.error);
      }
      var (threadId, range) := init.value;
      RangeWithinRecords(threadId, userCount, recordCount);
      var keys := ChooseKeys(range, opsPerTx, draws);
      if keys.Err? {
        return Err(keys.error);
      }
      var manager := ChooseManager(Some(threadId), userManagers);
      r := Transact(manager, keys.value, attempts);
      AttemptGetsInRange(manager, keys.value, attempts[..FirstSettled(attempts) + 1], range.startKey, range.endKey + 1);
    }

    /** The size of the thread's range, endKey - startKey + 1. */
    function InitialRangeSize(hash: int): int
      requires IsInt32(hash) && IsInt32(userCount) && IsInt32(recordCount) && userCount > 0
    {
      var range := InitialKeyRange(hash, userCount, recordCount).value.1;
      range.endKey - range.startKey + 1
    }
  }

  /** Ops tagged with the manager they ran under. */
  function Tagged(m: Manager, ops: seq<Op>): (r: seq<(Manager, Op)>)
    ensures |r| == |ops|
    ensures forall i :: 0 <= i < |ops| ==> r[i] == (m, ops[i])
  {
    seq(|ops|, i requires 0 <= i < |ops| => (m, ops[i]))
  }

  /** The gets of the first n attempts followed by attempt n's are those of the first n + 1. */
  lemma IssuedNext(base: seq<(Manager, Op)>, m: Manager, keys: seq<int>, attempts: seq<Attempt>, n: nat)
    requires Attempts(|keys|, attempts) && n < |attempts|
    ensures Attempts(|keys|, attempts[..n]) && Attempts(|keys|, attempts[..n + 1])
    ensures base + Tagged(m, AttemptGets(keys, attempts[..n])) + Tagged(m, Gets(keys[..attempts[n].gets]))
            == base + Tagged(m, AttemptGets(keys, attempts[..n + 1]))
  {
    var p := attempts[..n + 1];
    assert forall j :: 0 <= j <= n ==> p[j] == attempts[j];
    assert forall j :: 0 <= j < n ==> attempts[..n][j] == attempts[j];
    assert p[..n] == attempts[..n];
    var last := Gets(keys[..attempts[n].gets]);
    assert AttemptGets(keys, p) == AttemptGets(keys, attempts[..n]) + last;
    TaggedAppend(m, AttemptGets(keys, attempts[..n]), last);
  }

  lemma GetsSnoc(m: Manager, keys: seq<int>, i: int)
    requires 0 <= i < |keys|
    ensures Tagged(m, Gets(keys[..i + 1])) == Tagged(m, Gets(keys[..i])) + [(m, PrepareGet(NAMESPACE, TABLE, keys[i]))]
  {
    assert Gets(keys[..i + 1]) == Gets(keys[..i]) + [PrepareGet(NAMESPACE, TABLE, keys[i])];
    TaggedAppend(m, Gets(keys[..i]), [PrepareGet(NAMESPACE, TABLE, keys[i])]);
  }

  lemma TaggedAppend(m: Manager, a: seq<Op>, b: seq<Op>)
    ensures Tagged(m, a + b) == Tagged(m, a) + Tagged(m, b)
  {
  }

  /** Every get of the attempts runs under `m` and reads a record whose id lies in [lo, hi). */
  lemma {:induction false} AttemptGetsInRange(m: Manager, keys: seq<int>, attempts: seq<Attempt>, lo: int, hi: int)
    requires Attempts(|keys|, attempts)
    requires forall i :: 0 <= i < |keys| ==> lo <= keys[i] < hi
    ensures forall j :: 0 <= j < |AttemptGets(keys, attempts)| ==>
              Tagged(m, AttemptGets(keys, attempts))[j].0 == m && lo <= RecordId(AttemptGets(keys, attempts)[j].key) < hi
    decreases |attempts|
  {
    if |attempts| > 0 {
      var n := |attempts| - 1;
      var prefix := attempts[..n];
      assert forall j :: 0 <= j < n ==> prefix[j] == attempts[j];
      AttemptGetsInRange(m, keys, prefix, lo, hi);
      var prev := AttemptGets(keys, prefix);
      var last := Gets(keys[..attempts[n].gets]);
      assert AttemptGets(keys, attempts) == prev + last;
      forall j | 0 <= j < |AttemptGets(keys, attempts)|
        ensures lo <= RecordId(AttemptGets(keys, attempts)[j].key) < hi
      {
        if j >= |prev| {
          assert AttemptGets(keys, attempts)[j] == last[j - |prev|];
          assert keys[..attempts[n].gets][j - |prev|] == keys[j - |prev|];
        } else {
          assert AttemptGets(keys, attempts)[j] == prev[j];
        }
      }
    }
  }
}
