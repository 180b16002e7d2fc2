/** The strict two-phase locking executor as the repository writes it: loops over the sets
    and the lock lists, and lock words changed by compare-and-swap.  Other executors may run
    between any two atomic steps; every call leaves a run of the step relation. */
module StrictLockingExecutor {
  import opened SerialExecution
  import opened AccessSets
  import opened KeyLists
  import opened Runs
  import opened StrictLocking
  import opened StrictLockingSafety

  datatype Outcome = Proceed | MustAbort | GaveUp

  /** Erases the first element for `key`, as the code does on its way through the set. */
  method EraseRead(rs: seq<ReadItem>, key: Key) returns (r: seq<ReadItem>)
    ensures r == Dropped(rs, key)
  {
    var i := 0;
    while i < |rs|
      invariant i <= |rs| && Dropped(rs, key) == rs[..i] + Dropped(rs[i..], key)
    {
      assert rs[i..][1..] == rs[i + 1..];
      if rs[i].key == key {
        return rs[..i] + rs[i + 1..];
      }
      assert rs[..i] + [rs[i]] == rs[..i + 1];
      i := i + 1;
    }
    return rs;
  }

  method SearchReadSet(rs: seq<ReadItem>, key: Key) returns (found: bool)
    ensures found <==> ReadsKey(rs, key)
  {
    var i := 0;
    while i < |rs|
      invariant i <= |rs| && forall j | 0 <= j < i :: rs[j].key != key
    {
      if rs[i].key == key {
        return true;
      }
      i := i + 1;
    }
    return false;
  }

  /** Whatever another executor does next, this one's own data and the size of the table stay. */
  lemma OthersLeave(s: State, s': State, u: nat, t: nat)
    requires StepBy(s, s', u) && t < |s.txs| && t != u
    ensures |s'.txs| == |s.txs| && s'.txs[t] == s.txs[t] && |s'.table| == |s.table|
  {
  }

  class TxExecutor {
    const thid: nat
    var st: State
    ghost var run: seq<State>

    ghost predicate Sound()
      reads this
    {
      IsRun(run, Init, Next) && run[|run| - 1] == st && thid < |st.txs|
    }

    constructor (initial: State, thid: nat)
      requires Init(initial) && thid < |initial.txs|
      ensures Sound() && st == initial && this.thid == thid
    {
      this.thid := thid;
      st := initial;
      run := [initial];
    }

    lemma Reachable()
      requires Sound()
      ensures TxInv(st.table, st.txs[thid], thid) && SeenOk(st.table, st.txs[thid])
      ensures forall k | 0 <= k < |st.table| :: TupleOk(st.table[k], |st.txs|)
    {
      RunKeepsInv(run, |run| - 1);
    }

    lemma CommittedAreSerializable()
      requires Sound()
      ensures SerialRun(st.init, st.log)
    {
      RunKeepsInv(run, |run| - 1);
    }

    /** Any number of steps of the other executors: all that callers learn is that this
        executor's own data stay as they are. */
    method Others()
      requires Sound()
      modifies this
      ensures Sound() && st.txs[thid] == old(st.txs[thid]) && old(run) <= run
      ensures |st.table| == old(|st.table|)
    {
    }

    /** One atomic step of this executor. */
    method Step(next: State)
      requires Sound() && StepBy(st, next, thid) && thid < |next.txs|
      modifies this
      ensures Sound() && st == next && run == old(run) + [next]
    {
      Longer(run, Init, Next, next);
      st := next;
      run := run + [next];
    }

    method Begin()
      requires Sound() && st.txs[thid].phase.Idle?
      modifies this
      ensures Sound() && old(run) <= run && st.txs[thid] == Tx(Executing, [], [], [], [], map[])
    {
      var begun := SetTx(st, thid, Tx(Executing, [], [], [], [], map[]));
      assert StrictLocking.Begin(st, begun, thid);
      Step(begun);
    }

    /** A read lock refused: another transaction writes, and this one has to abort. */
    method RefuseRead(ghost key: Key)
      requires Sound() && st.txs[thid].phase.Executing? && key < |st.table|
      requires StrictLocking.Read(st, SetTx(st, thid, st.txs[thid].(phase := Aborting)), thid, key)
      modifies this
      ensures Sound() && old(run) <= run && st == SetTx(old(st), thid, old(st.txs[thid]).(phase := Aborting))
      ensures st.table[key].writer >= 0 && st.table[key].writer != thid
    {
      ReadRefusedByWriter(run, |run| - 1, SetTx(st, thid, st.txs[thid].(phase := Aborting)), thid, key);
      Step(SetTx(st, thid, st.txs[thid].(phase := Aborting)));
    }

    /** A write lock or an upgrade refused: another transaction holds the record. */
    method RefuseWrite(ghost key: Key, ghost val: Val)
      requires Sound() && st.txs[thid].phase.Executing? && key < |st.table|
      requires var next := SetTx(st, thid, st.txs[thid].(phase := Aborting));
               StrictLocking.Write(st, next, thid, key, val) || Upgrade(st, next, thid, key, val)
               || StrictLocking.ReadWrite(st, next, thid, key, val)
      modifies this
      ensures Sound() && old(run) <= run && st == SetTx(old(st), thid, old(st.txs[thid]).(phase := Aborting))
      ensures HeldByOther(st.table[key], thid)
    {
      WriteRefusedByHolder(run, |run| - 1, SetTx(st, thid, st.txs[thid].(phase := Aborting)), thid, key, val);
      Step(SetTx(st, thid, st.txs[thid].(phase := Aborting)));
    }

    /** r_trylock(): refused when loaded as -1, taken by a compare-and-swap that succeeds. */
    method RTryLock(key: Key, patience: nat) returns (o: Outcome)
      requires Sound() && st.txs[thid].phase.Executing? && key < |st.table|
      requires !HasKey(st.txs[thid].wset, key) && !ReadsKey(st.txs[thid].rset, key)
      modifies this
      ensures Sound() && old(run) <= run
      ensures |st.table| == old(|st.table|)
      ensures o.Proceed? ==> st.txs[thid] == old(st.txs[thid]).(phase := Copying(key), rlocks := old(st.txs[thid].rlocks) + [key])
      ensures o.MustAbort? ==> st.txs[thid] == old(st.txs[thid]).(phase := Aborting) && key < |st.table|
      ensures o.MustAbort? ==> st.table[key].writer >= 0 && st.table[key].writer != thid
      ensures o.GaveUp? ==> st.txs[thid] == old(st.txs[thid]) && |run| >= |old(run)| + patience
    {
      var n := patience;
      var expected := st.table[key].count;
      while n > 0
        invariant Sound() && old(run) <= run && st.txs[thid] == old(st.txs[thid]) && |st.table| == old(|st.table|)
        invariant expected == st.table[key].count && n <= patience && |run| >= |old(run)| + (patience - n)
      {
        n := n - 1;
        if expected == -1 {
          RefuseRead(key);
          return MustAbort;
        }
        Others();
        if st.table[key].count == expected {
          var tx := st.txs[thid];
          var locked := SetBoth(st, thid, tx.(phase := Copying(key), rlocks := tx.rlocks + [key]), key, ReadLocked(st.table[key], thid));
          assert StrictLocking.Read(st, locked, thid, key);
          Step(locked);
          return Proceed;
        }
        expected := st.table[key].count;
      }
      return GaveUp;
    }

    /** read(): the value read is the one in the table while the lock is held. */
    method Read(key: Key, patience: nat) returns (o: Outcome)
      requires Sound() && st.txs[thid].phase.Executing? && key < |st.table|
      modifies this
      ensures Sound() && old(run) <= run
      ensures o.Proceed? ==> st.txs[thid].phase.Executing? && (HasKey(st.txs[thid].wset, key) || ReadsKey(st.txs[thid].rset, key))
      ensures o.Proceed? && !HasKey(old(st.txs[thid].wset), key) && !ReadsKey(old(st.txs[thid].rset), key) ==>
                && key < |st.table| && key in st.txs[thid].rlocks && thid in st.table[key].readers
                && st.txs[thid].rset == old(st.txs[thid].rset) + [ReadItem(key, st.table[key].val)]
      ensures o.MustAbort? ==> st.txs[thid] == old(st.txs[thid]).(phase := Aborting) && key < |st.table|
      ensures o.MustAbort? ==> st.table[key].writer >= 0 && st.table[key].writer != thid
      ensures o.GaveUp? ==> st.txs[thid] == old(st.txs[thid]) && |run| >= |old(run)| + patience
    {
      var inW := SearchWriteSet(st.txs[thid].wset, key);
      var inR := SearchReadSet(st.txs[thid].rset, key);
      if inW || inR {
        return Proceed;
      }
      o := RTryLock(key, patience);
      if o.Proceed? {
        Others();
        CopyValue(key);
      }
    }

    method CopyValue(key: Key)
      requires Sound() && st.txs[thid].phase == Copying(key)
      modifies this
      ensures Sound() && old(run) <= run && key < |st.table|
      ensures st.txs[thid] == old(st.txs[thid]).(phase := Executing, rset := old(st.txs[thid].rset) + [ReadItem(key, st.table[key].val)],
                                                 seen := st.txs[thid].seen)
      ensures ReadsKey(st.txs[thid].rset, key) && key in st.txs[thid].rlocks && thid in st.table[key].readers
    {
      Reachable();
      var tx := st.txs[thid];
      var copied := SetTx(st, thid, tx.(phase := Executing, rset := tx.rset + [ReadItem(key, st.table[key].val)],
                                        seen := tx.seen[key := st.table[key].val]));
      assert Copy(st, copied, thid);
      Step(copied);
      assert st.txs[thid].rset[|tx.rset|].key == key;
      Reachable();
    }

    /** tryupgrade(), and the move from the read to the write side of the books. */
    method TryUpgrade(key: Key, val: Val, patience: nat) returns (o: Outcome)
      requires Sound() && st.txs[thid].phase.Executing? && key < |st.table|
      requires !HasKey(st.txs[thid].wset, key) && ReadsKey(st.txs[thid].rset, key)
      modifies this
      ensures Sound() && old(run) <= run
      ensures o.Proceed? ==> st.txs[thid].phase.Executing? && key in st.txs[thid].wlocks && key !in st.txs[thid].rlocks
      ensures o.Proceed? ==> st.txs[thid].wset == old(st.txs[thid].wset) + [WriteItem(key, val)] && !ReadsKey(st.txs[thid].rset, key)
      ensures o.MustAbort? ==> st.txs[thid] == old(st.txs[thid]).(phase := Aborting) && key < |st.table|
      ensures o.MustAbort? ==> HeldByOther(st.table[key], thid)
      ensures o.GaveUp? ==> st.txs[thid] == old(st.txs[thid]) && |run| >= |old(run)| + patience
    {
      var rset := EraseRead(st.txs[thid].rset, key);
      var rlocks := EraseLock(st.txs[thid].rlocks, key);
      var n := patience;
      var expected := st.table[key].count;
      while n > 0
        invariant Sound() && old(run) <= run && st.txs[thid] == old(st.txs[thid]) && |st.table| == old(|st.table|)
        invariant expected == st.table[key].count && n <= patience && |run| >= |old(run)| + (patience - n)
      {
        n := n - 1;
        if expected != 1 {
          assert Upgrade(st, SetTx(st, thid, st.txs[thid].(phase := Aborting)), thid, key, val);
          RefuseWrite(key, val);
          return MustAbort;
        }
        Others();
        if st.table[key].count == expected {
          TakeUpgrade(key, val, rset, rlocks);
          return Proceed;
        }
        expected := st.table[key].count;
      }
      return GaveUp;
    }

    method TakeUpgrade(key: Key, val: Val, rset: seq<ReadItem>, rlocks: seq<Key>)
      requires Sound() && st.txs[thid].phase.Executing? && key < |st.table| && st.table[key].count == 1
      requires !HasKey(st.txs[thid].wset, key) && ReadsKey(st.txs[thid].rset, key)
      requires rset == Dropped(st.txs[thid].rset, key) && rlocks == Removed(st.txs[thid].rlocks, key)
      modifies this
      ensures Sound() && old(run) <= run
      ensures st.txs[thid].phase.Executing? && key in st.txs[thid].wlocks && key !in st.txs[thid].rlocks
      ensures st.txs[thid].wset == old(st.txs[thid].wset) + [WriteItem(key, val)] && !ReadsKey(st.txs[thid].rset, key)
    {
      var tx := st.txs[thid];
      var upgraded := SetBoth(st, thid, tx.(rset := rset, wset := tx.wset + [WriteItem(key, val)], rlocks := rlocks,
                                            wlocks := tx.wlocks + [key]), key, Upgraded(st.table[key], thid));
      assert Upgrade(st, upgraded, thid, key, val);
      Step(upgraded);
      Reachable();
    }

    /** write(): an upgrade of a record already read, else a lock taken at once. */
    method Write(key: Key, val: Val, patience: nat) returns (o: Outcome)
      requires Sound() && st.txs[thid].phase.Executing? && key < |st.table|
      modifies this
      ensures Sound() && old(run) <= run
      ensures o.Proceed? ==> st.txs[thid].phase.Executing? && key in st.txs[thid].wlocks
      ensures o.Proceed? ==> st.txs[thid].wset == if HasKey(old(st.txs[thid].wset), key) then old(st.txs[thid].wset)
                                                  else old(st.txs[thid].wset) + [WriteItem(key, val)]
      ensures o.MustAbort? ==> st.txs[thid] == old(st.txs[thid]).(phase := Aborting) && key < |st.table|
      ensures o.MustAbort? ==> HeldByOther(st.table[key], thid)
      ensures o.GaveUp? ==> st.txs[thid] == old(st.txs[thid]) && |run| >= |old(run)| + patience
    {
      var inW := SearchWriteSet(st.txs[thid].wset, key);
      if inW {
        Reachable();
        return Proceed;
      }
      var inR := SearchReadSet(st.txs[thid].rset, key);
      if inR {
        o := TryUpgrade(key, val, patience);
        return;
      }
      var n := patience;
      var expected := st.table[key].count;
      while n > 0
        invariant Sound() && old(run) <= run && st.txs[thid] == old(st.txs[thid]) && |st.table| == old(|st.table|)
        invariant expected == st.table[key].count && n <= patience && |run| >= |old(run)| + (patience - n)
      {
        n := n - 1;
        if expected != 0 {
          assert StrictLocking.Write(st, SetTx(st, thid, st.txs[thid].(phase := Aborting)), thid, key, val);
          RefuseWrite(key, val);
          return MustAbort;
        }
        Others();
        if st.table[key].count == expected {
          TakeWriteLock(key, val);
          return Proceed;
        }
        expected := st.table[key].count;
      }
      return GaveUp;
    }

    method TakeWriteLock(key: Key, val: Val)
      requires Sound() && st.txs[thid].phase.Executing? && key < |st.table| && st.table[key].count == 0
      requires !HasKey(st.txs[thid].wset, key) && !ReadsKey(st.txs[thid].rset, key)
      modifies this
      ensures Sound() && old(run) <= run
      ensures st.txs[thid].phase.Executing? && key in st.txs[thid].wlocks
      ensures st.txs[thid].wset == old(st.txs[thid].wset) + [WriteItem(key, val)]
    {
      var tx := st.txs[thid];
      var locked := SetBoth(st, thid, tx.(wset := tx.wset + [WriteItem(key, val)], wlocks := tx.wlocks + [key]), key,
                            WriteLocked(st.table[key], thid));
      assert StrictLocking.Write(st, locked, thid, key, val);
      Step(locked);
    }

    /** readWrite(): as write(), but the old value is copied under the lock. */
    method ReadWrite(key: Key, val: Val, patience: nat) returns (o: Outcome)
      requires Sound() && st.txs[thid].phase.Executing? && key < |st.table|
      modifies this
      ensures Sound() && old(run) <= run
      ensures o.Proceed? ==> st.txs[thid].phase.Executing? && key in st.txs[thid].wlocks
      ensures o.Proceed? ==> st.txs[thid].wset == if HasKey(old(st.txs[thid].wset), key) then old(st.txs[thid].wset)
                                                  else old(st.txs[thid].wset) + [WriteItem(key, val)]
      ensures o.MustAbort? ==> st.txs[thid] == old(st.txs[thid]).(phase := Aborting) && key < |st.table|
      ensures o.MustAbort? ==> HeldByOther(st.table[key], thid)
      ensures o.GaveUp? ==> st.txs[thid] == old(st.txs[thid]) && |run| >= |old(run)| + patience
      ensures o.Proceed? && !HasKey(old(st.txs[thid].wset), key) && !ReadsKey(old(st.txs[thid].rset), key) ==>
                key < |st.table| && key in st.txs[thid].seen && st.txs[thid].seen[key] == st.table[key].val
    {
      var inW := SearchWriteSet(st.txs[thid].wset, key);
      if inW {
        Reachable();
        return Proceed;
      }
      var inR := SearchReadSet(st.txs[thid].rset, key);
      if inR {
        o := TryUpgrade(key, val, patience);
        return;
      }
      var n := patience;
      var expected := st.table[key].count;
      while n > 0
        invariant Sound() && old(run) <= run && st.txs[thid] == old(st.txs[thid]) && |st.table| == old(|st.table|)
        invariant expected == st.table[key].count && n <= patience && |run| >= |old(run)| + (patience - n)
      {
        n := n - 1;
        if expected != 0 {
          assert StrictLocking.ReadWrite(st, SetTx(st, thid, st.txs[thid].(phase := Aborting)), thid, key, val);
          RefuseWrite(key, val);
          return MustAbort;
        }
        Others();
        if st.table[key].count == expected {
          TakeAndCopy(key, val);
          return Proceed;
        }
        expected := st.table[key].count;
      }
      return GaveUp;
    }

    method TakeAndCopy(key: Key, val: Val)
      requires Sound() && st.txs[thid].phase.Executing? && key < |st.table| && st.table[key].count == 0
      requires !HasKey(st.txs[thid].wset, key) && !ReadsKey(st.txs[thid].rset, key)
      modifies this
      ensures Sound() && old(run) <= run
      ensures st.txs[thid].phase.Executing? && key in st.txs[thid].wlocks
      ensures st.txs[thid].wset == old(st.txs[thid].wset) + [WriteItem(key, val)]
      ensures key < |st.table| && key in st.txs[thid].seen && st.txs[thid].seen[key] == st.table[key].val
    {
      var locked := SetBoth(st, thid, st.txs[thid].(phase := CopyingForUpdate(key, val)), key, WriteLocked(st.table[key], thid));
      assert StrictLocking.ReadWrite(st, locked, thid, key, val);
      Step(locked);
      Others();
      Reachable();
      var tx := st.txs[thid];
      var copied := SetTx(st, thid, tx.(phase := Executing, wset := tx.wset + [WriteItem(key, val)], wlocks := tx.wlocks + [key],
                                        seen := tx.seen[key := st.table[key].val]));
      assert CopyForUpdate(st, copied, thid);
      Step(copied);
    }

    /** unlockList(): every lock listed is let go, and nothing stays locked. */
    method UnlockList()
      requires Sound() && (st.txs[thid].phase.Unlocking? || st.txs[thid].phase.Aborting?)
      modifies this
      ensures Sound() && old(run) <= run && st.txs[thid] == Tx(Idle, [], [], [], [], map[])
      ensures forall k | 0 <= k < |st.table| :: thid !in st.table[k].readers && st.table[k].writer != thid
    {
      while st.txs[thid].rlocks != []
        invariant Sound() && old(run) <= run && (st.txs[thid].phase.Unlocking? || st.txs[thid].phase.Aborting?)
        decreases |st.txs[thid].rlocks|
      {
        Others();
        UnlockOne();
      }
      while st.txs[thid].wlocks != []
        invariant Sound() && old(run) <= run && (st.txs[thid].phase.Unlocking? || st.txs[thid].phase.Aborting?)
        invariant st.txs[thid].rlocks == []
        decreases |st.txs[thid].wlocks|
      {
        Others();
        UnlockOne();
      }
      Others();
      assert Unlock(st, SetTx(st, thid, Tx(Idle, [], [], [], [], map[])), thid);
      Step(SetTx(st, thid, Tx(Idle, [], [], [], [], map[])));
      Reachable();
    }

    /** r_unlock() or w_unlock() of the first lock listed. */
    method UnlockOne()
      requires Sound() && (st.txs[thid].phase.Unlocking? || st.txs[thid].phase.Aborting?)
      requires st.txs[thid].rlocks != [] || st.txs[thid].wlocks != []
      modifies this
      ensures Sound() && old(run) <= run && st.txs[thid].phase == old(st.txs[thid].phase)
      ensures old(st.txs[thid].rlocks) != [] ==>
                st.txs[thid].rlocks == old(st.txs[thid].rlocks[1..]) && st.txs[thid].wlocks == old(st.txs[thid].wlocks)
      ensures old(st.txs[thid].rlocks) == [] ==> st.txs[thid].rlocks == [] && st.txs[thid].wlocks == old(st.txs[thid].wlocks[1..])
    {
      Reachable();
      var tx := st.txs[thid];
      if tx.rlocks != [] {
        var k := tx.rlocks[0];
        assert k in tx.rlocks;
        var next := SetBoth(st, thid, tx.(rlocks := tx.rlocks[1..]), k, ReadUnlocked(st.table[k], thid));
        assert Unlock(st, next, thid);
        Step(next);
      } else {
        var k := tx.wlocks[0];
        assert k in tx.wlocks;
        var next := SetBoth(st, thid, tx.(wlocks := tx.wlocks[1..]), k, WriteUnlocked(st.table[k]));
        assert Unlock(st, next, thid);
        Step(next);
      }
    }

    /** abort(): lets every lock go; the log of commits is not touched by this executor. */
    method Abort()
      requires Sound() && st.txs[thid].phase.Aborting?
      modifies this
      ensures Sound() && old(run) <= run && st.txs[thid] == Tx(Idle, [], [], [], [], map[])
      ensures forall k | 0 <= k < |st.table| :: thid !in st.table[k].readers && st.table[k].writer != thid
      ensures SerialRun(st.init, st.log)
    {
      UnlockList();
      CommittedAreSerializable();
    }

    method Decide()
      requires Sound() && st.txs[thid].phase.Executing?
      modifies this
      ensures Sound() && run == old(run) + [st] && st.txs[thid] == old(st.txs[thid]).(phase := Storing(0))
      ensures DistinctKeys(st.txs[thid].wset) && st.log == old(st.log) + [Txn(st.txs[thid].seen, WriteMap(st.txs[thid].wset))]
    {
      Reachable();
      var tx := st.txs[thid];
      var committed := SetTx(st, thid, tx.(phase := Storing(0))).(log := st.log + [Txn(tx.seen, WriteMap(tx.wset))]);
      assert StrictLocking.Commit(st, committed, thid);
      Step(committed);
    }

    method StoreOne(i: nat)
      requires Sound() && st.txs[thid].phase == Storing(i) && i < |st.txs[thid].wset|
      modifies this
      ensures Sound() && old(run) <= run && st.txs[thid] == old(st.txs[thid]).(phase := Storing(i + 1))
      ensures var w := st.txs[thid].wset[i]; w.key < |st.table| && st.table[w.key].val == w.val
    {
      Reachable();
      var tx := st.txs[thid];
      assert HasKey(tx.wset, tx.wset[i].key);
      var stored := SetBoth(st, thid, tx.(phase := Storing(i + 1)), tx.wset[i].key, st.table[tx.wset[i].key].(val := tx.wset[i].val));
      assert Store(st, stored, thid);
      Step(stored);
    }

    /** The payloads are overwritten one by one. */
    method StoreAll()
      requires Sound() && st.txs[thid].phase == Storing(0)
      modifies this
      ensures Sound() && old(run) <= run && st.txs[thid].phase.Unlocking?
    {
      var i := 0;
      while i < |st.txs[thid].wset|
        invariant Sound() && old(run) <= run && i <= |st.txs[thid].wset| && st.txs[thid].phase == Storing(i)
        decreases |st.txs[thid].wset| - i
      {
        Others();
        StoreOne(i);
        i := i + 1;
      }
      assert Stored(st, SetTx(st, thid, st.txs[thid].(phase := Unlocking)), thid);
      Step(SetTx(st, thid, st.txs[thid].(phase := Unlocking)));
    }

    /** commit(): takes its place in the serial order, stores, unlocks. */
    method Commit()
      requires Sound() && st.txs[thid].phase.Executing?
      modifies this
      ensures Sound() && old(run) < run && st.txs[thid] == Tx(Idle, [], [], [], [], map[])
      ensures DistinctKeys(old(st.txs[thid].wset))
      ensures run[|old(run)|].log == old(st.log) + [Txn(old(st.txs[thid].seen), WriteMap(old(st.txs[thid].wset)))]
      ensures forall k | 0 <= k < |st.table| :: thid !in st.table[k].readers && st.table[k].writer != thid
      ensures SerialRun(st.init, st.log)
    {
      Decide();
      StoreAll();
      UnlockList();
      CommittedAreSerializable();
    }
  }
}
