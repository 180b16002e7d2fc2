/** Strict two-phase locking with no-wait locks (DLR1): a refused lock aborts at once.

    A step is one lock operation or one payload copy.  `count` is the lock's counter;
    `readers`, `writer`, `seen` and `log` record history only.  `log` lists the committed
    transactions in the order in which they enter commit. */
module StrictLocking {
  import opened SerialExecution
  import opened AccessSets
  import opened KeyLists

  datatype Tuple = Tuple(val: Val, count: int, readers: set<nat>, writer: int)

  datatype ReadItem = ReadItem(key: Key, val: Val)

  datatype Phase =
    | Idle
    | Executing
    | Copying(key: Key)
    | CopyingForUpdate(key: Key, new_: Val)
    | Storing(i: nat)
    | Unlocking
    | Aborting

  datatype Tx = Tx(phase: Phase, rset: seq<ReadItem>, wset: seq<WriteItem>, rlocks: seq<Key>, wlocks: seq<Key>,
                   seen: map<Key, Val>)

  datatype State = State(table: seq<Tuple>, txs: seq<Tx>, init: map<Key, Val>, log: seq<Txn>)

  predicate ReadsKey(rs: seq<ReadItem>, k: Key) {
    exists j :: 0 <= j < |rs| && rs[j].key == k
  }

  /** `rs` without its element for `k`. */
  function Dropped(rs: seq<ReadItem>, k: Key): seq<ReadItem> {
    if rs == [] then [] else if rs[0].key == k then rs[1..] else [rs[0]] + Dropped(rs[1..], k)
  }

  function SetTx(s: State, t: nat, tx: Tx): State
    requires t < |s.txs|
  {
    s.(txs := s.txs[t := tx])
  }

  function SetBoth(s: State, t: nat, tx: Tx, k: Key, tup: Tuple): State
    requires t < |s.txs| && k < |s.table|
  {
    s.(txs := s.txs[t := tx], table := s.table[k := tup])
  }

  function ReadLocked(tup: Tuple, t: nat): Tuple { tup.(count := tup.count + 1, readers := tup.readers + {t}) }
  function WriteLocked(tup: Tuple, t: nat): Tuple { tup.(count := -1, writer := t) }
  function Upgraded(tup: Tuple, t: nat): Tuple { tup.(count := -1, readers := tup.readers - {t}, writer := t) }
  function ReadUnlocked(tup: Tuple, t: nat): Tuple { tup.(count := tup.count - 1, readers := tup.readers - {t}) }
  function WriteUnlocked(tup: Tuple): Tuple { tup.(count := tup.count + 1, writer := -1) }

  ghost predicate Begin(s: State, s': State, t: nat)
    requires t < |s.txs|
  {
    s.txs[t].phase.Idle? && s' == SetTx(s, t, Tx(Executing, [], [], [], [], map[]))
  }

  /** read(): the lock of a record met for the first time. */
  ghost predicate Read(s: State, s': State, t: nat, k: Key)
    requires t < |s.txs|
  {
    var tx := s.txs[t];
    && tx.phase.Executing? && k < |s.table| && !HasKey(tx.wset, k) && !ReadsKey(tx.rset, k)
    && s' == if s.table[k].count != -1
             then SetBoth(s, t, tx.(phase := Copying(k), rlocks := tx.rlocks + [k]), k, ReadLocked(s.table[k], t))
             else SetTx(s, t, tx.(phase := Aborting))
  }

  ghost predicate Copy(s: State, s': State, t: nat)
    requires t < |s.txs|
  {
    var tx := s.txs[t];
    && tx.phase.Copying? && tx.phase.key < |s.table|
    && var k := tx.phase.key;
       s' == SetTx(s, t, tx.(phase := Executing, rset := tx.rset + [ReadItem(k, s.table[k].val)],
                             seen := tx.seen[k := s.table[k].val]))
  }

  /** write() and readWrite() of a record already read: the read lock is upgraded. */
  ghost predicate Upgrade(s: State, s': State, t: nat, k: Key, new_: Val)
    requires t < |s.txs|
  {
    var tx := s.txs[t];
    && tx.phase.Executing? && k < |s.table| && !HasKey(tx.wset, k) && ReadsKey(tx.rset, k)
    && s' == if s.table[k].count == 1
             then SetBoth(s, t, tx.(rset := Dropped(tx.rset, k), wset := tx.wset + [WriteItem(k, new_)],
                                    rlocks := Removed(tx.rlocks, k), wlocks := tx.wlocks + [k]),
                          k, Upgraded(s.table[k], t))
             else SetTx(s, t, tx.(phase := Aborting))
  }

  /** write() of a record met for the first time. */
  ghost predicate Write(s: State, s': State, t: nat, k: Key, new_: Val)
    requires t < |s.txs|
  {
    var tx := s.txs[t];
    && tx.phase.Executing? && k < |s.table| && !HasKey(tx.wset, k) && !ReadsKey(tx.rset, k)
    && s' == if s.table[k].count == 0
             then SetBoth(s, t, tx.(wset := tx.wset + [WriteItem(k, new_)], wlocks := tx.wlocks + [k]), k, WriteLocked(s.table[k], t))
             else SetTx(s, t, tx.(phase := Aborting))
  }

  /** readWrite() of a record met for the first time: lock, then copy, then register. */
  ghost predicate ReadWrite(s: State, s': State, t: nat, k: Key, new_: Val)
    requires t < |s.txs|
  {
    var tx := s.txs[t];
    && tx.phase.Executing? && k < |s.table| && !HasKey(tx.wset, k) && !ReadsKey(tx.rset, k)
    && s' == if s.table[k].count == 0
             then SetBoth(s, t, tx.(phase := CopyingForUpdate(k, new_)), k, WriteLocked(s.table[k], t))
             else SetTx(s, t, tx.(phase := Aborting))
  }

  ghost predicate CopyForUpdate(s: State, s': State, t: nat)
    requires t < |s.txs|
  {
    var tx := s.txs[t];
    && tx.phase.CopyingForUpdate? && tx.phase.key < |s.table|
    && var k := tx.phase.key;
       s' == SetTx(s, t, tx.(phase := Executing, wset := tx.wset + [WriteItem(k, tx.phase.new_)],
                             wlocks := tx.wlocks + [k], seen := tx.seen[k := s.table[k].val]))
  }

  ghost predicate Commit(s: State, s': State, t: nat)
    requires t < |s.txs|
  {
    var tx := s.txs[t];
    && tx.phase.Executing? && DistinctKeys(tx.wset)
    && s' == SetTx(s, t, tx.(phase := Storing(0))).(log := s.log + [Txn(tx.seen, WriteMap(tx.wset))])
  }

  ghost predicate Store(s: State, s': State, t: nat)
    requires t < |s.txs|
  {
    var tx := s.txs[t];
    && tx.phase.Storing? && tx.phase.i < |tx.wset| && tx.wset[tx.phase.i].key < |s.table|
    && var item := tx.wset[tx.phase.i];
       s' == SetBoth(s, t, tx.(phase := Storing(tx.phase.i + 1)), item.key, s.table[item.key].(val := item.val))
  }

  ghost predicate Stored(s: State, s': State, t: nat)
    requires t < |s.txs|
  {
    && s.txs[t].phase.Storing? && s.txs[t].phase.i == |s.txs[t].wset|
    && s' == SetTx(s, t, s.txs[t].(phase := Unlocking))
  }

  /** unlockList(), one lock at a time. */
  ghost predicate Unlock(s: State, s': State, t: nat)
    requires t < |s.txs|
  {
    var tx := s.txs[t];
    && (tx.phase.Unlocking? || tx.phase.Aborting?)
    && if tx.rlocks != [] then
         && tx.rlocks[0] < |s.table|
         && s' == SetBoth(s, t, tx.(rlocks := tx.rlocks[1..]), tx.rlocks[0], ReadUnlocked(s.table[tx.rlocks[0]], t))
       else if tx.wlocks != [] then
         && tx.wlocks[0] < |s.table|
         && s' == SetBoth(s, t, tx.(wlocks := tx.wlocks[1..]), tx.wlocks[0], WriteUnlocked(s.table[tx.wlocks[0]]))
       else s' == SetTx(s, t, Tx(Idle, [], [], [], [], map[]))
  }

  ghost predicate AccessStep(s: State, s': State, t: nat)
    requires t < |s.txs|
  {
    || (exists k :: Read(s, s', t, k)) || Copy(s, s', t)
    || (exists k, v :: Upgrade(s, s', t, k, v)) || (exists k, v :: Write(s, s', t, k, v))
    || (exists k, v :: ReadWrite(s, s', t, k, v)) || CopyForUpdate(s, s', t)
  }

  ghost predicate StepBy(s: State, s': State, t: nat) {
    && t < |s.txs|
    && (Begin(s, s', t) || AccessStep(s, s', t) || Commit(s, s', t) || Store(s, s', t) || Stored(s, s', t) || Unlock(s, s', t))
  }

  ghost predicate Next(s: State, s': State) {
    exists t: nat :: StepBy(s, s', t)
  }

  ghost predicate Init(s: State) {
    && (forall k | 0 <= k < |s.table| :: s.table[k] == Tuple(s.table[k].val, 0, {}, -1))
    && (forall t | 0 <= t < |s.txs| :: s.txs[t] == Tx(Idle, [], [], [], [], map[]))
    && s.init == (map k: Key | k < |s.table| :: s.table[k].val) && s.log == []
  }
}
