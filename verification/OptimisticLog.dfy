/** Kung and Robinson's optimistic concurrency control with a garbage-collected log of
    write sets.

    Reads and the choice of the start number race with the writer inside the global lock;
    validation, the log and its garbage collection are confined to that lock.  `log` (the
    committed transactions in number order) and `returning` (the thread has committed
    before) record history only. */
module OptimisticLog {
  import opened SerialExecution
  import opened AccessSets

  datatype ReadItem = ReadItem(key: Key, val: Val)

  datatype Phase =
    | Idle
    | Executing
    | Validating
    | Writing(i: nat)
    | Pushed
    | Numbered
    | Collecting
    | Unlocking

  datatype Tx = Tx(phase: Phase, start: nat, rset: seq<ReadItem>, wset: seq<WriteItem>, returning: bool)

  /** `wsList` holds the write sets numbered `deleted + 1` on; `lock` is the holder of the
      global lock or -1; `threshold` is the number of write sets kept before collecting. */
  datatype State = State(table: seq<Val>, txId: nat, wsList: seq<seq<WriteItem>>, deleted: int, progress: seq<nat>,
                         lock: int, txs: seq<Tx>, threshold: nat, init: map<Key, Val>, log: seq<Txn>)

  predicate ReadsKey(rs: seq<ReadItem>, k: Key) {
    exists j :: 0 <= j < |rs| && rs[j].key == k
  }

  predicate DistinctReads(rs: seq<ReadItem>) {
    forall i, j | 0 <= i < j < |rs| :: rs[i].key != rs[j].key
  }

  function KeysRead(rs: seq<ReadItem>): (s: set<Key>)
    ensures forall k :: k in s <==> ReadsKey(rs, k)
  {
    set j | 0 <= j < |rs| :: rs[j].key
  }

  /** The element for `k`. */
  function ReadOf(rs: seq<ReadItem>, k: Key): (e: ReadItem)
    requires DistinctReads(rs) && ReadsKey(rs, k)
    ensures e in rs && forall j | 0 <= j < |rs| && rs[j].key == k :: rs[j] == e
  {
    var j :| 0 <= j < |rs| && rs[j].key == k;
    rs[j]
  }

  function ReadMap(rs: seq<ReadItem>): map<Key, Val>
    requires DistinctReads(rs)
  {
    map k | k in KeysRead(rs) :: ReadOf(rs, k).val
  }

  /** Some read meets some write. */
  predicate Conflict(rs: seq<ReadItem>, ws: seq<WriteItem>) {
    exists j :: 0 <= j < |rs| && HasKey(ws, rs[j].key)
  }

  function SetTx(s: State, t: nat, tx: Tx): State
    requires t < |s.txs|
  {
    s.(txs := s.txs[t := tx])
  }

  ghost predicate Begin(s: State, s': State, t: nat)
    requires t < |s.txs|
  {
    s.txs[t].phase.Idle? && s' == SetTx(s, t, s.txs[t].(phase := Executing, start := s.txId, rset := [], wset := []))
  }

  ghost predicate Read(s: State, s': State, t: nat, k: Key)
    requires t < |s.txs|
  {
    var tx := s.txs[t];
    && tx.phase.Executing? && k < |s.table| && !ReadsKey(tx.rset, k) && !HasKey(tx.wset, k)
    && s' == SetTx(s, t, tx.(rset := tx.rset + [ReadItem(k, s.table[k])]))
  }

  ghost predicate Write(s: State, s': State, t: nat, k: Key, v: Val)
    requires t < |s.txs|
  {
    var tx := s.txs[t];
    && tx.phase.Executing? && k < |s.table| && !HasKey(tx.wset, k)
    && s' == SetTx(s, t, tx.(wset := tx.wset + [WriteItem(k, v)]))
  }

  ghost predicate TakeLock(s: State, s': State, t: nat)
    requires t < |s.txs|
  {
    s.txs[t].phase.Executing? && s.lock == -1 && s' == SetTx(s, t, s.txs[t].(phase := Validating)).(lock := t)
  }

  /** The entries of the log a transaction that started at `start` is checked against. */
  ghost predicate WindowClear(s: State, rs: seq<ReadItem>, start: nat) {
    forall i | 0 <= i < |s.wsList| && i >= start - (s.deleted + 1) :: !Conflict(rs, s.wsList[i])
  }

  /** The code's window begins at index start - (deleted + 1); when that is negative, what
      it finds there is arbitrary, so the entries that exist are all a pass vouches for. */
  ghost predicate Pass(s: State, s': State, t: nat)
    requires t < |s.txs|
  {
    var tx := s.txs[t];
    && tx.phase.Validating? && WindowClear(s, tx.rset, tx.start) && DistinctReads(tx.rset) && DistinctKeys(tx.wset)
    && s' == SetTx(s, t, tx.(phase := Writing(0))).(log := s.log + [Txn(ReadMap(tx.rset), WriteMap(tx.wset))])
  }

  ghost predicate Fail(s: State, s': State, t: nat)
    requires t < |s.txs|
  {
    var tx := s.txs[t];
    && tx.phase.Validating? && (!WindowClear(s, tx.rset, tx.start) || tx.start < s.deleted + 1)
    && s' == SetTx(s, t, tx.(phase := Unlocking))
  }

  ghost predicate Store(s: State, s': State, t: nat)
    requires t < |s.txs|
  {
    var tx := s.txs[t];
    && tx.phase.Writing? && tx.phase.i < |tx.wset| && tx.wset[tx.phase.i].key < |s.table|
    && s' == SetTx(s, t, tx.(phase := Writing(tx.phase.i + 1))).(table := s.table[tx.wset[tx.phase.i].key := tx.wset[tx.phase.i].val])
  }

  ghost predicate Push(s: State, s': State, t: nat)
    requires t < |s.txs|
  {
    var tx := s.txs[t];
    && tx.phase.Writing? && tx.phase.i == |tx.wset|
    && s' == SetTx(s, t, tx.(phase := Pushed)).(wsList := s.wsList + [tx.wset])
  }

  ghost predicate Number(s: State, s': State, t: nat)
    requires t < |s.txs|
  {
    && s.txs[t].phase.Pushed? && t < |s.progress|
    && s' == SetTx(s, t, s.txs[t].(phase := Numbered, returning := true)).(progress := s.progress[t := s.txId])
  }

  ghost predicate Bump(s: State, s': State, t: nat)
    requires t < |s.txs|
  {
    && s.txs[t].phase.Numbered? && t < |s.progress|
    && s' == SetTx(s, t, s.txs[t].(phase := Collecting)).(txId := s.progress[t] + 1)
  }

  predicate IsLeast(q: seq<nat>, m: nat) {
    m in q && forall x | x in q :: m <= x
  }

  /** Drops the write sets no thread that has committed can still need. */
  ghost predicate Collect(s: State, s': State, t: nat, slowest: nat)
    requires t < |s.txs|
  {
    && s.txs[t].phase.Collecting? && IsLeast(s.progress, slowest)
    && var done := SetTx(s, t, s.txs[t].(phase := Unlocking));
       var n := slowest - s.deleted;
       s' == if |s.wsList| > s.threshold && 0 < n <= |s.wsList| then done.(wsList := s.wsList[n..], deleted := slowest)
             else done
  }

  ghost predicate Unlock(s: State, s': State, t: nat)
    requires t < |s.txs|
  {
    s.txs[t].phase.Unlocking? && s' == SetTx(s, t, s.txs[t].(phase := Idle, rset := [], wset := [])).(lock := -1)
  }

  ghost predicate StepBy(s: State, s': State, t: nat) {
    && t < |s.txs|
    && (|| Begin(s, s', t) || (exists k :: Read(s, s', t, k)) || (exists k, v :: Write(s, s', t, k, v))
        || TakeLock(s, s', t) || Pass(s, s', t) || Fail(s, s', t) || Store(s, s', t) || Push(s, s', t)
        || Number(s, s', t) || Bump(s, s', t) || (exists m :: Collect(s, s', t, m)) || Unlock(s, s', t))
  }

  ghost predicate Next(s: State, s': State) {
    exists t: nat :: StepBy(s, s', t)
  }

  ghost predicate Init(s: State) {
    && s.txId == 0 && s.wsList == [] && s.deleted == -1 && s.lock == -1 && s.log == [] && |s.progress| == |s.txs|
    && s.init == (map k: Key | k < |s.table| :: s.table[k])
    && (forall t | 0 <= t < |s.txs| :: s.txs[t] == Tx(Idle, 0, [], [], false) && s.progress[t] == 0)
  }
}
