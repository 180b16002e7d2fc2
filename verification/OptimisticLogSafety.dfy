/** The trimmed log is the tail of the full one, and validation against it is exact except
    for one case, which is delimited and shown to go wrong. */
module OptimisticLogSafety {
  import opened SerialExecution
  import opened Runs
  import opened AccessSets
  import opened OptimisticLog

  predicate Locked(p: Phase) { !p.Idle? && !p.Executing? }

  /** In the write phase, before the transaction number has moved on. */
  predicate Deciding(p: Phase) { p.Writing? || p.Pushed? || p.Numbered? }

  ghost predicate LogOk(s: State) {
    && -1 <= s.deleted < s.txId
    && |s.log| == s.txId + (if s.lock >= 0 && s.lock < |s.txs| && Deciding(s.txs[s.lock].phase) then 1 else 0)
    && |s.wsList| == s.txId - (s.deleted + 1)
         + (if s.lock >= 0 && s.lock < |s.txs| && (s.txs[s.lock].phase.Pushed? || s.txs[s.lock].phase.Numbered?) then 1 else 0)
    && forall i | 0 <= i < |s.wsList| ::
         DistinctKeys(s.wsList[i]) && s.log[s.deleted + 1 + i].writeSet == WriteMap(s.wsList[i])
  }

  /** A thread's entry trails what it has committed; it starts later than that. */
  ghost predicate ProgressOk(tx: Tx, p: nat, txId: nat, deleted: int) {
    && deleted <= p && (p < txId || p == 0 || (p == txId && tx.phase.Numbered?)) && tx.start <= txId
    && (tx.returning && !tx.phase.Idle? && !tx.phase.Numbered? && !tx.phase.Collecting? && !tx.phase.Unlocking? ==> p < tx.start)
    && (!tx.returning ==> p == 0) && (tx.returning && !tx.phase.Numbered? ==> p < txId)
    && (tx.phase.Numbered? ==> p == txId)
    && (tx.phase.Collecting? ==> p + 1 == txId)
  }

  /** No transaction numbered from `start` on wrote `k`. */
  predicate Untouched(log: seq<Txn>, start: nat, k: Key) {
    forall i | start <= i < |log| :: k !in log[i].writeSet
  }

  /** A read nobody committed since the start overwrote is still the current value. */
  ghost predicate ReadsOk(s: State, tx: Tx) {
    forall j | 0 <= j < |tx.rset| ::
      var r := tx.rset[j];
      r.key < |s.table| && (Untouched(s.log, tx.start, r.key) ==>
        r.key in Replay(s.init, s.log) && Replay(s.init, s.log)[r.key] == r.val)
  }

  ghost predicate TxOk(s: State, t: nat)
    requires t < |s.txs|
  {
    var tx := s.txs[t];
    && (Locked(tx.phase) <==> s.lock == t)
    && DistinctReads(tx.rset) && DistinctKeys(tx.wset)
    && (forall j | 0 <= j < |tx.wset| :: tx.wset[j].key < |s.table|)
    && (tx.phase.Executing? || tx.phase.Validating? ==> ReadsOk(s, tx))
    && (Deciding(tx.phase) ==> |s.log| > 0 && s.log[|s.log| - 1].writeSet == WriteMap(tx.wset))
    && (tx.phase.Writing? ==> tx.phase.i <= |tx.wset|)
    && (tx.phase.Pushed? || tx.phase.Numbered? ==> |s.wsList| > 0 && s.wsList[|s.wsList| - 1] == tx.wset)
  }

  /** The write phase under way has not yet stored item `j`. */
  predicate ToStore(s: State, k: Key, j: nat) {
    && 0 <= s.lock < |s.txs| && s.txs[s.lock].phase.Writing?
    && s.txs[s.lock].phase.i <= j < |s.txs[s.lock].wset| && s.txs[s.lock].wset[j].key == k
  }

  ghost predicate ValueOk(s: State, k: Key)
    requires k < |s.table|
  {
    k in Replay(s.init, s.log) && ((forall j: nat :: !ToStore(s, k, j)) ==> s.table[k] == Replay(s.init, s.log)[k])
  }

  ghost predicate Inv(s: State) {
    && LogOk(s) && |s.progress| == |s.txs| && -1 <= s.lock < |s.txs|
    && (forall t: nat | t < |s.txs| :: TxOk(s, t) && ProgressOk(s.txs[t], s.progress[t], s.txId, s.deleted))
    && (forall k: Key | k < |s.table| :: ValueOk(s, k))
  }

  /** Only thread `t` and perhaps one payload change. */
  ghost predicate Frame(s: State, s': State, t: nat) {
    && t < |s.txs| && |s'.txs| == |s.txs| && s'.txs == s.txs[t := s'.txs[t]] && |s'.table| == |s.table|
    && s'.threshold == s.threshold && s'.init == s.init
  }

  lemma ReadsKept(s: State, s': State, tx: Tx)
    requires ReadsOk(s, tx) && s'.init == s.init && |s'.table| == |s.table| && tx.start <= |s.log|
    requires s'.log == s.log || (|s'.log| == |s.log| + 1 && s'.log[..|s.log|] == s.log)
    ensures ReadsOk(s', tx)
  {
    forall j | 0 <= j < |tx.rset| && Untouched(s'.log, tx.start, tx.rset[j].key)
      ensures tx.rset[j].key in Replay(s'.init, s'.log) && Replay(s'.init, s'.log)[tx.rset[j].key] == tx.rset[j].val
    {
      var k := tx.rset[j].key;
      forall i | tx.start <= i < |s.log| ensures k !in s.log[i].writeSet {
        assert s.log[i] == s'.log[i];
      }
      assert Untouched(s.log, tx.start, k);
    }
  }

  lemma OtherKept(s: State, s': State, t: nat, u: nat)
    requires Inv(s) && Frame(s, s', t) && u < |s.txs| && u != t
    requires s'.log == s.log || (|s'.log| == |s.log| + 1 && s'.log[..|s.log|] == s.log)
    requires s'.lock == s.lock || (s.lock == -1 && s'.lock == t) || (s.lock == t && s'.lock == -1)
    requires s.lock == u ==> s'.log == s.log && s'.wsList == s.wsList
    ensures TxOk(s', u)
  {
    assert TxOk(s, u) && ProgressOk(s.txs[u], s.progress[u], s.txId, s.deleted);
    if s.txs[u].phase.Executing? || s.txs[u].phase.Validating? {
      ReadsKept(s, s', s.txs[u]);
    }
  }

  /** Steps that leave the table, the log and the numbers alone. */
  lemma LocalKeeps(s: State, s': State, t: nat)
    requires Inv(s) && Frame(s, s', t)
    requires s'.table == s.table && s'.log == s.log && s'.wsList == s.wsList && s'.deleted == s.deleted && s'.txId == s.txId
    requires s'.progress == s.progress
    requires s'.lock == s.lock || (s.lock == -1 && s'.lock == t) || (s.lock == t && s'.lock == -1)
    requires !Deciding(s.txs[t].phase) && !Deciding(s'.txs[t].phase)
    requires TxOk(s', t) && ProgressOk(s'.txs[t], s.progress[t], s.txId, s.deleted)
    ensures Inv(s')
  {
    forall u: nat | u < |s'.txs| ensures TxOk(s', u) {
      if u != t {
        OtherKept(s, s', t, u);
      }
    }
    forall k: Key | k < |s'.table| ensures ValueOk(s', k) {
      assert ValueOk(s, k);
      if forall j: nat :: !ToStore(s', k, j) {
        forall j: nat ensures !ToStore(s, k, j) {
          assert !ToStore(s', k, j);
          if s.lock >= 0 && s.lock != t {
            assert TxOk(s, s.lock);
          }
        }
      }
    }
  }

  lemma BeginKeeps(s: State, s': State, t: nat)
    requires Inv(s) && t < |s.txs| && Begin(s, s', t)
    ensures Inv(s')
  {
    assert TxOk(s, t) && ProgressOk(s.txs[t], s.progress[t], s.txId, s.deleted);
    LocalKeeps(s, s', t);
  }

  /** A read of a record nobody is writing gets the current value. */
  lemma ReadValue(s: State, t: nat, k: Key)
    requires Inv(s) && t < |s.txs| && s.txs[t].phase.Executing? && k < |s.table| && Untouched(s.log, s.txs[t].start, k)
    ensures k in Replay(s.init, s.log) && s.table[k] == Replay(s.init, s.log)[k]
  {
    assert ValueOk(s, k) && ProgressOk(s.txs[t], s.progress[t], s.txId, s.deleted);
    if s.lock >= 0 {
      assert TxOk(s, s.lock);
    }
    assert forall j: nat :: !ToStore(s, k, j);
  }

  lemma ReadKeeps(s: State, s': State, t: nat, k: Key)
    requires Inv(s) && t < |s.txs| && Read(s, s', t, k)
    ensures Inv(s')
  {
    var tx, tx' := s.txs[t], s'.txs[t];
    assert TxOk(s, t) && ProgressOk(tx, s.progress[t], s.txId, s.deleted);
    if Untouched(s.log, tx.start, k) {
      ReadValue(s, t, k);
    }
    assert ReadsOk(s', tx');
    LocalKeeps(s, s', t);
  }

  lemma WriteKeeps(s: State, s': State, t: nat, k: Key, v: Val)
    requires Inv(s) && t < |s.txs| && Write(s, s', t, k, v)
    ensures Inv(s')
  {
    var tx, tx' := s.txs[t], s'.txs[t];
    assert TxOk(s, t) && ProgressOk(tx, s.progress[t], s.txId, s.deleted);
    ReadsKept(s, s', tx);
    forall j | 0 <= j < |tx.wset| ensures tx.wset[j].key != k {
      assert HasKey(tx.wset, tx.wset[j].key);
    }
    assert ReadsOk(s', tx');
    LocalKeeps(s, s', t);
  }

  lemma LockStepKeeps(s: State, s': State, t: nat)
    requires Inv(s) && t < |s.txs| && (TakeLock(s, s', t) || Fail(s, s', t) || Unlock(s, s', t))
    ensures Inv(s')
  {
    assert TxOk(s, t) && ProgressOk(s.txs[t], s.progress[t], s.txId, s.deleted);
    if TakeLock(s, s', t) {
      ReadsKept(s, s', s.txs[t]);
      assert ReadsOk(s', s'.txs[t]);
    }
    LocalKeeps(s, s', t);
  }

  // ------------------------------------------------------------- write phase

  lemma PassTxs(s: State, s': State, t: nat)
    requires Inv(s) && t < |s.txs| && Pass(s, s', t)
    ensures forall u: nat | u < |s'.txs| :: TxOk(s', u) && ProgressOk(s'.txs[u], s'.progress[u], s'.txId, s'.deleted)
  {
    assert s'.log[..|s.log|] == s.log;
    assert TxOk(s, t) && ProgressOk(s.txs[t], s.progress[t], s.txId, s.deleted);
    forall u: nat | u < |s'.txs| ensures TxOk(s', u) && ProgressOk(s'.txs[u], s'.progress[u], s'.txId, s'.deleted) {
      if u != t {
        OtherKept(s, s', t, u);
      }
    }
  }

  lemma PassValue(s: State, s': State, t: nat, k: Key)
    requires Inv(s) && t < |s.txs| && Pass(s, s', t) && k < |s.table|
    ensures ValueOk(s', k)
  {
    var ws := s.txs[t].wset;
    assert TxOk(s, t) && ValueOk(s, k);
    assert s'.log[..|s.log|] == s.log;
    assert Replay(s'.init, s'.log) == Replay(s.init, s.log) + WriteMap(ws);
    if HasKey(ws, k) {
      var j: nat :| j < |ws| && ws[j].key == k;
      assert ToStore(s', k, j);
    } else {
      assert forall j: nat :: !ToStore(s, k, j);
    }
  }

  lemma PassKeeps(s: State, s': State, t: nat)
    requires Inv(s) && t < |s.txs| && Pass(s, s', t)
    ensures Inv(s')
  {
    PassTxs(s, s', t);
    assert TxOk(s, t);
    forall k: Key | k < |s'.table| ensures ValueOk(s', k) {
      PassValue(s, s', t, k);
    }
    PassLog(s, s', t);
  }

  lemma PassLog(s: State, s': State, t: nat)
    requires Inv(s) && t < |s.txs| && Pass(s, s', t)
    ensures LogOk(s')
  {
    assert TxOk(s, t);
    forall i | 0 <= i < |s.wsList| ensures s'.log[s.deleted + 1 + i].writeSet == WriteMap(s.wsList[i]) {
      assert s'.log[s.deleted + 1 + i] == s.log[s.deleted + 1 + i];
    }
  }

  lemma StoredItem(init: map<Key, Val>, log: seq<Txn>, ws: seq<WriteItem>, i: nat)
    requires log != [] && DistinctKeys(ws) && log[|log| - 1].writeSet == WriteMap(ws) && i < |ws|
    ensures ws[i].key in Replay(init, log) && Replay(init, log)[ws[i].key] == ws[i].val
  {
    assert ws[i].key in WriteMap(ws);
  }

  lemma StoreThis(s: State, s': State, t: nat, k: Key)
    requires t < |s.txs| && Store(s, s', t) && k < |s.table| && TxOk(s, t)
    requires k == s.txs[t].wset[s.txs[t].phase.i].key
    ensures ValueOk(s', k)
  {
    StoredItem(s.init, s.log, s.txs[t].wset, s.txs[t].phase.i);
  }

  lemma StoreOther(s: State, s': State, t: nat, k: Key)
    requires t < |s.txs| && Store(s, s', t) && k < |s.table| && s.lock == t && ValueOk(s, k)
    requires k != s.txs[t].wset[s.txs[t].phase.i].key
    ensures ValueOk(s', k)
  {
    if forall j: nat :: !ToStore(s', k, j) {
      forall j: nat ensures !ToStore(s, k, j) {
        assert !ToStore(s', k, j);
      }
    }
  }

  lemma StoreKeeps(s: State, s': State, t: nat)
    requires Inv(s) && t < |s.txs| && Store(s, s', t)
    ensures Inv(s')
  {
    assert TxOk(s, t) && ProgressOk(s.txs[t], s.progress[t], s.txId, s.deleted);
    forall u: nat | u < |s'.txs| ensures TxOk(s', u) {
      if u != t {
        OtherKept(s, s', t, u);
      }
    }
    forall k: Key | k < |s'.table| ensures ValueOk(s', k) {
      if k == s.txs[t].wset[s.txs[t].phase.i].key {
        StoreThis(s, s', t, k);
      } else {
        StoreOther(s, s', t, k);
      }
    }
  }

  /** After the last store nothing is left to store. */
  lemma StoredValue(s: State, s': State, t: nat, k: Key)
    requires Inv(s) && Frame(s, s', t) && k < |s.table| && s'.table == s.table && s'.log == s.log && s.lock == t && s'.lock == t
    requires s.txs[t].phase.Writing? ==> s.txs[t].phase.i == |s.txs[t].wset|
    requires !s'.txs[t].phase.Writing?
    ensures ValueOk(s', k)
  {
    assert ValueOk(s, k);
    assert forall j: nat :: !ToStore(s, k, j);
  }

  lemma PushTxs(s: State, s': State, t: nat)
    requires Inv(s) && t < |s.txs| && Push(s, s', t)
    ensures forall u: nat | u < |s'.txs| :: TxOk(s', u)
  {
    assert TxOk(s, t);
    forall u: nat | u < |s'.txs| ensures TxOk(s', u) {
      if u != t {
        OtherKept(s, s', t, u);
      }
    }
  }

  lemma PushKeeps(s: State, s': State, t: nat)
    requires Inv(s) && t < |s.txs| && Push(s, s', t)
    ensures Inv(s')
  {
    assert TxOk(s, t) && ProgressOk(s.txs[t], s.progress[t], s.txId, s.deleted);
    PushTxs(s, s', t);
    PushLog(s, s', t);
    forall k: Key | k < |s'.table| ensures ValueOk(s', k) {
      StoredValue(s, s', t, k);
    }
  }

  lemma PushLog(s: State, s': State, t: nat)
    requires LogOk(s) && t < |s.txs| && Push(s, s', t) && TxOk(s, t)
    ensures LogOk(s')
  {
  }

  lemma NumberedTxs(s: State, s': State, t: nat)
    requires Inv(s) && t < |s.txs| && (Number(s, s', t) || Bump(s, s', t))
    ensures forall u: nat | u < |s'.txs| && u != t :: TxOk(s', u) && ProgressOk(s'.txs[u], s'.progress[u], s'.txId, s'.deleted)
  {
    assert TxOk(s, t) && ProgressOk(s.txs[t], s.progress[t], s.txId, s.deleted);
    forall u: nat | u < |s'.txs| && u != t ensures TxOk(s', u) && ProgressOk(s'.txs[u], s'.progress[u], s'.txId, s'.deleted) {
      OtherKept(s, s', t, u);
      assert TxOk(s, u) && ProgressOk(s.txs[u], s.progress[u], s.txId, s.deleted);
    }
  }

  lemma NumberedValues(s: State, s': State, t: nat)
    requires Inv(s) && t < |s.txs| && (Number(s, s', t) || Bump(s, s', t))
    ensures forall k: Key | k < |s'.table| :: ValueOk(s', k)
  {
    assert TxOk(s, t);
    forall k: Key | k < |s'.table| ensures ValueOk(s', k) {
      StoredValue(s, s', t, k);
    }
  }

  lemma NumberKeeps(s: State, s': State, t: nat)
    requires Inv(s) && t < |s.txs| && (Number(s, s', t) || Bump(s, s', t))
    ensures Inv(s')
  {
    assert TxOk(s, t) && ProgressOk(s.txs[t], s.progress[t], s.txId, s.deleted);
    NumberedTxs(s, s', t);
    NumberedValues(s, s', t);
    assert TxOk(s', t) && ProgressOk(s'.txs[t], s'.progress[t], s'.txId, s'.deleted);
  }

  /** What is dropped is there to be dropped. */
  lemma CollectInRange(s: State, t: nat, slowest: nat)
    requires Inv(s) && t < |s.txs| && s.txs[t].phase.Collecting? && IsLeast(s.progress, slowest)
    ensures slowest - s.deleted <= |s.wsList|
    ensures forall u: nat | u < |s.txs| :: slowest <= s.progress[u]
    ensures s.deleted <= slowest < s.txId
  {
    assert TxOk(s, t) && ProgressOk(s.txs[t], s.progress[t], s.txId, s.deleted);
    assert s.progress[t] in s.progress;
    var u :| 0 <= u < |s.progress| && s.progress[u] == slowest;
    assert ProgressOk(s.txs[u], s.progress[u], s.txId, s.deleted);
    forall v: nat | v < |s.txs| ensures slowest <= s.progress[v] {
      assert s.progress[v] in s.progress;
    }
  }

  lemma CollectProgress(s: State, s': State, t: nat, slowest: nat, u: nat)
    requires t < |s.txs| && Collect(s, s', t, slowest) && u < |s.txs| && |s.progress| == |s.txs|
    requires ProgressOk(s.txs[u], s.progress[u], s.txId, s.deleted) && slowest <= s.progress[u]
    ensures ProgressOk(s'.txs[u], s'.progress[u], s'.txId, s'.deleted)
  {
  }

  lemma CollectOwn(s: State, s': State, t: nat, slowest: nat)
    requires t < |s.txs| && Collect(s, s', t, slowest) && TxOk(s, t)
    ensures TxOk(s', t)
  {
  }

  lemma CollectTxs(s: State, s': State, t: nat, slowest: nat)
    requires Inv(s) && t < |s.txs| && Collect(s, s', t, slowest) && forall u: nat | u < |s.txs| :: slowest <= s.progress[u]
    ensures forall u: nat | u < |s'.txs| :: TxOk(s', u) && ProgressOk(s'.txs[u], s'.progress[u], s'.txId, s'.deleted)
  {
    CollectOwn(s, s', t, slowest);
    forall u: nat | u < |s'.txs| ensures TxOk(s', u) && ProgressOk(s'.txs[u], s'.progress[u], s'.txId, s'.deleted) {
      CollectProgress(s, s', t, slowest, u);
      if u != t {
        assert TxOk(s, t);
        OtherKept(s, s', t, u);
      }
    }
  }

  lemma CollectLog(s: State, s': State, t: nat, slowest: nat)
    requires LogOk(s) && t < |s.txs| && Collect(s, s', t, slowest) && s.lock == t
    requires s.deleted <= slowest < s.txId && slowest - s.deleted <= |s.wsList|
    ensures LogOk(s')
  {
    var n := slowest - s.deleted;
    if s'.deleted != s.deleted {
      forall i | 0 <= i < |s'.wsList| ensures DistinctKeys(s'.wsList[i]) && s'.log[slowest + 1 + i].writeSet == WriteMap(s'.wsList[i]) {
        assert s'.wsList[i] == s.wsList[n + i];
      }
    }
  }

  lemma CollectKeeps(s: State, s': State, t: nat, slowest: nat)
    requires Inv(s) && t < |s.txs| && Collect(s, s', t, slowest)
    ensures Inv(s')
  {
    CollectInRange(s, t, slowest);
    assert TxOk(s, t);
    CollectTxs(s, s', t, slowest);
    CollectLog(s, s', t, slowest);
    forall k: Key | k < |s'.table| ensures ValueOk(s', k) {
      StoredValue(s, s', t, k);
    }
  }

  lemma StepKeeps(s: State, s': State, t: nat)
    requires Inv(s) && StepBy(s, s', t)
    ensures Inv(s')
  {
    if Begin(s, s', t) {
      BeginKeeps(s, s', t);
    } else if TakeLock(s, s', t) || Fail(s, s', t) || Unlock(s, s', t) {
      LockStepKeeps(s, s', t);
    } else if Pass(s, s', t) {
      PassKeeps(s, s', t);
    } else if Store(s, s', t) {
      StoreKeeps(s, s', t);
    } else if Push(s, s', t) {
      PushKeeps(s, s', t);
    } else if Number(s, s', t) || Bump(s, s', t) {
      NumberKeeps(s, s', t);
    } else if k: Key :| Read(s, s', t, k) {
      ReadKeeps(s, s', t, k);
    } else if k: Key, v: Val :| Write(s, s', t, k, v) {
      WriteKeeps(s, s', t, k, v);
    } else {
      var m: nat :| Collect(s, s', t, m);
      CollectKeeps(s, s', t, m);
    }
  }

  lemma StepKeepsInv(s: State, s': State)
    requires Inv(s) && Next(s, s')
    ensures Inv(s')
  {
    var t: nat :| StepBy(s, s', t);
    StepKeeps(s, s', t);
  }

  lemma InitEstablishes(s: State)
    requires Init(s)
    ensures Inv(s)
  {
  }

  lemma RunKeepsInv(run: seq<State>, i: nat)
    requires IsRun(run, Init, Next) && i < |run|
    ensures Inv(run[i])
  {
    forall s | Init(s) ensures Inv(s) {
      InitEstablishes(s);
    }
    forall s, s' | Inv(s) && Next(s, s') ensures Inv(s') {
      StepKeepsInv(s, s');
    }
    Invariant(run, Init, Next, Inv, i);
  }

  // ---------------------------------------------------------------- theorems

  /** In every reachable state the kept write sets are the committed ones numbered
      `deleted + 1` on, each in its place. */
  lemma LogIsSuffix(run: seq<State>, i: nat, n: nat)
    requires IsRun(run, Init, Next) && i < |run| && n < |run[i].wsList|
    ensures 0 <= run[i].deleted + 1 + n < |run[i].log| && DistinctKeys(run[i].wsList[n])
    ensures run[i].log[run[i].deleted + 1 + n].writeSet == WriteMap(run[i].wsList[n])
  {
    RunKeepsInv(run, i);
  }

  /** The transaction's window does not reach below the log. */
  predicate Reaches(s: State, tx: Tx) { tx.start >= s.deleted + 1 }

  lemma MissedWindow(s: State, t: nat)
    requires Inv(s) && t < |s.txs| && s.txs[t].phase.Validating? && !Reaches(s, s.txs[t])
    ensures !s.txs[t].returning && s.txs[t].start == 0 && s.deleted == 0 && |s.log| > 0 && |s.wsList| == |s.log| - 1
  {
    assert TxOk(s, t) && ProgressOk(s.txs[t], s.progress[t], s.txId, s.deleted);
  }

  /** Only the first transaction of a thread, begun before anything committed, can have
      lost the beginning of its window. */
  lemma OnlyFirstTransactionsMiss(run: seq<State>, i: nat, t: nat)
    requires IsRun(run, Init, Next) && i < |run| && t < |run[i].txs| && run[i].txs[t].phase.Validating?
    ensures !Reaches(run[i], run[i].txs[t]) ==>
              !run[i].txs[t].returning && run[i].txs[t].start == 0 && run[i].deleted == 0
  {
    RunKeepsInv(run, i);
    if !Reaches(run[i], run[i].txs[t]) {
      MissedWindow(run[i], t);
    }
  }

  /** The committed transactions numbered from `start` on write nothing that was read. */
  ghost predicate FullWindowClear(log: seq<Txn>, rs: seq<ReadItem>, start: nat) {
    forall i, j | start <= i < |log| && 0 <= j < |rs| :: rs[j].key !in log[i].writeSet
  }

  /** A write set kept in the log is checked exactly as its transaction in the full log. */
  lemma KeptCheck(s: State, rs: seq<ReadItem>, n: nat)
    requires LogOk(s) && n < |s.wsList|
    ensures Conflict(rs, s.wsList[n]) <==> MeetsWrites(rs, s.log[s.deleted + 1 + n].writeSet)
  {
    assert s.log[s.deleted + 1 + n].writeSet == WriteMap(s.wsList[n]);
  }

  /** Some record read is written in `ws`. */
  predicate MeetsWrites(rs: seq<ReadItem>, ws: map<Key, Val>) {
    exists j :: 0 <= j < |rs| && rs[j].key in ws
  }

  lemma FullWindowByEntry(log: seq<Txn>, rs: seq<ReadItem>, start: nat)
    ensures FullWindowClear(log, rs, start) <==> forall i | start <= i < |log| :: !MeetsWrites(rs, log[i].writeSet)
  {
    if forall i | start <= i < |log| :: !MeetsWrites(rs, log[i].writeSet) {
      forall i, j | start <= i < |log| && 0 <= j < |rs| ensures rs[j].key !in log[i].writeSet {
        assert !MeetsWrites(rs, log[i].writeSet);
      }
    }
  }

  /** For a window the log still covers, checking the trimmed log is checking the full one:
      exactly the transactions numbered from the start on. */
  lemma CoveredWindowExact(s: State, rs: seq<ReadItem>, start: nat)
    requires LogOk(s) && |s.wsList| == |s.log| - (s.deleted + 1) && start >= s.deleted + 1
    ensures WindowClear(s, rs, start) <==> FullWindowClear(s.log, rs, start)
  {
    FullWindowByEntry(s.log, rs, start);
    if WindowClear(s, rs, start) {
      forall i | start <= i < |s.log| ensures !MeetsWrites(rs, s.log[i].writeSet) {
        KeptCheck(s, rs, i - (s.deleted + 1));
      }
    }
    if FullWindowClear(s.log, rs, start) {
      forall n: nat | n < |s.wsList| && n >= start - (s.deleted + 1) ensures !Conflict(rs, s.wsList[n]) {
        KeptCheck(s, rs, n);
      }
    }
  }

  lemma TrimmedCheckIsExact(s: State, t: nat)
    requires Inv(s) && t < |s.txs| && s.txs[t].phase.Validating? && Reaches(s, s.txs[t])
    ensures WindowClear(s, s.txs[t].rset, s.txs[t].start) <==> FullWindowClear(s.log, s.txs[t].rset, s.txs[t].start)
  {
    assert TxOk(s, t);
    CoveredWindowExact(s, s.txs[t].rset, s.txs[t].start);
  }

  /** Some write set kept in the log meets the reads. */
  predicate MeetsKept(s: State, rs: seq<ReadItem>) {
    exists n :: 0 <= n < |s.wsList| && Conflict(rs, s.wsList[n])
  }

  /** With only transaction 0 dropped, a check from the very start misses that one. */
  lemma FirstDropped(s: State, rs: seq<ReadItem>)
    requires LogOk(s) && s.deleted == 0 && |s.wsList| == |s.log| - 1
    ensures WindowClear(s, rs, 0) <==> !MeetsKept(s, rs)
    ensures FullWindowClear(s.log, rs, 0) <==> !MeetsKept(s, rs) && !MeetsWrites(rs, s.log[0].writeSet)
  {
    FullWindowByEntry(s.log, rs, 0);
    forall n: nat | n < |s.wsList| ensures Conflict(rs, s.wsList[n]) <==> MeetsWrites(rs, s.log[n + 1].writeSet) {
      KeptCheck(s, rs, n);
    }
    if !MeetsKept(s, rs) && !MeetsWrites(rs, s.log[0].writeSet) {
      forall i | 0 <= i < |s.log| ensures !MeetsWrites(rs, s.log[i].writeSet) {
        if i > 0 {
          assert !Conflict(rs, s.wsList[i - 1]);
        }
      }
    }
  }

  /** The window reaches back far enough, or transaction 0, which alone is missing from it,
      wrote nothing that was read, or a write set still kept did. */
  predicate Covered(s: State, tx: Tx) {
    Reaches(s, tx) || (|s.log| > 0 && (MeetsWrites(tx.rset, s.log[0].writeSet) ==> MeetsKept(s, tx.rset)))
  }

  lemma ExactIffCovered(s: State, t: nat)
    requires Inv(s) && t < |s.txs| && s.txs[t].phase.Validating?
    ensures var tx := s.txs[t];
            (WindowClear(s, tx.rset, tx.start) <==> FullWindowClear(s.log, tx.rset, tx.start)) <==> Covered(s, tx)
  {
    if Reaches(s, s.txs[t]) {
      TrimmedCheckIsExact(s, t);
    } else {
      MissedWindow(s, t);
      FirstDropped(s, s.txs[t].rset);
    }
  }

  /** In every reachable state, the check of a validating transaction against the trimmed log
      agrees with the check against the full one if and only if it is covered. */
  lemma TrimmedCheckExactIff(run: seq<State>, i: nat, t: nat)
    requires IsRun(run, Init, Next) && i < |run| && t < |run[i].txs| && run[i].txs[t].phase.Validating?
    ensures var s := run[i]; var tx := s.txs[t];
            (WindowClear(s, tx.rset, tx.start) <==> FullWindowClear(s.log, tx.rset, tx.start)) <==> Covered(s, tx)
  {
    RunKeepsInv(run, i);
    ExactIffCovered(run[i], t);
  }

  /** The same of every reachable state, for a window that reaches. */
  lemma ReachingCheckIsExact(run: seq<State>, i: nat, t: nat)
    requires IsRun(run, Init, Next) && i < |run| && t < |run[i].txs| && run[i].txs[t].phase.Validating?
    requires Reaches(run[i], run[i].txs[t])
    ensures WindowClear(run[i], run[i].txs[t].rset, run[i].txs[t].start)
            <==> FullWindowClear(run[i].log, run[i].txs[t].rset, run[i].txs[t].start)
  {
    RunKeepsInv(run, i);
    TrimmedCheckIsExact(run[i], t);
  }

  /** A covered transaction whose window is clear has read the current state. */
  lemma PassIsSerial(s: State, s': State, t: nat)
    requires Inv(s) && t < |s.txs| && Pass(s, s', t) && Covered(s, s.txs[t]) && SerialRun(s.init, s.log)
    ensures SerialRun(s'.init, s'.log)
  {
    var tx := s.txs[t];
    assert TxOk(s, t);
    ExactIffCovered(s, t);
    forall k | k in ReadMap(tx.rset) ensures k in Replay(s.init, s.log) && Replay(s.init, s.log)[k] == ReadMap(tx.rset)[k] {
      var j: nat :| j < |tx.rset| && tx.rset[j].key == k;
      assert Untouched(s.log, tx.start, tx.rset[j].key);
    }
    AppendRun(s.init, s.log, Txn(ReadMap(tx.rset), WriteMap(tx.wset)));
  }

  /** Steps in which nobody passes validation without being covered. */
  ghost predicate CoveredNext(s: State, s': State) {
    Next(s, s') && forall t: nat | t < |s.txs| && Pass(s, s', t) :: Covered(s, s.txs[t])
  }

  ghost predicate SerialInv(s: State) { Inv(s) && SerialRun(s.init, s.log) }

  lemma OtherStepsKeepLog(s: State, s': State, t: nat)
    requires StepBy(s, s', t) && !Pass(s, s', t)
    ensures s'.log == s.log && s'.init == s.init
  {
  }

  lemma StepKeepsSerial(s: State, s': State)
    requires SerialInv(s) && CoveredNext(s, s')
    ensures SerialInv(s')
  {
    var t: nat :| StepBy(s, s', t);
    StepKeeps(s, s', t);
    if Pass(s, s', t) {
      PassIsSerial(s, s', t);
    } else {
      OtherStepsKeepLog(s, s', t);
    }
  }

  lemma StepKeepsStart(s: State, s': State, t: nat)
    requires StepBy(s, s', t)
    ensures s'.init == s.init
  {
  }

  lemma {:induction false} StartKept(run: seq<State>, i: nat)
    requires IsRun(run, Init, Next) && i < |run|
    ensures run[i].init == run[0].init
  {
    if i > 0 {
      StartKept(run, i - 1);
      assert Next(run[i - 1], run[i]);
      var t: nat :| StepBy(run[i - 1], run[i], t);
      StepKeepsStart(run[i - 1], run[i], t);
    }
  }

  lemma CoveredRun(run: seq<State>)
    requires IsRun(run, Init, CoveredNext)
    ensures IsRun(run, Init, Next)
  {
    forall i | 0 < i < |run| ensures Next(run[i - 1], run[i]) {
      assert CoveredNext(run[i - 1], run[i]);
    }
  }

  /** As long as every transaction that passes is covered, the committed transactions are
      serializable in transaction-number order. */
  lemma SerializableInNumberOrder(run: seq<State>, i: nat)
    requires IsRun(run, Init, CoveredNext) && i < |run|
    ensures run[i].init == run[0].init && SerialRun(run[0].init, run[i].log)
  {
    CoveredRun(run);
    StartKept(run, i);
    forall s | Init(s) ensures SerialInv(s) {
      InitEstablishes(s);
    }
    forall s, s' | SerialInv(s) && CoveredNext(s, s') ensures SerialInv(s') {
      StepKeepsSerial(s, s');
    }
    Invariant(run, Init, CoveredNext, SerialInv, i);
  }

  /** With nobody in the write phase, the table is what the committed transactions leave when
      replayed in number order. */
  lemma TableIsReplay(run: seq<State>, i: nat, k: Key)
    requires IsRun(run, Init, Next) && i < |run| && k < |run[i].table|
    requires forall t | 0 <= t < |run[i].txs| :: !run[i].txs[t].phase.Writing?
    ensures k in Replay(run[0].init, run[i].log) && run[i].table[k] == Replay(run[0].init, run[i].log)[k]
  {
    RunKeepsInv(run, i);
    StartKept(run, i);
    assert ValueOk(run[i], k);
    assert forall j: nat :: !ToStore(run[i], k, j);
  }
}
