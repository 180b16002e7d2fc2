/** Strict two-phase locking keeps its counters right and is serializable in commit order. */
module StrictLockingSafety {
  import opened SerialExecution
  import opened Runs
  import opened AccessSets
  import opened KeyLists
  import opened StrictLocking

  /** The counter is -1 exactly when one transaction holds the lock for writing, and
      otherwise the number of transactions holding it for reading. */
  ghost predicate TupleOk(tup: Tuple, n: nat) {
    && (forall r | r in tup.readers :: r < n) && -1 <= tup.writer < n
    && (tup.writer >= 0 ==> tup.readers == {})
    && tup.count == (if tup.writer >= 0 then -1 else |tup.readers|)
  }

  /** Keys whose write lock the transaction holds. */
  predicate HoldsWrite(tx: Tx, k: Key) {
    k in tx.wlocks || (tx.phase.CopyingForUpdate? && tx.phase.key == k)
  }

  ghost predicate LinkOk(table: seq<Tuple>, tx: Tx, t: nat) {
    && (forall k | 0 <= k < |table| ::
          && (t in table[k].readers <==> k in tx.rlocks) && (table[k].writer == t <==> HoldsWrite(tx, k)))
    && (forall k | k in tx.rlocks :: k < |table|)
    && (forall k | k in tx.wlocks :: k < |table|) && (tx.phase.CopyingForUpdate? ==> tx.phase.key < |table|)
  }

  predicate DistinctReads(rs: seq<ReadItem>) {
    forall i, j | 0 <= i < j < |rs| :: rs[i].key != rs[j].key
  }

  ghost predicate ListsOk(tx: Tx) {
    && Distinct(tx.rlocks) && Distinct(tx.wlocks) && DistinctReads(tx.rset) && DistinctKeys(tx.wset)
    && (forall k | k in tx.rlocks :: !HoldsWrite(tx, k))
    && (tx.phase.CopyingForUpdate? ==> tx.phase.key !in tx.wlocks)
  }

  predicate Acting(p: Phase) { p.Executing? || p.Copying? || p.CopyingForUpdate? }

  /** The sets and the lock lists name the same records. */
  ghost predicate SetsOk(tx: Tx) {
    && (Acting(tx.phase) ==>
          && (forall k :: k in tx.rlocks <==> ReadsKey(tx.rset, k) || (tx.phase.Copying? && tx.phase.key == k))
          && (forall k :: k in tx.wlocks <==> HasKey(tx.wset, k)))
    && (tx.phase.Copying? ==> !ReadsKey(tx.rset, tx.phase.key))
    && (tx.phase.Storing? ==> tx.phase.i <= |tx.wset| && forall k :: k in tx.wlocks <==> HasKey(tx.wset, k))
    && (tx.phase.Idle? ==> tx.rlocks == [] && tx.wlocks == [])
  }

  ghost predicate TxInv(table: seq<Tuple>, tx: Tx, t: nat) {
    LinkOk(table, tx, t) && ListsOk(tx) && SetsOk(tx)
  }

  /** What an undecided transaction has seen is locked and still there. */
  ghost predicate SeenOk(table: seq<Tuple>, tx: Tx) {
    Acting(tx.phase) ==>
      forall k | k in tx.seen :: k < |table| && (k in tx.rlocks || HoldsWrite(tx, k)) && table[k].val == tx.seen[k]
  }

  /** Write item `j` is recorded and still to be stored. */
  predicate ToStore(tx: Tx, k: Key, j: nat) {
    tx.phase.Storing? && tx.phase.i <= j < |tx.wset| && tx.wset[j].key == k
  }

  /** The table is what the committed transactions left, but for stores still to come. */
  ghost predicate ValueOk(tup: Tuple, txs: seq<Tx>, k: Key, serial: map<Key, Val>) {
    && k in serial
    && if tup.writer >= 0 && tup.writer < |txs| && exists j: nat :: ToStore(txs[tup.writer], k, j)
       then forall j: nat | ToStore(txs[tup.writer], k, j) :: serial[k] == txs[tup.writer].wset[j].val
       else tup.val == serial[k]
  }

  ghost predicate Inv(s: State) {
    && (forall k | 0 <= k < |s.table| :: TupleOk(s.table[k], |s.txs|))
    && (forall t | 0 <= t < |s.txs| :: TxInv(s.table, s.txs[t], t) && SeenOk(s.table, s.txs[t]))
    && (forall k: Key | k < |s.table| :: ValueOk(s.table[k], s.txs, k, Replay(s.init, s.log)))
    && SerialRun(s.init, s.log)
  }

  ghost predicate Touches(s: State, s': State, t: nat, k: Key) {
    && t < |s.txs| && |s'.txs| == |s.txs| && s'.txs == s.txs[t := s'.txs[t]]
    && k < |s.table| && |s'.table| == |s.table| && s'.table == s.table[k := s'.table[k]]
    && s'.init == s.init && s'.log == s.log
  }

  ghost predicate SameFor(a: Tuple, b: Tuple, u: nat) {
    (u in b.readers <==> u in a.readers) && (b.writer == u <==> a.writer == u)
  }

  lemma OtherKept(s: State, s': State, t: nat, k: Key, u: nat)
    requires Inv(s) && Touches(s, s', t, k) && u < |s.txs| && u != t && SameFor(s.table[k], s'.table[k], u)
    requires s'.table[k].val == s.table[k].val || s.table[k].writer == t
    ensures TxInv(s'.table, s'.txs[u], u) && SeenOk(s'.table, s'.txs[u])
  {
    assert TxInv(s.table, s.txs[u], u) && SeenOk(s.table, s.txs[u]);
    assert TupleOk(s.table[k], |s.txs|);
    assert forall x | 0 <= x < |s.table| :: SameFor(s.table[x], s'.table[x], u);
  }

  lemma ValueKept(tup: Tuple, tup': Tuple, txs: seq<Tx>, txs': seq<Tx>, t: nat, k: Key, serial: map<Key, Val>)
    requires ValueOk(tup, txs, k, serial) && t < |txs| == |txs'| && txs' == txs[t := txs'[t]]
    requires tup'.val == tup.val
    requires tup'.writer == tup.writer || ((tup.writer == -1 || tup.writer == t) && (tup'.writer == -1 || tup'.writer == t))
    requires !txs[t].phase.Storing? || tup.writer != t || forall j: nat :: !ToStore(txs[t], k, j)
    requires !txs'[t].phase.Storing?
    ensures ValueOk(tup', txs', k, serial)
  {
    if tup.writer >= 0 && tup.writer < |txs| && tup.writer != t {
      assert txs'[tup.writer] == txs[tup.writer];
    } else {
      assert forall j: nat :: !ToStore(txs[t], k, j) || tup.writer != t;
      assert forall j: nat :: !ToStore(txs'[t], k, j);
    }
  }

  /** Steps that neither store a payload nor commit. */
  lemma QuietStepKeeps(s: State, s': State, t: nat, k: Key)
    requires Inv(s) && Touches(s, s', t, k) && s'.table[k].val == s.table[k].val
    requires forall u: nat | u != t && u < |s.txs| :: SameFor(s.table[k], s'.table[k], u)
    requires s'.table[k].writer == s.table[k].writer
             || ((s.table[k].writer == -1 || s.table[k].writer == t) && (s'.table[k].writer == -1 || s'.table[k].writer == t))
    requires TupleOk(s'.table[k], |s.txs|) && TxInv(s'.table, s'.txs[t], t) && SeenOk(s'.table, s'.txs[t])
    requires !s'.txs[t].phase.Storing? && (s.txs[t].phase.Storing? ==> s.txs[t].phase.i == |s.txs[t].wset|)
    ensures Inv(s')
  {
    forall u | 0 <= u < |s'.txs| ensures TxInv(s'.table, s'.txs[u], u) && SeenOk(s'.table, s'.txs[u]) {
      if u != t {
        OtherKept(s, s', t, k, u);
      }
    }
    forall x: Key | x < |s'.table| ensures ValueOk(s'.table[x], s'.txs, x, Replay(s'.init, s'.log)) {
      ValueKept(s.table[x], s'.table[x], s.txs, s'.txs, t, x, Replay(s.init, s.log));
    }
  }

  lemma LocalStepKeeps(s: State, s': State, t: nat)
    requires Inv(s) && t < |s.txs| && |s'.txs| == |s.txs| && s' == s.(txs := s.txs[t := s'.txs[t]])
    requires TxInv(s.table, s'.txs[t], t) && SeenOk(s.table, s'.txs[t])
    requires !s'.txs[t].phase.Storing? && (s.txs[t].phase.Storing? ==> s.txs[t].phase.i == |s.txs[t].wset|)
    ensures Inv(s')
  {
    forall u | 0 <= u < |s'.txs| ensures TxInv(s'.table, s'.txs[u], u) && SeenOk(s'.table, s'.txs[u]) {
      assert TxInv(s.table, s.txs[u], u) && SeenOk(s.table, s.txs[u]);
    }
    forall x: Key | x < |s'.table| ensures ValueOk(s'.table[x], s'.txs, x, Replay(s'.init, s'.log)) {
      ValueKept(s.table[x], s.table[x], s.txs, s'.txs, t, x, Replay(s.init, s.log));
    }
  }

  // ---------------------------------------------------------------- accesses

  lemma BeginKeeps(s: State, s': State, t: nat)
    requires Inv(s) && t < |s.txs| && Begin(s, s', t)
    ensures Inv(s')
  {
    assert TxInv(s.table, s.txs[t], t);
    LocalStepKeeps(s, s', t);
  }

  lemma ReadKeeps(s: State, s': State, t: nat, k: Key)
    requires Inv(s) && t < |s.txs| && Read(s, s', t, k)
    ensures Inv(s')
  {
    assert TxInv(s.table, s.txs[t], t) && SeenOk(s.table, s.txs[t]) && TupleOk(s.table[k], |s.txs|);
    if s.table[k].count == -1 {
      LocalStepKeeps(s, s', t);
    } else {
      QuietStepKeeps(s, s', t, k);
    }
  }

  lemma CopyKeeps(s: State, s': State, t: nat)
    requires Inv(s) && t < |s.txs| && Copy(s, s', t)
    ensures Inv(s')
  {
    var tx, tx' := s.txs[t], s'.txs[t];
    assert TxInv(s.table, tx, t) && SeenOk(s.table, tx);
    forall x ensures ReadsKey(tx'.rset, x) <==> ReadsKey(tx.rset, x) || x == tx.phase.key {
      if ReadsKey(tx.rset, x) {
        var j :| 0 <= j < |tx.rset| && tx.rset[j].key == x;
        assert tx'.rset[j].key == x;
      }
      assert tx'.rset[|tx.rset|].key == tx.phase.key;
    }
    LocalStepKeeps(s, s', t);
  }

  lemma {:induction false} DroppedFacts(rs: seq<ReadItem>, k: Key)
    requires DistinctReads(rs)
    ensures DistinctReads(Dropped(rs, k)) && forall x :: ReadsKey(Dropped(rs, k), x) <==> ReadsKey(rs, x) && x != k
    ensures forall r | r in Dropped(rs, k) :: r in rs
  {
    if rs != [] {
      DroppedFacts(rs[1..], k);
      assert rs == [rs[0]] + rs[1..];
      var d := Dropped(rs, k);
      forall x ensures ReadsKey(d, x) <==> ReadsKey(rs, x) && x != k {
        ConsReads(rs[0], rs[1..], x);
        ConsReads(rs[0], Dropped(rs[1..], k), x);
        if rs[0].key == k && ReadsKey(rs[1..], x) {
          var j :| 0 <= j < |rs[1..]| && rs[1..][j].key == x;
          assert rs[j + 1].key == x;
        }
      }
      forall r | r in Dropped(rs[1..], k) ensures r.key != rs[0].key {
        assert r in rs[1..];
      }
    }
  }

  lemma ConsReads(r: ReadItem, rs: seq<ReadItem>, x: Key)
    ensures ReadsKey([r] + rs, x) <==> r.key == x || ReadsKey(rs, x)
  {
    assert ([r] + rs)[0] == r;
    if ReadsKey(rs, x) {
      var j :| 0 <= j < |rs| && rs[j].key == x;
      assert ([r] + rs)[j + 1].key == x;
    }
  }

  lemma AppendWrites(ws: seq<WriteItem>, w: WriteItem, x: Key)
    ensures HasKey(ws + [w], x) <==> HasKey(ws, x) || w.key == x
  {
    assert (ws + [w])[|ws|] == w;
    if HasKey(ws, x) {
      var j :| 0 <= j < |ws| && ws[j].key == x;
      assert (ws + [w])[j].key == x;
    }
  }

  lemma OnlyReader(tup: Tuple, t: nat)
    requires t in tup.readers && |tup.readers| == 1
    ensures tup.readers == {t}
  {
    assert |tup.readers - {t}| == 0;
    assert tup.readers == (tup.readers - {t}) + {t};
  }

  lemma UpgradeTx(table: seq<Tuple>, table': seq<Tuple>, tx: Tx, tx': Tx, t: nat, k: Key, new_: Val)
    requires TxInv(table, tx, t) && tx.phase.Executing? && k < |table| && !HasKey(tx.wset, k) && ReadsKey(tx.rset, k)
    requires table' == table[k := Upgraded(table[k], t)]
    requires tx' == tx.(rset := Dropped(tx.rset, k), wset := tx.wset + [WriteItem(k, new_)],
                        rlocks := Removed(tx.rlocks, k), wlocks := tx.wlocks + [k])
    ensures TxInv(table', tx', t)
  {
    DroppedFacts(tx.rset, k);
    RemovedFacts(tx.rlocks, k);
    forall x ensures HasKey(tx'.wset, x) <==> HasKey(tx.wset, x) || x == k {
      AppendWrites(tx.wset, WriteItem(k, new_), x);
    }
    forall j | 0 <= j < |tx.wset| ensures tx.wset[j].key != k {
      if tx.wset[j].key == k {
        assert HasKey(tx.wset, k);
      }
    }
  }

  lemma UpgradeKeeps(s: State, s': State, t: nat, k: Key, new_: Val)
    requires Inv(s) && t < |s.txs| && Upgrade(s, s', t, k, new_)
    ensures Inv(s')
  {
    var tx := s.txs[t];
    assert TxInv(s.table, tx, t) && SeenOk(s.table, tx) && TupleOk(s.table[k], |s.txs|);
    if s.table[k].count == 1 {
      OnlyReader(s.table[k], t);
      UpgradeTx(s.table, s'.table, tx, s'.txs[t], t, k, new_);
      RemovedFacts(tx.rlocks, k);
      QuietStepKeeps(s, s', t, k);
    } else {
      LocalStepKeeps(s, s', t);
    }
  }

  lemma WriteTx(table: seq<Tuple>, table': seq<Tuple>, tx: Tx, tx': Tx, t: nat, k: Key, new_: Val)
    requires TxInv(table, tx, t) && k < |table| && !HasKey(tx.wset, k)
    requires tx.phase.Executing? || (tx.phase.CopyingForUpdate? && tx.phase.key == k)
    requires tx.phase.Executing? ==> !ReadsKey(tx.rset, k) && table' == table[k := WriteLocked(table[k], t)]
    requires tx.phase.CopyingForUpdate? ==> table' == table
    requires tx' == tx.(phase := Executing, wset := tx.wset + [WriteItem(k, new_)], wlocks := tx.wlocks + [k], seen := tx'.seen)
    ensures TxInv(table', tx', t)
  {
    forall x ensures HasKey(tx'.wset, x) <==> HasKey(tx.wset, x) || x == k {
      AppendWrites(tx.wset, WriteItem(k, new_), x);
    }
    forall j | 0 <= j < |tx.wset| ensures tx.wset[j].key != k {
      if tx.wset[j].key == k {
        assert HasKey(tx.wset, k);
      }
    }
  }

  lemma WriteKeeps(s: State, s': State, t: nat, k: Key, new_: Val)
    requires Inv(s) && t < |s.txs| && Write(s, s', t, k, new_)
    ensures Inv(s')
  {
    var tx := s.txs[t];
    assert TxInv(s.table, tx, t) && SeenOk(s.table, tx) && TupleOk(s.table[k], |s.txs|);
    if s.table[k].count == 0 {
      WriteTx(s.table, s'.table, tx, s'.txs[t], t, k, new_);
      QuietStepKeeps(s, s', t, k);
    } else {
      LocalStepKeeps(s, s', t);
    }
  }

  lemma ReadWriteKeeps(s: State, s': State, t: nat, k: Key, new_: Val)
    requires Inv(s) && t < |s.txs| && ReadWrite(s, s', t, k, new_)
    ensures Inv(s')
  {
    var tx := s.txs[t];
    assert TxInv(s.table, tx, t) && SeenOk(s.table, tx) && TupleOk(s.table[k], |s.txs|);
    if s.table[k].count == 0 {
      QuietStepKeeps(s, s', t, k);
    } else {
      LocalStepKeeps(s, s', t);
    }
  }

  lemma CopyForUpdateKeeps(s: State, s': State, t: nat)
    requires Inv(s) && t < |s.txs| && CopyForUpdate(s, s', t)
    ensures Inv(s')
  {
    var tx := s.txs[t];
    assert TxInv(s.table, tx, t) && SeenOk(s.table, tx);
    WriteTx(s.table, s.table, tx, s'.txs[t], t, tx.phase.key, tx.phase.new_);
    LocalStepKeeps(s, s', t);
  }

  // ------------------------------------------------------- commit and abort

  /** A transaction entering commit has read what its predecessors in commit order left. */
  lemma CommitReads(s: State, t: nat, k: Key)
    requires Inv(s) && t < |s.txs| && s.txs[t].phase.Executing? && k in s.txs[t].seen
    ensures k in Replay(s.init, s.log) && Replay(s.init, s.log)[k] == s.txs[t].seen[k]
  {
    assert TxInv(s.table, s.txs[t], t) && SeenOk(s.table, s.txs[t]);
    assert ValueOk(s.table[k], s.txs, k, Replay(s.init, s.log)) && TupleOk(s.table[k], |s.txs|);
  }

  lemma CommitValue(s: State, s': State, t: nat, k: Key)
    requires Inv(s) && t < |s.txs| && Commit(s, s', t) && k < |s.table|
    ensures ValueOk(s'.table[k], s'.txs, k, Replay(s'.init, s'.log))
  {
    var tx := s.txs[t];
    assert TxInv(s.table, tx, t) && ValueOk(s.table[k], s.txs, k, Replay(s.init, s.log)) && TupleOk(s.table[k], |s.txs|);
    assert s'.log[..|s.log|] == s.log;
    var m := WriteMap(tx.wset);
    assert Replay(s'.init, s'.log) == Replay(s.init, s.log) + m;
    if HasKey(tx.wset, k) {
      var j: nat :| j < |tx.wset| && tx.wset[j].key == k;
      assert ToStore(s'.txs[t], k, j);
    } else {
      forall j: nat ensures !ToStore(s'.txs[t], k, j) {
        assert j < |tx.wset| ==> tx.wset[j].key != k;
      }
      assert k !in m && Replay(s'.init, s'.log)[k] == Replay(s.init, s.log)[k];
    }
  }

  lemma CommitKeeps(s: State, s': State, t: nat)
    requires Inv(s) && t < |s.txs| && Commit(s, s', t)
    ensures Inv(s')
  {
    var tx := s.txs[t];
    forall k | k in tx.seen ensures k in Replay(s.init, s.log) && Replay(s.init, s.log)[k] == tx.seen[k] {
      CommitReads(s, t, k);
    }
    AppendRun(s.init, s.log, Txn(tx.seen, WriteMap(tx.wset)));
    forall u | 0 <= u < |s'.txs| ensures TxInv(s'.table, s'.txs[u], u) && SeenOk(s'.table, s'.txs[u]) {
      assert TxInv(s.table, s.txs[u], u) && SeenOk(s.table, s.txs[u]);
    }
    forall k: Key | k < |s'.table| ensures ValueOk(s'.table[k], s'.txs, k, Replay(s'.init, s'.log)) {
      CommitValue(s, s', t, k);
    }
  }

  lemma StoreValue(s: State, s': State, t: nat, x: Key)
    requires Inv(s) && t < |s.txs| && Store(s, s', t) && x < |s.table|
    ensures ValueOk(s'.table[x], s'.txs, x, Replay(s'.init, s'.log))
  {
    var tx := s.txs[t];
    var i := tx.phase.i;
    assert TxInv(s.table, tx, t) && ValueOk(s.table[x], s.txs, x, Replay(s.init, s.log));
    assert HasKey(tx.wset, tx.wset[i].key);
    assert ToStore(tx, tx.wset[i].key, i);
    forall j: nat ensures ToStore(s'.txs[t], x, j) <==> ToStore(tx, x, j) && j != i {
    }
  }

  lemma StoreKeeps(s: State, s': State, t: nat)
    requires Inv(s) && t < |s.txs| && Store(s, s', t)
    ensures Inv(s')
  {
    var tx := s.txs[t];
    var k := tx.wset[tx.phase.i].key;
    assert TxInv(s.table, tx, t);
    assert HasKey(tx.wset, k);
    forall u | 0 <= u < |s'.txs| ensures TxInv(s'.table, s'.txs[u], u) && SeenOk(s'.table, s'.txs[u]) {
      if u != t {
        OtherKept(s, s', t, k, u);
      }
    }
    forall x: Key | x < |s'.table| ensures ValueOk(s'.table[x], s'.txs, x, Replay(s'.init, s'.log)) {
      StoreValue(s, s', t, x);
    }
    assert TupleOk(s.table[k], |s.txs|);
  }

  lemma StoredKeeps(s: State, s': State, t: nat)
    requires Inv(s) && t < |s.txs| && Stored(s, s', t)
    ensures Inv(s')
  {
    assert TxInv(s.table, s.txs[t], t);
    LocalStepKeeps(s, s', t);
  }

  lemma UnlockKeeps(s: State, s': State, t: nat)
    requires Inv(s) && t < |s.txs| && Unlock(s, s', t)
    ensures Inv(s')
  {
    var tx := s.txs[t];
    assert TxInv(s.table, tx, t);
    if tx.rlocks != [] {
      var k := tx.rlocks[0];
      assert k in tx.rlocks;
      DropFirst(tx.rlocks);
      assert TupleOk(s.table[k], |s.txs|);
      assert |s.table[k].readers - {t}| == |s.table[k].readers| - 1;
      QuietStepKeeps(s, s', t, k);
    } else if tx.wlocks != [] {
      var k := tx.wlocks[0];
      assert k in tx.wlocks;
      DropFirst(tx.wlocks);
      assert TupleOk(s.table[k], |s.txs|);
      QuietStepKeeps(s, s', t, k);
    } else {
      LocalStepKeeps(s, s', t);
    }
  }

  lemma StepKeepsInv(s: State, s': State)
    requires Inv(s) && Next(s, s')
    ensures Inv(s')
  {
    var t: nat :| StepBy(s, s', t);
    if Begin(s, s', t) {
      BeginKeeps(s, s', t);
    } else if Commit(s, s', t) {
      CommitKeeps(s, s', t);
    } else if Store(s, s', t) {
      StoreKeeps(s, s', t);
    } else if Stored(s, s', t) {
      StoredKeeps(s, s', t);
    } else if Unlock(s, s', t) {
      UnlockKeeps(s, s', t);
    } else {
      AccessKeeps(s, s', t);
    }
  }

  lemma AccessKeeps(s: State, s': State, t: nat)
    requires Inv(s) && t < |s.txs| && AccessStep(s, s', t)
    ensures Inv(s')
  {
    if Copy(s, s', t) {
      CopyKeeps(s, s', t);
    } else if CopyForUpdate(s, s', t) {
      CopyForUpdateKeeps(s, s', t);
    } else if k: Key :| Read(s, s', t, k) {
      ReadKeeps(s, s', t, k);
    } else if k: Key, v: Val :| Upgrade(s, s', t, k, v) {
      UpgradeKeeps(s, s', t, k, v);
    } else if k: Key, v: Val :| Write(s, s', t, k, v) {
      WriteKeeps(s, s', t, k, v);
    } else {
      var k: Key, v: Val :| ReadWrite(s, s', t, k, v);
      ReadWriteKeeps(s, s', t, k, v);
    }
  }

  lemma InitEstablishes(s: State)
    requires Init(s)
    ensures Inv(s)
  {
  }

  lemma RunKeepsInv(run: seq<State>, i: nat)
    requires IsRun(run, Init, Next) && i < |run|
    ensures Inv(run[i])
  {
    forall s | Init(s) ensures Inv(s) {
      InitEstablishes(s);
    }
    forall s, s' | Inv(s) && Next(s, s') ensures Inv(s') {
      StepKeepsInv(s, s');
    }
    Invariant(run, Init, Next, Inv, i);
  }

  // ---------------------------------------------------------------- theorems

  lemma StepKeepsStart(s: State, s': State, t: nat)
    requires StepBy(s, s', t)
    ensures s'.init == s.init
  {
  }

  lemma {:induction false} StartKept(run: seq<State>, i: nat)
    requires IsRun(run, Init, Next) && i < |run|
    ensures run[i].init == run[0].init
  {
    if i > 0 {
      StartKept(run, i - 1);
      assert Next(run[i - 1], run[i]);
      var t: nat :| StepBy(run[i - 1], run[i], t);
      StepKeepsStart(run[i - 1], run[i], t);
    }
  }

  /** Another transaction holds the record, in whatever mode. */
  ghost predicate HeldByOther(tup: Tuple, t: nat) {
    (tup.writer >= 0 && tup.writer != t) || exists h :: h in tup.readers && h != t
  }

  lemma OtherHolder(tup: Tuple, n: nat, t: nat)
    requires TupleOk(tup, n) && tup.writer != t
    requires tup.count != if t in tup.readers then 1 else 0
    ensures HeldByOther(tup, t)
  {
    if tup.writer < 0 && t in tup.readers {
      assert tup.readers != {t};
    } else if tup.writer < 0 {
      assert tup.readers != {};
    }
  }

  /** A read lock is refused only while another transaction writes: readers share. */
  lemma ReadRefusedByWriter(run: seq<State>, i: nat, s': State, t: nat, k: Key)
    requires IsRun(run, Init, Next) && i < |run| && t < |run[i].txs| && Read(run[i], s', t, k)
    requires t < |s'.txs| && !s'.txs[t].phase.Copying?
    ensures s' == SetTx(run[i], t, run[i].txs[t].(phase := Aborting))
    ensures run[i].table[k].writer >= 0 && run[i].table[k].writer != t
  {
    RunKeepsInv(run, i);
    assert TxInv(run[i].table, run[i].txs[t], t) && TupleOk(run[i].table[k], |run[i].txs|);
  }

  /** A write lock or an upgrade is refused only while another transaction holds the record. */
  lemma WriteRefusedByHolder(run: seq<State>, i: nat, s': State, t: nat, k: Key, v: Val)
    requires IsRun(run, Init, Next) && i < |run| && t < |run[i].txs|
    requires Write(run[i], s', t, k, v) || ReadWrite(run[i], s', t, k, v) || Upgrade(run[i], s', t, k, v)
    requires t < |s'.txs| && s'.txs[t].phase.Aborting?
    ensures s' == SetTx(run[i], t, run[i].txs[t].(phase := Aborting))
    ensures HeldByOther(run[i].table[k], t)
  {
    RunKeepsInv(run, i);
    assert TxInv(run[i].table, run[i].txs[t], t) && TupleOk(run[i].table[k], |run[i].txs|);
    assert t in run[i].table[k].readers <==> k in run[i].txs[t].rlocks;
    OtherHolder(run[i].table[k], |run[i].txs|, t);
  }

  /** The committed transactions, in the order in which they enter commit, are a serial
      execution. */
  lemma SerializableInCommitOrder(run: seq<State>, i: nat)
    requires IsRun(run, Init, Next) && i < |run|
    ensures run[i].init == run[0].init && SerialRun(run[0].init, run[i].log)
  {
    RunKeepsInv(run, i);
    StartKept(run, i);
  }

  /** With no transaction storing, the table is what that serial execution leaves: aborted
      transactions have left no trace. */
  lemma TableIsCommitted(run: seq<State>, i: nat, k: Key)
    requires IsRun(run, Init, Next) && i < |run| && k < |run[i].table|
    requires forall t | 0 <= t < |run[i].txs| :: !run[i].txs[t].phase.Storing?
    ensures k in Replay(run[0].init, run[i].log) && run[i].table[k].val == Replay(run[0].init, run[i].log)[k]
  {
    RunKeepsInv(run, i);
    StartKept(run, i);
    assert ValueOk(run[i].table[k], run[i].txs, k, Replay(run[i].init, run[i].log));
  }

  /** Only a committed transaction ever changes a payload. */
  lemma OnlyCommitChangesTable(s: State, s': State, t: nat, k: Key)
    requires StepBy(s, s', t) && k < |s.table| && !s.txs[t].phase.Storing?
    ensures |s'.table| == |s.table| && s'.table[k].val == s.table[k].val
  {
    if AccessStep(s, s', t) {
      AccessKeepsPayload(s, s', t, k);
    }
  }

  lemma AccessKeepsPayload(s: State, s': State, t: nat, k: Key)
    requires t < |s.txs| && AccessStep(s, s', t) && k < |s.table|
    ensures |s'.table| == |s.table| && s'.table[k].val == s.table[k].val
  {
  }

  /** In every reachable state, a lock's counter is -1 exactly when one transaction lists it
      for writing, and otherwise equals the number of those listing it for reading. */
  lemma CountersCount(run: seq<State>, i: nat, k: Key)
    requires IsRun(run, Init, Next) && i < |run| && k < |run[i].table|
    ensures run[i].table[k].count == -1 <==> exists t: nat :: t < |run[i].txs| && HoldsWrite(run[i].txs[t], k)
    ensures forall t: nat, u: nat | t < |run[i].txs| && u < |run[i].txs| && HoldsWrite(run[i].txs[t], k) && HoldsWrite(run[i].txs[u], k) :: t == u
    ensures run[i].table[k].count != -1 ==>
              run[i].table[k].count == |set t: nat | t < |run[i].txs| && k in run[i].txs[t].rlocks|
  {
    RunKeepsInv(run, i);
    var s := run[i];
    var tup := s.table[k];
    assert TupleOk(tup, |s.txs|);
    forall t: nat | t < |s.txs| ensures (t in tup.readers <==> k in s.txs[t].rlocks) && (tup.writer == t <==> HoldsWrite(s.txs[t], k)) {
      assert TxInv(s.table, s.txs[t], t);
    }
    assert tup.readers == set t: nat | t < |s.txs| && k in s.txs[t].rlocks;
    if tup.writer >= 0 {
      assert HoldsWrite(s.txs[tup.writer], k);
    }
  }
}
