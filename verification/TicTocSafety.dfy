/** TicToc is serializable in commit-timestamp order: the inductive invariant and
    the whole-run theorem. */
module TicTocSafety {
  import opened SerialExecution
  import opened AccessSets
  import opened TicToc
  import opened Runs

  // ------------------------------------------------------------ invariant

  ghost predicate TupleInv(tup: Tuple) {
    && |tup.versions| > 0
    && (forall i, j | 0 <= i < j < |tup.versions| :: tup.versions[i].stamp.major < tup.versions[j].stamp.major)
    && tup.versions[tup.Last()].stamp.major <= tup.tsw.wts
    && tup.tsw.delta < DELTA_LIMIT
    && (tup.tsw.lock <==> tup.owner >= 0)
    && (tup.dirty ==> tup.owner >= 0)
    && (!tup.dirty ==> tup.val == tup.versions[tup.Last()].val)
  }

  /** No version after `ver` can be stamped `c` or earlier. */
  ghost predicate Covers(tup: Tuple, ver: nat, c: nat) {
    && ver < |tup.versions|
    && (ver < tup.Last() ==> c < tup.versions[ver + 1].stamp.major)
    && (ver == tup.Last() ==> c <= tup.tsw.Rts())
  }

  function HeldFrom(p: Phase): nat {
    match p
    case Writing(i, _) => i
    case Stored(i, _) => i
    case Unlocking(i, _) => i
    case UnlockLoaded(i, _, _) => i
    case _ => 0
  }

  function HeldTo(p: Phase, n: nat): nat {
    match p
    case Locking(i) => i
    case Validating(_) => n
    case Writing(_, _) => n
    case Stored(_, _) => n
    case Unlocking(_, end) => end
    case UnlockLoaded(_, end, _) => end
    case _ => 0
  }

  /** The executor holds the write lock of key `k`. */
  ghost predicate Holds(tx: Tx, k: Key) {
    exists j :: HeldFrom(tx.phase) <= j < HeldTo(tx.phase, |tx.wset|) && j < |tx.wset| && tx.wset[j].key == k
  }

  ghost predicate Owning(table: seq<Tuple>, tx: Tx, t: nat) {
    && HeldTo(tx.phase, |tx.wset|) <= |tx.wset|
    && HeldFrom(tx.phase) <= |tx.wset|
    && (forall k | 0 <= k < |table| :: table[k].owner == t <==> Holds(tx, k))
    && (forall k | 0 <= k < |table| && table[k].owner == t :: table[k].tsw.Rts() < tx.cts)
    && (forall k | 0 <= k < |table| && table[k].owner == t ::
          table[k].dirty <==> (tx.phase.Stored? && tx.phase.i < |tx.wset| && tx.wset[tx.phase.i].key == k))
    && (tx.phase.Stored? ==>
          tx.phase.i < |tx.wset| && tx.wset[tx.phase.i].key < |table|
          && table[tx.wset[tx.phase.i].key].val == tx.wset[tx.phase.i].val)
    && (tx.phase.UnlockLoaded? ==>
          tx.phase.i < tx.phase.end && tx.wset[tx.phase.i].key < |table|
          && tx.phase.word == table[tx.wset[tx.phase.i].key].tsw)
  }

  ghost predicate ItemOk(tup: Tuple, r: ReadItem) {
    && Covers(tup, r.ver, r.tsw.Rts())
    && tup.versions[r.ver].stamp.major <= r.tsw.wts
    && tup.versions[r.ver].val == r.val
  }

  ghost predicate SetsOk(table: seq<Tuple>, tx: Tx) {
    && DistinctKeys(tx.wset) && DistinctReads(tx.rset)
    && (forall j | 0 <= j < |tx.wset| :: tx.wset[j].key < |table|)
    && (forall j | 0 <= j < |tx.rset| :: tx.rset[j].key < |table|)
  }

  ghost predicate ReadsOk(table: seq<Tuple>, tx: Tx) {
    forall j | 0 <= j < |tx.rset| :: tx.rset[j].key < |table| && ItemOk(table[tx.rset[j].key], tx.rset[j])
  }

  /** While the word loaded before copying is still current, so is the copy. */
  ghost predicate CopyOk(table: seq<Tuple>, tx: Tx) {
    && (tx.phase.Spinning? || tx.phase.Loaded? || tx.phase.Copied? ==>
          tx.phase.key < |table| && !InReads(tx.rset, tx.phase.key))
    && (tx.phase.Loaded? ==>
          !tx.phase.v1.lock && tx.phase.v1.Rts() <= table[tx.phase.key].tsw.Rts())
    && (tx.phase.Copied? ==>
          && !tx.phase.v1.lock && tx.phase.v1.Rts() <= table[tx.phase.key].tsw.Rts()
          && tx.phase.ver < |table[tx.phase.key].versions|
          && (!table[tx.phase.key].dirty && SameInterval(tx.phase.v1, table[tx.phase.key].tsw) ==>
                tx.phase.ver == table[tx.phase.key].Last()
                && tx.phase.val == table[tx.phase.key].versions[tx.phase.ver].val))
  }

  predicate SameInterval(a: Word, b: Word) { a.wts == b.wts && a.delta == b.delta }

  /** Validation has secured read item `r` for commit timestamp `tx.cts`. */
  ghost predicate Certified(table: seq<Tuple>, tx: Tx, r: ReadItem)
    requires r.key < |table|
  {
    if HasKey(tx.wset, r.key) then r.ver == table[r.key].Last()
    else Covers(table[r.key], r.ver, tx.cts)
  }

  ghost predicate ValidationOk(table: seq<Tuple>, tx: Tx) {
    tx.phase.Validating? ==>
      && tx.phase.i <= |tx.rset|
      && (forall j | 0 <= j < |tx.rset| :: tx.rset[j].tsw.wts <= tx.cts)
      && (forall j | 0 <= j < tx.phase.i :: tx.rset[j].key < |table| && Certified(table, tx, tx.rset[j]))
  }

  ghost predicate TxInv(table: seq<Tuple>, tx: Tx, t: nat) {
    && SetsOk(table, tx) && Owning(table, tx, t) && ReadsOk(table, tx)
    && CopyOk(table, tx) && ValidationOk(table, tx)
  }

  predicate InWritePhase(tx: Tx) { tx.phase.Writing? || tx.phase.Stored? }

  function StampOf(tx: Tx): Stamp
    requires InWritePhase(tx)
  {
    Stamp(tx.cts, tx.phase.n)
  }

  /** Transaction `st` has committed but its version of `k` is not in place yet. */
  ghost predicate Pending(table: seq<Tuple>, txs: seq<Tx>, k: Key, st: Stamp) {
    && k < |table| && 0 <= table[k].owner < |txs|
    && InWritePhase(txs[table[k].owner]) && StampOf(txs[table[k].owner]) == st
  }

  ghost predicate WriterRegistered(tx: Tx, commits: map<Stamp, Txn>, tick: nat) {
    InWritePhase(tx) ==>
      && DistinctKeys(tx.wset) && tx.phase.n < tick
      && StampOf(tx) in commits && commits[StampOf(tx)].writeSet == WriteMap(tx.wset)
  }

  ghost predicate VersionRecorded(tup: Tuple, k: Key, commits: map<Stamp, Txn>) {
    && tup.versions != [] && tup.versions[0].stamp == Stamp(0, 0)
    && forall j | 1 <= j < |tup.versions| ::
         && tup.versions[j].stamp in commits
         && k in commits[tup.versions[j].stamp].writeSet
         && commits[tup.versions[j].stamp].writeSet[k] == tup.versions[j].val
  }

  ghost predicate Installed(tup: Tuple, st: Stamp) {
    exists j :: 1 <= j < |tup.versions| && tup.versions[j].stamp == st
  }

  ghost predicate WriteRecorded(table: seq<Tuple>, txs: seq<Tx>, st: Stamp, k: Key) {
    k < |table| && (Installed(table[k], st) || Pending(table, txs, k, st))
  }

  /** Version `ver` is the last one ordered before `st`. */
  ghost predicate ReadRecorded(table: seq<Tuple>, txs: seq<Tx>, st: Stamp, k: Key, ver: nat, val: Val) {
    && k < |table| && ver < |table[k].versions|
    && table[k].versions[ver].val == val
    && Before(table[k].versions[ver].stamp, st)
    && (ver < table[k].Last() ==> !Before(table[k].versions[ver + 1].stamp, st))
    && (ver == table[k].Last() ==> st.major <= table[k].tsw.Rts() || Pending(table, txs, k, st))
  }

  ghost predicate HistoryInv(s: State) {
    && s.tick >= 1 && s.sources.Keys == s.commits.Keys
    && (forall st | st in s.commits :: 1 <= st.minor < s.tick)
    && (forall st | st in s.commits :: s.sources[st].Keys == s.commits[st].readSet.Keys)
    && (forall k | 0 <= k < |s.table| :: VersionRecorded(s.table[k], k, s.commits))
    && (forall t | 0 <= t < |s.txs| :: WriterRegistered(s.txs[t], s.commits, s.tick))
    && (forall st, k | st in s.commits && k in s.commits[st].writeSet :: WriteRecorded(s.table, s.txs, st, k))
    && (forall st, k | st in s.commits && k in s.commits[st].readSet ::
          ReadRecorded(s.table, s.txs, st, k, s.sources[st][k], s.commits[st].readSet[k]))
  }

  ghost predicate TablesInv(s: State) {
    && (forall k | 0 <= k < |s.table| :: TupleInv(s.table[k]) && s.table[k].owner < |s.txs|)
    && (forall t | 0 <= t < |s.txs| :: TxInv(s.table, s.txs[t], t))
  }

  ghost predicate Inv(s: State) {
    TablesInv(s) && HistoryInv(s)
  }

  // ------------------------------------- what others may do to a tuple

  /** The only changes executors other than `t` make to a tuple. */
  ghost predicate Evolves(old_: Tuple, new_: Tuple, t: nat) {
    && (new_.owner == t <==> old_.owner == t)
    && (old_.owner == t ==> new_ == old_)
    && old_.tsw.Rts() <= new_.tsw.Rts()
    && (SameInterval(old_.tsw, new_.tsw) || old_.tsw.Rts() < new_.tsw.Rts())
    && (new_.versions == old_.versions ==> old_.dirty ==> new_.dirty)
    && (new_.versions != old_.versions ==>
          && old_.tsw.Rts() < new_.tsw.wts
          && |new_.versions| == |old_.versions| + 1 && new_.versions[..|old_.versions|] == old_.versions
          && old_.tsw.Rts() < new_.versions[|old_.versions|].stamp.major)
  }

  lemma CoversStable(old_: Tuple, new_: Tuple, t: nat, ver: nat, c: nat)
    requires Covers(old_, ver, c) && Evolves(old_, new_, t)
    ensures Covers(new_, ver, c)
  {
    if new_.versions != old_.versions {
      assert forall i | 0 <= i < |old_.versions| :: new_.versions[i] == new_.versions[..|old_.versions|][i];
    }
  }

  lemma VersionKept(old_: Tuple, new_: Tuple, t: nat, ver: nat)
    requires ver < |old_.versions| && Evolves(old_, new_, t)
    ensures ver < |new_.versions| && new_.versions[ver] == old_.versions[ver]
  {
    if new_.versions != old_.versions {
      assert new_.versions[ver] == new_.versions[..|old_.versions|][ver];
    }
  }

  lemma CopyStable(table: seq<Tuple>, table': seq<Tuple>, tx: Tx, t: nat)
    requires CopyOk(table, tx) && |table'| == |table|
    requires forall k | 0 <= k < |table| :: Evolves(table[k], table'[k], t)
    ensures CopyOk(table', tx)
  {
    if tx.phase.Copied? {
      VersionKept(table[tx.phase.key], table'[tx.phase.key], t, tx.phase.ver);
    }
  }

  lemma TxStable(table: seq<Tuple>, table': seq<Tuple>, tx: Tx, t: nat)
    requires TxInv(table, tx, t) && |table'| == |table|
    requires forall k | 0 <= k < |table| :: Evolves(table[k], table'[k], t)
    ensures TxInv(table', tx, t)
  {
    CopyStable(table, table', tx, t);
    forall j | 0 <= j < |tx.rset| ensures ItemOk(table'[tx.rset[j].key], tx.rset[j]) {
      var r := tx.rset[j];
      VersionKept(table[r.key], table'[r.key], t, r.ver);
      CoversStable(table[r.key], table'[r.key], t, r.ver, r.tsw.Rts());
    }
    if tx.phase.Validating? {
      forall j | 0 <= j < tx.phase.i ensures Certified(table', tx, tx.rset[j]) {
        CertifiedStable(table, table', tx, t, tx.rset[j]);
      }
    }
  }

  lemma CertifiedStable(table: seq<Tuple>, table': seq<Tuple>, tx: Tx, t: nat, r: ReadItem)
    requires tx.phase.Validating? && Owning(table, tx, t) && |table'| == |table| && r.key < |table|
    requires Evolves(table[r.key], table'[r.key], t)
    requires Certified(table, tx, r)
    ensures Certified(table', tx, r)
  {
    if HasKey(tx.wset, r.key) {
      assert Holds(tx, r.key);
    } else {
      CoversStable(table[r.key], table'[r.key], t, r.ver, tx.cts);
    }
  }

  // -------------------------------------------------- steps keep TablesInv

  /** Steps of executor `t` that leave the shared tuples alone. */
  lemma LocalKeepsTables(s: State, s': State, t: nat)
    requires TablesInv(s) && t < |s.txs|
    requires s'.table == s.table && |s'.txs| == |s.txs| && s'.txs == s.txs[t := s'.txs[t]]
    requires TxInv(s.table, s'.txs[t], t)
    ensures TablesInv(s')
  {
  }

  /** Steps of executor `t` that replace the tuple of key `k`. */
  lemma UpdateKeepsTables(s: State, s': State, t: nat, k: Key, tup: Tuple)
    requires TablesInv(s) && t < |s.txs| && k < |s.table|
    requires s'.table == s.table[k := tup] && |s'.txs| == |s.txs| && s'.txs == s.txs[t := s'.txs[t]]
    requires TupleInv(tup) && tup.owner < |s.txs|
    requires forall u: nat | u != t :: Evolves(s.table[k], tup, u)
    requires TxInv(s'.table, s'.txs[t], t)
    ensures TablesInv(s')
  {
    forall u | 0 <= u < |s'.txs| ensures TxInv(s'.table, s'.txs[u], u) {
      if u != t {
        TxStable(s.table, s'.table, s.txs[u], u);
      }
    }
  }

  lemma NothingHeld(table: seq<Tuple>, tx: Tx, tx': Tx, t: nat)
    requires Owning(table, tx, t)
    requires HeldFrom(tx.phase) >= HeldTo(tx.phase, |tx.wset|)
    requires HeldFrom(tx'.phase) >= HeldTo(tx'.phase, |tx'.wset|)
    requires HeldFrom(tx'.phase) <= |tx'.wset| && !tx'.phase.Stored? && !tx'.phase.UnlockLoaded?
    ensures Owning(table, tx', t)
    ensures forall k | 0 <= k < |table| :: table[k].owner != t
  {
    forall k | 0 <= k < |table| ensures table[k].owner != t && !Holds(tx', k) {
      assert !Holds(tx, k);
    }
  }

  lemma ReadStepsKeepTables(s: State, s': State, t: nat)
    requires TablesInv(s) && t < |s.txs|
    requires || Begin(s, s', t) || (exists k :: ReadStart(s, s', t, k)) || ReadLoad(s, s', t)
             || PreemptiveAbort(s, s', t) || ReadAgain(s, s', t)
    ensures TablesInv(s')
  {
    assert TxInv(s.table, s.txs[t], t);
    NothingHeld(s.table, s.txs[t], s'.txs[t], t);
    LocalKeepsTables(s, s', t);
  }

  lemma ReadCopyKeepsTables(s: State, s': State, t: nat)
    requires TablesInv(s) && t < |s.txs| && ReadCopy(s, s', t)
    ensures TablesInv(s')
  {
    assert TxInv(s.table, s.txs[t], t);
    NothingHeld(s.table, s.txs[t], s'.txs[t], t);
    LocalKeepsTables(s, s', t);
  }

  lemma ReadDoneKeepsTables(s: State, s': State, t: nat)
    requires TablesInv(s) && t < |s.txs| && ReadDone(s, s', t)
    ensures TablesInv(s')
  {
    var tx := s.txs[t];
    var tx' := s'.txs[t];
    assert TxInv(s.table, tx, t);
    NothingHeld(s.table, tx, tx', t);
    var tup := s.table[tx.phase.key];
    assert TupleInv(tup);
    assert ItemOk(tup, tx'.rset[|tx.rset|]);
    assert forall j | 0 <= j < |tx.rset| :: tx'.rset[j] == tx.rset[j];
    LocalKeepsTables(s, s', t);
  }

  lemma WriteKeepsTables(s: State, s': State, t: nat, k: Key, v: Val)
    requires TablesInv(s) && t < |s.txs| && Write(s, s', t, k, v)
    ensures TablesInv(s')
  {
    var tx := s.txs[t];
    assert TxInv(s.table, tx, t);
    NothingHeld(s.table, tx, s'.txs[t], t);
    assert forall j | 0 <= j < |tx.wset| :: s'.txs[t].wset[j] == tx.wset[j];
    LocalKeepsTables(s, s', t);
  }

  lemma SortWritesKeepsTables(s: State, s': State, t: nat, sorted: seq<WriteItem>)
    requires TablesInv(s) && t < |s.txs| && SortWrites(s, s', t, sorted)
    ensures TablesInv(s')
  {
    var tx := s.txs[t];
    assert TxInv(s.table, tx, t);
    SortKeepsKeys(tx.wset, sorted);
    NothingHeld(s.table, tx, s'.txs[t], t);
    LocalKeepsTables(s, s', t);
  }

  lemma LockOneKeepsTables(s: State, s': State, t: nat)
    requires TablesInv(s) && t < |s.txs| && LockOne(s, s', t)
    ensures TablesInv(s')
  {
    var tx, tx' := s.txs[t], s'.txs[t];
    assert TxInv(s.table, tx, t);
    var k := tx.wset[tx.phase.i].key;
    assert TupleInv(s.table[k]);
    forall x | 0 <= x < |s.table| ensures Holds(tx', x) <==> Holds(tx, x) || x == k {
      if Holds(tx, x) {
        var j :| 0 <= j < tx.phase.i && tx.wset[j].key == x;
        assert tx'.wset[j].key == x;
      }
      assert tx'.wset[tx.phase.i].key == k;
    }
    assert Owning(s'.table, tx', t);
    OwnItemsKept(s.table, s'.table, tx, tx', k);
    UpdateKeepsTables(s, s', t, k, s'.table[k]);
  }

  /** Read items survive a change of word or payload that keeps the versions and
      does not shrink the interval. */
  lemma OwnItemsKept(table: seq<Tuple>, table': seq<Tuple>, tx: Tx, tx': Tx, k: Key)
    requires ReadsOk(table, tx) && tx'.rset == tx.rset && k < |table| && |table'| == |table|
    requires table' == table[k := table'[k]]
    requires table'[k].versions == table[k].versions && table[k].tsw.Rts() <= table'[k].tsw.Rts()
    ensures ReadsOk(table', tx')
  {
  }

  lemma LockFailKeepsTables(s: State, s': State, t: nat)
    requires TablesInv(s) && t < |s.txs| && LockFail(s, s', t)
    ensures TablesInv(s')
  {
    var tx, tx' := s.txs[t], s'.txs[t];
    assert TxInv(s.table, tx, t);
    forall x | 0 <= x < |s.table| ensures Holds(tx', x) <==> Holds(tx, x) {
    }
    LocalKeepsTables(s, s', t);
  }

  lemma ComputeKeepsTables(s: State, s': State, t: nat)
    requires TablesInv(s) && t < |s.txs| && ComputeCommitTs(s, s', t)
    ensures TablesInv(s')
  {
    var tx, tx' := s.txs[t], s'.txs[t];
    assert TxInv(s.table, tx, t);
    forall x | 0 <= x < |s.table| ensures Holds(tx', x) <==> Holds(tx, x) {
    }
    LocalKeepsTables(s, s', t);
  }

  lemma SamePossessions(table: seq<Tuple>, tx: Tx, tx': Tx, t: nat)
    requires Owning(table, tx, t)
    requires tx'.wset == tx.wset && tx'.cts >= tx.cts
    requires HeldFrom(tx'.phase) == HeldFrom(tx.phase)
    requires HeldTo(tx'.phase, |tx'.wset|) == HeldTo(tx.phase, |tx.wset|)
    requires !tx.phase.Stored? && !tx'.phase.Stored? && !tx'.phase.UnlockLoaded?
    ensures Owning(table, tx', t)
  {
    forall x | 0 <= x < |table| ensures Holds(tx', x) <==> Holds(tx, x) {
    }
  }

  /** A key of the write set is locked by the transaction throughout validation. */
  lemma OwnWriteHeld(table: seq<Tuple>, tx: Tx, t: nat, k: Key)
    requires Owning(table, tx, t) && tx.phase.Validating? && HasKey(tx.wset, k) && k < |table|
    ensures table[k].owner == t && table[k].tsw.Rts() < tx.cts
  {
    assert Holds(tx, k);
  }

  lemma LastByWts(tup: Tuple, r: ReadItem)
    requires TupleInv(tup) && ItemOk(tup, r) && tup.tsw.wts == r.tsw.wts
    ensures r.ver == tup.Last()
  {
    if r.ver < tup.Last() {
      VersionsAscend(tup, r.ver + 1);
      assert false;
    }
  }

  lemma VersionsAscend(tup: Tuple, ver: nat)
    requires TupleInv(tup) && ver < |tup.versions|
    ensures tup.versions[ver].stamp.major <= tup.tsw.wts
  {
    assert ver < tup.Last() ==> tup.versions[ver].stamp.major < tup.versions[tup.Last()].stamp.major;
  }

  lemma IntervalWithinWord(tup: Tuple, r: ReadItem)
    requires TupleInv(tup) && ItemOk(tup, r)
    ensures r.tsw.Rts() <= tup.tsw.Rts()
  {
    if r.ver < tup.Last() {
      VersionsAscend(tup, r.ver + 1);
    }
  }

  lemma CoveredCertifies(table: seq<Tuple>, tx: Tx, t: nat, r: ReadItem)
    requires Owning(table, tx, t) && tx.phase.Validating?
    requires r.key < |table| && TupleInv(table[r.key]) && ItemOk(table[r.key], r)
    requires r.tsw.Rts() >= tx.cts
    ensures Certified(table, tx, r)
  {
    IntervalWithinWord(table[r.key], r);
    if HasKey(tx.wset, r.key) {
      OwnWriteHeld(table, tx, t, r.key);
      assert false;
    }
  }

  lemma KeepCertifies(table: seq<Tuple>, tx: Tx, r: ReadItem)
    requires r.key < |table| && TupleInv(table[r.key]) && ItemOk(table[r.key], r)
    requires table[r.key].tsw.wts == r.tsw.wts
    requires HasKey(tx.wset, r.key) || table[r.key].tsw.Rts() >= tx.cts
    ensures Certified(table, tx, r)
  {
    LastByWts(table[r.key], r);
  }

  lemma CertifyKeepsTables(s: State, s': State, t: nat)
    requires TablesInv(s) && t < |s.txs| && AtReadItem(s, t)
    requires Certified(s.table, s.txs[t], s.txs[t].rset[s.txs[t].phase.i])
    requires s' == SetPhase(s, t, Validating(s.txs[t].phase.i + 1))
    ensures TablesInv(s')
  {
    var tx, tx' := s.txs[t], s'.txs[t];
    assert TxInv(s.table, tx, t);
    SamePossessions(s.table, tx, tx', t);
    LocalKeepsTables(s, s', t);
  }

  lemma ValidateCoveredKeepsTables(s: State, s': State, t: nat)
    requires TablesInv(s) && t < |s.txs| && ValidateCovered(s, s', t)
    ensures TablesInv(s')
  {
    var tx := s.txs[t];
    assert TxInv(s.table, tx, t);
    CoveredCertifies(s.table, tx, t, tx.rset[tx.phase.i]);
    CertifyKeepsTables(s, s', t);
  }

  lemma ValidateKeepKeepsTables(s: State, s': State, t: nat)
    requires TablesInv(s) && t < |s.txs| && ValidateKeep(s, s', t)
    ensures TablesInv(s')
  {
    var tx := s.txs[t];
    assert TxInv(s.table, tx, t);
    KeepCertifies(s.table, tx, tx.rset[tx.phase.i]);
    CertifyKeepsTables(s, s', t);
  }

  lemma ValidateFailKeepsTables(s: State, s': State, t: nat)
    requires TablesInv(s) && t < |s.txs| && ValidateFail(s, s', t)
    ensures TablesInv(s')
  {
    var tx, tx' := s.txs[t], s'.txs[t];
    assert TxInv(s.table, tx, t);
    SamePossessions(s.table, tx, tx', t);
    LocalKeepsTables(s, s', t);
  }

  /** After the shift the interval ends exactly at the commit timestamp, `delta`
      fits its 15 bits, and `wts` has moved neither backwards nor past it. */
  lemma ExtendArithmetic(w: Word, cts: nat)
    requires w.wts <= cts
    ensures var x := Extend(w, cts);
            x.Rts() == cts && x.delta < DELTA_LIMIT && w.wts <= x.wts <= cts
            && x.lock == w.lock && (x.wts - w.wts) % DELTA_LIMIT == 0
            && (cts - w.wts < DELTA_LIMIT <==> x.wts == w.wts)
  {
    var delta := cts - w.wts;
    assert delta == DELTA_LIMIT * (delta / DELTA_LIMIT) + delta % DELTA_LIMIT;
    assert (DELTA_LIMIT * (delta / DELTA_LIMIT)) % DELTA_LIMIT == 0;
  }

  lemma ValidateExtendKeepsTables(s: State, s': State, t: nat)
    requires TablesInv(s) && t < |s.txs| && ValidateExtend(s, s', t)
    ensures TablesInv(s')
  {
    var tx, tx' := s.txs[t], s'.txs[t];
    assert TxInv(s.table, tx, t);
    var r := tx.rset[tx.phase.i];
    var k := r.key;
    assert TupleInv(s.table[k]);
    ExtendArithmetic(s.table[k].tsw, tx.cts);
    LastByWts(s.table[k], r);
    SamePossessions(s.table, tx, tx', t);
    assert Owning(s'.table, tx', t);
    OwnItemsKept(s.table, s'.table, tx, tx', k);
    CertifiedAfterExtend(s.table, s'.table, tx, tx', k);
    UpdateKeepsTables(s, s', t, k, s'.table[k]);
  }

  lemma CertifiedAfterExtend(table: seq<Tuple>, table': seq<Tuple>, tx: Tx, tx': Tx, k: Key)
    requires tx.phase.Validating? && tx.phase.i < |tx.rset| && tx' == tx.(phase := Validating(tx.phase.i + 1))
    requires ValidationOk(table, tx) && SetsOk(table, tx)
    requires k < |table| && |table'| == |table| && table' == table[k := table'[k]]
    requires tx.rset[tx.phase.i].key == k && !HasKey(tx.wset, k) && tx.rset[tx.phase.i].ver == table[k].Last()
    requires |table[k].versions| > 0
    requires table'[k].versions == table[k].versions && table'[k].tsw.Rts() == tx.cts
    ensures ValidationOk(table', tx')
  {
    forall j | 0 <= j < tx'.phase.i ensures Certified(table', tx', tx'.rset[j]) {
      if j < tx.phase.i {
        assert Certified(table, tx, tx.rset[j]) && tx.rset[j].key != k;
      }
    }
  }

  lemma CommitKeepsTables(s: State, s': State, t: nat)
    requires TablesInv(s) && t < |s.txs| && Commit(s, s', t)
    ensures TablesInv(s')
  {
    var tx, tx' := s.txs[t], s'.txs[t];
    assert TxInv(s.table, tx, t);
    SamePossessions(s.table, tx, tx', t);
    LocalKeepsTables(s, s', t);
  }

  lemma FinishKeepsTables(s: State, s': State, t: nat)
    requires TablesInv(s) && t < |s.txs| && (Finish(s, s', t) || Aborted(s, s', t))
    ensures TablesInv(s')
  {
    assert TxInv(s.table, s.txs[t], t);
    NothingHeld(s.table, s.txs[t], s'.txs[t], t);
    LocalKeepsTables(s, s', t);
  }

  lemma StorePayloadKeepsTables(s: State, s': State, t: nat)
    requires TablesInv(s) && t < |s.txs| && StorePayload(s, s', t)
    ensures TablesInv(s')
  {
    var tx, tx' := s.txs[t], s'.txs[t];
    assert TxInv(s.table, tx, t);
    var k := tx.wset[tx.phase.i].key;
    assert TupleInv(s.table[k]);
    assert Holds(tx, k);
    forall x | 0 <= x < |s.table| ensures Holds(tx', x) <==> Holds(tx, x) {
    }
    assert Owning(s'.table, tx', t);
    OwnItemsKept(s.table, s'.table, tx, tx', k);
    UpdateKeepsTables(s, s', t, k, s'.table[k]);
  }

  /** Letting go of the first held key leaves the others held. */
  lemma ReleaseFirst(table: seq<Tuple>, tx: Tx, tx': Tx, k: Key)
    requires SetsOk(table, tx) && tx'.wset == tx.wset
    requires HeldFrom(tx.phase) < HeldTo(tx.phase, |tx.wset|) <= |tx.wset|
    requires HeldFrom(tx'.phase) == HeldFrom(tx.phase) + 1
    requires HeldTo(tx'.phase, |tx.wset|) == HeldTo(tx.phase, |tx.wset|)
    requires tx.wset[HeldFrom(tx.phase)].key == k
    ensures Holds(tx, k)
    ensures forall x :: Holds(tx', x) <==> Holds(tx, x) && x != k
  {
    forall x ensures Holds(tx', x) <==> Holds(tx, x) && x != k {
      if Holds(tx', x) {
        var j :| HeldFrom(tx'.phase) <= j < HeldTo(tx'.phase, |tx'.wset|) && j < |tx'.wset| && tx'.wset[j].key == x;
        assert tx.wset[j].key == x;
      }
      if Holds(tx, x) && x != k {
        var j :| HeldFrom(tx.phase) <= j < HeldTo(tx.phase, |tx.wset|) && j < |tx.wset| && tx.wset[j].key == x;
        assert tx'.wset[j].key == x;
      }
    }
  }

  lemma StoreWordKeepsTuple(s: State, s': State, t: nat)
    requires TablesInv(s) && t < |s.txs| && StoreWord(s, s', t)
    ensures var k := s.txs[t].wset[s.txs[t].phase.i].key;
            TupleInv(s'.table[k]) && forall u: nat | u != t :: Evolves(s.table[k], s'.table[k], u)
  {
    var tx := s.txs[t];
    assert TxInv(s.table, tx, t);
    var k := tx.wset[tx.phase.i].key;
    var tup, tup' := s.table[k], s'.table[k];
    assert TupleInv(tup);
    assert Holds(tx, k);
    forall i, j | 0 <= i < j < |tup'.versions|
      ensures tup'.versions[i].stamp.major < tup'.versions[j].stamp.major
    {
      VersionsAscend(tup, i);
    }
    assert tup'.versions[..|tup.versions|] == tup.versions;
  }

  lemma StoreWordKeepsTables(s: State, s': State, t: nat)
    requires TablesInv(s) && t < |s.txs| && StoreWord(s, s', t)
    ensures TablesInv(s')
  {
    var tx, tx' := s.txs[t], s'.txs[t];
    assert TxInv(s.table, tx, t);
    var k := tx.wset[tx.phase.i].key;
    StoreWordKeepsTuple(s, s', t);
    ReleaseFirst(s.table, tx, tx', k);
    assert Owning(s'.table, tx', t);
    OwnItemsExtended(s.table, s'.table, tx, tx', k);
    UpdateKeepsTables(s, s', t, k, s'.table[k]);
  }

  lemma OwnItemsExtended(table: seq<Tuple>, table': seq<Tuple>, tx: Tx, tx': Tx, k: Key)
    requires ReadsOk(table, tx) && tx'.rset == tx.rset && k < |table| && |table'| == |table|
    requires table' == table[k := table'[k]] && TupleInv(table[k])
    requires |table'[k].versions| == |table[k].versions| + 1 && table'[k].versions[..|table[k].versions|] == table[k].versions
    requires table[k].tsw.Rts() < table'[k].versions[|table[k].versions|].stamp.major
    ensures ReadsOk(table', tx')
  {
    forall j | 0 <= j < |tx'.rset| ensures ItemOk(table'[tx'.rset[j].key], tx'.rset[j]) {
      var r := tx.rset[j];
      if r.key == k {
        assert ItemOk(table[k], r);
        assert forall i | 0 <= i < |table[k].versions| :: table'[k].versions[i] == table'[k].versions[..|table[k].versions|][i];
      }
    }
  }

  lemma UnlockLoadKeepsTables(s: State, s': State, t: nat)
    requires TablesInv(s) && t < |s.txs| && UnlockLoad(s, s', t)
    ensures TablesInv(s')
  {
    var tx, tx' := s.txs[t], s'.txs[t];
    assert TxInv(s.table, tx, t);
    forall x | 0 <= x < |s.table| ensures Holds(tx', x) <==> Holds(tx, x) {
    }
    assert Owning(s'.table, tx', t);
    LocalKeepsTables(s, s', t);
  }

  /** Nobody changes a locked word but its owner, so the plain load and store of an
      unlock puts back exactly the word that was locked: no extension is lost. */
  lemma UnlockRestoresWord(s: State, s': State, t: nat)
    requires TablesInv(s) && t < |s.txs| && UnlockStore(s, s', t)
    ensures var k := s.txs[t].wset[s.txs[t].phase.i].key;
            && s.table[k].tsw.lock && s.table[k].owner == t
            && s'.table[k] == s.table[k].(tsw := s.table[k].tsw.(lock := false), owner := -1)
  {
    var tx := s.txs[t];
    assert TxInv(s.table, tx, t);
    assert TupleInv(s.table[tx.wset[tx.phase.i].key]);
    assert Holds(tx, tx.wset[tx.phase.i].key);
  }

  lemma UnlockStoreKeepsTables(s: State, s': State, t: nat)
    requires TablesInv(s) && t < |s.txs| && UnlockStore(s, s', t)
    ensures TablesInv(s')
  {
    var tx, tx' := s.txs[t], s'.txs[t];
    assert TxInv(s.table, tx, t);
    var k := tx.wset[tx.phase.i].key;
    UnlockRestoresWord(s, s', t);
    assert TupleInv(s.table[k]);
    ReleaseFirst(s.table, tx, tx', k);
    assert Owning(s'.table, tx', t);
    OwnItemsKept(s.table, s'.table, tx, tx', k);
    UpdateKeepsTables(s, s', t, k, s'.table[k]);
  }

  lemma StepKeepsTables(s: State, s': State, t: nat)
    requires TablesInv(s) && StepBy(s, s', t)
    ensures TablesInv(s')
  {
    if ReadPhaseStep(s, s', t) {
      if ReadCopy(s, s', t) {
        ReadCopyKeepsTables(s, s', t);
      } else if ReadDone(s, s', t) {
        ReadDoneKeepsTables(s, s', t);
      } else if k, v :| Write(s, s', t, k, v) {
        WriteKeepsTables(s, s', t, k, v);
      } else {
        ReadStepsKeepTables(s, s', t);
      }
    } else if ValidationStep(s, s', t) {
      ValidationKeepsTables(s, s', t);
    } else if Commit(s, s', t) {
      CommitKeepsTables(s, s', t);
    } else if StorePayload(s, s', t) {
      StorePayloadKeepsTables(s, s', t);
    } else if StoreWord(s, s', t) {
      StoreWordKeepsTables(s, s', t);
    } else {
      FinishKeepsTables(s, s', t);
    }
  }

  lemma ValidationKeepsTables(s: State, s': State, t: nat)
    requires TablesInv(s) && t < |s.txs| && ValidationStep(s, s', t)
    ensures TablesInv(s')
  {
    if sorted :| SortWrites(s, s', t, sorted) {
      SortWritesKeepsTables(s, s', t, sorted);
    } else if LockOne(s, s', t) {
      LockOneKeepsTables(s, s', t);
    } else if LockFail(s, s', t) {
      LockFailKeepsTables(s, s', t);
    } else if ComputeCommitTs(s, s', t) {
      ComputeKeepsTables(s, s', t);
    } else if ValidateCovered(s, s', t) {
      ValidateCoveredKeepsTables(s, s', t);
    } else if ValidateFail(s, s', t) {
      ValidateFailKeepsTables(s, s', t);
    } else if ValidateKeep(s, s', t) {
      ValidateKeepKeepsTables(s, s', t);
    } else if ValidateExtend(s, s', t) {
      ValidateExtendKeepsTables(s, s', t);
    } else if UnlockLoad(s, s', t) {
      UnlockLoadKeepsTables(s, s', t);
    } else if UnlockStore(s, s', t) {
      UnlockStoreKeepsTables(s, s', t);
    } else {
      FinishKeepsTables(s, s', t);
    }
  }

  // ------------------------------------------------- steps keep HistoryInv

  /** Whoever still has versions to put in place stays in its write phase. */
  ghost predicate WriterUndisturbed(table: seq<Tuple>, tx: Tx, tx': Tx, t: nat) {
    && (InWritePhase(tx) ==>
          || (InWritePhase(tx') && StampOf(tx') == StampOf(tx))
          || forall k | 0 <= k < |table| :: table[k].owner != t)
    && (InWritePhase(tx') ==> InWritePhase(tx) && StampOf(tx') == StampOf(tx) && tx'.wset == tx.wset)
  }

  lemma LocalKeepsHistory(s: State, s': State, t: nat, tx': Tx)
    requires HistoryInv(s) && t < |s.txs| && s' == s.(txs := s.txs[t := tx'])
    requires WriterUndisturbed(s.table, s.txs[t], tx', t)
    ensures HistoryInv(s')
  {
    forall k, st | Pending(s.table, s.txs, k, st) ensures Pending(s'.table, s'.txs, k, st) {
    }
    assert WriterRegistered(s.txs[t], s.commits, s.tick);
  }

  /** A change of word, payload or ownership of key `k` that installs no version. */
  lemma RewordKeepsHistory(s: State, s': State, t: nat, k: Key, tup: Tuple, tx': Tx)
    requires HistoryInv(s) && t < |s.txs| && k < |s.table|
    requires s' == s.(table := s.table[k := tup], txs := s.txs[t := tx'])
    requires tup.versions == s.table[k].versions && s.table[k].tsw.Rts() <= tup.tsw.Rts()
    requires InWritePhase(tx') <==> InWritePhase(s.txs[t])
    requires InWritePhase(tx') ==> StampOf(tx') == StampOf(s.txs[t]) && tx'.wset == s.txs[t].wset
    requires forall st | Pending(s.table, s.txs, k, st) :: tup.owner == s.table[k].owner
    ensures HistoryInv(s')
  {
    forall x, st | Pending(s.table, s.txs, x, st) ensures Pending(s'.table, s'.txs, x, st) {
    }
    assert WriterRegistered(s.txs[t], s.commits, s.tick);
    assert VersionRecorded(s.table[k], k, s.commits);
    forall st, x | st in s'.commits && x in s'.commits[st].writeSet ensures WriteRecorded(s'.table, s'.txs, st, x) {
      assert WriteRecorded(s.table, s.txs, st, x);
      assert Installed(s.table[x], st) ==> Installed(s'.table[x], st);
    }
    forall st, x | st in s'.commits && x in s'.commits[st].readSet
      ensures ReadRecorded(s'.table, s'.txs, st, x, s'.sources[st][x], s'.commits[st].readSet[x])
    {
      assert ReadRecorded(s.table, s.txs, st, x, s.sources[st][x], s.commits[st].readSet[x]);
    }
  }

  /** What validation certified is what the history needs: the version read is the
      last one ordered before the new stamp. */
  lemma CertifiedReadRecorded(table: seq<Tuple>, tx: Tx, r: ReadItem, txs': seq<Tx>,
                              commits: map<Stamp, Txn>, tick: nat)
    requires r.key < |table| && |table[r.key].versions| > 0 && ItemOk(table[r.key], r) && Certified(table, tx, r)
    requires VersionRecorded(table[r.key], r.key, commits) && r.tsw.wts <= tx.cts
    requires tick >= 1 && forall st | st in commits :: st.minor < tick
    requires HasKey(tx.wset, r.key) ==> Pending(table, txs', r.key, Stamp(tx.cts, tick))
    ensures ReadRecorded(table, txs', Stamp(tx.cts, tick), r.key, r.ver, r.val)
  {
  }

  lemma CommitShape(s: State, s': State, t: nat)
    requires Inv(s) && t < |s.txs| && Commit(s, s', t)
    ensures var tx := s.txs[t];
            && SetsOk(s.table, tx) && Stamp(tx.cts, s.tick) !in s.commits
            && (forall k: Key | HasKey(tx.wset, k) :: k < |s.table| && Pending(s'.table, s'.txs, k, Stamp(tx.cts, s.tick)))
  {
    var tx := s.txs[t];
    assert TxInv(s.table, tx, t);
    forall k: Key | HasKey(tx.wset, k)
      ensures k < |s.table| && Pending(s'.table, s'.txs, k, Stamp(tx.cts, s.tick))
    {
      OwnWriteHeld(s.table, tx, t, k);
    }
  }

  lemma CommitRead(s: State, s': State, t: nat, j: nat)
    requires Inv(s) && t < |s.txs| && Commit(s, s', t) && j < |s.txs[t].rset|
    ensures var r := s.txs[t].rset[j];
            ReadRecorded(s'.table, s'.txs, Stamp(s.txs[t].cts, s.tick), r.key, r.ver, r.val)
  {
    var tx := s.txs[t];
    CommitShape(s, s', t);
    CommitReadFacts(s, t, j);
    CertifiedReadRecorded(s.table, tx, tx.rset[j], s'.txs, s.commits, s.tick);
  }

  lemma CommitReadFacts(s: State, t: nat, j: nat)
    requires Inv(s) && t < |s.txs| && j < |s.txs[t].rset|
    requires s.txs[t].phase.Validating? && s.txs[t].phase.i == |s.txs[t].rset|
    ensures var r := s.txs[t].rset[j];
            && r.key < |s.table| && |s.table[r.key].versions| > 0 && ItemOk(s.table[r.key], r)
            && Certified(s.table, s.txs[t], r)
            && VersionRecorded(s.table[r.key], r.key, s.commits) && r.tsw.wts <= s.txs[t].cts
  {
    assert TxInv(s.table, s.txs[t], t);
    assert TupleInv(s.table[s.txs[t].rset[j].key]);
  }

  /** Old records do not notice a new commit. */
  lemma CommitKeepsPending(s: State, s': State, t: nat, k: Key, st: Stamp)
    requires t < |s.txs| && Commit(s, s', t) && Pending(s.table, s.txs, k, st)
    ensures Pending(s'.table, s'.txs, k, st)
  {
  }

  lemma CommitKeepsWrites(s: State, s': State, t: nat)
    requires Inv(s) && t < |s.txs| && Commit(s, s', t)
    ensures forall w, k | w in s'.commits && k in s'.commits[w].writeSet :: WriteRecorded(s'.table, s'.txs, w, k)
  {
    CommitShape(s, s', t);
    forall w, k | w in s'.commits && k in s'.commits[w].writeSet ensures WriteRecorded(s'.table, s'.txs, w, k) {
      if w != Stamp(s.txs[t].cts, s.tick) {
        assert WriteRecorded(s.table, s.txs, w, k);
        if Pending(s.table, s.txs, k, w) {
          CommitKeepsPending(s, s', t, k, w);
        }
      }
    }
  }

  lemma CommitKeepsReads(s: State, s': State, t: nat)
    requires Inv(s) && t < |s.txs| && Commit(s, s', t)
    ensures forall w, k | w in s'.commits && k in s'.commits[w].readSet ::
              w in s'.sources && k in s'.sources[w]
              && ReadRecorded(s'.table, s'.txs, w, k, s'.sources[w][k], s'.commits[w].readSet[k])
  {
    var tx := s.txs[t];
    CommitShape(s, s', t);
    forall w, k | w in s'.commits && k in s'.commits[w].readSet
      ensures w in s'.sources && k in s'.sources[w]
      ensures ReadRecorded(s'.table, s'.txs, w, k, s'.sources[w][k], s'.commits[w].readSet[k])
    {
      if w == Stamp(tx.cts, s.tick) {
        var j :| 0 <= j < |tx.rset| && tx.rset[j].key == k;
        CommitRead(s, s', t, j);
      } else {
        OldReadRecorded(s, s', t, w, k);
      }
    }
  }

  lemma OldReadRecorded(s: State, s': State, t: nat, w: Stamp, k: Key)
    requires HistoryInv(s) && t < |s.txs| && Commit(s, s', t)
    requires w in s.commits && k in s.commits[w].readSet
    ensures w in s.sources && k in s.sources[w]
    ensures ReadRecorded(s'.table, s'.txs, w, k, s.sources[w][k], s.commits[w].readSet[k])
  {
    assert ReadRecorded(s.table, s.txs, w, k, s.sources[w][k], s.commits[w].readSet[k]);
    if Pending(s.table, s.txs, k, w) {
      CommitKeepsPending(s, s', t, k, w);
    }
  }

  lemma CommitKeepsRecords(s: State, s': State, t: nat)
    requires HistoryInv(s) && t < |s.txs| && Commit(s, s', t) && Stamp(s.txs[t].cts, s.tick) !in s.commits
    ensures forall k | 0 <= k < |s'.table| :: VersionRecorded(s'.table[k], k, s'.commits)
    ensures forall u | 0 <= u < |s'.txs| :: WriterRegistered(s'.txs[u], s'.commits, s'.tick)
  {
    forall k | 0 <= k < |s'.table| ensures VersionRecorded(s'.table[k], k, s'.commits) {
      assert VersionRecorded(s.table[k], k, s.commits);
    }
    forall u | 0 <= u < |s'.txs| ensures WriterRegistered(s'.txs[u], s'.commits, s'.tick) {
      assert WriterRegistered(s.txs[u], s.commits, s.tick);
    }
  }

  lemma CommitKeepsHistory(s: State, s': State, t: nat)
    requires Inv(s) && t < |s.txs| && Commit(s, s', t)
    ensures HistoryInv(s')
  {
    CommitShape(s, s', t);
    CommitKeepsRecords(s, s', t);
    CommitKeepsWrites(s, s', t);
    CommitKeepsReads(s, s', t);
  }

  lemma StoreWordShape(s: State, s': State, t: nat)
    requires Inv(s) && t < |s.txs| && StoreWord(s, s', t)
    ensures var tx := s.txs[t];
            var k := tx.wset[tx.phase.i].key;
            && s.table[k].owner == t && s.table[k].tsw.Rts() < tx.cts
            && Pending(s.table, s.txs, k, StampOf(tx))
            && StampOf(tx) in s.commits && k in s.commits[StampOf(tx)].writeSet
            && s.commits[StampOf(tx)].writeSet[k] == tx.wset[tx.phase.i].val
  {
    var tx := s.txs[t];
    assert TxInv(s.table, tx, t);
    assert WriterRegistered(tx, s.commits, s.tick);
    assert Holds(tx, tx.wset[tx.phase.i].key);
  }

  /** The tuple of `k` after the new version is in place: nothing recorded earlier moves. */
  ghost predicate Appended(old_: Tuple, new_: Tuple, st: Stamp, val: Val) {
    && |new_.versions| == |old_.versions| + 1
    && (forall i | 0 <= i < |old_.versions| :: new_.versions[i] == old_.versions[i])
    && new_.versions[|old_.versions|] == Version(st, val)
    && old_.tsw.Rts() < st.major
  }

  lemma AppendKeepsRead(table: seq<Tuple>, txs: seq<Tx>, table': seq<Tuple>, txs': seq<Tx>,
                        k: Key, w: Stamp, wval: Val, st: Stamp, ver: nat, val: Val)
    requires ReadRecorded(table, txs, st, k, ver, val) && |table'| == |table|
    requires Appended(table[k], table'[k], w, wval)
    requires forall x | Pending(table, txs, k, x) :: x == w
    ensures ReadRecorded(table', txs', st, k, ver, val)
  {
  }

  lemma ElsewhereKeepsRead(table: seq<Tuple>, txs: seq<Tx>, table': seq<Tuple>, txs': seq<Tx>,
                           k: Key, st: Stamp, ver: nat, val: Val)
    requires ReadRecorded(table, txs, st, k, ver, val) && |table'| == |table| && table'[k] == table[k]
    requires Pending(table, txs, k, st) ==> Pending(table', txs', k, st)
    ensures ReadRecorded(table', txs', st, k, ver, val)
  {
  }

  lemma StoreWordPending(s: State, s': State, t: nat, x: Key, st: Stamp)
    requires t < |s.txs| && StoreWord(s, s', t) && Pending(s.table, s.txs, x, st)
    requires x != s.txs[t].wset[s.txs[t].phase.i].key
    ensures Pending(s'.table, s'.txs, x, st)
  {
  }

  lemma StoreWordAppends(s: State, s': State, t: nat)
    requires Inv(s) && t < |s.txs| && StoreWord(s, s', t)
    ensures var tx := s.txs[t];
            var k := tx.wset[tx.phase.i].key;
            && Appended(s.table[k], s'.table[k], StampOf(tx), tx.wset[tx.phase.i].val)
            && forall x | Pending(s.table, s.txs, k, x) :: x == StampOf(tx)
  {
    StoreWordShape(s, s', t);
  }

  lemma StoreWordKeepsReads(s: State, s': State, t: nat)
    requires Inv(s) && t < |s.txs| && StoreWord(s, s', t)
    ensures forall st, x | st in s.commits && x in s.commits[st].readSet ::
              ReadRecorded(s'.table, s'.txs, st, x, s.sources[st][x], s.commits[st].readSet[x])
  {
    var tx := s.txs[t];
    var k := tx.wset[tx.phase.i].key;
    StoreWordAppends(s, s', t);
    forall st, x | st in s.commits && x in s.commits[st].readSet
      ensures ReadRecorded(s'.table, s'.txs, st, x, s.sources[st][x], s.commits[st].readSet[x])
    {
      if x == k {
        AppendKeepsRead(s.table, s.txs, s'.table, s'.txs, k, StampOf(tx), tx.wset[tx.phase.i].val,
                        st, s.sources[st][x], s.commits[st].readSet[x]);
      } else {
        if Pending(s.table, s.txs, x, st) {
          StoreWordPending(s, s', t, x, st);
        }
        ElsewhereKeepsRead(s.table, s.txs, s'.table, s'.txs, x, st, s.sources[st][x], s.commits[st].readSet[x]);
      }
    }
  }

  lemma StoreWordKeepsWrites(s: State, s': State, t: nat)
    requires Inv(s) && t < |s.txs| && StoreWord(s, s', t)
    ensures forall st, x | st in s.commits && x in s.commits[st].writeSet :: WriteRecorded(s'.table, s'.txs, st, x)
  {
    var tx := s.txs[t];
    var k := tx.wset[tx.phase.i].key;
    StoreWordAppends(s, s', t);
    forall st, x | st in s.commits && x in s.commits[st].writeSet ensures WriteRecorded(s'.table, s'.txs, st, x) {
      assert WriteRecorded(s.table, s.txs, st, x);
      if x == k {
        AppendInstalls(s.table[k], s'.table[k], StampOf(tx), tx.wset[tx.phase.i].val, st);
      } else if Pending(s.table, s.txs, x, st) {
        StoreWordPending(s, s', t, x, st);
      }
    }
  }

  lemma AppendInstalls(old_: Tuple, new_: Tuple, w: Stamp, val: Val, st: Stamp)
    requires Appended(old_, new_, w, val) && |old_.versions| >= 1
    requires Installed(old_, st) || st == w
    ensures Installed(new_, st)
  {
    if Installed(old_, st) {
      var j :| 1 <= j < |old_.versions| && old_.versions[j].stamp == st;
      assert new_.versions[j].stamp == st;
    } else {
      assert new_.versions[|old_.versions|].stamp == st;
    }
  }

  lemma StoreWordKeepsVersions(s: State, s': State, t: nat)
    requires Inv(s) && t < |s.txs| && StoreWord(s, s', t)
    ensures forall k | 0 <= k < |s'.table| :: VersionRecorded(s'.table[k], k, s'.commits)
    ensures forall u | 0 <= u < |s'.txs| :: WriterRegistered(s'.txs[u], s'.commits, s'.tick)
  {
    StoreWordShape(s, s', t);
    StoreWordAppends(s, s', t);
    forall k | 0 <= k < |s'.table| ensures VersionRecorded(s'.table[k], k, s'.commits) {
      assert VersionRecorded(s.table[k], k, s.commits);
    }
    forall u | 0 <= u < |s'.txs| ensures WriterRegistered(s'.txs[u], s'.commits, s'.tick) {
      assert WriterRegistered(s.txs[u], s.commits, s.tick);
    }
  }

  lemma StoreWordKeepsHistory(s: State, s': State, t: nat)
    requires Inv(s) && t < |s.txs| && StoreWord(s, s', t)
    ensures HistoryInv(s')
  {
    StoreWordKeepsVersions(s, s', t);
    StoreWordKeepsWrites(s, s', t);
    StoreWordKeepsReads(s, s', t);
  }

  lemma RewordStepKeepsHistory(s: State, s': State, t: nat)
    requires Inv(s) && t < |s.txs|
    requires LockOne(s, s', t) || ValidateExtend(s, s', t) || StorePayload(s, s', t) || UnlockStore(s, s', t)
    ensures HistoryInv(s')
  {
    var tx, tx' := s.txs[t], s'.txs[t];
    assert TxInv(s.table, tx, t);
    if ValidateExtend(s, s', t) {
      var k := tx.rset[tx.phase.i].key;
      ExtendArithmetic(s.table[k].tsw, tx.cts);
      RewordKeepsHistory(s, s', t, k, s'.table[k], tx');
    } else {
      var k := tx.wset[tx.phase.i].key;
      assert TupleInv(s.table[k]);
      if UnlockStore(s, s', t) {
        UnlockRestoresWord(s, s', t);
      }
      RewordKeepsHistory(s, s', t, k, s'.table[k], tx');
    }
  }

  lemma LocalStepKeepsHistory(s: State, s': State, t: nat)
    requires Inv(s) && t < |s.txs| && |s'.txs| == |s.txs| && s' == s.(txs := s.txs[t := s'.txs[t]])
    requires !InWritePhase(s'.txs[t])
    requires InWritePhase(s.txs[t]) ==> Finish(s, s', t)
    ensures HistoryInv(s')
  {
    assert TxInv(s.table, s.txs[t], t);
    if Finish(s, s', t) {
      NothingHeld(s.table, s.txs[t], s'.txs[t], t);
    }
    LocalKeepsHistory(s, s', t, s'.txs[t]);
  }

  ghost predicate LocalShape(s: State, s': State, t: nat) {
    && t < |s.txs| && |s'.txs| == |s.txs| && s' == s.(txs := s.txs[t := s'.txs[t]])
    && !InWritePhase(s'.txs[t])
    && (InWritePhase(s.txs[t]) ==> Finish(s, s', t))
  }

  lemma ReadStepsAreLocal(s: State, s': State, t: nat)
    requires t < |s.txs| && ReadPhaseStep(s, s', t)
    ensures LocalShape(s, s', t)
  {
  }

  lemma ValidationStepsAreLocal(s: State, s': State, t: nat)
    requires t < |s.txs| && ValidationStep(s, s', t)
    requires !LockOne(s, s', t) && !ValidateExtend(s, s', t) && !UnlockStore(s, s', t)
    ensures LocalShape(s, s', t)
  {
  }

  lemma StepKeepsHistory(s: State, s': State, t: nat)
    requires Inv(s) && StepBy(s, s', t)
    ensures HistoryInv(s')
  {
    if LockOne(s, s', t) || ValidateExtend(s, s', t) || StorePayload(s, s', t) || UnlockStore(s, s', t) {
      RewordStepKeepsHistory(s, s', t);
    } else if Commit(s, s', t) {
      CommitKeepsHistory(s, s', t);
    } else if StoreWord(s, s', t) {
      StoreWordKeepsHistory(s, s', t);
    } else {
      if ReadPhaseStep(s, s', t) {
        ReadStepsAreLocal(s, s', t);
      } else if ValidationStep(s, s', t) {
        ValidationStepsAreLocal(s, s', t);
      }
      LocalStepKeepsHistory(s, s', t);
    }
  }

  // --------------------------------------------------------- whole runs

  lemma InitEstablishes(s: State)
    requires Init(s)
    ensures Inv(s)
  {
  }

  /** Every step of every executor keeps the invariant. */
  lemma StepKeepsInv(s: State, s': State)
    requires Inv(s) && Next(s, s')
    ensures Inv(s')
  {
    var t: nat :| StepBy(s, s', t);
    StepKeepsTables(s, s', t);
    StepKeepsHistory(s, s', t);
  }

  lemma RunKeepsInv(run: seq<State>, i: nat)
    requires IsRun(run, Init, Next) && i < |run|
    ensures Inv(run[i])
  {
    forall s | Init(s) ensures Inv(s) {
      InitEstablishes(s);
    }
    forall s, s' | Inv(s) && Next(s, s') ensures Inv(s') {
      StepKeepsInv(s, s');
    }
    Invariant(run, Init, Next, Inv, i);
  }

  /** No version newer than the one that follows `ver` can be ordered before `at`. */
  lemma LaterVersionsAfter(tup: Tuple, ver: nat, at: Stamp, j: nat)
    requires TupleInv(tup) && ver < j < |tup.versions| && !Before(tup.versions[ver + 1].stamp, at)
    ensures !Before(tup.versions[j].stamp, at)
  {
    assert j > ver + 1 ==> tup.versions[ver + 1].stamp.major < tup.versions[j].stamp.major;
  }

  /** A committed write that is not in place yet is stamped after everything the
      word of its tuple covers. */
  lemma PendingAfterAll(s: State, k: Key, w: Stamp)
    requires TablesInv(s) && Pending(s.table, s.txs, k, w)
    ensures s.table[k].tsw.Rts() < w.major
  {
    var t := s.table[k].owner;
    assert TxInv(s.table, s.txs[t], t);
  }

  lemma PendingNotBefore(s: State, k: Key, at: Stamp, ver: nat, val: Val, w: Stamp)
    requires TablesInv(s) && ReadRecorded(s.table, s.txs, at, k, ver, val) && Pending(s.table, s.txs, k, w)
    ensures !Before(w, at)
  {
    PendingAfterAll(s, k, w);
    assert TupleInv(s.table[k]);
    if ver < s.table[k].Last() {
      VersionsAscend(s.table[k], ver + 1);
    }
  }

  /** A writer of `k` ordered before `at` put its version in place no later than the
      one `at` read. */
  lemma WriterPlaced(s: State, at: Stamp, k: Key, ver: nat, val: Val, w: Stamp)
    requires TablesInv(s) && ReadRecorded(s.table, s.txs, at, k, ver, val)
    requires WriteRecorded(s.table, s.txs, w, k) && Before(w, at)
    ensures ver > 0 && !Before(s.table[k].versions[ver].stamp, w)
  {
    var tup := s.table[k];
    assert TupleInv(tup);
    if Pending(s.table, s.txs, k, w) {
      PendingNotBefore(s, k, at, ver, val, w);
    }
    var j: nat :| 1 <= j < |tup.versions| && tup.versions[j].stamp == w;
    if j > ver {
      LaterVersionsAfter(tup, ver, at, j);
    }
    assert j < ver ==> tup.versions[j].stamp.major < tup.versions[ver].stamp.major;
  }

  lemma ReadsFromLast(s: State, at: Stamp, k: Key)
    requires Inv(s) && at in s.commits && k in s.commits[at].readSet
    requires forall x | 0 <= x < |s.table| :: s.table[x].versions != []
    ensures ReadsFromLastWriter(InitialTable(s), s.commits, at, k)
  {
    var ver := s.sources[at][k];
    assert ReadRecorded(s.table, s.txs, at, k, ver, s.commits[at].readSet[k]);
    var tup := s.table[k];
    assert TupleInv(tup) && VersionRecorded(tup, k, s.commits);
    forall w | w in s.commits && k in s.commits[w].writeSet && Before(w, at)
      ensures ver > 0 && !Before(tup.versions[ver].stamp, w)
    {
      assert WriteRecorded(s.table, s.txs, w, k);
      WriterPlaced(s, at, k, ver, s.commits[at].readSet[k], w);
    }
    if ver == 0 {
      assert NoWriterBefore(s.commits, k, at);
    } else {
      assert NoWriterBetween(s.commits, k, tup.versions[ver].stamp, at);
    }
  }

  /** Seen from a reachable state, its committed transactions are equivalent to their
      serial execution in commit-timestamp order, ties by physical commit. */
  lemma CommitsSerializable(run: seq<State>, i: nat)
    requires IsRun(run, Init, Next) && i < |run|
    ensures forall k | 0 <= k < |run[i].table| :: run[i].table[k].versions != []
    ensures Serializable(InitialTable(run[i]), run[i].commits)
  {
    var s := run[i];
    RunKeepsInv(run, i);
    forall k | 0 <= k < |s.table| ensures s.table[k].versions != [] {
      assert TupleInv(s.table[k]);
    }
    forall at, k | at in s.commits && k in s.commits[at].readSet
      ensures ReadsFromLastWriter(InitialTable(s), s.commits, at, k)
    {
      ReadsFromLast(s, at, k);
    }
    SerializableByReadsFrom(InitialTable(s), s.commits);
  }
}
