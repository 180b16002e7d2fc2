/** Silo is serializable in the order of epoch loads, and that order respects epochs. */
module SiloSafety {
  import opened SerialExecution
  import opened AccessSets
  import opened Runs
  import opened Silo

  // ------------------------------------------------------------ invariant

  /** Per-record TIDs, and the serial positions of their writers, strictly increase. */
  ghost predicate TupleInv(tup: Tuple) {
    && |tup.versions| > 0
    && (forall i, j | 0 <= i < j < |tup.versions| ::
          Before(tup.versions[i].tid, tup.versions[j].tid) && tup.versions[i].ser < tup.versions[j].ser)
    && tup.word.tid == tup.versions[tup.Last()].tid
    && (tup.word.lock <==> tup.owner >= 0)
    && (tup.dirty ==> tup.owner >= 0)
    && (!tup.dirty ==> tup.val == tup.versions[tup.Last()].val)
    && (tup.owner >= 0 ==> tup.versions[tup.Last()].ser < tup.lockedAt)
  }

  function HeldFrom(p: Phase): nat {
    match p
    case Writing(i) => i
    case Stored(i) => i
    case Unlocking(i, _) => i
    case UnlockLoaded(i, _, _) => i
    case _ => 0
  }

  function HeldTo(p: Phase, n: nat): nat {
    match p
    case Locking(i) => i
    case EpochLoaded => n
    case Validating(_) => n
    case Writing(_) => n
    case Stored(_) => n
    case Unlocking(_, end) => end
    case UnlockLoaded(_, end, _) => end
    case _ => 0
  }

  ghost predicate Holds(tx: Tx, k: Key) {
    exists j :: HeldFrom(tx.phase) <= j < HeldTo(tx.phase, |tx.wset|) && j < |tx.wset| && tx.wset[j].key == k
  }

  /** The transaction has passed its serialization point and not given up. */
  predicate Placed(p: Phase) {
    p.EpochLoaded? || p.Validating? || p.Writing? || p.Stored?
  }

  ghost predicate Owning(table: seq<Tuple>, tx: Tx, t: nat) {
    && HeldTo(tx.phase, |tx.wset|) <= |tx.wset|
    && HeldFrom(tx.phase) <= |tx.wset|
    && (forall k | 0 <= k < |table| :: table[k].owner == t <==> Holds(tx, k))
    && (forall k | 0 <= k < |table| && table[k].owner == t ::
          table[k].dirty <==> (tx.phase.Stored? && tx.phase.i < |tx.wset| && tx.wset[tx.phase.i].key == k))
    && (tx.phase.Stored? ==>
          tx.phase.i < |tx.wset| && tx.wset[tx.phase.i].key < |table|
          && table[tx.wset[tx.phase.i].key].val == tx.wset[tx.phase.i].val)
    && (tx.phase.UnlockLoaded? ==>
          tx.phase.i < tx.phase.end && tx.wset[tx.phase.i].key < |table|
          && tx.phase.word == table[tx.wset[tx.phase.i].key].word)
  }

  /** What the locked words say about the TID and the position to come. */
  ghost predicate Ordering(table: seq<Tuple>, tx: Tx, t: nat) {
    && (forall k | 0 <= k < |table| && table[k].owner == t && !tx.phase.Writing? && !tx.phase.Stored? ::
          (tx.phase.Locking? || Placed(tx.phase)) ==> !Before(tx.maxW, table[k].word.tid))
    && (forall k | 0 <= k < |table| && table[k].owner == t && (tx.phase.Writing? || tx.phase.Stored?) ::
          Before(table[k].word.tid, tx.mrctid))
    && (forall k | 0 <= k < |table| && table[k].owner == t && Placed(tx.phase) :: table[k].lockedAt < tx.ser)
  }

  ghost predicate SetsOk(table: seq<Tuple>, tx: Tx) {
    && DistinctKeys(tx.wset) && DistinctReads(tx.rset)
    && (forall j | 0 <= j < |tx.wset| :: tx.wset[j].key < |table|)
    && (forall j | 0 <= j < |tx.rset| :: tx.rset[j].key < |table|)
  }

  ghost predicate ItemOk(tup: Tuple, r: ReadItem) {
    && r.ver < |tup.versions| && tup.versions[r.ver].tid == r.tid && tup.versions[r.ver].val == r.val
  }

  ghost predicate ReadsOk(table: seq<Tuple>, tx: Tx) {
    && (forall j | 0 <= j < |tx.rset| :: tx.rset[j].key < |table| && ItemOk(table[tx.rset[j].key], tx.rset[j]))
    && (Placed(tx.phase) ==> forall j | 0 <= j < |tx.rset| ::
          table[tx.rset[j].key].versions[tx.rset[j].ver].ser < tx.ser)
  }

  ghost predicate CopyOk(table: seq<Tuple>, tx: Tx) {
    && (tx.phase.Spinning? || tx.phase.Loaded? || tx.phase.Copied? ==>
          tx.phase.key < |table| && !InReads(tx.rset, tx.phase.key))
    && (tx.phase.Loaded? ==>
          !tx.phase.expected.lock && !Before(table[tx.phase.key].word.tid, tx.phase.expected.tid))
    && (tx.phase.Copied? ==>
          && !tx.phase.expected.lock && !Before(table[tx.phase.key].word.tid, tx.phase.expected.tid)
          && (!table[tx.phase.key].dirty && tx.phase.expected.tid == table[tx.phase.key].word.tid ==>
                tx.phase.ver == table[tx.phase.key].Last()
                && |table[tx.phase.key].versions| > 0
                && tx.phase.val == table[tx.phase.key].versions[tx.phase.ver].val))
  }

  /** Whoever overwrites version `ver` is serialized after position `ser`. */
  ghost predicate Guards(tup: Tuple, ver: nat, ser: nat) {
    && ver < |tup.versions|
    && (ver < tup.Last() ==> ser < tup.versions[ver + 1].ser)
    && (ver == tup.Last() ==> tup.owner < 0 || ser < tup.lockedAt)
  }

  ghost predicate Certified(table: seq<Tuple>, tx: Tx, r: ReadItem)
    requires r.key < |table|
  {
    if HasKey(tx.wset, r.key) then r.ver == table[r.key].Last() else Guards(table[r.key], r.ver, tx.ser)
  }

  ghost predicate ValidationOk(table: seq<Tuple>, tx: Tx) {
    tx.phase.Validating? ==>
      && tx.phase.i <= |tx.rset|
      && (forall j | 0 <= j < tx.phase.i :: tx.rset[j].key < |table| && Certified(table, tx, tx.rset[j]))
  }

  ghost predicate TxInv(table: seq<Tuple>, tx: Tx, t: nat) {
    && SetsOk(table, tx) && Owning(table, tx, t) && Ordering(table, tx, t) && ReadsOk(table, tx)
    && CopyOk(table, tx) && ValidationOk(table, tx)
  }

  ghost predicate ClockInv(s: State) {
    && s.clock >= 1
    && (forall k | 0 <= k < |s.table| :: s.table[k].lockedAt < s.clock)
    && (forall k, j | 0 <= k < |s.table| && 0 <= j < |s.table[k].versions| :: s.table[k].versions[j].ser < s.clock)
    && (forall t | 0 <= t < |s.txs| && Placed(s.txs[t].phase) :: s.txs[t].ser < s.clock)
    && (forall t, u | 0 <= t < |s.txs| && 0 <= u < |s.txs| && t != u
                      && Placed(s.txs[t].phase) && Placed(s.txs[u].phase) :: s.txs[t].ser != s.txs[u].ser)
  }

  ghost predicate TablesInv(s: State) {
    && (forall k | 0 <= k < |s.table| :: TupleInv(s.table[k]) && s.table[k].owner < |s.txs|)
    && (forall t | 0 <= t < |s.txs| :: TxInv(s.table, s.txs[t], t))
    && ClockInv(s)
  }

  // ------------------------------------- what others may do to a tuple

  ghost predicate Evolves(old_: Tuple, new_: Tuple, t: nat, clock: nat) {
    && (new_.owner == t <==> old_.owner == t)
    && (old_.owner == t ==> new_ == old_)
    && (new_.owner >= 0 && old_.owner < 0 ==> new_.lockedAt >= clock)
    && (new_.owner >= 0 && old_.owner >= 0 ==> new_.lockedAt == old_.lockedAt)
    && (new_.versions == old_.versions ==> new_.word.tid == old_.word.tid && (old_.dirty ==> new_.dirty))
    && (new_.versions != old_.versions ==>
          && Before(old_.word.tid, new_.word.tid)
          && |new_.versions| == |old_.versions| + 1 && new_.versions[..|old_.versions|] == old_.versions
          && old_.owner >= 0 && old_.lockedAt < new_.versions[|old_.versions|].ser)
  }

  lemma VersionKept(old_: Tuple, new_: Tuple, t: nat, clock: nat, ver: nat)
    requires ver < |old_.versions| && Evolves(old_, new_, t, clock)
    ensures ver < |new_.versions| && new_.versions[ver] == old_.versions[ver]
  {
    if new_.versions != old_.versions {
      assert new_.versions[ver] == new_.versions[..|old_.versions|][ver];
    }
  }

  lemma GuardStable(old_: Tuple, new_: Tuple, t: nat, clock: nat, ver: nat, ser: nat)
    requires Guards(old_, ver, ser) && Evolves(old_, new_, t, clock) && ser < clock
    ensures Guards(new_, ver, ser)
  {
    if new_.versions != old_.versions {
      assert forall i | 0 <= i < |old_.versions| :: new_.versions[i] == new_.versions[..|old_.versions|][i];
    }
  }

  lemma CopyStable(table: seq<Tuple>, table': seq<Tuple>, tx: Tx, t: nat, clock: nat)
    requires CopyOk(table, tx) && |table'| == |table|
    requires forall k | 0 <= k < |table| :: Evolves(table[k], table'[k], t, clock)
    ensures CopyOk(table', tx)
  {
  }

  lemma ReadsStable(table: seq<Tuple>, table': seq<Tuple>, tx: Tx, t: nat, clock: nat)
    requires ReadsOk(table, tx) && |table'| == |table|
    requires forall k | 0 <= k < |table| :: Evolves(table[k], table'[k], t, clock)
    ensures ReadsOk(table', tx)
  {
    forall j | 0 <= j < |tx.rset|
      ensures tx.rset[j].key < |table|
      ensures ItemOk(table'[tx.rset[j].key], tx.rset[j])
      ensures table'[tx.rset[j].key].versions[tx.rset[j].ver] == table[tx.rset[j].key].versions[tx.rset[j].ver]
    {
      assert ItemOk(table[tx.rset[j].key], tx.rset[j]);
      VersionKept(table[tx.rset[j].key], table'[tx.rset[j].key], t, clock, tx.rset[j].ver);
    }
  }

  lemma ValidationStable(table: seq<Tuple>, table': seq<Tuple>, tx: Tx, t: nat, clock: nat)
    requires ValidationOk(table, tx) && Owning(table, tx, t) && |table'| == |table|
    requires Placed(tx.phase) ==> tx.ser < clock
    requires forall k | 0 <= k < |table| :: Evolves(table[k], table'[k], t, clock)
    ensures ValidationOk(table', tx)
  {
    if tx.phase.Validating? {
      forall j | 0 <= j < tx.phase.i ensures Certified(table', tx, tx.rset[j]) {
        var r := tx.rset[j];
        assert Certified(table, tx, r);
        if HasKey(tx.wset, r.key) {
          assert Holds(tx, r.key);
        } else {
          GuardStable(table[r.key], table'[r.key], t, clock, r.ver, tx.ser);
        }
      }
    }
  }

  lemma TxStable(table: seq<Tuple>, table': seq<Tuple>, tx: Tx, t: nat, clock: nat)
    requires TxInv(table, tx, t) && |table'| == |table|
    requires Placed(tx.phase) ==> tx.ser < clock
    requires forall k | 0 <= k < |table| :: Evolves(table[k], table'[k], t, clock)
    ensures TxInv(table', tx, t)
  {
    CopyStable(table, table', tx, t, clock);
    ReadsStable(table, table', tx, t, clock);
    ValidationStable(table, table', tx, t, clock);
  }

  // -------------------------------------------------- steps keep TablesInv

  /** Steps of executor `t` that leave the shared tuples alone and do not place it. */
  lemma LocalKeepsTables(s: State, s': State, t: nat)
    requires TablesInv(s) && t < |s.txs|
    requires s'.table == s.table && |s'.txs| == |s.txs| && s'.txs == s.txs[t := s'.txs[t]] && s'.clock == s.clock
    requires TxInv(s.table, s'.txs[t], t)
    requires Placed(s'.txs[t].phase) ==> Placed(s.txs[t].phase) && s'.txs[t].ser == s.txs[t].ser
    ensures TablesInv(s')
  {
  }

  /** Steps of executor `t` that replace the tuple of key `k`. */
  lemma UpdateKeepsTables(s: State, s': State, t: nat, k: Key, tup: Tuple)
    requires TablesInv(s) && t < |s.txs| && k < |s.table|
    requires s'.table == s.table[k := tup] && |s'.txs| == |s.txs| && s'.txs == s.txs[t := s'.txs[t]]
    requires s'.clock >= s.clock && TupleInv(tup) && tup.owner < |s.txs|
    requires tup.lockedAt < s'.clock && forall j | 0 <= j < |tup.versions| :: tup.versions[j].ser < s'.clock
    requires forall u: nat | u != t :: Evolves(s.table[k], tup, u, s.clock)
    requires TxInv(s'.table, s'.txs[t], t)
    requires Placed(s'.txs[t].phase) ==> Placed(s.txs[t].phase) && s'.txs[t].ser == s.txs[t].ser
    ensures TablesInv(s')
  {
    forall u | 0 <= u < |s'.txs| ensures TxInv(s'.table, s'.txs[u], u) {
      if u != t {
        TxStable(s.table, s'.table, s.txs[u], u, s.clock);
      }
    }
    ClockKept(s, s', t, k);
  }

  lemma ClockKept(s: State, s': State, t: nat, k: Key)
    requires ClockInv(s) && t < |s.txs| && k < |s.table| && |s'.table| == |s.table|
    requires s'.table == s.table[k := s'.table[k]] && |s'.txs| == |s.txs| && s'.txs == s.txs[t := s'.txs[t]]
    requires s'.clock >= s.clock && s'.table[k].lockedAt < s'.clock
    requires forall j | 0 <= j < |s'.table[k].versions| :: s'.table[k].versions[j].ser < s'.clock
    requires Placed(s'.txs[t].phase) ==> Placed(s.txs[t].phase) && s'.txs[t].ser == s.txs[t].ser
    ensures ClockInv(s')
  {
    forall x, j | 0 <= x < |s'.table| && 0 <= j < |s'.table[x].versions|
      ensures s'.table[x].versions[j].ser < s'.clock
    {
      assert x != k ==> s.table[x].versions[j].ser < s.clock;
    }
  }

  lemma NothingHeld(table: seq<Tuple>, tx: Tx, tx': Tx, t: nat)
    requires Owning(table, tx, t)
    requires HeldFrom(tx.phase) >= HeldTo(tx.phase, |tx.wset|)
    requires HeldFrom(tx'.phase) >= HeldTo(tx'.phase, |tx'.wset|)
    requires HeldFrom(tx'.phase) <= |tx'.wset| && !tx'.phase.Stored? && !tx'.phase.UnlockLoaded?
    ensures Owning(table, tx', t) && Ordering(table, tx', t)
    ensures forall k | 0 <= k < |table| :: table[k].owner != t
  {
    forall k | 0 <= k < |table| ensures table[k].owner != t && !Holds(tx', k) {
      assert !Holds(tx, k);
    }
  }

  lemma BeginKeepsTables(s: State, s': State, t: nat)
    requires TablesInv(s) && t < |s.txs| && Begin(s, s', t)
    ensures TablesInv(s')
  {
    assert TxInv(s.table, s.txs[t], t);
    NothingHeld(s.table, s.txs[t], s'.txs[t], t);
    LocalKeepsTables(s, s', t);
  }

  lemma LeaderTx(s: State, s': State, t: nat)
    requires t < |s.txs| && LeaderStep(s, s', t) && TxInv(s.table, s.txs[t], t)
    ensures s'.table == s.table && s'.clock == s.clock && |s'.txs| == |s.txs| && s'.txs == s.txs[t := s'.txs[t]]
    ensures TxInv(s.table, s'.txs[t], t) && !Placed(s'.txs[t].phase)
  {
    NothingHeld(s.table, s.txs[t], s'.txs[t], t);
  }

  lemma LeaderKeepsTables(s: State, s': State, t: nat)
    requires TablesInv(s) && t < |s.txs| && LeaderStep(s, s', t)
    ensures TablesInv(s')
  {
    LeaderTx(s, s', t);
    LocalKeepsTables(s, s', t);
  }

  lemma ReadWordKeepsTables(s: State, s': State, t: nat)
    requires TablesInv(s) && t < |s.txs|
    requires (exists k :: ReadStart(s, s', t, k)) || ReadLoad(s, s', t) || ReadAgain(s, s', t)
    ensures TablesInv(s')
  {
    assert TxInv(s.table, s.txs[t], t);
    ReadWordTx(s, s', t);
    LocalKeepsTables(s, s', t);
  }

  lemma ReadStartTx(s: State, s': State, t: nat, k: Key)
    requires t < |s.txs| && TxInv(s.table, s.txs[t], t) && ReadStart(s, s', t, k)
    ensures TxInv(s.table, s'.txs[t], t)
  {
    NothingHeld(s.table, s.txs[t], s'.txs[t], t);
  }

  lemma ReadWordTx(s: State, s': State, t: nat)
    requires t < |s.txs| && TxInv(s.table, s.txs[t], t)
    requires (exists k :: ReadStart(s, s', t, k)) || ReadLoad(s, s', t) || ReadAgain(s, s', t)
    ensures TxInv(s.table, s'.txs[t], t)
  {
    if k :| ReadStart(s, s', t, k) {
      ReadStartTx(s, s', t, k);
    } else {
      NothingHeld(s.table, s.txs[t], s'.txs[t], t);
    }
  }

  lemma ReadCopyKeepsTables(s: State, s': State, t: nat)
    requires TablesInv(s) && t < |s.txs| && ReadCopy(s, s', t)
    ensures TablesInv(s')
  {
    assert TxInv(s.table, s.txs[t], t);
    NothingHeld(s.table, s.txs[t], s'.txs[t], t);
    LocalKeepsTables(s, s', t);
  }

  lemma ReadDoneKeepsTables(s: State, s': State, t: nat)
    requires TablesInv(s) && t < |s.txs| && ReadDone(s, s', t)
    ensures TablesInv(s')
  {
    var tx := s.txs[t];
    var tx' := s'.txs[t];
    assert TxInv(s.table, tx, t);
    NothingHeld(s.table, tx, tx', t);
    assert TupleInv(s.table[tx.phase.key]);
    assert ItemOk(s.table[tx.phase.key], tx'.rset[|tx.rset|]);
    assert forall j | 0 <= j < |tx.rset| :: tx'.rset[j] == tx.rset[j];
    LocalKeepsTables(s, s', t);
  }

  lemma WriteKeepsTables(s: State, s': State, t: nat, k: Key, v: Val)
    requires TablesInv(s) && t < |s.txs| && Write(s, s', t, k, v)
    ensures TablesInv(s')
  {
    var tx := s.txs[t];
    assert TxInv(s.table, tx, t);
    NothingHeld(s.table, tx, s'.txs[t], t);
    assert forall j | 0 <= j < |tx.wset| :: s'.txs[t].wset[j] == tx.wset[j];
    LocalKeepsTables(s, s', t);
  }

  lemma SortWritesKeepsTables(s: State, s': State, t: nat, sorted: seq<WriteItem>)
    requires TablesInv(s) && t < |s.txs| && SortWrites(s, s', t, sorted)
    ensures TablesInv(s')
  {
    var tx := s.txs[t];
    assert TxInv(s.table, tx, t);
    SortKeepsKeys(tx.wset, sorted);
    NothingHeld(s.table, tx, s'.txs[t], t);
    LocalKeepsTables(s, s', t);
  }

  /** Read items of the executor that changed the tuple itself. */
  lemma OwnItemsKept(table: seq<Tuple>, table': seq<Tuple>, tx: Tx, tx': Tx, k: Key)
    requires ReadsOk(table, tx) && tx'.rset == tx.rset && k < |table| && |table'| == |table|
    requires table' == table[k := table'[k]]
    requires Placed(tx'.phase) ==> Placed(tx.phase) && tx'.ser == tx.ser
    requires |table'[k].versions| >= |table[k].versions|
    requires forall i | 0 <= i < |table[k].versions| :: table'[k].versions[i] == table[k].versions[i]
    ensures ReadsOk(table', tx')
  {
    forall j | 0 <= j < |tx'.rset|
      ensures tx.rset[j].key < |table|
      ensures ItemOk(table'[tx'.rset[j].key], tx'.rset[j])
      ensures table'[tx.rset[j].key].versions[tx.rset[j].ver] == table[tx.rset[j].key].versions[tx.rset[j].ver]
    {
      assert ItemOk(table[tx.rset[j].key], tx.rset[j]);
    }
  }

  lemma LockOneKeepsTables(s: State, s': State, t: nat)
    requires TablesInv(s) && t < |s.txs| && LockOne(s, s', t)
    ensures TablesInv(s')
  {
    var tx, tx' := s.txs[t], s'.txs[t];
    assert TxInv(s.table, tx, t);
    var k := tx.wset[tx.phase.i].key;
    assert TupleInv(s.table[k]);
    LockOneHolds(tx, tx');
    assert Owning(s'.table, tx', t);
    LockOneOrdering(s.table, s'.table, tx, tx', t, k);
    OwnItemsKept(s.table, s'.table, tx, tx', k);
    assert CopyOk(s'.table, tx');
    UpdateKeepsTables(s, s', t, k, s'.table[k]);
  }

  lemma LockOneHolds(tx: Tx, tx': Tx)
    requires tx.phase.Locking? && tx.phase.i < |tx.wset|
    requires tx'.phase == Locking(tx.phase.i + 1) && tx'.wset == tx.wset
    ensures forall x: Key :: Holds(tx', x) <==> Holds(tx, x) || x == tx.wset[tx.phase.i].key
  {
    forall x: Key ensures Holds(tx', x) <==> Holds(tx, x) || x == tx.wset[tx.phase.i].key {
      if Holds(tx, x) {
        var j :| 0 <= j < tx.phase.i && tx.wset[j].key == x;
        assert tx'.wset[j].key == x;
      }
      assert tx'.wset[tx.phase.i].key == tx.wset[tx.phase.i].key;
    }
  }

  lemma LockOneOrdering(table: seq<Tuple>, table': seq<Tuple>, tx: Tx, tx': Tx, t: nat, k: Key)
    requires Ordering(table, tx, t) && tx.phase.Locking? && tx'.phase.Locking?
    requires k < |table| && |table'| == |table| && table' == table[k := table'[k]]
    requires table'[k].word.tid == table[k].word.tid && tx'.maxW == MaxTid(tx.maxW, table[k].word.tid)
    ensures Ordering(table', tx', t)
  {
  }

  lemma SamePossessions(table: seq<Tuple>, tx: Tx, tx': Tx, t: nat)
    requires Owning(table, tx, t) && tx'.wset == tx.wset
    requires HeldFrom(tx'.phase) == HeldFrom(tx.phase)
    requires HeldTo(tx'.phase, |tx'.wset|) == HeldTo(tx.phase, |tx.wset|)
    requires !tx.phase.Stored? && !tx'.phase.Stored? && !tx'.phase.UnlockLoaded?
    ensures Owning(table, tx', t)
  {
    forall x | 0 <= x < |table| ensures Holds(tx', x) <==> Holds(tx, x) {
    }
  }

  lemma GiveUpKeepsTables(s: State, s': State, t: nat)
    requires TablesInv(s) && t < |s.txs| && (LockFail(s, s', t) || ValidateFail(s, s', t))
    ensures TablesInv(s')
  {
    var tx, tx' := s.txs[t], s'.txs[t];
    assert TxInv(s.table, tx, t);
    SamePossessions(s.table, tx, tx', t);
    LocalKeepsTables(s, s', t);
  }

  /** The serialization point: every lock was taken, and every version read was
      installed by a transaction placed, strictly earlier. */
  lemma LoadEpochKeepsTables(s: State, s': State, t: nat)
    requires TablesInv(s) && t < |s.txs| && LoadEpoch(s, s', t)
    ensures TablesInv(s')
  {
    var tx, tx' := s.txs[t], s'.txs[t];
    assert TxInv(s.table, tx, t);
    SamePossessions(s.table, tx, tx', t);
    assert Ordering(s.table, tx', t);
    assert ReadsOk(s.table, tx') by {
      forall j | 0 <= j < |tx.rset| ensures s.table[tx.rset[j].key].versions[tx.rset[j].ver].ser < tx'.ser {
        assert ItemOk(s.table[tx.rset[j].key], tx.rset[j]);
      }
    }
    assert TxInv(s'.table, tx', t);
    assert forall u | 0 <= u < |s'.txs| && u != t :: s'.txs[u] == s.txs[u];
  }

  lemma StoreEpochKeepsTables(s: State, s': State, t: nat)
    requires TablesInv(s) && t < |s.txs| && StoreEpoch(s, s', t)
    ensures TablesInv(s')
  {
    var tx, tx' := s.txs[t], s'.txs[t];
    assert TxInv(s.table, tx, t);
    SamePossessions(s.table, tx, tx', t);
    LocalKeepsTables(s, s', t);
  }

  /** TIDs never repeat, so an unchanged TID means an unchanged version. */
  lemma LastByTid(tup: Tuple, r: ReadItem)
    requires TupleInv(tup) && ItemOk(tup, r) && tup.word.tid == r.tid
    ensures r.ver == tup.Last()
  {
  }

  lemma ValidateOkKeepsTables(s: State, s': State, t: nat)
    requires TablesInv(s) && t < |s.txs| && ValidateOk(s, s', t)
    ensures TablesInv(s')
  {
    var tx, tx' := s.txs[t], s'.txs[t];
    assert TxInv(s.table, tx, t);
    SamePossessions(s.table, tx, tx', t);
    var r := tx.rset[tx.phase.i];
    assert ItemOk(s.table[r.key], r) && TupleInv(s.table[r.key]);
    LastByTid(s.table[r.key], r);
    assert Certified(s.table, tx, r);
    assert ValidationOk(s.table, tx') by {
      forall j | 0 <= j < tx'.phase.i ensures Certified(s.table, tx', tx'.rset[j]) {
        assert j < tx.phase.i ==> Certified(s.table, tx, tx.rset[j]);
      }
    }
    LocalKeepsTables(s, s', t);
  }

  /** The commit TID exceeds every TID the transaction overwrites. */
  lemma CommitTidAbove(tx: Tx, epoch: nat, tid: Stamp)
    requires !Before(tx.maxW, tid)
    ensures Before(tid, CommitTid(tx, epoch))
  {
  }

  lemma EnterWritePhase(table: seq<Tuple>, tx: Tx, tx': Tx, t: nat, tid: Stamp)
    requires TxInv(table, tx, t) && tx.phase.Validating?
    requires forall k | 0 <= k < |table| && table[k].owner == t :: Before(table[k].word.tid, tid)
    requires tx' == tx.(phase := Writing(0), mrctid := tid)
    ensures TxInv(table, tx', t)
  {
    SamePossessions(table, tx, tx', t);
  }

  lemma CommitTidAboveHeld(table: seq<Tuple>, tx: Tx, t: nat, epoch: nat)
    requires Ordering(table, tx, t) && tx.phase.Validating?
    ensures forall k | 0 <= k < |table| && table[k].owner == t :: Before(table[k].word.tid, CommitTid(tx, epoch))
  {
    forall k | 0 <= k < |table| && table[k].owner == t ensures Before(table[k].word.tid, CommitTid(tx, epoch)) {
      CommitTidAbove(tx, epoch, table[k].word.tid);
    }
  }

  lemma CommitKeepsTables(s: State, s': State, t: nat)
    requires TablesInv(s) && t < |s.txs| && Commit(s, s', t)
    ensures TablesInv(s')
  {
    var tx := s.txs[t];
    assert TxInv(s.table, tx, t);
    CommitTidAboveHeld(s.table, tx, t, s.localEpoch[t]);
    EnterWritePhase(s.table, tx, s'.txs[t], t, CommitTid(tx, s.localEpoch[t]));
    LocalKeepsTables(s, s', t);
  }

  lemma FinishKeepsTables(s: State, s': State, t: nat)
    requires TablesInv(s) && t < |s.txs| && (Finish(s, s', t) || Aborted(s, s', t))
    ensures TablesInv(s')
  {
    assert TxInv(s.table, s.txs[t], t);
    NothingHeld(s.table, s.txs[t], s'.txs[t], t);
    LocalKeepsTables(s, s', t);
  }

  lemma StorePayloadKeepsTables(s: State, s': State, t: nat)
    requires TablesInv(s) && t < |s.txs| && StorePayload(s, s', t)
    ensures TablesInv(s')
  {
    var tx, tx' := s.txs[t], s'.txs[t];
    assert TxInv(s.table, tx, t);
    var k := tx.wset[tx.phase.i].key;
    assert TupleInv(s.table[k]);
    assert Holds(tx, k);
    forall x | 0 <= x < |s.table| ensures Holds(tx', x) <==> Holds(tx, x) {
    }
    assert Owning(s'.table, tx', t);
    OwnItemsKept(s.table, s'.table, tx, tx', k);
    UpdateKeepsTables(s, s', t, k, s'.table[k]);
  }

  lemma ReleaseFirst(tx: Tx, tx': Tx, k: Key)
    requires DistinctKeys(tx.wset) && tx'.wset == tx.wset
    requires HeldFrom(tx.phase) < HeldTo(tx.phase, |tx.wset|) <= |tx.wset|
    requires HeldFrom(tx'.phase) == HeldFrom(tx.phase) + 1
    requires HeldTo(tx'.phase, |tx.wset|) == HeldTo(tx.phase, |tx.wset|)
    requires tx.wset[HeldFrom(tx.phase)].key == k
    ensures Holds(tx, k)
    ensures forall x: Key :: Holds(tx', x) <==> Holds(tx, x) && x != k
  {
    forall x: Key ensures Holds(tx', x) <==> Holds(tx, x) && x != k {
      if Holds(tx', x) {
        var j :| HeldFrom(tx'.phase) <= j < HeldTo(tx'.phase, |tx'.wset|) && j < |tx'.wset| && tx'.wset[j].key == x;
        assert tx.wset[j].key == x;
      }
      if Holds(tx, x) && x != k {
        var j :| HeldFrom(tx.phase) <= j < HeldTo(tx.phase, |tx.wset|) && j < |tx.wset| && tx.wset[j].key == x;
        assert tx'.wset[j].key == x;
      }
    }
  }

  lemma StoreWordTuple(s: State, s': State, t: nat)
    requires TablesInv(s) && t < |s.txs| && StoreWord(s, s', t)
    ensures var k := s.txs[t].wset[s.txs[t].phase.i].key;
            && TupleInv(s'.table[k]) && s.table[k].owner == t
            && (forall u: nat | u != t :: Evolves(s.table[k], s'.table[k], u, s.clock))
            && (forall j | 0 <= j < |s'.table[k].versions| :: s'.table[k].versions[j].ser < s.clock)
  {
    var tx := s.txs[t];
    assert TxInv(s.table, tx, t);
    var k := tx.wset[tx.phase.i].key;
    var tup, tup' := s.table[k], s'.table[k];
    assert TupleInv(tup);
    assert Holds(tx, k);
    assert Before(tup.word.tid, tx.mrctid) && tup.lockedAt < tx.ser;
    AppendAscends(tup, tup', Version(tx.mrctid, tx.ser, tx.wset[tx.phase.i].val));
    assert tup'.versions[..|tup.versions|] == tup.versions;
  }

  lemma AppendAscends(tup: Tuple, tup': Tuple, v: Version)
    requires TupleInv(tup) && tup'.versions == tup.versions + [v]
    requires Before(tup.word.tid, v.tid) && tup.versions[tup.Last()].ser < v.ser
    ensures forall i, j | 0 <= i < j < |tup'.versions| ::
              Before(tup'.versions[i].tid, tup'.versions[j].tid) && tup'.versions[i].ser < tup'.versions[j].ser
  {
    forall i, j | 0 <= i < j < |tup'.versions|
      ensures Before(tup'.versions[i].tid, tup'.versions[j].tid) && tup'.versions[i].ser < tup'.versions[j].ser
    {
      if j == |tup.versions| && i < tup.Last() {
        assert Before(tup.versions[i].tid, tup.versions[tup.Last()].tid);
      }
    }
  }

  lemma StoreWordKeepsTables(s: State, s': State, t: nat)
    requires TablesInv(s) && t < |s.txs| && StoreWord(s, s', t)
    ensures TablesInv(s')
  {
    var tx, tx' := s.txs[t], s'.txs[t];
    assert TxInv(s.table, tx, t);
    var k := tx.wset[tx.phase.i].key;
    StoreWordTuple(s, s', t);
    ReleaseFirst(tx, tx', k);
    assert Owning(s'.table, tx', t);
    OwnItemsKept(s.table, s'.table, tx, tx', k);
    UpdateKeepsTables(s, s', t, k, s'.table[k]);
  }

  lemma UnlockLoadKeepsTables(s: State, s': State, t: nat)
    requires TablesInv(s) && t < |s.txs| && UnlockLoad(s, s', t)
    ensures TablesInv(s')
  {
    var tx, tx' := s.txs[t], s'.txs[t];
    assert TxInv(s.table, tx, t);
    forall x | 0 <= x < |s.table| ensures Holds(tx', x) <==> Holds(tx, x) {
    }
    assert Owning(s'.table, tx', t);
    LocalKeepsTables(s, s', t);
  }

  /** The plain load and store of an unlock puts back exactly the word that was locked. */
  lemma UnlockRestoresWord(s: State, s': State, t: nat)
    requires TablesInv(s) && t < |s.txs| && UnlockStore(s, s', t)
    ensures var k := s.txs[t].wset[s.txs[t].phase.i].key;
            && s.table[k].word.lock && s.table[k].owner == t
            && s'.table[k] == s.table[k].(word := s.table[k].word.(lock := false), owner := -1)
  {
    var tx := s.txs[t];
    assert TxInv(s.table, tx, t);
    assert TupleInv(s.table[tx.wset[tx.phase.i].key]);
    assert Holds(tx, tx.wset[tx.phase.i].key);
  }

  lemma UnlockStoreKeepsTables(s: State, s': State, t: nat)
    requires TablesInv(s) && t < |s.txs| && UnlockStore(s, s', t)
    ensures TablesInv(s')
  {
    var tx, tx' := s.txs[t], s'.txs[t];
    assert TxInv(s.table, tx, t);
    var k := tx.wset[tx.phase.i].key;
    UnlockRestoresWord(s, s', t);
    assert TupleInv(s.table[k]);
    ReleaseFirst(tx, tx', k);
    assert Owning(s'.table, tx', t);
    OwnItemsKept(s.table, s'.table, tx, tx', k);
    UpdateKeepsTables(s, s', t, k, s'.table[k]);
  }

  lemma ReadPhaseKeepsTables(s: State, s': State, t: nat)
    requires TablesInv(s) && t < |s.txs| && ReadPhaseStep(s, s', t)
    ensures TablesInv(s')
  {
    if ReadCopy(s, s', t) {
      ReadCopyKeepsTables(s, s', t);
    } else if ReadDone(s, s', t) {
      ReadDoneKeepsTables(s, s', t);
    } else if k, v :| Write(s, s', t, k, v) {
      WriteKeepsTables(s, s', t, k, v);
    } else if Begin(s, s', t) {
      BeginKeepsTables(s, s', t);
    } else {
      ReadWordKeepsTables(s, s', t);
    }
  }

  lemma ValidationKeepsTables(s: State, s': State, t: nat)
    requires TablesInv(s) && t < |s.txs| && ValidationStep(s, s', t)
    ensures TablesInv(s')
  {
    if sorted :| SortWrites(s, s', t, sorted) {
      SortWritesKeepsTables(s, s', t, sorted);
    } else if LockOne(s, s', t) {
      LockOneKeepsTables(s, s', t);
    } else if LockFail(s, s', t) || ValidateFail(s, s', t) {
      GiveUpKeepsTables(s, s', t);
    } else if LoadEpoch(s, s', t) {
      LoadEpochKeepsTables(s, s', t);
    } else if StoreEpoch(s, s', t) {
      StoreEpochKeepsTables(s, s', t);
    } else if ValidateOk(s, s', t) {
      ValidateOkKeepsTables(s, s', t);
    } else if UnlockLoad(s, s', t) {
      UnlockLoadKeepsTables(s, s', t);
    } else if UnlockStore(s, s', t) {
      UnlockStoreKeepsTables(s, s', t);
    } else {
      FinishKeepsTables(s, s', t);
    }
  }

  lemma StepKeepsTables(s: State, s': State, t: nat)
    requires TablesInv(s) && StepBy(s, s', t)
    ensures TablesInv(s')
  {
    if ReadPhaseStep(s, s', t) {
      ReadPhaseKeepsTables(s, s', t);
    } else if ValidationStep(s, s', t) {
      ValidationKeepsTables(s, s', t);
    } else if LeaderStep(s, s', t) {
      LeaderKeepsTables(s, s', t);
    } else if Commit(s, s', t) {
      CommitKeepsTables(s, s', t);
    } else if StorePayload(s, s', t) {
      StorePayloadKeepsTables(s, s', t);
    } else if StoreWord(s, s', t) {
      StoreWordKeepsTables(s, s', t);
    } else {
      FinishKeepsTables(s, s', t);
    }
  }

  // ------------------------------------------------- steps keep HistoryInv

  predicate InWritePhase(tx: Tx) { tx.phase.Writing? || tx.phase.Stored? }

  function StampOf(tx: Tx): Stamp { Stamp(tx.ser, 0) }

  /** Transaction `st` has committed but its version of `k` is not in place yet. */
  ghost predicate Pending(table: seq<Tuple>, txs: seq<Tx>, k: Key, st: Stamp) {
    && k < |table| && 0 <= table[k].owner < |txs|
    && InWritePhase(txs[table[k].owner]) && StampOf(txs[table[k].owner]) == st
  }

  ghost predicate WriterRegistered(tx: Tx, commits: map<Stamp, Txn>) {
    InWritePhase(tx) ==>
      DistinctKeys(tx.wset) && StampOf(tx) in commits && commits[StampOf(tx)].writeSet == WriteMap(tx.wset)
  }

  ghost predicate VersionRecorded(tup: Tuple, k: Key, commits: map<Stamp, Txn>) {
    && tup.versions != [] && tup.versions[0].ser == 0
    && forall j | 1 <= j < |tup.versions| ::
         var st := Stamp(tup.versions[j].ser, 0);
         st in commits && k in commits[st].writeSet && commits[st].writeSet[k] == tup.versions[j].val
  }

  ghost predicate Installed(tup: Tuple, st: Stamp) {
    exists j :: 1 <= j < |tup.versions| && Stamp(tup.versions[j].ser, 0) == st
  }

  ghost predicate WriteRecorded(table: seq<Tuple>, txs: seq<Tx>, st: Stamp, k: Key) {
    k < |table| && (Installed(table[k], st) || Pending(table, txs, k, st))
  }

  /** Version `ver` is the last one serialized before `st`. */
  ghost predicate ReadRecorded(table: seq<Tuple>, txs: seq<Tx>, st: Stamp, k: Key, ver: nat, val: Val) {
    && k < |table| && ver < |table[k].versions|
    && table[k].versions[ver].val == val
    && table[k].versions[ver].ser < st.major
    && (ver < table[k].Last() ==> st.major <= table[k].versions[ver + 1].ser)
    && (ver == table[k].Last() ==>
          table[k].owner < 0 || st.major < table[k].lockedAt || Pending(table, txs, k, st))
  }

  /** Transactions in flight that are already placed have not committed yet, or are
      the ones writing under their own stamp. */
  ghost predicate HistoryInv(s: State) {
    && s.sources.Keys == s.commits.Keys
    && (forall st | st in s.commits :: st.minor == 0 && st.major < s.clock)
    && (forall st | st in s.commits :: s.sources[st].Keys == s.commits[st].readSet.Keys)
    && (forall t | 0 <= t < |s.txs| && Placed(s.txs[t].phase) && !InWritePhase(s.txs[t]) ::
          StampOf(s.txs[t]) !in s.commits)
    && (forall k | 0 <= k < |s.table| :: VersionRecorded(s.table[k], k, s.commits))
    && (forall t | 0 <= t < |s.txs| :: WriterRegistered(s.txs[t], s.commits))
    && (forall st, k | st in s.commits && k in s.commits[st].writeSet :: WriteRecorded(s.table, s.txs, st, k))
    && (forall st, k | st in s.commits && k in s.commits[st].readSet ::
          ReadRecorded(s.table, s.txs, st, k, s.sources[st][k], s.commits[st].readSet[k]))
  }

  ghost predicate WriterUndisturbed(table: seq<Tuple>, tx: Tx, tx': Tx, t: nat) {
    && (InWritePhase(tx) ==>
          || (InWritePhase(tx') && StampOf(tx') == StampOf(tx))
          || forall k | 0 <= k < |table| :: table[k].owner != t)
    && (InWritePhase(tx') ==> InWritePhase(tx) && StampOf(tx') == StampOf(tx) && tx'.wset == tx.wset)
  }

  /** Steps that change neither tuples nor history; the clock may advance. */
  lemma LocalKeepsHistory(s: State, s': State, t: nat)
    requires HistoryInv(s) && t < |s.txs| && s'.table == s.table
    requires |s'.txs| == |s.txs| && s'.txs == s.txs[t := s'.txs[t]]
    requires s'.commits == s.commits && s'.sources == s.sources && s'.clock >= s.clock
    requires WriterUndisturbed(s.table, s.txs[t], s'.txs[t], t)
    requires Placed(s'.txs[t].phase) && !InWritePhase(s'.txs[t]) ==>
               || (Placed(s.txs[t].phase) && !InWritePhase(s.txs[t]) && s'.txs[t].ser == s.txs[t].ser)
               || s'.txs[t].ser == s.clock
    ensures HistoryInv(s')
  {
    forall k, st | Pending(s.table, s.txs, k, st) ensures Pending(s'.table, s'.txs, k, st) {
    }
    assert WriterRegistered(s.txs[t], s.commits);
  }

  /** A change of word, payload or ownership of key `k` that installs no version. */
  ghost predicate Rewords(s: State, s': State, t: nat, k: Key) {
    && t < |s.txs| && k < |s.table| && |s'.table| == |s.table|
    && |s'.txs| == |s.txs| && s'.txs == s.txs[t := s'.txs[t]] && s'.table == s.table[k := s'.table[k]]
    && s'.commits == s.commits && s'.sources == s.sources && s'.clock >= s.clock
    && s'.table[k].versions == s.table[k].versions
    && (s'.table[k].owner < 0 || (s'.table[k].owner == s.table[k].owner && s'.table[k].lockedAt == s.table[k].lockedAt)
        || (s.table[k].owner < 0 && s'.table[k].lockedAt == s.clock))
    && (InWritePhase(s'.txs[t]) <==> InWritePhase(s.txs[t]))
    && (Placed(s'.txs[t].phase) ==> Placed(s.txs[t].phase))
    && s'.txs[t].ser == s.txs[t].ser && s'.txs[t].wset == s.txs[t].wset
    && (forall st | Pending(s.table, s.txs, k, st) :: s'.table[k].owner == s.table[k].owner)
  }

  lemma RewordKeepsPending(s: State, s': State, t: nat, k: Key, x: Key, st: Stamp)
    requires Rewords(s, s', t, k) && Pending(s.table, s.txs, x, st)
    ensures Pending(s'.table, s'.txs, x, st)
  {
  }

  lemma RewordKeepsWrite(s: State, s': State, t: nat, k: Key, st: Stamp, x: Key)
    requires Rewords(s, s', t, k) && WriteRecorded(s.table, s.txs, st, x)
    ensures WriteRecorded(s'.table, s'.txs, st, x)
  {
    if Pending(s.table, s.txs, x, st) {
      RewordKeepsPending(s, s', t, k, x, st);
    } else {
      assert s'.table[x].versions == s.table[x].versions;
    }
  }

  lemma RewordKeepsRead(s: State, s': State, t: nat, k: Key, st: Stamp, x: Key, ver: nat, val: Val)
    requires Rewords(s, s', t, k) && ReadRecorded(s.table, s.txs, st, x, ver, val) && st.major < s.clock
    ensures ReadRecorded(s'.table, s'.txs, st, x, ver, val)
  {
    assert s'.table[x].versions == s.table[x].versions;
    if Pending(s.table, s.txs, x, st) {
      RewordKeepsPending(s, s', t, k, x, st);
    }
  }

  lemma RewordKeepsHistory(s: State, s': State, t: nat, k: Key)
    requires HistoryInv(s) && ClockInv(s) && Rewords(s, s', t, k)
    ensures HistoryInv(s')
  {
    assert WriterRegistered(s.txs[t], s.commits);
    assert VersionRecorded(s.table[k], k, s.commits);
    forall st, x | st in s'.commits && x in s'.commits[st].writeSet ensures WriteRecorded(s'.table, s'.txs, st, x) {
      RewordKeepsWrite(s, s', t, k, st, x);
    }
    forall st, x | st in s'.commits && x in s'.commits[st].readSet
      ensures ReadRecorded(s'.table, s'.txs, st, x, s'.sources[st][x], s'.commits[st].readSet[x])
    {
      RewordKeepsRead(s, s', t, k, st, x, s.sources[st][x], s.commits[st].readSet[x]);
    }
  }

  ghost predicate Inv(s: State) {
    TablesInv(s) && HistoryInv(s)
  }

  lemma OwnWriteHeld(table: seq<Tuple>, tx: Tx, t: nat, k: Key)
    requires Owning(table, tx, t) && tx.phase.Validating? && HasKey(tx.wset, k) && k < |table|
    ensures table[k].owner == t
  {
    assert Holds(tx, k);
  }

  lemma CertifiedReadRecorded(table: seq<Tuple>, tx: Tx, r: ReadItem, txs': seq<Tx>)
    requires r.key < |table| && |table[r.key].versions| > 0 && ItemOk(table[r.key], r) && Certified(table, tx, r)
    requires table[r.key].versions[r.ver].ser < tx.ser
    requires HasKey(tx.wset, r.key) ==> Pending(table, txs', r.key, StampOf(tx))
    ensures ReadRecorded(table, txs', StampOf(tx), r.key, r.ver, r.val)
  {
  }

  lemma CommitShape(s: State, s': State, t: nat)
    requires Inv(s) && t < |s.txs| && Commit(s, s', t)
    ensures var tx := s.txs[t];
            && SetsOk(s.table, tx) && StampOf(tx) !in s.commits && tx.ser < s.clock
            && (forall k: Key | HasKey(tx.wset, k) :: k < |s.table| && Pending(s'.table, s'.txs, k, StampOf(tx)))
  {
    var tx := s.txs[t];
    assert TxInv(s.table, tx, t);
    forall k: Key | HasKey(tx.wset, k)
      ensures k < |s.table| && Pending(s'.table, s'.txs, k, StampOf(tx))
    {
      OwnWriteHeld(s.table, tx, t, k);
    }
  }

  lemma CommitReadFacts(s: State, t: nat, j: nat)
    requires Inv(s) && t < |s.txs| && j < |s.txs[t].rset|
    requires s.txs[t].phase.Validating? && s.txs[t].phase.i == |s.txs[t].rset|
    ensures var r := s.txs[t].rset[j];
            && r.key < |s.table| && |s.table[r.key].versions| > 0 && ItemOk(s.table[r.key], r)
            && Certified(s.table, s.txs[t], r) && s.table[r.key].versions[r.ver].ser < s.txs[t].ser
  {
    assert TxInv(s.table, s.txs[t], t);
    assert TupleInv(s.table[s.txs[t].rset[j].key]);
  }

  lemma CommitRead(s: State, s': State, t: nat, j: nat)
    requires Inv(s) && t < |s.txs| && Commit(s, s', t) && j < |s.txs[t].rset|
    ensures var r := s.txs[t].rset[j];
            ReadRecorded(s'.table, s'.txs, StampOf(s.txs[t]), r.key, r.ver, r.val)
  {
    CommitShape(s, s', t);
    CommitReadFacts(s, t, j);
    CertifiedReadRecorded(s.table, s.txs[t], s.txs[t].rset[j], s'.txs);
  }

  lemma CommitKeepsPending(s: State, s': State, t: nat, k: Key, st: Stamp)
    requires t < |s.txs| && Commit(s, s', t) && Pending(s.table, s.txs, k, st)
    ensures Pending(s'.table, s'.txs, k, st)
  {
  }

  lemma CommitKeepsWrites(s: State, s': State, t: nat)
    requires Inv(s) && t < |s.txs| && Commit(s, s', t)
    ensures forall w, k | w in s'.commits && k in s'.commits[w].writeSet :: WriteRecorded(s'.table, s'.txs, w, k)
  {
    CommitShape(s, s', t);
    forall w, k | w in s'.commits && k in s'.commits[w].writeSet ensures WriteRecorded(s'.table, s'.txs, w, k) {
      if w != StampOf(s.txs[t]) {
        assert WriteRecorded(s.table, s.txs, w, k);
        if Pending(s.table, s.txs, k, w) {
          CommitKeepsPending(s, s', t, k, w);
        }
      }
    }
  }

  lemma OldReadRecorded(s: State, s': State, t: nat, w: Stamp, k: Key)
    requires HistoryInv(s) && t < |s.txs| && Commit(s, s', t)
    requires w in s.commits && k in s.commits[w].readSet
    ensures w in s.sources && k in s.sources[w]
    ensures ReadRecorded(s'.table, s'.txs, w, k, s.sources[w][k], s.commits[w].readSet[k])
  {
    assert ReadRecorded(s.table, s.txs, w, k, s.sources[w][k], s.commits[w].readSet[k]);
    if Pending(s.table, s.txs, k, w) {
      CommitKeepsPending(s, s', t, k, w);
    }
  }

  lemma CommitKeepsReads(s: State, s': State, t: nat)
    requires Inv(s) && t < |s.txs| && Commit(s, s', t)
    ensures forall w, k | w in s'.commits && k in s'.commits[w].readSet ::
              w in s'.sources && k in s'.sources[w]
              && ReadRecorded(s'.table, s'.txs, w, k, s'.sources[w][k], s'.commits[w].readSet[k])
  {
    var tx := s.txs[t];
    CommitShape(s, s', t);
    forall w, k | w in s'.commits && k in s'.commits[w].readSet
      ensures w in s'.sources && k in s'.sources[w]
      ensures ReadRecorded(s'.table, s'.txs, w, k, s'.sources[w][k], s'.commits[w].readSet[k])
    {
      if w == StampOf(tx) {
        var j :| 0 <= j < |tx.rset| && tx.rset[j].key == k;
        CommitRead(s, s', t, j);
      } else {
        OldReadRecorded(s, s', t, w, k);
      }
    }
  }

  lemma CommitKeepsRecords(s: State, s': State, t: nat)
    requires HistoryInv(s) && ClockInv(s) && t < |s.txs| && Commit(s, s', t) && StampOf(s.txs[t]) !in s.commits
    ensures forall k | 0 <= k < |s'.table| :: VersionRecorded(s'.table[k], k, s'.commits)
    ensures forall u | 0 <= u < |s'.txs| :: WriterRegistered(s'.txs[u], s'.commits)
    ensures forall u | 0 <= u < |s'.txs| && Placed(s'.txs[u].phase) && !InWritePhase(s'.txs[u]) ::
              StampOf(s'.txs[u]) !in s'.commits
  {
    forall k | 0 <= k < |s'.table| ensures VersionRecorded(s'.table[k], k, s'.commits) {
      assert VersionRecorded(s.table[k], k, s.commits);
    }
    forall u | 0 <= u < |s'.txs| ensures WriterRegistered(s'.txs[u], s'.commits) {
      assert WriterRegistered(s.txs[u], s.commits);
    }
  }

  lemma CommitKeepsHistory(s: State, s': State, t: nat)
    requires Inv(s) && t < |s.txs| && Commit(s, s', t)
    ensures HistoryInv(s')
  {
    CommitShape(s, s', t);
    CommitKeepsRecords(s, s', t);
    CommitKeepsWrites(s, s', t);
    CommitKeepsReads(s, s', t);
  }

  ghost predicate Appended(old_: Tuple, new_: Tuple, v: Version) {
    && |new_.versions| == |old_.versions| + 1
    && (forall i | 0 <= i < |old_.versions| :: new_.versions[i] == old_.versions[i])
    && new_.versions[|old_.versions|] == v
    && old_.owner >= 0 && old_.lockedAt < v.ser
  }

  lemma StoreWordAppends(s: State, s': State, t: nat)
    requires Inv(s) && t < |s.txs| && StoreWord(s, s', t)
    ensures var tx := s.txs[t];
            var k := tx.wset[tx.phase.i].key;
            var val := tx.wset[tx.phase.i].val;
            && Appended(s.table[k], s'.table[k], Version(tx.mrctid, tx.ser, val))
            && Pending(s.table, s.txs, k, StampOf(tx))
            && (forall x | Pending(s.table, s.txs, k, x) :: x == StampOf(tx))
            && StampOf(tx) in s.commits && k in s.commits[StampOf(tx)].writeSet
            && s.commits[StampOf(tx)].writeSet[k] == val
  {
    var tx := s.txs[t];
    assert TxInv(s.table, tx, t);
    assert WriterRegistered(tx, s.commits);
    assert Holds(tx, tx.wset[tx.phase.i].key);
  }

  lemma AppendKeepsRead(table: seq<Tuple>, txs: seq<Tx>, table': seq<Tuple>, txs': seq<Tx>,
                        k: Key, v: Version, st: Stamp, ver: nat, val: Val)
    requires ReadRecorded(table, txs, st, k, ver, val) && |table'| == |table|
    requires Appended(table[k], table'[k], v)
    requires forall x | Pending(table, txs, k, x) :: x == Stamp(v.ser, 0)
    ensures ReadRecorded(table', txs', st, k, ver, val)
  {
  }

  lemma ElsewhereKeepsRead(table: seq<Tuple>, txs: seq<Tx>, table': seq<Tuple>, txs': seq<Tx>,
                           k: Key, st: Stamp, ver: nat, val: Val)
    requires ReadRecorded(table, txs, st, k, ver, val) && |table'| == |table| && table'[k] == table[k]
    requires Pending(table, txs, k, st) ==> Pending(table', txs', k, st)
    ensures ReadRecorded(table', txs', st, k, ver, val)
  {
  }

  lemma StoreWordPending(s: State, s': State, t: nat, x: Key, st: Stamp)
    requires t < |s.txs| && StoreWord(s, s', t) && Pending(s.table, s.txs, x, st)
    requires x != s.txs[t].wset[s.txs[t].phase.i].key
    ensures Pending(s'.table, s'.txs, x, st)
  {
  }

  lemma StoreWordKeepsReads(s: State, s': State, t: nat)
    requires Inv(s) && t < |s.txs| && StoreWord(s, s', t)
    ensures forall st, x | st in s.commits && x in s.commits[st].readSet ::
              ReadRecorded(s'.table, s'.txs, st, x, s.sources[st][x], s.commits[st].readSet[x])
  {
    var tx := s.txs[t];
    var k := tx.wset[tx.phase.i].key;
    StoreWordAppends(s, s', t);
    forall st, x | st in s.commits && x in s.commits[st].readSet
      ensures ReadRecorded(s'.table, s'.txs, st, x, s.sources[st][x], s.commits[st].readSet[x])
    {
      if x == k {
        AppendKeepsRead(s.table, s.txs, s'.table, s'.txs, k,
                        Version(tx.mrctid, tx.ser, tx.wset[tx.phase.i].val),
                        st, s.sources[st][x], s.commits[st].readSet[x]);
      } else {
        if Pending(s.table, s.txs, x, st) {
          StoreWordPending(s, s', t, x, st);
        }
        ElsewhereKeepsRead(s.table, s.txs, s'.table, s'.txs, x, st, s.sources[st][x], s.commits[st].readSet[x]);
      }
    }
  }

  lemma AppendInstalls(old_: Tuple, new_: Tuple, v: Version, st: Stamp)
    requires Appended(old_, new_, v) && |old_.versions| >= 1
    requires Installed(old_, st) || st == Stamp(v.ser, 0)
    ensures Installed(new_, st)
  {
    if Installed(old_, st) {
      var j :| 1 <= j < |old_.versions| && Stamp(old_.versions[j].ser, 0) == st;
      assert Stamp(new_.versions[j].ser, 0) == st;
    } else {
      assert Stamp(new_.versions[|old_.versions|].ser, 0) == st;
    }
  }

  lemma StoreWordKeepsWrites(s: State, s': State, t: nat)
    requires Inv(s) && t < |s.txs| && StoreWord(s, s', t)
    ensures forall st, x | st in s.commits && x in s.commits[st].writeSet :: WriteRecorded(s'.table, s'.txs, st, x)
  {
    var tx := s.txs[t];
    var k := tx.wset[tx.phase.i].key;
    StoreWordAppends(s, s', t);
    forall st, x | st in s.commits && x in s.commits[st].writeSet ensures WriteRecorded(s'.table, s'.txs, st, x) {
      assert WriteRecorded(s.table, s.txs, st, x);
      if x == k {
        assert VersionRecorded(s.table[k], k, s.commits);
        AppendInstalls(s.table[k], s'.table[k], Version(tx.mrctid, tx.ser, tx.wset[tx.phase.i].val), st);
      } else if Pending(s.table, s.txs, x, st) {
        StoreWordPending(s, s', t, x, st);
      }
    }
  }

  lemma AppendRecorded(old_: Tuple, new_: Tuple, v: Version, k: Key, commits: map<Stamp, Txn>)
    requires VersionRecorded(old_, k, commits) && Appended(old_, new_, v)
    requires Stamp(v.ser, 0) in commits && k in commits[Stamp(v.ser, 0)].writeSet
    requires commits[Stamp(v.ser, 0)].writeSet[k] == v.val
    ensures VersionRecorded(new_, k, commits)
  {
  }

  lemma StoreWordKeepsVersions(s: State, s': State, t: nat)
    requires Inv(s) && t < |s.txs| && StoreWord(s, s', t)
    ensures forall k | 0 <= k < |s'.table| :: VersionRecorded(s'.table[k], k, s'.commits)
  {
    var tx := s.txs[t];
    var k := tx.wset[tx.phase.i].key;
    StoreWordAppends(s, s', t);
    forall x | 0 <= x < |s'.table| ensures VersionRecorded(s'.table[x], x, s'.commits) {
      assert VersionRecorded(s.table[x], x, s.commits);
      if x == k {
        AppendRecorded(s.table[k], s'.table[k], Version(tx.mrctid, tx.ser, tx.wset[tx.phase.i].val), k, s.commits);
      }
    }
  }

  lemma StoreWordKeepsWriters(s: State, s': State, t: nat)
    requires HistoryInv(s) && t < |s.txs| && StoreWord(s, s', t)
    ensures forall u | 0 <= u < |s'.txs| :: WriterRegistered(s'.txs[u], s'.commits)
    ensures forall u | 0 <= u < |s'.txs| && Placed(s'.txs[u].phase) && !InWritePhase(s'.txs[u]) ::
              StampOf(s'.txs[u]) !in s'.commits
  {
    forall u | 0 <= u < |s'.txs| ensures WriterRegistered(s'.txs[u], s'.commits) {
      assert WriterRegistered(s.txs[u], s.commits);
    }
  }

  lemma StoreWordKeepsHistory(s: State, s': State, t: nat)
    requires Inv(s) && t < |s.txs| && StoreWord(s, s', t)
    ensures HistoryInv(s')
  {
    StoreWordKeepsVersions(s, s', t);
    StoreWordKeepsWriters(s, s', t);
    StoreWordKeepsWrites(s, s', t);
    StoreWordKeepsReads(s, s', t);
  }

  lemma RewordStepKeepsHistory(s: State, s': State, t: nat)
    requires Inv(s) && t < |s.txs|
    requires LockOne(s, s', t) || StorePayload(s, s', t) || UnlockStore(s, s', t)
    ensures HistoryInv(s')
  {
    var tx := s.txs[t];
    assert TxInv(s.table, tx, t);
    var k := tx.wset[tx.phase.i].key;
    assert TupleInv(s.table[k]);
    if UnlockStore(s, s', t) {
      UnlockRestoresWord(s, s', t);
    }
    RewordKeepsHistory(s, s', t, k);
  }

  /** Everything else leaves tuples and history alone and keeps out of the write phase. */
  ghost predicate LocalShape(s: State, s': State, t: nat) {
    && t < |s.txs| && s'.table == s.table && |s'.txs| == |s.txs| && s'.txs == s.txs[t := s'.txs[t]]
    && s'.commits == s.commits && s'.sources == s.sources && s'.clock >= s.clock
    && !InWritePhase(s'.txs[t]) && (InWritePhase(s.txs[t]) ==> Finish(s, s', t))
    && (Placed(s'.txs[t].phase) ==>
          || (Placed(s.txs[t].phase) && !InWritePhase(s.txs[t]) && s'.txs[t].ser == s.txs[t].ser)
          || s'.txs[t].ser == s.clock)
  }

  lemma LocalStepKeepsHistory(s: State, s': State, t: nat)
    requires Inv(s) && LocalShape(s, s', t)
    ensures HistoryInv(s')
  {
    assert TxInv(s.table, s.txs[t], t);
    if Finish(s, s', t) {
      NothingHeld(s.table, s.txs[t], s'.txs[t], t);
    }
    LocalKeepsHistory(s, s', t);
  }

  lemma LookingIsLocal(s: State, s': State, t: nat)
    requires t < |s.txs|
    requires (exists k :: ReadStart(s, s', t, k)) || ReadLoad(s, s', t) || ReadCopy(s, s', t) || ReadAgain(s, s', t)
    ensures LocalShape(s, s', t)
  {
  }

  lemma AccessIsLocal(s: State, s': State, t: nat)
    requires t < |s.txs| && (Begin(s, s', t) || ReadDone(s, s', t) || (exists k, v :: Write(s, s', t, k, v)))
    ensures LocalShape(s, s', t)
  {
  }

  lemma ReadStepsAreLocal(s: State, s': State, t: nat)
    requires t < |s.txs| && ReadPhaseStep(s, s', t)
    ensures LocalShape(s, s', t)
  {
    if Begin(s, s', t) || ReadDone(s, s', t) || (exists k, v :: Write(s, s', t, k, v)) {
      AccessIsLocal(s, s', t);
    } else {
      LookingIsLocal(s, s', t);
    }
  }

  lemma LeaderStepsAreLocal(s: State, s': State, t: nat)
    requires t < |s.txs| && LeaderStep(s, s', t)
    ensures LocalShape(s, s', t)
  {
  }

  lemma EpochStepsAreLocal(s: State, s': State, t: nat)
    requires t < |s.txs|
    requires (exists sorted :: SortWrites(s, s', t, sorted)) || LoadEpoch(s, s', t) || StoreEpoch(s, s', t)
    ensures LocalShape(s, s', t)
  {
  }

  lemma VerdictIsLocal(s: State, s': State, t: nat)
    requires t < |s.txs|
    requires LockFail(s, s', t) || ValidateOk(s, s', t) || ValidateFail(s, s', t) || UnlockLoad(s, s', t) || Aborted(s, s', t)
    ensures LocalShape(s, s', t)
  {
  }

  lemma ValidationStepsAreLocal(s: State, s': State, t: nat)
    requires t < |s.txs| && ValidationStep(s, s', t)
    requires !LockOne(s, s', t) && !UnlockStore(s, s', t)
    ensures LocalShape(s, s', t)
  {
    if LockFail(s, s', t) || ValidateOk(s, s', t) || ValidateFail(s, s', t) || UnlockLoad(s, s', t) || Aborted(s, s', t) {
      VerdictIsLocal(s, s', t);
    } else {
      EpochStepsAreLocal(s, s', t);
    }
  }

  lemma StepKeepsHistory(s: State, s': State, t: nat)
    requires Inv(s) && StepBy(s, s', t)
    ensures HistoryInv(s')
  {
    if LockOne(s, s', t) || StorePayload(s, s', t) || UnlockStore(s, s', t) {
      RewordStepKeepsHistory(s, s', t);
    } else if Commit(s, s', t) {
      CommitKeepsHistory(s, s', t);
    } else if StoreWord(s, s', t) {
      StoreWordKeepsHistory(s, s', t);
    } else {
      if ReadPhaseStep(s, s', t) {
        ReadStepsAreLocal(s, s', t);
      } else if LeaderStep(s, s', t) {
        LeaderStepsAreLocal(s, s', t);
      } else if ValidationStep(s, s', t) {
        ValidationStepsAreLocal(s, s', t);
      }
      LocalStepKeepsHistory(s, s', t);
    }
  }

  // --------------------------------------------------------- whole runs

  lemma InitEstablishes(s: State)
    requires Init(s)
    ensures Inv(s)
  {
  }

  lemma StepKeepsInv(s: State, s': State)
    requires Inv(s) && Next(s, s')
    ensures Inv(s')
  {
    var t: nat :| StepBy(s, s', t);
    StepKeepsTables(s, s', t);
    StepKeepsHistory(s, s', t);
  }

  lemma RunKeepsInv(run: seq<State>, i: nat)
    requires IsRun(run, Init, Next) && i < |run|
    ensures Inv(run[i])
  {
    forall s | Init(s) ensures Inv(s) {
      InitEstablishes(s);
    }
    forall s, s' | Inv(s) && Next(s, s') ensures Inv(s') {
      StepKeepsInv(s, s');
    }
    Invariant(run, Init, Next, Inv, i);
  }

  lemma PendingAfterAll(s: State, k: Key, w: Stamp)
    requires TablesInv(s) && Pending(s.table, s.txs, k, w)
    ensures s.table[k].lockedAt < w.major && w.minor == 0
    ensures |s.table[k].versions| > 0 && s.table[k].versions[s.table[k].Last()].ser < w.major
  {
    var t := s.table[k].owner;
    assert TxInv(s.table, s.txs[t], t);
    assert TupleInv(s.table[k]);
  }

  lemma VersionsAscend(tup: Tuple, i: nat, j: nat)
    requires TupleInv(tup) && i <= j < |tup.versions|
    ensures tup.versions[i].ser <= tup.versions[j].ser
  {
  }

  lemma PendingNotBefore(s: State, k: Key, at: Stamp, ver: nat, val: Val, w: Stamp)
    requires TablesInv(s) && ReadRecorded(s.table, s.txs, at, k, ver, val) && at.minor == 0
    requires Pending(s.table, s.txs, k, w)
    ensures !Before(w, at)
  {
    PendingAfterAll(s, k, w);
    if ver < s.table[k].Last() {
      VersionsAscend(s.table[k], ver + 1, s.table[k].Last());
    }
  }

  /** A writer of `k` serialized before `at` put its version in place no later than
      the one `at` read. */
  lemma WriterPlaced(s: State, at: Stamp, k: Key, ver: nat, val: Val, w: Stamp)
    requires TablesInv(s) && ReadRecorded(s.table, s.txs, at, k, ver, val) && at.minor == 0
    requires WriteRecorded(s.table, s.txs, w, k) && Before(w, at)
    ensures ver > 0 && w.major <= s.table[k].versions[ver].ser
  {
    var tup := s.table[k];
    assert TupleInv(tup);
    if Pending(s.table, s.txs, k, w) {
      PendingNotBefore(s, k, at, ver, val, w);
    }
    var j :| 1 <= j < |tup.versions| && Stamp(tup.versions[j].ser, 0) == w;
    if j > ver {
      VersionsAscend(tup, ver + 1, j);
    } else {
      VersionsAscend(tup, j, ver);
    }
  }

  lemma ReadOf(s: State, at: Stamp, k: Key)
    requires HistoryInv(s) && at in s.commits && k in s.commits[at].readSet
    ensures at in s.sources && k in s.sources[at] && at.minor == 0
    ensures ReadRecorded(s.table, s.txs, at, k, s.sources[at][k], s.commits[at].readSet[k])
    ensures VersionRecorded(s.table[k], k, s.commits)
  {
  }

  lemma WritersPlaced(s: State, at: Stamp, k: Key, ver: nat, val: Val)
    requires Inv(s) && ReadRecorded(s.table, s.txs, at, k, ver, val) && at.minor == 0
    ensures forall w | w in s.commits && k in s.commits[w].writeSet && Before(w, at) ::
              ver > 0 && w.minor == 0 && w.major <= s.table[k].versions[ver].ser
  {
    forall w | w in s.commits && k in s.commits[w].writeSet && Before(w, at)
      ensures ver > 0 && w.minor == 0 && w.major <= s.table[k].versions[ver].ser
    {
      assert WriteRecorded(s.table, s.txs, w, k);
      WriterPlaced(s, at, k, ver, val, w);
    }
  }

  lemma ReadsFromLast(s: State, at: Stamp, k: Key)
    requires Inv(s) && at in s.commits && k in s.commits[at].readSet
    requires forall x | 0 <= x < |s.table| :: s.table[x].versions != []
    ensures ReadsFromLastWriter(InitialTable(s), s.commits, at, k)
  {
    ReadOf(s, at, k);
    WritersPlaced(s, at, k, s.sources[at][k], s.commits[at].readSet[k]);
    LastOfPlaced(InitialTable(s), s.commits, s.table[k], at, k, s.sources[at][k]);
  }

  /** All writers before `at` are no later than version `ver`: it is the last one's. */
  lemma LastOfPlaced(init: map<Key, Val>, commits: map<Stamp, Txn>, tup: Tuple, at: Stamp, k: Key, ver: nat)
    requires at in commits && k in commits[at].readSet && VersionRecorded(tup, k, commits) && ver < |tup.versions|
    requires k in init && init[k] == tup.versions[0].val
    requires tup.versions[ver].val == commits[at].readSet[k] && tup.versions[ver].ser < at.major
    requires forall w | w in commits && k in commits[w].writeSet && Before(w, at) ::
               ver > 0 && w.minor == 0 && w.major <= tup.versions[ver].ser
    ensures ReadsFromLastWriter(init, commits, at, k)
  {
    if ver == 0 {
      assert NoWriterBefore(commits, k, at);
    } else {
      assert NoWriterBetween(commits, k, Stamp(tup.versions[ver].ser, 0), at);
    }
  }

  /** Seen from a reachable state, its committed transactions are equivalent to their
      serial execution in the order in which they loaded the global epoch. */
  lemma CommitsSerializable(run: seq<State>, i: nat)
    requires IsRun(run, Init, Next) && i < |run|
    ensures forall k | 0 <= k < |run[i].table| :: run[i].table[k].versions != []
    ensures Serializable(InitialTable(run[i]), run[i].commits)
  {
    var s := run[i];
    RunKeepsInv(run, i);
    forall k | 0 <= k < |s.table| ensures s.table[k].versions != [] {
      assert TupleInv(s.table[k]);
    }
    forall at, k | at in s.commits && k in s.commits[at].readSet
      ensures ReadsFromLastWriter(InitialTable(s), s.commits, at, k)
    {
      ReadsFromLast(s, at, k);
    }
    SerializableByReadsFrom(InitialTable(s), s.commits);
  }

  // ------------------------------------------------------ edges and epochs

  /** `b` read the version of `k` that `a` installed. */
  ghost predicate WriteRead(s: State, a: Stamp, b: Stamp, k: Key) {
    && a in s.commits && b in s.sources && k in s.sources[b] && k < |s.table|
    && 0 < s.sources[b][k] < |s.table[k].versions|
    && s.table[k].versions[s.sources[b][k]].ser == a.major
  }

  /** `b` installed a later version of `k` than `a` did. */
  ghost predicate WriteWrite(s: State, a: Stamp, b: Stamp, k: Key) {
    && a in s.commits && b in s.commits && k < |s.table|
    && exists i, j :: 0 < i < j < |s.table[k].versions|
                      && s.table[k].versions[i].ser == a.major && s.table[k].versions[j].ser == b.major
  }

  /** `b` overwrote the version of `k` that `a` read. */
  ghost predicate ReadWrite(s: State, a: Stamp, b: Stamp, k: Key) {
    && a in s.sources && k in s.sources[a] && b in s.commits && a != b && k < |s.table|
    && exists j :: s.sources[a][k] < j < |s.table[k].versions| && s.table[k].versions[j].ser == b.major
  }

  lemma ReadAfterWriter(s: State, a: Stamp, b: Stamp, k: Key)
    requires Inv(s) && WriteRead(s, a, b, k)
    ensures b in s.commits && Before(a, b)
  {
    assert ReadRecorded(s.table, s.txs, b, k, s.sources[b][k], s.commits[b].readSet[k]);
    assert TupleInv(s.table[k]);
  }

  lemma WritersInOrder(s: State, a: Stamp, b: Stamp, k: Key)
    requires Inv(s) && WriteWrite(s, a, b, k)
    ensures Before(a, b)
  {
    assert TupleInv(s.table[k]);
  }

  lemma OverwriterAfter(s: State, a: Stamp, b: Stamp, k: Key)
    requires ReadWrite(s, a, b, k) && a.minor == 0 && b.minor == 0 && TupleInv(s.table[k])
    requires s.sources[a][k] < s.table[k].Last() ==> a.major <= s.table[k].versions[s.sources[a][k] + 1].ser
    ensures Before(a, b)
  {
    var tup, ver := s.table[k], s.sources[a][k];
    var j: nat :| ver < j < |tup.versions| && tup.versions[j].ser == b.major;
    VersionsAscend(tup, ver + 1, j);
  }

  lemma ReadStands(s: State, a: Stamp, k: Key)
    requires Inv(s) && a in s.sources && k in s.sources[a] && k < |s.table|
    ensures a in s.commits && a.minor == 0 && TupleInv(s.table[k])
    ensures s.sources[a][k] < s.table[k].Last() ==> a.major <= s.table[k].versions[s.sources[a][k] + 1].ser
  {
    assert ReadRecorded(s.table, s.txs, a, k, s.sources[a][k], s.commits[a].readSet[k]);
  }

  lemma MinorZero(s: State, b: Stamp)
    requires Inv(s) && b in s.commits
    ensures b.minor == 0
  {
  }

  lemma OverwriterLater(s: State, a: Stamp, b: Stamp, k: Key)
    requires Inv(s) && ReadWrite(s, a, b, k)
    ensures a in s.commits && Before(a, b)
  {
    ReadStands(s, a, k);
    MinorZero(s, b);
    OverwriterAfter(s, a, b, k);
  }

  /** Dependencies of all three kinds point forward in the serial order. */
  lemma EdgesForward(s: State, a: Stamp, b: Stamp, k: Key)
    requires Inv(s) && (WriteRead(s, a, b, k) || WriteWrite(s, a, b, k) || ReadWrite(s, a, b, k))
    ensures a in s.commits && b in s.commits && Before(a, b)
  {
    if WriteRead(s, a, b, k) {
      ReadAfterWriter(s, a, b, k);
    } else if WriteWrite(s, a, b, k) {
      WritersInOrder(s, a, b, k);
    } else {
      OverwriterLater(s, a, b, k);
    }
  }
}
