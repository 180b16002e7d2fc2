/** The invariant of the wait-list scheduler: who waits, who holds, in which order. */
module FifoLockSafety {
  import opened SerialExecution
  import opened KeyLists
  import opened Programs
  import opened FifoLockManager

  predicate Ascending(q: seq<nat>) {
    forall i, j | 0 <= i < j < |q| :: q[i] < q[j]
  }

  /** Wait lists ascend, holders come before everybody waiting, and the counter counts. */
  ghost predicate TupleOk(tup: Tuple, first: nat, next: nat) {
    && Ascending(tup.waits) && first <= tup.through <= next
    && (forall w | w in tup.waits :: tup.through <= w < next)
    && (forall r | r in tup.readers :: tup.through <= r < next && forall w | w in tup.waits :: r < w)
    && -1 <= tup.writer < next
    && (tup.writer >= 0 ==> tup.readers == {} && tup.through <= tup.writer && forall w | w in tup.waits :: tup.writer < w)
    && tup.count == (if tup.writer >= 0 then -1 else |tup.readers|)
  }

  predicate DistinctLocks(q: seq<Lock>) {
    forall i, j | 0 <= i < j < |q| :: q[i].key != q[j].key
  }

  /** The transaction's lists and the records' wait lists and holders agree. */
  ghost predicate LinkOk(table: seq<Tuple>, tx: Tx, t: nat) {
    && (forall k | 0 <= k < |table| ::
          && (t in table[k].waits <==> HasLock(tx.future, k))
          && (t in table[k].readers <==> k in tx.rlocks)
          && (table[k].writer == t <==> k in tx.wlocks))
    && (forall i | 0 <= i < |tx.future| :: tx.future[i].key < |table|)
    && (forall i | 0 <= i < |tx.rlocks| :: tx.rlocks[i] < |table|)
    && (forall i | 0 <= i < |tx.wlocks| :: tx.wlocks[i] < |table|)
  }

  /** No record is requested twice, or requested and held. */
  ghost predicate ListsOk(tx: Tx) {
    && DistinctLocks(tx.future) && Distinct(tx.rlocks) && Distinct(tx.wlocks)
    && (forall k | k in tx.rlocks :: k !in tx.wlocks && !HasLock(tx.future, k))
    && (forall k | k in tx.wlocks :: !HasLock(tx.future, k))
  }

  /** The requests are those of `tasks`, each in the mode they need. */
  ghost predicate Requests(locks: seq<Lock>, tasks: seq<Task>) {
    && (forall k :: HasLock(locks, k) <==> TouchesKey(tasks, k))
    && (forall i | 0 <= i < |locks| :: locks[i].mode.Exclusive? <==> WritesKey(tasks, locks[i].key))
  }

  /** Every request outstanding or granted is for an access, in the mode it needs. */
  ghost predicate ModesOk(tx: Tx, tasks: seq<Task>) {
    && (forall i | 0 <= i < |tx.future| :: tx.future[i].mode.Exclusive? <==> WritesKey(tasks, tx.future[i].key))
    && (forall k | k in tx.rlocks :: !WritesKey(tasks, k))
    && (forall k | k in tx.wlocks :: WritesKey(tasks, k))
  }

  ghost predicate Covered(tx: Tx, tasks: seq<Task>) {
    forall k | TouchesKey(tasks, k) :: HasLock(tx.future, k) || k in tx.rlocks || k in tx.wlocks
  }

  ghost predicate PhaseOk(tx: Tx, tasks: seq<Task>) {
    match tx.phase
    case NotStarted => tx.future == [] && tx.rlocks == [] && tx.wlocks == []
    case Registering(pos) =>
      pos <= |tasks| && Requests(tx.future, tasks[..pos]) && tx.rlocks == [] && tx.wlocks == []
    case Acquiring(_) => ModesOk(tx, tasks) && Covered(tx, tasks)
    case Trying(i) => ModesOk(tx, tasks) && Covered(tx, tasks)
    case Executing(pos) => tx.future == [] && pos <= |tasks| && ModesOk(tx, tasks) && Covered(tx, tasks)
    case Releasing => tx.future == [] && ModesOk(tx, tasks)
    case Done => tx.future == [] && tx.rlocks == [] && tx.wlocks == []
  }

  /** Whoever has seen itself at the head of a wait list stays there. */
  ghost predicate HeadOk(table: seq<Tuple>, tx: Tx, t: nat) {
    tx.phase.Trying? ==>
      tx.phase.i < |tx.future| && tx.future[tx.phase.i].key < |table|
      && table[tx.future[tx.phase.i].key].waits != [] && table[tx.future[tx.phase.i].key].waits[0] == t
  }

  ghost predicate TxInv(table: seq<Tuple>, tx: Tx, t: nat, tasks: seq<Task>) {
    LinkOk(table, tx, t) && ListsOk(tx) && PhaseOk(tx, tasks) && HeadOk(table, tx, t) && Fits(tasks, |table|)
  }

  ghost predicate GiantOk(s: State) {
    && -1 <= s.giant < |s.txs| && s.first <= s.next <= |s.txs|
    && (forall t | 0 <= t < |s.txs| :: s.txs[t].phase.NotStarted? <==> t < s.first || t >= s.next)
    && (forall t | 0 <= t < |s.txs| :: s.txs[t].phase.Registering? <==> s.giant == t)
    && (s.giant >= 0 ==> s.giant + 1 == s.next)
  }

  /** No started writer numbered from `through` on has been forgotten. */
  ghost predicate LiveOk(tup: Tuple, k: Key, programs: seq<seq<Task>>, next: nat, giant: int)
    requires next <= |programs|
  {
    forall x | tup.through <= x < next && WritesKey(programs[x], k) :: x in tup.waits || tup.writer == x || giant == x
  }

  predicate Finished(p: Phase) { p.Releasing? || p.Done? }

  /** The last writer that let go of the record has run to its end. */
  ghost predicate ThroughOk(tup: Tuple, txs: seq<Tx>, first: nat) {
    tup.through == first || (1 <= tup.through <= |txs| && Finished(txs[tup.through - 1].phase))
  }

  ghost predicate LocksInv(s: State) {
    && |s.programs| == |s.txs| && |s.init| == |s.table| && GiantOk(s)
    && (forall k | 0 <= k < |s.table| ::
          && TupleOk(s.table[k], s.first, s.next) && LiveOk(s.table[k], k, s.programs, s.next, s.giant)
          && ThroughOk(s.table[k], s.txs, s.first))
    && (forall t | 0 <= t < |s.txs| :: TxInv(s.table, s.txs[t], t, s.programs[t]))
  }

  /** Only transaction `t` and perhaps record `k` change. */
  ghost predicate Touches(s: State, s': State, t: nat, k: Key) {
    && t < |s.txs| && |s'.txs| == |s.txs| && s'.txs == s.txs[t := s'.txs[t]]
    && k < |s.table| && |s'.table| == |s.table| && s'.table == s.table[k := s'.table[k]]
    && s'.programs == s.programs && s'.init == s.init && s'.first == s.first
  }

  /** Another transaction sees its own place on record unchanged. */
  ghost predicate SameFor(a: Tuple, b: Tuple, u: nat) {
    && (u in b.waits <==> u in a.waits) && (u in b.readers <==> u in a.readers) && (b.writer == u <==> a.writer == u)
    && (a.waits != [] && a.waits[0] == u ==> b.waits != [] && b.waits[0] == u)
  }

  lemma OthersKept(s: State, s': State, t: nat, k: Key, u: nat)
    requires LocksInv(s) && Touches(s, s', t, k) && u < |s.txs| && u != t && SameFor(s.table[k], s'.table[k], u)
    ensures TxInv(s'.table, s'.txs[u], u, s'.programs[u])
  {
    assert TxInv(s.table, s.txs[u], u, s.programs[u]);
    forall x | 0 <= x < |s.table| ensures SameFor(s.table[x], s'.table[x], u) {
    }
  }

  lemma ThroughKept(tup: Tuple, txs: seq<Tx>, txs': seq<Tx>, first: nat, t: nat)
    requires ThroughOk(tup, txs, first) && t < |txs| && |txs'| == |txs| && txs' == txs[t := txs'[t]]
    requires Finished(txs[t].phase) ==> Finished(txs'[t].phase)
    ensures ThroughOk(tup, txs', first)
  {
  }

  lemma TuplesKept(s: State, s': State, t: nat, k: Key)
    requires LocksInv(s) && Touches(s, s', t, k) && s.next <= s'.next
    requires TupleOk(s'.table[k], s.first, s'.next) && ThroughOk(s'.table[k], s'.txs, s.first)
    requires Finished(s.txs[t].phase) ==> Finished(s'.txs[t].phase)
    ensures forall x | 0 <= x < |s'.table| :: TupleOk(s'.table[x], s.first, s'.next) && ThroughOk(s'.table[x], s'.txs, s.first)
  {
    forall x | 0 <= x < |s'.table| ensures TupleOk(s'.table[x], s.first, s'.next) && ThroughOk(s'.table[x], s'.txs, s.first) {
      if x != k {
        assert TupleOk(s.table[x], s.first, s.next) && ThroughOk(s.table[x], s.txs, s.first);
        ThroughKept(s.table[x], s.txs, s'.txs, s.first, t);
      }
    }
  }

  lemma TxsKept(s: State, s': State, t: nat, k: Key)
    requires LocksInv(s) && Touches(s, s', t, k) && TxInv(s'.table, s'.txs[t], t, s.programs[t])
    requires forall u: nat | u != t && u < |s.txs| :: SameFor(s.table[k], s'.table[k], u)
    ensures forall u | 0 <= u < |s'.txs| :: TxInv(s'.table, s'.txs[u], u, s'.programs[u])
  {
    forall u | 0 <= u < |s'.txs| ensures TxInv(s'.table, s'.txs[u], u, s'.programs[u]) {
      if u != t {
        OthersKept(s, s', t, k, u);
      }
    }
  }

  lemma StepKeeps(s: State, s': State, t: nat, k: Key)
    requires LocksInv(s) && Touches(s, s', t, k) && GiantOk(s')
    requires forall u: nat | u != t && u < |s.txs| :: SameFor(s.table[k], s'.table[k], u)
    requires TupleOk(s'.table[k], s.first, s'.next) && TxInv(s'.table, s'.txs[t], t, s.programs[t])
    requires ThroughOk(s'.table[k], s'.txs, s.first) && (Finished(s.txs[t].phase) ==> Finished(s'.txs[t].phase))
    requires s.next <= s'.next
    requires forall x: Key | x < |s.table| :: LiveOk(s'.table[x], x, s.programs, s'.next, s'.giant)
    ensures LocksInv(s')
  {
    TuplesKept(s, s', t, k);
    TxsKept(s, s', t, k);
  }

  lemma GiantKept(s: State, s': State, t: nat)
    requires GiantOk(s) && t < |s.txs| == |s'.txs| && s'.txs == s.txs[t := s'.txs[t]]
    requires s'.giant == s.giant && s'.next == s.next && s'.first == s.first
    requires s.txs[t].phase.NotStarted? == s'.txs[t].phase.NotStarted?
    requires s.txs[t].phase.Registering? == s'.txs[t].phase.Registering?
    ensures GiantOk(s')
  {
  }

  /** The common case: no number is drawn and the giant lock stays as it is. */
  lemma LiveKept(s: State, s': State, t: nat, k: Key, x: Key)
    requires Touches(s, s', t, k) && s'.giant == s.giant && s'.next == s.next <= |s.programs| && x < |s.table|
    requires LiveOk(s.table[x], x, s.programs, s.next, s.giant) && LiveOk(s'.table[k], k, s.programs, s.next, s.giant)
    ensures LiveOk(s'.table[x], x, s'.programs, s'.next, s'.giant)
  {
  }

  lemma RecordStepKeeps(s: State, s': State, t: nat, k: Key)
    requires LocksInv(s) && Touches(s, s', t, k) && s'.giant == s.giant && s'.next == s.next
    requires s.txs[t].phase.NotStarted? == s'.txs[t].phase.NotStarted?
    requires s.txs[t].phase.Registering? == s'.txs[t].phase.Registering?
    requires forall u: nat | u != t && u < |s.txs| :: SameFor(s.table[k], s'.table[k], u)
    requires TupleOk(s'.table[k], s.first, s.next) && TxInv(s'.table, s'.txs[t], t, s.programs[t])
    requires s'.table[k].through == s.table[k].through || ThroughOk(s'.table[k], s'.txs, s.first)
    requires Finished(s.txs[t].phase) ==> Finished(s'.txs[t].phase)
    requires LiveOk(s'.table[k], k, s.programs, s.next, s.giant)
    ensures LocksInv(s')
  {
    GiantKept(s, s', t);
    forall x: Key | x < |s.table| ensures LiveOk(s'.table[x], x, s.programs, s'.next, s'.giant) {
      LiveKept(s, s', t, k, x);
    }
    assert ThroughOk(s.table[k], s.txs, s.first);
    ThroughKept(s.table[k], s.txs, s'.txs, s.first, t);
    StepKeeps(s, s', t, k);
  }

  // ------------------------------------------------ steps that leave the records

  /** Steps that change the phase of one transaction only. */
  lemma PhaseStepKeeps(s: State, s': State, t: nat)
    requires LocksInv(s) && t < |s.txs| && |s'.txs| == |s.txs| && s' == SetPhase(s, t, s'.txs[t].phase)
    requires s.txs[t].phase.NotStarted? == s'.txs[t].phase.NotStarted?
    requires s.txs[t].phase.Registering? == s'.txs[t].phase.Registering?
    requires Finished(s.txs[t].phase) ==> Finished(s'.txs[t].phase)
    requires PhaseOk(s'.txs[t], s.programs[t]) && HeadOk(s.table, s'.txs[t], t)
    ensures LocksInv(s')
  {
    forall x | 0 <= x < |s.table| ensures ThroughOk(s.table[x], s'.txs, s.first) {
      ThroughKept(s.table[x], s.txs, s'.txs, s.first, t);
    }
    forall u | 0 <= u < |s'.txs| ensures TxInv(s.table, s'.txs[u], u, s.programs[u]) {
      assert TxInv(s.table, s.txs[u], u, s.programs[u]);
    }
    assert GiantOk(s');
  }

  lemma CheckHeadKeeps(s: State, s': State, t: nat)
    requires LocksInv(s) && t < |s.txs| && (CheckHead(s, s', t) || TryBusy(s, s', t) || Wrap(s, s', t))
    ensures LocksInv(s')
  {
    assert TxInv(s.table, s.txs[t], t, s.programs[t]);
    PhaseStepKeeps(s, s', t);
  }

  lemma ExecutedKeeps(s: State, s': State, t: nat)
    requires LocksInv(s) && t < |s.txs| && (Executed(s, s', t) || Finish(s, s', t))
    ensures LocksInv(s')
  {
    assert TxInv(s.table, s.txs[t], t, s.programs[t]);
    PhaseStepKeeps(s, s', t);
  }

  lemma StartKeeps(s: State, s': State, t: nat)
    requires LocksInv(s) && t < |s.txs| && Start(s, s', t)
    ensures LocksInv(s')
  {
    assert TxInv(s.table, s.txs[t], t, s.programs[t]);
    assert s.programs[t][..0] == [];
    forall k | 0 <= k < |s.table|
      ensures TupleOk(s.table[k], s.first, s'.next) && LiveOk(s.table[k], k, s.programs, s'.next, s'.giant)
      ensures ThroughOk(s.table[k], s'.txs, s.first)
    {
      assert TupleOk(s.table[k], s.first, s.next) && LiveOk(s.table[k], k, s.programs, s.next, s.giant);
      ThroughKept(s.table[k], s.txs, s'.txs, s.first, t);
    }
    forall u | 0 <= u < |s'.txs| ensures TxInv(s'.table, s'.txs[u], u, s'.programs[u]) {
      assert TxInv(s.table, s.txs[u], u, s.programs[u]);
    }
  }

  /** The drawn transaction is now on every wait list its writes ask for. */
  lemma RegisteredLive(s: State, t: nat, k: Key)
    requires t < |s.txs| && s.giant == t && |s.programs| == |s.txs| && k < |s.table| && s.next <= |s.txs|
    requires s.txs[t].phase == Registering(|s.programs[t]|) && TxInv(s.table, s.txs[t], t, s.programs[t])
    requires LiveOk(s.table[k], k, s.programs, s.next, s.giant)
    ensures LiveOk(s.table[k], k, s.programs, s.next, -1)
  {
    var tasks := s.programs[t];
    assert tasks[..|tasks|] == tasks;
    if WritesKey(tasks, k) {
      WritesTouch(tasks, k);
    }
  }

  lemma RegisteredTxs(s: State, s': State, t: nat)
    requires LocksInv(s) && t < |s.txs| && Registered(s, s', t)
    ensures forall u | 0 <= u < |s'.txs| :: TxInv(s'.table, s'.txs[u], u, s'.programs[u])
  {
    var tasks := s.programs[t];
    assert TxInv(s.table, s.txs[t], t, tasks);
    assert tasks[..|tasks|] == tasks;
    forall u | 0 <= u < |s'.txs| && u != t ensures TxInv(s'.table, s'.txs[u], u, s'.programs[u]) {
      assert TxInv(s.table, s.txs[u], u, s.programs[u]);
    }
  }

  lemma RegisteredKeeps(s: State, s': State, t: nat)
    requires LocksInv(s) && t < |s.txs| && Registered(s, s', t)
    ensures LocksInv(s')
  {
    assert TxInv(s.table, s.txs[t], t, s.programs[t]);
    forall k | 0 <= k < |s.table|
      ensures TupleOk(s.table[k], s.first, s.next) && LiveOk(s.table[k], k, s.programs, s.next, -1)
      ensures ThroughOk(s.table[k], s'.txs, s.first)
    {
      RegisteredLive(s, t, k);
      ThroughKept(s.table[k], s.txs, s'.txs, s.first, t);
    }
    RegisteredTxs(s, s', t);
  }

  // ------------------------------------------------------------ registration

  lemma {:induction false} UpgradedFacts(locks: seq<Lock>, key: Key)
    requires DistinctLocks(locks)
    ensures forall i | 0 <= i < |locks| ::
              Upgraded(locks, key)[i] == if locks[i].key == key then Lock(key, Exclusive) else locks[i]
  {
    if locks != [] {
      UpgradedFacts(locks[1..], key);
      assert forall i | 1 <= i < |locks| :: locks[1..][i - 1] == locks[i];
    }
  }

  lemma UpgradedHas(locks: seq<Lock>, key: Key, k: Key)
    requires DistinctLocks(locks)
    ensures HasLock(Upgraded(locks, key), k) <==> HasLock(locks, k)
    ensures DistinctLocks(Upgraded(locks, key))
  {
    UpgradedFacts(locks, key);
    if HasLock(locks, k) {
      var i :| 0 <= i < |locks| && locks[i].key == k;
      assert Upgraded(locks, key)[i].key == k;
    }
  }

  lemma SkipRequests(locks: seq<Lock>, tasks: seq<Task>, pos: nat)
    requires pos < |tasks| && Requests(locks, tasks[..pos])
    requires tasks[pos].Read? ==> TouchesKey(tasks[..pos], tasks[pos].key)
    requires tasks[pos].Write? ==> WritesKey(tasks[..pos], tasks[pos].key)
    ensures Requests(locks, tasks[..pos + 1])
  {
    forall k ensures HasLock(locks, k) <==> TouchesKey(tasks[..pos + 1], k) {
      PrefixUses(tasks, pos, k);
      if tasks[pos].Write? {
        WritesTouch(tasks[..pos], tasks[pos].key);
      }
    }
    forall i | 0 <= i < |locks| ensures locks[i].mode.Exclusive? <==> WritesKey(tasks[..pos + 1], locks[i].key) {
      PrefixUses(tasks, pos, locks[i].key);
    }
  }

  lemma UpgradeRequests(locks: seq<Lock>, tasks: seq<Task>, pos: nat)
    requires pos < |tasks| && Requests(locks, tasks[..pos]) && DistinctLocks(locks)
    requires tasks[pos].Write? && TouchesKey(tasks[..pos], tasks[pos].key)
    ensures Requests(Upgraded(locks, tasks[pos].key), tasks[..pos + 1])
  {
    var key := tasks[pos].key;
    forall k ensures HasLock(Upgraded(locks, key), k) <==> TouchesKey(tasks[..pos + 1], k) {
      PrefixUses(tasks, pos, k);
      UpgradedHas(locks, key, k);
    }
    UpgradedFacts(locks, key);
    forall i | 0 <= i < |locks|
      ensures Upgraded(locks, key)[i].mode.Exclusive? <==> WritesKey(tasks[..pos + 1], Upgraded(locks, key)[i].key)
    {
      PrefixUses(tasks, pos, locks[i].key);
    }
  }

  lemma AppendHas(locks: seq<Lock>, l: Lock, k: Key)
    ensures HasLock(locks + [l], k) <==> HasLock(locks, k) || l.key == k
  {
    if HasLock(locks, k) {
      var i :| 0 <= i < |locks| && locks[i].key == k;
      assert (locks + [l])[i].key == k;
    }
    assert (locks + [l])[|locks|] == l;
  }

  lemma EnqueueRequests(locks: seq<Lock>, tasks: seq<Task>, pos: nat, mode: Mode)
    requires pos < |tasks| && Requests(locks, tasks[..pos]) && !tasks[pos].Sleep?
    requires !TouchesKey(tasks[..pos], tasks[pos].key) && (mode.Exclusive? <==> tasks[pos].Write?)
    ensures Requests(locks + [Lock(tasks[pos].key, mode)], tasks[..pos + 1])
  {
    var l := Lock(tasks[pos].key, mode);
    forall k ensures HasLock(locks + [l], k) <==> TouchesKey(tasks[..pos + 1], k) {
      PrefixUses(tasks, pos, k);
      AppendHas(locks, l, k);
    }
    forall i | 0 <= i < |locks| + 1
      ensures (locks + [l])[i].mode.Exclusive? <==> WritesKey(tasks[..pos + 1], (locks + [l])[i].key)
    {
      PrefixUses(tasks, pos, (locks + [l])[i].key);
      if i < |locks| {
        assert HasLock(locks, locks[i].key);
      } else if WritesKey(tasks[..pos], l.key) {
        WritesTouch(tasks[..pos], l.key);
      }
    }
  }

  /** Registering a task that needs no new request. */
  lemma SkipKeeps(s: State, s': State, t: nat, pos: nat)
    requires LocksInv(s) && t < |s.txs| && s.txs[t].phase == Registering(pos) && pos < |s.programs[t]|
    requires s' == SetPhase(s, t, Registering(pos + 1))
    requires s.programs[t][pos].Read? ==> TouchesKey(s.programs[t][..pos], s.programs[t][pos].key)
    requires s.programs[t][pos].Write? ==> WritesKey(s.programs[t][..pos], s.programs[t][pos].key)
    ensures LocksInv(s')
  {
    assert TxInv(s.table, s.txs[t], t, s.programs[t]);
    SkipRequests(s.txs[t].future, s.programs[t], pos);
    PhaseStepKeeps(s, s', t);
  }

  lemma UpgradeKeeps(s: State, s': State, t: nat, pos: nat, k: Key)
    requires LocksInv(s) && t < |s.txs| && s.txs[t].phase == Registering(pos) && pos < |s.programs[t]|
    requires s.programs[t][pos].Write? && s.programs[t][pos].key == k && TouchesKey(s.programs[t][..pos], k) && k < |s.table|
    requires s' == s.(txs := s.txs[t := s.txs[t].(phase := Registering(pos + 1), future := Upgraded(s.txs[t].future, k))])
    ensures LocksInv(s')
  {
    var tx, tx' := s.txs[t], s'.txs[t];
    assert TxInv(s.table, tx, t, s.programs[t]);
    UpgradeRequests(tx.future, s.programs[t], pos);
    UpgradedFacts(tx.future, k);
    UpgradedHas(tx.future, k, k);
    forall x | 0 <= x < |s.table| ensures HasLock(tx'.future, x) <==> HasLock(tx.future, x) {
      UpgradedHas(tx.future, k, x);
    }
    assert TxInv(s'.table, tx', t, s.programs[t]);
    RecordStepKeeps(s, s', t, k);
  }

  /** The giant lock makes the newcomer the largest number on every wait list. */
  lemma EnqueueTuple(tup: Tuple, t: nat, first: nat)
    requires TupleOk(tup, first, t + 1) && t !in tup.waits && t !in tup.readers && tup.writer != t && tup.through <= t
    ensures TupleOk(tup.(waits := tup.waits + [t]), first, t + 1)
  {
    assert forall i | 0 <= i < |tup.waits| :: tup.waits[i] in tup.waits;
  }

  lemma EnqueueSame(tup: Tuple, t: nat)
    ensures forall u: nat | u != t :: SameFor(tup, tup.(waits := tup.waits + [t]), u)
  {
  }

  lemma EnqueueTx(table: seq<Tuple>, table': seq<Tuple>, tx: Tx, tx': Tx, t: nat, tasks: seq<Task>, pos: nat, k: Key, mode: Mode)
    requires TxInv(table, tx, t, tasks) && tx.phase == Registering(pos) && pos < |tasks| && k < |table|
    requires !tasks[pos].Sleep? && tasks[pos].key == k && !TouchesKey(tasks[..pos], k) && (mode.Exclusive? <==> tasks[pos].Write?)
    requires table' == table[k := table[k].(waits := table[k].waits + [t])]
    requires tx' == tx.(phase := Registering(pos + 1), future := tx.future + [Lock(k, mode)])
    ensures TxInv(table', tx', t, tasks)
  {
    EnqueueRequests(tx.future, tasks, pos, mode);
    forall x | 0 <= x < |table| ensures HasLock(tx'.future, x) <==> HasLock(tx.future, x) || x == k {
      AppendHas(tx.future, Lock(k, mode), x);
    }
    forall i | 0 <= i < |tx.future| ensures tx.future[i].key != k {
      if tx.future[i].key == k {
        assert HasLock(tx.future, k);
      }
    }
  }

  lemma EnqueueKeeps(s: State, s': State, t: nat, pos: nat, k: Key, mode: Mode)
    requires LocksInv(s) && t < |s.txs| && s.txs[t].phase == Registering(pos) && pos < |s.programs[t]| && k < |s.table|
    requires !s.programs[t][pos].Sleep? && s.programs[t][pos].key == k && !TouchesKey(s.programs[t][..pos], k)
    requires mode.Exclusive? <==> s.programs[t][pos].Write?
    requires s' == Enqueue(s, t, pos, k, mode)
    ensures LocksInv(s')
  {
    var tx, tx' := s.txs[t], s'.txs[t];
    assert TxInv(s.table, tx, t, s.programs[t]);
    EnqueueTx(s.table, s'.table, tx, tx', t, s.programs[t], pos, k, mode);
    assert TupleOk(s.table[k], s.first, s.next);
    NotHolding(s, t, pos, k);
    EnqueueTuple(s.table[k], t, s.first);
    EnqueueSame(s.table[k], t);
    assert LiveOk(s.table[k], k, s.programs, s.next, s.giant);
    assert LiveOk(s'.table[k], k, s.programs, s.next, s.giant);
    RecordStepKeeps(s, s', t, k);
  }

  lemma NotHolding(s: State, t: nat, pos: nat, k: Key)
    requires LocksInv(s) && t < |s.txs| && s.txs[t].phase == Registering(pos) && pos <= |s.programs[t]| && k < |s.table|
    requires !TouchesKey(s.programs[t][..pos], k)
    ensures t !in s.table[k].waits && t !in s.table[k].readers && s.table[k].writer != t && t + 1 == s.next
    ensures s.table[k].through <= t
  {
    var tx := s.txs[t];
    assert TxInv(s.table, tx, t, s.programs[t]);
    assert TupleOk(s.table[k], s.first, s.next) && ThroughOk(s.table[k], s.txs, s.first);
  }

  lemma RegisterKeeps(s: State, s': State, t: nat)
    requires LocksInv(s) && t < |s.txs| && Register(s, s', t)
    ensures LocksInv(s')
  {
    var tasks, pos := s.programs[t], s.txs[t].phase.pos;
    match tasks[pos] {
      case Sleep =>
        SkipKeeps(s, s', t, pos);
      case Read(k) =>
        if FirstUse(tasks, k, pos) > -1 {
          SkipKeeps(s, s', t, pos);
        } else {
          EnqueueKeeps(s, s', t, pos, k, Shared);
        }
      case Write(k, v) =>
        if FirstUse(tasks, k, pos) == 1 {
          SkipKeeps(s, s', t, pos);
        } else if FirstUse(tasks, k, pos) == 0 {
          UpgradeKeeps(s, s', t, pos, k);
        } else {
          EnqueueKeeps(s, s', t, pos, k, Exclusive);
        }
    }
  }

  // ----------------------------------------------------------------- locking

  lemma WithoutHas(locks: seq<Lock>, i: nat, k: Key)
    requires DistinctLocks(locks) && i < |locks|
    ensures HasLock(Without(locks, i), k) <==> HasLock(locks, k) && k != locks[i].key
    ensures DistinctLocks(Without(locks, i))
    ensures forall j | 0 <= j < |locks| - 1 :: Without(locks, i)[j] in locks
  {
    var q := Without(locks, i);
    assert forall j | 0 <= j < |q| :: q[j] == if j < i then locks[j] else locks[j + 1];
    if HasLock(locks, k) && k != locks[i].key {
      var j :| 0 <= j < |locks| && locks[j].key == k;
      assert q[if j < i then j else j - 1].key == k;
    }
  }

  lemma LockedTuple(tup: Tuple, t: nat, mode: Mode, first: nat, next: nat)
    requires TupleOk(tup, first, next) && tup.waits != [] && tup.waits[0] == t && Free(tup, mode)
    ensures TupleOk(Locked(tup, t, mode), first, next)
    ensures t !in tup.readers && tup.writer != t && t !in Locked(tup, t, mode).waits
  {
    var rest := tup.waits[1..];
    assert t in tup.waits;
    assert forall w | w in rest :: w in tup.waits;
    forall w | w in rest ensures t < w {
      var i :| 0 <= i < |rest| && rest[i] == w;
      assert tup.waits[0] < tup.waits[i + 1];
    }
  }

  lemma LockedSame(tup: Tuple, t: nat, mode: Mode)
    requires tup.waits != [] && tup.waits[0] == t && tup.writer == -1
    ensures forall u: nat | u != t :: SameFor(tup, Locked(tup, t, mode), u)
  {
    var rest := tup.waits[1..];
    assert tup.waits == [t] + rest;
    forall u: nat | u != t ensures SameFor(tup, Locked(tup, t, mode), u) {
      assert u in tup.waits <==> u in rest;
    }
  }

  lemma LockedTx(table: seq<Tuple>, table': seq<Tuple>, tx: Tx, tx': Tx, t: nat, tasks: seq<Task>, i: nat)
    requires TxInv(table, tx, t, tasks) && tx.phase == Trying(i) && i < |tx.future|
    requires var l := tx.future[i];
             && l.key < |table| && table[l.key].waits != [] && table[l.key].waits[0] == t
             && table' == table[l.key := Locked(table[l.key], t, l.mode)]
             && tx' == tx.(phase := Acquiring(i), future := Without(tx.future, i),
                           rlocks := if l.mode.Shared? then tx.rlocks + [l.key] else tx.rlocks,
                           wlocks := if l.mode.Shared? then tx.wlocks else tx.wlocks + [l.key])
             && t !in Locked(table[l.key], t, l.mode).waits && t !in table[l.key].readers && table[l.key].writer != t
    ensures TxInv(table', tx', t, tasks)
  {
    var l := tx.future[i];
    assert HasLock(tx.future, l.key);
    forall x ensures HasLock(tx'.future, x) <==> HasLock(tx.future, x) && x != l.key {
      WithoutHas(tx.future, i, x);
    }
    WithoutHas(tx.future, i, l.key);
    LockedLink(table, table', tx, tx', t, i);
    forall j | 0 <= j < |tx'.future| ensures tx'.future[j].mode.Exclusive? <==> WritesKey(tasks, tx'.future[j].key) {
      assert tx'.future[j] in tx.future;
    }
  }

  lemma LockedLink(table: seq<Tuple>, table': seq<Tuple>, tx: Tx, tx': Tx, t: nat, i: nat)
    requires LinkOk(table, tx, t) && i < |tx.future|
    requires var l := tx.future[i];
             && l.key < |table| && table[l.key].waits != []
             && table' == table[l.key := Locked(table[l.key], t, l.mode)]
             && tx'.future == Without(tx.future, i)
             && tx'.rlocks == (if l.mode.Shared? then tx.rlocks + [l.key] else tx.rlocks)
             && tx'.wlocks == (if l.mode.Shared? then tx.wlocks else tx.wlocks + [l.key])
             && t !in Locked(table[l.key], t, l.mode).waits
             && forall x :: HasLock(tx'.future, x) <==> HasLock(tx.future, x) && x != l.key
    ensures LinkOk(table', tx', t)
  {
    assert forall j | 0 <= j < |tx'.future| :: tx'.future[j] == if j < i then tx.future[j] else tx.future[j + 1];
  }

  lemma TryLockKeeps(s: State, s': State, t: nat)
    requires LocksInv(s) && t < |s.txs| && TryLock(s, s', t)
    ensures LocksInv(s')
  {
    var tx, i := s.txs[t], s.txs[t].phase.i;
    var l := tx.future[i];
    assert TxInv(s.table, tx, t, s.programs[t]);
    if !Free(s.table[l.key], l.mode) {
      PhaseStepKeeps(s, s', t);
    } else {
      assert TupleOk(s.table[l.key], s.first, s.next);
      LockedTuple(s.table[l.key], t, l.mode, s.first, s.next);
      LockedSame(s.table[l.key], t, l.mode);
      LockedTx(s.table, s'.table, tx, s'.txs[t], t, s.programs[t], i);
      LockedLive(s, t, l);
      RecordStepKeeps(s, s', t, l.key);
    }
  }

  lemma LockedLive(s: State, t: nat, l: Lock)
    requires LocksInv(s) && t < |s.txs| && l in s.txs[t].future && l.key < |s.table| && s.txs[t].phase.Trying?
    requires s.table[l.key].waits != [] && s.table[l.key].waits[0] == t && Free(s.table[l.key], l.mode)
    ensures LiveOk(Locked(s.table[l.key], t, l.mode), l.key, s.programs, s.next, s.giant)
  {
    var tup := s.table[l.key];
    assert TxInv(s.table, s.txs[t], t, s.programs[t]);
    assert LiveOk(tup, l.key, s.programs, s.next, s.giant) && TupleOk(tup, s.first, s.next);
    forall x | x in tup.waits && x != t ensures x in tup.waits[1..] {
      assert tup.waits == [t] + tup.waits[1..];
    }
  }

  // --------------------------------------------------- execution and release

  lemma ExecutedTx(table: seq<Tuple>, table': seq<Tuple>, tx: Tx, tx': Tx, t: nat, tasks: seq<Task>, k: Key)
    requires TxInv(table, tx, t, tasks) && tx.phase.Executing? && tx.phase.pos < |tasks| && k < |table|
    requires |table'| == |table| && table' == table[k := table[k].(val := table'[k].val)]
    requires tx' == tx.(phase := Executing(tx.phase.pos + 1), seen := tx'.seen)
    ensures TxInv(table', tx', t, tasks)
  {
  }

  lemma ExecuteKeeps(s: State, s': State, t: nat)
    requires LocksInv(s) && t < |s.txs| && Execute(s, s', t)
    ensures LocksInv(s')
  {
    var tasks, pos := s.programs[t], s.txs[t].phase.pos;
    assert TxInv(s.table, s.txs[t], t, tasks);
    if tasks[pos].Sleep? {
      PhaseStepKeeps(s, s', t);
    } else {
      var k := tasks[pos].key;
      assert TupleOk(s.table[k], s.first, s.next) && LiveOk(s.table[k], k, s.programs, s.next, s.giant);
      assert s'.table[k] == s.table[k].(val := s'.table[k].val);
      ExecutedTx(s.table, s'.table, s.txs[t], s'.txs[t], t, tasks, k);
      RecordStepKeeps(s, s', t, k);
    }
  }

  lemma ReleasedTuple(tup: Tuple, t: nat, first: nat, next: nat)
    requires TupleOk(tup, first, next) && t in tup.readers
    ensures TupleOk(tup.(count := tup.count - 1, readers := tup.readers - {t}), first, next)
  {
    assert |tup.readers - {t}| == |tup.readers| - 1;
  }

  lemma ReleasedTx(table: seq<Tuple>, table': seq<Tuple>, tx: Tx, tx': Tx, t: nat, tasks: seq<Task>)
    requires TxInv(table, tx, t, tasks) && tx.phase.Releasing? && tx.rlocks != [] && tx.rlocks[0] < |table|
    requires var k := tx.rlocks[0];
             && table' == table[k := table[k].(count := table[k].count - 1, readers := table[k].readers - {t})]
             && tx' == tx.(rlocks := tx.rlocks[1..])
    ensures TxInv(table', tx', t, tasks)
  {
    DropFirst(tx.rlocks);
  }

  lemma ReleaseReadKeeps(s: State, s': State, t: nat)
    requires LocksInv(s) && t < |s.txs| && ReleaseRead(s, s', t)
    ensures LocksInv(s')
  {
    var k := s.txs[t].rlocks[0];
    assert TxInv(s.table, s.txs[t], t, s.programs[t]);
    assert k in s.txs[t].rlocks;
    assert TupleOk(s.table[k], s.first, s.next) && LiveOk(s.table[k], k, s.programs, s.next, s.giant);
    ReleasedTuple(s.table[k], t, s.first, s.next);
    ReleasedTx(s.table, s'.table, s.txs[t], s'.txs[t], t, s.programs[t]);
    RecordStepKeeps(s, s', t, k);
  }

  lemma ReleaseWriteKeeps(s: State, s': State, t: nat)
    requires LocksInv(s) && t < |s.txs| && ReleaseWrite(s, s', t)
    ensures LocksInv(s')
  {
    var k := s.txs[t].wlocks[0];
    var tx, tx' := s.txs[t], s'.txs[t];
    assert TxInv(s.table, tx, t, s.programs[t]);
    assert TupleOk(s.table[k], s.first, s.next) && LiveOk(s.table[k], k, s.programs, s.next, s.giant);
    DropFirst(tx.wlocks);
    assert k in tx.wlocks;
    RecordStepKeeps(s, s', t, k);
  }

  lemma StepKeepsLocks(s: State, s': State, t: nat)
    requires LocksInv(s) && StepBy(s, s', t)
    ensures LocksInv(s')
  {
    if Start(s, s', t) {
      StartKeeps(s, s', t);
    } else if Register(s, s', t) {
      RegisterKeeps(s, s', t);
    } else if Registered(s, s', t) {
      RegisteredKeeps(s, s', t);
    } else if TryLock(s, s', t) {
      TryLockKeeps(s, s', t);
    } else if Execute(s, s', t) {
      ExecuteKeeps(s, s', t);
    } else if ReleaseRead(s, s', t) {
      ReleaseReadKeeps(s, s', t);
    } else if ReleaseWrite(s, s', t) {
      ReleaseWriteKeeps(s, s', t);
    } else if Executed(s, s', t) || Finish(s, s', t) {
      ExecutedKeeps(s, s', t);
    } else {
      CheckHeadKeeps(s, s', t);
    }
  }

  lemma InitLocks(s: State)
    requires Init(s)
    ensures LocksInv(s)
  {
  }
}
