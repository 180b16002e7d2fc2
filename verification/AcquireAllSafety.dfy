/** The acquire-all scheduler agrees with the serial run in transaction-number order, and a
    failed attempt leaves every lock as the other transactions hold it. */
module AcquireAllSafety {
  import opened SerialExecution
  import opened KeyLists
  import opened Programs
  import opened AcquireAll

  ghost predicate TupleOk(tup: Tuple, first: nat, next: nat, n: nat) {
    && first <= tup.through <= next
    && (forall r | r in tup.readers :: tup.through <= r < n)
    && -1 <= tup.writer < n
    && (tup.writer >= 0 ==> tup.readers == {} && tup.through <= tup.writer)
    && tup.count == (if tup.writer >= 0 then -1 else |tup.readers|)
  }

  /** The lock lists and the records' holders agree. */
  ghost predicate LinkOk(table: seq<Tuple>, tx: Tx, t: nat) {
    && (forall k | 0 <= k < |table| ::
          && (t in table[k].readers <==> k in tx.rlocks) && (table[k].writer == t <==> k in tx.wlocks))
    && (forall k | k in tx.rlocks :: k < |table|)
    && (forall k | k in tx.wlocks :: k < |table|)
  }

  /** The lists are duplicate-free and disjoint. */
  ghost predicate ListsOk(tx: Tx) {
    Distinct(tx.rlocks) && Distinct(tx.wlocks) && forall k | k in tx.rlocks :: k !in tx.wlocks
  }

  /** The lists cover the accesses of `tasks`, each in the mode it needs, and nothing else. */
  ghost predicate Covers(tx: Tx, tasks: seq<Task>) {
    && (forall k :: k in tx.wlocks <==> WritesKey(tasks, k))
    && (forall k :: k in tx.rlocks <==> TouchesKey(tasks, k) && !WritesKey(tasks, k))
  }

  ghost predicate PhaseOk(tx: Tx, tasks: seq<Task>) {
    match tx.phase
    case NotStarted => tx.rlocks == [] && tx.wlocks == []
    case Acquiring(pos) => pos <= |tasks| && Covers(tx, tasks[..pos])
    case UpgradeRefused(pos) => pos < |tasks| && Covers(tx, tasks[..pos]) && tasks[pos].Write? && tasks[pos].key in tx.rlocks
    case Undoing => true
    case Published => Covers(tx, tasks)
    case Executing(pos) => pos <= |tasks| && Covers(tx, tasks)
    case Releasing => forall k | k in tx.wlocks :: WritesKey(tasks, k)
    case Done => tx.rlocks == [] && tx.wlocks == []
  }

  ghost predicate TxInv(table: seq<Tuple>, tx: Tx, t: nat, tasks: seq<Task>) {
    LinkOk(table, tx, t) && ListsOk(tx) && PhaseOk(tx, tasks) && Fits(tasks, |table|)
  }

  predicate Attempting(p: Phase) { p.Acquiring? || p.UpgradeRefused? || p.Undoing? }

  predicate Finished(p: Phase) { p.Releasing? || p.Done? }

  ghost predicate GiantOk(s: State) {
    && -1 <= s.giant < |s.txs| && s.first <= s.next <= |s.txs|
    && (forall t | 0 <= t < |s.txs| :: Attempting(s.txs[t].phase) || s.txs[t].phase.Published? <==> s.giant == t)
    && (forall t | 0 <= t < |s.txs| :: Attempting(s.txs[t].phase) ==> t == s.next)
    && (forall t | 0 <= t < |s.txs| :: s.txs[t].phase.Published? ==> s.first <= t && t + 1 == s.next)
    && (forall t | 0 <= t < |s.txs| :: s.txs[t].phase.NotStarted? <==> t < s.first || (t >= s.next && s.giant != t))
  }

  /** A published writer that has not let go of the record holds it. */
  ghost predicate LiveOk(tup: Tuple, k: Key, programs: seq<seq<Task>>, next: nat)
    requires next <= |programs|
  {
    forall x | tup.through <= x < next && WritesKey(programs[x], k) :: tup.writer == x
  }

  ghost predicate LocksInv(s: State) {
    && |s.programs| == |s.txs| && |s.init| == |s.table| && GiantOk(s)
    && (forall k | 0 <= k < |s.table| ::
          TupleOk(s.table[k], s.first, s.next, |s.txs|) && LiveOk(s.table[k], k, s.programs, s.next))
    && (forall t | 0 <= t < |s.txs| :: TxInv(s.table, s.txs[t], t, s.programs[t]))
  }

  ghost predicate Touches(s: State, s': State, t: nat, k: Key) {
    && t < |s.txs| && |s'.txs| == |s.txs| && s'.txs == s.txs[t := s'.txs[t]]
    && k < |s.table| && |s'.table| == |s.table| && s'.table == s.table[k := s'.table[k]]
    && s'.programs == s.programs && s'.init == s.init && s'.first == s.first && s'.next == s.next && s'.giant == s.giant
  }

  ghost predicate SameFor(a: Tuple, b: Tuple, u: nat) {
    (u in b.readers <==> u in a.readers) && (b.writer == u <==> a.writer == u)
  }

  lemma TxsKept(s: State, s': State, t: nat, k: Key)
    requires LocksInv(s) && Touches(s, s', t, k) && TxInv(s'.table, s'.txs[t], t, s.programs[t])
    requires forall u: nat | u != t && u < |s.txs| :: SameFor(s.table[k], s'.table[k], u)
    ensures forall u | 0 <= u < |s'.txs| :: TxInv(s'.table, s'.txs[u], u, s'.programs[u])
  {
    forall u | 0 <= u < |s'.txs| ensures TxInv(s'.table, s'.txs[u], u, s'.programs[u]) {
      if u != t {
        assert TxInv(s.table, s.txs[u], u, s.programs[u]);
        assert forall x | 0 <= x < |s.table| :: SameFor(s.table[x], s'.table[x], u);
      }
    }
  }

  lemma StepKeeps(s: State, s': State, t: nat, k: Key)
    requires LocksInv(s) && Touches(s, s', t, k)
    requires s.txs[t].phase.NotStarted? == s'.txs[t].phase.NotStarted? && s.txs[t].phase.Published? == s'.txs[t].phase.Published?
    requires Attempting(s.txs[t].phase) == Attempting(s'.txs[t].phase)
    requires forall u: nat | u != t && u < |s.txs| :: SameFor(s.table[k], s'.table[k], u)
    requires TupleOk(s'.table[k], s.first, s.next, |s.txs|) && LiveOk(s'.table[k], k, s.programs, s.next)
    requires TxInv(s'.table, s'.txs[t], t, s.programs[t])
    ensures LocksInv(s')
  {
    TxsKept(s, s', t, k);
    assert GiantOk(s');
  }

  lemma PhaseStepKeeps(s: State, s': State, t: nat)
    requires LocksInv(s) && t < |s.txs| && |s'.txs| == |s.txs| && s' == SetPhase(s, t, s'.txs[t].phase)
    requires s.txs[t].phase.NotStarted? == s'.txs[t].phase.NotStarted? && s.txs[t].phase.Published? == s'.txs[t].phase.Published?
    requires Attempting(s.txs[t].phase) == Attempting(s'.txs[t].phase)
    requires PhaseOk(s'.txs[t], s.programs[t])
    ensures LocksInv(s')
  {
    forall u | 0 <= u < |s'.txs| ensures TxInv(s.table, s'.txs[u], u, s.programs[u]) {
      assert TxInv(s.table, s.txs[u], u, s.programs[u]);
    }
    assert GiantOk(s');
  }

  // ------------------------------------------------------------- acquisition

  lemma StartKeeps(s: State, s': State, t: nat)
    requires LocksInv(s) && t < |s.txs| && Start(s, s', t)
    ensures LocksInv(s')
  {
    assert TxInv(s.table, s.txs[t], t, s.programs[t]);
    assert s.programs[t][..0] == [];
    forall u | 0 <= u < |s'.txs| ensures TxInv(s'.table, s'.txs[u], u, s'.programs[u]) {
      assert TxInv(s.table, s.txs[u], u, s.programs[u]);
    }
  }

  /** Coverage grows task by task: granted, already held, or upgraded. */
  lemma CoverMore(tx: Tx, tx': Tx, tasks: seq<Task>, pos: nat)
    requires pos < |tasks| && Covers(tx, tasks[..pos])
    requires tasks[pos].Sleep? ==> tx'.rlocks == tx.rlocks && tx'.wlocks == tx.wlocks
    requires tasks[pos].Read? ==>
               && tx'.wlocks == tx.wlocks
               && forall x :: x in tx'.rlocks <==> x in tx.rlocks || (x == tasks[pos].key && x !in tx.wlocks)
    requires tasks[pos].Write? ==>
               && (forall x :: x in tx'.wlocks <==> x in tx.wlocks || x == tasks[pos].key)
               && (forall x :: x in tx'.rlocks <==> x in tx.rlocks && x != tasks[pos].key)
    ensures Covers(tx', tasks[..pos + 1])
  {
    forall x
      ensures x in tx'.wlocks <==> WritesKey(tasks[..pos + 1], x)
      ensures x in tx'.rlocks <==> TouchesKey(tasks[..pos + 1], x) && !WritesKey(tasks[..pos + 1], x)
    {
      PrefixUses(tasks, pos, x);
      if WritesKey(tasks[..pos], x) {
        WritesTouch(tasks[..pos], x);
      }
    }
  }

  lemma SkipKeeps(s: State, s': State, t: nat, pos: nat)
    requires LocksInv(s) && t < |s.txs| && s.txs[t].phase == Acquiring(pos) && pos < |s.programs[t]|
    requires s' == SetPhase(s, t, Acquiring(pos + 1))
    requires var task := s.programs[t][pos];
             && (task.Read? ==> task.key in s.txs[t].rlocks || task.key in s.txs[t].wlocks)
             && (task.Write? ==> task.key in s.txs[t].wlocks && task.key !in s.txs[t].rlocks)
    ensures LocksInv(s')
  {
    assert TxInv(s.table, s.txs[t], t, s.programs[t]);
    CoverMore(s.txs[t], s'.txs[t], s.programs[t], pos);
    PhaseStepKeeps(s, s', t);
  }

  lemma GiveUpKeeps(s: State, s': State, t: nat)
    requires LocksInv(s) && t < |s.txs| && s.txs[t].phase.Acquiring?
    requires |s'.txs| == |s.txs| && s' == SetPhase(s, t, s'.txs[t].phase)
    requires s'.txs[t].phase.Undoing?
             || (s'.txs[t].phase == UpgradeRefused(s.txs[t].phase.pos) && s.txs[t].phase.pos < |s.programs[t]|
                 && s.programs[t][s.txs[t].phase.pos].Write? && s.programs[t][s.txs[t].phase.pos].key in s.txs[t].rlocks)
    ensures LocksInv(s')
  {
    assert TxInv(s.table, s.txs[t], t, s.programs[t]);
    PhaseStepKeeps(s, s', t);
  }

  lemma ReadLockKeeps(s: State, s': State, t: nat, pos: nat, k: Key)
    requires LocksInv(s) && t < |s.txs| && s.txs[t].phase == Acquiring(pos) && pos < |s.programs[t]|
    requires s.programs[t][pos] == Read(k) && k < |s.table| && k !in s.txs[t].rlocks && k !in s.txs[t].wlocks
    requires s.table[k].count != -1
    requires s' == SetBoth(s, t, s.txs[t].(phase := Acquiring(pos + 1), rlocks := s.txs[t].rlocks + [k]), k, ReadLocked(s.table[k], t))
    ensures LocksInv(s')
  {
    assert TxInv(s.table, s.txs[t], t, s.programs[t]);
    assert TupleOk(s.table[k], s.first, s.next, |s.txs|) && LiveOk(s.table[k], k, s.programs, s.next);
    CoverMore(s.txs[t], s'.txs[t], s.programs[t], pos);
    StepKeeps(s, s', t, k);
  }

  lemma WriteLockKeeps(s: State, s': State, t: nat, pos: nat, k: Key)
    requires LocksInv(s) && t < |s.txs| && s.txs[t].phase == Acquiring(pos) && pos < |s.programs[t]|
    requires s.programs[t][pos].Write? && s.programs[t][pos].key == k && k < |s.table|
    requires k !in s.txs[t].rlocks && k !in s.txs[t].wlocks && s.table[k].count == 0
    requires s' == SetBoth(s, t, s.txs[t].(phase := Acquiring(pos + 1), wlocks := s.txs[t].wlocks + [k]), k, WriteLocked(s.table[k], t))
    ensures LocksInv(s')
  {
    assert TxInv(s.table, s.txs[t], t, s.programs[t]);
    assert TupleOk(s.table[k], s.first, s.next, |s.txs|) && LiveOk(s.table[k], k, s.programs, s.next);
    CoverMore(s.txs[t], s'.txs[t], s.programs[t], pos);
    StepKeeps(s, s', t, k);
  }

  lemma OnlyReader(tup: Tuple, t: nat)
    requires t in tup.readers && |tup.readers| == 1
    ensures tup.readers == {t}
  {
    assert |tup.readers - {t}| == 0;
    assert tup.readers == {t} + (tup.readers - {t});
  }

  lemma UpgradeKeeps(s: State, s': State, t: nat, pos: nat, k: Key)
    requires LocksInv(s) && t < |s.txs| && s.txs[t].phase == Acquiring(pos) && pos < |s.programs[t]|
    requires s.programs[t][pos].Write? && s.programs[t][pos].key == k && k < |s.table|
    requires k in s.txs[t].rlocks && s.table[k].count == 1
    requires s' == SetBoth(s, t, s.txs[t].(phase := Acquiring(pos + 1), rlocks := Removed(s.txs[t].rlocks, k), wlocks := s.txs[t].wlocks + [k]),
                           k, Upgraded(s.table[k], t))
    ensures LocksInv(s')
  {
    assert TxInv(s.table, s.txs[t], t, s.programs[t]);
    assert TupleOk(s.table[k], s.first, s.next, |s.txs|) && LiveOk(s.table[k], k, s.programs, s.next);
    OnlyReader(s.table[k], t);
    RemovedFacts(s.txs[t].rlocks, k);
    CoverMore(s.txs[t], s'.txs[t], s.programs[t], pos);
    StepKeeps(s, s', t, k);
  }

  lemma AcquireKeeps(s: State, s': State, t: nat)
    requires LocksInv(s) && t < |s.txs| && Acquire(s, s', t)
    ensures LocksInv(s')
  {
    var tx, pos := s.txs[t], s.txs[t].phase.pos;
    assert TxInv(s.table, tx, t, s.programs[t]);
    match s.programs[t][pos] {
      case Sleep =>
        SkipKeeps(s, s', t, pos);
      case Read(k) =>
        if k in tx.rlocks || k in tx.wlocks {
          SkipKeeps(s, s', t, pos);
        } else if s.table[k].count != -1 {
          ReadLockKeeps(s, s', t, pos, k);
        } else {
          GiveUpKeeps(s, s', t);
        }
      case Write(k, v) =>
        if k in tx.rlocks {
          if s.table[k].count == 1 {
            UpgradeKeeps(s, s', t, pos, k);
          } else {
            GiveUpKeeps(s, s', t);
          }
        } else if k in tx.wlocks {
          SkipKeeps(s, s', t, pos);
        } else if s.table[k].count == 0 {
          WriteLockKeeps(s, s', t, pos, k);
        } else {
          GiveUpKeeps(s, s', t);
        }
    }
  }

  /** The second try after a refused upgrade cannot succeed: the transaction's own read
      lock is in the way. */
  lemma AfterRefusalKeeps(s: State, s': State, t: nat)
    requires LocksInv(s) && t < |s.txs| && AfterRefusal(s, s', t)
    ensures LocksInv(s')
  {
    var k := s.programs[t][s.txs[t].phase.pos].key;
    assert TxInv(s.table, s.txs[t], t, s.programs[t]);
    assert TupleOk(s.table[k], s.first, s.next, |s.txs|) && t in s.table[k].readers;
    PhaseStepKeeps(s, s', t);
  }

  lemma ReleasedTuple(tup: Tuple, t: nat, first: nat, next: nat, n: nat)
    requires TupleOk(tup, first, next, n) && t in tup.readers
    ensures TupleOk(tup.(count := tup.count - 1, readers := tup.readers - {t}), first, next, n)
  {
    assert |tup.readers - {t}| == |tup.readers| - 1;
  }

  lemma UndoKeeps(s: State, s': State, t: nat)
    requires LocksInv(s) && t < |s.txs| && Undo(s, s', t)
    ensures LocksInv(s')
  {
    var tx := s.txs[t];
    assert TxInv(s.table, tx, t, s.programs[t]);
    if tx.rlocks != [] {
      var k := tx.rlocks[0];
      assert k in tx.rlocks;
      DropFirst(tx.rlocks);
      ReleasedTuple(s.table[k], t, s.first, s.next, |s.txs|);
      assert LiveOk(s.table[k], k, s.programs, s.next);
      StepKeeps(s, s', t, k);
    } else if tx.wlocks != [] {
      var k := tx.wlocks[0];
      assert k in tx.wlocks;
      DropFirst(tx.wlocks);
      assert LiveOk(s.table[k], k, s.programs, s.next);
      StepKeeps(s, s', t, k);
    } else {
      assert s.programs[t][..0] == [];
      PhaseStepKeeps(s, s', t);
    }
  }

  lemma PublishKeeps(s: State, s': State, t: nat)
    requires LocksInv(s) && t < |s.txs| && Publish(s, s', t)
    ensures LocksInv(s')
  {
    var tasks := s.programs[t];
    assert tasks[..|tasks|] == tasks;
    assert TxInv(s.table, s.txs[t], t, tasks);
    forall k | 0 <= k < |s.table|
      ensures TupleOk(s.table[k], s.first, s'.next, |s.txs|) && LiveOk(s.table[k], k, s.programs, s'.next)
    {
      assert TupleOk(s.table[k], s.first, s.next, |s.txs|) && LiveOk(s.table[k], k, s.programs, s.next);
    }
    forall u | 0 <= u < |s'.txs| ensures TxInv(s'.table, s'.txs[u], u, s'.programs[u]) {
      assert TxInv(s.table, s.txs[u], u, s.programs[u]);
    }
  }

  lemma LeaveGiantKeeps(s: State, s': State, t: nat)
    requires LocksInv(s) && t < |s.txs| && LeaveGiant(s, s', t)
    ensures LocksInv(s')
  {
    forall u | 0 <= u < |s'.txs| ensures TxInv(s'.table, s'.txs[u], u, s'.programs[u]) {
      assert TxInv(s.table, s.txs[u], u, s.programs[u]);
    }
  }

  // --------------------------------------------------- execution and release

  lemma ExecuteKeeps(s: State, s': State, t: nat)
    requires LocksInv(s) && t < |s.txs| && (Execute(s, s', t) || Executed(s, s', t))
    ensures LocksInv(s')
  {
    assert TxInv(s.table, s.txs[t], t, s.programs[t]);
    if Executed(s, s', t) || s.programs[t][s.txs[t].phase.pos].Sleep? {
      PhaseStepKeeps(s, s', t);
    } else {
      var k := s.programs[t][s.txs[t].phase.pos].key;
      assert TupleOk(s.table[k], s.first, s.next, |s.txs|) && LiveOk(s.table[k], k, s.programs, s.next);
      StepKeeps(s, s', t, k);
    }
  }

  lemma ReleaseKeeps(s: State, s': State, t: nat)
    requires LocksInv(s) && t < |s.txs| && Release(s, s', t)
    ensures LocksInv(s')
  {
    var tx := s.txs[t];
    assert TxInv(s.table, tx, t, s.programs[t]);
    if tx.rlocks != [] {
      var k := tx.rlocks[0];
      assert k in tx.rlocks;
      DropFirst(tx.rlocks);
      ReleasedTuple(s.table[k], t, s.first, s.next, |s.txs|);
      assert LiveOk(s.table[k], k, s.programs, s.next);
      StepKeeps(s, s', t, k);
    } else if tx.wlocks != [] {
      var k := tx.wlocks[0];
      assert k in tx.wlocks;
      DropFirst(tx.wlocks);
      assert TupleOk(s.table[k], s.first, s.next, |s.txs|) && LiveOk(s.table[k], k, s.programs, s.next);
      StepKeeps(s, s', t, k);
    } else {
      PhaseStepKeeps(s, s', t);
    }
  }

  lemma StepKeepsLocks(s: State, s': State, t: nat)
    requires LocksInv(s) && StepBy(s, s', t)
    ensures LocksInv(s')
  {
    if Start(s, s', t) {
      StartKeeps(s, s', t);
    } else if Acquire(s, s', t) {
      AcquireKeeps(s, s', t);
    } else if AfterRefusal(s, s', t) {
      AfterRefusalKeeps(s, s', t);
    } else if Undo(s, s', t) {
      UndoKeeps(s, s', t);
    } else if Publish(s, s', t) {
      PublishKeeps(s, s', t);
    } else if LeaveGiant(s, s', t) {
      LeaveGiantKeeps(s, s', t);
    } else if Release(s, s', t) {
      ReleaseKeeps(s, s', t);
    } else {
      ExecuteKeeps(s, s', t);
    }
  }

  lemma InitLocks(s: State)
    requires Init(s)
    ensures LocksInv(s)
  {
  }
}
