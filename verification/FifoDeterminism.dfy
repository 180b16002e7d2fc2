/** The wait-list scheduler is deterministic: whatever the interleaving, every transaction
    reads, and the table ends up with, what the serial execution in transaction-number
    order gives.  And it never gets stuck. */
module FifoDeterminism {
  import opened SerialExecution
  import opened Runs
  import opened Programs
  import opened FifoLockManager
  import opened FifoLockSafety

  /** The table transactions numbered below `n` leave behind when run one by one. */
  function Before(s: State, n: nat): (r: seq<Val>)
    requires n <= |s.programs|
    ensures |r| == |s.init|
  {
    Serial(s.programs, s.init, s.first, n)
  }

  /** What record `k` has to hold: its exclusive holder's progress decides. */
  ghost predicate ValueOk(s: State, k: Key)
    requires k < |s.table| == |s.init| && |s.programs| == |s.txs|
  {
    var tup := s.table[k];
    var w := tup.writer;
    && -1 <= w < |s.txs| && tup.through <= |s.txs|
    && if w >= 0 && s.txs[w].phase.Executing? then
         s.txs[w].phase.pos <= |s.programs[w]| && tup.val == RunTable(s.programs[w][..s.txs[w].phase.pos], Before(s, w))[k]
       else if w >= 0 && s.txs[w].phase.Releasing? then tup.val == Before(s, w + 1)[k]
       else tup.val == Before(s, tup.through)[k]
  }

  /** What transaction `t` has read so far is what it reads in the serial execution. */
  ghost predicate SeenOk(s: State, t: nat)
    requires t < |s.txs| == |s.programs|
  {
    var tx := s.txs[t];
    if tx.phase.Executing? then
      tx.phase.pos <= |s.programs[t]| && tx.seen == RunReads(s.programs[t][..tx.phase.pos], Before(s, t))
    else if Finished(tx.phase) then tx.seen == RunReads(s.programs[t], Before(s, t))
    else tx.seen == []
  }

  ghost predicate ValuesInv(s: State)
    requires |s.table| == |s.init| && |s.programs| == |s.txs|
  {
    && (forall k: Key | k < |s.table| :: ValueOk(s, k))
    && (forall t: nat | t < |s.txs| :: SeenOk(s, t))
  }

  /** Whoever holds a record finds it as all transactions with smaller numbers leave it. */
  lemma HolderView(s: State, k: Key, h: nat)
    requires LocksInv(s) && k < |s.table| && h < |s.txs| && !s.txs[h].phase.Registering?
    requires h in s.table[k].readers || s.table[k].writer == h
    ensures Before(s, s.table[k].through)[k] == Before(s, h)[k]
  {
    var tup := s.table[k];
    assert TupleOk(tup, s.first, s.next) && LiveOk(tup, k, s.programs, s.next, s.giant);
    SerialUntouched(s.programs, s.init, s.first, tup.through, h, k);
  }

  /** The step of `t` leaves alone the value of a record it does not hold. */
  lemma OtherValue(s: State, s': State, t: nat, k: Key)
    requires t < |s.txs| == |s'.txs| == |s.programs| && s'.txs == s.txs[t := s'.txs[t]]
    requires s'.programs == s.programs && s'.init == s.init && s'.first == s.first
    requires k < |s.table| == |s'.table| == |s.init| && ValueOk(s, k)
    requires s.table[k].writer != t && s'.table[k].writer == s.table[k].writer
    requires s'.table[k].val == s.table[k].val && s'.table[k].through == s.table[k].through
    ensures ValueOk(s', k)
  {
  }

  /** Steps of a transaction that is neither running nor letting go of an exclusive lock. */
  ghost predicate KeepsValues(s: State, s': State, t: nat) {
    && t < |s.txs| && |s'.txs| == |s.txs| && s'.txs == s.txs[t := s'.txs[t]]
    && s'.programs == s.programs && s'.init == s.init && s'.first == s.first && |s'.table| == |s.table|
    && (forall k: Key | k < |s.table| ::
          && s'.table[k].val == s.table[k].val && s'.table[k].through == s.table[k].through
          && (s'.table[k].writer == s.table[k].writer || (s.table[k].writer == -1 && s'.table[k].writer == t)))
  }

  lemma PassiveKeeps(s: State, s': State, t: nat)
    requires LocksInv(s) && ValuesInv(s) && LocksInv(s') && KeepsValues(s, s', t)
    requires !s.txs[t].phase.Executing? && !Finished(s.txs[t].phase)
    requires !s'.txs[t].phase.Executing? && !Finished(s'.txs[t].phase) && s'.txs[t].seen == s.txs[t].seen
    ensures ValuesInv(s')
  {
    forall k: Key | k < |s'.table| ensures ValueOk(s', k) {
      assert ValueOk(s, k);
      assert TupleOk(s.table[k], s.first, s.next);
      if s.table[k].writer != t && s'.table[k].writer == s.table[k].writer {
        OtherValue(s, s', t, k);
      }
    }
    forall u: nat | u < |s'.txs| ensures SeenOk(s', u) {
      assert SeenOk(s, u);
    }
  }

  /** The transaction starts running: it sees the table its predecessors leave. */
  lemma BeginKeeps(s: State, s': State, t: nat)
    requires LocksInv(s) && ValuesInv(s) && LocksInv(s') && t < |s.txs| && s.txs[t].phase.Acquiring?
    requires s' == SetPhase(s, t, Executing(0))
    ensures ValuesInv(s')
  {
    assert s.programs[t][..0] == [];
    forall k: Key | k < |s'.table| ensures ValueOk(s', k) {
      assert ValueOk(s, k);
      if s.table[k].writer == t {
        HolderView(s, k, t);
      } else {
        OtherValue(s, s', t, k);
      }
    }
    forall u: nat | u < |s'.txs| ensures SeenOk(s', u) {
      assert SeenOk(s, u);
    }
  }

  /** The value of a record the running transaction holds, at position `pos`. */
  lemma HeldValue(s: State, t: nat, k: Key)
    requires LocksInv(s) && ValuesInv(s) && t < |s.txs| && s.txs[t].phase.Executing? && k < |s.table|
    requires TouchesKey(s.programs[t], k)
    ensures s.txs[t].phase.pos <= |s.programs[t]|
    ensures s.table[k].val == RunTable(s.programs[t][..s.txs[t].phase.pos], Before(s, t))[k]
    ensures WritesKey(s.programs[t], k) ==> s.table[k].writer == t
  {
    var tx, tasks := s.txs[t], s.programs[t];
    assert TxInv(s.table, tx, t, tasks) && ValueOk(s, k) && TupleOk(s.table[k], s.first, s.next);
    if k in tx.rlocks {
      HolderView(s, k, t);
      if WritesKey(tasks[..tx.phase.pos], k) {
        PrefixWrites(tasks, tx.phase.pos, k);
      }
      Untouched(tasks[..tx.phase.pos], Before(s, t), k);
    }
  }

  /** One task of the running transaction has the same effect as in the serial execution. */
  lemma TaskEffect(s: State, s': State, t: nat)
    requires LocksInv(s) && ValuesInv(s) && t < |s.txs| && Execute(s, s', t)
    ensures var tasks, pos := s.programs[t], s.txs[t].phase.pos;
            && pos < |tasks|
            && (forall k: Key | k < |s.table| && s.table[k].writer == t :: s'.table[k].val == RunTable(tasks[..pos + 1], Before(s, t))[k])
            && (forall k: Key | k < |s.table| && s.table[k].writer != t :: s'.table[k] == s.table[k])
            && s'.txs[t].seen == RunReads(tasks[..pos + 1], Before(s, t))
  {
    var tasks, pos := s.programs[t], s.txs[t].phase.pos;
    PrefixStep(tasks, Before(s, t), pos);
    assert SeenOk(s, t);
    if !tasks[pos].Sleep? {
      TaskTouches(tasks, pos);
      HeldValue(s, t, tasks[pos].key);
    }
    forall k: Key | k < |s.table| && s.table[k].writer == t ensures s'.table[k].val == RunTable(tasks[..pos + 1], Before(s, t))[k] {
      assert ValueOk(s, k);
    }
  }

  /** Nobody's record but those held by `t` changes, and nobody else's progress. */
  ghost predicate OnlyOwn(s: State, s': State, t: nat) {
    && t < |s.txs| == |s'.txs| == |s.programs| && s'.txs == s.txs[t := s'.txs[t]]
    && s'.programs == s.programs && s'.init == s.init && s'.first == s.first
    && |s.table| == |s'.table| == |s.init|
    && forall k: Key | k < |s.table| && s.table[k].writer != t ::
         && s'.table[k].writer == s.table[k].writer && s'.table[k].val == s.table[k].val
         && s'.table[k].through == s.table[k].through
  }

  lemma OwnKeepValues(s: State, s': State, t: nat)
    requires OnlyOwn(s, s', t) && ValuesInv(s)
    requires forall k: Key | k < |s.table| && s.table[k].writer == t :: ValueOk(s', k)
    requires SeenOk(s', t)
    ensures ValuesInv(s')
  {
    forall k: Key | k < |s'.table| ensures ValueOk(s', k) {
      if s.table[k].writer != t {
        OtherValue(s, s', t, k);
      }
    }
    forall u: nat | u < |s'.txs| ensures SeenOk(s', u) {
      assert SeenOk(s, u);
    }
  }

  lemma ExecuteKeepsValues(s: State, s': State, t: nat)
    requires LocksInv(s) && ValuesInv(s) && t < |s.txs| && Execute(s, s', t)
    ensures |s'.table| == |s'.init| && |s'.programs| == |s'.txs| && ValuesInv(s')
  {
    TaskEffect(s, s', t);
    assert ValuesInv(s);
    forall k: Key | k < |s.table| && s.table[k].writer == t ensures ValueOk(s', k) {
      assert ValueOk(s, k);
    }
    OwnKeepValues(s, s', t);
  }

  lemma ExecutedKeepsValues(s: State, s': State, t: nat)
    requires LocksInv(s) && ValuesInv(s) && t < |s.txs| && (Executed(s, s', t) || Finish(s, s', t))
    ensures ValuesInv(s')
  {
    var tasks := s.programs[t];
    assert tasks[..|tasks|] == tasks;
    assert TxInv(s.table, s.txs[t], t, tasks) && SeenOk(s, t);
    forall k: Key | k < |s.table| && s.table[k].writer == t ensures ValueOk(s', k) {
      assert ValueOk(s, k);
    }
    OwnKeepValues(s, s', t);
  }

  lemma ReleaseReadKeepsValues(s: State, s': State, t: nat)
    requires LocksInv(s) && ValuesInv(s) && t < |s.txs| && ReleaseRead(s, s', t)
    ensures |s'.table| == |s'.init| && |s'.programs| == |s'.txs| && ValuesInv(s')
  {
    var k := s.txs[t].rlocks[0];
    assert TxInv(s.table, s.txs[t], t, s.programs[t]) && TupleOk(s.table[k], s.first, s.next) && SeenOk(s, t);
    assert s.table[k].writer != t;
    forall x: Key | x < |s.table| && s.table[x].writer == t ensures ValueOk(s', x) {
      assert ValueOk(s, x);
    }
    OwnKeepValues(s, s', t);
  }

  lemma ReleaseWriteKeepsValues(s: State, s': State, t: nat)
    requires LocksInv(s) && ValuesInv(s) && t < |s.txs| && ReleaseWrite(s, s', t)
    ensures |s'.table| == |s'.init| && |s'.programs| == |s'.txs| && ValuesInv(s')
  {
    var k := s.txs[t].wlocks[0];
    assert TxInv(s.table, s.txs[t], t, s.programs[t]) && TupleOk(s.table[k], s.first, s.next) && SeenOk(s, t);
    assert s.table[k].writer == t;
    forall x: Key | x < |s.table| && s.table[x].writer == t ensures ValueOk(s', x) {
      assert ValueOk(s, x);
    }
    OwnKeepValues(s, s', t);
  }

  lemma StepKeepsValues(s: State, s': State, t: nat)
    requires LocksInv(s) && ValuesInv(s) && LocksInv(s') && StepBy(s, s', t)
    ensures ValuesInv(s')
  {
    if Execute(s, s', t) {
      ExecuteKeepsValues(s, s', t);
    } else if Executed(s, s', t) || Finish(s, s', t) {
      ExecutedKeepsValues(s, s', t);
    } else if ReleaseRead(s, s', t) {
      ReleaseReadKeepsValues(s, s', t);
    } else if ReleaseWrite(s, s', t) {
      ReleaseWriteKeepsValues(s, s', t);
    } else if Wrap(s, s', t) && s.txs[t].future == [] {
      BeginKeeps(s, s', t);
    } else {
      if TryLock(s, s', t) {
        LockingPassively(s, s', t);
      } else if CheckHead(s, s', t) || TryBusy(s, s', t) || Wrap(s, s', t) {
        WaitingPassively(s, s', t);
      } else {
        RegisteringPassively(s, s', t);
      }
      PassiveKeeps(s, s', t);
    }
  }

  ghost predicate Passively(s: State, s': State, t: nat) {
    && KeepsValues(s, s', t) && s'.txs[t].seen == s.txs[t].seen
    && !s.txs[t].phase.Executing? && !Finished(s.txs[t].phase)
    && !s'.txs[t].phase.Executing? && !Finished(s'.txs[t].phase)
  }

  lemma RegisteringPassively(s: State, s': State, t: nat)
    requires t < |s.txs| && (Start(s, s', t) || Register(s, s', t) || Registered(s, s', t))
    ensures Passively(s, s', t)
  {
  }

  lemma WaitingPassively(s: State, s': State, t: nat)
    requires t < |s.txs| && (CheckHead(s, s', t) || TryBusy(s, s', t) || (Wrap(s, s', t) && s.txs[t].future != []))
    ensures Passively(s, s', t)
  {
  }

  lemma LockingPassively(s: State, s': State, t: nat)
    requires LocksInv(s) && t < |s.txs| && TryLock(s, s', t)
    ensures Passively(s, s', t)
  {
    var l := s.txs[t].future[s.txs[t].phase.i];
    assert TupleOk(s.table[l.key], s.first, s.next);
  }

  // -------------------------------------------------------------- whole runs

  ghost predicate Inv(s: State) { LocksInv(s) && ValuesInv(s) }

  lemma StepKeepsInv(s: State, s': State)
    requires Inv(s) && Next(s, s')
    ensures Inv(s')
  {
    var t: nat :| StepBy(s, s', t);
    StepKeepsLocks(s, s', t);
    StepKeepsValues(s, s', t);
  }

  lemma RunKeepsInv(run: seq<State>, i: nat)
    requires IsRun(run, Init, Next) && i < |run|
    ensures Inv(run[i])
  {
    forall s | Init(s) ensures Inv(s) {
      InitLocks(s);
    }
    forall s, s' | Inv(s) && Next(s, s') ensures Inv(s') {
      StepKeepsInv(s, s');
    }
    Invariant(run, Init, Next, Inv, i);
  }

  lemma {:induction false} StartKept(run: seq<State>, i: nat)
    requires IsRun(run, Init, Next) && i < |run|
    ensures run[i].programs == run[0].programs && run[i].init == run[0].init && run[i].first == run[0].first
  {
    if i > 0 {
      StartKept(run, i - 1);
      assert Next(run[i - 1], run[i]);
      var t: nat :| StepBy(run[i - 1], run[i], t);
      StepKeepsStart(run[i - 1], run[i], t);
    }
  }

  /** In every interleaving, a transaction that has run has read exactly what it reads in
      the serial execution in transaction-number order. */
  lemma ReadsAreSerial(run: seq<State>, i: nat, t: nat)
    requires IsRun(run, Init, Next) && i < |run| && t < |run[i].txs| && Finished(run[i].txs[t].phase)
    ensures |run[i].programs| == |run[i].txs|
    ensures run[i].txs[t].seen == RunReads(run[i].programs[t], Before(run[i], t))
    ensures run[i].programs == run[0].programs && run[i].init == run[0].init && run[i].first == run[0].first
  {
    StartKept(run, i);
    RunKeepsInv(run, i);
    assert SeenOk(run[i], t);
  }

  /** When every transaction drawn so far is done, the table is the serial one. */
  lemma FinalTableIsSerial(run: seq<State>, i: nat, k: Key)
    requires IsRun(run, Init, Next) && i < |run| && k < |run[i].table|
    requires forall t: nat | run[i].first <= t < run[i].next && t < |run[i].txs| :: run[i].txs[t].phase.Done?
    ensures run[i].next <= |run[i].programs| && |run[i].table| == |run[i].init|
    ensures run[i].table[k].val == Before(run[i], run[i].next)[k]
    ensures run[i].programs == run[0].programs && run[i].init == run[0].init && run[i].first == run[0].first
  {
    StartKept(run, i);
    RunKeepsInv(run, i);
    var s := run[i];
    var tup := s.table[k];
    assert ValueOk(s, k) && TupleOk(tup, s.first, s.next) && LiveOk(tup, k, s.programs, s.next, s.giant);
    forall x | tup.through <= x < s.next ensures !WritesKey(s.programs[x], k) && tup.writer != x {
      assert TxInv(s.table, s.txs[x], x, s.programs[x]);
    }
    SerialUntouched(s.programs, s.init, s.first, tup.through, s.next, k);
  }

  predicate Conflict(a: seq<Task>, b: seq<Task>, k: Key) {
    TouchesKey(a, k) && TouchesKey(b, k) && (WritesKey(a, k) || WritesKey(b, k))
  }

  /** Conflicting accesses happen in transaction-number order: while a transaction runs,
      every smaller one it conflicts with has run and let the record go. */
  lemma ConflictsInOrder(run: seq<State>, i: nat, u: nat, t: nat, k: Key)
    requires IsRun(run, Init, Next) && i < |run| && run[i].first <= u < t < |run[i].txs|
    requires |run[i].programs| == |run[i].txs| && k < |run[i].table|
    requires run[i].txs[t].phase.Executing? && Conflict(run[i].programs[u], run[i].programs[t], k)
    ensures Finished(run[i].txs[u].phase) && k !in run[i].txs[u].rlocks && k !in run[i].txs[u].wlocks
  {
    RunKeepsInv(run, i);
    var s := run[i];
    assert TxInv(s.table, s.txs[t], t, s.programs[t]) && TxInv(s.table, s.txs[u], u, s.programs[u]);
    assert TupleOk(s.table[k], s.first, s.next);
  }

  // -------------------------------------------------------- deadlock freedom

  /** Drawn and not done. */
  predicate Live(s: State, t: nat) {
    t < |s.txs| && s.first <= t < s.next && !s.txs[t].phase.Done?
  }

  ghost predicate Oldest(s: State, t: nat) {
    Live(s, t) && forall u: nat | Live(s, u) :: t <= u
  }

  /** In every reachable state the oldest live transaction heads every wait list it is on and
      finds the lock free. */
  lemma OldestIsFirst(run: seq<State>, i: nat, t: nat, j: nat)
    requires IsRun(run, Init, Next) && i < |run| && Oldest(run[i], t)
    requires j < |run[i].txs[t].future| && !run[i].txs[t].phase.Registering?
    ensures AtRequest(run[i], t, j)
    ensures var l := run[i].txs[t].future[j]; var tup := run[i].table[l.key];
            tup.waits != [] && tup.waits[0] == t && Free(tup, l.mode)
  {
    RunKeepsInv(run, i);
    OldestHeadsAndFindsFree(run[i], t, j);
  }

  /** The oldest live transaction heads every wait list it is on and finds the lock free. */
  lemma OldestHeadsAndFindsFree(s: State, t: nat, i: nat)
    requires LocksInv(s) && Oldest(s, t) && i < |s.txs[t].future| && !s.txs[t].phase.Registering?
    ensures AtRequest(s, t, i)
    ensures var tup := s.table[s.txs[t].future[i].key];
            tup.waits != [] && tup.waits[0] == t && Free(tup, s.txs[t].future[i].mode)
  {
    assert TxInv(s.table, s.txs[t], t, s.programs[t]);
    var k := s.txs[t].future[i].key;
    var tup := s.table[k];
    assert HasLock(s.txs[t].future, k) && t in tup.waits && TupleOk(tup, s.first, s.next);
    var j: nat :| j < |tup.waits| && tup.waits[j] == t;
    HeadIsLive(s, k);
    HolderIsLive(s, k);
    assert tup.waits[0] <= tup.waits[j];
  }

  lemma HeadIsLive(s: State, k: Key)
    requires LocksInv(s) && k < |s.table| && s.table[k].waits != []
    ensures Live(s, s.table[k].waits[0])
  {
    var w := s.table[k].waits[0];
    assert w in s.table[k].waits && TupleOk(s.table[k], s.first, s.next);
    assert TxInv(s.table, s.txs[w], w, s.programs[w]);
  }

  lemma HolderIsLive(s: State, k: Key)
    requires LocksInv(s) && k < |s.table|
    ensures forall r | r in s.table[k].readers :: Live(s, r)
    ensures s.table[k].writer >= 0 ==> Live(s, s.table[k].writer)
  {
    var tup := s.table[k];
    assert TupleOk(tup, s.first, s.next);
    forall r | r in tup.readers ensures Live(s, r) {
      assert TxInv(s.table, s.txs[r], r, s.programs[r]);
    }
    if tup.writer >= 0 {
      assert TxInv(s.table, s.txs[tup.writer], tup.writer, s.programs[tup.writer]);
    }
  }

  /** What is left to do for a transaction. */
  function Work(tx: Tx, tasks: seq<Task>): int {
    match tx.phase
    case NotStarted => 4 * |tasks| + 5
    case Registering(pos) => 3 * (|tasks| - pos) + 2 * |tx.future| + |tasks| + 4
    case Acquiring(_) => 2 * |tx.future| + |tx.rlocks| + |tx.wlocks| + |tasks| + 3
    case Trying(_) => 2 * |tx.future| + |tx.rlocks| + |tx.wlocks| + |tasks| + 3
    case Executing(pos) => |tx.rlocks| + |tx.wlocks| + |tasks| - pos + 2
    case Releasing => |tx.rlocks| + |tx.wlocks| + 1
    case Done => 0
  }

  lemma WorkNonNegative(s: State, t: nat)
    requires LocksInv(s) && t < |s.txs|
    ensures Work(s.txs[t], s.programs[t]) >= 0
  {
    assert TxInv(s.table, s.txs[t], t, s.programs[t]);
  }

  lemma RegistrationWorks(s: State, s': State, t: nat)
    requires LocksInv(s) && t < |s.txs| && (Start(s, s', t) || Register(s, s', t) || Registered(s, s', t))
    ensures |s'.txs| == |s.txs| && s'.txs == s.txs[t := s'.txs[t]]
    ensures Work(s'.txs[t], s.programs[t]) < Work(s.txs[t], s.programs[t])
  {
    assert TxInv(s.table, s.txs[t], t, s.programs[t]);
  }

  lemma AcquisitionWorks(s: State, s': State, t: nat)
    requires LocksInv(s) && t < |s.txs| && (CheckHead(s, s', t) || TryBusy(s, s', t) || TryLock(s, s', t) || Wrap(s, s', t))
    ensures |s'.txs| == |s.txs| && s'.txs == s.txs[t := s'.txs[t]]
    ensures s.txs[t].phase.Acquiring? || s.txs[t].phase.Trying?
    ensures Work(s'.txs[t], s.programs[t]) <= Work(s.txs[t], s.programs[t])
  {
  }

  lemma ExecutionWorks(s: State, s': State, t: nat)
    requires LocksInv(s) && t < |s.txs|
    requires Execute(s, s', t) || Executed(s, s', t) || ReleaseRead(s, s', t) || ReleaseWrite(s, s', t) || Finish(s, s', t)
    ensures |s'.txs| == |s.txs| && s'.txs == s.txs[t := s'.txs[t]]
    ensures Work(s'.txs[t], s.programs[t]) < Work(s.txs[t], s.programs[t])
  {
  }

  /** No step adds work, and every step but a fruitless look at a wait list removes some. */
  lemma StepsDoWork(s: State, s': State, t: nat)
    requires LocksInv(s) && StepBy(s, s', t)
    ensures |s'.txs| == |s.txs| && forall u: nat | u != t && u < |s.txs| :: s'.txs[u] == s.txs[u]
    ensures Work(s'.txs[t], s.programs[t]) <= Work(s.txs[t], s.programs[t])
    ensures s.txs[t].phase.Acquiring? || s.txs[t].phase.Trying? || Work(s'.txs[t], s.programs[t]) < Work(s.txs[t], s.programs[t])
  {
    if Start(s, s', t) || Register(s, s', t) || Registered(s, s', t) {
      RegistrationWorks(s, s', t);
    } else if CheckHead(s, s', t) || TryBusy(s, s', t) || TryLock(s, s', t) || Wrap(s, s', t) {
      AcquisitionWorks(s, s', t);
    } else {
      ExecutionWorks(s, s', t);
    }
  }

  /** The same along whole runs. */
  lemma RunsDoWork(run: seq<State>, i: nat, t: nat)
    requires IsRun(run, Init, Next) && i + 1 < |run| && StepBy(run[i], run[i + 1], t)
    ensures |run[i].programs| == |run[i].txs| == |run[i + 1].txs|
    ensures forall u: nat | u != t && u < |run[i].txs| :: run[i + 1].txs[u] == run[i].txs[u]
    ensures 0 <= Work(run[i + 1].txs[t], run[i].programs[t]) <= Work(run[i].txs[t], run[i].programs[t])
    ensures run[i].txs[t].phase.Acquiring? || run[i].txs[t].phase.Trying?
            || Work(run[i + 1].txs[t], run[i].programs[t]) < Work(run[i].txs[t], run[i].programs[t])
  {
    RunKeepsInv(run, i);
    StepsDoWork(run[i], run[i + 1], t);
    StepKeepsLocks(run[i], run[i + 1], t);
    WorkNonNegative(run[i + 1], t);
    StepKeepsStart(run[i], run[i + 1], t);
  }

  lemma StepKeepsStart(s: State, s': State, t: nat)
    requires StepBy(s, s', t)
    ensures s'.programs == s.programs && s'.init == s.init && s'.first == s.first
  {
  }

  /** How far an acquiring transaction is from its next attempt at a lock. */
  function Stage(tx: Tx): nat {
    if tx.phase.Trying? then 0
    else if tx.phase.Acquiring? && tx.phase.i < |tx.future| then 1
    else 2
  }

  lemma OldestKept(s: State, s': State, t: nat)
    requires Oldest(s, t) && |s'.txs| == |s.txs| && s'.txs == s.txs[t := s'.txs[t]] && !s'.txs[t].phase.Done?
    requires s'.next == s.next && s'.first == s.first
    ensures Oldest(s', t)
  {
    forall u: nat | Live(s', u) ensures t <= u {
      assert Live(s, u);
    }
  }

  /** The next step of the oldest live transaction when it is acquiring its locks. */
  lemma OldestGoesOn(s: State, t: nat) returns (s': State)
    requires LocksInv(s) && Oldest(s, t) && (s.txs[t].phase.Acquiring? || s.txs[t].phase.Trying?)
    ensures StepBy(s, s', t) && LocksInv(s') && Oldest(s', t) && s'.programs == s.programs
    ensures || Work(s'.txs[t], s.programs[t]) < Work(s.txs[t], s.programs[t])
            || (Work(s'.txs[t], s.programs[t]) == Work(s.txs[t], s.programs[t]) && Stage(s'.txs[t]) < Stage(s.txs[t])
                && (s'.txs[t].phase.Acquiring? || s'.txs[t].phase.Trying?))
  {
    var tx := s.txs[t];
    var i := tx.phase.i;
    assert TxInv(s.table, tx, t, s.programs[t]);
    if tx.phase.Acquiring? && i >= |tx.future| {
      s' := SetPhase(s, t, if tx.future == [] then Executing(0) else Acquiring(0));
      assert Wrap(s, s', t);
    } else {
      OldestHeadsAndFindsFree(s, t, i);
      if tx.phase.Acquiring? {
        s' := SetPhase(s, t, Trying(i));
        assert CheckHead(s, s', t);
      } else {
        s' := OldestLocks(s, t);
      }
    }
    OldestKept(s, s', t);
    StepKeepsLocks(s, s', t);
  }

  lemma OldestLocks(s: State, t: nat) returns (s': State)
    requires LocksInv(s) && Oldest(s, t) && s.txs[t].phase.Trying?
    ensures TryLock(s, s', t) && |s'.txs| == |s.txs| && s'.txs == s.txs[t := s'.txs[t]]
    ensures s'.next == s.next && s'.first == s.first && s'.programs == s.programs && s'.txs[t].phase.Acquiring?
    ensures Work(s'.txs[t], s.programs[t]) < Work(s.txs[t], s.programs[t])
  {
    var tx := s.txs[t];
    var i := tx.phase.i;
    assert TxInv(s.table, tx, t, s.programs[t]);
    OldestHeadsAndFindsFree(s, t, i);
    var l := tx.future[i];
    s' := s.(table := s.table[l.key := Locked(s.table[l.key], t, l.mode)],
             txs := s.txs[t := tx.(phase := Acquiring(i), future := Without(tx.future, i),
                                   rlocks := if l.mode.Shared? then tx.rlocks + [l.key] else tx.rlocks,
                                   wlocks := if l.mode.Shared? then tx.wlocks else tx.wlocks + [l.key])]);
  }

  /** A sequence of steps of transaction `t` alone. */
  ghost predicate Solo(steps: seq<State>, t: nat) {
    forall j | 0 < j < |steps| :: StepBy(steps[j - 1], steps[j], t)
  }

  lemma SoloLonger(s: State, rest: seq<State>, t: nat)
    requires rest != [] && Solo(rest, t) && StepBy(s, rest[0], t)
    ensures Solo([s] + rest, t)
  {
    var steps := [s] + rest;
    forall j | 0 < j < |steps| ensures StepBy(steps[j - 1], steps[j], t) {
      if j > 1 {
        assert StepBy(rest[j - 2], rest[j - 1], t);
      }
    }
  }

  /** What is left before the transaction is done, counting looks at wait lists. */
  function Distance(tx: Tx, tasks: seq<Task>): int { 3 * Work(tx, tasks) + Stage(tx) }

  /** One step of the oldest live transaction that registers, runs or releases. */
  lemma OldestWorks(s: State, t: nat) returns (s': State)
    requires LocksInv(s) && Oldest(s, t) && !s.txs[t].phase.Acquiring? && !s.txs[t].phase.Trying?
    ensures StepBy(s, s', t) && s'.programs == s.programs && s'.next == s.next && s'.first == s.first
  {
    if s.txs[t].phase.Registering? {
      s' := NextRegistration(s, t);
    } else if s.txs[t].phase.Executing? {
      s' := NextExecution(s, t);
    } else {
      s' := NextRelease(s, t);
    }
  }

  /** One step of the oldest live transaction: it comes nearer to its end. */
  lemma OldestSteps(s: State, t: nat) returns (s': State)
    requires LocksInv(s) && Oldest(s, t)
    ensures StepBy(s, s', t) && LocksInv(s') && s'.programs == s.programs && t < |s'.txs|
    ensures s'.txs[t].phase.Done? || Oldest(s', t)
    ensures 0 <= Distance(s'.txs[t], s.programs[t]) < Distance(s.txs[t], s.programs[t])
  {
    if s.txs[t].phase.Acquiring? || s.txs[t].phase.Trying? {
      s' := OldestGoesOn(s, t);
    } else {
      s' := OldestWorks(s, t);
      StepsDoWork(s, s', t);
      StepKeepsLocks(s, s', t);
      if !s'.txs[t].phase.Done? {
        OldestKept(s, s', t);
      }
    }
    WorkNonNegative(s', t);
  }

  /** The oldest live transaction, taking steps alone, gets to its end. */
  lemma {:induction false} OldestFinishes(s: State, t: nat) returns (steps: seq<State>)
    requires LocksInv(s) && Oldest(s, t)
    ensures steps != [] && steps[0] == s && Solo(steps, t)
    ensures t < |steps[|steps| - 1].txs| && steps[|steps| - 1].txs[t].phase.Done?
    decreases Distance(s.txs[t], s.programs[t])
  {
    var next := OldestSteps(s, t);
    if next.txs[t].phase.Done? {
      steps := [s, next];
    } else {
      var rest := OldestFinishes(next, t);
      steps := [s] + rest;
      SoloLonger(s, rest, t);
    }
  }

  /** There is no deadlock: from every reachable state the oldest drawn and unfinished
      transaction can run to its end without a step of any other. */
  lemma OldestCompletes(run: seq<State>, i: nat, t: nat) returns (steps: seq<State>)
    requires IsRun(run, Init, Next) && i < |run| && Oldest(run[i], t)
    ensures steps != [] && steps[0] == run[i] && Solo(steps, t)
    ensures t < |steps[|steps| - 1].txs| && steps[|steps| - 1].txs[t].phase.Done?
  {
    RunKeepsInv(run, i);
    steps := OldestFinishes(run[i], t);
  }

  /** As long as a drawn transaction is not done, the oldest such transaction can take a
      step, and one that brings it nearer to its end. */
  lemma NeverStuck(run: seq<State>, i: nat, t: nat) returns (s': State)
    requires IsRun(run, Init, Next) && i < |run| && Oldest(run[i], t)
    ensures StepBy(run[i], s', t) && |run[i].programs| == |run[i].txs| == |s'.txs|
    ensures 0 <= Distance(s'.txs[t], run[i].programs[t]) < Distance(run[i].txs[t], run[i].programs[t])
  {
    RunKeepsInv(run, i);
    s' := OldestSteps(run[i], t);
    StepsDoWork(run[i], s', t);
  }

  /** Somebody with a smaller number is in the way of request `l`: ahead in the wait list, or
      holding the record in a mode that excludes the one asked for. */
  ghost predicate Barred(tup: Tuple, l: Lock, t: nat) {
    || (tup.waits != [] && tup.waits[0] < t)
    || 0 <= tup.writer < t
    || (l.mode.Exclusive? && exists h: nat :: h in tup.readers && h < t)
  }

  /** A look at the wait list passes the request over if and only if somebody is ahead of it. */
  lemma HeadPassedOver(run: seq<State>, i: nat, s': State, t: nat)
    requires IsRun(run, Init, Next) && i < |run| && t < |run[i].txs| && CheckHead(run[i], s', t)
    ensures t < |s'.txs| && (s'.txs[t].phase.Trying? || s'.txs[t].phase.Acquiring?)
    ensures var l := run[i].txs[t].future[run[i].txs[t].phase.i]; var tup := run[i].table[l.key];
            s'.txs[t].phase.Acquiring? <==> tup.waits != [] && tup.waits[0] < t
  {
    RunKeepsInv(run, i);
    var l := run[i].txs[t].future[run[i].txs[t].phase.i];
    assert TxInv(run[i].table, run[i].txs[t], t, run[i].programs[t]) && TupleOk(run[i].table[l.key], run[i].first, run[i].next);
    assert HasLock(run[i].txs[t].future, l.key);
  }

  /** At the head of the wait list a request is granted if and only if no smaller-numbered
      transaction holds the record in a mode that excludes it: readers share. */
  lemma RequestRefused(run: seq<State>, i: nat, s': State, t: nat)
    requires IsRun(run, Init, Next) && i < |run| && t < |run[i].txs| && TryLock(run[i], s', t)
    ensures t < |s'.txs|
    ensures var tx := run[i].txs[t]; var l := tx.future[tx.phase.i]; var tup := run[i].table[l.key];
            if Barred(tup, l, t) then s' == SetPhase(run[i], t, Acquiring(tx.phase.i + 1))
            else |s'.txs[t].future| == |tx.future| - 1
                 && if l.mode.Shared? then l.key in s'.txs[t].rlocks else l.key in s'.txs[t].wlocks
  {
    RunKeepsInv(run, i);
    var l := run[i].txs[t].future[run[i].txs[t].phase.i];
    var tup := run[i].table[l.key];
    assert TxInv(run[i].table, run[i].txs[t], t, run[i].programs[t]) && TupleOk(tup, run[i].first, run[i].next);
    assert HasLock(run[i].txs[t].future, l.key) && tup.waits[0] in tup.waits;
    if tup.writer < 0 && tup.readers != {} {
      var h: nat :| h in tup.readers;
      assert h < t;
    }
  }

  /** Wait lists ascend strictly in every reachable state, and whoever holds the record comes
      before everybody waiting. */
  lemma WaitListsAscend(run: seq<State>, i: nat, k: Key)
    requires IsRun(run, Init, Next) && i < |run| && k < |run[i].table|
    ensures var tup := run[i].table[k];
            && (forall a, b | 0 <= a < b < |tup.waits| :: tup.waits[a] < tup.waits[b])
            && (forall a, h: nat | 0 <= a < |tup.waits| && (h in tup.readers || tup.writer == h) :: h < tup.waits[a])
  {
    RunKeepsInv(run, i);
    var tup := run[i].table[k];
    assert TupleOk(tup, run[i].first, run[i].next);
    assert forall a | 0 <= a < |tup.waits| :: tup.waits[a] in tup.waits;
  }

  lemma NextRegistration(s: State, t: nat) returns (s': State)
    requires LocksInv(s) && t < |s.txs| && s.txs[t].phase.Registering?
    ensures Register(s, s', t) || Registered(s, s', t)
  {
    var tasks, pos := s.programs[t], s.txs[t].phase.pos;
    assert TxInv(s.table, s.txs[t], t, tasks);
    if pos == |tasks| {
      s' := SetPhase(s, t, Acquiring(0)).(giant := -1);
    } else {
      match tasks[pos] {
        case Sleep =>
          s' := SetPhase(s, t, Registering(pos + 1));
        case Read(k) =>
          s' := if FirstUse(tasks, k, pos) > -1 then SetPhase(s, t, Registering(pos + 1)) else Enqueue(s, t, pos, k, Shared);
        case Write(k, v) =>
          s' := if FirstUse(tasks, k, pos) == 1 then SetPhase(s, t, Registering(pos + 1))
                else if FirstUse(tasks, k, pos) == 0 then
                  s.(txs := s.txs[t := s.txs[t].(phase := Registering(pos + 1), future := Upgraded(s.txs[t].future, k))])
                else Enqueue(s, t, pos, k, Exclusive);
      }
    }
  }

  lemma NextExecution(s: State, t: nat) returns (s': State)
    requires LocksInv(s) && t < |s.txs| && s.txs[t].phase.Executing?
    ensures Execute(s, s', t) || Executed(s, s', t)
  {
    var tasks, pos := s.programs[t], s.txs[t].phase.pos;
    assert TxInv(s.table, s.txs[t], t, tasks);
    if pos == |tasks| {
      s' := SetPhase(s, t, Releasing);
    } else {
      match tasks[pos] {
        case Sleep =>
          s' := SetPhase(s, t, Executing(pos + 1));
        case Read(k) =>
          s' := s.(txs := s.txs[t := s.txs[t].(phase := Executing(pos + 1), seen := s.txs[t].seen + [s.table[k].val])]);
        case Write(k, v) =>
          s' := SetPhase(s, t, Executing(pos + 1)).(table := s.table[k := s.table[k].(val := v)]);
      }
    }
  }

  lemma NextRelease(s: State, t: nat) returns (s': State)
    requires LocksInv(s) && t < |s.txs| && s.txs[t].phase.Releasing?
    ensures ReleaseRead(s, s', t) || ReleaseWrite(s, s', t) || Finish(s, s', t)
  {
    var tx := s.txs[t];
    assert TxInv(s.table, tx, t, s.programs[t]);
    if tx.rlocks != [] {
      var k := tx.rlocks[0];
      s' := s.(table := s.table[k := s.table[k].(count := s.table[k].count - 1, readers := s.table[k].readers - {t})],
               txs := s.txs[t := tx.(rlocks := tx.rlocks[1..])]);
    } else if tx.wlocks != [] {
      var k := tx.wlocks[0];
      s' := s.(table := s.table[k := s.table[k].(count := s.table[k].count + 1, writer := -1, through := t + 1)],
               txs := s.txs[t := tx.(wlocks := tx.wlocks[1..])]);
    } else {
      s' := SetPhase(s, t, Done);
    }
  }

  /** The unguarded load of a wait list's first entry is always of a non-empty list. */
  lemma HeadLoadSafe(run: seq<State>, i: nat, t: nat)
    requires IsRun(run, Init, Next) && i < |run| && t < |run[i].txs|
    requires run[i].txs[t].phase.Acquiring? && run[i].txs[t].phase.i < |run[i].txs[t].future|
    ensures AtRequest(run[i], t, run[i].txs[t].phase.i)
    ensures run[i].table[run[i].txs[t].future[run[i].txs[t].phase.i].key].waits != []
  {
    RunKeepsInv(run, i);
    var s := run[i];
    assert TxInv(s.table, s.txs[t], t, s.programs[t]);
    assert HasLock(s.txs[t].future, s.txs[t].future[s.txs[t].phase.i].key);
  }
}
