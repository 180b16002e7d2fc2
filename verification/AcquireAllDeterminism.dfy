/** What the acquire-all scheduler promises: the serial result, atomic failed attempts, and
    no waiting in a circle. */
module AcquireAllDeterminism {
  import opened SerialExecution
  import opened Runs
  import opened KeyLists
  import opened Programs
  import opened AcquireAll
  import opened AcquireAllSafety

  function Before(s: State, n: nat): (r: seq<Val>)
    requires n <= |s.programs|
    ensures |r| == |s.init|
  {
    Serial(s.programs, s.init, s.first, n)
  }

  ghost predicate ValueOk(s: State, k: Key)
    requires LocksInv(s) && k < |s.table|
  {
    var tup := s.table[k];
    assert TupleOk(tup, s.first, s.next, |s.txs|);
    var w := tup.writer;
    if w >= 0 && s.txs[w].phase.Executing? then
      s.txs[w].phase.pos <= |s.programs[w]| && tup.val == RunTable(s.programs[w][..s.txs[w].phase.pos], Before(s, w))[k]
    else if w >= 0 && s.txs[w].phase.Releasing? then tup.val == Before(s, w + 1)[k]
    else tup.val == Before(s, tup.through)[k]
  }

  ghost predicate SeenOk(s: State, t: nat)
    requires t < |s.txs| == |s.programs|
  {
    var tx := s.txs[t];
    if tx.phase.Executing? then
      tx.phase.pos <= |s.programs[t]| && tx.seen == RunReads(s.programs[t][..tx.phase.pos], Before(s, t))
    else if Finished(tx.phase) then tx.seen == RunReads(s.programs[t], Before(s, t))
    else tx.seen == []
  }

  ghost predicate ValuesInv(s: State)
    requires LocksInv(s)
  {
    && (forall k: Key | k < |s.table| :: ValueOk(s, k))
    && (forall t: nat | t < |s.txs| :: SeenOk(s, t))
  }

  /** Whoever holds a record finds it as all transactions with smaller numbers leave it. */
  lemma HolderView(s: State, k: Key, h: nat)
    requires LocksInv(s) && k < |s.table| && h < |s.txs| && h <= s.next
    requires h in s.table[k].readers || s.table[k].writer == h
    ensures Before(s, s.table[k].through)[k] == Before(s, h)[k]
  {
    var tup := s.table[k];
    assert TupleOk(tup, s.first, s.next, |s.txs|) && LiveOk(tup, k, s.programs, s.next);
    SerialUntouched(s.programs, s.init, s.first, tup.through, h, k);
  }

  lemma OtherValue(s: State, s': State, t: nat, k: Key)
    requires LocksInv(s) && LocksInv(s') && t < |s.txs| && |s'.txs| == |s.txs| && s'.txs == s.txs[t := s'.txs[t]]
    requires s'.programs == s.programs && s'.init == s.init && s'.first == s.first
    requires k < |s.table| == |s'.table| && ValueOk(s, k) && s.table[k].writer != t && s'.table[k].writer == s.table[k].writer
    requires s'.table[k].val == s.table[k].val && s'.table[k].through == s.table[k].through
    ensures ValueOk(s', k)
  {
    assert TupleOk(s.table[k], s.first, s.next, |s.txs|);
  }

  /** Acquiring and giving back locks changes no value. */
  ghost predicate KeepsValues(s: State, s': State, t: nat) {
    && t < |s.txs| && |s'.txs| == |s.txs| && s'.txs == s.txs[t := s'.txs[t]]
    && s'.programs == s.programs && s'.init == s.init && s'.first == s.first && |s'.table| == |s.table|
    && (forall k: Key | k < |s.table| ::
          && s'.table[k].val == s.table[k].val && s'.table[k].through == s.table[k].through
          && (s'.table[k].writer == s.table[k].writer
              || (s.table[k].writer == -1 && s'.table[k].writer == t)
              || (s.table[k].writer == t && s'.table[k].writer == -1)))
  }

  lemma PassiveKeeps(s: State, s': State, t: nat)
    requires LocksInv(s) && ValuesInv(s) && LocksInv(s') && KeepsValues(s, s', t)
    requires !s.txs[t].phase.Executing? && !Finished(s.txs[t].phase)
    requires !s'.txs[t].phase.Executing? && !Finished(s'.txs[t].phase) && s'.txs[t].seen == s.txs[t].seen
    ensures ValuesInv(s')
  {
    forall k: Key | k < |s'.table| ensures ValueOk(s', k) {
      assert ValueOk(s, k);
      assert TupleOk(s.table[k], s.first, s.next, |s.txs|);
      if s.table[k].writer != t && s'.table[k].writer == s.table[k].writer {
        OtherValue(s, s', t, k);
      }
    }
    forall u: nat | u < |s'.txs| ensures SeenOk(s', u) {
      assert SeenOk(s, u);
    }
  }

  lemma AcquireShape(s: State, s': State, t: nat)
    requires LocksInv(s) && t < |s.txs| && (Acquire(s, s', t) || AfterRefusal(s, s', t))
    ensures KeepsValues(s, s', t) && s'.txs[t].seen == s.txs[t].seen
    ensures !s.txs[t].phase.Executing? && !Finished(s.txs[t].phase)
    ensures !s'.txs[t].phase.Executing? && !Finished(s'.txs[t].phase)
  {
    var k := s.programs[t][s.txs[t].phase.pos];
    if !k.Sleep? {
      assert TupleOk(s.table[k.key], s.first, s.next, |s.txs|) && TxInv(s.table, s.txs[t], t, s.programs[t]);
    }
  }

  lemma PassiveShape(s: State, s': State, t: nat)
    requires LocksInv(s) && t < |s.txs| && (Start(s, s', t) || Undo(s, s', t) || Publish(s, s', t))
    ensures KeepsValues(s, s', t) && s'.txs[t].seen == s.txs[t].seen
    ensures !s.txs[t].phase.Executing? && !Finished(s.txs[t].phase)
    ensures !s'.txs[t].phase.Executing? && !Finished(s'.txs[t].phase)
  {
    assert TxInv(s.table, s.txs[t], t, s.programs[t]);
    if Undo(s, s', t) && s.txs[t].rlocks == [] && s.txs[t].wlocks != [] {
      assert s.txs[t].wlocks[0] in s.txs[t].wlocks;
    }
  }

  lemma LeaveGiantKeepsValues(s: State, s': State, t: nat)
    requires LocksInv(s) && ValuesInv(s) && LocksInv(s') && t < |s.txs| && LeaveGiant(s, s', t)
    ensures ValuesInv(s')
  {
    assert s.programs[t][..0] == [];
    forall k: Key | k < |s'.table| ensures ValueOk(s', k) {
      assert ValueOk(s, k);
      if s.table[k].writer == t {
        HolderView(s, k, t);
      } else {
        OtherValue(s, s', t, k);
      }
    }
    forall u: nat | u < |s'.txs| ensures SeenOk(s', u) {
      assert SeenOk(s, u);
    }
  }

  lemma HeldValue(s: State, t: nat, k: Key)
    requires LocksInv(s) && ValuesInv(s) && t < |s.txs| && s.txs[t].phase.Executing? && k < |s.table|
    requires TouchesKey(s.programs[t], k)
    ensures s.txs[t].phase.pos <= |s.programs[t]|
    ensures s.table[k].val == RunTable(s.programs[t][..s.txs[t].phase.pos], Before(s, t))[k]
    ensures WritesKey(s.programs[t], k) ==> s.table[k].writer == t
  {
    var tx, tasks := s.txs[t], s.programs[t];
    assert TxInv(s.table, tx, t, tasks) && ValueOk(s, k) && TupleOk(s.table[k], s.first, s.next, |s.txs|);
    if k in tx.rlocks {
      HolderView(s, k, t);
      if WritesKey(tasks[..tx.phase.pos], k) {
        PrefixWrites(tasks, tx.phase.pos, k);
      }
      Untouched(tasks[..tx.phase.pos], Before(s, t), k);
    }
  }

  lemma ExecuteKeepsValues(s: State, s': State, t: nat)
    requires LocksInv(s) && ValuesInv(s) && LocksInv(s') && t < |s.txs| && Execute(s, s', t)
    ensures ValuesInv(s')
  {
    var tasks, pos := s.programs[t], s.txs[t].phase.pos;
    PrefixStep(tasks, Before(s, t), pos);
    if !tasks[pos].Sleep? {
      TaskTouches(tasks, pos);
      HeldValue(s, t, tasks[pos].key);
    }
    forall k: Key | k < |s'.table| ensures ValueOk(s', k) {
      assert ValueOk(s, k) && TupleOk(s.table[k], s.first, s.next, |s.txs|);
      if s.table[k].writer != t {
        OtherValue(s, s', t, k);
      }
    }
    forall u: nat | u < |s'.txs| ensures SeenOk(s', u) {
      assert SeenOk(s, u);
    }
  }

  lemma ExecutedKeepsValues(s: State, s': State, t: nat)
    requires LocksInv(s) && ValuesInv(s) && LocksInv(s') && t < |s.txs| && Executed(s, s', t)
    ensures ValuesInv(s')
  {
    assert s.programs[t][..|s.programs[t]|] == s.programs[t];
    forall k: Key | k < |s'.table| ensures ValueOk(s', k) {
      assert ValueOk(s, k) && TupleOk(s.table[k], s.first, s.next, |s.txs|);
      if s.table[k].writer != t {
        OtherValue(s, s', t, k);
      }
    }
    forall u: nat | u < |s'.txs| ensures SeenOk(s', u) {
      assert SeenOk(s, u);
    }
  }

  lemma ReleaseKeepsValue(s: State, s': State, t: nat, k: Key)
    requires LocksInv(s) && ValuesInv(s) && LocksInv(s') && t < |s.txs| && Release(s, s', t) && k < |s'.table|
    ensures ValueOk(s', k)
  {
    var tx := s.txs[t];
    assert TxInv(s.table, tx, t, s.programs[t]);
    assert tx.wlocks != [] ==> tx.wlocks[0] in tx.wlocks;
    assert tx.rlocks != [] ==> tx.rlocks[0] in tx.rlocks;
    assert ValueOk(s, k) && TupleOk(s.table[k], s.first, s.next, |s.txs|);
    if s.table[k].writer != t {
      OtherValue(s, s', t, k);
    }
  }

  lemma ReleaseKeepsValues(s: State, s': State, t: nat)
    requires LocksInv(s) && ValuesInv(s) && LocksInv(s') && t < |s.txs| && Release(s, s', t)
    ensures ValuesInv(s')
  {
    forall k: Key | k < |s'.table| ensures ValueOk(s', k) {
      ReleaseKeepsValue(s, s', t, k);
    }
    forall u: nat | u < |s'.txs| ensures SeenOk(s', u) {
      assert SeenOk(s, u);
    }
  }

  lemma StepKeepsValues(s: State, s': State, t: nat)
    requires LocksInv(s) && ValuesInv(s) && LocksInv(s') && StepBy(s, s', t)
    ensures ValuesInv(s')
  {
    if Execute(s, s', t) {
      ExecuteKeepsValues(s, s', t);
    } else if Executed(s, s', t) {
      ExecutedKeepsValues(s, s', t);
    } else if Release(s, s', t) {
      ReleaseKeepsValues(s, s', t);
    } else if LeaveGiant(s, s', t) {
      LeaveGiantKeepsValues(s, s', t);
    } else {
      if Acquire(s, s', t) || AfterRefusal(s, s', t) {
        AcquireShape(s, s', t);
      } else {
        PassiveShape(s, s', t);
      }
      PassiveKeeps(s, s', t);
    }
  }

  // -------------------------------------------------------------- whole runs

  ghost predicate Inv(s: State) { LocksInv(s) && ValuesInv(s) }

  lemma StepKeepsInv(s: State, s': State)
    requires Inv(s) && Next(s, s')
    ensures Inv(s')
  {
    var t: nat :| StepBy(s, s', t);
    StepKeepsLocks(s, s', t);
    StepKeepsValues(s, s', t);
  }

  lemma RunKeepsInv(run: seq<State>, i: nat)
    requires IsRun(run, Init, Next) && i < |run|
    ensures Inv(run[i])
  {
    forall s | Init(s) ensures Inv(s) {
      InitLocks(s);
    }
    forall s, s' | Inv(s) && Next(s, s') ensures Inv(s') {
      StepKeepsInv(s, s');
    }
    Invariant(run, Init, Next, Inv, i);
  }

  /** When the acquisition loop ends, the two lists are disjoint and duplicate-free, and
      cover exactly the accesses, each in the mode it needs. */
  lemma AcquiredAll(run: seq<State>, i: nat, t: nat)
    requires IsRun(run, Init, Next) && i < |run| && t < |run[i].txs| && run[i].txs[t].phase.Published?
    ensures ListsOk(run[i].txs[t]) && |run[i].programs| == |run[i].txs| && Covers(run[i].txs[t], run[i].programs[t])
    ensures forall k: Key | k < |run[i].table| && TouchesKey(run[i].programs[t], k) ::
              if WritesKey(run[i].programs[t], k) then run[i].table[k].count == -1 && run[i].table[k].writer == t
              else run[i].table[k].count >= 1 && t in run[i].table[k].readers
  {
    RunKeepsInv(run, i);
    var s := run[i];
    assert TxInv(s.table, s.txs[t], t, s.programs[t]);
    forall k: Key | k < |s.table| && TouchesKey(s.programs[t], k)
      ensures if WritesKey(s.programs[t], k) then s.table[k].count == -1 && s.table[k].writer == t
              else s.table[k].count >= 1 && t in s.table[k].readers
    {
      assert TupleOk(s.table[k], s.first, s.next, |s.txs|);
    }
  }

  /** A failed attempt that has been undone leaves every counter at exactly what the other
      transactions hold. */
  lemma UndoneLeavesOthers(run: seq<State>, i: nat, t: nat, k: Key)
    requires IsRun(run, Init, Next) && i < |run| && t < |run[i].txs| && k < |run[i].table|
    requires run[i].txs[t].phase.Undoing? && run[i].txs[t].rlocks == [] && run[i].txs[t].wlocks == []
    ensures var tup := run[i].table[k];
            && t !in tup.readers && tup.writer != t
            && tup.count == if tup.writer >= 0 then -1 else |tup.readers|
  {
    RunKeepsInv(run, i);
    var s := run[i];
    assert TxInv(s.table, s.txs[t], t, s.programs[t]) && TupleOk(s.table[k], s.first, s.next, |s.txs|);
  }

  lemma StepKeepsStart(s: State, s': State, t: nat)
    requires StepBy(s, s', t)
    ensures s'.programs == s.programs && s'.init == s.init && s'.first == s.first
  {
  }

  lemma {:induction false} StartKept(run: seq<State>, i: nat)
    requires IsRun(run, Init, Next) && i < |run|
    ensures run[i].programs == run[0].programs && run[i].init == run[0].init && run[i].first == run[0].first
  {
    if i > 0 {
      StartKept(run, i - 1);
      assert Next(run[i - 1], run[i]);
      var t: nat :| StepBy(run[i - 1], run[i], t);
      StepKeepsStart(run[i - 1], run[i], t);
    }
  }

  /** Every transaction that has run has read what it reads in the serial execution. */
  lemma ReadsAreSerial(run: seq<State>, i: nat, t: nat)
    requires IsRun(run, Init, Next) && i < |run| && t < |run[i].txs| && Finished(run[i].txs[t].phase)
    ensures |run[i].programs| == |run[i].txs|
    ensures run[i].txs[t].seen == RunReads(run[i].programs[t], Before(run[i], t))
    ensures run[i].programs == run[0].programs && run[i].init == run[0].init && run[i].first == run[0].first
  {
    StartKept(run, i);
    RunKeepsInv(run, i);
    assert SeenOk(run[i], t);
  }

  lemma FinalTableIsSerial(run: seq<State>, i: nat, k: Key)
    requires IsRun(run, Init, Next) && i < |run| && k < |run[i].table|
    requires forall t: nat | t < |run[i].txs| :: run[i].txs[t].phase.Done? || run[i].txs[t].phase.NotStarted?
    ensures run[i].next <= |run[i].programs| && |run[i].table| == |run[i].init|
    ensures run[i].table[k].val == Before(run[i], run[i].next)[k]
    ensures run[i].programs == run[0].programs && run[i].init == run[0].init && run[i].first == run[0].first
  {
    StartKept(run, i);
    RunKeepsInv(run, i);
    var s := run[i];
    var tup := s.table[k];
    assert ValueOk(s, k) && TupleOk(tup, s.first, s.next, |s.txs|) && LiveOk(tup, k, s.programs, s.next);
    forall x: nat | x < |s.txs| ensures TxInv(s.table, s.txs[x], x, s.programs[x]) && tup.writer != x {
      assert TxInv(s.table, s.txs[x], x, s.programs[x]);
    }
    SerialUntouched(s.programs, s.init, s.first, tup.through, s.next, k);
  }

  // ----------------------------------------------------------------- waiting

  predicate Running(p: Phase) { p.Executing? || p.Releasing? }

  /** Transaction `h` holds the record in a mode that stands in the way of `task`. */
  predicate Blocks(tup: Tuple, task: Task, h: nat) {
    tup.writer == h || (task.Write? && h in tup.readers)
  }

  /** Whoever else holds a lock while `t` is acquiring runs. */
  lemma OtherHolderRuns(s: State, t: nat, k: Key, h: nat)
    requires LocksInv(s) && t < |s.txs| && Attempting(s.txs[t].phase) && k < |s.table|
    requires h != t && (h in s.table[k].readers || s.table[k].writer == h)
    ensures h < |s.txs| && Running(s.txs[h].phase)
  {
    assert TupleOk(s.table[k], s.first, s.next, |s.txs|);
    assert TxInv(s.table, s.txs[h], h, s.programs[h]);
  }

  lemma AnotherReader(tup: Tuple, t: nat) returns (h: nat)
    requires |tup.readers| > 1
    ensures h in tup.readers && h != t
  {
    var rest := tup.readers - {t};
    assert tup.readers <= rest + {t};
    assert |rest + {t}| <= |rest| + 1;
    h :| h in rest;
  }

  /** Who stands in the way of a task of an acquiring transaction. */
  lemma Blocker(s: State, t: nat, k: Key, task: Task) returns (h: nat)
    requires LocksInv(s) && t < |s.txs| && Attempting(s.txs[t].phase) && k < |s.table| && !task.Sleep?
    requires s.table[k].writer != t
    requires if task.Read? then s.table[k].count == -1
             else if t in s.table[k].readers then s.table[k].count != 1 else s.table[k].count != 0
    ensures h < |s.txs| && h != t && Running(s.txs[h].phase) && Blocks(s.table[k], task, h)
  {
    var tup := s.table[k];
    assert TupleOk(tup, s.first, s.next, |s.txs|);
    if tup.writer >= 0 {
      h := tup.writer;
    } else if t in tup.readers {
      assert |tup.readers| != 0 && |tup.readers| != 1;
      h := AnotherReader(tup, t);
    } else {
      h :| h in tup.readers;
    }
    OtherHolderRuns(s, t, k, h);
  }

  /** Every refusal in the acquisition loop - of a read lock, of a write lock, of an upgrade -
      is due to another transaction that has all its locks and runs. */
  lemma RefusedByRunning(run: seq<State>, i: nat, s': State, t: nat) returns (k: Key, h: nat)
    requires IsRun(run, Init, Next) && i < |run| && t < |run[i].txs| && Acquire(run[i], s', t)
    requires t < |s'.txs| && !s'.txs[t].phase.Acquiring?
    ensures var task := run[i].programs[t][run[i].txs[t].phase.pos];
            && !task.Sleep? && task.key == k && k < |run[i].table|
            && h < |run[i].txs| && h != t && Running(run[i].txs[h].phase) && Blocks(run[i].table[k], task, h)
  {
    RunKeepsInv(run, i);
    var s := run[i];
    var task := s.programs[t][s.txs[t].phase.pos];
    assert TxInv(s.table, s.txs[t], t, s.programs[t]);
    k := task.key;
    h := Blocker(s, t, k, task);
  }

  /** After a refused upgrade the plain write lock is refused, too: the transaction's own
      read lock is in its way. */
  lemma PlainLockRefusedToo(run: seq<State>, i: nat, s': State, t: nat)
    requires IsRun(run, Init, Next) && i < |run| && t < |run[i].txs| && AfterRefusal(run[i], s', t)
    ensures s' == SetPhase(run[i], t, Undoing)
  {
    RunKeepsInv(run, i);
    var s := run[i];
    var k := s.programs[t][s.txs[t].phase.pos].key;
    assert TxInv(s.table, s.txs[t], t, s.programs[t]) && TupleOk(s.table[k], s.first, s.next, |s.txs|);
    assert t in s.table[k].readers;
  }

  function Work(tx: Tx, tasks: seq<Task>): int {
    if tx.phase.Executing? then |tx.rlocks| + |tx.wlocks| + |tasks| - tx.phase.pos + 2
    else if tx.phase.Releasing? then |tx.rlocks| + |tx.wlocks| + 1
    else 0
  }

  /** A running transaction is never held up: its next step exists and brings it closer to
      its end. */
  lemma RunningSteps(s: State, t: nat) returns (s': State)
    requires LocksInv(s) && t < |s.txs| && Running(s.txs[t].phase)
    ensures StepBy(s, s', t) && LocksInv(s') && s'.programs == s.programs && |s'.txs| == |s.txs|
    ensures s'.txs[t].phase.Done? || Running(s'.txs[t].phase)
    ensures 0 <= Work(s'.txs[t], s.programs[t]) < Work(s.txs[t], s.programs[t])
  {
    if s.txs[t].phase.Executing? {
      s' := NextTask(s, t);
    } else {
      s' := NextRelease(s, t);
    }
    StepKeepsLocks(s, s', t);
  }

  /** A sequence of steps of transaction `t` alone. */
  ghost predicate Solo(steps: seq<State>, t: nat) {
    forall j | 0 < j < |steps| :: StepBy(steps[j - 1], steps[j], t)
  }

  lemma SoloLonger(s: State, rest: seq<State>, t: nat)
    requires rest != [] && Solo(rest, t) && StepBy(s, rest[0], t)
    ensures Solo([s] + rest, t)
  {
    var steps := [s] + rest;
    forall j | 0 < j < |steps| ensures StepBy(steps[j - 1], steps[j], t) {
      if j > 1 {
        assert StepBy(rest[j - 2], rest[j - 1], t);
      }
    }
  }

  lemma {:induction false} RunningFinishes(s: State, t: nat) returns (steps: seq<State>)
    requires LocksInv(s) && t < |s.txs| && Running(s.txs[t].phase)
    ensures steps != [] && steps[0] == s && Solo(steps, t)
    ensures t < |steps[|steps| - 1].txs| && steps[|steps| - 1].txs[t].phase.Done?
    decreases Work(s.txs[t], s.programs[t])
  {
    var next := RunningSteps(s, t);
    if next.txs[t].phase.Done? {
      steps := [s, next];
    } else {
      var rest := RunningFinishes(next, t);
      steps := [s] + rest;
      SoloLonger(s, rest, t);
    }
  }

  /** From every reachable state a running transaction can get to its end alone, so whatever
      the giant lock's holder waits for goes away. */
  lemma RunningCompletes(run: seq<State>, i: nat, t: nat) returns (steps: seq<State>)
    requires IsRun(run, Init, Next) && i < |run| && t < |run[i].txs| && Running(run[i].txs[t].phase)
    ensures steps != [] && steps[0] == run[i] && Solo(steps, t)
    ensures t < |steps[|steps| - 1].txs| && steps[|steps| - 1].txs[t].phase.Done?
  {
    RunKeepsInv(run, i);
    steps := RunningFinishes(run[i], t);
  }

  /** What is left of the acquisition when nothing is refused any more. */
  function Attempt(tx: Tx, n: nat): int {
    match tx.phase
    case Acquiring(pos) => n - pos + 1
    case Undoing => n + 2 + |tx.rlocks| + |tx.wlocks|
    case UpgradeRefused(_) => n + 3 + |tx.rlocks| + |tx.wlocks|
    case _ => 0
  }

  ghost predicate Alone(s: State, t: nat) {
    forall h: nat | h != t && h < |s.txs| :: !Running(s.txs[h].phase)
  }

  /** With nobody else running, the next task gets its lock. */
  lemma NextAcquire(s: State, t: nat) returns (s': State)
    requires LocksInv(s) && t < |s.txs| && s.txs[t].phase.Acquiring? && s.txs[t].phase.pos < |s.programs[t]| && Alone(s, t)
    ensures Acquire(s, s', t) && s'.programs == s.programs && |s'.txs| == |s.txs| && s'.txs == s.txs[t := s'.txs[t]]
    ensures s'.txs[t].phase == Acquiring(s.txs[t].phase.pos + 1)
  {
    var tx, pos := s.txs[t], s.txs[t].phase.pos;
    var task := s.programs[t][pos];
    assert TxInv(s.table, tx, t, s.programs[t]);
    s' := SetPhase(s, t, Acquiring(pos + 1));
    if !task.Sleep? && task.key !in tx.wlocks {
      var k := task.key;
      var tup := s.table[k];
      if (if task.Read? then tup.count == -1 else if t in tup.readers then tup.count != 1 else tup.count != 0) {
        var h := Blocker(s, t, k, task);
        assert false;
      } else if task.Read? && k !in tx.rlocks {
        s' := SetBoth(s, t, tx.(phase := Acquiring(pos + 1), rlocks := tx.rlocks + [k]), k, ReadLocked(tup, t));
      } else if task.Write? && k in tx.rlocks {
        s' := SetBoth(s, t, tx.(phase := Acquiring(pos + 1), rlocks := Removed(tx.rlocks, k), wlocks := tx.wlocks + [k]),
                      k, AcquireAll.Upgraded(tup, t));
      } else if task.Write? {
        s' := SetBoth(s, t, tx.(phase := Acquiring(pos + 1), wlocks := tx.wlocks + [k]), k, WriteLocked(tup, t));
      }
    }
  }

  lemma NextUndo(s: State, t: nat) returns (s': State)
    requires LocksInv(s) && t < |s.txs| && s.txs[t].phase.Undoing?
    ensures Undo(s, s', t) && s'.programs == s.programs && |s'.txs| == |s.txs| && s'.txs == s.txs[t := s'.txs[t]]
    ensures Attempting(s'.txs[t].phase) && Attempt(s'.txs[t], |s.programs[t]|) < Attempt(s.txs[t], |s.programs[t]|)
  {
    var tx := s.txs[t];
    assert TxInv(s.table, tx, t, s.programs[t]);
    if tx.rlocks != [] {
      assert tx.rlocks[0] in tx.rlocks;
      var tup := s.table[tx.rlocks[0]];
      s' := SetBoth(s, t, tx.(rlocks := tx.rlocks[1..]), tx.rlocks[0], tup.(count := tup.count - 1, readers := tup.readers - {t}));
    } else if tx.wlocks != [] {
      assert tx.wlocks[0] in tx.wlocks;
      var tup := s.table[tx.wlocks[0]];
      s' := SetBoth(s, t, tx.(wlocks := tx.wlocks[1..]), tx.wlocks[0], tup.(count := tup.count + 1, writer := -1));
    } else {
      s' := SetPhase(s, t, Acquiring(0));
    }
  }

  /** With nobody else running, the giant lock's holder comes nearer to having its locks. */
  lemma AttemptSteps(s: State, t: nat) returns (s': State)
    requires LocksInv(s) && t < |s.txs| && Attempting(s.txs[t].phase) && Alone(s, t)
    ensures StepBy(s, s', t) && LocksInv(s') && s'.programs == s.programs && t < |s'.txs|
    ensures s'.txs[t].phase.Published? || (Attempting(s'.txs[t].phase) && Alone(s', t))
    ensures 0 <= Attempt(s'.txs[t], |s.programs[t]|) < Attempt(s.txs[t], |s.programs[t]|)
  {
    assert TxInv(s.table, s.txs[t], t, s.programs[t]);
    if s.txs[t].phase.Undoing? {
      s' := NextUndo(s, t);
    } else if s.txs[t].phase.UpgradeRefused? {
      var k := s.programs[t][s.txs[t].phase.pos].key;
      assert TupleOk(s.table[k], s.first, s.next, |s.txs|) && t in s.table[k].readers;
      s' := SetPhase(s, t, Undoing);
      assert AfterRefusal(s, s', t);
    } else if s.txs[t].phase.pos < |s.programs[t]| {
      s' := NextAcquire(s, t);
    } else {
      s' := SetPhase(s, t, Published).(next := t + 1);
      assert Publish(s, s', t);
    }
    StepKeepsLocks(s, s', t);
    assert TxInv(s'.table, s'.txs[t], t, s'.programs[t]);
  }

  lemma {:induction false} AttemptFinishes(s: State, t: nat) returns (steps: seq<State>)
    requires LocksInv(s) && t < |s.txs| && Attempting(s.txs[t].phase) && Alone(s, t)
    ensures steps != [] && steps[0] == s && Solo(steps, t)
    ensures t < |steps[|steps| - 1].txs| && steps[|steps| - 1].txs[t].phase.Published?
    decreases Attempt(s.txs[t], |s.programs[t]|)
  {
    var next := AttemptSteps(s, t);
    if next.txs[t].phase.Published? {
      steps := [s, next];
    } else {
      var rest := AttemptFinishes(next, t);
      steps := [s] + rest;
      SoloLonger(s, rest, t);
    }
  }

  /** From every reachable state in which nobody runs, the giant lock's holder can get all
      its locks alone, also out of a failed attempt. */
  lemma AcquisitionCompletes(run: seq<State>, i: nat, t: nat) returns (steps: seq<State>)
    requires IsRun(run, Init, Next) && i < |run| && t < |run[i].txs| && Attempting(run[i].txs[t].phase) && Alone(run[i], t)
    ensures steps != [] && steps[0] == run[i] && Solo(steps, t)
    ensures t < |steps[|steps| - 1].txs| && steps[|steps| - 1].txs[t].phase.Published?
  {
    RunKeepsInv(run, i);
    steps := AttemptFinishes(run[i], t);
  }

  lemma NextTask(s: State, t: nat) returns (s': State)
    requires LocksInv(s) && t < |s.txs| && s.txs[t].phase.Executing?
    ensures StepBy(s, s', t) && t < |s'.txs|
    ensures 0 <= Work(s'.txs[t], s.programs[t]) < Work(s.txs[t], s.programs[t])
  {
    var tx, tasks, pos := s.txs[t], s.programs[t], s.txs[t].phase.pos;
    assert TxInv(s.table, tx, t, tasks);
    if pos == |tasks| {
      s' := SetPhase(s, t, Releasing);
      assert Executed(s, s', t);
    } else {
      match tasks[pos] {
        case Sleep =>
          s' := SetPhase(s, t, Executing(pos + 1));
        case Read(k) =>
          s' := s.(txs := s.txs[t := tx.(phase := Executing(pos + 1), seen := tx.seen + [s.table[k].val])]);
        case Write(k, v) =>
          s' := SetBoth(s, t, tx.(phase := Executing(pos + 1)), k, s.table[k].(val := v));
      }
      assert Execute(s, s', t);
    }
  }

  lemma NextRelease(s: State, t: nat) returns (s': State)
    requires LocksInv(s) && t < |s.txs| && s.txs[t].phase.Releasing?
    ensures StepBy(s, s', t) && t < |s'.txs|
    ensures 0 <= Work(s'.txs[t], s.programs[t]) < Work(s.txs[t], s.programs[t])
  {
    var tx := s.txs[t];
    assert TxInv(s.table, tx, t, s.programs[t]);
    if tx.rlocks != [] {
      assert tx.rlocks[0] in tx.rlocks;
      var tup := s.table[tx.rlocks[0]];
      s' := SetBoth(s, t, tx.(rlocks := tx.rlocks[1..]), tx.rlocks[0], tup.(count := tup.count - 1, readers := tup.readers - {t}));
    } else if tx.wlocks != [] {
      assert tx.wlocks[0] in tx.wlocks;
      var tup := s.table[tx.wlocks[0]];
      s' := SetBoth(s, t, tx.(wlocks := tx.wlocks[1..]), tx.wlocks[0], tup.(count := tup.count + 1, writer := -1, through := t + 1));
    } else {
      s' := SetPhase(s, t, Done);
    }
    assert Release(s, s', t);
  }
}
