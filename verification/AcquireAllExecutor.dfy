/** A worker of the acquire-all scheduler with its loops: the acquisition loop that starts
    over after a refusal, execution, release.  Other workers may run between any two steps;
    every call leaves a run of the step relation. */
module AcquireAllExecutor {
  import opened KeyLists
  import opened Programs
  import opened Runs
  import opened AcquireAll
  import opened AcquireAllSafety
  import opened AcquireAllDeterminism

  /** Whatever another worker does next, this transaction's own data, the size of the table
      and the programs stay. */
  lemma OthersLeave(s: State, s': State, u: nat, t: nat)
    requires StepBy(s, s', u) && t < |s.txs| && t != u
    ensures |s'.txs| == |s.txs| && s'.txs[t] == s.txs[t] && |s'.table| == |s.table|
    ensures s'.programs == s.programs && s'.init == s.init && s'.first == s.first
  {
  }

  /** Another transaction that has all its locks holds the record of `task` in its way. */
  ghost predicate BlockedAt(s: State, t: nat, task: Task) {
    && !task.Sleep? && task.key < |s.table|
    && exists h: nat :: h < |s.txs| && h != t && Running(s.txs[h].phase) && Blocks(s.table[task.key], task, h)
  }

  /** In this part of the run, that was so for some task of the transaction. */
  ghost predicate RefusedIn(run: seq<State>, from: nat, t: nat) {
    exists n, pos :: from <= n < |run| && t < |run[n].programs| && 0 <= pos < |run[n].programs[t]|
                     && BlockedAt(run[n], t, run[n].programs[t][pos])
  }

  lemma RefusedStays(run: seq<State>, from: nat, run': seq<State>, from': nat, t: nat)
    requires RefusedIn(run, from, t) && run <= run' && from' <= from
    ensures RefusedIn(run', from', t)
  {
    var n, pos :| from <= n < |run| && t < |run[n].programs| && 0 <= pos < |run[n].programs[t]|
                  && BlockedAt(run[n], t, run[n].programs[t][pos]);
    assert run'[n] == run[n];
    assert BlockedAt(run'[n], t, run'[n].programs[t][pos]);
  }

  class Worker {
    const t: nat
    var st: State
    ghost var run: seq<State>

    ghost predicate Sound()
      reads this
    {
      IsRun(run, Init, Next) && run[|run| - 1] == st && t < |st.txs| == |st.programs|
    }

    constructor (initial: State, t: nat)
      requires Init(initial) && t < |initial.txs|
      ensures Sound() && st == initial && this.t == t
    {
      this.t := t;
      st := initial;
      run := [initial];
    }

    lemma OwnFacts()
      requires Sound()
      ensures TxInv(st.table, st.txs[t], t, st.programs[t])
    {
      RunKeepsInv(run, |run| - 1);
    }

    lemma Reachable()
      requires Sound()
      ensures TxInv(st.table, st.txs[t], t, st.programs[t]) && |st.init| == |st.table|
      ensures forall k | 0 <= k < |st.table| :: TupleOk(st.table[k], st.first, st.next, |st.txs|)
    {
      RunKeepsInv(run, |run| - 1);
    }

    /** Any number of steps of the other workers: all that callers learn is that this
        transaction's own data stay as they are. */
    method Others()
      requires Sound()
      modifies this
      ensures Sound() && st.txs[t] == old(st.txs[t]) && old(run) <= run && |st.table| == old(|st.table|)
      ensures st.programs == old(st.programs) && st.init == old(st.init) && st.first == old(st.first)
    {
    }

    /** One atomic step of this worker. */
    method Step(next: State)
      requires Sound() && StepBy(st, next, t) && |next.txs| == |st.txs| && |next.programs| == |st.programs|
      modifies this
      ensures Sound() && st == next && run == old(run) + [next]
    {
      Longer(run, Init, Next, next);
      st := next;
      run := run + [next];
    }

    method StepPhase(p: Phase)
      requires Sound() && StepBy(st, SetPhase(st, t, p), t)
      modifies this
      ensures Sound() && st == SetPhase(old(st), t, p) && run == old(run) + [st]
    {
      Step(SetPhase(st, t, p));
    }

    /** A step of the acquisition loop. */
    method StepAcquire(next: State)
      requires Sound() && Acquire(st, next, t) && |next.txs| == |st.txs| && |next.programs| == |st.programs|
      modifies this
      ensures Sound() && st == next && run == old(run) + [next]
      ensures !st.txs[t].phase.Acquiring? ==> RefusedIn(run, |old(run)| - 1, t)
    {
      ghost var before := run;
      if !next.txs[t].phase.Acquiring? {
        Refusal(next);
      }
      Step(next);
      if !st.txs[t].phase.Acquiring? {
        RefusedStays(before, |before| - 1, run, |before| - 1, t);
      }
    }

    lemma Refusal(next: State)
      requires Sound() && Acquire(st, next, t) && t < |next.txs| && !next.txs[t].phase.Acquiring?
      ensures RefusedIn(run, |run| - 1, t)
    {
      var k, h := RefusedByRunning(run, |run| - 1, next, t);
      var pos := st.txs[t].phase.pos;
      assert BlockedAt(run[|run| - 1], t, run[|run| - 1].programs[t][pos]);
    }

    /** A read takes the lock shared unless the record is locked already. */
    method AcquireRead(pos: nat)
      requires Sound() && st.txs[t].phase == Acquiring(pos) && pos < |st.programs[t]| && st.programs[t][pos].Read?
      modifies this
      ensures Sound() && old(run) <= run && st.programs == old(st.programs)
      ensures st.txs[t].phase == Acquiring(pos + 1)
              || (st.txs[t].phase.Undoing? && RefusedIn(run, |old(run)| - 1, t))
    {
      Reachable();
      var tx, k := st.txs[t], st.programs[t][pos].key;
      var inR := SearchLocks(tx.rlocks, k);
      var inW := SearchLocks(tx.wlocks, k);
      var next := SetPhase(st, t, Acquiring(pos + 1));
      if !inR && !inW {
        next := if st.table[k].count != -1
                then SetBoth(st, t, tx.(phase := Acquiring(pos + 1), rlocks := tx.rlocks + [k]), k, ReadLocked(st.table[k], t))
                else SetPhase(st, t, Undoing);
      }
      assert Acquire(st, next, t);
      StepAcquire(next);
    }

    /** A write takes the lock exclusively, upgrades it, or has it already. */
    method AcquireWrite(pos: nat)
      requires Sound() && st.txs[t].phase == Acquiring(pos) && pos < |st.programs[t]| && st.programs[t][pos].Write?
      modifies this
      ensures Sound() && old(run) <= run && st.programs == old(st.programs)
      ensures st.txs[t].phase == Acquiring(pos + 1)
              || ((st.txs[t].phase.Undoing? || st.txs[t].phase == UpgradeRefused(pos)) && RefusedIn(run, |old(run)| - 1, t))
    {
      Reachable();
      var tx, k := st.txs[t], st.programs[t][pos].key;
      var inR := SearchLocks(tx.rlocks, k);
      var inW := SearchLocks(tx.wlocks, k);
      var next := SetPhase(st, t, Acquiring(pos + 1));
      if inR {
        var rlocks := EraseLock(tx.rlocks, k);
        next := if st.table[k].count == 1
                then SetBoth(st, t, tx.(phase := Acquiring(pos + 1), rlocks := rlocks, wlocks := tx.wlocks + [k]),
                             k, Upgraded(st.table[k], t))
                else SetPhase(st, t, UpgradeRefused(pos));
      } else if !inW {
        next := if st.table[k].count == 0
                then SetBoth(st, t, tx.(phase := Acquiring(pos + 1), wlocks := tx.wlocks + [k]), k, WriteLocked(st.table[k], t))
                else SetPhase(st, t, Undoing);
      }
      assert Acquire(st, next, t);
      StepAcquire(next);
    }

    /** The code goes on to the plain write lock after a refused upgrade. */
    method GoOnAfterRefusal(pos: nat)
      requires Sound() && st.txs[t].phase == UpgradeRefused(pos)
      modifies this
      ensures Sound() && old(run) <= run && st.programs == old(st.programs) && st.txs[t].phase.Undoing?
    {
      OwnFacts();
      var tx, k := st.txs[t], st.programs[t][pos].key;
      var next := if st.table[k].count == 0
                  then SetBoth(st, t, tx.(phase := Undoing, wlocks := tx.wlocks + [k]), k, WriteLocked(st.table[k], t))
                  else SetPhase(st, t, Undoing);
      assert AfterRefusal(st, next, t);
      Step(next);
    }

    method AcquireTask(pos: nat) returns (ok: bool)
      requires Sound() && st.txs[t].phase == Acquiring(pos) && pos < |st.programs[t]|
      modifies this
      ensures Sound() && old(run) <= run && st.programs == old(st.programs)
      ensures st.txs[t].phase == if ok then Acquiring(pos + 1) else Undoing
      ensures !ok ==> RefusedIn(run, |old(run)| - 1, t)
    {
      ghost var from := |run| - 1;
      match st.programs[t][pos] {
        case Sleep =>
          assert Acquire(st, SetPhase(st, t, Acquiring(pos + 1)), t);
          StepPhase(Acquiring(pos + 1));
        case Read(_) =>
          AcquireRead(pos);
        case Write(_, _) =>
          AcquireWrite(pos);
      }
      if st.txs[t].phase.UpgradeRefused? {
        ghost var before := run;
        Others();
        GoOnAfterRefusal(pos);
        RefusedStays(before, from, run, from, t);
      }
      return st.txs[t].phase.Acquiring?;
    }

    /** abort(): gives every lock of the attempt back; each counter is then what the other
        transactions hold. */
    method Abort()
      requires Sound() && st.txs[t].phase.Undoing?
      modifies this
      ensures Sound() && old(run) <= run && st.programs == old(st.programs) && st.txs[t].phase == Acquiring(0)
      ensures forall k | 0 <= k < |st.table| ::
                && t !in st.table[k].readers && st.table[k].writer != t
                && st.table[k].count == if st.table[k].writer >= 0 then -1 else |st.table[k].readers|
    {
      while st.txs[t].rlocks != [] || st.txs[t].wlocks != []
        invariant Sound() && old(run) <= run && st.programs == old(st.programs) && st.txs[t].phase.Undoing?
        decreases |st.txs[t].rlocks|, |st.txs[t].wlocks|
      {
        Others();
        UndoOne();
      }
      Others();
      assert Undo(st, SetPhase(st, t, Acquiring(0)), t);
      StepPhase(Acquiring(0));
      Reachable();
    }

    method UndoOne()
      requires Sound() && st.txs[t].phase.Undoing? && (st.txs[t].rlocks != [] || st.txs[t].wlocks != [])
      modifies this
      ensures Sound() && old(run) <= run && st.programs == old(st.programs) && st.txs[t].phase.Undoing?
      ensures old(st.txs[t].rlocks) != [] ==>
                st.txs[t].rlocks == old(st.txs[t].rlocks[1..]) && st.txs[t].wlocks == old(st.txs[t].wlocks)
      ensures old(st.txs[t].rlocks) == [] ==> st.txs[t].rlocks == [] && st.txs[t].wlocks == old(st.txs[t].wlocks[1..])
    {
      Reachable();
      var tx := st.txs[t];
      if tx.rlocks != [] {
        var k := tx.rlocks[0];
        assert k in tx.rlocks;
        var next := SetBoth(st, t, tx.(rlocks := tx.rlocks[1..]), k,
                            st.table[k].(count := st.table[k].count - 1, readers := st.table[k].readers - {t}));
        assert Undo(st, next, t);
        Step(next);
      } else {
        var k := tx.wlocks[0];
        assert k in tx.wlocks;
        var next := SetBoth(st, t, tx.(wlocks := tx.wlocks[1..]), k, st.table[k].(count := st.table[k].count + 1, writer := -1));
        assert Undo(st, next, t);
        Step(next);
      }
    }

    /** One attempt at all the locks; it fails only when a transaction that runs holds one of
        the records in the way. */
    method Attempt() returns (ok: bool)
      requires Sound() && st.txs[t].phase == Acquiring(0)
      modifies this
      ensures Sound() && old(run) <= run && st.programs == old(st.programs)
      ensures st.txs[t].phase == if ok then Acquiring(|st.programs[t]|) else Undoing
      ensures !ok ==> RefusedIn(run, |old(run)| - 1, t)
    {
      ghost var from := |run| - 1;
      var pos := 0;
      while pos < |st.programs[t]|
        invariant Sound() && old(run) <= run && st.programs == old(st.programs) && pos <= |st.programs[t]|
        invariant st.txs[t].phase == Acquiring(pos)
        decreases |st.programs[t]| - pos
      {
        Others();
        ghost var before := |run| - 1;
        ok := AcquireTask(pos);
        if !ok {
          RefusedStays(run, before, run, from, t);
          return;
        }
        pos := pos + 1;
      }
      return true;
    }

    /** Advances the counter: from here on the locks held are exactly those the accesses
        need. */
    method PublishNumber()
      requires Sound() && st.txs[t].phase == Acquiring(|st.programs[t]|)
      modifies this
      ensures Sound() && old(run) <= run && st.programs == old(st.programs) && st.txs[t].phase == Executing(0)
      ensures ListsOk(st.txs[t]) && Covers(st.txs[t], st.programs[t])
    {
      var published := SetPhase(st, t, Published).(next := t + 1);
      assert Publish(st, published, t);
      Step(published);
      AcquiredAll(run, |run| - 1, t);
      Others();
      var left := SetPhase(st, t, Executing(0)).(giant := -1);
      assert LeaveGiant(st, left, t);
      Step(left);
    }

    /** The acquisition loop under the giant lock; the source starts over for ever. */
    method AcquireLocks(patience: nat) returns (ok: bool)
      requires Sound() && st.giant == -1 && t == st.next && st.txs[t].phase.NotStarted?
      modifies this
      ensures Sound() && old(run) <= run && st.programs == old(st.programs)
      ensures ok ==> st.txs[t].phase == Executing(0) && ListsOk(st.txs[t]) && Covers(st.txs[t], st.programs[t])
      ensures !ok ==> st.txs[t].phase == Acquiring(0)
      ensures !ok && patience > 0 ==> RefusedIn(run, |old(run)| - 1, t)
    {
      ghost var from := |run| - 1;
      var started := SetPhase(st, t, Acquiring(0)).(giant := t);
      assert Start(st, started, t);
      Step(started);
      var n := patience;
      while n > 0
        invariant Sound() && old(run) <= run && st.programs == old(st.programs) && st.txs[t].phase == Acquiring(0)
        invariant n == patience || RefusedIn(run, from, t)
      {
        n := n - 1;
        ghost var attempted := |run| - 1;
        ok := Attempt();
        if ok {
          PublishNumber();
          return;
        }
        ghost var refused := run;
        Abort();
        RefusedStays(refused, attempted, run, from, t);
      }
      return false;
    }

    method ExecuteTask(pos: nat)
      requires Sound() && st.txs[t].phase == Executing(pos) && pos < |st.programs[t]|
      modifies this
      ensures Sound() && old(run) <= run && st.programs == old(st.programs) && st.txs[t].phase == Executing(pos + 1)
    {
      Reachable();
      var next := SetPhase(st, t, Executing(pos + 1));
      match st.programs[t][pos] {
        case Sleep =>
        case Read(k) =>
          next := st.(txs := st.txs[t := st.txs[t].(phase := Executing(pos + 1), seen := st.txs[t].seen + [st.table[k].val])]);
        case Write(k, v) =>
          next := SetBoth(st, t, st.txs[t].(phase := Executing(pos + 1)), k, st.table[k].(val := v));
      }
      assert Execute(st, next, t);
      Step(next);
    }

    /** Runs the tasks: what they read is what the serial execution reads. */
    method ExecuteAll()
      requires Sound() && st.txs[t].phase == Executing(0)
      modifies this
      ensures Sound() && old(run) <= run && st.programs == old(st.programs) && st.txs[t].phase.Releasing?
      ensures st.txs[t].seen == RunReads(st.programs[t], AcquireAllDeterminism.Before(st, t))
    {
      var pos := 0;
      while pos < |st.programs[t]|
        invariant Sound() && old(run) <= run && st.programs == old(st.programs) && pos <= |st.programs[t]|
        invariant st.txs[t].phase == Executing(pos)
        decreases |st.programs[t]| - pos
      {
        Others();
        ExecuteTask(pos);
        pos := pos + 1;
      }
      assert Executed(st, SetPhase(st, t, Releasing), t);
      StepPhase(Releasing);
      ReadsAreSerial(run, |run| - 1, t);
    }

    method ReleaseOne()
      requires Sound() && st.txs[t].phase.Releasing? && (st.txs[t].rlocks != [] || st.txs[t].wlocks != [])
      modifies this
      ensures Sound() && old(run) <= run && st.programs == old(st.programs) && st.txs[t].phase.Releasing?
      ensures old(st.txs[t].rlocks) != [] ==>
                st.txs[t].rlocks == old(st.txs[t].rlocks[1..]) && st.txs[t].wlocks == old(st.txs[t].wlocks)
      ensures old(st.txs[t].rlocks) == [] ==> st.txs[t].rlocks == [] && st.txs[t].wlocks == old(st.txs[t].wlocks[1..])
    {
      Reachable();
      var tx := st.txs[t];
      if tx.rlocks != [] {
        var k := tx.rlocks[0];
        assert k in tx.rlocks;
        var next := SetBoth(st, t, tx.(rlocks := tx.rlocks[1..]), k,
                            st.table[k].(count := st.table[k].count - 1, readers := st.table[k].readers - {t}));
        assert Release(st, next, t);
        Step(next);
      } else {
        var k := tx.wlocks[0];
        assert k in tx.wlocks;
        var next := SetBoth(st, t, tx.(wlocks := tx.wlocks[1..]), k,
                            st.table[k].(count := st.table[k].count + 1, writer := -1, through := t + 1));
        assert Release(st, next, t);
        Step(next);
      }
    }

    /** commit(): lets every lock go. */
    method Commit()
      requires Sound() && st.txs[t].phase.Releasing?
      modifies this
      ensures Sound() && old(run) <= run && st.programs == old(st.programs) && st.txs[t].phase.Done?
      ensures forall k | 0 <= k < |st.table| :: t !in st.table[k].readers && st.table[k].writer != t
      ensures st.txs[t].seen == RunReads(st.programs[t], AcquireAllDeterminism.Before(st, t))
    {
      while st.txs[t].rlocks != [] || st.txs[t].wlocks != []
        invariant Sound() && old(run) <= run && st.programs == old(st.programs) && st.txs[t].phase.Releasing?
        decreases |st.txs[t].rlocks|, |st.txs[t].wlocks|
      {
        Others();
        ReleaseOne();
      }
      Others();
      assert Release(st, SetPhase(st, t, Done), t);
      StepPhase(Done);
      Reachable();
      ReadsAreSerial(run, |run| - 1, t);
    }

    /** What a worker does with one transaction. */
    method Work(patience: nat) returns (done: bool)
      requires Sound() && st.giant == -1 && t == st.next && st.txs[t].phase.NotStarted?
      modifies this
      ensures Sound() && old(run) <= run && st.programs == old(st.programs)
      ensures done ==> st.txs[t].phase.Done? && st.txs[t].seen == RunReads(st.programs[t], AcquireAllDeterminism.Before(st, t))
      ensures !done && patience > 0 ==> RefusedIn(run, |old(run)| - 1, t)
    {
      done := AcquireLocks(patience);
      if done {
        ExecuteAll();
        Commit();
      }
    }
  }
}
