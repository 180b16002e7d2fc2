/** A worker of the wait-list scheduler with its loops: registration under the giant lock,
    passes over the outstanding requests, execution, release.  Other workers may run between
    any two steps; every call leaves a run of the step relation. */
module FifoExecutor {
  import opened SerialExecution
  import opened Programs
  import opened Runs
  import opened FifoLockManager
  import opened FifoLockSafety
  import opened FifoDeterminism

  /** dup_check(): the first use of `key` among the first `upper` tasks. */
  method DupCheck(tasks: seq<Task>, key: Key, upper: nat) returns (r: int)
    requires upper <= |tasks|
    ensures r == FirstUse(tasks, key, upper)
  {
    var i := 0;
    while i < upper
      invariant i <= upper && FirstUse(tasks, key, i) == -1
    {
      var task := tasks[i];
      if !task.Sleep? && task.key == key {
        r := if task.Read? then 0 else 1;
        UseStands(tasks, key, i + 1, upper);
        return;
      }
      i := i + 1;
    }
    return -1;
  }

  lemma {:induction false} UseStands(tasks: seq<Task>, key: Key, i: nat, upper: nat)
    requires i <= upper <= |tasks| && FirstUse(tasks, key, i) != -1
    ensures FirstUse(tasks, key, upper) == FirstUse(tasks, key, i)
  {
    if i < upper {
      UseStands(tasks, key, i, upper - 1);
    }
  }

  /** The loop that turns the request for `key` into an exclusive one. */
  method UpgradeRequest(locks: seq<Lock>, key: Key) returns (r: seq<Lock>)
    ensures r == FifoLockManager.Upgraded(locks, key)
  {
    var i := 0;
    while i < |locks|
      invariant i <= |locks| && FifoLockManager.Upgraded(locks, key) == locks[..i] + FifoLockManager.Upgraded(locks[i..], key)
    {
      if locks[i].key == key {
        r := locks[i := Lock(key, Exclusive)];
        assert r == locks[..i] + ([Lock(key, Exclusive)] + locks[i..][1..]);
        return;
      }
      assert locks[i..][1..] == locks[i + 1..];
      assert locks[..i] + [locks[i]] == locks[..i + 1];
      i := i + 1;
    }
    return locks;
  }

  /** Whatever another worker does next, this transaction's own data, the size of the table
      and the programs stay. */
  lemma OthersLeave(s: State, s': State, u: nat, t: nat)
    requires StepBy(s, s', u) && t < |s.txs| && t != u
    ensures |s'.txs| == |s.txs| && s'.txs[t] == s.txs[t] && |s'.table| == |s.table|
    ensures s'.programs == s.programs && s'.init == s.init && s'.first == s.first
  {
  }

  /** In this part of the run, somebody was ahead of an outstanding request of `t`. */
  ghost predicate BarredIn(run: seq<State>, from: nat, t: nat) {
    exists n, i :: from <= n < |run| && t < |run[n].txs| && 0 <= i < |run[n].txs[t].future| && BarredAt(run[n], t, i)
  }

  ghost predicate BarredAt(s: State, t: nat, i: nat)
    requires t < |s.txs| && i < |s.txs[t].future|
  {
    var l := s.txs[t].future[i];
    l.key < |s.table| && Barred(s.table[l.key], l, t)
  }

  lemma BarredStays(run: seq<State>, from: nat, run': seq<State>, from': nat, t: nat)
    requires BarredIn(run, from, t) && run <= run' && from' <= from
    ensures BarredIn(run', from', t)
  {
    var n, i :| from <= n < |run| && t < |run[n].txs| && 0 <= i < |run[n].txs[t].future| && BarredAt(run[n], t, i);
    assert run'[n] == run[n];
    assert BarredAt(run'[n], t, i);
  }

  class Worker {
    const t: nat
    var st: State
    ghost var run: seq<State>

    ghost predicate Sound()
      reads this
    {
      IsRun(run, Init, Next) && run[|run| - 1] == st && t < |st.txs| == |st.programs|
    }

    constructor (initial: State, t: nat)
      requires Init(initial) && t < |initial.txs|
      ensures Sound() && st == initial && this.t == t
    {
      this.t := t;
      st := initial;
      run := [initial];
    }

    lemma Reachable()
      requires Sound()
      ensures TxInv(st.table, st.txs[t], t, st.programs[t]) && GiantOk(st) && |st.init| == |st.table|
      ensures forall k | 0 <= k < |st.table| :: TupleOk(st.table[k], st.first, st.next)
    {
      RunKeepsInv(run, |run| - 1);
    }

    /** Any number of steps of the other workers: all that callers learn is that this
        transaction's own data stay as they are. */
    method Others()
      requires Sound()
      modifies this
      ensures Sound() && st.txs[t] == old(st.txs[t]) && old(run) <= run && |st.table| == old(|st.table|)
      ensures st.programs == old(st.programs) && st.init == old(st.init) && st.first == old(st.first)
    {
    }

    /** One atomic step of this worker. */
    method Step(next: State)
      requires Sound() && StepBy(st, next, t) && |next.txs| == |st.txs| && |next.programs| == |st.programs|
      modifies this
      ensures Sound() && st == next && run == old(run) + [next]
    {
      Longer(run, Init, Next, next);
      st := next;
      run := run + [next];
    }

    method StepPhase(p: Phase)
      requires Sound() && StepBy(st, SetPhase(st, t, p), t)
      modifies this
      ensures Sound() && st == SetPhase(old(st), t, p) && run == old(run) + [st]
    {
      Step(SetPhase(st, t, p));
    }

    /** Draws the next number under the giant lock, which must be free. */
    method Draw()
      requires Sound() && st.giant == -1 && t == st.next && st.txs[t].phase.NotStarted?
      modifies this
      ensures Sound() && old(run) <= run && st.txs[t].phase == Registering(0) && st.programs == old(st.programs)
    {
      var drawn := SetPhase(st, t, Registering(0)).(giant := t, next := t + 1);
      assert Start(st, drawn, t);
      Step(drawn);
    }

    /** The request for one task: none if an earlier task needs as much, a stronger mode if
        an earlier one only reads, else a place at the end of the wait list. */
    method RegisterTask(pos: nat)
      requires Sound() && st.txs[t].phase == Registering(pos) && pos < |st.programs[t]|
      modifies this
      ensures Sound() && old(run) <= run && st.txs[t].phase == Registering(pos + 1) && st.programs == old(st.programs)
    {
      Reachable();
      var tasks := st.programs[t];
      var task := tasks[pos];
      var next := SetPhase(st, t, Registering(pos + 1));
      if !task.Sleep? {
        var use := DupCheck(tasks, task.key, pos);
        if task.Write? && use == 0 {
          var future := UpgradeRequest(st.txs[t].future, task.key);
          next := st.(txs := st.txs[t := st.txs[t].(phase := Registering(pos + 1), future := future)]);
        } else if use == -1 {
          next := Enqueue(st, t, pos, task.key, if task.Write? then Exclusive else Shared);
        }
      }
      assert Register(st, next, t);
      Step(next);
    }

    /** lockmanager_regist(): one request per record touched, exclusive if and only if some
        task writes it. */
    method LockmanagerRegist()
      requires Sound() && st.txs[t].phase == Registering(0)
      modifies this
      ensures Sound() && old(run) <= run && st.programs == old(st.programs)
      ensures st.txs[t].phase == Acquiring(0) && st.giant == -1 && DistinctLocks(st.txs[t].future)
      ensures Requests(st.txs[t].future, st.programs[t])
      ensures forall k: Key | k < |st.table| :: t in st.table[k].waits <==> TouchesKey(st.programs[t], k)
    {
      var pos := 0;
      while pos < |st.programs[t]|
        invariant Sound() && old(run) <= run && pos <= |st.programs[t]| && st.programs == old(st.programs)
        invariant st.txs[t].phase == Registering(pos)
        decreases |st.programs[t]| - pos
      {
        Others();
        RegisterTask(pos);
        pos := pos + 1;
      }
      FinishRegistration(pos);
    }

    method FinishRegistration(pos: nat)
      requires Sound() && st.txs[t].phase == Registering(pos) && pos == |st.programs[t]|
      modifies this
      ensures Sound() && old(run) <= run && st.programs == old(st.programs)
      ensures st.txs[t].phase == Acquiring(0) && st.giant == -1 && DistinctLocks(st.txs[t].future)
      ensures Requests(st.txs[t].future, st.programs[t])
      ensures forall k: Key | k < |st.table| :: t in st.table[k].waits <==> TouchesKey(st.programs[t], k)
    {
      Reachable();
      assert st.programs[t][..pos] == st.programs[t];
      var registered := SetPhase(st, t, Acquiring(0)).(giant := -1);
      assert Registered(st, registered, t);
      Step(registered);
    }

    /** One request of a pass: looks at the wait list, and at its head tries the lock. */
    method TryRequest(i: nat, busy: bool)
      requires Sound() && st.txs[t].phase == Acquiring(i) && i < |st.txs[t].future|
      modifies this
      ensures Sound() && old(run) <= run && st.programs == old(st.programs)
      ensures || (st.txs[t].phase == Acquiring(i) && |st.txs[t].future| == old(|st.txs[t].future|) - 1)
              || (st.txs[t].phase == Acquiring(i + 1) && st.txs[t].future == old(st.txs[t].future))
      ensures st.txs[t].phase == Acquiring(i + 1) && !busy ==>
                var l := st.txs[t].future[i]; l.key < |st.table| && Barred(st.table[l.key], l, t)
    {
      Reachable();
      var k := st.txs[t].future[i].key;
      assert HasLock(st.txs[t].future, k);
      if st.table[k].waits[0] != t {
        assert CheckHead(st, SetPhase(st, t, Acquiring(i + 1)), t);
        HeadPassedOver(run, |run| - 1, SetPhase(st, t, Acquiring(i + 1)), t);
        StepPhase(Acquiring(i + 1));
        return;
      }
      assert CheckHead(st, SetPhase(st, t, Trying(i)), t);
      StepPhase(Trying(i));
      Others();
      if busy {
        assert TryBusy(st, SetPhase(st, t, Acquiring(i + 1)), t);
        StepPhase(Acquiring(i + 1));
      } else {
        TakeRequest(i);
      }
    }

    /** With the wait list locked: takes the record's lock if it is free. */
    method TakeRequest(i: nat)
      requires Sound() && st.txs[t].phase == Trying(i)
      modifies this
      ensures Sound() && old(run) <= run && st.programs == old(st.programs)
      ensures || (st.txs[t].phase == Acquiring(i) && |st.txs[t].future| == old(|st.txs[t].future|) - 1)
              || (st.txs[t].phase == Acquiring(i + 1) && st.txs[t].future == old(st.txs[t].future))
      ensures st.txs[t].phase == Acquiring(i + 1) ==>
                i < |st.txs[t].future| && var l := st.txs[t].future[i]; l.key < |st.table| && Barred(st.table[l.key], l, t)
    {
      Reachable();
      var tx := st.txs[t];
      var l := tx.future[i];
      var next := SetPhase(st, t, Acquiring(i + 1));
      if Free(st.table[l.key], l.mode) {
        next := st.(table := st.table[l.key := Locked(st.table[l.key], t, l.mode)],
                    txs := st.txs[t := tx.(phase := Acquiring(i), future := Without(tx.future, i),
                                           rlocks := if l.mode.Shared? then tx.rlocks + [l.key] else tx.rlocks,
                                           wlocks := if l.mode.Shared? then tx.wlocks else tx.wlocks + [l.key])]);
      }
      assert TryLock(st, next, t);
      RequestRefused(run, |run| - 1, next, t);
      Step(next);
    }

    /** One pass over the outstanding requests; `busy` says which wait lists are taken.  What
        is still outstanding has found somebody ahead of it, or its wait list taken. */
    method Pass(busy: nat -> bool)
      requires Sound() && st.txs[t].phase == Acquiring(0)
      modifies this
      ensures Sound() && old(run) <= run && st.programs == old(st.programs)
      ensures st.txs[t].phase.Acquiring? && st.txs[t].phase.i >= |st.txs[t].future|
      ensures st.txs[t].future != [] && (forall j :: !busy(j)) ==> BarredIn(run, |old(run)| - 1, t)
    {
      ghost var from := |run| - 1;
      var i: nat := 0;
      while i < |st.txs[t].future|
        invariant Sound() && old(run) <= run && st.programs == old(st.programs) && st.txs[t].phase == Acquiring(i)
        invariant i == 0 || !(forall j :: !busy(j)) || BarredIn(run, from, t)
        decreases |st.txs[t].future| - i
      {
        Others();
        ghost var before := run;
        TryRequest(i, busy(i));
        if st.txs[t].phase == Acquiring(i + 1) && !busy(i) {
          assert BarredAt(run[|run| - 1], t, i);
        } else if i > 0 && (forall j :: !busy(j)) {
          BarredStays(before, from, run, from, t);
        }
        i := st.txs[t].phase.i;
      }
    }

    /** check_waitlist(): passes until nothing is outstanding; the source repeats them for
        ever.  At the end every record touched is held in the mode it needs. */
    method CheckWaitlist(busy: nat -> bool, patience: nat) returns (done: bool)
      requires Sound() && st.txs[t].phase == Acquiring(0)
      modifies this
      ensures Sound() && old(run) <= run && st.programs == old(st.programs)
      ensures done ==> st.txs[t].phase == Executing(0)
      ensures done ==> forall k: Key | TouchesKey(st.programs[t], k) ::
                && k < |st.table|
                && (if WritesKey(st.programs[t], k) then st.table[k].writer == t else t in st.table[k].readers)
      ensures !done && patience > 0 && (forall j :: !busy(j)) ==> BarredIn(run, |old(run)| - 1, t)
    {
      ghost var from := |run| - 1;
      var n := patience;
      while n > 0
        invariant Sound() && old(run) <= run && st.programs == old(st.programs) && st.txs[t].phase == Acquiring(0)
        invariant n == patience || !(forall j :: !busy(j)) || BarredIn(run, from, t)
      {
        n := n - 1;
        ghost var starting := |run| - 1;
        Pass(busy);
        ghost var passed := run;
        done := st.txs[t].future == [];
        var p := if done then Executing(0) else Acquiring(0);
        assert Wrap(st, SetPhase(st, t, p), t);
        StepPhase(p);
        if done {
          AllHeld();
          return;
        }
        if forall j :: !busy(j) {
          BarredStays(passed, starting, run, from, t);
        }
      }
      return false;
    }

    lemma AllHeld()
      requires Sound() && st.txs[t].phase.Executing?
      ensures forall k: Key | TouchesKey(st.programs[t], k) ::
                && k < |st.table|
                && (if WritesKey(st.programs[t], k) then st.table[k].writer == t else t in st.table[k].readers)
    {
      Reachable();
      forall k: Key | TouchesKey(st.programs[t], k)
        ensures k < |st.table| && (if WritesKey(st.programs[t], k) then st.table[k].writer == t else t in st.table[k].readers)
      {
        assert k in st.txs[t].rlocks || k in st.txs[t].wlocks;
      }
    }

    method ExecuteTask(pos: nat)
      requires Sound() && st.txs[t].phase == Executing(pos) && pos < |st.programs[t]|
      modifies this
      ensures Sound() && old(run) <= run && st.programs == old(st.programs) && st.txs[t].phase == Executing(pos + 1)
    {
      Reachable();
      var next := SetPhase(st, t, Executing(pos + 1));
      match st.programs[t][pos] {
        case Sleep =>
        case Read(k) =>
          next := st.(txs := st.txs[t := st.txs[t].(phase := Executing(pos + 1), seen := st.txs[t].seen + [st.table[k].val])]);
        case Write(k, v) =>
          next := next.(table := st.table[k := st.table[k].(val := v)]);
      }
      assert Execute(st, next, t);
      Step(next);
    }

    /** Runs the tasks: what they read is what the serial execution reads. */
    method ExecuteAll()
      requires Sound() && st.txs[t].phase == Executing(0)
      modifies this
      ensures Sound() && old(run) <= run && st.programs == old(st.programs) && st.txs[t].phase.Releasing?
      ensures st.txs[t].seen == RunReads(st.programs[t], FifoDeterminism.Before(st, t))
    {
      var pos := 0;
      while pos < |st.programs[t]|
        invariant Sound() && old(run) <= run && st.programs == old(st.programs) && pos <= |st.programs[t]|
        invariant st.txs[t].phase == Executing(pos)
        decreases |st.programs[t]| - pos
      {
        Others();
        ExecuteTask(pos);
        pos := pos + 1;
      }
      assert Executed(st, SetPhase(st, t, Releasing), t);
      StepPhase(Releasing);
      ReadsAreSerial(run, |run| - 1, t);
    }

    method ReleaseOne()
      requires Sound() && st.txs[t].phase.Releasing? && (st.txs[t].rlocks != [] || st.txs[t].wlocks != [])
      modifies this
      ensures Sound() && old(run) <= run && st.programs == old(st.programs) && st.txs[t].phase.Releasing?
      ensures old(st.txs[t].rlocks) != [] ==>
                st.txs[t].rlocks == old(st.txs[t].rlocks[1..]) && st.txs[t].wlocks == old(st.txs[t].wlocks)
      ensures old(st.txs[t].rlocks) == [] ==> st.txs[t].rlocks == [] && st.txs[t].wlocks == old(st.txs[t].wlocks[1..])
    {
      Reachable();
      var tx := st.txs[t];
      if tx.rlocks != [] {
        var k := tx.rlocks[0];
        var tup := st.table[k];
        var next := st.(table := st.table[k := tup.(count := tup.count - 1, readers := tup.readers - {t})],
                        txs := st.txs[t := tx.(rlocks := tx.rlocks[1..])]);
        assert ReleaseRead(st, next, t);
        Step(next);
      } else {
        var k := tx.wlocks[0];
        var tup := st.table[k];
        var next := st.(table := st.table[k := tup.(count := tup.count + 1, writer := -1, through := t + 1)],
                        txs := st.txs[t := tx.(wlocks := tx.wlocks[1..])]);
        assert ReleaseWrite(st, next, t);
        Step(next);
      }
    }

    /** commit(): lets every lock go. */
    method Commit()
      requires Sound() && st.txs[t].phase.Releasing?
      modifies this
      ensures Sound() && old(run) <= run && st.programs == old(st.programs) && st.txs[t].phase.Done?
      ensures forall k | 0 <= k < |st.table| :: t !in st.table[k].readers && st.table[k].writer != t
      ensures st.txs[t].seen == RunReads(st.programs[t], FifoDeterminism.Before(st, t))
    {
      while st.txs[t].rlocks != [] || st.txs[t].wlocks != []
        invariant Sound() && old(run) <= run && st.programs == old(st.programs) && st.txs[t].phase.Releasing?
        decreases |st.txs[t].rlocks|, |st.txs[t].wlocks|
      {
        Others();
        ReleaseOne();
      }
      Others();
      assert FifoLockManager.Finish(st, SetPhase(st, t, Done), t);
      StepPhase(Done);
      Reachable();
      ReadsAreSerial(run, |run| - 1, t);
    }

    /** What a worker does with one transaction. */
    method Work(busy: nat -> bool, patience: nat) returns (done: bool)
      requires Sound() && st.giant == -1 && t == st.next && st.txs[t].phase.NotStarted?
      modifies this
      ensures Sound() && old(run) <= run && st.programs == old(st.programs)
      ensures done ==> st.txs[t].phase.Done? && st.txs[t].seen == RunReads(st.programs[t], FifoDeterminism.Before(st, t))
    {
      Draw();
      LockmanagerRegist();
      done := CheckWaitlist(busy, patience);
      if done {
        ExecuteAll();
        Commit();
      }
    }
  }
}
