/** The optimistic executor with its loops: the validation scan over the log, the write
    phase, and the collection of the log.  Other executors may run between any two steps;
    every call leaves a run of the step relation. */
module OptimisticLogExecutor {
  import opened SerialExecution
  import opened AccessSets
  import opened Runs
  import opened OptimisticLog
  import opened OptimisticLogSafety

  /** min_element(): a least entry. */
  method MinElement(q: seq<nat>) returns (m: nat)
    requires q != []
    ensures IsLeast(q, m)
  {
    m := q[0];
    var i := 1;
    while i < |q|
      invariant 1 <= i <= |q| && m in q[..i] && forall j | 0 <= j < i :: m <= q[j]
    {
      if q[i] < m {
        m := q[i];
      }
      i := i + 1;
    }
    assert q[..i] == q;
  }

  /** The two inner loops: some read meets some write. */
  method Meets(rs: seq<ReadItem>, ws: seq<WriteItem>) returns (found: bool)
    ensures found <==> Conflict(rs, ws)
  {
    var r := 0;
    while r < |rs|
      invariant r <= |rs| && forall j | 0 <= j < r :: !HasKey(ws, rs[j].key)
    {
      var w := 0;
      while w < |ws|
        invariant w <= |ws| && forall j | 0 <= j < w :: ws[j].key != rs[r].key
      {
        if rs[r].key == ws[w].key {
          return true;
        }
        w := w + 1;
      }
      r := r + 1;
    }
    return false;
  }

  /** The outer loop of validationPhase().  The code indexes the log with whatever
      start - (deletedTxId + 1) comes to; a negative index finds something arbitrary, and
      `below` says what. */
  method ScanLog(wsList: seq<seq<WriteItem>>, rs: seq<ReadItem>, begin: int, below: int -> bool) returns (ok: bool)
    ensures begin >= 0 ==> (ok <==> forall i | begin <= i < |wsList| :: !Conflict(rs, wsList[i]))
    ensures ok ==> forall i | 0 <= i < |wsList| && i >= begin :: !Conflict(rs, wsList[i])
    ensures !ok ==> begin < 0 || exists i :: begin <= i < |wsList| && Conflict(rs, wsList[i])
  {
    var i := begin;
    while i < |wsList|
      invariant i >= begin && forall j | 0 <= j < |wsList| && begin <= j < i :: !Conflict(rs, wsList[j])
    {
      var found: bool;
      if i < 0 {
        found := below(i);
      } else {
        found := Meets(rs, wsList[i]);
      }
      if found {
        return false;
      }
      i := i + 1;
    }
    return true;
  }

  method SearchReadSet(rs: seq<ReadItem>, key: Key) returns (found: bool)
    ensures found <==> ReadsKey(rs, key)
  {
    var i := 0;
    while i < |rs|
      invariant i <= |rs| && forall j | 0 <= j < i :: rs[j].key != key
    {
      if rs[i].key == key {
        return true;
      }
      i := i + 1;
    }
    return false;
  }

  /** Executor `t` passes validation within this part of the run. */
  ghost predicate PassesIn(run: seq<State>, from: nat, t: nat) {
    exists i :: 0 < from <= i < |run| && t < |run[i - 1].txs| && Pass(run[i - 1], run[i], t)
  }

  lemma StepOwn(s: State, s': State, t: nat)
    requires StepBy(s, s', t)
    ensures |s'.txs| == |s.txs| && s'.txs == s.txs[t := s'.txs[t]]
  {
  }

  lemma StepKeepsSize(s: State, s': State, t: nat)
    requires StepBy(s, s', t)
    ensures |s'.table| == |s.table|
  {
  }

  lemma UnlockedStep(s: State, s': State, t: nat)
    requires StepBy(s, s', t) && !Locked(s.txs[t].phase) && s.lock >= 0
    ensures s' == SetTx(s, t, s'.txs[t])
  {
  }

  /** Whatever another executor does next, this one keeps its own data; while it holds the
      global lock, the log and the numbers stay as they are, too. */
  lemma OthersLeave(s: State, s': State, u: nat, t: nat)
    requires Inv(s) && StepBy(s, s', u) && t < |s.txs| && t != u
    ensures |s'.txs| == |s.txs| && s'.txs[t] == s.txs[t] && |s'.table| == |s.table|
    ensures s.lock == t ==>
              && s'.lock == t && s'.log == s.log && s'.wsList == s.wsList && s'.deleted == s.deleted
              && s'.txId == s.txId && s'.progress == s.progress && s'.threshold == s.threshold
  {
    StepOwn(s, s', u);
    StepKeepsSize(s, s', u);
    if s.lock == t {
      assert TxOk(s, u);
      UnlockedStep(s, s', u);
    }
  }

  class TxnExecutor {
    const thid: nat
    var st: State
    ghost var run: seq<State>

    ghost predicate Sound()
      reads this
    {
      IsRun(run, Init, Next) && run[|run| - 1] == st && thid < |st.txs|
    }

    constructor (initial: State, thid: nat)
      requires Init(initial) && thid < |initial.txs|
      ensures Sound() && st == initial && this.thid == thid
    {
      this.thid := thid;
      st := initial;
      run := [initial];
    }

    lemma Reachable()
      requires Sound()
      ensures LogOk(st) && |st.progress| == |st.txs| && TxOk(st, thid)
      ensures ProgressOk(st.txs[thid], st.progress[thid], st.txId, st.deleted)
    {
      RunKeepsInv(run, |run| - 1);
    }

    /** Any number of steps of the other executors; they wait while this one holds the
        global lock, so the log and the numbers stay as they are then. */
    method Others()
      requires Sound()
      modifies this
      ensures Sound() && st.txs[thid] == old(st.txs[thid]) && old(run) <= run && |st.table| == old(|st.table|)
      ensures old(st.lock) == thid ==>
                && st.lock == thid && st.log == old(st.log) && st.wsList == old(st.wsList) && st.deleted == old(st.deleted)
                && st.txId == old(st.txId) && st.progress == old(st.progress) && st.threshold == old(st.threshold)
    {
    }

    /** One atomic step of this executor. */
    method Step(next: State)
      requires Sound() && StepBy(st, next, thid) && thid < |next.txs|
      modifies this
      ensures Sound() && st == next && run == old(run) + [next]
    {
      Longer(run, Init, Next, next);
      st := next;
      run := run + [next];
    }

    method Begin()
      requires Sound() && st.txs[thid].phase.Idle?
      modifies this
      ensures Sound() && old(run) <= run && st.txs[thid].phase.Executing? && st.txs[thid].start == st.txId
      ensures st.txs[thid].rset == [] && st.txs[thid].wset == []
    {
      var begun := SetTx(st, thid, st.txs[thid].(phase := Executing, start := st.txId, rset := [], wset := []));
      assert OptimisticLog.Begin(st, begun, thid);
      Step(begun);
    }

    method Read(key: Key)
      requires Sound() && st.txs[thid].phase.Executing? && key < |st.table|
      modifies this
      ensures Sound() && old(run) <= run && st.txs[thid].phase.Executing? && st.txs[thid].wset == old(st.txs[thid].wset)
      ensures st.txs[thid].rset == if ReadsKey(old(st.txs[thid].rset), key) || HasKey(old(st.txs[thid].wset), key)
                                   then old(st.txs[thid].rset) else old(st.txs[thid].rset) + [ReadItem(key, old(st.table[key]))]
    {
      var inR := SearchReadSet(st.txs[thid].rset, key);
      var inW := SearchWriteSet(st.txs[thid].wset, key);
      if !inR && !inW {
        var tx := st.txs[thid];
        var next := SetTx(st, thid, tx.(rset := tx.rset + [ReadItem(key, st.table[key])]));
        assert OptimisticLog.Read(st, next, thid, key);
        Step(next);
      }
    }

    method Write(key: Key, val: Val)
      requires Sound() && st.txs[thid].phase.Executing? && key < |st.table|
      modifies this
      ensures Sound() && old(run) <= run && st.txs[thid].phase.Executing? && st.txs[thid].rset == old(st.txs[thid].rset)
      ensures st.txs[thid].wset == if HasKey(old(st.txs[thid].wset), key) then old(st.txs[thid].wset)
                                   else old(st.txs[thid].wset) + [WriteItem(key, val)]
    {
      var inW := SearchWriteSet(st.txs[thid].wset, key);
      if !inW {
        var tx := st.txs[thid];
        var next := SetTx(st, thid, tx.(wset := tx.wset + [WriteItem(key, val)]));
        assert OptimisticLog.Write(st, next, thid, key, val);
        Step(next);
      }
    }

    /** The global lock is free: the code waits for that. */
    method Lock()
      requires Sound() && st.txs[thid].phase.Executing? && st.lock == -1
      modifies this
      ensures Sound() && old(run) <= run && st == SetTx(old(st), thid, old(st.txs[thid]).(phase := Validating)).(lock := thid)
    {
      var next := SetTx(st, thid, st.txs[thid].(phase := Validating)).(lock := thid);
      assert TakeLock(st, next, thid);
      Step(next);
    }

    /** Whether any transaction committed since this one started wrote what it read; exact
        whenever the log still reaches back that far. */
    method ValidationPhase(below: int -> bool) returns (ok: bool)
      requires Sound() && st.txs[thid].phase.Validating?
      modifies this
      ensures Sound() && old(run) <= run && st == old(st)
      ensures ok ==> WindowClear(st, st.txs[thid].rset, st.txs[thid].start)
      ensures !ok ==> !WindowClear(st, st.txs[thid].rset, st.txs[thid].start) || st.txs[thid].start < st.deleted + 1
      ensures Reaches(st, st.txs[thid]) ==> (ok <==> FullWindowClear(st.log, st.txs[thid].rset, st.txs[thid].start))
    {
      Reachable();
      RunKeepsInv(run, |run| - 1);
      var tx := st.txs[thid];
      ok := ScanLog(st.wsList, tx.rset, tx.start - (st.deleted + 1), below);
      if Reaches(st, tx) {
        TrimmedCheckIsExact(st, thid);
      }
    }

    /** abort() and the release of the lock. */
    method Abort()
      requires Sound() && st.txs[thid].phase.Validating?
      requires !WindowClear(st, st.txs[thid].rset, st.txs[thid].start) || st.txs[thid].start < st.deleted + 1
      modifies this
      ensures Sound() && old(run) <= run && st.txs[thid].phase.Idle?
    {
      assert Fail(st, SetTx(st, thid, st.txs[thid].(phase := Unlocking)), thid);
      Step(SetTx(st, thid, st.txs[thid].(phase := Unlocking)));
      Others();
      Unlock();
    }

    method Unlock()
      requires Sound() && st.txs[thid].phase.Unlocking?
      modifies this
      ensures Sound() && old(run) <= run && st.txs[thid].phase.Idle? && st.lock == -1
    {
      var next := SetTx(st, thid, st.txs[thid].(phase := Idle, rset := [], wset := [])).(lock := -1);
      assert OptimisticLog.Unlock(st, next, thid);
      Step(next);
    }

    method Decide()
      requires Sound() && st.txs[thid].phase.Validating? && WindowClear(st, st.txs[thid].rset, st.txs[thid].start)
      modifies this
      ensures Sound() && run == old(run) + [st] && st.txs[thid] == old(st.txs[thid]).(phase := Writing(0)) && st.lock == thid
      ensures |st.log| == |old(st.log)| + 1 && st.log[..|old(st.log)|] == old(st.log) && |st.log| == st.txId + 1
      ensures st.wsList == old(st.wsList) && st.progress == old(st.progress) && st.txId == old(st.txId)
      ensures Pass(old(st), st, thid)
    {
      Reachable();
      var tx := st.txs[thid];
      var passed := SetTx(st, thid, tx.(phase := Writing(0))).(log := st.log + [Txn(ReadMap(tx.rset), WriteMap(tx.wset))]);
      assert Pass(st, passed, thid);
      Step(passed);
      Reachable();
    }

    method StoreOne(i: nat)
      requires Sound() && st.txs[thid].phase == Writing(i) && i < |st.txs[thid].wset|
      modifies this
      ensures Sound() && old(run) <= run && st.txs[thid] == old(st.txs[thid]).(phase := Writing(i + 1))
      ensures st.lock == thid && st.log == old(st.log) && st.txId == old(st.txId)
    {
      Reachable();
      var tx := st.txs[thid];
      var w := tx.wset[i];
      var stored := SetTx(st, thid, tx.(phase := Writing(i + 1))).(table := st.table[w.key := w.val]);
      assert Store(st, stored, thid);
      Step(stored);
    }

    method StoreAll()
      requires Sound() && st.txs[thid].phase == Writing(0) && st.lock == thid
      modifies this
      ensures Sound() && old(run) <= run && st.txs[thid].phase == Writing(|st.txs[thid].wset|)
      ensures st.txs[thid] == old(st.txs[thid]).(phase := st.txs[thid].phase)
      ensures st.lock == thid && st.log == old(st.log) && st.txId == old(st.txId)
    {
      var i := 0;
      while i < |st.txs[thid].wset|
        invariant Sound() && old(run) <= run && i <= |st.txs[thid].wset|
        invariant st.txs[thid] == old(st.txs[thid]).(phase := Writing(i))
        invariant st.lock == thid && st.log == old(st.log) && st.txId == old(st.txId)
        decreases |st.txs[thid].wset| - i
      {
        Others();
        StoreOne(i);
        i := i + 1;
      }
    }

    /** Appends the write set to the log and takes the number. */
    method PublishWrites()
      requires Sound() && st.txs[thid].phase == Writing(|st.txs[thid].wset|) && st.lock == thid
      modifies this
      ensures Sound() && old(run) <= run && st.txs[thid].phase.Collecting? && st.lock == thid
      ensures st.txId == old(st.txId) + 1 && st.log == old(st.log)
      ensures |st.log| == st.txId && thid < |st.progress| && st.progress[thid] == old(st.txId)
    {
      Reachable();
      var pushed := SetTx(st, thid, st.txs[thid].(phase := Pushed)).(wsList := st.wsList + [st.txs[thid].wset]);
      assert Push(st, pushed, thid);
      Step(pushed);
      Reachable();
      var numbered := SetTx(st, thid, st.txs[thid].(phase := Numbered, returning := true)).(progress := st.progress[thid := st.txId]);
      assert Number(st, numbered, thid);
      Step(numbered);
      Others();
      Reachable();
      var bumped := SetTx(st, thid, st.txs[thid].(phase := Phase.Collecting)).(txId := st.progress[thid] + 1);
      assert Bump(st, bumped, thid);
      Step(bumped);
      Reachable();
    }

    /** gc(): when the log is longer than the threshold, drops everything the slowest thread
        has left behind; the rest keeps its numbers. */
    method Gc()
      requires Sound() && st.txs[thid].phase.Collecting?
      modifies this
      ensures Sound() && old(run) <= run && st.txs[thid].phase.Unlocking?
      ensures st.log == old(st.log) && st.txId == old(st.txId) && st.deleted >= old(st.deleted)
      ensures st.deleted - old(st.deleted) <= |old(st.wsList)| && st.wsList == old(st.wsList)[st.deleted - old(st.deleted)..]
      ensures forall u | 0 <= u < |st.progress| :: st.deleted <= st.progress[u]
      ensures if |old(st.wsList)| > st.threshold then exists u :: 0 <= u < |st.progress| && st.deleted == st.progress[u]
              else st.deleted == old(st.deleted)
    {
      Reachable();
      var slowest := MinElement(st.progress);
      Collectable(slowest);
      var done := SetTx(st, thid, st.txs[thid].(phase := Unlocking));
      var n := slowest - st.deleted;
      if |st.wsList| > st.threshold && n > 0 {
        done := done.(wsList := st.wsList[n..], deleted := slowest);
      }
      assert Collect(st, done, thid, slowest);
      Step(done);
    }

    lemma Collectable(slowest: nat)
      requires Sound() && st.txs[thid].phase.Collecting? && IsLeast(st.progress, slowest)
      ensures slowest - st.deleted <= |st.wsList| && forall u | 0 <= u < |st.progress| :: st.deleted <= st.progress[u] && slowest <= st.progress[u]
    {
      RunKeepsInv(run, |run| - 1);
      CollectInRange(st, thid, slowest);
      forall u | 0 <= u < |st.progress| ensures st.deleted <= st.progress[u] {
        assert ProgressOk(st.txs[u], st.progress[u], st.txId, st.deleted);
      }
    }

    /** Everything under the global lock: the transaction takes the next number, or leaves
        nothing behind. */
    method Finish(below: int -> bool) returns (ok: bool)
      requires Sound() && st.txs[thid].phase.Validating? && st.lock == thid
      modifies this
      ensures Sound() && old(run) <= run && st.txs[thid].phase.Idle?
      ensures Reaches(old(st), old(st.txs[thid])) ==>
                (ok <==> FullWindowClear(old(st.log), old(st.txs[thid].rset), old(st.txs[thid].start)))
      ensures ok ==> PassesIn(run, |old(run)|, thid)
    {
      ok := ValidationPhase(below);
      if ok {
        WritePhase();
      } else {
        Abort();
      }
    }

    method WritePhase()
      requires Sound() && st.txs[thid].phase.Validating? && WindowClear(st, st.txs[thid].rset, st.txs[thid].start)
      modifies this
      ensures Sound() && old(run) <= run && st.txs[thid].phase.Idle?
      ensures PassesIn(run, |old(run)|, thid)
    {
      Decide();
      ghost var decided := run;
      StoreAll();
      PublishWrites();
      Gc();
      Unlock();
      assert run[|old(run)|] == decided[|old(run)|] && run[|old(run)| - 1] == decided[|old(run)| - 1];
    }
  }
}
