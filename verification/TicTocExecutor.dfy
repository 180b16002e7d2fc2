/** TicToc's executor as the repository writes it: loops over the sets that lock, validate,
    write and unlock.  Other executors may run between any two atomic steps; every call
    leaves a run of the step relation, so that the theorem about runs speaks of this code. */
module TicTocExecutor {
  import opened SerialExecution
  import opened AccessSets
  import opened Runs
  import opened TicToc
  import opened TicTocSafety
  import Theorems = TicTocTheorems

  datatype Outcome = Done | Aborted | GaveUp

  /** A step changes no executor but its own, and creates none. */
  ghost predicate OnlyOwn(s: State, s': State, t: nat)
    requires t < |s.txs|
  {
    |s'.txs| == |s.txs| && s'.txs == s.txs[t := s'.txs[t]]
  }

  lemma ReadPhaseOwn(s: State, s': State, t: nat)
    requires t < |s.txs| && ReadPhaseStep(s, s', t)
    ensures OnlyOwn(s, s', t)
  {
  }

  lemma ValidationOwn(s: State, s': State, t: nat)
    requires t < |s.txs| && ValidationStep(s, s', t)
    ensures OnlyOwn(s, s', t)
  {
  }

  lemma WritePhaseOwn(s: State, s': State, t: nat)
    requires t < |s.txs| && WritePhaseStep(s, s', t)
    ensures OnlyOwn(s, s', t)
  {
  }

  lemma StepOwn(s: State, s': State, t: nat)
    requires StepBy(s, s', t)
    ensures OnlyOwn(s, s', t)
  {
    if ReadPhaseStep(s, s', t) {
      ReadPhaseOwn(s, s', t);
    } else if ValidationStep(s, s', t) {
      ValidationOwn(s, s', t);
    } else {
      WritePhaseOwn(s, s', t);
    }
  }

  /** Whatever another executor does next, this one keeps its own data: what Others()
      promises of any number of such steps. */
  lemma OthersLeave(s: State, s': State, u: nat, t: nat)
    requires StepBy(s, s', u) && t < |s.txs| && t != u
    ensures |s'.txs| == |s.txs| && s'.txs[t] == s.txs[t]
  {
    StepOwn(s, s', u);
  }

  predicate OnlyPhase(a: Tx, b: Tx) { b == a.(phase := b.phase) }

  /** One element has been added to the read set: payload and word of record `key` as they
      stand together in `table`, unlocked. */
  predicate ReadNew(a: Tx, b: Tx, key: Key, table: seq<Tuple>) {
    && |b.rset| == |a.rset| + 1 && b.rset[..|a.rset|] == a.rset && key < |table|
    && var r, tup := b.rset[|a.rset|], table[key];
       && r.key == key && r.tsw == tup.tsw && !tup.tsw.lock && r.val == tup.val && r.ver + 1 == |tup.versions|
       && b.appro == Max(a.appro, r.tsw.wts)
  }

  /** A record is read once; what the transaction has read or written already is not. */
  predicate ReadOnce(a: Tx, b: Tx, key: Key, table: seq<Tuple>) {
    if InReads(a.rset, key) || HasKey(a.wset, key) then b.rset == a.rset else ReadNew(a, b, key, table)
  }

  /** Within this part of the run another executor has record `k` locked. */
  ghost predicate HeldIn(run: seq<State>, from: nat, k: Key, t: nat) {
    exists n :: from <= n < |run| && Theorems.LockedByOther(run[n].table, k, t)
  }

  lemma HeldLonger(run: seq<State>, run': seq<State>, from: nat, from': nat, k: Key, t: nat)
    requires HeldIn(run, from, k, t) && run <= run' && from' <= from
    ensures HeldIn(run', from', k, t)
  {
    var n :| from <= n < |run| && Theorems.LockedByOther(run[n].table, k, t);
    assert run'[n] == run[n];
  }

  /** Within this part of the run another executor has a record of the write set locked. */
  ghost predicate LockTakenIn(run: seq<State>, from: nat, ws: seq<WriteItem>, t: nat) {
    exists n, w :: from <= n < |run| && w in ws && Theorems.LockedByOther(run[n].table, w.key, t)
  }

  lemma TakenAt(run: seq<State>, from: nat, n: nat, ws: seq<WriteItem>, j: nat, t: nat)
    requires from <= n < |run| && j < |ws| && Theorems.LockedByOther(run[n].table, ws[j].key, t)
    ensures LockTakenIn(run, from, ws, t)
  {
    assert ws[j] in ws;
  }

  lemma SameItemsTaken(run: seq<State>, from: nat, from': nat, sorted: seq<WriteItem>, ws: seq<WriteItem>, t: nat)
    requires from' <= from && SortOf(ws, sorted) && LockTakenIn(run, from, sorted, t)
    ensures LockTakenIn(run, from', ws, t)
  {
    var n, w :| from <= n < |run| && w in sorted && Theorems.LockedByOther(run[n].table, w.key, t);
    assert w in multiset(sorted) && w in ws;
  }

  /** Within this part of the run a read is stale for commit timestamp `cts`. */
  ghost predicate StaleIn(run: seq<State>, from: nat, rs: seq<ReadItem>, cts: nat, t: nat) {
    exists n, r :: from <= n < |run| && r in rs && Theorems.Stale(run[n].table, r, cts, t)
  }

  lemma StaleEarlier(run: seq<State>, from: nat, from': nat, rs: seq<ReadItem>, cts: nat, t: nat)
    requires from' <= from && StaleIn(run, from, rs, cts, t)
    ensures StaleIn(run, from', rs, cts, t)
  {
    var n, r :| from <= n < |run| && r in rs && Theorems.Stale(run[n].table, r, cts, t);
  }

  /** `c` is just above the interval a record to be written had within this part of the run. */
  ghost predicate NextRtsMet(run: seq<State>, from: nat, ws: seq<WriteItem>, c: nat) {
    exists n, w :: from <= n < |run| && w in ws && w.key < |run[n].table| && c == run[n].table[w.key].tsw.Rts() + 1
  }

  lemma MetLonger(run: seq<State>, run': seq<State>, from: nat, from': nat, ws: seq<WriteItem>, c: nat)
    requires NextRtsMet(run, from, ws, c) && run <= run' && from' <= from
    ensures NextRtsMet(run', from', ws, c)
  {
    var n, w :| from <= n < |run| && w in ws && w.key < |run[n].table| && c == run[n].table[w.key].tsw.Rts() + 1;
    assert run'[n] == run[n];
  }

  lemma MetNext(run: seq<State>, run': seq<State>, from: nat, n: nat, ws: seq<WriteItem>, j: nat, start: nat, c: nat, c': nat)
    requires run <= run' && from <= n < |run'| && j < |ws| && ws[j].key < |run'[n].table|
    requires c == start || NextRtsMet(run, from, ws, c)
    requires c' == c || c' == run'[n].table[ws[j].key].tsw.Rts() + 1
    ensures c' == start || NextRtsMet(run', from, ws, c')
  {
    if c' != c {
      assert ws[j] in ws;
    } else if c != start {
      MetLonger(run, run', from, from, ws, c);
    }
  }

  lemma SameItemsMet(run: seq<State>, from: nat, from': nat, sorted: seq<WriteItem>, ws: seq<WriteItem>, c: nat)
    requires from' <= from && SortOf(ws, sorted) && NextRtsMet(run, from, sorted, c)
    ensures NextRtsMet(run, from', ws, c)
  {
    var n, w :| from <= n < |run| && w in sorted && w.key < |run[n].table| && c == run[n].table[w.key].tsw.Rts() + 1;
    assert w in multiset(sorted) && w in ws;
  }

  /** Commit timestamp `c` is not larger than it has to be: it is the start value, just above
      what a record to be written was valid for, or the start of a version read. */
  ghost predicate Needed(run: seq<State>, from: nat, tx: Tx, c: nat) {
    c == tx.cts || NextRtsMet(run, from, tx.wset, c) || exists r :: r in tx.rset && c == r.tsw.wts
  }

  /** Somebody else is to blame for the abort of `tx`: a record to be written was locked, or a
      read was stale for a commit timestamp no larger than needed. */
  ghost predicate BlamedIn(run: seq<State>, from: nat, tx: Tx, t: nat) {
    LockTakenIn(run, from, tx.wset, t) || exists c :: Needed(run, from, tx, c) && StaleIn(run, from, tx.rset, c, t)
  }

  /** From the timestamp after locking to the commit timestamp, and on to the end of validation. */
  lemma StillNeeded(locked: seq<State>, run: seq<State>, from: nat, tx: Tx, c: nat, c': nat)
    requires locked <= run && (c == tx.cts || NextRtsMet(locked, from, tx.wset, c))
    requires c' == c || exists r :: r in tx.rset && c' == r.tsw.wts
    ensures Needed(run, from, tx, c')
  {
    if c' == c && c != tx.cts {
      MetLonger(locked, run, from, from, tx.wset, c);
    }
  }

  lemma StaleBlamed(run: seq<State>, from: nat, from': nat, tx: Tx, c: nat, t: nat)
    requires from' <= from && Needed(run, from', tx, c) && StaleIn(run, from, tx.rset, c, t)
    ensures BlamedIn(run, from', tx, t)
  {
    StaleEarlier(run, from, from', tx.rset, c, t);
  }

  /** Executor `t` passes its commit point within this part of the run. */
  ghost predicate CommitsIn(run: seq<State>, from: nat, t: nat) {
    exists i :: 0 < from <= i < |run| && t < |run[i - 1].txs| && TicToc.Commit(run[i - 1], run[i], t)
  }

  class TxExecutor {
    const thid: nat
    var st: State
    ghost var run: seq<State>

    ghost predicate Valid()
      reads this
    {
      IsRun(run, Init, Next) && run[|run| - 1] == st && thid < |st.txs|
    }

    constructor (initial: State, thid: nat)
      requires Init(initial) && thid < |initial.txs|
      ensures Valid() && st == initial && this.thid == thid
    {
      this.thid := thid;
      st := initial;
      run := [initial];
    }

    /** In every state this code can be in, the committed transactions are serializable. */
    lemma CommittedAreSerializable()
      requires Valid()
      ensures forall k | 0 <= k < |run[0].table| :: run[0].table[k].versions != []
      ensures Serializable(InitialTable(run[0]), st.commits)
    {
      Theorems.TicTocSerializable(run, |run| - 1);
    }

    lemma Reachable()
      requires Valid()
      ensures TxInv(st.table, st.txs[thid], thid)
    {
      RunKeepsInv(run, |run| - 1);
    }

    /** Any number of steps of the other executors: all that callers learn is that this
        executor's own data stay as they are. */
    method Others()
      requires Valid()
      modifies this
      ensures Valid() && st.txs[thid] == old(st.txs[thid]) && old(run) <= run
    {
    }

    lemma Allowed(next: State)
      requires Valid() && StepBy(st, next, thid)
      ensures IsRun(run + [next], Init, Next) && |next.txs| == |st.txs|
    {
      Longer(run, Init, Next, next);
      StepOwn(st, next, thid);
    }

    method Move(next: State)
      requires Valid() && IsRun(run + [next], Init, Next) && thid < |next.txs|
      modifies this
      ensures Valid() && st == next && run == old(run) + [next]
    {
      st := next;
      run := run + [next];
    }

    /** One atomic step of this executor. */
    method Step(next: State)
      requires Valid() && StepBy(st, next, thid)
      modifies this
      ensures Valid() && st == next && run == old(run) + [next]
    {
      Allowed(next);
      Move(next);
    }

    method Begin()
      requires Valid() && st.txs[thid].phase.Idle?
      modifies this
      ensures Valid() && old(run) <= run && st.txs[thid] == Tx(Executing, [], [], 0, 0)
    {
      var begun := st.(txs := st.txs[thid := Tx(Executing, [], [], 0, 0)]);
      assert TicToc.Begin(st, begun, thid);
      Step(begun);
    }

    method SearchReadSet(key: Key) returns (found: bool)
      requires Valid()
      ensures found <==> InReads(st.txs[thid].rset, key)
    {
      var i := 0;
      var rs := st.txs[thid].rset;
      while i < |rs|
        invariant i <= |rs| && forall j | 0 <= j < i :: rs[j].key != key
      {
        if rs[i].key == key {
          return true;
        }
        i := i + 1;
      }
      return false;
    }

    /** read(): spins while the record is locked and copies until the word has not moved.
        The source spins for ever; `patience` bounds the attempts. */
    method Read(key: Key, patience: nat) returns (o: Outcome)
      requires Valid() && st.txs[thid].phase.Executing? && key < |st.table|
      modifies this
      ensures Valid() && old(run) <= run && st.txs[thid].wset == old(st.txs[thid].wset)
      ensures o.Done? ==> ReadOnce(old(st.txs[thid]), st.txs[thid], key, st.table)
      ensures o.Done? ==> st.txs[thid].phase.Executing?
      ensures o.Done? ==> HasKey(st.txs[thid].wset, key) || InReads(st.txs[thid].rset, key)
      ensures o.Aborted? ==> st.txs[thid].phase.Idle? && Theorems.LockedByOther(st.table, key, thid)
                             && st.table[key].tsw.Rts() < old(st.txs[thid].appro)
      ensures o.GaveUp? ==> HeldIn(run, |old(run)| - 1, key, thid) || |run| >= |old(run)| + patience
    {
      var inR := SearchReadSet(key);
      var inW := SearchWriteSet(st.txs[thid].wset, key);
      if inR || inW {
        return Done;
      }
      assert ReadStart(st, SetPhase(st, thid, Spinning(key)), thid, key);
      Step(SetPhase(st, thid, Spinning(key)));
      var n := patience;
      ghost var from := |old(run)| - 1;
      while n > 0
        invariant Valid() && old(run) <= run && OnlyPhase(old(st.txs[thid]), st.txs[thid])
        invariant st.txs[thid].phase == Spinning(key) || (st.txs[thid].phase.Loaded? && st.txs[thid].phase.key == key)
        invariant n <= patience && (HeldIn(run, from, key, thid) || |run| >= |old(run)| + (patience - n))
      {
        n := n - 1;
        ghost var before := run;
        o := TryRead(key);
        if !o.GaveUp? {
          return;
        }
        if HeldIn(before, from, key, thid) {
          HeldLonger(before, run, from, from, key, thid);
        } else if HeldIn(run, |before| - 1, key, thid) {
          HeldLonger(run, run, |before| - 1, from, key, thid);
        }
      }
      return GaveUp;
    }

    /** One turn: goes on while another executor has the record locked, or when the word moves. */
    method TryRead(key: Key) returns (o: Outcome)
      requires Valid() && (st.txs[thid].phase == Spinning(key) || (st.txs[thid].phase.Loaded? && st.txs[thid].phase.key == key))
      modifies this
      ensures Valid() && old(run) <= run && st.txs[thid].wset == old(st.txs[thid].wset)
      ensures if o.Done? then ReadNew(old(st.txs[thid]), st.txs[thid], key, st.table) else OnlyPhase(old(st.txs[thid]), st.txs[thid])
      ensures o.Done? ==> st.txs[thid].phase.Executing? && InReads(st.txs[thid].rset, key)
      ensures o.Aborted? ==> st.txs[thid].phase.Idle? && Theorems.LockedByOther(st.table, key, thid)
                             && st.table[key].tsw.Rts() < st.txs[thid].appro
      ensures o.GaveUp? ==> st.txs[thid].phase == Spinning(key) || (st.txs[thid].phase.Loaded? && st.txs[thid].phase.key == key)
      ensures o.GaveUp? ==> HeldIn(run, |old(run)| - 1, key, thid) || |run| > |old(run)|
    {
      Others();
      if st.txs[thid].phase.Spinning? {
        var waiting, aborted := LoadWord(key);
        if aborted {
          return Outcome.Aborted;
        }
        if waiting {
          assert run[|run| - 1] == st;
          return GaveUp;
        }
        Others();
      }
      var got := CopyPayload(key);
      return if got then Done else GaveUp;
    }

    /** Loads the word of a record unless it is locked; a locked one may doom the read. */
    method LoadWord(key: Key) returns (waiting: bool, aborted: bool)
      requires Valid() && st.txs[thid].phase == Spinning(key)
      modifies this
      ensures Valid() && old(run) <= run && OnlyPhase(old(st.txs[thid]), st.txs[thid])
      ensures aborted || waiting ==> Theorems.LockedByOther(st.table, key, thid)
      ensures if aborted then st.txs[thid].phase.Idle? && st.table[key].tsw.Rts() < st.txs[thid].appro
              else if waiting then run == old(run) && st.txs[thid].phase == Spinning(key)
              else |run| > |old(run)| && st.txs[thid].phase.Loaded? && st.txs[thid].phase.key == key
    {
      Reachable();
      var w := st.table[key].tsw;
      waiting, aborted := w.lock, w.lock && w.Rts() < st.txs[thid].appro;
      if waiting {
        LockedBySomebody(key);
      }
      if aborted {
        assert PreemptiveAbort(st, SetPhase(st, thid, Idle), thid);
        Step(SetPhase(st, thid, Idle));
      } else if !waiting {
        assert ReadLoad(st, SetPhase(st, thid, Loaded(key, w)), thid);
        Step(SetPhase(st, thid, Loaded(key, w)));
      }
    }

    lemma LockedBySomebody(key: Key)
      requires Valid() && st.txs[thid].phase == Spinning(key) && key < |st.table| && st.table[key].tsw.lock
      ensures Theorems.LockedByOther(st.table, key, thid)
    {
      RunKeepsInv(run, |run| - 1);
      assert TupleInv(st.table[key]) && TxInv(st.table, st.txs[thid], thid);
      assert !Holds(st.txs[thid], key);
    }

    /** Copies the payload and looks at the word again. */
    method CopyPayload(key: Key) returns (got: bool)
      requires Valid() && st.txs[thid].phase.Loaded? && st.txs[thid].phase.key == key
      modifies this
      ensures Valid() && old(run) <= run && st.txs[thid].wset == old(st.txs[thid].wset)
      ensures if got then ReadNew(old(st.txs[thid]), st.txs[thid], key, st.table) else OnlyPhase(old(st.txs[thid]), st.txs[thid])
      ensures got ==> st.txs[thid].phase.Executing? && InReads(st.txs[thid].rset, key)
      ensures |run| > |old(run)|
      ensures !got ==> st.txs[thid].phase == Spinning(key) || (st.txs[thid].phase.Loaded? && st.txs[thid].phase.key == key)
    {
      Reachable();
      TupleReachable(key);
      var tup, v1 := st.table[key], st.txs[thid].phase.v1;
      var copied := SetPhase(st, thid, Copied(key, v1, tup.val, |tup.versions| - 1));
      assert ReadCopy(st, copied, thid);
      Step(copied);
      Others();
      Reachable();
      var again := st.table[key].tsw;
      if v1 == again {
        FinishRead(key);
        return true;
      }
      var next := SetPhase(st, thid, if again.lock then Spinning(key) else Loaded(key, again));
      assert ReadAgain(st, next, thid);
      Step(next);
      return false;
    }

    /** The word has not moved since it was loaded: the copy becomes a read. */
    method FinishRead(key: Key)
      requires Valid() && st.txs[thid].phase.Copied? && st.txs[thid].phase.key == key
      requires key < |st.table| && st.table[key].tsw == st.txs[thid].phase.v1
      modifies this
      ensures Valid() && old(run) <= run && st.txs[thid].wset == old(st.txs[thid].wset)
      ensures ReadNew(old(st.txs[thid]), st.txs[thid], key, st.table)
      ensures st.txs[thid].phase.Executing? && InReads(st.txs[thid].rset, key)
    {
      CopyStands(key);
      var tx, p := st.txs[thid], st.txs[thid].phase;
      var item := ReadItem(key, p.v1, p.val, p.ver);
      var done := st.(txs := st.txs[thid := tx.(phase := Executing, rset := tx.rset + [item], appro := Max(tx.appro, p.v1.wts))]);
      assert ReadDone(st, done, thid);
      Step(done);
      assert st.txs[thid].rset[|tx.rset|] == item;
    }

    /** What was copied while the word stood still is the newest committed version. */
    lemma CopyStands(key: Key)
      requires Valid() && st.txs[thid].phase.Copied? && st.txs[thid].phase.key == key
      requires key < |st.table| && st.table[key].tsw == st.txs[thid].phase.v1
      ensures !st.table[key].tsw.lock && st.txs[thid].phase.val == st.table[key].val
      ensures st.txs[thid].phase.ver + 1 == |st.table[key].versions|
    {
      RunKeepsInv(run, |run| - 1);
      assert TupleInv(st.table[key]) && TxInv(st.table, st.txs[thid], thid);
    }

    lemma TupleReachable(key: Key)
      requires Valid() && key < |st.table|
      ensures |st.table[key].versions| > 0
    {
      RunKeepsInv(run, |run| - 1);
      assert TupleInv(st.table[key]);
    }

    method Write(key: Key, val: Val)
      requires Valid() && st.txs[thid].phase.Executing? && key < |st.table|
      modifies this
      ensures Valid() && old(run) <= run && st.txs[thid].phase.Executing? && st.txs[thid].rset == old(st.txs[thid].rset)
      ensures st.txs[thid].wset == if HasKey(old(st.txs[thid].wset), key) then old(st.txs[thid].wset)
                                   else old(st.txs[thid].wset) + [WriteItem(key, val)]
      ensures st.table == old(st.table)
      ensures !HasKey(old(st.txs[thid].wset), key) ==> st.txs[thid].appro == Max(old(st.txs[thid].appro), st.table[key].tsw.Rts() + 1)
    {
      var inW := SearchWriteSet(st.txs[thid].wset, key);
      if inW {
        return;
      }
      var tx := st.txs[thid];
      var written := st.(txs := st.txs[thid := tx.(wset := tx.wset + [WriteItem(key, val)],
                                                   appro := Max(tx.appro, st.table[key].tsw.Rts() + 1))]);
      assert TicToc.Write(st, written, thid, key, val);
      Step(written);
    }

    /** unlockWriteSet(): the first `end` elements of the write set are locked. */
    method UnlockWriteSet()
      requires Valid() && st.txs[thid].phase.Unlocking? && st.txs[thid].phase.i == 0
      modifies this
      ensures Valid() && st.txs[thid].phase.Idle? && old(run) <= run
      ensures forall k | 0 <= k < |st.table| :: st.table[k].owner != thid
    {
      Reachable();
      ghost var end := st.txs[thid].phase.end;
      var i := 0;
      while i < st.txs[thid].phase.end
        invariant Valid() && old(run) <= run && i <= end
        invariant st.txs[thid].phase == Unlocking(i, end)
        decreases end - i
      {
        Others();
        UnlockOne(i);
        i := i + 1;
      }
      Others();
      assert TicToc.Aborted(st, SetPhase(st, thid, Idle), thid);
      Step(SetPhase(st, thid, Idle));
      IdleHoldsNothing();
    }

    /** A plain load and a plain store of the word of write item `i`. */
    method UnlockOne(i: nat)
      requires Valid() && st.txs[thid].phase.Unlocking? && st.txs[thid].phase.i == i < st.txs[thid].phase.end
      modifies this
      ensures Valid() && old(run) <= run
      ensures st.txs[thid].phase == Unlocking(i + 1, old(st.txs[thid].phase.end))
    {
      Reachable();
      var k, end := st.txs[thid].wset[i].key, st.txs[thid].phase.end;
      var loaded := SetPhase(st, thid, UnlockLoaded(i, end, st.table[k].tsw));
      assert UnlockLoad(st, loaded, thid);
      Step(loaded);
      Others();
      Reachable();
      var tx := st.txs[thid];
      var stored := st.(table := st.table[k := st.table[k].(tsw := tx.phase.word.(lock := false), owner := -1)],
                        txs := st.txs[thid := tx.(phase := Unlocking(i + 1, end))]);
      assert UnlockStore(st, stored, thid);
      Step(stored);
    }

    /** lockWriteSet(): no-wait locking in key order, and the timestamp the locked words ask for. */
    method LockWriteSet() returns (ok: bool)
      requires Valid() && st.txs[thid].phase.Executing?
      modifies this
      ensures Valid() && old(run) <= run
      ensures ok ==> st.txs[thid].phase == Locking(|st.txs[thid].wset|) && st.txs[thid].rset == old(st.txs[thid].rset)
      ensures ok ==> st.txs[thid].cts == old(st.txs[thid].cts) || NextRtsMet(run, |old(run)| - 1, old(st.txs[thid].wset), st.txs[thid].cts)
      ensures !ok ==> st.txs[thid].phase.Idle? && forall k | 0 <= k < |st.table| :: st.table[k].owner != thid
      ensures !ok ==> LockTakenIn(run, |old(run)| - 1, old(st.txs[thid].wset), thid)
      ensures ok ==> SortOf(old(st.txs[thid].wset), st.txs[thid].wset)
      ensures ok ==> forall j | 0 <= j < |st.txs[thid].wset| ::
                       var k := st.txs[thid].wset[j].key; k < |st.table| && st.table[k].owner == thid
    {
      var sorted := SortWriteSet(st.txs[thid].wset);
      var started := st.(txs := st.txs[thid := st.txs[thid].(phase := Locking(0), wset := sorted)]);
      assert SortWrites(st, started, thid, sorted);
      Step(started);
      ghost var from := |run| - 1;
      ok := LockSorted();
      if ok {
        AllLocked();
        if st.txs[thid].cts != old(st.txs[thid].cts) {
          SameItemsMet(run, from, |old(run)| - 1, sorted, old(st.txs[thid].wset), st.txs[thid].cts);
        }
      } else {
        SameItemsTaken(run, from, |old(run)| - 1, sorted, old(st.txs[thid].wset), thid);
        IdleHoldsNothing();
      }
    }

    /** Locks the sorted write set from its first element on. */
    method LockSorted() returns (ok: bool)
      requires Valid() && st.txs[thid].phase == Locking(0)
      modifies this
      ensures Valid() && old(run) <= run
      ensures ok ==> st.txs[thid] == old(st.txs[thid]).(phase := Locking(|st.txs[thid].wset|), cts := st.txs[thid].cts)
      ensures ok ==> st.txs[thid].cts == old(st.txs[thid].cts) || NextRtsMet(run, |old(run)| - 1, st.txs[thid].wset, st.txs[thid].cts)
      ensures !ok ==> st.txs[thid].phase.Idle? && LockTakenIn(run, |old(run)| - 1, old(st.txs[thid].wset), thid)
    {
      var i := 0;
      ghost var tx, from := st.txs[thid], |run| - 1;
      while i < |st.txs[thid].wset|
        invariant Valid() && old(run) <= run && i <= |tx.wset|
        invariant st.txs[thid] == tx.(phase := Locking(i), cts := st.txs[thid].cts)
        invariant st.txs[thid].cts == tx.cts || NextRtsMet(run, from, tx.wset, st.txs[thid].cts)
        decreases |tx.wset| - i
      {
        ghost var before := run;
        Others();
        ghost var n, cts := |run| - 1, st.txs[thid].cts;
        ok := LockItem(i);
        if !ok {
          TakenAt(run, from, n, tx.wset, i, thid);
          return;
        }
        MetNext(before, run, from, n, tx.wset, i, tx.cts, cts, st.txs[thid].cts);
        i := i + 1;
      }
      return true;
    }

    lemma AllLocked()
      requires Valid() && st.txs[thid].phase == Locking(|st.txs[thid].wset|)
      ensures forall j | 0 <= j < |st.txs[thid].wset| ::
                var k := st.txs[thid].wset[j].key; k < |st.table| && st.table[k].owner == thid
    {
      Reachable();
      forall j | 0 <= j < |st.txs[thid].wset|
        ensures var k := st.txs[thid].wset[j].key; k < |st.table| && st.table[k].owner == thid
      {
        assert Holds(st.txs[thid], st.txs[thid].wset[j].key);
      }
    }

    method LockItem(i: nat) returns (ok: bool)
      requires Valid() && st.txs[thid].phase == Locking(i) && i < |st.txs[thid].wset|
      modifies this
      ensures Valid() && old(run) <= run
      ensures ok ==> st.txs[thid] == old(st.txs[thid]).(phase := Locking(i + 1), cts := st.txs[thid].cts)
      ensures ok ==> var k := old(st.txs[thid].wset[i].key);
                       k < |old(st.table)| && st.txs[thid].cts == Max(old(st.txs[thid].cts), old(st.table)[k].tsw.Rts() + 1)
      ensures !ok ==> st.txs[thid].phase.Idle? && Theorems.LockedByOther(old(st.table), old(st.txs[thid].wset[i].key), thid)
    {
      Reachable();
      var tx, k := st.txs[thid], st.txs[thid].wset[i].key;
      if st.table[k].tsw.lock {
        assert LockFail(st, SetPhase(st, thid, Unlocking(0, i)), thid);
        Theorems.LockOutcome(run, |run| - 1, SetPhase(st, thid, Unlocking(0, i)), thid);
        Step(SetPhase(st, thid, Unlocking(0, i)));
        UnlockWriteSet();
        return false;
      }
      var locked := st.(table := st.table[k := st.table[k].(tsw := st.table[k].tsw.(lock := true), owner := thid)],
                        txs := st.txs[thid := tx.(phase := Locking(i + 1), cts := Max(tx.cts, st.table[k].tsw.Rts() + 1))]);
      assert LockOne(st, locked, thid);
      Step(locked);
      return true;
    }

    /** The loop over the read set that completes the commit timestamp: the greatest of the
        start value and the write timestamps read. */
    method CommitTimestamp(rs: seq<ReadItem>, from: nat) returns (cts: nat)
      ensures cts >= from && forall j | 0 <= j < |rs| :: cts >= rs[j].tsw.wts
      ensures cts == from || exists j :: 0 <= j < |rs| && cts == rs[j].tsw.wts
      ensures cts == MaxReadWts(from, rs)
    {
      cts := from;
      var i := 0;
      while i < |rs|
        invariant i <= |rs| && cts == MaxReadWts(from, rs[..i])
        invariant cts >= from && forall j | 0 <= j < i :: cts >= rs[j].tsw.wts
        invariant cts == from || exists j :: 0 <= j < i && cts == rs[j].tsw.wts
      {
        assert rs[..i + 1][..i] == rs[..i];
        cts := Max(cts, rs[i].tsw.wts);
        i := i + 1;
      }
      assert rs[..i] == rs;
    }

    /** validationPhase(): either every read is certified for the commit timestamp and the
        write set stays locked, or nothing of the transaction is left locked and somebody
        else is to blame. */
    method ValidationPhase() returns (ok: bool)
      requires Valid() && st.txs[thid].phase.Executing?
      modifies this
      ensures Valid() && old(run) <= run
      ensures ok ==> st.txs[thid].phase == Validating(|st.txs[thid].rset|)
      ensures ok ==> forall j | 0 <= j < |st.txs[thid].rset| ::
                       var r := st.txs[thid].rset[j]; r.key < |st.table| && Certified(st.table, st.txs[thid], r)
      ensures ok ==> st.txs[thid].rset == old(st.txs[thid].rset) && Needed(run, |old(run)| - 1, old(st.txs[thid]), st.txs[thid].cts)
      ensures !ok ==> st.txs[thid].phase.Idle? && forall k | 0 <= k < |st.table| :: st.table[k].owner != thid
      ensures !ok ==> BlamedIn(run, |old(run)| - 1, old(st.txs[thid]), thid)
    {
      ok := LockWriteSet();
      if !ok {
        return;
      }
      ghost var locked, tx := run, st.txs[thid];
      Others();
      ComputeTimestamp();
      ghost var cts := st.txs[thid].cts;
      ok := ValidateReads();
      StillNeeded(locked, run, |old(run)| - 1, old(st.txs[thid]), tx.cts, cts);
      if ok {
        Reachable();
      } else {
        StaleBlamed(run, |locked| - 1, |old(run)| - 1, old(st.txs[thid]), cts, thid);
        IdleHoldsNothing();
      }
    }

    method ComputeTimestamp()
      requires Valid() && st.txs[thid].phase == Locking(|st.txs[thid].wset|)
      modifies this
      ensures Valid() && old(run) <= run
      ensures st.txs[thid] == old(st.txs[thid]).(phase := Validating(0), cts := st.txs[thid].cts)
      ensures st.txs[thid].cts == old(st.txs[thid].cts) || exists r :: r in st.txs[thid].rset && st.txs[thid].cts == r.tsw.wts
    {
      var tx := st.txs[thid];
      var cts := CommitTimestamp(tx.rset, tx.cts);
      var computed := st.(txs := st.txs[thid := tx.(phase := Validating(0), cts := cts)]);
      assert ComputeCommitTs(st, computed, thid);
      Step(computed);
    }

    /** Validates the reads from the first one on. */
    method ValidateReads() returns (ok: bool)
      requires Valid() && st.txs[thid].phase == Validating(0)
      modifies this
      ensures Valid() && old(run) <= run
      ensures ok ==> st.txs[thid] == old(st.txs[thid]).(phase := Validating(|st.txs[thid].rset|))
      ensures !ok ==> st.txs[thid].phase.Idle?
      ensures !ok ==> StaleIn(run, |old(run)| - 1, old(st.txs[thid].rset), old(st.txs[thid].cts), thid)
    {
      var i := 0;
      ghost var tx := st.txs[thid];
      while i < |st.txs[thid].rset|
        invariant Valid() && old(run) <= run && i <= |tx.rset| && st.txs[thid] == tx.(phase := Validating(i))
        decreases |tx.rset| - i
      {
        Others();
        ghost var n := |run| - 1;
        ok := ValidateOne(i);
        if !ok {
          assert tx.rset[i] in tx.rset && Theorems.Stale(run[n].table, tx.rset[i], tx.cts, thid);
          return;
        }
        i := i + 1;
      }
      return true;
    }

    lemma IdleHoldsNothing()
      requires Valid() && st.txs[thid].phase.Idle?
      ensures forall k | 0 <= k < |st.table| :: st.table[k].owner != thid
    {
      Reachable();
    }

    /** The body of the validation loop for read item `i`. */
    method ValidateOne(i: nat) returns (ok: bool)
      requires Valid() && st.txs[thid].phase == Validating(i) && i < |st.txs[thid].rset|
      modifies this
      ensures Valid() && old(run) <= run
      ensures ok ==> st.txs[thid] == old(st.txs[thid]).(phase := Validating(i + 1))
      ensures !ok ==> st.txs[thid].phase.Idle?
      ensures !ok ==> Theorems.Stale(old(st.table), old(st.txs[thid].rset[i]), old(st.txs[thid].cts), thid)
    {
      Reachable();
      var tx := st.txs[thid];
      var r := tx.rset[i];
      var w := st.table[r.key].tsw;
      if r.tsw.Rts() >= tx.cts {
        assert ValidateCovered(st, SetPhase(st, thid, Validating(i + 1)), thid);
        Step(SetPhase(st, thid, Validating(i + 1)));
        return true;
      }
      var inW := SearchWriteSet(tx.wset, r.key);
      if w.wts != r.tsw.wts || (w.Rts() < tx.cts && w.lock && !inW) {
        FailItem(i);
        return false;
      }
      if inW || w.Rts() >= tx.cts {
        assert ValidateKeep(st, SetPhase(st, thid, Validating(i + 1)), thid);
        Step(SetPhase(st, thid, Validating(i + 1)));
        return true;
      }
      ExtendItem(i);
      return true;
    }

    method FailItem(i: nat)
      requires Valid() && st.txs[thid].phase == Validating(i)
      requires ValidateFail(st, SetPhase(st, thid, Unlocking(0, |st.txs[thid].wset|)), thid)
      modifies this
      ensures Valid() && old(run) <= run && st.txs[thid].phase.Idle?
      ensures Theorems.Stale(old(st.table), old(st.txs[thid].rset[i]), old(st.txs[thid].cts), thid)
    {
      var next := SetPhase(st, thid, Unlocking(0, |st.txs[thid].wset|));
      Theorems.ValidationOutcome(run, |run| - 1, next, thid);
      Step(next);
      UnlockWriteSet();
    }

    /** The compare-and-swap that extends an interval up to the commit timestamp. */
    method ExtendItem(i: nat)
      requires Valid() && st.txs[thid].phase == Validating(i) && i < |st.txs[thid].rset| && st.txs[thid].rset[i].key < |st.table|
      requires var tx := st.txs[thid]; var r := tx.rset[i]; var w := st.table[r.key].tsw;
               r.tsw.Rts() < tx.cts && w.wts == r.tsw.wts && !HasKey(tx.wset, r.key) && w.Rts() < tx.cts && !w.lock
      modifies this
      ensures Valid() && old(run) <= run && st.txs[thid] == old(st.txs[thid]).(phase := Validating(i + 1))
      ensures var k := st.txs[thid].rset[i].key; k < |st.table| && st.table[k].tsw.Rts() == st.txs[thid].cts
    {
      Reachable();
      var tx := st.txs[thid];
      var r := tx.rset[i];
      var w := st.table[r.key].tsw;
      ExtendArithmetic(w, tx.cts);
      var extended := st.(table := st.table[r.key := st.table[r.key].(tsw := Extend(w, tx.cts))],
                          txs := st.txs[thid := tx.(phase := Validating(i + 1))]);
      assert ValidateExtend(st, extended, thid);
      Step(extended);
    }

    /** Enters the write phase: from here on the transaction counts as committed. */
    method Decide()
      requires Valid() && st.txs[thid].phase == Validating(|st.txs[thid].rset|)
      modifies this
      ensures Valid() && run == old(run) + [st]
      ensures st.txs[thid] == old(st.txs[thid]).(phase := Writing(0, old(st.tick)))
      ensures Stamp(old(st.txs[thid].cts), old(st.tick)) in st.commits
      ensures TicToc.Commit(old(st), st, thid)
    {
      Reachable();
      var tx := st.txs[thid];
      var stamp := Stamp(tx.cts, st.tick);
      var committed := st.(txs := st.txs[thid := tx.(phase := Writing(0, st.tick))],
                           commits := st.commits[stamp := Txn(ReadMap(tx.rset), WriteMap(tx.wset))],
                           sources := st.sources[stamp := SourceMap(tx.rset)],
                           tick := st.tick + 1);
      assert TicToc.Commit(st, committed, thid);
      Step(committed);
    }

    /** Payload, then the word with the new timestamp, of write item `i`. */
    method WriteOne(i: nat)
      requires Valid() && st.txs[thid].phase.Writing? && st.txs[thid].phase.i == i < |st.txs[thid].wset|
      modifies this
      ensures Valid() && old(run) <= run
      ensures st.txs[thid] == old(st.txs[thid]).(phase := Writing(i + 1, old(st.txs[thid].phase.n)))
      ensures var w := st.txs[thid].wset[i];
              w.key < |st.table| && st.table[w.key].tsw == Word(false, 0, st.txs[thid].cts) && st.table[w.key].val == w.val
    {
      Reachable();
      var tx := st.txs[thid];
      var k, n := tx.wset[i].key, tx.phase.n;
      var stored := st.(table := st.table[k := st.table[k].(val := tx.wset[i].val, dirty := true)],
                        txs := st.txs[thid := tx.(phase := Stored(i, n))]);
      assert StorePayload(st, stored, thid);
      Step(stored);
      Others();
      Reachable();
      var worded := st.(table := st.table[k := Tuple(Word(false, 0, tx.cts), st.table[k].val, -1, false,
                                                     st.table[k].versions + [Version(Stamp(tx.cts, n), tx.wset[i].val)])],
                        txs := st.txs[thid := tx.(phase := Writing(i + 1, n))]);
      assert StoreWord(st, worded, thid);
      Step(worded);
    }

    /** writePhase(): record by record. */
    method WritePhase()
      requires Valid() && st.txs[thid].phase == Validating(|st.txs[thid].rset|)
      modifies this
      ensures Valid() && |old(run)| < |run| && old(run) <= run && st.txs[thid].phase.Idle?
      ensures forall k | 0 <= k < |st.table| :: st.table[k].owner != thid
      ensures Stamp(old(st.txs[thid].cts), old(st.tick)) in run[|old(run)|].commits
      ensures CommitsIn(run, |old(run)|, thid)
    {
      Decide();
      ghost var decided := run;
      assert decided[|old(run)|] == st;
      var i := 0;
      while i < |st.txs[thid].wset|
        invariant Valid() && decided <= run && i <= |st.txs[thid].wset|
        invariant st.txs[thid].phase.Writing? && st.txs[thid].phase.i == i
        decreases |st.txs[thid].wset| - i
      {
        Others();
        WriteOne(i);
        i := i + 1;
      }
      assert run[|old(run)|] == decided[|old(run)|] && run[|old(run)| - 1] == decided[|old(run)| - 1];
      Others();
      assert Finish(st, SetPhase(st, thid, Idle), thid);
      Step(SetPhase(st, thid, Idle));
      IdleHoldsNothing();
    }

    /** A transaction's end: commit it, or leave no lock behind. */
    method Commit() returns (ok: bool)
      requires Valid() && st.txs[thid].phase.Executing?
      modifies this
      ensures Valid() && old(run) <= run && st.txs[thid].phase.Idle?
      ensures forall k | 0 <= k < |st.table| :: st.table[k].owner != thid
      ensures (forall k | 0 <= k < |run[0].table| :: run[0].table[k].versions != []) && Serializable(InitialTable(run[0]), st.commits)
      ensures ok ==> CommitsIn(run, |old(run)|, thid)
      ensures !ok ==> BlamedIn(run, |old(run)| - 1, old(st.txs[thid]), thid)
    {
      ok := ValidationPhase();
      if ok {
        WritePhase();
      }
      CommittedAreSerializable();
    }
  }
}
