/** Silo's executor and epoch leader as the repository writes them.  Other executors may run
    between any two atomic steps; every call leaves a run of the step relation, so that the
    theorems about runs speak of this code. */
module SiloExecutor {
  import opened SerialExecution
  import opened AccessSets
  import opened Runs
  import opened Silo
  import Safety = SiloSafety
  import Epochs = SiloEpochs
  import Theorems = SiloTheorems

  /** A step changes no executor but its own, and creates none. */
  ghost predicate OnlyOwn(s: State, s': State, t: nat)
    requires t < |s.txs|
  {
    |s'.txs| == |s.txs| && s'.txs == s.txs[t := s'.txs[t]] && |s'.localEpoch| == |s.localEpoch|
  }

  lemma ReadPhaseOwn(s: State, s': State, t: nat)
    requires t < |s.txs| && ReadPhaseStep(s, s', t)
    ensures OnlyOwn(s, s', t)
  {
  }

  lemma UnlockOwn(s: State, s': State, t: nat)
    requires t < |s.txs| && (UnlockLoad(s, s', t) || UnlockStore(s, s', t) || Aborted(s, s', t))
    ensures OnlyOwn(s, s', t)
  {
  }

  lemma ValidationOwn(s: State, s': State, t: nat)
    requires t < |s.txs| && ValidationStep(s, s', t)
    ensures OnlyOwn(s, s', t)
  {
    if UnlockLoad(s, s', t) || UnlockStore(s, s', t) || Aborted(s, s', t) {
      UnlockOwn(s, s', t);
    }
  }

  lemma WritePhaseOwn(s: State, s': State, t: nat)
    requires t < |s.txs| && WritePhaseStep(s, s', t)
    ensures OnlyOwn(s, s', t)
  {
  }

  lemma LeaderOwn(s: State, s': State, t: nat)
    requires t < |s.txs| && LeaderStep(s, s', t)
    ensures OnlyOwn(s, s', t)
  {
  }

  lemma StepOwn(s: State, s': State, t: nat)
    requires StepBy(s, s', t)
    ensures OnlyOwn(s, s', t)
  {
    if ReadPhaseStep(s, s', t) {
      ReadPhaseOwn(s, s', t);
    } else if ValidationStep(s, s', t) {
      ValidationOwn(s, s', t);
    } else if WritePhaseStep(s, s', t) {
      WritePhaseOwn(s, s', t);
    } else {
      LeaderOwn(s, s', t);
    }
  }

  /** Whatever another executor does next, this one keeps its own data, and there are as
      many executors and local epochs as before: what Others() and OthersSameWorkers()
      promise of any number of such steps. */
  lemma OthersLeave(s: State, s': State, u: nat, t: nat)
    requires StepBy(s, s', u) && t < |s.txs| && t != u
    ensures |s'.txs| == |s.txs| && |s'.localEpoch| == |s.localEpoch| && s'.txs[t] == s.txs[t]
  {
    StepOwn(s, s', u);
  }

  predicate OnlyPhase(a: Tx, b: Tx) { b == a.(phase := b.phase) }

  /** One element has been added to the read set: payload and TID of record `key` as they
      stand together in `table`, unlocked. */
  predicate ReadNew(a: Tx, b: Tx, key: Key, table: seq<Tuple>) {
    && |b.rset| == |a.rset| + 1 && b.rset[..|a.rset|] == a.rset && key < |table|
    && var r, tup := b.rset[|a.rset|], table[key];
       r.key == key && r.tid == tup.word.tid && !tup.word.lock && r.val == tup.val && r.ver + 1 == |tup.versions|
  }

  /** A record is read once; what the transaction has read or written already is not. */
  predicate ReadOnce(a: Tx, b: Tx, key: Key, table: seq<Tuple>) {
    if InReads(a.rset, key) || HasKey(a.wset, key) then b.rset == a.rset else ReadNew(a, b, key, table)
  }

  /** Within this part of the run somebody else is to blame for an abort of executor `t`. */
  ghost predicate BlamedIn(run: seq<State>, from: nat, rs: seq<ReadItem>, ws: seq<WriteItem>, t: nat) {
    exists n :: from <= n < |run| && Theorems.Blamed(run[n].table, rs, ws, t)
  }

  /** `tid` was the TID of a record to be written within this part of the run. */
  ghost predicate TidMet(run: seq<State>, from: nat, ws: seq<WriteItem>, tid: Stamp) {
    exists n, w :: from <= n < |run| && w in ws && w.key < |run[n].table| && run[n].table[w.key].word.tid == tid
  }

  ghost predicate StaleIn(run: seq<State>, from: nat, rs: seq<ReadItem>, t: nat) {
    exists n, r :: from <= n < |run| && r in rs && Theorems.Stale(run[n].table, r, t)
  }

  /** `m` is the greatest of `from` and the TIDs of the first `n` reads. */
  ghost predicate Greatest(from: Stamp, rs: seq<ReadItem>, n: nat, m: Stamp)
    requires n <= |rs|
  {
    && !Before(m, from) && (forall j | 0 <= j < n :: !Before(m, rs[j].tid))
    && (m == from || exists j :: 0 <= j < n && m == rs[j].tid)
  }

  lemma GreatestNext(from: Stamp, rs: seq<ReadItem>, n: nat, m: Stamp, m': Stamp)
    requires n < |rs| && Greatest(from, rs, n, m) && !Before(m', m) && !Before(m', rs[n].tid) && (m' == m || m' == rs[n].tid)
    ensures Greatest(from, rs, n + 1, m')
  {
  }

  /** Before the TID is chosen: the greatest one read, and one met in the write set. */
  ghost predicate TidsGathered(a: Tx, b: Tx, run: seq<State>, from: nat) {
    Greatest(a.maxR, b.rset, |b.rset|, b.maxR) && (b.maxW == a.maxW || TidMet(run, from, b.wset, b.maxW))
  }

  /** The run ends with the global epoch moving on by one, from an epoch that every worker
      but 0 has published. */
  ghost predicate MovesOn(run: seq<State>) {
    && |run| >= 2
    && var s, s' := run[|run| - 2], run[|run| - 1];
       && s'.globalEpoch == s.globalEpoch + 1 && |s'.localEpoch| == |s'.txs|
       && forall u | 1 <= u < |s'.localEpoch| :: s'.localEpoch[u] == s.globalEpoch
  }

  lemma MovedOn(run: seq<State>, s': State)
    requires |run| > 0 && s'.globalEpoch == run[|run| - 1].globalEpoch + 1 && |s'.localEpoch| == |s'.txs|
    requires forall u | 1 <= u < |s'.localEpoch| :: s'.localEpoch[u] == run[|run| - 1].globalEpoch
    ensures MovesOn(run + [s'])
  {
  }

  /** Within this part of the run another executor has record `k` locked. */
  ghost predicate HeldIn(run: seq<State>, from: nat, k: Key, t: nat) {
    exists n :: from <= n < |run| && Theorems.LockedByOther(run[n].table, k, t)
  }

  lemma HeldLonger(run: seq<State>, run': seq<State>, from: nat, from': nat, k: Key, t: nat)
    requires HeldIn(run, from, k, t) && run <= run' && from' <= from
    ensures HeldIn(run', from', k, t)
  {
    var n :| from <= n < |run| && Theorems.LockedByOther(run[n].table, k, t);
    assert run'[n] == run[n];
  }

  lemma BlamedByLock(run: seq<State>, from: nat, n: nat, rs: seq<ReadItem>, ws: seq<WriteItem>, j: nat, t: nat)
    requires from <= n < |run| && j < |ws| && Theorems.LockedByOther(run[n].table, ws[j].key, t)
    ensures BlamedIn(run, from, rs, ws, t)
  {
    assert ws[j] in ws && Theorems.Blamed(run[n].table, rs, ws, t);
  }

  lemma BlamedForReads(run: seq<State>, from: nat, from': nat, rs: seq<ReadItem>, ws: seq<WriteItem>, t: nat)
    requires from' <= from && StaleIn(run, from, rs, t)
    ensures BlamedIn(run, from', rs, ws, t)
  {
    var n, r :| from <= n < |run| && r in rs && Theorems.Stale(run[n].table, r, t);
    assert Theorems.Blamed(run[n].table, rs, ws, t);
  }

  lemma SameItemsBlamed(run: seq<State>, from: nat, from': nat, rs: seq<ReadItem>, sorted: seq<WriteItem>, ws: seq<WriteItem>, t: nat)
    requires from' <= from && SortOf(ws, sorted) && BlamedIn(run, from, rs, sorted, t)
    ensures BlamedIn(run, from', rs, ws, t)
  {
    var n :| from <= n < |run| && Theorems.Blamed(run[n].table, rs, sorted, t);
    if w :| w in sorted && Theorems.LockedByOther(run[n].table, w.key, t) {
      assert w in multiset(sorted) && w in ws;
    }
    assert Theorems.Blamed(run[n].table, rs, ws, t);
  }

  lemma MetLonger(run: seq<State>, run': seq<State>, from: nat, ws: seq<WriteItem>, tid: Stamp)
    requires TidMet(run, from, ws, tid) && run <= run'
    ensures TidMet(run', from, ws, tid)
  {
    var n, w :| from <= n < |run| && w in ws && w.key < |run[n].table| && run[n].table[w.key].word.tid == tid;
    assert run'[n] == run[n];
  }

  lemma MetNext(run: seq<State>, run': seq<State>, from: nat, n: nat, ws: seq<WriteItem>, j: nat, start: Stamp, c: Stamp, c': Stamp)
    requires run <= run' && from <= n < |run'| && j < |ws| && ws[j].key < |run'[n].table|
    requires c == start || TidMet(run, from, ws, c)
    requires c' == c || c' == run'[n].table[ws[j].key].word.tid
    ensures c' == start || TidMet(run', from, ws, c')
  {
    if c' != c {
      assert ws[j] in ws;
    } else if c != start {
      MetLonger(run, run', from, ws, c);
    }
  }

  lemma MetEarlier(run: seq<State>, from: nat, from': nat, ws: seq<WriteItem>, tid: Stamp)
    requires TidMet(run, from, ws, tid) && from' <= from
    ensures TidMet(run, from', ws, tid)
  {
    var n, w :| from <= n < |run| && w in ws && w.key < |run[n].table| && run[n].table[w.key].word.tid == tid;
  }

  /** Within this part of the run some worker but 0 has not published the current epoch. */
  ghost predicate LaggardIn(run: seq<State>, from: nat) {
    exists n, u: nat :: from <= n < |run| && 1 <= u < |run[n].localEpoch| && run[n].localEpoch[u] != run[n].globalEpoch
  }

  /** Executor `t` passes its commit point within this part of the run. */
  ghost predicate CommitsIn(run: seq<State>, from: nat, t: nat) {
    exists i :: 0 < from <= i < |run| && t < |run[i - 1].txs| && Silo.Commit(run[i - 1], run[i], t)
  }

  class TxExecutor {
    const thid: nat
    var st: State
    ghost var run: seq<State>

    ghost predicate Valid()
      reads this
    {
      IsRun(run, Init, Next) && run[|run| - 1] == st && thid < |st.txs|
    }

    constructor (initial: State, thid: nat)
      requires Init(initial) && thid < |initial.txs|
      ensures Valid() && st == initial && this.thid == thid
    {
      this.thid := thid;
      st := initial;
      run := [initial];
    }

    lemma CommittedAreSerializable()
      requires Valid()
      ensures forall k | 0 <= k < |run[0].table| :: run[0].table[k].versions != []
      ensures Serializable(InitialTable(run[0]), st.commits)
    {
      Theorems.SiloSerializable(run, |run| - 1);
    }

    lemma Reachable()
      requires Valid()
      ensures Safety.TxInv(st.table, st.txs[thid], thid)
    {
      Safety.RunKeepsInv(run, |run| - 1);
    }

    lemma EpochsReachable()
      requires Valid()
      ensures |st.localEpoch| == |st.txs|
      ensures Epochs.WorkerInv(st.txs[thid], thid, st.globalEpoch, st.localEpoch, st.loads)
    {
      Epochs.RunKeepsEpochs(run, |run| - 1);
    }

    /** Any number of steps of the other executors: all that callers learn is that this
        executor's own data stay as they are. */
    method Others()
      requires Valid()
      modifies this
      ensures Valid() && st.txs[thid] == old(st.txs[thid]) && old(run) <= run
    {
    }

    lemma Allowed(next: State)
      requires Valid() && StepBy(st, next, thid)
      ensures IsRun(run + [next], Init, Next) && |next.txs| == |st.txs|
    {
      Longer(run, Init, Next, next);
      StepOwn(st, next, thid);
    }

    method Move(next: State)
      requires Valid() && IsRun(run + [next], Init, Next) && thid < |next.txs|
      modifies this
      ensures Valid() && st == next && run == old(run) + [next]
    {
      st := next;
      run := run + [next];
    }

    /** One atomic step of this executor. */
    method Step(next: State)
      requires Valid() && StepBy(st, next, thid)
      modifies this
      ensures Valid() && st == next && run == old(run) + [next]
    {
      Allowed(next);
      Move(next);
    }

    method Begin()
      requires Valid() && st.txs[thid].phase.Idle?
      modifies this
      ensures Valid() && old(run) <= run && st.txs[thid].phase.Executing? && st.txs[thid].rset == [] && st.txs[thid].wset == []
    {
      var begun := st.(txs := st.txs[thid := st.txs[thid].(phase := Executing, rset := [], wset := [],
                                                            maxW := Stamp(0, 0), maxR := Stamp(0, 0))]);
      assert Silo.Begin(st, begun, thid);
      Step(begun);
    }

    method SearchReadSet(key: Key) returns (found: bool)
      requires Valid()
      ensures found <==> InReads(st.txs[thid].rset, key)
    {
      var i := 0;
      var rs := st.txs[thid].rset;
      while i < |rs|
        invariant i <= |rs| && forall j | 0 <= j < i :: rs[j].key != key
      {
        if rs[i].key == key {
          return true;
        }
        i := i + 1;
      }
      return false;
    }

    /** read(): spins while the record is locked and copies until the word has not moved.
        The source spins for ever; `patience` bounds the attempts. */
    method Read(key: Key, patience: nat) returns (got: bool)
      requires Valid() && st.txs[thid].phase.Executing? && key < |st.table|
      modifies this
      ensures Valid() && old(run) <= run && st.txs[thid].wset == old(st.txs[thid].wset)
      ensures got ==> ReadOnce(old(st.txs[thid]), st.txs[thid], key, st.table)
      ensures got ==> st.txs[thid].phase.Executing?
      ensures !got ==> HeldIn(run, |old(run)| - 1, key, thid) || |run| >= |old(run)| + patience
      ensures got ==> HasKey(st.txs[thid].wset, key) || InReads(st.txs[thid].rset, key)
    {
      var inR := SearchReadSet(key);
      var inW := SearchWriteSet(st.txs[thid].wset, key);
      if inR || inW {
        return true;
      }
      assert ReadStart(st, SetPhase(st, thid, Spinning(key)), thid, key);
      Step(SetPhase(st, thid, Spinning(key)));
      var n := patience;
      ghost var from := |old(run)| - 1;
      while n > 0
        invariant Valid() && old(run) <= run && OnlyPhase(old(st.txs[thid]), st.txs[thid])
        invariant st.txs[thid].phase == Spinning(key) || (st.txs[thid].phase.Loaded? && st.txs[thid].phase.key == key)
        invariant n <= patience && (HeldIn(run, from, key, thid) || |run| >= |old(run)| + (patience - n))
      {
        n := n - 1;
        ghost var before := run;
        got := TryRead(key);
        if got {
          return true;
        }
        if HeldIn(before, from, key, thid) {
          HeldLonger(before, run, from, from, key, thid);
        } else if HeldIn(run, |before| - 1, key, thid) {
          HeldLonger(run, run, |before| - 1, from, key, thid);
        }
      }
      return false;
    }

    /** One turn: fails while another executor has the record locked, or when the word moves. */
    method TryRead(key: Key) returns (got: bool)
      requires Valid() && (st.txs[thid].phase == Spinning(key) || (st.txs[thid].phase.Loaded? && st.txs[thid].phase.key == key))
      modifies this
      ensures Valid() && old(run) <= run && st.txs[thid].wset == old(st.txs[thid].wset)
      ensures if got then ReadNew(old(st.txs[thid]), st.txs[thid], key, st.table) else OnlyPhase(old(st.txs[thid]), st.txs[thid])
      ensures got ==> st.txs[thid].phase.Executing? && InReads(st.txs[thid].rset, key)
      ensures !got ==> st.txs[thid].phase == Spinning(key) || (st.txs[thid].phase.Loaded? && st.txs[thid].phase.key == key)
      ensures !got ==> HeldIn(run, |old(run)| - 1, key, thid) || |run| > |old(run)|
    {
      Others();
      if st.txs[thid].phase.Spinning? {
        var waiting := LoadWord(key);
        if waiting {
          assert run[|run| - 1] == st;
          return false;
        }
        Others();
      }
      got := CopyPayload(key);
    }

    /** Loads the word of a record unless it is locked. */
    method LoadWord(key: Key) returns (waiting: bool)
      requires Valid() && st.txs[thid].phase == Spinning(key)
      modifies this
      ensures Valid() && old(run) <= run && OnlyPhase(old(st.txs[thid]), st.txs[thid])
      ensures if waiting then st.txs[thid].phase == Spinning(key) && run == old(run) && Theorems.LockedByOther(st.table, key, thid)
              else |run| > |old(run)| && st.txs[thid].phase.Loaded? && st.txs[thid].phase.key == key
    {
      Reachable();
      var w := st.table[key].word;
      waiting := w.lock;
      if waiting {
        LockedBySomebody(key);
      } else {
        assert ReadLoad(st, SetPhase(st, thid, Loaded(key, w)), thid);
        Step(SetPhase(st, thid, Loaded(key, w)));
      }
    }

    lemma LockedBySomebody(key: Key)
      requires Valid() && st.txs[thid].phase == Spinning(key) && key < |st.table| && st.table[key].word.lock
      ensures Theorems.LockedByOther(st.table, key, thid)
    {
      Safety.RunKeepsInv(run, |run| - 1);
      assert Safety.TupleInv(st.table[key]) && Safety.TxInv(st.table, st.txs[thid], thid);
      assert !Safety.Holds(st.txs[thid], key);
    }

    /** Copies the payload and looks at the word again. */
    method CopyPayload(key: Key) returns (got: bool)
      requires Valid() && st.txs[thid].phase.Loaded? && st.txs[thid].phase.key == key
      modifies this
      ensures Valid() && old(run) <= run && st.txs[thid].wset == old(st.txs[thid].wset)
      ensures if got then ReadNew(old(st.txs[thid]), st.txs[thid], key, st.table) else OnlyPhase(old(st.txs[thid]), st.txs[thid])
      ensures got ==> st.txs[thid].phase.Executing? && InReads(st.txs[thid].rset, key)
      ensures |run| > |old(run)|
      ensures !got ==> st.txs[thid].phase == Spinning(key) || (st.txs[thid].phase.Loaded? && st.txs[thid].phase.key == key)
    {
      Reachable();
      TupleReachable(key);
      var tup, expected := st.table[key], st.txs[thid].phase.expected;
      var copied := SetPhase(st, thid, Copied(key, expected, tup.val, |tup.versions| - 1));
      assert ReadCopy(st, copied, thid);
      Step(copied);
      Others();
      Reachable();
      var again := st.table[key].word;
      if expected == again {
        FinishRead(key);
        return true;
      }
      var next := SetPhase(st, thid, if again.lock then Spinning(key) else Loaded(key, again));
      assert ReadAgain(st, next, thid);
      Step(next);
      return false;
    }

    /** The word has not moved since it was loaded: the copy becomes a read. */
    method FinishRead(key: Key)
      requires Valid() && st.txs[thid].phase.Copied? && st.txs[thid].phase.key == key
      requires key < |st.table| && st.table[key].word == st.txs[thid].phase.expected
      modifies this
      ensures Valid() && old(run) <= run && st.txs[thid].wset == old(st.txs[thid].wset)
      ensures ReadNew(old(st.txs[thid]), st.txs[thid], key, st.table)
      ensures st.txs[thid].phase.Executing? && InReads(st.txs[thid].rset, key)
    {
      CopyStands(key);
      var tx, p := st.txs[thid], st.txs[thid].phase;
      var item := ReadItem(key, p.expected.tid, p.val, p.ver);
      var done := st.(txs := st.txs[thid := tx.(phase := Executing, rset := tx.rset + [item])]);
      assert ReadDone(st, done, thid);
      Step(done);
      assert st.txs[thid].rset[|tx.rset|] == item;
    }

    /** What was copied while the word stood still is the newest committed version. */
    lemma CopyStands(key: Key)
      requires Valid() && st.txs[thid].phase.Copied? && st.txs[thid].phase.key == key
      requires key < |st.table| && st.table[key].word == st.txs[thid].phase.expected
      ensures !st.table[key].word.lock && st.txs[thid].phase.val == st.table[key].val
      ensures st.txs[thid].phase.ver + 1 == |st.table[key].versions|
    {
      Safety.RunKeepsInv(run, |run| - 1);
      assert Safety.TupleInv(st.table[key]) && Safety.TxInv(st.table, st.txs[thid], thid);
    }

    lemma TupleReachable(key: Key)
      requires Valid() && key < |st.table|
      ensures |st.table[key].versions| > 0
    {
      Safety.RunKeepsInv(run, |run| - 1);
      assert Safety.TupleInv(st.table[key]);
    }

    method Write(key: Key, val: Val)
      requires Valid() && st.txs[thid].phase.Executing? && key < |st.table|
      modifies this
      ensures Valid() && old(run) <= run && st.txs[thid].phase.Executing? && st.txs[thid].rset == old(st.txs[thid].rset)
      ensures st.txs[thid].wset == if HasKey(old(st.txs[thid].wset), key) then old(st.txs[thid].wset)
                                   else old(st.txs[thid].wset) + [WriteItem(key, val)]
    {
      var inW := SearchWriteSet(st.txs[thid].wset, key);
      if inW {
        return;
      }
      var tx := st.txs[thid];
      var written := st.(txs := st.txs[thid := tx.(wset := tx.wset + [WriteItem(key, val)])]);
      assert Silo.Write(st, written, thid, key, val);
      Step(written);
    }

    /** unlockWriteSet(): the first `end` elements of the write set are locked. */
    method UnlockWriteSet()
      requires Valid() && st.txs[thid].phase.Unlocking? && st.txs[thid].phase.i == 0
      modifies this
      ensures Valid() && st.txs[thid].phase.Idle? && old(run) <= run
      ensures forall k | 0 <= k < |st.table| :: st.table[k].owner != thid
    {
      ghost var end := st.txs[thid].phase.end;
      var i := 0;
      while i < st.txs[thid].phase.end
        invariant Valid() && old(run) <= run && i <= end
        invariant st.txs[thid].phase == Unlocking(i, end)
        decreases end - i
      {
        Others();
        UnlockOne(i);
        i := i + 1;
      }
      Others();
      assert Aborted(st, SetPhase(st, thid, Idle), thid);
      Step(SetPhase(st, thid, Idle));
      IdleHoldsNothing();
    }

    /** A plain load and a plain store of the word of write item `i`. */
    method UnlockOne(i: nat)
      requires Valid() && st.txs[thid].phase.Unlocking? && st.txs[thid].phase.i == i < st.txs[thid].phase.end
      modifies this
      ensures Valid() && old(run) <= run
      ensures st.txs[thid].phase == Unlocking(i + 1, old(st.txs[thid].phase.end))
    {
      Reachable();
      var k, end := st.txs[thid].wset[i].key, st.txs[thid].phase.end;
      var loaded := SetPhase(st, thid, UnlockLoaded(i, end, st.table[k].word));
      assert UnlockLoad(st, loaded, thid);
      Step(loaded);
      Others();
      Reachable();
      var tx := st.txs[thid];
      var stored := st.(table := st.table[k := st.table[k].(word := tx.phase.word.(lock := false), owner := -1)],
                        txs := st.txs[thid := tx.(phase := Unlocking(i + 1, end))]);
      assert UnlockStore(st, stored, thid);
      Step(stored);
    }

    /** lockWriteSet(): no-wait locking in key order. */
    method LockWriteSet() returns (ok: bool)
      requires Valid() && st.txs[thid].phase.Executing?
      modifies this
      ensures Valid() && old(run) <= run
      ensures ok ==> st.txs[thid].phase == Locking(|st.txs[thid].wset|)
      ensures !ok ==> st.txs[thid].phase.Idle? && forall k | 0 <= k < |st.table| :: st.table[k].owner != thid
      ensures !ok ==> BlamedIn(run, |old(run)| - 1, old(st.txs[thid].rset), old(st.txs[thid].wset), thid)
      ensures ok ==> st.txs[thid].rset == old(st.txs[thid].rset) && st.txs[thid].maxR == old(st.txs[thid].maxR)
      ensures ok ==> st.txs[thid].maxW == old(st.txs[thid].maxW) || TidMet(run, |old(run)| - 1, st.txs[thid].wset, st.txs[thid].maxW)
      ensures ok ==> SortOf(old(st.txs[thid].wset), st.txs[thid].wset)
      ensures ok ==> forall j | 0 <= j < |st.txs[thid].wset| ::
                       var k := st.txs[thid].wset[j].key; k < |st.table| && st.table[k].owner == thid
    {
      var sorted := SortWriteSet(st.txs[thid].wset);
      var started := st.(txs := st.txs[thid := st.txs[thid].(phase := Locking(0), wset := sorted)]);
      assert SortWrites(st, started, thid, sorted);
      Step(started);
      ghost var from := |run| - 1;
      ok := LockSorted();
      if ok {
        AllLocked();
        if st.txs[thid].maxW != old(st.txs[thid].maxW) {
          MetEarlier(run, from, |old(run)| - 1, sorted, st.txs[thid].maxW);
        }
      } else {
        SameItemsBlamed(run, from, |old(run)| - 1, old(st.txs[thid].rset), sorted, old(st.txs[thid].wset), thid);
        IdleHoldsNothing();
      }
    }

    /** Locks the sorted write set from its first element on. */
    method LockSorted() returns (ok: bool)
      requires Valid() && st.txs[thid].phase == Locking(0)
      modifies this
      ensures Valid() && old(run) <= run
      ensures ok ==> st.txs[thid] == old(st.txs[thid]).(phase := Locking(|st.txs[thid].wset|), maxW := st.txs[thid].maxW)
      ensures ok ==> st.txs[thid].maxW == old(st.txs[thid].maxW) || TidMet(run, |old(run)| - 1, st.txs[thid].wset, st.txs[thid].maxW)
      ensures !ok ==> st.txs[thid].phase.Idle?
      ensures !ok ==> BlamedIn(run, |old(run)| - 1, old(st.txs[thid].rset), old(st.txs[thid].wset), thid)
    {
      var i := 0;
      ghost var tx, from := st.txs[thid], |run| - 1;
      while i < |st.txs[thid].wset|
        invariant Valid() && old(run) <= run && i <= |tx.wset|
        invariant st.txs[thid] == tx.(phase := Locking(i), maxW := st.txs[thid].maxW)
        invariant st.txs[thid].maxW == tx.maxW || TidMet(run, from, tx.wset, st.txs[thid].maxW)
        decreases |tx.wset| - i
      {
        ghost var before := run;
        Others();
        ghost var n, maxW := |run| - 1, st.txs[thid].maxW;
        ok := LockItem(i);
        if !ok {
          BlamedByLock(run, from, n, tx.rset, tx.wset, i, thid);
          return;
        }
        MetNext(before, run, from, n, tx.wset, i, tx.maxW, maxW, st.txs[thid].maxW);
        i := i + 1;
      }
      return true;
    }

    lemma AllLocked()
      requires Valid() && st.txs[thid].phase == Locking(|st.txs[thid].wset|)
      ensures forall j | 0 <= j < |st.txs[thid].wset| ::
                var k := st.txs[thid].wset[j].key; k < |st.table| && st.table[k].owner == thid
    {
      Reachable();
      forall j | 0 <= j < |st.txs[thid].wset|
        ensures var k := st.txs[thid].wset[j].key; k < |st.table| && st.table[k].owner == thid
      {
        assert Safety.Holds(st.txs[thid], st.txs[thid].wset[j].key);
      }
    }

    method LockItem(i: nat) returns (ok: bool)
      requires Valid() && st.txs[thid].phase == Locking(i) && i < |st.txs[thid].wset|
      modifies this
      ensures Valid() && old(run) <= run
      ensures ok ==> st.txs[thid] == old(st.txs[thid]).(phase := Locking(i + 1), maxW := st.txs[thid].maxW)
      ensures ok ==> var k := old(st.txs[thid].wset[i].key);
                       && k < |old(st.table)| && !Before(st.txs[thid].maxW, old(st.txs[thid].maxW))
                       && (st.txs[thid].maxW == old(st.txs[thid].maxW) || st.txs[thid].maxW == old(st.table)[k].word.tid)
      ensures !ok ==> st.txs[thid].phase.Idle? && Theorems.LockedByOther(old(st.table), old(st.txs[thid].wset[i].key), thid)
    {
      Reachable();
      var tx, k := st.txs[thid], st.txs[thid].wset[i].key;
      if st.table[k].word.lock {
        assert LockFail(st, SetPhase(st, thid, Unlocking(0, i)), thid);
        Theorems.LockOutcome(run, |run| - 1, SetPhase(st, thid, Unlocking(0, i)), thid);
        Step(SetPhase(st, thid, Unlocking(0, i)));
        UnlockWriteSet();
        return false;
      }
      var locked := st.(table := st.table[k := st.table[k].(word := st.table[k].word.(lock := true), owner := thid, lockedAt := st.clock)],
                        txs := st.txs[thid := tx.(phase := Locking(i + 1), maxW := MaxTid(tx.maxW, st.table[k].word.tid))],
                        clock := st.clock + 1);
      assert LockOne(st, locked, thid);
      Step(locked);
      return true;
    }

    /** The serialization point, and the publication of the epoch loaded there. */
    method PublishEpoch()
      requires Valid() && st.txs[thid].phase == Locking(|st.txs[thid].wset|)
      modifies this
      ensures Valid() && old(run) <= run && thid < |st.localEpoch| && st.localEpoch[thid] == st.txs[thid].epoch
      ensures st.txs[thid] == old(st.txs[thid]).(phase := Validating(0), epoch := st.txs[thid].epoch, ser := st.txs[thid].ser)
    {
      var loaded := st.(txs := st.txs[thid := st.txs[thid].(phase := EpochLoaded, epoch := st.globalEpoch, ser := st.clock)],
                        loads := st.loads[st.clock := st.globalEpoch], clock := st.clock + 1);
      assert LoadEpoch(st, loaded, thid);
      Step(loaded);
      Others();
      EpochsReachable();
      var stored := st.(localEpoch := st.localEpoch[thid := st.txs[thid].epoch],
                        txs := st.txs[thid := st.txs[thid].(phase := Validating(0))]);
      assert StoreEpoch(st, stored, thid);
      Step(stored);
    }

    lemma IdleHoldsNothing()
      requires Valid() && st.txs[thid].phase.Idle?
      ensures forall k | 0 <= k < |st.table| :: st.table[k].owner != thid
    {
      Reachable();
    }

    /** validationPhase(): every read is certified and the write set stays locked, or nothing
        of the transaction is left locked and somebody else is to blame. */
    method ValidationPhase() returns (ok: bool)
      requires Valid() && st.txs[thid].phase.Executing?
      modifies this
      ensures Valid() && old(run) <= run
      ensures ok ==> st.txs[thid].phase == Validating(|st.txs[thid].rset|)
      ensures ok ==> forall j | 0 <= j < |st.txs[thid].rset| ::
                       var r := st.txs[thid].rset[j]; r.key < |st.table| && Safety.Certified(st.table, st.txs[thid], r)
      ensures ok ==> st.txs[thid].rset == old(st.txs[thid].rset) && TidsGathered(old(st.txs[thid]), st.txs[thid], run, |old(run)| - 1)
      ensures !ok ==> st.txs[thid].phase.Idle? && forall k | 0 <= k < |st.table| :: st.table[k].owner != thid
      ensures !ok ==> BlamedIn(run, |old(run)| - 1, old(st.txs[thid].rset), old(st.txs[thid].wset), thid)
    {
      ok := LockWriteSet();
      if !ok {
        return;
      }
      ghost var locked, tx := run, st.txs[thid];
      Others();
      PublishEpoch();
      ok := ValidateReads();
      if ok {
        Reachable();
        if tx.maxW != old(st.txs[thid].maxW) {
          MetLonger(locked, run, |old(run)| - 1, tx.wset, tx.maxW);
        }
      } else {
        BlamedForReads(run, |locked| - 1, |old(run)| - 1, tx.rset, old(st.txs[thid].wset), thid);
        IdleHoldsNothing();
      }
    }

    method ValidateReads() returns (ok: bool)
      requires Valid() && st.txs[thid].phase == Validating(0)
      modifies this
      ensures Valid() && old(run) <= run
      ensures ok ==> st.txs[thid] == old(st.txs[thid]).(phase := Validating(|st.txs[thid].rset|), maxR := st.txs[thid].maxR)
      ensures ok ==> Greatest(old(st.txs[thid].maxR), st.txs[thid].rset, |st.txs[thid].rset|, st.txs[thid].maxR)
      ensures !ok ==> st.txs[thid].phase.Idle?
      ensures !ok ==> StaleIn(run, |old(run)| - 1, old(st.txs[thid].rset), thid)
    {
      var i := 0;
      ghost var tx := st.txs[thid];
      while i < |st.txs[thid].rset|
        invariant Valid() && old(run) <= run && i <= |tx.rset|
        invariant st.txs[thid] == tx.(phase := Validating(i), maxR := st.txs[thid].maxR)
        invariant Greatest(tx.maxR, tx.rset, i, st.txs[thid].maxR)
        decreases |tx.rset| - i
      {
        Others();
        ghost var n, maxR := |run| - 1, st.txs[thid].maxR;
        ok := ValidateItem(i);
        if !ok {
          assert tx.rset[i] in tx.rset && Theorems.Stale(run[n].table, tx.rset[i], thid);
          return;
        }
        GreatestNext(tx.maxR, tx.rset, i, maxR, st.txs[thid].maxR);
        i := i + 1;
      }
      return true;
    }

    method ValidateItem(i: nat) returns (ok: bool)
      requires Valid() && st.txs[thid].phase == Validating(i) && i < |st.txs[thid].rset|
      modifies this
      ensures Valid() && old(run) <= run
      ensures ok ==> st.txs[thid] == old(st.txs[thid]).(phase := Validating(i + 1), maxR := st.txs[thid].maxR)
      ensures ok ==> !Before(st.txs[thid].maxR, old(st.txs[thid].maxR)) && !Before(st.txs[thid].maxR, old(st.txs[thid].rset[i].tid))
      ensures ok ==> st.txs[thid].maxR == old(st.txs[thid].maxR) || st.txs[thid].maxR == old(st.txs[thid].rset[i].tid)
      ensures !ok ==> st.txs[thid].phase.Idle? && Theorems.Stale(old(st.table), old(st.txs[thid].rset[i]), thid)
    {
      Reachable();
      var tx := st.txs[thid];
      var r := tx.rset[i];
      var check := st.table[r.key].word;
      var inW := SearchWriteSet(tx.wset, r.key);
      if check.tid != r.tid || (check.lock && !inW) {
        assert ValidateFail(st, SetPhase(st, thid, Unlocking(0, |tx.wset|)), thid);
        Theorems.ValidationOutcome(run, |run| - 1, SetPhase(st, thid, Unlocking(0, |tx.wset|)), thid);
        Step(SetPhase(st, thid, Unlocking(0, |tx.wset|)));
        UnlockWriteSet();
        return false;
      }
      var validated := st.(txs := st.txs[thid := tx.(phase := Validating(i + 1), maxR := MaxTid(tx.maxR, check.tid))]);
      assert ValidateOk(st, validated, thid);
      Step(validated);
      return true;
    }

    /** The commit TID is chosen: greater than everything met, in the published epoch. */
    method Decide()
      requires Valid() && st.txs[thid].phase == Validating(|st.txs[thid].rset|)
      modifies this
      ensures Valid() && run == old(run) + [st] && st.txs[thid].phase == Writing(0)
      ensures Stamp(old(st.txs[thid].ser), 0) in st.commits
      ensures st.txs[thid].mrctid.major == st.txs[thid].epoch && Before(old(st.txs[thid].mrctid), st.txs[thid].mrctid)
      ensures Silo.Commit(old(st), st, thid)
      ensures Before(old(st.txs[thid].maxW), st.txs[thid].mrctid) && Before(old(st.txs[thid].maxR), st.txs[thid].mrctid)
      ensures forall y | Before(old(st.txs[thid].maxW), y) && Before(old(st.txs[thid].maxR), y)
                         && Before(old(st.txs[thid].mrctid), y) && y.major >= st.txs[thid].epoch :: !Before(y, st.txs[thid].mrctid)
    {
      Reachable();
      EpochsReachable();
      var tx := st.txs[thid];
      var committed := st.(txs := st.txs[thid := tx.(phase := Writing(0), mrctid := CommitTid(tx, st.localEpoch[thid]))],
                           commits := st.commits[Stamp(tx.ser, 0) := Txn(ReadMap(tx.rset), WriteMap(tx.wset))],
                           sources := st.sources[Stamp(tx.ser, 0) := SourceMap(tx.rset)]);
      assert Commit(st, committed, thid);
      Step(committed);
      forall y | Before(tx.maxW, y) && Before(tx.maxR, y) && Before(tx.mrctid, y) && y.major >= tx.epoch
        ensures !Before(y, st.txs[thid].mrctid)
      {
        Theorems.CommitTidIsLeast(tx, tx.epoch, y);
      }
      EpochsReachable();
    }

    /** Payload, then the word with the commit TID, of write item `i`. */
    method WriteItemOut(i: nat)
      requires Valid() && st.txs[thid].phase == Writing(i) && i < |st.txs[thid].wset|
      modifies this
      ensures Valid() && old(run) <= run && st.txs[thid] == old(st.txs[thid]).(phase := Writing(i + 1))
      ensures var w := st.txs[thid].wset[i];
              w.key < |st.table| && st.table[w.key].word == Word(false, st.txs[thid].mrctid) && st.table[w.key].val == w.val
    {
      Reachable();
      var tx := st.txs[thid];
      var k := tx.wset[i].key;
      var stored := st.(table := st.table[k := st.table[k].(val := tx.wset[i].val, dirty := true)],
                        txs := st.txs[thid := tx.(phase := Stored(i))]);
      assert StorePayload(st, stored, thid);
      Step(stored);
      Others();
      Reachable();
      var tup := st.table[k];
      var worded := st.(table := st.table[k := Tuple(Word(false, tx.mrctid), tup.val, -1, tup.lockedAt, false,
                                                     tup.versions + [Version(tx.mrctid, tx.ser, tx.wset[i].val)])],
                        txs := st.txs[thid := tx.(phase := Writing(i + 1))]);
      assert StoreWord(st, worded, thid);
      Step(worded);
    }

    /** writePhase(): record by record. */
    method WritePhase()
      requires Valid() && st.txs[thid].phase == Validating(|st.txs[thid].rset|)
      modifies this
      ensures Valid() && |old(run)| < |run| && old(run) <= run && st.txs[thid].phase.Idle?
      ensures forall k | 0 <= k < |st.table| :: st.table[k].owner != thid
      ensures Stamp(old(st.txs[thid].ser), 0) in run[|old(run)|].commits
      ensures CommitsIn(run, |old(run)|, thid)
    {
      Decide();
      ghost var decided := run;
      assert decided[|old(run)|] == st;
      var i := 0;
      while i < |st.txs[thid].wset|
        invariant Valid() && decided <= run && i <= |st.txs[thid].wset| && st.txs[thid].phase == Writing(i)
        decreases |st.txs[thid].wset| - i
      {
        Others();
        WriteItemOut(i);
        i := i + 1;
      }
      assert run[|old(run)|] == decided[|old(run)|] && run[|old(run)| - 1] == decided[|old(run)| - 1];
      Others();
      assert Finish(st, SetPhase(st, thid, Idle), thid);
      Step(SetPhase(st, thid, Idle));
      IdleHoldsNothing();
    }

    /** A transaction's end: commit it, or leave no lock behind. */
    method CommitOrAbort() returns (ok: bool)
      requires Valid() && st.txs[thid].phase.Executing?
      modifies this
      ensures Valid() && old(run) <= run && st.txs[thid].phase.Idle?
      ensures forall k | 0 <= k < |st.table| :: st.table[k].owner != thid
      ensures (forall k | 0 <= k < |run[0].table| :: run[0].table[k].versions != []) && Serializable(InitialTable(run[0]), st.commits)
      ensures ok ==> CommitsIn(run, |old(run)|, thid)
      ensures !ok ==> BlamedIn(run, |old(run)| - 1, old(st.txs[thid].rset), old(st.txs[thid].wset), thid)
    {
      ok := ValidationPhase();
      if ok {
        WritePhase();
      }
      CommittedAreSerializable();
    }

    // ------------------------------------------------------ the epoch leader

    method BeginScan() returns (now: nat)
      requires Valid() && thid == 0 && st.txs[thid].phase.Idle?
      modifies this
      ensures Valid() && old(run) <= run && |st.localEpoch| == |st.txs| && st.txs[thid].phase == Scanning(1, now)
      ensures now == st.globalEpoch
    {
      EpochsReachable();
      now := st.globalEpoch;
      assert ScanStart(st, SetPhase(st, thid, Scanning(1, now)), thid);
      Step(SetPhase(st, thid, Scanning(1, now)));
    }

    /** Looks at the epoch one worker has published. */
    method ScanOne(i: nat, now: nat) returns (ok: bool)
      requires Valid() && st.txs[thid].phase == Scanning(i, now) && i < |st.localEpoch| == |st.txs|
      modifies this
      ensures Valid() && old(run) <= run && |st.localEpoch| == |st.txs| == old(|st.txs|)
      ensures ok <==> i < |old(st.localEpoch)| && old(st.localEpoch)[i] == now
      ensures st.txs[thid].phase == if ok then Scanning(i + 1, now) else Idle
    {
      ok := st.localEpoch[i] == now;
      var next := SetPhase(st, thid, if ok then Scanning(i + 1, now) else Idle);
      assert ScanNext(st, next, thid);
      Step(next);
    }

    method Advance()
      requires Valid() && st.txs[thid].phase.Scanning? && st.txs[thid].phase.i >= |st.localEpoch| == |st.txs|
      modifies this
      ensures Valid() && run == old(run) + [st] && st == SetPhase(old(st), thid, Idle).(globalEpoch := old(st.globalEpoch) + 1)
    {
      var added := SetPhase(st, thid, Idle).(globalEpoch := st.globalEpoch + 1);
      assert AddEpoch(st, added, thid);
      Step(added);
    }

    /** Looks at every other worker in turn. */
    method ScanAll(now: nat) returns (ok: bool)
      requires Valid() && st.txs[thid].phase == Scanning(1, now) && |st.localEpoch| == |st.txs|
      modifies this
      ensures Valid() && old(run) <= run && |st.localEpoch| == |st.txs|
      ensures !ok ==> st.txs[thid].phase.Idle? && LaggardIn(run, |old(run)| - 1)
      ensures ok ==> st.txs[thid].phase.Scanning? && st.txs[thid].phase.i >= |st.localEpoch|
    {
      var i := 1;
      ghost var n := |st.localEpoch|;
      while i < |st.localEpoch|
        invariant Valid() && old(run) <= run && 1 <= i && |st.localEpoch| == |st.txs| == n
        invariant st.txs[thid].phase == Scanning(i, now)
        decreases n - i
      {
        OthersSameWorkers();
        ScanningNow();
        ghost var m := |run| - 1;
        ok := ScanOne(i, now);
        if !ok {
          assert run[m].localEpoch[i] != run[m].globalEpoch;
          return;
        }
        i := i + 1;
      }
      return true;
    }

    /** chkEpochLoaded(). */
    method CheckEpochLoaded() returns (ok: bool)
      requires Valid() && thid == 0 && st.txs[thid].phase.Idle?
      modifies this
      ensures Valid() && old(run) <= run && |st.localEpoch| == |st.txs|
      ensures !ok ==> st.txs[thid].phase.Idle? && LaggardIn(run, |old(run)| - 1)
      ensures ok ==> st.txs[thid].phase.Scanning? && st.txs[thid].phase.i >= |st.localEpoch|
      ensures ok ==> forall u | 1 <= u < |st.txs| :: st.localEpoch[u] == st.globalEpoch
    {
      var now := BeginScan();
      ok := ScanAll(now);
      if ok {
        ScanIsComplete();
      }
    }

    /** leaderWork(): the global epoch moves on only when every other worker has published
        the current one, however they run meanwhile. */
    method LeaderWork() returns (advanced: bool)
      requires Valid() && thid == 0 && st.txs[thid].phase.Idle?
      modifies this
      ensures Valid() && old(run) <= run && st.txs[thid].phase.Idle?
      ensures !advanced ==> LaggardIn(run, |old(run)| - 1)
      ensures advanced ==> MovesOn(run)
    {
      advanced := CheckEpochLoaded();
      if advanced {
        AdvanceEpoch();
      }
    }

    method AdvanceEpoch()
      requires Valid() && st.txs[thid].phase.Scanning? && st.txs[thid].phase.i >= |st.localEpoch| == |st.txs|
      modifies this
      ensures Valid() && old(run) <= run && st.txs[thid].phase.Idle?
      ensures MovesOn(run)
    {
      OthersSameWorkers();
      ScanIsComplete();
      ghost var before := run;
      Advance();
      MovedOn(before, st);
    }

    lemma ScanningNow()
      requires Valid() && st.txs[thid].phase.Scanning?
      ensures st.txs[thid].phase.now == st.globalEpoch
    {
      EpochsReachable();
    }

    /** The number of workers never changes. */
    method OthersSameWorkers()
      requires Valid() && |st.localEpoch| == |st.txs|
      modifies this
      ensures Valid() && st.txs[thid] == old(st.txs[thid]) && old(run) <= run
      ensures |st.localEpoch| == |st.txs| == old(|st.txs|)
    {
    }

    lemma ScanIsComplete()
      requires Valid() && st.txs[thid].phase.Scanning? && st.txs[thid].phase.i >= |st.localEpoch| && |st.localEpoch| == |st.txs|
      ensures forall u | 1 <= u < |st.txs| :: st.localEpoch[u] == st.globalEpoch
    {
      Epochs.RunKeepsEpochs(run, |run| - 1);
      forall u | 1 <= u < |st.txs| ensures st.localEpoch[u] == st.globalEpoch {
        Epochs.ScanComplete(st, thid, u);
      }
    }
  }
}
