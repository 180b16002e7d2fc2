/** Cicada's executor as the repository writes it: loops that search, install, raise, scan,
    check, commit, clean up and collect.  Other executors may run between any two atomic
    steps; every call leaves a run of the step relation, so that the theorems about runs
    speak of this code.  The source spins on pending versions and on failed
    compare-and-swaps for ever; `patience` bounds the attempts. */
module CicadaExecutor {
  import opened SerialExecution
  import opened Runs
  import opened Cicada
  import opened CicadaInvariant
  import opened CicadaThreads
  import opened CicadaLists
  import opened CicadaSearches
  import opened CicadaHistory
  import opened CicadaSerializability
  import CicadaTheorems
  import opened CicadaFrames
  import Growth = CicadaGrowth
  import opened CicadaAborts

  datatype Outcome = Proceed | MustAbort | GaveUp

  lemma SwapKeeps(ws: seq<WriteElement>, i: nat, m: nat)
    requires i < |ws| && m < |ws|
    ensures multiset(ws[i := ws[m]][m := ws[i]]) == multiset(ws)
  {
    if i == m {
      assert ws[i := ws[m]][m := ws[i]] == ws;
    }
  }

  /** A least key from position `i` on. */
  method LeastFrom(ws: seq<WriteElement>, i: nat) returns (m: nat)
    requires i < |ws|
    ensures i <= m < |ws| && forall j | i <= j < |ws| :: ws[m].key <= ws[j].key
  {
    m := i;
    var j := i + 1;
    while j < |ws|
      invariant i < j <= |ws| && i <= m < |ws| && forall x | i <= x < j :: ws[m].key <= ws[x].key
    {
      if ws[j].key < ws[m].key {
        m := j;
      }
      j := j + 1;
    }
  }

  /** partial_sort() of the first half of the write set. */
  method PartialSortWrites(ws: seq<WriteElement>) returns (sorted: seq<WriteElement>)
    ensures PartialSort(ws, sorted)
  {
    sorted := ws;
    var i := 0;
    while i < |sorted| / 2
      invariant |sorted| == |ws| && i <= |sorted| / 2 && multiset(sorted) == multiset(ws)
      invariant forall a, b | 0 <= a < i && a < b < |sorted| :: sorted[a].key <= sorted[b].key
    {
      var m := LeastFrom(sorted, i);
      SwapKeeps(sorted, i, m);
      sorted := sorted[i := sorted[m]][m := sorted[i]];
      i := i + 1;
    }
  }

  /** A new element for `key`, to store `val`, ends the write set. */
  predicate WroteNew(ws: seq<WriteElement>, ws': seq<WriteElement>, key: Key, val: Val) {
    && |ws'| == |ws| + 1 && ws'[..|ws|] == ws && ws'[|ws|].key == key && ws'[|ws|].val == val && !ws'[|ws|].installed
  }

  /** A new element ends the read set: it names a committed version and what that holds. */
  predicate ReadNew(rs: seq<ReadElement>, rs': seq<ReadElement>, key: Key, h: seq<Version>) {
    && |rs'| == |rs| + 1 && rs'[..|rs|] == rs
    && var r := rs'[|rs|];
       && r.key == key && Valid(h, r.ver) && h[r.ver].status.Committed? && h[r.ver].wts == r.wts && h[r.ver].val == r.val
  }

  /** Version `v` is the last of the executor's pool, else a new one; it is pending, carries
      the executor's timestamp, belongs to its write set, and no other version has changed. */
  predicate TakenFrom(a: State, b: State, t: nat, v: int)
    requires t < |a.thr| && t < |b.thr|
  {
    var pool := a.thr[t].pool;
    && Valid(b.heap, v) && b.heap[v] == FreshVersion(a.thr[t].ts, t)
    && (if pool == [] then v == |a.heap| && |b.heap| == |a.heap| + 1 && b.thr[t].pool == []
        else v == pool[|pool| - 1] && |b.heap| == |a.heap| && b.thr[t].pool == pool[..|pool| - 1])
    && forall u | 0 <= u < |a.heap| && u != v :: u < |b.heap| && b.heap[u] == a.heap[u]
  }

  /** A snapshot read of `key` has been recorded: it got the newest version committed at or
      below the snapshot. */
  ghost predicate SnapTaken(s: State, rts: nat, key: Key) {
    exists v: int ::
      && On(s.heap, v, key) && s.heap[v].status.Committed? && s.heap[v].wts <= rts
      && Snap(rts, key, s.heap[v].wts, s.heap[v].val) in s.snaps
      && forall u: int | On(s.heap, u, key) && s.heap[u].status.Committed? && s.heap[u].wts <= rts :: s.heap[u].wts <= s.heap[v].wts
  }

  /** What a read of `tx` has left above it within its bound is aborted, or was installed
      after the read began. */
  ghost predicate Passed(s: State, k: Key, tx: Executor, began: nat) {
    && began <= s.clock && Reading(tx.phase) && Valid(s.heap, tx.phase.cur)
    && forall u: int | On(s.heap, u, k) && s.heap[tx.phase.cur].wts < s.heap[u].wts <= Bound(tx) ::
         s.heap[u].status.Aborted? || s.heap[u].seqno >= began
  }

  lemma PassedKept(s: State, s': State, k: Key, tx: Executor, began: nat)
    requires Passed(s, k, tx, began) && Growth.ListsGrow(s, s')
    requires Valid(s'.heap, tx.phase.cur) && s'.heap[tx.phase.cur].wts == s.heap[tx.phase.cur].wts
    ensures Passed(s', k, tx, began)
  {
    forall u: int | On(s'.heap, u, k) && s'.heap[tx.phase.cur].wts < s'.heap[u].wts <= Bound(tx)
      ensures s'.heap[u].status.Aborted? || s'.heap[u].seqno >= began
    {
      assert Growth.Remains(s, u, s'.heap[u]);
    }
  }

  /** Going down from a version that is too new or aborted leaves nothing else behind. */
  lemma PassedDown(s: State, k: Key, r: Record, tx: Executor, p: Phase, began: nat)
    requires Passed(s, k, tx, began) && ListInv(s.heap, r, k) && On(s.heap, tx.phase.cur, k)
    requires s.heap[tx.phase.cur].wts > Bound(tx) || s.heap[tx.phase.cur].status.Aborted?
    requires Reading(p) && p.cur == s.heap[tx.phase.cur].next && Valid(s.heap, p.cur)
    ensures Passed(s, k, tx.(phase := p), began)
  {
    assert NodeOk(s.heap, k, tx.phase.cur, r.bottom);
  }

  /** Only the heap matters, and where the reader stands. */
  lemma PassedAlike(s: State, s': State, k: Key, tx: Executor, tx': Executor, began: nat)
    requires Passed(s, k, tx, began) && s'.heap == s.heap && s'.clock == s.clock
    requires Reading(tx'.phase) && tx'.phase.cur == tx.phase.cur && Bound(tx') == Bound(tx)
    ensures Passed(s', k, tx', began)
  {
  }

  /** The last element of the read set is the newest version of `k` for the transaction:
      what lies between is aborted, or was installed after the read began. */
  ghost predicate NewestRead(s: State, k: Key, tx: Executor, began: nat) {
    && |tx.rset| > 0 && tx.rset[|tx.rset| - 1].wts < tx.ts
    && forall u: int | On(s.heap, u, k) && tx.rset[|tx.rset| - 1].wts < s.heap[u].wts <= tx.ts ::
         s.heap[u].status.Aborted? || s.heap[u].seqno >= began
  }

  lemma NewestTaken(s: State, s': State, t: nat, k: Key, began: nat)
    requires t < |s.thr| && ReadTake(s, s', t) && !s.thr[t].ronly && Passed(s, k, s.thr[t], began)
    requires s.heap[s.thr[t].phase.cur].wts < s.thr[t].ts
    ensures |s'.thr| == |s.thr| && NewestRead(s', k, s'.thr[t], began)
  {
  }

  /** Executor `t` stands before a pending version. */
  ghost predicate Waits(s: State, t: nat) {
    && t < |s.thr| && (s.thr[t].phase.ReadWait? || s.thr[t].phase.ScanWait? || s.thr[t].phase.CheckWait?)
    && Valid(s.heap, s.thr[t].phase.cur) && s.heap[s.thr[t].phase.cur].status.Pending?
  }

  /** Within this part of the run the executor has had to wait, or `patience` steps were taken. */
  ghost predicate Exhausted(run: seq<State>, from: nat, t: nat, patience: nat) {
    |run| > from + patience || exists n :: from <= n < |run| && Waits(run[n], t)
  }

  lemma Earlier(run: seq<State>, from: nat, from': nat, t: nat, patience: nat)
    requires from' <= from && Exhausted(run, from, t, patience)
    ensures Exhausted(run, from', t, patience)
  {
    if |run| <= from + patience {
      var n :| from <= n < |run| && Waits(run[n], t);
    }
  }

  /** One more turn, with a step or a wait. */
  lemma Longer1(run: seq<State>, run': seq<State>, from: nat, t: nat, patience: nat)
    requires run <= run' && |run| > 0 && from < |run| && Exhausted(run, from, t, patience)
    requires |run'| > |run| || Waits(run'[|run'| - 1], t)
    ensures Exhausted(run', from, t, patience + 1)
  {
    if |run| <= from + patience {
      var n :| from <= n < |run| && Waits(run[n], t);
      assert run'[n] == run[n];
    }
  }

  /** `w` and `r` are no smaller than the smallest timestamps published in state `s`. */
  ghost predicate MinimaFrom(s: State, w: nat, r: nat) {
    && (exists u :: 0 <= u < |s.threadWts| && s.threadWts[u] <= w)
    && (exists u :: 0 <= u < |s.threadRts| && s.threadRts[u] <= r)
  }

  lemma MinimaRise(s: State, w: nat, w': nat, r: nat)
    requires MinimaFrom(s, w, r) && w <= w'
    ensures MinimaFrom(s, w', r)
  {
    var u :| 0 <= u < |s.threadWts| && s.threadWts[u] <= w;
  }

  /** Nothing older than `wts` is on the list of `k`. */
  ghost predicate NothingOlder(h: seq<Version>, k: Key, wts: nat) {
    forall u: int | On(h, u, k) :: h[u].wts >= wts
  }

  /** Another thread than `t` is collecting the record. */
  ghost predicate CollectedByOther(s: State, k: Key, t: nat) {
    k < |s.recs| && exists u: nat :: u < |s.thr| && u != t && s.recs[k].gcLock == u + 1 && Collecting(s.thr[u].phase)
  }

  lemma HolderCollects(s: State, k: Key, t: nat)
    requires BaseInv(s) && k < |s.recs| && t < |s.thr| && s.recs[k].gcLock != 0 && !Collecting(s.thr[t].phase)
    ensures CollectedByOther(s, k, t)
  {
    assert ListInv(s.heap, s.recs[k], k) && RecordOk(s.heap, s.recs[k], s.initTs, s.minRts, |s.thr|);
    var u: nat := s.recs[k].gcLock - 1;
    ThreadOf(s, u);
    ThreadOf(s, t);
    assert GcOk(s.heap, s.recs, s.thr[u], u, s.minRts);
  }

  /** Executor `t` passes its commit point within this part of the run. */
  ghost predicate CommitsIn(run: seq<State>, from: nat, t: nat) {
    exists i :: 0 < from <= i < |run| && t < |run[i - 1].thr| && CommitPoint(run[i - 1], run[i], t)
  }

  lemma Allocated(s: State, s': State, t: nat)
    requires t < |s.thr| && WriteAlloc(s, s', t)
    ensures |s'.thr| == |s.thr| && s'.thr[t].phase.Executing?
    ensures WroteNew(s.thr[t].wset, s'.thr[t].wset, s.thr[t].phase.key, s.thr[t].phase.new_)
    ensures TakenFrom(s, s', t, s'.thr[t].wset[|s.thr[t].wset|].ver)
  {
  }

  class TxExecutor {
    const thid: nat
    var st: State
    ghost var run: seq<State>

    ghost predicate Sound()
      reads this
    {
      IsRun(run, Init, Next) && run[|run| - 1] == st && thid < |st.thr|
    }

    constructor (initial: State, thid: nat)
      requires Init(initial) && thid < |initial.thr|
      ensures Sound() && st == initial && this.thid == thid
    {
      this.thid := thid;
      st := initial;
      run := [initial];
    }

    lemma Reachable()
      requires Sound()
      ensures BaseInv(st)
    {
      RunKeepsInv(run, |run| - 1);
    }

    /** Where this executor's walk may stand, and that there is always an older version. */
    lemma WalkFacts()
      requires Sound()
      ensures WalkOk(st.heap, st.thr[thid], |st.recs|) && WriteSetOk(st.heap, st.thr[thid], thid, |st.recs|)
      ensures ReadSetOk(st.heap, st.thr[thid], |st.recs|) && PrivateOk(st.heap, st.thr[thid], thid)
    {
      Reachable();
      ThreadOf(st, thid);
    }

    lemma LatestFacts(k: Key)
      requires Sound() && k < |st.recs|
      ensures Valid(st.heap, st.recs[k].latest)
    {
      Reachable();
      assert ListInv(st.heap, st.recs[k], k);
    }

    /** Any number of steps of the other executors: all that callers learn is that this
        executor's own data stay as they are, and the timestamp of the version at which it reads. */
    method Others()
      requires Sound()
      modifies this
      ensures Sound() && st.thr[thid] == old(st.thr[thid]) && old(run) <= run
      ensures |st.recs| == old(|st.recs|) && |st.thr| == old(|st.thr|) && SameCursor(old(st), st, thid)
    {
    }

    method Move(next: State)
      requires Sound() && IsRun(run + [next], Init, Next) && thid < |next.thr|
      modifies this
      ensures Sound() && st == next && run == old(run) + [next]
    {
      st := next;
      run := run + [next];
    }

    /** One atomic step of this executor. */
    method Step(next: State)
      requires Sound() && StepBy(st, next, thid) && |next.thr| == |st.thr|
      modifies this
      ensures Sound() && st == next && run == old(run) + [next]
    {
      Longer(run, Init, Next, next);
      Move(next);
    }

    /** One atomic step that only moves this executor's phase. */
    method StepPhase(p: Phase)
      requires Sound() && StepBy(st, SetPhase(st, thid, p), thid)
      modifies this
      ensures Sound() && st == SetPhase(old(st), thid, p) && run == old(run) + [st]
    {
      Step(SetPhase(st, thid, p));
    }

    // ----------------------------------------------------------------- tbegin()

    lemma TimesHere()
      requires Sound()
      ensures thid < |st.threadWts| == |st.threadRts| == |st.thr| && st.minWts >= 1
      ensures TimeOk(st.thr[thid], thid, st.threadWts, st.threadRts, st.minWts, st.minRts, st.initTs)
    {
      Reachable();
    }

    method GenerateTimestamp(ts: nat, ronly: bool)
      requires Sound() && st.thr[thid].phase.Idle? && st.thr[thid].ts < ts && ts % TID_SPACE == thid
      modifies this
      ensures Sound() && old(run) <= run
      ensures st.thr[thid] == old(st.thr[thid]).(phase := Generated, ts := ts, ronly := ronly, rset := [], wset := [])
    {
      var generated := SetThr(st, thid, st.thr[thid].(phase := Generated, ts := ts, ronly := ronly, rset := [], wset := []));
      assert Generate(st, generated, thid, ts, ronly);
      Step(generated);
    }

    /** The range of the timestamps of a running transaction. */
    lemma TimesInRange()
      requires Sound() && st.thr[thid].phase.Executing?
      ensures st.minRts <= st.thr[thid].rts < st.minWts <= st.thr[thid].ts
    {
      Reachable();
      ViewOf(st, thid);
    }

    /** tbegin(): issues and publishes both timestamps, each load and store on its own. */
    method TBegin(ts: nat, ronly: bool)
      requires Sound() && st.thr[thid].phase.Idle? && st.thr[thid].ts < ts && ts % TID_SPACE == thid
      modifies this
      ensures Sound() && old(run) <= run && st.thr[thid].phase.Executing? && st.thr[thid].ronly == ronly
      ensures st.thr[thid].ts == ts && st.thr[thid].rset == [] && st.thr[thid].wset == []
      ensures st.minRts <= st.thr[thid].rts < st.minWts <= ts
      ensures old(st.minWts) <= st.thr[thid].rts + 1
    {
      ghost var from := |run| - 1;
      GenerateTimestamp(ts, ronly);
      Others();
      PublishWriteTimestamp();
      Others();
      Grown(from);
      PublishReadTimestamp();
      TimesInRange();
    }

    method PublishWriteTimestamp()
      requires Sound() && st.thr[thid].phase.Generated?
      modifies this
      ensures Sound() && old(run) <= run && st.thr[thid] == old(st.thr[thid]).(phase := WtsStored)
    {
      TimesHere();
      var stored := SetPhase(st, thid, WtsStored).(threadWts := st.threadWts[thid := st.thr[thid].ts]);
      assert Cicada.StoreWts(st, stored, thid);
      Step(stored);
    }

    method PublishReadTimestamp()
      requires Sound() && st.thr[thid].phase.WtsStored?
      modifies this
      ensures Sound() && old(run) <= run
      ensures st.thr[thid] == old(st.thr[thid]).(phase := Executing, rts := st.thr[thid].rts)
      ensures st.thr[thid].rts + 1 == old(st.minWts)
    {
      TimesHere();
      var loaded := SetThr(st, thid, st.thr[thid].(phase := MinLoaded, rts := st.minWts - 1));
      assert LoadMinWts(st, loaded, thid);
      Step(loaded);
      Others();
      TimesHere();
      var stored := SetPhase(st, thid, Executing).(threadRts := st.threadRts[thid := st.thr[thid].rts]);
      assert Cicada.StoreRts(st, stored, thid);
      Step(stored);
    }

    // ------------------------------------------------------------------ tread()

    method SearchReadSet(key: Key) returns (found: bool)
      requires Sound()
      ensures found <==> ReadsKey(st.thr[thid].rset, key)
    {
      var i, rs := 0, st.thr[thid].rset;
      while i < |rs|
        invariant i <= |rs| && forall j | 0 <= j < i :: rs[j].key != key
      {
        if rs[i].key == key {
          return true;
        }
        i := i + 1;
      }
      return false;
    }

    method SearchWriteSet(key: Key) returns (found: bool)
      requires Sound()
      ensures found <==> WritesKey(st.thr[thid].wset, key)
    {
      var i, ws := 0, st.thr[thid].wset;
      while i < |ws|
        invariant i <= |ws| && forall j | 0 <= j < i :: ws[j].key != key
      {
        if ws[i].key == key {
          return true;
        }
        i := i + 1;
      }
      return false;
    }

    /** As Others(), during a read: what was installed before the read began and lies above
        the version reached is still aborted. */
    method OthersReading(key: Key, ghost began: nat)
      requires Sound() && Reading(st.thr[thid].phase) && st.thr[thid].phase.key == key
      requires Passed(st, key, st.thr[thid], began)
      modifies this
      ensures Sound() && st.thr[thid] == old(st.thr[thid]) && old(run) <= run
      ensures Passed(st, key, st.thr[thid], began)
    {
      ghost var before := run;
      Others();
      PassedSince(before, key, began);
    }

    lemma PassedSince(before: seq<State>, key: Key, began: nat)
      requires Sound() && 0 < |before| && before <= run && thid < |before[|before| - 1].thr|
      requires before[|before| - 1].thr[thid] == st.thr[thid] && SameCursor(before[|before| - 1], st, thid)
      requires Reading(st.thr[thid].phase) && Passed(before[|before| - 1], key, st.thr[thid], began)
      ensures Passed(st, key, st.thr[thid], began)
    {
      var from := |before| - 1;
      assert run[from] == before[from];
      Growth.ListedVersionsRemain(run, from, |run| - 1);
      PassedKept(run[from], st, key, st.thr[thid], began);
    }

    /** Down the list to the first version that is not too new. */
    method ReadSearch(key: Key, patience: nat, ghost began: nat) returns (o: Outcome)
      requires Sound() && st.thr[thid].phase.ReadSeek? && st.thr[thid].phase.key == key && key < |st.recs|
      requires Passed(st, key, st.thr[thid], began)
      modifies this
      ensures Sound() && old(run) <= run && st.thr[thid] == old(st.thr[thid]).(phase := st.thr[thid].phase)
      ensures o.Proceed? ==> st.thr[thid].phase.ReadWait? && st.thr[thid].phase.key == key && Passed(st, key, st.thr[thid], began)
      ensures !o.MustAbort? && (o.GaveUp? ==> |run| >= |old(run)| + patience)
    {
      var n := patience;
      while n > 0
        invariant Sound() && old(run) <= run && st.thr[thid] == old(st.thr[thid]).(phase := st.thr[thid].phase)
        invariant st.thr[thid].phase.ReadSeek? && st.thr[thid].phase.key == key && Passed(st, key, st.thr[thid], began)
        invariant n <= patience && |run| >= |old(run)| + (patience - n)
      {
        n := n - 1;
        OthersReading(key, began);
        var arrived := SeekStep(key, began);
        if arrived {
          return Proceed;
        }
      }
      return GaveUp;
    }

    /** A step of a read that only moves the phase. */
    method StepReading(p: Phase, key: Key, ghost began: nat)
      requires Sound() && StepBy(st, SetPhase(st, thid, p), thid)
      requires Reading(p) && p.key == key && Passed(st, key, st.thr[thid].(phase := p), began)
      modifies this
      ensures Sound() && old(run) <= run && |run| > |old(run)|
      ensures st.thr[thid] == old(st.thr[thid]).(phase := p) && Passed(st, key, st.thr[thid], began)
    {
      ghost var s, tx := st, st.thr[thid].(phase := p);
      Step(SetPhase(st, thid, p));
      PassedAlike(s, st, key, tx, st.thr[thid], began);
    }

    method SeekStep(key: Key, ghost began: nat) returns (arrived: bool)
      requires Sound() && st.thr[thid].phase.ReadSeek? && st.thr[thid].phase.key == key && Passed(st, key, st.thr[thid], began)
      modifies this
      ensures Sound() && old(run) <= run && |run| > |old(run)|
      ensures st.thr[thid] == old(st.thr[thid]).(phase := st.thr[thid].phase)
      ensures if arrived then st.thr[thid].phase.ReadWait? else st.thr[thid].phase.ReadSeek?
      ensures st.thr[thid].phase.key == key && Passed(st, key, st.thr[thid], began)
    {
      WalkFacts();
      var tx := st.thr[thid];
      var v := st.heap[tx.phase.cur];
      arrived := v.wts <= Bound(tx);
      if arrived {
        PassedAlike(st, st, key, tx, tx.(phase := ReadWait(key, tx.phase.later, tx.phase.cur)), began);
        assert ReadReach(st, SetPhase(st, thid, ReadWait(key, tx.phase.later, tx.phase.cur)), thid);
        StepReading(ReadWait(key, tx.phase.later, tx.phase.cur), key, began);
      } else {
        GoDown(key, ReadSeek(key, tx.phase.cur, v.next), began);
        assert ReadNext(st, SetPhase(st, thid, ReadSeek(key, tx.phase.cur, v.next)), thid);
        StepReading(ReadSeek(key, tx.phase.cur, v.next), key, began);
      }
    }

    lemma ListFacts(k: Key)
      requires Sound() && Reading(st.thr[thid].phase) && st.thr[thid].phase.key == k
      ensures k < |st.recs| && ListInv(st.heap, st.recs[k], k) && SafePtr(st.heap, k, st.thr[thid].rts, st.thr[thid].phase.cur)
      ensures st.heap[st.recs[k].bottom].wts <= st.thr[thid].rts < st.thr[thid].ts
    {
      WalkFacts();
      Reachable();
      BottomVisible(st, thid, k);
    }

    /** A version that is too new or aborted is not the last of its list. */
    lemma GoDown(k: Key, p: Phase, began: nat)
      requires Sound() && Reading(st.thr[thid].phase) && st.thr[thid].phase.key == k && Passed(st, k, st.thr[thid], began)
      requires var v := st.heap[st.thr[thid].phase.cur]; v.wts > Bound(st.thr[thid]) || v.status.Aborted?
      requires Reading(p) && p.cur == st.heap[st.thr[thid].phase.cur].next
      ensures Passed(st, k, st.thr[thid].(phase := p), began)
    {
      ListFacts(k);
      var tx := st.thr[thid];
      if st.heap[tx.phase.cur].status.Aborted? {
        WalkDown(st.heap, st.recs[k], k, tx.rts, tx.phase.cur);
      } else {
        WalkNext(st.heap, st.recs[k], k, tx.rts, tx.phase.cur);
      }
      PassedDown(st, k, st.recs[k], tx, p, began);
    }

    /** Past aborted versions to the committed one, waiting for pending ones. */
    method ReadSettle(key: Key, patience: nat, ghost began: nat) returns (o: Outcome)
      requires Sound() && st.thr[thid].phase.ReadWait? && st.thr[thid].phase.key == key && Passed(st, key, st.thr[thid], began)
      modifies this
      ensures Sound() && old(run) <= run && !o.MustAbort?
      ensures o.Proceed? ==> st.thr[thid].phase.Executing? && st.thr[thid].ronly == old(st.thr[thid].ronly)
      ensures o.Proceed? && !st.thr[thid].ronly ==> ReadNew(old(st.thr[thid].rset), st.thr[thid].rset, key, st.heap)
      ensures o.Proceed? && !st.thr[thid].ronly ==> NewestRead(st, key, st.thr[thid], began)
      ensures o.Proceed? && st.thr[thid].ronly ==> SnapTaken(st, st.thr[thid].rts, key)
      ensures o.GaveUp? ==> Exhausted(run, |old(run)| - 1, thid, patience)
    {
      var n := patience;
      ghost var from := |run| - 1;
      while n > 0
        invariant Sound() && old(run) <= run
        invariant st.thr[thid] == old(st.thr[thid]).(phase := st.thr[thid].phase)
        invariant st.thr[thid].phase.ReadWait? && st.thr[thid].phase.key == key && Passed(st, key, st.thr[thid], began)
        invariant n <= patience && Exhausted(run, from, thid, patience - n)
      {
        ghost var before := run;
        n := n - 1;
        OthersReading(key, began);
        o := SettleStep(key, began);
        if o.Proceed? {
          return;
        }
        Longer1(before, run, from, thid, patience - n - 1);
      }
      return GaveUp;
    }

    /** One look at the version reached: takes it when it is committed, goes below it when it
        is aborted, and waits while it is pending. */
    method SettleStep(key: Key, ghost began: nat) returns (o: Outcome)
      requires Sound() && st.thr[thid].phase.ReadWait? && st.thr[thid].phase.key == key && Passed(st, key, st.thr[thid], began)
      modifies this
      ensures Sound() && old(run) <= run && !o.MustAbort?
      ensures o.Proceed? ==> st.thr[thid].phase.Executing? && st.thr[thid].ronly == old(st.thr[thid].ronly)
      ensures o.Proceed? && !st.thr[thid].ronly ==> ReadNew(old(st.thr[thid].rset), st.thr[thid].rset, key, st.heap)
      ensures o.Proceed? && !st.thr[thid].ronly ==> NewestRead(st, key, st.thr[thid], began)
      ensures o.Proceed? && st.thr[thid].ronly ==> SnapTaken(st, st.thr[thid].rts, key)
      ensures o.GaveUp? ==> st.thr[thid] == old(st.thr[thid]).(phase := st.thr[thid].phase)
      ensures o.GaveUp? ==> st.thr[thid].phase.ReadWait? && st.thr[thid].phase.key == key && Passed(st, key, st.thr[thid], began)
      ensures o.GaveUp? ==> |run| > |old(run)| || Waits(st, thid)
    {
      WalkFacts();
      var tx := st.thr[thid];
      var v := st.heap[tx.phase.cur];
      if v.status.Committed? {
        TakeVersion(key, began);
        return Proceed;
      }
      if v.status.Aborted? {
        GoDown(key, ReadWait(key, tx.phase.later, v.next), began);
        assert ReadDown(st, SetPhase(st, thid, ReadWait(key, tx.phase.later, v.next)), thid);
        StepReading(ReadWait(key, tx.phase.later, v.next), key, began);
      } else {
        ListedNotUnused(tx.phase.cur);
      }
      return GaveUp;
    }

    lemma ListedNotUnused(v: int)
      requires Sound() && OnList(st.heap, v)
      ensures !st.heap[v].status.Unused?
    {
      Reachable();
      assert VersionOk(st.heap[v], st.clock, |st.recs|, |st.thr|);
    }

    /** A read-only search that has arrived is at the newest version of its snapshot. */
    lemma SnapHere(key: Key)
      requires Sound() && st.thr[thid].phase.ReadWait? && st.thr[thid].phase.key == key
      ensures On(st.heap, st.thr[thid].phase.cur, key)
      ensures st.thr[thid].ronly ==> st.heap[st.thr[thid].phase.cur].wts <= st.thr[thid].rts
      ensures forall u: int | On(st.heap, u, key) && st.heap[u].status.Committed? && st.heap[u].wts <= st.thr[thid].rts ::
                st.heap[u].wts <= st.heap[st.thr[thid].phase.cur].wts
      ensures !st.thr[thid].ronly ==> st.heap[st.thr[thid].phase.cur].wts < st.thr[thid].ts
    {
      WalkFacts();
      Reachable();
      NotOwnVersion(st, thid, st.thr[thid].phase.cur);
    }

    method TakeVersion(key: Key, ghost began: nat)
      requires Sound() && st.thr[thid].phase.ReadWait? && st.thr[thid].phase.key == key && Passed(st, key, st.thr[thid], began)
      requires Valid(st.heap, st.thr[thid].phase.cur) && st.heap[st.thr[thid].phase.cur].status.Committed?
      modifies this
      ensures Sound() && old(run) <= run && st.thr[thid].phase.Executing?
      ensures !st.thr[thid].ronly ==> ReadNew(old(st.thr[thid].rset), st.thr[thid].rset, key, st.heap)
      ensures !st.thr[thid].ronly ==> NewestRead(st, key, st.thr[thid], began)
      ensures st.thr[thid].ronly == old(st.thr[thid].ronly)
      ensures st.thr[thid].rts == old(st.thr[thid].rts) && (st.thr[thid].ronly ==> SnapTaken(st, st.thr[thid].rts, key))
    {
      var tx := st.thr[thid];
      var v := st.heap[tx.phase.cur];
      var next := if tx.ronly then SetPhase(st, thid, Executing).(snaps := st.snaps + {Snap(tx.rts, key, v.wts, v.val)})
                  else SetThr(st, thid, tx.(phase := Executing,
                                            rset := tx.rset + [ReadElement(key, tx.phase.later, tx.phase.cur, v.wts, v.val)]));
      assert ReadTake(st, next, thid);
      SnapHere(key);
      if !tx.ronly {
        NewestTaken(st, next, thid, key, began);
      }
      Step(next);
    }

    /** tread(): what is read is the newest version for the transaction - anything of the
        record between the two is aborted or was installed after the read began. */
    method TRead(key: Key, patience: nat) returns (o: Outcome)
      requires Sound() && st.thr[thid].phase.Executing? && key < |st.recs|
      modifies this
      ensures Sound() && old(run) <= run && !o.MustAbort?
      ensures o.Proceed? ==> st.thr[thid].phase.Executing?
      ensures o.Proceed? && !st.thr[thid].ronly ==>
                if ReadsKey(old(st.thr[thid].rset), key) || WritesKey(old(st.thr[thid].wset), key)
                then st.thr[thid].rset == old(st.thr[thid].rset)
                else ReadNew(old(st.thr[thid].rset), st.thr[thid].rset, key, st.heap)
                     && NewestRead(st, key, st.thr[thid], old(st.clock))
      ensures o.Proceed? && st.thr[thid].ronly ==>
                || ReadsKey(old(st.thr[thid].rset), key) || WritesKey(old(st.thr[thid].wset), key)
                || SnapTaken(st, st.thr[thid].rts, key)
      ensures o.GaveUp? ==> Exhausted(run, |old(run)| - 1, thid, patience)
    {
      var inW := SearchWriteSet(key);
      var inR := SearchReadSet(key);
      if inW || inR {
        return Proceed;
      }
      ghost var from, began := |run| - 1, st.clock;
      StartRead(key);
      o := ReadSearch(key, patience, began);
      if o.Proceed? {
        ghost var settling := |run| - 1;
        o := ReadSettle(key, patience, began);
        if o.GaveUp? {
          Earlier(run, settling, from, thid, patience);
        }
      }
    }

    method StartRead(key: Key)
      requires Sound() && st.thr[thid].phase.Executing? && key < |st.recs|
      requires !ReadsKey(st.thr[thid].rset, key) && !WritesKey(st.thr[thid].wset, key)
      modifies this
      ensures Sound() && old(run) <= run && |st.recs| == old(|st.recs|)
      ensures st.thr[thid] == old(st.thr[thid]).(phase := st.thr[thid].phase)
      ensures st.thr[thid].phase.ReadSeek? && st.thr[thid].phase.key == key && Passed(st, key, st.thr[thid], old(st.clock))
    {
      Reachable();
      assert ListInv(st.heap, st.recs[key], key);
      assert ReadStart(st, SetPhase(st, thid, ReadSeek(key, NIL, st.recs[key].latest)), thid, key);
      StepPhase(ReadSeek(key, NIL, st.recs[key].latest));
    }

    // ----------------------------------------------------------------- twrite()

    method WriteSearch(key: Key, val: Val, patience: nat) returns (o: Outcome)
      requires Sound() && st.thr[thid].phase.WriteSeek? && st.thr[thid].phase.key == key && st.thr[thid].phase.new_ == val
      modifies this
      ensures Sound() && old(run) <= run && !o.MustAbort?
      ensures st.thr[thid] == old(st.thr[thid]).(phase := st.thr[thid].phase)
      ensures o.Proceed? ==> st.thr[thid].phase.WriteCheck? && st.thr[thid].phase.key == key && st.thr[thid].phase.new_ == val
      ensures o.GaveUp? ==> |run| >= |old(run)| + patience
    {
      var n := patience;
      while n > 0
        invariant Sound() && old(run) <= run && st.thr[thid] == old(st.thr[thid]).(phase := st.thr[thid].phase)
        invariant st.thr[thid].phase.WriteSeek? && st.thr[thid].phase.key == key && st.thr[thid].phase.new_ == val
        invariant n <= patience && |run| >= |old(run)| + (patience - n)
      {
        n := n - 1;
        Others();
        WalkFacts();
        var tx := st.thr[thid];
        var v := st.heap[tx.phase.cur];
        if v.wts > tx.ts {
          assert WriteNext(st, SetPhase(st, thid, WriteSeek(key, tx.phase.cur, v.next, tx.phase.new_)), thid);
          StepPhase(WriteSeek(key, tx.phase.cur, v.next, tx.phase.new_));
        } else {
          assert WriteReach(st, SetPhase(st, thid, WriteCheck(key, tx.phase.later, tx.phase.cur, false, tx.phase.new_)), thid);
          StepPhase(WriteCheck(key, tx.phase.later, tx.phase.cur, false, tx.phase.new_));
          return Proceed;
        }
      }
      return GaveUp;
    }

    lemma PoolFacts()
      requires Sound()
      ensures st.thr[thid].pool != [] ==> Valid(st.heap, st.thr[thid].pool[|st.thr[thid].pool| - 1])
    {
      WalkFacts();
    }

    /** A new version, from the pool or from memory. */
    method AllocateVersion(key: Key)
      requires Sound() && st.thr[thid].phase.WriteCheck? && st.thr[thid].phase.key == key && Valid(st.heap, st.thr[thid].phase.cur)
      requires !(st.heap[st.thr[thid].phase.cur].rts > st.thr[thid].ts && st.heap[st.thr[thid].phase.cur].status.Committed?)
      modifies this
      ensures Sound() && old(run) <= run && st.thr[thid].phase.Executing?
      ensures WroteNew(old(st.thr[thid].wset), st.thr[thid].wset, key, old(st.thr[thid].phase.new_))
      ensures TakenFrom(old(st), st, thid, st.thr[thid].wset[|old(st.thr[thid].wset)|].ver)
    {
      PoolFacts();
      var tx := st.thr[thid];
      var p, slot := tx.phase, if tx.pool == [] then |st.heap| else tx.pool[|tx.pool| - 1];
      var e := WriteElement(key, p.later, slot, p.rmw, false, p.new_);
      var next :=
        if tx.pool == [] then
          SetThr(st, thid, tx.(phase := Executing, wset := tx.wset + [e])).(heap := st.heap + [FreshVersion(tx.ts, thid)])
        else
          SetThr(st, thid, tx.(phase := Executing, pool := tx.pool[..|tx.pool| - 1], wset := tx.wset + [e]))
          .(heap := st.heap[slot := FreshVersion(tx.ts, thid)]);
      assert WriteAlloc(st, next, thid);
      Allocated(st, next, thid);
      Step(next);
    }

    /** Early abort, or a new version. */
    method WriteDecide(key: Key) returns (o: Outcome)
      requires Sound() && st.thr[thid].phase.WriteCheck? && st.thr[thid].phase.key == key
      modifies this
      ensures Sound() && old(run) <= run && !o.GaveUp?
      ensures o.Proceed? ==> st.thr[thid].phase.Executing?
      ensures o.Proceed? ==> WroteNew(old(st.thr[thid].wset), st.thr[thid].wset, key, old(st.thr[thid].phase.new_))
      ensures o.MustAbort? ==> st.thr[thid].phase == Aborting(0)
      ensures o.MustAbort? ==> ReadLater(old(st.heap), key, old(st.thr[thid].ts), old(st.thr[thid].phase.cur))
    {
      WalkFacts();
      var v := st.heap[st.thr[thid].phase.cur];
      if v.rts > st.thr[thid].ts && v.status.Committed? {
        assert WriteAbort(st, SetPhase(st, thid, Aborting(0)), thid);
        WriteOutcome(run, |run| - 1, SetPhase(st, thid, Aborting(0)), thid);
        StepPhase(Aborting(0));
        return MustAbort;
      }
      AllocateVersion(key);
      return Proceed;
    }

    /** A record read before: a newer version than the transaction dooms the write. */
    method StartRmw(key: Key, val: Val) returns (doomed: bool)
      requires Sound() && st.thr[thid].phase.Executing? && !st.thr[thid].ronly && key < |st.recs|
      requires ReadsKey(st.thr[thid].rset, key) && !WritesKey(st.thr[thid].wset, key)
      modifies this
      ensures Sound() && old(run) <= run && st.thr[thid].wset == old(st.thr[thid].wset)
      ensures st.thr[thid] == old(st.thr[thid]).(phase := st.thr[thid].phase)
      ensures if doomed then st.thr[thid].phase == Aborting(0)
              else st.thr[thid].phase == WriteCheck(key, NIL, old(st.recs[key].latest), true, val)
      ensures doomed <==> NewerHead(old(st), key, old(st.thr[thid].ts))
    {
      LatestFacts(key);
      var newest := st.recs[key].latest;
      doomed := st.heap[newest].wts > st.thr[thid].ts;
      var p := if doomed then Aborting(0) else WriteCheck(key, NIL, newest, true, val);
      assert WriteStartRmw(st, SetPhase(st, thid, p), thid, key, val);
      StepPhase(p);
    }

    /** A record met for the first time: down its list to the place of the write. */
    method StartBlind(key: Key, val: Val, patience: nat) returns (o: Outcome)
      requires Sound() && st.thr[thid].phase.Executing? && !st.thr[thid].ronly && key < |st.recs|
      requires !ReadsKey(st.thr[thid].rset, key) && !WritesKey(st.thr[thid].wset, key)
      modifies this
      ensures Sound() && old(run) <= run && !o.MustAbort? && st.thr[thid] == old(st.thr[thid]).(phase := st.thr[thid].phase)
      ensures o.Proceed? ==> st.thr[thid].phase.WriteCheck? && st.thr[thid].phase.key == key && st.thr[thid].phase.new_ == val
      ensures o.GaveUp? ==> |run| >= |old(run)| + patience
    {
      assert WriteStart(st, SetPhase(st, thid, WriteSeek(key, NIL, st.recs[key].latest, val)), thid, key, val);
      StepPhase(WriteSeek(key, NIL, st.recs[key].latest, val));
      o := WriteSearch(key, val, patience);
    }

    /** twrite(): refused at once only if the record, read before, has got a newer version,
        or if a version older than the transaction has been read later. */
    method TWrite(key: Key, val: Val, patience: nat) returns (o: Outcome)
      requires Sound() && st.thr[thid].phase.Executing? && !st.thr[thid].ronly && key < |st.recs|
      modifies this
      ensures Sound() && old(run) <= run
      ensures o.Proceed? ==> st.thr[thid].phase.Executing?
      ensures o.Proceed? ==> if WritesKey(old(st.thr[thid].wset), key) then st.thr[thid].wset == old(st.thr[thid].wset)
                             else WroteNew(old(st.thr[thid].wset), st.thr[thid].wset, key, val)
      ensures o.MustAbort? ==> st.thr[thid].phase == Aborting(0) && RefusedIn(run, |old(run)| - 1, old(st.thr[thid]), key)
      ensures o.GaveUp? ==> |run| >= |old(run)| + patience
    {
      ghost var before, tx := run, st.thr[thid];
      var inW := SearchWriteSet(key);
      if inW {
        return Proceed;
      }
      var rmw := SearchReadSet(key);
      if rmw {
        var doomed := StartRmw(key, val);
        if doomed {
          RefusedNow(before, run, |before| - 1, tx, key);
          return MustAbort;
        }
      } else {
        o := StartBlind(key, val, patience);
        if o.GaveUp? {
          return;
        }
      }
      o := WriteSettle(key, |before| - 1, tx);
    }

    method WriteSettle(key: Key, ghost from: nat, ghost tx: Executor) returns (o: Outcome)
      requires Sound() && st.thr[thid].phase.WriteCheck? && st.thr[thid].phase.key == key
      requires from < |run| && tx.ts == st.thr[thid].ts
      modifies this
      ensures Sound() && old(run) <= run && !o.GaveUp?
      ensures o.Proceed? ==> st.thr[thid].phase.Executing?
      ensures o.Proceed? ==> WroteNew(old(st.thr[thid].wset), st.thr[thid].wset, key, old(st.thr[thid].phase.new_))
      ensures o.MustAbort? ==> st.thr[thid].phase == Aborting(0) && RefusedIn(run, from, tx, key)
    {
      Others();
      ghost var before := run;
      o := WriteDecide(key);
      if o.MustAbort? {
        RefusedNow(before, run, from, tx, key);
      }
    }

    // ----------------------------------------------- validation(): pre-checking

    lemma PreFacts(i: nat)
      requires Sound() && i < |st.thr[thid].wset|
      requires st.thr[thid].phase.Precheck? || st.thr[thid].phase.PreSeek? || st.thr[thid].phase.PreWait?
      ensures WriteOk(st.heap, st.thr[thid], thid, i) && st.thr[thid].wset[i].key < |st.recs|
      ensures !st.thr[thid].phase.Precheck? ==> Valid(st.heap, st.thr[thid].phase.cur)
    {
      WalkFacts();
      assert WriteOk(st.heap, st.thr[thid], thid, i);
    }

    /** The transaction is still the one that was `tx` at position `from` of the run. */
    ghost predicate Still(from: nat, tx: Executor)
      reads this
    {
      Sound() && from < |run| && Kept(tx, st.thr[thid])
    }

    /** It has to abort, and since then something has come in its way. */
    ghost predicate Hopeless(from: nat, tx: Executor, installed: bool)
      reads this
    {
      Sound() && st.thr[thid].phase == Aborting(0) && DoomedIn(run, from, tx, installed)
    }

    /** The step after which the transaction has to abort. */
    method GiveIn(ghost from: nat, ghost tx: Executor, ghost installed: bool)
      requires Still(from, tx) && StepBy(st, SetPhase(st, thid, Aborting(0)), thid) && Doomed(st, st.thr[thid], installed)
      modifies this
      ensures Still(from, tx) && run == old(run) + [st] && Hopeless(from, tx, installed)
      ensures st.thr[thid] == old(st.thr[thid]).(phase := Aborting(0))
    {
      ghost var before, now := run, st.thr[thid];
      StepPhase(Aborting(0));
      DoomNow(before, run, from, now, tx, installed);
    }

    /** The pre-check of a blind write: down to the visible version, without waiting. */
    method PreWalk(i: nat, patience: nat, ghost from: nat, ghost tx: Executor) returns (o: Outcome)
      requires Still(from, tx) && st.thr[thid].phase.PreSeek? && st.thr[thid].phase.i == i < |tx.wset|
      modifies this
      ensures Still(from, tx) && old(run) <= run
      ensures o.Proceed? ==> st.thr[thid].phase == Precheck(i + 1)
      ensures o.MustAbort? ==> Hopeless(from, tx, false)
      ensures o.GaveUp? ==> |run| > from + patience
    {
      var n := patience;
      while n > 0
        invariant Still(from, tx) && old(run) <= run && n <= patience && |run| > from + (patience - n)
        invariant (st.thr[thid].phase.PreSeek? || st.thr[thid].phase.PreWait?) && st.thr[thid].phase.i == i
      {
        n := n - 1;
        Others();
        o := PreTurn(i, from, tx);
        if !o.GaveUp? {
          return;
        }
      }
      return GaveUp;
    }

    method PreTurn(i: nat, ghost from: nat, ghost tx: Executor) returns (o: Outcome)
      requires Still(from, tx) && (st.thr[thid].phase.PreSeek? || st.thr[thid].phase.PreWait?)
      requires st.thr[thid].phase.i == i < |tx.wset|
      modifies this
      ensures Still(from, tx) && old(run) <= run && |run| > |old(run)|
      ensures o.Proceed? ==> st.thr[thid].phase == Precheck(i + 1)
      ensures o.MustAbort? ==> Hopeless(from, tx, false)
      ensures o.GaveUp? ==> (st.thr[thid].phase.PreSeek? || st.thr[thid].phase.PreWait?) && st.thr[thid].phase.i == i
    {
      PreFacts(i);
      var cur := st.thr[thid].phase.cur;
      if st.thr[thid].phase.PreSeek? {
        PreSearch(i, from, tx);
      } else if st.heap[cur].status.Committed? {
        o := PreDecide(i, from, tx);
        return;
      } else {
        assert PreDown(st, SetPhase(st, thid, PreWait(i, st.heap[cur].next)), thid);
        StepPhase(PreWait(i, st.heap[cur].next));
      }
      return GaveUp;
    }

    method PreDecide(i: nat, ghost from: nat, ghost tx: Executor) returns (o: Outcome)
      requires Still(from, tx) && st.thr[thid].phase.PreWait? && st.thr[thid].phase.i == i < |tx.wset|
      requires Valid(st.heap, st.thr[thid].phase.cur) && st.heap[st.thr[thid].phase.cur].status.Committed?
      modifies this
      ensures Still(from, tx) && run == old(run) + [st]
      ensures if o.Proceed? then st.thr[thid].phase == Precheck(i + 1) else o.MustAbort? && Hopeless(from, tx, false)
    {
      if st.heap[st.thr[thid].phase.cur].rts > st.thr[thid].ts {
        assert PreJudge(st, SetPhase(st, thid, Aborting(0)), thid);
        PrecheckOutcome(run, |run| - 1, SetPhase(st, thid, Aborting(0)), thid);
        OvertakesDooms(st, st.thr[thid], i, st.thr[thid].phase.cur, false);
        GiveIn(from, tx, false);
        return MustAbort;
      }
      assert PreJudge(st, SetPhase(st, thid, Precheck(i + 1)), thid);
      StepPhase(Precheck(i + 1));
      return Proceed;
    }

    method PreSearch(i: nat, ghost from: nat, ghost tx: Executor)
      requires Still(from, tx) && st.thr[thid].phase.PreSeek? && st.thr[thid].phase.i == i < |tx.wset|
      modifies this
      ensures Still(from, tx) && run == old(run) + [st]
      ensures (st.thr[thid].phase.PreSeek? || st.thr[thid].phase.PreWait?) && st.thr[thid].phase.i == i
    {
      PreFacts(i);
      var now, cur := st.thr[thid], st.thr[thid].phase.cur;
      if st.heap[cur].wts > now.ts {
        var next := SetThr(st, thid, now.(phase := PreSeek(i, st.heap[cur].next),
                                          wset := now.wset[i := now.wset[i].(later := cur)]));
        assert PreNext(st, next, thid);
        Step(next);
      } else {
        assert PreReach(st, SetPhase(st, thid, PreWait(i, cur)), thid);
        StepPhase(PreWait(i, cur));
      }
    }

    /** An element that was read before: only the newest version matters. */
    method PrecheckNewest(i: nat, ghost from: nat, ghost tx: Executor) returns (o: Outcome)
      requires Still(from, tx) && st.thr[thid].phase == Precheck(i) && i < |st.thr[thid].wset| / 2 && st.thr[thid].wset[i].rmw
      modifies this
      ensures Still(from, tx) && run == old(run) + [st]
      ensures if o.Proceed? then st.thr[thid].phase == Precheck(i + 1) else o.MustAbort? && Hopeless(from, tx, false)
    {
      PreFacts(i);
      LatestFacts(st.thr[thid].wset[i].key);
      var v := st.heap[st.recs[st.thr[thid].wset[i].key].latest];
      if v.wts > st.thr[thid].ts || v.rts > st.thr[thid].ts {
        assert PreRmw(st, SetPhase(st, thid, Aborting(0)), thid);
        NewestDooms(i);
        GiveIn(from, tx, false);
        return MustAbort;
      }
      assert PreRmw(st, SetPhase(st, thid, Precheck(i + 1)), thid);
      StepPhase(Precheck(i + 1));
      return Proceed;
    }

    lemma NewestDooms(i: nat)
      requires Sound() && st.thr[thid].phase == Precheck(i) && i < |st.thr[thid].wset|
      requires PreRmw(st, SetPhase(st, thid, Aborting(0)), thid)
      ensures Doomed(st, st.thr[thid], false)
    {
      PrecheckRmwOutcome(run, |run| - 1, SetPhase(st, thid, Aborting(0)), thid);
      HeadDooms(st, st.thr[thid], i, false);
    }

    /** The pre-check of element `i`, unless its record has been doing well lately. */
    method PrecheckOne(i: nat, omit: bool, patience: nat, ghost from: nat, ghost tx: Executor) returns (o: Outcome)
      requires Still(from, tx) && st.thr[thid].phase == Precheck(i) && i < |st.thr[thid].wset| / 2
      modifies this
      ensures Still(from, tx) && old(run) <= run
      ensures o.Proceed? ==> st.thr[thid].phase == Precheck(i + 1)
      ensures o.MustAbort? ==> Hopeless(from, tx, false)
      ensures o.GaveUp? ==> |run| > from + patience
      ensures omit ==> o.Proceed?
    {
      PreFacts(i);
      if omit {
        assert PreSkip(st, SetPhase(st, thid, Precheck(i + 1)), thid);
        StepPhase(Precheck(i + 1));
        return Proceed;
      }
      if st.thr[thid].wset[i].rmw {
        o := PrecheckNewest(i, from, tx);
        return;
      }
      PreBegin(i);
      o := PreWalk(i, patience, from, tx);
    }

    method PreBegin(i: nat)
      requires Sound() && st.thr[thid].phase == Precheck(i) && i < |st.thr[thid].wset| / 2 && !st.thr[thid].wset[i].rmw
      modifies this
      ensures Sound() && old(run) <= run && st.thr[thid] == old(st.thr[thid]).(phase := st.thr[thid].phase)
      ensures st.thr[thid].phase.PreSeek? && st.thr[thid].phase.i == i
    {
      PreFacts(i);
      var e := st.thr[thid].wset[i];
      LatestFacts(e.key);
      var top := if e.later != NIL then e.later else st.recs[e.key].latest;
      assert PreStart(st, SetPhase(st, thid, PreSeek(i, top)), thid);
      StepPhase(PreSeek(i, top));
    }

    method StartValidation()
      requires Sound() && st.thr[thid].phase.Executing? && !st.thr[thid].ronly
      modifies this
      ensures Sound() && old(run) <= run && st.thr[thid].phase == Precheck(0)
      ensures st.thr[thid].ts == old(st.thr[thid].ts) && st.thr[thid].rset == old(st.thr[thid].rset)
      ensures PartialSort(old(st.thr[thid].wset), st.thr[thid].wset) && |st.thr[thid].wset| == old(|st.thr[thid].wset|)
    {
      var sorted := PartialSortWrites(st.thr[thid].wset);
      var started := SetThr(st, thid, st.thr[thid].(phase := Precheck(0), wset := sorted));
      assert ValidateStart(st, started, thid, sorted);
      assert |sorted| == |multiset(sorted)|;
      Step(started);
    }

    /** precheckInValidation(): half of the write set, in key order. */
    method PrecheckHalf(omit: Key -> bool, patience: nat, ghost from: nat, ghost tx: Executor) returns (o: Outcome)
      requires Still(from, tx) && st.thr[thid].phase == Precheck(0)
      modifies this
      ensures Still(from, tx) && old(run) <= run
      ensures o.Proceed? ==> st.thr[thid].phase == Precheck(|tx.wset| / 2)
      ensures o.MustAbort? ==> Hopeless(from, tx, false)
      ensures o.GaveUp? ==> |run| > from + patience
    {
      var i := 0;
      while i < |st.thr[thid].wset| / 2
        invariant Still(from, tx) && old(run) <= run && i <= |tx.wset| / 2 && st.thr[thid].phase == Precheck(i)
        decreases |tx.wset| - i
      {
        Others();
        o := PrecheckOne(i, omit(st.thr[thid].wset[i].key), patience, from, tx);
        if !o.Proceed? {
          return;
        }
        i := i + 1;
      }
      return Proceed;
    }

    /** The pre-check as a whole; the write set comes out in another order. */
    method PrecheckWrites(omit: Key -> bool, patience: nat) returns (o: Outcome)
      requires Sound() && st.thr[thid].phase.Executing? && !st.thr[thid].ronly
      modifies this
      ensures Sound() && old(run) <= run && Reordered(st.thr[thid], old(st.thr[thid]))
      ensures o.Proceed? ==> st.thr[thid].phase == Install(0, NIL)
      ensures o.MustAbort? ==> Hopeless(|old(run)| - 1, old(st.thr[thid]), false)
      ensures o.GaveUp? ==> |run| >= |old(run)| + patience
    {
      ghost var from, tx := |run| - 1, st.thr[thid];
      StartValidation();
      ghost var sorted, before := st.thr[thid], |run| - 1;
      o := PrecheckHalf(omit, patience, before, sorted);
      SortedReordered(tx, sorted, st.thr[thid]);
      if o.Proceed? {
        assert PreSkip(st, SetPhase(st, thid, Install(0, NIL)), thid);
        StepPhase(Install(0, NIL));
      } else if o.MustAbort? {
        SortedReordered(tx, sorted, sorted);
        DoomCarried(run, before, sorted, run, from, tx, false);
      }
    }

    // ------------------------------------------------- validation(): installing

    lemma InstallFacts(i: nat)
      requires Sound() && Installing(st.thr[thid].phase) && st.thr[thid].phase.i == i < |st.thr[thid].wset|
      ensures InstallAt(st, thid, i) && !st.thr[thid].ronly
      ensures st.thr[thid].wset[i].later != NIL ==> Valid(st.heap, st.thr[thid].wset[i].later)
      ensures st.thr[thid].phase.InstallSeek? ==> Valid(st.heap, st.thr[thid].phase.cur)
    {
      WalkFacts();
      assert WriteOk(st.heap, st.thr[thid], thid, i);
    }

    /** Where to install element `i`: the head, or down the list from a newer version. */
    method LoadPlace(i: nat, ghost from: nat, ghost tx: Executor) returns (o: Outcome)
      requires Still(from, tx) && st.thr[thid].phase.Install? && st.thr[thid].phase.i == i < |st.thr[thid].wset|
      modifies this
      ensures Still(from, tx) && run == old(run) + [st] && !o.GaveUp?
      ensures o.MustAbort? ==> Hopeless(from, tx, true)
      ensures o.Proceed? ==> (st.thr[thid].phase.InstallHead? || st.thr[thid].phase.InstallSeek?) && st.thr[thid].phase.i == i
    {
      if st.thr[thid].wset[i].rmw {
        o := LoadHead(i, from, tx);
        return;
      }
      InstallFacts(i);
      var e := st.thr[thid].wset[i];
      LatestFacts(e.key);
      var newest := st.recs[e.key].latest;
      var p := if e.later != NIL then InstallSeek(i, st.heap[e.later].next, st.thr[thid].phase.exp) else InstallSeek(i, newest, newest);
      assert InstallLoad(st, SetPhase(st, thid, p), thid);
      StepPhase(p);
      return Proceed;
    }

    /** A record read before can only be written at the head. */
    method LoadHead(i: nat, ghost from: nat, ghost tx: Executor) returns (o: Outcome)
      requires Still(from, tx) && st.thr[thid].phase.Install? && st.thr[thid].phase.i == i < |st.thr[thid].wset|
      requires st.thr[thid].wset[i].rmw
      modifies this
      ensures Still(from, tx) && run == old(run) + [st]
      ensures if o.Proceed? then st.thr[thid].phase.InstallHead? && st.thr[thid].phase.i == i
              else o.MustAbort? && Hopeless(from, tx, true)
    {
      InstallFacts(i);
      LatestFacts(st.thr[thid].wset[i].key);
      var newest := st.recs[st.thr[thid].wset[i].key].latest;
      if st.thr[thid].ts < st.heap[newest].wts {
        assert InstallLoadRmw(st, SetPhase(st, thid, Aborting(0)), thid);
        HeadDooms(st, st.thr[thid], i, true);
        GiveIn(from, tx, true);
        return MustAbort;
      }
      assert InstallLoadRmw(st, SetPhase(st, thid, InstallHead(i, newest)), thid);
      StepPhase(InstallHead(i, newest));
      return Proceed;
    }

    /** Past versions newer than the transaction, remembering the last one passed. */
    method SeekPlace(i: nat, patience: nat, ghost from: nat, ghost tx: Executor) returns (o: Outcome)
      requires Still(from, tx) && st.thr[thid].phase.InstallSeek? && st.thr[thid].phase.i == i < |tx.wset|
      modifies this
      ensures Still(from, tx) && old(run) <= run && !o.MustAbort?
      ensures o.Proceed? ==> (st.thr[thid].phase.InstallHead? || st.thr[thid].phase.InstallSeek?) && st.thr[thid].phase.i == i
      ensures o.Proceed? && st.thr[thid].phase.InstallSeek? ==>
                && Valid(st.heap, st.thr[thid].phase.cur) && st.heap[st.thr[thid].phase.cur].wts <= st.thr[thid].ts
                && st.thr[thid].phase.cur != st.thr[thid].phase.exp
      ensures o.GaveUp? ==> |run| > from + patience
    {
      var n := patience;
      while n > 0
        invariant Still(from, tx) && old(run) <= run && n <= patience && |run| > from + (patience - n)
        invariant st.thr[thid].phase.InstallSeek? && st.thr[thid].phase.i == i
      {
        n := n - 1;
        Others();
        InstallFacts(i);
        var cur := st.thr[thid].phase.cur;
        if st.heap[cur].wts > st.thr[thid].ts {
          PassNewer(i, from, tx);
        } else {
          if cur == st.thr[thid].phase.exp {
            assert InstallDecide(st, SetPhase(st, thid, InstallHead(i, cur)), thid);
            StepPhase(InstallHead(i, cur));
          }
          return Proceed;
        }
      }
      return GaveUp;
    }

    method PassNewer(i: nat, ghost from: nat, ghost tx: Executor)
      requires Still(from, tx) && st.thr[thid].phase.InstallSeek? && st.thr[thid].phase.i == i < |tx.wset|
      requires Valid(st.heap, st.thr[thid].phase.cur) && st.heap[st.thr[thid].phase.cur].wts > st.thr[thid].ts
      modifies this
      ensures Still(from, tx) && run == old(run) + [st] && st.thr[thid].phase.InstallSeek? && st.thr[thid].phase.i == i
    {
      var now, cur := st.thr[thid], st.thr[thid].phase.cur;
      var next := SetThr(st, thid, now.(phase := InstallSeek(i, st.heap[cur].next, now.phase.exp),
                                        wset := now.wset[i := now.wset[i].(later := cur)]));
      assert InstallNext(st, next, thid);
      Step(next);
    }

    method SwapHead(i: nat, ghost from: nat, ghost tx: Executor) returns (done: bool)
      requires Still(from, tx) && st.thr[thid].phase.InstallHead? && st.thr[thid].phase.i == i < |st.thr[thid].wset|
      modifies this
      ensures Still(from, tx) && run == old(run) + [st]
      ensures st.thr[thid].phase.Install? && st.thr[thid].phase.i == if done then i + 1 else i
    {
      InstallFacts(i);
      var now, e := st.thr[thid], st.thr[thid].wset[i];
      done := st.recs[e.key].latest == now.phase.exp;
      if done {
        var next := SetThr(st, thid, now.(phase := Install(i + 1, NIL), wset := now.wset[i := e.(installed := true)]))
                    .(heap := st.heap[e.ver := Installed(st.heap, e.ver, e.key, now.phase.exp, st.clock)],
                      recs := st.recs[e.key := st.recs[e.key].(latest := e.ver)], clock := st.clock + 1);
        assert CasHead(st, next, thid);
        Step(next);
      } else {
        assert CasHeadFail(st, SetPhase(st, thid, Install(i, st.recs[e.key].latest)), thid);
        StepPhase(Install(i, st.recs[e.key].latest));
      }
    }

    method SwapMiddle(i: nat, ghost from: nat, ghost tx: Executor) returns (done: bool)
      requires Still(from, tx) && st.thr[thid].phase.InstallSeek? && st.thr[thid].phase.i == i < |st.thr[thid].wset|
      requires Valid(st.heap, st.thr[thid].phase.cur) && st.heap[st.thr[thid].phase.cur].wts <= st.thr[thid].ts
      requires st.thr[thid].phase.cur != st.thr[thid].phase.exp
      modifies this
      ensures Still(from, tx) && run == old(run) + [st]
      ensures st.thr[thid].phase.Install? && st.thr[thid].phase.i == if done then i + 1 else i
    {
      InstallFacts(i);
      MiddleFacts(i);
      var now, e := st.thr[thid], st.thr[thid].wset[i];
      done := st.heap[e.later].next == now.phase.cur;
      if done {
        var next := SetThr(st, thid, now.(phase := Install(i + 1, NIL), wset := now.wset[i := e.(installed := true)]))
                    .(heap := st.heap[e.ver := Installed(st.heap, e.ver, e.key, now.phase.cur, st.clock)]
                                     [e.later := st.heap[e.later].(next := e.ver)],
                      clock := st.clock + 1);
        assert CasMiddle(st, next, thid);
        Step(next);
      } else {
        assert CasMiddleFail(st, SetPhase(st, thid, Install(i, now.phase.exp)), thid);
        StepPhase(Install(i, now.phase.exp));
      }
    }

    /** A search that has not ended at the head has passed a version: there is one to swap. */
    lemma MiddleFacts(i: nat)
      requires Sound() && st.thr[thid].phase.InstallSeek? && st.thr[thid].phase.i == i < |st.thr[thid].wset|
      requires st.thr[thid].phase.cur != st.thr[thid].phase.exp
      ensures Valid(st.heap, st.thr[thid].wset[i].later)
    {
      WalkFacts();
      assert WriteOk(st.heap, st.thr[thid], thid, i);
    }

    /** The retry loop around the installation of element `i`. */
    method InstallOne(i: nat, patience: nat, ghost from: nat, ghost tx: Executor) returns (o: Outcome)
      requires Still(from, tx) && st.thr[thid].phase.Install? && st.thr[thid].phase.i == i < |tx.wset|
      modifies this
      ensures Still(from, tx) && old(run) <= run
      ensures o.MustAbort? ==> Hopeless(from, tx, true)
      ensures o.Proceed? ==> st.thr[thid].phase.Install? && st.thr[thid].phase.i == i + 1
      ensures o.GaveUp? ==> |run| > from + patience
    {
      var n := patience;
      while n > 0
        invariant Still(from, tx) && old(run) <= run && n <= patience && |run| > from + (patience - n)
        invariant st.thr[thid].phase.Install? && st.thr[thid].phase.i == i
      {
        n := n - 1;
        Others();
        var done;
        o, done := TryInstall(i, patience, from, tx);
        if !o.Proceed? || done {
          return;
        }
      }
      return GaveUp;
    }

    /** One attempt: it ends with a compare-and-swap, unless the transaction has to abort. */
    method TryInstall(i: nat, patience: nat, ghost from: nat, ghost tx: Executor) returns (o: Outcome, done: bool)
      requires Still(from, tx) && st.thr[thid].phase.Install? && st.thr[thid].phase.i == i < |tx.wset|
      modifies this
      ensures Still(from, tx) && old(run) <= run && |run| > |old(run)|
      ensures o.MustAbort? ==> Hopeless(from, tx, true)
      ensures o.Proceed? ==> st.thr[thid].phase.Install? && st.thr[thid].phase.i == if done then i + 1 else i
      ensures o.GaveUp? ==> |run| > from + patience
    {
      done := false;
      o := LoadPlace(i, from, tx);
      if o.MustAbort? {
        return;
      }
      if st.thr[thid].phase.InstallSeek? {
        o := SeekPlace(i, patience, from, tx);
        if o.GaveUp? {
          return;
        }
      }
      if st.thr[thid].phase.InstallSeek? {
        done := SwapMiddle(i, from, tx);
      } else {
        done := SwapHead(i, from, tx);
      }
    }

    lemma AllInstalled()
      requires Sound() && st.thr[thid].phase == Raise(0)
      ensures forall j | 0 <= j < |st.thr[thid].wset| ::
                var e := st.thr[thid].wset[j]; On(st.heap, e.ver, e.key) && st.heap[e.ver].wts == st.thr[thid].ts
    {
      WalkFacts();
      forall j | 0 <= j < |st.thr[thid].wset|
        ensures var e := st.thr[thid].wset[j]; On(st.heap, e.ver, e.key) && st.heap[e.ver].wts == st.thr[thid].ts
      {
        assert WriteOk(st.heap, st.thr[thid], thid, j);
      }
    }

    /** Installs the whole write set as pending versions. */
    method InstallWrites(patience: nat, ghost from: nat, ghost tx: Executor) returns (o: Outcome)
      requires Still(from, tx) && st.thr[thid].phase == Install(0, NIL)
      modifies this
      ensures Still(from, tx) && old(run) <= run
      ensures o.MustAbort? ==> Hopeless(from, tx, true)
      ensures o.GaveUp? ==> |run| > from + patience
      ensures o.Proceed? ==> st.thr[thid].phase == Raise(0)
      ensures o.Proceed? ==> forall j | 0 <= j < |st.thr[thid].wset| ::
                var e := st.thr[thid].wset[j]; On(st.heap, e.ver, e.key) && st.heap[e.ver].wts == st.thr[thid].ts
    {
      var i := 0;
      while i < |st.thr[thid].wset|
        invariant Still(from, tx) && old(run) <= run && i <= |tx.wset|
        invariant st.thr[thid].phase.Install? && st.thr[thid].phase.i == i
        decreases |tx.wset| - i
      {
        o := InstallOne(i, patience, from, tx);
        if !o.Proceed? {
          return;
        }
        i := i + 1;
      }
      assert InstallEnd(st, SetPhase(st, thid, Raise(0)), thid);
      StepPhase(Raise(0));
      AllInstalled();
      return Proceed;
    }

    // ------------------------------------ validation(): raising, scanning, checking

    /** Raises a read timestamp to the transaction's, if it is smaller; nothing else changes. */
    method RaiseItem(i: nat)
      requires Sound() && st.thr[thid].phase == Raise(i) && i < |st.thr[thid].rset|
      modifies this
      ensures Sound() && old(run) <= run && st.thr[thid] == old(st.thr[thid]).(phase := Raise(i + 1))
      ensures var v := st.thr[thid].rset[i].ver; var ts := st.thr[thid].ts;
              && Valid(old(st.heap), v) && Valid(st.heap, v)
              && old(st.heap[v].rts) <= st.heap[v].rts && ts <= st.heap[v].rts
              && (st.heap[v].rts == old(st.heap[v].rts) || st.heap[v].rts == ts)
              && st.heap == old(st.heap)[v := old(st.heap)[v].(rts := st.heap[v].rts)]
    {
      ReadFactsHere(i);
      var v := st.thr[thid].rset[i].ver;
      var next := SetPhase(st, thid, Raise(i + 1)).(heap := st.heap[v := RaiseTo(st.heap[v], st.thr[thid].ts)]);
      assert RaiseOne(st, next, thid);
      Step(next);
    }

    lemma AllRaised()
      requires Sound() && st.thr[thid].phase == Scan(0)
      ensures forall j | 0 <= j < |st.thr[thid].rset| ::
                var v := st.thr[thid].rset[j].ver; Valid(st.heap, v) && st.heap[v].rts >= st.thr[thid].ts
    {
      Reachable();
      ThreadOf(st, thid);
      forall j | 0 <= j < |st.thr[thid].rset|
        ensures var v := st.thr[thid].rset[j].ver; Valid(st.heap, v) && st.heap[v].rts >= st.thr[thid].ts
      {
        assert ReadCertified(st.heap, st.thr[thid], j);
      }
    }

    /** readTimestampUpdateInValidation(): afterwards every version read has a read timestamp
        not below the transaction's. */
    method RaiseReads()
      requires Sound() && st.thr[thid].phase == Raise(0)
      modifies this
      ensures Sound() && old(run) <= run && st.thr[thid] == old(st.thr[thid]).(phase := Scan(0))
      ensures forall j | 0 <= j < |st.thr[thid].rset| ::
                var v := st.thr[thid].rset[j].ver; Valid(st.heap, v) && st.heap[v].rts >= st.thr[thid].ts
    {
      var i := 0;
      while i < |st.thr[thid].rset|
        invariant Sound() && old(run) <= run && i <= |st.thr[thid].rset|
        invariant st.thr[thid] == old(st.thr[thid]).(phase := Raise(i))
        decreases |st.thr[thid].rset| - i
      {
        Others();
        RaiseItem(i);
        i := i + 1;
      }
      EndRaise();
    }

    method EndRaise()
      requires Sound() && st.thr[thid].phase == Raise(|st.thr[thid].rset|)
      modifies this
      ensures Sound() && old(run) <= run && st.thr[thid] == old(st.thr[thid]).(phase := Scan(0))
      ensures forall j | 0 <= j < |st.thr[thid].rset| ::
                var v := st.thr[thid].rset[j].ver; Valid(st.heap, v) && st.heap[v].rts >= st.thr[thid].ts
    {
      assert RaiseEnd(st, SetPhase(st, thid, Scan(0)), thid);
      StepPhase(Scan(0));
      AllRaised();
    }

    lemma ReadFactsHere(i: nat)
      requires Sound() && i < |st.thr[thid].rset|
      ensures ReadOk(st.heap, st.thr[thid], st.thr[thid].rset[i]) && st.thr[thid].rset[i].key < |st.recs|
      ensures st.thr[thid].phase.ScanSeek? || st.thr[thid].phase.ScanWait? ==> OnList(st.heap, st.thr[thid].phase.cur)
    {
      WalkFacts();
    }

    /** Down the list, past newer versions, to the one visible now. */
    method ScanSearch(i: nat, patience: nat, ghost from: nat, ghost tx: Executor) returns (o: Outcome)
      requires Still(from, tx) && st.thr[thid].phase.ScanSeek? && st.thr[thid].phase.i == i < |tx.rset|
      modifies this
      ensures Still(from, tx) && old(run) <= run && !o.MustAbort?
      ensures o.Proceed? ==> st.thr[thid].phase.ScanWait? && st.thr[thid].phase.i == i
      ensures o.GaveUp? ==> |run| > from + patience
    {
      var n := patience;
      while n > 0
        invariant Still(from, tx) && old(run) <= run && n <= patience && |run| > from + (patience - n)
        invariant st.thr[thid].phase.ScanSeek? && st.thr[thid].phase.i == i
      {
        n := n - 1;
        Others();
        ReadFactsHere(i);
        var cur := st.thr[thid].phase.cur;
        if st.heap[cur].wts >= st.thr[thid].ts {
          assert ScanNext(st, SetPhase(st, thid, ScanSeek(i, st.heap[cur].next)), thid);
          StepPhase(ScanSeek(i, st.heap[cur].next));
        } else {
          assert ScanReach(st, SetPhase(st, thid, ScanWait(i, cur)), thid);
          StepPhase(ScanWait(i, cur));
          return Proceed;
        }
      }
      return GaveUp;
    }

    /** Waits for pending versions, passes aborted ones, and compares what is visible now
        with what was read. */
    method ScanSettle(i: nat, patience: nat, ghost from: nat, ghost tx: Executor) returns (o: Outcome)
      requires Still(from, tx) && st.thr[thid].phase.ScanWait? && st.thr[thid].phase.i == i < |tx.rset|
      modifies this
      ensures Still(from, tx) && old(run) <= run
      ensures o.Proceed? ==> st.thr[thid].phase == Scan(i + 1)
      ensures o.MustAbort? ==> Hopeless(from, tx, true)
      ensures o.GaveUp? ==> Exhausted(run, from, thid, patience)
    {
      var n := patience;
      while n > 0
        invariant Still(from, tx) && old(run) <= run && n <= patience && Exhausted(run, from, thid, patience - n)
        invariant st.thr[thid].phase.ScanWait? && st.thr[thid].phase.i == i
      {
        n := n - 1;
        ghost var before := run;
        Others();
        o := ScanTurn(i, from, tx);
        if !o.GaveUp? {
          return;
        }
        Longer1(before, run, from, thid, patience - n - 1);
      }
      return GaveUp;
    }

    method ScanTurn(i: nat, ghost from: nat, ghost tx: Executor) returns (o: Outcome)
      requires Still(from, tx) && st.thr[thid].phase.ScanWait? && st.thr[thid].phase.i == i < |tx.rset|
      modifies this
      ensures Still(from, tx) && old(run) <= run
      ensures o.Proceed? ==> st.thr[thid].phase == Scan(i + 1)
      ensures o.MustAbort? ==> Hopeless(from, tx, true)
      ensures o.GaveUp? ==> st.thr[thid].phase.ScanWait? && st.thr[thid].phase.i == i && (|run| > |old(run)| || Waits(st, thid))
    {
      ReadFactsHere(i);
      var cur := st.thr[thid].phase.cur;
      if st.heap[cur].status.Committed? {
        o := ScanDecide(i, from, tx);
        return;
      }
      if st.heap[cur].status.Aborted? {
        assert ScanDown(st, SetPhase(st, thid, ScanWait(i, st.heap[cur].next)), thid);
        StepPhase(ScanWait(i, st.heap[cur].next));
      } else {
        ListedNotUnused(cur);
      }
      return GaveUp;
    }

    method ScanDecide(i: nat, ghost from: nat, ghost tx: Executor) returns (o: Outcome)
      requires Still(from, tx) && st.thr[thid].phase.ScanWait? && st.thr[thid].phase.i == i < |tx.rset|
      requires Valid(st.heap, st.thr[thid].phase.cur) && st.heap[st.thr[thid].phase.cur].status.Committed?
      modifies this
      ensures Still(from, tx) && run == old(run) + [st]
      ensures if o.Proceed? then st.thr[thid].phase == Scan(i + 1) else o.MustAbort? && Hopeless(from, tx, true)
    {
      if st.thr[thid].rset[i].ver != st.thr[thid].phase.cur {
        assert ScanJudge(st, SetPhase(st, thid, Aborting(0)), thid);
        RescanDooms(i);
        GiveIn(from, tx, true);
        return MustAbort;
      }
      assert ScanJudge(st, SetPhase(st, thid, Scan(i + 1)), thid);
      StepPhase(Scan(i + 1));
      return Proceed;
    }

    lemma RescanDooms(i: nat)
      requires Sound() && st.thr[thid].phase.ScanWait? && st.thr[thid].phase.i == i < |st.thr[thid].rset|
      requires ScanJudge(st, SetPhase(st, thid, Aborting(0)), thid)
      ensures Doomed(st, st.thr[thid], true)
    {
      RescanOutcome(run, |run| - 1, SetPhase(st, thid, Aborting(0)), thid);
      assert Overwritten(st.heap, st.thr[thid].rset[i], st.thr[thid].ts);
    }

    method ScanBegin(i: nat)
      requires Sound() && st.thr[thid].phase == Scan(i) && i < |st.thr[thid].rset|
      modifies this
      ensures Sound() && old(run) <= run && st.thr[thid] == old(st.thr[thid]).(phase := st.thr[thid].phase)
      ensures st.thr[thid].phase.ScanSeek? && st.thr[thid].phase.i == i
    {
      ReadFactsHere(i);
      LatestFacts(st.thr[thid].rset[i].key);
      var r := st.thr[thid].rset[i];
      var from := if r.later != NIL then r.later else st.recs[r.key].latest;
      assert ScanStart(st, SetPhase(st, thid, ScanSeek(i, from)), thid);
      StepPhase(ScanSeek(i, from));
    }

    method ScanItem(i: nat, patience: nat, ghost from: nat, ghost tx: Executor) returns (o: Outcome)
      requires Still(from, tx) && st.thr[thid].phase == Scan(i) && i < |tx.rset|
      modifies this
      ensures Still(from, tx) && old(run) <= run
      ensures o.Proceed? ==> st.thr[thid].phase == Scan(i + 1)
      ensures o.MustAbort? ==> Hopeless(from, tx, true)
      ensures o.GaveUp? ==> Exhausted(run, from, thid, patience)
    {
      Others();
      ScanBegin(i);
      o := ScanSearch(i, patience, from, tx);
      if o.Proceed? {
        o := ScanSettle(i, patience, from, tx);
      }
    }

    /** Check (a): every version read is still the visible one. */
    method ScanReads(patience: nat, ghost from: nat, ghost tx: Executor) returns (o: Outcome)
      requires Still(from, tx) && st.thr[thid].phase == Scan(0)
      modifies this
      ensures Still(from, tx) && old(run) <= run
      ensures o.Proceed? ==> st.thr[thid].phase == Check(0)
      ensures o.MustAbort? ==> Hopeless(from, tx, true)
      ensures o.GaveUp? ==> Exhausted(run, from, thid, patience)
    {
      var i := 0;
      while i < |st.thr[thid].rset|
        invariant Still(from, tx) && old(run) <= run && i <= |tx.rset| && st.thr[thid].phase == Scan(i)
        decreases |tx.rset| - i
      {
        o := ScanItem(i, patience, from, tx);
        if !o.Proceed? {
          return;
        }
        i := i + 1;
      }
      EndScan();
      return Proceed;
    }

    method EndScan()
      requires Sound() && st.thr[thid].phase == Scan(|st.thr[thid].rset|)
      modifies this
      ensures Sound() && old(run) <= run && st.thr[thid] == old(st.thr[thid]).(phase := Check(0))
    {
      assert ScanEnd(st, SetPhase(st, thid, Check(0)), thid);
      StepPhase(Check(0));
    }

    lemma CheckFacts(i: nat)
      requires Sound() && Checking(st.thr[thid].phase) && st.thr[thid].phase.i == i < |st.thr[thid].wset|
      ensures Valid(st.heap, st.thr[thid].wset[i].ver)
      ensures st.thr[thid].phase.CheckWait? ==> OnList(st.heap, st.thr[thid].phase.cur)
    {
      WalkFacts();
      assert WriteOk(st.heap, st.thr[thid], thid, i);
    }

    /** Check (b) of element `i`: the version to be overtaken was not read later. */
    method CheckOne(i: nat, patience: nat, ghost from: nat, ghost tx: Executor) returns (o: Outcome)
      requires Still(from, tx) && st.thr[thid].phase == Check(i) && i < |tx.wset|
      modifies this
      ensures Still(from, tx) && old(run) <= run
      ensures o.Proceed? ==> st.thr[thid].phase == Check(i + 1)
      ensures o.MustAbort? ==> Hopeless(from, tx, true)
      ensures o.GaveUp? ==> Exhausted(run, from, thid, patience)
    {
      Others();
      CheckBegin(i);
      var n := patience;
      while n > 0
        invariant Still(from, tx) && old(run) <= run && n <= patience && Exhausted(run, from, thid, patience - n)
        invariant st.thr[thid].phase.CheckWait? && st.thr[thid].phase.i == i
      {
        n := n - 1;
        ghost var before := run;
        Others();
        o := CheckTurn(i, from, tx);
        if !o.GaveUp? {
          return;
        }
        Longer1(before, run, from, thid, patience - n - 1);
      }
      return GaveUp;
    }

    method CheckBegin(i: nat)
      requires Sound() && st.thr[thid].phase == Check(i) && i < |st.thr[thid].wset|
      modifies this
      ensures Sound() && old(run) <= run && st.thr[thid] == old(st.thr[thid]).(phase := st.thr[thid].phase)
      ensures st.thr[thid].phase.CheckWait? && st.thr[thid].phase.i == i
    {
      CheckFacts(i);
      var below := st.heap[st.thr[thid].wset[i].ver].next;
      assert CheckStart(st, SetPhase(st, thid, CheckWait(i, below)), thid);
      StepPhase(CheckWait(i, below));
    }

    method CheckTurn(i: nat, ghost from: nat, ghost tx: Executor) returns (o: Outcome)
      requires Still(from, tx) && st.thr[thid].phase.CheckWait? && st.thr[thid].phase.i == i < |tx.wset|
      modifies this
      ensures Still(from, tx) && old(run) <= run
      ensures o.Proceed? ==> st.thr[thid].phase == Check(i + 1)
      ensures o.MustAbort? ==> Hopeless(from, tx, true)
      ensures o.GaveUp? ==> st.thr[thid].phase.CheckWait? && st.thr[thid].phase.i == i && (|run| > |old(run)| || Waits(st, thid))
    {
      CheckFacts(i);
      var cur := st.thr[thid].phase.cur;
      if st.heap[cur].status.Committed? {
        o := CheckJudge(i, from, tx);
        return;
      }
      if st.heap[cur].status.Aborted? {
        assert CheckDown(st, SetPhase(st, thid, CheckWait(i, st.heap[cur].next)), thid);
        StepPhase(CheckWait(i, st.heap[cur].next));
      } else {
        ListedNotUnused(cur);
      }
      return GaveUp;
    }

    /** The version about to be overtaken must not have been read strictly later. */
    method CheckJudge(i: nat, ghost from: nat, ghost tx: Executor) returns (o: Outcome)
      requires Still(from, tx) && st.thr[thid].phase.CheckWait? && st.thr[thid].phase.i == i < |tx.wset|
      requires Valid(st.heap, st.thr[thid].phase.cur) && st.heap[st.thr[thid].phase.cur].status.Committed?
      modifies this
      ensures Still(from, tx) && run == old(run) + [st]
      ensures if o.Proceed? then st.thr[thid].phase == Check(i + 1) else o.MustAbort? && Hopeless(from, tx, true)
    {
      CheckFacts(i);
      if st.heap[st.thr[thid].phase.cur].rts > st.thr[thid].ts {
        assert CheckFail(st, SetPhase(st, thid, Aborting(0)), thid);
        CheckDooms(i);
        GiveIn(from, tx, true);
        return MustAbort;
      }
      var n := st.thr[thid].wset[i].ver;
      var next := SetPhase(st, thid, Check(i + 1)).(heap := st.heap[n := st.heap[n].(passed := true)]);
      assert CheckOk(st, next, thid);
      Step(next);
      return Proceed;
    }

    lemma CheckDooms(i: nat)
      requires Sound() && st.thr[thid].phase.CheckWait? && st.thr[thid].phase.i == i < |st.thr[thid].wset|
      requires CheckFail(st, SetPhase(st, thid, Aborting(0)), thid)
      ensures Doomed(st, st.thr[thid], true)
    {
      CheckOutcome(run, |run| - 1, SetPhase(st, thid, Aborting(0)), thid);
      OvertakesDooms(st, st.thr[thid], i, st.thr[thid].phase.cur, true);
    }

    method CheckWrites(patience: nat, ghost from: nat, ghost tx: Executor) returns (o: Outcome)
      requires Still(from, tx) && st.thr[thid].phase == Check(0)
      modifies this
      ensures Still(from, tx) && old(run) <= run
      ensures o.Proceed? ==> st.thr[thid].phase == Check(|tx.wset|)
      ensures o.MustAbort? ==> Hopeless(from, tx, true)
      ensures o.GaveUp? ==> Exhausted(run, from, thid, patience)
    {
      var i := 0;
      while i < |st.thr[thid].wset|
        invariant Still(from, tx) && old(run) <= run && i <= |tx.wset| && st.thr[thid].phase == Check(i)
        decreases |tx.wset| - i
      {
        o := CheckOne(i, patience, from, tx);
        if !o.Proceed? {
          return;
        }
        i := i + 1;
      }
      return Proceed;
    }

    /** Installs the writes, then raises and re-scans the reads. */
    method InstallAndScan(patience: nat, ghost from: nat, ghost tx: Executor) returns (o: Outcome)
      requires Still(from, tx) && st.thr[thid].phase == Install(0, NIL)
      modifies this
      ensures Still(from, tx) && old(run) <= run
      ensures o.Proceed? ==> st.thr[thid].phase == Check(0)
      ensures o.MustAbort? ==> Hopeless(from, tx, true)
      ensures o.GaveUp? ==> Exhausted(run, from, thid, patience)
    {
      o := InstallWrites(patience, from, tx);
      if o.Proceed? {
        RaiseReads();
        o := ScanReads(patience, from, tx);
      }
    }

    lemma ReadsSettled()
      requires Sound() && st.thr[thid].phase == Check(|st.thr[thid].wset|)
      ensures forall j | 0 <= j < |st.thr[thid].rset| ::
                var r := st.thr[thid].rset[j]; SettledAt(st.heap, r.key, r.ver, st.thr[thid].ts)
    {
      Reachable();
      forall j | 0 <= j < |st.thr[thid].rset|
        ensures var r := st.thr[thid].rset[j]; SettledAt(st.heap, r.key, r.ver, st.thr[thid].ts)
      {
        CertifiedSettles(st, thid, j);
      }
    }

    /** validation() from the installation on.  When it succeeds, every version read is
        settled as the newest below the transaction's timestamp.  It fails only if, in some
        state on the way, a record read before and written has got a newer version than the
        transaction, or a version has been committed between one that was read and the
        transaction, or the committed version below one of the writes has been read strictly
        later; and it gives up only before a pending version, or after `patience` steps. */
    method Validate(patience: nat) returns (o: Outcome)
      requires Sound() && st.thr[thid].phase == Install(0, NIL)
      modifies this
      ensures Sound() && old(run) <= run && Kept(old(st.thr[thid]), st.thr[thid])
      ensures o.MustAbort? ==> Hopeless(|old(run)| - 1, old(st.thr[thid]), true)
      ensures o.GaveUp? ==> Exhausted(run, |old(run)| - 1, thid, patience)
      ensures o.Proceed? ==> st.thr[thid].phase == Check(|st.thr[thid].wset|)
      ensures o.Proceed? ==> forall j | 0 <= j < |st.thr[thid].rset| ::
                var r := st.thr[thid].rset[j]; SettledAt(st.heap, r.key, r.ver, st.thr[thid].ts)
    {
      ghost var from, tx := |run| - 1, st.thr[thid];
      o := InstallAndScan(patience, from, tx);
      if o.Proceed? {
        o := CheckWrites(patience, from, tx);
        if o.Proceed? {
          ReadsSettled();
        }
      }
    }

    // ------------------------------------------------------- commit and abort

    /** The commit point: the history takes the transaction up. */
    method Decide()
      requires Sound() && st.thr[thid].phase == Check(|st.thr[thid].wset|)
      modifies this
      ensures Sound() && run == old(run) + [st] && st.thr[thid].phase == Committing(0)
      ensures Stamp(old(st.thr[thid].ts), 0) in st.commits
      ensures CommitPoint(old(st), st, thid)
    {
      WalkFacts();
      var tx := st.thr[thid];
      var stamp := Stamp(tx.ts, 0);
      var committed := SetPhase(st, thid, Committing(0))
                       .(commits := st.commits[stamp := Txn(ReadMap(tx.rset), WriteMap(tx.wset))],
                         sources := st.sources[stamp := SourceMap(tx.rset)]);
      assert CommitPoint(st, committed, thid);
      Step(committed);
    }

    /** No version of this executor is pending in a list or left in a write set. */
    ghost predicate NothingOpen()
      reads this
    {
      forall v | 0 <= v < |st.heap| ::
        && st.heap[v].place != InWriteSet(thid)
        && (st.heap[v].place.Listed? && st.heap[v].status.Pending? ==> st.heap[v].wts % TID_SPACE != thid)
    }

    lemma AllClosed()
      requires Sound() && st.thr[thid].phase.Maint? && st.thr[thid].wset == []
      ensures NothingOpen()
    {
      Reachable();
      ThreadOf(st, thid);
      forall v | 0 <= v < |st.heap|
        ensures st.heap[v].place != InWriteSet(thid)
        ensures st.heap[v].place.Listed? && st.heap[v].status.Pending? ==> st.heap[v].wts % TID_SPACE != thid
      {
        if st.heap[v].place.Listed? && st.heap[v].status.Pending? {
          PendingOwner(st, v);
        }
      }
    }

    /** cpv(): the versions are committed one by one. */
    method SettleVersions()
      requires Sound() && st.thr[thid].phase == Committing(0)
      modifies this
      ensures Sound() && old(run) <= run && st.thr[thid].phase.Maint? && NothingOpen()
    {
      var i := 0;
      while i < |st.thr[thid].wset|
        invariant Sound() && old(run) <= run && i <= |st.thr[thid].wset|
        invariant st.thr[thid].phase == Committing(i)
        decreases |st.thr[thid].wset| - i
      {
        Others();
        CommitOneVersion(i);
        i := i + 1;
      }
      var next := SetThr(st, thid, st.thr[thid].(phase := Maint, rset := [], wset := []));
      assert CommitEnd(st, next, thid);
      Step(next);
      AllClosed();
    }

    /** The transaction commits, then its versions do. */
    method CommitVersions()
      requires Sound() && st.thr[thid].phase == Check(|st.thr[thid].wset|)
      modifies this
      ensures Sound() && old(run) <= run && st.thr[thid].phase.Maint? && NothingOpen()
      ensures |run| > |old(run)| && Stamp(old(st.thr[thid].ts), 0) in run[|old(run)|].commits
      ensures CommitsIn(run, |old(run)|, thid)
    {
      Decide();
      ghost var decided := run;
      SettleVersions();
      assert run[|old(run)|] == decided[|old(run)|] && run[|old(run)| - 1] == decided[|old(run)| - 1];
    }

    /** The version takes its value and is committed, in its place with its timestamp; a queue
        entry will have what is below it collected. */
    method CommitOneVersion(i: nat)
      requires Sound() && st.thr[thid].phase == Committing(i) && i < |st.thr[thid].wset|
      modifies this
      ensures Sound() && old(run) <= run && st.thr[thid].phase == Committing(i + 1) && st.thr[thid].wset == old(st.thr[thid].wset)
      ensures var e := st.thr[thid].wset[i];
              && On(st.heap, e.ver, e.key) && st.heap[e.ver].status.Committed? && st.heap[e.ver].val == e.val
              && st.heap[e.ver].wts == st.thr[thid].ts == old(st.thr[thid].ts)
              && st.thr[thid].gcq == old(st.thr[thid].gcq) + [GcElement(e.key, e.ver, st.thr[thid].ts)]
    {
      WalkFacts();
      assert WriteOk(st.heap, st.thr[thid], thid, i);
      var tx, e := st.thr[thid], st.thr[thid].wset[i];
      var next := SetThr(st, thid, tx.(phase := Committing(i + 1), gcq := tx.gcq + [GcElement(e.key, e.ver, tx.ts)]))
                  .(heap := st.heap[e.ver := st.heap[e.ver].(val := e.val, status := Committed)]);
      assert CommitOne(st, next, thid);
      Step(next);
    }

    /** writeSetClean(): installed versions are marked, the others go to the pool. */
    method CleanWrites()
      requires Sound() && st.thr[thid].phase == Aborting(0)
      modifies this
      ensures Sound() && old(run) <= run && st.thr[thid].phase.Maint? && NothingOpen()
    {
      var i := 0;
      ghost var size := |st.thr[thid].wset|;
      while i < |st.thr[thid].wset|
        invariant Sound() && old(run) <= run && i <= |st.thr[thid].wset| == size && st.thr[thid].phase == Aborting(i)
        decreases size - i
      {
        Others();
        CleanOne(i);
        i := i + 1;
      }
      var next := SetThr(st, thid, st.thr[thid].(phase := Maint, rset := [], wset := []));
      assert AbortEnd(st, next, thid);
      Step(next);
      AllClosed();
    }

    method CleanOne(i: nat)
      requires Sound() && st.thr[thid].phase == Aborting(i) && i < |st.thr[thid].wset|
      modifies this
      ensures Sound() && old(run) <= run && st.thr[thid].phase == Aborting(i + 1) && st.thr[thid].wset == old(st.thr[thid].wset)
    {
      WalkFacts();
      assert WriteOk(st.heap, st.thr[thid], thid, i);
      var tx, e := st.thr[thid], st.thr[thid].wset[i];
      var next :=
        if e.installed then
          SetPhase(st, thid, Aborting(i + 1)).(heap := st.heap[e.ver := st.heap[e.ver].(status := Aborted)])
        else
          SetThr(st, thid, tx.(phase := Aborting(i + 1), pool := tx.pool + [e.ver]))
          .(heap := st.heap[e.ver := st.heap[e.ver].(status := Unused, place := InPool(thid))]);
      assert AbortOne(st, next, thid);
      Step(next);
    }

    lemma CommittedAreSerializable()
      requires Sound()
      ensures Serializable(InitialTable(run[0].recs), st.commits)
    {
      CicadaTheorems.CicadaSerializable(run, |run| - 1);
    }

    /** All the checks before the outcome is settled. */
    method Prepare(omit: Key -> bool, patience: nat) returns (o: Outcome)
      requires Sound() && st.thr[thid].phase.Executing? && !st.thr[thid].ronly
      modifies this
      ensures Sound() && old(run) <= run && Reordered(st.thr[thid], old(st.thr[thid]))
      ensures o.Proceed? ==> st.thr[thid].phase == Check(|st.thr[thid].wset|)
      ensures o.MustAbort? ==> Hopeless(|old(run)| - 1, old(st.thr[thid]), false)
      ensures o.GaveUp? ==> Exhausted(run, |old(run)| - 1, thid, patience)
    {
      ghost var from, tx := |run| - 1, st.thr[thid];
      o := PrecheckWrites(omit, patience);
      if o.Proceed? {
        ghost var checked, before := st.thr[thid], |run| - 1;
        o := Validate(patience);
        AfterPrecheck(tx, checked, st.thr[thid]);
        if o.MustAbort? {
          DoomedBefore(run, before, checked);
          DoomCarried(run, before, checked, run, from, tx, false);
        } else if o.GaveUp? {
          Earlier(run, before, from, thid, patience);
        }
      }
    }

    /** The end of a read-write transaction: it commits or cleans up after itself, and either
        way everything committed so far is serializable in timestamp order.  It is cleaned up
        only if something has come in its way. */
    method Terminate(omit: Key -> bool, patience: nat) returns (o: Outcome)
      requires Sound() && st.thr[thid].phase.Executing? && !st.thr[thid].ronly
      modifies this
      ensures Sound() && old(run) <= run && (!o.GaveUp? ==> st.thr[thid].phase.Maint? && NothingOpen())
      ensures Serializable(InitialTable(run[0].recs), st.commits)
      ensures o.Proceed? ==> CommitsIn(run, |old(run)|, thid)
      ensures o.MustAbort? ==> DoomedIn(run, |old(run)| - 1, old(st.thr[thid]), false)
      ensures o.GaveUp? ==> Exhausted(run, |old(run)| - 1, thid, patience)
    {
      ghost var from, tx := |run| - 1, st.thr[thid];
      o := Prepare(omit, patience);
      if o.Proceed? {
        CommitVersions();
      } else if o.MustAbort? {
        ghost var before := run;
        CleanWrites();
        KeptReordered(tx, tx);
        DoomCarried(before, from, tx, run, from, tx, false);
      }
      CommittedAreSerializable();
    }

    // ------------------------------------------------------ garbage collection

    /** As Others(); versions only this executor can reach stay as they are, too. */
    method OthersElsewhere()
      requires Sound()
      modifies this
      ensures Sound() && st.thr[thid] == old(st.thr[thid]) && old(run) <= run
      ensures |st.recs| == old(|st.recs|) && |st.thr| == old(|st.thr|)
      ensures |st.heap| >= old(|st.heap|)
      ensures forall v | 0 <= v < old(|st.heap|) && old(st.heap)[v].place == Detached(thid) :: st.heap[v] == old(st.heap)[v]
    {
    }

    lemma QueueFacts()
      requires Sound()
      ensures GcOk(st.heap, st.recs, st.thr[thid], thid, st.minRts) && DetachedOk(st.heap, st.thr[thid], thid)
    {
      Reachable();
      ThreadOf(st, thid);
    }

    /** mainte(): works off the queue from its old end. */
    method Maintain()
      requires Sound() && st.thr[thid].phase.Maint?
      modifies this
      ensures Sound() && old(run) <= run && st.thr[thid].phase.Idle?
      ensures st.thr[thid].gcq != [] ==> st.thr[thid].gcq[0].wts >= st.minRts
    {
      ghost var size := |st.thr[thid].gcq|;
      while st.thr[thid].gcq != [] && st.thr[thid].gcq[0].wts < st.minRts
        invariant Sound() && old(run) <= run && st.thr[thid].phase.Maint? && |st.thr[thid].gcq| <= size
        decreases |st.thr[thid].gcq|
      {
        CollectFirst();
        Others();
      }
      assert MaintEnd(st, SetPhase(st, thid, Idle), thid);
      StepPhase(Idle);
    }

    /** getGCRight(), or the entry is dropped. */
    method LockFirst() returns (ok: bool)
      requires Sound() && st.thr[thid].phase.Maint? && st.thr[thid].gcq != [] && st.thr[thid].gcq[0].wts < st.minRts
      modifies this
      ensures Sound() && old(run) <= run
      ensures ok ==> st.thr[thid].phase.GcLocked? && st.thr[thid].gcq == old(st.thr[thid].gcq)
      ensures !ok ==> st.thr[thid].phase.Maint? && st.thr[thid].gcq == old(st.thr[thid].gcq)[1..]
      ensures !ok ==> CollectedByOther(old(st), old(st.thr[thid].gcq[0].key), thid)
    {
      QueueFacts();
      var k := st.thr[thid].gcq[0].key;
      ok := st.recs[k].gcLock == 0;
      if ok {
        var locked := SetPhase(st, thid, GcLocked).(recs := st.recs[k := st.recs[k].(gcLock := thid + 1)]);
        assert GcLock(st, locked, thid);
        Step(locked);
      } else {
        Busy(k);
        var dropped := SetThr(st, thid, st.thr[thid].(gcq := st.thr[thid].gcq[1..]));
        assert GcBusy(st, dropped, thid);
        Step(dropped);
      }
    }

    lemma Busy(k: Key)
      requires Sound() && st.thr[thid].phase.Maint? && k < |st.recs| && st.recs[k].gcLock != 0
      ensures CollectedByOther(st, k, thid)
    {
      Reachable();
      HolderCollects(st, k, thid);
    }

    /** The oldest entry of the queue: skipped if somebody else collects the record or the
        list is cut already, else the rest of the list from there on is taken away. */
    method CollectFirst()
      requires Sound() && st.thr[thid].phase.Maint? && st.thr[thid].gcq != [] && st.thr[thid].gcq[0].wts < st.minRts
      modifies this
      ensures Sound() && old(run) <= run && st.thr[thid].phase.Maint? && st.thr[thid].gcq == old(st.thr[thid].gcq)[1..]
      ensures var g := old(st.thr[thid].gcq[0]);
              CollectedByOther(old(st), g.key, thid) || NothingOlder(st.heap, g.key, g.wts)
    {
      var ok := LockFirst();
      if ok {
        Others();
        QueueFacts();
        CollectLocked();
      }
    }

    method CollectLocked()
      requires Sound() && st.thr[thid].phase.GcLocked? && GcFront(st, thid)
      modifies this
      ensures Sound() && old(run) <= run && st.thr[thid].phase.Maint? && st.thr[thid].gcq == old(st.thr[thid].gcq)[1..]
      ensures var g := old(st.thr[thid].gcq[0]); NothingOlder(st.heap, g.key, g.wts)
    {
      var g := st.thr[thid].gcq[0];
      if g.wts <= st.recs[g.key].minWts {
        SkipEntry();
      } else {
        DetachTail();
        Recycle();
      }
    }

    method SkipEntry()
      requires Sound() && st.thr[thid].phase.GcLocked? && GcFront(st, thid)
      requires st.thr[thid].gcq[0].wts <= st.recs[st.thr[thid].gcq[0].key].minWts
      modifies this
      ensures Sound() && old(run) <= run && st.thr[thid].phase.Maint? && st.thr[thid].gcq == old(st.thr[thid].gcq)[1..]
      ensures var g := old(st.thr[thid].gcq[0]); NothingOlder(st.heap, g.key, g.wts)
    {
      AlreadyCut();
      var k := st.thr[thid].gcq[0].key;
      var released := SetThr(st, thid, st.thr[thid].(phase := Maint, gcq := st.thr[thid].gcq[1..]))
                      .(recs := st.recs[k := st.recs[k].(gcLock := 0)]);
      assert GcSkip(st, released, thid);
      Step(released);
    }

    /** What the entry names, or something newer, is the last of its list. */
    lemma AlreadyCut()
      requires Sound() && GcFront(st, thid)
      requires st.thr[thid].phase.GcPush?
               || (st.thr[thid].phase.GcLocked? && st.thr[thid].gcq[0].wts <= st.recs[st.thr[thid].gcq[0].key].minWts)
      ensures var g := st.thr[thid].gcq[0]; NothingOlder(st.heap, g.key, g.wts)
    {
      QueueFacts();
      Reachable();
      var g := st.thr[thid].gcq[0];
      assert ListInv(st.heap, st.recs[g.key], g.key);
    }

    /** The heap with version `b` the last of the list of `k`. */
    function Truncated(h: seq<Version>, k: Key, b: int): (h': seq<Version>)
      requires Valid(h, b)
      ensures Truncates(h, h', k, b, thid)
    {
      seq(|h|, v requires 0 <= v < |h| =>
        if v == b then h[v].(next := NIL)
        else if h[v].place == Listed(k) && h[v].wts < h[b].wts then h[v].(place := Detached(thid))
        else h[v])
    }

    /** Loads what follows the entry's version, cuts the list there, raises `min_wts`. */
    method DetachTail()
      requires Sound() && st.thr[thid].phase.GcLocked? && GcFront(st, thid)
      requires st.thr[thid].gcq[0].wts > st.recs[st.thr[thid].gcq[0].key].minWts
      modifies this
      ensures Sound() && old(run) <= run && st.thr[thid].phase.GcPush? && st.thr[thid].gcq == old(st.thr[thid].gcq)
      ensures var g := st.thr[thid].gcq[0];
              g.key < |st.recs| && st.recs[g.key].minWts == g.wts && st.recs[g.key].bottom == g.ver
    {
      QueueFacts();
      var g := st.thr[thid].gcq[0];
      var del := st.heap[g.ver].next;
      assert GcLoad(st, SetPhase(st, thid, GcLoaded(del)), thid);
      StepPhase(GcLoaded(del));
      Others();
      CutHere();
      Others();
      QueueFacts();
      var tagged := SetPhase(st, thid, GcPush(st.thr[thid].phase.del))
                    .(recs := st.recs[g.key := st.recs[g.key].(minWts := st.heap[g.ver].wts)]);
      assert GcTag(st, tagged, thid);
      Step(tagged);
    }

    method CutHere()
      requires Sound() && st.thr[thid].phase.GcLoaded?
      modifies this
      ensures Sound() && old(run) <= run && st.thr[thid] == old(st.thr[thid]).(phase := GcCut(old(st.thr[thid].phase.del)))
    {
      QueueFacts();
      var g := st.thr[thid].gcq[0];
      var cut := SetPhase(st, thid, GcCut(st.thr[thid].phase.del))
                 .(heap := Truncated(st.heap, g.key, g.ver), recs := st.recs[g.key := st.recs[g.key].(bottom := g.ver)]);
      assert GcDetach(st, cut, thid);
      Step(cut);
    }

    /** gcAfterThisVersion(): every version cut off goes to the pool, then the lock is freed. */
    method Recycle()
      requires Sound() && st.thr[thid].phase.GcPush?
      modifies this
      ensures Sound() && old(run) <= run && st.thr[thid].phase.Maint? && old(st.thr[thid].gcq) != []
      ensures st.thr[thid].gcq == old(st.thr[thid].gcq)[1..]
      ensures var g := old(st.thr[thid].gcq[0]); NothingOlder(st.heap, g.key, g.wts)
      ensures forall v: int :: !Det(st.heap, v, thid)
    {
      QueueFacts();
      while st.thr[thid].phase.del != NIL
        invariant Sound() && old(run) <= run && st.thr[thid].phase.GcPush? && st.thr[thid].gcq == old(st.thr[thid].gcq)
        invariant st.thr[thid].phase.del != NIL ==> Valid(st.heap, st.thr[thid].phase.del)
        decreases if st.thr[thid].phase.del == NIL then 0 else st.heap[st.thr[thid].phase.del].wts + 1
      {
        PushFirst();
      }
      OthersElsewhere();
      QueueFacts();
      AlreadyCut();
      var k := st.thr[thid].gcq[0].key;
      var released := SetThr(st, thid, st.thr[thid].(phase := Maint, gcq := st.thr[thid].gcq[1..]))
                      .(recs := st.recs[k := st.recs[k].(gcLock := 0)]);
      assert GcUnlock(st, released, thid);
      Step(released);
      QueueFacts();
    }

    method PushFirst()
      requires Sound() && st.thr[thid].phase.GcPush? && st.thr[thid].phase.del != NIL && Valid(st.heap, st.thr[thid].phase.del)
      modifies this
      ensures Sound() && old(run) <= run && st.thr[thid].phase.GcPush? && st.thr[thid].gcq == old(st.thr[thid].gcq)
      ensures var next := st.thr[thid].phase.del;
              next == NIL || (Valid(st.heap, next) && st.heap[next].wts < old(st.heap[st.thr[thid].phase.del].wts))
    {
      QueueFacts();
      assert Det(st.heap, st.thr[thid].phase.del, thid);
      OthersElsewhere();
      QueueFacts();
      var tx, d := st.thr[thid], st.thr[thid].phase.del;
      assert ChainNode(st.heap, d, thid);
      var next := SetThr(st, thid, tx.(phase := GcPush(st.heap[d].next), pool := tx.pool + [d]))
                  .(heap := st.heap[d := st.heap[d].(place := InPool(thid))]);
      assert GcPushOne(st, next, thid);
      Step(next);
    }

    // ------------------------------------------------------- thread 0's duties

    /** leaderWork(): a non-atomic scan for the minima, then their publication.  They bound
        every active transaction's timestamps, and are not smaller than the smallest
        timestamps that were published when the scan began. */
    method LeaderWork()
      requires Sound() && thid == 0 && st.thr[thid].phase.Idle?
      modifies this
      ensures Sound() && old(run) <= run && st.thr[thid].phase.Idle?
      ensures forall t | 0 <= t < |st.thr| && Active(st.thr[t].phase) :: st.minRts <= st.thr[t].rts < st.minWts <= st.thr[t].ts
      ensures (exists u :: 0 <= u < |old(st.threadWts)| && old(st.threadWts)[u] <= st.minWts)
              && exists u :: 0 <= u < |old(st.threadRts)| && old(st.threadRts)[u] <= st.minRts
    {
      ghost var from := |run| - 1;
      ScanFirst();
      var i := 1;
      TimesHere();
      ghost var size := |st.threadWts|;
      while i < |st.threadWts|
        invariant Sound() && old(run) <= run && st.thr[thid].phase.LeadScan? && st.thr[thid].phase.i == i
        invariant |st.threadWts| == |st.thr| == size
        invariant MinimaFrom(run[from], st.thr[thid].phase.minw, st.thr[thid].phase.minr)
        decreases size - i
      {
        ScanThread(i, from);
        i := i + 1;
      }
      PublishMinima(from);
      ActiveAbove();
    }

    lemma ActiveAbove()
      requires Sound()
      ensures forall t | 0 <= t < |st.thr| && Active(st.thr[t].phase) :: st.minRts <= st.thr[t].rts < st.minWts <= st.thr[t].ts
    {
      Reachable();
      forall t | 0 <= t < |st.thr| && Active(st.thr[t].phase) ensures st.minRts <= st.thr[t].rts < st.minWts <= st.thr[t].ts {
        ViewOf(st, t);
      }
    }

    method ScanFirst()
      requires Sound() && thid == 0 && st.thr[thid].phase.Idle?
      modifies this
      ensures Sound() && old(run) <= run && st.thr[thid].phase.LeadScan? && st.thr[thid].phase.i == 1
      ensures MinimaFrom(old(st), st.thr[thid].phase.minw, st.thr[thid].phase.minr)
    {
      ghost var from := |run| - 1;
      TimesHere();
      assert LeadStart(st, SetPhase(st, thid, LeadRts(st.threadWts[0])), thid);
      StepPhase(LeadRts(st.threadWts[0]));
      Others();
      TimesHere();
      Grown(from);
      assert LeadFirstRts(st, SetPhase(st, thid, LeadScan(1, st.thr[thid].phase.minw, st.threadRts[0])), thid);
      StepPhase(LeadScan(1, st.thr[thid].phase.minw, st.threadRts[0]));
    }

    /** No published timestamp has gone back since state `from` of the run. */
    lemma Grown(from: nat)
      requires Sound() && from < |run|
      ensures Growth.ClocksGrow(run[from], st)
    {
      Growth.TimestampsMoveForward(run, from, |run| - 1);
    }

    method ScanThread(i: nat, ghost from: nat)
      requires Sound() && st.thr[thid].phase.LeadScan? && st.thr[thid].phase.i == i < |st.threadWts| == |st.thr|
      requires from < |run| && MinimaFrom(run[from], st.thr[thid].phase.minw, st.thr[thid].phase.minr)
      modifies this
      ensures Sound() && old(run) <= run && st.thr[thid].phase.LeadScan? && st.thr[thid].phase.i == i + 1
      ensures |st.threadWts| == |st.thr| == old(|st.thr|)
      ensures MinimaFrom(run[from], st.thr[thid].phase.minw, st.thr[thid].phase.minr)
    {
      ScanWts(i, from);
      Others();
      TimesHere();
      ScanRts(i, from);
    }

    method ScanWts(i: nat, ghost from: nat)
      requires Sound() && st.thr[thid].phase.LeadScan? && st.thr[thid].phase.i == i < |st.threadWts|
      requires from < |run| && MinimaFrom(run[from], st.thr[thid].phase.minw, st.thr[thid].phase.minr)
      modifies this
      ensures Sound() && old(run) <= run && st.thr[thid].phase.LeadScanRts? && st.thr[thid].phase.i == i
      ensures |st.thr| == old(|st.thr|)
      ensures MinimaFrom(run[from], st.thr[thid].phase.minw, st.thr[thid].phase.minr)
    {
      Grown(from);
      var p := st.thr[thid].phase;
      assert LeadWts(st, SetPhase(st, thid, LeadScanRts(i, Min(p.minw, st.threadWts[i]), p.minr)), thid);
      StepPhase(LeadScanRts(i, Min(p.minw, st.threadWts[i]), p.minr));
    }

    method ScanRts(i: nat, ghost from: nat)
      requires Sound() && st.thr[thid].phase.LeadScanRts? && st.thr[thid].phase.i == i < |st.threadRts|
      requires from < |run| && MinimaFrom(run[from], st.thr[thid].phase.minw, st.thr[thid].phase.minr)
      modifies this
      ensures Sound() && old(run) <= run && st.thr[thid].phase.LeadScan? && st.thr[thid].phase.i == i + 1
      ensures |st.threadWts| == |st.thr| == old(|st.thr|)
      ensures MinimaFrom(run[from], st.thr[thid].phase.minw, st.thr[thid].phase.minr)
    {
      Grown(from);
      var p := st.thr[thid].phase;
      assert LeadNextRts(st, SetPhase(st, thid, LeadScan(i + 1, p.minw, Min(p.minr, st.threadRts[i]))), thid);
      StepPhase(LeadScan(i + 1, p.minw, Min(p.minr, st.threadRts[i])));
      TimesHere();
    }

    method PublishMinima(ghost from: nat)
      requires Sound() && st.thr[thid].phase.LeadScan? && st.thr[thid].phase.i >= |st.threadWts|
      requires from < |run| && MinimaFrom(run[from], st.thr[thid].phase.minw, st.thr[thid].phase.minr)
      modifies this
      ensures Sound() && old(run) <= run && st.thr[thid].phase.Idle?
      ensures MinimaFrom(run[from], st.minWts, st.minRts)
    {
      ghost var s0 := run[from];
      PublishMinWts();
      OthersMinWts();
      PublishMinRts();
      MinimaRise(s0, old(st.thr[thid].phase.minw), st.minWts, st.minRts);
    }

    /** As Others(); MinWts does not go back meanwhile. */
    method OthersMinWts()
      requires Sound()
      modifies this
      ensures Sound() && st.thr[thid] == old(st.thr[thid]) && old(run) <= run && old(st.minWts) <= st.minWts
    {
      ghost var from := |run| - 1;
      Others();
      Grown(from);
    }

    method PublishMinWts()
      requires Sound() && st.thr[thid].phase.LeadScan? && st.thr[thid].phase.i >= |st.threadWts|
      modifies this
      ensures Sound() && old(run) <= run && st.thr[thid].phase == LeadPublish(old(st.thr[thid].phase.minr))
      ensures st.minWts == old(st.thr[thid].phase.minw)
    {
      var p := st.thr[thid].phase;
      var next := SetPhase(st, thid, LeadPublish(p.minr)).(minWts := p.minw);
      assert Cicada.PublishWts(st, next, thid);
      Step(next);
    }

    method PublishMinRts()
      requires Sound() && st.thr[thid].phase.LeadPublish?
      modifies this
      ensures Sound() && old(run) <= run && st.thr[thid].phase.Idle?
      ensures st.minRts == old(st.thr[thid].phase.minr) && st.minWts == old(st.minWts)
    {
      var next := SetPhase(st, thid, Idle).(minRts := st.thr[thid].phase.minr);
      assert Cicada.PublishRts(st, next, thid);
      Step(next);
    }
  }
}
