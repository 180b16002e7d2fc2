/** The invariant is kept by the steps that change one version: allocation, raising a read
    timestamp, passing the write check, committing, aborting, and returning to the pool. */
module CicadaVersions {
  import opened SerialExecution
  import opened Cicada
  import opened CicadaInvariant
  import opened CicadaInterference
  import opened CicadaCertification
  import opened CicadaThreads
  import opened CicadaLists
  import opened CicadaBeginning
  import opened CicadaValidation

  /** Only version `x` changes, without changing a list. */
  ghost predicate Touches(h: seq<Version>, h': seq<Version>, x: int, t: nat, minWts: nat) {
    && 0 <= x <= |h| && |h'| == (if x == |h| then |h| + 1 else |h|)
    && (forall v | 0 <= v < |h| && v != x :: h'[v] == h[v])
    && (if x == |h| then h'[x].place == InWriteSet(t)
        else if h[x].place.Listed? then ListedEvolves(h[x], h'[x], t, minWts) && h'[x].place == h[x].place && h'[x].next == h[x].next
        else Private(h[x].place, t) && Private(h'[x].place, t))
  }

  lemma TouchEvolves(h: seq<Version>, h': seq<Version>, recs': seq<Record>, x: int, t: nat,
                     minWts: nat, minRts: nat, clock: nat)
    requires Touches(h, h', x, t, minWts)
    ensures HeapEvolves(h, h', recs', t, minWts, minRts, clock) && SameLists(h, h')
  {
    forall v | 0 <= v < |h| ensures SlotEvolves(h[v], h'[v], t, minWts, clock) {
    }
  }

  ghost predicate HeapOnly(s: State, s': State, t: nat) {
    && OnlyThread(s, s', t) && s'.recs == s.recs
    && s'.threadWts == s.threadWts && s'.threadRts == s.threadRts && s'.minWts == s.minWts && s'.minRts == s.minRts
    && s'.initTs == s.initTs && s'.clock == s.clock
  }

  lemma TouchKeepsLists(s: State, s': State, x: int, t: nat)
    requires ListsInv(s) && HeapOnly(s, s', t) && Touches(s.heap, s'.heap, x, t, s.minWts)
    requires VersionOk(s'.heap[x], s.clock, |s.recs|, |s.thr|)
    ensures ListsInv(s')
  {
    TouchEvolves(s.heap, s'.heap, s.recs, x, t, s.minWts, s.minRts, s.clock);
    forall k | 0 <= k < |s.recs|
      ensures ListInv(s'.heap, s'.recs[k], k) && RecordOk(s'.heap, s'.recs[k], s.initTs, s.minRts, |s.thr|)
    {
      assert ListInv(s.heap, s.recs[k], k);
      SameListKept(s.heap, s'.heap, s.recs[k], s'.recs[k], k);
    }
  }

  lemma TouchKeepsRecords(s: State, h': seq<Version>, x: int, t: nat, u: nat)
    requires ListsInv(s) && Touches(s.heap, h', x, t, s.minWts)
    ensures RecordsEvolve(s.heap, h', s.recs, s.recs, t, u, s.minRts)
  {
    forall k: Key | k < |s.recs|
      ensures On(s.heap, s.recs[k].bottom, k) && On(h', s.recs[k].bottom, k)
      ensures s.heap[s.recs[k].bottom].wts == h'[s.recs[k].bottom].wts
    {
      assert ListInv(s.heap, s.recs[k], k);
    }
  }

  lemma TouchKeeps(s: State, s': State, x: int, t: nat)
    requires BaseInv(s) && HeapOnly(s, s', t) && Touches(s.heap, s'.heap, x, t, s.minWts)
    requires VersionOk(s'.heap[x], s.clock, |s.recs|, |s.thr|)
    requires x < |s.heap| && s.heap[x].place.Listed? && s'.heap[x].passed ==> s.heap[x].passed
    requires TimeOk(s'.thr[t], t, s.threadWts, s.threadRts, s.minWts, s.minRts, s.initTs)
    requires LeaderOk(s'.thr[t].phase, t, s.threadWts, s.threadRts, s.minWts, s.minRts)
    requires ThreadInv(s'.heap, s.recs, s'.thr[t], t, s.minRts)
    ensures BaseInv(s')
  {
    TouchKeepsLists(s, s', x, t);
    TouchEvolves(s.heap, s'.heap, s.recs, x, t, s.minWts, s.minRts, s.clock);
    forall u: nat | u != t && u < |s.thr| ensures RecordsEvolve(s.heap, s'.heap, s.recs, s'.recs, t, u, s.minRts) {
      TouchKeepsRecords(s, s'.heap, x, t, u);
    }
    ThreadsKept(s, s', t);
  }

  /** What the acting thread itself has read, seeks and collects stands too. */
  lemma TouchKeepsOwnReads(s: State, h': seq<Version>, x: int, t: nat)
    requires BaseInv(s) && t < |s.thr| && Touches(s.heap, h', x, t, s.minWts)
    ensures ReadSetOk(h', s.thr[t], |s.recs|) && WalkOk(h', s.thr[t], |s.recs|)
    ensures GcOk(h', s.recs, s.thr[t], t, s.minRts)
  {
    ThreadOf(s, t);
    ViewOf(s, t);
    TouchEvolves(s.heap, h', s.recs, x, t, s.minWts, s.minRts, s.clock);
    TouchKeepsRecords(s, h', x, t, t);
    ReadSetStable(s.heap, h', s.recs, s.thr[t], t, t, s.minWts, s.minRts, s.clock, |s.recs|);
    WalkStable(s.heap, h', s.recs, s.thr[t], t, t, s.minWts, s.minRts, s.clock, |s.recs|);
    GcStable(s.heap, h', s.recs, s.recs, s.thr[t], t, t, s.minWts, s.minRts, s.clock);
  }

  lemma TouchKeepsOwnCert(s: State, h': seq<Version>, x: int, t: nat)
    requires BaseInv(s) && t < |s.thr| && Touches(s.heap, h', x, t, s.minWts)
    requires x < |s.heap| && s.heap[x].place.Listed? && h'[x].passed ==> s.heap[x].passed
    ensures CertOk(h', s.thr[t])
  {
    ThreadOf(s, t);
    ViewOf(s, t);
    SeqnosOf(s);
    TouchEvolves(s.heap, h', s.recs, x, t, s.minWts, s.minRts, s.clock);
    CertStable(s.heap, h', s.recs, s.thr[t], t, t, s.minWts, s.minRts, s.clock, |s.recs|);
  }

  /** The executor's phase moves on in step with the heap. */
  lemma OwnMove(h': seq<Version>, recs: seq<Record>, tx: Executor, tx': Executor, t: nat, minRts: nat)
    requires TxOk(h', tx, t, |recs|) && GcOk(h', recs, tx, t, minRts) && PhaseMove(tx, tx')
    requires WalkOk(h', tx', |recs|) && CertOk(h', tx')
    ensures ThreadInv(h', recs, tx', t, minRts)
  {
    MoveKeepsSets(h', tx, tx', t, |recs|);
    MoveKeepsOwn(h', tx, tx', t);
    MoveKeepsRest(h', recs, tx, tx', t, minRts);
  }

  // ------------------------------------------------- raising a read timestamp

  lemma RaiseTouches(s: State, s': State, t: nat)
    requires BaseInv(s) && t < |s.thr| && RaiseOne(s, s', t)
    ensures HeapOnly(s, s', t) && PhaseMove(s.thr[t], s'.thr[t])
    ensures var x := s.thr[t].rset[s.thr[t].phase.i].ver;
            && (forall u: nat :: Touches(s.heap, s'.heap, x, u, s.minWts))
            && s'.heap[x].passed == s.heap[x].passed && VersionOk(s'.heap[x], s.clock, |s.recs|, |s.thr|)
            && s'.heap[x].rts >= s.thr[t].ts
  {
    ReadFacts(s, t, s.thr[t].phase.i);
    var x := s.thr[t].rset[s.thr[t].phase.i].ver;
    assert VersionOk(s.heap[x], s.clock, |s.recs|, |s.thr|);
  }

  lemma RaiseCertified(h': seq<Version>, tx: Executor, tx': Executor, i: nat)
    requires CertOk(h', tx) && tx.phase == Raise(i) && i < |tx.rset| && tx' == tx.(phase := Raise(i + 1))
    requires Valid(h', tx.rset[i].ver) && h'[tx.rset[i].ver].rts >= tx.ts
    ensures CertOk(h', tx')
  {
    forall j | 0 <= j < |tx.rset| ensures ReadCertified(h', tx', j) {
      assert ReadCertified(h', tx, j);
    }
  }

  lemma RaiseOwn(s: State, s': State, t: nat)
    requires BaseInv(s) && t < |s.thr| && RaiseOne(s, s', t)
    ensures ThreadInv(s'.heap, s.recs, s'.thr[t], t, s.minRts)
  {
    var tx, tx' := s.thr[t], s'.thr[t];
    var x := tx.rset[tx.phase.i].ver;
    RaiseTouches(s, s', t);
    // Seen as a step of some other thread, nothing the executor knows is disturbed.
    TouchEvolves(s.heap, s'.heap, s.recs, x, t + 1, s.minWts, s.minRts, s.clock);
    TouchKeepsRecords(s, s'.heap, x, t + 1, t);
    OtherKept(s, s'.heap, s.recs, t + 1, t);
    OtherCertKept(s, s'.heap, s.recs, t + 1, t);
    RaiseCertified(s'.heap, tx, tx', tx.phase.i);
    OwnMove(s'.heap, s.recs, tx, tx', t, s.minRts);
  }

  lemma RaiseOneKeeps(s: State, s': State, t: nat)
    requires BaseInv(s) && t < |s.thr| && RaiseOne(s, s', t)
    ensures BaseInv(s')
  {
    var x := s.thr[t].rset[s.thr[t].phase.i].ver;
    RaiseTouches(s, s', t);
    RaiseOwn(s, s', t);
    MoveKeepsTime(s, s'.thr[t], t);
    assert Touches(s.heap, s'.heap, x, t, s.minWts);
    TouchKeeps(s, s', x, t);
  }

  // ------------------------------------------------------ passing the check

  /** The version found by the check clears the write. */
  lemma CheckOkClears(s: State, s': State, t: nat)
    requires BaseInv(s) && t < |s.thr| && CheckOk(s, s', t)
    ensures s.thr[t].phase.CheckWait? && s.thr[t].phase.i < |s.thr[t].wset|
    ensures var e := s.thr[t].wset[s.thr[t].phase.i];
            && e.key < |s.recs| && WriteCleared(s.heap, e.key, e.ver, s.thr[t].phase.cur)
            && s.heap[e.ver].wts == s.thr[t].ts && s.heap[e.ver].status.Pending?
            && s'.heap == Passed(s.heap, e.ver)
  {
    ThreadOf(s, t);
    WriteFacts(s, t, s.thr[t].phase.i);
  }

  lemma CommittedArePassed(s: State, k: Key)
    requires BaseInv(s) && k < |s.recs|
    ensures CommittedPassed(s.heap, k)
  {
    assert ListInv(s.heap, s.recs[k], k);
    forall u: int | On(s.heap, u, k) && s.heap[u].status.Committed? ensures s.heap[u].passed {
      assert VersionOk(s.heap[u], s.clock, |s.recs|, |s.thr|);
    }
  }

  lemma CheckOkTouches(s: State, s': State, t: nat)
    requires BaseInv(s) && t < |s.thr| && CheckOk(s, s', t)
    ensures var x := s.thr[t].wset[s.thr[t].phase.i].ver;
            && Touches(s.heap, s'.heap, x, t, s.minWts) && VersionOk(s'.heap[x], s.clock, |s.recs|, |s.thr|)
    ensures HeapOnly(s, s', t)
  {
    CheckOkClears(s, s', t);
    SameTimes(s, t);
    var x := s.thr[t].wset[s.thr[t].phase.i].ver;
    assert VersionOk(s.heap[x], s.clock, |s.recs|, |s.thr|);
  }

  lemma CheckOkKeepsCert(s: State, s': State, t: nat, u: nat)
    requires BaseInv(s) && t < |s.thr| && u < |s.thr| && CheckOk(s, s', t)
    ensures CertOk(s'.heap, s.thr[u])
  {
    CheckOkClears(s, s', t);
    var e := s.thr[t].wset[s.thr[t].phase.i];
    CommittedArePassed(s, e.key);
    ThreadOf(s, u);
    PassKeepsCert(s.heap, e.key, e.ver, s.thr[t].phase.cur, s.thr[u], u, |s.recs|);
  }

  lemma CheckOkSets(h: seq<Version>, tx: Executor, tx': Executor, t: nat, i: nat, nrecs: nat)
    requires WriteSetOk(h, tx, t, nrecs) && i < |tx.wset| && tx.phase.CheckWait? && tx.phase.i == i
    requires tx' == tx.(phase := Check(i + 1)) && Valid(h, tx.wset[i].ver)
    ensures WriteSetOk(Passed(h, tx.wset[i].ver), tx', t, nrecs)
  {
    var h' := Passed(h, tx.wset[i].ver);
    forall j | 0 <= j < |tx.wset| ensures WriteOk(h', tx', t, j) {
      assert WriteOk(h, tx, t, j);
    }
  }

  lemma PassedOwn(h: seq<Version>, tx: Executor, t: nat, n: int)
    requires Valid(h, n) && OwnOk(h, tx, t) && PrivateOk(h, tx, t) && DetachedOk(h, tx, t) && !Collecting(tx.phase)
    ensures OwnOk(Passed(h, n), tx, t) && PrivateOk(Passed(h, n), tx, t) && DetachedOk(Passed(h, n), tx, t)
  {
    var h' := Passed(h, n);
    assert forall v: int :: OnList(h', v) <==> OnList(h, v);
    assert forall v: int :: Det(h', v, t) <==> Det(h, v, t);
  }

  lemma CheckOkOwnCert(h': seq<Version>, tx: Executor, tx': Executor, i: nat)
    requires CertOk(h', tx) && Checking(tx.phase) && tx' == tx.(phase := Check(i))
    ensures CertOk(h', tx')
  {
    forall j | 0 <= j < |tx.rset| ensures ReadCertified(h', tx', j) {
      assert ReadCertified(h', tx, j);
    }
  }

  lemma CheckOkOwn(s: State, s': State, t: nat)
    requires BaseInv(s) && t < |s.thr| && CheckOk(s, s', t)
    ensures ThreadInv(s'.heap, s.recs, s'.thr[t], t, s.minRts)
  {
    var tx, tx' := s.thr[t], s'.thr[t];
    var x := tx.wset[tx.phase.i].ver;
    ThreadOf(s, t);
    WriteFacts(s, t, tx.phase.i);
    CheckOkTouches(s, s', t);
    TouchKeepsOwnReads(s, s'.heap, x, t);
    CheckOkKeepsCert(s, s', t, t);
    CheckOkMoves(s.heap, s'.heap, s.recs, tx, tx', t, tx.phase.i, s.minRts);
  }

  lemma CheckOkMoves(h: seq<Version>, h': seq<Version>, recs: seq<Record>, tx: Executor, tx': Executor, t: nat, i: nat,
                     minRts: nat)
    requires TxOk(h, tx, t, |recs|) && tx.phase.CheckWait? && tx.phase.i == i < |tx.wset| && !tx.ronly
    requires Valid(h, tx.wset[i].ver) && h' == Passed(h, tx.wset[i].ver) && tx' == tx.(phase := Check(i + 1))
    requires ReadSetOk(h', tx, |recs|) && GcOk(h', recs, tx, t, minRts) && CertOk(h', tx)
    ensures ThreadInv(h', recs, tx', t, minRts)
  {
    CheckOkSets(h, tx, tx', t, i, |recs|);
    SameReads(h', tx, tx', |recs|);
    PassedOwn(h, tx, t, tx.wset[i].ver);
    SameOwn(h', tx, tx', t);
    SameWrites(h', tx, tx', t);
    QuietGc(h', recs, tx, tx', t, minRts, minRts);
    CheckOkOwnCert(h', tx, tx', i + 1);
  }

  lemma CheckOkKeeps(s: State, s': State, t: nat)
    requires BaseInv(s) && t < |s.thr| && CheckOk(s, s', t)
    ensures BaseInv(s')
  {
    var x := s.thr[t].wset[s.thr[t].phase.i].ver;
    CheckOkTouches(s, s', t);
    CheckOkOwn(s, s', t);
    TouchKeepsLists(s, s', x, t);
    TouchEvolves(s.heap, s'.heap, s.recs, x, t, s.minWts, s.minRts, s.clock);
    forall u | 0 <= u < |s'.thr| ensures ThreadInv(s'.heap, s'.recs, s'.thr[u], u, s'.minRts) {
      if u != t {
        TouchKeepsRecords(s, s'.heap, x, t, u);
        OtherKept(s, s'.heap, s.recs, t, u);
        CheckOkKeepsCert(s, s', t, u);
      }
    }
    MoveKeepsTime(s, s'.thr[t], t);
  }

  // --------------------------------------------------- commit, version by version

  lemma CommitPointKeeps(s: State, s': State, t: nat)
    requires BaseInv(s) && t < |s.thr| && CommitPoint(s, s', t)
    ensures BaseInv(s')
  {
    ThreadOf(s, t);
    CommitPointOwn(s.heap, s.recs, s.thr[t], s'.thr[t], t, s.minRts);
    MoveKeepsTime(s, s'.thr[t], t);
    LocalKeeps(s, s', t);
  }

  lemma CommitPointOwn(h: seq<Version>, recs: seq<Record>, tx: Executor, tx': Executor, t: nat, minRts: nat)
    requires ThreadInv(h, recs, tx, t, minRts) && tx.phase == Check(|tx.wset|) && tx' == tx.(phase := Committing(0))
    ensures ThreadInv(h, recs, tx', t, minRts)
  {
    forall j | 0 <= j < |tx.wset| ensures WriteOk(h, tx', t, j) {
      assert WriteOk(h, tx, t, j);
    }
    SameReads(h, tx, tx', |recs|);
    SameOwn(h, tx, tx', t);
    SameWrites(h, tx, tx', t);
    QuietGc(h, recs, tx, tx', t, minRts, minRts);
    forall j | 0 <= j < |tx.rset| ensures ReadCertified(h, tx', j) {
      assert ReadCertified(h, tx, j);
    }
  }
}
