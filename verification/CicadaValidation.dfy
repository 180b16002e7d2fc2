/** The invariant is kept by the re-scan of the reads and the check of the writes. */
module CicadaValidation {
  import opened SerialExecution
  import opened Cicada
  import opened CicadaInvariant
  import opened CicadaThreads
  import opened CicadaLists

  /** All raised, none scanned yet. */
  lemma RaiseEndCertified(h: seq<Version>, tx: Executor, tx': Executor)
    requires CertOk(h, tx) && tx.phase == Raise(|tx.rset|) && tx' == tx.(phase := Scan(0))
    ensures CertOk(h, tx')
  {
    forall j | 0 <= j < |tx.rset| ensures ReadCertified(h, tx', j) {
      assert ReadCertified(h, tx, j);
    }
  }

  lemma RaiseEndKeeps(s: State, s': State, t: nat)
    requires BaseInv(s) && t < |s.thr| && RaiseEnd(s, s', t)
    ensures BaseInv(s')
  {
    ThreadOf(s, t);
    RaiseEndCertified(s.heap, s.thr[t], s'.thr[t]);
    MoveKeeps(s, s', t);
  }

  /** The scan goes on to `p'`; the other reads are as certified as before. */
  lemma ScanMoves(h: seq<Version>, tx: Executor, tx': Executor, i: nat, p': int)
    requires CertOk(h, tx) && i < |tx.rset|
    requires Scanning(tx.phase) && tx.phase.i == i
    requires tx' == tx.(phase := tx'.phase) && (tx'.phase == ScanSeek(i, p') || tx'.phase == ScanWait(i, p'))
    requires ScannedTo(h, tx.rset[i].key, tx.rset[i].ver, p', tx.ts)
    ensures CertOk(h, tx')
  {
    forall j | 0 <= j < |tx.rset| ensures ReadCertified(h, tx', j) {
      assert ReadCertified(h, tx, j);
    }
  }

  lemma ReadFacts(s: State, t: nat, i: nat)
    requires BaseInv(s) && t < |s.thr| && i < |s.thr[t].rset|
    ensures ReadOk(s.heap, s.thr[t], s.thr[t].rset[i]) && s.thr[t].rset[i].key < |s.recs|
    ensures ReadCertified(s.heap, s.thr[t], i) && !s.thr[t].ronly && Active(s.thr[t].phase)
  {
    ThreadOf(s, t);
  }

  lemma ScanStartsClean(h: seq<Version>, tx: Executor, r: ReadElement, rec: Record, p: int)
    requires ReadOk(h, tx, r) && ListInv(h, rec, r.key) && tx.rts < tx.ts
    requires p == if r.later != NIL then r.later else rec.latest
    ensures ScannedTo(h, r.key, r.ver, p, tx.ts) && SafePtr(h, r.key, tx.rts, p)
  {
  }

  lemma ScanStartKeeps(s: State, s': State, t: nat)
    requires BaseInv(s) && t < |s.thr| && ScanStart(s, s', t)
    ensures BaseInv(s')
  {
    var tx := s.thr[t];
    var i := tx.phase.i;
    ReadFacts(s, t, i);
    BottomVisible(s, t, tx.rset[i].key);
    ScanStartsClean(s.heap, tx, tx.rset[i], s.recs[tx.rset[i].key], s'.thr[t].phase.cur);
    ScanMoves(s.heap, tx, s'.thr[t], i, s'.thr[t].phase.cur);
    MoveKeeps(s, s', t);
  }

  /** Versions no older than the transaction do not concern the scan. */
  lemma ScanNextClean(h: seq<Version>, k: Key, v: int, p: int, q: int, ts: nat)
    requires ScannedTo(h, k, v, p, ts) && On(h, p, k) && On(h, v, k) && On(h, q, k)
    requires h[p].wts >= ts && h[v].wts < ts
    requires forall u: int | On(h, u, k) && h[u].wts < h[p].wts :: h[u].wts <= h[q].wts
    ensures ScannedTo(h, k, v, q, ts)
  {
  }

  lemma ScanNextKeeps(s: State, s': State, t: nat)
    requires BaseInv(s) && t < |s.thr| && ScanNext(s, s', t)
    ensures BaseInv(s')
  {
    ThreadOf(s, t);
    var tx := s.thr[t];
    var i := tx.phase.i;
    ReadFacts(s, t, i);
    var r := tx.rset[i];
    BottomVisible(s, t, r.key);
    WalkNext(s.heap, s.recs[r.key], r.key, tx.rts, tx.phase.cur);
    ScanNextClean(s.heap, r.key, r.ver, tx.phase.cur, s.heap[tx.phase.cur].next, tx.ts);
    ScanMoves(s.heap, tx, s'.thr[t], i, s'.thr[t].phase.cur);
    MoveKeeps(s, s', t);
  }

  lemma ScanReachKeeps(s: State, s': State, t: nat)
    requires BaseInv(s) && t < |s.thr| && ScanReach(s, s', t)
    ensures BaseInv(s')
  {
    ThreadOf(s, t);
    var tx := s.thr[t];
    ReadFacts(s, t, tx.phase.i);
    ScanMoves(s.heap, tx, s'.thr[t], tx.phase.i, tx.phase.cur);
    MoveKeeps(s, s', t);
  }

  /** An aborted version can be passed: it is neither the one read nor a committed one. */
  lemma ScanDownClean(h: seq<Version>, k: Key, v: int, p: int, q: int, ts: nat)
    requires ScannedTo(h, k, v, p, ts) && On(h, p, k) && On(h, v, k) && On(h, q, k)
    requires h[v].status.Committed? && h[p].status.Aborted?
    requires forall u: int | On(h, u, k) && h[u].wts < h[p].wts :: h[u].wts <= h[q].wts
    requires forall u: int | On(h, u, k) && h[u].wts == h[p].wts :: u == p
    requires h[q].wts < h[p].wts
    ensures ScannedTo(h, k, v, q, ts)
  {
    assert h[v].wts < h[p].wts;
    if Hits(h, k, v, p) {
      var c: int :| On(h, c, k) && h[c].status.Committed? && h[v].wts < h[c].wts <= h[p].wts;
      assert h[c].wts <= h[q].wts;
      assert Hits(h, k, v, q);
    }
  }

  lemma ScanDownKeeps(s: State, s': State, t: nat)
    requires BaseInv(s) && t < |s.thr| && ScanDown(s, s', t)
    ensures BaseInv(s')
  {
    ThreadOf(s, t);
    var tx := s.thr[t];
    var i := tx.phase.i;
    ReadFacts(s, t, i);
    var r := tx.rset[i];
    BottomVisible(s, t, r.key);
    WalkDown(s.heap, s.recs[r.key], r.key, tx.rts, tx.phase.cur);
    ScanDownClean(s.heap, r.key, r.ver, tx.phase.cur, s.heap[tx.phase.cur].next, tx.ts);
    ScanMoves(s.heap, tx, s'.thr[t], i, s'.thr[t].phase.cur);
    MoveKeeps(s, s', t);
  }

  lemma ScanJudgeCertified(h: seq<Version>, tx: Executor, tx': Executor, i: nat)
    requires CertOk(h, tx) && i < |tx.rset| && tx.phase == ScanWait(i, tx.rset[i].ver)
    requires tx' == tx.(phase := Scan(i + 1))
    ensures CertOk(h, tx')
  {
    forall j | 0 <= j < |tx.rset| ensures ReadCertified(h, tx', j) {
      assert ReadCertified(h, tx, j);
    }
  }

  lemma ScanJudgeMoves(s: State, s': State, t: nat)
    requires t < |s.thr| && ScanJudge(s, s', t) && CertOk(s.heap, s.thr[t])
    ensures WalkOk(s.heap, s'.thr[t], |s.recs|) && CertOk(s.heap, s'.thr[t])
  {
    if s'.thr[t].phase.Scan? {
      ScanJudgeCertified(s.heap, s.thr[t], s'.thr[t], s.thr[t].phase.i);
    } else {
      NothingCertified(s.heap, s'.thr[t]);
    }
  }

  lemma ScanJudgeKeeps(s: State, s': State, t: nat)
    requires BaseInv(s) && t < |s.thr| && ScanJudge(s, s', t)
    ensures BaseInv(s')
  {
    ThreadOf(s, t);
    ReadFacts(s, t, s.thr[t].phase.i);
    ScanJudgeMoves(s, s', t);
    MoveKeeps(s, s', t);
  }

  lemma ScanEndCertified(h: seq<Version>, tx: Executor, tx': Executor)
    requires CertOk(h, tx) && tx.phase == Scan(|tx.rset|) && tx' == tx.(phase := Check(0))
    ensures CertOk(h, tx')
  {
    forall j | 0 <= j < |tx.rset| ensures ReadCertified(h, tx', j) {
      assert ReadCertified(h, tx, j);
    }
  }

  lemma ScanEndKeeps(s: State, s': State, t: nat)
    requires BaseInv(s) && t < |s.thr| && ScanEnd(s, s', t)
    ensures BaseInv(s')
  {
    ThreadOf(s, t);
    ScanEndCertified(s.heap, s.thr[t], s'.thr[t]);
    MoveKeeps(s, s', t);
  }

  // ---------------------------------------------------- the check of a write

  lemma WriteFacts(s: State, t: nat, i: nat)
    requires BaseInv(s) && t < |s.thr| && i < |s.thr[t].wset| && !Disposed(s.thr[t].phase, i)
    ensures WriteOk(s.heap, s.thr[t], t, i) && s.thr[t].wset[i].key < |s.recs|
    ensures !s.thr[t].ronly && Active(s.thr[t].phase)
    ensures !s.thr[t].phase.Aborting? ==> (s.thr[t].wset[i].installed <==> i < InstalledCount(s.thr[t].phase, |s.thr[t].wset|))
  {
    ThreadOf(s, t);
  }

  lemma CheckMoves(h: seq<Version>, tx: Executor, tx': Executor, i: nat, p': int)
    requires CertOk(h, tx) && i < |tx.wset|
    requires Checking(tx.phase) && tx.phase.i == i
    requires tx' == tx.(phase := CheckWait(i, p'))
    requires CheckedTo(h, tx.wset[i].key, tx.wset[i].ver, p')
    ensures CertOk(h, tx')
  {
    forall j | 0 <= j < |tx.rset| ensures ReadCertified(h, tx', j) {
      assert ReadCertified(h, tx, j);
    }
  }

  lemma CheckStartClean(h: seq<Version>, k: Key, n: int, q: int)
    requires On(h, n, k) && On(h, q, k)
    requires forall u: int | On(h, u, k) && h[u].wts < h[n].wts :: h[u].wts <= h[q].wts
    ensures CheckedTo(h, k, n, q)
  {
  }

  lemma CheckStartKeeps(s: State, s': State, t: nat)
    requires BaseInv(s) && t < |s.thr| && CheckStart(s, s', t)
    ensures BaseInv(s')
  {
    var tx := s.thr[t];
    WriteFacts(s, t, tx.phase.i);
    var e := tx.wset[tx.phase.i];
    BottomVisible(s, t, e.key);
    WalkNext(s.heap, s.recs[e.key], e.key, tx.rts, e.ver);
    CheckStartClean(s.heap, e.key, e.ver, s.heap[e.ver].next);
    ThreadOf(s, t);
    CheckMoves(s.heap, tx, s'.thr[t], tx.phase.i, s'.thr[t].phase.cur);
    MoveKeeps(s, s', t);
  }

  lemma CheckDownClean(h: seq<Version>, k: Key, n: int, p: int, q: int)
    requires CheckedTo(h, k, n, p) && On(h, p, k) && On(h, q, k) && h[p].status.Aborted?
    requires forall u: int | On(h, u, k) && h[u].wts < h[p].wts :: h[u].wts <= h[q].wts
    requires forall u: int | On(h, u, k) && h[u].wts == h[p].wts :: u == p
    ensures CheckedTo(h, k, n, q)
  {
  }

  lemma CheckDownMoves(s: State, s': State, t: nat, k: Key)
    requires t < |s.thr| && CheckDown(s, s', t) && k < |s.recs| && ListInv(s.heap, s.recs[k], k)
    requires WalkOk(s.heap, s.thr[t], |s.recs|) && CertOk(s.heap, s.thr[t]) && k == s.thr[t].wset[s.thr[t].phase.i].key
    ensures WalkOk(s.heap, s'.thr[t], |s.recs|) && CertOk(s.heap, s'.thr[t])
  {
    var tx := s.thr[t];
    WalkDown(s.heap, s.recs[k], k, tx.rts, tx.phase.cur);
    CheckDownClean(s.heap, k, tx.wset[tx.phase.i].ver, tx.phase.cur, s.heap[tx.phase.cur].next);
    CheckMoves(s.heap, tx, s'.thr[t], tx.phase.i, s'.thr[t].phase.cur);
  }

  lemma CheckDownKeeps(s: State, s': State, t: nat)
    requires BaseInv(s) && t < |s.thr| && CheckDown(s, s', t)
    ensures BaseInv(s')
  {
    ThreadOf(s, t);
    WriteFacts(s, t, s.thr[t].phase.i);
    var k := s.thr[t].wset[s.thr[t].phase.i].key;
    BottomVisible(s, t, k);
    CheckDownMoves(s, s', t, k);
    MoveKeeps(s, s', t);
  }

  lemma CheckFailKeeps(s: State, s': State, t: nat)
    requires BaseInv(s) && t < |s.thr| && CheckFail(s, s', t)
    ensures BaseInv(s')
  {
    ThreadOf(s, t);
    WriteFacts(s, t, s.thr[t].phase.i);
    NothingCertified(s.heap, s'.thr[t]);
    MoveKeeps(s, s', t);
  }
}
