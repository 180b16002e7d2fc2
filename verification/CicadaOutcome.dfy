/** The invariant is kept while versions are made, committed, aborted and recycled. */
module CicadaOutcome {
  import opened Cicada
  import opened CicadaInvariant
  import opened CicadaInterference
  import opened CicadaThreads
  import opened CicadaBeginning
  import opened CicadaValidation
  import opened CicadaVersions

  /** Every list as it was, version by version, except perhaps at `x`. */
  ghost predicate AllBut(h: seq<Version>, h': seq<Version>, x: int) {
    && |h| <= |h'| <= |h| + 1 && Valid(h', x) && (|h'| > |h| ==> x == |h|)
    && forall v | 0 <= v < |h| && v != x :: h'[v] == h[v]
  }

  lemma WritesKept(h: seq<Version>, h': seq<Version>, tx: Executor, tx': Executor, t: nat, x: int, j: nat)
    requires AllBut(h, h', x) && j < |tx.wset| && WriteOk(h, tx, t, j) && tx.wset[j].ver != x
    requires tx'.wset == tx.wset && tx'.ts == tx.ts && LaterOk(h', tx.wset[j].key, tx.wset[j].later, tx.ts)
    requires tx.phase.Committing? <==> tx'.phase.Committing?
    requires !Checking(tx'.phase)
    ensures WriteOk(h', tx', t, j)
  {
  }

  // ------------------------------------------------------------------ commit

  lemma CommitTouches(s: State, s': State, t: nat)
    requires BaseInv(s) && t < |s.thr| && CommitOne(s, s', t)
    ensures var x := s.thr[t].wset[s.thr[t].phase.i].ver;
            && Touches(s.heap, s'.heap, x, t, s.minWts) && VersionOk(s'.heap[x], s.clock, |s.recs|, |s.thr|)
            && x < |s.heap| && s.heap[x].passed && s'.heap[x].passed
    ensures HeapOnly(s, s', t) && WriteOk(s.heap, s.thr[t], t, s.thr[t].phase.i)
    ensures s.thr[t].wset[s.thr[t].phase.i].key < |s.recs| && !s.thr[t].ronly && s.thr[t].wset[s.thr[t].phase.i].installed
  {
    WriteFacts(s, t, s.thr[t].phase.i);
    SameTimes(s, t);
    var x := s.thr[t].wset[s.thr[t].phase.i].ver;
    assert VersionOk(s.heap[x], s.clock, |s.recs|, |s.thr|);
  }

  lemma LaterKept(s: State, h': seq<Version>, x: int, t: nat, j: nat)
    requires BaseInv(s) && t < |s.thr| && Touches(s.heap, h', x, t, s.minWts)
    requires j < |s.thr[t].wset| && !Disposed(s.thr[t].phase, j)
    ensures LaterOk(h', s.thr[t].wset[j].key, s.thr[t].wset[j].later, s.thr[t].ts)
  {
    var tx := s.thr[t];
    WriteFacts(s, t, j);
    ViewOf(s, t);
    TouchEvolves(s.heap, h', s.recs, x, t, s.minWts, s.minRts, s.clock);
    LaterStable(s.heap, h', s.recs, t, s.minWts, s.minRts, s.clock, tx.wset[j].key, tx.rts, tx.wset[j].later, tx.ts);
  }

  /** One write element is dealt with: the rest is as before. */
  lemma DisposeSets(s: State, s': State, t: nat, x: int)
    requires BaseInv(s) && t < |s.thr| && OnlyThread(s, s', t) && Touches(s.heap, s'.heap, x, t, s.minWts)
    requires AllBut(s.heap, s'.heap, x)
    requires var tx, tx' := s.thr[t], s'.thr[t];
             && (tx.phase.Committing? || tx.phase.Aborting?) && tx.phase.i < |tx.wset|
             && tx.wset[tx.phase.i].ver == x && !tx.ronly
             && tx' == tx.(phase := tx'.phase, gcq := tx'.gcq, pool := tx'.pool)
             && tx'.phase == (if tx.phase.Committing? then Committing(tx.phase.i + 1) else Aborting(tx.phase.i + 1))
    ensures WriteSetOk(s'.heap, s'.thr[t], t, |s.recs|) && ReadSetOk(s'.heap, s'.thr[t], |s.recs|)
  {
    ThreadOf(s, t);
    var tx, tx' := s.thr[t], s'.thr[t];
    forall j | 0 <= j < |tx'.wset| && !Disposed(tx'.phase, j) ensures WriteOk(s'.heap, tx', t, j) {
      assert WriteOk(s.heap, tx, t, j);
      LaterKept(s, s'.heap, x, t, j);
      WritesKept(s.heap, s'.heap, tx, tx', t, x, j);
    }
    TouchKeepsOwnReads(s, s'.heap, x, t);
    SameReads(s'.heap, tx, tx', |s.recs|);
  }

  lemma DisposeOwn(h: seq<Version>, h': seq<Version>, tx: Executor, tx': Executor, t: nat, x: int)
    requires AllBut(h, h', x) && OwnOk(h, tx, t)
    requires (tx.phase.Committing? || tx.phase.Aborting?) && tx.phase.i < |tx.wset| && tx.wset[tx.phase.i].ver == x
    requires tx'.wset == tx.wset && tx'.ts == tx.ts
    requires tx'.phase == (if tx.phase.Committing? then Committing(tx.phase.i + 1) else Aborting(tx.phase.i + 1))
    requires OnList(h', x) ==> OnList(h, x) && h'[x].wts == h[x].wts && h'[x].place == h[x].place && !h'[x].status.Pending?
    ensures OwnOk(h', tx', t)
  {
    forall v: int | OnList(h', v) && h'[v].wts % TID_SPACE == t
      ensures h'[v].wts <= tx.ts
      ensures h'[v].wts == tx.ts ==> MineOnce(tx', v, h'[v].place.key)
      ensures h'[v].status.Pending? ==> h'[v].wts == tx.ts && Mine(tx', v, h'[v].place.key)
    {
      assert OnList(h, v);
      if h'[v].wts == tx.ts {
        var j :| 0 <= j < |tx.wset| && tx.wset[j].ver == v && tx.wset[j].installed && tx.wset[j].key == h[v].place.key;
        assert tx'.wset[j].ver == v;
      }
      if h'[v].status.Pending? {
        var j :| 0 <= j < |tx.wset| && tx.wset[j].ver == v && tx.wset[j].installed
                 && tx.wset[j].key == h[v].place.key && !Disposed(tx.phase, j);
        assert tx'.wset[j].ver == v && !Disposed(tx'.phase, j);
      }
    }
  }

  lemma CommitPrivate(h: seq<Version>, h': seq<Version>, tx: Executor, tx': Executor, t: nat, x: int, nrecs: nat)
    requires AllBut(h, h', x) && |h'| == |h| && h[x].place.Listed? && h'[x].place.Listed?
    requires PrivateOk(h, tx, t) && DetachedOk(h, tx, t) && WriteSetOk(h, tx, t, nrecs) && tx.phase.Committing?
    requires tx'.phase.Committing? && tx'.pool == tx.pool && tx'.wset == tx.wset
    ensures PrivateOk(h', tx', t) && DetachedOk(h', tx', t)
  {
    assert forall v | 0 <= v < |h'| :: h'[v].place == InWriteSet(t) ==> h[v].place == InWriteSet(t);
    assert forall v: int :: Det(h', v, t) ==> Det(h, v, t);
  }

  /** A committed version is queued for garbage collection. */
  lemma CommitQueues(h': seq<Version>, recs: seq<Record>, tx: Executor, tx': Executor, t: nat, g: GcElement, minRts: nat)
    requires GcOk(h', recs, tx, t, minRts) && tx.phase.Committing? && tx'.phase.Committing?
    requires tx'.gcq == tx.gcq + [g] && g.key < |recs| && Valid(h', recs[g.key].bottom)
    requires On(h', g.ver, g.key) && h'[g.ver].wts == g.wts && h'[g.ver].status.Committed?
    ensures GcOk(h', recs, tx', t, minRts)
  {
  }

  lemma CommittingCert(h': seq<Version>, tx: Executor, tx': Executor)
    requires CertOk(h', tx) && tx.phase.Committing? && tx'.phase.Committing? && tx'.rset == tx.rset && tx'.ts == tx.ts
    ensures CertOk(h', tx')
  {
    forall j | 0 <= j < |tx'.rset| ensures ReadCertified(h', tx', j) {
      assert ReadCertified(h', tx, j);
    }
  }

  /** The commit of one write element, as the executor and the heap see it. */
  ghost predicate CommitsOne(h: seq<Version>, h': seq<Version>, tx: Executor, tx': Executor, x: int, g: GcElement) {
    && AllBut(h, h', x) && |h'| == |h|
    && tx.phase.Committing? && tx.phase.i < |tx.wset| && tx.wset[tx.phase.i].ver == x
    && tx' == tx.(phase := Committing(tx.phase.i + 1), gcq := tx.gcq + [g])
    && On(h, x, g.key) && On(h', x, g.key) && h'[x].wts == h[x].wts == g.wts && h'[x].status.Committed? && g.ver == x
  }

  lemma CommitShape(s: State, s': State, t: nat)
    requires t < |s.thr| && CommitOne(s, s', t) && WriteOk(s.heap, s.thr[t], t, s.thr[t].phase.i)
    requires s.thr[t].wset[s.thr[t].phase.i].installed
    ensures var e := s.thr[t].wset[s.thr[t].phase.i];
            CommitsOne(s.heap, s'.heap, s.thr[t], s'.thr[t], e.ver, GcElement(e.key, e.ver, s.thr[t].ts))
  {
  }

  lemma CommitRest(h: seq<Version>, h': seq<Version>, tx: Executor, tx': Executor, t: nat, x: int, g: GcElement, nrecs: nat)
    requires CommitsOne(h, h', tx, tx', x, g)
    requires OwnOk(h, tx, t) && PrivateOk(h, tx, t) && DetachedOk(h, tx, t) && WriteSetOk(h, tx, t, nrecs)
    ensures OwnOk(h', tx', t) && PrivateOk(h', tx', t) && DetachedOk(h', tx', t)
  {
    DisposeOwn(h, h', tx, tx', t, x);
    CommitPrivate(h, h', tx, tx', t, x, nrecs);
  }

  lemma CommitOwnTx(s: State, s': State, t: nat)
    requires BaseInv(s) && t < |s.thr| && CommitOne(s, s', t)
    ensures TxOk(s'.heap, s'.thr[t], t, |s.recs|)
  {
    var e := s.thr[t].wset[s.thr[t].phase.i];
    CommitTouches(s, s', t);
    CommitShape(s, s', t);
    DisposeSets(s, s', t, e.ver);
    ThreadOf(s, t);
    CommitRest(s.heap, s'.heap, s.thr[t], s'.thr[t], t, e.ver, GcElement(e.key, e.ver, s.thr[t].ts), |s.recs|);
  }

  lemma CommitOwn(s: State, s': State, t: nat)
    requires BaseInv(s) && t < |s.thr| && CommitOne(s, s', t)
    ensures ThreadInv(s'.heap, s.recs, s'.thr[t], t, s.minRts)
  {
    var tx, tx' := s.thr[t], s'.thr[t];
    var e := tx.wset[tx.phase.i];
    CommitTouches(s, s', t);
    CommitShape(s, s', t);
    CommitOwnTx(s, s', t);
    TouchKeepsOwnReads(s, s'.heap, e.ver, t);
    TouchKeepsOwnCert(s, s'.heap, e.ver, t);
    assert ListInv(s.heap, s.recs[e.key], e.key);
    CommitQueues(s'.heap, s.recs, tx, tx', t, GcElement(e.key, e.ver, tx.ts), s.minRts);
    CommittingCert(s'.heap, tx, tx');
  }

  lemma CommitOneKeeps(s: State, s': State, t: nat)
    requires BaseInv(s) && t < |s.thr| && CommitOne(s, s', t)
    ensures BaseInv(s')
  {
    CommitTouches(s, s', t);
    CommitOwn(s, s', t);
    MoveKeepsTime(s, s'.thr[t], t);
    TouchKeeps(s, s', s.thr[t].wset[s.thr[t].phase.i].ver, t);
  }

  /** Everything has been dealt with: nothing of the transaction is left pending or unlisted. */
  lemma EndOwn(h: seq<Version>, recs: seq<Record>, tx: Executor, tx': Executor, t: nat, minRts: nat)
    requires ThreadInv(h, recs, tx, t, minRts)
    requires (tx.phase.Committing? || tx.phase.Aborting?) && tx.phase.i == |tx.wset|
    requires tx' == tx.(phase := Maint, rset := [], wset := [])
    ensures ThreadInv(h, recs, tx', t, minRts)
  {
    assert OwnOk(h, tx', t);
    EndPrivate(h, tx, tx', t);
    QuietGc(h, recs, tx, tx', t, minRts, minRts);
    QuietSets(h, tx', t, |recs|);
  }

  lemma EndPrivate(h: seq<Version>, tx: Executor, tx': Executor, t: nat)
    requires PrivateOk(h, tx, t) && (tx.phase.Committing? || tx.phase.Aborting?) && tx.phase.i == |tx.wset|
    requires tx' == tx.(phase := Maint, rset := [], wset := [])
    ensures PrivateOk(h, tx', t)
  {
    assert forall v | 0 <= v < |h| :: h[v].place != InWriteSet(t);
  }

  lemma EndKeeps(s: State, s': State, t: nat)
    requires BaseInv(s) && t < |s.thr| && (CommitEnd(s, s', t) || AbortEnd(s, s', t))
    ensures BaseInv(s')
  {
    ThreadOf(s, t);
    SameTimes(s, t);
    EndOwn(s.heap, s.recs, s.thr[t], s'.thr[t], t, s.minRts);
    LocalKeeps(s, s', t);
  }

  // ------------------------------------------------------------------- abort

  lemma AbortTouches(s: State, s': State, t: nat)
    requires BaseInv(s) && t < |s.thr| && AbortOne(s, s', t)
    ensures var x := s.thr[t].wset[s.thr[t].phase.i].ver;
            && Touches(s.heap, s'.heap, x, t, s.minWts) && VersionOk(s'.heap[x], s.clock, |s.recs|, |s.thr|)
            && x < |s.heap| && (s'.heap[x].passed ==> s.heap[x].passed)
    ensures HeapOnly(s, s', t) && WriteOk(s.heap, s.thr[t], t, s.thr[t].phase.i)
    ensures s.thr[t].wset[s.thr[t].phase.i].key < |s.recs| && !s.thr[t].ronly
  {
    WriteFacts(s, t, s.thr[t].phase.i);
    SameTimes(s, t);
    var x := s.thr[t].wset[s.thr[t].phase.i].ver;
    assert VersionOk(s.heap[x], s.clock, |s.recs|, |s.thr|);
  }

  lemma AbortPrivate(h: seq<Version>, h': seq<Version>, tx: Executor, tx': Executor, t: nat, x: int)
    requires AllBut(h, h', x) && |h'| == |h| && PrivateOk(h, tx, t) && DetachedOk(h, tx, t)
    requires tx.phase.Aborting? && tx.phase.i < |tx.wset| && tx.wset[tx.phase.i].ver == x
    requires tx'.phase == Aborting(tx.phase.i + 1) && tx'.wset == tx.wset
    requires if tx.wset[tx.phase.i].installed then h[x].place.Listed? && h'[x].place.Listed? && tx'.pool == tx.pool
             else h[x].place == InWriteSet(t) && h'[x].place == InPool(t) && tx'.pool == tx.pool + [x]
    ensures PrivateOk(h', tx', t) && DetachedOk(h', tx', t)
  {
    forall v | 0 <= v < |h'| && h'[v].place == InWriteSet(t)
      ensures exists j :: 0 <= j < |tx'.wset| && tx'.wset[j].ver == v && !tx'.wset[j].installed && !Disposed(tx'.phase, j)
    {
      assert h[v].place == InWriteSet(t);
      var j :| 0 <= j < |tx.wset| && tx.wset[j].ver == v && !tx.wset[j].installed && !Disposed(tx.phase, j);
      assert tx'.wset[j].ver == v && !Disposed(tx'.phase, j);
    }
    assert forall v: int :: Det(h', v, t) ==> Det(h, v, t);
  }

  /** The clean-up of one write element, as the executor and the heap see it. */
  ghost predicate AbortsOne(h: seq<Version>, h': seq<Version>, tx: Executor, tx': Executor, t: nat, x: int) {
    && AllBut(h, h', x) && |h'| == |h|
    && tx.phase.Aborting? && tx.phase.i < |tx.wset| && tx.wset[tx.phase.i].ver == x
    && tx' == tx.(phase := Aborting(tx.phase.i + 1), pool := tx'.pool)
    && if tx.wset[tx.phase.i].installed
       then && OnList(h, x) && h'[x] == h[x].(status := Aborted) && tx'.pool == tx.pool
       else && h[x].place == InWriteSet(t) && h'[x].place == InPool(t) && tx'.pool == tx.pool + [x]
  }

  lemma AbortShape(s: State, s': State, t: nat)
    requires t < |s.thr| && AbortOne(s, s', t) && WriteOk(s.heap, s.thr[t], t, s.thr[t].phase.i)
    ensures AbortsOne(s.heap, s'.heap, s.thr[t], s'.thr[t], t, s.thr[t].wset[s.thr[t].phase.i].ver)
  {
  }

  lemma AbortRest(h: seq<Version>, h': seq<Version>, tx: Executor, tx': Executor, t: nat, x: int)
    requires AbortsOne(h, h', tx, tx', t, x) && OwnOk(h, tx, t) && PrivateOk(h, tx, t) && DetachedOk(h, tx, t)
    ensures OwnOk(h', tx', t) && PrivateOk(h', tx', t) && DetachedOk(h', tx', t)
  {
    DisposeOwn(h, h', tx, tx', t, x);
    AbortPrivate(h, h', tx, tx', t, x);
  }

  lemma AbortOwnTx(s: State, s': State, t: nat)
    requires BaseInv(s) && t < |s.thr| && AbortOne(s, s', t)
    ensures TxOk(s'.heap, s'.thr[t], t, |s.recs|)
  {
    var x := s.thr[t].wset[s.thr[t].phase.i].ver;
    AbortTouches(s, s', t);
    AbortShape(s, s', t);
    DisposeSets(s, s', t, x);
    ThreadOf(s, t);
    AbortRest(s.heap, s'.heap, s.thr[t], s'.thr[t], t, x);
  }

  lemma AbortOwn(s: State, s': State, t: nat)
    requires BaseInv(s) && t < |s.thr| && AbortOne(s, s', t)
    ensures ThreadInv(s'.heap, s.recs, s'.thr[t], t, s.minRts)
  {
    AbortTouches(s, s', t);
    AbortShape(s, s', t);
    AbortOwnTx(s, s', t);
    TouchKeepsOwnReads(s, s'.heap, s.thr[t].wset[s.thr[t].phase.i].ver, t);
    QuietGc(s'.heap, s.recs, s.thr[t], s'.thr[t], t, s.minRts, s.minRts);
    NothingCertified(s'.heap, s'.thr[t]);
  }

  lemma AbortOneKeeps(s: State, s': State, t: nat)
    requires BaseInv(s) && t < |s.thr| && AbortOne(s, s', t)
    ensures BaseInv(s')
  {
    AbortTouches(s, s', t);
    AbortOwn(s, s', t);
    MoveKeepsTime(s, s'.thr[t], t);
    TouchKeeps(s, s', s.thr[t].wset[s.thr[t].phase.i].ver, t);
  }
}
