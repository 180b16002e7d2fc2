/** The invariant is kept by the steps that leave the heap alone. */
module CicadaThreads {
  import opened SerialExecution
  import opened Cicada
  import opened CicadaInvariant
  import opened CicadaInterference

  lemma ViewOf(s: State, u: nat)
    requires BaseInv(s) && u < |s.thr|
    ensures View(s.thr[u], u, s.minWts, s.minRts)
  {
    assert TimeOk(s.thr[u], u, s.threadWts, s.threadRts, s.minWts, s.minRts, s.initTs);
  }

  lemma BottomVisible(s: State, t: nat, k: Key)
    requires BaseInv(s) && t < |s.thr| && Active(s.thr[t].phase) && k < |s.recs|
    ensures ListInv(s.heap, s.recs[k], k) && s.heap[s.recs[k].bottom].wts <= s.thr[t].rts < s.thr[t].ts
  {
    ViewOf(s, t);
    assert TimeOk(s.thr[t], t, s.threadWts, s.threadRts, s.minWts, s.minRts, s.initTs);
  }

  lemma SeqnosOf(s: State)
    requires BaseInv(s)
    ensures SeqnosBelow(s.heap, s.clock)
  {
    forall v | 0 <= v < |s.heap| && s.heap[v].place.Listed? ensures s.heap[v].seqno < s.clock {
      assert VersionOk(s.heap[v], s.clock, |s.recs|, |s.thr|);
    }
  }

  ghost predicate ThreadInv(h: seq<Version>, recs: seq<Record>, tx: Executor, t: nat, minRts: nat) {
    TxOk(h, tx, t, |recs|) && GcOk(h, recs, tx, t, minRts) && CertOk(h, tx)
  }

  lemma ThreadOf(s: State, u: nat)
    requires BaseInv(s) && u < |s.thr|
    ensures ThreadInv(s.heap, s.recs, s.thr[u], u, s.minRts)
  {
  }

  /** Everything but the certification of reads survives what another thread does. */
  lemma OtherKept(s: State, h': seq<Version>, recs': seq<Record>, t: nat, u: nat)
    requires BaseInv(s) && u < |s.thr| && u != t
    requires HeapEvolves(s.heap, h', recs', t, s.minWts, s.minRts, s.clock)
    requires RecordsEvolve(s.heap, h', s.recs, recs', t, u, s.minRts)
    ensures TxOk(h', s.thr[u], u, |recs'|) && GcOk(h', recs', s.thr[u], u, s.minRts)
  {
    ViewOf(s, u);
    ThreadOf(s, u);
    WriteSetStable(s.heap, h', recs', s.thr[u], t, u, s.minWts, s.minRts, s.clock, |s.recs|);
    ReadSetStable(s.heap, h', recs', s.thr[u], t, u, s.minWts, s.minRts, s.clock, |s.recs|);
    WalkStable(s.heap, h', recs', s.thr[u], t, u, s.minWts, s.minRts, s.clock, |s.recs|);
    OwnStable(s.heap, h', recs', s.thr[u], t, u, s.minWts, s.minRts, s.clock);
    PrivateStable(s.heap, h', recs', s.thr[u], t, u, s.minWts, s.minRts, s.clock);
    DetachedStable(s.heap, h', recs', s.thr[u], t, u, s.minWts, s.minRts, s.clock);
    GcStable(s.heap, h', s.recs, recs', s.thr[u], t, u, s.minWts, s.minRts, s.clock);
  }

  lemma OtherCertKept(s: State, h': seq<Version>, recs': seq<Record>, t: nat, u: nat)
    requires BaseInv(s) && u < |s.thr| && u != t
    requires HeapEvolves(s.heap, h', recs', t, s.minWts, s.minRts, s.clock) && NonePass(s.heap, h')
    ensures CertOk(h', s.thr[u])
  {
    ViewOf(s, u);
    ThreadOf(s, u);
    SeqnosOf(s);
    CertStable(s.heap, h', recs', s.thr[u], t, u, s.minWts, s.minRts, s.clock, |s.recs|);
  }

  ghost predicate OnlyThread(s: State, s': State, t: nat) {
    t < |s.thr| && |s'.thr| == |s.thr| && s'.thr == s.thr[t := s'.thr[t]]
  }

  lemma ThreadsKept(s: State, s': State, t: nat)
    requires BaseInv(s) && OnlyThread(s, s', t) && |s'.recs| == |s.recs| && s'.minRts == s.minRts
    requires HeapEvolves(s.heap, s'.heap, s'.recs, t, s.minWts, s.minRts, s.clock) && NonePass(s.heap, s'.heap)
    requires forall u: nat | u != t && u < |s.thr| :: RecordsEvolve(s.heap, s'.heap, s.recs, s'.recs, t, u, s.minRts)
    requires ThreadInv(s'.heap, s'.recs, s'.thr[t], t, s.minRts)
    ensures ThreadsInv(s')
  {
    forall u | 0 <= u < |s'.thr|
      ensures ThreadInv(s'.heap, s'.recs, s'.thr[u], u, s'.minRts)
    {
      if u != t {
        OtherKept(s, s'.heap, s'.recs, t, u);
        OtherCertKept(s, s'.heap, s'.recs, t, u);
      }
    }
  }

  // ------------------------------------------------------------ local steps

  /** Nothing shared changes but history that does not concern the lists. */
  ghost predicate LocalTo(s: State, s': State, t: nat) {
    && OnlyThread(s, s', t) && s'.heap == s.heap && s'.recs == s.recs
    && s'.threadWts == s.threadWts && s'.threadRts == s.threadRts && s'.minWts == s.minWts && s'.minRts == s.minRts
    && s'.initTs == s.initTs && s'.clock == s.clock
  }

  lemma HeapUnchanged(h: seq<Version>, recs': seq<Record>, t: nat, minWts: nat, minRts: nat, clock: nat)
    ensures HeapEvolves(h, h, recs', t, minWts, minRts, clock) && NonePass(h, h)
  {
  }

  lemma RecordsUnchanged(s: State, t: nat, u: nat)
    requires BaseInv(s)
    ensures RecordsEvolve(s.heap, s.heap, s.recs, s.recs, t, u, s.minRts)
  {
    forall k: Key | k < |s.recs| ensures On(s.heap, s.recs[k].bottom, k) {
      assert ListInv(s.heap, s.recs[k], k);
    }
  }

  lemma LocalKeeps(s: State, s': State, t: nat)
    requires BaseInv(s) && LocalTo(s, s', t)
    requires TimeOk(s'.thr[t], t, s.threadWts, s.threadRts, s.minWts, s.minRts, s.initTs)
    requires LeaderOk(s'.thr[t].phase, t, s.threadWts, s.threadRts, s.minWts, s.minRts)
    requires ThreadInv(s.heap, s.recs, s'.thr[t], t, s.minRts)
    ensures BaseInv(s')
  {
    HeapUnchanged(s.heap, s'.recs, t, s.minWts, s.minRts, s.clock);
    forall u: nat | u != t && u < |s.thr| ensures RecordsEvolve(s.heap, s'.heap, s.recs, s'.recs, t, u, s.minRts) {
      RecordsUnchanged(s, t, u);
    }
    ThreadsKept(s, s', t);
  }

  // ------------------------------------------------------------ phase changes

  predicate Working(p: Phase) { Active(p) && !p.Committing? && !p.Aborting? }

  /** A move that neither installs, commits nor cleans anything up. */
  ghost predicate PhaseMove(tx: Executor, tx': Executor) {
    && tx' == tx.(phase := tx'.phase)
    && Working(tx.phase) && (Working(tx'.phase) || tx'.phase == Aborting(0))
    && (InFlight(tx.phase) ==> InFlight(tx'.phase)) && (tx.ronly ==> !InFlight(tx'.phase))
    && (!tx'.phase.Aborting? ==> InstalledCount(tx'.phase, |tx.wset|) == InstalledCount(tx.phase, |tx.wset|))
    && (Checking(tx'.phase) ==> tx'.phase.i == 0 || (Checking(tx.phase) && tx'.phase.i == tx.phase.i))
  }

  lemma MoveKeepsSets(h: seq<Version>, tx: Executor, tx': Executor, t: nat, nrecs: nat)
    requires PhaseMove(tx, tx') && WriteSetOk(h, tx, t, nrecs) && ReadSetOk(h, tx, nrecs)
    ensures WriteSetOk(h, tx', t, nrecs) && ReadSetOk(h, tx', nrecs)
  {
    forall j | 0 <= j < |tx.wset| ensures WriteOk(h, tx', t, j) {
      assert WriteOk(h, tx, t, j);
    }
    forall j | 0 <= j < |tx.rset| ensures ReadOk(h, tx', tx'.rset[j]) {
      assert ReadOk(h, tx, tx.rset[j]);
    }
  }

  lemma SameReads(h: seq<Version>, tx: Executor, tx': Executor, nrecs: nat)
    requires ReadSetOk(h, tx, nrecs) && tx'.rset == tx.rset && tx'.ts == tx.ts && tx'.rts == tx.rts
    requires !tx.ronly && !tx'.ronly && Active(tx'.phase)
    ensures ReadSetOk(h, tx', nrecs)
  {
    forall j | 0 <= j < |tx.rset| ensures ReadOk(h, tx', tx'.rset[j]) {
      assert ReadOk(h, tx, tx.rset[j]);
    }
  }

  lemma SameOwn(h: seq<Version>, tx: Executor, tx': Executor, t: nat)
    requires OwnOk(h, tx, t) && tx'.ts == tx.ts && tx'.wset == tx.wset
    requires (InFlight(tx.phase) ==> InFlight(tx'.phase)) && (Unseen(tx.phase) || InFlight(tx.phase))
    requires forall j: nat :: !Disposed(tx.phase, j) && !Disposed(tx'.phase, j)
    ensures OwnOk(h, tx', t)
  {
    forall v: int | OnList(h, v) && h[v].wts % TID_SPACE == t
      ensures h[v].wts == tx.ts ==> InFlight(tx.phase) && MineOnce(tx', v, h[v].place.key)
      ensures h[v].status.Pending? ==> h[v].wts == tx.ts && InFlight(tx.phase) && Mine(tx', v, h[v].place.key)
    {
      if h[v].wts == tx.ts {
        var j :| 0 <= j < |tx.wset| && tx.wset[j].ver == v && tx.wset[j].installed && tx.wset[j].key == h[v].place.key;
        assert tx'.wset[j].ver == v;
      }
    }
  }

  lemma SameWrites(h: seq<Version>, tx: Executor, tx': Executor, t: nat)
    requires PrivateOk(h, tx, t) && tx'.wset == tx.wset && tx'.pool == tx.pool
    requires forall j: nat :: !Disposed(tx.phase, j) && !Disposed(tx'.phase, j)
    ensures PrivateOk(h, tx', t)
  {
    forall v | 0 <= v < |h| && h[v].place == InWriteSet(t)
      ensures exists j :: 0 <= j < |tx'.wset| && tx'.wset[j].ver == v && !tx'.wset[j].installed && !Disposed(tx'.phase, j)
    {
      var j :| 0 <= j < |tx.wset| && tx.wset[j].ver == v && !tx.wset[j].installed && !Disposed(tx.phase, j);
      assert tx'.wset[j].ver == v;
    }
  }

  lemma MoveKeepsOwn(h: seq<Version>, tx: Executor, tx': Executor, t: nat)
    requires PhaseMove(tx, tx') && OwnOk(h, tx, t)
    ensures OwnOk(h, tx', t)
  {
    SameOwn(h, tx, tx', t);
  }

  lemma MoveKeepsRest(h: seq<Version>, recs: seq<Record>, tx: Executor, tx': Executor, t: nat, minRts: nat)
    requires PhaseMove(tx, tx')
    requires PrivateOk(h, tx, t) && DetachedOk(h, tx, t) && GcOk(h, recs, tx, t, minRts)
    ensures PrivateOk(h, tx', t) && DetachedOk(h, tx', t) && GcOk(h, recs, tx', t, minRts)
  {
    SameWrites(h, tx, tx', t);
  }

  /** A move of the executor's phase, given where its walk and its certification stand. */
  lemma MoveKeeps(s: State, s': State, t: nat)
    requires BaseInv(s) && LocalTo(s, s', t) && PhaseMove(s.thr[t], s'.thr[t])
    requires WalkOk(s.heap, s'.thr[t], |s.recs|) && CertOk(s.heap, s'.thr[t])
    ensures BaseInv(s')
  {
    ThreadOf(s, t);
    var tx, tx' := s.thr[t], s'.thr[t];
    MoveKeepsSets(s.heap, tx, tx', t, |s.recs|);
    MoveKeepsOwn(s.heap, tx, tx', t);
    MoveKeepsRest(s.heap, s.recs, tx, tx', t, s.minRts);
    MoveKeepsTime(s, tx', t);
    LocalKeeps(s, s', t);
  }

  lemma MoveKeepsTime(s: State, tx': Executor, t: nat)
    requires BaseInv(s) && t < |s.thr| && Active(s.thr[t].phase) && Active(tx'.phase)
    requires tx'.ts == s.thr[t].ts && tx'.rts == s.thr[t].rts
    ensures TimeOk(tx', t, s.threadWts, s.threadRts, s.minWts, s.minRts, s.initTs)
    ensures LeaderOk(tx'.phase, t, s.threadWts, s.threadRts, s.minWts, s.minRts)
  {
    assert TimeOk(s.thr[t], t, s.threadWts, s.threadRts, s.minWts, s.minRts, s.initTs);
  }

  /** Before validation there is nothing to certify. */
  lemma NothingCertified(h: seq<Version>, tx: Executor)
    requires !Scanning(tx.phase) && !Checking(tx.phase) && !tx.phase.Committing? && !tx.phase.Raise?
    ensures CertOk(h, tx)
  {
  }
}
