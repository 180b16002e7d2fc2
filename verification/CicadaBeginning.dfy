/** The invariant is kept while timestamps are issued and published. */
module CicadaBeginning {
  import opened Cicada
  import opened CicadaInvariant
  import opened CicadaThreads

  /** Steps that touch no list and no record, but may publish timestamps. */
  ghost predicate TimesOnly(s: State, s': State, t: nat) {
    && OnlyThread(s, s', t) && s'.heap == s.heap && s'.recs == s.recs
    && s'.initTs == s.initTs && s'.clock == s.clock && s.minRts <= s'.minRts
  }

  lemma TimesOnlyKeeps(s: State, s': State, t: nat)
    requires BaseInv(s) && TimesOnly(s, s', t) && TimesInv(s')
    requires ThreadInv(s.heap, s.recs, s'.thr[t], t, s'.minRts)
    ensures BaseInv(s')
  {
    forall k | 0 <= k < |s.recs|
      ensures ListInv(s.heap, s.recs[k], k) && RecordOk(s.heap, s.recs[k], s.initTs, s'.minRts, |s.thr|)
    {
    }
    forall u | 0 <= u < |s'.thr| ensures ThreadInv(s'.heap, s'.recs, s'.thr[u], u, s'.minRts) {
      if u != t {
        ThreadOf(s, u);
      }
    }
  }

  lemma SameTimes(s: State, u: nat)
    requires BaseInv(s) && u < |s.thr|
    ensures |s.threadWts| == |s.thr| && |s.threadRts| == |s.thr|
    ensures TimeOk(s.thr[u], u, s.threadWts, s.threadRts, s.minWts, s.minRts, s.initTs)
    ensures LeaderOk(s.thr[u].phase, u, s.threadWts, s.threadRts, s.minWts, s.minRts)
  {
  }

  /** Outside transactions and garbage collection a thread owns nothing but its pool. */
  ghost predicate Quiet(p: Phase) { !Active(p) && !Collecting(p) }

  lemma QuietOwn(h: seq<Version>, tx: Executor, tx': Executor, t: nat)
    requires OwnOk(h, tx, t) && !InFlight(tx.phase) && !InFlight(tx'.phase) && tx.ts <= tx'.ts
    requires Unseen(tx'.phase) ==> tx.ts < tx'.ts || Unseen(tx.phase)
    ensures OwnOk(h, tx', t)
  {
  }

  lemma QuietPrivate(h: seq<Version>, tx: Executor, tx': Executor, t: nat)
    requires PrivateOk(h, tx, t) && tx.wset == [] && tx'.wset == [] && tx'.pool == tx.pool
    ensures PrivateOk(h, tx', t)
  {
  }

  lemma QuietGc(h: seq<Version>, recs: seq<Record>, tx: Executor, tx': Executor, t: nat, minRts: nat, minRts': nat)
    requires GcOk(h, recs, tx, t, minRts) && tx'.gcq == tx.gcq && !Collecting(tx.phase) && !Collecting(tx'.phase)
    ensures GcOk(h, recs, tx', t, minRts')
  {
  }

  lemma QuietSets(h: seq<Version>, tx': Executor, t: nat, nrecs: nat)
    requires Quiet(tx'.phase) && tx'.rset == [] && tx'.wset == []
    ensures WriteSetOk(h, tx', t, nrecs) && ReadSetOk(h, tx', nrecs) && WalkOk(h, tx', nrecs) && CertOk(h, tx')
  {
  }

  lemma QuietKeeps(h: seq<Version>, recs: seq<Record>, tx: Executor, tx': Executor, t: nat, minRts: nat, minRts': nat)
    requires ThreadInv(h, recs, tx, t, minRts) && minRts <= minRts'
    requires Quiet(tx.phase) && Quiet(tx'.phase) && tx.ts <= tx'.ts
    requires tx'.rset == [] && tx'.wset == [] && tx'.gcq == tx.gcq && tx'.pool == tx.pool
    requires Unseen(tx'.phase) ==> tx.ts < tx'.ts || Unseen(tx.phase)
    ensures ThreadInv(h, recs, tx', t, minRts')
  {
    QuietOwn(h, tx, tx', t);
    QuietPrivate(h, tx, tx', t);
    QuietGc(h, recs, tx, tx', t, minRts, minRts');
    QuietSets(h, tx', t, |recs|);
  }

  lemma GenerateKeeps(s: State, s': State, t: nat, ts: nat, ronly: bool)
    requires BaseInv(s) && t < |s.thr| && Generate(s, s', t, ts, ronly)
    ensures BaseInv(s')
  {
    ThreadOf(s, t);
    SameTimes(s, t);
    QuietKeeps(s.heap, s.recs, s.thr[t], s'.thr[t], t, s.minRts, s.minRts);
    LocalKeeps(s, s', t);
  }

  lemma StoreWtsTimes(s: State, s': State, t: nat)
    requires TimesInv(s) && t < |s.thr| && StoreWts(s, s', t)
    ensures TimesInv(s')
  {
    assert TimeOk(s.thr[t], t, s.threadWts, s.threadRts, s.minWts, s.minRts, s.initTs);
    assert forall j | 0 <= j < |s.thr| :: s.threadWts[j] <= s'.threadWts[j];
  }

  lemma StoreWtsKeeps(s: State, s': State, t: nat)
    requires BaseInv(s) && t < |s.thr| && StoreWts(s, s', t)
    ensures BaseInv(s')
  {
    ThreadOf(s, t);
    StoreWtsTimes(s, s', t);
    QuietKeeps(s.heap, s.recs, s.thr[t], s'.thr[t], t, s.minRts, s.minRts);
    TimesOnlyKeeps(s, s', t);
  }

  lemma LoadMinWtsKeeps(s: State, s': State, t: nat)
    requires BaseInv(s) && t < |s.thr| && LoadMinWts(s, s', t)
    ensures BaseInv(s')
  {
    ThreadOf(s, t);
    SameTimes(s, t);
    QuietKeeps(s.heap, s.recs, s.thr[t], s'.thr[t], t, s.minRts, s.minRts);
    LocalKeeps(s, s', t);
  }

  lemma StoreRtsTimes(s: State, s': State, t: nat)
    requires TimesInv(s) && t < |s.thr| && StoreRts(s, s', t)
    ensures TimesInv(s')
  {
    assert TimeOk(s.thr[t], t, s.threadWts, s.threadRts, s.minWts, s.minRts, s.initTs);
    assert forall j | 0 <= j < |s.thr| :: s.threadRts[j] <= s'.threadRts[j];
  }

  lemma StoreRtsKeeps(s: State, s': State, t: nat)
    requires BaseInv(s) && t < |s.thr| && StoreRts(s, s', t)
    ensures BaseInv(s')
  {
    ThreadOf(s, t);
    StoreRtsTimes(s, s', t);
    StartWorking(s.heap, s.recs, s.thr[t], s'.thr[t], t, s.minRts);
    TimesOnlyKeeps(s, s', t);
  }

  lemma StartWorking(h: seq<Version>, recs: seq<Record>, tx: Executor, tx': Executor, t: nat, minRts: nat)
    requires ThreadInv(h, recs, tx, t, minRts) && tx.phase.MinLoaded? && tx' == tx.(phase := Executing)
    ensures ThreadInv(h, recs, tx', t, minRts)
  {
    QuietOwn(h, tx, tx', t);
    QuietPrivate(h, tx, tx', t);
    QuietGc(h, recs, tx, tx', t, minRts, minRts);
  }

  // ------------------------------------------------------ thread 0's scan

  lemma LeadLocalKeeps(s: State, s': State, t: nat)
    requires BaseInv(s) && t < |s.thr|
    requires LeadStart(s, s', t) || LeadFirstRts(s, s', t) || LeadWts(s, s', t) || LeadNextRts(s, s', t)
    ensures BaseInv(s')
  {
    ThreadOf(s, t);
    SameTimes(s, t);
    LeadShape(s, s', t);
    QuietKeeps(s.heap, s.recs, s.thr[t], s'.thr[t], t, s.minRts, s.minRts);
    LocalKeeps(s, s', t);
  }

  lemma LeadShape(s: State, s': State, t: nat)
    requires TimesInv(s) && t < |s.thr|
    requires LeadStart(s, s', t) || LeadFirstRts(s, s', t) || LeadWts(s, s', t) || LeadNextRts(s, s', t)
    ensures LocalTo(s, s', t) && s'.thr[t] == s.thr[t].(phase := s'.thr[t].phase)
    ensures Quiet(s.thr[t].phase) && Quiet(s'.thr[t].phase) && !Unseen(s'.thr[t].phase)
    ensures TimeOk(s'.thr[t], t, s.threadWts, s.threadRts, s.minWts, s.minRts, s.initTs)
    ensures LeaderOk(s'.thr[t].phase, t, s.threadWts, s.threadRts, s.minWts, s.minRts)
  {
    assert TimeOk(s.thr[t], t, s.threadWts, s.threadRts, s.minWts, s.minRts, s.initTs);
    forall u | 0 <= u < |s.threadWts| ensures s.minWts <= s.threadWts[u] && s.minRts <= s.threadRts[u] {
      assert TimeOk(s.thr[u], u, s.threadWts, s.threadRts, s.minWts, s.minRts, s.initTs);
    }
    LeaderAdvances(s.thr[t], s'.thr[t].phase, t, s.threadWts, s.threadRts, s.minWts, s.minRts, s.initTs);
  }

  /** The running minima bound every entry scanned, although entries move meanwhile. */
  lemma LeaderAdvances(tx: Executor, p': Phase, t: nat, threadWts: seq<nat>, threadRts: seq<nat>,
                       minWts: nat, minRts: nat, initTs: nat)
    requires |threadWts| == |threadRts| && t < |threadWts|
    requires TimeOk(tx, t, threadWts, threadRts, minWts, minRts, initTs)
    requires LeaderOk(tx.phase, t, threadWts, threadRts, minWts, minRts)
    requires forall u | 0 <= u < |threadWts| :: minWts <= threadWts[u] && minRts <= threadRts[u]
    requires
      || (t == 0 && tx.phase.Idle? && p' == LeadRts(threadWts[0]))
      || (tx.phase.LeadRts? && p' == LeadScan(1, tx.phase.minw, threadRts[0]))
      || (tx.phase.LeadScan? && tx.phase.i < |threadWts|
          && p' == LeadScanRts(tx.phase.i, Min(tx.phase.minw, threadWts[tx.phase.i]), tx.phase.minr))
      || (tx.phase.LeadScanRts? && tx.phase.i < |threadRts|
          && p' == LeadScan(tx.phase.i + 1, tx.phase.minw, Min(tx.phase.minr, threadRts[tx.phase.i])))
    ensures LeaderOk(p', t, threadWts, threadRts, minWts, minRts)
  {
  }

  lemma PublishWtsKeeps(s: State, s': State, t: nat)
    requires BaseInv(s) && t < |s.thr| && PublishWts(s, s', t)
    ensures BaseInv(s')
  {
    ThreadOf(s, t);
    SameTimes(s, t);
    forall u: nat | u < |s.thr|
      ensures TimeOk(s'.thr[u], u, s'.threadWts, s'.threadRts, s'.minWts, s'.minRts, s'.initTs)
      ensures LeaderOk(s'.thr[u].phase, u, s'.threadWts, s'.threadRts, s'.minWts, s'.minRts)
    {
      SameTimes(s, u);
    }
    QuietKeeps(s.heap, s.recs, s.thr[t], s'.thr[t], t, s.minRts, s.minRts);
    TimesOnlyKeeps(s, s', t);
  }

  lemma PublishRtsKeeps(s: State, s': State, t: nat)
    requires BaseInv(s) && t < |s.thr| && PublishRts(s, s', t)
    ensures BaseInv(s')
  {
    ThreadOf(s, t);
    SameTimes(s, t);
    forall u: nat | u < |s.thr|
      ensures TimeOk(s'.thr[u], u, s'.threadWts, s'.threadRts, s'.minWts, s'.minRts, s'.initTs)
      ensures LeaderOk(s'.thr[u].phase, u, s'.threadWts, s'.threadRts, s'.minWts, s'.minRts)
    {
      SameTimes(s, u);
    }
    QuietKeeps(s.heap, s.recs, s.thr[t], s'.thr[t], t, s.minRts, s'.minRts);
    TimesOnlyKeeps(s, s', t);
  }
}
