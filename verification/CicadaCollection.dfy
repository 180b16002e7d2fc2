/** The invariant is kept by garbage collection. */
module CicadaCollection {
  import opened SerialExecution
  import opened Cicada
  import opened CicadaInvariant
  import opened CicadaInterference
  import opened CicadaThreads
  import opened CicadaLists
  import opened CicadaBeginning
  import opened CicadaVersions

  lemma MaintEndKeeps(s: State, s': State, t: nat)
    requires BaseInv(s) && t < |s.thr| && MaintEnd(s, s', t)
    ensures BaseInv(s')
  {
    ThreadOf(s, t);
    SameTimes(s, t);
    QuietKeeps(s.heap, s.recs, s.thr[t], s'.thr[t], t, s.minRts, s.minRts);
    LocalKeeps(s, s', t);
  }

  /** Outside transactions all that matters of a thread is its pool, its garbage queue and
      what it is cutting off. */
  lemma IdleTx(h: seq<Version>, h': seq<Version>, tx: Executor, tx': Executor, t: nat, nrecs: nat)
    requires TxOk(h, tx, t, nrecs) && !Active(tx.phase) && !Active(tx'.phase) && tx'.rset == [] && tx'.wset == []
    requires tx'.ts == tx.ts && !Unseen(tx'.phase)
    requires forall v: int | OnList(h', v) :: OnList(h, v) && h'[v].wts == h[v].wts && h'[v].status == h[v].status
    requires PrivateOk(h', tx', t) && DetachedOk(h', tx', t)
    ensures TxOk(h', tx', t, nrecs) && CertOk(h', tx')
  {
  }

  lemma DropEntry(h: seq<Version>, recs: seq<Record>, tx: Executor, tx': Executor, t: nat, minRts: nat)
    requires GcOk(h, recs, tx, t, minRts) && tx.gcq != [] && tx'.gcq == tx.gcq[1..]
    requires !Collecting(tx.phase) && !Collecting(tx'.phase)
    ensures GcOk(h, recs, tx', t, minRts)
  {
  }

  lemma GcBusyKeeps(s: State, s': State, t: nat)
    requires BaseInv(s) && t < |s.thr| && GcBusy(s, s', t)
    ensures BaseInv(s')
  {
    ThreadOf(s, t);
    SameTimes(s, t);
    DropEntry(s.heap, s.recs, s.thr[t], s'.thr[t], t, s.minRts);
    IdleTx(s.heap, s.heap, s.thr[t], s'.thr[t], t, |s.recs|);
    LocalKeeps(s, s', t);
  }

  // ------------------------------------------------- locking and unlocking

  /** The garbage collection lock or `minWts` of record `k` changes in the hands of `t`. */
  ghost predicate RecordOnly(s: State, s': State, t: nat, k: Key) {
    && OnlyThread(s, s', t) && s'.heap == s.heap && k < |s.recs| && |s'.recs| == |s.recs|
    && s'.recs == s.recs[k := s.recs[k].(gcLock := s'.recs[k].gcLock, minWts := s'.recs[k].minWts)]
    && (s.recs[k].gcLock == 0 || s.recs[k].gcLock == t + 1) && (s'.recs[k].gcLock == 0 || s'.recs[k].gcLock == t + 1)
    && s'.threadWts == s.threadWts && s'.threadRts == s.threadRts && s'.minWts == s.minWts && s'.minRts == s.minRts
    && s'.initTs == s.initTs && s'.clock == s.clock
  }

  lemma RecordKeepsLists(s: State, s': State, t: nat, k: Key)
    requires ListsInv(s) && RecordOnly(s, s', t, k)
    requires s'.recs[k].gcLock == 0 ==> Valid(s.heap, s.recs[k].bottom) && s'.recs[k].minWts == s.heap[s.recs[k].bottom].wts
    ensures ListsInv(s')
  {
    forall x | 0 <= x < |s'.recs|
      ensures ListInv(s'.heap, s'.recs[x], x) && RecordOk(s'.heap, s'.recs[x], s'.initTs, s'.minRts, |s'.thr|)
    {
      assert ListInv(s.heap, s.recs[x], x) && RecordOk(s.heap, s.recs[x], s.initTs, s.minRts, |s.thr|);
    }
  }

  lemma RecordEvolves(s: State, s': State, t: nat, k: Key, u: nat)
    requires RecordOnly(s, s', t, k) && BottomsOn(s.heap, s.recs) && u != t
    ensures RecordsEvolve(s.heap, s'.heap, s.recs, s'.recs, t, u, s.minRts)
  {
  }

  lemma RecordKeeps(s: State, s': State, t: nat, k: Key)
    requires BaseInv(s) && RecordOnly(s, s', t, k)
    requires s'.recs[k].gcLock == 0 ==> Valid(s.heap, s.recs[k].bottom) && s'.recs[k].minWts == s.heap[s.recs[k].bottom].wts
    requires ThreadInv(s.heap, s'.recs, s'.thr[t], t, s.minRts)
    requires TimeOk(s'.thr[t], t, s.threadWts, s.threadRts, s.minWts, s.minRts, s.initTs)
    requires LeaderOk(s'.thr[t].phase, t, s.threadWts, s.threadRts, s.minWts, s.minRts)
    ensures BaseInv(s')
  {
    RecordKeepsLists(s, s', t, k);
    HeapUnchanged(s.heap, s'.recs, t, s.minWts, s.minRts, s.clock);
    BottomsOf(s);
    forall u: nat | u != t && u < |s.thr| ensures RecordsEvolve(s.heap, s'.heap, s.recs, s'.recs, t, u, s.minRts) {
      RecordEvolves(s, s', t, k, u);
    }
    ThreadsKept(s, s', t);
  }

  ghost predicate BottomsOn(h: seq<Version>, recs: seq<Record>) {
    forall k: Key | k < |recs| :: On(h, recs[k].bottom, k)
  }

  lemma BottomsOf(s: State)
    requires ListsInv(s)
    ensures BottomsOn(s.heap, s.recs)
  {
    forall k: Key | k < |s.recs| ensures On(s.heap, s.recs[k].bottom, k) {
      assert ListInv(s.heap, s.recs[k], k);
    }
  }

  lemma LockQueue(h: seq<Version>, recs: seq<Record>, recs': seq<Record>, tx: Executor, tx': Executor, t: nat, minRts: nat)
    requires GcOk(h, recs, tx, t, minRts) && !Collecting(tx.phase) && tx'.phase.GcLocked? && BottomsOn(h, recs)
    requires tx.gcq != [] && tx'.gcq == tx.gcq && tx.gcq[0].wts < minRts
    requires var k := tx.gcq[0].key;
             k < |recs| && recs' == recs[k := recs[k].(gcLock := t + 1)] && recs[k].minWts == h[recs[k].bottom].wts
    ensures GcOk(h, recs', tx', t, minRts)
  {
    forall j | 0 <= j < |tx'.gcq| ensures EntryOk(h, recs', tx'.gcq[j]) {
      assert EntryOk(h, recs, tx.gcq[j]);
    }
  }

  lemma GcLockKeeps(s: State, s': State, t: nat)
    requires BaseInv(s) && t < |s.thr| && GcLock(s, s', t)
    ensures BaseInv(s')
  {
    ThreadOf(s, t);
    SameTimes(s, t);
    var k := s.thr[t].gcq[0].key;
    assert RecordOk(s.heap, s.recs[k], s.initTs, s.minRts, |s.thr|);
    BottomsOf(s);
    LockQueue(s.heap, s.recs, s'.recs, s.thr[t], s'.thr[t], t, s.minRts);
    IdleTx(s.heap, s.heap, s.thr[t], s'.thr[t], t, |s.recs|);
    RecordKeeps(s, s', t, k);
  }

  lemma UnlockQueue(h: seq<Version>, recs: seq<Record>, recs': seq<Record>, tx: Executor, tx': Executor, t: nat, minRts: nat)
    requires GcOk(h, recs, tx, t, minRts) && Collecting(tx.phase) && !tx.phase.GcCut? && tx'.phase.Maint?
    requires tx'.gcq == tx.gcq[1..]
    requires var k := tx.gcq[0].key; recs' == recs[k := recs[k].(gcLock := 0)]
    ensures GcOk(h, recs', tx', t, minRts)
  {
    forall j | 0 <= j < |tx'.gcq| ensures EntryOk(h, recs', tx'.gcq[j]) {
      assert EntryOk(h, recs, tx.gcq[j + 1]);
    }
  }

  lemma GcReleaseKeeps(s: State, s': State, t: nat)
    requires BaseInv(s) && t < |s.thr| && (GcSkip(s, s', t) || GcUnlock(s, s', t))
    ensures BaseInv(s')
  {
    ThreadOf(s, t);
    SameTimes(s, t);
    UnlockQueue(s.heap, s.recs, s'.recs, s.thr[t], s'.thr[t], t, s.minRts);
    IdleTx(s.heap, s.heap, s.thr[t], s'.thr[t], t, |s.recs|);
    BottomsOf(s);
    RecordKeeps(s, s', t, s.thr[t].gcq[0].key);
  }

  lemma GcLoadKeeps(s: State, s': State, t: nat)
    requires BaseInv(s) && t < |s.thr| && GcLoad(s, s', t)
    ensures BaseInv(s')
  {
    ThreadOf(s, t);
    SameTimes(s, t);
    IdleTx(s.heap, s.heap, s.thr[t], s'.thr[t], t, |s.recs|);
    LocalKeeps(s, s', t);
  }

  lemma TagQueue(h: seq<Version>, recs: seq<Record>, recs': seq<Record>, tx: Executor, tx': Executor, t: nat, minRts: nat)
    requires GcOk(h, recs, tx, t, minRts) && tx.phase.GcCut? && tx'.phase.GcPush? && tx'.gcq == tx.gcq && BottomsOn(h, recs)
    requires var g := tx.gcq[0];
             recs' == recs[g.key := recs[g.key].(minWts := h[g.ver].wts)]
    ensures GcOk(h, recs', tx', t, minRts)
  {
    forall j | 0 <= j < |tx'.gcq| ensures EntryOk(h, recs', tx'.gcq[j]) {
      assert EntryOk(h, recs, tx.gcq[j]);
    }
  }

  lemma GcTagKeeps(s: State, s': State, t: nat)
    requires BaseInv(s) && t < |s.thr| && GcTag(s, s', t)
    ensures BaseInv(s')
  {
    ThreadOf(s, t);
    SameTimes(s, t);
    BottomsOf(s);
    TagQueue(s.heap, s.recs, s'.recs, s.thr[t], s'.thr[t], t, s.minRts);
    IdleTx(s.heap, s.heap, s.thr[t], s'.thr[t], t, |s.recs|);
    RecordKeeps(s, s', t, s.thr[t].gcq[0].key);
  }

  // --------------------------------------------------------------- cutting off

  /** An entry that passed the `minWts` test names a committed version of its list, newer
      than the last one and older than every snapshot. */
  lemma GcEntryListed(s: State, t: nat)
    requires BaseInv(s) && t < |s.thr| && s.thr[t].phase.GcLoaded?
    ensures var g := s.thr[t].gcq[0];
            && s.thr[t].gcq != [] && g.key < |s.recs| && On(s.heap, g.ver, g.key) && s.heap[g.ver].status.Committed?
            && s.heap[s.recs[g.key].bottom].wts < s.heap[g.ver].wts == g.wts < s.minRts
            && s.heap[g.ver].next == s.thr[t].phase.del && s.recs[g.key].gcLock == t + 1
            && BottomsOn(s.heap, s.recs)
  {
    ThreadOf(s, t);
    assert EntryOk(s.heap, s.recs, s.thr[t].gcq[0]);
    BottomsOf(s);
  }

  ghost predicate Detaches(s: State, s': State, t: nat, k: Key, b: int) {
    && OnlyThread(s, s', t) && k < |s.recs| && On(s.heap, b, k) && Truncates(s.heap, s'.heap, k, b, t)
    && s'.recs == s.recs[k := s.recs[k].(bottom := b)]
    && s.heap[b].status.Committed? && s.heap[b].wts < s.minRts && s.recs[k].gcLock == t + 1
    && s.thr[t].phase.GcLoaded? && s'.thr[t].phase.GcCut? && s'.thr[t].ts == s.thr[t].ts
    && s'.commits == s.commits && s'.sources == s.sources && s'.snaps == s.snaps
    && s'.threadWts == s.threadWts && s'.threadRts == s.threadRts && s'.minWts == s.minWts && s'.minRts == s.minRts
    && s'.initTs == s.initTs && s'.clock == s.clock
  }

  lemma GcDetaches(s: State, s': State, t: nat)
    requires BaseInv(s) && t < |s.thr| && GcDetach(s, s', t)
    ensures Detaches(s, s', t, s.thr[t].gcq[0].key, s.thr[t].gcq[0].ver)
  {
    GcEntryListed(s, t);
  }

  lemma DetachEvolves(s: State, s': State, t: nat, k: Key, b: int)
    requires BaseInv(s) && Detaches(s, s', t, k, b)
    ensures HeapEvolves(s.heap, s'.heap, s'.recs, t, s.minWts, s.minRts, s.clock) && NonePass(s.heap, s'.heap)
  {
    forall v | 0 <= v < |s.heap| ensures SlotEvolves(s.heap[v], s'.heap[v], t, s.minWts, s.clock) {
      assert VersionOk(s.heap[v], s.clock, |s.recs|, |s.thr|);
    }
  }

  lemma DetachKeepsLists(s: State, s': State, t: nat, k: Key, b: int)
    requires ListsInv(s) && Detaches(s, s', t, k, b)
    ensures ListsInv(s')
  {
    forall x | 0 <= x < |s'.recs|
      ensures ListInv(s'.heap, s'.recs[x], x) && RecordOk(s'.heap, s'.recs[x], s'.initTs, s'.minRts, |s'.thr|)
    {
      assert ListInv(s.heap, s.recs[x], x) && RecordOk(s.heap, s.recs[x], s.initTs, s.minRts, |s.thr|);
      if x == k {
        CutKeepsList(s.heap, s'.heap, k, b, t, s.recs[k]);
      } else {
        CutElsewhere(s.heap, s'.heap, k, b, t, s.recs[x], x);
      }
    }
    forall v | 0 <= v < |s'.heap| ensures VersionOk(s'.heap[v], s'.clock, |s.recs|, |s.thr|) {
      assert VersionOk(s.heap[v], s.clock, |s.recs|, |s.thr|);
    }
  }

  lemma DetachRaises(s: State, s': State, t: nat, k: Key, b: int)
    requires ListsInv(s) && Detaches(s, s', t, k, b)
    ensures BottomsRise(s.heap, s'.heap, s.recs, s'.recs)
  {
    BottomsOf(s);
    assert ListInv(s.heap, s.recs[k], k);
  }

  lemma DetachKeepsRecords(s: State, s': State, t: nat, u: nat, k: Key, b: int)
    requires ListsInv(s) && Detaches(s, s', t, k, b) && u != t
    ensures RecordsEvolve(s.heap, s'.heap, s.recs, s'.recs, t, u, s.minRts)
  {
    DetachRaises(s, s', t, k, b);
  }

  lemma DetachQueue(s: State, s': State, t: nat)
    requires BaseInv(s) && t < |s.thr| && GcDetach(s, s', t)
    ensures GcOk(s'.heap, s'.recs, s'.thr[t], t, s.minRts)
  {
    ThreadOf(s, t);
    GcEntryListed(s, t);
    GcDetaches(s, s', t);
    var g := s.thr[t].gcq[0];
    DetachEvolves(s, s', t, g.key, g.ver);
    DetachRaises(s, s', t, g.key, g.ver);
    forall j | 0 <= j < |s'.thr[t].gcq| ensures EntryOk(s'.heap, s'.recs, s'.thr[t].gcq[j]) {
      EntryStable(s.heap, s'.heap, s.recs, s'.recs, t, s.minWts, s.minRts, s.clock, s.thr[t].gcq[j]);
    }
  }

  lemma DetachPrivate(h: seq<Version>, h': seq<Version>, k: Key, b: int, tx: Executor, tx': Executor, t: nat)
    requires Truncates(h, h', k, b, t) && On(h, b, k) && PrivateOk(h, tx, t)
    requires tx.wset == [] && tx'.wset == [] && tx'.pool == tx.pool
    ensures PrivateOk(h', tx', t)
  {
  }

  lemma DetachOwn(h: seq<Version>, h': seq<Version>, r: Record, g: GcElement, tx: Executor, tx': Executor, t: nat, nrecs: nat)
    requires TxOk(h, tx, t, nrecs) && ListInv(h, r, g.key) && On(h, g.ver, g.key) && h[g.ver].status.Committed?
    requires Truncates(h, h', g.key, g.ver, t) && tx.phase == GcLoaded(h[g.ver].next)
    requires tx' == tx.(phase := GcCut(tx.phase.del))
    ensures TxOk(h', tx', t, nrecs) && CertOk(h', tx')
  {
    CutLeavesChain(h, h', g.key, g.ver, t, r);
    DetachPrivate(h, h', g.key, g.ver, tx, tx', t);
    IdleTx(h, h', tx, tx', t, nrecs);
  }

  lemma DetachTx(s: State, s': State, t: nat)
    requires BaseInv(s) && t < |s.thr| && GcDetach(s, s', t)
    ensures TxOk(s'.heap, s'.thr[t], t, |s.recs|) && CertOk(s'.heap, s'.thr[t])
  {
    ThreadOf(s, t);
    GcEntryListed(s, t);
    var g := s.thr[t].gcq[0];
    assert ListInv(s.heap, s.recs[g.key], g.key);
    DetachOwn(s.heap, s'.heap, s.recs[g.key], g, s.thr[t], s'.thr[t], t, |s.recs|);
  }

  lemma DetachKeepsThreads(s: State, s': State, t: nat, k: Key, b: int)
    requires BaseInv(s) && Detaches(s, s', t, k, b)
    requires ThreadInv(s'.heap, s'.recs, s'.thr[t], t, s.minRts)
    ensures ThreadsInv(s')
  {
    DetachEvolves(s, s', t, k, b);
    forall u: nat | u != t && u < |s.thr| ensures RecordsEvolve(s.heap, s'.heap, s.recs, s'.recs, t, u, s.minRts) {
      DetachKeepsRecords(s, s', t, u, k, b);
    }
    ThreadsKept(s, s', t);
  }

  lemma DetachTimes(s: State, s': State, t: nat)
    requires TimesInv(s) && t < |s.thr| && GcDetach(s, s', t)
    ensures TimesInv(s')
  {
    assert TimeOk(s.thr[t], t, s.threadWts, s.threadRts, s.minWts, s.minRts, s.initTs);
  }

  lemma GcDetachKeeps(s: State, s': State, t: nat)
    requires BaseInv(s) && t < |s.thr| && GcDetach(s, s', t)
    ensures BaseInv(s')
  {
    GcDetaches(s, s', t);
    DetachKeepsLists(s, s', t, s.thr[t].gcq[0].key, s.thr[t].gcq[0].ver);
    DetachQueue(s, s', t);
    DetachTx(s, s', t);
    DetachKeepsThreads(s, s', t, s.thr[t].gcq[0].key, s.thr[t].gcq[0].ver);
    DetachTimes(s, s', t);
  }

  // ------------------------------------------------------------- recycling

  /** The newest of the cut-off versions goes to the pool; the rest is still a chain. */
  lemma PushKeepsChain(h: seq<Version>, h': seq<Version>, d: int, t: nat)
    requires ChainOk(h, d, t) && Det(h, d, t) && h' == h[d := h[d].(place := InPool(t))]
    ensures ChainOk(h', h[d].next, t)
  {
    assert ChainNode(h, d, t);
    assert forall v: int :: Det(h', v, t) <==> Det(h, v, t) && v != d;
    forall v: int | Det(h', v, t) ensures ChainNode(h', v, t) {
      assert ChainNode(h, v, t);
    }
  }

  lemma PushPrivate(h: seq<Version>, h': seq<Version>, d: int, tx: Executor, tx': Executor, t: nat)
    requires Det(h, d, t) && h' == h[d := h[d].(place := InPool(t))] && PrivateOk(h, tx, t)
    requires tx.wset == [] && tx'.wset == [] && tx'.pool == tx.pool + [d]
    ensures PrivateOk(h', tx', t)
  {
  }

  lemma PushQueue(h: seq<Version>, h': seq<Version>, recs: seq<Record>, d: int, tx: Executor, tx': Executor, t: nat, minRts: nat)
    requires GcOk(h, recs, tx, t, minRts) && Det(h, d, t) && h' == h[d := h[d].(place := InPool(t))]
    requires tx.phase.GcPush? && tx'.phase.GcPush? && tx'.gcq == tx.gcq && BottomsOn(h, recs)
    ensures GcOk(h', recs, tx', t, minRts)
  {
    forall j | 0 <= j < |tx'.gcq| ensures EntryOk(h', recs, tx'.gcq[j]) {
      assert EntryOk(h, recs, tx.gcq[j]);
    }
  }

  lemma PushTx(s: State, s': State, t: nat)
    requires BaseInv(s) && t < |s.thr| && GcPushOne(s, s', t)
    ensures ThreadInv(s'.heap, s.recs, s'.thr[t], t, s.minRts) && Det(s.heap, s.thr[t].phase.del, t)
  {
    ThreadOf(s, t);
    BottomsOf(s);
    var d := s.thr[t].phase.del;
    PushKeepsChain(s.heap, s'.heap, d, t);
    PushPrivate(s.heap, s'.heap, d, s.thr[t], s'.thr[t], t);
    PushQueue(s.heap, s'.heap, s.recs, d, s.thr[t], s'.thr[t], t, s.minRts);
    IdleTx(s.heap, s'.heap, s.thr[t], s'.thr[t], t, |s.recs|);
  }

  lemma GcPushKeeps(s: State, s': State, t: nat)
    requires BaseInv(s) && t < |s.thr| && GcPushOne(s, s', t)
    ensures BaseInv(s')
  {
    PushTx(s, s', t);
    SameTimes(s, t);
    TouchKeeps(s, s', s.thr[t].phase.del, t);
  }
}
