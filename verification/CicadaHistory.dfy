/** What the lists of versions say about the transactions that committed. */
module CicadaHistory {
  import opened SerialExecution
  import opened Cicada
  import opened CicadaInvariant
  import opened CicadaInterference
  import opened CicadaCertification
  import opened CicadaThreads

  /** Version `w` of `k` with payload `val` is the initial one or was committed. */
  ghost predicate Source(recs: seq<Record>, initTs: nat, commits: map<Stamp, Txn>, k: Key, w: nat, val: Val) {
    && k < |recs|
    && ((w == initTs && val == recs[k].init)
        || (Stamp(w, 0) in commits && k in commits[Stamp(w, 0)].writeSet && commits[Stamp(w, 0)].writeSet[k] == val))
  }

  /** Nobody who committed, before or since, wrote `k` with a timestamp strictly between. */
  ghost predicate NoWriterInside(commits: map<Stamp, Txn>, k: Key, w: nat, at: nat) {
    forall x | x in commits && k in commits[x].writeSet :: !(w < x.major < at)
  }

  ghost predicate WriteRecorded(h: seq<Version>, recs: seq<Record>, k: Key, w: nat) {
    && k < |recs| && Valid(h, recs[k].bottom)
    && ((exists v: int :: On(h, v, k) && h[v].wts == w && h[v].passed && !h[v].status.Aborted?)
        || h[recs[k].bottom].wts > w)
  }

  /** `v` has been read at timestamp `at`: what lies between is aborted, or came after and
      has not passed its write check. */
  ghost predicate SettledAt(h: seq<Version>, k: Key, v: int, at: nat) {
    && On(h, v, k) && h[v].status.Committed? && h[v].rts >= at
    && forall u: int | On(h, u, k) && h[v].wts < h[u].wts < at ::
         h[u].status.Aborted? || (!h[u].passed && h[u].seqno > h[v].seqno)
  }

  ghost predicate Settled(h: seq<Version>, recs: seq<Record>, k: Key, w: nat, at: nat) {
    && k < |recs| && Valid(h, recs[k].bottom)
    && ((exists v: int :: SettledAt(h, k, v, at) && h[v].wts == w) || h[recs[k].bottom].wts >= at)
  }

  ghost predicate ReadRecorded(s: State, st: Stamp, k: Key)
    requires st in s.commits && k in s.commits[st].readSet && st in s.sources && k in s.sources[st]
  {
    var w := s.sources[st][k];
    && w < st.major && Source(s.recs, s.initTs, s.commits, k, w, s.commits[st].readSet[k])
    && NoWriterInside(s.commits, k, w, st.major) && Settled(s.heap, s.recs, k, w, st.major)
  }

  /** A transaction that has a timestamp and has not committed. */
  predicate Undecided(p: Phase) { Unseen(p) || (InFlight(p) && !p.Committing?) }

  ghost predicate StampOk(st: Stamp, thr: seq<Executor>, initTs: nat) {
    && st.minor == 0 && initTs < st.major && st.major % TID_SPACE < |thr| && st.major <= thr[st.major % TID_SPACE].ts
  }

  ghost predicate StampsOk(s: State) {
    && (forall st | st in s.commits :: StampOk(st, s.thr, s.initTs))
    && (forall st | st in s.commits :: st in s.sources && s.sources[st].Keys == s.commits[st].readSet.Keys)
  }

  ghost predicate ExecutorRecorded(tx: Executor, commits: map<Stamp, Txn>) {
    && (Undecided(tx.phase) ==> Stamp(tx.ts, 0) !in commits)
    && (tx.phase.Committing? ==>
          && Stamp(tx.ts, 0) in commits && DistinctWrites(tx.wset)
          && commits[Stamp(tx.ts, 0)].writeSet == WriteMap(tx.wset))
  }

  ghost predicate VersionsRecorded(s: State) {
    forall v: int, k: Key | On(s.heap, v, k) && s.heap[v].status.Committed? ::
      Source(s.recs, s.initTs, s.commits, k, s.heap[v].wts, s.heap[v].val)
  }

  ghost predicate WritesRecorded(s: State) {
    forall st, k | st in s.commits && k in s.commits[st].writeSet :: WriteRecorded(s.heap, s.recs, k, st.major)
  }

  ghost predicate ReadsRecorded(s: State)
    requires StampsOk(s)
  {
    forall st, k | st in s.commits && k in s.commits[st].readSet :: ReadRecorded(s, st, k)
  }

  /** A snapshot read got the last version committed at or below its snapshot. */
  ghost predicate SnapRecorded(s: State, sn: Snap) {
    && sn.rts < s.minWts && sn.wts <= sn.rts && Source(s.recs, s.initTs, s.commits, sn.key, sn.wts, sn.val)
    && NoWriterInside(s.commits, sn.key, sn.wts, sn.rts + 1)
  }

  ghost predicate HistoryInv(s: State) {
    && StampsOk(s) && VersionsRecorded(s) && WritesRecorded(s) && ReadsRecorded(s)
    && (forall t | 0 <= t < |s.thr| :: ExecutorRecorded(s.thr[t], s.commits))
    && (forall sn | sn in s.snaps :: SnapRecorded(s, sn))
  }

  // ------------------------------------------------------- steps but commit

  /** How an executor moves when it does not commit. */
  ghost predicate Flows(tx: Executor, tx': Executor) {
    || (&& tx'.ts == tx.ts && (Undecided(tx'.phase) ==> Undecided(tx.phase))
        && (tx'.phase.Committing? ==> tx.phase.Committing? && tx'.wset == tx.wset))
    || (tx.ts < tx'.ts && tx'.ts % TID_SPACE == tx.ts % TID_SPACE && !tx'.phase.Committing?)
  }

  ghost predicate SameInits(recs: seq<Record>, recs': seq<Record>) {
    |recs'| == |recs| && forall k: Key | k < |recs| :: recs'[k].init == recs[k].init
  }

  /** Nothing recorded as committed is aborted; what commits had been recorded. */
  ghost predicate Decisions(s: State, h': seq<Version>) {
    && (forall v | 0 <= v < |s.heap| && v < |h'| && s.heap[v].place.Listed? && h'[v].status.Aborted? && !s.heap[v].status.Aborted? ::
          Stamp(s.heap[v].wts, 0) !in s.commits)
    && (forall v: int, k: Key | On(s.heap, v, k) && On(h', v, k) && h'[v].status.Committed? && !s.heap[v].status.Committed? ::
          Source(s.recs, s.initTs, s.commits, k, h'[v].wts, h'[v].val))
  }

  ghost predicate Quietly(s: State, s': State, t: nat) {
    && OnlyThread(s, s', t) && Flows(s.thr[t], s'.thr[t])
    && s'.commits == s.commits && s'.sources == s.sources && s'.snaps == s.snaps
    && s'.initTs == s.initTs && s.minWts <= s'.minWts && SameInits(s.recs, s'.recs)
    && HeapEvolves(s.heap, s'.heap, s'.recs, t, s.minWts, s.minRts, s.clock)
    && BottomsRise(s.heap, s'.heap, s.recs, s'.recs) && Decisions(s, s'.heap)
  }

  lemma FlowsRecorded(s: State, s': State, t: nat)
    requires HistoryInv(s) && Quietly(s, s', t) && s.thr[t].ts % TID_SPACE == t
    ensures StampsOk(s') && ExecutorRecorded(s'.thr[t], s'.commits)
  {
    assert ExecutorRecorded(s.thr[t], s.commits);
    forall st | st in s'.commits ensures StampOk(st, s'.thr, s'.initTs) {
      assert StampOk(st, s.thr, s.initTs);
    }
  }

  lemma VersionsKept(s: State, s': State, t: nat)
    requires HistoryInv(s) && Quietly(s, s', t)
    ensures VersionsRecorded(s')
  {
    forall v: int, k: Key | On(s'.heap, v, k) && s'.heap[v].status.Committed?
      ensures Source(s'.recs, s'.initTs, s'.commits, k, s'.heap[v].wts, s'.heap[v].val)
    {
      assert v < |s.heap|;
      assert SlotEvolves(s.heap[v], s'.heap[v], t, s.minWts, s.clock);
      assert On(s.heap, v, k);
    }
  }

  lemma WriteKept(s: State, s': State, t: nat, st: Stamp, k: Key)
    requires Quietly(s, s', t) && st in s.commits && st.minor == 0 && WriteRecorded(s.heap, s.recs, k, st.major)
    ensures WriteRecorded(s'.heap, s'.recs, k, st.major)
  {
    assert On(s'.heap, s'.recs[k].bottom, k) && s.heap[s.recs[k].bottom].wts <= s'.heap[s'.recs[k].bottom].wts;
    if s.heap[s.recs[k].bottom].wts <= st.major {
      var v: int :| On(s.heap, v, k) && s.heap[v].wts == st.major && s.heap[v].passed && !s.heap[v].status.Aborted?;
      assert SlotEvolves(s.heap[v], s'.heap[v], t, s.minWts, s.clock);
      if On(s'.heap, v, k) {
        assert Stamp(s.heap[v].wts, 0) == st;
        assert s'.heap[v].passed && !s'.heap[v].status.Aborted?;
      } else {
        var b := s'.recs[k].bottom;
        assert Outlived(s.heap, v, b, k, s.minRts);
        assert SlotEvolves(s.heap[b], s'.heap[b], t, s.minWts, s.clock);
      }
    }
  }

  lemma WriteRecordsKept(s: State, s': State, t: nat)
    requires HistoryInv(s) && Quietly(s, s', t)
    ensures WritesRecorded(s')
  {
    forall st, k | st in s'.commits && k in s'.commits[st].writeSet ensures WriteRecorded(s'.heap, s'.recs, k, st.major) {
      assert StampOk(st, s.thr, s.initTs);
      WriteKept(s, s', t, st, k);
    }
  }

  ghost predicate AllCommittedPassed(h: seq<Version>) {
    forall v | 0 <= v < |h| && h[v].place.Listed? && h[v].status.Committed? :: h[v].passed
  }

  lemma SettledKept(h: seq<Version>, h': seq<Version>, recs: seq<Record>, recs': seq<Record>, t: nat,
                    minWts: nat, minRts: nat, clock: nat, k: Key, w: nat, at: nat)
    requires HeapEvolves(h, h', recs', t, minWts, minRts, clock) && BottomsRise(h, h', recs, recs')
    requires NonePass(h, h') && SeqnosBelow(h, clock) && AllCommittedPassed(h)
    requires Settled(h, recs, k, w, at)
    ensures Settled(h', recs', k, w, at)
  {
    assert On(h', recs'[k].bottom, k) && h[recs[k].bottom].wts <= h'[recs'[k].bottom].wts;
    if h[recs[k].bottom].wts < at {
      var v: int :| SettledAt(h, k, v, at) && h[v].wts == w;
      assert SlotEvolves(h[v], h'[v], t, minWts, clock);
      if On(h', v, k) {
        SettledAtKept(h, h', recs', t, minWts, minRts, clock, k, v, at);
      } else {
        var b := recs'[k].bottom;
        assert Outlived(h, v, b, k, minRts);
        assert SlotEvolves(h[b], h'[b], t, minWts, clock);
        assert h[b].passed;
      }
    }
  }

  lemma SettledAtKept(h: seq<Version>, h': seq<Version>, recs': seq<Record>, t: nat,
                      minWts: nat, minRts: nat, clock: nat, k: Key, v: int, at: nat)
    requires HeapEvolves(h, h', recs', t, minWts, minRts, clock) && NonePass(h, h') && SeqnosBelow(h, clock)
    requires SettledAt(h, k, v, at) && On(h', v, k)
    ensures SettledAt(h', k, v, at)
  {
    assert SlotEvolves(h[v], h'[v], t, minWts, clock);
    forall u: int | On(h', u, k) && h'[v].wts < h'[u].wts < at
      ensures h'[u].status.Aborted? || (!h'[u].passed && h'[u].seqno > h'[v].seqno)
    {
      if u < |h| {
        assert SlotEvolves(h[u], h'[u], t, minWts, clock);
      }
    }
  }

  lemma ReadsKept(s: State, s': State, t: nat)
    requires HistoryInv(s) && Quietly(s, s', t) && StampsOk(s')
    requires NonePass(s.heap, s'.heap) && SeqnosBelow(s.heap, s.clock) && AllCommittedPassed(s.heap)
    ensures ReadsRecorded(s')
  {
    forall st, k | st in s'.commits && k in s'.commits[st].readSet ensures ReadRecorded(s', st, k) {
      assert ReadRecorded(s, st, k);
      SettledKept(s.heap, s'.heap, s.recs, s'.recs, t, s.minWts, s.minRts, s.clock, k, s.sources[st][k], st.major);
    }
  }

  lemma SnapsKept(s: State, s': State, t: nat)
    requires HistoryInv(s) && Quietly(s, s', t)
    ensures forall sn | sn in s'.snaps :: SnapRecorded(s', sn)
  {
    forall sn | sn in s'.snaps ensures SnapRecorded(s', sn) {
      assert SnapRecorded(s, sn);
    }
  }

  lemma CommittedOf(s: State)
    requires BaseInv(s)
    ensures AllCommittedPassed(s.heap) && SeqnosBelow(s.heap, s.clock)
  {
    SeqnosOf(s);
    forall v | 0 <= v < |s.heap| && s.heap[v].place.Listed? && s.heap[v].status.Committed? ensures s.heap[v].passed {
      assert VersionOk(s.heap[v], s.clock, |s.recs|, |s.thr|);
    }
  }

  /** Steps that neither commit a transaction nor pass a write check. */
  lemma QuietlyKeeps(s: State, s': State, t: nat)
    requires HistoryInv(s) && Quietly(s, s', t) && s.thr[t].ts % TID_SPACE == t
    requires NonePass(s.heap, s'.heap) && SeqnosBelow(s.heap, s.clock) && AllCommittedPassed(s.heap)
    ensures HistoryInv(s')
  {
    FlowsRecorded(s, s', t);
    VersionsKept(s, s', t);
    WriteRecordsKept(s, s', t);
    ReadsKept(s, s', t);
    SnapsKept(s, s', t);
    forall u | 0 <= u < |s'.thr| ensures ExecutorRecorded(s'.thr[u], s'.commits) {
      assert u != t ==> s'.thr[u] == s.thr[u];
    }
  }

  // ------------------------------------------------------ passing the check

  /** A write check that succeeds does not disturb any committed read: the version it
      overtakes would have been that read's version, whose read timestamp is too high. */
  lemma PassKeepsSettled(h: seq<Version>, recs: seq<Record>, x: Key, n: int, c: int, k: Key, w: nat, at: nat)
    requires WriteCleared(h, x, n, c) && CommittedPassed(h, x) && !h[n].status.Aborted?
    requires Settled(h, recs, k, w, at)
    ensures Settled(Passed(h, n), recs, k, w, at)
  {
    var h' := Passed(h, n);
    if h[recs[k].bottom].wts < at {
      var v: int :| SettledAt(h, k, v, at) && h[v].wts == w;
      if k == x && h[v].wts < h[n].wts < at {
        PassRefused(h, k, n, c, v, at);
      } else {
        forall u: int | On(h', u, k) && h'[v].wts < h'[u].wts < at
          ensures h'[u].status.Aborted? || (!h'[u].passed && h'[u].seqno > h'[v].seqno)
        {
          assert On(h, u, k);
        }
        assert SettledAt(h', k, v, at);
      }
    }
  }

  lemma PassRefused(h: seq<Version>, k: Key, n: int, c: int, v: int, at: nat)
    requires WriteCleared(h, k, n, c) && CommittedPassed(h, k) && !h[n].status.Aborted?
    requires SettledAt(h, k, v, at)
    ensures !(h[v].wts < h[n].wts < at)
  {
    assert On(h, n, k) && On(h, v, k);
    assert h[c].passed;
  }
}
