/** Cicada is serializable in timestamp order, and read-only snapshots are stable. */
module CicadaSerializability {
  import opened SerialExecution
  import opened Runs
  import opened Cicada
  import opened CicadaInvariant
  import opened CicadaInterference
  import opened CicadaThreads
  import opened CicadaBeginning
  import opened CicadaValidation
  import opened CicadaVersions
  import opened CicadaOutcome
  import opened CicadaAllocation
  import opened CicadaInsertion
  import opened CicadaCollection
  import opened CicadaHistory
  import opened CicadaReachable

  // ------------------------------------- steps that touch no version list

  ghost predicate ListsUntouched(s: State, s': State, t: nat) {
    && OnlyThread(s, s', t) && s'.heap == s.heap && Flows(s.thr[t], s'.thr[t])
    && s'.commits == s.commits && s'.sources == s.sources && s'.snaps == s.snaps
    && s'.initTs == s.initTs && s.minWts <= s'.minWts && |s'.recs| == |s.recs|
    && forall k: Key | k < |s.recs| :: s'.recs[k].init == s.recs[k].init && s'.recs[k].bottom == s.recs[k].bottom
  }

  lemma UntouchedKeepsHistory(s: State, s': State, t: nat)
    requires BaseInv(s) && HistoryInv(s) && ListsUntouched(s, s', t)
    ensures HistoryInv(s')
  {
    BottomsOf(s);
    HeapUnchanged(s.heap, s'.recs, t, s.minWts, s.minRts, s.clock);
    CommittedOf(s);
    SameTimes(s, t);
    QuietlyKeeps(s, s', t);
  }

  lemma BeginUntouched(s: State, s': State, t: nat)
    requires TimesInv(s) && t < |s.thr| && BeginStep(s, s', t)
    ensures ListsUntouched(s, s', t)
  {
    assert TimeOk(s.thr[t], t, s.threadWts, s.threadRts, s.minWts, s.minRts, s.initTs);
  }

  lemma ReadUntouched(s: State, s': State, t: nat)
    requires t < |s.thr| && ReadStep(s, s', t) && !(ReadTake(s, s', t) && s.thr[t].ronly)
    ensures ListsUntouched(s, s', t)
  {
  }

  lemma WriteStartUntouched(s: State, s': State, t: nat, k: Key, new_: Val)
    requires t < |s.thr| && (WriteStart(s, s', t, k, new_) || WriteStartRmw(s, s', t, k, new_))
    ensures ListsUntouched(s, s', t)
  {
  }

  lemma WriteUntouched(s: State, s': State, t: nat)
    requires t < |s.thr| && WriteStep(s, s', t) && !WriteAlloc(s, s', t)
    ensures ListsUntouched(s, s', t)
  {
    if k, new_ :| WriteStart(s, s', t, k, new_) || WriteStartRmw(s, s', t, k, new_) {
      WriteStartUntouched(s, s', t, k, new_);
    }
  }

  lemma SortUntouched(s: State, s': State, t: nat, sorted: seq<WriteElement>)
    requires t < |s.thr| && ValidateStart(s, s', t, sorted)
    ensures ListsUntouched(s, s', t)
  {
  }

  lemma PreMovesUntouched(s: State, s': State, t: nat)
    requires t < |s.thr| && (PreSkip(s, s', t) || PreStart(s, s', t) || PreRmw(s, s', t) || PreReach(s, s', t))
    ensures ListsUntouched(s, s', t)
  {
  }

  lemma PreWalksUntouched(s: State, s': State, t: nat)
    requires t < |s.thr| && (PreNext(s, s', t) || PreDown(s, s', t) || PreJudge(s, s', t))
    ensures ListsUntouched(s, s', t)
  {
  }

  lemma PrecheckUntouched(s: State, s': State, t: nat)
    requires t < |s.thr| && PrecheckStep(s, s', t)
    ensures ListsUntouched(s, s', t)
  {
    if PreSkip(s, s', t) || PreStart(s, s', t) || PreRmw(s, s', t) || PreReach(s, s', t) {
      PreMovesUntouched(s, s', t);
    } else if PreNext(s, s', t) || PreDown(s, s', t) || PreJudge(s, s', t) {
      PreWalksUntouched(s, s', t);
    } else {
      var sorted :| ValidateStart(s, s', t, sorted);
      SortUntouched(s, s', t, sorted);
    }
  }

  lemma InstallUntouched(s: State, s': State, t: nat)
    requires t < |s.thr| && InstallStep(s, s', t) && !CasHead(s, s', t) && !CasMiddle(s, s', t)
    ensures ListsUntouched(s, s', t)
  {
  }

  lemma ScanUntouched(s: State, s': State, t: nat)
    requires t < |s.thr|
    requires RaiseEnd(s, s', t) || ScanStart(s, s', t) || ScanNext(s, s', t) || ScanReach(s, s', t) || ScanDown(s, s', t)
    ensures ListsUntouched(s, s', t)
  {
  }

  lemma CheckUntouched(s: State, s': State, t: nat)
    requires t < |s.thr|
    requires ScanJudge(s, s', t) || ScanEnd(s, s', t) || CheckStart(s, s', t) || CheckDown(s, s', t) || CheckFail(s, s', t)
    ensures ListsUntouched(s, s', t)
  {
  }

  lemma CertifyUntouched(s: State, s': State, t: nat)
    requires t < |s.thr| && CertifyStep(s, s', t) && !RaiseOne(s, s', t) && !CheckOk(s, s', t)
    ensures ListsUntouched(s, s', t)
  {
    if ScanJudge(s, s', t) || ScanEnd(s, s', t) || CheckStart(s, s', t) || CheckDown(s, s', t) || CheckFail(s, s', t) {
      CheckUntouched(s, s', t);
    } else {
      ScanUntouched(s, s', t);
    }
  }

  lemma EndUntouched(s: State, s': State, t: nat)
    requires t < |s.thr| && (CommitEnd(s, s', t) || AbortEnd(s, s', t))
    ensures ListsUntouched(s, s', t)
  {
  }

  lemma GcLocksUntouched(s: State, s': State, t: nat)
    requires t < |s.thr| && (GcLock(s, s', t) || GcSkip(s, s', t) || GcTag(s, s', t) || GcUnlock(s, s', t))
    ensures ListsUntouched(s, s', t)
  {
  }

  lemma GcMovesUntouched(s: State, s': State, t: nat)
    requires t < |s.thr| && (MaintEnd(s, s', t) || GcBusy(s, s', t) || GcLoad(s, s', t))
    ensures ListsUntouched(s, s', t)
  {
  }

  lemma GcUntouched(s: State, s': State, t: nat)
    requires t < |s.thr| && GcStep(s, s', t) && !GcDetach(s, s', t) && !GcPushOne(s, s', t)
    ensures ListsUntouched(s, s', t)
  {
    if MaintEnd(s, s', t) || GcBusy(s, s', t) || GcLoad(s, s', t) {
      GcMovesUntouched(s, s', t);
    } else {
      GcLocksUntouched(s, s', t);
    }
  }

  lemma LeaderScanUntouched(s: State, s': State, t: nat)
    requires t < |s.thr|
    requires LeadStart(s, s', t) || LeadFirstRts(s, s', t) || LeadWts(s, s', t) || LeadNextRts(s, s', t)
    ensures ListsUntouched(s, s', t)
  {
  }

  lemma PublishUntouched(s: State, s': State, t: nat)
    requires t < |s.thr| && (PublishWts(s, s', t) || PublishRts(s, s', t))
    requires LeaderOk(s.thr[t].phase, t, s.threadWts, s.threadRts, s.minWts, s.minRts)
    ensures ListsUntouched(s, s', t)
  {
  }

  lemma LeaderUntouched(s: State, s': State, t: nat)
    requires TimesInv(s) && t < |s.thr| && LeaderStep(s, s', t)
    ensures ListsUntouched(s, s', t)
  {
    if PublishWts(s, s', t) || PublishRts(s, s', t) {
      assert LeaderOk(s.thr[t].phase, t, s.threadWts, s.threadRts, s.minWts, s.minRts);
      PublishUntouched(s, s', t);
    } else {
      LeaderScanUntouched(s, s', t);
    }
  }

  // ------------------------------------------- steps that change one version

  lemma TouchKeepsHistory(s: State, s': State, x: int, t: nat)
    requires BaseInv(s) && HistoryInv(s) && HeapOnly(s, s', t) && Touches(s.heap, s'.heap, x, t, s.minWts)
    requires x < |s.heap| && s.heap[x].place.Listed? && s'.heap[x].passed ==> s.heap[x].passed
    requires Flows(s.thr[t], s'.thr[t]) && s'.commits == s.commits && s'.sources == s.sources && s'.snaps == s.snaps
    requires Decisions(s, s'.heap)
    ensures HistoryInv(s')
  {
    TouchEvolves(s.heap, s'.heap, s.recs, x, t, s.minWts, s.minRts, s.clock);
    TouchKeepsRecords(s, s'.heap, x, t, t);
    CommittedOf(s);
    SameTimes(s, t);
    QuietlyKeeps(s, s', t);
  }

  lemma RaiseKeepsHistory(s: State, s': State, t: nat)
    requires BaseInv(s) && HistoryInv(s) && t < |s.thr| && RaiseOne(s, s', t)
    ensures HistoryInv(s')
  {
    RaiseTouches(s, s', t);
    var x := s.thr[t].rset[s.thr[t].phase.i].ver;
    assert Touches(s.heap, s'.heap, x, t, s.minWts);
    TouchKeepsHistory(s, s', x, t);
  }

  /** Handing a private version to the write set or to a pool decides nothing. */
  lemma AllocQuiet(s: State, s': State, t: nat)
    requires t < |s.thr| && WriteAlloc(s, s', t) && AllocSlot(s, t) <= |s.heap|
    requires AllocSlot(s, t) < |s.heap| ==> !s.heap[AllocSlot(s, t)].place.Listed?
    ensures Flows(s.thr[t], s'.thr[t]) && Decisions(s, s'.heap)
    ensures s'.commits == s.commits && s'.sources == s.sources && s'.snaps == s.snaps
  {
  }

  lemma AllocKeepsHistory(s: State, s': State, t: nat)
    requires BaseInv(s) && HistoryInv(s) && t < |s.thr| && WriteAlloc(s, s', t)
    ensures HistoryInv(s')
  {
    ThreadOf(s, t);
    AllocShape(s, s', t);
    AllocQuiet(s, s', t);
    TouchKeepsHistory(s, s', AllocSlot(s, t), t);
  }

  lemma PushQuiet(s: State, s': State, t: nat)
    requires t < |s.thr| && GcPushOne(s, s', t) && Det(s.heap, s.thr[t].phase.del, t)
    ensures HeapOnly(s, s', t) && Touches(s.heap, s'.heap, s.thr[t].phase.del, t, s.minWts)
    ensures Flows(s.thr[t], s'.thr[t]) && Decisions(s, s'.heap)
    ensures s'.commits == s.commits && s'.sources == s.sources && s'.snaps == s.snaps
  {
  }

  lemma PushKeepsHistory(s: State, s': State, t: nat)
    requires BaseInv(s) && HistoryInv(s) && t < |s.thr| && GcPushOne(s, s', t)
    ensures HistoryInv(s')
  {
    PushTx(s, s', t);
    PushQuiet(s, s', t);
    TouchKeepsHistory(s, s', s.thr[t].phase.del, t);
  }

  /** The payload that commits is the one the transaction was recorded to write. */
  lemma CommitOneDecides(s: State, s': State, t: nat)
    requires t < |s.thr| && CommitOne(s, s', t) && ExecutorRecorded(s.thr[t], s.commits)
    requires WriteOk(s.heap, s.thr[t], t, s.thr[t].phase.i) && s.thr[t].wset[s.thr[t].phase.i].key < |s.recs|
    requires s.thr[t].wset[s.thr[t].phase.i].installed
    ensures Decisions(s, s'.heap) && Flows(s.thr[t], s'.thr[t])
    ensures s'.commits == s.commits && s'.sources == s.sources && s'.snaps == s.snaps
  {
    var e := s.thr[t].wset[s.thr[t].phase.i];
    assert Source(s.recs, s.initTs, s.commits, e.key, s.thr[t].ts, e.val);
  }

  lemma CommitOneKeepsHistory(s: State, s': State, t: nat)
    requires BaseInv(s) && HistoryInv(s) && t < |s.thr| && CommitOne(s, s', t)
    ensures HistoryInv(s')
  {
    CommitTouches(s, s', t);
    assert ExecutorRecorded(s.thr[t], s.commits);
    CommitOneDecides(s, s', t);
    TouchKeepsHistory(s, s', s.thr[t].wset[s.thr[t].phase.i].ver, t);
  }

  lemma AbortOneDecides(s: State, s': State, t: nat)
    requires t < |s.thr| && AbortOne(s, s', t) && ExecutorRecorded(s.thr[t], s.commits)
    requires WriteOk(s.heap, s.thr[t], t, s.thr[t].phase.i)
    ensures Decisions(s, s'.heap) && Flows(s.thr[t], s'.thr[t])
    ensures s'.commits == s.commits && s'.sources == s.sources && s'.snaps == s.snaps
  {
  }

  lemma AbortOneKeepsHistory(s: State, s': State, t: nat)
    requires BaseInv(s) && HistoryInv(s) && t < |s.thr| && AbortOne(s, s', t)
    ensures HistoryInv(s')
  {
    AbortTouches(s, s', t);
    assert ExecutorRecorded(s.thr[t], s.commits);
    AbortOneDecides(s, s', t);
    TouchKeepsHistory(s, s', s.thr[t].wset[s.thr[t].phase.i].ver, t);
  }

  // --------------------------------------------- insertion, cutting, passing

  lemma InstallQuietly(s: State, s': State, t: nat, i: nat, above: int, below: int)
    requires BaseInv(s) && InstallsOne(s, s', t, i, above, below)
    requires s'.commits == s.commits && s'.sources == s.sources && s'.snaps == s.snaps
    ensures Quietly(s, s', t) && NonePass(s.heap, s'.heap)
  {
    InstallEvolves(s, s', t, i, above, below);
    InstallKeepsRecords(s, s', t, t, i, above, below);
  }

  lemma CasKeepsHistory(s: State, s': State, t: nat, i: nat, above: int, below: int)
    requires BaseInv(s) && HistoryInv(s) && InstallsOne(s, s', t, i, above, below)
    requires s'.commits == s.commits && s'.sources == s.sources && s'.snaps == s.snaps
    ensures HistoryInv(s')
  {
    InstallQuietly(s, s', t, i, above, below);
    CommittedOf(s);
    SameTimes(s, t);
    QuietlyKeeps(s, s', t);
  }

  lemma DetachDecides(s: State, s': State, t: nat, k: Key, b: int)
    requires Detaches(s, s', t, k, b)
    ensures Decisions(s, s'.heap) && Flows(s.thr[t], s'.thr[t])
  {
  }

  lemma DetachQuietly(s: State, s': State, t: nat, k: Key, b: int)
    requires BaseInv(s) && Detaches(s, s', t, k, b)
    ensures Quietly(s, s', t) && NonePass(s.heap, s'.heap)
  {
    DetachEvolves(s, s', t, k, b);
    DetachRaises(s, s', t, k, b);
    DetachDecides(s, s', t, k, b);
  }

  lemma DetachesKeepsHistory(s: State, s': State, t: nat, k: Key, b: int)
    requires BaseInv(s) && HistoryInv(s) && Detaches(s, s', t, k, b)
    ensures HistoryInv(s')
  {
    DetachQuietly(s, s', t, k, b);
    CommittedOf(s);
    SameTimes(s, t);
    QuietlyKeeps(s, s', t);
  }

  lemma DetachKeepsHistory(s: State, s': State, t: nat)
    requires BaseInv(s) && HistoryInv(s) && t < |s.thr| && GcDetach(s, s', t)
    ensures HistoryInv(s')
  {
    GcDetaches(s, s', t);
    DetachesKeepsHistory(s, s', t, s.thr[t].gcq[0].key, s.thr[t].gcq[0].ver);
  }

  lemma CheckOkQuietly(s: State, s': State, t: nat)
    requires BaseInv(s) && t < |s.thr| && CheckOk(s, s', t)
    ensures Quietly(s, s', t)
  {
    CheckOkTouches(s, s', t);
    var x := s.thr[t].wset[s.thr[t].phase.i].ver;
    TouchEvolves(s.heap, s'.heap, s.recs, x, t, s.minWts, s.minRts, s.clock);
    TouchKeepsRecords(s, s'.heap, x, t, t);
  }

  lemma CheckOkKeepsReads(s: State, s': State, t: nat)
    requires BaseInv(s) && HistoryInv(s) && t < |s.thr| && CheckOk(s, s', t) && StampsOk(s')
    ensures ReadsRecorded(s')
  {
    CheckOkClears(s, s', t);
    var e := s.thr[t].wset[s.thr[t].phase.i];
    CommittedArePassed(s, e.key);
    forall st, k | st in s'.commits && k in s'.commits[st].readSet ensures ReadRecorded(s', st, k) {
      assert ReadRecorded(s, st, k);
      PassKeepsSettled(s.heap, s.recs, e.key, e.ver, s.thr[t].phase.cur, k, s.sources[st][k], st.major);
    }
  }

  lemma CheckOkKeepsHistory(s: State, s': State, t: nat)
    requires BaseInv(s) && HistoryInv(s) && t < |s.thr| && CheckOk(s, s', t)
    ensures HistoryInv(s')
  {
    CheckOkQuietly(s, s', t);
    SameTimes(s, t);
    FlowsRecorded(s, s', t);
    VersionsKept(s, s', t);
    WriteRecordsKept(s, s', t);
    CheckOkKeepsReads(s, s', t);
    SnapsKept(s, s', t);
    forall u | 0 <= u < |s'.thr| ensures ExecutorRecorded(s'.thr[u], s'.commits) {
      assert u != t ==> s'.thr[u] == s.thr[u];
    }
  }

  // ----------------------------------------------------------- commit point

  /** What is recorded stays recorded when more is. */
  lemma SourceKept(recs: seq<Record>, initTs: nat, commits: map<Stamp, Txn>, commits': map<Stamp, Txn>,
                   k: Key, w: nat, val: Val)
    requires Source(recs, initTs, commits, k, w, val)
    requires forall x | x in commits :: x in commits' && commits'[x] == commits[x]
    ensures Source(recs, initTs, commits', k, w, val)
  {
  }

  ghost predicate Commits(s: State, s': State, t: nat, st: Stamp) {
    && t < |s.thr| && CommitPoint(s, s', t) && st == Stamp(s.thr[t].ts, 0) && st !in s.commits
  }

  lemma CommitStamp(s: State, s': State, t: nat)
    requires HistoryInv(s) && t < |s.thr| && CommitPoint(s, s', t)
    ensures Commits(s, s', t, Stamp(s.thr[t].ts, 0))
    ensures s'.heap == s.heap && s'.recs == s.recs && s'.initTs == s.initTs
    ensures forall x | x in s.commits :: x in s'.commits && s'.commits[x] == s.commits[x]
  {
    assert ExecutorRecorded(s.thr[t], s.commits);
  }

  lemma CommitStamps(s: State, s': State, t: nat, st: Stamp)
    requires TimesInv(s) && HistoryInv(s) && Commits(s, s', t, st)
    ensures StampsOk(s')
  {
    assert TimeOk(s.thr[t], t, s.threadWts, s.threadRts, s.minWts, s.minRts, s.initTs);
    assert s'.sources[st].Keys == s'.commits[st].readSet.Keys;
    forall x | x in s'.commits ensures StampOk(x, s'.thr, s'.initTs) {
      if x != st {
        assert StampOk(x, s.thr, s.initTs);
      }
    }
  }

  /** Every version the transaction writes is on its list and has passed its check. */
  lemma CommitInstalled(s: State, s': State, t: nat, st: Stamp, k: Key) returns (n: int)
    requires BaseInv(s) && Commits(s, s', t, st) && k in s'.commits[st].writeSet
    ensures On(s.heap, n, k) && s.heap[n].wts == st.major && s.heap[n].passed && !s.heap[n].status.Aborted? && k < |s.recs|
  {
    var tx := s.thr[t];
    assert WritesKey(tx.wset, k);
    var j: nat :| j < |tx.wset| && tx.wset[j].key == k;
    WriteFacts(s, t, j);
    n := tx.wset[j].ver;
  }

  lemma CommitNewWrite(s: State, s': State, t: nat, st: Stamp, k: Key)
    requires BaseInv(s) && Commits(s, s', t, st) && k in s'.commits[st].writeSet
    ensures WriteRecorded(s.heap, s.recs, k, st.major)
  {
    var n := CommitInstalled(s, s', t, st, k);
    assert ListInv(s.heap, s.recs[k], k);
  }

  lemma CommitWrites(s: State, s': State, t: nat, st: Stamp)
    requires BaseInv(s) && HistoryInv(s) && Commits(s, s', t, st)
    ensures WritesRecorded(s')
  {
    CommitRecords(s, s', t, st);
    forall x, k | x in s'.commits && k in s'.commits[x].writeSet ensures WriteRecorded(s.heap, s.recs, k, x.major) {
      if x == st {
        CommitNewWrite(s, s', t, st, k);
      } else {
        assert x in s.commits && k in s.commits[x].writeSet;
      }
    }
  }

  /** A read settled between two timestamps admits no newly committed writer in between. */
  lemma SettledExcludes(s: State, s': State, t: nat, st: Stamp, k: Key, w: nat, at: nat)
    requires BaseInv(s) && Commits(s, s', t, st) && Settled(s.heap, s.recs, k, w, at) && k in s'.commits[st].writeSet
    ensures !(w < st.major < at)
  {
    var n := CommitInstalled(s, s', t, st, k);
    BottomVisible(s, t, k);
    if s.heap[s.recs[k].bottom].wts < at {
      var v: int :| SettledAt(s.heap, k, v, at) && s.heap[v].wts == w;
    }
  }

  /** Only the record of transaction `st` is new. */
  ghost predicate Records(s: State, s': State, st: Stamp) {
    && s'.heap == s.heap && s'.recs == s.recs && s'.initTs == s.initTs && st !in s.commits && st in s'.commits && st in s'.sources
    && s'.commits == s.commits[st := s'.commits[st]] && s'.sources == s.sources[st := s'.sources[st]]
  }

  lemma OldReadKept(s: State, s': State, st: Stamp, x: Stamp, k: Key)
    requires StampsOk(s) && Records(s, s', st) && x in s.commits && k in s.commits[x].readSet && ReadRecorded(s, x, k)
    requires k in s'.commits[st].writeSet ==> !(s.sources[x][k] < st.major < x.major)
    ensures k in s'.commits[x].readSet && x in s'.sources && k in s'.sources[x] && ReadRecorded(s', x, k)
  {
    SourceKept(s.recs, s.initTs, s.commits, s'.commits, k, s.sources[x][k], s.commits[x].readSet[k]);
  }

  lemma CommitRecords(s: State, s': State, t: nat, st: Stamp)
    requires Commits(s, s', t, st)
    ensures Records(s, s', st)
  {
  }

  lemma CommitOldRead(s: State, s': State, t: nat, st: Stamp, x: Stamp, k: Key)
    requires BaseInv(s) && HistoryInv(s) && Commits(s, s', t, st) && StampsOk(s')
    requires x in s.commits && k in s.commits[x].readSet
    ensures x in s'.commits && k in s'.commits[x].readSet && ReadRecorded(s', x, k)
  {
    assert ReadRecorded(s, x, k);
    CommitRecords(s, s', t, st);
    if k in s'.commits[st].writeSet {
      SettledExcludes(s, s', t, st, k, s.sources[x][k], x.major);
    }
    OldReadKept(s, s', st, x, k);
  }

  /** The certification of a read settles it: install-then-check and raise-then-scan
      cannot both have missed each other. */
  lemma CertifiedSettles(s: State, t: nat, j: nat)
    requires BaseInv(s) && t < |s.thr| && s.thr[t].phase == Check(|s.thr[t].wset|) && j < |s.thr[t].rset|
    ensures var r := s.thr[t].rset[j]; SettledAt(s.heap, r.key, r.ver, s.thr[t].ts)
  {
    ReadFacts(s, t, j);
    var r := s.thr[t].rset[j];
    assert !Hits(s.heap, r.key, r.ver, r.ver);
  }

  lemma NoEarlierWriter(s: State, k: Key, v: int, at: nat)
    requires WritesRecorded(s) && SettledAt(s.heap, k, v, at) && k < |s.recs| && ListInv(s.heap, s.recs[k], k)
    ensures NoWriterInside(s.commits, k, s.heap[v].wts, at)
  {
    forall x | x in s.commits && k in s.commits[x].writeSet ensures !(s.heap[v].wts < x.major < at) {
      assert WriteRecorded(s.heap, s.recs, k, x.major);
    }
  }

  lemma NewReadRecorded(s: State, s': State, t: nat, st: Stamp, r: ReadElement)
    requires Commits(s, s', t, st) && Records(s, s', st) && StampsOk(s') && r in s.thr[t].rset && ReadOk(s.heap, s.thr[t], r)
    requires SettledAt(s.heap, r.key, r.ver, st.major) && NoWriterInside(s.commits, r.key, r.wts, st.major)
    requires Source(s.recs, s.initTs, s.commits, r.key, r.wts, r.val)
    requires r.key < |s.recs| && Valid(s.heap, s.recs[r.key].bottom)
    ensures ReadRecorded(s', st, r.key)
  {
    SourceKept(s.recs, s.initTs, s.commits, s'.commits, r.key, r.wts, r.val);
  }

  lemma CommitNewRead(s: State, s': State, t: nat, st: Stamp, j: nat)
    requires BaseInv(s) && HistoryInv(s) && Commits(s, s', t, st) && StampsOk(s') && j < |s.thr[t].rset|
    ensures ReadRecorded(s', st, s.thr[t].rset[j].key)
  {
    var r := s.thr[t].rset[j];
    ReadFacts(s, t, j);
    CertifiedSettles(s, t, j);
    assert ListInv(s.heap, s.recs[r.key], r.key);
    NoEarlierWriter(s, r.key, r.ver, st.major);
    CommitRecords(s, s', t, st);
    NewReadRecorded(s, s', t, st, r);
  }

  lemma CommitReads(s: State, s': State, t: nat, st: Stamp)
    requires BaseInv(s) && HistoryInv(s) && Commits(s, s', t, st) && StampsOk(s')
    ensures ReadsRecorded(s')
  {
    forall x, k | x in s'.commits && k in s'.commits[x].readSet ensures ReadRecorded(s', x, k) {
      if x == st {
        assert ReadsKey(s.thr[t].rset, k);
        var j: nat :| j < |s.thr[t].rset| && s.thr[t].rset[j].key == k;
        CommitNewRead(s, s', t, st, j);
      } else {
        CommitOldRead(s, s', t, st, x, k);
      }
    }
  }

  lemma CommitExecutors(s: State, s': State, t: nat, st: Stamp)
    requires TimesInv(s) && HistoryInv(s) && Commits(s, s', t, st)
    ensures forall u | 0 <= u < |s'.thr| :: ExecutorRecorded(s'.thr[u], s'.commits)
  {
    forall u | 0 <= u < |s'.thr| ensures ExecutorRecorded(s'.thr[u], s'.commits) {
      if u != t {
        assert TimeOk(s.thr[u], u, s.threadWts, s.threadRts, s.minWts, s.minRts, s.initTs);
        assert TimeOk(s.thr[t], t, s.threadWts, s.threadRts, s.minWts, s.minRts, s.initTs);
        assert ExecutorRecorded(s.thr[u], s.commits);
      }
    }
  }

  lemma CommitSnaps(s: State, s': State, t: nat, st: Stamp)
    requires TimesInv(s) && HistoryInv(s) && Commits(s, s', t, st)
    ensures forall sn | sn in s'.snaps :: SnapRecorded(s', sn)
  {
    assert TimeOk(s.thr[t], t, s.threadWts, s.threadRts, s.minWts, s.minRts, s.initTs);
    forall sn | sn in s'.snaps ensures SnapRecorded(s', sn) {
      assert SnapRecorded(s, sn);
      CommitStamp(s, s', t);
      SourceKept(s.recs, s.initTs, s.commits, s'.commits, sn.key, sn.wts, sn.val);
    }
  }

  lemma CommitVersions(s: State, s': State, t: nat)
    requires HistoryInv(s) && t < |s.thr| && CommitPoint(s, s', t)
    ensures VersionsRecorded(s')
  {
    CommitStamp(s, s', t);
    forall v: int, k: Key | On(s'.heap, v, k) && s'.heap[v].status.Committed?
      ensures Source(s'.recs, s'.initTs, s'.commits, k, s'.heap[v].wts, s'.heap[v].val)
    {
      SourceKept(s.recs, s.initTs, s.commits, s'.commits, k, s.heap[v].wts, s.heap[v].val);
    }
  }

  lemma CommitPointKeepsHistory(s: State, s': State, t: nat)
    requires BaseInv(s) && HistoryInv(s) && t < |s.thr| && CommitPoint(s, s', t)
    ensures HistoryInv(s')
  {
    var st := Stamp(s.thr[t].ts, 0);
    CommitStamp(s, s', t);
    CommitStamps(s, s', t, st);
    CommitVersions(s, s', t);
    CommitWrites(s, s', t, st);
    CommitReads(s, s', t, st);
    CommitExecutors(s, s', t, st);
    CommitSnaps(s, s', t, st);
  }

  // --------------------------------------------------------- snapshot reads

  /** A pending version belongs to the transaction its timestamp names, still in flight. */
  lemma PendingOwner(s: State, v: int)
    requires BaseInv(s) && OnList(s.heap, v) && s.heap[v].status.Pending?
    ensures var u := s.heap[v].wts % TID_SPACE;
            u < |s.thr| && InFlight(s.thr[u].phase) && s.thr[u].ts == s.heap[v].wts && Mine(s.thr[u], v, s.heap[v].place.key)
    ensures s.minWts <= s.heap[v].wts
  {
    assert VersionOk(s.heap[v], s.clock, |s.recs|, |s.thr|);
    ThreadOf(s, s.heap[v].wts % TID_SPACE);
    ViewOf(s, s.heap[v].wts % TID_SPACE);
  }

  /** At and below a snapshot nothing is pending. */
  lemma NothingPendingBelow(s: State, t: nat, v: int)
    requires BaseInv(s) && t < |s.thr| && Active(s.thr[t].phase) && OnList(s.heap, v) && s.heap[v].wts <= s.thr[t].rts
    ensures !s.heap[v].status.Pending?
  {
    ViewOf(s, t);
    if s.heap[v].status.Pending? {
      PendingOwner(s, v);
    }
  }

  /** What a snapshot read takes is the last version committed at or below the snapshot. */
  lemma SnapReadFacts(s: State, s': State, t: nat)
    requires BaseInv(s) && HistoryInv(s) && t < |s.thr| && ReadTake(s, s', t) && s.thr[t].ronly
    ensures var k, cur := s.thr[t].phase.key, s.thr[t].phase.cur;
            && k < |s.recs| && ListInv(s.heap, s.recs[k], k) && SafePtr(s.heap, k, s.thr[t].rts, cur)
            && s.heap[cur].wts <= s.thr[t].rts < s.minWts && s.heap[cur].status.Committed?
  {
    ThreadOf(s, t);
    ViewOf(s, t);
    assert ListInv(s.heap, s.recs[s.thr[t].phase.key], s.thr[t].phase.key);
  }

  lemma SnapExcludesOne(s: State, t: nat, k: Key, cur: int, w: nat)
    requires BaseInv(s) && WriteRecorded(s.heap, s.recs, k, w) && t < |s.thr| && Active(s.thr[t].phase)
    requires ListInv(s.heap, s.recs[k], k) && SafePtr(s.heap, k, s.thr[t].rts, cur)
    ensures !(s.heap[cur].wts < w <= s.thr[t].rts)
  {
    if s.heap[cur].wts < w <= s.thr[t].rts {
      assert s.heap[s.recs[k].bottom].wts <= s.heap[cur].wts;
      var v: int :| On(s.heap, v, k) && s.heap[v].wts == w && s.heap[v].passed && !s.heap[v].status.Aborted?;
      NothingPendingBelow(s, t, v);
    }
  }

  lemma SnapExcludes(s: State, t: nat, k: Key, cur: int)
    requires BaseInv(s) && WritesRecorded(s) && t < |s.thr| && Active(s.thr[t].phase)
    requires k < |s.recs| && SafePtr(s.heap, k, s.thr[t].rts, cur)
    ensures NoWriterInside(s.commits, k, s.heap[cur].wts, s.thr[t].rts + 1)
  {
    assert ListInv(s.heap, s.recs[k], k);
    forall x | x in s.commits && k in s.commits[x].writeSet ensures !(s.heap[cur].wts < x.major <= s.thr[t].rts) {
      SnapExcludesOne(s, t, k, cur, x.major);
    }
  }

  lemma SnapTakeKeepsHistory(s: State, s': State, t: nat)
    requires BaseInv(s) && HistoryInv(s) && t < |s.thr| && ReadTake(s, s', t) && s.thr[t].ronly
    ensures HistoryInv(s')
  {
    SnapReadFacts(s, s', t);
    var tx := s.thr[t];
    var k, cur := tx.phase.key, tx.phase.cur;
    SnapExcludes(s, t, k, cur);
    assert Source(s.recs, s.initTs, s.commits, k, s.heap[cur].wts, s.heap[cur].val);
    SnapTakeParts(s, s', t);
  }

  lemma SnapTakeParts(s: State, s': State, t: nat)
    requires HistoryInv(s) && t < |s.thr| && ReadTake(s, s', t) && s.thr[t].ronly
    requires var cur := s.heap[s.thr[t].phase.cur];
             SnapRecorded(s, Snap(s.thr[t].rts, s.thr[t].phase.key, cur.wts, cur.val))
    ensures HistoryInv(s')
  {
    forall st, k | st in s'.commits && k in s'.commits[st].readSet ensures ReadRecorded(s', st, k) {
      assert ReadRecorded(s, st, k);
    }
    forall sn | sn in s'.snaps ensures SnapRecorded(s', sn) {
      if sn in s.snaps {
        assert SnapRecorded(s, sn);
      }
    }
    forall u | 0 <= u < |s'.thr| ensures ExecutorRecorded(s'.thr[u], s'.commits) {
      assert ExecutorRecorded(s.thr[u], s.commits);
    }
    forall st | st in s'.commits ensures StampOk(st, s'.thr, s'.initTs) {
      assert StampOk(st, s.thr, s.initTs);
    }
  }

  // -------------------------------------------------------------- every step

  lemma InstallStepKeepsHistory(s: State, s': State, t: nat)
    requires BaseInv(s) && HistoryInv(s) && t < |s.thr| && InstallStep(s, s', t)
    ensures HistoryInv(s')
  {
    if CasHead(s, s', t) {
      CasHeadInstalls(s, s', t);
      CasKeepsHistory(s, s', t, s.thr[t].phase.i, NIL, s.thr[t].phase.exp);
    } else if CasMiddle(s, s', t) {
      CasMiddleInstalls(s, s', t);
      CasKeepsHistory(s, s', t, s.thr[t].phase.i, s.thr[t].wset[s.thr[t].phase.i].later, s.thr[t].phase.cur);
    } else {
      InstallUntouched(s, s', t);
      UntouchedKeepsHistory(s, s', t);
    }
  }

  lemma CertifyStepKeepsHistory(s: State, s': State, t: nat)
    requires BaseInv(s) && HistoryInv(s) && t < |s.thr| && CertifyStep(s, s', t)
    ensures HistoryInv(s')
  {
    if RaiseOne(s, s', t) {
      RaiseKeepsHistory(s, s', t);
    } else if CheckOk(s, s', t) {
      CheckOkKeepsHistory(s, s', t);
    } else {
      CertifyUntouched(s, s', t);
      UntouchedKeepsHistory(s, s', t);
    }
  }

  lemma OutcomeStepKeepsHistory(s: State, s': State, t: nat)
    requires BaseInv(s) && HistoryInv(s) && t < |s.thr| && OutcomeStep(s, s', t)
    ensures HistoryInv(s')
  {
    if CommitPoint(s, s', t) {
      CommitPointKeepsHistory(s, s', t);
    } else if CommitOne(s, s', t) {
      CommitOneKeepsHistory(s, s', t);
    } else if AbortOne(s, s', t) {
      AbortOneKeepsHistory(s, s', t);
    } else {
      EndUntouched(s, s', t);
      UntouchedKeepsHistory(s, s', t);
    }
  }

  lemma GcStepKeepsHistory(s: State, s': State, t: nat)
    requires BaseInv(s) && HistoryInv(s) && t < |s.thr| && GcStep(s, s', t)
    ensures HistoryInv(s')
  {
    if GcDetach(s, s', t) {
      DetachKeepsHistory(s, s', t);
    } else if GcPushOne(s, s', t) {
      PushKeepsHistory(s, s', t);
    } else {
      GcUntouched(s, s', t);
      UntouchedKeepsHistory(s, s', t);
    }
  }

  lemma AccessStepKeepsHistory(s: State, s': State, t: nat)
    requires BaseInv(s) && HistoryInv(s) && t < |s.thr| && (ReadStep(s, s', t) || WriteStep(s, s', t))
    ensures HistoryInv(s')
  {
    if ReadTake(s, s', t) && s.thr[t].ronly {
      SnapTakeKeepsHistory(s, s', t);
    } else if WriteAlloc(s, s', t) {
      AllocKeepsHistory(s, s', t);
    } else {
      if ReadStep(s, s', t) {
        ReadUntouched(s, s', t);
      } else {
        WriteUntouched(s, s', t);
      }
      UntouchedKeepsHistory(s, s', t);
    }
  }

  lemma StepKeepsHistory(s: State, s': State, t: nat)
    requires BaseInv(s) && HistoryInv(s) && StepBy(s, s', t)
    ensures HistoryInv(s')
  {
    if ReadStep(s, s', t) || WriteStep(s, s', t) {
      AccessStepKeepsHistory(s, s', t);
    } else if InstallStep(s, s', t) {
      InstallStepKeepsHistory(s, s', t);
    } else if CertifyStep(s, s', t) {
      CertifyStepKeepsHistory(s, s', t);
    } else if OutcomeStep(s, s', t) {
      OutcomeStepKeepsHistory(s, s', t);
    } else if GcStep(s, s', t) {
      GcStepKeepsHistory(s, s', t);
    } else {
      if BeginStep(s, s', t) {
        BeginUntouched(s, s', t);
      } else if PrecheckStep(s, s', t) {
        PrecheckUntouched(s, s', t);
      } else {
        LeaderUntouched(s, s', t);
      }
      UntouchedKeepsHistory(s, s', t);
    }
  }

  // -------------------------------------------------------------- whole runs

  ghost predicate Inv(s: State) { BaseInv(s) && HistoryInv(s) }

  lemma InitHistory(s: State)
    requires Init(s)
    ensures HistoryInv(s)
  {
    forall v: int, k: Key | On(s.heap, v, k) ensures v == k < |s.recs| {
      assert v < |s.recs|;
    }
  }

  lemma StepKeepsInv(s: State, s': State)
    requires Inv(s) && Next(s, s')
    ensures Inv(s')
  {
    var t: nat :| StepBy(s, s', t);
    StepKeepsBase(s, s', t);
    StepKeepsHistory(s, s', t);
  }

  lemma RunKeepsInv(run: seq<State>, i: nat)
    requires IsRun(run, Init, Next) && i < |run|
    ensures Inv(run[i])
  {
    forall s | Init(s) ensures Inv(s) {
      InitEstablishes(s);
      InitHistory(s);
    }
    forall s, s' | Inv(s) && Next(s, s') ensures Inv(s') {
      StepKeepsInv(s, s');
    }
    Invariant(run, Init, Next, Inv, i);
  }

  function InitialTable(recs: seq<Record>): map<Key, Val> {
    map k: Key | k < |recs| :: recs[k].init
  }

  /** Version `w` of `k` is the newest below timestamp `at` of all ever committed. */
  ghost predicate LatestBelow(s: State, k: Key, w: nat, val: Val, at: nat) {
    && w < at && Source(s.recs, s.initTs, s.commits, k, w, val) && NoWriterInside(s.commits, k, w, at)
    && forall x | x in s.commits :: x.minor == 0 && x.major > s.initTs
  }

  /** Every committed read got the greatest version below the reader's timestamp, also
      counting writers that committed after it. */
  lemma CommittedReadIsLatest(run: seq<State>, i: nat, st: Stamp, k: Key)
    requires IsRun(run, Init, Next) && i < |run|
    requires st in run[i].commits && k in run[i].commits[st].readSet
    ensures st in run[i].sources && k in run[i].sources[st]
    ensures LatestBelow(run[i], k, run[i].sources[st][k], run[i].commits[st].readSet[k], st.major)
  {
    RunKeepsInv(run, i);
    var s := run[i];
    assert k in s.sources[st].Keys;
    assert ReadRecorded(s, st, k);
    forall x | x in s.commits ensures x.minor == 0 && x.major > s.initTs {
      assert StampOk(x, s.thr, s.initTs);
    }
  }

  lemma LatestIsLastWriter(s: State, st: Stamp, k: Key, w: nat)
    requires st in s.commits && k in s.commits[st].readSet && st.minor == 0
    requires LatestBelow(s, k, w, s.commits[st].readSet[k], st.major)
    ensures ReadsFromLastWriter(InitialTable(s.recs), s.commits, st, k)
  {
    if Stamp(w, 0) in s.commits {
      assert NoWriterBetween(s.commits, k, Stamp(w, 0), st);
    } else {
      assert NoWriterBefore(s.commits, k, st);
    }
  }

  /** Seen from a reachable state, its committed read-write transactions are equivalent to
      their serial execution in timestamp order. */
  lemma CommitsSerializable(run: seq<State>, i: nat)
    requires IsRun(run, Init, Next) && i < |run|
    ensures Serializable(InitialTable(run[i].recs), run[i].commits)
  {
    var s := run[i];
    forall st, k | st in s.commits && k in s.commits[st].readSet
      ensures ReadsFromLastWriter(InitialTable(s.recs), s.commits, st, k)
    {
      CommittedReadIsLatest(run, i, st, k);
      LatestIsLastWriter(s, st, k, s.sources[st][k]);
    }
    SerializableByReadsFrom(InitialTable(s.recs), s.commits);
  }

  // ------------------------------------------------------ read-only snapshots

  /** The first `n` transactions of the serial order are those at or below `rts`. */
  ghost predicate CutsAt(order: seq<Stamp>, n: nat, rts: nat) {
    && n <= |order|
    && (forall i | 0 <= i < n :: order[i].major <= rts)
    && (forall i | n <= i < |order| :: order[i].major > rts)
  }

  lemma {:induction false} CutExists(order: seq<Stamp>, rts: nat) returns (n: nat)
    requires forall i, j | 0 <= i < j < |order| :: Before(order[i], order[j])
    ensures CutsAt(order, n, rts)
  {
    if order == [] || order[0].major > rts {
      n := 0;
    } else {
      var m := CutExists(order[1..], rts);
      assert forall i | m <= i < |order| - 1 :: order[1..][i] == order[i + 1];
      n := m + 1;
    }
  }

  /** Read-only transactions with snapshot `rts` all read the one table the serial
      execution leaves after the transactions at or below `rts`. */
  lemma SnapshotReadsSerialState(s: State, sn: Snap, order: seq<Stamp>, n: nat)
    requires Inv(s) && sn in s.snaps && Enumerates(order, s.commits) && CutsAt(order, n, sn.rts)
    ensures var table := Replay(InitialTable(s.recs), SerialExecution.Listed(order, s.commits)[..n]);
            sn.key in table && table[sn.key] == sn.val
  {
    assert SnapRecorded(s, sn);
    var h := SerialExecution.Listed(order, s.commits)[..n];
    var init := InitialTable(s.recs);
    forall m | 0 <= m < n && order[m].major > sn.wts ensures sn.key !in h[m].writeSet {
      assert h[m] == s.commits[order[m]];
    }
    if Stamp(sn.wts, 0) in s.commits {
      var j: nat :| j < |order| && order[j] == Stamp(sn.wts, 0);
      forall m | j < m < n ensures sn.key !in h[m].writeSet {
        assert Before(order[j], order[m]);
        assert StampOk(order[m], s.thr, s.initTs);
      }
      SnapshotFromWriter(s, sn, h, j);
    } else {
      forall m | 0 <= m < n ensures sn.key !in h[m].writeSet {
        assert StampOk(order[m], s.thr, s.initTs);
      }
      assert h[..0] == [];
      ReplayUntouched(init, h, 0, sn.key);
    }
  }

  lemma SnapshotFromWriter(s: State, sn: Snap, h: seq<Txn>, j: nat)
    requires StampsOk(s) && SnapRecorded(s, sn) && Stamp(sn.wts, 0) in s.commits
    requires j < |h| && h[j] == s.commits[Stamp(sn.wts, 0)] && forall m | j < m < |h| :: sn.key !in h[m].writeSet
    ensures var table := Replay(InitialTable(s.recs), h); sn.key in table && table[sn.key] == sn.val
  {
    assert StampOk(Stamp(sn.wts, 0), s.thr, s.initTs);
    FinalWriter(InitialTable(s.recs), h, j, sn.key);
  }

  /** Every read of a snapshot is of the table that the serial execution in `order` leaves
      after the transactions at or below the snapshot. */
  ghost predicate SnapshotsServed(init: map<Key, Val>, commits: map<Stamp, Txn>, order: seq<Stamp>, snaps: set<Snap>) {
    Enumerates(order, commits) &&
    forall sn, n: nat | sn in snaps && CutsAt(order, n, sn.rts) ::
      var table := Replay(init, SerialExecution.Listed(order, commits)[..n]);
      sn.key in table && table[sn.key] == sn.val
  }

  /** Snapshots are stable: whatever is committed later, a state's snapshot reads agree with
      one serial execution, cut at the snapshot. */
  lemma SnapshotsAgree(run: seq<State>, i: nat) returns (order: seq<Stamp>)
    requires IsRun(run, Init, Next) && i < |run|
    ensures SnapshotsServed(InitialTable(run[i].recs), run[i].commits, order, run[i].snaps)
    ensures SerialRun(InitialTable(run[i].recs), SerialExecution.Listed(order, run[i].commits))
  {
    RunKeepsInv(run, i);
    CommitsSerializable(run, i);
    var s := run[i];
    order :| Enumerates(order, s.commits) && SerialRun(InitialTable(s.recs), SerialExecution.Listed(order, s.commits));
    forall sn, n: nat | sn in s.snaps && CutsAt(order, n, sn.rts)
      ensures var table := Replay(InitialTable(s.recs), SerialExecution.Listed(order, s.commits)[..n]);
              sn.key in table && table[sn.key] == sn.val
    {
      SnapshotReadsSerialState(s, sn, order, n);
    }
  }

  /** A read-only transaction never waits: at or below its snapshot every version is
      committed or aborted, and a transaction committing later has a later timestamp. */
  lemma SnapshotNeverWaits(run: seq<State>, i: nat, t: nat)
    requires IsRun(run, Init, Next) && i < |run| && t < |run[i].thr|
    requires Active(run[i].thr[t].phase)
    ensures forall v: int | OnList(run[i].heap, v) && run[i].heap[v].wts <= run[i].thr[t].rts ::
              !run[i].heap[v].status.Pending?
    ensures forall u: nat | u < |run[i].thr| && Active(run[i].thr[u].phase) :: run[i].thr[u].ts > run[i].thr[t].rts
  {
    var s := run[i];
    RunKeepsInv(run, i);
    forall v: int | OnList(s.heap, v) && s.heap[v].wts <= s.thr[t].rts ensures !s.heap[v].status.Pending? {
      NothingPendingBelow(s, t, v);
    }
    ViewOf(s, t);
    forall u: nat | u < |s.thr| && Active(s.thr[u].phase) ensures s.thr[u].ts > s.thr[t].rts {
      ViewOf(s, u);
    }
  }
}
