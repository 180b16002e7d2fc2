/** What only ever grows along a run of Cicada: the published timestamps and their minima,
    and what the lists of versions say about the past. */
module CicadaGrowth {
  import opened SerialExecution
  import opened Runs
  import opened Cicada
  import opened CicadaInvariant
  import opened CicadaReachable
  import opened CicadaValidation
  import opened CicadaSerializability

  // ------------------------------------------------- published timestamps

  /** No published timestamp and neither minimum goes back. */
  ghost predicate ClocksGrow(s: State, s': State) {
    && s.minWts <= s'.minWts && s.minRts <= s'.minRts && s.clock <= s'.clock
    && |s'.threadWts| == |s.threadWts| && |s'.threadRts| == |s.threadRts|
    && (forall u | 0 <= u < |s.threadWts| :: s.threadWts[u] <= s'.threadWts[u])
    && (forall u | 0 <= u < |s.threadRts| :: s.threadRts[u] <= s'.threadRts[u])
  }

  lemma ReadsGrow(s: State, s': State, t: nat)
    requires t < |s.thr| && ReadStep(s, s', t)
    ensures ClocksGrow(s, s')
  {
  }

  lemma WritesGrow(s: State, s': State, t: nat)
    requires t < |s.thr| && WriteStep(s, s', t)
    ensures ClocksGrow(s, s')
  {
  }

  lemma PrechecksGrow(s: State, s': State, t: nat)
    requires t < |s.thr| && PrecheckStep(s, s', t)
    ensures ClocksGrow(s, s')
  {
  }

  lemma InstallsGrow(s: State, s': State, t: nat)
    requires t < |s.thr| && InstallStep(s, s', t)
    ensures ClocksGrow(s, s')
  {
  }

  lemma RescansGrow(s: State, s': State, t: nat)
    requires t < |s.thr|
    requires RaiseOne(s, s', t) || RaiseEnd(s, s', t) || ScanStart(s, s', t) || ScanNext(s, s', t) || ScanReach(s, s', t)
             || ScanDown(s, s', t)
    ensures ClocksGrow(s, s')
  {
  }

  lemma CertifiesGrow(s: State, s': State, t: nat)
    requires t < |s.thr| && CertifyStep(s, s', t)
    ensures ClocksGrow(s, s')
  {
    if RaiseOne(s, s', t) || RaiseEnd(s, s', t) || ScanStart(s, s', t) || ScanNext(s, s', t) || ScanReach(s, s', t)
       || ScanDown(s, s', t) {
      RescansGrow(s, s', t);
    }
  }

  lemma OutcomesGrow(s: State, s': State, t: nat)
    requires t < |s.thr| && OutcomeStep(s, s', t)
    ensures ClocksGrow(s, s')
  {
  }

  lemma CollectionsGrow(s: State, s': State, t: nat)
    requires t < |s.thr| && GcStep(s, s', t)
    ensures ClocksGrow(s, s')
  {
  }

  lemma BeginGrows(s: State, s': State, t: nat)
    requires t < |s.thr| && BeginStep(s, s', t) && t < |s.threadWts| == |s.threadRts|
    requires TimeOk(s.thr[t], t, s.threadWts, s.threadRts, s.minWts, s.minRts, s.initTs)
    ensures ClocksGrow(s, s')
  {
  }

  lemma LeaderGrows(s: State, s': State, t: nat)
    requires t < |s.thr| && LeaderStep(s, s', t)
    requires LeaderOk(s.thr[t].phase, t, s.threadWts, s.threadRts, s.minWts, s.minRts)
    ensures ClocksGrow(s, s')
  {
  }

  lemma StepGrows(s: State, s': State, t: nat)
    requires TimesInv(s) && StepBy(s, s', t)
    ensures ClocksGrow(s, s')
  {
    if BeginStep(s, s', t) {
      BeginGrows(s, s', t);
    } else if LeaderStep(s, s', t) {
      LeaderGrows(s, s', t);
    } else if ReadStep(s, s', t) {
      ReadsGrow(s, s', t);
    } else if WriteStep(s, s', t) {
      WritesGrow(s, s', t);
    } else if PrecheckStep(s, s', t) {
      PrechecksGrow(s, s', t);
    } else if InstallStep(s, s', t) {
      InstallsGrow(s, s', t);
    } else if CertifyStep(s, s', t) {
      CertifiesGrow(s, s', t);
    } else if OutcomeStep(s, s', t) {
      OutcomesGrow(s, s', t);
    } else {
      CollectionsGrow(s, s', t);
    }
  }

  lemma GrowTwice(a: State, b: State, c: State)
    requires ClocksGrow(a, b) && ClocksGrow(b, c)
    ensures ClocksGrow(a, c)
  {
  }

  lemma NextGrows(s: State, s': State)
    requires Inv(s) && Next(s, s')
    ensures ClocksGrow(s, s')
  {
    var t: nat :| StepBy(s, s', t);
    StepGrows(s, s', t);
  }

  /** Published timestamps, MinWts and MinRts only move forward, whoever runs. */
  lemma TimestampsMoveForward(run: seq<State>, i: nat, j: nat)
    requires IsRun(run, Init, Next) && i <= j < |run|
    ensures ClocksGrow(run[i], run[j])
  {
    forall s | Init(s) ensures Inv(s) {
      InitEstablishes(s);
      InitHistory(s);
    }
    forall s, s' | Inv(s) && Next(s, s') ensures Inv(s') && ClocksGrow(s, s') {
      StepKeepsInv(s, s');
      NextGrows(s, s');
    }
    forall a, b, c | ClocksGrow(a, b) && ClocksGrow(b, c) ensures ClocksGrow(a, c) {
      GrowTwice(a, b, c);
    }
    Ordered(run, Init, Next, Inv, ClocksGrow, i, j);
  }

  // ------------------------------------------------------ the lists of versions

  /** Listed version `b` was listed before, in the same place of the same list and no less
      decided, or has been installed since. */
  ghost predicate Remains(s: State, v: nat, b: Version) {
    || b.seqno >= s.clock
    || (v < |s.heap|
        && var a := s.heap[v];
           && a.place == b.place && a.wts == b.wts && a.seqno == b.seqno && a.rts <= b.rts
           && (a.status.Aborted? ==> b.status.Aborted?) && (a.status.Committed? ==> b.status.Committed?))
  }

  ghost predicate ListsGrow(s: State, s': State) {
    s.clock <= s'.clock && forall v: nat | v < |s'.heap| && s'.heap[v].place.Listed? :: Remains(s, v, s'.heap[v])
  }

  lemma AllocLists(s: State, s': State, t: nat)
    requires t < |s.thr| && WriteAlloc(s, s', t)
    ensures ListsGrow(s, s')
  {
  }

  lemma CasLists(s: State, s': State, t: nat)
    requires t < |s.thr| && (CasHead(s, s', t) || CasMiddle(s, s', t))
    ensures ListsGrow(s, s')
  {
  }

  lemma RaiseLists(s: State, s': State, t: nat)
    requires t < |s.thr| && (RaiseOne(s, s', t) || CheckOk(s, s', t))
    ensures ListsGrow(s, s')
  {
  }

  lemma OutcomeLists(s: State, s': State, t: nat)
    requires t < |s.thr| && (CommitOne(s, s', t) || AbortOne(s, s', t)) && WriteOk(s.heap, s.thr[t], t, s.thr[t].phase.i)
    ensures ListsGrow(s, s')
  {
  }

  lemma CommitPointLists(s: State, s': State, t: nat)
    requires t < |s.thr| && CommitPoint(s, s', t)
    ensures ListsGrow(s, s')
  {
  }

  lemma CollectionLists(s: State, s': State, t: nat)
    requires t < |s.thr| && (GcDetach(s, s', t) || GcPushOne(s, s', t))
    ensures ListsGrow(s, s')
  {
  }

  lemma AccessLists(s: State, s': State, t: nat)
    requires BaseInv(s) && t < |s.thr| && (ReadStep(s, s', t) || WriteStep(s, s', t)) && s.clock <= s'.clock
    ensures ListsGrow(s, s')
  {
    if WriteAlloc(s, s', t) {
      AllocLists(s, s', t);
    } else if WriteStep(s, s', t) {
      WriteUntouched(s, s', t);
    } else if !(ReadTake(s, s', t) && s.thr[t].ronly) {
      ReadUntouched(s, s', t);
    }
  }

  lemma ValidationLists(s: State, s': State, t: nat)
    requires BaseInv(s) && t < |s.thr| && (InstallStep(s, s', t) || CertifyStep(s, s', t)) && s.clock <= s'.clock
    ensures ListsGrow(s, s')
  {
    if CasHead(s, s', t) || CasMiddle(s, s', t) {
      CasLists(s, s', t);
    } else if RaiseOne(s, s', t) || CheckOk(s, s', t) {
      RaiseLists(s, s', t);
    } else if InstallStep(s, s', t) {
      InstallUntouched(s, s', t);
    } else {
      CertifyUntouched(s, s', t);
    }
  }

  lemma EndLists(s: State, s': State, t: nat)
    requires BaseInv(s) && t < |s.thr| && (OutcomeStep(s, s', t) || GcStep(s, s', t)) && s.clock <= s'.clock
    ensures ListsGrow(s, s')
  {
    if CommitOne(s, s', t) || AbortOne(s, s', t) {
      WriteFacts(s, t, s.thr[t].phase.i);
      OutcomeLists(s, s', t);
    } else if CommitPoint(s, s', t) {
      CommitPointLists(s, s', t);
    } else if GcDetach(s, s', t) || GcPushOne(s, s', t) {
      CollectionLists(s, s', t);
    } else if GcStep(s, s', t) {
      GcUntouched(s, s', t);
    } else {
      EndUntouched(s, s', t);
    }
  }

  lemma StepKeepsLists(s: State, s': State)
    requires Inv(s) && Next(s, s')
    ensures ListsGrow(s, s')
  {
    var t: nat :| StepBy(s, s', t);
    StepGrows(s, s', t);
    if ReadStep(s, s', t) || WriteStep(s, s', t) {
      AccessLists(s, s', t);
    } else if InstallStep(s, s', t) || CertifyStep(s, s', t) {
      ValidationLists(s, s', t);
    } else if OutcomeStep(s, s', t) || GcStep(s, s', t) {
      EndLists(s, s', t);
    } else if BeginStep(s, s', t) {
      BeginUntouched(s, s', t);
    } else if PrecheckStep(s, s', t) {
      PrecheckUntouched(s, s', t);
    } else {
      LeaderUntouched(s, s', t);
    }
  }

  lemma ListsGrowTwice(a: State, b: State, c: State)
    requires ListsGrow(a, b) && ListsGrow(b, c)
    ensures ListsGrow(a, c)
  {
    forall v: nat | v < |c.heap| && c.heap[v].place.Listed? ensures Remains(a, v, c.heap[v]) {
      assert Remains(b, v, c.heap[v]);
    }
  }

  /** A version that is listed later is listed now, with the same timestamp and at most as far
      decided, or is installed in between. */
  lemma ListedVersionsRemain(run: seq<State>, i: nat, j: nat)
    requires IsRun(run, Init, Next) && i <= j < |run|
    ensures ListsGrow(run[i], run[j])
  {
    forall s | Init(s) ensures Inv(s) {
      InitEstablishes(s);
      InitHistory(s);
    }
    forall s, s' | Inv(s) && Next(s, s') ensures Inv(s') && ListsGrow(s, s') {
      StepKeepsInv(s, s');
      StepKeepsLists(s, s');
    }
    forall a, b, c | ListsGrow(a, b) && ListsGrow(b, c) ensures ListsGrow(a, c) {
      ListsGrowTwice(a, b, c);
    }
    Ordered(run, Init, Next, Inv, ListsGrow, i, j);
  }

  // ---------------------------------------------------------- read timestamps

  /** Outside the pools, only committed versions have been read. */
  ghost predicate ReadIfCommitted(h: seq<Version>) {
    forall v | 0 <= v < |h| && !h[v].place.InPool? && h[v].rts > 0 :: h[v].status.Committed?
  }

  lemma OutcomeKeepsReads(s: State, s': State, t: nat)
    requires ReadIfCommitted(s.heap) && t < |s.thr| && (CommitOne(s, s', t) || AbortOne(s, s', t))
    requires WriteOk(s.heap, s.thr[t], t, s.thr[t].phase.i)
    ensures ReadIfCommitted(s'.heap)
  {
  }

  lemma RaiseKeepsReads(s: State, s': State, t: nat)
    requires ReadIfCommitted(s.heap) && t < |s.thr| && RaiseOne(s, s', t)
    requires ReadOk(s.heap, s.thr[t], s.thr[t].rset[s.thr[t].phase.i])
    ensures ReadIfCommitted(s'.heap)
  {
  }

  lemma MoveKeepsReads(s: State, s': State, t: nat)
    requires ReadIfCommitted(s.heap) && t < |s.thr|
    requires WriteAlloc(s, s', t) || CheckOk(s, s', t) || GcDetach(s, s', t) || GcPushOne(s, s', t)
    ensures ReadIfCommitted(s'.heap)
  {
  }

  lemma CasKeepsReads(s: State, s': State, t: nat)
    requires ReadIfCommitted(s.heap) && t < |s.thr| && (CasHead(s, s', t) || CasMiddle(s, s', t))
    requires !s.heap[s.thr[t].wset[s.thr[t].phase.i].ver].place.InPool?
    ensures ReadIfCommitted(s'.heap)
  {
  }

  lemma AccessKeepsHeap(s: State, s': State, t: nat)
    requires t < |s.thr| && (ReadStep(s, s', t) || WriteStep(s, s', t)) && !WriteAlloc(s, s', t)
    ensures s'.heap == s.heap
  {
    if WriteStep(s, s', t) {
      WriteUntouched(s, s', t);
    } else if !(ReadTake(s, s', t) && s.thr[t].ronly) {
      ReadUntouched(s, s', t);
    }
  }

  lemma ValidationKeepsHeap(s: State, s': State, t: nat)
    requires t < |s.thr| && (PrecheckStep(s, s', t) || InstallStep(s, s', t) || CertifyStep(s, s', t))
    requires !CasHead(s, s', t) && !CasMiddle(s, s', t) && !RaiseOne(s, s', t) && !CheckOk(s, s', t)
    ensures s'.heap == s.heap
  {
    if PrecheckStep(s, s', t) {
      PrecheckUntouched(s, s', t);
    } else if InstallStep(s, s', t) {
      InstallUntouched(s, s', t);
    } else {
      CertifyUntouched(s, s', t);
    }
  }

  lemma EndKeepsHeap(s: State, s': State, t: nat)
    requires t < |s.thr| && (OutcomeStep(s, s', t) || GcStep(s, s', t))
    requires !CommitOne(s, s', t) && !AbortOne(s, s', t) && !GcDetach(s, s', t) && !GcPushOne(s, s', t)
    ensures s'.heap == s.heap
  {
    if GcStep(s, s', t) {
      GcUntouched(s, s', t);
    } else if !CommitPoint(s, s', t) {
      EndUntouched(s, s', t);
    }
  }

  lemma StepKeepsReads(s: State, s': State)
    requires Inv(s) && Next(s, s') && ReadIfCommitted(s.heap)
    ensures ReadIfCommitted(s'.heap)
  {
    var t: nat :| StepBy(s, s', t);
    if CommitOne(s, s', t) || AbortOne(s, s', t) {
      WriteFacts(s, t, s.thr[t].phase.i);
      OutcomeKeepsReads(s, s', t);
    } else if RaiseOne(s, s', t) {
      ReadFacts(s, t, s.thr[t].phase.i);
      RaiseKeepsReads(s, s', t);
    } else if CasHead(s, s', t) || CasMiddle(s, s', t) {
      WriteFacts(s, t, s.thr[t].phase.i);
      CasKeepsReads(s, s', t);
    } else if WriteAlloc(s, s', t) || CheckOk(s, s', t) || GcDetach(s, s', t) || GcPushOne(s, s', t) {
      MoveKeepsReads(s, s', t);
    } else {
      StepKeepsHeap(s, s', t);
    }
  }

  /** The steps that change a version, for all others leave the heap alone. */
  ghost predicate ChangesVersion(s: State, s': State, t: nat)
    requires t < |s.thr|
  {
    || WriteAlloc(s, s', t) || CasHead(s, s', t) || CasMiddle(s, s', t) || RaiseOne(s, s', t) || CheckOk(s, s', t)
    || CommitOne(s, s', t) || AbortOne(s, s', t) || GcDetach(s, s', t) || GcPushOne(s, s', t)
  }

  lemma StepKeepsHeap(s: State, s': State, t: nat)
    requires TimesInv(s) && StepBy(s, s', t) && !ChangesVersion(s, s', t)
    ensures s'.heap == s.heap
  {
    if ReadStep(s, s', t) || WriteStep(s, s', t) {
      AccessKeepsHeap(s, s', t);
    } else if PrecheckStep(s, s', t) || InstallStep(s, s', t) || CertifyStep(s, s', t) {
      ValidationKeepsHeap(s, s', t);
    } else if OutcomeStep(s, s', t) || GcStep(s, s', t) {
      EndKeepsHeap(s, s', t);
    } else if BeginStep(s, s', t) {
      BeginUntouched(s, s', t);
    } else {
      LeaderUntouched(s, s', t);
    }
  }

  ghost predicate ReadInv(s: State) { Inv(s) && ReadIfCommitted(s.heap) }

  /** In every reachable state, a version outside the pools that carries a read timestamp is
      committed. */
  lemma OnlyCommittedAreRead(run: seq<State>, i: nat, v: nat)
    requires IsRun(run, Init, Next) && i < |run| && v < |run[i].heap| && !run[i].heap[v].place.InPool? && run[i].heap[v].rts > 0
    ensures run[i].heap[v].status.Committed?
  {
    forall s | Init(s) ensures ReadInv(s) {
      InitEstablishes(s);
      InitHistory(s);
      InitUnread(s);
    }
    forall s, s' | ReadInv(s) && Next(s, s') ensures ReadInv(s') {
      StepKeepsInv(s, s');
      StepKeepsReads(s, s');
    }
    Invariant(run, Init, Next, ReadInv, i);
  }

  lemma InitUnread(s: State)
    requires Init(s)
    ensures ReadIfCommitted(s.heap)
  {
  }
}
