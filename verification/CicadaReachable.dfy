/** The invariant holds in every reachable state, and what it says about version lists,
    garbage collection, reuse of versions and waiting. */
module CicadaReachable {
  import opened SerialExecution
  import opened Cicada
  import opened CicadaInvariant
  import opened CicadaThreads
  import opened CicadaBeginning
  import opened CicadaSearches
  import opened CicadaValidation
  import opened CicadaVersions
  import opened CicadaOutcome
  import opened CicadaAllocation
  import opened CicadaInsertion
  import opened CicadaCollection

  lemma BeginStepKeeps(s: State, s': State, t: nat)
    requires BaseInv(s) && t < |s.thr| && BeginStep(s, s', t)
    ensures BaseInv(s')
  {
    if StoreWts(s, s', t) {
      StoreWtsKeeps(s, s', t);
    } else if LoadMinWts(s, s', t) {
      LoadMinWtsKeeps(s, s', t);
    } else if StoreRts(s, s', t) {
      StoreRtsKeeps(s, s', t);
    } else {
      var ts: nat, ronly :| Generate(s, s', t, ts, ronly);
      GenerateKeeps(s, s', t, ts, ronly);
    }
  }

  lemma ReadStepKeeps(s: State, s': State, t: nat)
    requires BaseInv(s) && t < |s.thr| && ReadStep(s, s', t)
    ensures BaseInv(s')
  {
    if ReadNext(s, s', t) {
      ReadNextKeeps(s, s', t);
    } else if ReadReach(s, s', t) {
      ReadReachKeeps(s, s', t);
    } else if ReadDown(s, s', t) {
      ReadDownKeeps(s, s', t);
    } else if ReadTake(s, s', t) {
      if s.thr[t].ronly {
        SnapTakeKeeps(s, s', t);
      } else {
        ReadTakeKeeps(s, s', t);
      }
    } else if ReadOnlyEnd(s, s', t) {
      ReadOnlyEndKeeps(s, s', t);
    } else {
      var k: Key :| ReadStart(s, s', t, k);
      ReadStartKeeps(s, s', t, k);
    }
  }

  lemma WriteStepKeeps(s: State, s': State, t: nat)
    requires BaseInv(s) && t < |s.thr| && WriteStep(s, s', t)
    ensures BaseInv(s')
  {
    if WriteNext(s, s', t) {
      WriteNextKeeps(s, s', t);
    } else if WriteReach(s, s', t) || WriteAbort(s, s', t) {
      WriteReachKeeps(s, s', t);
    } else if WriteAlloc(s, s', t) {
      WriteAllocKeeps(s, s', t);
    } else {
      var k: Key, new_ :| WriteStart(s, s', t, k, new_) || WriteStartRmw(s, s', t, k, new_);
      WriteStartKeeps(s, s', t, k, new_);
    }
  }

  lemma PrecheckStepKeeps(s: State, s': State, t: nat)
    requires BaseInv(s) && t < |s.thr| && PrecheckStep(s, s', t)
    ensures BaseInv(s')
  {
    if PreSkip(s, s', t) || PreRmw(s, s', t) || PreReach(s, s', t) || PreJudge(s, s', t) {
      PreMoveKeeps(s, s', t);
    } else if PreStart(s, s', t) {
      PreStartKeeps(s, s', t);
    } else if PreNext(s, s', t) {
      PreNextKeeps(s, s', t);
    } else if PreDown(s, s', t) {
      PreDownKeeps(s, s', t);
    } else {
      var sorted :| ValidateStart(s, s', t, sorted);
      ValidateStartKeeps(s, s', t, sorted);
    }
  }

  lemma InstallStepKeeps(s: State, s': State, t: nat)
    requires BaseInv(s) && t < |s.thr| && InstallStep(s, s', t)
    ensures BaseInv(s')
  {
    if InstallLoadRmw(s, s', t) {
      InstallLoadRmwKeeps(s, s', t);
    } else if InstallLoad(s, s', t) {
      InstallLoadKeeps(s, s', t);
    } else if InstallNext(s, s', t) {
      InstallNextKeeps(s, s', t);
    } else if CasHead(s, s', t) || CasMiddle(s, s', t) {
      CasKeeps(s, s', t);
    } else if InstallEnd(s, s', t) {
      InstallEndKeeps(s, s', t);
    } else {
      InstallMoveKeeps(s, s', t);
    }
  }

  lemma CertifyStepKeeps(s: State, s': State, t: nat)
    requires BaseInv(s) && t < |s.thr| && CertifyStep(s, s', t)
    ensures BaseInv(s')
  {
    if RaiseOne(s, s', t) {
      RaiseOneKeeps(s, s', t);
    } else if RaiseEnd(s, s', t) {
      RaiseEndKeeps(s, s', t);
    } else if ScanStart(s, s', t) {
      ScanStartKeeps(s, s', t);
    } else if ScanNext(s, s', t) {
      ScanNextKeeps(s, s', t);
    } else if ScanReach(s, s', t) {
      ScanReachKeeps(s, s', t);
    } else if ScanDown(s, s', t) {
      ScanDownKeeps(s, s', t);
    } else if ScanJudge(s, s', t) {
      ScanJudgeKeeps(s, s', t);
    } else if ScanEnd(s, s', t) {
      ScanEndKeeps(s, s', t);
    } else if CheckStart(s, s', t) {
      CheckStartKeeps(s, s', t);
    } else if CheckDown(s, s', t) {
      CheckDownKeeps(s, s', t);
    } else if CheckOk(s, s', t) {
      CheckOkKeeps(s, s', t);
    } else {
      CheckFailKeeps(s, s', t);
    }
  }

  lemma OutcomeStepKeeps(s: State, s': State, t: nat)
    requires BaseInv(s) && t < |s.thr| && OutcomeStep(s, s', t)
    ensures BaseInv(s')
  {
    if CommitPoint(s, s', t) {
      CommitPointKeeps(s, s', t);
    } else if CommitOne(s, s', t) {
      CommitOneKeeps(s, s', t);
    } else if AbortOne(s, s', t) {
      AbortOneKeeps(s, s', t);
    } else {
      EndKeeps(s, s', t);
    }
  }

  lemma GcStepKeeps(s: State, s': State, t: nat)
    requires BaseInv(s) && t < |s.thr| && GcStep(s, s', t)
    ensures BaseInv(s')
  {
    if MaintEnd(s, s', t) {
      MaintEndKeeps(s, s', t);
    } else if GcBusy(s, s', t) {
      GcBusyKeeps(s, s', t);
    } else if GcLock(s, s', t) {
      GcLockKeeps(s, s', t);
    } else if GcLoad(s, s', t) {
      GcLoadKeeps(s, s', t);
    } else if GcDetach(s, s', t) {
      GcDetachKeeps(s, s', t);
    } else if GcTag(s, s', t) {
      GcTagKeeps(s, s', t);
    } else if GcPushOne(s, s', t) {
      GcPushKeeps(s, s', t);
    } else {
      GcReleaseKeeps(s, s', t);
    }
  }

  lemma LeaderStepKeeps(s: State, s': State, t: nat)
    requires BaseInv(s) && t < |s.thr| && LeaderStep(s, s', t)
    ensures BaseInv(s')
  {
    if PublishWts(s, s', t) {
      PublishWtsKeeps(s, s', t);
    } else if PublishRts(s, s', t) {
      PublishRtsKeeps(s, s', t);
    } else {
      LeadLocalKeeps(s, s', t);
    }
  }

  lemma StepKeepsBase(s: State, s': State, t: nat)
    requires BaseInv(s) && StepBy(s, s', t)
    ensures BaseInv(s')
  {
    if BeginStep(s, s', t) {
      BeginStepKeeps(s, s', t);
    } else if ReadStep(s, s', t) {
      ReadStepKeeps(s, s', t);
    } else if WriteStep(s, s', t) {
      WriteStepKeeps(s, s', t);
    } else if PrecheckStep(s, s', t) {
      PrecheckStepKeeps(s, s', t);
    } else if InstallStep(s, s', t) {
      InstallStepKeeps(s, s', t);
    } else if CertifyStep(s, s', t) {
      CertifyStepKeeps(s, s', t);
    } else if OutcomeStep(s, s', t) {
      OutcomeStepKeeps(s, s', t);
    } else if GcStep(s, s', t) {
      GcStepKeeps(s, s', t);
    } else {
      LeaderStepKeeps(s, s', t);
    }
  }

  // ------------------------------------------------------------ initial states

  lemma InitLists(s: State)
    requires Init(s)
    ensures ListsInv(s)
  {
    forall k | 0 <= k < |s.recs|
      ensures ListInv(s.heap, s.recs[k], k) && RecordOk(s.heap, s.recs[k], s.initTs, s.minRts, |s.thr|)
    {
      forall v: int | On(s.heap, v, k) ensures v == k {
        assert v < |s.recs|;
      }
    }
  }

  lemma InitThread(s: State, t: nat)
    requires Init(s) && t < |s.thr|
    ensures ThreadInv(s.heap, s.recs, s.thr[t], t, s.minRts)
  {
    QuietSets(s.heap, s.thr[t], t, |s.recs|);
    forall v | 0 <= v < |s.heap|
      ensures s.heap[v].place.Listed? ==> s.heap[v].wts == s.initTs && s.heap[v].status.Committed?
      ensures s.heap[v].place == InPool(t) ==> v in s.thr[t].pool
      ensures s.heap[v].place != InWriteSet(t) && s.heap[v].place != Detached(t)
    {
      if v < |s.recs| {
        assert s.heap[v].place == Listed(v);
      }
    }
  }

  lemma InitEstablishes(s: State)
    requires Init(s)
    ensures BaseInv(s)
  {
    InitLists(s);
    forall t | 0 <= t < |s.thr| ensures ThreadInv(s.heap, s.recs, s.thr[t], t, s.minRts) {
      InitThread(s, t);
    }
  }
}
