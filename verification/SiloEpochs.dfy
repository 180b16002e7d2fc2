/** The epoch protocol of Silo: how far workers can lag, and what epoch a
    transaction and its TID belong to. */
module SiloEpochs {
  import opened SerialExecution
  import opened Runs
  import opened Silo
  import Safety = SiloSafety

  predicate Published(p: Phase) { p.Validating? || p.Writing? || p.Stored? }

  /** No TID a transaction has met is newer than the epoch it commits in. */
  ghost predicate TidsWithin(tx: Tx, bound: nat) {
    && tx.maxW.major <= bound && tx.maxR.major <= bound && tx.mrctid.major <= bound
    && (forall j | 0 <= j < |tx.rset| :: tx.rset[j].tid.major <= bound)
    && (tx.phase.Loaded? || tx.phase.Copied? ==> tx.phase.expected.tid.major <= bound)
    && (tx.phase.UnlockLoaded? ==> tx.phase.word.tid.major <= bound)
  }

  ghost predicate WorkerInv(tx: Tx, t: nat, globalEpoch: nat, localEpoch: seq<nat>, loads: map<nat, nat>)
    requires t < |localEpoch|
  {
    && localEpoch[t] <= globalEpoch
    && (t >= 1 ==> globalEpoch <= localEpoch[t] + 1)
    && (Safety.Placed(tx.phase) ==>
          localEpoch[t] <= tx.epoch <= globalEpoch && tx.ser in loads && loads[tx.ser] == tx.epoch)
    && (Published(tx.phase) ==> localEpoch[t] == tx.epoch)
    && (t == 0 && Safety.Placed(tx.phase) ==> tx.epoch == globalEpoch)
    && (tx.phase.Writing? || tx.phase.Stored? ==> tx.mrctid.major == tx.epoch)
    && (tx.phase.Scanning? ==>
          && t == 0 && tx.phase.now == globalEpoch && 1 <= tx.phase.i
          && forall j | 1 <= j < tx.phase.i && j < |localEpoch| :: localEpoch[j] == tx.phase.now)
    && TidsWithin(tx, if Safety.Placed(tx.phase) then tx.epoch else globalEpoch)
  }

  ghost predicate LoadsInv(loads: map<nat, nat>, clock: nat, globalEpoch: nat) {
    && (forall a | a in loads :: a < clock && loads[a] <= globalEpoch)
    && (forall a, b | a in loads && b in loads && a < b :: loads[a] <= loads[b])
  }

  ghost predicate TupleEpochs(tup: Tuple, globalEpoch: nat, loads: map<nat, nat>) {
    && tup.word.tid.major <= globalEpoch
    && forall j | 1 <= j < |tup.versions| ::
         tup.versions[j].ser in loads && tup.versions[j].tid.major == loads[tup.versions[j].ser]
  }

  ghost predicate EpochInv(s: State) {
    && |s.localEpoch| == |s.txs| && s.globalEpoch >= 1
    && LoadsInv(s.loads, s.clock, s.globalEpoch)
    && (forall st | st in s.commits :: st.major in s.loads && st.minor == 0)
    && (forall t | 0 <= t < |s.txs| :: WorkerInv(s.txs[t], t, s.globalEpoch, s.localEpoch, s.loads))
    && (forall k | 0 <= k < |s.table| :: TupleEpochs(s.table[k], s.globalEpoch, s.loads))
  }

  // ------------------------------------------------------------ preservation

  /** Steps that touch no epoch: only executor `t`, the tuples and the clock change. */
  lemma FrameEpochs(s: State, s': State, t: nat)
    requires EpochInv(s) && t < |s.txs| && |s'.txs| == |s.txs| && s'.txs == s.txs[t := s'.txs[t]]
    requires s'.globalEpoch == s.globalEpoch && s'.localEpoch == s.localEpoch && s'.loads == s.loads
    requires s'.clock >= s.clock
    requires forall st | st in s'.commits :: st in s.commits || st == Stamp(s.txs[t].ser, 0)
    requires s'.commits != s.commits ==> Safety.Placed(s.txs[t].phase)
    requires WorkerInv(s'.txs[t], t, s.globalEpoch, s.localEpoch, s.loads)
    requires forall k | 0 <= k < |s'.table| :: TupleEpochs(s'.table[k], s.globalEpoch, s.loads)
    ensures EpochInv(s')
  {
    assert WorkerInv(s.txs[t], t, s.globalEpoch, s.localEpoch, s.loads);
  }

  lemma ReadWordEpochs(s: State, s': State, t: nat)
    requires EpochInv(s) && t < |s.txs|
    requires ReadLoad(s, s', t) || ReadCopy(s, s', t) || ReadAgain(s, s', t) || ReadDone(s, s', t)
    ensures EpochInv(s')
  {
    assert WorkerInv(s.txs[t], t, s.globalEpoch, s.localEpoch, s.loads);
    assert s.txs[t].phase.key < |s.table|;
    assert TupleEpochs(s.table[s.txs[t].phase.key], s.globalEpoch, s.loads);
    FrameEpochs(s, s', t);
  }

  lemma AccessEpochs(s: State, s': State, t: nat, k: Key, v: Val)
    requires EpochInv(s) && t < |s.txs|
    requires Begin(s, s', t) || ReadStart(s, s', t, k) || Write(s, s', t, k, v)
    ensures EpochInv(s')
  {
    assert WorkerInv(s.txs[t], t, s.globalEpoch, s.localEpoch, s.loads);
    FrameEpochs(s, s', t);
  }

  lemma ReadPhaseEpochs(s: State, s': State, t: nat)
    requires EpochInv(s) && t < |s.txs| && ReadPhaseStep(s, s', t)
    ensures EpochInv(s')
  {
    if k :| ReadStart(s, s', t, k) {
      AccessEpochs(s, s', t, k, 0);
    } else if k, v :| Write(s, s', t, k, v) {
      AccessEpochs(s, s', t, k, v);
    } else if Begin(s, s', t) {
      AccessEpochs(s, s', t, 0, 0);
    } else {
      ReadWordEpochs(s, s', t);
    }
  }

  lemma LockingEpochs(s: State, s': State, t: nat)
    requires EpochInv(s) && t < |s.txs|
    requires || (exists sorted :: SortWrites(s, s', t, sorted)) || LockOne(s, s', t) || LockFail(s, s', t)
             || UnlockLoad(s, s', t) || UnlockStore(s, s', t) || Aborted(s, s', t)
    ensures EpochInv(s')
  {
    assert WorkerInv(s.txs[t], t, s.globalEpoch, s.localEpoch, s.loads);
    forall k | 0 <= k < |s'.table| ensures TupleEpochs(s'.table[k], s.globalEpoch, s.loads) {
      assert TupleEpochs(s.table[k], s.globalEpoch, s.loads);
    }
    FrameEpochs(s, s', t);
  }

  lemma ValidateEpochs(s: State, s': State, t: nat)
    requires EpochInv(s) && t < |s.txs| && (ValidateOk(s, s', t) || ValidateFail(s, s', t) || Finish(s, s', t))
    ensures EpochInv(s')
  {
    assert WorkerInv(s.txs[t], t, s.globalEpoch, s.localEpoch, s.loads);
    FrameEpochs(s, s', t);
  }

  /** The commit TID belongs to exactly the worker's published epoch: nothing read or
      written, and no earlier TID of the worker, can raise it. */
  lemma CommitTidEpoch(tx: Tx, epoch: nat)
    requires TidsWithin(tx, epoch)
    ensures CommitTid(tx, epoch).major == epoch
  {
  }

  lemma CommitEpochs(s: State, s': State, t: nat)
    requires EpochInv(s) && t < |s.txs| && Commit(s, s', t)
    ensures EpochInv(s') && s'.txs[t].mrctid.major == s.localEpoch[t]
  {
    assert WorkerInv(s.txs[t], t, s.globalEpoch, s.localEpoch, s.loads);
    CommitTidEpoch(s.txs[t], s.localEpoch[t]);
    FrameEpochs(s, s', t);
  }

  lemma StoreEpochs(s: State, s': State, t: nat)
    requires EpochInv(s) && t < |s.txs| && (StorePayload(s, s', t) || StoreWord(s, s', t))
    ensures EpochInv(s')
  {
    assert WorkerInv(s.txs[t], t, s.globalEpoch, s.localEpoch, s.loads);
    forall k | 0 <= k < |s'.table| ensures TupleEpochs(s'.table[k], s.globalEpoch, s.loads) {
      assert TupleEpochs(s.table[k], s.globalEpoch, s.loads);
    }
    FrameEpochs(s, s', t);
  }

  lemma LoadEpochEpochs(s: State, s': State, t: nat)
    requires EpochInv(s) && t < |s.txs| && LoadEpoch(s, s', t)
    ensures EpochInv(s')
  {
    assert WorkerInv(s.txs[t], t, s.globalEpoch, s.localEpoch, s.loads);
    forall u | 0 <= u < |s'.txs| ensures WorkerInv(s'.txs[u], u, s'.globalEpoch, s'.localEpoch, s'.loads) {
      assert WorkerInv(s.txs[u], u, s.globalEpoch, s.localEpoch, s.loads);
    }
    forall k | 0 <= k < |s'.table| ensures TupleEpochs(s'.table[k], s'.globalEpoch, s'.loads) {
      assert TupleEpochs(s.table[k], s.globalEpoch, s.loads);
    }
  }

  /** The store may come long after the load; the leader cannot have moved on twice. */
  lemma StoreEpochEpochs(s: State, s': State, t: nat)
    requires EpochInv(s) && t < |s.txs| && StoreEpoch(s, s', t)
    ensures EpochInv(s')
  {
    assert WorkerInv(s.txs[t], t, s.globalEpoch, s.localEpoch, s.loads);
    forall u | 0 <= u < |s'.txs| ensures WorkerInv(s'.txs[u], u, s'.globalEpoch, s'.localEpoch, s'.loads) {
      assert WorkerInv(s.txs[u], u, s.globalEpoch, s.localEpoch, s.loads);
    }
  }

  lemma ScanEpochs(s: State, s': State, t: nat)
    requires EpochInv(s) && t < |s.txs| && (ScanStart(s, s', t) || ScanNext(s, s', t))
    ensures EpochInv(s')
  {
    assert WorkerInv(s.txs[t], t, s.globalEpoch, s.localEpoch, s.loads);
    FrameEpochs(s, s', t);
  }

  /** Although the scan is not atomic, all other workers have published the current
      epoch when it completes. */
  lemma ScanComplete(s: State, t: nat, u: nat)
    requires EpochInv(s) && t < |s.txs| && s.txs[t].phase.Scanning? && s.txs[t].phase.i >= |s.localEpoch|
    requires 1 <= u < |s.txs|
    ensures s.localEpoch[u] == s.globalEpoch
  {
    assert WorkerInv(s.txs[t], t, s.globalEpoch, s.localEpoch, s.loads);
  }

  lemma AddEpochEpochs(s: State, s': State, t: nat)
    requires EpochInv(s) && t < |s.txs| && AddEpoch(s, s', t)
    ensures EpochInv(s')
  {
    assert WorkerInv(s.txs[t], t, s.globalEpoch, s.localEpoch, s.loads);
    forall u | 0 <= u < |s'.txs| ensures WorkerInv(s'.txs[u], u, s'.globalEpoch, s'.localEpoch, s'.loads) {
      assert WorkerInv(s.txs[u], u, s.globalEpoch, s.localEpoch, s.loads);
      if u >= 1 {
        ScanComplete(s, t, u);
      }
    }
    forall k | 0 <= k < |s'.table| ensures TupleEpochs(s'.table[k], s'.globalEpoch, s'.loads) {
      assert TupleEpochs(s.table[k], s.globalEpoch, s.loads);
    }
  }

  lemma ValidationEpochs(s: State, s': State, t: nat)
    requires EpochInv(s) && t < |s.txs| && ValidationStep(s, s', t)
    ensures EpochInv(s')
  {
    if LoadEpoch(s, s', t) {
      LoadEpochEpochs(s, s', t);
    } else if StoreEpoch(s, s', t) {
      StoreEpochEpochs(s, s', t);
    } else if ValidateOk(s, s', t) || ValidateFail(s, s', t) {
      ValidateEpochs(s, s', t);
    } else {
      LockingEpochs(s, s', t);
    }
  }

  lemma StepKeepsEpochs(s: State, s': State)
    requires EpochInv(s) && Next(s, s')
    ensures EpochInv(s')
  {
    var t: nat :| StepBy(s, s', t);
    if ReadPhaseStep(s, s', t) {
      ReadPhaseEpochs(s, s', t);
    } else if ValidationStep(s, s', t) {
      ValidationEpochs(s, s', t);
    } else if AddEpoch(s, s', t) {
      AddEpochEpochs(s, s', t);
    } else if LeaderStep(s, s', t) {
      ScanEpochs(s, s', t);
    } else if Commit(s, s', t) {
      CommitEpochs(s, s', t);
    } else if Finish(s, s', t) {
      ValidateEpochs(s, s', t);
    } else {
      StoreEpochs(s, s', t);
    }
  }

  lemma RunKeepsEpochs(run: seq<State>, i: nat)
    requires IsRun(run, Init, Next) && i < |run|
    ensures EpochInv(run[i])
  {
    forall s | Init(s) ensures EpochInv(s) {
    }
    forall s, s' | EpochInv(s) && Next(s, s') ensures EpochInv(s') {
      StepKeepsEpochs(s, s');
    }
    Invariant(run, Init, Next, EpochInv, i);
  }

  // ---------------------------------------------------------------- theorems

  /** Workers never lag the global epoch by more than one, although publishing an
      epoch takes two steps and the leader's scan many; and worker 0, which the scan
      skips, always commits in the current epoch. */
  lemma EpochBound(run: seq<State>, i: nat, t: nat)
    requires IsRun(run, Init, Next) && i < |run| && t < |run[i].txs|
    ensures |run[i].localEpoch| == |run[i].txs|
    ensures t >= 1 ==> run[i].globalEpoch - 1 <= run[i].localEpoch[t] <= run[i].globalEpoch
    ensures t == 0 && Published(run[i].txs[0].phase) ==> run[i].localEpoch[0] == run[i].globalEpoch
  {
    RunKeepsEpochs(run, i);
    assert WorkerInv(run[i].txs[t], t, run[i].globalEpoch, run[i].localEpoch, run[i].loads);
  }

  /** Every installed TID carries the epoch its writer loaded. */
  lemma InstalledEpoch(run: seq<State>, i: nat, k: Key, j: nat)
    requires IsRun(run, Init, Next) && i < |run| && k < |run[i].table| && 1 <= j < |run[i].table[k].versions|
    ensures var v := run[i].table[k].versions[j];
            v.ser in run[i].loads && v.tid.major == run[i].loads[v.ser]
  {
    RunKeepsEpochs(run, i);
    assert TupleEpochs(run[i].table[k], run[i].globalEpoch, run[i].loads);
  }

  /** The serial order respects epochs: along every write-read, write-write and
      anti-dependency edge the epoch does not decrease. */
  lemma EdgesRespectEpochs(run: seq<State>, i: nat, a: Stamp, b: Stamp, k: Key)
    requires IsRun(run, Init, Next) && i < |run|
    requires var s := run[i];
             Safety.WriteRead(s, a, b, k) || Safety.WriteWrite(s, a, b, k) || Safety.ReadWrite(s, a, b, k)
    ensures a.major in run[i].loads && b.major in run[i].loads
    ensures Before(a, b) && run[i].loads[a.major] <= run[i].loads[b.major]
  {
    RunKeepsEpochs(run, i);
    Safety.RunKeepsInv(run, i);
    Safety.EdgesForward(run[i], a, b, k);
  }
}
