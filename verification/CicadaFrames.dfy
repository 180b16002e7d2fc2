/** What a step of one thread leaves to another: its executor, the number of records and
    threads, and the versions it has cut off. */
module CicadaFrames {
  import opened SerialExecution
  import opened Cicada
  import opened CicadaInvariant
  import opened CicadaThreads
  import opened CicadaGrowth

  ghost predicate LeftTo(s: State, s': State, t: nat) {
    && |s'.thr| == |s.thr| && |s'.recs| == |s.recs| && |s.heap| <= |s'.heap|
    && t < |s.thr| && s'.thr[t] == s.thr[t]
    && forall v | 0 <= v < |s.heap| && s.heap[v].place == Detached(t) :: s'.heap[v] == s.heap[v]
  }

  lemma BeginsLeave(s: State, s': State, u: nat, t: nat)
    requires u < |s.thr| && t < |s.thr| && t != u && BeginStep(s, s', u)
    ensures LeftTo(s, s', t)
  {
  }

  lemma ReadsLeave(s: State, s': State, u: nat, t: nat)
    requires u < |s.thr| && t < |s.thr| && t != u && ReadStep(s, s', u)
    ensures LeftTo(s, s', t)
  {
  }

  lemma PrechecksLeave(s: State, s': State, u: nat, t: nat)
    requires u < |s.thr| && t < |s.thr| && t != u && PrecheckStep(s, s', u)
    ensures LeftTo(s, s', t)
  {
  }

  lemma LeaderLeaves(s: State, s': State, u: nat, t: nat)
    requires u < |s.thr| && t < |s.thr| && t != u && LeaderStep(s, s', u)
    ensures LeftTo(s, s', t)
  {
  }

  lemma WritesLeave(s: State, s': State, u: nat, t: nat)
    requires u < |s.thr| && t < |s.thr| && t != u && PrivateOk(s.heap, s.thr[u], u)
    requires WriteStep(s, s', u)
    ensures LeftTo(s, s', t)
  {
    if WriteAlloc(s, s', u) && s.thr[u].pool != [] {
      assert s.heap[s.thr[u].pool[|s.thr[u].pool| - 1]].place == InPool(u);
    }
  }

  lemma InstallsLeave(s: State, s': State, u: nat, t: nat)
    requires u < |s.thr| && t < |s.thr| && t != u && WriteSetOk(s.heap, s.thr[u], u, |s.recs|)
    requires InstallStep(s, s', u)
    ensures LeftTo(s, s', t)
  {
    if CasHead(s, s', u) || CasMiddle(s, s', u) {
      assert WriteOk(s.heap, s.thr[u], u, s.thr[u].phase.i);
    }
  }

  lemma RaiseLeaves(s: State, s': State, u: nat, t: nat)
    requires u < |s.thr| && t < |s.thr| && t != u && ReadSetOk(s.heap, s.thr[u], |s.recs|)
    requires RaiseOne(s, s', u)
    ensures LeftTo(s, s', t)
  {
    assert ReadOk(s.heap, s.thr[u], s.thr[u].rset[s.thr[u].phase.i]);
  }

  lemma CheckLeaves(s: State, s': State, u: nat, t: nat)
    requires u < |s.thr| && t < |s.thr| && t != u && WriteSetOk(s.heap, s.thr[u], u, |s.recs|)
    requires CheckOk(s, s', u)
    ensures LeftTo(s, s', t)
  {
    assert WriteOk(s.heap, s.thr[u], u, s.thr[u].phase.i);
  }

  lemma CertifiesLeave(s: State, s': State, u: nat, t: nat)
    requires u < |s.thr| && t < |s.thr| && t != u
    requires CertifyStep(s, s', u) && !RaiseOne(s, s', u) && !CheckOk(s, s', u)
    ensures LeftTo(s, s', t)
  {
  }

  lemma OutcomesLeave(s: State, s': State, u: nat, t: nat)
    requires u < |s.thr| && t < |s.thr| && t != u && WriteSetOk(s.heap, s.thr[u], u, |s.recs|)
    requires OutcomeStep(s, s', u)
    ensures LeftTo(s, s', t)
  {
    if CommitOne(s, s', u) || AbortOne(s, s', u) {
      assert WriteOk(s.heap, s.thr[u], u, s.thr[u].phase.i);
    }
  }

  lemma CollectionsLeave(s: State, s': State, u: nat, t: nat)
    requires u < |s.thr| && t < |s.thr| && t != u
    requires DetachedOk(s.heap, s.thr[u], u) && GcOk(s.heap, s.recs, s.thr[u], u, s.minRts)
    requires GcStep(s, s', u)
    ensures LeftTo(s, s', t)
  {
    if GcDetach(s, s', u) {
      assert EntryOk(s.heap, s.recs, s.thr[u].gcq[0]);
    }
  }

  /** Whatever another thread does next, executor `t` keeps its own data, and nobody
      touches what it has cut off. */
  lemma OthersLeave(s: State, s': State, u: nat, t: nat)
    requires BaseInv(s) && StepBy(s, s', u) && t < |s.thr| && t != u
    ensures LeftTo(s, s', t)
  {
    assert TxOk(s.heap, s.thr[u], u, |s.recs|) && GcOk(s.heap, s.recs, s.thr[u], u, s.minRts);
    if WriteStep(s, s', u) {
      WritesLeave(s, s', u, t);
    } else if InstallStep(s, s', u) {
      InstallsLeave(s, s', u, t);
    } else if RaiseOne(s, s', u) {
      RaiseLeaves(s, s', u, t);
    } else if CheckOk(s, s', u) {
      CheckLeaves(s, s', u, t);
    } else if CertifyStep(s, s', u) {
      CertifiesLeave(s, s', u, t);
    } else if OutcomeStep(s, s', u) {
      OutcomesLeave(s, s', u, t);
    } else if GcStep(s, s', u) {
      CollectionsLeave(s, s', u, t);
    } else if BeginStep(s, s', u) {
      BeginsLeave(s, s', u, t);
    } else if ReadStep(s, s', u) {
      ReadsLeave(s, s', u, t);
    } else if PrecheckStep(s, s', u) {
      PrechecksLeave(s, s', u, t);
    } else {
      LeaderLeaves(s, s', u, t);
    }
  }

  /** Only taking a version out of a pool gives it another timestamp. */
  lemma TimestampsStand(s: State, s': State, t: nat, v: int)
    requires BaseInv(s) && StepBy(s, s', t) && Valid(s.heap, v) && !s.heap[v].place.InPool?
    ensures Valid(s'.heap, v) && s'.heap[v].wts == s.heap[v].wts
  {
    ThreadOf(s, t);
    if WriteAlloc(s, s', t) || CasHead(s, s', t) || CasMiddle(s, s', t) || RaiseOne(s, s', t) || CheckOk(s, s', t) {
      ValidationStands(s, s', t, v);
    } else if CommitOne(s, s', t) || AbortOne(s, s', t) || GcDetach(s, s', t) || GcPushOne(s, s', t) {
      EndStands(s, s', t, v);
    } else {
      StepKeepsHeap(s, s', t);
    }
  }

  lemma ValidationStands(s: State, s': State, t: nat, v: int)
    requires t < |s.thr| && Valid(s.heap, v) && !s.heap[v].place.InPool? && PrivateOk(s.heap, s.thr[t], t)
    requires WriteAlloc(s, s', t) || CasHead(s, s', t) || CasMiddle(s, s', t) || RaiseOne(s, s', t) || CheckOk(s, s', t)
    ensures Valid(s'.heap, v) && s'.heap[v].wts == s.heap[v].wts
  {
  }

  lemma EndStands(s: State, s': State, t: nat, v: int)
    requires t < |s.thr| && Valid(s.heap, v)
    requires CommitOne(s, s', t) || AbortOne(s, s', t) || GcDetach(s, s', t) || GcPushOne(s, s', t)
    ensures Valid(s'.heap, v) && s'.heap[v].wts == s.heap[v].wts
  {
  }

  /** The version at which a read of executor `t` stands. */
  predicate Reading(p: Phase) { p.ReadSeek? || p.ReadWait? }

  ghost predicate SameCursor(s: State, s': State, t: nat)
    requires t < |s.thr|
  {
    Reading(s.thr[t].phase) && Valid(s.heap, s.thr[t].phase.cur) ==>
      Valid(s'.heap, s.thr[t].phase.cur) && s'.heap[s.thr[t].phase.cur].wts == s.heap[s.thr[t].phase.cur].wts
  }

  /** Whatever another thread does next, the version at which a read stands keeps its timestamp. */
  lemma OthersLeaveCursor(s: State, s': State, u: nat, t: nat)
    requires BaseInv(s) && StepBy(s, s', u) && t < |s.thr| && t != u
    ensures SameCursor(s, s', t)
  {
    ThreadOf(s, t);
    if Reading(s.thr[t].phase) {
      TimestampsStand(s, s', u, s.thr[t].phase.cur);
    }
  }
}
