/** What Cicada promises of whole runs, from the table they start with. */
module CicadaTheorems {
  import opened SerialExecution
  import opened Runs
  import opened Cicada
  import opened CicadaInvariant
  import opened CicadaHistory
  import opened CicadaSerializability

  lemma BeginKeepsInits(s: State, s': State, t: nat)
    requires t < |s.thr| && (BeginStep(s, s', t) || LeaderStep(s, s', t))
    ensures SameInits(s.recs, s'.recs)
  {
  }

  lemma AccessKeepsInits(s: State, s': State, t: nat)
    requires t < |s.thr| && (ReadStep(s, s', t) || WriteStep(s, s', t))
    ensures SameInits(s.recs, s'.recs)
  {
  }

  lemma PrecheckKeepsInits(s: State, s': State, t: nat)
    requires t < |s.thr| && PrecheckStep(s, s', t)
    ensures SameInits(s.recs, s'.recs)
  {
  }

  lemma InstallKeepsInits(s: State, s': State, t: nat)
    requires t < |s.thr| && InstallStep(s, s', t)
    ensures SameInits(s.recs, s'.recs)
  {
  }

  lemma CertifyKeepsInits(s: State, s': State, t: nat)
    requires t < |s.thr| && (CertifyStep(s, s', t) || OutcomeStep(s, s', t))
    ensures SameInits(s.recs, s'.recs)
  {
  }

  lemma GcKeepsInits(s: State, s': State, t: nat)
    requires t < |s.thr| && GcStep(s, s', t)
    ensures SameInits(s.recs, s'.recs)
  {
  }

  lemma StepKeepsInits(s: State, s': State, t: nat)
    requires StepBy(s, s', t)
    ensures SameInits(s.recs, s'.recs)
  {
    if BeginStep(s, s', t) || LeaderStep(s, s', t) {
      BeginKeepsInits(s, s', t);
    } else if ReadStep(s, s', t) || WriteStep(s, s', t) {
      AccessKeepsInits(s, s', t);
    } else if PrecheckStep(s, s', t) {
      PrecheckKeepsInits(s, s', t);
    } else if InstallStep(s, s', t) {
      InstallKeepsInits(s, s', t);
    } else if GcStep(s, s', t) {
      GcKeepsInits(s, s', t);
    } else {
      CertifyKeepsInits(s, s', t);
    }
  }

  /** The initial payloads are those the run starts with. */
  lemma {:induction false} InitsKept(run: seq<State>, i: nat)
    requires IsRun(run, Init, Next) && i < |run|
    ensures SameInits(run[0].recs, run[i].recs)
  {
    if i > 0 {
      InitsKept(run, i - 1);
      assert Next(run[i - 1], run[i]);
      var t: nat :| StepBy(run[i - 1], run[i], t);
      StepKeepsInits(run[i - 1], run[i], t);
    }
  }

  lemma SameStart(run: seq<State>, i: nat)
    requires IsRun(run, Init, Next) && i < |run|
    ensures InitialTable(run[i].recs) == InitialTable(run[0].recs)
  {
    InitsKept(run, i);
  }

  /** In every reachable state, the committed read-write transactions are equivalent, from the
      table the run starts with, to their serial execution in timestamp order. */
  lemma CicadaSerializable(run: seq<State>, i: nat)
    requires IsRun(run, Init, Next) && i < |run|
    ensures Serializable(InitialTable(run[0].recs), run[i].commits)
  {
    SameStart(run, i);
    CommitsSerializable(run, i);
  }

  /** Snapshots are stable: whatever is committed later, each state's snapshot reads agree
      with one serial execution from the start, cut at the snapshot. */
  lemma SnapshotsSerializable(run: seq<State>, i: nat) returns (order: seq<Stamp>)
    requires IsRun(run, Init, Next) && i < |run|
    ensures SnapshotsServed(InitialTable(run[0].recs), run[i].commits, order, run[i].snaps)
    ensures SerialRun(InitialTable(run[0].recs), SerialExecution.Listed(order, run[i].commits))
  {
    SameStart(run, i);
    order := SnapshotsAgree(run, i);
  }

  /** `v` is the newest committed version of the record. */
  ghost predicate Newest(s: State, k: Key, v: int) {
    && On(s.heap, v, k) && s.heap[v].status.Committed?
    && forall u: int | On(s.heap, u, k) && s.heap[u].status.Committed? :: s.heap[u].wts <= s.heap[v].wts
  }

  ghost predicate NobodySettling(s: State) {
    forall t | 0 <= t < |s.thr| :: !s.thr[t].phase.Committing?
  }

  /** A version stamped by a committed transaction is not pending any more. */
  lemma NotPending(s: State, u: int, x: Stamp)
    requires Inv(s) && OnList(s.heap, u) && NobodySettling(s)
    requires x in s.commits && x.minor == 0 && s.heap[u].wts == x.major
    ensures !s.heap[u].status.Pending?
  {
    if s.heap[u].status.Pending? {
      PendingOwner(s, u);
    }
  }

  lemma BottomCommitted(s: State, k: Key)
    requires Inv(s) && k < |s.recs|
    ensures On(s.heap, s.recs[k].bottom, k) && s.heap[s.recs[k].bottom].status.Committed?
  {
    assert ListInv(s.heap, s.recs[k], k);
  }

  /** What a committed transaction wrote is a committed version, or below the oldest kept. */
  lemma WrittenVersion(s: State, k: Key, x: Stamp) returns (u: int)
    requires Inv(s) && k < |s.recs| && NobodySettling(s) && x in s.commits && k in s.commits[x].writeSet
    ensures x.minor == 0 && s.initTs < x.major
    ensures On(s.heap, u, k) && s.heap[u].status.Committed? && x.major <= s.heap[u].wts
  {
    assert StampOk(x, s.thr, s.initTs);
    assert WriteRecorded(s.heap, s.recs, k, x.major);
    BottomCommitted(s, k);
    u := s.recs[k].bottom;
    if s.heap[u].wts <= x.major {
      u :| On(s.heap, u, k) && s.heap[u].wts == x.major && s.heap[u].passed && !s.heap[u].status.Aborted?;
      NotPending(s, u, x);
      assert VersionOk(s.heap[u], s.clock, |s.recs|, |s.thr|);
    }
  }

  /** With nobody settling versions, the newest committed version of a record holds what the
      serial execution of all committed transactions leaves there. */
  lemma TableIsSerial(run: seq<State>, i: nat, order: seq<Stamp>, k: Key, v: int)
    requires IsRun(run, Init, Next) && i < |run| && k < |run[i].recs| && Enumerates(order, run[i].commits)
    requires Newest(run[i], k, v) && NobodySettling(run[i])
    ensures var table := Replay(InitialTable(run[0].recs), SerialExecution.Listed(order, run[i].commits));
            k in table && run[i].heap[v].val == table[k]
  {
    RunKeepsInv(run, i);
    SameStart(run, i);
    NewestIsLast(run[i], k, v);
    LeftBehind(InitialTable(run[i].recs), run[i].commits, order, k, run[i].heap[v].val);
  }

  lemma NewestIsLast(s: State, k: Key, v: int)
    requires Inv(s) && k < |s.recs| && Newest(s, k, v) && NobodySettling(s)
    ensures var w := Stamp(s.heap[v].wts, 0);
            || (NeverWritten(s.commits, k) && s.recs[k].init == s.heap[v].val)
            || (LastWriter(s.commits, k, w) && s.commits[w].writeSet[k] == s.heap[v].val)
  {
    assert Source(s.recs, s.initTs, s.commits, k, s.heap[v].wts, s.heap[v].val);
    forall x | x in s.commits && k in s.commits[x].writeSet
      ensures x.minor == 0 && s.initTs < x.major <= s.heap[v].wts
    {
      var u := WrittenVersion(s, k, x);
    }
  }

  /** Every record has a newest committed version. */
  lemma NewestExists(run: seq<State>, i: nat, k: Key) returns (v: int)
    requires IsRun(run, Init, Next) && i < |run| && k < |run[i].recs|
    ensures Newest(run[i], k, v)
  {
    RunKeepsInv(run, i);
    var s := run[i];
    assert ListInv(s.heap, s.recs[k], k);
    v := NewestFrom(s, k, s.recs[k].bottom, |s.heap|);
  }

  lemma {:induction false} NewestFrom(s: State, k: Key, b: int, n: nat) returns (v: int)
    requires On(s.heap, b, k) && s.heap[b].status.Committed? && n <= |s.heap|
    ensures On(s.heap, v, k) && s.heap[v].status.Committed?
    ensures s.heap[b].wts <= s.heap[v].wts
    ensures forall u: int | u < n && On(s.heap, u, k) && s.heap[u].status.Committed? :: s.heap[u].wts <= s.heap[v].wts
  {
    if n == 0 {
      v := b;
    } else {
      v := NewestFrom(s, k, b, n - 1);
      if On(s.heap, n - 1, k) && s.heap[n - 1].status.Committed? && s.heap[n - 1].wts > s.heap[v].wts {
        v := n - 1;
      }
    }
  }
}
