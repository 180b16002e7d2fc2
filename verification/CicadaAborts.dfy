/** Why a transaction of Cicada may abort: in every run, each step that dooms one finds that
    somebody later is in its way.  What is in nobody's way goes on. */
module CicadaAborts {
  import opened SerialExecution
  import opened Runs
  import opened Cicada
  import opened CicadaInvariant
  import opened CicadaThreads
  import opened CicadaSearches
  import opened CicadaValidation
  import opened CicadaSerializability
  import opened CicadaGrowth

  /** A version committed between the one read and the transaction. */
  ghost predicate Overwritten(h: seq<Version>, r: ReadElement, ts: nat) {
    exists v: int :: On(h, v, r.key) && h[v].status.Committed? && r.wts < h[v].wts < ts
  }

  /** The newest version of the record is newer than the transaction. */
  ghost predicate NewerHead(s: State, k: Key, ts: nat) {
    k < |s.recs| && Valid(s.heap, s.recs[k].latest) && s.heap[s.recs[k].latest].wts > ts
  }

  /** Version `v`, committed and older than the transaction, has been read strictly later. */
  ghost predicate ReadLater(h: seq<Version>, k: Key, ts: nat, v: int) {
    On(h, v, k) && h[v].status.Committed? && h[v].wts < ts < h[v].rts
  }

  /** The write would overtake such a version; once it is installed, what lies between the
      two is aborted or was installed after it. */
  ghost predicate Overtakes(h: seq<Version>, e: WriteElement, ts: nat, installed: bool) {
    exists v: int :: ReadLater(h, e.key, ts, v) && (installed ==> CheckedTo(h, e.key, e.ver, v))
  }

  /** What justifies that a transaction aborts, before and after its writes are installed. */
  ghost predicate Doomed(s: State, tx: Executor, installed: bool) {
    || (exists j :: 0 <= j < |tx.rset| && Overwritten(s.heap, tx.rset[j], tx.ts))
    || (exists j :: 0 <= j < |tx.wset| && tx.wset[j].rmw && NewerHead(s, tx.wset[j].key, tx.ts))
    || (exists j :: 0 <= j < |tx.wset| && Overtakes(s.heap, tx.wset[j], tx.ts, installed))
  }

  /** The same read set, and the same writes up to where they are to be installed. */
  predicate Kept(a: Executor, b: Executor) {
    && b.ts == a.ts && b.rset == a.rset && |b.wset| == |a.wset|
    && forall j | 0 <= j < |a.wset| :: SameWrite(a.wset[j], b.wset[j])
  }

  predicate SameWrite(e: WriteElement, f: WriteElement) {
    f.key == e.key && f.ver == e.ver && f.rmw == e.rmw
  }

  /** The same read set and the same writes in some order. */
  predicate Reordered(a: Executor, b: Executor) {
    && b.ts == a.ts && b.rset == a.rset && |b.wset| == |a.wset|
    && forall j | 0 <= j < |a.wset| :: Among(a.wset[j], b.wset)
  }

  predicate Among(e: WriteElement, ws: seq<WriteElement>) {
    exists j :: 0 <= j < |ws| && SameWrite(e, ws[j])
  }

  lemma KeptReordered(a: Executor, b: Executor)
    requires Kept(a, b)
    ensures Reordered(a, b)
  {
    forall j | 0 <= j < |a.wset| ensures Among(a.wset[j], b.wset) {
      assert SameWrite(a.wset[j], b.wset[j]);
    }
  }

  lemma SortedReordered(a: Executor, b: Executor, c: Executor)
    requires b.ts == a.ts && b.rset == a.rset && multiset(b.wset) == multiset(a.wset) && |b.wset| == |a.wset|
    requires Kept(b, c)
    ensures Reordered(c, a)
  {
    forall j | 0 <= j < |c.wset| ensures Among(c.wset[j], a.wset) {
      assert SameWrite(b.wset[j], c.wset[j]);
      assert b.wset[j] in multiset(a.wset);
      var x :| 0 <= x < |a.wset| && a.wset[x] == b.wset[j];
      assert SameWrite(c.wset[j], a.wset[x]);
    }
  }

  lemma AfterPrecheck(a: Executor, b: Executor, c: Executor)
    requires Reordered(b, a) && Kept(b, c)
    ensures Reordered(c, a)
  {
    forall j | 0 <= j < |c.wset| ensures Among(c.wset[j], a.wset) {
      assert SameWrite(b.wset[j], c.wset[j]) && Among(b.wset[j], a.wset);
      var x :| 0 <= x < |a.wset| && SameWrite(b.wset[j], a.wset[x]);
      assert SameWrite(c.wset[j], a.wset[x]);
    }
  }

  lemma DoomStays(s: State, a: Executor, b: Executor, installed: bool)
    requires Doomed(s, a, installed) && Reordered(a, b)
    ensures Doomed(s, b, installed)
  {
    if j :| 0 <= j < |a.wset| && a.wset[j].rmw && NewerHead(s, a.wset[j].key, a.ts) {
      assert Among(a.wset[j], b.wset);
      var x :| 0 <= x < |b.wset| && SameWrite(a.wset[j], b.wset[x]);
      assert b.wset[x].rmw;
    } else if j :| 0 <= j < |a.wset| && Overtakes(s.heap, a.wset[j], a.ts, installed) {
      assert Among(a.wset[j], b.wset);
      var x :| 0 <= x < |b.wset| && SameWrite(a.wset[j], b.wset[x]);
      assert Overtakes(s.heap, b.wset[x], b.ts, installed);
    } else {
      var j :| 0 <= j < |a.rset| && Overwritten(s.heap, a.rset[j], a.ts);
      assert Overwritten(s.heap, b.rset[j], b.ts);
    }
  }

  lemma OvertakesDooms(s: State, tx: Executor, j: nat, v: int, installed: bool)
    requires j < |tx.wset| && ReadLater(s.heap, tx.wset[j].key, tx.ts, v)
    requires installed ==> CheckedTo(s.heap, tx.wset[j].key, tx.wset[j].ver, v)
    ensures Doomed(s, tx, installed)
  {
    assert Overtakes(s.heap, tx.wset[j], tx.ts, installed);
  }

  lemma HeadDooms(s: State, tx: Executor, j: nat, installed: bool)
    requires j < |tx.wset| && tx.wset[j].rmw && tx.wset[j].key < |s.recs|
    requires NewerHead(s, tx.wset[j].key, tx.ts)
             || (!installed && ReadLater(s.heap, tx.wset[j].key, tx.ts, s.recs[tx.wset[j].key].latest))
    ensures Doomed(s, tx, installed)
  {
    if !NewerHead(s, tx.wset[j].key, tx.ts) {
      assert Overtakes(s.heap, tx.wset[j], tx.ts, installed);
    }
  }

  /** What justifies that a write is refused at once. */
  ghost predicate Refused(s: State, tx: Executor, k: Key) {
    || (ReadsKey(tx.rset, k) && NewerHead(s, k, tx.ts))
    || exists v: int :: ReadLater(s.heap, k, tx.ts, v)
  }

  ghost predicate RefusedIn(run: seq<State>, from: nat, tx: Executor, k: Key) {
    exists n :: from <= n < |run| && Refused(run[n], tx, k)
  }

  lemma RefusedNow(run: seq<State>, run': seq<State>, from: nat, tx: Executor, k: Key)
    requires from < |run| && run <= run' && Refused(run[|run| - 1], tx, k)
    ensures RefusedIn(run', from, tx, k)
  {
    assert run'[|run| - 1] == run[|run| - 1];
  }

  /** The transaction is doomed in some state of this part of the run. */
  ghost predicate DoomedIn(run: seq<State>, from: nat, tx: Executor, installed: bool) {
    exists n :: from <= n < |run| && Doomed(run[n], tx, installed)
  }

  lemma DoomCarried(run: seq<State>, from: nat, a: Executor, run': seq<State>, from': nat, b: Executor, installed: bool)
    requires DoomedIn(run, from, a, installed) && run <= run' && from' <= from && Reordered(a, b)
    ensures DoomedIn(run', from', b, installed)
  {
    var n :| from <= n < |run| && Doomed(run[n], a, installed);
    DoomStays(run[n], a, b, installed);
    assert run'[n] == run[n];
  }

  /** The last state of `run` dooms the transaction, as it is now and as it was. */
  lemma DoomNow(run: seq<State>, run': seq<State>, from: nat, now: Executor, tx: Executor, installed: bool)
    requires from < |run| && run <= run' && Doomed(run[|run| - 1], now, installed) && Kept(tx, now)
    ensures DoomedIn(run', from, tx, installed)
  {
    KeptReordered(now, tx);
    DoomStays(run[|run| - 1], now, tx, installed);
    assert run'[|run| - 1] == run[|run| - 1];
  }

  lemma DoomedBefore(run: seq<State>, from: nat, tx: Executor)
    requires DoomedIn(run, from, tx, true)
    ensures DoomedIn(run, from, tx, false)
  {
    var n :| from <= n < |run| && Doomed(run[n], tx, true);
    if j :| 0 <= j < |tx.wset| && Overtakes(run[n].heap, tx.wset[j], tx.ts, true) {
      assert Overtakes(run[n].heap, tx.wset[j], tx.ts, false);
    }
    assert Doomed(run[n], tx, false);
  }

  /** The re-scan of a read gives up only if a version has been committed between the one
      read and the transaction; else the version visible is the one that was read. */
  lemma RescanOutcome(run: seq<State>, i: nat, s': State, t: nat)
    requires IsRun(run, Init, Next) && i < |run| && t < |run[i].thr| && ScanJudge(run[i], s', t)
    ensures t < |s'.thr|
    ensures var tx := run[i].thr[t]; var r := tx.rset[tx.phase.i];
            if run[i].heap[tx.phase.cur].wts == r.wts then s'.thr[t].phase == Scan(tx.phase.i + 1)
            else s'.thr[t].phase == Aborting(0) && Overwritten(run[i].heap, r, tx.ts)
  {
    RunKeepsInv(run, i);
    var s, tx := run[i], run[i].thr[t];
    ReadFacts(s, t, tx.phase.i);
    ThreadOf(s, t);
    assert ListInv(s.heap, s.recs[tx.rset[tx.phase.i].key], tx.rset[tx.phase.i].key);
  }

  lemma CheckPlace(run: seq<State>, i: nat, t: nat)
    requires IsRun(run, Init, Next) && i < |run| && t < |run[i].thr| && run[i].thr[t].phase.CheckWait?
    ensures run[i].thr[t].phase.i < |run[i].thr[t].wset|
    ensures var s := run[i]; var e := s.thr[t].wset[s.thr[t].phase.i];
            && On(s.heap, s.thr[t].phase.cur, e.key) && s.heap[s.thr[t].phase.cur].wts < s.thr[t].ts
            && CheckedTo(s.heap, e.key, e.ver, s.thr[t].phase.cur)
  {
    RunKeepsInv(run, i);
    ThreadOf(run[i], t);
  }

  lemma CheckResult(s: State, s': State, t: nat)
    requires t < |s.thr| && (CheckOk(s, s', t) || CheckFail(s, s', t))
    ensures t < |s'.thr|
    ensures s'.thr[t].phase == if s.heap[s.thr[t].phase.cur].rts > s.thr[t].ts then Aborting(0) else Check(s.thr[t].phase.i + 1)
    ensures s.heap[s.thr[t].phase.cur].status.Committed?
  {
  }

  /** The check of a write gives up if and only if the version about to be overtaken - it is
      committed, and what lies between is aborted or was installed after the write - has been
      read strictly later. */
  lemma CheckOutcome(run: seq<State>, i: nat, s': State, t: nat)
    requires IsRun(run, Init, Next) && i < |run| && t < |run[i].thr| && (CheckOk(run[i], s', t) || CheckFail(run[i], s', t))
    ensures t < |s'.thr|
    ensures run[i].thr[t].phase.i < |run[i].thr[t].wset|
    ensures var tx := run[i].thr[t]; var v := run[i].heap[tx.phase.cur]; var e := tx.wset[tx.phase.i];
            && On(run[i].heap, tx.phase.cur, e.key) && v.status.Committed? && v.wts < tx.ts
            && CheckedTo(run[i].heap, e.key, e.ver, tx.phase.cur)
            && s'.thr[t].phase == (if v.rts > tx.ts then Aborting(0) else Check(tx.phase.i + 1))
            && (v.rts > tx.ts ==> ReadLater(run[i].heap, e.key, tx.ts, tx.phase.cur))
  {
    CheckPlace(run, i, t);
    CheckResult(run[i], s', t);
  }

  lemma WritePlace(s: State, t: nat)
    requires BaseInv(s) && t < |s.thr| && s.thr[t].phase.WriteCheck?
    ensures On(s.heap, s.thr[t].phase.cur, s.thr[t].phase.key) && s.heap[s.thr[t].phase.cur].wts < s.thr[t].ts
  {
    ThreadOf(s, t);
    NotOwnVersion(s, t, s.thr[t].phase.cur);
  }

  /** The early test of a write. */
  lemma WriteOutcome(run: seq<State>, i: nat, s': State, t: nat)
    requires IsRun(run, Init, Next) && i < |run| && t < |run[i].thr| && (WriteAbort(run[i], s', t) || WriteAlloc(run[i], s', t))
    ensures t < |s'.thr|
    ensures var tx := run[i].thr[t]; var v := run[i].heap[tx.phase.cur];
            && s'.thr[t].phase == (if v.status.Committed? && v.rts > tx.ts then Aborting(0) else Executing)
            && (s'.thr[t].phase == Aborting(0) ==> ReadLater(run[i].heap, tx.phase.key, tx.ts, tx.phase.cur))
  {
    RunKeepsInv(run, i);
    WritePlace(run[i], t);
  }

  /** The pre-check of a blind write. */
  lemma PrecheckOutcome(run: seq<State>, i: nat, s': State, t: nat)
    requires IsRun(run, Init, Next) && i < |run| && t < |run[i].thr| && PreJudge(run[i], s', t)
    ensures t < |s'.thr|
    ensures run[i].thr[t].phase.i < |run[i].thr[t].wset|
    ensures var tx := run[i].thr[t]; var v := run[i].heap[tx.phase.cur];
            && s'.thr[t].phase == (if v.rts > tx.ts then Aborting(0) else Precheck(tx.phase.i + 1))
            && (v.rts > tx.ts ==> ReadLater(run[i].heap, tx.wset[tx.phase.i].key, tx.ts, tx.phase.cur))
  {
    RunKeepsInv(run, i);
    ThreadOf(run[i], t);
    NotOwnVersion(run[i], t, run[i].thr[t].phase.cur);
  }

  /** The pre-check of a write of a record read before. */
  lemma PrecheckRmwOutcome(run: seq<State>, i: nat, s': State, t: nat)
    requires IsRun(run, Init, Next) && i < |run| && t < |run[i].thr| && PreRmw(run[i], s', t)
    ensures t < |s'.thr|
    ensures var tx := run[i].thr[t]; var k := tx.wset[tx.phase.i].key;
            if s'.thr[t].phase == Precheck(tx.phase.i + 1) then !NewerHead(run[i], k, tx.ts)
            else s'.thr[t].phase == Aborting(0) && (NewerHead(run[i], k, tx.ts) || ReadLater(run[i].heap, k, tx.ts, run[i].recs[k].latest))
  {
    RunKeepsInv(run, i);
    var s, tx := run[i], run[i].thr[t];
    var k := tx.wset[tx.phase.i].key;
    var v := s.recs[k].latest;
    assert ListInv(s.heap, s.recs[k], k);
    if s.heap[v].rts > tx.ts {
      NotOwnVersion(s, t, v);
      OnlyCommittedAreRead(run, i, v);
    }
  }

  // ------------------------------------------------------ every abort there is

  /** Executor `t` starts to abort with this step. */
  predicate StartsAborting(s: State, s': State, t: nat) {
    t < |s.thr| && t < |s'.thr| && s'.thr[t].phase.Aborting? && !s.thr[t].phase.Aborting?
  }

  lemma StartsDoNotAbort(s: State, s': State, t: nat)
    requires t < |s.thr| && (BeginStep(s, s', t) || ReadStep(s, s', t))
    ensures !StartsAborting(s, s', t)
  {
  }

  lemma CollectionsDoNotAbort(s: State, s': State, t: nat)
    requires t < |s.thr| && GcStep(s, s', t)
    ensures !StartsAborting(s, s', t)
  {
  }

  lemma EndsDoNotAbort(s: State, s': State, t: nat)
    requires t < |s.thr| && (OutcomeStep(s, s', t) || LeaderStep(s, s', t))
    ensures !StartsAborting(s, s', t)
  {
  }

  lemma WriteRefusals(run: seq<State>, i: nat, s': State, t: nat)
    requires IsRun(run, Init, Next) && i < |run| && t < |run[i].thr| && WriteStep(run[i], s', t) && StartsAborting(run[i], s', t)
    ensures !InFlight(run[i].thr[t].phase) && !Prechecking(run[i].thr[t].phase)
    ensures exists k :: Refused(run[i], run[i].thr[t], k)
  {
    var s := run[i];
    if WriteAbort(s, s', t) {
      WriteOutcome(run, i, s', t);
      assert ReadLater(s.heap, s.thr[t].phase.key, s.thr[t].ts, s.thr[t].phase.cur);
      assert Refused(s, s.thr[t], s.thr[t].phase.key);
    } else {
      var k, new_ :| WriteStartRmw(s, s', t, k, new_);
      assert Refused(s, s.thr[t], k);
    }
  }

  predicate Prechecking(p: Phase) { p.Precheck? || p.PreSeek? || p.PreWait? }

  lemma PrecheckRefusals(run: seq<State>, i: nat, s': State, t: nat)
    requires IsRun(run, Init, Next) && i < |run| && t < |run[i].thr| && PrecheckStep(run[i], s', t) && StartsAborting(run[i], s', t)
    ensures Prechecking(run[i].thr[t].phase) && Doomed(run[i], run[i].thr[t], false)
  {
    var s, tx := run[i], run[i].thr[t];
    if PreJudge(s, s', t) {
      PrecheckOutcome(run, i, s', t);
      OvertakesDooms(s, tx, tx.phase.i, tx.phase.cur, false);
    } else {
      assert PreRmw(s, s', t);
      PrecheckRmwOutcome(run, i, s', t);
      HeadDooms(s, tx, tx.phase.i, false);
    }
  }

  lemma InstallRefusals(s: State, s': State, t: nat)
    requires t < |s.thr| && InstallStep(s, s', t) && StartsAborting(s, s', t)
    ensures InFlight(s.thr[t].phase) && Doomed(s, s.thr[t], true)
  {
    assert InstallLoadRmw(s, s', t);
    HeadDooms(s, s.thr[t], s.thr[t].phase.i, true);
  }

  lemma CertifyingAborts(s: State, s': State, t: nat)
    requires t < |s.thr| && CertifyStep(s, s', t) && StartsAborting(s, s', t)
    ensures CheckFail(s, s', t) || ScanJudge(s, s', t)
  {
  }

  lemma CertifyRefusals(run: seq<State>, i: nat, s': State, t: nat)
    requires IsRun(run, Init, Next) && i < |run| && t < |run[i].thr| && CertifyStep(run[i], s', t) && StartsAborting(run[i], s', t)
    ensures InFlight(run[i].thr[t].phase) && Doomed(run[i], run[i].thr[t], true)
  {
    var s, tx := run[i], run[i].thr[t];
    CertifyingAborts(s, s', t);
    if CheckFail(s, s', t) {
      CheckOutcome(run, i, s', t);
      OvertakesDooms(s, tx, tx.phase.i, tx.phase.cur, true);
    } else {
      RescanOutcome(run, i, s', t);
      assert Overwritten(s.heap, tx.rset[tx.phase.i], tx.ts);
    }
  }

  /** In every run, a transaction that starts to abort is doomed in that very state; before
      its validation, the write it is about to do is to be refused. */
  lemma AbortsOnlyWhenDoomed(run: seq<State>, i: nat, s': State, t: nat)
    requires IsRun(run, Init, Next) && i < |run| && StepBy(run[i], s', t) && StartsAborting(run[i], s', t)
    ensures var s, tx := run[i], run[i].thr[t];
            if InFlight(tx.phase) || Prechecking(tx.phase) then Doomed(s, tx, InFlight(tx.phase))
            else exists k :: Refused(s, tx, k)
  {
    var s := run[i];
    if BeginStep(s, s', t) || ReadStep(s, s', t) {
      StartsDoNotAbort(s, s', t);
    } else if GcStep(s, s', t) {
      CollectionsDoNotAbort(s, s', t);
    } else if OutcomeStep(s, s', t) || LeaderStep(s, s', t) {
      EndsDoNotAbort(s, s', t);
    } else if WriteStep(s, s', t) {
      WriteRefusals(run, i, s', t);
    } else if PrecheckStep(s, s', t) {
      PrecheckRefusals(run, i, s', t);
    } else if InstallStep(s, s', t) {
      InstallRefusals(s, s', t);
    } else {
      CertifyRefusals(run, i, s', t);
    }
  }
}
