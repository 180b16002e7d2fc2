/** What the invariant of Cicada promises: sorted lists, no version lost or held twice,
    garbage collection that no search can notice, and waiting without cycles. */
module CicadaGuarantees {
  import opened SerialExecution
  import opened Runs
  import opened Cicada
  import opened CicadaInvariant
  import opened CicadaThreads
  import opened CicadaCollection
  import opened CicadaSerializability

  // ------------------------------------------------------------------ lists

  /** `p` follows `next` from `from`. */
  ghost predicate Path(h: seq<Version>, from: int, p: seq<int>) {
    && p != [] && p[0] == from
    && (forall i | 0 <= i < |p| :: Valid(h, p[i]))
    && forall i | 0 < i < |p| :: p[i] == h[p[i - 1]].next
  }

  predicate Descending(h: seq<Version>, p: seq<int>) {
    forall i, j | 0 <= i < j < |p| :: Valid(h, p[i]) && Valid(h, p[j]) && h[p[j]].wts < h[p[i]].wts
  }

  lemma {:induction false} PathDescends(h: seq<Version>, r: Record, k: Key, p: seq<int>)
    requires ListInv(h, r, k) && Path(h, r.latest, p)
    ensures Descending(h, p) && forall i | 0 <= i < |p| :: On(h, p[i], k)
  {
    if |p| > 1 {
      var q := p[..|p| - 1];
      PathDescends(h, r, k, q);
      var v := q[|q| - 1];
      assert On(h, v, k);
      assert NodeOk(h, k, v, r.bottom);
      assert p[|p| - 1] == h[v].next;
    }
  }

  /** Every version of the record is found on the way down, as far as `v`. */
  lemma {:induction false} PathTo(h: seq<Version>, r: Record, k: Key, v: int, sofar: seq<int>) returns (p: seq<int>)
    requires ListInv(h, r, k) && On(h, v, k) && Path(h, r.latest, sofar)
    requires On(h, sofar[|sofar| - 1], k) && h[v].wts <= h[sofar[|sofar| - 1]].wts
    ensures Path(h, r.latest, p) && p[|p| - 1] == v
    decreases h[sofar[|sofar| - 1]].wts
  {
    var x := sofar[|sofar| - 1];
    if x == v {
      p := sofar;
    } else {
      assert NodeOk(h, k, x, r.bottom);
      p := PathTo(h, r, k, v, sofar + [h[x].next]);
    }
  }

  /** In every reachable state, following `next` from a record's newest version meets
      strictly older and older versions. */
  lemma ListsAreSorted(run: seq<State>, i: nat, k: Key, p: seq<int>)
    requires IsRun(run, Init, Next) && i < |run| && k < |run[i].recs| && Path(run[i].heap, run[i].recs[k].latest, p)
    ensures Descending(run[i].heap, p)
  {
    RunKeepsInv(run, i);
    PathDescends(run[i].heap, run[i].recs[k], k, p);
  }

  // ----------------------------------------------------------- conservation

  /** Who holds version `v`, told by the lists, sets and pools themselves. */
  ghost predicate HeldBy(s: State, v: int, place: Place) {
    match place
    case Listed(k) => k < |s.recs| && exists p: seq<int> :: Path(s.heap, s.recs[k].latest, p) && p[|p| - 1] == v
    case InWriteSet(t) =>
      t < |s.thr| && exists j :: 0 <= j < |s.thr[t].wset| && s.thr[t].wset[j].ver == v
                                 && !s.thr[t].wset[j].installed && !Disposed(s.thr[t].phase, j)
    case InPool(t) => t < |s.thr| && v in s.thr[t].pool
    case Detached(t) =>
      && t < |s.thr| && (s.thr[t].phase.GcCut? || s.thr[t].phase.GcPush?)
      && exists p: seq<int> :: Path(s.heap, s.thr[t].phase.del, p) && p[|p| - 1] == v
  }

  lemma ListHolds(s: State, v: int, k: Key)
    requires BaseInv(s) && Valid(s.heap, v)
    ensures HeldBy(s, v, Listed(k)) <==> s.heap[v].place == Listed(k)
  {
    if s.heap[v].place == Listed(k) {
      assert VersionOk(s.heap[v], s.clock, |s.recs|, |s.thr|);
      assert ListInv(s.heap, s.recs[k], k);
      assert Path(s.heap, s.recs[k].latest, [s.recs[k].latest]);
      var p := PathTo(s.heap, s.recs[k], k, v, [s.recs[k].latest]);
    }
    if HeldBy(s, v, Listed(k)) {
      assert ListInv(s.heap, s.recs[k], k);
      var p: seq<int> :| Path(s.heap, s.recs[k].latest, p) && p[|p| - 1] == v;
      PathDescends(s.heap, s.recs[k], k, p);
    }
  }

  lemma {:induction false} ChainPathStays(h: seq<Version>, del: int, t: nat, p: seq<int>)
    requires ChainOk(h, del, t) && Path(h, del, p)
    ensures forall i | 0 <= i < |p| :: Det(h, p[i], t)
  {
    if |p| > 1 {
      var q := p[..|p| - 1];
      ChainPathStays(h, del, t, q);
      assert Det(h, q[|q| - 1], t);
      assert ChainNode(h, q[|q| - 1], t);
      assert p[|p| - 1] == h[q[|q| - 1]].next;
    }
  }

  lemma {:induction false} ChainPathTo(h: seq<Version>, del: int, t: nat, v: int, sofar: seq<int>) returns (p: seq<int>)
    requires ChainOk(h, del, t) && Det(h, v, t) && Path(h, del, sofar)
    requires Det(h, sofar[|sofar| - 1], t) && h[v].wts <= h[sofar[|sofar| - 1]].wts
    ensures Path(h, del, p) && p[|p| - 1] == v
    decreases h[sofar[|sofar| - 1]].wts
  {
    var x := sofar[|sofar| - 1];
    if x == v {
      p := sofar;
    } else {
      assert ChainNode(h, x, t);
      p := ChainPathTo(h, del, t, v, sofar + [h[x].next]);
    }
  }

  lemma ChainHolds(s: State, v: int, t: nat)
    requires BaseInv(s) && Valid(s.heap, v)
    ensures HeldBy(s, v, Detached(t)) <==> s.heap[v].place == Detached(t)
  {
    if s.heap[v].place == Detached(t) {
      assert VersionOk(s.heap[v], s.clock, |s.recs|, |s.thr|);
      ThreadOf(s, t);
      assert Det(s.heap, v, t);
      var del := s.thr[t].phase.del;
      assert Path(s.heap, del, [del]);
      var p := ChainPathTo(s.heap, del, t, v, [del]);
    }
    if HeldBy(s, v, Detached(t)) {
      ThreadOf(s, t);
      var p: seq<int> :| Path(s.heap, s.thr[t].phase.del, p) && p[|p| - 1] == v;
      ChainPathStays(s.heap, s.thr[t].phase.del, t, p);
    }
  }

  lemma SetsHold(s: State, v: int, t: nat)
    requires BaseInv(s) && Valid(s.heap, v)
    ensures HeldBy(s, v, InPool(t)) <==> s.heap[v].place == InPool(t)
    ensures HeldBy(s, v, InWriteSet(t)) <==> s.heap[v].place == InWriteSet(t)
  {
    if t < |s.thr| {
      ThreadOf(s, t);
      if HeldBy(s, v, InWriteSet(t)) {
        var j: nat :| j < |s.thr[t].wset| && s.thr[t].wset[j].ver == v && !s.thr[t].wset[j].installed && !Disposed(s.thr[t].phase, j);
        assert WriteOk(s.heap, s.thr[t], t, j);
      }
    } else {
      assert VersionOk(s.heap[v], s.clock, |s.recs|, |s.thr|);
    }
  }

  /** Every version is in exactly one place: one list, one write set, one reuse pool, or
      the chain one collector is taking apart. */
  lemma VersionsConserved(run: seq<State>, i: nat, v: int, place: Place)
    requires IsRun(run, Init, Next) && i < |run| && Valid(run[i].heap, v)
    ensures HeldBy(run[i], v, place) <==> place == run[i].heap[v].place
  {
    RunKeepsInv(run, i);
    match place
    case Listed(k) => ListHolds(run[i], v, k);
    case InWriteSet(t) => SetsHold(run[i], v, t);
    case InPool(t) => SetsHold(run[i], v, t);
    case Detached(t) => ChainHolds(run[i], v, t);
  }

  /** A pool never lists a version twice. */
  lemma PoolsDistinct(run: seq<State>, i: nat, t: nat, a: nat, b: nat)
    requires IsRun(run, Init, Next) && i < |run| && t < |run[i].thr| && a < b < |run[i].thr[t].pool|
    ensures run[i].thr[t].pool[a] != run[i].thr[t].pool[b]
  {
    RunKeepsInv(run, i);
    ThreadOf(run[i], t);
  }

  // ------------------------------------------------------ garbage collection

  /** The version a walk of the executor is about to look at, and on which record. */
  function WalkKey(tx: Executor): (k: Key)
    requires Walking(tx)
  {
    if tx.phase.ReadSeek? || tx.phase.ReadWait? || tx.phase.WriteSeek? || tx.phase.WriteCheck? then tx.phase.key
    else if tx.phase.ScanSeek? || tx.phase.ScanWait? then tx.rset[tx.phase.i].key
    else tx.wset[tx.phase.i].key
  }

  predicate Walking(tx: Executor) {
    || tx.phase.ReadSeek? || tx.phase.ReadWait? || tx.phase.WriteSeek? || tx.phase.WriteCheck?
    || ((tx.phase.ScanSeek? || tx.phase.ScanWait?) && tx.phase.i < |tx.rset|)
    || ((tx.phase.PreSeek? || tx.phase.PreWait? || tx.phase.InstallSeek? || tx.phase.CheckWait?) && tx.phase.i < |tx.wset|)
  }

  lemma WalkSafe(h: seq<Version>, tx: Executor, nrecs: nat)
    requires WalkOk(h, tx, nrecs) && Walking(tx)
    ensures SafePtr(h, WalkKey(tx), tx.rts, tx.phase.cur)
  {
  }

  lemma SafeAboveGarbage(h: seq<Version>, k: Key, rts: nat, v: int, minRts: nat)
    requires SafePtr(h, k, rts, v) && minRts <= rts
    ensures On(h, v, k)
    ensures forall c: int | On(h, c, k) && h[c].status.Committed? && h[c].wts < minRts :: h[c].wts <= h[v].wts
  {
  }

  /** No search ever leaves its list or passes a committed version older than `MinRts`:
      all it can still look at is what garbage collection keeps. */
  lemma SearchesStayAboveGarbage(run: seq<State>, i: nat, t: nat)
    requires IsRun(run, Init, Next) && i < |run| && t < |run[i].thr| && Walking(run[i].thr[t])
    ensures var s := run[i]; var tx := s.thr[t];
            && On(s.heap, tx.phase.cur, WalkKey(tx))
            && forall c: int | On(s.heap, c, WalkKey(tx)) && s.heap[c].status.Committed? && s.heap[c].wts < s.minRts ::
                 s.heap[c].wts <= s.heap[tx.phase.cur].wts
  {
    RunKeepsInv(run, i);
    var s, tx := run[i], run[i].thr[t];
    WalkAbove(s, t);
    SafeAboveGarbage(s.heap, WalkKey(tx), tx.rts, tx.phase.cur, s.minRts);
  }

  lemma WalkAbove(s: State, t: nat)
    requires BaseInv(s) && t < |s.thr| && Walking(s.thr[t])
    ensures SafePtr(s.heap, WalkKey(s.thr[t]), s.thr[t].rts, s.thr[t].phase.cur) && s.minRts <= s.thr[t].rts
  {
    ThreadOf(s, t);
    ViewOf(s, t);
    WalkSafe(s.heap, s.thr[t], |s.recs|);
  }

  /** Versions remembered by a running transaction are never recycled under it. */
  lemma RememberedStayListed(run: seq<State>, i: nat, t: nat)
    requires IsRun(run, Init, Next) && i < |run| && t < |run[i].thr|
    ensures forall j | 0 <= j < |run[i].thr[t].rset| ::
              var r := run[i].thr[t].rset[j];
              On(run[i].heap, r.ver, r.key) && run[i].heap[r.ver].wts == r.wts && (r.later != NIL ==> On(run[i].heap, r.later, r.key))
    ensures forall j | 0 <= j < |run[i].thr[t].wset| && !Disposed(run[i].thr[t].phase, j) && run[i].thr[t].wset[j].later != NIL ::
              On(run[i].heap, run[i].thr[t].wset[j].later, run[i].thr[t].wset[j].key)
  {
    RunKeepsInv(run, i);
    var s := run[i];
    ThreadOf(s, t);
    forall j | 0 <= j < |s.thr[t].rset|
      ensures ReadOk(s.heap, s.thr[t], s.thr[t].rset[j])
    {
    }
    forall j | 0 <= j < |s.thr[t].wset| && !Disposed(s.thr[t].phase, j) ensures WriteOk(s.heap, s.thr[t], t, j) {
    }
  }

  lemma CutOffBelow(s: State, s': State, t: nat, x: Key, b: int, v: int, k: Key)
    requires Detaches(s, s', t, x, b) && On(s.heap, v, k) && !On(s'.heap, v, k)
    ensures On(s.heap, b, k) && On(s'.heap, b, k) && s.heap[b].status.Committed? && s.heap[v].wts < s.heap[b].wts < s.minRts
  {
  }

  lemma CutObsolete(s: State, s': State, t: nat, v: int, k: Key)
    requires BaseInv(s) && t < |s.thr| && GcDetach(s, s', t) && On(s.heap, v, k) && !On(s'.heap, v, k)
    ensures exists b: int :: On(s.heap, b, k) && On(s'.heap, b, k) && s.heap[b].status.Committed?
                             && s.heap[v].wts < s.heap[b].wts < s.minRts
  {
    GcDetaches(s, s', t);
    CutOffBelow(s, s', t, s.thr[t].gcq[0].key, s.thr[t].gcq[0].ver, v, k);
  }

  lemma SnapshotsAtLeastMinRts(s: State)
    requires BaseInv(s)
    ensures forall u: nat | u < |s.thr| && Active(s.thr[u].phase) :: s.minRts <= s.thr[u].rts
  {
    forall u: nat | u < |s.thr| && Active(s.thr[u].phase) ensures s.minRts <= s.thr[u].rts {
      ViewOf(s, u);
    }
  }

  /** What a collector cuts off is older than a committed version of the same record with
      `wts < MinRts`, which stays; every active transaction has a snapshot that sees it. */
  lemma CollectedIsObsolete(run: seq<State>, i: nat, s': State, t: nat, v: int, k: Key)
    requires IsRun(run, Init, Next) && i < |run| && t < |run[i].thr| && GcDetach(run[i], s', t)
    requires On(run[i].heap, v, k) && !On(s'.heap, v, k)
    ensures exists b: int :: On(run[i].heap, b, k) && On(s'.heap, b, k) && run[i].heap[b].status.Committed?
                             && run[i].heap[v].wts < run[i].heap[b].wts < run[i].minRts
    ensures forall u: nat | u < |run[i].thr| && Active(run[i].thr[u].phase) :: run[i].minRts <= run[i].thr[u].rts
  {
    RunKeepsInv(run, i);
    CutObsolete(run[i], s', t, v, k);
    SnapshotsAtLeastMinRts(run[i]);
  }

  /** An entry of the garbage queue that passes the test against the record's `min_wts`
      still names a committed version of its list with the recorded timestamp. */
  lemma QueueEntryNotDangling(run: seq<State>, i: nat, t: nat)
    requires IsRun(run, Init, Next) && i < |run| && t < |run[i].thr| && run[i].thr[t].phase.GcLocked?
    requires GcFront(run[i], t) && run[i].thr[t].gcq[0].wts > run[i].recs[run[i].thr[t].gcq[0].key].minWts
    ensures var g := run[i].thr[t].gcq[0];
            On(run[i].heap, g.ver, g.key) && run[i].heap[g.ver].wts == g.wts && run[i].heap[g.ver].status.Committed?
  {
    RunKeepsInv(run, i);
    ThreadOf(run[i], t);
    assert EntryOk(run[i].heap, run[i].recs, run[i].thr[t].gcq[0]);
  }

  /** Snapshots only move forward: a transaction beginning later has `rts >= MinRts` too. */
  lemma LeaderStepRaisesMinRts(run: seq<State>, i: nat, s': State, t: nat)
    requires IsRun(run, Init, Next) && i < |run| && t < |run[i].thr| && LeaderStep(run[i], s', t)
    ensures run[i].minRts <= s'.minRts && run[i].minWts <= s'.minWts
  {
    RunKeepsInv(run, i);
    var s := run[i];
    assert LeaderOk(s.thr[t].phase, t, s.threadWts, s.threadRts, s.minWts, s.minRts);
  }

  // ------------------------------------------------------------------ waiting

  /** Executor `t` spins on a pending version of executor `u`. */
  ghost predicate WaitsFor(s: State, t: nat, u: nat) {
    && t < |s.thr| && u < |s.thr|
    && (s.thr[t].phase.ReadWait? || s.thr[t].phase.ScanWait? || s.thr[t].phase.CheckWait?)
    && Valid(s.heap, s.thr[t].phase.cur)
    && var v := s.heap[s.thr[t].phase.cur];
       v.status.Pending? && v.wts % TID_SPACE == u
  }

  lemma WaitFalls(s: State, t: nat, u: nat)
    requires Inv(s) && WaitsFor(s, t, u)
    ensures s.thr[u].ts < s.thr[t].ts && InFlight(s.thr[u].phase) && !s.thr[t].ronly
  {
    ThreadOf(s, t);
    ViewOf(s, t);
    var v := s.thr[t].phase.cur;
    assert OnList(s.heap, v);
    PendingOwner(s, v);
    if s.thr[t].ronly {
      NothingPendingBelow(s, t, v);
    }
  }

  /** In every reachable state, waiting is only ever for an earlier timestamp, and for a
      transaction in flight; a read-only transaction never waits. */
  lemma WaitsForEarlier(run: seq<State>, i: nat, t: nat, u: nat)
    requires IsRun(run, Init, Next) && i < |run| && WaitsFor(run[i], t, u)
    ensures u < |run[i].thr| && run[i].thr[u].ts < run[i].thr[t].ts && InFlight(run[i].thr[u].phase) && !run[i].thr[t].ronly
  {
    RunKeepsInv(run, i);
    WaitFalls(run[i], t, u);
  }

  lemma {:induction false} WaitChainFalls(s: State, p: seq<nat>)
    requires Inv(s) && |p| > 1 && forall i | 0 <= i < |p| - 1 :: WaitsFor(s, p[i], p[i + 1])
    ensures p[0] < |s.thr| && p[|p| - 1] < |s.thr| && s.thr[p[|p| - 1]].ts < s.thr[p[0]].ts
  {
    assert WaitsFor(s, p[0], p[1]);
    WaitFalls(s, p[0], p[1]);
    if |p| > 2 {
      forall i | 0 <= i < |p[1..]| - 1 ensures WaitsFor(s, p[1..][i], p[1..][i + 1]) {
        assert WaitsFor(s, p[i + 1], p[i + 2]);
      }
      WaitChainFalls(s, p[1..]);
    }
  }

  /** Executors never wait in a circle. */
  lemma NoWaitCycle(run: seq<State>, i: nat, p: seq<nat>)
    requires IsRun(run, Init, Next) && i < |run|
    requires |p| > 1 && forall j | 0 <= j < |p| - 1 :: WaitsFor(run[i], p[j], p[j + 1])
    ensures p[0] != p[|p| - 1]
  {
    RunKeepsInv(run, i);
    WaitChainFalls(run[i], p);
  }
}
