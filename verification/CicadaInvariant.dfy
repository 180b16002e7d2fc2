/** The inductive invariant of Cicada, in pieces that each speak of the heap and one
    record or one executor. */
module CicadaInvariant {
  import opened SerialExecution
  import opened Cicada

  // ------------------------------------------------------------ phase groups

  /** Published both timestamps and not finished yet. */
  predicate Active(p: Phase) {
    !(p.Idle? || p.Generated? || p.WtsStored? || p.MinLoaded? || p.Maint? || Collecting(p) || Leading(p))
  }

  predicate Leading(p: Phase) { p.LeadRts? || p.LeadScan? || p.LeadScanRts? || p.LeadPublish? }

  predicate Collecting(p: Phase) { p.GcLocked? || p.GcLoaded? || p.GcCut? || p.GcPush? }

  predicate Installing(p: Phase) { p.Install? || p.InstallHead? || p.InstallSeek? }

  predicate Scanning(p: Phase) { p.Scan? || p.ScanSeek? || p.ScanWait? }

  predicate Checking(p: Phase) { p.Check? || p.CheckWait? }

  /** From the first possible installation to the end of commit or abort. */
  predicate InFlight(p: Phase) {
    Installing(p) || p.Raise? || Scanning(p) || Checking(p) || p.Committing? || p.Aborting?
  }

  /** Timestamp issued, nothing installed under it. */
  predicate Unseen(p: Phase) {
    p.Generated? || p.WtsStored? || p.MinLoaded? || (Active(p) && !InFlight(p))
  }

  function InstalledCount(p: Phase, n: nat): nat {
    if Installing(p) then p.i
    else if p.Raise? || Scanning(p) || Checking(p) || p.Committing? then n
    else 0
  }

  /** Write element `j` has already been committed or cleaned up. */
  predicate Disposed(p: Phase, j: nat) {
    (p.Committing? && j < p.i) || (p.Aborting? && j < p.i)
  }

  // ------------------------------------------------------------------- lists

  predicate On(h: seq<Version>, v: int, k: Key) { Valid(h, v) && h[v].place == Listed(k) }

  predicate OnList(h: seq<Version>, v: int) { Valid(h, v) && h[v].place.Listed? }

  /** `next` is the newest version older than `v`; only `bottom` has none. */
  ghost predicate NodeOk(h: seq<Version>, k: Key, v: int, bottom: int)
    requires On(h, v, k)
  {
    && (h[v].next == NIL <==> v == bottom)
    && (h[v].next != NIL ==>
          && On(h, h[v].next, k) && h[h[v].next].wts < h[v].wts
          && forall u: int | On(h, u, k) && h[u].wts < h[v].wts :: h[u].wts <= h[h[v].next].wts)
  }

  ghost predicate ListInv(h: seq<Version>, r: Record, k: Key) {
    && On(h, r.latest, k) && On(h, r.bottom, k) && h[r.bottom].status.Committed?
    && (forall v: int | On(h, v, k) :: h[r.bottom].wts <= h[v].wts <= h[r.latest].wts)
    && (forall v: int {:trigger NodeOk(h, k, v, r.bottom)} | On(h, v, k) :: NodeOk(h, k, v, r.bottom))
    && (forall u: int, v: int | On(h, u, k) && On(h, v, k) && h[u].wts == h[v].wts :: u == v)
  }

  ghost predicate VersionOk(v: Version, clock: nat, nrecs: nat, nthr: nat) {
    && (v.place.Listed? ==>
          && v.place.key < nrecs && !v.status.Unused?
          && (v.status.Committed? ==> v.passed) && v.seqno < clock
          && (v.status.Pending? ==> v.wts % TID_SPACE < nthr))
    && (v.place.InWriteSet? ==> v.place.t < nthr)
    && (v.place.InPool? ==> v.place.t < nthr)
    && (v.place.Detached? ==> v.place.t < nthr)
  }

  ghost predicate RecordOk(h: seq<Version>, r: Record, initTs: nat, minRts: nat, nthr: nat)
    requires Valid(h, r.bottom)
  {
    && (h[r.bottom].wts < minRts || h[r.bottom].wts == initTs)
    && (r.gcLock == 0 ==> r.minWts == h[r.bottom].wts)
    && r.gcLock <= nthr
  }

  ghost predicate ListsInv(s: State) {
    && (forall k | 0 <= k < |s.recs| ::
          ListInv(s.heap, s.recs[k], k) && RecordOk(s.heap, s.recs[k], s.initTs, s.minRts, |s.thr|))
    && (forall v | 0 <= v < |s.heap| :: VersionOk(s.heap[v], s.clock, |s.recs|, |s.thr|))
  }

  // -------------------------------------------------------------- timestamps

  ghost predicate TimeOk(tx: Executor, t: nat, threadWts: seq<nat>, threadRts: seq<nat>,
                         minWts: nat, minRts: nat, initTs: nat)
    requires t < |threadWts| && t < |threadRts|
  {
    && tx.ts % TID_SPACE == t && initTs < tx.ts
    && (if tx.phase.Generated? then threadWts[t] < tx.ts else threadWts[t] == tx.ts)
    && minWts <= threadWts[t]
    && minRts <= threadRts[t] < minWts
    && (tx.phase.MinLoaded? ==> threadRts[t] <= tx.rts < minWts && initTs < tx.rts)
    && (Active(tx.phase) ==> tx.rts == threadRts[t] && initTs < tx.rts)
  }

  ghost predicate LeaderOk(p: Phase, t: nat, threadWts: seq<nat>, threadRts: seq<nat>, minWts: nat, minRts: nat) {
    && (p.LeadRts? || p.LeadScan? || p.LeadScanRts? || p.LeadPublish? ==> t == 0)
    && (p.LeadRts? ==> minWts <= p.minw && |threadWts| > 0 && p.minw <= threadWts[0])
    && (p.LeadScan? ==>
          && minWts <= p.minw && minRts <= p.minr && 1 <= p.i
          && (forall j | 0 <= j < p.i && j < |threadWts| :: p.minw <= threadWts[j])
          && (forall j | 0 <= j < p.i && j < |threadRts| :: p.minr <= threadRts[j]))
    && (p.LeadScanRts? ==>
          && minWts <= p.minw && minRts <= p.minr && 1 <= p.i
          && (forall j | 0 <= j <= p.i && j < |threadWts| :: p.minw <= threadWts[j])
          && (forall j | 0 <= j < p.i && j < |threadRts| :: p.minr <= threadRts[j]))
    && (p.LeadPublish? ==>
          minRts <= p.minr && forall j | 0 <= j < |threadRts| :: p.minr <= threadRts[j])
  }

  ghost predicate TimesInv(s: State) {
    && 0 < |s.thr| <= TID_SPACE && |s.threadWts| == |s.thr| && |s.threadRts| == |s.thr|
    && s.initTs + 2 <= s.minWts
    && (forall t | 0 <= t < |s.thr| ::
          && TimeOk(s.thr[t], t, s.threadWts, s.threadRts, s.minWts, s.minRts, s.initTs)
          && LeaderOk(s.thr[t].phase, t, s.threadWts, s.threadRts, s.minWts, s.minRts))
  }

  // --------------------------------------------------------------- executors

  /** `v` is on the list of `k`, and no snapshot-visible committed version lies above it:
      a walk that may be at `v` cannot have passed what garbage collection keeps. */
  ghost predicate SafePtr(h: seq<Version>, k: Key, rts: nat, v: int) {
    && On(h, v, k)
    && forall c: int | On(h, c, k) && h[c].status.Committed? && h[c].wts <= rts :: h[c].wts <= h[v].wts
  }

  ghost predicate LaterOk(h: seq<Version>, k: Key, later: int, bound: nat) {
    later == NIL || (On(h, later, k) && h[later].wts > bound)
  }

  ghost predicate WriteOk(h: seq<Version>, tx: Executor, t: nat, j: nat)
    requires j < |tx.wset|
  {
    var e := tx.wset[j];
    && Valid(h, e.ver) && h[e.ver].wts == tx.ts && h[e.ver].status.Pending?
    && LaterOk(h, e.key, e.later, tx.ts) && (e.rmw ==> e.later == NIL)
    && (if e.installed then On(h, e.ver, e.key) else h[e.ver].place == InWriteSet(t) && !h[e.ver].passed)
    && (Checking(tx.phase) && j < tx.phase.i ==> h[e.ver].passed)
    && (tx.phase.Committing? ==> h[e.ver].passed)
  }

  ghost predicate WriteSetOk(h: seq<Version>, tx: Executor, t: nat, nrecs: nat) {
    && DistinctWrites(tx.wset)
    && (!Active(tx.phase) ==> tx.wset == [])
    && InstalledCount(tx.phase, |tx.wset|) <= |tx.wset|
    && (forall j | 0 <= j < |tx.wset| :: tx.wset[j].key < nrecs)
    && (forall j | 0 <= j < |tx.wset| && !tx.phase.Aborting? ::
          tx.wset[j].installed <==> j < InstalledCount(tx.phase, |tx.wset|))
    && (forall j | 0 <= j < |tx.wset| && !Disposed(tx.phase, j) :: WriteOk(h, tx, t, j))
    && (tx.phase.Committing? || tx.phase.Aborting? ==> tx.phase.i <= |tx.wset|)
    && (Checking(tx.phase) ==> tx.phase.i <= |tx.wset|)
  }

  ghost predicate ReadOk(h: seq<Version>, tx: Executor, r: ReadElement) {
    && SafePtr(h, r.key, tx.rts, r.ver) && h[r.ver].status.Committed?
    && h[r.ver].wts == r.wts && r.wts < tx.ts && h[r.ver].val == r.val
    && LaterOk(h, r.key, r.later, tx.ts)
  }

  ghost predicate ReadSetOk(h: seq<Version>, tx: Executor, nrecs: nat) {
    && DistinctReads(tx.rset)
    && (!Active(tx.phase) ==> tx.rset == [])
    && (tx.ronly && Active(tx.phase) ==> tx.rset == [] && tx.wset == [] && !InFlight(tx.phase))
    && (forall j | 0 <= j < |tx.rset| :: tx.rset[j].key < nrecs && ReadOk(h, tx, tx.rset[j]))
  }

  /** Where the search of a read or a write stands. */
  ghost predicate SearchOk(h: seq<Version>, tx: Executor, nrecs: nat) {
    && (tx.phase.ReadSeek? || tx.phase.ReadWait? ==>
          && tx.phase.key < nrecs && !ReadsKey(tx.rset, tx.phase.key)
          && SafePtr(h, tx.phase.key, tx.rts, tx.phase.cur) && LaterOk(h, tx.phase.key, tx.phase.later, Bound(tx))
          && (tx.phase.ReadWait? ==> h[tx.phase.cur].wts <= Bound(tx)))
    && (tx.phase.WriteSeek? || tx.phase.WriteCheck? ==>
          && tx.phase.key < nrecs && !tx.ronly && !WritesKey(tx.wset, tx.phase.key)
          && SafePtr(h, tx.phase.key, tx.rts, tx.phase.cur) && LaterOk(h, tx.phase.key, tx.phase.later, tx.ts)
          && (tx.phase.WriteCheck? && tx.phase.rmw ==> tx.phase.later == NIL)
          && (tx.phase.WriteCheck? ==> h[tx.phase.cur].wts <= tx.ts))
  }

  /** Where the pre-check and the search for the place of installation stand. */
  ghost predicate PlacementOk(h: seq<Version>, tx: Executor) {
    && (tx.phase.Precheck? ==> !tx.ronly)
    && (tx.phase.PreSeek? || tx.phase.PreWait? ==>
          && !tx.ronly && tx.phase.i < |tx.wset| && SafePtr(h, tx.wset[tx.phase.i].key, tx.rts, tx.phase.cur)
          && (tx.phase.PreSeek? ==> !tx.wset[tx.phase.i].rmw)
          && (tx.phase.PreWait? ==> h[tx.phase.cur].wts <= tx.ts))
    && (tx.phase.Install? && tx.phase.i < |tx.wset| ==> StaleHead(h, tx, tx.phase.i, tx.phase.exp))
    && (tx.phase.InstallHead? ==>
          && tx.phase.i < |tx.wset| && tx.wset[tx.phase.i].later == NIL
          && SafePtr(h, tx.wset[tx.phase.i].key, tx.rts, tx.phase.exp) && h[tx.phase.exp].wts <= tx.ts)
    && (tx.phase.InstallSeek? ==>
          && tx.phase.i < |tx.wset| && !tx.wset[tx.phase.i].rmw
          && SafePtr(h, tx.wset[tx.phase.i].key, tx.rts, tx.phase.cur)
          && (tx.wset[tx.phase.i].later == NIL ==> tx.phase.cur == tx.phase.exp)
          && StaleHead(h, tx, tx.phase.i, tx.phase.exp))
  }

  /** A head remembered from before the search went into the list is newer than the transaction. */
  ghost predicate StaleHead(h: seq<Version>, tx: Executor, i: nat, exp: int)
    requires i < |tx.wset|
  {
    tx.wset[i].later != NIL && exp != NIL ==> On(h, exp, tx.wset[i].key) && h[exp].wts > tx.ts
  }

  /** Where the re-scan of the reads and the check of the writes stand. */
  ghost predicate RecheckOk(h: seq<Version>, tx: Executor) {
    && (tx.phase.Raise? || tx.phase.Scan? ==> tx.phase.i <= |tx.rset|)
    && (tx.phase.ScanSeek? || tx.phase.ScanWait? ==>
          && tx.phase.i < |tx.rset| && SafePtr(h, tx.rset[tx.phase.i].key, tx.rts, tx.phase.cur)
          && (tx.phase.ScanWait? ==> h[tx.phase.cur].wts < tx.ts))
    && (tx.phase.CheckWait? ==>
          && tx.phase.i < |tx.wset| && SafePtr(h, tx.wset[tx.phase.i].key, tx.rts, tx.phase.cur)
          && h[tx.phase.cur].wts < tx.ts)
  }

  /** Where the walks of the executor stand. */
  ghost predicate WalkOk(h: seq<Version>, tx: Executor, nrecs: nat) {
    SearchOk(h, tx, nrecs) && PlacementOk(h, tx) && RecheckOk(h, tx)
  }

  ghost predicate Mine(tx: Executor, v: int, k: Key) {
    exists j :: 0 <= j < |tx.wset| && tx.wset[j].ver == v && tx.wset[j].installed && tx.wset[j].key == k
                && !Disposed(tx.phase, j)
  }

  ghost predicate MineOnce(tx: Executor, v: int, k: Key) {
    exists j :: 0 <= j < |tx.wset| && tx.wset[j].ver == v && tx.wset[j].installed && tx.wset[j].key == k
  }

  /** Listed versions carrying the thread's id are no newer than its timestamp, and the
      pending ones belong to its transaction in flight. */
  ghost predicate OwnOk(h: seq<Version>, tx: Executor, t: nat) {
    forall v: int | OnList(h, v) && h[v].wts % TID_SPACE == t ::
      && h[v].wts <= tx.ts
      && (h[v].wts == tx.ts ==> !Unseen(tx.phase) && (InFlight(tx.phase) ==> MineOnce(tx, v, h[v].place.key)))
      && (h[v].status.Pending? ==> h[v].wts == tx.ts && InFlight(tx.phase) && Mine(tx, v, h[v].place.key))
  }

  /** Versions no list reaches: each in exactly one pool or write set. */
  ghost predicate PrivateOk(h: seq<Version>, tx: Executor, t: nat) {
    && (forall i, j | 0 <= i < j < |tx.pool| :: tx.pool[i] != tx.pool[j])
    && (forall j | 0 <= j < |tx.pool| :: Valid(h, tx.pool[j]) && h[tx.pool[j]].place == InPool(t))
    && (forall v | 0 <= v < |h| && h[v].place == InPool(t) :: v in tx.pool)
    && (forall v | 0 <= v < |h| && h[v].place == InWriteSet(t) ::
          exists j :: 0 <= j < |tx.wset| && tx.wset[j].ver == v && !tx.wset[j].installed && !Disposed(tx.phase, j))
  }

  predicate Det(h: seq<Version>, v: int, t: nat) { Valid(h, v) && h[v].place == Detached(t) }

  /** What was cut off is a chain from `del`, newest first. */
  ghost predicate ChainOk(h: seq<Version>, del: int, t: nat) {
    && (del == NIL || (Det(h, del, t) && forall u: int | Det(h, u, t) :: h[u].wts <= h[del].wts))
    && (del == NIL ==> forall u: int :: !Det(h, u, t))
    && (forall u: int, v: int | Det(h, u, t) && Det(h, v, t) && h[u].wts == h[v].wts :: u == v)
    && (forall v: int {:trigger ChainNode(h, v, t)} | Det(h, v, t) :: ChainNode(h, v, t))
  }

  ghost predicate ChainNode(h: seq<Version>, v: int, t: nat)
    requires Det(h, v, t)
  {
    && (h[v].next != NIL ==>
          && Det(h, h[v].next, t) && h[h[v].next].wts < h[v].wts
          && forall u: int | Det(h, u, t) && h[u].wts < h[v].wts :: h[u].wts <= h[h[v].next].wts)
    && (h[v].next == NIL ==> forall u: int | Det(h, u, t) :: h[v].wts <= h[u].wts)
  }

  ghost predicate DetachedOk(h: seq<Version>, tx: Executor, t: nat) {
    if tx.phase.GcCut? || tx.phase.GcPush? then ChainOk(h, tx.phase.del, t) else forall u: int :: !Det(h, u, t)
  }

  /** An entry newer than the cut names a committed version still on its list. */
  ghost predicate EntryOk(h: seq<Version>, recs: seq<Record>, g: GcElement) {
    && g.key < |recs| && Valid(h, g.ver) && Valid(h, recs[g.key].bottom)
    && (g.wts > h[recs[g.key].bottom].wts ==>
          On(h, g.ver, g.key) && h[g.ver].wts == g.wts && h[g.ver].status.Committed?)
  }

  ghost predicate GcOk(h: seq<Version>, recs: seq<Record>, tx: Executor, t: nat, minRts: nat) {
    && (forall j | 0 <= j < |tx.gcq| :: EntryOk(h, recs, tx.gcq[j]))
    && (forall k | 0 <= k < |recs| ::
          recs[k].gcLock == t + 1 <==> Collecting(tx.phase) && tx.gcq != [] && tx.gcq[0].key == k)
    && (Collecting(tx.phase) ==>
          && tx.gcq != [] && tx.gcq[0].wts < minRts
          && var r := recs[tx.gcq[0].key];
             && (!tx.phase.GcCut? ==> r.minWts == h[r.bottom].wts)
             && (tx.phase.GcLoaded? ==> tx.gcq[0].wts > r.minWts && h[tx.gcq[0].ver].next == tx.phase.del)
             && (tx.phase.GcCut? || tx.phase.GcPush? ==> r.bottom == tx.gcq[0].ver && h[r.bottom].wts == tx.gcq[0].wts))
  }

  // ------------------------------------------------------- validation facts

  /** A committed version strictly newer than `v`, at or below `p`, is going to be met. */
  ghost predicate Hits(h: seq<Version>, k: Key, v: int, p: int) {
    Valid(h, v) && Valid(h, p)
    && exists q: int :: On(h, q, k) && h[q].status.Committed? && h[v].wts < h[q].wts <= h[p].wts
  }

  /** A re-scan for the reader of `v` at timestamp `ts` has come down to `p`: whatever
      it has left above was installed later than `v`, and if some of that has passed its
      own check, the scan is still going to find the view broken. */
  ghost predicate ScannedTo(h: seq<Version>, k: Key, v: int, p: int, ts: nat) {
    && Valid(h, v) && Valid(h, p) && h[v].wts <= h[p].wts
    && forall u: int | On(h, u, k) && h[p].wts < h[u].wts < ts && !h[u].status.Aborted? ::
         h[u].seqno > h[v].seqno && (h[u].passed ==> Hits(h, k, v, p))
  }

  ghost predicate Raised(p: Phase, j: nat) {
    (p.Raise? && j < p.i) || Scanning(p) || Checking(p) || p.Committing?
  }

  ghost predicate Scanned(p: Phase, j: nat) {
    (Scanning(p) && j < p.i) || Checking(p) || p.Committing?
  }

  ghost predicate ReadCertified(h: seq<Version>, tx: Executor, j: nat)
    requires j < |tx.rset|
  {
    var r := tx.rset[j];
    && (Raised(tx.phase, j) ==> Valid(h, r.ver) && h[r.ver].rts >= tx.ts)
    && (Scanned(tx.phase, j) ==> ScannedTo(h, r.key, r.ver, r.ver, tx.ts))
    && ((tx.phase.ScanSeek? || tx.phase.ScanWait?) && j == tx.phase.i ==>
          ScannedTo(h, r.key, r.ver, tx.phase.cur, tx.ts))
  }

  /** The write check walking down from `n` has come to `p`: what it has left above is
      aborted or was installed after `n`. */
  ghost predicate CheckedTo(h: seq<Version>, k: Key, n: int, p: int) {
    && Valid(h, n) && Valid(h, p)
    && forall w: int | On(h, w, k) && h[p].wts < h[w].wts < h[n].wts ::
         h[w].status.Aborted? || h[w].seqno > h[n].seqno
  }

  ghost predicate CertOk(h: seq<Version>, tx: Executor) {
    && (forall j | 0 <= j < |tx.rset| :: ReadCertified(h, tx, j))
    && (tx.phase.CheckWait? && tx.phase.i < |tx.wset| ==>
          CheckedTo(h, tx.wset[tx.phase.i].key, tx.wset[tx.phase.i].ver, tx.phase.cur))
  }

  ghost predicate TxOk(h: seq<Version>, tx: Executor, t: nat, nrecs: nat) {
    && WriteSetOk(h, tx, t, nrecs) && ReadSetOk(h, tx, nrecs) && WalkOk(h, tx, nrecs)
    && OwnOk(h, tx, t) && PrivateOk(h, tx, t) && DetachedOk(h, tx, t)
  }

  ghost predicate ThreadsInv(s: State) {
    forall t | 0 <= t < |s.thr| ::
      && TxOk(s.heap, s.thr[t], t, |s.recs|)
      && GcOk(s.heap, s.recs, s.thr[t], t, s.minRts)
      && CertOk(s.heap, s.thr[t])
  }

  ghost predicate BaseInv(s: State) {
    ListsInv(s) && TimesInv(s) && ThreadsInv(s)
  }
}
