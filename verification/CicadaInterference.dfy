/** What a thread can do to versions other threads look at, and that everything an
    executor knows survives it. */
module CicadaInterference {
  import opened SerialExecution
  import opened Cicada
  import opened CicadaInvariant

  /** Only its thread reads or writes such a version. */
  predicate Private(p: Place, t: nat) { p == InWriteSet(t) || p == InPool(t) || p == Detached(t) }

  /** A listed version keeps its timestamp and installation number, its fate once decided,
      and its value once committed; only its own thread decides it. */
  ghost predicate ListedEvolves(a: Version, b: Version, t: nat, minWts: nat) {
    && b.wts == a.wts && b.seqno == a.seqno && b.rts >= a.rts
    && (b.place == a.place || b.place == Detached(t))
    && (a.passed ==> b.passed)
    && (a.status.Aborted? ==> b.status.Aborted?)
    && (a.status.Committed? ==> b.status.Committed? && b.val == a.val)
    && (b.status.Pending? ==> a.status.Pending?)
    && (a.wts % TID_SPACE != t ==> b.status == a.status && b.passed == a.passed)
    && (b.status.Committed? && !a.status.Committed? ==> a.wts >= minWts)
  }

  ghost predicate FreshlyListed(b: Version, t: nat, clock: nat) {
    b.place.Listed? && b.status.Pending? && !b.passed && b.seqno >= clock && b.wts % TID_SPACE == t
  }

  ghost predicate SlotEvolves(a: Version, b: Version, t: nat, minWts: nat, clock: nat) {
    if a.place.Listed? then ListedEvolves(a, b, t, minWts)
    else if Private(a.place, t) then Private(b.place, t) || FreshlyListed(b, t, clock)
    else b == a
  }

  /** A version that leaves its list lies below the new last version, which is committed
      and older than every snapshot. */
  ghost predicate Outlived(h: seq<Version>, v: int, bottom: int, k: Key, minRts: nat)
    requires Valid(h, v)
  {
    On(h, bottom, k) && h[bottom].status.Committed? && h[v].wts < h[bottom].wts < minRts
  }

  ghost predicate HeapEvolves(h: seq<Version>, h': seq<Version>, recs': seq<Record>,
                              t: nat, minWts: nat, minRts: nat, clock: nat) {
    && |h| <= |h'|
    && (forall v | 0 <= v < |h| :: SlotEvolves(h[v], h'[v], t, minWts, clock))
    && (forall v | |h| <= v < |h'| :: h'[v].place == InWriteSet(t))
    && (forall v: int, k: Key | On(h, v, k) && !On(h', v, k) ::
          k < |recs'| && Outlived(h, v, recs'[k].bottom, k, minRts))
  }

  /** What the view of thread `u` rests on. */
  ghost predicate View(tx: Executor, u: nat, minWts: nat, minRts: nat) {
    && tx.ts % TID_SPACE == u
    && (Active(tx.phase) ==> minRts <= tx.rts < minWts <= tx.ts)
  }

  ghost predicate Interferes(h: seq<Version>, h': seq<Version>, recs': seq<Record>, tx: Executor,
                             t: nat, u: nat, minWts: nat, minRts: nat, clock: nat) {
    HeapEvolves(h, h', recs', t, minWts, minRts, clock) && View(tx, u, minWts, minRts)
  }

  /** Garbage collection never takes what is newer than the snapshot-visible version. */
  lemma StaysOn(h: seq<Version>, h': seq<Version>, recs': seq<Record>, t: nat, minWts: nat, minRts: nat, clock: nat,
                k: Key, rts: nat, v: int)
    requires HeapEvolves(h, h', recs', t, minWts, minRts, clock) && minRts <= rts
    requires On(h, v, k)
    requires h[v].wts > rts || SafePtr(h, k, rts, v)
    ensures On(h', v, k) && ListedEvolves(h[v], h'[v], t, minWts)
  {
    assert SlotEvolves(h[v], h'[v], t, minWts, clock);
  }

  lemma SafePtrStable(h: seq<Version>, h': seq<Version>, recs': seq<Record>, t: nat, minWts: nat, minRts: nat, clock: nat,
                      k: Key, rts: nat, v: int)
    requires HeapEvolves(h, h', recs', t, minWts, minRts, clock) && minRts <= rts < minWts
    requires SafePtr(h, k, rts, v)
    ensures SafePtr(h', k, rts, v) && ListedEvolves(h[v], h'[v], t, minWts)
  {
    StaysOn(h, h', recs', t, minWts, minRts, clock, k, rts, v);
    forall c: int | On(h', c, k) && h'[c].status.Committed? && h'[c].wts <= rts
      ensures h'[c].wts <= h'[v].wts
    {
      assert c < |h|;
      assert SlotEvolves(h[c], h'[c], t, minWts, clock);
      assert On(h, c, k);
    }
  }

  lemma LaterStable(h: seq<Version>, h': seq<Version>, recs': seq<Record>, t: nat, minWts: nat, minRts: nat, clock: nat,
                    k: Key, rts: nat, later: int, bound: nat)
    requires HeapEvolves(h, h', recs', t, minWts, minRts, clock) && minRts <= rts <= bound
    requires LaterOk(h, k, later, bound)
    ensures LaterOk(h', k, later, bound)
  {
    if later != NIL {
      StaysOn(h, h', recs', t, minWts, minRts, clock, k, rts, later);
    }
  }

  lemma WriteSetStable(h: seq<Version>, h': seq<Version>, recs': seq<Record>, tx: Executor, t: nat, u: nat,
                       minWts: nat, minRts: nat, clock: nat, nrecs: nat)
    requires Interferes(h, h', recs', tx, t, u, minWts, minRts, clock) && t != u
    requires WriteSetOk(h, tx, u, nrecs)
    ensures WriteSetOk(h', tx, u, nrecs)
  {
    forall j | 0 <= j < |tx.wset| && !Disposed(tx.phase, j) ensures WriteOk(h', tx, u, j) {
      var e := tx.wset[j];
      assert WriteOk(h, tx, u, j);
      assert SlotEvolves(h[e.ver], h'[e.ver], t, minWts, clock);
      LaterStable(h, h', recs', t, minWts, minRts, clock, e.key, tx.rts, e.later, tx.ts);
      if e.installed {
        StaysOn(h, h', recs', t, minWts, minRts, clock, e.key, tx.rts, e.ver);
      }
    }
  }

  lemma ReadSetStable(h: seq<Version>, h': seq<Version>, recs': seq<Record>, tx: Executor, t: nat, u: nat,
                      minWts: nat, minRts: nat, clock: nat, nrecs: nat)
    requires Interferes(h, h', recs', tx, t, u, minWts, minRts, clock)
    requires ReadSetOk(h, tx, nrecs)
    ensures ReadSetOk(h', tx, nrecs)
  {
    forall j | 0 <= j < |tx.rset| ensures ReadOk(h', tx, tx.rset[j]) {
      var r := tx.rset[j];
      assert ReadOk(h, tx, r);
      SafePtrStable(h, h', recs', t, minWts, minRts, clock, r.key, tx.rts, r.ver);
      LaterStable(h, h', recs', t, minWts, minRts, clock, r.key, tx.rts, r.later, tx.ts);
    }
  }

  lemma SeekStable(h: seq<Version>, h': seq<Version>, recs': seq<Record>, tx: Executor, t: nat, u: nat,
                   minWts: nat, minRts: nat, clock: nat, nrecs: nat)
    requires Interferes(h, h', recs', tx, t, u, minWts, minRts, clock)
    requires WalkOk(h, tx, nrecs)
    requires tx.phase.ReadSeek? || tx.phase.ReadWait? || tx.phase.WriteSeek? || tx.phase.WriteCheck?
    ensures WalkOk(h', tx, nrecs)
  {
    SafePtrStable(h, h', recs', t, minWts, minRts, clock, tx.phase.key, tx.rts, tx.phase.cur);
    LaterStable(h, h', recs', t, minWts, minRts, clock, tx.phase.key, tx.rts, tx.phase.later,
                if tx.phase.ReadSeek? || tx.phase.ReadWait? then Bound(tx) else tx.ts);
  }

  lemma InstallWalkStable(h: seq<Version>, h': seq<Version>, recs': seq<Record>, tx: Executor, t: nat, u: nat,
                          minWts: nat, minRts: nat, clock: nat, nrecs: nat)
    requires Interferes(h, h', recs', tx, t, u, minWts, minRts, clock)
    requires WalkOk(h, tx, nrecs)
    requires Installing(tx.phase)
    ensures WalkOk(h', tx, nrecs)
  {
    if tx.phase.i < |tx.wset| {
      var k := tx.wset[tx.phase.i].key;
      if On(h, tx.phase.exp, k) && h[tx.phase.exp].wts > tx.ts {
        StaysOn(h, h', recs', t, minWts, minRts, clock, k, tx.rts, tx.phase.exp);
      }
      if tx.phase.InstallSeek? {
        SafePtrStable(h, h', recs', t, minWts, minRts, clock, k, tx.rts, tx.phase.cur);
      }
      if tx.phase.InstallHead? {
        SafePtrStable(h, h', recs', t, minWts, minRts, clock, k, tx.rts, tx.phase.exp);
      }
    }
  }

  lemma CertifyWalkStable(h: seq<Version>, h': seq<Version>, recs': seq<Record>, tx: Executor, t: nat, u: nat,
                          minWts: nat, minRts: nat, clock: nat, nrecs: nat)
    requires Interferes(h, h', recs', tx, t, u, minWts, minRts, clock)
    requires WalkOk(h, tx, nrecs)
    requires tx.phase.PreSeek? || tx.phase.PreWait? || tx.phase.ScanSeek? || tx.phase.ScanWait? || tx.phase.CheckWait?
    ensures WalkOk(h', tx, nrecs)
  {
    var k := if tx.phase.ScanSeek? || tx.phase.ScanWait? then tx.rset[tx.phase.i].key else tx.wset[tx.phase.i].key;
    SafePtrStable(h, h', recs', t, minWts, minRts, clock, k, tx.rts, tx.phase.cur);
  }

  lemma WalkStable(h: seq<Version>, h': seq<Version>, recs': seq<Record>, tx: Executor, t: nat, u: nat,
                   minWts: nat, minRts: nat, clock: nat, nrecs: nat)
    requires Interferes(h, h', recs', tx, t, u, minWts, minRts, clock)
    requires WalkOk(h, tx, nrecs)
    ensures WalkOk(h', tx, nrecs)
  {
    if tx.phase.ReadSeek? || tx.phase.ReadWait? || tx.phase.WriteSeek? || tx.phase.WriteCheck? {
      SeekStable(h, h', recs', tx, t, u, minWts, minRts, clock, nrecs);
    } else if Installing(tx.phase) {
      InstallWalkStable(h, h', recs', tx, t, u, minWts, minRts, clock, nrecs);
    } else if tx.phase.PreSeek? || tx.phase.PreWait? || tx.phase.ScanSeek? || tx.phase.ScanWait? || tx.phase.CheckWait? {
      CertifyWalkStable(h, h', recs', tx, t, u, minWts, minRts, clock, nrecs);
    }
  }

  lemma OwnStable(h: seq<Version>, h': seq<Version>, recs': seq<Record>, tx: Executor, t: nat, u: nat,
                  minWts: nat, minRts: nat, clock: nat)
    requires HeapEvolves(h, h', recs', t, minWts, minRts, clock) && t != u
    requires OwnOk(h, tx, u)
    ensures OwnOk(h', tx, u)
  {
    forall v: int | OnList(h', v) && h'[v].wts % TID_SPACE == u
      ensures OnList(h, v) && h'[v].wts == h[v].wts && h'[v].place == h[v].place && (h'[v].status.Pending? ==> h[v].status.Pending?)
    {
      assert v < |h|;
      assert SlotEvolves(h[v], h'[v], t, minWts, clock);
    }
  }

  lemma PrivateSlots(h: seq<Version>, h': seq<Version>, recs': seq<Record>, t: nat, u: nat,
                     minWts: nat, minRts: nat, clock: nat)
    requires HeapEvolves(h, h', recs', t, minWts, minRts, clock) && t != u
    ensures forall v | 0 <= v < |h'| && Private(h'[v].place, u) :: v < |h| && h'[v] == h[v]
    ensures forall v | 0 <= v < |h| && Private(h[v].place, u) :: h'[v] == h[v]
  {
    forall v | 0 <= v < |h|
      ensures Private(h[v].place, u) || Private(h'[v].place, u) ==> h'[v] == h[v]
    {
      assert SlotEvolves(h[v], h'[v], t, minWts, clock);
    }
  }

  lemma PrivateStable(h: seq<Version>, h': seq<Version>, recs': seq<Record>, tx: Executor, t: nat, u: nat,
                      minWts: nat, minRts: nat, clock: nat)
    requires HeapEvolves(h, h', recs', t, minWts, minRts, clock) && t != u
    requires PrivateOk(h, tx, u)
    ensures PrivateOk(h', tx, u)
  {
    PrivateSlots(h, h', recs', t, u, minWts, minRts, clock);
  }

  lemma DetachedStable(h: seq<Version>, h': seq<Version>, recs': seq<Record>, tx: Executor, t: nat, u: nat,
                       minWts: nat, minRts: nat, clock: nat)
    requires HeapEvolves(h, h', recs', t, minWts, minRts, clock) && t != u
    requires DetachedOk(h, tx, u)
    ensures DetachedOk(h', tx, u)
  {
    PrivateSlots(h, h', recs', t, u, minWts, minRts, clock);
    assert forall v: int :: Det(h', v, u) <==> Det(h, v, u);
    if tx.phase.GcCut? || tx.phase.GcPush? {
      forall v: int | Det(h', v, u) ensures ChainNode(h', v, u) {
        assert ChainNode(h, v, u);
      }
    }
  }

  // -------------------------------------------------------- collected records

  /** The last version of a list is only ever replaced by a newer one. */
  ghost predicate BottomsRise(h: seq<Version>, h': seq<Version>, recs: seq<Record>, recs': seq<Record>) {
    && |recs'| == |recs|
    && forall k: Key | k < |recs| ::
         && On(h, recs[k].bottom, k) && On(h', recs'[k].bottom, k)
         && h[recs[k].bottom].wts <= h'[recs'[k].bottom].wts
  }

  /** Records as the collector of another record sees them change. */
  ghost predicate RecordsEvolve(h: seq<Version>, h': seq<Version>, recs: seq<Record>, recs': seq<Record>,
                                t: nat, u: nat, minRts: nat) {
    && BottomsRise(h, h', recs, recs')
    && (forall k: Key | k < |recs| ::
          && (recs[k].gcLock == u + 1 <==> recs'[k].gcLock == u + 1)
          && (recs[k].gcLock == u + 1 ==> recs'[k].bottom == recs[k].bottom && recs'[k].minWts == recs[k].minWts))
    && (forall k: Key, v: int | k < |recs| && recs[k].gcLock == u + 1 && On(h, v, k) && h[v].wts < minRts ::
          Valid(h', v) && h'[v].next == h[v].next)
  }

  lemma EntryStable(h: seq<Version>, h': seq<Version>, recs: seq<Record>, recs': seq<Record>, t: nat,
                    minWts: nat, minRts: nat, clock: nat, g: GcElement)
    requires HeapEvolves(h, h', recs', t, minWts, minRts, clock) && BottomsRise(h, h', recs, recs')
    requires EntryOk(h, recs, g)
    ensures EntryOk(h', recs', g)
  {
    assert SlotEvolves(h[g.ver], h'[g.ver], t, minWts, clock);
    var b := recs'[g.key].bottom;
    if Valid(h, b) {
      assert SlotEvolves(h[b], h'[b], t, minWts, clock);
    }
  }

  lemma GcStable(h: seq<Version>, h': seq<Version>, recs: seq<Record>, recs': seq<Record>, tx: Executor, t: nat, u: nat,
                 minWts: nat, minRts: nat, clock: nat)
    requires HeapEvolves(h, h', recs', t, minWts, minRts, clock) && RecordsEvolve(h, h', recs, recs', t, u, minRts)
    requires GcOk(h, recs, tx, u, minRts)
    ensures GcOk(h', recs', tx, u, minRts)
  {
    forall j | 0 <= j < |tx.gcq| ensures EntryOk(h', recs', tx.gcq[j]) {
      EntryStable(h, h', recs, recs', t, minWts, minRts, clock, tx.gcq[j]);
    }
    if Collecting(tx.phase) {
      var k := tx.gcq[0].key;
      assert SlotEvolves(h[recs[k].bottom], h'[recs[k].bottom], t, minWts, clock);
      assert EntryOk(h, recs, tx.gcq[0]);
    }
  }

  // ------------------------------------------------------- certified reads

  /** No listed version passes its write check in this step. */
  ghost predicate NonePass(h: seq<Version>, h': seq<Version>) {
    forall v | 0 <= v < |h| && v < |h'| && h[v].place.Listed? && h'[v].passed :: h[v].passed
  }

  lemma HitsStable(h: seq<Version>, h': seq<Version>, recs': seq<Record>, t: nat, minWts: nat, minRts: nat, clock: nat,
                   k: Key, rts: nat, v: int, p: int)
    requires HeapEvolves(h, h', recs', t, minWts, minRts, clock) && minRts <= rts < minWts
    requires SafePtr(h, k, rts, v) && On(h, p, k) && On(h', p, k) && Hits(h, k, v, p)
    ensures Hits(h', k, v, p)
  {
    var q: int :| On(h, q, k) && h[q].status.Committed? && h[v].wts < h[q].wts <= h[p].wts;
    StaysOn(h, h', recs', t, minWts, minRts, clock, k, rts, q);
    StaysOn(h, h', recs', t, minWts, minRts, clock, k, rts, v);
    assert SlotEvolves(h[p], h'[p], t, minWts, clock);
    assert On(h', q, k) && h'[q].status.Committed? && h'[v].wts < h'[q].wts <= h'[p].wts;
  }

  lemma ScannedStable(h: seq<Version>, h': seq<Version>, recs': seq<Record>, t: nat, minWts: nat, minRts: nat, clock: nat,
                      k: Key, rts: nat, v: int, p: int, ts: nat)
    requires HeapEvolves(h, h', recs', t, minWts, minRts, clock) && minRts <= rts < minWts
    requires SafePtr(h, k, rts, v) && SafePtr(h, k, rts, p) && h[v].seqno < clock
    requires NonePass(h, h') && ScannedTo(h, k, v, p, ts)
    ensures ScannedTo(h', k, v, p, ts)
  {
    SafePtrStable(h, h', recs', t, minWts, minRts, clock, k, rts, v);
    SafePtrStable(h, h', recs', t, minWts, minRts, clock, k, rts, p);
    if Hits(h, k, v, p) {
      HitsStable(h, h', recs', t, minWts, minRts, clock, k, rts, v, p);
    }
    forall u: int | On(h', u, k) && h'[p].wts < h'[u].wts < ts && !h'[u].status.Aborted?
      ensures h'[u].seqno > h'[v].seqno && (h'[u].passed ==> Hits(h', k, v, p))
    {
      if u < |h| {
        assert SlotEvolves(h[u], h'[u], t, minWts, clock);
        if On(h, u, k) {
          assert h[u].seqno > h[v].seqno;
        }
      }
    }
  }

  lemma CheckedStable(h: seq<Version>, h': seq<Version>, recs': seq<Record>, t: nat, minWts: nat, minRts: nat, clock: nat,
                      k: Key, rts: nat, n: int, p: int)
    requires HeapEvolves(h, h', recs', t, minWts, minRts, clock) && minRts <= rts < minWts
    requires On(h, n, k) && h[n].wts > rts && h[n].seqno < clock && SafePtr(h, k, rts, p)
    requires CheckedTo(h, k, n, p)
    ensures CheckedTo(h', k, n, p)
  {
    StaysOn(h, h', recs', t, minWts, minRts, clock, k, rts, n);
    SafePtrStable(h, h', recs', t, minWts, minRts, clock, k, rts, p);
    forall w: int | On(h', w, k) && h'[p].wts < h'[w].wts < h'[n].wts
      ensures h'[w].status.Aborted? || h'[w].seqno > h'[n].seqno
    {
      if w < |h| {
        assert SlotEvolves(h[w], h'[w], t, minWts, clock);
      }
    }
  }

  ghost predicate SeqnosBelow(h: seq<Version>, clock: nat) {
    forall v | 0 <= v < |h| && h[v].place.Listed? :: h[v].seqno < clock
  }

  lemma ReadCertStable(h: seq<Version>, h': seq<Version>, recs': seq<Record>, tx: Executor, t: nat, u: nat,
                       minWts: nat, minRts: nat, clock: nat, nrecs: nat, j: nat)
    requires Interferes(h, h', recs', tx, t, u, minWts, minRts, clock) && SeqnosBelow(h, clock)
    requires ReadSetOk(h, tx, nrecs) && WalkOk(h, tx, nrecs) && j < |tx.rset|
    requires ReadCertified(h, tx, j) && NonePass(h, h')
    ensures ReadCertified(h', tx, j)
  {
    var r := tx.rset[j];
    assert ReadOk(h, tx, r);
    SafePtrStable(h, h', recs', t, minWts, minRts, clock, r.key, tx.rts, r.ver);
    if Scanned(tx.phase, j) {
      ScannedStable(h, h', recs', t, minWts, minRts, clock, r.key, tx.rts, r.ver, r.ver, tx.ts);
    }
    if (tx.phase.ScanSeek? || tx.phase.ScanWait?) && j == tx.phase.i {
      ScannedStable(h, h', recs', t, minWts, minRts, clock, r.key, tx.rts, r.ver, tx.phase.cur, tx.ts);
    }
  }

  lemma CheckCertStable(h: seq<Version>, h': seq<Version>, recs': seq<Record>, tx: Executor, t: nat, u: nat,
                        minWts: nat, minRts: nat, clock: nat, nrecs: nat)
    requires Interferes(h, h', recs', tx, t, u, minWts, minRts, clock) && SeqnosBelow(h, clock)
    requires WriteSetOk(h, tx, u, nrecs) && WalkOk(h, tx, nrecs) && tx.phase.CheckWait?
    requires CheckedTo(h, tx.wset[tx.phase.i].key, tx.wset[tx.phase.i].ver, tx.phase.cur)
    ensures CheckedTo(h', tx.wset[tx.phase.i].key, tx.wset[tx.phase.i].ver, tx.phase.cur)
  {
    var e := tx.wset[tx.phase.i];
    assert WriteOk(h, tx, u, tx.phase.i);
    CheckedStable(h, h', recs', t, minWts, minRts, clock, e.key, tx.rts, e.ver, tx.phase.cur);
  }

  lemma CertStable(h: seq<Version>, h': seq<Version>, recs': seq<Record>, tx: Executor, t: nat, u: nat,
                   minWts: nat, minRts: nat, clock: nat, nrecs: nat)
    requires Interferes(h, h', recs', tx, t, u, minWts, minRts, clock) && SeqnosBelow(h, clock)
    requires WriteSetOk(h, tx, u, nrecs) && ReadSetOk(h, tx, nrecs) && WalkOk(h, tx, nrecs)
    requires CertOk(h, tx) && NonePass(h, h')
    ensures CertOk(h', tx)
  {
    forall j | 0 <= j < |tx.rset| ensures ReadCertified(h', tx, j) {
      ReadCertStable(h, h', recs', tx, t, u, minWts, minRts, clock, nrecs, j);
    }
    if tx.phase.CheckWait? {
      CheckCertStable(h, h', recs', tx, t, u, minWts, minRts, clock, nrecs);
    }
  }
}