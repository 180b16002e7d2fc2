/** The handshake at the heart of Cicada's validation: a reader raises the read timestamp
    and then scans, a writer installs and then checks the read timestamp, so that one of
    the two notices the other. */
module CicadaCertification {
  import opened SerialExecution
  import opened Cicada
  import opened CicadaInvariant

  /** The write check of pending version `n` found committed version `c`, whose read
      timestamp allows the write. */
  ghost predicate WriteCleared(h: seq<Version>, k: Key, n: int, c: int) {
    && On(h, n, k) && On(h, c, k) && h[c].wts < h[n].wts
    && h[c].status.Committed? && h[c].rts <= h[n].wts && CheckedTo(h, k, n, c)
  }

  function Passed(h: seq<Version>, n: int): seq<Version>
    requires Valid(h, n)
  {
    h[n := h[n].(passed := true)]
  }

  ghost predicate CommittedPassed(h: seq<Version>, k: Key) {
    && (forall u: int | On(h, u, k) && h[u].status.Committed? :: h[u].passed)
    && (forall u: int, v: int | On(h, u, k) && On(h, v, k) && h[u].wts == h[v].wts :: u == v)
  }

  lemma HitsKept(h: seq<Version>, n: int, k: Key, v: int, p: int)
    requires Valid(h, n) && Hits(h, k, v, p)
    ensures Hits(Passed(h, n), k, v, p)
  {
    var h' := Passed(h, n);
    var q: int :| On(h, q, k) && h[q].status.Committed? && h[v].wts < h[q].wts <= h[p].wts;
    assert On(h', q, k) && h'[q].status.Committed? && h'[v].wts < h'[q].wts <= h'[p].wts;
  }

  /** The overtaken version `c` the writer found lies strictly above what the reader read:
      had it been the very version, its raised read timestamp would have stopped the write. */
  lemma OvertakenAbove(h: seq<Version>, k: Key, n: int, c: int, v: int, p: int, ts: nat)
    requires WriteCleared(h, k, n, c) && CommittedPassed(h, k)
    requires On(h, v, k) && h[v].status.Committed? && h[v].rts >= ts
    requires ScannedTo(h, k, v, p, ts) && h[p].wts < h[n].wts < ts && !h[n].status.Aborted?
    ensures h[v].wts < h[c].wts
  {
    assert h[n].seqno > h[v].seqno;
  }

  lemma WriterMeetsScan(h: seq<Version>, k: Key, n: int, c: int, v: int, p: int, ts: nat)
    requires WriteCleared(h, k, n, c) && CommittedPassed(h, k)
    requires On(h, v, k) && h[v].status.Committed? && h[v].rts >= ts
    requires ScannedTo(h, k, v, p, ts) && h[p].wts < h[n].wts < ts && !h[n].status.Aborted?
    ensures Hits(h, k, v, p)
  {
    OvertakenAbove(h, k, n, c, v, p, ts);
    if h[c].wts <= h[p].wts {
      assert On(h, c, k) && h[c].status.Committed? && h[v].wts < h[c].wts <= h[p].wts;
    } else {
      assert h[c].passed;
    }
  }

  /** A scan that is under way learns of every writer that gets past it. */
  lemma PassKeepsScan(h: seq<Version>, x: Key, n: int, c: int, k: Key, v: int, p: int, ts: nat)
    requires WriteCleared(h, x, n, c) && CommittedPassed(h, x) && !h[n].status.Aborted?
    requires On(h, v, k) && h[v].status.Committed? && h[v].rts >= ts
    requires ScannedTo(h, k, v, p, ts)
    ensures ScannedTo(Passed(h, n), k, v, p, ts)
  {
    var h' := Passed(h, n);
    if Hits(h, k, v, p) {
      HitsKept(h, n, k, v, p);
    }
    if k == x && h[p].wts < h[n].wts < ts {
      WriterMeetsScan(h, k, n, c, v, p, ts);
      HitsKept(h, n, k, v, p);
    }
    forall u: int | On(h', u, k) && h'[p].wts < h'[u].wts < ts && !h'[u].status.Aborted?
      ensures h'[u].seqno > h'[v].seqno && (h'[u].passed ==> Hits(h', k, v, p))
    {
      assert On(h, u, k) && h[p].wts < h[u].wts < ts && !h[u].status.Aborted?;
      assert h[u].seqno > h[v].seqno;
    }
  }

  lemma PassKeepsCert(h: seq<Version>, x: Key, n: int, c: int, tx: Executor, u: nat, nrecs: nat)
    requires WriteCleared(h, x, n, c) && CommittedPassed(h, x) && !h[n].status.Aborted?
    requires ReadSetOk(h, tx, nrecs) && CertOk(h, tx)
    ensures CertOk(Passed(h, n), tx)
  {
    var h' := Passed(h, n);
    forall j | 0 <= j < |tx.rset| ensures ReadCertified(h', tx, j) {
      var r := tx.rset[j];
      assert ReadOk(h, tx, r) && ReadCertified(h, tx, j);
      if Scanned(tx.phase, j) {
        PassKeepsScan(h, x, n, c, r.key, r.ver, r.ver, tx.ts);
      }
      if (tx.phase.ScanSeek? || tx.phase.ScanWait?) && j == tx.phase.i {
        PassKeepsScan(h, x, n, c, r.key, r.ver, tx.phase.cur, tx.ts);
      }
    }
    if tx.phase.CheckWait? && tx.phase.i < |tx.wset| {
      var e := tx.wset[tx.phase.i];
      assert CheckedTo(h, e.key, e.ver, tx.phase.cur);
      forall w: int | On(h', w, e.key) && h'[tx.phase.cur].wts < h'[w].wts < h'[e.ver].wts
        ensures h'[w].status.Aborted? || h'[w].seqno > h'[e.ver].seqno
      {
        assert On(h, w, e.key);
      }
    }
  }
}
