/** Version lists: what insertion at the head or in the middle, and cutting off the tail,
    do to them, and where a walk down a list can get to. */
module CicadaLists {
  import opened SerialExecution
  import opened Cicada
  import opened CicadaInvariant

  // ------------------------------------------------------------------- walks

  lemma WalkFromLatest(h: seq<Version>, r: Record, k: Key, rts: nat)
    requires ListInv(h, r, k)
    ensures SafePtr(h, k, rts, r.latest)
  {
  }

  /** Above the snapshot there is always an older version to go to, and it is safe. */
  lemma WalkNext(h: seq<Version>, r: Record, k: Key, rts: nat, v: int)
    requires ListInv(h, r, k) && h[r.bottom].wts <= rts
    requires On(h, v, k) && h[v].wts > rts
    ensures SafePtr(h, k, rts, h[v].next) && h[h[v].next].wts < h[v].wts
    ensures forall u: int | On(h, u, k) && h[u].wts < h[v].wts :: h[u].wts <= h[h[v].next].wts
  {
    assert NodeOk(h, k, v, r.bottom);
  }

  /** Past a version that is not committed. */
  lemma WalkDown(h: seq<Version>, r: Record, k: Key, rts: nat, v: int)
    requires ListInv(h, r, k)
    requires SafePtr(h, k, rts, v) && !h[v].status.Committed?
    ensures SafePtr(h, k, rts, h[v].next) && h[h[v].next].wts < h[v].wts
    ensures forall u: int | On(h, u, k) && h[u].wts < h[v].wts :: h[u].wts <= h[h[v].next].wts
  {
    assert NodeOk(h, k, v, r.bottom);
    forall c: int | On(h, c, k) && h[c].status.Committed? && h[c].wts <= rts
      ensures h[c].wts <= h[h[v].next].wts
    {
      assert h[c].wts <= h[v].wts;
      assert h[c].wts != h[v].wts;
    }
  }

  // ----------------------------------------------------- lists left in place

  /** The lists of `h` and `h'` have the same versions in the same order. */
  ghost predicate SameLists(h: seq<Version>, h': seq<Version>) {
    && |h| <= |h'|
    && (forall v | 0 <= v < |h| && h[v].place.Listed? ::
          && h'[v].place == h[v].place && h'[v].wts == h[v].wts && h'[v].next == h[v].next
          && (h[v].status.Committed? ==> h'[v].status.Committed?))
    && (forall v | 0 <= v < |h'| && h'[v].place.Listed? :: v < |h| && h[v].place.Listed?)
  }

  lemma SameListKept(h: seq<Version>, h': seq<Version>, r: Record, r': Record, k: Key)
    requires SameLists(h, h') && ListInv(h, r, k) && r'.latest == r.latest && r'.bottom == r.bottom
    ensures ListInv(h', r', k)
  {
    forall v: int | On(h', v, k) ensures On(h, v, k) && NodeOk(h', k, v, r.bottom) {
      assert NodeOk(h, k, v, r.bottom);
    }
  }

  // --------------------------------------------------------------- insertion

  /** `n` is put between the pending inserts' neighbours `above` (NIL at the head) and `below`. */
  ghost predicate Inserts(h: seq<Version>, h': seq<Version>, k: Key, n: int, above: int, below: int, clock: nat) {
    && Valid(h, n) && !h[n].place.Listed?
    && |h'| == |h|
    && h'[n] == Installed(h, n, k, below, clock)
    && (forall v | 0 <= v < |h| && v != n && v != above :: h'[v] == h[v])
    && (above != NIL ==> Valid(h, above) && above != n && h'[above] == h[above].(next := n))
  }

  lemma InsertElsewhere(h: seq<Version>, h': seq<Version>, k: Key, n: int, above: int, below: int, clock: nat,
                        r: Record, x: Key)
    requires Inserts(h, h', k, n, above, below, clock) && x != k && ListInv(h, r, x)
    requires above != NIL ==> On(h, above, k)
    ensures ListInv(h', r, x)
  {
    assert forall v: int :: On(h', v, x) <==> On(h, v, x);
    forall v: int | On(h', v, x) ensures NodeOk(h', x, v, r.bottom) {
      assert NodeOk(h, x, v, r.bottom);
    }
  }

  lemma InsertHead(h: seq<Version>, h': seq<Version>, k: Key, n: int, clock: nat, r: Record)
    requires ListInv(h, r, k) && Inserts(h, h', k, n, NIL, r.latest, clock)
    requires h[n].wts > h[r.latest].wts
    ensures ListInv(h', r.(latest := n), k)
  {
    assert forall v: int :: On(h', v, k) <==> On(h, v, k) || v == n;
    forall v: int | On(h', v, k) ensures NodeOk(h', k, v, r.bottom) {
      if v != n {
        assert NodeOk(h, k, v, r.bottom);
      }
    }
  }

  lemma InsertMiddle(h: seq<Version>, h': seq<Version>, k: Key, n: int, above: int, below: int, clock: nat, r: Record)
    requires ListInv(h, r, k) && Inserts(h, h', k, n, above, below, clock) && above != NIL
    requires On(h, above, k) && On(h, below, k) && h[above].next == below
    requires h[below].wts < h[n].wts < h[above].wts
    ensures ListInv(h', r, k)
  {
    assert NodeOk(h, k, above, r.bottom);
    assert forall v: int :: On(h', v, k) <==> On(h, v, k) || v == n;
    forall u: int | On(h, u, k) ensures h[u].wts != h[n].wts {
      assert h[u].wts < h[above].wts ==> h[u].wts <= h[below].wts;
    }
    forall v: int | On(h', v, k) ensures NodeOk(h', k, v, r.bottom) {
      if v != n {
        InsertMiddleNode(h, h', k, n, above, below, clock, r, v);
      }
    }
  }

  lemma InsertMiddleNode(h: seq<Version>, h': seq<Version>, k: Key, n: int, above: int, below: int, clock: nat,
                         r: Record, v: int)
    requires ListInv(h, r, k) && Inserts(h, h', k, n, above, below, clock) && above != NIL
    requires On(h, above, k) && On(h, below, k) && h[above].next == below
    requires h[below].wts < h[n].wts < h[above].wts
    requires On(h, v, k) && v != n
    ensures On(h', v, k) && NodeOk(h', k, v, r.bottom)
  {
    assert NodeOk(h, k, v, r.bottom);
    assert NodeOk(h, k, above, r.bottom);
    if v != above && h[v].next != NIL {
      var x := h[v].next;
      forall u: int | On(h', u, k) && h'[u].wts < h'[v].wts ensures h'[u].wts <= h'[x].wts {
        if u == n {
          BelowNotBetween(h, k, above, below, r, v);
        }
      }
    }
  }

  /** The next version of any other version is not below the place of insertion unless
      the version itself is. */
  lemma BelowNotBetween(h: seq<Version>, k: Key, above: int, below: int, r: Record, v: int)
    requires ListInv(h, r, k) && On(h, above, k) && On(h, below, k) && h[above].next == below
    requires On(h, v, k) && v != above && On(h, h[v].next, k)
    ensures h[v].wts <= h[below].wts || h[above].wts <= h[h[v].next].wts
  {
    assert NodeOk(h, k, v, r.bottom);
    assert NodeOk(h, k, above, r.bottom);
    assert h[v].wts != h[above].wts;
  }

  // -------------------------------------------------------------- truncation

  lemma CutKeepsList(h: seq<Version>, h': seq<Version>, k: Key, b: int, t: nat, r: Record)
    requires ListInv(h, r, k) && Truncates(h, h', k, b, t) && On(h, b, k) && h[b].status.Committed?
    ensures ListInv(h', r.(bottom := b), k)
  {
    assert forall v: int :: On(h', v, k) <==> On(h, v, k) && h[v].wts >= h[b].wts;
    forall v: int | On(h', v, k) ensures NodeOk(h', k, v, b) {
      assert NodeOk(h, k, v, r.bottom);
      if v != b {
        assert h[v].wts > h[b].wts;
      }
    }
  }

  lemma CutElsewhere(h: seq<Version>, h': seq<Version>, k: Key, b: int, t: nat, r: Record, x: Key)
    requires x != k && ListInv(h, r, x) && Truncates(h, h', k, b, t) && On(h, b, k)
    ensures ListInv(h', r, x)
  {
    assert forall v: int :: On(h', v, x) <==> On(h, v, x);
    forall v: int | On(h', v, x) ensures h'[v] == h[v] && NodeOk(h', x, v, r.bottom) {
      assert NodeOk(h, x, v, r.bottom);
    }
  }

  /** What is cut off is exactly the tail, still chained newest first. */
  lemma CutLeavesChain(h: seq<Version>, h': seq<Version>, k: Key, b: int, t: nat, r: Record)
    requires ListInv(h, r, k) && Truncates(h, h', k, b, t) && On(h, b, k) && (forall u: int :: !Det(h, u, t))
    ensures ChainOk(h', h[b].next, t)
  {
    assert NodeOk(h, k, b, r.bottom);
    forall v: int ensures Det(h', v, t) <==> On(h, v, k) && h[v].wts < h[b].wts {
      assert !Det(h, v, t);
    }
    forall v: int | Det(h', v, t) ensures ChainNode(h', v, t) {
      assert NodeOk(h, k, v, r.bottom);
    }
  }
}
