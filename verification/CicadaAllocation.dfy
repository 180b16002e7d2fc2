/** The invariant is kept when a write gets its version, and when the write set is sorted. */
module CicadaAllocation {
  import AccessSets
  import opened Cicada
  import opened CicadaInvariant
  import opened CicadaThreads
  import opened CicadaBeginning
  import opened CicadaSearches
  import opened CicadaVersions
  import opened CicadaOutcome

  /** Version `x`, fresh or from the pool, goes into the write set as element `e`. */
  ghost predicate Allocates(h: seq<Version>, h': seq<Version>, tx: Executor, tx': Executor, t: nat, x: int, e: WriteElement) {
    && AllBut(h, h', x) && h'[x] == FreshVersion(tx.ts, t) && e.ver == x && !e.installed
    && tx.phase.WriteCheck? && e.key == tx.phase.key && e.later == tx.phase.later && e.rmw == tx.phase.rmw
    && tx' == tx.(phase := Executing, wset := tx.wset + [e], pool := tx'.pool)
    && if x == |h| then |h'| == |h| + 1 && tx'.pool == tx.pool
       else |h'| == |h| && tx.pool != [] && x == tx.pool[|tx.pool| - 1] && tx'.pool == tx.pool[..|tx.pool| - 1]
  }

  function AllocSlot(s: State, t: nat): int
    requires t < |s.thr|
  {
    if s.thr[t].pool == [] then |s.heap| else s.thr[t].pool[|s.thr[t].pool| - 1]
  }

  function AllocElement(s: State, t: nat): WriteElement
    requires t < |s.thr| && s.thr[t].phase.WriteCheck?
  {
    var p := s.thr[t].phase;
    WriteElement(p.key, p.later, AllocSlot(s, t), p.rmw, false, p.new_)
  }

  lemma AllocShape(s: State, s': State, t: nat)
    requires t < |s.thr| && WriteAlloc(s, s', t) && PrivateOk(s.heap, s.thr[t], t) && t < |s.thr|
    ensures var x := AllocSlot(s, t);
            && Allocates(s.heap, s'.heap, s.thr[t], s'.thr[t], t, x, AllocElement(s, t))
            && Touches(s.heap, s'.heap, x, t, s.minWts) && VersionOk(s'.heap[x], s.clock, |s.recs|, |s.thr|)
            && (x < |s.heap| ==> s.heap[x].place == InPool(t))
    ensures HeapOnly(s, s', t)
  {
  }

  lemma AllocSets(h: seq<Version>, h': seq<Version>, tx: Executor, tx': Executor, t: nat, x: int, e: WriteElement, nrecs: nat)
    requires Allocates(h, h', tx, tx', t, x, e) && WriteSetOk(h, tx, t, nrecs) && (x < |h| ==> h[x].place == InPool(t))
    requires ReadSetOk(h', tx, nrecs) && WalkOk(h', tx, nrecs)
    requires forall j | 0 <= j < |tx.wset| :: LaterOk(h', tx.wset[j].key, tx.wset[j].later, tx.ts)
    ensures WriteSetOk(h', tx', t, nrecs) && ReadSetOk(h', tx', nrecs)
  {
    forall j | 0 <= j < |tx'.wset|
      ensures WriteOk(h', tx', t, j) && tx'.wset[j].key < nrecs && !tx'.wset[j].installed
      ensures j < |tx.wset| ==> tx'.wset[j].ver != x && tx'.wset[j].key != e.key
    {
      if j < |tx.wset| {
        assert WriteOk(h, tx, t, j);
      }
    }
    SameReads(h', tx, tx', nrecs);
  }

  /** The new version is in the write set once, and what was there still is. */
  lemma AllocInSet(tx: Executor, tx': Executor, e: WriteElement, h: seq<Version>, h': seq<Version>, t: nat)
    requires Allocates(h, h', tx, tx', t, e.ver, e)
    requires forall v | 0 <= v < |h| && h[v].place == InWriteSet(t) ::
               exists j :: 0 <= j < |tx.wset| && tx.wset[j].ver == v && !tx.wset[j].installed && !Disposed(tx.phase, j)
    ensures forall v | 0 <= v < |h'| && h'[v].place == InWriteSet(t) ::
              exists j :: 0 <= j < |tx'.wset| && tx'.wset[j].ver == v && !tx'.wset[j].installed && !Disposed(tx'.phase, j)
  {
    forall v | 0 <= v < |h'| && h'[v].place == InWriteSet(t)
      ensures exists j :: 0 <= j < |tx'.wset| && tx'.wset[j].ver == v && !tx'.wset[j].installed && !Disposed(tx'.phase, j)
    {
      if v == e.ver {
        assert tx'.wset[|tx.wset|].ver == v;
      } else {
        var j :| 0 <= j < |tx.wset| && tx.wset[j].ver == v && !tx.wset[j].installed && !Disposed(tx.phase, j);
        assert tx'.wset[j].ver == v;
      }
    }
  }

  lemma AllocListed(h: seq<Version>, h': seq<Version>, tx: Executor, tx': Executor, t: nat, x: int, e: WriteElement)
    requires Allocates(h, h', tx, tx', t, x, e) && (x < |h| ==> h[x].place == InPool(t))
    requires OwnOk(h, tx, t) && DetachedOk(h, tx, t)
    ensures OwnOk(h', tx', t) && DetachedOk(h', tx', t)
  {
    assert forall v: int :: OnList(h', v) ==> OnList(h, v) && h'[v] == h[v];
    assert forall v: int :: Det(h', v, t) ==> Det(h, v, t);
  }

  lemma AllocRest(h: seq<Version>, h': seq<Version>, tx: Executor, tx': Executor, t: nat, x: int, e: WriteElement)
    requires Allocates(h, h', tx, tx', t, x, e) && (x < |h| ==> h[x].place == InPool(t))
    requires OwnOk(h, tx, t) && PrivateOk(h, tx, t) && DetachedOk(h, tx, t)
    ensures OwnOk(h', tx', t) && PrivateOk(h', tx', t) && DetachedOk(h', tx', t)
  {
    AllocListed(h, h', tx, tx', t, x, e);
    AllocInSet(tx, tx', e, h, h', t);
  }

  lemma AllocOwnTx(s: State, s': State, t: nat)
    requires BaseInv(s) && t < |s.thr| && WriteAlloc(s, s', t)
    ensures TxOk(s'.heap, s'.thr[t], t, |s.recs|)
  {
    ThreadOf(s, t);
    AllocShape(s, s', t);
    var tx, x := s.thr[t], AllocSlot(s, t);
    TouchKeepsOwnReads(s, s'.heap, x, t);
    forall j | 0 <= j < |tx.wset| ensures LaterOk(s'.heap, tx.wset[j].key, tx.wset[j].later, tx.ts) {
      LaterKept(s, s'.heap, x, t, j);
    }
    AllocSets(s.heap, s'.heap, tx, s'.thr[t], t, x, AllocElement(s, t), |s.recs|);
    AllocRest(s.heap, s'.heap, tx, s'.thr[t], t, x, AllocElement(s, t));
  }

  lemma WriteAllocKeeps(s: State, s': State, t: nat)
    requires BaseInv(s) && t < |s.thr| && WriteAlloc(s, s', t)
    ensures BaseInv(s')
  {
    ThreadOf(s, t);
    AllocShape(s, s', t);
    AllocOwnTx(s, s', t);
    TouchKeepsOwnReads(s, s'.heap, AllocSlot(s, t), t);
    QuietGc(s'.heap, s.recs, s.thr[t], s'.thr[t], t, s.minRts, s.minRts);
    NothingCertified(s'.heap, s'.thr[t]);
    MoveKeepsTime(s, s'.thr[t], t);
    TouchKeeps(s, s', AllocSlot(s, t), t);
  }

  // ----------------------------------------------------------------- sorting

  lemma SortedMembers(ws: seq<WriteElement>, sorted: seq<WriteElement>)
    requires multiset(sorted) == multiset(ws)
    ensures |sorted| == |ws|
    ensures forall j | 0 <= j < |sorted| :: sorted[j] in ws
    ensures forall j | 0 <= j < |ws| :: ws[j] in sorted
  {
    assert |multiset(sorted)| == |sorted| && |multiset(ws)| == |ws|;
    assert forall x :: x in sorted <==> x in multiset(sorted);
    assert forall x :: x in ws <==> x in multiset(ws);
  }

  lemma {:induction false} OccursOnce(ws: seq<WriteElement>, a: WriteElement)
    requires DistinctWrites(ws)
    ensures multiset(ws)[a] <= 1
  {
    if ws != [] {
      OccursOnce(ws[1..], a);
      assert ws == [ws[0]] + ws[1..];
      assert a == ws[0] ==> a !in ws[1..];
    }
  }

  lemma SortedDistinct(ws: seq<WriteElement>, sorted: seq<WriteElement>)
    requires multiset(sorted) == multiset(ws) && DistinctWrites(ws)
    ensures DistinctWrites(sorted)
  {
    SortedMembers(ws, sorted);
    forall i, j | 0 <= i < j < |sorted| ensures sorted[i].key != sorted[j].key && sorted[i].ver != sorted[j].ver {
      if sorted[i] == sorted[j] {
        AccessSets.TwiceInMultiset(sorted, i, j);
        OccursOnce(ws, sorted[i]);
      }
      var a: int :| 0 <= a < |ws| && ws[a] == sorted[i];
      var b: int :| 0 <= b < |ws| && ws[b] == sorted[j];
    }
  }

  lemma SortKeepsSets(h: seq<Version>, tx: Executor, tx': Executor, t: nat, nrecs: nat)
    requires WriteSetOk(h, tx, t, nrecs) && tx.phase.Executing?
    requires tx' == tx.(phase := Precheck(0), wset := tx'.wset) && multiset(tx'.wset) == multiset(tx.wset)
    ensures WriteSetOk(h, tx', t, nrecs)
  {
    SortedMembers(tx.wset, tx'.wset);
    SortedDistinct(tx.wset, tx'.wset);
    forall j | 0 <= j < |tx'.wset| ensures WriteOk(h, tx', t, j) && tx'.wset[j].key < nrecs && !tx'.wset[j].installed {
      var i :| 0 <= i < |tx.wset| && tx.wset[i] == tx'.wset[j];
      assert WriteOk(h, tx, t, i);
    }
  }

  lemma SortKeepsPrivate(h: seq<Version>, tx: Executor, tx': Executor, t: nat)
    requires PrivateOk(h, tx, t) && tx.phase.Executing?
    requires tx' == tx.(phase := Precheck(0), wset := tx'.wset) && multiset(tx'.wset) == multiset(tx.wset)
    ensures PrivateOk(h, tx', t)
  {
    SortedMembers(tx.wset, tx'.wset);
    forall v | 0 <= v < |h| && h[v].place == InWriteSet(t)
      ensures exists j :: 0 <= j < |tx'.wset| && tx'.wset[j].ver == v && !tx'.wset[j].installed && !Disposed(tx'.phase, j)
    {
      var i :| 0 <= i < |tx.wset| && tx.wset[i].ver == v && !tx.wset[i].installed && !Disposed(tx.phase, i);
      var j :| 0 <= j < |tx'.wset| && tx'.wset[j] == tx.wset[i];
    }
  }

  lemma SortKeepsTx(h: seq<Version>, tx: Executor, tx': Executor, t: nat, nrecs: nat)
    requires TxOk(h, tx, t, nrecs) && tx.phase.Executing? && !tx.ronly
    requires tx' == tx.(phase := Precheck(0), wset := tx'.wset) && multiset(tx'.wset) == multiset(tx.wset)
    ensures TxOk(h, tx', t, nrecs)
  {
    SortKeepsSets(h, tx, tx', t, nrecs);
    SameReads(h, tx, tx', nrecs);
    UnseenOwn(h, tx, tx', t);
    SortKeepsPrivate(h, tx, tx', t);
  }

  lemma ValidateStartKeeps(s: State, s': State, t: nat, sorted: seq<WriteElement>)
    requires BaseInv(s) && t < |s.thr| && ValidateStart(s, s', t, sorted)
    ensures BaseInv(s')
  {
    ThreadOf(s, t);
    SortKeepsTx(s.heap, s.thr[t], s'.thr[t], t, |s.recs|);
    QuietGc(s.heap, s.recs, s.thr[t], s'.thr[t], t, s.minRts, s.minRts);
    NothingCertified(s.heap, s'.thr[t]);
    MoveKeepsTime(s, s'.thr[t], t);
    LocalKeeps(s, s', t);
  }
}
