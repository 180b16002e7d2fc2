/** The invariant is kept when a compare-and-swap installs a pending version. */
module CicadaInsertion {
  import opened SerialExecution
  import opened Cicada
  import opened CicadaInvariant
  import opened CicadaInterference
  import opened CicadaThreads
  import opened CicadaLists
  import opened CicadaBeginning
  import opened CicadaValidation

  /** Element `i` of the executor's write set goes onto its list, above `below`. */
  ghost predicate InstallsOne(s: State, s': State, t: nat, i: nat, above: int, below: int) {
    && s'.threadWts == s.threadWts && s'.threadRts == s.threadRts && s'.minWts == s.minWts && s'.minRts == s.minRts
    && s'.initTs == s.initTs && s'.clock == s.clock + 1
    && OnlyThread(s, s', t) && i < |s.thr[t].wset| && Installing(s.thr[t].phase) && s.thr[t].phase.i == i
    && var e := s.thr[t].wset[i];
       && e.key < |s.recs| && s'.thr[t] == s.thr[t].(phase := Install(i + 1, NIL), wset := s.thr[t].wset[i := e.(installed := true)])
       && Inserts(s.heap, s'.heap, e.key, e.ver, above, below, s.clock)
       && On(s.heap, below, e.key) && s.heap[below].wts < s.thr[t].ts
       && s'.recs == (if above == NIL then s.recs[e.key := s.recs[e.key].(latest := e.ver)] else s.recs)
       && (if above == NIL then below == s.recs[e.key].latest
           else On(s.heap, above, e.key) && s.heap[above].next == below && s.heap[above].wts > s.thr[t].ts)
  }

  /** No listed version of the record carries the timestamp about to be installed. */
  lemma TimestampIsNew(s: State, t: nat, i: nat, v: int)
    requires BaseInv(s) && t < |s.thr| && Installing(s.thr[t].phase) && s.thr[t].phase.i == i < |s.thr[t].wset|
    requires On(s.heap, v, s.thr[t].wset[i].key)
    ensures s.heap[v].wts != s.thr[t].ts
  {
    ThreadOf(s, t);
    SameTimes(s, t);
    var tx := s.thr[t];
    assert OnList(s.heap, v);
  }

  lemma CasHeadInstalls(s: State, s': State, t: nat)
    requires BaseInv(s) && t < |s.thr| && CasHead(s, s', t)
    ensures InstallsOne(s, s', t, s.thr[t].phase.i, NIL, s.thr[t].phase.exp)
  {
    ThreadOf(s, t);
    WriteFacts(s, t, s.thr[t].phase.i);
    TimestampIsNew(s, t, s.thr[t].phase.i, s.thr[t].phase.exp);
  }

  lemma CasMiddleInstalls(s: State, s': State, t: nat)
    requires BaseInv(s) && t < |s.thr| && CasMiddle(s, s', t)
    ensures InstallsOne(s, s', t, s.thr[t].phase.i, s.thr[t].wset[s.thr[t].phase.i].later, s.thr[t].phase.cur)
  {
    ThreadOf(s, t);
    WriteFacts(s, t, s.thr[t].phase.i);
    TimestampIsNew(s, t, s.thr[t].phase.i, s.thr[t].phase.cur);
  }

  /** What the invariant says of the element about to be installed. */
  lemma InstallFacts(s: State, s': State, t: nat, i: nat, above: int, below: int)
    requires BaseInv(s) && InstallsOne(s, s', t, i, above, below)
    ensures WriteOk(s.heap, s.thr[t], t, i) && s.heap[s.thr[t].wset[i].ver].place == InWriteSet(t)
    ensures s.thr[t].ts % TID_SPACE == t && s.minWts <= s.thr[t].ts && t < |s.thr|
  {
    WriteFacts(s, t, i);
    SameTimes(s, t);
  }

  lemma SlotsEvolve(s: State, s': State, t: nat, i: nat, above: int, below: int, v: nat)
    requires InstallsOne(s, s', t, i, above, below) && WriteOk(s.heap, s.thr[t], t, i) && v < |s.heap|
    requires s.heap[s.thr[t].wset[i].ver].place == InWriteSet(t) && s.thr[t].ts % TID_SPACE == t
    requires VersionOk(s.heap[v], s.clock, |s.recs|, |s.thr|)
    ensures SlotEvolves(s.heap[v], s'.heap[v], t, s.minWts, s.clock)
    ensures s.heap[v].passed == s'.heap[v].passed
    ensures VersionOk(s'.heap[v], s'.clock, |s.recs|, |s.thr|)
  {
  }

  lemma InstallEvolves(s: State, s': State, t: nat, i: nat, above: int, below: int)
    requires BaseInv(s) && InstallsOne(s, s', t, i, above, below)
    ensures HeapEvolves(s.heap, s'.heap, s'.recs, t, s.minWts, s.minRts, s.clock) && NonePass(s.heap, s'.heap)
    ensures WriteOk(s.heap, s.thr[t], t, i) && s.heap[s.thr[t].wset[i].ver].place == InWriteSet(t)
  {
    InstallFacts(s, s', t, i, above, below);
    forall v | 0 <= v < |s.heap|
      ensures SlotEvolves(s.heap[v], s'.heap[v], t, s.minWts, s.clock) && s.heap[v].passed == s'.heap[v].passed
    {
      assert VersionOk(s.heap[v], s.clock, |s.recs|, |s.thr|);
      SlotsEvolve(s, s', t, i, above, below, v);
    }
  }

  lemma InstallKeepsList(s: State, s': State, t: nat, i: nat, above: int, below: int, k: Key)
    requires InstallsOne(s, s', t, i, above, below) && WriteOk(s.heap, s.thr[t], t, i) && k < |s.recs|
    requires s.heap[s.thr[t].wset[i].ver].place == InWriteSet(t)
    requires ListInv(s.heap, s.recs[k], k) && RecordOk(s.heap, s.recs[k], s.initTs, s.minRts, |s.thr|)
    ensures ListInv(s'.heap, s'.recs[k], k) && RecordOk(s'.heap, s'.recs[k], s.initTs, s.minRts, |s.thr|)
  {
    var e := s.thr[t].wset[i];
    if k != e.key {
      InsertElsewhere(s.heap, s'.heap, e.key, e.ver, above, below, s.clock, s.recs[k], k);
    } else if above == NIL {
      InsertHead(s.heap, s'.heap, k, e.ver, s.clock, s.recs[k]);
    } else {
      InsertMiddle(s.heap, s'.heap, k, e.ver, above, below, s.clock, s.recs[k]);
    }
  }

  lemma InstallKeepsLists(s: State, s': State, t: nat, i: nat, above: int, below: int)
    requires BaseInv(s) && InstallsOne(s, s', t, i, above, below)
    ensures ListsInv(s')
  {
    InstallFacts(s, s', t, i, above, below);
    forall k | 0 <= k < |s.recs|
      ensures ListInv(s'.heap, s'.recs[k], k) && RecordOk(s'.heap, s'.recs[k], s.initTs, s.minRts, |s.thr|)
    {
      assert ListInv(s.heap, s.recs[k], k) && RecordOk(s.heap, s.recs[k], s.initTs, s.minRts, |s.thr|);
      InstallKeepsList(s, s', t, i, above, below, k);
    }
    forall v | 0 <= v < |s'.heap| ensures VersionOk(s'.heap[v], s'.clock, |s.recs|, |s.thr|) {
      assert VersionOk(s.heap[v], s.clock, |s.recs|, |s.thr|);
      SlotsEvolve(s, s', t, i, above, below, v);
    }
  }

  lemma InsertKeepsRecords(h: seq<Version>, h': seq<Version>, recs: seq<Record>, recs': seq<Record>,
                           k: Key, n: int, above: int, below: int, clock: nat, t: nat, u: nat, minRts: nat)
    requires Inserts(h, h', k, n, above, below, clock) && k < |recs| && Private(h[n].place, t)
    requires above != NIL ==> On(h, above, k) && h[above].wts >= minRts
    requires recs' == (if above == NIL then recs[k := recs[k].(latest := n)] else recs)
    requires forall x: Key | x < |recs| :: On(h, recs[x].bottom, x)
    ensures RecordsEvolve(h, h', recs, recs', t, u, minRts)
  {
    forall x: Key | x < |recs|
      ensures recs'[x].bottom == recs[x].bottom && recs'[x].gcLock == recs[x].gcLock && recs'[x].minWts == recs[x].minWts
      ensures On(h', recs[x].bottom, x) && h'[recs[x].bottom].wts == h[recs[x].bottom].wts
    {
      assert On(h, recs[x].bottom, x);
    }
  }

  lemma InstallKeepsRecords(s: State, s': State, t: nat, u: nat, i: nat, above: int, below: int)
    requires BaseInv(s) && InstallsOne(s, s', t, i, above, below)
    ensures RecordsEvolve(s.heap, s'.heap, s.recs, s'.recs, t, u, s.minRts)
  {
    InstallEvolves(s, s', t, i, above, below);
    ViewOf(s, t);
    forall x: Key | x < |s.recs| ensures On(s.heap, s.recs[x].bottom, x) {
      assert ListInv(s.heap, s.recs[x], x);
    }
    var e := s.thr[t].wset[i];
    InsertKeepsRecords(s.heap, s'.heap, s.recs, s'.recs, e.key, e.ver, above, below, s.clock, t, u, s.minRts);
  }

  lemma InstallWriteOk(s: State, s': State, t: nat, i: nat, above: int, below: int, j: nat)
    requires InstallsOne(s, s', t, i, above, below) && j < |s.thr[t].wset| && DistinctWrites(s.thr[t].wset)
    requires WriteOk(s.heap, s.thr[t], t, i) && WriteOk(s.heap, s.thr[t], t, j)
    requires s.heap[s.thr[t].wset[i].ver].place == InWriteSet(t)
    requires i != j ==> s.thr[t].wset[i].ver != s.thr[t].wset[j].ver
    requires LaterOk(s'.heap, s.thr[t].wset[j].key, s.thr[t].wset[j].later, s.thr[t].ts)
    ensures WriteOk(s'.heap, s'.thr[t], t, j)
  {
  }

  lemma OtherVersion(s: State, t: nat, i: nat, j: nat)
    requires BaseInv(s) && t < |s.thr| && i < |s.thr[t].wset| && j < |s.thr[t].wset| && i != j
    requires Installing(s.thr[t].phase) && s.thr[t].phase.i == i
    ensures s.thr[t].wset[i].ver != s.thr[t].wset[j].ver
  {
    WriteFacts(s, t, i);
    WriteFacts(s, t, j);
    ThreadOf(s, t);
  }

  lemma InstalledElement(h: seq<Version>, h': seq<Version>, tx: Executor, tx': Executor, t: nat, i: nat, nrecs: nat)
    requires WriteSetOk(h, tx, t, nrecs) && Installing(tx.phase) && tx.phase.i == i < |tx.wset|
    requires tx' == tx.(phase := Install(i + 1, NIL), wset := tx.wset[i := tx.wset[i].(installed := true)])
    requires forall j: nat | j < |tx.wset| :: WriteOk(h', tx', t, j)
    ensures WriteSetOk(h', tx', t, nrecs)
  {
  }

  lemma InstallSets(s: State, s': State, t: nat, i: nat, above: int, below: int)
    requires BaseInv(s) && InstallsOne(s, s', t, i, above, below)
    ensures WriteSetOk(s'.heap, s'.thr[t], t, |s.recs|)
  {
    InstallEvolves(s, s', t, i, above, below);
    ViewOf(s, t);
    ThreadOf(s, t);
    var tx := s.thr[t];
    forall j: nat | j < |tx.wset| ensures WriteOk(s'.heap, s'.thr[t], t, j) {
      assert WriteOk(s.heap, tx, t, j);
      if j != i {
        OtherVersion(s, t, i, j);
      }
      LaterStable(s.heap, s'.heap, s'.recs, t, s.minWts, s.minRts, s.clock, tx.wset[j].key, tx.rts, tx.wset[j].later, tx.ts);
      InstallWriteOk(s, s', t, i, above, below, j);
    }
    InstalledElement(s.heap, s'.heap, tx, s'.thr[t], t, i, |s.recs|);
  }

  lemma InstallReads(s: State, s': State, t: nat, i: nat, above: int, below: int)
    requires BaseInv(s) && InstallsOne(s, s', t, i, above, below)
    ensures ReadSetOk(s'.heap, s'.thr[t], |s.recs|) && GcOk(s'.heap, s'.recs, s'.thr[t], t, s.minRts)
  {
    ThreadOf(s, t);
    ViewOf(s, t);
    var tx, tx' := s.thr[t], s'.thr[t];
    InstallEvolves(s, s', t, i, above, below);
    ReadSetStable(s.heap, s'.heap, s'.recs, tx, t, t, s.minWts, s.minRts, s.clock, |s.recs|);
    SameReads(s'.heap, tx, tx', |s.recs|);
    InstallKeepsRecords(s, s', t, t, i, above, below);
    GcStable(s.heap, s'.heap, s.recs, s'.recs, tx, t, t, s.minWts, s.minRts, s.clock);
    QuietGc(s'.heap, s'.recs, tx, tx', t, s.minRts, s.minRts);
  }

  lemma InstallOwn(h: seq<Version>, h': seq<Version>, tx: Executor, tx': Executor, t: nat, i: nat, above: int, below: int, clock: nat)
    requires i < |tx.wset| && Inserts(h, h', tx.wset[i].key, tx.wset[i].ver, above, below, clock)
    requires Installing(tx.phase) && Installing(tx'.phase) && tx'.ts == tx.ts
    requires tx'.wset == tx.wset[i := tx.wset[i].(installed := true)]
    requires h[tx.wset[i].ver].wts == tx.ts && OwnOk(h, tx, t)
    ensures OwnOk(h', tx', t)
  {
    var e := tx.wset[i];
    forall v: int | OnList(h', v) && h'[v].wts % TID_SPACE == t
      ensures h'[v].wts <= tx.ts
      ensures h'[v].wts == tx.ts ==> MineOnce(tx', v, h'[v].place.key)
      ensures h'[v].status.Pending? ==> h'[v].wts == tx.ts && Mine(tx', v, h'[v].place.key)
    {
      if v == e.ver {
        assert tx'.wset[i].ver == v;
      } else {
        assert OnList(h, v);
        if h'[v].wts == tx.ts {
          var j :| 0 <= j < |tx.wset| && tx.wset[j].ver == v && tx.wset[j].installed && tx.wset[j].key == h[v].place.key;
          assert tx'.wset[j].ver == v;
        }
      }
    }
  }

  lemma InstallPrivate(h: seq<Version>, h': seq<Version>, tx: Executor, tx': Executor, t: nat, i: nat, above: int, below: int, clock: nat)
    requires i < |tx.wset| && Inserts(h, h', tx.wset[i].key, tx.wset[i].ver, above, below, clock)
    requires h[tx.wset[i].ver].place == InWriteSet(t)
    requires Installing(tx.phase) && Installing(tx'.phase) && tx'.pool == tx.pool
    requires tx'.wset == tx.wset[i := tx.wset[i].(installed := true)]
    requires PrivateOk(h, tx, t) && DetachedOk(h, tx, t)
    ensures PrivateOk(h', tx', t) && DetachedOk(h', tx', t)
  {
    assert forall v | 0 <= v < |h| && v != tx.wset[i].ver :: h'[v].place == h[v].place;
    forall v | 0 <= v < |h'| && h'[v].place == InWriteSet(t)
      ensures exists j :: 0 <= j < |tx'.wset| && tx'.wset[j].ver == v && !tx'.wset[j].installed && !Disposed(tx'.phase, j)
    {
      var j :| 0 <= j < |tx.wset| && tx.wset[j].ver == v && !tx.wset[j].installed && !Disposed(tx.phase, j);
      assert tx'.wset[j].ver == v;
    }
    assert forall v: int :: Det(h', v, t) ==> Det(h, v, t);
  }

  lemma InstallTx(s: State, s': State, t: nat, i: nat, above: int, below: int)
    requires BaseInv(s) && InstallsOne(s, s', t, i, above, below)
    ensures TxOk(s'.heap, s'.thr[t], t, |s.recs|)
  {
    InstallSets(s, s', t, i, above, below);
    InstallReads(s, s', t, i, above, below);
    InstallEvolves(s, s', t, i, above, below);
    ThreadOf(s, t);
    InstallOwn(s.heap, s'.heap, s.thr[t], s'.thr[t], t, i, above, below, s.clock);
    InstallPrivate(s.heap, s'.heap, s.thr[t], s'.thr[t], t, i, above, below, s.clock);
  }

  lemma InstallKeeps(s: State, s': State, t: nat, i: nat, above: int, below: int)
    requires BaseInv(s) && InstallsOne(s, s', t, i, above, below)
    ensures BaseInv(s')
  {
    InstallEvolves(s, s', t, i, above, below);
    InstallKeepsLists(s, s', t, i, above, below);
    InstallTx(s, s', t, i, above, below);
    InstallReads(s, s', t, i, above, below);
    NothingCertified(s'.heap, s'.thr[t]);
    forall u: nat | u != t && u < |s.thr| ensures RecordsEvolve(s.heap, s'.heap, s.recs, s'.recs, t, u, s.minRts) {
      InstallKeepsRecords(s, s', t, u, i, above, below);
    }
    ThreadsKept(s, s', t);
    MoveKeepsTime(s, s'.thr[t], t);
  }

  lemma CasKeeps(s: State, s': State, t: nat)
    requires BaseInv(s) && t < |s.thr| && (CasHead(s, s', t) || CasMiddle(s, s', t))
    ensures BaseInv(s')
  {
    if CasHead(s, s', t) {
      CasHeadInstalls(s, s', t);
      InstallKeeps(s, s', t, s.thr[t].phase.i, NIL, s.thr[t].phase.exp);
    } else {
      CasMiddleInstalls(s, s', t);
      InstallKeeps(s, s', t, s.thr[t].phase.i, s.thr[t].wset[s.thr[t].phase.i].later, s.thr[t].phase.cur);
    }
  }
}
