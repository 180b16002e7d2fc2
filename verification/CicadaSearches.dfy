/** The invariant is kept by every walk down a version list. */
module CicadaSearches {
  import opened SerialExecution
  import opened Cicada
  import opened CicadaInvariant
  import opened CicadaThreads
  import opened CicadaLists
  import opened CicadaBeginning

  // ----------------------------------------------------------------- reading

  /** What a step that only moves its executor has to establish. */
  ghost predicate GoodMove(s: State, s': State, t: nat) {
    LocalTo(s, s', t) && PhaseMove(s.thr[t], s'.thr[t]) && WalkOk(s.heap, s'.thr[t], |s.recs|)
  }

  lemma GoodMoveKeeps(s: State, s': State, t: nat)
    requires BaseInv(s) && GoodMove(s, s', t)
    requires !s'.thr[t].phase.Raise? && !Scanning(s'.thr[t].phase) && !Checking(s'.thr[t].phase)
    ensures BaseInv(s')
  {
    NothingCertified(s.heap, s'.thr[t]);
    MoveKeeps(s, s', t);
  }

  lemma ReadStartMoves(s: State, s': State, t: nat, k: Key)
    requires t < |s.thr| && ReadStart(s, s', t, k) && ListInv(s.heap, s.recs[k], k)
    ensures GoodMove(s, s', t)
  {
    WalkFromLatest(s.heap, s.recs[k], k, s.thr[t].rts);
  }

  lemma ReadStartKeeps(s: State, s': State, t: nat, k: Key)
    requires BaseInv(s) && t < |s.thr| && ReadStart(s, s', t, k)
    ensures BaseInv(s')
  {
    BottomVisible(s, t, k);
    ReadStartMoves(s, s', t, k);
    GoodMoveKeeps(s, s', t);
  }

  lemma ReadNextKeeps(s: State, s': State, t: nat)
    requires BaseInv(s) && t < |s.thr| && ReadNext(s, s', t)
    ensures BaseInv(s')
  {
    ThreadOf(s, t);
    var k := s.thr[t].phase.key;
    BottomVisible(s, t, k);
    WalkNext(s.heap, s.recs[k], k, s.thr[t].rts, s.thr[t].phase.cur);
    NothingCertified(s.heap, s'.thr[t]);
    MoveKeeps(s, s', t);
  }

  lemma ReadReachKeeps(s: State, s': State, t: nat)
    requires BaseInv(s) && t < |s.thr| && ReadReach(s, s', t)
    ensures BaseInv(s')
  {
    ThreadOf(s, t);
    NothingCertified(s.heap, s'.thr[t]);
    MoveKeeps(s, s', t);
  }

  lemma ReadDownKeeps(s: State, s': State, t: nat)
    requires BaseInv(s) && t < |s.thr| && ReadDown(s, s', t)
    ensures BaseInv(s')
  {
    ThreadOf(s, t);
    var k := s.thr[t].phase.key;
    BottomVisible(s, t, k);
    WalkDown(s.heap, s.recs[k], k, s.thr[t].rts, s.thr[t].phase.cur);
    NothingCertified(s.heap, s'.thr[t]);
    MoveKeeps(s, s', t);
  }

  /** A transaction that has installed nothing finds no version with its own timestamp. */
  lemma NotOwnVersion(s: State, t: nat, v: int)
    requires BaseInv(s) && t < |s.thr| && Unseen(s.thr[t].phase) && OnList(s.heap, v)
    ensures s.heap[v].wts != s.thr[t].ts
  {
    ThreadOf(s, t);
    SameTimes(s, t);
  }

  lemma ReadTaken(h: seq<Version>, tx: Executor, tx': Executor, t: nat, r: ReadElement, nrecs: nat)
    requires WriteSetOk(h, tx, t, nrecs) && ReadSetOk(h, tx, nrecs) && tx.phase.ReadWait? && !tx.ronly
    requires r.key < nrecs && !ReadsKey(tx.rset, r.key)
    requires tx' == tx.(phase := Executing, rset := tx.rset + [r]) && ReadOk(h, tx, r)
    ensures WriteSetOk(h, tx', t, nrecs) && ReadSetOk(h, tx', nrecs)
  {
    forall j | 0 <= j < |tx.wset| ensures WriteOk(h, tx', t, j) {
      assert WriteOk(h, tx, t, j);
    }
    forall j | 0 <= j < |tx'.rset| ensures tx'.rset[j].key < nrecs && ReadOk(h, tx', tx'.rset[j]) {
      if j < |tx.rset| {
        assert ReadOk(h, tx, tx.rset[j]);
      }
    }
  }

  lemma ReadTakenRest(h: seq<Version>, recs: seq<Record>, tx: Executor, tx': Executor, t: nat, minRts: nat)
    requires OwnOk(h, tx, t) && PrivateOk(h, tx, t) && DetachedOk(h, tx, t) && GcOk(h, recs, tx, t, minRts)
    requires tx.phase.ReadWait? && tx' == tx.(phase := Executing, rset := tx'.rset)
    ensures OwnOk(h, tx', t) && PrivateOk(h, tx', t) && DetachedOk(h, tx', t) && GcOk(h, recs, tx', t, minRts)
  {
    UnseenOwn(h, tx, tx', t);
    SameWrites(h, tx, tx', t);
    QuietGc(h, recs, tx, tx', t, minRts, minRts);
  }

  lemma UnseenOwn(h: seq<Version>, tx: Executor, tx': Executor, t: nat)
    requires OwnOk(h, tx, t) && Unseen(tx.phase) && tx'.ts == tx.ts
    ensures OwnOk(h, tx', t)
  {
  }

  lemma SnapTakeKeeps(s: State, s': State, t: nat)
    requires BaseInv(s) && t < |s.thr| && ReadTake(s, s', t) && s.thr[t].ronly
    ensures BaseInv(s')
  {
    GoodMoveKeeps(s, s', t);
  }

  lemma ReadTakeKeeps(s: State, s': State, t: nat)
    requires BaseInv(s) && t < |s.thr| && ReadTake(s, s', t) && !s.thr[t].ronly
    ensures BaseInv(s')
  {
    ThreadOf(s, t);
    var tx := s.thr[t];
    NotOwnVersion(s, t, tx.phase.cur);
    var v := s.heap[tx.phase.cur];
    var r := ReadElement(tx.phase.key, tx.phase.later, tx.phase.cur, v.wts, v.val);
    TakeChecks(s.heap, tx, s'.thr[t], t, r, s.recs, s.minRts);
    MoveKeepsTime(s, s'.thr[t], t);
    LocalKeeps(s, s', t);
  }

  lemma TakeChecks(h: seq<Version>, tx: Executor, tx': Executor, t: nat, r: ReadElement, recs: seq<Record>, minRts: nat)
    requires ThreadInv(h, recs, tx, t, minRts)
    requires tx.phase.ReadWait? && !tx.ronly && h[tx.phase.cur].status.Committed? && h[tx.phase.cur].wts != tx.ts
    requires r == ReadElement(tx.phase.key, tx.phase.later, tx.phase.cur, h[tx.phase.cur].wts, h[tx.phase.cur].val)
    requires tx' == tx.(phase := Executing, rset := tx.rset + [r])
    ensures ThreadInv(h, recs, tx', t, minRts)
  {
    assert ReadOk(h, tx, r);
    ReadTaken(h, tx, tx', t, r, |recs|);
    ReadTakenRest(h, recs, tx, tx', t, minRts);
    NothingCertified(h, tx');
  }

  lemma ReadOnlyEndKeeps(s: State, s': State, t: nat)
    requires BaseInv(s) && t < |s.thr| && ReadOnlyEnd(s, s', t)
    ensures BaseInv(s')
  {
    ThreadOf(s, t);
    SameTimes(s, t);
    var tx, tx' := s.thr[t], s'.thr[t];
    QuietOwn(s.heap, tx, tx', t);
    QuietPrivate(s.heap, tx, tx', t);
    QuietGc(s.heap, s.recs, tx, tx', t, s.minRts, s.minRts);
    QuietSets(s.heap, tx', t, |s.recs|);
    LocalKeeps(s, s', t);
  }

  // ----------------------------------------------------------------- writing

  lemma WriteStartMoves(s: State, s': State, t: nat, k: Key, new_: Val)
    requires t < |s.thr| && k < |s.recs| && ListInv(s.heap, s.recs[k], k)
    requires WriteStart(s, s', t, k, new_) || WriteStartRmw(s, s', t, k, new_)
    ensures GoodMove(s, s', t)
  {
    WalkFromLatest(s.heap, s.recs[k], k, s.thr[t].rts);
  }

  lemma WriteStartKeeps(s: State, s': State, t: nat, k: Key, new_: Val)
    requires BaseInv(s) && t < |s.thr| && (WriteStart(s, s', t, k, new_) || WriteStartRmw(s, s', t, k, new_))
    ensures BaseInv(s')
  {
    BottomVisible(s, t, k);
    WriteStartMoves(s, s', t, k, new_);
    GoodMoveKeeps(s, s', t);
  }

  lemma WriteNextKeeps(s: State, s': State, t: nat)
    requires BaseInv(s) && t < |s.thr| && WriteNext(s, s', t)
    ensures BaseInv(s')
  {
    ThreadOf(s, t);
    var k := s.thr[t].phase.key;
    BottomVisible(s, t, k);
    WalkNext(s.heap, s.recs[k], k, s.thr[t].rts, s.thr[t].phase.cur);
    NothingCertified(s.heap, s'.thr[t]);
    MoveKeeps(s, s', t);
  }

  lemma WriteReachMoves(s: State, s': State, t: nat)
    requires t < |s.thr| && (WriteReach(s, s', t) || WriteAbort(s, s', t))
    requires SearchOk(s.heap, s.thr[t], |s.recs|)
    ensures GoodMove(s, s', t)
  {
  }

  lemma WriteReachKeeps(s: State, s': State, t: nat)
    requires BaseInv(s) && t < |s.thr| && (WriteReach(s, s', t) || WriteAbort(s, s', t))
    ensures BaseInv(s')
  {
    ThreadOf(s, t);
    WriteReachMoves(s, s', t);
    GoodMoveKeeps(s, s', t);
  }

  // --------------------------------------------------------------- pre-check

  lemma PreSkipMoves(s: State, s': State, t: nat)
    requires t < |s.thr| && PlacementOk(s.heap, s.thr[t]) && (PreSkip(s, s', t) || PreRmw(s, s', t))
    ensures GoodMove(s, s', t)
  {
  }

  lemma PreReachMoves(s: State, s': State, t: nat)
    requires t < |s.thr| && PlacementOk(s.heap, s.thr[t]) && PreReach(s, s', t)
    ensures GoodMove(s, s', t)
  {
  }

  lemma PreJudgeMoves(s: State, s': State, t: nat)
    requires t < |s.thr| && PlacementOk(s.heap, s.thr[t]) && PreJudge(s, s', t)
    ensures GoodMove(s, s', t)
  {
  }

  lemma PreMoves(s: State, s': State, t: nat)
    requires BaseInv(s) && t < |s.thr|
    requires PreSkip(s, s', t) || PreRmw(s, s', t) || PreReach(s, s', t) || PreJudge(s, s', t)
    ensures GoodMove(s, s', t) && !s'.thr[t].phase.Raise? && !Scanning(s'.thr[t].phase) && !Checking(s'.thr[t].phase)
  {
    ThreadOf(s, t);
    if PreReach(s, s', t) {
      PreReachMoves(s, s', t);
    } else if PreJudge(s, s', t) {
      PreJudgeMoves(s, s', t);
    } else {
      PreSkipMoves(s, s', t);
    }
  }

  lemma PreMoveKeeps(s: State, s': State, t: nat)
    requires BaseInv(s) && t < |s.thr|
    requires PreSkip(s, s', t) || PreRmw(s, s', t) || PreReach(s, s', t) || PreJudge(s, s', t)
    ensures BaseInv(s')
  {
    PreMoves(s, s', t);
    GoodMoveKeeps(s, s', t);
  }

  lemma PreStartKeeps(s: State, s': State, t: nat)
    requires BaseInv(s) && t < |s.thr| && PreStart(s, s', t)
    ensures BaseInv(s')
  {
    ThreadOf(s, t);
    var tx := s.thr[t];
    var e := tx.wset[tx.phase.i];
    assert WriteOk(s.heap, tx, t, tx.phase.i);
    BottomVisible(s, t, e.key);
    WalkFromLatest(s.heap, s.recs[e.key], e.key, tx.rts);
    NothingCertified(s.heap, s'.thr[t]);
    MoveKeeps(s, s', t);
  }

  lemma PreDownKeeps(s: State, s': State, t: nat)
    requires BaseInv(s) && t < |s.thr| && PreDown(s, s', t)
    ensures BaseInv(s')
  {
    ThreadOf(s, t);
    var tx := s.thr[t];
    var k := tx.wset[tx.phase.i].key;
    BottomVisible(s, t, k);
    WalkDown(s.heap, s.recs[k], k, tx.rts, tx.phase.cur);
    NothingCertified(s.heap, s'.thr[t]);
    MoveKeeps(s, s', t);
  }

  /** A newer version found on the way down is remembered in the write element. */
  ghost predicate Remembers(h: seq<Version>, tx: Executor, tx': Executor, i: nat, cur: int) {
    && i < |tx.wset| && !tx.wset[i].rmw
    && tx' == tx.(phase := tx'.phase, wset := tx.wset[i := tx.wset[i].(later := cur)])
    && On(h, cur, tx.wset[i].key) && h[cur].wts > tx.ts
    && ((tx.phase.PreSeek? && tx'.phase.PreSeek?)
        || (tx.phase.InstallSeek? && tx'.phase.InstallSeek? && tx'.phase.i == tx.phase.i))
  }

  lemma RememberSets(h: seq<Version>, tx: Executor, tx': Executor, t: nat, i: nat, cur: int, nrecs: nat)
    requires Remembers(h, tx, tx', i, cur) && WriteSetOk(h, tx, t, nrecs) && ReadSetOk(h, tx, nrecs)
    ensures WriteSetOk(h, tx', t, nrecs) && ReadSetOk(h, tx', nrecs)
  {
    forall j | 0 <= j < |tx.wset| ensures WriteOk(h, tx', t, j) {
      assert WriteOk(h, tx, t, j);
    }
    forall j | 0 <= j < |tx.rset| ensures ReadOk(h, tx', tx'.rset[j]) {
      assert ReadOk(h, tx, tx.rset[j]);
    }
  }

  lemma RememberOwn(h: seq<Version>, tx: Executor, tx': Executor, t: nat, i: nat, cur: int)
    requires Remembers(h, tx, tx', i, cur) && OwnOk(h, tx, t)
    ensures OwnOk(h, tx', t)
  {
    forall v: int | OnList(h, v) && h[v].wts % TID_SPACE == t
      ensures h[v].wts == tx.ts ==> InFlight(tx.phase) && MineOnce(tx', v, h[v].place.key)
      ensures h[v].status.Pending? ==> h[v].wts == tx.ts && InFlight(tx.phase) && Mine(tx', v, h[v].place.key)
    {
      if h[v].wts == tx.ts {
        var j :| 0 <= j < |tx.wset| && tx.wset[j].ver == v && tx.wset[j].installed && tx.wset[j].key == h[v].place.key;
        assert tx'.wset[j].ver == v;
      }
    }
  }

  lemma RememberPrivate(h: seq<Version>, tx: Executor, tx': Executor, t: nat, i: nat, cur: int)
    requires Remembers(h, tx, tx', i, cur) && PrivateOk(h, tx, t)
    ensures PrivateOk(h, tx', t)
  {
    forall v | 0 <= v < |h| && h[v].place == InWriteSet(t)
      ensures exists j :: 0 <= j < |tx'.wset| && tx'.wset[j].ver == v && !tx'.wset[j].installed && !Disposed(tx'.phase, j)
    {
      var j :| 0 <= j < |tx.wset| && tx.wset[j].ver == v && !tx.wset[j].installed && !Disposed(tx.phase, j);
      assert tx'.wset[j].ver == v;
    }
  }

  lemma RememberKeeps(s: State, s': State, t: nat, i: nat, cur: int)
    requires BaseInv(s) && LocalTo(s, s', t) && Remembers(s.heap, s.thr[t], s'.thr[t], i, cur)
    requires WalkOk(s.heap, s'.thr[t], |s.recs|)
    ensures BaseInv(s')
  {
    ThreadOf(s, t);
    var tx, tx' := s.thr[t], s'.thr[t];
    RememberSets(s.heap, tx, tx', t, i, cur, |s.recs|);
    RememberOwn(s.heap, tx, tx', t, i, cur);
    RememberPrivate(s.heap, tx, tx', t, i, cur);
    QuietGc(s.heap, s.recs, tx, tx', t, s.minRts, s.minRts);
    NothingCertified(s.heap, tx');
    MoveKeepsTime(s, tx', t);
    LocalKeeps(s, s', t);
  }

  lemma PreNextKeeps(s: State, s': State, t: nat)
    requires BaseInv(s) && t < |s.thr| && PreNext(s, s', t)
    ensures BaseInv(s')
  {
    ThreadOf(s, t);
    var tx := s.thr[t];
    var k := tx.wset[tx.phase.i].key;
    BottomVisible(s, t, k);
    WalkNext(s.heap, s.recs[k], k, tx.rts, tx.phase.cur);
    RememberKeeps(s, s', t, tx.phase.i, tx.phase.cur);
  }

  // ------------------------------------------------ searching where to install

  lemma InstallLoadRmwKeeps(s: State, s': State, t: nat)
    requires BaseInv(s) && t < |s.thr| && InstallLoadRmw(s, s', t)
    ensures BaseInv(s')
  {
    ThreadOf(s, t);
    var tx := s.thr[t];
    assert WriteOk(s.heap, tx, t, tx.phase.i);
    var k := tx.wset[tx.phase.i].key;
    BottomVisible(s, t, k);
    WalkFromLatest(s.heap, s.recs[k], k, tx.rts);
    NothingCertified(s.heap, s'.thr[t]);
    MoveKeeps(s, s', t);
  }

  /** A blind write of `s.thr[t]` looks for its place. */
  ghost predicate Placing(s: State, t: nat) {
    && t < |s.thr| && s.thr[t].phase.Install? && InstallAt(s, t, s.thr[t].phase.i)
    && PlacementOk(s.heap, s.thr[t]) && !s.thr[t].ronly && s.thr[t].rts < s.thr[t].ts
    && WriteOk(s.heap, s.thr[t], t, s.thr[t].phase.i)
    && var k := s.thr[t].wset[s.thr[t].phase.i].key;
       ListInv(s.heap, s.recs[k], k) && s.heap[s.recs[k].bottom].wts <= s.thr[t].rts
  }

  lemma InstallLoadBelow(s: State, s': State, t: nat)
    requires Placing(s, t) && InstallLoad(s, s', t) && s.thr[t].wset[s.thr[t].phase.i].later != NIL
    ensures GoodMove(s, s', t)
  {
    var tx := s.thr[t];
    var e := tx.wset[tx.phase.i];
    WalkNext(s.heap, s.recs[e.key], e.key, tx.rts, e.later);
    assert SafePtr(s.heap, e.key, tx.rts, s'.thr[t].phase.cur);
  }

  lemma InstallLoadHead(s: State, s': State, t: nat)
    requires Placing(s, t) && InstallLoad(s, s', t) && s.thr[t].wset[s.thr[t].phase.i].later == NIL
    ensures GoodMove(s, s', t)
  {
    var tx := s.thr[t];
    var e := tx.wset[tx.phase.i];
    WalkFromLatest(s.heap, s.recs[e.key], e.key, tx.rts);
  }

  lemma InstallLoadKeeps(s: State, s': State, t: nat)
    requires BaseInv(s) && t < |s.thr| && InstallLoad(s, s', t)
    ensures BaseInv(s')
  {
    ThreadOf(s, t);
    assert WriteOk(s.heap, s.thr[t], t, s.thr[t].phase.i);
    BottomVisible(s, t, s.thr[t].wset[s.thr[t].phase.i].key);
    if s.thr[t].wset[s.thr[t].phase.i].later != NIL {
      InstallLoadBelow(s, s', t);
    } else {
      InstallLoadHead(s, s', t);
    }
    GoodMoveKeeps(s, s', t);
  }

  lemma InstallNextKeeps(s: State, s': State, t: nat)
    requires BaseInv(s) && t < |s.thr| && InstallNext(s, s', t)
    ensures BaseInv(s')
  {
    ThreadOf(s, t);
    var tx := s.thr[t];
    var k := tx.wset[tx.phase.i].key;
    BottomVisible(s, t, k);
    WalkNext(s.heap, s.recs[k], k, tx.rts, tx.phase.cur);
    RememberKeeps(s, s', t, tx.phase.i, tx.phase.cur);
  }

  lemma InstallDecideMoves(s: State, s': State, t: nat)
    requires t < |s.thr| && PlacementOk(s.heap, s.thr[t]) && !s.thr[t].ronly && InstallDecide(s, s', t)
    ensures GoodMove(s, s', t)
  {
  }

  lemma CasFailMoves(s: State, s': State, t: nat)
    requires t < |s.thr| && PlacementOk(s.heap, s.thr[t]) && !s.thr[t].ronly
    requires CasHeadFail(s, s', t) || CasMiddleFail(s, s', t)
    ensures GoodMove(s, s', t)
  {
  }

  lemma InstallMoveKeeps(s: State, s': State, t: nat)
    requires BaseInv(s) && t < |s.thr|
    requires InstallDecide(s, s', t) || CasHeadFail(s, s', t) || CasMiddleFail(s, s', t)
    ensures BaseInv(s')
  {
    ThreadOf(s, t);
    if InstallDecide(s, s', t) {
      InstallDecideMoves(s, s', t);
    } else {
      CasFailMoves(s, s', t);
    }
    GoodMoveKeeps(s, s', t);
  }

  lemma InstallEndKeeps(s: State, s': State, t: nat)
    requires BaseInv(s) && t < |s.thr| && InstallEnd(s, s', t)
    ensures BaseInv(s')
  {
    ThreadOf(s, t);
    MoveKeeps(s, s', t);
  }
}
