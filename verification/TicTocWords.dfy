/** How a record's timestamp word moves along a run of TicToc. */
module TicTocWords {
  import opened SerialExecution
  import opened Runs
  import opened TicToc
  import opened TicTocSafety

  /** A record locked by somebody else stands still, neither end of the interval moves back,
      and a new version starts above everything its predecessor can have been read at. */
  ghost predicate WordMoves(a: Tuple, b: Tuple, t: nat) {
    && (a.owner >= 0 && a.owner != t ==> b == a)
    && a.tsw.Rts() <= b.tsw.Rts() && a.tsw.wts <= b.tsw.wts
    && (b.versions != a.versions ==>
          && a.owner == t && a.tsw.Rts() < b.tsw.wts
          && |b.versions| == |a.versions| + 1 && b.versions[..|a.versions|] == a.versions
          && b.versions[|a.versions|].stamp.major == b.tsw.wts == b.tsw.Rts())
  }

  lemma LockingMoves(s: State, s': State, t: nat, k: Key)
    requires TablesInv(s) && t < |s.txs| && k < |s.table| && (LockOne(s, s', t) || UnlockStore(s, s', t))
    ensures |s'.table| == |s.table| && WordMoves(s.table[k], s'.table[k], t)
  {
    assert TupleInv(s.table[k]);
    if UnlockStore(s, s', t) {
      UnlockRestoresWord(s, s', t);
    }
  }

  lemma ExtensionMoves(s: State, s': State, t: nat, k: Key)
    requires TablesInv(s) && t < |s.txs| && k < |s.table| && ValidateExtend(s, s', t)
    ensures |s'.table| == |s.table| && WordMoves(s.table[k], s'.table[k], t)
  {
    assert TupleInv(s.table[k]);
    ExtendArithmetic(s.table[s.txs[t].rset[s.txs[t].phase.i].key].tsw, s.txs[t].cts);
  }

  lemma InstallMoves(s: State, s': State, t: nat, k: Key)
    requires TablesInv(s) && t < |s.txs| && k < |s.table| && (StorePayload(s, s', t) || StoreWord(s, s', t))
    ensures |s'.table| == |s.table| && WordMoves(s.table[k], s'.table[k], t)
  {
    var tx := s.txs[t];
    assert TxInv(s.table, tx, t);
    assert Holds(tx, tx.wset[tx.phase.i].key);
  }

  lemma ReadPhaseStands(s: State, s': State, t: nat)
    requires t < |s.txs| && ReadPhaseStep(s, s', t)
    ensures s'.table == s.table
  {
  }

  lemma ElsewhereStands(s: State, s': State, t: nat)
    requires t < |s.txs| && (ValidationStep(s, s', t) || Commit(s, s', t) || Finish(s, s', t))
    requires !LockOne(s, s', t) && !UnlockStore(s, s', t) && !ValidateExtend(s, s', t)
    ensures s'.table == s.table
  {
  }

  /** Along a run, at every step of an executor `t` and for every record: nobody changes what
      somebody else has locked, so that an unlock by plain load and store loses no
      extension; `rts` and `wts` never decrease; and only the owner installs, above `rts`. */
  lemma WordsMoveOn(run: seq<State>, i: nat, t: nat, k: Key)
    requires IsRun(run, Init, Next) && i + 1 < |run| && StepBy(run[i], run[i + 1], t) && k < |run[i].table|
    ensures |run[i + 1].table| == |run[i].table| && WordMoves(run[i].table[k], run[i + 1].table[k], t)
  {
    RunKeepsInv(run, i);
    StepMovesWord(run[i], run[i + 1], t, k);
  }

  lemma StepMovesWord(s: State, s': State, t: nat, k: Key)
    requires TablesInv(s) && StepBy(s, s', t) && k < |s.table|
    ensures |s'.table| == |s.table| && WordMoves(s.table[k], s'.table[k], t)
  {
    if ReadPhaseStep(s, s', t) {
      ReadPhaseStands(s, s', t);
    } else if LockOne(s, s', t) || UnlockStore(s, s', t) {
      LockingMoves(s, s', t, k);
    } else if ValidateExtend(s, s', t) {
      ExtensionMoves(s, s', t, k);
    } else if StorePayload(s, s', t) || StoreWord(s, s', t) {
      InstallMoves(s, s', t, k);
    } else {
      ElsewhereStands(s, s', t);
    }
  }

  lemma StepKeepsSize(s: State, s': State, t: nat)
    requires TablesInv(s) && StepBy(s, s', t)
    ensures |s'.table| == |s.table|
  {
    if s.table != [] {
      StepMovesWord(s, s', t, 0);
    } else if ReadPhaseStep(s, s', t) {
      ReadPhaseStands(s, s', t);
    }
  }
}
