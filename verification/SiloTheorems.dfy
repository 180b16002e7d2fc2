/** What Silo promises of whole runs, from the table they start with. */
module SiloTheorems {
  import opened SerialExecution
  import opened AccessSets
  import opened Runs
  import opened Silo
  import opened SiloSafety
  import opened SiloWords

  /** The first version of every record is the one the run starts with. */
  lemma {:induction false} StartKept(run: seq<State>, i: nat)
    requires IsRun(run, Init, Next) && i < |run|
    ensures |run[i].table| == |run[0].table|
    ensures forall k | 0 <= k < |run[0].table| ::
              run[0].table[k].versions != [] && run[i].table[k].versions != []
              && run[i].table[k].versions[0] == run[0].table[k].versions[0]
  {
    RunKeepsInv(run, 0);
    if i == 0 {
      forall k | 0 <= k < |run[0].table| ensures run[0].table[k].versions != [] {
        assert TupleInv(run[0].table[k]);
      }
    } else {
      StartKept(run, i - 1);
      RunKeepsInv(run, i - 1);
      assert Next(run[i - 1], run[i]);
      var t: nat :| StepBy(run[i - 1], run[i], t);
      StepKeepsSize(run[i - 1], run[i], t);
      forall k: Key | k < |run[0].table|
        ensures run[i].table[k].versions != [] && run[i].table[k].versions[0] == run[0].table[k].versions[0]
      {
        StepMovesWord(run[i - 1], run[i], t, k);
      }
    }
  }

  lemma SameStart(run: seq<State>, i: nat)
    requires IsRun(run, Init, Next) && i < |run|
    ensures forall k | 0 <= k < |run[0].table| :: run[0].table[k].versions != []
    ensures forall k | 0 <= k < |run[i].table| :: run[i].table[k].versions != []
    ensures InitialTable(run[i]) == InitialTable(run[0])
  {
    StartKept(run, i);
  }

  /** In every reachable state, the committed transactions are equivalent, from the table the
      run starts with, to their serial execution in the order in
      which they loaded the global epoch. */
  lemma SiloSerializable(run: seq<State>, i: nat)
    requires IsRun(run, Init, Next) && i < |run|
    ensures forall k | 0 <= k < |run[0].table| :: run[0].table[k].versions != []
    ensures Serializable(InitialTable(run[0]), run[i].commits)
  {
    SameStart(run, i);
    CommitsSerializable(run, i);
  }

  /** With nobody in the write phase, a record's payload is that of its last version, and that
      is the last committed writer's. */
  lemma LastVersionStands(s: State, k: Key)
    requires Inv(s) && k < |s.table| && forall t | 0 <= t < |s.txs| :: !InWritePhase(s.txs[t])
    ensures s.table[k].versions != []
    ensures var tup := s.table[k]; var last := Stamp(tup.versions[tup.Last()].ser, 0);
            && tup.val == tup.versions[tup.Last()].val
            && (if tup.Last() == 0 then NeverWritten(s.commits, k)
                else LastWriter(s.commits, k, last) && s.commits[last].writeSet[k] == tup.val)
  {
    var tup := s.table[k];
    assert TupleInv(tup) && VersionRecorded(tup, k, s.commits);
    if tup.owner >= 0 {
      assert TxInv(s.table, s.txs[tup.owner], tup.owner);
    }
    var last := Stamp(tup.versions[tup.Last()].ser, 0);
    forall x | x in s.commits && k in s.commits[x].writeSet ensures tup.Last() > 0 && (x == last || Before(x, last)) {
      assert WriteRecorded(s.table, s.txs, x, k);
      assert Installed(tup, x);
    }
  }

  /** With nobody in the write phase, the table is what the serial execution of all committed
      transactions leaves. */
  lemma TableIsSerial(run: seq<State>, i: nat, order: seq<Stamp>, k: Key)
    requires IsRun(run, Init, Next) && i < |run| && k < |run[i].table| && Enumerates(order, run[i].commits)
    requires forall t | 0 <= t < |run[i].txs| :: !InWritePhase(run[i].txs[t])
    ensures forall x | 0 <= x < |run[0].table| :: run[0].table[x].versions != []
    ensures var table := Replay(InitialTable(run[0]), Listed(order, run[i].commits));
            k in table && run[i].table[k].val == table[k]
  {
    RunKeepsInv(run, i);
    SameStart(run, i);
    LastVersionStands(run[i], k);
    LeftBehind(InitialTable(run[0]), run[i].commits, order, k, run[i].table[k].val);
  }

  // ------------------------------------------- who is to blame for an abort

  /** Another executor has record `k` locked. */
  predicate LockedByOther(table: seq<Tuple>, k: Key, t: nat) {
    k < |table| && table[k].owner >= 0 && table[k].owner != t
  }

  /** What was read is not what is there now, or another executor is about to change it. */
  predicate Stale(table: seq<Tuple>, r: ReadItem, t: nat) {
    r.key < |table| && (table[r.key].word.tid != r.tid || LockedByOther(table, r.key, t))
  }

  /** Somebody else has changed or locked a record read, or has locked one to be written. */
  ghost predicate Blamed(table: seq<Tuple>, rs: seq<ReadItem>, ws: seq<WriteItem>, t: nat) {
    (exists r :: r in rs && Stale(table, r, t)) || (exists w :: w in ws && LockedByOther(table, w.key, t))
  }

  /** A record of the write set is refused if and only if another executor has it locked. */
  lemma LockOutcome(run: seq<State>, i: nat, s': State, t: nat)
    requires IsRun(run, Init, Next) && i < |run| && t < |run[i].txs| && (LockOne(run[i], s', t) || LockFail(run[i], s', t))
    ensures t < |s'.txs|
    ensures var tx := run[i].txs[t];
            s'.txs[t].phase == if LockedByOther(run[i].table, tx.wset[tx.phase.i].key, t) then Unlocking(0, tx.phase.i)
                               else Locking(tx.phase.i + 1)
  {
    RunKeepsInv(run, i);
    var tx := run[i].txs[t];
    var k := tx.wset[tx.phase.i].key;
    assert TxInv(run[i].table, tx, t) && TupleInv(run[i].table[k]);
    assert !Holds(tx, k);
  }

  /** A read fails validation if and only if the record has changed or another executor has
      it locked: the transaction's own lock is no reason. */
  lemma ValidationOutcome(run: seq<State>, i: nat, s': State, t: nat)
    requires IsRun(run, Init, Next) && i < |run| && t < |run[i].txs|
    requires ValidateOk(run[i], s', t) || ValidateFail(run[i], s', t)
    ensures t < |s'.txs|
    ensures var tx := run[i].txs[t];
            s'.txs[t].phase == if Stale(run[i].table, tx.rset[tx.phase.i], t) then Unlocking(0, |tx.wset|)
                               else Validating(tx.phase.i + 1)
  {
    RunKeepsInv(run, i);
    var tx := run[i].txs[t];
    var k := tx.rset[tx.phase.i].key;
    assert TxInv(run[i].table, tx, t) && TupleInv(run[i].table[k]);
    assert HasKey(tx.wset, k) <==> Holds(tx, k);
  }

  /** The TID chosen is the smallest above everything read or written and above the worker's
      last one, in the epoch published. */
  lemma CommitTidIsLeast(tx: Tx, epoch: nat, y: Stamp)
    requires Before(tx.maxW, y) && Before(tx.maxR, y) && Before(tx.mrctid, y) && epoch <= y.major
    ensures !Before(y, CommitTid(tx, epoch))
    ensures Before(tx.maxW, CommitTid(tx, epoch)) && Before(tx.maxR, CommitTid(tx, epoch))
    ensures Before(tx.mrctid, CommitTid(tx, epoch)) && epoch <= CommitTid(tx, epoch).major
  {
  }
}
