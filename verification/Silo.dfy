/** Silo: optimistic concurrency control with TID words, and the epoch protocol run
    by worker 0 between its own transactions.

    A step is one atomic load, store or compare-and-swap, or one payload copy.
    TIDs are compared by (epoch, tid), carried here as a Stamp.  Fields that only
    record history (`versions`, `dirty`, `owner`, `lockedAt`, `ver`, `ser`,
    `commits`, `sources`, `loads`, `clock`) are never consulted by a guard.
    `loads` maps the position of every load of the global epoch to the value loaded. */
module Silo {
  import opened SerialExecution
  import opened AccessSets

  datatype Word = Word(lock: bool, tid: Stamp)

  datatype Version = Version(tid: Stamp, ser: nat, val: Val)

  datatype Tuple = Tuple(word: Word, val: Val, owner: int, lockedAt: nat, dirty: bool, versions: seq<Version>) {
    function Last(): int { |versions| - 1 }
  }

  datatype ReadItem = ReadItem(key: Key, tid: Stamp, val: Val, ver: nat)

  datatype Phase =
    | Idle
    | Scanning(i: nat, now: nat)
    | Executing
    | Spinning(key: Key)
    | Loaded(key: Key, expected: Word)
    | Copied(key: Key, expected: Word, val: Val, ver: nat)
    | Locking(i: nat)
    | EpochLoaded
    | Validating(i: nat)
    | Writing(i: nat)
    | Stored(i: nat)
    | Unlocking(i: nat, end: nat)
    | UnlockLoaded(i: nat, end: nat, word: Word)

  /** `epoch` is the register between loading the global epoch and publishing it. */
  datatype Tx = Tx(phase: Phase, rset: seq<ReadItem>, wset: seq<WriteItem>,
                   maxW: Stamp, maxR: Stamp, mrctid: Stamp, epoch: nat, ser: nat)

  datatype State = State(table: seq<Tuple>, txs: seq<Tx>, globalEpoch: nat, localEpoch: seq<nat>,
                         commits: map<Stamp, Txn>, sources: map<Stamp, map<Key, nat>>, loads: map<nat, nat>,
                         clock: nat)

  function MaxTid(a: Stamp, b: Stamp): (m: Stamp)
    ensures !Before(m, a) && !Before(m, b) && (m == a || m == b)
  {
    if Before(a, b) then b else a
  }

  function NextTid(a: Stamp): Stamp { Stamp(a.major, a.minor + 1) }

  predicate InReads(rs: seq<ReadItem>, k: Key) {
    exists j :: 0 <= j < |rs| && rs[j].key == k
  }

  predicate DistinctReads(rs: seq<ReadItem>) {
    forall i, j | 0 <= i < j < |rs| :: rs[i].key != rs[j].key
  }

  function KeysRead(rs: seq<ReadItem>): (s: set<Key>)
    ensures forall k :: k in s <==> InReads(rs, k)
  {
    set j | 0 <= j < |rs| :: rs[j].key
  }

  /** The element for `k`. */
  function ReadOf(rs: seq<ReadItem>, k: Key): (e: ReadItem)
    requires DistinctReads(rs) && InReads(rs, k)
    ensures e in rs && forall j | 0 <= j < |rs| && rs[j].key == k :: rs[j] == e
  {
    var j :| 0 <= j < |rs| && rs[j].key == k;
    rs[j]
  }

  function ReadMap(rs: seq<ReadItem>): map<Key, Val>
    requires DistinctReads(rs)
  {
    map k | k in KeysRead(rs) :: ReadOf(rs, k).val
  }

  function SourceMap(rs: seq<ReadItem>): map<Key, nat>
    requires DistinctReads(rs)
  {
    map k | k in KeysRead(rs) :: ReadOf(rs, k).ver
  }

  // ---------------------------------------------------------------- steps

  function SetPhase(s: State, t: nat, p: Phase): State
    requires t < |s.txs|
  {
    s.(txs := s.txs[t := s.txs[t].(phase := p)])
  }

  ghost predicate Begin(s: State, s': State, t: nat)
    requires t < |s.txs|
  {
    && s.txs[t].phase.Idle?
    && s' == s.(txs := s.txs[t := s.txs[t].(phase := Executing, rset := [], wset := [],
                                           maxW := Stamp(0, 0), maxR := Stamp(0, 0))])
  }

  ghost predicate ReadStart(s: State, s': State, t: nat, k: Key)
    requires t < |s.txs|
  {
    var tx := s.txs[t];
    && tx.phase.Executing? && k < |s.table|
    && !InReads(tx.rset, k) && !HasKey(tx.wset, k)
    && s' == SetPhase(s, t, Spinning(k))
  }

  ghost predicate ReadLoad(s: State, s': State, t: nat)
    requires t < |s.txs|
  {
    var tx := s.txs[t];
    && tx.phase.Spinning? && tx.phase.key < |s.table|
    && !s.table[tx.phase.key].word.lock
    && s' == SetPhase(s, t, Loaded(tx.phase.key, s.table[tx.phase.key].word))
  }

  ghost predicate ReadCopy(s: State, s': State, t: nat)
    requires t < |s.txs|
  {
    var tx := s.txs[t];
    && tx.phase.Loaded? && tx.phase.key < |s.table|
    && |s.table[tx.phase.key].versions| > 0
    && var tup := s.table[tx.phase.key];
       s' == SetPhase(s, t, Copied(tx.phase.key, tx.phase.expected, tup.val, |tup.versions| - 1))
  }

  ghost predicate ReadAgain(s: State, s': State, t: nat)
    requires t < |s.txs|
  {
    var tx := s.txs[t];
    && tx.phase.Copied? && tx.phase.key < |s.table|
    && var check := s.table[tx.phase.key].word;
       && check != tx.phase.expected
       && s' == SetPhase(s, t, if check.lock then Spinning(tx.phase.key) else Loaded(tx.phase.key, check))
  }

  ghost predicate ReadDone(s: State, s': State, t: nat)
    requires t < |s.txs|
  {
    var tx := s.txs[t];
    && tx.phase.Copied? && tx.phase.key < |s.table|
    && var p := tx.phase;
       && s.table[p.key].word == p.expected
       && s' == s.(txs := s.txs[t := tx.(phase := Executing,
                                          rset := tx.rset + [ReadItem(p.key, p.expected.tid, p.val, p.ver)])])
  }

  ghost predicate Write(s: State, s': State, t: nat, k: Key, v: Val)
    requires t < |s.txs|
  {
    var tx := s.txs[t];
    && tx.phase.Executing? && k < |s.table| && !HasKey(tx.wset, k)
    && s' == s.(txs := s.txs[t := tx.(wset := tx.wset + [WriteItem(k, v)])])
  }

  ghost predicate SortWrites(s: State, s': State, t: nat, sorted: seq<WriteItem>)
    requires t < |s.txs|
  {
    var tx := s.txs[t];
    && tx.phase.Executing? && SortOf(tx.wset, sorted)
    && s' == s.(txs := s.txs[t := tx.(phase := Locking(0), wset := sorted)])
  }

  ghost predicate AtLock(s: State, t: nat)
    requires t < |s.txs|
  {
    var tx := s.txs[t];
    tx.phase.Locking? && tx.phase.i < |tx.wset| && tx.wset[tx.phase.i].key < |s.table|
  }

  ghost predicate LockOne(s: State, s': State, t: nat)
    requires t < |s.txs|
  {
    && AtLock(s, t)
    && var tx := s.txs[t];
       var k := tx.wset[tx.phase.i].key;
       && !s.table[k].word.lock
       && s' == s.(table := s.table[k := s.table[k].(word := s.table[k].word.(lock := true),
                                                     owner := t, lockedAt := s.clock)],
                   txs := s.txs[t := tx.(phase := Locking(tx.phase.i + 1),
                                         maxW := MaxTid(tx.maxW, s.table[k].word.tid))],
                   clock := s.clock + 1)
  }

  ghost predicate LockFail(s: State, s': State, t: nat)
    requires t < |s.txs|
  {
    && AtLock(s, t)
    && s.table[s.txs[t].wset[s.txs[t].phase.i].key].word.lock
    && s' == SetPhase(s, t, Unlocking(0, s.txs[t].phase.i))
  }

  /** The serialization point. */
  ghost predicate LoadEpoch(s: State, s': State, t: nat)
    requires t < |s.txs|
  {
    var tx := s.txs[t];
    && tx.phase.Locking? && tx.phase.i == |tx.wset|
    && s' == s.(txs := s.txs[t := tx.(phase := EpochLoaded, epoch := s.globalEpoch, ser := s.clock)],
                loads := s.loads[s.clock := s.globalEpoch], clock := s.clock + 1)
  }

  ghost predicate StoreEpoch(s: State, s': State, t: nat)
    requires t < |s.txs|
  {
    var tx := s.txs[t];
    && tx.phase.EpochLoaded? && t < |s.localEpoch|
    && s' == s.(localEpoch := s.localEpoch[t := tx.epoch], txs := s.txs[t := tx.(phase := Validating(0))])
  }

  ghost predicate AtReadItem(s: State, t: nat)
    requires t < |s.txs|
  {
    var tx := s.txs[t];
    tx.phase.Validating? && tx.phase.i < |tx.rset| && tx.rset[tx.phase.i].key < |s.table|
  }

  ghost predicate ValidateOk(s: State, s': State, t: nat)
    requires t < |s.txs|
  {
    && AtReadItem(s, t)
    && var tx := s.txs[t];
       var r := tx.rset[tx.phase.i];
       var check := s.table[r.key].word;
       && check.tid == r.tid && (check.lock ==> HasKey(tx.wset, r.key))
       && s' == s.(txs := s.txs[t := tx.(phase := Validating(tx.phase.i + 1), maxR := MaxTid(tx.maxR, check.tid))])
  }

  ghost predicate ValidateFail(s: State, s': State, t: nat)
    requires t < |s.txs|
  {
    && AtReadItem(s, t)
    && var tx := s.txs[t];
       var r := tx.rset[tx.phase.i];
       var check := s.table[r.key].word;
       && (check.tid != r.tid || (check.lock && !HasKey(tx.wset, r.key)))
       && s' == SetPhase(s, t, Unlocking(0, |tx.wset|))
  }

  /** The smallest TID above everything read or written and the worker's last one,
      in the worker's published epoch. */
  function CommitTid(tx: Tx, epoch: nat): Stamp {
    MaxTid(MaxTid(NextTid(MaxTid(tx.maxW, tx.maxR)), NextTid(tx.mrctid)), Stamp(epoch, 0))
  }

  ghost predicate Commit(s: State, s': State, t: nat)
    requires t < |s.txs|
  {
    var tx := s.txs[t];
    && tx.phase.Validating? && tx.phase.i == |tx.rset| && t < |s.localEpoch|
    && DistinctKeys(tx.wset) && DistinctReads(tx.rset)
    && var st := Stamp(tx.ser, 0);
       s' == s.(txs := s.txs[t := tx.(phase := Writing(0), mrctid := CommitTid(tx, s.localEpoch[t]))],
                commits := s.commits[st := Txn(ReadMap(tx.rset), WriteMap(tx.wset))],
                sources := s.sources[st := SourceMap(tx.rset)])
  }

  ghost predicate StorePayload(s: State, s': State, t: nat)
    requires t < |s.txs|
  {
    var tx := s.txs[t];
    && tx.phase.Writing? && tx.phase.i < |tx.wset| && tx.wset[tx.phase.i].key < |s.table|
    && var k := tx.wset[tx.phase.i].key;
       s' == s.(table := s.table[k := s.table[k].(val := tx.wset[tx.phase.i].val, dirty := true)],
                txs := s.txs[t := tx.(phase := Stored(tx.phase.i))])
  }

  /** Installs the commit TID, which also clears the lock bit. */
  ghost predicate StoreWord(s: State, s': State, t: nat)
    requires t < |s.txs|
  {
    var tx := s.txs[t];
    && tx.phase.Stored? && tx.phase.i < |tx.wset| && tx.wset[tx.phase.i].key < |s.table|
    && var k := tx.wset[tx.phase.i].key;
       var tup := s.table[k];
       s' == s.(table := s.table[k := Tuple(Word(false, tx.mrctid), tup.val, -1, tup.lockedAt, false,
                                            tup.versions + [Version(tx.mrctid, tx.ser, tx.wset[tx.phase.i].val)])],
                txs := s.txs[t := tx.(phase := Writing(tx.phase.i + 1))])
  }

  ghost predicate Finish(s: State, s': State, t: nat)
    requires t < |s.txs|
  {
    s.txs[t].phase.Writing? && s.txs[t].phase.i == |s.txs[t].wset| && s' == SetPhase(s, t, Idle)
  }

  ghost predicate UnlockLoad(s: State, s': State, t: nat)
    requires t < |s.txs|
  {
    var tx := s.txs[t];
    && tx.phase.Unlocking? && tx.phase.i < tx.phase.end <= |tx.wset| && tx.wset[tx.phase.i].key < |s.table|
    && s' == SetPhase(s, t, UnlockLoaded(tx.phase.i, tx.phase.end, s.table[tx.wset[tx.phase.i].key].word))
  }

  ghost predicate UnlockStore(s: State, s': State, t: nat)
    requires t < |s.txs|
  {
    var tx := s.txs[t];
    && tx.phase.UnlockLoaded? && tx.phase.i < |tx.wset| && tx.wset[tx.phase.i].key < |s.table|
    && var k := tx.wset[tx.phase.i].key;
       s' == s.(table := s.table[k := s.table[k].(word := tx.phase.word.(lock := false), owner := -1)],
                txs := s.txs[t := tx.(phase := Unlocking(tx.phase.i + 1, tx.phase.end))])
  }

  ghost predicate Aborted(s: State, s': State, t: nat)
    requires t < |s.txs|
  {
    s.txs[t].phase.Unlocking? && s.txs[t].phase.i == s.txs[t].phase.end && s' == SetPhase(s, t, Idle)
  }

  // Worker 0 between transactions: has every other worker loaded the current epoch?

  ghost predicate ScanStart(s: State, s': State, t: nat)
    requires t < |s.txs|
  {
    t == 0 && s.txs[t].phase.Idle? && s' == SetPhase(s, t, Scanning(1, s.globalEpoch))
  }

  ghost predicate ScanNext(s: State, s': State, t: nat)
    requires t < |s.txs|
  {
    var p := s.txs[t].phase;
    && p.Scanning? && p.i < |s.localEpoch|
    && s' == SetPhase(s, t, if s.localEpoch[p.i] == p.now then Scanning(p.i + 1, p.now) else Idle)
  }

  ghost predicate AddEpoch(s: State, s': State, t: nat)
    requires t < |s.txs|
  {
    var p := s.txs[t].phase;
    && p.Scanning? && p.i >= |s.localEpoch|
    && s' == SetPhase(s, t, Idle).(globalEpoch := s.globalEpoch + 1)
  }

  // ----------------------------------------------------------------- runs

  ghost predicate ReadPhaseStep(s: State, s': State, t: nat)
    requires t < |s.txs|
  {
    || Begin(s, s', t)
    || (exists k :: ReadStart(s, s', t, k))
    || ReadLoad(s, s', t) || ReadCopy(s, s', t) || ReadAgain(s, s', t) || ReadDone(s, s', t)
    || (exists k, v :: Write(s, s', t, k, v))
  }

  ghost predicate ValidationStep(s: State, s': State, t: nat)
    requires t < |s.txs|
  {
    || (exists sorted :: SortWrites(s, s', t, sorted))
    || LockOne(s, s', t) || LockFail(s, s', t) || LoadEpoch(s, s', t) || StoreEpoch(s, s', t)
    || ValidateOk(s, s', t) || ValidateFail(s, s', t)
    || UnlockLoad(s, s', t) || UnlockStore(s, s', t) || Aborted(s, s', t)
  }

  ghost predicate WritePhaseStep(s: State, s': State, t: nat)
    requires t < |s.txs|
  {
    Commit(s, s', t) || StorePayload(s, s', t) || StoreWord(s, s', t) || Finish(s, s', t)
  }

  ghost predicate LeaderStep(s: State, s': State, t: nat)
    requires t < |s.txs|
  {
    ScanStart(s, s', t) || ScanNext(s, s', t) || AddEpoch(s, s', t)
  }

  ghost predicate StepBy(s: State, s': State, t: nat) {
    && t < |s.txs|
    && (ReadPhaseStep(s, s', t) || ValidationStep(s, s', t) || WritePhaseStep(s, s', t) || LeaderStep(s, s', t))
  }

  ghost predicate Next(s: State, s': State) {
    exists t: nat :: StepBy(s, s', t)
  }

  ghost predicate Init(s: State) {
    && (forall k | 0 <= k < |s.table| ::
          s.table[k] == Tuple(Word(false, Stamp(1, 0)), s.table[k].val, -1, 0, false,
                              [Version(Stamp(1, 0), 0, s.table[k].val)]))
    && (forall t | 0 <= t < |s.txs| ::
          s.txs[t] == Tx(Idle, [], [], Stamp(0, 0), Stamp(0, 0), Stamp(0, 0), 0, 0))
    && s.globalEpoch == 1 && |s.localEpoch| == |s.txs| && (forall t | 0 <= t < |s.txs| :: s.localEpoch[t] == 0)
    && s.commits == map[] && s.sources == map[] && s.loads == map[] && s.clock == 1
  }

  function InitialTable(s: State): map<Key, Val>
    requires forall k | 0 <= k < |s.table| :: s.table[k].versions != []
  {
    map k | 0 <= k < |s.table| :: s.table[k].versions[0].val
  }
}
