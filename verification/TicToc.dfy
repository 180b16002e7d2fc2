/** TicToc: optimistic concurrency control with data-driven commit timestamps.

    A run is a sequence of atomic steps of any number of executors over the shared
    tuples: one load, store or compare-and-swap of a timestamp word, or one copy of
    a payload.  Fields that only record history (`versions`, `dirty`, `owner`,
    `ver`, `commits`, `sources`, `tick`) are never consulted by a step's guard. */
module TicToc {
  import opened SerialExecution
  import opened AccessSets

  const DELTA_LIMIT: nat := 0x8000

  /** The timestamp word: valid from `wts` to `wts + delta`. */
  datatype Word = Word(lock: bool, delta: nat, wts: nat) {
    function Rts(): nat { wts + delta }
  }

  datatype Version = Version(stamp: Stamp, val: Val)

  datatype Tuple = Tuple(tsw: Word, val: Val, owner: int, dirty: bool, versions: seq<Version>) {
    function Last(): int { |versions| - 1 }
  }

  datatype ReadItem = ReadItem(key: Key, tsw: Word, val: Val, ver: nat)

  datatype Phase =
    | Idle
    | Executing
    | Spinning(key: Key)
    | Loaded(key: Key, v1: Word)
    | Copied(key: Key, v1: Word, val: Val, ver: nat)
    | Locking(i: nat)
    | Validating(i: nat)
    | Writing(i: nat, n: nat)
    | Stored(i: nat, n: nat)
    | Unlocking(i: nat, end: nat)
    | UnlockLoaded(i: nat, end: nat, word: Word)

  datatype Tx = Tx(phase: Phase, rset: seq<ReadItem>, wset: seq<WriteItem>, cts: nat, appro: nat)

  datatype State = State(table: seq<Tuple>, txs: seq<Tx>,
                         commits: map<Stamp, Txn>, sources: map<Stamp, map<Key, nat>>, tick: nat)

  function Max(a: nat, b: nat): nat { if a < b then b else a }

  predicate InReads(rs: seq<ReadItem>, k: Key) {
    exists j :: 0 <= j < |rs| && rs[j].key == k
  }

  // ---------------------------------------------------------------- steps

  function SetPhase(s: State, t: nat, p: Phase): State
    requires t < |s.txs|
  {
    s.(txs := s.txs[t := s.txs[t].(phase := p)])
  }

  ghost predicate Begin(s: State, s': State, t: nat)
    requires t < |s.txs|
  {
    s.txs[t].phase.Idle? && s' == s.(txs := s.txs[t := Tx(Executing, [], [], 0, 0)])
  }

  /** First access to `k`: neither set holds it yet. */
  ghost predicate ReadStart(s: State, s': State, t: nat, k: Key)
    requires t < |s.txs|
  {
    var tx := s.txs[t];
    && tx.phase.Executing? && k < |s.table|
    && !InReads(tx.rset, k) && !HasKey(tx.wset, k)
    && s' == SetPhase(s, t, Spinning(k))
  }

  ghost predicate ReadLoad(s: State, s': State, t: nat)
    requires t < |s.txs|
  {
    var tx := s.txs[t];
    && tx.phase.Spinning? && tx.phase.key < |s.table|
    && !s.table[tx.phase.key].tsw.lock
    && s' == SetPhase(s, t, Loaded(tx.phase.key, s.table[tx.phase.key].tsw))
  }

  /** A locked word whose validity ends before what the transaction already needs. */
  ghost predicate PreemptiveAbort(s: State, s': State, t: nat)
    requires t < |s.txs|
  {
    var tx := s.txs[t];
    && tx.phase.Spinning? && tx.phase.key < |s.table|
    && s.table[tx.phase.key].tsw.lock && s.table[tx.phase.key].tsw.Rts() < tx.appro
    && s' == SetPhase(s, t, Idle)
  }

  ghost predicate ReadCopy(s: State, s': State, t: nat)
    requires t < |s.txs|
  {
    var tx := s.txs[t];
    && tx.phase.Loaded? && tx.phase.key < |s.table|
    && |s.table[tx.phase.key].versions| > 0
    && var tup := s.table[tx.phase.key];
       s' == SetPhase(s, t, Copied(tx.phase.key, tx.phase.v1, tup.val, |tup.versions| - 1))
  }

  ghost predicate ReadAgain(s: State, s': State, t: nat)
    requires t < |s.txs|
  {
    var tx := s.txs[t];
    && tx.phase.Copied? && tx.phase.key < |s.table|
    && var v2 := s.table[tx.phase.key].tsw;
       && v2 != tx.phase.v1
       && s' == SetPhase(s, t, if v2.lock then Spinning(tx.phase.key) else Loaded(tx.phase.key, v2))
  }

  ghost predicate ReadDone(s: State, s': State, t: nat)
    requires t < |s.txs|
  {
    var tx := s.txs[t];
    && tx.phase.Copied? && tx.phase.key < |s.table|
    && var p := tx.phase;
       && s.table[p.key].tsw == p.v1
       && s' == s.(txs := s.txs[t := tx.(phase := Executing,
                                          rset := tx.rset + [ReadItem(p.key, p.v1, p.val, p.ver)],
                                          appro := Max(tx.appro, p.v1.wts))])
  }

  ghost predicate Write(s: State, s': State, t: nat, k: Key, v: Val)
    requires t < |s.txs|
  {
    var tx := s.txs[t];
    && tx.phase.Executing? && k < |s.table| && !HasKey(tx.wset, k)
    && s' == s.(txs := s.txs[t := tx.(wset := tx.wset + [WriteItem(k, v)],
                                      appro := Max(tx.appro, s.table[k].tsw.Rts() + 1))])
  }

  ghost predicate SortWrites(s: State, s': State, t: nat, sorted: seq<WriteItem>)
    requires t < |s.txs|
  {
    var tx := s.txs[t];
    && tx.phase.Executing? && SortOf(tx.wset, sorted)
    && s' == s.(txs := s.txs[t := tx.(phase := Locking(0), wset := sorted)])
  }

  ghost predicate LockOne(s: State, s': State, t: nat)
    requires t < |s.txs|
  {
    var tx := s.txs[t];
    && tx.phase.Locking? && tx.phase.i < |tx.wset| && tx.wset[tx.phase.i].key < |s.table|
    && var k := tx.wset[tx.phase.i].key;
       && !s.table[k].tsw.lock
       && s' == s.(table := s.table[k := s.table[k].(tsw := s.table[k].tsw.(lock := true), owner := t)],
                   txs := s.txs[t := tx.(phase := Locking(tx.phase.i + 1),
                                         cts := Max(tx.cts, s.table[k].tsw.Rts() + 1))])
  }

  ghost predicate LockFail(s: State, s': State, t: nat)
    requires t < |s.txs|
  {
    var tx := s.txs[t];
    && tx.phase.Locking? && tx.phase.i < |tx.wset| && tx.wset[tx.phase.i].key < |s.table|
    && s.table[tx.wset[tx.phase.i].key].tsw.lock
    && s' == SetPhase(s, t, Unlocking(0, tx.phase.i))
  }

  function MaxReadWts(cts: nat, rs: seq<ReadItem>): (m: nat)
    ensures m >= cts && forall j | 0 <= j < |rs| :: m >= rs[j].tsw.wts
    ensures m == cts || exists j :: 0 <= j < |rs| && m == rs[j].tsw.wts
  {
    if rs == [] then cts
    else Max(MaxReadWts(cts, rs[..|rs| - 1]), rs[|rs| - 1].tsw.wts)
  }

  ghost predicate ComputeCommitTs(s: State, s': State, t: nat)
    requires t < |s.txs|
  {
    var tx := s.txs[t];
    && tx.phase.Locking? && tx.phase.i == |tx.wset|
    && s' == s.(txs := s.txs[t := tx.(phase := Validating(0), cts := MaxReadWts(tx.cts, tx.rset))])
  }

  ghost predicate AtReadItem(s: State, t: nat)
    requires t < |s.txs|
  {
    var tx := s.txs[t];
    tx.phase.Validating? && tx.phase.i < |tx.rset| && tx.rset[tx.phase.i].key < |s.table|
  }

  /** The interval seen when reading already covers the commit timestamp. */
  ghost predicate ValidateCovered(s: State, s': State, t: nat)
    requires t < |s.txs|
  {
    && AtReadItem(s, t)
    && s.txs[t].rset[s.txs[t].phase.i].tsw.Rts() >= s.txs[t].cts
    && s' == SetPhase(s, t, Validating(s.txs[t].phase.i + 1))
  }

  /** Overwritten since the read, or locked by somebody else before the extension. */
  ghost predicate ValidateFail(s: State, s': State, t: nat)
    requires t < |s.txs|
  {
    && AtReadItem(s, t)
    && var tx := s.txs[t];
       var r := tx.rset[tx.phase.i];
       var w := s.table[r.key].tsw;
       && r.tsw.Rts() < tx.cts
       && (w.wts != r.tsw.wts || (w.Rts() < tx.cts && w.lock && !HasKey(tx.wset, r.key)))
       && s' == SetPhase(s, t, Unlocking(0, |tx.wset|))
  }

  /** Own writes are re-stamped in the write phase; a long enough interval needs nothing. */
  ghost predicate ValidateKeep(s: State, s': State, t: nat)
    requires t < |s.txs|
  {
    && AtReadItem(s, t)
    && var tx := s.txs[t];
       var r := tx.rset[tx.phase.i];
       var w := s.table[r.key].tsw;
       && r.tsw.Rts() < tx.cts && w.wts == r.tsw.wts
       && (HasKey(tx.wset, r.key) || w.Rts() >= tx.cts)
       && s' == SetPhase(s, t, Validating(tx.phase.i + 1))
  }

  /** The word stored by an extension: `delta` keeps 15 bits, the rest moves into `wts`. */
  function Extend(w: Word, cts: nat): Word
    requires w.wts <= cts
  {
    var delta := cts - w.wts;
    var shift := delta - delta % DELTA_LIMIT;
    w.(wts := w.wts + shift, delta := delta - shift)
  }

  ghost predicate ValidateExtend(s: State, s': State, t: nat)
    requires t < |s.txs|
  {
    && AtReadItem(s, t)
    && var tx := s.txs[t];
       var r := tx.rset[tx.phase.i];
       var w := s.table[r.key].tsw;
       && r.tsw.Rts() < tx.cts && w.wts == r.tsw.wts && !HasKey(tx.wset, r.key)
       && w.Rts() < tx.cts && !w.lock
       && s' == s.(table := s.table[r.key := s.table[r.key].(tsw := Extend(w, tx.cts))],
                   txs := s.txs[t := tx.(phase := Validating(tx.phase.i + 1))])
  }

  predicate DistinctReads(rs: seq<ReadItem>) {
    forall i, j | 0 <= i < j < |rs| :: rs[i].key != rs[j].key
  }

  /** What the history records of a transaction whose validation succeeds. */
  function KeysRead(rs: seq<ReadItem>): (s: set<Key>)
    ensures forall k :: k in s <==> InReads(rs, k)
  {
    set j | 0 <= j < |rs| :: rs[j].key
  }

  /** The element for `k`. */
  function ReadOf(rs: seq<ReadItem>, k: Key): (e: ReadItem)
    requires DistinctReads(rs) && InReads(rs, k)
    ensures e in rs && forall j | 0 <= j < |rs| && rs[j].key == k :: rs[j] == e
  {
    var j :| 0 <= j < |rs| && rs[j].key == k;
    rs[j]
  }

  function ReadMap(rs: seq<ReadItem>): map<Key, Val>
    requires DistinctReads(rs)
  {
    map k | k in KeysRead(rs) :: ReadOf(rs, k).val
  }

  function SourceMap(rs: seq<ReadItem>): map<Key, nat>
    requires DistinctReads(rs)
  {
    map k | k in KeysRead(rs) :: ReadOf(rs, k).ver
  }

  ghost predicate Commit(s: State, s': State, t: nat)
    requires t < |s.txs|
  {
    var tx := s.txs[t];
    && tx.phase.Validating? && tx.phase.i == |tx.rset|
    && DistinctKeys(tx.wset) && DistinctReads(tx.rset)
    && var st := Stamp(tx.cts, s.tick);
       s' == s.(txs := s.txs[t := tx.(phase := Writing(0, s.tick))],
                commits := s.commits[st := Txn(ReadMap(tx.rset), WriteMap(tx.wset))],
                sources := s.sources[st := SourceMap(tx.rset)],
                tick := s.tick + 1)
  }

  ghost predicate StorePayload(s: State, s': State, t: nat)
    requires t < |s.txs|
  {
    var tx := s.txs[t];
    && tx.phase.Writing? && tx.phase.i < |tx.wset| && tx.wset[tx.phase.i].key < |s.table|
    && var k := tx.wset[tx.phase.i].key;
       s' == s.(table := s.table[k := s.table[k].(val := tx.wset[tx.phase.i].val, dirty := true)],
                txs := s.txs[t := tx.(phase := Stored(tx.phase.i, tx.phase.n))])
  }

  ghost predicate StoreWord(s: State, s': State, t: nat)
    requires t < |s.txs|
  {
    var tx := s.txs[t];
    && tx.phase.Stored? && tx.phase.i < |tx.wset| && tx.wset[tx.phase.i].key < |s.table|
    && var k := tx.wset[tx.phase.i].key;
       var tup := s.table[k];
       s' == s.(table := s.table[k := Tuple(Word(false, 0, tx.cts), tup.val, -1, false,
                                            tup.versions + [Version(Stamp(tx.cts, tx.phase.n), tx.wset[tx.phase.i].val)])],
                txs := s.txs[t := tx.(phase := Writing(tx.phase.i + 1, tx.phase.n))])
  }

  ghost predicate Finish(s: State, s': State, t: nat)
    requires t < |s.txs|
  {
    var tx := s.txs[t];
    && tx.phase.Writing? && tx.phase.i == |tx.wset|
    && s' == SetPhase(s, t, Idle)
  }

  ghost predicate UnlockLoad(s: State, s': State, t: nat)
    requires t < |s.txs|
  {
    var tx := s.txs[t];
    && tx.phase.Unlocking? && tx.phase.i < tx.phase.end <= |tx.wset| && tx.wset[tx.phase.i].key < |s.table|
    && s' == SetPhase(s, t, UnlockLoaded(tx.phase.i, tx.phase.end, s.table[tx.wset[tx.phase.i].key].tsw))
  }

  /** A plain store of the word read by UnlockLoad, lock bit cleared. */
  ghost predicate UnlockStore(s: State, s': State, t: nat)
    requires t < |s.txs|
  {
    var tx := s.txs[t];
    && tx.phase.UnlockLoaded? && tx.phase.i < |tx.wset| && tx.wset[tx.phase.i].key < |s.table|
    && var k := tx.wset[tx.phase.i].key;
       s' == s.(table := s.table[k := s.table[k].(tsw := tx.phase.word.(lock := false), owner := -1)],
                txs := s.txs[t := tx.(phase := Unlocking(tx.phase.i + 1, tx.phase.end))])
  }

  ghost predicate Aborted(s: State, s': State, t: nat)
    requires t < |s.txs|
  {
    var tx := s.txs[t];
    && tx.phase.Unlocking? && tx.phase.i == tx.phase.end
    && s' == SetPhase(s, t, Idle)
  }

  // ----------------------------------------------------------------- runs

  ghost predicate ReadPhaseStep(s: State, s': State, t: nat)
    requires t < |s.txs|
  {
    || Begin(s, s', t)
    || (exists k :: ReadStart(s, s', t, k))
    || ReadLoad(s, s', t) || PreemptiveAbort(s, s', t) || ReadCopy(s, s', t)
    || ReadAgain(s, s', t) || ReadDone(s, s', t)
    || (exists k, v :: Write(s, s', t, k, v))
  }

  ghost predicate ValidationStep(s: State, s': State, t: nat)
    requires t < |s.txs|
  {
    || (exists sorted :: SortWrites(s, s', t, sorted))
    || LockOne(s, s', t) || LockFail(s, s', t) || ComputeCommitTs(s, s', t)
    || ValidateCovered(s, s', t) || ValidateFail(s, s', t) || ValidateKeep(s, s', t) || ValidateExtend(s, s', t)
    || UnlockLoad(s, s', t) || UnlockStore(s, s', t) || Aborted(s, s', t)
  }

  ghost predicate WritePhaseStep(s: State, s': State, t: nat)
    requires t < |s.txs|
  {
    Commit(s, s', t) || StorePayload(s, s', t) || StoreWord(s, s', t) || Finish(s, s', t)
  }

  ghost predicate StepBy(s: State, s': State, t: nat) {
    t < |s.txs| && (ReadPhaseStep(s, s', t) || ValidationStep(s, s', t) || WritePhaseStep(s, s', t))
  }

  /** Freshly built table: unlocked words covering timestamp 0 only. */
  ghost predicate Init(s: State) {
    && (forall k | 0 <= k < |s.table| ::
          s.table[k] == Tuple(Word(false, 0, 0), s.table[k].val, -1, false, [Version(Stamp(0, 0), s.table[k].val)]))
    && (forall t | 0 <= t < |s.txs| :: s.txs[t] == Tx(Idle, [], [], 0, 0))
    && s.commits == map[] && s.sources == map[] && s.tick == 1
  }

  ghost predicate Next(s: State, s': State) {
    exists t: nat :: StepBy(s, s', t)
  }

  function InitialTable(s: State): map<Key, Val>
    requires forall k | 0 <= k < |s.table| :: s.table[k].versions != []
  {
    map k | 0 <= k < |s.table| :: s.table[k].versions[0].val
  }
}
