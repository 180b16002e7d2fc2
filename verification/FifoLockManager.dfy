/** The deterministic scheduler with one first-in-first-out wait list per record.

    A worker takes the giant lock, draws the next transaction number, puts it on the wait
    list of every record the transaction touches, and releases the giant lock; it then
    takes each record's lock once it heads the wait list, runs the transaction, and
    releases the locks.  Transactions are the actors; `waits`, `count` and `future` are the
    repository's wait_list_, counter and future_lock_.  `readers`, `writer`, `through` and
    `seen` record history and are never consulted by a guard. */
module FifoLockManager {
  import opened SerialExecution
  import opened Programs

  datatype Mode = Shared | Exclusive

  datatype Lock = Lock(key: Key, mode: Mode)

  /** `count` is -1 when locked for writing, else the number of readers.  Every writer
      numbered below `through` has finished with the record and no later one has begun. */
  datatype Tuple = Tuple(val: Val, count: int, waits: seq<nat>, readers: set<nat>, writer: int, through: nat)

  datatype Phase =
    | NotStarted
    | Registering(pos: nat)
    | Acquiring(i: nat)
    | Trying(i: nat)
    | Executing(pos: nat)
    | Releasing
    | Done

  datatype Tx = Tx(phase: Phase, future: seq<Lock>, rlocks: seq<Key>, wlocks: seq<Key>, seen: seq<Val>)

  /** `giant` is the transaction being registered, or -1; `next` is the next number. */
  datatype State = State(table: seq<Tuple>, txs: seq<Tx>, giant: int, next: nat,
                         programs: seq<seq<Task>>, init: seq<Val>, first: nat)

  function SetPhase(s: State, t: nat, p: Phase): State
    requires t < |s.txs|
  {
    s.(txs := s.txs[t := s.txs[t].(phase := p)])
  }

  // ------------------------------------------------------------ registration

  /** How the transaction's tasks before `upper` first use `key`: 0 reading, 1 writing,
      -1 not at all. */
  function FirstUse(tasks: seq<Task>, key: Key, upper: nat): (r: int)
    requires upper <= |tasks|
    ensures r == -1 || r == 0 || r == 1
    ensures r == -1 <==> !TouchesKey(tasks[..upper], key)
    ensures r == 1 ==> WritesKey(tasks[..upper], key)
  {
    if upper == 0 then -1
    else
      var before := FirstUse(tasks, key, upper - 1);
      var last := tasks[upper - 1];
      assert forall i | 0 <= i < upper - 1 :: tasks[..upper][i] == tasks[..upper - 1][i];
      if before != -1 then before
      else if last.Sleep? || last.key != key then -1
      else if last.Write? then assert tasks[..upper][upper - 1].Write?; 1
      else assert !tasks[..upper][upper - 1].Sleep?; 0
  }

  predicate HasLock(locks: seq<Lock>, k: Key) {
    exists i :: 0 <= i < |locks| && locks[i].key == k
  }

  /** The first request for `key` becomes exclusive. */
  function Upgraded(locks: seq<Lock>, key: Key): (r: seq<Lock>)
    ensures |r| == |locks|
  {
    if locks == [] then []
    else if locks[0].key == key then [Lock(key, Exclusive)] + locks[1..]
    else [locks[0]] + Upgraded(locks[1..], key)
  }

  ghost predicate Start(s: State, s': State, t: nat)
    requires t < |s.txs|
  {
    && s.giant == -1 && t == s.next && s.txs[t].phase.NotStarted?
    && s' == SetPhase(s, t, Registering(0)).(giant := t, next := t + 1)
  }

  /** Asks for the lock of a record the transaction meets for the first time. */
  function Enqueue(s: State, t: nat, pos: nat, k: Key, mode: Mode): State
    requires t < |s.txs| && k < |s.table|
  {
    s.(table := s.table[k := s.table[k].(waits := s.table[k].waits + [t])],
       txs := s.txs[t := s.txs[t].(phase := Registering(pos + 1), future := s.txs[t].future + [Lock(k, mode)])])
  }

  ghost predicate Register(s: State, s': State, t: nat)
    requires t < |s.txs|
  {
    && s.txs[t].phase.Registering? && t < |s.programs|
    && var tasks, pos := s.programs[t], s.txs[t].phase.pos;
       && pos < |tasks|
       && var task := tasks[pos];
          match task
          case Sleep => s' == SetPhase(s, t, Registering(pos + 1))
          case Read(k) =>
            && k < |s.table|
            && s' == if FirstUse(tasks, k, pos) > -1 then SetPhase(s, t, Registering(pos + 1))
                     else Enqueue(s, t, pos, k, Shared)
          case Write(k, _) =>
            && k < |s.table|
            && var use := FirstUse(tasks, k, pos);
               s' == if use == 1 then SetPhase(s, t, Registering(pos + 1))
                     else if use == 0 then
                       s.(txs := s.txs[t := s.txs[t].(phase := Registering(pos + 1), future := Upgraded(s.txs[t].future, k))])
                     else Enqueue(s, t, pos, k, Exclusive)
  }

  /** Everything is registered: the giant lock is released. */
  ghost predicate Registered(s: State, s': State, t: nat)
    requires t < |s.txs|
  {
    && s.txs[t].phase.Registering? && t < |s.programs| && s.txs[t].phase.pos == |s.programs[t]|
    && s' == SetPhase(s, t, Acquiring(0)).(giant := -1)
  }

  // ------------------------------------------------------------- acquisition

  ghost predicate AtRequest(s: State, t: nat, i: nat)
    requires t < |s.txs|
  {
    i < |s.txs[t].future| && s.txs[t].future[i].key < |s.table|
  }

  /** Looks at the head of the wait list. */
  ghost predicate CheckHead(s: State, s': State, t: nat)
    requires t < |s.txs|
  {
    && s.txs[t].phase.Acquiring? && AtRequest(s, t, s.txs[t].phase.i)
    && var i := s.txs[t].phase.i;
       var tup := s.table[s.txs[t].future[i].key];
       && tup.waits != []
       && s' == SetPhase(s, t, if tup.waits[0] == t then Trying(i) else Acquiring(i + 1))
  }

  /** Another worker is at the wait list. */
  ghost predicate TryBusy(s: State, s': State, t: nat)
    requires t < |s.txs|
  {
    s.txs[t].phase.Trying? && s' == SetPhase(s, t, Acquiring(s.txs[t].phase.i + 1))
  }

  function Without<T>(q: seq<T>, i: nat): seq<T>
    requires i < |q|
  {
    q[..i] + q[i + 1..]
  }

  predicate Free(tup: Tuple, mode: Mode) {
    if mode.Shared? then tup.count != -1 else tup.count == 0
  }

  function Locked(tup: Tuple, t: nat, mode: Mode): Tuple
    requires tup.waits != []
  {
    if mode.Shared? then tup.(count := tup.count + 1, waits := tup.waits[1..], readers := tup.readers + {t})
    else tup.(count := -1, waits := tup.waits[1..], writer := t)
  }

  /** Takes the record's lock and leaves the wait list, or goes on to the next request. */
  ghost predicate TryLock(s: State, s': State, t: nat)
    requires t < |s.txs|
  {
    && s.txs[t].phase.Trying? && AtRequest(s, t, s.txs[t].phase.i)
    && var tx, i := s.txs[t], s.txs[t].phase.i;
       var l := tx.future[i];
       var tup := s.table[l.key];
       && tup.waits != []
       && s' == if !Free(tup, l.mode) then SetPhase(s, t, Acquiring(i + 1))
                else
                  s.(table := s.table[l.key := Locked(tup, t, l.mode)],
                     txs := s.txs[t := tx.(phase := Acquiring(i), future := Without(tx.future, i),
                                           rlocks := if l.mode.Shared? then tx.rlocks + [l.key] else tx.rlocks,
                                           wlocks := if l.mode.Shared? then tx.wlocks else tx.wlocks + [l.key])])
  }

  /** The end of one pass over the outstanding requests. */
  ghost predicate Wrap(s: State, s': State, t: nat)
    requires t < |s.txs|
  {
    && s.txs[t].phase.Acquiring? && s.txs[t].phase.i >= |s.txs[t].future|
    && s' == SetPhase(s, t, if s.txs[t].future == [] then Executing(0) else Acquiring(0))
  }

  // --------------------------------------------------- execution and release

  ghost predicate Execute(s: State, s': State, t: nat)
    requires t < |s.txs|
  {
    && s.txs[t].phase.Executing? && t < |s.programs|
    && var tasks, pos := s.programs[t], s.txs[t].phase.pos;
       && pos < |tasks|
       && match tasks[pos]
          case Sleep => s' == SetPhase(s, t, Executing(pos + 1))
          case Read(k) =>
            && k < |s.table|
            && s' == s.(txs := s.txs[t := s.txs[t].(phase := Executing(pos + 1), seen := s.txs[t].seen + [s.table[k].val])])
          case Write(k, v) =>
            && k < |s.table|
            && s' == SetPhase(s, t, Executing(pos + 1)).(table := s.table[k := s.table[k].(val := v)])
  }

  ghost predicate Executed(s: State, s': State, t: nat)
    requires t < |s.txs|
  {
    && s.txs[t].phase.Executing? && t < |s.programs| && s.txs[t].phase.pos == |s.programs[t]|
    && s' == SetPhase(s, t, Releasing)
  }

  ghost predicate ReleaseRead(s: State, s': State, t: nat)
    requires t < |s.txs|
  {
    && s.txs[t].phase.Releasing? && s.txs[t].rlocks != [] && s.txs[t].rlocks[0] < |s.table|
    && var k := s.txs[t].rlocks[0];
       var tup := s.table[k];
       s' == s.(table := s.table[k := tup.(count := tup.count - 1, readers := tup.readers - {t})],
                txs := s.txs[t := s.txs[t].(rlocks := s.txs[t].rlocks[1..])])
  }

  ghost predicate ReleaseWrite(s: State, s': State, t: nat)
    requires t < |s.txs|
  {
    && s.txs[t].phase.Releasing? && s.txs[t].rlocks == [] && s.txs[t].wlocks != [] && s.txs[t].wlocks[0] < |s.table|
    && var k := s.txs[t].wlocks[0];
       var tup := s.table[k];
       s' == s.(table := s.table[k := tup.(count := tup.count + 1, writer := -1, through := t + 1)],
                txs := s.txs[t := s.txs[t].(wlocks := s.txs[t].wlocks[1..])])
  }

  ghost predicate Finish(s: State, s': State, t: nat)
    requires t < |s.txs|
  {
    && s.txs[t].phase.Releasing? && s.txs[t].rlocks == [] && s.txs[t].wlocks == []
    && s' == SetPhase(s, t, Done)
  }

  // -------------------------------------------------------------------- runs

  ghost predicate StepBy(s: State, s': State, t: nat) {
    && t < |s.txs|
    && (Start(s, s', t) || Register(s, s', t) || Registered(s, s', t)
        || CheckHead(s, s', t) || TryBusy(s, s', t) || TryLock(s, s', t) || Wrap(s, s', t)
        || Execute(s, s', t) || Executed(s, s', t)
        || ReleaseRead(s, s', t) || ReleaseWrite(s, s', t) || Finish(s, s', t))
  }

  ghost predicate Next(s: State, s': State) {
    exists t: nat :: StepBy(s, s', t)
  }

  ghost predicate Init(s: State) {
    && |s.programs| == |s.txs| && s.first <= |s.txs| && s.next == s.first && s.giant == -1
    && |s.init| == |s.table|
    && (forall t | 0 <= t < |s.txs| :: s.txs[t] == Tx(NotStarted, [], [], [], []) && Fits(s.programs[t], |s.table|))
    && (forall k | 0 <= k < |s.table| :: s.table[k] == Tuple(s.init[k], 0, [], {}, -1, s.first))
  }
}
