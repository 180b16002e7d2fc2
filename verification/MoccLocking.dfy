/** MOCC's canonical locking: a transaction that has to wait first gives up every lock at or
    above the one it waits for.

    One step is one lock operation or work on the thread's own lists.  `cll` and `rll` are
    the current and the retrospective lock list; `keys` are the keys of the read and write
    sets.  `readers`, `writer` and `crowded` record history only. */
module MoccLocking {
  import opened SerialExecution

  datatype Mode = Shared | Exclusive

  datatype Held = Held(key: Key, mode: Mode)

  datatype Lock = Lock(count: int, readers: set<nat>, writer: int)

  /** Keys are unsigned 32-bit numbers. */
  const KEY_SPACE: nat := 0x1_0000_0000

  const MANY: nat := 100

  datatype Phase =
    | Running
    | Releasing(key: Key, mode: Mode, keep: nat, threshold: nat)
    | Relocking(key: Key, mode: Mode, threshold: nat, i: nat)
    | RelockWaiting(key: Key, mode: Mode, threshold: nat, i: nat)
    | Waiting(key: Key, mode: Mode)
    | Spinning(key: Key)
    | Ending

  /** `at` counts the write-set keys locked by commit phase 1; -1 before it starts. */
  datatype Executor = Executor(phase: Phase, cll: seq<Held>, rll: seq<Held>, keys: set<Key>, wset: seq<Key>, at: int,
                               crowded: bool)

  datatype State = State(locks: seq<Lock>, exs: seq<Executor>)

  predicate Ascending(q: seq<Held>) {
    forall i, j | 0 <= i < j < |q| :: q[i].key < q[j].key
  }

  predicate DistinctHeld(q: seq<Held>) {
    forall i, j | 0 <= i < j < |q| :: q[i].key != q[j].key
  }

  predicate Holds(q: seq<Held>, k: Key) {
    exists i :: 0 <= i < |q| && q[i].key == k
  }

  predicate Enough(held: Mode, wanted: Mode) { held.Exclusive? || wanted.Shared? }

  /** `n` is the first position of an ascending list whose key is at least `key`. */
  predicate SplitsAt(q: seq<Held>, key: Key, n: nat) {
    && n <= |q|
    && (forall i | 0 <= i < n :: q[i].key < key)
    && (forall i | n <= i < |q| :: q[i].key >= key)
  }

  function SetEx(s: State, t: nat, e: Executor): State
    requires t < |s.exs|
  {
    s.(exs := s.exs[t := e])
  }

  function SetBoth(s: State, t: nat, e: Executor, k: Key, l: Lock): State
    requires t < |s.exs| && k < |s.locks|
  {
    s.(exs := s.exs[t := e], locks := s.locks[k := l])
  }

  predicate Free(l: Lock, mode: Mode) { if mode.Shared? then l.count != -1 else l.count == 0 }

  function Taken(l: Lock, t: nat, mode: Mode): Lock {
    if mode.Shared? then l.(count := l.count + 1, readers := l.readers + {t}) else l.(count := -1, writer := t)
  }

  function GivenBack(l: Lock, t: nat, mode: Mode): Lock {
    if mode.Shared? then l.(count := l.count - 1, readers := l.readers - {t}) else l.(count := l.count + 1, writer := -1)
  }

  function Upgraded(l: Lock, t: nat): Lock { l.(count := -1, readers := l.readers - {t}, writer := t) }

  /** lock() has succeeded: the caller files the key, or commit goes on to the next. */
  function Granted(e: Executor, key: Key): Executor {
    e.(phase := Running, keys := e.keys + {key}, at := if e.at >= 0 then e.at + 1 else e.at)
  }

  /** What commit phase 1 locks next, if it has started. */
  ghost predicate Calls(e: Executor, key: Key, mode: Mode) {
    e.phase.Running? && (e.at >= 0 ==> e.at < |e.wset| && key == e.wset[e.at] && mode.Exclusive?)
  }

  /** The lock is already held in a sufficient mode. */
  ghost predicate LockHeld(s: State, s': State, t: nat, key: Key, mode: Mode, sorted: seq<Held>)
    requires t < |s.exs|
  {
    var e := s.exs[t];
    && Calls(e, key, mode) && multiset(sorted) == multiset(e.cll) && Ascending(sorted)
    && (exists i :: 0 <= i < |sorted| && sorted[i].key == key && Enough(sorted[i].mode, mode))
    && s' == SetEx(s, t, Granted(e.(cll := sorted), key))
  }

  /** Not more than a hundred locks are out of order: they are given up. */
  ghost predicate LockStart(s: State, s': State, t: nat, key: Key, mode: Mode, sorted: seq<Held>, n: nat)
    requires t < |s.exs|
  {
    var e := s.exs[t];
    && Calls(e, key, mode) && key < |s.locks| && multiset(sorted) == multiset(e.cll) && Ascending(sorted)
    && !(exists i :: 0 <= i < |sorted| && sorted[i].key == key && Enough(sorted[i].mode, mode))
    && SplitsAt(sorted, key, n) && |sorted| - n <= MANY
    && s' == SetEx(s, t, e.(cll := sorted,
                            phase := Releasing(key, mode, n, if n < |sorted| then sorted[n].key % KEY_SPACE else KEY_SPACE - 1)))
  }

  /** More than a hundred are: the lock is tried once, out of order. */
  ghost predicate LockMany(s: State, s': State, t: nat, key: Key, mode: Mode, sorted: seq<Held>, n: nat)
    requires t < |s.exs|
  {
    var e := s.exs[t];
    && Calls(e, key, mode) && key < |s.locks| && multiset(sorted) == multiset(e.cll) && Ascending(sorted)
    && !(exists i :: 0 <= i < |sorted| && sorted[i].key == key && Enough(sorted[i].mode, mode))
    && SplitsAt(sorted, key, n) && |sorted| - n > MANY
    && s' == if Holds(sorted, key) then
               if s.locks[key].count == 1 && sorted[n].key == key
               then SetBoth(s, t, Granted(e.(cll := sorted[n := Held(key, Exclusive)]), key), key, Upgraded(s.locks[key], t))
               else SetEx(s, t, e.(cll := sorted, phase := Ending))
             else if Free(s.locks[key], mode)
               then SetBoth(s, t, Granted(e.(cll := sorted + [Held(key, mode)], crowded := true), key), key, Taken(s.locks[key], t, mode))
               else SetEx(s, t, e.(cll := sorted, phase := Ending))
  }

  /** Gives up one lock at or above the wanted one, lowest first. */
  ghost predicate ReleaseOne(s: State, s': State, t: nat)
    requires t < |s.exs|
  {
    var e := s.exs[t];
    && e.phase.Releasing?
    && var n := e.phase.keep;
       if n < |e.cll| then
         && e.cll[n].key < |s.locks|
         && s' == SetBoth(s, t, e.(cll := e.cll[..n] + e.cll[n + 1..]), e.cll[n].key,
                          GivenBack(s.locks[e.cll[n].key], t, e.cll[n].mode))
       else s' == SetEx(s, t, e.(phase := Relocking(e.phase.key, e.phase.mode, e.phase.threshold, 0)))
  }

  /** The loop meant to take the locks of the previous attempt again, in order. */
  ghost predicate Relock(s: State, s': State, t: nat)
    requires t < |s.exs|
  {
    var e := s.exs[t];
    && e.phase.Relocking?
    && var p := e.phase;
       s' == SetEx(s, t, e.(phase :=
         if p.i >= |e.rll| then Waiting(p.key, p.mode)
         else if e.rll[p.i].key <= p.threshold then Relocking(p.key, p.mode, p.threshold, p.i + 1)
         else if e.rll[p.i].key < p.key then RelockWaiting(p.key, p.mode, p.threshold, p.i)
         else Waiting(p.key, p.mode)))
  }

  ghost predicate RelockTake(s: State, s': State, t: nat)
    requires t < |s.exs|
  {
    var e := s.exs[t];
    && e.phase.RelockWaiting? && e.phase.i < |e.rll| && e.rll[e.phase.i].key < |s.locks|
    && var h := e.rll[e.phase.i];
       && Free(s.locks[h.key], h.mode)
       && s' == SetBoth(s, t, e.(cll := e.cll + [h], phase := Relocking(e.phase.key, e.phase.mode, e.phase.threshold, e.phase.i + 1)),
                        h.key, Taken(s.locks[h.key], t, h.mode))
  }

  /** The unconditional lock: taken once it is free. */
  ghost predicate LockTake(s: State, s': State, t: nat)
    requires t < |s.exs|
  {
    var e := s.exs[t];
    && e.phase.Waiting? && e.phase.key < |s.locks|
    && var h := Held(e.phase.key, e.phase.mode);
       && Free(s.locks[h.key], h.mode)
       && s' == SetBoth(s, t, Granted(e.(cll := e.cll + [h]), h.key), h.key, Taken(s.locks[h.key], t, h.mode))
  }

  /** An optimistic read meets a write lock: it aborts or spins.  The last entry of an empty
      lock list is anything. */
  ghost predicate SpinStart(s: State, s': State, t: nat, key: Key)
    requires t < |s.exs|
  {
    var e := s.exs[t];
    && e.phase.Running? && e.at < 0 && key !in e.keys && key < |s.locks| && s.locks[key].count == -1
    && (s' == SetEx(s, t, e.(phase := Ending, keys := e.keys + {key})) || s' == SetEx(s, t, e.(phase := Spinning(key))))
    && (e.cll != [] ==> (key < e.cll[|e.cll| - 1].key <==> s'.exs[t].phase.Ending?))
  }

  ghost predicate SpinEnd(s: State, s': State, t: nat)
    requires t < |s.exs|
  {
    var e := s.exs[t];
    && e.phase.Spinning? && e.phase.key < |s.locks| && s.locks[e.phase.key].count != -1
    && s' == SetEx(s, t, e.(phase := Running, keys := e.keys + {e.phase.key}))
  }

  /** An access that takes no lock. */
  ghost predicate Access(s: State, s': State, t: nat, key: Key)
    requires t < |s.exs|
  {
    var e := s.exs[t];
    && e.phase.Running? && e.at < 0 && key < |s.locks|
    && s' == SetEx(s, t, e.(keys := e.keys + {key}))
  }

  predicate AscendingKeys(q: seq<Key>) {
    forall i, j | 0 <= i < j < |q| :: q[i] < q[j]
  }

  ghost predicate CommitStart(s: State, s': State, t: nat, wset: seq<Key>)
    requires t < |s.exs|
  {
    var e := s.exs[t];
    && e.phase.Running? && e.at < 0 && AscendingKeys(wset) && (forall k | k in wset :: k in e.keys)
    && s' == SetEx(s, t, e.(wset := wset, at := 0))
  }

  ghost predicate Finish(s: State, s': State, t: nat)
    requires t < |s.exs|
  {
    s.exs[t].phase.Running? && s' == SetEx(s, t, s.exs[t].(phase := Ending))
  }

  /** unlockCLL(); an abort then rebuilds the retrospective lock list. */
  ghost predicate End(s: State, s': State, t: nat, rll: seq<Held>)
    requires t < |s.exs|
  {
    var e := s.exs[t];
    && e.phase.Ending? && Ascending(rll) && (forall h | h in rll :: h.key < |s.locks|)
    && if e.cll != [] then
         && e.cll[0].key < |s.locks|
         && s' == SetBoth(s, t, e.(cll := e.cll[1..]), e.cll[0].key, GivenBack(s.locks[e.cll[0].key], t, e.cll[0].mode))
       else s' == SetEx(s, t, Executor(Running, [], rll, {}, [], -1, false))
  }

  ghost predicate StepBy(s: State, s': State, t: nat) {
    && t < |s.exs|
    && (|| (exists key, mode, sorted :: LockHeld(s, s', t, key, mode, sorted))
        || (exists key, mode, sorted, n :: LockStart(s, s', t, key, mode, sorted, n))
        || (exists key, mode, sorted, n :: LockMany(s, s', t, key, mode, sorted, n))
        || ReleaseOne(s, s', t) || Relock(s, s', t) || RelockTake(s, s', t) || LockTake(s, s', t)
        || (exists key :: SpinStart(s, s', t, key)) || SpinEnd(s, s', t)
        || (exists key :: Access(s, s', t, key)) || (exists wset :: CommitStart(s, s', t, wset))
        || Finish(s, s', t) || (exists rll :: End(s, s', t, rll)))
  }

  ghost predicate Next(s: State, s': State) {
    exists t: nat :: StepBy(s, s', t)
  }

  ghost predicate Init(s: State) {
    && |s.locks| <= KEY_SPACE
    && (forall k | 0 <= k < |s.locks| :: s.locks[k] == Lock(0, {}, -1))
    && (forall t | 0 <= t < |s.exs| :: s.exs[t] == Executor(Running, [], [], {}, [], -1, false))
  }
}
