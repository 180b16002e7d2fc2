/** MOCC's blocking waits never close a circle, and commit phase 1 ends with every key of
    the write set locked for writing. */
module MoccSafety {
  import opened SerialExecution
  import opened Runs
  import opened MoccLocking

  ghost predicate LockOk(l: Lock, n: nat) {
    && (forall r | r in l.readers :: r < n) && -1 <= l.writer < n
    && (l.writer >= 0 ==> l.readers == {})
    && l.count == (if l.writer >= 0 then -1 else |l.readers|)
  }

  predicate HoldsIn(q: seq<Held>, k: Key, mode: Mode) {
    Held(k, mode) in q
  }

  ghost predicate LinkOk(locks: seq<Lock>, e: Executor, t: nat) {
    && (forall k | 0 <= k < |locks| ::
          && (t in locks[k].readers <==> HoldsIn(e.cll, k, Shared))
          && (locks[k].writer == t <==> HoldsIn(e.cll, k, Exclusive)))
    && (forall h | h in e.cll :: h.key < |locks|)
  }

  predicate AllBelow(q: seq<Held>, key: Key) {
    forall h | h in q :: h.key < key
  }

  /** Where the executor may block, everything it holds is below the key it waits for. */
  ghost predicate PhaseOk(e: Executor) {
    && (e.phase.Releasing? ==>
          && SplitsAt(e.cll, e.phase.key, e.phase.keep) && Ascending(e.cll)
          && (e.phase.key <= e.phase.threshold || e.phase.threshold == KEY_SPACE - 1))
    && (e.phase.Relocking? ==>
          && AllBelow(e.cll, e.phase.key) && Ascending(e.cll)
          && (e.phase.key <= e.phase.threshold || e.phase.threshold == KEY_SPACE - 1))
    && !e.phase.RelockWaiting?
    && (e.phase.Waiting? ==> AllBelow(e.cll, e.phase.key) && Ascending(e.cll))
    && (e.phase.Spinning? ==> e.phase.key !in e.keys && (!e.crowded ==> AllBelow(e.cll, e.phase.key)))
  }

  ghost predicate CommitOk(e: Executor) {
    && -1 <= e.at <= |e.wset| && AscendingKeys(e.wset)
    && (forall j | 0 <= j < e.at && !e.phase.Ending? :: HoldsIn(e.cll, e.wset[j], Exclusive))
    && (e.at >= 0 && (e.phase.Releasing? || e.phase.Relocking? || e.phase.Waiting?) ==>
          e.at < |e.wset| && e.phase.key == e.wset[e.at] && e.phase.mode.Exclusive?)
    && (e.phase.Spinning? ==> e.at < 0)
  }

  ghost predicate ListOk(e: Executor, n: nat) {
    && DistinctHeld(e.cll) && (!e.crowded && !e.phase.Ending? ==> Ascending(e.cll))
    && (!e.phase.Ending? ==> forall h | h in e.cll :: h.key in e.keys)
    && (forall h | h in e.rll :: h.key < n)
  }

  ghost predicate ExOk(locks: seq<Lock>, e: Executor, t: nat) {
    && LinkOk(locks, e, t) && ListOk(e, |locks|) && PhaseOk(e) && CommitOk(e)
    && (e.phase.Releasing? || e.phase.Relocking? || e.phase.Waiting? || e.phase.Spinning? ==> e.phase.key < |locks|)
  }

  ghost predicate Inv(s: State) {
    && |s.locks| <= KEY_SPACE
    && (forall k | 0 <= k < |s.locks| :: LockOk(s.locks[k], |s.exs|))
    && (forall t | 0 <= t < |s.exs| :: ExOk(s.locks, s.exs[t], t))
  }

  ghost predicate Touches(s: State, s': State, t: nat, k: Key) {
    && t < |s.exs| && |s'.exs| == |s.exs| && s'.exs == s.exs[t := s'.exs[t]]
    && k < |s.locks| && |s'.locks| == |s.locks| && s'.locks == s.locks[k := s'.locks[k]]
  }

  ghost predicate SameFor(a: Lock, b: Lock, u: nat) {
    (u in b.readers <==> u in a.readers) && (b.writer == u <==> a.writer == u)
  }

  lemma StepKeeps(s: State, s': State, t: nat, k: Key)
    requires Inv(s) && Touches(s, s', t, k)
    requires forall u: nat | u != t && u < |s.exs| :: SameFor(s.locks[k], s'.locks[k], u)
    requires LockOk(s'.locks[k], |s.exs|) && ExOk(s'.locks, s'.exs[t], t)
    ensures Inv(s')
  {
    forall u | 0 <= u < |s'.exs| ensures ExOk(s'.locks, s'.exs[u], u) {
      if u != t {
        assert ExOk(s.locks, s.exs[u], u);
        assert forall x | 0 <= x < |s.locks| :: SameFor(s.locks[x], s'.locks[x], u);
      }
    }
  }

  lemma LocalKeeps(s: State, s': State, t: nat)
    requires Inv(s) && t < |s.exs| && |s'.exs| == |s.exs| && s' == SetEx(s, t, s'.exs[t]) && ExOk(s.locks, s'.exs[t], t)
    ensures Inv(s')
  {
    forall u | 0 <= u < |s'.exs| ensures ExOk(s'.locks, s'.exs[u], u) {
      assert ExOk(s.locks, s.exs[u], u);
    }
  }

  // ----------------------------------------------------------------- sorting

  lemma SortedMembers(q: seq<Held>, sorted: seq<Held>)
    requires multiset(sorted) == multiset(q)
    ensures forall h :: h in sorted <==> h in q
    ensures |sorted| == |q|
  {
    assert |multiset(sorted)| == |sorted| && |multiset(q)| == |q|;
    assert forall h :: h in sorted <==> h in multiset(sorted);
    assert forall h :: h in q <==> h in multiset(q);
  }

  /** Sorting the lock list changes nothing about what is held. */
  lemma SortKeeps(locks: seq<Lock>, e: Executor, t: nat, sorted: seq<Held>)
    requires ExOk(locks, e, t) && e.phase.Running? && multiset(sorted) == multiset(e.cll) && Ascending(sorted)
    ensures ExOk(locks, e.(cll := sorted), t)
  {
    SortedMembers(e.cll, sorted);
  }

  // ------------------------------------------------------------------ lock()

  lemma HeldKeeps(s: State, s': State, t: nat, key: Key, mode: Mode, sorted: seq<Held>)
    requires Inv(s) && t < |s.exs| && LockHeld(s, s', t, key, mode, sorted)
    ensures Inv(s')
  {
    var e := s.exs[t];
    SortKeeps(s.locks, e, t, sorted);
    var i :| 0 <= i < |sorted| && sorted[i].key == key && Enough(sorted[i].mode, mode);
    assert sorted[i] in sorted;
    if e.at >= 0 {
      assert sorted[i] == Held(key, Exclusive);
    }
    assert ExOk(s.locks, s'.exs[t], t);
    LocalKeeps(s, s', t);
  }

  lemma StartKeeps(s: State, s': State, t: nat, key: Key, mode: Mode, sorted: seq<Held>, n: nat)
    requires Inv(s) && t < |s.exs| && LockStart(s, s', t, key, mode, sorted, n)
    ensures Inv(s')
  {
    SortKeeps(s.locks, s.exs[t], t, sorted);
    if n < |sorted| {
      assert sorted[n] in sorted;
    }
    LocalKeeps(s, s', t);
  }

  lemma OnlyReader(l: Lock, t: nat)
    requires t in l.readers && |l.readers| == 1
    ensures l.readers == {t}
  {
    assert |l.readers - {t}| == 0;
    assert l.readers == (l.readers - {t}) + {t};
  }

  lemma UpgradedList(q: seq<Held>, n: nat, key: Key)
    requires Ascending(q) && n < |q| && q[n] == Held(key, Shared)
    ensures Ascending(q[n := Held(key, Exclusive)])
    ensures forall h :: h in q[n := Held(key, Exclusive)] <==> (h in q && h.key != key) || h == Held(key, Exclusive)
  {
    var r := q[n := Held(key, Exclusive)];
    assert r[n] == Held(key, Exclusive);
    forall h | h in q && h.key != key ensures h in r {
      var i :| 0 <= i < |q| && q[i] == h;
      assert r[i] == h;
    }
  }

  lemma ManyUpgrade(s: State, s': State, t: nat, key: Key, sorted: seq<Held>, n: nat)
    requires Inv(s) && t < |s.exs| && key < |s.locks| && ExOk(s.locks, s.exs[t].(cll := sorted), t)
    requires s.exs[t].phase.Running? && Ascending(sorted) && n < |sorted| && sorted[n] == Held(key, Shared)
    requires s.exs[t].at >= 0 ==> s.exs[t].at < |s.exs[t].wset| && key == s.exs[t].wset[s.exs[t].at]
    requires s.locks[key].count == 1
    requires s' == SetBoth(s, t, Granted(s.exs[t].(cll := sorted[n := Held(key, Exclusive)]), key), key, Upgraded(s.locks[key], t))
    ensures Inv(s')
  {
    assert sorted[n] in sorted;
    assert LockOk(s.locks[key], |s.exs|);
    OnlyReader(s.locks[key], t);
    UpgradedList(sorted, n, key);
    assert forall h | h in sorted && h.key == key :: h == Held(key, Shared);
    StepKeeps(s, s', t, key);
  }

  lemma NotHeld(q: seq<Held>, key: Key)
    requires !Holds(q, key)
    ensures forall h | h in q :: h.key != key
  {
  }

  /** A lock taken at the end of the list. */
  lemma TakeKeeps(s: State, s': State, t: nat, e: Executor, h: Held, crowd: bool)
    requires Inv(s) && t < |s.exs| && h.key < |s.locks| && ExOk(s.locks, e, t) && !Holds(e.cll, h.key)
    requires e.phase.Running? || e.phase.Waiting?
    requires e.phase.Waiting? ==> h == Held(e.phase.key, e.phase.mode) && !crowd
    requires e.phase.Running? ==> crowd
    requires e.at >= 0 ==> e.at < |e.wset| && h == Held(e.wset[e.at], Exclusive)
    requires Free(s.locks[h.key], h.mode)
    requires s' == SetBoth(s, t, Granted(e.(cll := e.cll + [h], crowded := e.crowded || crowd), h.key), h.key, Taken(s.locks[h.key], t, h.mode))
    ensures Inv(s')
  {
    NotHeld(e.cll, h.key);
    assert LockOk(s.locks[h.key], |s.exs|);
    var e' := s'.exs[t];
    assert t !in s.locks[h.key].readers && s.locks[h.key].writer != t;
    TakenList(e, e', h);
    StepKeeps(s, s', t, h.key);
  }

  lemma TakenList(e: Executor, e': Executor, h: Held)
    requires DistinctHeld(e.cll) && !Holds(e.cll, h.key) && e'.cll == e.cll + [h]
    ensures DistinctHeld(e'.cll) && forall x :: x in e'.cll <==> x in e.cll || x == h
    ensures Ascending(e.cll) && AllBelow(e.cll, h.key) ==> Ascending(e'.cll)
  {
    assert forall i | 0 <= i < |e.cll| :: e.cll[i] in e.cll;
  }

  lemma ManyKeeps(s: State, s': State, t: nat, key: Key, mode: Mode, sorted: seq<Held>, n: nat)
    requires Inv(s) && t < |s.exs| && LockMany(s, s', t, key, mode, sorted, n)
    ensures Inv(s')
  {
    var e := s.exs[t];
    SortKeeps(s.locks, e, t, sorted);
    if s'.exs[t].phase.Ending? {
      LocalKeeps(s, s', t);
    } else if Holds(sorted, key) {
      ManyUpgrade(s, s', t, key, sorted, n);
    } else {
      TakeKeeps(s, s', t, e.(cll := sorted), Held(key, mode), true);
    }
  }

  lemma WithoutAt(q: seq<Held>, n: nat)
    requires DistinctHeld(q) && n < |q|
    ensures var r := q[..n] + q[n + 1..];
            && DistinctHeld(r) && (Ascending(q) ==> Ascending(r))
            && forall h :: h in r <==> h in q && h != q[n]
  {
    var r := q[..n] + q[n + 1..];
    assert forall i | 0 <= i < |r| :: r[i] == if i < n then q[i] else q[i + 1];
    forall h | h in q && h != q[n] ensures h in r {
      var i :| 0 <= i < |q| && q[i] == h;
      assert r[if i < n then i else i - 1] == h;
    }
  }

  lemma GiveBackLock(l: Lock, t: nat, mode: Mode, n: nat)
    requires LockOk(l, n) && (if mode.Shared? then t in l.readers else l.writer == t)
    ensures LockOk(GivenBack(l, t, mode), n)
    ensures forall u: nat | u != t :: SameFor(l, GivenBack(l, t, mode), u)
  {
    if mode.Shared? {
      assert |l.readers - {t}| == |l.readers| - 1;
    }
  }

  lemma ReleaseTail(q: seq<Held>, key: Key, n: nat)
    requires SplitsAt(q, key, n) && n < |q|
    ensures SplitsAt(q[..n] + q[n + 1..], key, n)
  {
  }

  lemma ReleaseKeeps(s: State, s': State, t: nat)
    requires Inv(s) && t < |s.exs| && ReleaseOne(s, s', t)
    ensures Inv(s')
  {
    var e := s.exs[t];
    var n := e.phase.keep;
    assert ExOk(s.locks, e, t);
    if n < |e.cll| {
      var h := e.cll[n];
      assert h in e.cll && LockOk(s.locks[h.key], |s.exs|);
      WithoutAt(e.cll, n);
      ReleaseTail(e.cll, e.phase.key, n);
      GiveBackLock(s.locks[h.key], t, h.mode, |s.exs|);
      ReleaseCommit(e, s'.exs[t], n);
      assert ExOk(s'.locks, s'.exs[t], t);
      StepKeeps(s, s', t, h.key);
    } else {
      LocalKeeps(s, s', t);
    }
  }

  /** What commit has locked so far is below the key it is locking, and is kept. */
  lemma ReleaseCommit(e: Executor, e': Executor, n: nat)
    requires CommitOk(e) && e.phase.Releasing? && SplitsAt(e.cll, e.phase.key, n) && n < |e.cll|
    requires e' == e.(cll := e.cll[..n] + e.cll[n + 1..]) && DistinctHeld(e.cll)
    ensures CommitOk(e')
  {
    WithoutAt(e.cll, n);
    forall j | 0 <= j < e.at ensures HoldsIn(e'.cll, e.wset[j], Exclusive) {
      assert HoldsIn(e.cll, e.wset[j], Exclusive);
      assert e.wset[j] < e.wset[e.at];
    }
  }

  /** The relocking loop never finds anything to take: every remembered key is at most the
      threshold or at least the wanted key. */
  lemma RelockKeeps(s: State, s': State, t: nat)
    requires Inv(s) && t < |s.exs| && Relock(s, s', t)
    ensures Inv(s')
  {
    var e := s.exs[t];
    assert ExOk(s.locks, e, t);
    if e.phase.i < |e.rll| {
      assert e.rll[e.phase.i] in e.rll;
    }
    LocalKeeps(s, s', t);
  }

  lemma LockTakeKeeps(s: State, s': State, t: nat)
    requires Inv(s) && t < |s.exs| && LockTake(s, s', t)
    ensures Inv(s')
  {
    var e := s.exs[t];
    assert ExOk(s.locks, e, t);
    assert forall i | 0 <= i < |e.cll| :: e.cll[i] in e.cll;
    TakeKeeps(s, s', t, e, Held(e.phase.key, e.phase.mode), false);
  }

  // ------------------------------------------------------------- other steps

  lemma SpinKeeps(s: State, s': State, t: nat, key: Key)
    requires Inv(s) && t < |s.exs| && SpinStart(s, s', t, key)
    ensures Inv(s')
  {
    var e := s.exs[t];
    assert ExOk(s.locks, e, t);
    if s'.exs[t].phase.Spinning? && !e.crowded {
      forall h | h in e.cll ensures h.key < key {
        var i :| 0 <= i < |e.cll| && e.cll[i] == h;
        assert h.key <= e.cll[|e.cll| - 1].key <= key;
      }
    }
    LocalKeeps(s, s', t);
  }

  lemma LocalStepsKeep(s: State, s': State, t: nat)
    requires Inv(s) && t < |s.exs|
    requires SpinEnd(s, s', t) || (exists key :: Access(s, s', t, key)) || (exists wset :: CommitStart(s, s', t, wset)) || Finish(s, s', t)
    ensures Inv(s')
  {
    assert ExOk(s.locks, s.exs[t], t);
    LocalKeeps(s, s', t);
  }

  lemma DropFirstHeld(q: seq<Held>)
    requires q != [] && DistinctHeld(q)
    ensures DistinctHeld(q[1..]) && forall h :: h in q[1..] <==> h in q && h != q[0]
  {
    WithoutAt(q, 0);
    assert q[..0] + q[1..] == q[1..];
  }

  lemma EndLink(locks: seq<Lock>, locks': seq<Lock>, e: Executor, e': Executor, t: nat, h: Held)
    requires LinkOk(locks, e, t) && h in e.cll && DistinctHeld(e.cll) && locks' == locks[h.key := GivenBack(locks[h.key], t, h.mode)]
    requires forall x :: x in e'.cll <==> x in e.cll && x != h
    ensures LinkOk(locks', e', t)
  {
    assert forall x | x in e.cll && x.key == h.key :: x == h;
    assert h.mode.Shared? ==> locks[h.key].writer != t;
  }

  lemma EndTx(locks: seq<Lock>, locks': seq<Lock>, e: Executor, e': Executor, t: nat, n: nat)
    requires ExOk(locks, e, t) && e.phase.Ending? && e.cll != [] && e.cll[0].key < |locks|
    requires e' == e.(cll := e.cll[1..])
    requires locks' == locks[e.cll[0].key := GivenBack(locks[e.cll[0].key], t, e.cll[0].mode)]
    ensures ExOk(locks', e', t)
  {
    DropFirstHeld(e.cll);
    EndLink(locks, locks', e, e', t, e.cll[0]);
  }

  lemma EndKeeps(s: State, s': State, t: nat, rll: seq<Held>)
    requires Inv(s) && t < |s.exs| && End(s, s', t, rll)
    ensures Inv(s')
  {
    var e := s.exs[t];
    assert ExOk(s.locks, e, t);
    if e.cll != [] {
      var h := e.cll[0];
      assert h in e.cll && LockOk(s.locks[h.key], |s.exs|);
      EndTx(s.locks, s'.locks, e, s'.exs[t], t, |s.exs|);
      GiveBackLock(s.locks[h.key], t, h.mode, |s.exs|);
      StepKeeps(s, s', t, h.key);
    } else {
      LocalKeeps(s, s', t);
    }
  }

  lemma StepKeepsInv(s: State, s': State)
    requires Inv(s) && Next(s, s')
    ensures Inv(s')
  {
    var t: nat :| StepBy(s, s', t);
    if ReleaseOne(s, s', t) {
      ReleaseKeeps(s, s', t);
    } else if Relock(s, s', t) {
      RelockKeeps(s, s', t);
    } else if LockTake(s, s', t) {
      LockTakeKeeps(s, s', t);
    } else if key: Key, mode, sorted :| LockHeld(s, s', t, key, mode, sorted) {
      HeldKeeps(s, s', t, key, mode, sorted);
    } else if key: Key, mode, sorted, n: nat :| LockStart(s, s', t, key, mode, sorted, n) {
      StartKeeps(s, s', t, key, mode, sorted, n);
    } else if key: Key, mode, sorted, n: nat :| LockMany(s, s', t, key, mode, sorted, n) {
      ManyKeeps(s, s', t, key, mode, sorted, n);
    } else if key: Key :| SpinStart(s, s', t, key) {
      SpinKeeps(s, s', t, key);
    } else if rll :| End(s, s', t, rll) {
      EndKeeps(s, s', t, rll);
    } else {
      NoRelock(s, s', t);
      LocalStepsKeep(s, s', t);
    }
  }

  lemma NoRelock(s: State, s': State, t: nat)
    requires Inv(s) && t < |s.exs|
    ensures !RelockTake(s, s', t)
  {
    assert ExOk(s.locks, s.exs[t], t);
  }

  lemma RunKeepsInv(run: seq<State>, i: nat)
    requires IsRun(run, Init, Next) && i < |run|
    ensures Inv(run[i])
  {
    forall s | Init(s) ensures Inv(s) {
    }
    forall s, s' | Inv(s) && Next(s, s') ensures Inv(s') {
      StepKeepsInv(s, s');
    }
    Invariant(run, Init, Next, Inv, i);
  }

  // ---------------------------------------------------------------- theorems

  /** The loop over the retrospective lock list never locks anything. */
  lemma NothingIsRelocked(run: seq<State>, i: nat, t: nat)
    requires IsRun(run, Init, Next) && i < |run| && t < |run[i].exs|
    ensures !run[i].exs[t].phase.RelockWaiting?
  {
    RunKeepsInv(run, i);
    assert ExOk(run[i].locks, run[i].exs[t], t);
  }

  /** After commit phase 1 every key of the write set is locked for writing, by this
      transaction alone. */
  lemma WriteSetLocked(run: seq<State>, i: nat, t: nat, k: Key)
    requires IsRun(run, Init, Next) && i < |run| && t < |run[i].exs| && k < |run[i].locks|
    requires run[i].exs[t].phase.Running? && run[i].exs[t].at == |run[i].exs[t].wset| && k in run[i].exs[t].wset
    ensures run[i].locks[k].writer == t && run[i].locks[k].count == -1 && run[i].locks[k].readers == {}
  {
    RunKeepsInv(run, i);
    var s := run[i];
    assert ExOk(s.locks, s.exs[t], t) && LockOk(s.locks[k], |s.exs|);
    var j :| 0 <= j < |s.exs[t].wset| && s.exs[t].wset[j] == k;
    assert HoldsIn(s.exs[t].cll, s.exs[t].wset[j], Exclusive);
  }

  predicate Blocked(p: Phase) { p.Waiting? || p.Spinning? || p.RelockWaiting? }

  /** Executor `t` cannot go on before executor `u` gives up a lock. */
  ghost predicate WaitsFor(s: State, t: nat, u: nat) {
    && t < |s.exs| && u < |s.exs| && t != u && Blocked(s.exs[t].phase) && !s.exs[t].phase.RelockWaiting?
    && Holds(s.exs[u].cll, s.exs[t].phase.key)
  }

  /** Everything held is below the key waited for: only an optimistic read that spins with
      locks taken out of order can be otherwise. */
  predicate Orderly(e: Executor) { !e.crowded || !e.phase.Spinning? }

  /** A blocked executor holds nothing at or above the key it is blocked on. */
  lemma HoldsBelow(s: State, t: nat)
    requires Inv(s) && t < |s.exs| && Blocked(s.exs[t].phase) && Orderly(s.exs[t])
    ensures !s.exs[t].phase.RelockWaiting? && AllBelow(s.exs[t].cll, s.exs[t].phase.key)
  {
    assert ExOk(s.locks, s.exs[t], t);
  }

  /** In every reachable state, whoever waits in lock(), and whoever spins in read() without
      locks taken out of order, holds nothing at or above the key it waits for. */
  lemma BlockedAboveHeld(run: seq<State>, i: nat, t: nat)
    requires IsRun(run, Init, Next) && i < |run| && t < |run[i].exs|
    requires Blocked(run[i].exs[t].phase) && Orderly(run[i].exs[t])
    ensures forall h | h in run[i].exs[t].cll :: h.key < run[i].exs[t].phase.key
  {
    RunKeepsInv(run, i);
    HoldsBelow(run[i], t);
  }

  /** The key a blocked executor waits for is not free for it. */
  predicate Refused(e: Executor, l: Lock) {
    if e.phase.Waiting? then !Free(l, e.phase.mode) else l.count == -1
  }

  lemma HolderHolds(s: State, k: Key, u: nat)
    requires Inv(s) && k < |s.locks| && (u in s.locks[k].readers || s.locks[k].writer == u)
    ensures u < |s.exs| && Holds(s.exs[u].cll, k)
  {
    assert LockOk(s.locks[k], |s.exs|) && ExOk(s.locks, s.exs[u], u);
    var h :| h in s.exs[u].cll && h.key == k;
    var i :| 0 <= i < |s.exs[u].cll| && s.exs[u].cll[i] == h;
  }

  lemma NotHeldByBlocked(s: State, t: nat, k: Key)
    requires Inv(s) && t < |s.exs| && (s.exs[t].phase.Waiting? || s.exs[t].phase.Spinning?) && s.exs[t].phase.key == k
    requires k < |s.locks|
    ensures t !in s.locks[k].readers && s.locks[k].writer != t
  {
    var e := s.exs[t];
    assert ExOk(s.locks, e, t);
    forall h | h in e.cll ensures h.key != k {
    }
  }

  /** Whoever is blocked is blocked by another executor that holds the lock: a wait that
      nobody is responsible for does not happen. */
  lemma BlockedBySomebody(run: seq<State>, i: nat, t: nat) returns (u: nat)
    requires IsRun(run, Init, Next) && i < |run| && t < |run[i].exs| && Blocked(run[i].exs[t].phase)
    ensures run[i].exs[t].phase.key < |run[i].locks|
    ensures Refused(run[i].exs[t], run[i].locks[run[i].exs[t].phase.key]) ==> WaitsFor(run[i], t, u)
  {
    RunKeepsInv(run, i);
    NothingIsRelocked(run, i, t);
    var s, k := run[i], run[i].exs[t].phase.key;
    assert ExOk(s.locks, s.exs[t], t);
    u := 0;
    if Refused(s.exs[t], s.locks[k]) {
      NotHeldByBlocked(s, t, k);
      u := SomeHolder(s.locks[k], |s.exs|);
      HolderHolds(s, k, u);
    }
  }

  lemma SomeHolder(l: Lock, n: nat) returns (u: nat)
    requires LockOk(l, n) && l.count != 0
    ensures u in l.readers || l.writer == u
  {
    if l.writer >= 0 {
      u := l.writer;
    } else {
      u :| u in l.readers;
    }
  }

  lemma {:induction false} WaitChainRises(s: State, p: seq<nat>)
    requires Inv(s) && |p| > 1 && forall i | 0 <= i < |p| - 1 :: WaitsFor(s, p[i], p[i + 1])
    requires forall i | 0 <= i < |p| :: p[i] < |s.exs| && Blocked(s.exs[p[i]].phase) && Orderly(s.exs[p[i]])
    ensures Blocked(s.exs[p[0]].phase) && Blocked(s.exs[p[|p| - 1]].phase)
    ensures s.exs[p[0]].phase.key < s.exs[p[|p| - 1]].phase.key
  {
    assert WaitsFor(s, p[0], p[1]);
    HoldsBelow(s, p[0]);
    HoldsBelow(s, p[1]);
    var i :| 0 <= i < |s.exs[p[1]].cll| && s.exs[p[1]].cll[i].key == s.exs[p[0]].phase.key;
    assert s.exs[p[1]].cll[i] in s.exs[p[1]].cll;
    if |p| > 2 {
      forall j | 0 <= j < |p[1..]| - 1 ensures WaitsFor(s, p[1..][j], p[1..][j + 1]) {
        assert WaitsFor(s, p[j + 1], p[j + 2]);
      }
      WaitChainRises(s, p[1..]);
    }
  }

  /** Executors never wait in a circle, unless one of them spins in read() with a lock taken
      out of order. */
  lemma NoWaitCycle(run: seq<State>, i: nat, p: seq<nat>)
    requires IsRun(run, Init, Next) && i < |run|
    requires |p| > 1 && forall j | 0 <= j < |p| - 1 :: WaitsFor(run[i], p[j], p[j + 1])
    requires forall j | 0 <= j < |p| :: p[j] < |run[i].exs| && Blocked(run[i].exs[p[j]].phase) && Orderly(run[i].exs[p[j]])
    ensures p[0] != p[|p| - 1]
  {
    RunKeepsInv(run, i);
    WaitChainRises(run[i], p);
  }

  /** A lock is taken out of order only by a transaction holding more than a hundred. */
  lemma CrowdedOnlyBeyondMany(s: State, s': State, t: nat)
    requires StepBy(s, s', t) && !s.exs[t].crowded && |s.exs[t].cll| <= MANY
    ensures t < |s'.exs| && !s'.exs[t].crowded
  {
    if key: Key, mode, sorted, n: nat :| LockMany(s, s', t, key, mode, sorted, n) {
      SortedMembers(s.exs[t].cll, sorted);
      assert false;
    }
  }

  /** In lock() itself even a crowded list is put in order first: the unconditional wait is
      for a key above all held. */
  lemma LockWaitsAboveHeld(run: seq<State>, i: nat, t: nat)
    requires IsRun(run, Init, Next) && i < |run| && t < |run[i].exs| && run[i].exs[t].phase.Waiting?
    ensures AllBelow(run[i].exs[t].cll, run[i].exs[t].phase.key)
  {
    RunKeepsInv(run, i);
    assert ExOk(run[i].locks, run[i].exs[t], t);
  }
}
