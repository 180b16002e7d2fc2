/** MOCC's lock() and commit phase 1 with their loops: sorting and scanning the lock list,
    giving up what is out of order, walking the retrospective list, waiting.  Other threads
    may run between any two steps; every call leaves a run of the step relation. */
module MoccExecutor {
  import opened SerialExecution
  import opened Runs
  import opened MoccLocking
  import opened MoccSafety

  datatype Outcome = Proceed | MustAbort | GaveUp

  /** Where `h` goes in an ascending list: before the first larger key. */
  method PlaceFor(sorted: seq<Held>, h: Held) returns (p: nat)
    requires Ascending(sorted) && !Holds(sorted, h.key)
    ensures SplitsAt(sorted, h.key, p)
  {
    p := 0;
    while p < |sorted| && sorted[p].key < h.key
      invariant p <= |sorted| && forall j | 0 <= j < p :: sorted[j].key < h.key
    {
      p := p + 1;
    }
  }

  lemma PlacedAscending(sorted: seq<Held>, h: Held, p: nat)
    requires Ascending(sorted) && SplitsAt(sorted, h.key, p) && !Holds(sorted, h.key)
    ensures Ascending(sorted[..p] + [h] + sorted[p..])
    ensures multiset(sorted[..p] + [h] + sorted[p..]) == multiset(sorted) + multiset{h}
  {
    assert sorted == sorted[..p] + sorted[p..];
  }

  /** sort(CLL_). */
  method SortHeld(q: seq<Held>) returns (sorted: seq<Held>)
    requires DistinctHeld(q)
    ensures multiset(sorted) == multiset(q) && Ascending(sorted)
  {
    sorted := [];
    var i := 0;
    while i < |q|
      invariant i <= |q| && multiset(sorted) == multiset(q[..i]) && Ascending(sorted)
    {
      SortedMembers(q[..i], sorted);
      forall j | 0 <= j < |sorted| ensures sorted[j].key != q[i].key {
        assert sorted[j] in q[..i];
      }
      var p := PlaceFor(sorted, q[i]);
      PlacedAscending(sorted, q[i], p);
      sorted := sorted[..p] + [q[i]] + sorted[p..];
      assert q[..i + 1] == q[..i] + [q[i]];
      i := i + 1;
    }
    assert q[..i] == q;
  }

  /** The scan of the sorted list: whether the lock is held well enough, and the first
      position that is out of order. */
  method ScanHeld(sorted: seq<Held>, key: Key, mode: Mode) returns (enough: bool, n: nat)
    requires Ascending(sorted)
    ensures enough <==> exists i :: 0 <= i < |sorted| && sorted[i].key == key && Enough(sorted[i].mode, mode)
    ensures !enough ==> SplitsAt(sorted, key, n)
  {
    var i := 0;
    n := 0;
    while i < |sorted|
      invariant i <= |sorted| && forall j | 0 <= j < i :: !(sorted[j].key == key && Enough(sorted[j].mode, mode))
      invariant n <= i && (forall j | 0 <= j < n :: sorted[j].key < key) && forall j | n <= j < i :: sorted[j].key >= key
    {
      if sorted[i].key == key && Enough(sorted[i].mode, mode) {
        return true, n;
      }
      if sorted[i].key < key {
        n := i + 1;
      }
      i := i + 1;
    }
    return false, n;
  }

  /** Whatever another thread does next, this one's own lists and the number of locks stay. */
  lemma OthersLeave(s: State, s': State, u: nat, t: nat)
    requires StepBy(s, s', u) && t < |s.exs| && t != u
    ensures |s'.exs| == |s.exs| && s'.exs[t] == s.exs[t] && |s'.locks| == |s.locks|
  {
  }

  /** Somebody else holds the lock in the way of `mode`. */
  predicate HeldByOther(l: Lock, mode: Mode, t: nat) {
    || (l.writer >= 0 && l.writer != t)
    || (mode.Exclusive? && exists r :: r in l.readers && r != t)
  }

  ghost predicate HeldIn(run: seq<State>, from: nat, key: Key, mode: Mode, t: nat) {
    exists n :: from <= n < |run| && key < |run[n].locks| && HeldByOther(run[n].locks[key], mode, t)
  }

  lemma HeldStays(run: seq<State>, from: nat, run': seq<State>, from': nat, key: Key, mode: Mode, t: nat)
    requires HeldIn(run, from, key, mode, t) && run <= run' && from' <= from
    ensures HeldIn(run', from', key, mode, t)
  {
    var n :| from <= n < |run| && key < |run[n].locks| && HeldByOther(run[n].locks[key], mode, t);
    assert run'[n] == run[n];
  }

  /** A lock that is not free, or that a reader cannot upgrade, is held by somebody else. */
  lemma SomebodyElse(l: Lock, n: nat, mode: Mode, t: nat)
    requires LockOk(l, n) && l.writer != t
    requires if t in l.readers then mode.Exclusive? && l.count != 1 else !Free(l, mode)
    ensures HeldByOther(l, mode, t)
  {
    if l.writer < 0 {
      if t in l.readers {
        assert |l.readers - {t}| == |l.readers| - 1;
        var r :| r in l.readers - {t};
      } else {
        var r :| r in l.readers;
      }
    }
  }

  class TxExecutor {
    const thid: nat
    var st: State
    ghost var run: seq<State>

    ghost predicate Sound()
      reads this
    {
      IsRun(run, Init, Next) && run[|run| - 1] == st && thid < |st.exs|
    }

    constructor (initial: State, thid: nat)
      requires Init(initial) && thid < |initial.exs|
      ensures Sound() && st == initial && this.thid == thid
    {
      this.thid := thid;
      st := initial;
      run := [initial];
    }

    lemma Reachable()
      requires Sound()
      ensures ExOk(st.locks, st.exs[thid], thid) && |st.locks| <= KEY_SPACE
      ensures forall k | 0 <= k < |st.locks| :: LockOk(st.locks[k], |st.exs|)
    {
      RunKeepsInv(run, |run| - 1);
    }

    /** Any number of steps of the other threads: all that callers learn is that this
        thread's own lists stay as they are. */
    method Others()
      requires Sound()
      modifies this
      ensures Sound() && st.exs[thid] == old(st.exs[thid]) && old(run) <= run && |st.locks| == old(|st.locks|)
    {
    }

    /** One atomic step of this thread. */
    method Step(next: State)
      requires Sound() && StepBy(st, next, thid) && thid < |next.exs|
      modifies this
      ensures Sound() && st == next && run == old(run) + [next]
    {
      Longer(run, Init, Next, next);
      st := next;
      run := run + [next];
    }

    ghost predicate HeldEnough(key: Key, mode: Mode)
      reads this
      requires thid < |st.exs|
    {
      exists h :: h in st.exs[thid].cll && h.key == key && Enough(h.mode, mode)
    }

    /** lock(): at most MANY locks out of order are given up, those below the key kept, and
        then the lock is waited for; with more of them it is tried once.  It fails only with
        more than MANY locks held, and like the wait only while somebody else holds the lock. */
    method Lock(key: Key, mode: Mode, patience: nat) returns (o: Outcome)
      requires Sound() && Calls(st.exs[thid], key, mode) && key < |st.locks|
      modifies this
      ensures Sound() && old(run) <= run && st.exs[thid].wset == old(st.exs[thid].wset) && |st.locks| == old(|st.locks|)
      ensures o.Proceed? ==> st.exs[thid].phase.Running? && HeldEnough(key, mode)
      ensures o.Proceed? ==> st.exs[thid].at == if old(st.exs[thid].at) >= 0 then old(st.exs[thid].at) + 1 else old(st.exs[thid].at)
      ensures o.MustAbort? ==> st.exs[thid].phase.Ending? && |st.exs[thid].cll| > MANY
      ensures o.MustAbort? || (o.GaveUp? && patience > 0) ==> HeldIn(run, |old(run)| - 1, key, mode, thid)
      ensures forall h | h in old(st.exs[thid].cll) && h.key < key :: h in st.exs[thid].cll
      ensures o.GaveUp? ==> st.exs[thid].phase == Waiting(key, mode) && forall h | h in st.exs[thid].cll :: h in old(st.exs[thid].cll) && h.key < key
    {
      Reachable();
      ghost var held := st.exs[thid].cll;
      var sorted := SortHeld(st.exs[thid].cll);
      SortedMembers(st.exs[thid].cll, sorted);
      var enough, n := ScanHeld(sorted, key, mode);
      if enough {
        UseHeld(key, mode, sorted);
        return Proceed;
      }
      if |sorted| - n > MANY {
        o := TryCrowded(key, mode, sorted, n);
        return;
      }
      o := LockInOrder(key, mode, sorted, n, patience);
      BelowKept(held, sorted, key, n);
    }

    /** What is out of order is given up, and the lock is waited for. */
    method LockInOrder(key: Key, mode: Mode, sorted: seq<Held>, n: nat, patience: nat) returns (o: Outcome)
      requires Sound() && Calls(st.exs[thid], key, mode) && key < |st.locks|
      requires multiset(sorted) == multiset(st.exs[thid].cll) && Ascending(sorted) && SplitsAt(sorted, key, n) && |sorted| - n <= MANY
      requires !(exists i :: 0 <= i < |sorted| && sorted[i].key == key && Enough(sorted[i].mode, mode))
      modifies this
      ensures Sound() && old(run) <= run && st.exs[thid].wset == old(st.exs[thid].wset) && |st.locks| == old(|st.locks|) && !o.MustAbort?
      ensures o.Proceed? ==> st.exs[thid].phase.Running? && HeldEnough(key, mode)
      ensures o.Proceed? ==> st.exs[thid].at == if old(st.exs[thid].at) >= 0 then old(st.exs[thid].at) + 1 else old(st.exs[thid].at)
      ensures o.Proceed? ==> st.exs[thid].cll == sorted[..n] + [Held(key, mode)]
      ensures o.GaveUp? ==> st.exs[thid].phase == Waiting(key, mode) && st.exs[thid].cll == sorted[..n]
      ensures o.GaveUp? && patience > 0 ==> HeldIn(run, |old(run)| - 1, key, mode, thid)
    {
      ghost var from := |run| - 1;
      GiveUpAbove(key, mode, sorted, n);
      WalkRetrospective(key, mode);
      ghost var waiting := |run| - 1;
      o := WaitFor(key, mode, patience);
      if o.GaveUp? && patience > 0 {
        HeldStays(run, waiting, run, from, key, mode, thid);
      }
    }

    lemma BelowKept(held: seq<Held>, sorted: seq<Held>, key: Key, n: nat)
      requires multiset(sorted) == multiset(held) && SplitsAt(sorted, key, n)
      ensures forall h :: h in held && h.key < key <==> h in sorted[..n]
    {
      SortedMembers(held, sorted);
      forall h ensures h in held && h.key < key <==> h in sorted[..n] {
        if h in held && h.key < key {
          assert h in sorted;
          var j :| 0 <= j < |sorted| && sorted[j] == h;
          assert sorted[..n][j] == h;
        }
        if h in sorted[..n] {
          assert h in sorted;
        }
      }
    }

    method UseHeld(key: Key, mode: Mode, sorted: seq<Held>)
      requires Sound() && Calls(st.exs[thid], key, mode) && multiset(sorted) == multiset(st.exs[thid].cll) && Ascending(sorted)
      requires exists i :: 0 <= i < |sorted| && sorted[i].key == key && Enough(sorted[i].mode, mode)
      modifies this
      ensures Sound() && old(run) <= run && |st.locks| == old(|st.locks|)
      ensures st.exs[thid] == Granted(old(st.exs[thid]).(cll := sorted), key) && HeldEnough(key, mode)
    {
      var next := SetEx(st, thid, Granted(st.exs[thid].(cll := sorted), key));
      assert LockHeld(st, next, thid, key, mode, sorted);
      Step(next);
      ghost var i :| 0 <= i < |sorted| && sorted[i].key == key && Enough(sorted[i].mode, mode);
      assert sorted[i] in st.exs[thid].cll;
    }

    /** upgrade(), w_trylock() or r_trylock(), once. */
    method TryCrowded(key: Key, mode: Mode, sorted: seq<Held>, n: nat) returns (o: Outcome)
      requires Sound() && Calls(st.exs[thid], key, mode) && key < |st.locks|
      requires multiset(sorted) == multiset(st.exs[thid].cll) && Ascending(sorted) && SplitsAt(sorted, key, n) && |sorted| - n > MANY
      requires !(exists i :: 0 <= i < |sorted| && sorted[i].key == key && Enough(sorted[i].mode, mode))
      modifies this
      ensures Sound() && old(run) <= run && st.exs[thid].wset == old(st.exs[thid].wset) && |st.locks| == old(|st.locks|) && !o.GaveUp?
      ensures o.Proceed? ==> st.exs[thid].phase.Running? && HeldEnough(key, mode)
      ensures o.Proceed? ==> st.exs[thid].at == if old(st.exs[thid].at) >= 0 then old(st.exs[thid].at) + 1 else old(st.exs[thid].at)
      ensures o.MustAbort? ==> st.exs[thid] == old(st.exs[thid]).(cll := sorted, phase := Ending)
      ensures o.MustAbort? ==> HeldIn(run, |old(run)| - 1, key, mode, thid)
      ensures o.Proceed? ==> forall h | h in sorted && h.key != key :: h in st.exs[thid].cll
    {
      if if sorted[n].key == key then st.locks[key].count == 1 else Free(st.locks[key], mode) {
        TakeCrowded(key, mode, sorted, n);
        return Proceed;
      }
      RefuseCrowded(key, mode, sorted, n);
      return MustAbort;
    }

    method TakeCrowded(key: Key, mode: Mode, sorted: seq<Held>, n: nat)
      requires Sound() && Calls(st.exs[thid], key, mode) && key < |st.locks|
      requires multiset(sorted) == multiset(st.exs[thid].cll) && Ascending(sorted) && SplitsAt(sorted, key, n) && |sorted| - n > MANY
      requires !(exists i :: 0 <= i < |sorted| && sorted[i].key == key && Enough(sorted[i].mode, mode))
      requires if sorted[n].key == key then st.locks[key].count == 1 else Free(st.locks[key], mode)
      modifies this
      ensures Sound() && old(run) <= run && st.exs[thid].wset == old(st.exs[thid].wset) && |st.locks| == old(|st.locks|)
      ensures st.exs[thid].phase.Running? && HeldEnough(key, mode)
      ensures st.exs[thid].at == if old(st.exs[thid].at) >= 0 then old(st.exs[thid].at) + 1 else old(st.exs[thid].at)
      ensures forall h | h in sorted && h.key != key :: h in st.exs[thid].cll
    {
      var e := st.exs[thid];
      assert sorted[n].key == key <==> Holds(sorted, key);
      var cll := if sorted[n].key == key then sorted[n := Held(key, Exclusive)] else sorted + [Held(key, mode)];
      var next := if sorted[n].key == key
                  then SetBoth(st, thid, Granted(e.(cll := cll), key), key, Upgraded(st.locks[key], thid))
                  else SetBoth(st, thid, Granted(e.(cll := cll, crowded := true), key), key, Taken(st.locks[key], thid, mode));
      assert LockMany(st, next, thid, key, mode, sorted, n);
      Step(next);
      assert cll[if sorted[n].key == key then n else |sorted|] in st.exs[thid].cll;
      forall h | h in sorted && h.key != key ensures h in cll {
        var j :| 0 <= j < |sorted| && sorted[j] == h;
        assert cll[j] == h;
      }
    }

    method RefuseCrowded(key: Key, mode: Mode, sorted: seq<Held>, n: nat)
      requires Sound() && Calls(st.exs[thid], key, mode) && key < |st.locks|
      requires multiset(sorted) == multiset(st.exs[thid].cll) && Ascending(sorted) && SplitsAt(sorted, key, n) && |sorted| - n > MANY
      requires !(exists i :: 0 <= i < |sorted| && sorted[i].key == key && Enough(sorted[i].mode, mode))
      requires !(if sorted[n].key == key then st.locks[key].count == 1 else Free(st.locks[key], mode))
      modifies this
      ensures Sound() && old(run) <= run && |st.locks| == old(|st.locks|)
      ensures st.exs[thid] == old(st.exs[thid]).(cll := sorted, phase := Ending)
      ensures HeldIn(run, |old(run)| - 1, key, mode, thid)
    {
      ghost var before := run;
      assert sorted[n].key == key <==> Holds(sorted, key);
      var next := SetEx(st, thid, st.exs[thid].(cll := sorted, phase := Ending));
      assert LockMany(st, next, thid, key, mode, sorted, n);
      NotHere(key, mode, sorted, n);
      Step(next);
      HeldStays(before, |before| - 1, run, |before| - 1, key, mode, thid);
    }

    /** A lock that cannot be had at once is held by somebody else. */
    lemma NotHere(key: Key, mode: Mode, sorted: seq<Held>, n: nat)
      requires Sound() && key < |st.locks| && multiset(sorted) == multiset(st.exs[thid].cll) && Ascending(sorted) && n < |sorted|
      requires SplitsAt(sorted, key, n)
      requires !(exists i :: 0 <= i < |sorted| && sorted[i].key == key && Enough(sorted[i].mode, mode))
      requires if sorted[n].key == key then st.locks[key].count != 1 else !Free(st.locks[key], mode)
      ensures HeldIn(run, |run| - 1, key, mode, thid)
    {
      Reachable();
      SortedMembers(st.exs[thid].cll, sorted);
      forall h | h in st.exs[thid].cll && h.key == key ensures h == sorted[n] && h.mode.Shared? && mode.Exclusive? {
        var j :| 0 <= j < |sorted| && sorted[j] == h;
        assert j == n;
      }
      if sorted[n].key == key {
        assert sorted[n] in st.exs[thid].cll;
      }
      SomebodyElse(st.locks[key], |st.exs|, mode, thid);
      assert HeldByOther(run[|run| - 1].locks[key], mode, thid);
    }

    /** Unlocks everything at or above the wanted key, and keeps the rest. */
    method GiveUpAbove(key: Key, mode: Mode, sorted: seq<Held>, n: nat)
      requires Sound() && Calls(st.exs[thid], key, mode) && key < |st.locks|
      requires multiset(sorted) == multiset(st.exs[thid].cll) && Ascending(sorted) && SplitsAt(sorted, key, n) && |sorted| - n <= MANY
      requires !(exists i :: 0 <= i < |sorted| && sorted[i].key == key && Enough(sorted[i].mode, mode))
      modifies this
      ensures Sound() && old(run) <= run && |st.locks| == old(|st.locks|)
      ensures st.exs[thid].phase.Relocking? && st.exs[thid].phase.key == key && st.exs[thid].phase.mode == mode && st.exs[thid].phase.i == 0
      ensures st.exs[thid].wset == old(st.exs[thid].wset) && st.exs[thid].at == old(st.exs[thid].at)
      ensures AllBelow(st.exs[thid].cll, key) && st.exs[thid].cll == sorted[..n]
    {
      var e := st.exs[thid];
      var started := SetEx(st, thid, e.(cll := sorted,
        phase := Releasing(key, mode, n, if n < |sorted| then sorted[n].key % KEY_SPACE else KEY_SPACE - 1)));
      assert LockStart(st, started, thid, key, mode, sorted, n);
      Step(started);
      ghost var p := st.exs[thid].phase;
      while st.exs[thid].phase.keep < |st.exs[thid].cll|
        invariant Sound() && old(run) <= run && |st.locks| == old(|st.locks|)
        invariant st.exs[thid] == old(st.exs[thid]).(cll := st.exs[thid].cll, phase := p)
        invariant p.keep == n <= |st.exs[thid].cll| && st.exs[thid].cll[..n] == sorted[..n]
        decreases |st.exs[thid].cll|
      {
        Others();
        UnlockAt(n);
      }
      var next := SetEx(st, thid, st.exs[thid].(phase := Relocking(key, mode, st.exs[thid].phase.threshold, 0)));
      assert ReleaseOne(st, next, thid);
      Step(next);
      Reachable();
    }

    method UnlockAt(n: nat)
      requires Sound() && st.exs[thid].phase.Releasing? && st.exs[thid].phase.keep == n < |st.exs[thid].cll|
      modifies this
      ensures Sound() && old(run) <= run && |st.locks| == old(|st.locks|)
      ensures st.exs[thid] == old(st.exs[thid]).(cll := st.exs[thid].cll)
      ensures st.exs[thid].cll == old(st.exs[thid].cll[..n] + st.exs[thid].cll[n + 1..])
    {
      Reachable();
      var e := st.exs[thid];
      assert e.cll[n] in e.cll;
      var next := SetBoth(st, thid, e.(cll := e.cll[..n] + e.cll[n + 1..]), e.cll[n].key,
                          GivenBack(st.locks[e.cll[n].key], thid, e.cll[n].mode));
      assert ReleaseOne(st, next, thid);
      Step(next);
    }

    /** The loop over the retrospective lock list; it never takes a lock. */
    method WalkRetrospective(key: Key, mode: Mode)
      requires Sound() && st.exs[thid].phase.Relocking? && st.exs[thid].phase.i == 0
      requires st.exs[thid].phase.key == key && st.exs[thid].phase.mode == mode
      modifies this
      ensures Sound() && old(run) <= run && |st.locks| == old(|st.locks|)
      ensures st.exs[thid] == old(st.exs[thid]).(phase := Waiting(key, mode))
    {
      ghost var threshold := st.exs[thid].phase.threshold;
      while st.exs[thid].phase.Relocking?
        invariant Sound() && old(run) <= run && |st.locks| == old(|st.locks|)
        invariant st.exs[thid].phase == Waiting(key, mode) || (st.exs[thid].phase.Relocking?
                  && st.exs[thid].phase == Relocking(key, mode, threshold, st.exs[thid].phase.i)
                  && st.exs[thid].phase.i <= |st.exs[thid].rll|)
        invariant st.exs[thid] == old(st.exs[thid]).(phase := st.exs[thid].phase)
        decreases if st.exs[thid].phase.Relocking? then |st.exs[thid].rll| - st.exs[thid].phase.i + 1 else 0
      {
        Others();
        RetrospectiveStep();
      }
    }

    method RetrospectiveStep()
      requires Sound() && st.exs[thid].phase.Relocking? && st.exs[thid].phase.i <= |st.exs[thid].rll|
      modifies this
      ensures Sound() && old(run) <= run && |st.locks| == old(|st.locks|)
      ensures st.exs[thid] == old(st.exs[thid]).(phase := st.exs[thid].phase)
      ensures var p := old(st.exs[thid].phase);
              st.exs[thid].phase == Waiting(p.key, p.mode)
              || (p.i < |st.exs[thid].rll| && st.exs[thid].phase == Relocking(p.key, p.mode, p.threshold, p.i + 1))
    {
      var e := st.exs[thid];
      var p := e.phase;
      var next := SetEx(st, thid, e.(phase :=
        if p.i >= |e.rll| then Waiting(p.key, p.mode)
        else if e.rll[p.i].key <= p.threshold then Relocking(p.key, p.mode, p.threshold, p.i + 1)
        else if e.rll[p.i].key < p.key then RelockWaiting(p.key, p.mode, p.threshold, p.i)
        else Waiting(p.key, p.mode)));
      assert Relock(st, next, thid);
      Step(next);
      Reachable();
    }

    /** w_lock() or r_lock(): the source waits for ever. */
    method WaitFor(key: Key, mode: Mode, patience: nat) returns (o: Outcome)
      requires Sound() && st.exs[thid].phase == Waiting(key, mode) && key < |st.locks|
      modifies this
      ensures Sound() && old(run) <= run && !o.MustAbort? && |st.locks| == old(|st.locks|)
      ensures o.Proceed? ==> st.exs[thid] == Granted(old(st.exs[thid]).(cll := old(st.exs[thid].cll) + [Held(key, mode)]), key)
      ensures o.Proceed? ==> HeldEnough(key, mode)
      ensures o.GaveUp? ==> st.exs[thid] == old(st.exs[thid])
      ensures o.GaveUp? && patience > 0 ==> HeldIn(run, |old(run)| - 1, key, mode, thid)
    {
      var n := patience;
      ghost var from := |run| - 1;
      while n > 0
        invariant Sound() && old(run) <= run && st.exs[thid] == old(st.exs[thid]) && |st.locks| == old(|st.locks|)
        invariant n == patience || HeldIn(run, from, key, mode, thid)
      {
        n := n - 1;
        Others();
        if Free(st.locks[key], mode) {
          var e := st.exs[thid];
          var next := SetBoth(st, thid, Granted(e.(cll := e.cll + [Held(key, mode)]), key), key, Taken(st.locks[key], thid, mode));
          assert LockTake(st, next, thid);
          Step(next);
          assert st.exs[thid].cll[|e.cll|] == Held(key, mode);
          return Proceed;
        }
        Busy(key, mode);
        HeldStays(run, |run| - 1, run, from, key, mode, thid);
      }
      return GaveUp;
    }

    lemma Busy(key: Key, mode: Mode)
      requires Sound() && st.exs[thid].phase == Waiting(key, mode) && key < |st.locks| && !Free(st.locks[key], mode)
      ensures HeldIn(run, |run| - 1, key, mode, thid)
    {
      Reachable();
      SomebodyElse(st.locks[key], |st.exs|, mode, thid);
      assert HeldByOther(run[|run| - 1].locks[key], mode, thid);
    }

    /** The wait of an optimistic read on a write-locked record: it aborts if its last lock is
        above the record, else spins.  `back` is what the last key of an empty list is. */
    method WaitForReader(key: Key, back: Key, patience: nat) returns (o: Outcome)
      requires Sound() && st.exs[thid].phase.Running? && st.exs[thid].at < 0 && key !in st.exs[thid].keys && key < |st.locks|
      requires st.locks[key].count == -1
      modifies this
      ensures Sound() && old(run) <= run && key < |st.locks|
      ensures o.Proceed? ==> st.exs[thid].phase.Running? && st.locks[key].count != -1 && key in st.exs[thid].keys
      ensures o.MustAbort? ==> st.exs[thid].phase.Ending?
      ensures o.MustAbort? <==> key < (if old(st.exs[thid].cll) == [] then back else old(st.exs[thid].cll[|st.exs[thid].cll| - 1].key))
      ensures st.exs[thid].cll == old(st.exs[thid].cll)
      ensures o.GaveUp? ==> st.exs[thid].phase == Spinning(key)
      ensures o.GaveUp? && !st.exs[thid].crowded ==> forall h | h in st.exs[thid].cll :: h.key < key
    {
      var e := st.exs[thid];
      var last := if e.cll == [] then back else e.cll[|e.cll| - 1].key;
      var next := if key < last then SetEx(st, thid, e.(phase := Ending, keys := e.keys + {key}))
                  else SetEx(st, thid, e.(phase := Spinning(key)));
      assert SpinStart(st, next, thid, key);
      Step(next);
      if key < last {
        return MustAbort;
      }
      o := Spin(key, patience);
      Reachable();
    }

    method Spin(key: Key, patience: nat) returns (o: Outcome)
      requires Sound() && st.exs[thid].phase == Spinning(key) && key < |st.locks|
      modifies this
      ensures Sound() && old(run) <= run && !o.MustAbort? && key < |st.locks|
      ensures o.Proceed? ==> st.exs[thid].phase.Running? && st.locks[key].count != -1 && key in st.exs[thid].keys
      ensures st.exs[thid].cll == old(st.exs[thid].cll)
      ensures o.GaveUp? ==> st.exs[thid] == old(st.exs[thid])
    {
      var n := patience;
      while n > 0
        invariant Sound() && old(run) <= run && st.exs[thid] == old(st.exs[thid]) && key < |st.locks|
      {
        n := n - 1;
        Others();
        if st.locks[key].count != -1 {
          var next := SetEx(st, thid, st.exs[thid].(phase := Running, keys := st.exs[thid].keys + {key}));
          assert SpinEnd(st, next, thid);
          Step(next);
          return Proceed;
        }
      }
      return GaveUp;
    }

    /** Commit phase 1: despite the locks given up and taken again, at the end every key of
        the write set is locked for writing. */
    method LockWriteSet(wset: seq<Key>, patience: nat) returns (o: Outcome)
      requires Sound() && st.exs[thid].phase.Running? && st.exs[thid].at < 0 && AscendingKeys(wset)
      requires forall k | k in wset :: k in st.exs[thid].keys && k < |st.locks|
      modifies this
      ensures Sound() && old(run) <= run
      ensures o.Proceed? ==> forall k | k in wset :: HoldsIn(st.exs[thid].cll, k, Exclusive) && k < |st.locks| && st.locks[k].writer == thid
      ensures o.MustAbort? ==> st.exs[thid].phase.Ending? && |st.exs[thid].cll| > MANY
      ensures o.MustAbort? || (o.GaveUp? && patience > 0) ==>
                exists j :: 0 <= j < |wset| && HeldIn(run, |old(run)| - 1, wset[j], Exclusive, thid)
    {
      ghost var from := |run| - 1;
      var started := SetEx(st, thid, st.exs[thid].(wset := wset, at := 0));
      assert CommitStart(st, started, thid, wset);
      Step(started);
      var i := 0;
      while i < |wset|
        invariant Sound() && old(run) <= run && i <= |wset| && |st.locks| == old(|st.locks|)
        invariant st.exs[thid].phase.Running? && st.exs[thid].wset == wset && st.exs[thid].at == i
      {
        assert wset[i] in wset;
        Others();
        ghost var trying := |run| - 1;
        o := Lock(wset[i], Exclusive, patience);
        if !o.Proceed? {
          if o.MustAbort? || patience > 0 {
            HeldStays(run, trying, run, from, wset[i], Exclusive, thid);
          }
          return;
        }
        i := i + 1;
      }
      AllLocked();
      return Proceed;
    }

    lemma AllLocked()
      requires Sound() && st.exs[thid].phase.Running? && st.exs[thid].at == |st.exs[thid].wset|
      ensures forall k | k in st.exs[thid].wset ::
                HoldsIn(st.exs[thid].cll, k, Exclusive) && k < |st.locks| && st.locks[k].writer == thid
    {
      Reachable();
      var e := st.exs[thid];
      forall k | k in e.wset ensures HoldsIn(e.cll, k, Exclusive) && k < |st.locks| && st.locks[k].writer == thid {
        var j: nat :| j < |e.wset| && e.wset[j] == k;
        assert HoldsIn(e.cll, e.wset[j], Exclusive);
      }
    }

    /** unlockCLL(): nothing is left locked; `rll` is the list built for the next attempt. */
    method UnlockAll(rll: seq<Held>)
      requires Sound() && st.exs[thid].phase.Ending? && Ascending(rll) && forall h | h in rll :: h.key < |st.locks|
      modifies this
      ensures Sound() && old(run) <= run && st.exs[thid] == Executor(Running, [], rll, {}, [], -1, false)
      ensures forall k | 0 <= k < |st.locks| :: thid !in st.locks[k].readers && st.locks[k].writer != thid
    {
      while st.exs[thid].cll != []
        invariant Sound() && old(run) <= run && st.exs[thid].phase.Ending? && |st.locks| == old(|st.locks|)
        decreases |st.exs[thid].cll|
      {
        Others();
        UnlockFirst(rll);
      }
      Others();
      var next := SetEx(st, thid, Executor(Running, [], rll, {}, [], -1, false));
      assert End(st, next, thid, rll);
      Step(next);
      Reachable();
    }

    method UnlockFirst(ghost rll: seq<Held>)
      requires Sound() && st.exs[thid].phase.Ending? && st.exs[thid].cll != []
      requires Ascending(rll) && forall h | h in rll :: h.key < |st.locks|
      modifies this
      ensures Sound() && old(run) <= run && st.exs[thid].phase.Ending? && |st.locks| == old(|st.locks|)
      ensures st.exs[thid].cll == old(st.exs[thid].cll)[1..]
    {
      Reachable();
      var e := st.exs[thid];
      assert e.cll[0] in e.cll;
      var next := SetBoth(st, thid, e.(cll := e.cll[1..]), e.cll[0].key, GivenBack(st.locks[e.cll[0].key], thid, e.cll[0].mode));
      assert End(st, next, thid, rll);
      Step(next);
    }
  }
}
