/** The case that trimming misses: a thread that has never committed looks, to the garbage
    collector, as if it had committed transaction 0.  For every threshold there is a run of
    two threads whose committed transactions have no serial order at all. */
module OptimisticLogGap {
  import opened SerialExecution
  import opened Runs
  import opened AccessSets
  import opened OptimisticLog

  const X: Key := 0
  const Y: Key := 1

  /** Reads Y, writes X. */
  function Fast(): Txn { Txn(map[Y := 0], map[X := 1]) }

  /** Reads X, writes Y. */
  function Slow(): Txn { Txn(map[X := 0], map[Y := 1]) }

  function Nothing(): Txn { Txn(map[], map[]) }

  function Nothings(n: nat): (r: seq<Txn>)
    ensures |r| == n && forall i | 0 <= i < n :: r[i] == Nothing()
  {
    if n == 0 then [] else Nothings(n - 1) + [Nothing()]
  }

  function Empties(n: nat): (r: seq<seq<WriteItem>>)
    ensures |r| == n && forall i | 0 <= i < n :: r[i] == []
  {
    if n == 0 then [] else Empties(n - 1) + [[]]
  }

  function Start(): State {
    State([0, 0], 0, [], -1, [0, 0], -1, [Tx(Idle, 0, [], [], false), Tx(Idle, 0, [], [], false)], 0,
          map[X := 0, Y := 0], [])
  }

  /** Thread 1 has begun before anything committed, has read X, and is to write Y. */
  function Waiting(): Tx { Tx(Executing, 0, [ReadItem(X, 0)], [WriteItem(Y, 1)], false) }

  /** Thread 0 has committed `n + 1` transactions and is about to collect. */
  function Ahead(threshold: nat, n: nat): State {
    State([1, 0], n + 1, [[WriteItem(X, 1)]] + Empties(n), -1, [n, 0], 0,
          [Tx(Collecting, n, if n == 0 then [ReadItem(Y, 0)] else [], if n == 0 then [WriteItem(X, 1)] else [], true), Waiting()],
          threshold, map[X := 0, Y := 0], [Fast()] + Nothings(n))
  }

  ghost predicate RunTo(run: seq<State>, s: State) {
    IsRun(run, Init, Next) && run[|run| - 1] == s
  }

  lemma Extend(run: seq<State>, s: State, s': State, t: nat)
    requires RunTo(run, s) && StepBy(s, s', t)
    ensures RunTo(run + [s'], s')
  {
    Longer(run, Init, Next, s');
  }

  lemma OneRead(k: Key, v: Val)
    ensures ReadMap([ReadItem(k, v)]) == map[k := v]
  {
    var rs := [ReadItem(k, v)];
    assert rs[0].key == k && ReadsKey(rs, k);
    assert ReadOf(rs, k) == rs[0];
  }

  lemma OneWrite(k: Key, v: Val)
    ensures WriteMap([WriteItem(k, v)]) == map[k := v]
  {
    var ws := [WriteItem(k, v)];
    assert ws[0].key == k && HasKey(ws, k);
    assert ValueOf(ws, k) == v;
  }

  lemma FirstCommit(threshold: nat) returns (run: seq<State>)
    ensures RunTo(run, Ahead(threshold, 0))
  {
    var s0 := Start().(threshold := threshold);
    assert s0.init == map k: Key | k < |s0.table| :: s0.table[k];
    assert Init(s0);
    run := [s0];
    var t1 := s0.txs[1].(phase := Executing);
    var s1 := SetTx(s0, 1, t1);
    Extend(run, s0, s1, 1); run := run + [s1];
    var s2 := SetTx(s1, 1, t1.(rset := [ReadItem(X, 0)]));
    assert [] + [ReadItem(X, 0)] == [ReadItem(X, 0)];
    assert Read(s1, s2, 1, X);
    Extend(run, s1, s2, 1); run := run + [s2];
    var s3 := SetTx(s2, 1, Waiting());
    assert [] + [WriteItem(Y, 1)] == [WriteItem(Y, 1)];
    assert Write(s2, s3, 1, Y, 1);
    Extend(run, s2, s3, 1); run := run + [s3];
    assert s3.txs == [Start().txs[0], Waiting()];
    run := FastBegins(threshold, run, s3);
  }

  lemma FastBegins(threshold: nat, before: seq<State>, s3: State) returns (run: seq<State>)
    requires s3 == Start().(threshold := threshold, txs := [Start().txs[0], Waiting()]) && RunTo(before, s3)
    ensures RunTo(run, Ahead(threshold, 0))
  {
    run := before;
    var t0 := s3.txs[0].(phase := Executing);
    var s4 := SetTx(s3, 0, t0);
    Extend(run, s3, s4, 0); run := run + [s4];
    var s5 := SetTx(s4, 0, t0.(rset := [ReadItem(Y, 0)]));
    assert [] + [ReadItem(Y, 0)] == [ReadItem(Y, 0)];
    assert Read(s4, s5, 0, Y);
    Extend(run, s4, s5, 0); run := run + [s5];
    var u0 := t0.(rset := [ReadItem(Y, 0)], wset := [WriteItem(X, 1)]);
    var s6 := SetTx(s5, 0, u0);
    assert [] + [WriteItem(X, 1)] == [WriteItem(X, 1)];
    assert Write(s5, s6, 0, X, 1);
    Extend(run, s5, s6, 0); run := run + [s6];
    run := FirstWritePhase(threshold, run, s6, u0);
  }

  lemma FirstWritePhase(threshold: nat, before: seq<State>, s6: State, u0: Tx) returns (run: seq<State>)
    requires u0 == Tx(Executing, 0, [ReadItem(Y, 0)], [WriteItem(X, 1)], false)
    requires s6 == Start().(threshold := threshold, txs := [u0, Waiting()]) && RunTo(before, s6)
    ensures RunTo(run, Ahead(threshold, 0))
  {
    run := before;
    var s7 := SetTx(s6, 0, u0.(phase := Validating)).(lock := 0);
    assert TakeLock(s6, s7, 0);
    Extend(run, s6, s7, 0); run := run + [s7];
    var s8 := SetTx(s7, 0, u0.(phase := Writing(0))).(log := [Fast()]);
    OneRead(Y, 0);
    OneWrite(X, 1);
    assert Pass(s7, s8, 0);
    Extend(run, s7, s8, 0); run := run + [s8];
    var s9 := SetTx(s8, 0, u0.(phase := Writing(1))).(table := [1, 0]);
    assert Store(s8, s9, 0);
    Extend(run, s8, s9, 0); run := run + [s9];
    var s10 := SetTx(s9, 0, u0.(phase := Pushed)).(wsList := [[WriteItem(X, 1)]]);
    assert Push(s9, s10, 0);
    Extend(run, s9, s10, 0); run := run + [s10];
    var s11 := SetTx(s10, 0, u0.(phase := Numbered, returning := true));
    assert Number(s10, s11, 0);
    Extend(run, s10, s11, 0); run := run + [s11];
    var s12 := SetTx(s11, 0, u0.(phase := Collecting, returning := true)).(txId := 1);
    assert Bump(s11, s12, 0);
    Extend(run, s11, s12, 0); run := run + [s12];
    assert s12 == Ahead(threshold, 0);
  }

  /** Below the threshold nothing is collected, and thread 0 commits once more. */
  lemma OneMore(threshold: nat, n: nat, before: seq<State>) returns (run: seq<State>)
    requires n < threshold && RunTo(before, Ahead(threshold, n))
    ensures RunTo(run, Ahead(threshold, n + 1))
  {
    run := before;
    var s0 := Ahead(threshold, n);
    var tx := s0.txs[0];
    var s1 := SetTx(s0, 0, tx.(phase := Unlocking));
    assert IsLeast(s0.progress, 0);
    assert Collect(s0, s1, 0, 0);
    Extend(run, s0, s1, 0); run := run + [s1];
    var idle := tx.(phase := Idle, rset := [], wset := []);
    var s2 := SetTx(s1, 0, idle).(lock := -1);
    assert Unlock(s1, s2, 0);
    Extend(run, s1, s2, 0); run := run + [s2];
    var begun := idle.(phase := Executing, start := n + 1);
    var s3 := SetTx(s2, 0, begun);
    assert Begin(s2, s3, 0);
    Extend(run, s2, s3, 0); run := run + [s3];
    var s4 := SetTx(s3, 0, begun.(phase := Validating)).(lock := 0);
    assert TakeLock(s3, s4, 0);
    Extend(run, s3, s4, 0); run := run + [s4];
    run := EmptyWritePhase(threshold, n, run, s4, begun);
  }

  lemma EmptyWritePhase(threshold: nat, n: nat, before: seq<State>, s4: State, begun: Tx) returns (run: seq<State>)
    requires begun == Tx(Executing, n + 1, [], [], true)
    requires s4 == Ahead(threshold, n).(txs := [begun.(phase := Validating), Waiting()]) && RunTo(before, s4)
    ensures RunTo(run, Ahead(threshold, n + 1))
  {
    run := before;
    var s5 := SetTx(s4, 0, begun.(phase := Writing(0))).(log := s4.log + [Nothing()]);
    assert ReadMap(begun.rset) == map[] && WriteMap(begun.wset) == map[];
    assert Pass(s4, s5, 0);
    Extend(run, s4, s5, 0); run := run + [s5];
    var s6 := SetTx(s5, 0, begun.(phase := Pushed)).(wsList := s5.wsList + [[]]);
    assert Push(s5, s6, 0);
    Extend(run, s5, s6, 0); run := run + [s6];
    var s7 := SetTx(s6, 0, begun.(phase := Numbered)).(progress := [n + 1, 0]);
    assert Number(s6, s7, 0);
    Extend(run, s6, s7, 0); run := run + [s7];
    var s8 := SetTx(s7, 0, begun.(phase := Collecting)).(txId := n + 2);
    assert Bump(s7, s8, 0);
    Extend(run, s7, s8, 0); run := run + [s8];
    assert s8.log == [Fast()] + Nothings(n + 1) && s8.wsList == [[WriteItem(X, 1)]] + Empties(n + 1);
    assert s8 == Ahead(threshold, n + 1);
  }

  lemma {:induction false} RunsAhead(threshold: nat, n: nat) returns (run: seq<State>)
    requires n <= threshold
    ensures RunTo(run, Ahead(threshold, n))
  {
    if n == 0 {
      run := FirstCommit(threshold);
    } else {
      run := RunsAhead(threshold, n - 1);
      run := OneMore(threshold, n - 1, run);
    }
  }

  /** Beyond the threshold, the write set numbered 0 is collected. */
  lemma CollectsFirst(threshold: nat) returns (run: seq<State>, s2: State)
    ensures RunTo(run, s2) && s2.threshold == threshold && s2.init == map[X := 0, Y := 0]
    ensures s2.log == [Fast()] + Nothings(threshold) && s2.wsList == Empties(threshold) && s2.deleted == 0 && s2.lock == -1
    ensures |s2.txs| == 2 && s2.txs[1] == Waiting()
  {
    run := RunsAhead(threshold, threshold);
    var s0 := Ahead(threshold, threshold);
    var tx := s0.txs[0].(phase := Unlocking);
    var s1 := SetTx(s0, 0, tx).(wsList := Empties(threshold), deleted := 0);
    assert IsLeast(s0.progress, 0) && s0.wsList[1..] == Empties(threshold);
    assert Collect(s0, s1, 0, 0);
    Extend(run, s0, s1, 0); run := run + [s1];
    s2 := SetTx(s1, 0, tx.(phase := Idle, rset := [], wset := [])).(lock := -1);
    assert Unlock(s1, s2, 0);
    Extend(run, s1, s2, 0); run := run + [s2];
  }

  /** The write set thread 1 has to be checked against is gone, and it passes. */
  lemma SlowPasses(threshold: nat) returns (run: seq<State>, last: State)
    ensures RunTo(run, last) && last.threshold == threshold && last.init == map[X := 0, Y := 0]
    ensures last.log == [Fast()] + Nothings(threshold) + [Slow()]
  {
    var s2: State;
    run, s2 := CollectsFirst(threshold);
    var w := Waiting();
    var s3 := SetTx(s2, 1, w.(phase := Validating)).(lock := 1);
    assert TakeLock(s2, s3, 1);
    Extend(run, s2, s3, 1); run := run + [s3];
    last := SetTx(s3, 1, w.(phase := Writing(0))).(log := s3.log + [Slow()]);
    OneRead(X, 0);
    OneWrite(Y, 1);
    assert forall i | 0 <= i < |s3.wsList| :: s3.wsList[i] == [];
    assert Pass(s3, last, 1);
    Extend(run, s3, last, 1); run := run + [last];
  }

  /** Once 1 has been written to `k`, and nobody writes anything else, it stays. */
  lemma {:induction false} StaysOne(init: map<Key, Val>, h: seq<Txn>, k: Key, from: nat)
    requires from < |h| && k in h[from].writeSet
    requires forall i | 0 <= i < |h| && k in h[i].writeSet :: h[i].writeSet[k] == 1
    ensures k in Replay(init, h) && Replay(init, h)[k] == 1
  {
    if from < |h| - 1 {
      StaysOne(init, h[..|h| - 1], k, from);
    }
  }

  /** No order of the committed transactions, numbered or not, is a serial execution. */
  lemma NoSerialOrder(init: map<Key, Val>, h: seq<Txn>, a: nat, b: nat)
    requires a < |h| && b < |h| && h[a] == Fast() && h[b] == Slow()
    requires forall i | 0 <= i < |h| :: h[i] == Fast() || h[i] == Slow() || h[i] == Nothing()
    ensures !SerialRun(init, h)
  {
    if a < b {
      StaysOne(init, h[..b], X, a);
      assert X in h[b].readSet;
    } else {
      assert a != b by { assert X in Fast().writeSet && X !in Slow().writeSet; }
      StaysOne(init, h[..a], Y, b);
      assert Y in h[a].readSet;
    }
  }

  /** `h` lists the transactions of `log` in some order. */
  ghost predicate Reorders(h: seq<Txn>, log: seq<Txn>) {
    multiset(h) == multiset(log)
  }

  lemma ReorderingMembers(log: seq<Txn>, h: seq<Txn>)
    requires Reorders(h, log)
    ensures forall x :: x in h <==> x in log
  {
    forall x ensures x in h <==> x in log {
      assert x in h <==> x in multiset(h);
      assert x in log <==> x in multiset(log);
    }
  }

  /** For every threshold, a reachable state whose committed transactions are equivalent to
      no serial execution: the transaction whose window begins below the log passed. */
  lemma TrimmingCanMissAConflict(threshold: nat) returns (run: seq<State>, last: State)
    ensures RunTo(run, last) && last.threshold == threshold
    ensures forall h | Reorders(h, last.log) :: !SerialRun(last.init, h)
  {
    run, last := SlowPasses(threshold);
    forall h | Reorders(h, last.log) ensures !SerialRun(last.init, h) {
      ReorderingMembers(last.log, h);
      assert last.log[0] == Fast() && last.log[|last.log| - 1] == Slow();
      assert Fast() in h && Slow() in h;
      var a: nat :| a < |h| && h[a] == Fast();
      var b: nat :| b < |h| && h[b] == Slow();
      forall i | 0 <= i < |h| ensures h[i] == Fast() || h[i] == Slow() || h[i] == Nothing() {
        assert h[i] in last.log;
      }
      NoSerialOrder(last.init, h, a, b);
    }
  }
}
