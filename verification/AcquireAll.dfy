/** The deterministic scheduler that takes all of a transaction's locks under one giant lock.

    The holder of the giant lock tries the locks of the next transaction one by one; when
    one is refused it gives all back and starts over, still holding the giant lock.  Once it
    has them all it advances the transaction counter, lets the giant lock go, and runs.
    `readers`, `writer`, `through` and `seen` record history only. */
module AcquireAll {
  import opened SerialExecution
  import opened KeyLists
  import opened Programs

  datatype Tuple = Tuple(val: Val, count: int, readers: set<nat>, writer: int, through: nat)

  datatype Phase =
    | NotStarted
    | Acquiring(pos: nat)
    | UpgradeRefused(pos: nat)
    | Undoing
    | Published
    | Executing(pos: nat)
    | Releasing
    | Done

  datatype Tx = Tx(phase: Phase, rlocks: seq<Key>, wlocks: seq<Key>, seen: seq<Val>)

  datatype State = State(table: seq<Tuple>, txs: seq<Tx>, giant: int, next: nat,
                         programs: seq<seq<Task>>, init: seq<Val>, first: nat)

  function SetPhase(s: State, t: nat, p: Phase): State
    requires t < |s.txs|
  {
    s.(txs := s.txs[t := s.txs[t].(phase := p)])
  }

  function SetBoth(s: State, t: nat, tx: Tx, k: Key, tup: Tuple): State
    requires t < |s.txs| && k < |s.table|
  {
    s.(table := s.table[k := tup], txs := s.txs[t := tx])
  }

  function ReadLocked(tup: Tuple, t: nat): Tuple { tup.(count := tup.count + 1, readers := tup.readers + {t}) }

  function WriteLocked(tup: Tuple, t: nat): Tuple { tup.(count := -1, writer := t) }

  function Upgraded(tup: Tuple, t: nat): Tuple { tup.(count := -1, readers := tup.readers - {t}, writer := t) }

  ghost predicate Start(s: State, s': State, t: nat)
    requires t < |s.txs|
  {
    && s.giant == -1 && t == s.next && s.txs[t].phase.NotStarted?
    && s' == SetPhase(s, t, Acquiring(0)).(giant := t)
  }

  ghost predicate AtTask(s: State, t: nat, pos: nat)
    requires t < |s.txs|
  {
    t < |s.programs| && pos < |s.programs[t]| && (!s.programs[t][pos].Sleep? ==> s.programs[t][pos].key < |s.table|)
  }

  /** One task of the acquisition loop. */
  ghost predicate Acquire(s: State, s': State, t: nat)
    requires t < |s.txs|
  {
    && s.txs[t].phase.Acquiring? && AtTask(s, t, s.txs[t].phase.pos)
    && var tx, pos := s.txs[t], s.txs[t].phase.pos;
       match s.programs[t][pos]
       case Sleep => s' == SetPhase(s, t, Acquiring(pos + 1))
       case Read(k) =>
         var tup := s.table[k];
         if k in tx.rlocks || k in tx.wlocks then s' == SetPhase(s, t, Acquiring(pos + 1))
         else if tup.count != -1 then
           s' == SetBoth(s, t, tx.(phase := Acquiring(pos + 1), rlocks := tx.rlocks + [k]), k, ReadLocked(tup, t))
         else s' == SetPhase(s, t, Undoing)
       case Write(k, _) =>
         var tup := s.table[k];
         if k in tx.rlocks then
           if tup.count == 1 then
             s' == SetBoth(s, t, tx.(phase := Acquiring(pos + 1), rlocks := Removed(tx.rlocks, k), wlocks := tx.wlocks + [k]),
                           k, Upgraded(tup, t))
           else s' == SetPhase(s, t, UpgradeRefused(pos))
         else if k in tx.wlocks then s' == SetPhase(s, t, Acquiring(pos + 1))
         else if tup.count == 0 then
           s' == SetBoth(s, t, tx.(phase := Acquiring(pos + 1), wlocks := tx.wlocks + [k]), k, WriteLocked(tup, t))
         else s' == SetPhase(s, t, Undoing)
  }

  /** After a refused upgrade the code still tries the plain write lock before it gives up. */
  ghost predicate AfterRefusal(s: State, s': State, t: nat)
    requires t < |s.txs|
  {
    && s.txs[t].phase.UpgradeRefused? && AtTask(s, t, s.txs[t].phase.pos) && s.programs[t][s.txs[t].phase.pos].Write?
    && var tx, k := s.txs[t], s.programs[t][s.txs[t].phase.pos].key;
       s' == if s.table[k].count == 0
             then SetBoth(s, t, tx.(phase := Undoing, wlocks := tx.wlocks + [k]), k, WriteLocked(s.table[k], t))
             else SetPhase(s, t, Undoing)
  }

  /** Gives back one lock of a failed attempt. */
  ghost predicate Undo(s: State, s': State, t: nat)
    requires t < |s.txs|
  {
    && s.txs[t].phase.Undoing?
    && var tx := s.txs[t];
       if tx.rlocks != [] then
         && tx.rlocks[0] < |s.table|
         && var tup := s.table[tx.rlocks[0]];
            s' == SetBoth(s, t, tx.(rlocks := tx.rlocks[1..]), tx.rlocks[0],
                          tup.(count := tup.count - 1, readers := tup.readers - {t}))
       else if tx.wlocks != [] then
         && tx.wlocks[0] < |s.table|
         && var tup := s.table[tx.wlocks[0]];
            s' == SetBoth(s, t, tx.(wlocks := tx.wlocks[1..]), tx.wlocks[0], tup.(count := tup.count + 1, writer := -1))
       else s' == SetPhase(s, t, Acquiring(0))
  }

  ghost predicate Publish(s: State, s': State, t: nat)
    requires t < |s.txs|
  {
    && s.txs[t].phase.Acquiring? && t < |s.programs| && s.txs[t].phase.pos == |s.programs[t]|
    && s' == SetPhase(s, t, Published).(next := t + 1)
  }

  ghost predicate LeaveGiant(s: State, s': State, t: nat)
    requires t < |s.txs|
  {
    s.txs[t].phase.Published? && s' == SetPhase(s, t, Executing(0)).(giant := -1)
  }

  ghost predicate Execute(s: State, s': State, t: nat)
    requires t < |s.txs|
  {
    && s.txs[t].phase.Executing? && AtTask(s, t, s.txs[t].phase.pos)
    && var tx, pos := s.txs[t], s.txs[t].phase.pos;
       match s.programs[t][pos]
       case Sleep => s' == SetPhase(s, t, Executing(pos + 1))
       case Read(k) =>
         s' == s.(txs := s.txs[t := tx.(phase := Executing(pos + 1), seen := tx.seen + [s.table[k].val])])
       case Write(k, v) =>
         s' == SetBoth(s, t, tx.(phase := Executing(pos + 1)), k, s.table[k].(val := v))
  }

  ghost predicate Executed(s: State, s': State, t: nat)
    requires t < |s.txs|
  {
    && s.txs[t].phase.Executing? && t < |s.programs| && s.txs[t].phase.pos == |s.programs[t]|
    && s' == SetPhase(s, t, Releasing)
  }

  ghost predicate Release(s: State, s': State, t: nat)
    requires t < |s.txs|
  {
    && s.txs[t].phase.Releasing?
    && var tx := s.txs[t];
       if tx.rlocks != [] then
         && tx.rlocks[0] < |s.table|
         && var tup := s.table[tx.rlocks[0]];
            s' == SetBoth(s, t, tx.(rlocks := tx.rlocks[1..]), tx.rlocks[0],
                          tup.(count := tup.count - 1, readers := tup.readers - {t}))
       else if tx.wlocks != [] then
         && tx.wlocks[0] < |s.table|
         && var tup := s.table[tx.wlocks[0]];
            s' == SetBoth(s, t, tx.(wlocks := tx.wlocks[1..]), tx.wlocks[0],
                          tup.(count := tup.count + 1, writer := -1, through := t + 1))
       else s' == SetPhase(s, t, Done)
  }

  ghost predicate StepBy(s: State, s': State, t: nat) {
    && t < |s.txs|
    && (Start(s, s', t) || Acquire(s, s', t) || AfterRefusal(s, s', t) || Undo(s, s', t)
        || Publish(s, s', t) || LeaveGiant(s, s', t)
        || Execute(s, s', t) || Executed(s, s', t) || Release(s, s', t))
  }

  ghost predicate Next(s: State, s': State) {
    exists t: nat :: StepBy(s, s', t)
  }

  ghost predicate Init(s: State) {
    && |s.programs| == |s.txs| && s.first <= |s.txs| && s.next == s.first && s.giant == -1
    && |s.init| == |s.table|
    && (forall t | 0 <= t < |s.txs| :: s.txs[t] == Tx(NotStarted, [], [], []) && Fits(s.programs[t], |s.table|))
    && (forall k | 0 <= k < |s.table| :: s.table[k] == Tuple(s.init[k], 0, {}, -1, s.first))
  }
}
