/** Runs of a step relation, and invariants over whole runs. */
module Runs {

  /** A finite run: starts in an initial state and takes one step at a time. */
  ghost predicate IsRun<S(!new)>(run: seq<S>, init: S -> bool, next: (S, S) -> bool) {
    && |run| > 0 && init(run[0])
    && forall i | 0 < i < |run| :: next(run[i - 1], run[i])
  }

  /** What holds initially and is kept by every step holds all along a run. */
  lemma {:induction false} Invariant<S(!new)>(run: seq<S>, init: S -> bool, next: (S, S) -> bool,
                                             inv: S -> bool, i: nat)
    requires IsRun(run, init, next) && i < |run|
    requires forall s | init(s) :: inv(s)
    requires forall s, s' | inv(s) && next(s, s') :: inv(s')
    ensures inv(run[i])
  {
    if i > 0 {
      Invariant(run, init, next, inv, i - 1);
      assert next(run[i - 1], run[i]);
    }
  }

  /** A reflexive and transitive relation that every step keeps holds between any two states
      of a run, in order. */
  lemma {:induction false} Ordered<S(!new)>(run: seq<S>, init: S -> bool, next: (S, S) -> bool,
                                           inv: S -> bool, rel: (S, S) -> bool, i: nat, j: nat)
    requires IsRun(run, init, next) && i <= j < |run|
    requires forall s | init(s) :: inv(s)
    requires forall s, s' | inv(s) && next(s, s') :: inv(s') && rel(s, s')
    requires (forall s :: rel(s, s)) && forall a, b, c | rel(a, b) && rel(b, c) :: rel(a, c)
    ensures rel(run[i], run[j])
  {
    if i < j {
      Ordered(run, init, next, inv, rel, i, j - 1);
      Invariant(run, init, next, inv, j - 1);
      assert next(run[j - 1], run[j]);
    }
  }

  /** One more step makes a longer run. */
  lemma Longer<S(!new)>(run: seq<S>, init: S -> bool, next: (S, S) -> bool, s': S)
    requires IsRun(run, init, next) && next(run[|run| - 1], s')
    ensures IsRun(run + [s'], init, next)
  {
    var longer := run + [s'];
    forall i | 0 < i < |longer| ensures next(longer[i - 1], longer[i]) {
      if i < |run| {
        assert longer[i - 1] == run[i - 1] && longer[i] == run[i];
      }
    }
  }
}
