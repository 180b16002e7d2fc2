/** The reference every concurrency control is compared with: a history of
    transactions executed one after the other against a plain key-value table.

    Each protocol hands over its committed transactions as a map from an order
    stamp to what the transaction read and wrote; SerialOrder below turns the
    reads-from condition the protocols establish into agreement, read by read,
    with the serial execution in stamp order. */
module SerialExecution {

  type Key = nat
  type Val = int

  /** What a committed transaction observed and installed. */
  datatype Txn = Txn(readSet: map<Key, Val>, writeSet: map<Key, Val>)

  /** Position in the serial order: compared by `major`, ties by `minor`. */
  datatype Stamp = Stamp(major: nat, minor: nat)

  predicate Before(a: Stamp, b: Stamp) {
    a.major < b.major || (a.major == b.major && a.minor < b.minor)
  }

  /** The table after running `history` one transaction at a time. */
  function Replay(init: map<Key, Val>, history: seq<Txn>): map<Key, Val> {
    if history == [] then init
    else Replay(init, history[..|history| - 1]) + history[|history| - 1].writeSet
  }

  /** Every read of every transaction returns what the serial execution of the
      transactions before it left in the table. */
  ghost predicate SerialRun(init: map<Key, Val>, history: seq<Txn>) {
    forall i, k | 0 <= i < |history| && k in history[i].readSet ::
      k in Replay(init, history[..i]) && Replay(init, history[..i])[k] == history[i].readSet[k]
  }

  /** `order` lists the stamps of `commits`, each once, in increasing order. */
  ghost predicate Enumerates(order: seq<Stamp>, commits: map<Stamp, Txn>) {
    && (forall i, j | 0 <= i < j < |order| :: Before(order[i], order[j]))
    && (forall i | 0 <= i < |order| :: order[i] in commits)
    && (forall st | st in commits :: exists i :: 0 <= i < |order| && order[i] == st)
  }

  function Listed(order: seq<Stamp>, commits: map<Stamp, Txn>): (h: seq<Txn>)
    requires forall i | 0 <= i < |order| :: order[i] in commits
    ensures |h| == |order|
    ensures forall i | 0 <= i < |order| :: h[i] == commits[order[i]]
  {
    seq(|order|, i requires 0 <= i < |order| => commits[order[i]])
  }

  /** Nobody ordered before `at` and not before `from` (exclusive) writes `k`. */
  ghost predicate NoWriterBetween(commits: map<Stamp, Txn>, k: Key, from: Stamp, at: Stamp) {
    forall w | w in commits && k in commits[w].writeSet :: !(Before(from, w) && Before(w, at))
  }

  ghost predicate NoWriterBefore(commits: map<Stamp, Txn>, k: Key, at: Stamp) {
    forall w | w in commits && k in commits[w].writeSet :: !Before(w, at)
  }

  /** The read of `k` by the transaction stamped `at` comes from the last writer
      ordered before it, or from the initial table when there is none. */
  ghost predicate ReadsFromLastWriter(init: map<Key, Val>, commits: map<Stamp, Txn>, at: Stamp, k: Key)
    requires at in commits && k in commits[at].readSet
  {
    || (k in init && commits[at].readSet[k] == init[k] && NoWriterBefore(commits, k, at))
    || exists w :: w in commits && Before(w, at) && k in commits[w].writeSet
                   && commits[w].writeSet[k] == commits[at].readSet[k]
                   && NoWriterBetween(commits, k, w, at)
  }

  ghost predicate ReadsFromOrder(init: map<Key, Val>, commits: map<Stamp, Txn>) {
    forall at, k | at in commits && k in commits[at].readSet :: ReadsFromLastWriter(init, commits, at, k)
  }

  /** A key nobody wrote from position `from` on still holds the value it had there. */
  lemma {:induction false} ReplayUntouched(init: map<Key, Val>, h: seq<Txn>, from: nat, k: Key)
    requires from <= |h|
    requires forall j | from <= j < |h| :: k !in h[j].writeSet
    ensures k in Replay(init, h[..from]) <==> k in Replay(init, h)
    ensures k in Replay(init, h) ==> Replay(init, h)[k] == Replay(init, h[..from])[k]
    decreases |h|
  {
    if from == |h| {
      assert h[..from] == h;
    } else {
      var p := h[..|h| - 1];
      assert p[..from] == h[..from];
      ReplayUntouched(init, p, from, k);
    }
  }

  lemma ReadMatchesInitial(init: map<Key, Val>, commits: map<Stamp, Txn>, order: seq<Stamp>, i: nat, k: Key)
    requires Enumerates(order, commits)
    requires i < |order| && k in init && NoWriterBefore(commits, k, order[i])
    ensures var h := Listed(order, commits)[..i];
            k in Replay(init, h) && Replay(init, h)[k] == init[k]
  {
    var h := Listed(order, commits)[..i];
    forall m | 0 <= m < i ensures k !in h[m].writeSet {
      assert Before(order[m], order[i]);
      assert h[m] == commits[order[m]];
    }
    assert h[..0] == [];
    ReplayUntouched(init, h, 0, k);
  }

  lemma EarlierStampFirst(commits: map<Stamp, Txn>, order: seq<Stamp>, j: nat, i: nat)
    requires Enumerates(order, commits)
    requires j < |order| && i < |order| && Before(order[j], order[i])
    ensures j < i
  {
  }

  lemma BetweenWritesNothing(commits: map<Stamp, Txn>, order: seq<Stamp>, j: nat, m: nat, i: nat, k: Key)
    requires Enumerates(order, commits)
    requires j < m < i < |order| && NoWriterBetween(commits, k, order[j], order[i])
    ensures k !in commits[order[m]].writeSet
  {
    assert Before(order[j], order[m]) && Before(order[m], order[i]);
  }

  lemma ReadMatchesWriter(init: map<Key, Val>, commits: map<Stamp, Txn>, order: seq<Stamp>, j: nat, i: nat, k: Key)
    requires Enumerates(order, commits)
    requires j < |order| && i < |order| && k in commits[order[j]].writeSet
    requires Before(order[j], order[i]) && NoWriterBetween(commits, k, order[j], order[i])
    ensures var h := Listed(order, commits)[..i];
            k in Replay(init, h) && Replay(init, h)[k] == commits[order[j]].writeSet[k]
  {
    EarlierStampFirst(commits, order, j, i);
    var h := Listed(order, commits)[..i];
    forall m | j + 1 <= m < i ensures k !in h[m].writeSet {
      BetweenWritesNothing(commits, order, j, m, i, k);
    }
    FinalWriter(init, h, j, k);
  }

  /** The last transaction to write a key decides what the table holds for it. */
  lemma FinalWriter(init: map<Key, Val>, h: seq<Txn>, j: nat, k: Key)
    requires j < |h| && k in h[j].writeSet
    requires forall m | j < m < |h| :: k !in h[m].writeSet
    ensures k in Replay(init, h) && Replay(init, h)[k] == h[j].writeSet[k]
  {
    ReplayUntouched(init, h, j + 1, k);
    LastApplied(init, h[..j + 1], k);
  }

  lemma LastApplied(init: map<Key, Val>, h: seq<Txn>, k: Key)
    requires h != [] && k in h[|h| - 1].writeSet
    ensures k in Replay(init, h) && Replay(init, h)[k] == h[|h| - 1].writeSet[k]
  {
  }

  lemma ReadMatches(init: map<Key, Val>, commits: map<Stamp, Txn>, order: seq<Stamp>, i: nat, k: Key)
    requires Enumerates(order, commits)
    requires i < |order| && k in commits[order[i]].readSet
    requires ReadsFromLastWriter(init, commits, order[i], k)
    ensures var h := Listed(order, commits)[..i];
            k in Replay(init, h) && Replay(init, h)[k] == commits[order[i]].readSet[k]
  {
    var at := order[i];
    if k in init && commits[at].readSet[k] == init[k] && NoWriterBefore(commits, k, at) {
      ReadMatchesInitial(init, commits, order, i, k);
    } else {
      var w :| w in commits && Before(w, at) && k in commits[w].writeSet
               && commits[w].writeSet[k] == commits[at].readSet[k] && NoWriterBetween(commits, k, w, at);
      var j :| 0 <= j < |order| && order[j] == w;
      ReadMatchesWriter(init, commits, order, j, i, k);
    }
  }

  /** The bridge used by every protocol: the reads-from condition makes the
      listing in stamp order a serial execution. */
  lemma SerialOrder(init: map<Key, Val>, commits: map<Stamp, Txn>, order: seq<Stamp>)
    requires Enumerates(order, commits) && ReadsFromOrder(init, commits)
    ensures SerialRun(init, Listed(order, commits))
  {
    var h := Listed(order, commits);
    forall i, k | 0 <= i < |h| && k in h[i].readSet
      ensures k in Replay(init, h[..i]) && Replay(init, h[..i])[k] == h[i].readSet[k]
    {
      ReadMatches(init, commits, order, i, k);
    }
  }

  lemma {:induction false} LeastStamp(keys: set<Stamp>)
    requires keys != {}
    ensures exists m :: m in keys && forall x | x in keys :: x == m || Before(m, x)
  {
    var y :| y in keys;
    var rest := keys - {y};
    if rest == {} {
      assert keys == {y};
    } else {
      LeastStamp(rest);
      var m :| m in rest && forall x | x in rest :: x == m || Before(m, x);
      var least := if Before(y, m) then y else m;
      forall x | x in keys ensures x == least || Before(least, x) {
        if x != y {
          assert x in rest;
        }
      }
    }
  }

  lemma Prepended(commits: map<Stamp, Txn>, m: Stamp, tail: seq<Stamp>)
    requires m in commits && Enumerates(tail, commits - {m})
    requires forall x | x in commits :: x == m || Before(m, x)
    ensures Enumerates([m] + tail, commits)
  {
    var order := [m] + tail;
    forall st | st in commits ensures exists i :: 0 <= i < |order| && order[i] == st {
      if st == m {
        assert order[0] == m;
      } else {
        assert st in commits - {m};
        var i :| 0 <= i < |tail| && tail[i] == st;
        assert order[i + 1] == st;
      }
    }
  }

  /** Every set of committed transactions can be listed in stamp order, so the
      serial execution SerialOrder speaks of exists. */
  lemma {:induction false} OrderExists(commits: map<Stamp, Txn>) returns (order: seq<Stamp>)
    ensures Enumerates(order, commits)
    decreases |commits|
  {
    if commits.Keys == {} {
      order := [];
    } else {
      LeastStamp(commits.Keys);
      var m :| m in commits.Keys && forall x | x in commits.Keys :: x == m || Before(m, x);
      var rest := commits - {m};
      assert rest.Keys == commits.Keys - {m};
      var tail := OrderExists(rest);
      Prepended(commits, m, tail);
      order := [m] + tail;
    }
  }

  /** What a protocol's main theorem claims of its committed transactions. */
  ghost predicate Serializable(init: map<Key, Val>, commits: map<Stamp, Txn>) {
    exists order :: Enumerates(order, commits) && SerialRun(init, Listed(order, commits))
  }

  lemma SerializableByReadsFrom(init: map<Key, Val>, commits: map<Stamp, Txn>)
    requires ReadsFromOrder(init, commits)
    ensures Serializable(init, commits)
  {
    var order := OrderExists(commits);
    SerialOrder(init, commits, order);
  }

  /** A transaction that reads what a serial run leaves can follow it. */
  lemma AppendRun(init: map<Key, Val>, log: seq<Txn>, tx: Txn)
    requires SerialRun(init, log)
    requires forall k | k in tx.readSet :: k in Replay(init, log) && Replay(init, log)[k] == tx.readSet[k]
    ensures SerialRun(init, log + [tx])
  {
    var log' := log + [tx];
    forall i, k | 0 <= i < |log'| && k in log'[i].readSet
      ensures k in Replay(init, log'[..i]) && Replay(init, log'[..i])[k] == log'[i].readSet[k]
    {
      if i < |log| {
        assert log'[..i] == log[..i];
        assert log'[i] == log[i];
      } else {
        assert log'[..i] == log;
      }
    }
  }

  /** `w` is the last of the committed transactions to write `k`. */
  ghost predicate LastWriter(commits: map<Stamp, Txn>, k: Key, w: Stamp) {
    && w in commits && k in commits[w].writeSet
    && forall x | x in commits && k in commits[x].writeSet :: x == w || Before(x, w)
  }

  ghost predicate NeverWritten(commits: map<Stamp, Txn>, k: Key) {
    forall x | x in commits :: k !in commits[x].writeSet
  }

  /** What the serial execution leaves in a record: what its last writer wrote, or, if there
      is none, what was there at the start. */
  lemma LeftBehind(init: map<Key, Val>, commits: map<Stamp, Txn>, order: seq<Stamp>, k: Key, val: Val)
    requires Enumerates(order, commits)
    requires || (NeverWritten(commits, k) && k in init && init[k] == val)
             || exists w :: LastWriter(commits, k, w) && commits[w].writeSet[k] == val
    ensures var table := Replay(init, Listed(order, commits)); k in table && table[k] == val
  {
    var h := Listed(order, commits);
    if NeverWritten(commits, k) {
      assert h[..0] == [];
      ReplayUntouched(init, h, 0, k);
    } else {
      var w :| LastWriter(commits, k, w) && commits[w].writeSet[k] == val;
      var j: nat :| j < |order| && order[j] == w;
      forall m | j < m < |h| ensures k !in h[m].writeSet {
        assert Before(order[j], order[m]);
      }
      FinalWriter(init, h, j, k);
    }
  }
}
