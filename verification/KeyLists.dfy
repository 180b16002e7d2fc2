/** Lists of keys, as the lock lists of the lock-based protocols keep them. */
module KeyLists {
  import opened SerialExecution

  predicate Distinct(q: seq<Key>) {
    forall i, j | 0 <= i < j < |q| :: q[i] != q[j]
  }

  lemma DropFirst(q: seq<Key>)
    requires q != [] && Distinct(q)
    ensures Distinct(q[1..]) && forall x :: x in q[1..] <==> x in q && x != q[0]
  {
    forall x | x in q && x != q[0] ensures x in q[1..] {
      assert q == [q[0]] + q[1..];
    }
  }

  /** `q` without its first `k`. */
  function Removed(q: seq<Key>, k: Key): (r: seq<Key>)
    ensures forall x | x in r :: x in q
  {
    if q == [] then []
    else if q[0] == k then q[1..]
    else [q[0]] + Removed(q[1..], k)
  }

  lemma {:induction false} RemovedFacts(q: seq<Key>, k: Key)
    requires Distinct(q)
    ensures Distinct(Removed(q, k)) && forall x :: x in Removed(q, k) <==> x in q && x != k
    ensures |Removed(q, k)| == if k in q then |q| - 1 else |q|
  {
    if q != [] {
      assert q == [q[0]] + q[1..];
      RemovedFacts(q[1..], k);
      assert q[0] !in q[1..];
    }
  }

  /** The search through one of the lock lists. */
  method SearchLocks(q: seq<Key>, key: Key) returns (found: bool)
    ensures found <==> key in q
  {
    var i := 0;
    while i < |q|
      invariant i <= |q| && key !in q[..i]
    {
      if q[i] == key {
        return true;
      }
      i := i + 1;
    }
    assert q[..i] == q;
    return false;
  }

  /** Erases the first `key`. */
  method EraseLock(q: seq<Key>, key: Key) returns (r: seq<Key>)
    ensures r == Removed(q, key)
  {
    var i := 0;
    while i < |q|
      invariant i <= |q| && Removed(q, key) == q[..i] + Removed(q[i..], key)
    {
      if q[i] == key {
        return q[..i] + q[i + 1..];
      }
      assert q[i..][1..] == q[i + 1..];
      assert q[..i] + [q[i]] == q[..i + 1];
      i := i + 1;
    }
    return q;
  }
}
