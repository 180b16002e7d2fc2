/** Write sets of the single-version protocols. */
module AccessSets {
  import opened SerialExecution

  datatype WriteItem = WriteItem(key: Key, val: Val)

  predicate HasKey(ws: seq<WriteItem>, k: Key) {
    exists j :: 0 <= j < |ws| && ws[j].key == k
  }

  predicate DistinctKeys(ws: seq<WriteItem>) {
    forall i, j | 0 <= i < j < |ws| :: ws[i].key != ws[j].key
  }

  predicate SortedByKey(ws: seq<WriteItem>) {
    forall i, j | 0 <= i < j < |ws| :: ws[i].key <= ws[j].key
  }

  function KeysOf(ws: seq<WriteItem>): (s: set<Key>)
    ensures forall k :: k in s <==> HasKey(ws, k)
  {
    set j | 0 <= j < |ws| :: ws[j].key
  }

  /** The value the item for `k` holds. */
  function ValueOf(ws: seq<WriteItem>, k: Key): (v: Val)
    requires DistinctKeys(ws) && HasKey(ws, k)
    ensures forall j | 0 <= j < |ws| && ws[j].key == k :: ws[j].val == v
  {
    var j :| 0 <= j < |ws| && ws[j].key == k;
    ws[j].val
  }

  /** The table update a write set stands for. */
  function WriteMap(ws: seq<WriteItem>): map<Key, Val>
    requires DistinctKeys(ws)
  {
    map k | k in KeysOf(ws) :: ValueOf(ws, k)
  }

  /** `sorted` is what sorting `ws` by key produces. */
  ghost predicate SortOf(ws: seq<WriteItem>, sorted: seq<WriteItem>) {
    SortedByKey(sorted) && multiset(sorted) == multiset(ws)
  }

  lemma SortKeepsKeys(ws: seq<WriteItem>, sorted: seq<WriteItem>)
    requires SortOf(ws, sorted) && DistinctKeys(ws)
    ensures DistinctKeys(sorted)
    ensures forall k :: HasKey(sorted, k) <==> HasKey(ws, k)
    ensures forall j | 0 <= j < |sorted| :: sorted[j] in ws
  {
    assert forall x :: x in sorted <==> x in multiset(sorted);
    assert forall x :: x in ws <==> x in multiset(ws);
    forall i, j | 0 <= i < j < |sorted| ensures sorted[i].key != sorted[j].key {
      if sorted[i].key == sorted[j].key {
        SameKeySameItem(ws, sorted[i], sorted[j]);
        TwiceInMultiset(sorted, i, j);
        DistinctOnce(ws, sorted[i]);
        assert false;
      }
    }
    forall k ensures HasKey(sorted, k) <==> HasKey(ws, k) {
      if HasKey(sorted, k) {
        var j :| 0 <= j < |sorted| && sorted[j].key == k;
        assert sorted[j] in ws;
      }
      if HasKey(ws, k) {
        var j :| 0 <= j < |ws| && ws[j].key == k;
        assert ws[j] in sorted;
      }
    }
  }

  lemma SameKeySameItem(ws: seq<WriteItem>, a: WriteItem, b: WriteItem)
    requires DistinctKeys(ws) && a in ws && b in ws && a.key == b.key
    ensures a == b
  {
  }

  lemma TwiceInMultiset<T>(ws: seq<T>, i: nat, j: nat)
    requires i < j < |ws| && ws[i] == ws[j]
    ensures multiset(ws)[ws[i]] >= 2
  {
    assert ws == ws[..i] + [ws[i]] + ws[i + 1..j] + [ws[j]] + ws[j + 1..];
  }

  lemma DistinctOnce(ws: seq<WriteItem>, a: WriteItem)
    requires DistinctKeys(ws)
    ensures multiset(ws)[a] <= 1
  {
    if ws != [] {
      DistinctOnce(ws[1..], a);
      assert ws == [ws[0]] + ws[1..];
      assert a == ws[0] ==> a !in ws[1..];
    }
  }

  // -------------------------------------------------- the loops of the source

  /** searchWriteSet(). */
  method SearchWriteSet(ws: seq<WriteItem>, k: Key) returns (found: bool)
    ensures found <==> HasKey(ws, k)
  {
    var i := 0;
    while i < |ws|
      invariant i <= |ws| && forall j | 0 <= j < i :: ws[j].key != k
    {
      if ws[i].key == k {
        return true;
      }
      i := i + 1;
    }
    return false;
  }

  /** Where an item goes in a list sorted by key. */
  method InsertPosition(sorted: seq<WriteItem>, w: WriteItem) returns (p: nat)
    requires SortedByKey(sorted)
    ensures p <= |sorted| && (forall j | 0 <= j < p :: sorted[j].key <= w.key) && forall j | p <= j < |sorted| :: w.key < sorted[j].key
  {
    p := 0;
    while p < |sorted| && sorted[p].key <= w.key
      invariant p <= |sorted| && forall j | 0 <= j < p :: sorted[j].key <= w.key
    {
      p := p + 1;
    }
  }

  /** sort(write_set_): what locking in key order rests on. */
  method SortWriteSet(ws: seq<WriteItem>) returns (sorted: seq<WriteItem>)
    ensures SortOf(ws, sorted)
  {
    sorted := [];
    var i := 0;
    while i < |ws|
      invariant i <= |ws| && SortOf(ws[..i], sorted)
    {
      var p := InsertPosition(sorted, ws[i]);
      InsertKeepsSorted(sorted, ws[i], p);
      assert ws[..i + 1] == ws[..i] + [ws[i]];
      sorted := sorted[..p] + [ws[i]] + sorted[p..];
      i := i + 1;
    }
    assert ws[..i] == ws;
  }

  lemma SortedJoin(a: seq<WriteItem>, b: seq<WriteItem>)
    requires SortedByKey(a) && SortedByKey(b)
    requires forall i, j | 0 <= i < |a| && 0 <= j < |b| :: a[i].key <= b[j].key
    ensures SortedByKey(a + b)
  {
  }

  lemma InsertKeepsSorted(sorted: seq<WriteItem>, w: WriteItem, p: nat)
    requires SortedByKey(sorted) && p <= |sorted|
    requires (forall j | 0 <= j < p :: sorted[j].key <= w.key) && forall j | p <= j < |sorted| :: w.key < sorted[j].key
    ensures SortedByKey(sorted[..p] + [w] + sorted[p..])
    ensures multiset(sorted[..p] + [w] + sorted[p..]) == multiset(sorted) + multiset{w}
  {
    var front, back := sorted[..p] + [w], sorted[p..];
    assert sorted == sorted[..p] + back;
    forall i, j | 0 <= i < j < |front| ensures front[i].key <= front[j].key {
    }
    forall i, j | 0 <= i < |front| && 0 <= j < |back| ensures front[i].key <= back[j].key {
      assert back[j] == sorted[p + j];
    }
    SortedJoin(front, back);
  }
}
