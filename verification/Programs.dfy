/** Transactions given in advance as lists of tasks, and their execution one after the
    other in transaction-number order: what the deterministic lock schedulers must match. */
module Programs {
  import opened SerialExecution

  /** The repository stores one constant; here every write names what it stores. */
  datatype Task = Read(key: Key) | Write(key: Key, val: Val) | Sleep

  predicate TouchesKey(tasks: seq<Task>, k: Key) {
    exists i :: 0 <= i < |tasks| && !tasks[i].Sleep? && tasks[i].key == k
  }

  predicate WritesKey(tasks: seq<Task>, k: Key) {
    exists i :: 0 <= i < |tasks| && tasks[i].Write? && tasks[i].key == k
  }

  predicate Fits(tasks: seq<Task>, n: nat) {
    forall i | 0 <= i < |tasks| && !tasks[i].Sleep? :: tasks[i].key < n
  }

  /** The table after the tasks have run on it. */
  function RunTable(tasks: seq<Task>, table: seq<Val>): (r: seq<Val>)
    ensures |r| == |table|
  {
    if tasks == [] then table
    else
      var before := RunTable(tasks[..|tasks| - 1], table);
      var last := tasks[|tasks| - 1];
      if last.Write? && last.key < |table| then before[last.key := last.val] else before
  }

  /** What the tasks read, in order. */
  function RunReads(tasks: seq<Task>, table: seq<Val>): seq<Val>
  {
    if tasks == [] then []
    else
      var last := tasks[|tasks| - 1];
      RunReads(tasks[..|tasks| - 1], table)
      + if last.Read? && last.key < |table| then [RunTable(tasks[..|tasks| - 1], table)[last.key]] else []
  }

  /** The table after transactions `first` to `n - 1` have run one after the other. */
  function Serial(programs: seq<seq<Task>>, init: seq<Val>, first: nat, n: nat): (r: seq<Val>)
    requires n <= |programs|
    ensures |r| == |init|
  {
    if n <= first then init else RunTable(programs[n - 1], Serial(programs, init, first, n - 1))
  }

  lemma {:induction false} Untouched(tasks: seq<Task>, table: seq<Val>, k: Key)
    requires k < |table| && !WritesKey(tasks, k)
    ensures RunTable(tasks, table)[k] == table[k]
  {
    if tasks != [] {
      var front := tasks[..|tasks| - 1];
      assert forall i | 0 <= i < |front| :: front[i] == tasks[i];
      Untouched(front, table, k);
    }
  }

  /** Transactions that do not write a key leave it alone. */
  lemma {:induction false} SerialUntouched(programs: seq<seq<Task>>, init: seq<Val>, first: nat, a: nat, b: nat, k: Key)
    requires first <= a <= b <= |programs| && k < |init|
    requires forall x | a <= x < b :: !WritesKey(programs[x], k)
    ensures Serial(programs, init, first, a)[k] == Serial(programs, init, first, b)[k]
  {
    if a < b {
      SerialUntouched(programs, init, first, a, b - 1, k);
      Untouched(programs[b - 1], Serial(programs, init, first, b - 1), k);
    }
  }

  /** One more task. */
  lemma PrefixStep(tasks: seq<Task>, table: seq<Val>, pos: nat)
    requires pos < |tasks|
    ensures var t := tasks[pos]; var before := RunTable(tasks[..pos], table);
            && RunTable(tasks[..pos + 1], table) == (if t.Write? && t.key < |table| then before[t.key := t.val] else before)
            && RunReads(tasks[..pos + 1], table)
               == RunReads(tasks[..pos], table) + (if t.Read? && t.key < |table| then [before[t.key]] else [])
  {
    assert tasks[..pos + 1][..pos] == tasks[..pos];
  }

  /** A prefix writes no more than the whole. */
  lemma PrefixWrites(tasks: seq<Task>, pos: nat, k: Key)
    requires pos <= |tasks| && WritesKey(tasks[..pos], k)
    ensures WritesKey(tasks, k)
  {
    var i :| 0 <= i < pos && tasks[..pos][i].Write? && tasks[..pos][i].key == k;
    assert tasks[i].Write?;
  }

  lemma WritesTouch(tasks: seq<Task>, k: Key)
    requires WritesKey(tasks, k)
    ensures TouchesKey(tasks, k)
  {
    var i :| 0 <= i < |tasks| && tasks[i].Write? && tasks[i].key == k;
    assert !tasks[i].Sleep?;
  }

  /** How one more task changes what has been accessed. */
  lemma PrefixUses(tasks: seq<Task>, pos: nat, k: Key)
    requires pos < |tasks|
    ensures TouchesKey(tasks[..pos + 1], k) <==> TouchesKey(tasks[..pos], k) || (!tasks[pos].Sleep? && tasks[pos].key == k)
    ensures WritesKey(tasks[..pos + 1], k) <==> WritesKey(tasks[..pos], k) || (tasks[pos].Write? && tasks[pos].key == k)
  {
    assert forall i | 0 <= i < pos :: tasks[..pos + 1][i] == tasks[..pos][i];
    assert tasks[..pos + 1][pos] == tasks[pos];
  }

  lemma TaskTouches(tasks: seq<Task>, pos: nat)
    requires pos < |tasks| && !tasks[pos].Sleep?
    ensures TouchesKey(tasks, tasks[pos].key) && (tasks[pos].Write? ==> WritesKey(tasks, tasks[pos].key))
  {
  }
}
