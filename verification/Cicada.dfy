/** Cicada: multi-version timestamp ordering with pending versions, read timestamps,
    sorted version lists, read-only snapshots and version garbage collection.

    Versions live in `heap` and are named by their index; NIL ends a list.  A step is
    one atomic load, store or compare-and-swap, together with work on memory no other
    thread can reach.  Fields that only record history (`place`, `seqno`, `passed`,
    `bottom`, `init`, `wts` and `val` of a read element, `commits`, `sources`, `snaps`,
    `clock`) are never consulted by a guard. */
module Cicada {
  import opened SerialExecution

  const NIL: int := -1

  /** Thread ids occupy the low eight bits of every timestamp. */
  const TID_SPACE: nat := 256

  datatype Status = Pending | Aborted | Committed | Unused

  /** Who can reach a version: a record's list, the write set of the transaction that
      made it, a thread's reuse pool, or the garbage collector cutting it off. */
  datatype Place = Listed(key: Key) | InWriteSet(t: nat) | InPool(t: nat) | Detached(t: nat)

  datatype Version = Version(wts: nat, rts: nat, next: int, status: Status, val: Val,
                             place: Place, seqno: nat, passed: bool)

  /** `gcLock` is 0 when free, else the holder's id plus one; `bottom` is the last
      version of the list. */
  datatype Record = Record(latest: int, minWts: nat, gcLock: nat, bottom: int, init: Val)

  datatype ReadElement = ReadElement(key: Key, later: int, ver: int, wts: nat, val: Val)

  datatype WriteElement = WriteElement(key: Key, later: int, ver: int, rmw: bool, installed: bool, val: Val)

  datatype GcElement = GcElement(key: Key, ver: int, wts: nat)

  datatype Phase =
    | Idle
    | Generated | WtsStored | MinLoaded
    | Executing
    | ReadSeek(key: Key, later: int, cur: int)
    | ReadWait(key: Key, later: int, cur: int)
    | WriteSeek(key: Key, later: int, cur: int, new_: Val)
    | WriteCheck(key: Key, later: int, cur: int, rmw: bool, new_: Val)
    | Precheck(i: nat)
    | PreSeek(i: nat, cur: int)
    | PreWait(i: nat, cur: int)
    | Install(i: nat, exp: int)
    | InstallHead(i: nat, exp: int)
    | InstallSeek(i: nat, cur: int, exp: int)
    | Raise(i: nat)
    | Scan(i: nat)
    | ScanSeek(i: nat, cur: int)
    | ScanWait(i: nat, cur: int)
    | Check(i: nat)
    | CheckWait(i: nat, cur: int)
    | Committing(i: nat)
    | Aborting(i: nat)
    | Maint
    | GcLocked
    | GcLoaded(del: int)
    | GcCut(del: int)
    | GcPush(del: int)
    | LeadRts(minw: nat)
    | LeadScan(i: nat, minw: nat, minr: nat)
    | LeadScanRts(i: nat, minw: nat, minr: nat)
    | LeadPublish(minr: nat)

  datatype Executor = Executor(phase: Phase, ts: nat, rts: nat, ronly: bool,
                               rset: seq<ReadElement>, wset: seq<WriteElement>,
                               gcq: seq<GcElement>, pool: seq<int>)

  /** A read of a read-only transaction: at snapshot `rts` it got version `wts` of `key`. */
  datatype Snap = Snap(rts: nat, key: Key, wts: nat, val: Val)

  datatype State = State(heap: seq<Version>, recs: seq<Record>, thr: seq<Executor>,
                         threadWts: seq<nat>, threadRts: seq<nat>, minWts: nat, minRts: nat,
                         initTs: nat, clock: nat,
                         commits: map<Stamp, Txn>, sources: map<Stamp, map<Key, nat>>, snaps: set<Snap>)

  predicate Valid(h: seq<Version>, v: int) { 0 <= v < |h| }

  predicate ReadsKey(rs: seq<ReadElement>, k: Key) {
    exists j :: 0 <= j < |rs| && rs[j].key == k
  }

  predicate WritesKey(ws: seq<WriteElement>, k: Key) {
    exists j :: 0 <= j < |ws| && ws[j].key == k
  }

  predicate DistinctReads(rs: seq<ReadElement>) {
    forall i, j | 0 <= i < j < |rs| :: rs[i].key != rs[j].key
  }

  predicate DistinctWrites(ws: seq<WriteElement>) {
    forall i, j | 0 <= i < j < |ws| :: ws[i].key != ws[j].key && ws[i].ver != ws[j].ver
  }

  function KeysRead(rs: seq<ReadElement>): (s: set<Key>)
    ensures forall k :: k in s <==> ReadsKey(rs, k)
  {
    set j | 0 <= j < |rs| :: rs[j].key
  }

  /** The element for `k`. */
  function ReadOf(rs: seq<ReadElement>, k: Key): (e: ReadElement)
    requires DistinctReads(rs) && ReadsKey(rs, k)
    ensures e in rs && forall j | 0 <= j < |rs| && rs[j].key == k :: rs[j] == e
  {
    var j :| 0 <= j < |rs| && rs[j].key == k;
    rs[j]
  }

  function ReadMap(rs: seq<ReadElement>): map<Key, Val>
    requires DistinctReads(rs)
  {
    map k | k in KeysRead(rs) :: ReadOf(rs, k).val
  }

  function SourceMap(rs: seq<ReadElement>): map<Key, nat>
    requires DistinctReads(rs)
  {
    map k | k in KeysRead(rs) :: ReadOf(rs, k).wts
  }

  function KeysWritten(ws: seq<WriteElement>): (s: set<Key>)
    ensures forall k :: k in s <==> WritesKey(ws, k)
  {
    set j | 0 <= j < |ws| :: ws[j].key
  }

  /** The element for `k`. */
  function WriteOf(ws: seq<WriteElement>, k: Key): (e: WriteElement)
    requires DistinctWrites(ws) && WritesKey(ws, k)
    ensures e in ws && forall j | 0 <= j < |ws| && ws[j].key == k :: ws[j] == e
  {
    var j :| 0 <= j < |ws| && ws[j].key == k;
    ws[j]
  }

  function WriteMap(ws: seq<WriteElement>): map<Key, Val>
    requires DistinctWrites(ws)
  {
    map k | k in KeysWritten(ws) :: WriteOf(ws, k).val
  }

  /** The timestamp versions are searched by. */
  function Bound(tx: Executor): nat { if tx.ronly then tx.rts else tx.ts }

  // ---------------------------------------------------------------- helpers

  function SetThr(s: State, t: nat, tx: Executor): State
    requires t < |s.thr|
  {
    s.(thr := s.thr[t := tx])
  }

  function SetPhase(s: State, t: nat, p: Phase): State
    requires t < |s.thr|
  {
    SetThr(s, t, s.thr[t].(phase := p))
  }

  // -------------------------------------------------- beginning, snapshot reads

  /** A new timestamp: later than the thread's previous one, tagged with its id. */
  ghost predicate Generate(s: State, s': State, t: nat, ts: nat, ronly: bool)
    requires t < |s.thr|
  {
    var tx := s.thr[t];
    && tx.phase.Idle? && tx.ts < ts && ts % TID_SPACE == t
    && s' == SetThr(s, t, tx.(phase := Generated, ts := ts, ronly := ronly, rset := [], wset := []))
  }

  ghost predicate StoreWts(s: State, s': State, t: nat)
    requires t < |s.thr|
  {
    && s.thr[t].phase.Generated? && t < |s.threadWts|
    && s' == SetPhase(s, t, WtsStored).(threadWts := s.threadWts[t := s.thr[t].ts])
  }

  ghost predicate LoadMinWts(s: State, s': State, t: nat)
    requires t < |s.thr|
  {
    && s.thr[t].phase.WtsStored? && s.minWts >= 1
    && s' == SetThr(s, t, s.thr[t].(phase := MinLoaded, rts := s.minWts - 1))
  }

  ghost predicate StoreRts(s: State, s': State, t: nat)
    requires t < |s.thr|
  {
    && s.thr[t].phase.MinLoaded? && t < |s.threadRts|
    && s' == SetPhase(s, t, Executing).(threadRts := s.threadRts[t := s.thr[t].rts])
  }

  ghost predicate ReadStart(s: State, s': State, t: nat, k: Key)
    requires t < |s.thr|
  {
    var tx := s.thr[t];
    && tx.phase.Executing? && k < |s.recs|
    && !ReadsKey(tx.rset, k) && !WritesKey(tx.wset, k)
    && s' == SetPhase(s, t, ReadSeek(k, NIL, s.recs[k].latest))
  }

  ghost predicate ReadNext(s: State, s': State, t: nat)
    requires t < |s.thr|
  {
    var tx := s.thr[t];
    && tx.phase.ReadSeek? && Valid(s.heap, tx.phase.cur)
    && s.heap[tx.phase.cur].wts > Bound(tx)
    && s' == SetPhase(s, t, ReadSeek(tx.phase.key, tx.phase.cur, s.heap[tx.phase.cur].next))
  }

  ghost predicate ReadReach(s: State, s': State, t: nat)
    requires t < |s.thr|
  {
    var tx := s.thr[t];
    && tx.phase.ReadSeek? && Valid(s.heap, tx.phase.cur)
    && s.heap[tx.phase.cur].wts <= Bound(tx)
    && s' == SetPhase(s, t, ReadWait(tx.phase.key, tx.phase.later, tx.phase.cur))
  }

  /** Past an aborted version; a pending one is waited for by taking no step. */
  ghost predicate ReadDown(s: State, s': State, t: nat)
    requires t < |s.thr|
  {
    var tx := s.thr[t];
    && tx.phase.ReadWait? && Valid(s.heap, tx.phase.cur)
    && s.heap[tx.phase.cur].status.Aborted?
    && s' == SetPhase(s, t, ReadWait(tx.phase.key, tx.phase.later, s.heap[tx.phase.cur].next))
  }

  ghost predicate ReadTake(s: State, s': State, t: nat)
    requires t < |s.thr|
  {
    var tx := s.thr[t];
    && tx.phase.ReadWait? && Valid(s.heap, tx.phase.cur)
    && var v := s.heap[tx.phase.cur];
       && v.status.Committed?
       && s' == if tx.ronly
                then SetPhase(s, t, Executing).(snaps := s.snaps + {Snap(tx.rts, tx.phase.key, v.wts, v.val)})
                else SetThr(s, t, tx.(phase := Executing,
                                      rset := tx.rset + [ReadElement(tx.phase.key, tx.phase.later, tx.phase.cur, v.wts, v.val)]))
  }

  /** Read-only transactions are not validated. */
  ghost predicate ReadOnlyEnd(s: State, s': State, t: nat)
    requires t < |s.thr|
  {
    && s.thr[t].phase.Executing? && s.thr[t].ronly
    && s' == SetPhase(s, t, Idle)
  }

  // ----------------------------------------------------------------- writing

  ghost predicate WriteStart(s: State, s': State, t: nat, k: Key, new_: Val)
    requires t < |s.thr|
  {
    var tx := s.thr[t];
    && tx.phase.Executing? && !tx.ronly && k < |s.recs| && !WritesKey(tx.wset, k) && !ReadsKey(tx.rset, k)
    && s' == SetPhase(s, t, WriteSeek(k, NIL, s.recs[k].latest, new_))
  }

  /** A key already read: only the newest version matters, and a newer one dooms the write. */
  ghost predicate WriteStartRmw(s: State, s': State, t: nat, k: Key, new_: Val)
    requires t < |s.thr|
  {
    var tx := s.thr[t];
    && tx.phase.Executing? && !tx.ronly && k < |s.recs| && !WritesKey(tx.wset, k) && ReadsKey(tx.rset, k)
    && Valid(s.heap, s.recs[k].latest)
    && s' == SetPhase(s, t, if s.heap[s.recs[k].latest].wts > tx.ts then Aborting(0)
                            else WriteCheck(k, NIL, s.recs[k].latest, true, new_))
  }

  ghost predicate WriteNext(s: State, s': State, t: nat)
    requires t < |s.thr|
  {
    var tx := s.thr[t];
    && tx.phase.WriteSeek? && Valid(s.heap, tx.phase.cur)
    && s.heap[tx.phase.cur].wts > tx.ts
    && s' == SetPhase(s, t, WriteSeek(tx.phase.key, tx.phase.cur, s.heap[tx.phase.cur].next, tx.phase.new_))
  }

  ghost predicate WriteReach(s: State, s': State, t: nat)
    requires t < |s.thr|
  {
    var tx := s.thr[t];
    && tx.phase.WriteSeek? && Valid(s.heap, tx.phase.cur)
    && s.heap[tx.phase.cur].wts <= tx.ts
    && s' == SetPhase(s, t, WriteCheck(tx.phase.key, tx.phase.later, tx.phase.cur, false, tx.phase.new_))
  }

  ghost predicate WriteRefused(h: seq<Version>, tx: Executor) {
    && tx.phase.WriteCheck? && Valid(h, tx.phase.cur)
    && h[tx.phase.cur].rts > tx.ts && h[tx.phase.cur].status.Committed?
  }

  ghost predicate WriteAbort(s: State, s': State, t: nat)
    requires t < |s.thr|
  {
    WriteRefused(s.heap, s.thr[t]) && s' == SetPhase(s, t, Aborting(0))
  }

  function FreshVersion(ts: nat, t: nat): Version {
    Version(ts, 0, NIL, Pending, 0, InWriteSet(t), 0, false)
  }

  /** A new version from the thread's reuse pool, or from memory when it is empty. */
  ghost predicate WriteAlloc(s: State, s': State, t: nat)
    requires t < |s.thr|
  {
    var tx := s.thr[t];
    && tx.phase.WriteCheck? && Valid(s.heap, tx.phase.cur) && !WriteRefused(s.heap, tx)
    && var p := tx.phase;
       if tx.pool == [] then
         s' == SetThr(s, t, tx.(phase := Executing,
                                wset := tx.wset + [WriteElement(p.key, p.later, |s.heap|, p.rmw, false, p.new_)]))
               .(heap := s.heap + [FreshVersion(tx.ts, t)])
       else
         var v := tx.pool[|tx.pool| - 1];
         && Valid(s.heap, v)
         && s' == SetThr(s, t, tx.(phase := Executing, pool := tx.pool[..|tx.pool| - 1],
                                   wset := tx.wset + [WriteElement(p.key, p.later, v, p.rmw, false, p.new_)]))
                  .(heap := s.heap[v := FreshVersion(tx.ts, t)])
  }

  // -------------------------------------------------------------- validation

  /** Half of the write set moves to the front in key order. */
  ghost predicate PartialSort(ws: seq<WriteElement>, sorted: seq<WriteElement>) {
    && multiset(sorted) == multiset(ws)
    && forall i, j | 0 <= i < |sorted| / 2 && i < j < |sorted| :: sorted[i].key <= sorted[j].key
  }

  ghost predicate ValidateStart(s: State, s': State, t: nat, sorted: seq<WriteElement>)
    requires t < |s.thr|
  {
    var tx := s.thr[t];
    && tx.phase.Executing? && !tx.ronly && PartialSort(tx.wset, sorted)
    && s' == SetThr(s, t, tx.(phase := Precheck(0), wset := sorted))
  }

  /** The pre-check covers the first half, and may be omitted for a record whose last
      transactions all committed. */
  ghost predicate PreSkip(s: State, s': State, t: nat)
    requires t < |s.thr|
  {
    var tx := s.thr[t];
    && tx.phase.Precheck?
    && s' == SetPhase(s, t, if tx.phase.i < |tx.wset| / 2 then Precheck(tx.phase.i + 1) else Install(0, NIL))
  }

  ghost predicate PreStart(s: State, s': State, t: nat)
    requires t < |s.thr|
  {
    var tx := s.thr[t];
    && tx.phase.Precheck? && tx.phase.i < |tx.wset| / 2 && tx.wset[tx.phase.i].key < |s.recs|
    && var e := tx.wset[tx.phase.i];
       && !e.rmw
       && s' == SetPhase(s, t, PreSeek(tx.phase.i, if e.later != NIL then e.later else s.recs[e.key].latest))
  }

  ghost predicate PreRmw(s: State, s': State, t: nat)
    requires t < |s.thr|
  {
    var tx := s.thr[t];
    && tx.phase.Precheck? && tx.phase.i < |tx.wset| / 2 && tx.wset[tx.phase.i].key < |s.recs|
    && var e := tx.wset[tx.phase.i];
       && e.rmw && Valid(s.heap, s.recs[e.key].latest)
       && var v := s.heap[s.recs[e.key].latest];
          s' == SetPhase(s, t, if v.wts > tx.ts || v.rts > tx.ts then Aborting(0) else Precheck(tx.phase.i + 1))
  }

  ghost predicate PreNext(s: State, s': State, t: nat)
    requires t < |s.thr|
  {
    var tx := s.thr[t];
    && tx.phase.PreSeek? && tx.phase.i < |tx.wset| && Valid(s.heap, tx.phase.cur)
    && s.heap[tx.phase.cur].wts > tx.ts
    && s' == SetThr(s, t, tx.(phase := PreSeek(tx.phase.i, s.heap[tx.phase.cur].next),
                              wset := tx.wset[tx.phase.i := tx.wset[tx.phase.i].(later := tx.phase.cur)]))
  }

  ghost predicate PreReach(s: State, s': State, t: nat)
    requires t < |s.thr|
  {
    var tx := s.thr[t];
    && tx.phase.PreSeek? && Valid(s.heap, tx.phase.cur) && s.heap[tx.phase.cur].wts <= tx.ts
    && s' == SetPhase(s, t, PreWait(tx.phase.i, tx.phase.cur))
  }

  /** The pre-check does not wait: it walks past pending versions too. */
  ghost predicate PreDown(s: State, s': State, t: nat)
    requires t < |s.thr|
  {
    var tx := s.thr[t];
    && tx.phase.PreWait? && Valid(s.heap, tx.phase.cur) && !s.heap[tx.phase.cur].status.Committed?
    && s' == SetPhase(s, t, PreWait(tx.phase.i, s.heap[tx.phase.cur].next))
  }

  ghost predicate PreJudge(s: State, s': State, t: nat)
    requires t < |s.thr|
  {
    var tx := s.thr[t];
    && tx.phase.PreWait? && Valid(s.heap, tx.phase.cur) && s.heap[tx.phase.cur].status.Committed?
    && s' == SetPhase(s, t, if s.heap[tx.phase.cur].rts > tx.ts then Aborting(0) else Precheck(tx.phase.i + 1))
  }

  ghost predicate InstallAt(s: State, t: nat, i: nat)
    requires t < |s.thr|
  {
    i < |s.thr[t].wset| && s.thr[t].wset[i].key < |s.recs| && Valid(s.heap, s.thr[t].wset[i].ver)
  }

  ghost predicate InstallLoadRmw(s: State, s': State, t: nat)
    requires t < |s.thr|
  {
    var tx := s.thr[t];
    && tx.phase.Install? && InstallAt(s, t, tx.phase.i)
    && var e := tx.wset[tx.phase.i];
       && e.rmw && Valid(s.heap, s.recs[e.key].latest)
       && s' == SetPhase(s, t, if tx.ts < s.heap[s.recs[e.key].latest].wts then Aborting(0)
                               else InstallHead(tx.phase.i, s.recs[e.key].latest))
  }

  /** Where the search for the place of a blind write starts.  `exp` keeps its value
      from the previous attempt when the search starts inside the list. */
  ghost predicate InstallLoad(s: State, s': State, t: nat)
    requires t < |s.thr|
  {
    var tx := s.thr[t];
    && tx.phase.Install? && InstallAt(s, t, tx.phase.i)
    && var e := tx.wset[tx.phase.i];
       && !e.rmw
       && if e.later != NIL then
            && Valid(s.heap, e.later)
            && s' == SetPhase(s, t, InstallSeek(tx.phase.i, s.heap[e.later].next, tx.phase.exp))
          else
            s' == SetPhase(s, t, InstallSeek(tx.phase.i, s.recs[e.key].latest, s.recs[e.key].latest))
  }

  ghost predicate InstallNext(s: State, s': State, t: nat)
    requires t < |s.thr|
  {
    var tx := s.thr[t];
    && tx.phase.InstallSeek? && tx.phase.i < |tx.wset| && Valid(s.heap, tx.phase.cur)
    && s.heap[tx.phase.cur].wts > tx.ts
    && s' == SetThr(s, t, tx.(phase := InstallSeek(tx.phase.i, s.heap[tx.phase.cur].next, tx.phase.exp),
                              wset := tx.wset[tx.phase.i := tx.wset[tx.phase.i].(later := tx.phase.cur)]))
  }

  ghost predicate InstallDecide(s: State, s': State, t: nat)
    requires t < |s.thr|
  {
    var tx := s.thr[t];
    && tx.phase.InstallSeek? && Valid(s.heap, tx.phase.cur)
    && s.heap[tx.phase.cur].wts <= tx.ts && tx.phase.cur == tx.phase.exp
    && s' == SetPhase(s, t, InstallHead(tx.phase.i, tx.phase.exp))
  }

  function Installed(h: seq<Version>, v: int, k: Key, next: int, clock: nat): Version
    requires Valid(h, v)
  {
    h[v].(next := next, place := Listed(k), seqno := clock)
  }

  /** Compare-and-swap of the record's newest version. */
  ghost predicate CasHead(s: State, s': State, t: nat)
    requires t < |s.thr|
  {
    var tx := s.thr[t];
    && tx.phase.InstallHead? && InstallAt(s, t, tx.phase.i)
    && var e := tx.wset[tx.phase.i];
       && s.recs[e.key].latest == tx.phase.exp
       && s' == SetThr(s, t, tx.(phase := Install(tx.phase.i + 1, NIL),
                                 wset := tx.wset[tx.phase.i := e.(installed := true)]))
                .(heap := s.heap[e.ver := Installed(s.heap, e.ver, e.key, tx.phase.exp, s.clock)],
                  recs := s.recs[e.key := s.recs[e.key].(latest := e.ver)],
                  clock := s.clock + 1)
  }

  ghost predicate CasHeadFail(s: State, s': State, t: nat)
    requires t < |s.thr|
  {
    var tx := s.thr[t];
    && tx.phase.InstallHead? && InstallAt(s, t, tx.phase.i)
    && s.recs[tx.wset[tx.phase.i].key].latest != tx.phase.exp
    && s' == SetPhase(s, t, Install(tx.phase.i, s.recs[tx.wset[tx.phase.i].key].latest))
  }

  /** Compare-and-swap of the `next` of the last version passed. */
  ghost predicate CasMiddle(s: State, s': State, t: nat)
    requires t < |s.thr|
  {
    var tx := s.thr[t];
    && tx.phase.InstallSeek? && InstallAt(s, t, tx.phase.i) && Valid(s.heap, tx.phase.cur)
    && s.heap[tx.phase.cur].wts <= tx.ts && tx.phase.cur != tx.phase.exp
    && var e := tx.wset[tx.phase.i];
       && Valid(s.heap, e.later) && s.heap[e.later].next == tx.phase.cur
       && s' == SetThr(s, t, tx.(phase := Install(tx.phase.i + 1, NIL),
                                 wset := tx.wset[tx.phase.i := e.(installed := true)]))
                .(heap := s.heap[e.ver := Installed(s.heap, e.ver, e.key, tx.phase.cur, s.clock)]
                                [e.later := s.heap[e.later].(next := e.ver)],
                  clock := s.clock + 1)
  }

  ghost predicate CasMiddleFail(s: State, s': State, t: nat)
    requires t < |s.thr|
  {
    var tx := s.thr[t];
    && tx.phase.InstallSeek? && InstallAt(s, t, tx.phase.i) && Valid(s.heap, tx.phase.cur)
    && s.heap[tx.phase.cur].wts <= tx.ts && tx.phase.cur != tx.phase.exp
    && Valid(s.heap, tx.wset[tx.phase.i].later) && s.heap[tx.wset[tx.phase.i].later].next != tx.phase.cur
    && s' == SetPhase(s, t, Install(tx.phase.i, tx.phase.exp))
  }

  ghost predicate InstallEnd(s: State, s': State, t: nat)
    requires t < |s.thr|
  {
    && s.thr[t].phase.Install? && s.thr[t].phase.i == |s.thr[t].wset|
    && s' == SetPhase(s, t, Raise(0))
  }

  function RaiseTo(v: Version, ts: nat): Version {
    if v.rts > ts then v else v.(rts := ts)
  }

  ghost predicate RaiseOne(s: State, s': State, t: nat)
    requires t < |s.thr|
  {
    var tx := s.thr[t];
    && tx.phase.Raise? && tx.phase.i < |tx.rset| && Valid(s.heap, tx.rset[tx.phase.i].ver)
    && var v := tx.rset[tx.phase.i].ver;
       s' == SetPhase(s, t, Raise(tx.phase.i + 1)).(heap := s.heap[v := RaiseTo(s.heap[v], tx.ts)])
  }

  ghost predicate RaiseEnd(s: State, s': State, t: nat)
    requires t < |s.thr|
  {
    && s.thr[t].phase.Raise? && s.thr[t].phase.i == |s.thr[t].rset|
    && s' == SetPhase(s, t, Scan(0))
  }

  ghost predicate ScanStart(s: State, s': State, t: nat)
    requires t < |s.thr|
  {
    var tx := s.thr[t];
    && tx.phase.Scan? && tx.phase.i < |tx.rset| && tx.rset[tx.phase.i].key < |s.recs|
    && var r := tx.rset[tx.phase.i];
       s' == SetPhase(s, t, ScanSeek(tx.phase.i, if r.later != NIL then r.later else s.recs[r.key].latest))
  }

  ghost predicate ScanNext(s: State, s': State, t: nat)
    requires t < |s.thr|
  {
    var tx := s.thr[t];
    && tx.phase.ScanSeek? && Valid(s.heap, tx.phase.cur) && s.heap[tx.phase.cur].wts >= tx.ts
    && s' == SetPhase(s, t, ScanSeek(tx.phase.i, s.heap[tx.phase.cur].next))
  }

  ghost predicate ScanReach(s: State, s': State, t: nat)
    requires t < |s.thr|
  {
    var tx := s.thr[t];
    && tx.phase.ScanSeek? && Valid(s.heap, tx.phase.cur) && s.heap[tx.phase.cur].wts < tx.ts
    && s' == SetPhase(s, t, ScanWait(tx.phase.i, tx.phase.cur))
  }

  ghost predicate ScanDown(s: State, s': State, t: nat)
    requires t < |s.thr|
  {
    var tx := s.thr[t];
    && tx.phase.ScanWait? && Valid(s.heap, tx.phase.cur) && s.heap[tx.phase.cur].status.Aborted?
    && s' == SetPhase(s, t, ScanWait(tx.phase.i, s.heap[tx.phase.cur].next))
  }

  /** The version visible now must still be the one that was read. */
  ghost predicate ScanJudge(s: State, s': State, t: nat)
    requires t < |s.thr|
  {
    var tx := s.thr[t];
    && tx.phase.ScanWait? && tx.phase.i < |tx.rset| && Valid(s.heap, tx.phase.cur)
    && s.heap[tx.phase.cur].status.Committed?
    && s' == SetPhase(s, t, if tx.rset[tx.phase.i].ver == tx.phase.cur then Scan(tx.phase.i + 1) else Aborting(0))
  }

  ghost predicate ScanEnd(s: State, s': State, t: nat)
    requires t < |s.thr|
  {
    && s.thr[t].phase.Scan? && s.thr[t].phase.i == |s.thr[t].rset|
    && s' == SetPhase(s, t, Check(0))
  }

  ghost predicate CheckStart(s: State, s': State, t: nat)
    requires t < |s.thr|
  {
    var tx := s.thr[t];
    && tx.phase.Check? && tx.phase.i < |tx.wset| && Valid(s.heap, tx.wset[tx.phase.i].ver)
    && s' == SetPhase(s, t, CheckWait(tx.phase.i, s.heap[tx.wset[tx.phase.i].ver].next))
  }

  ghost predicate CheckDown(s: State, s': State, t: nat)
    requires t < |s.thr|
  {
    var tx := s.thr[t];
    && tx.phase.CheckWait? && Valid(s.heap, tx.phase.cur) && s.heap[tx.phase.cur].status.Aborted?
    && s' == SetPhase(s, t, CheckWait(tx.phase.i, s.heap[tx.phase.cur].next))
  }

  /** Nobody later may have read the version about to be overtaken. */
  ghost predicate CheckOk(s: State, s': State, t: nat)
    requires t < |s.thr|
  {
    var tx := s.thr[t];
    && tx.phase.CheckWait? && tx.phase.i < |tx.wset| && Valid(s.heap, tx.phase.cur)
    && Valid(s.heap, tx.wset[tx.phase.i].ver)
    && s.heap[tx.phase.cur].status.Committed? && s.heap[tx.phase.cur].rts <= tx.ts
    && var n := tx.wset[tx.phase.i].ver;
       s' == SetPhase(s, t, Check(tx.phase.i + 1)).(heap := s.heap[n := s.heap[n].(passed := true)])
  }

  ghost predicate CheckFail(s: State, s': State, t: nat)
    requires t < |s.thr|
  {
    var tx := s.thr[t];
    && tx.phase.CheckWait? && Valid(s.heap, tx.phase.cur)
    && s.heap[tx.phase.cur].status.Committed? && s.heap[tx.phase.cur].rts > tx.ts
    && s' == SetPhase(s, t, Aborting(0))
  }

  // ---------------------------------------------------------- commit and abort

  ghost predicate CommitPoint(s: State, s': State, t: nat)
    requires t < |s.thr|
  {
    var tx := s.thr[t];
    && tx.phase.Check? && tx.phase.i == |tx.wset| && DistinctReads(tx.rset) && DistinctWrites(tx.wset)
    && var st := Stamp(tx.ts, 0);
       s' == SetPhase(s, t, Committing(0))
             .(commits := s.commits[st := Txn(ReadMap(tx.rset), WriteMap(tx.wset))],
               sources := s.sources[st := SourceMap(tx.rset)])
  }

  ghost predicate CommitOne(s: State, s': State, t: nat)
    requires t < |s.thr|
  {
    var tx := s.thr[t];
    && tx.phase.Committing? && tx.phase.i < |tx.wset| && Valid(s.heap, tx.wset[tx.phase.i].ver)
    && var e := tx.wset[tx.phase.i];
       s' == SetThr(s, t, tx.(phase := Committing(tx.phase.i + 1), gcq := tx.gcq + [GcElement(e.key, e.ver, tx.ts)]))
             .(heap := s.heap[e.ver := s.heap[e.ver].(val := e.val, status := Committed)])
  }

  ghost predicate CommitEnd(s: State, s': State, t: nat)
    requires t < |s.thr|
  {
    && s.thr[t].phase.Committing? && s.thr[t].phase.i == |s.thr[t].wset|
    && s' == SetThr(s, t, s.thr[t].(phase := Maint, rset := [], wset := []))
  }

  ghost predicate AbortOne(s: State, s': State, t: nat)
    requires t < |s.thr|
  {
    var tx := s.thr[t];
    && tx.phase.Aborting? && tx.phase.i < |tx.wset| && Valid(s.heap, tx.wset[tx.phase.i].ver)
    && var e := tx.wset[tx.phase.i];
       if e.installed then
         s' == SetPhase(s, t, Aborting(tx.phase.i + 1))
               .(heap := s.heap[e.ver := s.heap[e.ver].(status := Aborted)])
       else
         s' == SetThr(s, t, tx.(phase := Aborting(tx.phase.i + 1), pool := tx.pool + [e.ver]))
               .(heap := s.heap[e.ver := s.heap[e.ver].(status := Unused, place := InPool(t))])
  }

  ghost predicate AbortEnd(s: State, s': State, t: nat)
    requires t < |s.thr|
  {
    && s.thr[t].phase.Aborting? && s.thr[t].phase.i == |s.thr[t].wset|
    && s' == SetThr(s, t, s.thr[t].(phase := Maint, rset := [], wset := []))
  }

  // ------------------------------------------------------- garbage collection

  ghost predicate MaintEnd(s: State, s': State, t: nat)
    requires t < |s.thr|
  {
    s.thr[t].phase.Maint? && s' == SetPhase(s, t, Idle)
  }

  ghost predicate GcCandidate(s: State, t: nat)
    requires t < |s.thr|
  {
    && s.thr[t].gcq != [] && s.thr[t].gcq[0].wts < s.minRts && s.thr[t].gcq[0].key < |s.recs|
  }

  /** Somebody else collects this record: forget the entry. */
  ghost predicate GcBusy(s: State, s': State, t: nat)
    requires t < |s.thr|
  {
    && s.thr[t].phase.Maint? && GcCandidate(s, t) && s.recs[s.thr[t].gcq[0].key].gcLock != 0
    && s' == SetThr(s, t, s.thr[t].(gcq := s.thr[t].gcq[1..]))
  }

  ghost predicate GcLock(s: State, s': State, t: nat)
    requires t < |s.thr|
  {
    && s.thr[t].phase.Maint? && GcCandidate(s, t) && s.recs[s.thr[t].gcq[0].key].gcLock == 0
    && var k := s.thr[t].gcq[0].key;
       s' == SetPhase(s, t, GcLocked).(recs := s.recs[k := s.recs[k].(gcLock := t + 1)])
  }

  ghost predicate GcFront(s: State, t: nat)
    requires t < |s.thr|
  {
    s.thr[t].gcq != [] && s.thr[t].gcq[0].key < |s.recs|
  }

  /** The list is already cut at or above this version: the entry may dangle. */
  ghost predicate GcSkip(s: State, s': State, t: nat)
    requires t < |s.thr|
  {
    && s.thr[t].phase.GcLocked? && GcFront(s, t)
    && var g := s.thr[t].gcq[0];
       && g.wts <= s.recs[g.key].minWts
       && s' == SetThr(s, t, s.thr[t].(phase := Maint, gcq := s.thr[t].gcq[1..]))
                .(recs := s.recs[g.key := s.recs[g.key].(gcLock := 0)])
  }

  ghost predicate GcLoad(s: State, s': State, t: nat)
    requires t < |s.thr|
  {
    && s.thr[t].phase.GcLocked? && GcFront(s, t)
    && var g := s.thr[t].gcq[0];
       && g.wts > s.recs[g.key].minWts && Valid(s.heap, g.ver)
       && s' == SetPhase(s, t, GcLoaded(s.heap[g.ver].next))
  }

  /** `h'` is `h` with version `b` made the last of the list of `k`; what was below belongs
      to the collecting thread. */
  ghost predicate Truncates(h: seq<Version>, h': seq<Version>, k: Key, b: int, t: nat) {
    && Valid(h, b) && |h'| == |h|
    && h'[b] == h[b].(next := NIL)
    && forall v | 0 <= v < |h| && v != b ::
         h'[v] == if h[v].place == Listed(k) && h[v].wts < h[b].wts then h[v].(place := Detached(t)) else h[v]
  }

  ghost predicate GcDetach(s: State, s': State, t: nat)
    requires t < |s.thr|
  {
    && s.thr[t].phase.GcLoaded? && GcFront(s, t)
    && var g := s.thr[t].gcq[0];
       && Truncates(s.heap, s'.heap, g.key, g.ver, t)
       && s' == SetPhase(s, t, GcCut(s.thr[t].phase.del))
                .(heap := s'.heap, recs := s.recs[g.key := s.recs[g.key].(bottom := g.ver)])
  }

  ghost predicate GcTag(s: State, s': State, t: nat)
    requires t < |s.thr|
  {
    && s.thr[t].phase.GcCut? && GcFront(s, t) && Valid(s.heap, s.thr[t].gcq[0].ver)
    && var g := s.thr[t].gcq[0];
       s' == SetPhase(s, t, GcPush(s.thr[t].phase.del))
             .(recs := s.recs[g.key := s.recs[g.key].(minWts := s.heap[g.ver].wts)])
  }

  ghost predicate GcPushOne(s: State, s': State, t: nat)
    requires t < |s.thr|
  {
    var tx := s.thr[t];
    && tx.phase.GcPush? && Valid(s.heap, tx.phase.del)
    && var d := tx.phase.del;
       s' == SetThr(s, t, tx.(phase := GcPush(s.heap[d].next), pool := tx.pool + [d]))
             .(heap := s.heap[d := s.heap[d].(place := InPool(t))])
  }

  ghost predicate GcUnlock(s: State, s': State, t: nat)
    requires t < |s.thr|
  {
    && s.thr[t].phase.GcPush? && s.thr[t].phase.del == NIL && GcFront(s, t)
    && var k := s.thr[t].gcq[0].key;
       s' == SetThr(s, t, s.thr[t].(phase := Maint, gcq := s.thr[t].gcq[1..]))
             .(recs := s.recs[k := s.recs[k].(gcLock := 0)])
  }

  // ------------------------------------ thread 0 between its own transactions

  function Min(a: nat, b: nat): nat { if b < a then b else a }

  ghost predicate LeadStart(s: State, s': State, t: nat)
    requires t < |s.thr|
  {
    && t == 0 && s.thr[t].phase.Idle? && |s.threadWts| > 0
    && s' == SetPhase(s, t, LeadRts(s.threadWts[0]))
  }

  ghost predicate LeadFirstRts(s: State, s': State, t: nat)
    requires t < |s.thr|
  {
    && s.thr[t].phase.LeadRts? && |s.threadRts| > 0
    && s' == SetPhase(s, t, LeadScan(1, s.thr[t].phase.minw, s.threadRts[0]))
  }

  ghost predicate LeadWts(s: State, s': State, t: nat)
    requires t < |s.thr|
  {
    var p := s.thr[t].phase;
    && p.LeadScan? && p.i < |s.threadWts|
    && s' == SetPhase(s, t, LeadScanRts(p.i, Min(p.minw, s.threadWts[p.i]), p.minr))
  }

  ghost predicate LeadNextRts(s: State, s': State, t: nat)
    requires t < |s.thr|
  {
    var p := s.thr[t].phase;
    && p.LeadScanRts? && p.i < |s.threadRts|
    && s' == SetPhase(s, t, LeadScan(p.i + 1, p.minw, Min(p.minr, s.threadRts[p.i])))
  }

  ghost predicate PublishWts(s: State, s': State, t: nat)
    requires t < |s.thr|
  {
    var p := s.thr[t].phase;
    && p.LeadScan? && p.i >= |s.threadWts|
    && s' == SetPhase(s, t, LeadPublish(p.minr)).(minWts := p.minw)
  }

  ghost predicate PublishRts(s: State, s': State, t: nat)
    requires t < |s.thr|
  {
    && s.thr[t].phase.LeadPublish?
    && s' == SetPhase(s, t, Idle).(minRts := s.thr[t].phase.minr)
  }

  // ------------------------------------------------------------------- runs

  ghost predicate BeginStep(s: State, s': State, t: nat)
    requires t < |s.thr|
  {
    || (exists ts, ronly :: Generate(s, s', t, ts, ronly))
    || StoreWts(s, s', t) || LoadMinWts(s, s', t) || StoreRts(s, s', t)
  }

  ghost predicate ReadStep(s: State, s': State, t: nat)
    requires t < |s.thr|
  {
    || (exists k :: ReadStart(s, s', t, k))
    || ReadNext(s, s', t) || ReadReach(s, s', t) || ReadDown(s, s', t) || ReadTake(s, s', t)
    || ReadOnlyEnd(s, s', t)
  }

  ghost predicate WriteStep(s: State, s': State, t: nat)
    requires t < |s.thr|
  {
    || (exists k, new_ :: WriteStart(s, s', t, k, new_))
    || (exists k, new_ :: WriteStartRmw(s, s', t, k, new_))
    || WriteNext(s, s', t) || WriteReach(s, s', t) || WriteAbort(s, s', t) || WriteAlloc(s, s', t)
  }

  ghost predicate PrecheckStep(s: State, s': State, t: nat)
    requires t < |s.thr|
  {
    || (exists sorted :: ValidateStart(s, s', t, sorted))
    || PreSkip(s, s', t) || PreStart(s, s', t) || PreRmw(s, s', t) || PreNext(s, s', t)
    || PreReach(s, s', t) || PreDown(s, s', t) || PreJudge(s, s', t)
  }

  ghost predicate InstallStep(s: State, s': State, t: nat)
    requires t < |s.thr|
  {
    || InstallLoadRmw(s, s', t) || InstallLoad(s, s', t) || InstallNext(s, s', t) || InstallDecide(s, s', t)
    || CasHead(s, s', t) || CasHeadFail(s, s', t) || CasMiddle(s, s', t) || CasMiddleFail(s, s', t)
    || InstallEnd(s, s', t)
  }

  ghost predicate CertifyStep(s: State, s': State, t: nat)
    requires t < |s.thr|
  {
    || RaiseOne(s, s', t) || RaiseEnd(s, s', t)
    || ScanStart(s, s', t) || ScanNext(s, s', t) || ScanReach(s, s', t) || ScanDown(s, s', t)
    || ScanJudge(s, s', t) || ScanEnd(s, s', t)
    || CheckStart(s, s', t) || CheckDown(s, s', t) || CheckOk(s, s', t) || CheckFail(s, s', t)
  }

  ghost predicate OutcomeStep(s: State, s': State, t: nat)
    requires t < |s.thr|
  {
    || CommitPoint(s, s', t) || CommitOne(s, s', t) || CommitEnd(s, s', t)
    || AbortOne(s, s', t) || AbortEnd(s, s', t)
  }

  ghost predicate GcStep(s: State, s': State, t: nat)
    requires t < |s.thr|
  {
    || MaintEnd(s, s', t) || GcBusy(s, s', t) || GcLock(s, s', t) || GcSkip(s, s', t) || GcLoad(s, s', t)
    || GcDetach(s, s', t) || GcTag(s, s', t) || GcPushOne(s, s', t) || GcUnlock(s, s', t)
  }

  ghost predicate LeaderStep(s: State, s': State, t: nat)
    requires t < |s.thr|
  {
    || LeadStart(s, s', t) || LeadFirstRts(s, s', t) || LeadWts(s, s', t) || LeadNextRts(s, s', t)
    || PublishWts(s, s', t) || PublishRts(s, s', t)
  }

  ghost predicate StepBy(s: State, s': State, t: nat) {
    && t < |s.thr|
    && (BeginStep(s, s', t) || ReadStep(s, s', t) || WriteStep(s, s', t) || PrecheckStep(s, s', t)
        || InstallStep(s, s', t) || CertifyStep(s, s', t) || OutcomeStep(s, s', t) || GcStep(s, s', t)
        || LeaderStep(s, s', t))
  }

  ghost predicate Next(s: State, s': State) {
    exists t: nat :: StepBy(s, s', t)
  }

  /** One committed version per record, stamped below every thread's first timestamp;
      any further versions wait in the threads' reuse pools. */
  ghost predicate Init(s: State) {
    && |s.recs| <= |s.heap|
    && (forall k | 0 <= k < |s.recs| ::
          && s.recs[k] == Record(k, s.initTs, 0, k, s.recs[k].init)
          && s.heap[k] == Version(s.initTs, 0, NIL, Committed, s.recs[k].init, Listed(k), 0, true))
    && (forall v | |s.recs| <= v < |s.heap| ::
          && s.heap[v].place.InPool? && s.heap[v].place.t < |s.thr|
          && v in s.thr[s.heap[v].place.t].pool)
    && 0 < |s.thr| < TID_SPACE && |s.threadWts| == |s.thr| && |s.threadRts| == |s.thr|
    && s.minWts == s.initTs + 2 && s.minRts == 0
    && (forall t | 0 <= t < |s.thr| ::
          && s.thr[t].phase.Idle? && s.thr[t].rset == [] && s.thr[t].wset == [] && s.thr[t].gcq == []
          && s.thr[t].ts % TID_SPACE == t && s.minWts <= s.thr[t].ts == s.threadWts[t] && s.threadRts[t] == 0
          && (forall i, j | 0 <= i < j < |s.thr[t].pool| :: s.thr[t].pool[i] != s.thr[t].pool[j])
          && (forall j | 0 <= j < |s.thr[t].pool| ::
                Valid(s.heap, s.thr[t].pool[j]) && s.heap[s.thr[t].pool[j]].place == InPool(t)))
    && s.commits == map[] && s.sources == map[] && s.snaps == {} && s.clock == 1
  }
}
