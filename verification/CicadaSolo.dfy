/** An executor of Cicada that nobody is in the way of, and that runs alone, gets through
    its validation and commits. */
module CicadaSolo {
  import opened SerialExecution
  import opened Runs
  import opened Cicada
  import opened CicadaInvariant
  import opened CicadaThreads
  import opened CicadaLists
  import opened CicadaValidation
  import opened CicadaReachable
  import opened CicadaSerializability
  import opened CicadaAborts

  /** What lies between timestamps `w` and `ts` on the list of `k` is aborted. */
  ghost predicate NothingSince(h: seq<Version>, k: Key, w: nat, ts: nat) {
    forall u: int | On(h, u, k) && w < h[u].wts < ts :: h[u].status.Aborted?
  }

  /** The visible version below `ts`, not above `bound`, was not read later than `ts`. */
  ghost predicate Overtakable(h: seq<Version>, k: Key, bound: nat, ts: nat) {
    exists v: int :: On(h, v, k) && OvertakableAt(h, k, v, ts) && h[v].wts <= bound
  }

  ghost predicate OvertakableAt(h: seq<Version>, k: Key, v: int, ts: nat)
    requires Valid(h, v)
  {
    h[v].status.Committed? && h[v].wts < ts && h[v].rts <= ts && NothingSince(h, k, h[v].wts, ts)
  }

  /** The reads are the newest below the transaction, what was read before writing has got no
      newer version, and nobody later has read a version the writes overtake. */
  ghost predicate Unopposed(s: State, tx: Executor) {
    && (forall j | 0 <= j < |tx.rset| :: NothingSince(s.heap, tx.rset[j].key, tx.rset[j].wts, tx.ts))
    && (forall j | 0 <= j < |tx.wset| && tx.wset[j].rmw :: !NewerHead(s, tx.wset[j].key, tx.ts))
    && (forall j | 0 <= j < |tx.wset| :: Overtakable(s.heap, tx.wset[j].key, tx.ts, tx.ts))
  }

  // ---------------------------------------------------- what its own steps change

  /** Listed versions stay as they are, but that read timestamps may rise to `ts`; what is new
      on a list carries `ts`. */
  ghost predicate QuietHeap(h: seq<Version>, h': seq<Version>, ts: nat) {
    && |h'| == |h|
    && (forall u | 0 <= u < |h| && h[u].place.Listed? ::
          && h'[u].place == h[u].place && h'[u].wts == h[u].wts && h'[u].status == h[u].status
          && (h'[u].rts == h[u].rts || h'[u].rts <= ts))
    && (forall u | 0 <= u < |h| && h'[u].place.Listed? && !h[u].place.Listed? :: h'[u].wts == ts)
  }

  ghost predicate Quiet(s: State, s': State, tx: Executor) {
    && QuietHeap(s.heap, s'.heap, tx.ts) && |s'.recs| == |s.recs|
    && forall k | 0 <= k < |s.recs| :: s'.recs[k].latest == s.recs[k].latest
                                       || (Valid(s'.heap, s'.recs[k].latest) && s'.heap[s'.recs[k].latest].wts == tx.ts)
  }

  lemma NothingSinceStays(h: seq<Version>, h': seq<Version>, k: Key, w: nat, ts: nat)
    requires NothingSince(h, k, w, ts) && QuietHeap(h, h', ts)
    ensures NothingSince(h', k, w, ts)
  {
    forall u: int | On(h', u, k) && w < h'[u].wts < ts ensures h'[u].status.Aborted? {
      assert On(h, u, k);
    }
  }

  lemma OvertakableStays(h: seq<Version>, h': seq<Version>, k: Key, bound: nat, ts: nat)
    requires Overtakable(h, k, bound, ts) && QuietHeap(h, h', ts)
    ensures Overtakable(h', k, bound, ts)
  {
    var v: int :| On(h, v, k) && OvertakableAt(h, k, v, ts) && h[v].wts <= bound;
    NothingSinceStays(h, h', k, h[v].wts, ts);
    assert On(h', v, k) && OvertakableAt(h', k, v, ts);
  }

  lemma UnopposedStays(s: State, s': State, tx: Executor, tx': Executor)
    requires Unopposed(s, tx) && Quiet(s, s', tx) && Kept(tx, tx')
    requires forall j | 0 <= j < |tx.wset| :: tx.wset[j].key < |s.recs| && HeadListed(s, tx.wset[j].key)
    ensures Unopposed(s', tx')
  {
    forall j | 0 <= j < |tx'.rset| ensures NothingSince(s'.heap, tx'.rset[j].key, tx'.rset[j].wts, tx'.ts) {
      NothingSinceStays(s.heap, s'.heap, tx.rset[j].key, tx.rset[j].wts, tx.ts);
    }
    forall j | 0 <= j < |tx'.wset|
      ensures tx'.wset[j].rmw ==> !NewerHead(s', tx'.wset[j].key, tx'.ts)
      ensures Overtakable(s'.heap, tx'.wset[j].key, tx'.ts, tx'.ts)
    {
      assert SameWrite(tx.wset[j], tx'.wset[j]);
      OvertakableStays(s.heap, s'.heap, tx.wset[j].key, tx.ts, tx.ts);
    }
  }

  /** The newest version of a record is on a list. */
  ghost predicate HeadListed(s: State, k: Key)
    requires k < |s.recs|
  {
    OnList(s.heap, s.recs[k].latest)
  }

  // ------------------------------------------------------------------ progress

  /** Where an executor alone stands between the start of the installation and the end of
      the checks. */
  ghost predicate OnTrack(s: State, t: nat)
    requires t < |s.thr|
  {
    var tx, p := s.thr[t], s.thr[t].phase;
    && (Installing(p) || p.Raise? || Scanning(p) || Checking(p))
    && (p.Install? ==> p.exp == NIL)
    && (p.InstallHead? || p.InstallSeek? ==> p.i < |tx.wset| && tx.wset[p.i].key < |s.recs|)
    && (p.InstallHead? ==> p.exp == s.recs[tx.wset[p.i].key].latest)
    && (p.InstallSeek? ==> PlaceKnown(s, tx.wset[p.i], p.cur, p.exp))
    && (p.CheckWait? ==> p.i < |tx.wset| && Valid(s.heap, p.cur)
                         && Overtakable(s.heap, tx.wset[p.i].key, s.heap[p.cur].wts, tx.ts))
  }

  /** The head remembered, if any, is the head; the last version passed leads to `cur`. */
  ghost predicate PlaceKnown(s: State, e: WriteElement, cur: int, exp: int)
    requires e.key < |s.recs|
  {
    && (exp == NIL || exp == s.recs[e.key].latest)
    && (e.later != NIL ==> Valid(s.heap, e.later) && s.heap[e.later].next == cur)
  }

  ghost predicate Ready(s: State, t: nat) {
    BaseInv(s) && t < |s.thr| && Unopposed(s, s.thr[t]) && OnTrack(s, t)
  }

  predicate Through(tx: Executor) { tx.phase == Check(|tx.wset|) }

  /** What is left to do of a validation of `w` writes and `r` reads. */
  function Left(p: Phase, w: nat, r: nat): int {
    match p
    case Install(i, _) => 2 * w + 4 * r + 3 + 3 * (w - i)
    case InstallSeek(i, _, _) => 2 * w + 4 * r + 2 + 3 * (w - i)
    case InstallHead(i, _) => 2 * w + 4 * r + 1 + 3 * (w - i)
    case Raise(i) => 2 * w + 3 * r + 2 + (r - i)
    case Scan(i) => 2 * w + 1 + 3 * (r - i)
    case ScanSeek(i, _) => 2 * w + 3 * (r - i)
    case ScanWait(i, _) => 2 * w - 1 + 3 * (r - i)
    case Check(i) => 2 * (w - i)
    case CheckWait(i, _) => 2 * (w - i) - 1
    case _ => 0
  }

  /** How far down a list the executor may still have to go. */
  function Depth(h: seq<Version>, p: Phase): nat {
    if (p.InstallSeek? || p.ScanSeek? || p.ScanWait? || p.CheckWait?) && Valid(h, p.cur) then h[p.cur].wts + 1 else 0
  }

  ghost predicate Nearer(s: State, s': State, t: nat)
    requires t < |s.thr| && t < |s'.thr|
  {
    var a, b := s.thr[t], s'.thr[t];
    var x, y := Left(a.phase, |a.wset|, |a.rset|), Left(b.phase, |b.wset|, |b.rset|);
    0 <= y < x || (y == x && Depth(s'.heap, b.phase) < Depth(s.heap, a.phase))
  }

  /** What each step below establishes. */
  ghost predicate Goes(s: State, s': State, t: nat)
    requires t < |s.thr|
  {
    && StepBy(s, s', t) && |s'.thr| == |s.thr| && Kept(s.thr[t], s'.thr[t]) && Quiet(s, s', s.thr[t])
    && OnTrack(s', t) && Nearer(s, s', t)
  }

  lemma HeadOf(s: State, k: Key)
    requires BaseInv(s) && k < |s.recs|
    ensures ListInv(s.heap, s.recs[k], k)
  {
  }

  /** Above the snapshot of a transaction, or when not committed, a version is not the last. */
  lemma GoesDown(s: State, t: nat, k: Key, v: int)
    requires BaseInv(s) && t < |s.thr| && Active(s.thr[t].phase) && k < |s.recs| && SafePtr(s.heap, k, s.thr[t].rts, v)
    requires s.heap[v].wts > s.thr[t].rts || !s.heap[v].status.Committed?
    ensures On(s.heap, s.heap[v].next, k) && s.heap[s.heap[v].next].wts < s.heap[v].wts
    ensures forall u: int | On(s.heap, u, k) && s.heap[u].wts < s.heap[v].wts :: s.heap[u].wts <= s.heap[s.heap[v].next].wts
  {
    BottomVisible(s, t, k);
    if s.heap[v].status.Committed? {
      WalkNext(s.heap, s.recs[k], k, s.thr[t].rts, v);
    } else {
      WalkDown(s.heap, s.recs[k], k, s.thr[t].rts, v);
    }
  }

  /** A step that only moves the phase. */
  lemma PhaseGoes(s: State, t: nat, p: Phase)
    requires t < |s.thr| && StepBy(s, SetPhase(s, t, p), t) && OnTrack(SetPhase(s, t, p), t) && Nearer(s, SetPhase(s, t, p), t)
    ensures Goes(s, SetPhase(s, t, p), t)
  {
  }

  // For each phase: what the step needs to know (derived from the invariant), and the step.

  ghost predicate InstallReady(s: State, t: nat)
    requires t < |s.thr|
  {
    var tx, p := s.thr[t], s.thr[t].phase;
    && p.Install? && p.exp == NIL && p.i <= |tx.wset|
    && (p.i < |tx.wset| ==>
          && InstallAt(s, t, p.i)
          && var e := tx.wset[p.i];
             && Valid(s.heap, s.recs[e.key].latest) && (e.later != NIL ==> Valid(s.heap, e.later))
             && (e.rmw ==> s.heap[s.recs[e.key].latest].wts <= tx.ts))
  }

  lemma InstallFacts(s: State, t: nat)
    requires Ready(s, t) && s.thr[t].phase.Install?
    ensures InstallReady(s, t)
  {
    var tx, i := s.thr[t], s.thr[t].phase.i;
    ThreadOf(s, t);
    if i < |tx.wset| {
      WriteFacts(s, t, i);
      HeadOf(s, tx.wset[i].key);
    }
  }

  lemma InstallMoves(s: State, t: nat) returns (s': State)
    requires t < |s.thr| && InstallReady(s, t)
    ensures Goes(s, s', t)
  {
    var tx, i := s.thr[t], s.thr[t].phase.i;
    if i == |tx.wset| {
      s' := SetPhase(s, t, Raise(0));
      assert InstallEnd(s, s', t);
      PhaseGoes(s, t, Raise(0));
      return;
    }
    var e := tx.wset[i];
    if e.rmw {
      s' := SetPhase(s, t, InstallHead(i, s.recs[e.key].latest));
      assert InstallLoadRmw(s, s', t);
      PhaseGoes(s, t, InstallHead(i, s.recs[e.key].latest));
    } else {
      var p := if e.later != NIL then InstallSeek(i, s.heap[e.later].next, NIL)
               else InstallSeek(i, s.recs[e.key].latest, s.recs[e.key].latest);
      s' := SetPhase(s, t, p);
      assert InstallLoad(s, s', t);
      PhaseGoes(s, t, p);
    }
  }

  ghost predicate HeadReady(s: State, t: nat)
    requires t < |s.thr|
  {
    var tx, p := s.thr[t], s.thr[t].phase;
    && p.InstallHead? && InstallAt(s, t, p.i)
    && var e := tx.wset[p.i];
       s.recs[e.key].latest == p.exp && s.heap[e.ver].wts == tx.ts && !s.heap[e.ver].place.Listed?
  }

  lemma HeadFacts(s: State, t: nat)
    requires Ready(s, t) && s.thr[t].phase.InstallHead?
    ensures HeadReady(s, t)
  {
    WriteFacts(s, t, s.thr[t].phase.i);
  }

  lemma HeadMoves(s: State, t: nat) returns (s': State)
    requires t < |s.thr| && HeadReady(s, t)
    ensures Goes(s, s', t)
  {
    var tx, i := s.thr[t], s.thr[t].phase.i;
    var e := tx.wset[i];
    s' := SetThr(s, t, tx.(phase := Install(i + 1, NIL), wset := tx.wset[i := e.(installed := true)]))
          .(heap := s.heap[e.ver := Installed(s.heap, e.ver, e.key, tx.phase.exp, s.clock)],
            recs := s.recs[e.key := s.recs[e.key].(latest := e.ver)], clock := s.clock + 1);
    assert CasHead(s, s', t);
  }

  /** There is an older version than the one at `cur`. */
  ghost predicate Older(h: seq<Version>, cur: int) {
    Valid(h, cur) && Valid(h, h[cur].next) && h[h[cur].next].wts < h[cur].wts
  }

  ghost predicate SeekReady(s: State, t: nat)
    requires t < |s.thr|
  {
    var tx, p := s.thr[t], s.thr[t].phase;
    && p.InstallSeek? && InstallAt(s, t, p.i) && Valid(s.heap, p.cur)
    && var e := tx.wset[p.i];
       && s.heap[e.ver].wts == tx.ts && !s.heap[e.ver].place.Listed? && PlaceKnown(s, e, p.cur, p.exp)
       && (e.later == NIL ==> p.cur == p.exp) && (e.later != NIL ==> e.later != e.ver)
       && (s.heap[p.cur].wts > tx.ts ==> Older(s.heap, p.cur))
  }

  lemma SeekFacts(s: State, t: nat)
    requires Ready(s, t) && s.thr[t].phase.InstallSeek?
    ensures SeekReady(s, t)
  {
    var tx, p := s.thr[t], s.thr[t].phase;
    WriteFacts(s, t, p.i);
    ThreadOf(s, t);
    BottomVisible(s, t, tx.wset[p.i].key);
    if s.heap[p.cur].wts > tx.ts {
      GoesDown(s, t, tx.wset[p.i].key, p.cur);
    }
  }

  lemma SeekMoves(s: State, t: nat) returns (s': State)
    requires t < |s.thr| && SeekReady(s, t)
    ensures Goes(s, s', t)
  {
    var tx, i, cur := s.thr[t], s.thr[t].phase.i, s.thr[t].phase.cur;
    if s.heap[cur].wts > tx.ts {
      s' := SetThr(s, t, tx.(phase := InstallSeek(i, s.heap[cur].next, tx.phase.exp),
                             wset := tx.wset[i := tx.wset[i].(later := cur)]));
      assert InstallNext(s, s', t);
    } else if cur == tx.phase.exp {
      s' := SetPhase(s, t, InstallHead(i, cur));
      assert InstallDecide(s, s', t);
      PhaseGoes(s, t, InstallHead(i, cur));
    } else {
      s' := MiddleMoves(s, t);
    }
  }

  lemma MiddleMoves(s: State, t: nat) returns (s': State)
    requires t < |s.thr| && SeekReady(s, t)
    requires s.heap[s.thr[t].phase.cur].wts <= s.thr[t].ts && s.thr[t].phase.cur != s.thr[t].phase.exp
    ensures Goes(s, s', t)
  {
    var tx, i, e := s.thr[t], s.thr[t].phase.i, s.thr[t].wset[s.thr[t].phase.i];
    s' := SetThr(s, t, tx.(phase := Install(i + 1, NIL), wset := tx.wset[i := e.(installed := true)]))
          .(heap := s.heap[e.ver := Installed(s.heap, e.ver, e.key, tx.phase.cur, s.clock)]
                          [e.later := s.heap[e.later].(next := e.ver)],
            clock := s.clock + 1);
    assert CasMiddle(s, s', t);
  }

  ghost predicate RaiseReady(s: State, t: nat)
    requires t < |s.thr|
  {
    var tx, p := s.thr[t], s.thr[t].phase;
    (p.Raise? || p.Scan?) && p.i <= |tx.rset|
    && (p.i < |tx.rset| ==> Valid(s.heap, tx.rset[p.i].ver) && tx.rset[p.i].key < |s.recs|)
  }

  lemma RaiseFacts(s: State, t: nat)
    requires Ready(s, t) && (s.thr[t].phase.Raise? || s.thr[t].phase.Scan?)
    ensures RaiseReady(s, t)
  {
    ThreadOf(s, t);
    if s.thr[t].phase.i < |s.thr[t].rset| {
      ReadFacts(s, t, s.thr[t].phase.i);
    }
  }

  lemma RaiseMoves(s: State, t: nat) returns (s': State)
    requires t < |s.thr| && RaiseReady(s, t) && s.thr[t].phase.Raise?
    ensures Goes(s, s', t)
  {
    var tx, i := s.thr[t], s.thr[t].phase.i;
    if i < |tx.rset| {
      var v := tx.rset[i].ver;
      s' := SetPhase(s, t, Raise(i + 1)).(heap := s.heap[v := RaiseTo(s.heap[v], tx.ts)]);
      assert RaiseOne(s, s', t);
    } else {
      s' := SetPhase(s, t, Scan(0));
      assert RaiseEnd(s, s', t);
      PhaseGoes(s, t, Scan(0));
    }
  }

  lemma ScanStartMoves(s: State, t: nat) returns (s': State)
    requires t < |s.thr| && RaiseReady(s, t) && s.thr[t].phase.Scan?
    ensures Goes(s, s', t)
  {
    var tx, i := s.thr[t], s.thr[t].phase.i;
    if i < |tx.rset| {
      var r := tx.rset[i];
      var p := ScanSeek(i, if r.later != NIL then r.later else s.recs[r.key].latest);
      s' := SetPhase(s, t, p);
      assert ScanStart(s, s', t);
      PhaseGoes(s, t, p);
    } else {
      s' := SetPhase(s, t, Check(0));
      assert ScanEnd(s, s', t);
      PhaseGoes(s, t, Check(0));
    }
  }

  ghost predicate ScanReady(s: State, t: nat)
    requires t < |s.thr|
  {
    var tx, p := s.thr[t], s.thr[t].phase;
    && (p.ScanSeek? || p.ScanWait?) && p.i < |tx.rset| && Valid(s.heap, p.cur)
    && (p.ScanSeek? && s.heap[p.cur].wts >= tx.ts ==> Older(s.heap, p.cur))
    && (p.ScanWait? ==> if p.cur == tx.rset[p.i].ver then s.heap[p.cur].status.Committed?
                        else s.heap[p.cur].status.Aborted? && Older(s.heap, p.cur))
  }

  lemma ScanPlace(s: State, t: nat)
    requires Ready(s, t) && (s.thr[t].phase.ScanSeek? || s.thr[t].phase.ScanWait?)
    ensures s.thr[t].phase.i < |s.thr[t].rset| && s.thr[t].rset[s.thr[t].phase.i].key < |s.recs|
    ensures var r := s.thr[t].rset[s.thr[t].phase.i];
            && ReadOk(s.heap, s.thr[t], r) && SafePtr(s.heap, r.key, s.thr[t].rts, s.thr[t].phase.cur)
            && s.heap[r.ver].wts <= s.heap[s.thr[t].phase.cur].wts
            && ListInv(s.heap, s.recs[r.key], r.key)
    ensures s.thr[t].phase.ScanWait? ==> s.heap[s.thr[t].phase.cur].wts < s.thr[t].ts
    ensures s.thr[t].rts < s.thr[t].ts
  {
    ThreadOf(s, t);
    var i := s.thr[t].phase.i;
    ReadFacts(s, t, i);
    BottomVisible(s, t, s.thr[t].rset[i].key);
  }

  lemma ScanFacts(s: State, t: nat)
    requires Ready(s, t) && (s.thr[t].phase.ScanSeek? || s.thr[t].phase.ScanWait?)
    ensures ScanReady(s, t)
  {
    ScanPlace(s, t);
    var tx, p := s.thr[t], s.thr[t].phase;
    var r := tx.rset[p.i];
    assert NothingSince(s.heap, r.key, r.wts, tx.ts);
    if p.ScanSeek? && s.heap[p.cur].wts >= tx.ts {
      GoesDown(s, t, r.key, p.cur);
    } else if p.ScanWait? && p.cur != r.ver {
      assert s.heap[p.cur].wts != s.heap[r.ver].wts;
      GoesDown(s, t, r.key, p.cur);
    }
  }

  lemma ScanSeekMoves(s: State, t: nat) returns (s': State)
    requires t < |s.thr| && ScanReady(s, t) && s.thr[t].phase.ScanSeek?
    ensures Goes(s, s', t)
  {
    var tx, i, cur := s.thr[t], s.thr[t].phase.i, s.thr[t].phase.cur;
    if s.heap[cur].wts >= tx.ts {
      s' := SetPhase(s, t, ScanSeek(i, s.heap[cur].next));
      assert ScanNext(s, s', t);
      PhaseGoes(s, t, ScanSeek(i, s.heap[cur].next));
    } else {
      s' := SetPhase(s, t, ScanWait(i, cur));
      assert ScanReach(s, s', t);
      PhaseGoes(s, t, ScanWait(i, cur));
    }
  }

  lemma ScanWaitMoves(s: State, t: nat) returns (s': State)
    requires t < |s.thr| && ScanReady(s, t) && s.thr[t].phase.ScanWait?
    ensures Goes(s, s', t)
  {
    var tx, i, cur := s.thr[t], s.thr[t].phase.i, s.thr[t].phase.cur;
    if cur == tx.rset[i].ver {
      s' := SetPhase(s, t, Scan(i + 1));
      assert ScanJudge(s, s', t);
      PhaseGoes(s, t, Scan(i + 1));
    } else {
      s' := SetPhase(s, t, ScanWait(i, s.heap[cur].next));
      assert ScanDown(s, s', t);
      PhaseGoes(s, t, ScanWait(i, s.heap[cur].next));
    }
  }

  /** The version below `v` is not below one that can be overtaken. */
  ghost predicate OlderOvertakable(h: seq<Version>, k: Key, v: int, ts: nat) {
    Older(h, v) && Overtakable(h, k, h[h[v].next].wts, ts)
  }

  ghost predicate CheckReady(s: State, t: nat)
    requires t < |s.thr|
  {
    var tx, p := s.thr[t], s.thr[t].phase;
    && Checking(p) && p.i < |tx.wset| && Valid(s.heap, tx.wset[p.i].ver)
    && var e := tx.wset[p.i];
       && (p.Check? ==> OlderOvertakable(s.heap, e.key, e.ver, tx.ts))
       && (p.CheckWait? ==>
             && Valid(s.heap, p.cur)
             && if s.heap[p.cur].status.Committed? then s.heap[p.cur].rts <= tx.ts
                else s.heap[p.cur].status.Aborted? && OlderOvertakable(s.heap, e.key, p.cur, tx.ts))
  }

  lemma CheckPlaces(s: State, t: nat)
    requires Ready(s, t) && Checking(s.thr[t].phase) && !Through(s.thr[t])
    ensures s.thr[t].phase.i < |s.thr[t].wset|
    ensures var e := s.thr[t].wset[s.thr[t].phase.i];
            && On(s.heap, e.ver, e.key) && e.key < |s.recs| && ListInv(s.heap, s.recs[e.key], e.key)
            && s.heap[e.ver].wts == s.thr[t].ts && s.heap[e.ver].status.Pending?
            && (s.thr[t].phase.CheckWait? ==>
                  && SafePtr(s.heap, e.key, s.thr[t].rts, s.thr[t].phase.cur)
                  && s.heap[s.thr[t].phase.cur].wts < s.thr[t].ts)
            && SafePtr(s.heap, e.key, s.thr[t].rts, e.ver)
    ensures Active(s.thr[t].phase)
  {
    ThreadOf(s, t);
    WriteFacts(s, t, s.thr[t].phase.i);
    BottomVisible(s, t, s.thr[t].wset[s.thr[t].phase.i].key);
  }

  /** Going down from anything newer does not pass it. */
  lemma StillOvertakable(s: State, t: nat, k: Key, p: int, v: int)
    requires BaseInv(s) && t < |s.thr| && Active(s.thr[t].phase) && k < |s.recs| && SafePtr(s.heap, k, s.thr[t].rts, p)
    requires !s.heap[p].status.Committed?
    requires On(s.heap, v, k) && OvertakableAt(s.heap, k, v, s.thr[t].ts) && s.heap[v].wts < s.heap[p].wts
    ensures OlderOvertakable(s.heap, k, p, s.thr[t].ts)
  {
    GoesDown(s, t, k, p);
  }

  lemma CheckFacts(s: State, t: nat)
    requires Ready(s, t) && Checking(s.thr[t].phase) && !Through(s.thr[t])
    ensures CheckReady(s, t)
  {
    CheckPlaces(s, t);
    var tx, p, e := s.thr[t], s.thr[t].phase, s.thr[t].wset[s.thr[t].phase.i];
    if p.Check? {
      assert Overtakable(s.heap, e.key, tx.ts, tx.ts);
      var v: int :| On(s.heap, v, e.key) && OvertakableAt(s.heap, e.key, v, tx.ts) && s.heap[v].wts <= tx.ts;
      StillOvertakable(s, t, e.key, e.ver, v);
    } else {
      var v: int :| On(s.heap, v, e.key) && OvertakableAt(s.heap, e.key, v, tx.ts) && s.heap[v].wts <= s.heap[p.cur].wts;
      if p.cur != v {
        assert s.heap[p.cur].wts != s.heap[v].wts;
        StillOvertakable(s, t, e.key, p.cur, v);
      }
    }
  }

  lemma CheckStartMoves(s: State, t: nat) returns (s': State)
    requires t < |s.thr| && CheckReady(s, t) && s.thr[t].phase.Check?
    ensures Goes(s, s', t)
  {
    var tx, i, e := s.thr[t], s.thr[t].phase.i, s.thr[t].wset[s.thr[t].phase.i];
    s' := SetPhase(s, t, CheckWait(i, s.heap[e.ver].next));
    assert CheckStart(s, s', t);
    PhaseGoes(s, t, CheckWait(i, s.heap[e.ver].next));
  }

  lemma CheckWaitMoves(s: State, t: nat) returns (s': State)
    requires t < |s.thr| && CheckReady(s, t) && s.thr[t].phase.CheckWait?
    ensures Goes(s, s', t)
  {
    var tx, i, e := s.thr[t], s.thr[t].phase.i, s.thr[t].wset[s.thr[t].phase.i];
    if s.heap[tx.phase.cur].status.Committed? {
      s' := SetPhase(s, t, Check(i + 1)).(heap := s.heap[e.ver := s.heap[e.ver].(passed := true)]);
      assert CheckOk(s, s', t);
    } else {
      s' := SetPhase(s, t, CheckWait(i, s.heap[tx.phase.cur].next));
      assert CheckDown(s, s', t);
      PhaseGoes(s, t, CheckWait(i, s.heap[tx.phase.cur].next));
    }
  }

  lemma KeysListed(s: State, t: nat)
    requires BaseInv(s) && t < |s.thr| && !s.thr[t].phase.Committing? && !s.thr[t].phase.Aborting?
    ensures var tx := s.thr[t]; forall j | 0 <= j < |tx.wset| :: tx.wset[j].key < |s.recs| && HeadListed(s, tx.wset[j].key)
  {
    forall j | 0 <= j < |s.thr[t].wset|
      ensures s.thr[t].wset[j].key < |s.recs| && HeadListed(s, s.thr[t].wset[j].key)
    {
      WriteFacts(s, t, j);
      HeadOf(s, s.thr[t].wset[j].key);
    }
  }

  lemma InstallingGoes(s: State, t: nat) returns (s': State)
    requires Ready(s, t) && Installing(s.thr[t].phase)
    ensures Goes(s, s', t)
  {
    if s.thr[t].phase.Install? {
      InstallFacts(s, t);
      s' := InstallMoves(s, t);
    } else if s.thr[t].phase.InstallHead? {
      HeadFacts(s, t);
      s' := HeadMoves(s, t);
    } else {
      SeekFacts(s, t);
      s' := SeekMoves(s, t);
    }
  }

  lemma CertifyingGoes(s: State, t: nat) returns (s': State)
    requires Ready(s, t) && !Installing(s.thr[t].phase) && !Through(s.thr[t])
    ensures Goes(s, s', t)
  {
    var p := s.thr[t].phase;
    if p.Raise? || p.Scan? {
      RaiseFacts(s, t);
      if p.Raise? {
        s' := RaiseMoves(s, t);
      } else {
        s' := ScanStartMoves(s, t);
      }
    } else if Scanning(p) {
      ScanFacts(s, t);
      if p.ScanSeek? {
        s' := ScanSeekMoves(s, t);
      } else {
        s' := ScanWaitMoves(s, t);
      }
    } else {
      CheckFacts(s, t);
      if p.Check? {
        s' := CheckStartMoves(s, t);
      } else {
        s' := CheckWaitMoves(s, t);
      }
    }
  }

  /** There is a step, and one that brings the executor nearer to the end of the checks. */
  lemma SoloStep(s: State, t: nat) returns (s': State)
    requires Ready(s, t) && !Through(s.thr[t])
    ensures StepBy(s, s', t) && Ready(s', t) && Kept(s.thr[t], s'.thr[t]) && Nearer(s, s', t)
  {
    if Installing(s.thr[t].phase) {
      s' := InstallingGoes(s, t);
    } else {
      s' := CertifyingGoes(s, t);
    }
    StepKeepsBase(s, s', t);
    KeysListed(s, t);
    UnopposedStays(s, s', s.thr[t], s'.thr[t]);
  }

  // ---------------------------------------------------------------- completion

  /** A sequence of steps of executor `t` alone. */
  ghost predicate Solo(steps: seq<State>, t: nat) {
    forall j | 0 < j < |steps| :: StepBy(steps[j - 1], steps[j], t)
  }

  lemma SoloLonger(s: State, rest: seq<State>, t: nat)
    requires rest != [] && Solo(rest, t) && StepBy(s, rest[0], t)
    ensures Solo([s] + rest, t)
  {
    var steps := [s] + rest;
    forall j | 0 < j < |steps| ensures StepBy(steps[j - 1], steps[j], t) {
      if j > 1 {
        assert StepBy(rest[j - 2], rest[j - 1], t);
      }
    }
  }

  lemma KeptThrough(a: Executor, b: Executor, c: Executor)
    requires Kept(a, b) && Kept(b, c)
    ensures Kept(a, c)
  {
    forall j | 0 <= j < |a.wset| ensures SameWrite(a.wset[j], c.wset[j]) {
      assert SameWrite(a.wset[j], b.wset[j]);
    }
  }

  lemma CommitMoves(s: State, t: nat) returns (s': State)
    requires BaseInv(s) && t < |s.thr| && Through(s.thr[t])
    ensures StepBy(s, s', t) && CommitPoint(s, s', t)
  {
    ThreadOf(s, t);
    var tx, stamp := s.thr[t], Stamp(s.thr[t].ts, 0);
    s' := SetPhase(s, t, Committing(0))
          .(commits := s.commits[stamp := Txn(ReadMap(tx.rset), WriteMap(tx.wset))],
            sources := s.sources[stamp := SourceMap(tx.rset)]);
    assert CommitPoint(s, s', t);
  }

  /** Steps of `t` alone from `s` to the commit point of the transaction `tx`. */
  ghost predicate CommitsAlone(steps: seq<State>, s: State, tx: Executor, t: nat) {
    && |steps| >= 2 && steps[0] == s && Solo(steps, t)
    && var last := steps[|steps| - 2];
       t < |last.thr| && Kept(tx, last.thr[t]) && CommitPoint(last, steps[|steps| - 1], t)
  }

  lemma CommitsNow(s: State, t: nat) returns (steps: seq<State>)
    requires BaseInv(s) && t < |s.thr| && Through(s.thr[t])
    ensures CommitsAlone(steps, s, s.thr[t], t)
  {
    var committed := CommitMoves(s, t);
    steps := [s, committed];
  }

  lemma OneMore(s: State, next: State, rest: seq<State>, t: nat)
    requires t < |s.thr| && t < |next.thr| && StepBy(s, next, t) && Kept(s.thr[t], next.thr[t])
    requires CommitsAlone(rest, next, next.thr[t], t)
    ensures CommitsAlone([s] + rest, s, s.thr[t], t)
  {
    SoloLonger(s, rest, t);
    KeptThrough(s.thr[t], next.thr[t], rest[|rest| - 2].thr[t]);
  }

  /** The executor, taking steps alone, gets to its commit point. */
  lemma {:induction false} GoesThrough(s: State, t: nat) returns (steps: seq<State>)
    requires Ready(s, t)
    ensures CommitsAlone(steps, s, s.thr[t], t)
    decreases Left(s.thr[t].phase, |s.thr[t].wset|, |s.thr[t].rset|), Depth(s.heap, s.thr[t].phase)
  {
    if Through(s.thr[t]) {
      steps := CommitsNow(s, t);
    } else {
      var next := SoloStep(s, t);
      var rest := GoesThrough(next, t);
      steps := [s] + rest;
      OneMore(s, next, rest, t);
    }
  }

  /** From every reachable state, a transaction about to install its writes that nothing is in
      the way of - its reads are still the newest, what it read before writing has got no newer
      version, and nobody later has read what its writes overtake - can validate and commit
      without a step of any other. */
  lemma UnopposedCommits(run: seq<State>, i: nat, t: nat) returns (steps: seq<State>)
    requires IsRun(run, Init, Next) && i < |run| && t < |run[i].thr|
    requires run[i].thr[t].phase == Install(0, NIL) && Unopposed(run[i], run[i].thr[t])
    ensures CommitsAlone(steps, run[i], run[i].thr[t], t)
  {
    RunKeepsInv(run, i);
    steps := GoesThrough(run[i], t);
  }

  // ------------------------------------------------- not doomed, nothing to wait for

  /** No older transaction is about to settle a version of a record accessed. */
  ghost predicate NothingPending(s: State, tx: Executor) {
    forall u: int | OnList(s.heap, u) && s.heap[u].status.Pending? && s.heap[u].wts < tx.ts ::
      !ReadsKey(tx.rset, s.heap[u].place.key) && !WritesKey(tx.wset, s.heap[u].place.key)
  }

  /** The newest version of `k` committed below `ts`. */
  lemma {:induction false} NewestBelow(h: seq<Version>, k: Key, ts: nat, b: int, n: nat) returns (v: int)
    requires On(h, b, k) && h[b].status.Committed? && h[b].wts < ts && n <= |h|
    ensures On(h, v, k) && h[v].status.Committed? && h[v].wts < ts
    ensures forall u: int | 0 <= u < n && On(h, u, k) && h[u].status.Committed? && h[u].wts < ts :: h[u].wts <= h[v].wts
  {
    if n == 0 {
      v := b;
    } else {
      v := NewestBelow(h, k, ts, b, n - 1);
      if On(h, n - 1, k) && h[n - 1].status.Committed? && h[v].wts < h[n - 1].wts < ts {
        v := n - 1;
      }
    }
  }

  lemma Settled(s: State, u: int)
    requires BaseInv(s) && OnList(s.heap, u) && !s.heap[u].status.Pending? && !s.heap[u].status.Committed?
    ensures s.heap[u].status.Aborted?
  {
    assert VersionOk(s.heap[u], s.clock, |s.recs|, |s.thr|);
  }

  lemma ReadsStand(s: State, t: nat, j: nat)
    requires BaseInv(s) && t < |s.thr| && j < |s.thr[t].rset|
    requires !Doomed(s, s.thr[t], false) && NothingPending(s, s.thr[t])
    ensures NothingSince(s.heap, s.thr[t].rset[j].key, s.thr[t].rset[j].wts, s.thr[t].ts)
  {
    var tx, r := s.thr[t], s.thr[t].rset[j];
    assert !Overwritten(s.heap, r, tx.ts);
    forall u: int | On(s.heap, u, r.key) && r.wts < s.heap[u].wts < tx.ts ensures s.heap[u].status.Aborted? {
      assert ReadsKey(tx.rset, r.key);
      Settled(s, u);
    }
  }

  lemma WritesFit(s: State, t: nat, j: nat)
    requires BaseInv(s) && t < |s.thr| && j < |s.thr[t].wset| && Installing(s.thr[t].phase)
    requires !Doomed(s, s.thr[t], false) && NothingPending(s, s.thr[t])
    ensures Overtakable(s.heap, s.thr[t].wset[j].key, s.thr[t].ts, s.thr[t].ts)
  {
    var tx, k := s.thr[t], s.thr[t].wset[j].key;
    WriteFacts(s, t, j);
    BottomVisible(s, t, k);
    var v := NewestBelow(s.heap, k, tx.ts, s.recs[k].bottom, |s.heap|);
    assert !Overtakes(s.heap, tx.wset[j], tx.ts, false);
    assert !ReadLater(s.heap, k, tx.ts, v);
    forall u: int | On(s.heap, u, k) && s.heap[v].wts < s.heap[u].wts < tx.ts ensures s.heap[u].status.Aborted? {
      assert WritesKey(tx.wset, k);
      Settled(s, u);
    }
    assert OvertakableAt(s.heap, k, v, tx.ts);
  }

  /** What justifies an abort is all that can stand in the way: a transaction that is not
      doomed, with nothing to wait for, is unopposed, and so commits when it runs alone. */
  lemma NotDoomedCommits(run: seq<State>, i: nat, t: nat) returns (steps: seq<State>)
    requires IsRun(run, Init, Next) && i < |run| && t < |run[i].thr| && run[i].thr[t].phase == Install(0, NIL)
    requires !Doomed(run[i], run[i].thr[t], false) && NothingPending(run[i], run[i].thr[t])
    ensures Unopposed(run[i], run[i].thr[t])
    ensures CommitsAlone(steps, run[i], run[i].thr[t], t)
  {
    RunKeepsInv(run, i);
    var s, tx := run[i], run[i].thr[t];
    forall j | 0 <= j < |tx.rset| ensures NothingSince(s.heap, tx.rset[j].key, tx.rset[j].wts, tx.ts) {
      ReadsStand(s, t, j);
    }
    forall j | 0 <= j < |tx.wset|
      ensures tx.wset[j].rmw ==> !NewerHead(s, tx.wset[j].key, tx.ts)
      ensures Overtakable(s.heap, tx.wset[j].key, tx.ts, tx.ts)
    {
      WritesFit(s, t, j);
    }
    steps := UnopposedCommits(run, i, t);
  }
}
