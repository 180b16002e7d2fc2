/** Where Cicada's timestamps come from: a local clock that follows the cycle counter, and
    the thread number in the low byte.  The counter's readings are parameters; the width of
    the word is not modelled. */
module CicadaTimeStamp {
  import opened Cicada

  function Max(a: nat, b: nat): nat { if a < b then b else a }

  /** What one call reads of the cycle counter, and the boost in force. */
  datatype Reading = Reading(counter: nat, boost: nat)

  class TimeStamp {
    var ts: nat
    var localClock: nat
    var clockBoost: nat
    const thid: nat

    ghost predicate Sound()
      reads this
    {
      thid < TID_SPACE && ts == localClock * TID_SPACE + thid
    }

    /** generateTimeStampFirst(). */
    constructor (tid: nat, counter: nat)
      requires tid < TID_SPACE
      ensures Sound() && thid == tid && localClock == counter && clockBoost == 0
    {
      thid := tid;
      clockBoost := 0;
      localClock := counter;
      ts := counter * TID_SPACE + tid;
    }

    /** set_clockBoost(). */
    method SetClockBoost(boost: nat)
      requires Sound()
      modifies this`clockBoost
      ensures Sound() && clockBoost == boost
    {
      clockBoost := boost;
    }

    /** generateTimeStamp(): never goes back, names its thread, and moves on exactly when the
        counter has passed the local clock or there is a boost. */
    method GenerateTimeStamp(counter: nat)
      requires Sound()
      modifies this`ts, this`localClock
      ensures Sound() && ts % TID_SPACE == thid && ts >= old(ts)
      ensures localClock == Max(counter, old(localClock)) + clockBoost
      ensures ts > old(ts) <==> counter > old(localClock) || clockBoost > 0
    {
      var elapsed := if counter < localClock then 0 else counter - localClock;
      localClock := localClock + elapsed;
      localClock := localClock + clockBoost;
      ts := localClock * TID_SPACE + thid;
      LowByte(localClock, thid);
    }
  }

  lemma LowByte(clock: nat, tid: nat)
    requires tid < TID_SPACE
    ensures (clock * TID_SPACE + tid) % TID_SPACE == tid
  {
  }

  /** The local clock after a thread's readings, and the timestamps it issues. */
  function ClockAfter(start: nat, rs: seq<Reading>): (c: nat)
    ensures c >= start
  {
    if rs == [] then start
    else
      var last := rs[|rs| - 1];
      Max(last.counter, ClockAfter(start, rs[..|rs| - 1])) + last.boost
  }

  function Issued(tid: nat, start: nat, rs: seq<Reading>, i: nat): nat
    requires i < |rs|
  {
    ClockAfter(start, rs[..i + 1]) * TID_SPACE + tid
  }

  /** The counter has passed the local clock, or is helped. */
  predicate Advances(start: nat, rs: seq<Reading>, i: nat)
    requires i < |rs|
  {
    rs[i].counter > ClockAfter(start, rs[..i]) || rs[i].boost > 0
  }

  lemma {:induction false} ClockMonotone(start: nat, rs: seq<Reading>, i: nat, j: nat)
    requires i <= j <= |rs|
    ensures ClockAfter(start, rs[..i]) <= ClockAfter(start, rs[..j])
    ensures i < j && Advances(start, rs, j - 1) ==> ClockAfter(start, rs[..i]) < ClockAfter(start, rs[..j])
  {
    if i < j {
      assert rs[..j][..j - 1] == rs[..j - 1];
      ClockMonotone(start, rs, i, j - 1);
    }
  }

  /** A thread's timestamps are pairwise distinct, as Cicada needs, if and only if every call
      but the first finds the counter past its clock or a boost in force. */
  lemma IssuedDistinctIff(tid: nat, start: nat, rs: seq<Reading>)
    ensures (forall i: nat, j: nat | i < j < |rs| :: Issued(tid, start, rs, i) != Issued(tid, start, rs, j))
            <==> (forall j: nat | 0 < j < |rs| :: Advances(start, rs, j))
  {
    if forall j: nat | 0 < j < |rs| :: Advances(start, rs, j) {
      forall i: nat, j: nat | i < j < |rs| ensures Issued(tid, start, rs, i) < Issued(tid, start, rs, j) {
        ClockMonotone(start, rs, i + 1, j + 1);
      }
    } else {
      var j: nat :| 0 < j < |rs| && !Advances(start, rs, j);
      assert rs[..j + 1][..j] == rs[..j];
      assert Issued(tid, start, rs, j - 1) == Issued(tid, start, rs, j);
    }
  }

  /** A reading that repeats issues one timestamp twice. */
  lemma SameTickTwice(tid: nat, start: nat)
    ensures var rs := [Reading(start, 0), Reading(start, 0)];
            Issued(tid, start, rs, 0) == Issued(tid, start, rs, 1)
  {
    var rs := [Reading(start, 0), Reading(start, 0)];
    assert rs[..1] == [Reading(start, 0)] && rs[..2] == rs;
  }

  /** Different threads never issue the same timestamp. */
  lemma ThreadsDiffer(a: nat, b: nat, starta: nat, startb: nat, ra: seq<Reading>, rb: seq<Reading>, i: nat, j: nat)
    requires a < TID_SPACE && b < TID_SPACE && a != b && i < |ra| && j < |rb|
    ensures Issued(a, starta, ra, i) != Issued(b, startb, rb, j)
  {
    LowByte(ClockAfter(starta, ra[..i + 1]), a);
    LowByte(ClockAfter(startb, rb[..j + 1]), b);
  }
}
