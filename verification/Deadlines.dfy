/**
 Window PoSt deadlines.  A proving period is split into `deadlines` consecutive
 challenge windows; the numbers themselves are network parameters and stay abstract.
 */
module Deadlines {

  datatype Schedule = Schedule(deadlines: nat, window: nat, lookback: nat) {
    predicate Valid() { deadlines > 0 && window > 0 }

    function Period(): nat { deadlines * window }
  }

  datatype Info = Info(currentEpoch: int, periodStart: int, index: nat, open: int, close: int, challenge: int)

  /** The external constructor of deadline records. */
  function NewInfo(s: Schedule, periodStart: int, index: nat, currentEpoch: int): Info {
    var open := periodStart + index * s.window;
    Info(currentEpoch, periodStart, index, open, open + s.window, open - s.lookback)
  }

  predicate WellFormed(s: Schedule, di: Info) {
    di.index < s.deadlines && di == NewInfo(s, di.periodStart, di.index, di.currentEpoch)
  }

  /** The deadline after `di`; the last one of a period is followed by the first of the next. */
  function NextDeadline(s: Schedule, di: Info): (r: Info)
    requires s.Valid() && WellFormed(s, di)
    ensures WellFormed(s, r)
    ensures r.open == di.open + s.window
    ensures r.close == di.close + s.window
    ensures r.challenge == di.challenge + s.window
    ensures r.currentEpoch == di.currentEpoch
  {
    assert (di.index + 1) * s.window == di.index * s.window + s.window;
    var newDeadline := di.index + 1;
    if newDeadline == s.deadlines
    then NewInfo(s, di.periodStart + s.Period(), 0, di.currentEpoch)
    else NewInfo(s, di.periodStart, newDeadline, di.currentEpoch)
  }

  /** The `k`-th deadline after `di`. */
  ghost function Later(s: Schedule, di: Info, k: nat): (r: Info)
    requires s.Valid() && WellFormed(s, di)
    ensures WellFormed(s, r)
    ensures r.open == di.open + k * s.window
  {
    if k == 0 then di
    else
      assert k * s.window == (k - 1) * s.window + s.window;
      NextDeadline(s, Later(s, di, k - 1))
  }

  ghost function CachedFrom(cached: set<int>, open: int): (r: set<int>)
    ensures forall o :: o in r <==> o in cached && o >= open
  {
    set o | o in cached && o >= open
  }

  /**
   The prover's search: skip deadlines whose proofs are cached.  It terminates because
   every skipped deadline removes one cached opening from those still ahead.
   */
  function FirstUncached(s: Schedule, cached: set<int>, di: Info): (r: Info)
    requires s.Valid() && WellFormed(s, di)
    ensures WellFormed(s, r)
    ensures r.open !in cached && r.open >= di.open
    decreases CachedFrom(cached, di.open)
  {
    if di.open in cached then
      assert di.open in CachedFrom(cached, di.open);
      assert di.open !in CachedFrom(cached, NextDeadline(s, di).open);
      FirstUncached(s, cached, NextDeadline(s, di))
    else di
  }

  /** The search stops at the earliest deadline, counting from `di`, that has no cached proof. */
  lemma {:induction false} FirstUncachedIsEarliest(s: Schedule, cached: set<int>, di: Info) returns (k: nat)
    requires s.Valid() && WellFormed(s, di)
    ensures FirstUncached(s, cached, di) == Later(s, di, k)
    ensures forall j: nat :: j < k ==> Later(s, di, j).open in cached
    ensures Later(s, di, k).open !in cached
    decreases CachedFrom(cached, di.open)
  {
    if di.open in cached {
      assert di.open in CachedFrom(cached, di.open);
      assert di.open !in CachedFrom(cached, NextDeadline(s, di).open);
      var k' := FirstUncachedIsEarliest(s, cached, NextDeadline(s, di));
      k := k' + 1;
      forall j: nat | j <= k ensures j > 0 ==> Later(s, di, j) == Later(s, NextDeadline(s, di), j - 1) {
        if j > 0 { LaterOfNext(s, di, j - 1); }
      }
    } else {
      k := 0;
    }
  }

  lemma {:induction false} LaterOfNext(s: Schedule, di: Info, k: nat)
    requires s.Valid() && WellFormed(s, di)
    ensures Later(s, NextDeadline(s, di), k) == Later(s, di, k + 1)
  {
    if k > 0 {
      LaterOfNext(s, di, k - 1);
    } else {
      assert Later(s, di, 1) == NextDeadline(s, Later(s, di, 0));
    }
  }
}
