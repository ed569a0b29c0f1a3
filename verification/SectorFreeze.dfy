/** Sectors that no planning round can move any more. */
module SectorFreeze {
  import opened SectorFsm
  import opened SectorHandlers
  import opened SectorSafety

  /** A planning round over the batch consumes nothing and changes nothing. */
  predicate Stays(s: Sector, batch: seq<Event>) { Plan(s, batch).processed == 0 && Plan(s, batch).sector == s }

  /** Whatever arrives later, and however much of the queue a round is given, nothing happens. */
  ghost predicate Frozen(m: Machine) {
    forall more: seq<Event>, n: nat :: n <= |m.pending + more| ==> Stays(m.sector, (m.pending + more)[..n])
  }

  /** The states whose planner takes nothing but global events. */
  predicate FinalState(s: SectorState) { s == FaultReported || s == FaultedFinal || s == FailedUnrecoverable }

  /** A global event that leaves a sector in ReleaseSectorKeyFailed as it is. */
  predicate Idles(e: Event) {
    || e.kind == SectorRestart || e.kind == SectorFatalError
    || (e.kind == SectorForceState && e.forced == ReleaseSectorKeyFailed)
  }

  /** After some ignored requests to start packing comes an event that keeps the sector in ReleaseSectorKeyFailed. */
  predicate IdlesFirst(q: seq<Event>)
    decreases |q|
  {
    q != [] && (Idles(q[0]) || (q[0].kind == SectorStartPacking && IdlesFirst(q[1..])))
  }

  /**
   What a caller sees of a frozen sector: its state and the head of its queue. Committing does not know the event at
   the head, a final state is offered one that is not global, or ReleaseSectorKeyFailed one that does not move it.
   */
  predicate Blocked(m: Machine) {
    && m.pending != []
    && (|| (m.sector.state == Committing && !Global(m.pending[0]) && CommittingNext(m.pending[0]).None?)
        || (FinalState(m.sector.state) && !Global(m.pending[0]))
        || (m.sector.state == ReleaseSectorKeyFailed && IdlesFirst(m.pending)))
  }

  lemma {:induction false} IdlesFirstPlan(s: Sector, q: seq<Event>, more: seq<Event>, n: nat)
    requires s.state == ReleaseSectorKeyFailed && IdlesFirst(q) && n <= |q + more|
    ensures PlanOne(s, (q + more)[..n]).sector == s && PlanOne(s, (q + more)[..n]).ok
    decreases |q|
  {
    if n > 0 {
      assert (q + more)[..n][0] == q[0];
      if !Idles(q[0]) {
        IdlesFirstPlan(s, q[1..], more, n - 1);
        assert (q + more)[..n][1..] == (q[1..] + more)[..n - 1];
      }
    }
  }

  lemma BlockedIsFrozen(m: Machine)
    requires Blocked(m)
    ensures Frozen(m)
  {
    forall more: seq<Event>, n: nat | n <= |m.pending + more| ensures Stays(m.sector, (m.pending + more)[..n]) {
      if n > 0 { assert (m.pending + more)[..n][0] == m.pending[0]; }
      if m.sector.state == ReleaseSectorKeyFailed { IdlesFirstPlan(m.sector, m.pending, more, n); }
    }
  }

  /**
   In ReleaseSectorKeyFailed, a queue that does not idle first lets a removal behind it, or something before,
   through.
   */
  lemma {:induction false} ReleaseMoves(s: Sector, q: seq<Event>) returns (n: nat)
    requires s.state == ReleaseSectorKeyFailed && !IdlesFirst(q)
    ensures n <= |q| + 1
    ensures var p := PlanOne(s, (q + [Of(SectorRemove)])[..n]); p.sector != s || (!p.ok && p.processed > 0)
    decreases |q|
  {
    var all := q + [Of(SectorRemove)];
    if q != [] && q[0].kind == SectorStartPacking {
      var k := ReleaseMoves(s, q[1..]);
      n := k + 1;
      assert all[..n][1..] == (q[1..] + [Of(SectorRemove)])[..k] && all[..n][0] == q[0];
    } else {
      n := 1;
      assert all[..n] == [all[0]];
    }
  }

  lemma OneEventMoves(s: Sector, e: Event)
    requires s.state != ReleaseSectorKeyFailed && !Blocked(Machine(s, [e]))
    ensures !Stays(s, [e])
  {
  }

  /** A machine that is not blocked is moved by some round over what is queued and perhaps a removal behind it. */
  lemma UnblockedMoves(m: Machine)
    requires !Blocked(m)
    ensures !Frozen(m)
  {
    if m.sector.state == ReleaseSectorKeyFailed {
      var n := ReleaseMoves(m.sector, m.pending);
      assert !Stays(m.sector, (m.pending + [Of(SectorRemove)])[..n]);
    } else if m.pending == [] {
      OneEventMoves(m.sector, Of(SectorRemove));
      assert (m.pending + [Of(SectorRemove)])[..1] == [Of(SectorRemove)];
      assert !Stays(m.sector, (m.pending + [Of(SectorRemove)])[..1]);
    } else {
      OneEventMoves(m.sector, m.pending[0]);
      assert (m.pending + [])[..1] == [m.pending[0]];
      assert !Stays(m.sector, (m.pending + [])[..1]);
    }
  }

  /**
   Over all states and queues: no event can ever be consumed or move the sector again if and only if it is blocked.  A
   removed sector does not move either, but consumes its events.
   */
  lemma FrozenIffBlocked(m: Machine)
    ensures Frozen(m) <==> Blocked(m)
  {
    if Blocked(m) { BlockedIsFrozen(m); } else { UnblockedMoves(m); }
  }

  lemma {:induction false} IdlesFirstGrows(q: seq<Event>, e: Event)
    requires IdlesFirst(q)
    ensures IdlesFirst(q + [e])
    decreases |q|
  {
    if !Idles(q[0]) {
      IdlesFirstGrows(q[1..], e);
      assert (q + [e])[1..] == q[1..] + [e];
    }
  }

  lemma BlockedStep(m: Machine, step: Step)
    requires Blocked(m) && Enabled(m, step)
    ensures Next(m, step).sector == m.sector && Blocked(Next(m, step))
  {
    BlockedIsFrozen(m);
    match step
    case Arrive(e) => if IdlesFirst(m.pending) { IdlesFirstGrows(m.pending, e); }
    case HandlerDone(env) =>
      var a := Handle(m.sector, env);
      if a.Send? && IdlesFirst(m.pending) { IdlesFirstGrows(m.pending, a.event); }
    case PlanBatch(n) =>
      assert m.pending + [] == m.pending;
      assert Stays(m.sector, (m.pending + [])[..n]);
  }

  /** From then on the sector never changes again, whatever arrives: not even removal or termination gets through. */
  lemma {:induction false} BlockedForever(run: seq<Machine>, steps: seq<Step>, k: nat, j: nat)
    requires IsRun(run, steps) && k <= j <= |steps| && Blocked(run[k])
    ensures run[j].sector == run[k].sector
    ensures Blocked(run[j])
  {
    if k < j {
      BlockedForever(run, steps, k, j - 1);
      BlockedStep(run[j - 1], steps[j - 1]);
    }
  }
}
