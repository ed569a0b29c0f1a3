/**
 What reaches a sector in the repository.  The planner table has events that nothing sends, and a user may force a
 sector into any state; the states after a fault are entered in no other way.
 */
module SectorForced {
  import opened SectorFsm
  import opened SectorHandlers
  import opened SectorSafety
  import opened SectorFreeze

  /** Events of the table that neither a handler nor anything else sends. */
  predicate NeverSent(k: EventType) { k == SectorFatalError || k == SectorFaulty || k == SectorFaultReported }

  /** What is sent from outside the handlers. */
  predicate FromOutside(e: Event) { (UserEvent(e) && !NeverSent(e.kind)) || e.kind == SectorForceState }

  predicate Possible(m: Machine, step: Step) {
    match step
    case Arrive(e) => FromOutside(e)
    case _ => Enabled(m, step)
  }

  function Then(m: Machine, step: Step): Machine
    requires Possible(m, step)
  {
    match step
    case Arrive(e) => m.(pending := m.pending + [e])
    case _ => Next(m, step)
  }

  /** A run with what the repository sends, forced states included. */
  ghost predicate IsForcedRun(run: seq<Machine>, steps: seq<Step>) {
    && |run| == |steps| + 1
    && run[0] == NEW_MACHINE
    && forall k :: 0 <= k < |steps| ==> Possible(run[k], steps[k]) && run[k + 1] == Then(run[k], steps[k])
  }

  predicate Forces(step: Step) { step.Arrive? && step.e.kind == SectorForceState }

  ghost predicate IsUnforcedRun(run: seq<Machine>, steps: seq<Step>) {
    IsForcedRun(run, steps) && forall k :: 0 <= k < |steps| ==> !Forces(steps[k])
  }

  lemma UnforcedRunIsRun(run: seq<Machine>, steps: seq<Step>)
    requires IsUnforcedRun(run, steps)
    ensures IsRun(run, steps)
  {
  }

  // ---------- no handler sends them ----------

  predicate Harmless(a: Action) { a.Send? ==> !NeverSent(a.event.kind) && a.event.kind != SectorForceState }

  lemma SealingHarmless(s: Sector, env: Env)
    requires InputState(s.state) || PreCommitState(s.state)
    ensures Harmless(Handle(s, env))
  {
  }

  lemma CommitHarmless(s: Sector, env: Env)
    requires CommitState(s.state)
    ensures Harmless(Handle(s, env))
  {
  }

  lemma FailedHarmless(s: Sector, env: Env)
    requires FailedState(s.state)
    ensures Harmless(Handle(s, env))
  {
  }

  lemma SnapHarmless(s: Sector, env: Env)
    requires SnapState(s.state)
    ensures Harmless(Handle(s, env))
  {
  }

  lemma HandlerHarmless(s: Sector, env: Env)
    ensures Harmless(Handle(s, env))
  {
    if InputState(s.state) || PreCommitState(s.state) { SealingHarmless(s, env); }
    else if CommitState(s.state) { CommitHarmless(s, env); }
    else if FailedState(s.state) { FailedHarmless(s, env); }
    else if SnapState(s.state) { SnapHarmless(s, env); }
  }

  predicate NoneSent(events: seq<Event>) { forall k :: 0 <= k < |events| ==> !NeverSent(events[k].kind) }

  // ---------- a fault is never confirmed ----------

  lemma ApplyNoFault(e: Event, s: Sector)
    requires e.kind != SectorFaultReported
    ensures Apply(e, s).faultReportMsg == s.faultReportMsg
  {
  }

  lemma FirstNoFault(s: Sector, e: Event)
    requires !NeverSent(e.kind)
    ensures PlanFirst(s, e).sector.faultReportMsg == s.faultReportMsg
  {
    ApplyNoFault(e, s);
  }

  lemma {:induction false} PlanOneNoFault(s: Sector, events: seq<Event>)
    requires NoneSent(events)
    ensures PlanOne(s, events).sector.faultReportMsg == s.faultReportMsg
    decreases |events|
  {
    if events != [] {
      FirstNoFault(s, events[0]);
      PlanOneNoFault(PlanFirst(s, events[0]).sector, events[1..]);
    }
  }

  lemma {:induction false} PlanCommittingNoFault(s: Sector, events: seq<Event>)
    ensures PlanCommitting(s, events).sector.faultReportMsg == s.faultReportMsg
    decreases |events|
  {
    if events != [] {
      var e := events[0];
      PlanCommittingNoFault(s, events[1..]);
      PlanCommittingNoFault(ApplyGlobal(e, s), events[1..]);
      if CommittingNext(e).Some? {
        PlanCommittingNoFault(CommittingApply(e, s).(state := CommittingNext(e).value), events[1..]);
      }
    }
  }

  lemma PlanNoFault(s: Sector, events: seq<Event>)
    requires NoneSent(events)
    ensures Plan(s, events).sector.faultReportMsg == s.faultReportMsg
  {
    PlanOneNoFault(s, events);
    PlanCommittingNoFault(s, events);
  }

  predicate FaultFree(m: Machine) { NoneSent(m.pending) && m.sector.faultReportMsg == "" }

  lemma StepKeepsFaultFree(m: Machine, step: Step)
    requires FaultFree(m) && Possible(m, step)
    ensures FaultFree(Then(m, step))
  {
    match step
    case Arrive(e) =>
    case HandlerDone(env) => HandlerHarmless(m.sector, env);
    case PlanBatch(n) => PlanNoFault(m.sector, m.pending[..n]);
  }

  lemma {:induction false} RunKeepsFaultFree(run: seq<Machine>, steps: seq<Step>, k: nat)
    requires IsForcedRun(run, steps) && k <= |steps|
    ensures FaultFree(run[k])
  {
    if k > 0 {
      RunKeepsFaultFree(run, steps, k - 1);
      StepKeepsFaultFree(run[k - 1], steps[k - 1]);
    }
  }

  /** Also with forced states, the handler of FaultReported never has a message to wait for, and sends nothing. */
  lemma FaultIsNeverConfirmed(run: seq<Machine>, steps: seq<Step>, k: nat, env: Env)
    requires IsForcedRun(run, steps) && k <= |steps| && run[k].sector.state == FaultReported
    ensures Handle(run[k].sector, env) == Stop
  {
    RunKeepsFaultFree(run, steps, k);
  }

  // ---------- the states after a fault ----------

  predicate FaultState(s: SectorState) { s == Faulty || FinalState(s) }

  lemma TableNoFault(s: SectorState, k: EventType)
    requires RuleFor(s, k).On? && !NeverSent(k)
    ensures !FaultState(RuleFor(s, k).next)
  {
  }

  lemma FirstNoFaultState(s: Sector, e: Event)
    requires Recorded(s) && !FaultState(s.state) && !NeverSent(e.kind) && Supported(e, s)
    ensures !FaultState(PlanFirst(s, e).sector.state)
  {
    ApplyWrites(e, s);
    StayingEvents(s.state, e.kind);
    if RuleFor(s.state, e.kind).On? { TableNoFault(s.state, e.kind); }
  }

  lemma {:induction false} PlanOneNoFaultState(s: Sector, events: seq<Event>)
    requires Recorded(s) && !FaultState(s.state) && NoneSent(events) && AllSupported(events, s)
    ensures !FaultState(PlanOne(s, events).sector.state)
    decreases |events|
  {
    if events != [] {
      assert Supported(events[0], s);
      FirstNoFaultState(s, events[0]);
      FirstKeeps(s, events[0]);
      if PlanFirst(s, events[0]).GoesOn? {
        AllSupportedExtends(events[1..], s, PlanFirst(s, events[0]).sector);
        PlanOneNoFaultState(PlanFirst(s, events[0]).sector, events[1..]);
      }
    }
  }

  lemma {:induction false} PlanCommittingNoFaultState(s: Sector, events: seq<Event>)
    requires !FaultState(s.state) && forall k :: 0 <= k < |events| ==> events[k].kind != SectorForceState
    ensures !FaultState(PlanCommitting(s, events).sector.state)
    decreases |events|
  {
    if events == [] { return; }
    var e := events[0];
    if Global(e) {
      if !Interrupts(e) { PlanCommittingNoFaultState(ApplyGlobal(e, s), events[1..]); }
    } else if CommittingNext(e).Some? {
      if SameSeed(e, s) { PlanCommittingNoFaultState(s, events[1..]); }
      else if e.kind != SectorSeedReady {
        PlanCommittingNoFaultState(CommittingApply(e, s).(state := CommittingNext(e).value), events[1..]);
      }
    }
  }

  lemma PlanNoFaultState(s: Sector, events: seq<Event>)
    requires Recorded(s) && !FaultState(s.state) && NoneSent(events) && AllSupported(events, s)
    ensures !FaultState(Plan(s, events).sector.state)
  {
    if s.state == Committing {
      forall k | 0 <= k < |events| ensures events[k].kind != SectorForceState { assert Supported(events[k], s); }
      PlanCommittingNoFaultState(s, events);
    } else {
      PlanOneNoFaultState(s, events);
    }
  }

  /** Without a forced state a sector never comes into one of the states after a fault. */
  lemma {:induction false} FaultStatesAreForced(run: seq<Machine>, steps: seq<Step>, k: nat)
    requires IsUnforcedRun(run, steps) && k <= |steps|
    ensures !FaultState(run[k].sector.state)
  {
    if k > 0 {
      FaultStatesAreForced(run, steps, k - 1);
      UnforcedRunIsRun(run, steps);
      RunKeepsOk(run, steps, k - 1);
      RunKeepsFaultFree(run, steps, k - 1);
      var m, step := run[k - 1], steps[k - 1];
      if step.PlanBatch? {
        PlanNoFaultState(m.sector, m.pending[..step.n]);
      }
    }
  }

  /** So what freezes there without a forced state is Committing or ReleaseSectorKeyFailed. */
  lemma UnforcedFreezes(run: seq<Machine>, steps: seq<Step>, k: nat)
    requires IsUnforcedRun(run, steps) && k <= |steps| && Frozen(run[k])
    ensures run[k].sector.state == Committing || run[k].sector.state == ReleaseSectorKeyFailed
  {
    FrozenIffBlocked(run[k]);
    FaultStatesAreForced(run, steps, k);
  }
}
