/**
 Replica updates in runs where events queue up: what an update has recorded while it waits for its message, unless
 events of an earlier update are still queued when that one is reverted.
 */
module SectorUpdates {
  import opened Options
  import opened SectorFsm
  import opened SectorHandlers
  import opened SectorSafety
  import opened SectorRuns

  /** The events that lead to ReplicaUpdateWait. */
  predicate UpdateEvent(k: EventType) { k == SectorReplicaUpdateSubmitted || k == SectorRetrySubmitReplicaUpdateWait }

  /** A message is recorded only for an update with a commitment, and is there to wait for. */
  predicate UpdateRecorded(s: Sector) {
    && (s.replicaUpdateMessage != "" ==> s.updateSealed.Some?)
    && (s.state == ReplicaUpdateWait ==> s.replicaUpdateMessage != "")
  }

  predicate UpdateSupported(e: Event, s: Sector) {
    && (e.kind == SectorReplicaUpdateSubmitted ==> s.updateSealed.Some? && e.message != "")
    && (e.kind == SectorRetrySubmitReplicaUpdateWait ==> s.replicaUpdateMessage != "")
  }

  predicate AllUpdateSupported(events: seq<Event>, s: Sector) {
    forall k :: 0 <= k < |events| ==> UpdateSupported(events[k], s)
  }

  /** No event that leads to ReplicaUpdateWait is left in the queue. */
  predicate NoUpdateEvents(events: seq<Event>) { forall k :: 0 <= k < |events| ==> !UpdateEvent(events[k].kind) }

  /** Nothing recorded of the update is lost. */
  predicate UpdateExtends(s: Sector, t: Sector) {
    && (s.updateSealed.Some? ==> t.updateSealed.Some?)
    && (s.replicaUpdateMessage != "" ==> t.replicaUpdateMessage != "")
  }

  /** How the table reaches ReplicaUpdateWait, and where an upgrade is reverted. */
  lemma TableUpdates(s: SectorState, k: EventType)
    requires RuleFor(s, k).On?
    ensures RuleFor(s, k).next == ReplicaUpdateWait ==> UpdateEvent(k)
    ensures k == SectorRevertUpgradeToProving ==> s == AbortUpgrade && RuleFor(s, k).next == Proving
  {
  }

  /** One event keeps what is recorded, unless it reverts the upgrade, which clears all of it. */
  lemma FirstUpdates(s: Sector, e: Event)
    requires UpdateRecorded(s) && ReturnOk(s.ret, s) && Supported(e, s) && UpdateSupported(e, s)
    ensures var t := PlanFirst(s, e).sector;
      UpdateRecorded(t) && (UpdateExtends(s, t) || (s.state == AbortUpgrade && t.state == Proving))
  {
    if Global(e) { return; }
    StayingEvents(s.state, e.kind);
    ApplyUpgradeWrites(e, s);
    ApplyWrites(e, s);
    if RuleFor(s.state, e.kind).On? { TableUpdates(s.state, e.kind); }
  }

  /** What a planning round may do to a recorded update. */
  predicate UpdateKept(s: Sector, t: Sector) {
    UpdateRecorded(t) && (UpdateExtends(s, t) || (s.state == AbortUpgrade && t.state == Proving))
  }

  lemma {:induction false} PlanOneUpdates(s: Sector, events: seq<Event>)
    requires Recorded(s) && UpdateRecorded(s) && AllSupported(events, s) && AllUpdateSupported(events, s)
    ensures UpdateKept(s, PlanOne(s, events).sector)
    decreases |events|
  {
    if events != [] {
      assert Supported(events[0], s) && UpdateSupported(events[0], s);
      FirstUpdates(s, events[0]);
      FirstKeeps(s, events[0]);
      if PlanFirst(s, events[0]).GoesOn? { PlanOneUpdates(s, events[1..]); }
    }
  }

  /** The planner of Committing does not touch updates. */
  lemma {:induction false} PlanCommittingUpdates(s: Sector, events: seq<Event>)
    ensures PlanCommitting(s, events).sector.updateSealed == s.updateSealed
    ensures PlanCommitting(s, events).sector.replicaUpdateMessage == s.replicaUpdateMessage
    decreases |events|
  {
    if events != [] {
      var e := events[0];
      PlanCommittingUpdates(s, events[1..]);
      PlanCommittingUpdates(ApplyGlobal(e, s), events[1..]);
      if CommittingNext(e).Some? {
        PlanCommittingUpdates(CommittingApply(e, s).(state := CommittingNext(e).value), events[1..]);
      }
    }
  }

  lemma PlanUpdates(s: Sector, events: seq<Event>)
    requires Recorded(s) && UpdateRecorded(s) && AllSupported(events, s) && AllUpdateSupported(events, s)
    ensures UpdateKept(s, Plan(s, events).sector)
  {
    if s.state == Committing {
      PlanCommittingUpdates(s, events);
      forall k | 0 <= k < |events| ensures events[k].kind != SectorForceState { assert Supported(events[k], s); }
      PlanCommittingStaysOut(s, events);
    } else {
      PlanOneUpdates(s, events);
      if events != [] { assert Supported(events[0], s); }
    }
  }

  /** What a handler sends is supported by the update. */
  lemma SentIsUpdateSupported(s: Sector, env: Env)
    requires Recorded(s) && GoodIds(env) && Handle(s, env).Send?
    ensures UpdateSupported(Handle(s, env).event, s)
  {
    SentIsGuarded(s, Handler(env));
  }

  /** A revert leaves no event in the queue that leads to ReplicaUpdateWait. */
  predicate CleanRevert(m: Machine, step: Step)
    requires Enabled(m, step)
  {
    var n := Next(m, step);
    m.sector.state == AbortUpgrade && n.sector.state == Proving ==> NoUpdateEvents(n.pending)
  }

  predicate UpdateOk(m: Machine) { UpdateRecorded(m.sector) && AllUpdateSupported(m.pending, m.sector) }

  lemma StepKeepsUpdateOk(m: Machine, step: Step)
    requires MachineOk(m) && UpdateOk(m) && Enabled(m, step) && CleanRevert(m, step)
    ensures UpdateOk(Next(m, step))
  {
    match step
    case Arrive(e) =>
    case HandlerDone(env) => if Handle(m.sector, env).Send? { SentIsUpdateSupported(m.sector, env); }
    case PlanBatch(n) =>
      var p := Plan(m.sector, m.pending[..n]);
      PlanUpdates(m.sector, m.pending[..n]);
      forall k | 0 <= k < |m.pending[p.processed..]| ensures UpdateSupported(m.pending[p.processed..][k], p.sector) {
        assert UpdateSupported(m.pending[p.processed + k], m.sector);
        assert m.pending[p.processed..][k] == m.pending[p.processed + k];
      }
  }

  lemma {:induction false} RunKeepsUpdateOk(run: seq<Machine>, steps: seq<Step>, k: nat)
    requires IsRun(run, steps) && k <= |steps| && forall i :: 0 <= i < k ==> CleanRevert(run[i], steps[i])
    ensures UpdateOk(run[k])
  {
    if k > 0 {
      RunKeepsUpdateOk(run, steps, k - 1);
      RunKeepsOk(run, steps, k - 1);
      StepKeepsUpdateOk(run[k - 1], steps[k - 1]);
    }
  }

  /**
   Over every run, however events overlap, in which no upgrade is reverted with such an event of it still queued: an
   update that waits for its message has a message and a commitment, so a handler uses a nil pointer exactly when the
   chain has no answer that it goes on to use.
   */
  lemma WaitingUpdateHasCommitment(run: seq<Machine>, steps: seq<Step>, k: nat, env: Env)
    requires IsRun(run, steps) && k <= |steps| && GoodIds(env)
    requires forall i :: 0 <= i < k ==> CleanRevert(run[i], steps[i])
    ensures run[k].sector.state == ReplicaUpdateWait ==>
      run[k].sector.replicaUpdateMessage != "" && run[k].sector.updateSealed.Some?
    ensures Handle(run[k].sector, env).Panic? <==> MissingAnswer(run[k].sector, env)
  {
    RunKeepsUpdateOk(run, steps, k);
    RunKeepsOk(run, steps, k);
    HandlerSafe(run[k].sector, env);
  }
}
