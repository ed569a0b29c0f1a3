/**
 Runs of the sector machine in which events queue up: user events arrive at any time, a handler's event waits behind
 events that arrived first, and one planning round consumes a prefix of the queue.
 */
module SectorSafety {
  import opened Options
  import opened SectorFsm
  import opened SectorHandlers

  datatype Machine = Machine(sector: Sector, pending: seq<Event>)

  datatype Step = Arrive(e: Event) | HandlerDone(env: Env) | PlanBatch(n: nat)

  const NEW_MACHINE := Machine(NEW_SECTOR, [])

  /**
   The events that reach a sector from outside its handlers, and three of the table that nothing in the repository
   sends (SectorFatalError, SectorFaulty, SectorFaultReported); a forced state is not one of them.
   */
  predicate UserEvent(e: Event) {
    e.kind == SectorRestart || e.kind == SectorFatalError || e.kind == SectorTerminate || e.kind == SectorRemove
      || e.kind == SectorStart ||
    e.kind == SectorStartCC || e.kind == SectorAddPiece || e.kind == SectorStartPacking
      || e.kind == SectorMarkForUpdate ||
    e.kind == SectorStartCCUpdate || e.kind == SectorAbortUpgrade || e.kind == SectorFaulty
      || e.kind == SectorFaultReported
  }

  predicate Enabled(m: Machine, step: Step) {
    match step
    case Arrive(e) => UserEvent(e)
    case HandlerDone(env) => GoodIds(env)
    case PlanBatch(n) => n <= |m.pending|
  }

  function Next(m: Machine, step: Step): Machine
    requires Enabled(m, step)
  {
    match step
    case Arrive(e) => m.(pending := m.pending + [e])
    case HandlerDone(env) =>
      var a := Handle(m.sector, env);
      if a.Send? then m.(pending := m.pending + [a.event]) else m
    case PlanBatch(n) =>
      var p := Plan(m.sector, m.pending[..n]);
      Machine(p.sector, m.pending[p.processed..])
  }

  ghost predicate IsRun(run: seq<Machine>, steps: seq<Step>) {
    && |run| == |steps| + 1
    && run[0] == NEW_MACHINE
    && forall k :: 0 <= k < |steps| ==> Enabled(run[k], steps[k]) && run[k + 1] == Next(run[k], steps[k])
  }

  // ---------- what a state promises ----------

  predicate HasComms(s: Sector) { s.commD.Some? && s.commR.Some? }

  /** The states of the precommit and commit pipeline from PreCommitting on, and all that follow a commit. */
  predicate Precommitting(s: SectorState) {
    s == PreCommitting || s == SubmitPreCommitBatch || s == PreCommitBatchWait || s == PreCommitWait || s == WaitSeed ||
    s == Committing || s == CommitFinalize || s == SubmitCommit || s == SubmitCommitAggregate || s == CommitWait ||
    s == CommitAggregateWait || s == FinalizeSector || s == PreCommitFailed || s == ComputeProofFailed ||
    s == CommitFinalizeFailed || s == CommitFailed || s == FinalizeFailed || s == Proving || s == Available ||
    SnapState(s)
  }

  predicate HoldsProof(s: SectorState) {
    s == CommitFinalize || s == CommitFinalizeFailed || s == SubmitCommit || s == SubmitCommitAggregate ||
    s == CommitWait || s == CommitAggregateWait
  }

  predicate WaitsForPreCommit(s: SectorState) { s == PreCommitBatchWait || s == PreCommitWait }

  predicate WaitsForCommit(s: SectorState) { s == CommitWait || s == CommitAggregateWait }

  /** A return state recorded for deal recovery. */
  predicate ReturnOk(r: Option<SectorState>, s: Sector) {
    r.Some? ==>
      && (r.value == PreCommit1 || r.value == PreCommitting || r.value == PreCommitFailed || r.value == CommitFailed)
      && (r.value != PreCommit1 ==> HasComms(s))
  }

  /** What the state of a sector says about its recorded data. */
  predicate Recorded(s: Sector) {
    && (Precommitting(s.state) ==> HasComms(s))
    && (HoldsProof(s.state) ==> s.proof.Some?)
    && (WaitsForPreCommit(s.state) ==> s.preCommitMessage != "")
    && (WaitsForCommit(s.state) ==> s.commitMessage != "")
    && (s.commitMessage != "" ==> HasComms(s) && s.proof.Some?)
    && ReturnOk(s.ret, s)
  }

  /** What an event on its way says about the sector it was sent for. */
  predicate Supported(e: Event, s: Sector) {
    && e.kind != SectorForceState
    && (e.kind == SectorCommitFailed ==> HasComms(s))
    && (e.kind == SectorRetryCommitWait ==> s.commitMessage != "")
    && (e.kind == SectorRetryPreCommitWait ==> s.preCommitMessage != "")
    && (e.kind == SectorRetrySubmitCommit ==> s.proof.Some?)
    && (e.kind == SectorPreCommitted || e.kind == SectorPreCommitBatchSent ==> e.message != "")
    && (e.kind == SectorCommitSubmitted || e.kind == SectorCommitAggregateSent ==> e.message != "")
    && (e.kind == SectorInvalidDealIDs ==> ReturnOk(e.ret, s))
  }

  /** Nothing recorded is lost between two versions of a sector. */
  predicate Extends(s: Sector, t: Sector) {
    && (HasComms(s) ==> HasComms(t))
    && (s.proof.Some? ==> t.proof.Some?)
    && (s.preCommitMessage != "" ==> t.preCommitMessage != "")
    && (s.commitMessage != "" ==> t.commitMessage != "")
  }

  predicate AllSupported(events: seq<Event>, s: Sector) {
    forall k :: 0 <= k < |events| ==> Supported(events[k], s)
  }

  lemma AllSupportedExtends(events: seq<Event>, s: Sector, t: Sector)
    requires AllSupported(events, s) && Extends(s, t)
    ensures AllSupported(events, t)
  {
    forall k | 0 <= k < |events| ensures Supported(events[k], t) {
      assert Supported(events[k], s);
    }
  }

  /** What an event does to the fields the promises are about. */
  predicate Writes(e: Event, s: Sector, t: Sector) {
    && t.state == s.state
    && (if e.kind == SectorPreCommit2 then HasComms(t) else t.commD == s.commD && t.commR == s.commR)
    && (if e.kind == SectorCommitted || e.kind == SectorProofReady then t.proof.Some? else t.proof == s.proof)
    && t.preCommitMessage ==
      (if e.kind == SectorPreCommitted || e.kind == SectorPreCommitBatchSent then e.message else s.preCommitMessage)
    && t.commitMessage ==
      (if e.kind == SectorCommitSubmitted || e.kind == SectorCommitAggregateSent then e.message else s.commitMessage)
    && t.ret == (if e.kind == SectorInvalidDealIDs then e.ret else s.ret)
  }

  lemma ApplyWritesSeals(e: Event, s: Sector)
    ensures var t := Apply(e, s);
      && t.state == s.state
      && (if e.kind == SectorPreCommit2 then HasComms(t) else t.commD == s.commD && t.commR == s.commR)
      && (if e.kind == SectorCommitted || e.kind == SectorProofReady then t.proof.Some? else t.proof == s.proof)
  {
  }

  lemma ApplyWritesMessages(e: Event, s: Sector)
    ensures var t := Apply(e, s);
      && t.preCommitMessage ==
        (if e.kind == SectorPreCommitted || e.kind == SectorPreCommitBatchSent then e.message else s.preCommitMessage)
      && t.commitMessage ==
        (if e.kind == SectorCommitSubmitted || e.kind == SectorCommitAggregateSent then e.message else s.commitMessage)
      && t.ret == (if e.kind == SectorInvalidDealIDs then e.ret else s.ret)
  {
  }

  lemma ApplyWrites(e: Event, s: Sector)
    ensures Writes(e, s, Apply(e, s))
  {
    ApplyWritesSeals(e, s);
    ApplyWritesMessages(e, s);
  }

  lemma WritesExtends(e: Event, s: Sector, t: Sector)
    requires Supported(e, s) && Writes(e, s, t)
    ensures Extends(s, t)
  {
  }

  // ---------- planning keeps the promises ----------

  /** How the planner table lets a sector reach the states that promise something. */
  predicate GuardedMove(s: SectorState, k: EventType, next: SectorState) {
    && (Precommitting(next) ==> Precommitting(s) || k == SectorPreCommit2 || k == SectorCommitFailed)
    && (HoldsProof(next) ==> HoldsProof(s) || k == SectorRetrySubmitCommit || k == SectorRetryCommitWait)
    && (WaitsForPreCommit(next) ==>
      k == SectorPreCommitted || k == SectorPreCommitBatchSent || k == SectorRetryPreCommitWait)
    && (WaitsForCommit(next) ==>
      k == SectorCommitSubmitted || k == SectorCommitAggregateSent || k == SectorRetryCommitWait)
    && (k == SectorCommitSubmitted || k == SectorCommitAggregateSent ==> HoldsProof(s) && Precommitting(s))
    && (k == SectorRetrySubmitCommit || k == SectorRetryCommitWait || k == SectorRetryPreCommitWait ==>
      Precommitting(s))
  }

  lemma SealingGuards(s: SectorState, k: EventType)
    requires RuleFor(s, k).On? && (InputState(s) || PreCommitState(s) || CommitState(s))
    ensures GuardedMove(s, k, RuleFor(s, k).next)
  {
  }

  lemma TableGuards(s: SectorState, k: EventType)
    requires RuleFor(s, k).On?
    ensures GuardedMove(s, k, RuleFor(s, k).next)
  {
    if InputState(s) || PreCommitState(s) || CommitState(s) { SealingGuards(s, k); }
  }

  lemma WritesKeeps(s: Sector, e: Event, t: Sector, next: SectorState)
    requires Recorded(s) && Supported(e, s) && Writes(e, s, t) && GuardedMove(s.state, e.kind, next)
    ensures Recorded(t.(state := next))
  {
    WritesExtends(e, s, t);
  }

  lemma RuleKeeps(s: Sector, e: Event)
    requires Recorded(s) && Supported(e, s) && RuleFor(s.state, e.kind).On?
    ensures Recorded(Apply(e, s).(state := RuleFor(s.state, e.kind).next)) && Extends(s, Apply(e, s))
  {
    TableGuards(s.state, e.kind);
    ApplyWrites(e, s);
    WritesExtends(e, s, Apply(e, s));
    WritesKeeps(s, e, Apply(e, s), RuleFor(s.state, e.kind).next);
  }

  predicate StaysOn(r: Rule, s: SectorState, k: EventType) {
    && (r.Stay? ==> (k == SectorStartPacking || k == SectorAddPiece) && s != Available)
    && (r.Returning? ==> s == RecoverDealIDs && k == SectorUpdateDealIDs)
  }

  lemma StayingEvents(s: SectorState, k: EventType)
    ensures StaysOn(RuleFor(s, k), s, k)
  {
  }

  lemma ReturningKeeps(s: Sector, e: Event)
    requires Recorded(s) && s.state == RecoverDealIDs && e.kind == SectorUpdateDealIDs
    ensures var t := Apply(e, s);
      Recorded(t) && Extends(s, t) && (t.ret.Some? ==> Recorded(t.(state := t.ret.value, ret := None)))
  {
    ApplyWrites(e, s);
  }

  predicate Kept(s: Sector, t: Sector) { Recorded(t) && Extends(s, t) }

  lemma FirstKeeps(s: Sector, e: Event)
    requires Recorded(s) && Supported(e, s)
    ensures Kept(s, PlanFirst(s, e).sector)
    ensures PlanFirst(s, e).GoesOn? ==> PlanFirst(s, e).sector == s
  {
    StayingEvents(s.state, e.kind);
    if !Global(e) && RuleFor(s.state, e.kind).On? { RuleKeeps(s, e); }
    if !Global(e) && RuleFor(s.state, e.kind).Returning? { ReturningKeeps(s, e); }
  }

  lemma {:induction false} PlanOneKeeps(s: Sector, events: seq<Event>)
    requires Recorded(s) && AllSupported(events, s)
    ensures Kept(s, PlanOne(s, events).sector)
    decreases |events|
  {
    if events != [] {
      assert Supported(events[0], s);
      FirstKeeps(s, events[0]);
      if PlanFirst(s, events[0]).GoesOn? { PlanOneKeeps(s, events[1..]); }
    }
  }

  lemma CommittingKeeps(s: Sector, e: Event)
    requires Recorded(s) && HasComms(s) && Supported(e, s) && CommittingNext(e).Some?
    ensures var t := CommittingApply(e, s).(state := CommittingNext(e).value);
      Recorded(t) && Extends(s, t) && HasComms(t)
  {
  }

  /** What holds while a batch is planned in Committing, where the state may already have moved on. */
  lemma {:induction false} PlanCommittingKeeps(s: Sector, events: seq<Event>)
    requires Recorded(s) && HasComms(s) && AllSupported(events, s)
    ensures Recorded(PlanCommitting(s, events).sector) && Extends(s, PlanCommitting(s, events).sector)
    decreases |events|
  {
    if events == [] { return; }
    var e := events[0];
    assert Supported(e, s);
    if Global(e) {
      if !Interrupts(e) { PlanCommittingKeeps(s, events[1..]); }
      return;
    }
    if CommittingNext(e).None? { return; }
    if SameSeed(e, s) { PlanCommittingKeeps(s, events[1..]); return; }
    var moved := CommittingApply(e, s).(state := CommittingNext(e).value);
    CommittingKeeps(s, e);
    if e.kind != SectorSeedReady {
      AllSupportedExtends(events[1..], s, moved);
      PlanCommittingKeeps(moved, events[1..]);
    }
  }

  lemma PlanKeeps(s: Sector, events: seq<Event>)
    requires Recorded(s) && AllSupported(events, s)
    ensures Recorded(Plan(s, events).sector) && Extends(s, Plan(s, events).sector)
  {
    if s.state == Committing {
      PlanCommittingKeeps(s, events);
    } else {
      PlanOneKeeps(s, events);
      if events != [] { assert Supported(events[0], s); }
    }
  }

  // ---------- handlers send supported events and never use a nil pointer ----------

  /** The sealing handlers that test for missing data, in the state where their test would fire. */
  predicate NilGuardFires(s: Sector) {
    || (s.state in {SubmitPreCommitBatch, Committing, SubmitCommitAggregate} && !HasComms(s))
    || (WaitsForPreCommit(s.state) && s.preCommitMessage == "")
    || (WaitsForCommit(s.state) && s.commitMessage == "")
    || (s.state == ProveReplicaUpdate && s.commR.None?)
  }

  lemma CheckCommitSafe(s: Sector, env: Env)
    ensures HasComms(s) ==> !CheckCommit(s, env).NilPointer?
    ensures !CheckCommit(s, env).PrecommitOnChain?
    ensures CheckCommit(s, env).CommitWaitFailed? ==> s.commitMessage != ""
  {
    CheckPiecesResult(s, env, false);
  }

  lemma CheckPiecesResult(s: Sector, env: Env, must: bool)
    ensures CheckPieces(s, env, must) in {Passed, ApiError, InvalidDeals, ExpiredDeals, OtherError}
  {
    CheckFromResult(s.pieces, env.deal, 0);
  }

  lemma {:induction false} CheckFromResult(pieces: seq<Piece>, deal: nat -> DealAnswer, i: nat)
    requires i <= |pieces|
    ensures CheckFrom(pieces, deal, i) in {Passed, InvalidDeals, ExpiredDeals, OtherError}
    decreases |pieces| - i
  {
    if i < |pieces| { CheckFromResult(pieces, deal, i + 1); }
  }

  /** The action uses no nil pointer, and the event it sends is supported by the sector. */
  predicate Safe(a: Action, s: Sector) { !a.Panic? && (a.Send? ==> Supported(a.event, s)) }

  /** The cutoff of a commit is asked of a chain that has no precommit of the sector. */
  predicate NoPrecommitInfo(env: Env) { env.head.Some? && env.networkKnown && env.preCommit.NotPreCommitted? }

  /** An update that passed its check is submitted to a chain that has no partition, or no sector, of that number. */
  predicate NoSectorOnChain(s: Sector, env: Env) {
    && env.headAfter.Some? && CheckReplicaUpdate(s, env).Passed? && env.proofTypeKnown
    && (|| env.partition.NoPartition?
        || (env.partition.Located? && env.paramsOk && env.config.Some? && env.networkKnown && env.sector.NoSector?))
  }

  /** The message of an update landed, and the update has no commitment to compare with. */
  predicate NoUpdateCommitment(s: Sector, env: Env) {
    && s.replicaUpdateMessage != "" && s.updateSealed.None?
    && env.wait.Waited? && env.wait.exit.ExitOk? && env.sector.OnChain?
  }

  /** The chain has no answer that the handler of the state goes on to use. */
  predicate MissingAnswer(s: Sector, env: Env) {
    || (s.state == SubmitCommitAggregate && NoPrecommitInfo(env))
    || (s.state == SubmitReplicaUpdate && NoSectorOnChain(s, env))
  }

  /** Exactly when a handler uses a nil pointer. */
  predicate UsesNil(s: Sector, env: Env) {
    MissingAnswer(s, env) || (s.state == ReplicaUpdateWait && NoUpdateCommitment(s, env))
  }

  lemma PreCommitParamsSafe(s: Sector, env: Env)
    requires HasComms(s)
    ensures PreCommitParams(s, env).Some? ==> Safe(PreCommitParams(s, env).value, s)
  {
    CheckPiecesResult(s, env, false);
  }

  lemma PreCommittingSafe(s: Sector, env: Env)
    requires HasComms(s) && GoodIds(env)
    ensures Safe(HandlePreCommitting(s, env), s)
    ensures Safe(HandleSubmitPreCommitBatch(s, env), s)
  {
    PreCommitParamsSafe(s, env);
  }

  lemma PreCommitFailedSafe(s: Sector, env: Env)
    requires HasComms(s)
    ensures Safe(HandlePreCommitFailed(s, env), s)
  {
    CheckPiecesResult(s, env, false);
  }

  lemma CommittingSafe(s: Sector, env: Env)
    requires HasComms(s)
    ensures Safe(HandleCommitting(s, env), s)
  {
    CheckCommitSafe(s, env);
  }

  lemma SubmitCommitSafe(s: Sector, env: Env)
    requires HasComms(s) && s.proof.Some? && GoodIds(env)
    ensures Safe(HandleSubmitCommit(s, env), s)
  {
    CheckCommitSafe(s, env);
  }

  /** The aggregate handler uses a nil pointer exactly when the chain has no precommit for the cutoff. */
  lemma AggregatePanicsExactly(s: Sector, env: Env)
    requires HasComms(s) && s.proof.Some?
    ensures HandleSubmitCommitAggregate(s, env).Panic? <==> NoPrecommitInfo(env)
    ensures HandleSubmitCommitAggregate(s, env).Send? ==> Supported(HandleSubmitCommitAggregate(s, env).event, s)
  {
    CheckCommitSafe(s, env.(preCommit := env.preCommitAfter));
  }

  lemma CommitFailedSafe(s: Sector, env: Env)
    requires HasComms(s) && (s.commitMessage != "" ==> s.proof.Some?)
    ensures Safe(HandleCommitFailed(s, env), s)
  {
    CheckCommitSafe(s, env);
  }

  lemma WaitsSafe(s: Sector, env: Env)
    requires HasComms(s)
    ensures Safe(HandlePreCommitWait(s, env), s) && Safe(HandleWaitSeed(env), s)
    ensures s.proof.Some? ==> Safe(HandleCommitWait(s, env), s)
  {
  }

  lemma EarlySafe(s: Sector, env: Env)
    requires s.commitMessage != "" ==> HasComms(s)
    ensures Safe(HandleWaitDeals(env), s) && Safe(HandleAddPiece(env), s) && Safe(HandlePacking(env), s)
    ensures Safe(HandleGetTicket(s, env), s)
  {
  }

  lemma PreCommitStepsSafe(s: Sector, env: Env)
    ensures Safe(HandlePreCommit1(s, env), s) && Safe(HandlePreCommit2(s, env), s)
  {
  }

  lemma RetriesSafe(s: Sector, env: Env)
    ensures Safe(HandleSealPreCommit2Failed(s, env), s) && Safe(HandleComputeProofFailed(s, env), s)
    ensures Safe(HandleFinalizeSector(s, env), s)
  {
  }

  lemma UpgradeWorkSafe(s: Sector, env: Env)
    ensures Safe(HandleReplicaUpdate(s, env), s) && Safe(HandleProveReplicaUpdate(s, env), s)
    ensures Safe(HandleFinalizeReplicaUpdate(env), s) && Safe(HandleReleaseSectorKey(env), s)
  {
  }

  /**
   The handler that submits a replica update uses a nil pointer exactly when its check passes and the chain then has
   no partition or no sector; the handler that waits for one, exactly when the update has no commitment.
   */
  lemma UpdatePanicsExactly(s: Sector, env: Env)
    ensures HandleSubmitReplicaUpdate(s, env).Panic? <==> NoSectorOnChain(s, env)
    ensures HandleReplicaUpdateWait(s, env).Panic? <==> NoUpdateCommitment(s, env)
    ensures HandleSubmitReplicaUpdate(s, env).Send? ==> Supported(HandleSubmitReplicaUpdate(s, env).event, s)
    ensures HandleReplicaUpdateWait(s, env).Send? ==> Supported(HandleReplicaUpdateWait(s, env).event, s)
  {
  }

  lemma UpgradeFailedSafe(s: Sector, env: Env)
    ensures Safe(HandleSubmitReplicaUpdateFailed(s, env), s) && Safe(HandleAbortUpgrade(s, env), s)
  {
  }

  lemma LateSafe(s: Sector, env: Env)
    ensures Safe(HandleRecoverDealIDs(s, env, SectorRemove), s)
      && Safe(HandleRecoverDealIDs(s, env, SectorAbortUpgrade), s)
    ensures Safe(HandleDealsExpired(env), s) && Safe(HandleSnapDealsExpired(s), s)
    ensures Safe(HandleTerminating(env), s) && Safe(HandleTerminateWait(s, env), s)
    ensures Safe(HandleTerminateFinality(env), s) && Safe(HandleTerminateFailed(env), s)
    ensures Safe(HandleRemoving(env), s) && Safe(HandleFaultReported(s, env), s)
  {
  }

  lemma SealingHandlerSafe(s: Sector, env: Env)
    requires Recorded(s) && GoodIds(env) && (PreCommitState(s.state) || CommitState(s.state))
    ensures Handle(s, env).Panic? <==> s.state == SubmitCommitAggregate && NoPrecommitInfo(env)
    ensures Handle(s, env).Send? ==> Supported(Handle(s, env).event, s)
  {
    if s.state == SubmitCommitAggregate {
      AggregatePanicsExactly(s, env);
    } else if Precommitting(s.state) {
      PreCommittingSafe(s, env);
      WaitsSafe(s, env);
      CommittingSafe(s, env);
      RetriesSafe(s, env);
      if HoldsProof(s.state) { SubmitCommitSafe(s, env); }
    } else {
      PreCommitStepsSafe(s, env);
    }
  }

  lemma FailedHandlerSafe(s: Sector, env: Env)
    requires Recorded(s) && GoodIds(env) && FailedState(s.state)
    ensures Safe(Handle(s, env), s)
  {
    if s.state == PreCommitFailed { PreCommitFailedSafe(s, env); }
    else if s.state == CommitFailed { CommitFailedSafe(s, env); }
    else if s.state == RecoverDealIDs || s.state == DealsExpired { LateSafe(s, env); }
    else { RetriesSafe(s, env); }
  }

  lemma UpdateHandlerPanics(s: Sector, env: Env)
    requires s.state == SubmitReplicaUpdate || s.state == ReplicaUpdateWait
    ensures Handle(s, env).Panic? <==>
      if s.state == SubmitReplicaUpdate then NoSectorOnChain(s, env) else NoUpdateCommitment(s, env)
    ensures Handle(s, env).Send? ==> Supported(Handle(s, env).event, s)
  {
    UpdatePanicsExactly(s, env);
  }

  lemma SnapHandlerSafe(s: Sector, env: Env)
    requires Recorded(s) && SnapState(s.state) && s.state != SubmitReplicaUpdate && s.state != ReplicaUpdateWait
    ensures Safe(Handle(s, env), s)
  {
    if SnapWorkState(s.state) {
      EarlySafe(s, env);
      UpgradeWorkSafe(s, env);
    } else {
      UpgradeFailedSafe(s, env);
      LateSafe(s, env);
    }
  }

  lemma OtherHandlerSafe(s: Sector, env: Env)
    requires Recorded(s) && GoodIds(env)
    requires !PreCommitState(s.state) && !CommitState(s.state) && !FailedState(s.state) && !SnapState(s.state)
    ensures Safe(Handle(s, env), s)
  {
    if InputState(s.state) { EarlySafe(s, env); } else { LateSafe(s, env); }
  }

  /** Over all states: exactly when a handler uses a nil pointer, and that what it sends is supported. */
  lemma HandlerSafe(s: Sector, env: Env)
    requires Recorded(s) && GoodIds(env)
    ensures Handle(s, env).Panic? <==> UsesNil(s, env)
    ensures Handle(s, env).Send? ==> Supported(Handle(s, env).event, s)
  {
    if PreCommitState(s.state) || CommitState(s.state) { SealingHandlerSafe(s, env); }
    else if FailedState(s.state) { FailedHandlerSafe(s, env); }
    else if s.state == SubmitReplicaUpdate || s.state == ReplicaUpdateWait { UpdateHandlerPanics(s, env); }
    else if SnapState(s.state) { SnapHandlerSafe(s, env); }
    else { OtherHandlerSafe(s, env); }
  }

  // ---------- whole runs ----------

  predicate MachineOk(m: Machine) { Recorded(m.sector) && AllSupported(m.pending, m.sector) }

  lemma StepKeepsOk(m: Machine, step: Step)
    requires MachineOk(m) && Enabled(m, step)
    ensures MachineOk(Next(m, step))
  {
    match step
    case Arrive(e) =>
    case HandlerDone(env) => HandlerSafe(m.sector, env);
    case PlanBatch(n) =>
      var p := Plan(m.sector, m.pending[..n]);
      PlanKeeps(m.sector, m.pending[..n]);
      AllSupportedExtends(m.pending[p.processed..], m.sector, p.sector);
  }

  lemma {:induction false} RunKeepsOk(run: seq<Machine>, steps: seq<Step>, k: nat)
    requires IsRun(run, steps) && k <= |steps|
    ensures MachineOk(run[k])
  {
    if k > 0 {
      RunKeepsOk(run, steps, k - 1);
      StepKeepsOk(run[k - 1], steps[k - 1]);
    }
  }

  /**
   Over every run, however events overlap: the pipeline from PreCommitting on has both commitments, the states that
   submit or wait for a commit have a proof, the waiting states have their message, so no test for missing data in a
   sealing handler fires. In every state the handler uses a nil pointer exactly when the chain has no answer that it
   goes on to use, or when an update whose message landed has lost its commitment.
   */
  lemma PipelineHasItsData(run: seq<Machine>, steps: seq<Step>, k: nat)
    requires IsRun(run, steps) && k <= |steps|
    ensures Recorded(run[k].sector)
    ensures !NilGuardFires(run[k].sector)
    ensures run[k].sector.state == RecoverDealIDs && run[k].sector.ret.Some? && run[k].sector.ret != Some(PreCommit1)
            ==> HasComms(run[k].sector)
    ensures forall env :: GoodIds(env) ==> (Handle(run[k].sector, env).Panic? <==> UsesNil(run[k].sector, env))
  {
    RunKeepsOk(run, steps, k);
    forall env | GoodIds(env) ensures Handle(run[k].sector, env).Panic? <==> UsesNil(run[k].sector, env) {
      HandlerSafe(run[k].sector, env);
    }
  }

  // ---------- upgrades ----------

  /** What one planning round may do to an upgrade. */
  predicate UpgradeStep(s: Sector, t: Sector) {
    && (!SnapState(s.state) && SnapState(t.state) ==> Started(s, t))
    && (SnapState(s.state) && SnapState(t.state) ==> t.ccUpdate == s.ccUpdate && t.ccPieces == s.ccPieces)
    && (SnapState(s.state) && t.state == Proving && t.ccUpdate != s.ccUpdate ==> Reverted(s, t))
    && (s.state == AbortUpgrade && t.state == Proving ==> Reverted(s, t))
    && (SnapState(s.state) ==> SnapState(t.state) || t.state in {Proving, Terminating, Removing})
  }

  predicate Started(s: Sector, t: Sector) {
    s.state == Available && t.state == SnapDealsWaitDeals && t.ccUpdate && t.ccPieces == s.pieces && t.pieces == []
  }

  predicate Reverted(s: Sector, t: Sector) {
    && t.pieces == s.ccPieces && t.ccPieces == []
    && !t.ccUpdate
    && t.updateSealed.None? && t.updateUnsealed.None?
    && t.replicaUpdateProof.None? && t.replicaUpdateMessage == ""
  }

  /** How the planner table enters and leaves an upgrade. */
  predicate UpgradeMove(s: SectorState, k: EventType, next: SectorState) {
    && (!SnapState(s) && SnapState(next) ==> s == Available && k == SectorStartCCUpdate && next == SnapDealsWaitDeals)
    && (k == SectorStartCCUpdate ==> s == Available)
    && (k == SectorRevertUpgradeToProving <==> s == AbortUpgrade)
    && (s == AbortUpgrade ==> next == Proving)
    && (SnapState(s) ==> SnapState(next) || next == Proving)
  }

  lemma SnapUpgrades(s: SectorState, k: EventType)
    requires RuleFor(s, k).On? && SnapState(s)
    ensures UpgradeMove(s, k, RuleFor(s, k).next)
  {
  }

  lemma FailedUpgrades(s: SectorState, k: EventType)
    requires RuleFor(s, k).On? && FailedState(s)
    ensures UpgradeMove(s, k, RuleFor(s, k).next)
  {
  }

  lemma TableUpgrades(s: SectorState, k: EventType)
    requires RuleFor(s, k).On?
    ensures UpgradeMove(s, k, RuleFor(s, k).next)
  {
    if SnapState(s) { SnapUpgrades(s, k); }
    else if FailedState(s) { FailedUpgrades(s, k); }
  }

  lemma RuleUpgrades(s: Sector, e: Event, next: SectorState)
    requires UpgradeMove(s.state, e.kind, next)
    ensures UpgradeStep(s, Apply(e, s).(state := next))
  {
  }

  lemma GlobalUpgrades(s: Sector, e: Event)
    requires Global(e) && Supported(e, s)
    ensures UpgradeStep(s, ApplyGlobal(e, s))
  {
  }

  lemma ReturnUpgrades(s: Sector, e: Event)
    requires s.state == RecoverDealIDs && e.kind == SectorUpdateDealIDs && ReturnOk(s.ret, s)
    ensures UpgradeStep(s, Return(Apply(e, s)).sector)
  {
  }

  lemma FirstUpgrades(s: Sector, e: Event)
    requires ReturnOk(s.ret, s) && Supported(e, s)
    ensures UpgradeStep(s, PlanFirst(s, e).sector)
  {
    if Global(e) { GlobalUpgrades(s, e); return; }
    StayingEvents(s.state, e.kind);
    match RuleFor(s.state, e.kind)
    case On(next) =>
      TableUpgrades(s.state, e.kind);
      RuleUpgrades(s, e, next);
    case Returning => ReturnUpgrades(s, e);
    case _ =>
      assert PlanFirst(s, e).sector == s;
  }

  lemma {:induction false} PlanOneUpgrades(s: Sector, events: seq<Event>)
    requires Recorded(s) && AllSupported(events, s)
    ensures UpgradeStep(s, PlanOne(s, events).sector)
    decreases |events|
  {
    if events != [] {
      assert Supported(events[0], s);
      FirstUpgrades(s, events[0]);
      FirstKeeps(s, events[0]);
      if PlanFirst(s, events[0]).GoesOn? { PlanOneUpgrades(s, events[1..]); }
    }
  }

  lemma {:induction false} PlanCommittingStaysOut(s: Sector, events: seq<Event>)
    requires !SnapState(s.state) && forall k :: 0 <= k < |events| ==> events[k].kind != SectorForceState
    ensures !SnapState(PlanCommitting(s, events).sector.state)
    decreases |events|
  {
    if events == [] { return; }
    var e := events[0];
    if Global(e) {
      if !Interrupts(e) { PlanCommittingStaysOut(ApplyGlobal(e, s), events[1..]); }
    } else if CommittingNext(e).Some? {
      if SameSeed(e, s) { PlanCommittingStaysOut(s, events[1..]); }
      else if e.kind != SectorSeedReady {
        PlanCommittingStaysOut(CommittingApply(e, s).(state := CommittingNext(e).value), events[1..]);
      }
    }
  }

  lemma FinalUpgrades(s: Sector, events: seq<Event>)
    requires AllSupported(events, s)
    ensures UpgradeStep(s, PlanFinal(s, events).sector)
  {
    if events != [] && Global(events[0]) {
      assert Supported(events[0], s);
      GlobalUpgrades(s, events[0]);
    }
  }

  lemma PlanUpgrades(s: Sector, events: seq<Event>)
    requires Recorded(s) && AllSupported(events, s)
    ensures UpgradeStep(s, Plan(s, events).sector)
  {
    if s.state == Committing {
      forall k | 0 <= k < |events| ensures events[k].kind != SectorForceState { assert Supported(events[k], s); }
      PlanCommittingStaysOut(s, events);
    } else {
      PlanOneUpgrades(s, events);
      FinalUpgrades(s, events);
    }
  }

  lemma StepUpgrades(m: Machine, step: Step)
    requires MachineOk(m) && Enabled(m, step)
    ensures UpgradeStep(m.sector, Next(m, step).sector)
  {
    if step.PlanBatch? { PlanUpgrades(m.sector, m.pending[..step.n]); }
  }

  function Sectors(run: seq<Machine>): (ss: seq<Sector>)
    ensures |ss| == |run| && forall k :: 0 <= k < |ss| ==> ss[k] == run[k].sector
  {
    seq(|run|, k requires 0 <= k < |run| => run[k].sector)
  }

  /** A history in which every change is one a planning round may make to an upgrade. */
  ghost predicate UpgradeTrail(ss: seq<Sector>) {
    |ss| > 0 && !SnapState(ss[0].state) && forall k :: 0 < k < |ss| ==> UpgradeStep(ss[k - 1], ss[k])
  }

  lemma RunIsTrail(run: seq<Machine>, steps: seq<Step>)
    requires IsRun(run, steps)
    ensures UpgradeTrail(Sectors(run))
  {
    forall k | 0 < k < |run| ensures UpgradeStep(run[k - 1].sector, run[k].sector) {
      RunKeepsOk(run, steps, k - 1);
      StepUpgrades(run[k - 1], steps[k - 1]);
    }
  }

  /** The upgrade the sector is in at k was started at i. */
  ghost predicate UpgradedSince(ss: seq<Sector>, i: nat, k: nat)
    requires i < k < |ss|
  {
    Started(ss[i], ss[i + 1]) && forall j :: i < j <= k ==> SnapState(ss[j].state)
  }

  /** An upgrade remembers the pieces the sector had when it was started. */
  lemma {:induction false} UpgradeRemembers(ss: seq<Sector>, k: nat) returns (i: nat)
    requires UpgradeTrail(ss) && k < |ss| && SnapState(ss[k].state)
    ensures i < k && UpgradedSince(ss, i, k)
    ensures ss[k].ccUpdate && ss[k].ccPieces == ss[i].pieces
  {
    assert k > 0 && UpgradeStep(ss[k - 1], ss[k]);
    if SnapState(ss[k - 1].state) {
      i := UpgradeRemembers(ss, k - 1);
    } else {
      i := k - 1;
    }
  }

  /** In every run a sector in an upgrade is marked as such. */
  lemma UpgradesAreMarked(run: seq<Machine>, steps: seq<Step>, k: nat)
    requires IsRun(run, steps) && k <= |steps| && SnapState(run[k].sector.state)
    ensures run[k].sector.ccUpdate
  {
    RunIsTrail(run, steps);
    var _ := UpgradeRemembers(Sectors(run), k);
  }

  /**
   However an upgrade wanders, when its abort is reverted the sector is back in Proving with the pieces it had when
   the upgrade was started, and nothing of the upgrade is left.
   */
  lemma AbortRestores(run: seq<Machine>, steps: seq<Step>, k: nat)
    requires IsRun(run, steps) && k < |steps|
    requires run[k].sector.state == AbortUpgrade && run[k + 1].sector.state == Proving
    ensures exists i: nat ::
      i < k && UpgradedSince(Sectors(run), i, k) && run[k + 1].sector.pieces == run[i].sector.pieces
    ensures Reverted(run[k].sector, run[k + 1].sector)
  {
    RunIsTrail(run, steps);
    var i := UpgradeRemembers(Sectors(run), k);
    assert UpgradeStep(Sectors(run)[k], Sectors(run)[k + 1]);
    assert UpgradedSince(Sectors(run), i, k);
  }
}
