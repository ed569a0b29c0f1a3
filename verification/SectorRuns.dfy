/**
 Handler-driven runs of the sector machine: the handler of the current state sends one event and it is planned, or a
 user event arrives and is planned. Retries are bounded over all such runs.
 */
module SectorRuns {
  import opened Options
  import opened SectorFsm
  import opened SectorHandlers
  import opened SectorSafety

  datatype Move = User(e: Event) | Handler(env: Env)

  predicate Allowed(m: Move) {
    match m
    case User(e) => UserEvent(e)
    case Handler(env) => GoodIds(env)
  }

  /** The event a move puts to the planner. */
  function Sent(s: Sector, m: Move): Option<Event> {
    match m
    case User(e) => Some(e)
    case Handler(env) => if Handle(s, env).Send? then Some(Handle(s, env).event) else None
  }

  function After(s: Sector, m: Move): Sector {
    var e := Sent(s, m);
    if e.Some? then PlanEvent(s, e.value) else s
  }

  ghost predicate IsHistory(ss: seq<Sector>, moves: seq<Move>) {
    && |ss| == |moves| + 1
    && ss[0] == NEW_SECTOR
    && forall k :: 0 <= k < |moves| ==> Allowed(moves[k]) && ss[k + 1] == After(ss[k], moves[k])
  }

  // ---------- what one event does ----------

  /** The ways one event changes a sector. */
  predicate Changes(s: Sector, e: Event, t: Sector) {
    || t == s
    || (Global(e) && (t == s.(state := Terminating) || t == s.(state := Removing)))
    || (s.state == Committing && CommittingNext(e).Some?
      && t == CommittingApply(e, s).(state := CommittingNext(e).value))
    || (s.state != Committing && RuleFor(s.state, e.kind).On?
      && t == Apply(e, s).(state := RuleFor(s.state, e.kind).next))
    || (s.state == RecoverDealIDs && s.ret.Some? && e.kind == SectorUpdateDealIDs && t == Return(Apply(e, s)).sector)
  }

  lemma FirstChanges(s: Sector, e: Event)
    requires Recorded(s) && Supported(e, s) && s.state != Committing
    requires s.state == RecoverDealIDs ==> s.ret.Some?
    ensures Changes(s, e, PlanFirst(s, e).sector)
  {
    StayingEvents(s.state, e.kind);
    FirstKeeps(s, e);
  }

  lemma PlannerChanges(s: Sector, e: Event)
    requires Recorded(s) && Supported(e, s)
    requires s.state == RecoverDealIDs ==> s.ret.Some?
    ensures Changes(s, e, Planner(s, [e]).sector)
  {
    if s.state == Committing {
      CommittingOne(s, e);
    } else {
      FirstChanges(s, e);
      FirstKeeps(s, e);
      assert PlanOne(PlanFirst(s, e).sector, [e][1..]) == Planned(PlanFirst(s, e).sector, 0, true);
    }
  }

  lemma CommittingOne(s: Sector, e: Event)
    requires s.state == Committing && Supported(e, s)
    ensures Changes(s, e, PlanCommitting(s, [e]).sector)
  {
    assert [e][1..] == [];
  }

  lemma TableAvoidsPackingFailed(s: SectorState, k: EventType)
    ensures RuleFor(s, k).On? ==> RuleFor(s, k).next != PackingFailed
  {
  }

  lemma NeverPackingFailed(s: Sector, e: Event, t: Sector)
    requires Recorded(s) && Changes(s, e, t) && s.state != PackingFailed
    ensures t.state != PackingFailed
  {
    TableAvoidsPackingFailed(s.state, e.kind);
  }

  lemma PlanEventChanges(s: Sector, e: Event)
    requires Recorded(s) && Supported(e, s) && s.state != PackingFailed
    requires s.state == RecoverDealIDs ==> s.ret.Some?
    ensures Changes(s, e, PlanEvent(s, e))
  {
    PlannerChanges(s, e);
    NeverPackingFailed(s, e, Planner(s, [e]).sector);
  }

  // ---------- what the handlers' guards add ----------

  /** What the sender of an event made sure of. */
  predicate Guarded(s: Sector, e: Event) {
    && (s.state == SealPreCommit2Failed && e.kind == SectorRetrySealPreCommit2 ==> s.preCommit2Fails <= 3)
    && (s.state == ComputeProofFailed && e.kind == SectorRetryComputeProof ==> s.invalidProofs <= 1)
    && (e.kind == SectorInvalidDealIDs && !SnapState(s.state) ==>
      e.ret.Some? && (e.ret == Some(PreCommit1) <==> s.state == PreCommit1))
    && (s.state == ReplicaUpdateFailed && e.kind == SectorRetryProveReplicaUpdate ==>
      s.updateSealed.Some? && s.updateUnsealed.Some?)
    && (e.kind == SectorRetrySubmitReplicaUpdateWait ==> s.replicaUpdateMessage != "")
    && (e.kind == SectorReplicaUpdateSubmitted ==> s.updateSealed.Some? && e.message != "")
  }

  lemma SubmitUpdateGuarded(s: Sector, env: Env)
    requires s.state == SubmitReplicaUpdate && GoodIds(env) && Handle(s, env).Send?
    ensures Guarded(s, Handle(s, env).event)
  {
    CheckPiecesResult(s, env, true);
  }

  lemma SnapGuarded(s: Sector, env: Env)
    requires SnapState(s.state) && GoodIds(env) && Handle(s, env).Send?
    ensures Guarded(s, Handle(s, env).event)
  {
    if s.state == SubmitReplicaUpdate {
      SubmitUpdateGuarded(s, env);
    } else {
      CheckPiecesResult(s, env, true);
    }
  }

  lemma FailedGuarded(s: Sector, env: Env)
    requires FailedState(s.state) && Handle(s, env).Send?
    ensures Guarded(s, Handle(s, env).event)
  {
  }

  lemma InputGuarded(s: Sector, env: Env)
    requires InputState(s.state) && Handle(s, env).Send?
    ensures Guarded(s, Handle(s, env).event)
  {
  }

  lemma PreCommitGuarded(s: Sector, env: Env)
    requires PreCommitState(s.state) && Handle(s, env).Send?
    ensures Guarded(s, Handle(s, env).event)
  {
  }

  lemma CommitGuarded(s: Sector, env: Env)
    requires CommitState(s.state) && Handle(s, env).Send?
    ensures Guarded(s, Handle(s, env).event)
  {
  }

  lemma SentIsGuarded(s: Sector, m: Move)
    requires Recorded(s) && Allowed(m) && Sent(s, m).Some?
    ensures Guarded(s, Sent(s, m).value)
    ensures Supported(Sent(s, m).value, s)
  {
    if m.User? { return; }
    HandlerSafe(s, m.env);
    if SnapState(s.state) { SnapGuarded(s, m.env); }
    else if FailedState(s.state) { FailedGuarded(s, m.env); }
    else if InputState(s.state) { InputGuarded(s, m.env); }
    else if PreCommitState(s.state) { PreCommitGuarded(s, m.env); }
    else if CommitState(s.state) { CommitGuarded(s, m.env); }
  }

  // ---------- what holds of every sector in a history ----------

  /** The retry counter of the second precommit step. */
  predicate CountersOk(s: Sector) {
    && s.preCommit2Fails <= 4
    && (s.state == PreCommit2 ==> s.preCommit2Fails <= 3)
    && (s.state == SealPreCommit2Failed ==> 1 <= s.preCommit2Fails)
  }

  /** The data of an upgrade, and the return state of a deal recovery. */
  predicate UpgradeData(s: Sector) {
    && (s.state == ProveReplicaUpdate ==> s.updateSealed.Some? && s.updateUnsealed.Some?)
    && (s.state == ReplicaUpdateWait || s.state == UpdateActivating ==> s.replicaUpdateMessage != "")
    && (s.replicaUpdateMessage != "" ==> s.updateSealed.Some?)
    && (s.state == RecoverDealIDs ==> s.ret.Some?)
    && s.state != PackingFailed
  }

  /** How the table reaches the states these promises are about. */
  predicate CountedMove(s: SectorState, k: EventType, next: SectorState) {
    && (next == PreCommit2 ==> k == SectorPreCommit1 || (s == SealPreCommit2Failed && k == SectorRetrySealPreCommit2))
    && (next == SealPreCommit2Failed || k == SectorSealPreCommit2Failed ==>
      s == PreCommit2 && k == SectorSealPreCommit2Failed && next == SealPreCommit2Failed)
    && (next == ProveReplicaUpdate ==>
      k == SectorReplicaUpdate || (s == ReplicaUpdateFailed && k == SectorRetryProveReplicaUpdate))
    && (next == ReplicaUpdateWait ==>
      k == SectorReplicaUpdateSubmitted || (s == ReplicaUpdateFailed && k == SectorRetrySubmitReplicaUpdateWait))
    && (next == UpdateActivating ==> s == ReplicaUpdateWait && k == SectorReplicaUpdateLanded)
    && (next == RecoverDealIDs ==> k == SectorInvalidDealIDs && !SnapState(s))
    && next != PackingFailed
  }

  lemma TableCounts(s: SectorState, k: EventType)
    requires RuleFor(s, k).On?
    ensures CountedMove(s, k, RuleFor(s, k).next)
  {
  }

  /** What an event writes of the counters. */
  predicate CounterWrites(e: Event, s: Sector, t: Sector) {
    && t.preCommit2Fails == (
         if e.kind == SectorPreCommit1 || e.kind == SectorSealPreCommit1Failed then 0
         else if e.kind == SectorSealPreCommit2Failed then s.preCommit2Fails + 1
         else s.preCommit2Fails)
    && t.invalidProofs == (
         if e.kind == SectorSealPreCommit1Failed || e.kind == SectorSealPreCommit2Failed then 0
         else if e.kind == SectorRetryComputeProof || e.kind == SectorRetryInvalidProof then s.invalidProofs + 1
         else s.invalidProofs)
  }

  lemma ApplyCounts(e: Event, s: Sector)
    ensures CounterWrites(e, s, Apply(e, s))
  {
  }

  /** What an event writes of the upgrade data. */
  predicate UpgradeWrites(e: Event, s: Sector, t: Sector) {
    && t.ret == (if e.kind == SectorInvalidDealIDs then e.ret else s.ret)
    && (e.kind == SectorReplicaUpdate ==> t.updateSealed.Some? && t.updateUnsealed.Some?)
    && (e.kind == SectorRevertUpgradeToProving ==> t.replicaUpdateMessage == "")
    && (e.kind != SectorReplicaUpdate && e.kind != SectorRevertUpgradeToProving
        ==> t.updateSealed == s.updateSealed && t.updateUnsealed == s.updateUnsealed)
    && (e.kind == SectorReplicaUpdateSubmitted ==> t.replicaUpdateMessage == e.message)
    && (e.kind != SectorReplicaUpdateSubmitted && e.kind != SectorRevertUpgradeToProving
        ==> t.replicaUpdateMessage == s.replicaUpdateMessage)
  }

  lemma ApplyUpgradeWrites(e: Event, s: Sector)
    ensures UpgradeWrites(e, s, Apply(e, s))
  {
  }

  lemma CountersKept(s: Sector, e: Event, t: Sector)
    requires CountersOk(s) && ReturnOk(s.ret, s) && Guarded(s, e) && Changes(s, e, t)
    ensures CountersOk(t)
  {
    ApplyCounts(e, s);
    if RuleFor(s.state, e.kind).On? { TableCounts(s.state, e.kind); }
  }

  lemma UpgradeDataKept(s: Sector, e: Event, t: Sector)
    requires UpgradeData(s) && ReturnOk(s.ret, s) && Guarded(s, e) && Changes(s, e, t)
    ensures UpgradeData(t)
  {
    ApplyUpgradeWrites(e, s);
    if RuleFor(s.state, e.kind).On? { TableCounts(s.state, e.kind); }
  }

  predicate SectorOk(s: Sector) { Recorded(s) && CountersOk(s) && UpgradeData(s) }

  lemma MoveChanges(s: Sector, m: Move)
    requires SectorOk(s) && Allowed(m) && Sent(s, m).Some?
    ensures Guarded(s, Sent(s, m).value) && Changes(s, Sent(s, m).value, After(s, m)) && Recorded(After(s, m))
  {
    SentIsGuarded(s, m);
    var e := Sent(s, m).value;
    PlanEventChanges(s, e);
    PlanKeeps(s, [e]);
  }

  lemma MoveKeepsOk(s: Sector, m: Move)
    requires SectorOk(s) && Allowed(m)
    ensures SectorOk(After(s, m))
  {
    if Sent(s, m).Some? {
      MoveChanges(s, m);
      CountersKept(s, Sent(s, m).value, After(s, m));
      UpgradeDataKept(s, Sent(s, m).value, After(s, m));
    }
  }

  lemma {:induction false} HistoryKeepsOk(ss: seq<Sector>, moves: seq<Move>, k: nat)
    requires IsHistory(ss, moves) && k <= |moves|
    ensures SectorOk(ss[k])
  {
    if k > 0 {
      HistoryKeepsOk(ss, moves, k - 1);
      MoveKeepsOk(ss[k - 1], moves[k - 1]);
    }
  }

  /**
   In a handler-driven run a handler uses a nil pointer exactly when the chain has no answer that it goes on to use: in
   SubmitCommitAggregate no precommit, in SubmitReplicaUpdate no partition or no sector. No recovery returns to nowhere.
   */
  lemma HandlersPanicExactly(ss: seq<Sector>, moves: seq<Move>, k: nat, env: Env)
    requires IsHistory(ss, moves) && k <= |moves| && GoodIds(env)
    ensures Handle(ss[k], env).Panic? <==> MissingAnswer(ss[k], env)
    ensures ss[k].state == ProveReplicaUpdate ==>
      ss[k].updateSealed.Some? && ss[k].updateUnsealed.Some? && ss[k].commR.Some?
    ensures ss[k].state == RecoverDealIDs ==> ss[k].ret.Some?
  {
    HistoryKeepsOk(ss, moves, k);
    HandlerSafe(ss[k], env);
  }

  /** A recovery gives new deal ids only to pieces of the sector that have a deal. */
  lemma RecoveryNamesDeals(s: Sector, env: Env, failWith: EventType)
    requires failWith != SectorUpdateDealIDs
    requires HandleRecoverDealIDs(s, env, failWith).Send?
      && HandleRecoverDealIDs(s, env, failWith).event.kind == SectorUpdateDealIDs
    ensures forall i :: i in HandleRecoverDealIDs(s, env, failWith).event.updates ==>
      i < |s.pieces| && s.pieces[i].deal.Some?
  {
  }

  // ---------- bounded retries ----------

  predicate Pc2Retry(s: Sector, t: Sector) { s.state == SealPreCommit2Failed && t.state == PreCommit2 }

  predicate Pc1Completed(s: Sector, t: Sector) { s.state == PreCommit1 && t.state == PreCommit2 }

  /** The retries of the second precommit step that are left before the first has to be redone. */
  function Pc2Left(s: Sector): nat
    requires CountersOk(s)
  {
    if s.state == PreCommit2 then 3 - s.preCommit2Fails
    else if s.state == SealPreCommit2Failed then 4 - s.preCommit2Fails else 0
  }

  lemma Pc2Cost(s: Sector, e: Event, t: Sector)
    requires CountersOk(s) && CountersOk(t) && ReturnOk(s.ret, s) && Guarded(s, e) && Changes(s, e, t)
      && !Pc1Completed(s, t)
    ensures (if Pc2Retry(s, t) then 1 else 0) + Pc2Left(t) <= Pc2Left(s)
  {
    ApplyCounts(e, s);
    if RuleFor(s.state, e.kind).On? { TableCounts(s.state, e.kind); }
  }

  predicate ProofRetry(s: Sector, t: Sector) { s.state == ComputeProofFailed && t.state == Committing }

  /** The states before PreCommitting, with the recoveries that return there. */
  predicate Early(s: Sector) {
    || InputState(s.state) || s.state == PreCommit1 || s.state == PreCommit2 || s.state == AddPieceFailed
    || s.state == SealPreCommit1Failed || s.state == SealPreCommit2Failed
    || (s.state == RecoverDealIDs && s.ret == Some(PreCommit1))
  }

  /** The proofs that may still be recomputed before the sector is sealed anew. */
  function ProofsLeft(s: Sector): nat {
    if Early(s) || s.invalidProofs == 0 then 2 else if s.invalidProofs == 1 then 1 else 0
  }

  predicate EarlyState(s: SectorState) {
    InputState(s) || s == PreCommit1 || s == PreCommit2 || s == AddPieceFailed || s == SealPreCommit1Failed
      || s == SealPreCommit2Failed
  }

  /** The table leads back to the early states only through SealPreCommit1Failed. */
  predicate ForwardMove(s: SectorState, k: EventType, next: SectorState) {
    && (EarlyState(next) ==> EarlyState(s) || next == SealPreCommit1Failed)
    && (k == SectorSealPreCommit1Failed ==> next == SealPreCommit1Failed)
    && (k == SectorSealPreCommit2Failed ==> s == PreCommit2)
    && (s == ComputeProofFailed && next == Committing ==> k == SectorRetryComputeProof)
    && (next == RecoverDealIDs ==> k == SectorInvalidDealIDs && !SnapState(s))
  }

  lemma LateForward(s: SectorState, k: EventType)
    requires RuleFor(s, k).On? && (SnapState(s) || FailedState(s))
    ensures ForwardMove(s, k, RuleFor(s, k).next)
  {
  }

  lemma TableForward(s: SectorState, k: EventType)
    requires RuleFor(s, k).On?
    ensures ForwardMove(s, k, RuleFor(s, k).next)
  {
    if SnapState(s) || FailedState(s) { LateForward(s, k); }
  }

  lemma ProofCost(s: Sector, e: Event, t: Sector)
    requires UpgradeData(s) && ReturnOk(s.ret, s) && Guarded(s, e) && Changes(s, e, t)
      && t.state != SealPreCommit1Failed
    ensures (if ProofRetry(s, t) then 1 else 0) + ProofsLeft(t) <= ProofsLeft(s)
  {
    ApplyCounts(e, s);
    ApplyUpgradeWrites(e, s);
    if RuleFor(s.state, e.kind).On? { TableForward(s.state, e.kind); }
  }

  ghost function Pc2Retries(ss: seq<Sector>, i: nat, j: nat): nat
    requires i <= j < |ss|
    decreases j
  {
    if i == j then 0 else Pc2Retries(ss, i, j - 1) + if Pc2Retry(ss[j - 1], ss[j]) then 1 else 0
  }

  lemma Pc2MoveCost(s: Sector, m: Move)
    requires SectorOk(s) && Allowed(m) && CountersOk(After(s, m)) && !Pc1Completed(s, After(s, m))
    ensures (if Pc2Retry(s, After(s, m)) then 1 else 0) + Pc2Left(After(s, m)) <= Pc2Left(s)
  {
    if Sent(s, m).Some? {
      MoveChanges(s, m);
      Pc2Cost(s, Sent(s, m).value, After(s, m));
    }
  }

  /** Every step pays for its retry, unless it completes the first precommit step. */
  ghost predicate Pc2Paid(ss: seq<Sector>) {
    && (forall k :: 0 <= k < |ss| ==> CountersOk(ss[k]))
    && (forall k :: 0 < k < |ss| && !Pc1Completed(ss[k - 1], ss[k]) ==>
         (if Pc2Retry(ss[k - 1], ss[k]) then 1 else 0) + Pc2Left(ss[k]) <= Pc2Left(ss[k - 1]))
  }

  lemma HistoryPaysPc2(ss: seq<Sector>, moves: seq<Move>)
    requires IsHistory(ss, moves)
    ensures Pc2Paid(ss)
  {
    forall k | 0 <= k < |ss| ensures CountersOk(ss[k]) { HistoryKeepsOk(ss, moves, k); }
    forall k | 0 < k < |ss| && !Pc1Completed(ss[k - 1], ss[k])
      ensures (if Pc2Retry(ss[k - 1], ss[k]) then 1 else 0) + Pc2Left(ss[k]) <= Pc2Left(ss[k - 1]) {
      HistoryKeepsOk(ss, moves, k - 1);
      Pc2MoveCost(ss[k - 1], moves[k - 1]);
    }
  }

  lemma {:induction false} Pc2Budget(ss: seq<Sector>, i: nat, j: nat)
    requires Pc2Paid(ss) && i <= j < |ss|
    requires forall k :: i < k <= j ==> !Pc1Completed(ss[k - 1], ss[k])
    ensures Pc2Retries(ss, i, j) + Pc2Left(ss[j]) <= 3
    decreases j
  {
    if i < j { Pc2Budget(ss, i, j - 1); }
  }

  /** The second precommit step fails at most four times, and is retried at most three times per first step. */
  lemma Pc2RetriesBounded(ss: seq<Sector>, moves: seq<Move>, i: nat, j: nat)
    requires IsHistory(ss, moves) && i <= j <= |moves|
    requires forall k :: i < k <= j ==> !Pc1Completed(ss[k - 1], ss[k])
    ensures Pc2Retries(ss, i, j) <= 3
    ensures ss[j].preCommit2Fails <= 4
  {
    HistoryPaysPc2(ss, moves);
    Pc2Budget(ss, i, j);
  }

  ghost function ProofRetries(ss: seq<Sector>, i: nat, j: nat): nat
    requires i <= j < |ss|
    decreases j
  {
    if i == j then 0 else ProofRetries(ss, i, j - 1) + if ProofRetry(ss[j - 1], ss[j]) then 1 else 0
  }

  lemma ProofMoveCost(s: Sector, m: Move)
    requires SectorOk(s) && Allowed(m) && After(s, m).state != SealPreCommit1Failed
    ensures (if ProofRetry(s, After(s, m)) then 1 else 0) + ProofsLeft(After(s, m)) <= ProofsLeft(s)
  {
    if Sent(s, m).Some? {
      MoveChanges(s, m);
      ProofCost(s, Sent(s, m).value, After(s, m));
    }
  }

  /** Every step pays for its proof retry, unless it leads to SealPreCommit1Failed. */
  ghost predicate ProofsPaid(ss: seq<Sector>) {
    forall k :: 0 < k < |ss| && ss[k].state != SealPreCommit1Failed ==>
      (if ProofRetry(ss[k - 1], ss[k]) then 1 else 0) + ProofsLeft(ss[k]) <= ProofsLeft(ss[k - 1])
  }

  lemma HistoryPays(ss: seq<Sector>, moves: seq<Move>)
    requires IsHistory(ss, moves)
    ensures ProofsPaid(ss)
  {
    forall k | 0 < k < |ss| && ss[k].state != SealPreCommit1Failed
      ensures (if ProofRetry(ss[k - 1], ss[k]) then 1 else 0) + ProofsLeft(ss[k]) <= ProofsLeft(ss[k - 1]) {
      HistoryKeepsOk(ss, moves, k - 1);
      ProofMoveCost(ss[k - 1], moves[k - 1]);
    }
  }

  lemma {:induction false} ProofBudget(ss: seq<Sector>, i: nat, j: nat)
    requires ProofsPaid(ss) && i <= j < |ss|
    requires forall k :: i < k <= j ==> ss[k].state != SealPreCommit1Failed
    ensures ProofRetries(ss, i, j) + ProofsLeft(ss[j]) <= 2
    decreases j
  {
    if i < j { ProofBudget(ss, i, j - 1); }
  }

  /** Between two visits to SealPreCommit1Failed a failed proof is recomputed at most twice. */
  lemma ProofRetriesBounded(ss: seq<Sector>, moves: seq<Move>, i: nat, j: nat)
    requires IsHistory(ss, moves) && i <= j <= |moves|
    requires forall k :: i < k < j ==> ss[k].state != SealPreCommit1Failed
    ensures ProofRetries(ss, i, j) <= 2
  {
    HistoryPays(ss, moves);
    if i < j {
      ProofBudget(ss, i, j - 1);
      if ss[j].state != SealPreCommit1Failed { ProofBudget(ss, i, j); }
    }
  }
}
