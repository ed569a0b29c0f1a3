/**
 The sector state machine: states, events, what each event writes into the sector, and the
 planner table that accepts events by state.
 */
module SectorFsm {
  import opened Options

  /** The states of a sector: constants of one type, in the order of the phases. */
  newtype SectorState = n: int | 0 <= n < 61

  // sealing
  const Undefined: SectorState := 0
  const Empty: SectorState := 1
  const WaitDeals: SectorState := 2
  const AddPiece: SectorState := 3
  const Packing: SectorState := 4
  const GetTicket: SectorState := 5
  const PreCommit1: SectorState := 6
  const PreCommit2: SectorState := 7
  const PreCommitting: SectorState := 8
  const SubmitPreCommitBatch: SectorState := 9
  const PreCommitBatchWait: SectorState := 10
  const PreCommitWait: SectorState := 11
  const WaitSeed: SectorState := 12
  const Committing: SectorState := 13
  const CommitFinalize: SectorState := 14
  const SubmitCommit: SectorState := 15
  const SubmitCommitAggregate: SectorState := 16
  const CommitWait: SectorState := 17
  const CommitAggregateWait: SectorState := 18
  const FinalizeSector: SectorState := 19
  const Proving: SectorState := 20
  const Available: SectorState := 21

  // snap deals
  const SnapDealsWaitDeals: SectorState := 22
  const SnapDealsAddPiece: SectorState := 23
  const SnapDealsPacking: SectorState := 24
  const UpdateReplica: SectorState := 25
  const ProveReplicaUpdate: SectorState := 26
  const FinalizeReplicaUpdate: SectorState := 27
  const SubmitReplicaUpdate: SectorState := 28
  const ReplicaUpdateWait: SectorState := 29
  const UpdateActivating: SectorState := 30
  const ReleaseSectorKey: SectorState := 31

  // sealing errors
  const AddPieceFailed: SectorState := 32
  const SealPreCommit1Failed: SectorState := 33
  const SealPreCommit2Failed: SectorState := 34
  const PreCommitFailed: SectorState := 35
  const ComputeProofFailed: SectorState := 36
  const CommitFinalizeFailed: SectorState := 37
  const CommitFailed: SectorState := 38
  const FinalizeFailed: SectorState := 39
  const PackingFailed: SectorState := 40
  const DealsExpired: SectorState := 41
  const RecoverDealIDs: SectorState := 42

  // snap deals errors
  const SnapDealsAddPieceFailed: SectorState := 43
  const SnapDealsDealsExpired: SectorState := 44
  const SnapDealsRecoverDealIDs: SectorState := 45
  const AbortUpgrade: SectorState := 46
  const ReplicaUpdateFailed: SectorState := 47
  const ReleaseSectorKeyFailed: SectorState := 48
  const FinalizeReplicaUpdateFailed: SectorState := 49

  // after sealing
  const Terminating: SectorState := 50
  const TerminateWait: SectorState := 51
  const TerminateFinality: SectorState := 52
  const TerminateFailed: SectorState := 53
  const Removing: SectorState := 54
  const RemoveFailed: SectorState := 55
  const Removed: SectorState := 56
  const Faulty: SectorState := 57
  const FaultReported: SectorState := 58
  const FaultedFinal: SectorState := 59
  const FailedUnrecoverable: SectorState := 60

  /** A piece of a sector; fillers have no deal. */
  datatype Piece = Piece(size: nat, deal: Option<nat>)

  type Cid = nat
  type MessageId = string

  /** The fields of the sector record that planners and handlers read or write. */
  datatype Sector = Sector(
    state: SectorState,
    pieces: seq<Piece>,
    ticketEpoch: int,
    ticketValue: nat,
    preCommit1Out: Option<nat>,
    commD: Option<Cid>,
    commR: Option<Cid>,
    preCommitMessage: MessageId,
    seedEpoch: int,
    seedValue: nat,
    proof: Option<nat>,
    commitMessage: MessageId,
    invalidProofs: nat,
    preCommit2Fails: nat,
    ret: Option<SectorState>,
    ccUpdate: bool,
    ccPieces: seq<Piece>,
    updateSealed: Option<Cid>,
    updateUnsealed: Option<Cid>,
    replicaUpdateProof: Option<nat>,
    replicaUpdateMessage: MessageId,
    faultReportMsg: MessageId,
    terminateMessage: MessageId,
    terminatedAt: int)

  const NEW_SECTOR := Sector(Undefined, [], 0, 0, None, None, None, "", 0, 0, None, "", 0, 0, None,
                             false, [], None, None, None, "", "", "", 0)

  /** The types of events; planners tell events apart by their type only. */
  newtype EventType = n: int | 0 <= n < 76

  // global
  const SectorRestart: EventType := 0
  const SectorFatalError: EventType := 1
  const SectorForceState: EventType := 2
  const SectorTerminate: EventType := 3
  const SectorRemove: EventType := 4

  // normal path
  const SectorStart: EventType := 5
  const SectorStartCC: EventType := 6
  const SectorAddPiece: EventType := 7
  const SectorPieceAdded: EventType := 8
  const SectorAddPieceFailed: EventType := 9
  const SectorRetryWaitDeals: EventType := 10
  const SectorStartPacking: EventType := 11
  const SectorPacked: EventType := 12
  const SectorTicket: EventType := 13
  const SectorOldTicket: EventType := 14
  const SectorPreCommit1: EventType := 15
  const SectorPreCommit2: EventType := 16
  const SectorPreCommitBatch: EventType := 17
  const SectorPreCommitBatchSent: EventType := 18
  const SectorPreCommitLanded: EventType := 19
  const SectorSealPreCommit1Failed: EventType := 20
  const SectorSealPreCommit2Failed: EventType := 21
  const SectorChainPreCommitFailed: EventType := 22
  const SectorPreCommitted: EventType := 23
  const SectorSeedReady: EventType := 24
  const SectorComputeProofFailed: EventType := 25
  const SectorCommitFailed: EventType := 26
  const SectorRetrySubmitCommit: EventType := 27
  const SectorDealsExpired: EventType := 28
  const SectorTicketExpired: EventType := 29
  const SectorCommitted: EventType := 30
  const SectorProofReady: EventType := 31
  const SectorSubmitCommitAggregate: EventType := 32
  const SectorCommitSubmitted: EventType := 33
  const SectorCommitAggregateSent: EventType := 34
  const SectorProving: EventType := 35
  const SectorFinalized: EventType := 36
  const SectorFinalizedAvailable: EventType := 37
  const SectorRetryFinalize: EventType := 38
  const SectorFinalizeFailed: EventType := 39

  // snap deals
  const SectorMarkForUpdate: EventType := 40
  const SectorStartCCUpdate: EventType := 41
  const SectorReplicaUpdate: EventType := 42
  const SectorProveReplicaUpdate: EventType := 43
  const SectorReplicaUpdateSubmitted: EventType := 44
  const SectorReplicaUpdateLanded: EventType := 45
  const SectorUpdateActive: EventType := 46
  const SectorKeyReleased: EventType := 47

  // failed state recovery
  const SectorRetrySealPreCommit1: EventType := 48
  const SectorRetrySealPreCommit2: EventType := 49
  const SectorRetryPreCommit: EventType := 50
  const SectorRetryWaitSeed: EventType := 51
  const SectorRetryPreCommitWait: EventType := 52
  const SectorRetryComputeProof: EventType := 53
  const SectorRetryInvalidProof: EventType := 54
  const SectorRetryCommitWait: EventType := 55
  const SectorInvalidDealIDs: EventType := 56
  const SectorUpdateDealIDs: EventType := 57

  // snap deals failure and recovery
  const SectorRetryReplicaUpdate: EventType := 58
  const SectorRetryProveReplicaUpdate: EventType := 59
  const SectorUpdateReplicaFailed: EventType := 60
  const SectorProveReplicaUpdateFailed: EventType := 61
  const SectorAbortUpgrade: EventType := 62
  const SectorRevertUpgradeToProving: EventType := 63
  const SectorRetrySubmitReplicaUpdateWait: EventType := 64
  const SectorRetrySubmitReplicaUpdate: EventType := 65
  const SectorSubmitReplicaUpdateFailed: EventType := 66
  const SectorReleaseKeyFailed: EventType := 67

  // faults and termination
  const SectorFaulty: EventType := 68
  const SectorFaultReported: EventType := 69
  const SectorFaultedFinal: EventType := 70
  const SectorTerminating: EventType := 71
  const SectorTerminated: EventType := 72
  const SectorTerminateFailed: EventType := 73
  const SectorRemoved: EventType := 74
  const SectorRemoveFailed: EventType := 75

  /** An event: its type and what it carries; an event leaves the fields its type has no use for blank. */
  datatype Event = Event(
    kind: EventType,
    pieces: seq<Piece>,
    value: nat,
    epoch: int,
    sealed: Cid,
    unsealed: Cid,
    message: MessageId,
    ret: Option<SectorState>,
    updates: map<nat, nat>,
    forced: SectorState)

  function Of(kind: EventType): Event { Event(kind, [], 0, 0, 0, 0, "", None, map[], Undefined) }

  predicate Global(e: Event) {
    e.kind == SectorRestart || e.kind == SectorFatalError || e.kind == SectorForceState || e.kind == SectorTerminate
      || e.kind == SectorRemove
  }

  function ApplyGlobal(e: Event, s: Sector): Sector {
    if e.kind == SectorForceState then s.(state := e.forced)
    else if e.kind == SectorTerminate then s.(state := Terminating)
    else if e.kind == SectorRemove then s.(state := Removing)
    else s
  }

  /** True if the event ends the planning of a batch in the Committing state. */
  predicate Interrupts(e: Event) { Global(e) && e.kind != SectorRestart }

  function UpdateDeals(pieces: seq<Piece>, updates: map<nat, nat>): seq<Piece> {
    seq(|pieces|, i requires 0 <= i < |pieces| =>
      if i in updates && pieces[i].deal.Some? then pieces[i].(deal := Some(updates[i])) else pieces[i])
  }

  /** What each event writes into the sector. */
  function Apply(e: Event, s: Sector): Sector {
    if e.kind == SectorPieceAdded then s.(pieces := s.pieces + e.pieces)
    else if e.kind == SectorPacked then s.(pieces := s.pieces + e.pieces)
    else if e.kind == SectorTicket then s.(ticketValue := e.value, ticketEpoch := e.epoch)
    else if e.kind == SectorPreCommit1 then s.(preCommit1Out := Some(e.value), preCommit2Fails := 0)
    else if e.kind == SectorPreCommit2 then s.(commD := Some(e.unsealed), commR := Some(e.sealed))
    else if e.kind == SectorPreCommitBatchSent || e.kind == SectorPreCommitted then s.(preCommitMessage := e.message)
    else if e.kind == SectorSealPreCommit1Failed then s.(invalidProofs := 0, preCommit2Fails := 0)
    else if e.kind == SectorSealPreCommit2Failed then s.(invalidProofs := 0, preCommit2Fails := s.preCommit2Fails + 1)
    else if e.kind == SectorSeedReady then s.(seedValue := e.value, seedEpoch := e.epoch)
    else if e.kind == SectorCommitted || e.kind == SectorProofReady then s.(proof := Some(e.value))
    else if e.kind == SectorCommitSubmitted || e.kind == SectorCommitAggregateSent then s.(commitMessage := e.message)
    else if e.kind == SectorRetryComputeProof || e.kind == SectorRetryInvalidProof
    then s.(invalidProofs := s.invalidProofs + 1)
    else if e.kind == SectorInvalidDealIDs then s.(ret := e.ret)
    else if e.kind == SectorUpdateDealIDs then s.(pieces := UpdateDeals(s.pieces, e.updates))
    else if e.kind == SectorFaultReported then s.(faultReportMsg := e.message)
    else if e.kind == SectorTerminating then s.(terminateMessage := e.message)
    else if e.kind == SectorTerminated then s.(terminatedAt := e.epoch)
    else ApplyUpgrade(e, s)
  }

  /** What the events of a replica update write. */
  function ApplyUpgrade(e: Event, s: Sector): Sector {
    if e.kind == SectorStartCCUpdate then s.(ccUpdate := true, ccPieces := s.pieces, pieces := [])
    else if e.kind == SectorReplicaUpdate then s.(updateSealed := Some(e.sealed), updateUnsealed := Some(e.unsealed))
    else if e.kind == SectorProveReplicaUpdate then s.(replicaUpdateProof := Some(e.value))
    else if e.kind == SectorReplicaUpdateSubmitted then s.(replicaUpdateMessage := e.message)
    else if e.kind == SectorRevertUpgradeToProving then
      s.(ccUpdate := false, updateSealed := None, updateUnsealed := None, replicaUpdateProof := None,
         replicaUpdateMessage := "", pieces := s.ccPieces, ccPieces := [])
    else s
  }

  /** What a planner does with an event: move, stay and look at the next event, return, or refuse. */
  datatype Rule = On(next: SectorState) | Stay | Returning | Unexpected

  function InputRule(s: SectorState, k: EventType): Rule {
    if s == Undefined then (
      if k == SectorStart then On(WaitDeals)
      else if k == SectorStartCC then On(Packing)
      else Unexpected)
    else if s == Empty then (
      if k == SectorAddPiece then On(AddPiece)
      else if k == SectorStartPacking then On(Packing)
      else Unexpected)
    else if s == WaitDeals then (
      if k == SectorAddPiece then On(AddPiece)
      else if k == SectorStartPacking then On(Packing)
      else Unexpected)
    else if s == AddPiece then (
      if k == SectorPieceAdded then On(WaitDeals)
      else if k == SectorStartPacking then Stay
      else if k == SectorAddPiece then Stay
      else if k == SectorAddPieceFailed then On(AddPieceFailed)
      else Unexpected)
    else if s == Packing then (if k == SectorPacked then On(GetTicket) else Unexpected)
    else if s == GetTicket then (
      if k == SectorTicket then On(PreCommit1)
      else if k == SectorCommitFailed then On(CommitFailed)
      else Unexpected)
    else Unexpected
  }

  function PreCommitRule(s: SectorState, k: EventType): Rule {
    if s == PreCommit1 then (
      if k == SectorPreCommit1 then On(PreCommit2)
      else if k == SectorSealPreCommit1Failed then On(SealPreCommit1Failed)
      else if k == SectorDealsExpired then On(DealsExpired)
      else if k == SectorInvalidDealIDs then On(RecoverDealIDs)
      else if k == SectorOldTicket then On(GetTicket)
      else Unexpected)
    else if s == PreCommit2 then (
      if k == SectorPreCommit2 then On(PreCommitting)
      else if k == SectorSealPreCommit2Failed then On(SealPreCommit2Failed)
      else if k == SectorSealPreCommit1Failed then On(SealPreCommit1Failed)
      else if k == SectorOldTicket then On(GetTicket)
      else Unexpected)
    else if s == PreCommitting then (
      if k == SectorPreCommitBatch then On(SubmitPreCommitBatch)
      else if k == SectorPreCommitted then On(PreCommitWait)
      else if k == SectorSealPreCommit1Failed then On(SealPreCommit1Failed)
      else if k == SectorChainPreCommitFailed then On(PreCommitFailed)
      else if k == SectorPreCommitLanded then On(WaitSeed)
      else if k == SectorDealsExpired then On(DealsExpired)
      else if k == SectorInvalidDealIDs then On(RecoverDealIDs)
      else Unexpected)
    else if s == SubmitPreCommitBatch then (
      if k == SectorPreCommitBatchSent then On(PreCommitBatchWait)
      else if k == SectorSealPreCommit1Failed then On(SealPreCommit1Failed)
      else if k == SectorChainPreCommitFailed then On(PreCommitFailed)
      else if k == SectorPreCommitLanded then On(WaitSeed)
      else if k == SectorDealsExpired then On(DealsExpired)
      else if k == SectorInvalidDealIDs then On(RecoverDealIDs)
      else Unexpected)
    else if s == PreCommitBatchWait then PreCommitWaitRule(k)
    else if s == PreCommitWait then PreCommitWaitRule(k)
    else if s == WaitSeed then (
      if k == SectorSeedReady then On(Committing)
      else if k == SectorChainPreCommitFailed then On(PreCommitFailed)
      else Unexpected)
    else Unexpected
  }

  function CommitRule(s: SectorState, k: EventType): Rule {
    if s == CommitFinalize then (
      if k == SectorFinalized then On(SubmitCommit)
      else if k == SectorFinalizedAvailable then On(SubmitCommit)
      else if k == SectorFinalizeFailed then On(CommitFinalizeFailed)
      else Unexpected)
    else if s == SubmitCommit then (
      if k == SectorCommitSubmitted then On(CommitWait)
      else if k == SectorSubmitCommitAggregate then On(SubmitCommitAggregate)
      else if k == SectorCommitFailed then On(CommitFailed)
      else Unexpected)
    else if s == SubmitCommitAggregate then (
      if k == SectorCommitAggregateSent then On(CommitAggregateWait)
      else if k == SectorCommitFailed then On(CommitFailed)
      else if k == SectorRetrySubmitCommit then On(SubmitCommit)
      else Unexpected)
    else if s == CommitWait then CommitWaitRule(k)
    else if s == CommitAggregateWait then CommitWaitRule(k)
    else if s == FinalizeSector then (
      if k == SectorFinalized then On(Proving)
      else if k == SectorFinalizedAvailable then On(Available)
      else if k == SectorFinalizeFailed then On(FinalizeFailed)
      else Unexpected)
    else Unexpected
  }

  function PreCommitWaitRule(k: EventType): Rule {
    if k == SectorChainPreCommitFailed then On(PreCommitFailed)
    else if k == SectorPreCommitLanded then On(WaitSeed)
    else if k == SectorRetryPreCommit then On(PreCommitting)
    else Unexpected
  }

  function CommitWaitRule(k: EventType): Rule {
    if k == SectorProving then On(FinalizeSector)
    else if k == SectorCommitFailed then On(CommitFailed)
    else if k == SectorRetrySubmitCommit then On(SubmitCommit)
    else Unexpected
  }

  function SnapRule(s: SectorState, k: EventType): Rule {
    if s == SnapDealsWaitDeals then (
      if k == SectorAddPiece then On(SnapDealsAddPiece)
      else if k == SectorStartPacking then On(SnapDealsPacking)
      else if k == SectorAbortUpgrade then On(AbortUpgrade)
      else Unexpected)
    else if s == SnapDealsAddPiece then (
      if k == SectorPieceAdded then On(SnapDealsWaitDeals)
      else if k == SectorStartPacking then Stay
      else if k == SectorAddPiece then Stay
      else if k == SectorAddPieceFailed then On(SnapDealsAddPieceFailed)
      else if k == SectorAbortUpgrade then On(AbortUpgrade)
      else Unexpected)
    else if s == SnapDealsPacking then (
      if k == SectorPacked then On(UpdateReplica)
      else if k == SectorAbortUpgrade then On(AbortUpgrade)
      else Unexpected)
    else if s == UpdateReplica then (
      if k == SectorReplicaUpdate then On(ProveReplicaUpdate)
      else if k == SectorUpdateReplicaFailed then On(ReplicaUpdateFailed)
      else if k == SectorDealsExpired then On(SnapDealsDealsExpired)
      else if k == SectorInvalidDealIDs then On(SnapDealsRecoverDealIDs)
      else if k == SectorAbortUpgrade then On(AbortUpgrade)
      else Unexpected)
    else if s == ProveReplicaUpdate then (
      if k == SectorProveReplicaUpdate then On(FinalizeReplicaUpdate)
      else if k == SectorProveReplicaUpdateFailed then On(ReplicaUpdateFailed)
      else if k == SectorDealsExpired then On(SnapDealsDealsExpired)
      else if k == SectorInvalidDealIDs then On(SnapDealsRecoverDealIDs)
      else if k == SectorAbortUpgrade then On(AbortUpgrade)
      else Unexpected)
    else if s == FinalizeReplicaUpdate then (
      if k == SectorFinalized then On(SubmitReplicaUpdate)
      else if k == SectorFinalizeFailed then On(FinalizeReplicaUpdateFailed)
      else Unexpected)
    else if s == SubmitReplicaUpdate then (
      if k == SectorReplicaUpdateSubmitted then On(ReplicaUpdateWait)
      else if k == SectorSubmitReplicaUpdateFailed then On(ReplicaUpdateFailed)
      else Unexpected)
    else if s == ReplicaUpdateWait then (
      if k == SectorReplicaUpdateLanded then On(UpdateActivating)
      else if k == SectorSubmitReplicaUpdateFailed then On(ReplicaUpdateFailed)
      else if k == SectorAbortUpgrade then On(AbortUpgrade)
      else Unexpected)
    else if s == UpdateActivating then (if k == SectorUpdateActive then On(ReleaseSectorKey) else Unexpected)
    else if s == ReleaseSectorKey then (
      if k == SectorKeyReleased then On(Proving)
      else if k == SectorReleaseKeyFailed then On(ReleaseSectorKeyFailed)
      else Unexpected)
    else Unexpected
  }

  function SnapFailedRule(s: SectorState, k: EventType): Rule {
    if s == SnapDealsAddPieceFailed then (
      if k == SectorRetryWaitDeals then On(SnapDealsWaitDeals)
      else if k == SectorStartPacking then Stay
      else if k == SectorAddPiece then Stay
      else if k == SectorAbortUpgrade then On(AbortUpgrade)
      else Unexpected)
    else if s == SnapDealsDealsExpired then (if k == SectorAbortUpgrade then On(AbortUpgrade) else Unexpected)
    else if s == SnapDealsRecoverDealIDs then (
      if k == SectorUpdateDealIDs then On(SubmitReplicaUpdate)
      else if k == SectorAbortUpgrade then On(AbortUpgrade)
      else Unexpected)
    else if s == AbortUpgrade then (if k == SectorRevertUpgradeToProving then On(Proving) else Unexpected)
    else if s == ReplicaUpdateFailed then (
      if k == SectorRetrySubmitReplicaUpdateWait then On(ReplicaUpdateWait)
      else if k == SectorRetrySubmitReplicaUpdate then On(SubmitReplicaUpdate)
      else if k == SectorRetryReplicaUpdate then On(UpdateReplica)
      else if k == SectorRetryProveReplicaUpdate then On(ProveReplicaUpdate)
      else if k == SectorInvalidDealIDs then On(SnapDealsRecoverDealIDs)
      else if k == SectorDealsExpired then On(SnapDealsDealsExpired)
      else if k == SectorAbortUpgrade then On(AbortUpgrade)
      else Unexpected)
    else if s == ReleaseSectorKeyFailed then (if k == SectorUpdateActive then On(ReleaseSectorKey) else Unexpected)
    else if s == FinalizeReplicaUpdateFailed then (
      if k == SectorRetryFinalize then On(FinalizeReplicaUpdate) else Unexpected)
    else Unexpected
  }

  function FailedRule(s: SectorState, k: EventType): Rule {
    if s == AddPieceFailed then (
      if k == SectorRetryWaitDeals then On(WaitDeals)
      else if k == SectorStartPacking then Stay
      else if k == SectorAddPiece then Stay
      else Unexpected)
    else if s == SealPreCommit1Failed then (if k == SectorRetrySealPreCommit1 then On(PreCommit1) else Unexpected)
    else if s == SealPreCommit2Failed then (
      if k == SectorRetrySealPreCommit1 then On(PreCommit1)
      else if k == SectorRetrySealPreCommit2 then On(PreCommit2)
      else Unexpected)
    else if s == PreCommitFailed then (
      if k == SectorRetryPreCommit then On(PreCommitting)
      else if k == SectorRetryPreCommitWait then On(PreCommitWait)
      else if k == SectorRetryWaitSeed then On(WaitSeed)
      else if k == SectorSealPreCommit1Failed then On(SealPreCommit1Failed)
      else if k == SectorPreCommitLanded then On(WaitSeed)
      else if k == SectorDealsExpired then On(DealsExpired)
      else if k == SectorInvalidDealIDs then On(RecoverDealIDs)
      else Unexpected)
    else if s == ComputeProofFailed then (
      if k == SectorRetryComputeProof then On(Committing)
      else if k == SectorSealPreCommit1Failed then On(SealPreCommit1Failed)
      else Unexpected)
    else if s == CommitFinalizeFailed then (if k == SectorRetryFinalize then On(CommitFinalize) else Unexpected)
    else if s == CommitFailed then (
      if k == SectorSealPreCommit1Failed then On(SealPreCommit1Failed)
      else if k == SectorRetryWaitSeed then On(WaitSeed)
      else if k == SectorRetryComputeProof then On(Committing)
      else if k == SectorRetryInvalidProof then On(Committing)
      else if k == SectorRetryPreCommitWait then On(PreCommitWait)
      else if k == SectorChainPreCommitFailed then On(PreCommitFailed)
      else if k == SectorRetryPreCommit then On(PreCommitting)
      else if k == SectorRetryCommitWait then On(CommitWait)
      else if k == SectorRetrySubmitCommit then On(SubmitCommit)
      else if k == SectorDealsExpired then On(DealsExpired)
      else if k == SectorInvalidDealIDs then On(RecoverDealIDs)
      else if k == SectorTicketExpired then On(Removing)
      else Unexpected)
    else if s == FinalizeFailed then (if k == SectorRetryFinalize then On(FinalizeSector) else Unexpected)
    else if s == RecoverDealIDs then (if k == SectorUpdateDealIDs then Returning else Unexpected)
    else Unexpected
  }

  function PostSealRule(s: SectorState, k: EventType): Rule {
    if s == Proving then (
      if k == SectorFaultReported then On(FaultReported)
      else if k == SectorFaulty then On(Faulty)
      else if k == SectorMarkForUpdate then On(Available)
      else Unexpected)
    else if s == Available then (
      if k == SectorStartCCUpdate then On(SnapDealsWaitDeals)
      else if k == SectorAbortUpgrade then On(Proving)
      else Unexpected)
    else if s == Terminating then (
      if k == SectorTerminating then On(TerminateWait)
      else if k == SectorTerminateFailed then On(TerminateFailed)
      else Unexpected)
    else if s == TerminateWait then (
      if k == SectorTerminated then On(TerminateFinality)
      else if k == SectorTerminateFailed then On(TerminateFailed)
      else Unexpected)
    else if s == TerminateFinality then (if k == SectorTerminateFailed then On(TerminateFailed) else Unexpected)
    else if s == Removing then (
      if k == SectorRemoved then On(Removed)
      else if k == SectorRemoveFailed then On(RemoveFailed)
      else Unexpected)
    else if s == Faulty then (if k == SectorFaultReported then On(FaultReported) else Unexpected)
    else Unexpected
  }

  predicate InputState(s: SectorState) {
    s == Undefined || s == Empty || s == WaitDeals || s == AddPiece || s == Packing || s == GetTicket
  }

  predicate PreCommitState(s: SectorState) {
    s == PreCommit1 || s == PreCommit2 || s == PreCommitting || s == SubmitPreCommitBatch || s == PreCommitBatchWait ||
    s == PreCommitWait || s == WaitSeed
  }

  predicate CommitState(s: SectorState) {
    s == Committing || s == CommitFinalize || s == SubmitCommit || s == SubmitCommitAggregate || s == CommitWait ||
    s == CommitAggregateWait || s == FinalizeSector
  }

  predicate SnapWorkState(s: SectorState) {
    s == SnapDealsWaitDeals || s == SnapDealsAddPiece || s == SnapDealsPacking || s == UpdateReplica ||
    s == ProveReplicaUpdate || s == FinalizeReplicaUpdate || s == SubmitReplicaUpdate || s == ReplicaUpdateWait ||
    s == UpdateActivating || s == ReleaseSectorKey
  }

  predicate SnapFailedState(s: SectorState) {
    s == SnapDealsAddPieceFailed || s == SnapDealsDealsExpired || s == SnapDealsRecoverDealIDs || s == AbortUpgrade ||
    s == ReplicaUpdateFailed || s == ReleaseSectorKeyFailed || s == FinalizeReplicaUpdateFailed
  }

  predicate SnapState(s: SectorState) { SnapWorkState(s) || SnapFailedState(s) }

  predicate FailedState(s: SectorState) {
    s == AddPieceFailed || s == SealPreCommit1Failed || s == SealPreCommit2Failed || s == PreCommitFailed ||
    s == ComputeProofFailed || s == CommitFinalizeFailed || s == CommitFailed || s == FinalizeFailed ||
    s == PackingFailed || s == DealsExpired || s == RecoverDealIDs
  }

  /** The planner table: the rules of a state are in the group it belongs to. */
  function RuleFor(s: SectorState, k: EventType): Rule {
    if InputState(s) then InputRule(s, k)
    else if PreCommitState(s) then PreCommitRule(s, k)
    else if CommitState(s) then CommitRule(s, k)
    else if FailedState(s) then FailedRule(s, k)
    else if SnapWorkState(s) then SnapRule(s, k)
    else if SnapFailedState(s) then SnapFailedRule(s, k)
    else PostSealRule(s, k)
  }

  predicate Ignorable(e: Event) { e.kind == SectorStartPacking }

  /** The outcome of planning: the sector, how many events were consumed, and whether it succeeded. */
  datatype Planned = Planned(sector: Sector, processed: nat, ok: bool)

  function Later(p: Planned): Planned { p.(processed := p.processed + 1) }

  /** What one event does: planning ends with it, or goes on with the next event of the batch. */
  datatype Outcome = Ends(sector: Sector, ok: bool) | GoesOn(sector: Sector)

  function PlanFirst(s: Sector, e: Event): Outcome {
    if Global(e) then Ends(ApplyGlobal(e, s), true)
    else
      match RuleFor(s.state, e.kind)
      case On(next) => Ends(Apply(e, s).(state := next), true)
      case Stay => GoesOn(Apply(e, s))
      case Returning => Return(Apply(e, s))
      case Unexpected => if Ignorable(e) then GoesOn(s) else Ends(s, false)
  }

  function Return(s: Sector): Outcome {
    if s.ret.None? then Ends(s, false) else Ends(s.(state := s.ret.value, ret := None), true)
  }

  /** Consume events until one moves the sector, is global or is refused. */
  function PlanOne(s: Sector, events: seq<Event>): Planned
    decreases |events|
  {
    if events == [] then Planned(s, 0, true)
    else
      match PlanFirst(s, events[0])
      case Ends(t, ok) => Planned(t, 1, ok)
      case GoesOn(t) => Later(PlanOne(t, events[1..]))
  }

  /** The events the planner of Committing knows, and where they lead. */
  function CommittingNext(e: Event): Option<SectorState> {
    if e.kind == SectorCommitted then Some(SubmitCommit)
    else if e.kind == SectorProofReady then Some(CommitFinalize)
    else if e.kind == SectorSeedReady then Some(Committing)
    else if e.kind == SectorComputeProofFailed then Some(ComputeProofFailed)
    else if e.kind == SectorSealPreCommit1Failed then Some(SealPreCommit1Failed)
    else if e.kind == SectorCommitFailed then Some(CommitFailed)
    else if e.kind == SectorRetryCommitWait then Some(CommitWait)
    else None
  }

  /** Of the events known in Committing, the failures and the retry only move the sector. */
  function CommittingApply(e: Event, s: Sector): Sector {
    if e.kind == SectorCommitted || e.kind == SectorProofReady || e.kind == SectorSeedReady then Apply(e, s) else s
  }

  predicate SameSeed(e: Event, s: Sector) {
    e.kind == SectorSeedReady && e.epoch == s.seedEpoch && e.value == s.seedValue
  }

  /** The planner of Committing looks at every event of the batch, also after the state has changed. */
  function PlanCommitting(s: Sector, events: seq<Event>): Planned
    decreases |events|
  {
    if events == [] then Planned(s, 0, true)
    else
      var e := events[0];
      if Global(e) then
        if Interrupts(e) then Planned(ApplyGlobal(e, s), 1, true)
        else Later(PlanCommitting(ApplyGlobal(e, s), events[1..]))
      else if CommittingNext(e).None? then Planned(s, 0, false)
      else if SameSeed(e, s) then Later(PlanCommitting(s, events[1..]))
      else
        var moved := CommittingApply(e, s).(state := CommittingNext(e).value);
        if e.kind == SectorSeedReady then Planned(moved, 1, true) else Later(PlanCommitting(moved, events[1..]))
  }

  function PlanFinal(s: Sector, events: seq<Event>): Planned {
    if events != [] && Global(events[0]) then Planned(ApplyGlobal(events[0], s), 1, true) else Planned(s, 0, false)
  }

  function Planner(s: Sector, events: seq<Event>): Planned {
    if s.state == Committing then PlanCommitting(s, events)
    else if s.state == FaultReported || s.state == FaultedFinal || s.state == FailedUnrecoverable
    then PlanFinal(s, events)
    else if s.state == Removed then Planned(s, |events|, true)
    else if s.state == AbortUpgrade || s.state == Removing then PlanOne(s, events).(ok := true)
    else PlanOne(s, events)
  }

  /**
   What one planning round does: the planner of the state, then the routing to the next handler, which turns
   the deprecated PackingFailed into DealsExpired and, for ReleaseSectorKeyFailed, reports no event consumed.
   */
  function Plan(s: Sector, events: seq<Event>): (p: Planned)
    ensures p.processed <= |events|
  {
    ProcessedBound(s, events);
    var p := Planner(s, events);
    if !p.ok then p
    else if p.sector.state == PackingFailed then p.(sector := p.sector.(state := DealsExpired))
    else if p.sector.state == ReleaseSectorKeyFailed then p.(processed := 0)
    else p
  }

  lemma ProcessedBound(s: Sector, events: seq<Event>)
    ensures Planner(s, events).processed <= |events|
  {
    PlanOneBound(s, events);
    PlanCommittingBound(s, events);
  }

  lemma PlanOneBound(s: Sector, events: seq<Event>)
    ensures PlanOne(s, events).processed <= |events|
    decreases |events|
  {
    if events != [] {
      PlanOneBound(PlanFirst(s, events[0]).sector, events[1..]);
    }
  }

  lemma PlanCommittingBound(s: Sector, events: seq<Event>)
    ensures PlanCommitting(s, events).processed <= |events|
    decreases |events|
  {
    if events != [] {
      var e := events[0];
      PlanCommittingBound(s, events[1..]);
      PlanCommittingBound(ApplyGlobal(e, s), events[1..]);
      if CommittingNext(e).Some? {
        PlanCommittingBound(CommittingApply(e, s).(state := CommittingNext(e).value), events[1..]);
      }
    }
  }

  /** One event on its own. */
  function PlanEvent(s: Sector, e: Event): Sector { Plan(s, [e]).sector }

  /** The sector record, planned in place. */
  class SectorMachine {
    var info: Sector

    constructor ()
      ensures info == NEW_SECTOR
    {
      info := NEW_SECTOR;
    }

    method RunPlanOne(events: seq<Event>) returns (processed: nat, ok: bool)
      modifies this
      ensures Planned(info, processed, ok) == PlanOne(old(info), events)
    {
      processed, ok := 0, true;
      ghost var start := info;
      while processed < |events|
        invariant 0 <= processed <= |events| && ok
        invariant PlanOne(start, events)
                  == PlanOne(info, events[processed..])
                       .(processed := PlanOne(info, events[processed..]).processed + processed)
        decreases |events| - processed
      {
        var e := events[processed];
        assert events[processed..][1..] == events[processed + 1..];
        processed := processed + 1;
        if Global(e) {
          info := ApplyGlobal(e, info);
          return;
        }
        match RuleFor(info.state, e.kind)
        case On(next) =>
          info := Apply(e, info).(state := next);
          return;
        case Stay =>
          info := Apply(e, info);
        case Returning =>
          info := Apply(e, info);
          if info.ret.None? {
            ok := false;
          } else {
            info := info.(state := info.ret.value, ret := None);
          }
          return;
        case Unexpected =>
          if !Ignorable(e) {
            ok := false;
            return;
          }
      }
      assert events[processed..] == [];
    }

    method RunPlanCommitting(events: seq<Event>) returns (processed: nat, ok: bool)
      modifies this
      ensures Planned(info, processed, ok) == PlanCommitting(old(info), events)
    {
      processed, ok := 0, true;
      ghost var start := info;
      while processed < |events|
        invariant 0 <= processed <= |events| && ok
        invariant PlanCommitting(start, events)
                  == PlanCommitting(info, events[processed..])
                       .(processed := PlanCommitting(info, events[processed..]).processed + processed)
        decreases |events| - processed
      {
        var e := events[processed];
        assert events[processed..][1..] == events[processed + 1..];
        if Global(e) {
          info := ApplyGlobal(e, info);
          processed := processed + 1;
          if Interrupts(e) { return; }
        } else if CommittingNext(e).None? {
          ok := false;
          return;
        } else {
          processed := processed + 1;
          if !SameSeed(e, info) {
            info := CommittingApply(e, info).(state := CommittingNext(e).value);
            if e.kind == SectorSeedReady { return; }
          }
        }
      }
      assert events[processed..] == [];
    }
  }
}
