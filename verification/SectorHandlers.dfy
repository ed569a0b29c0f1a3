/**
 The sector handlers as decisions: from the sector and the answers of chain, messager, sealer and configuration to
 the event sent.
 */
module SectorHandlers {
  import opened Options
  import opened SectorFsm

  datatype Exit = ExitOk | InsufficientFunds | OutOfGas | OtherExit

  datatype Search = SearchError | NotSeen | Seen(exit: Exit)

  datatype Wait = WaitError(unrecoverable: bool) | Waited(exit: Exit, height: int)

  datatype PreCommitLookup =
    | LookupError
    | NumberAllocated
    | NotPreCommitted
    | PreCommitted(sealRandEpoch: int, preCommitEpoch: int, sealed: Cid)

  datatype SectorLookup = SectorError | NoSector | OnChain(sealed: Cid)

  datatype PartitionLookup = PartitionError | NoPartition | Located

  /** What the chain and the market say about the deal of one piece. */
  datatype DealAnswer = DealAnswer(zeroCid: bool, found: bool, matches: bool, started: bool, published: bool,
                                   current: Option<nat>)

  datatype Config = Config(batchPreCommits: bool, aggregateCommits: bool, finalizeEarly: bool, makeCCAvailable: bool)

  datatype Policy = Policy(maxTicketAge: int, maxPreCommitLookback: int, maxProveCommitDuration: int,
                           challengeDelay: int, sealLookback: int)

  datatype Sealed = Sealed(sealed: Cid, unsealed: Option<Cid>)

  /** Everything a handler asks the outside; a call that can fail has its own answer. */
  datatype Env = Env(
    policy: Policy,
    config: Option<Config>,
    head: Option<int>,
    headAfter: Option<int>,
    networkKnown: bool,
    network13: bool,
    cooldown: bool,
    preCommit: PreCommitLookup,
    preCommitAfter: PreCommitLookup,
    allocatedNumber: Option<bool>,
    randomness: Option<nat>,
    deal: nat -> DealAnswer,
    dataCommitment: Option<Cid>,
    search: Search,
    wait: Wait,
    sector: SectorLookup,
    partition: PartitionLookup,
    proofTypeKnown: bool,
    active: Option<bool>,
    verified: bool,
    addressFound: bool,
    paramsOk: bool,
    collateralKnown: bool,
    minerKnown: bool,
    sent: Option<MessageId>,
    batchResult: Option<MessageId>,
    batchSectorFailed: bool,
    terminated: bool,
    work: Option<nat>,
    moreWork: Option<nat>,
    sealedCids: Option<Sealed>,
    input: Input)

  /** What the input side wants of a sector that waits for deals or takes pieces. */
  datatype Input = NoInput | MorePieces | Pack | Added(pieces: seq<Piece>) | AddFailed

  /** The messager hands out ids that are not empty. */
  predicate GoodIds(env: Env) { env.sent.Some? ==> env.sent.value != "" }

  /** Panic is the use of a pointer that is nil. */
  datatype Action = Send(event: Event) | Stop | Panic

  datatype Check =
    | Passed | ApiError | InvalidDeals | ExpiredDeals | BadCommD | ExpiredTicket | BadTicket | PrecommitOnChain
    | SectorNumberAllocated | BadSeed | InvalidProof | NoPrecommit | CommitWaitFailed | BadUpdate | BadUpdateProof
    | OtherError | NilPointer

  predicate HasDeals(pieces: seq<Piece>) { exists i :: 0 <= i < |pieces| && pieces[i].deal.Some? }

  function CheckFrom(pieces: seq<Piece>, deal: nat -> DealAnswer, i: nat): Check
    requires i <= |pieces|
    decreases |pieces| - i
  {
    if i == |pieces| then Passed
    else
      var a := deal(i);
      if pieces[i].deal.None? then if a.zeroCid then CheckFrom(pieces, deal, i + 1) else OtherError
      else if !a.found || !a.matches then InvalidDeals
      else if a.started then ExpiredDeals
      else CheckFrom(pieces, deal, i + 1)
  }

  function CheckPieces(s: Sector, env: Env, mustHaveDeals: bool): Check {
    if env.head.None? then ApiError
    else
      var c := CheckFrom(s.pieces, env.deal, 0);
      if c.Passed? && mustHaveDeals && !HasDeals(s.pieces) then OtherError else c
  }

  function CheckPreCommit(s: Sector, env: Env, height: int): Check {
    var c := CheckPieces(s, env, false);
    if !c.Passed? then c
    else if env.dataCommitment.None? then ApiError
    else if s.commD != env.dataCommitment then BadCommD
    else
      match env.preCommit
      case NumberAllocated => SectorNumberAllocated
      case LookupError => ApiError
      case PreCommitted(rand, _, _) => if rand != s.ticketEpoch then BadTicket else PrecommitOnChain
      case NotPreCommitted => if s.ticketEpoch < height - env.policy.maxPreCommitLookback then ExpiredTicket else Passed
  }

  function CheckCommit(s: Sector, env: Env): Check {
    if s.seedEpoch == 0 then BadSeed
    else
      match env.preCommit
      case NumberAllocated => if s.commitMessage != "" then CommitWaitFailed else OtherError
      case LookupError => OtherError
      case NotPreCommitted => NoPrecommit
      case PreCommitted(_, epoch, _) =>
        if epoch + env.policy.challengeDelay != s.seedEpoch then BadSeed
        else if env.randomness.None? then ApiError
        else if env.randomness.value != s.seedValue then BadSeed
        else if s.commR.None? || s.commD.None? then NilPointer
        else if !env.verified then InvalidProof
        else CheckPieces(s, env, false)
  }

  function CheckReplicaUpdate(s: Sector, env: Env): Check {
    var c := CheckPieces(s, env, true);
    if !c.Passed? then c
    else if !s.ccUpdate then OtherError
    else if env.dataCommitment.None? then ApiError
    else if s.updateUnsealed != env.dataCommitment then BadUpdate
    else if s.updateSealed.None? then BadUpdate
    else if s.replicaUpdateProof.None? then BadUpdateProof
    else Passed
  }

  function Emit(kind: EventType): Action { Send(Of(kind)) }

  function AfterCooldown(env: Env, kind: EventType): Action { if env.cooldown then Emit(kind) else Stop }

  // ---------- the normal path ----------

  function HandleWaitDeals(env: Env): Action {
    match env.input
    case MorePieces => Emit(SectorAddPiece)
    case Pack => Emit(SectorStartPacking)
    case _ => Stop
  }

  function HandleAddPiece(env: Env): Action {
    match env.input
    case Added(pieces) => Send(Of(SectorPieceAdded).(pieces := pieces))
    case AddFailed => Emit(SectorAddPieceFailed)
    case _ => Stop
  }

  function Fillers(sizes: seq<nat>): seq<Piece> { seq(|sizes|, i requires 0 <= i < |sizes| => Piece(sizes[i], None)) }

  function HandlePacking(env: Env): Action {
    match env.input
    case Added(pieces) =>
      var sizes := seq(|pieces|, i requires 0 <= i < |pieces| => pieces[i].size);
      Send(Of(SectorPacked).(pieces := Fillers(sizes)))
    case _ => Stop
  }

  /** True if the prove-commit window of a precommitted sector has passed. */
  predicate ProveCommitExpired(p: PreCommitLookup, env: Env, height: int)
    requires p.PreCommitted?
  {
    height > p.preCommitEpoch + env.policy.maxProveCommitDuration
  }

  datatype Ticket = TicketError(allocatedNumber: bool) | Ticket(value: nat, epoch: int)

  function GetTicketFrom(env: Env): Ticket {
    if env.head.None? || env.allocatedNumber.None? then Ticket(0, 0)
    else
      var taken := env.allocatedNumber.value;
      match env.preCommit
      case LookupError => TicketError(taken)
      case NumberAllocated => TicketError(taken)
      case PreCommitted(rand, _, _) =>
        if !env.networkKnown || ProveCommitExpired(env.preCommit, env, env.head.value) || env.randomness.None?
        then TicketError(taken) else Ticket(env.randomness.value, rand)
      case NotPreCommitted =>
        if taken || env.randomness.None? then TicketError(taken)
        else Ticket(env.randomness.value, env.head.value - env.policy.sealLookback)
  }

  function HandleGetTicket(s: Sector, env: Env): Action {
    match GetTicketFrom(env)
    case Ticket(value, epoch) => Send(Of(SectorTicket).(value := value, epoch := epoch))
    case TicketError(taken) =>
      if !taken then Emit(SectorSealPreCommit1Failed)
      else if s.commitMessage != "" then Emit(SectorCommitFailed)
      else Emit(SectorRemove)
  }

  /**
   The shared ticket test of the two precommit steps: Some(Stop) on an API error, Some(Send) if the ticket is too
   old.
   */
  function OldTicketCheck(s: Sector, env: Env): Option<Action> {
    if env.headAfter.None? then Some(Stop)
    else if env.headAfter.value - s.ticketEpoch <= env.policy.maxTicketAge then None
    else
      match env.preCommit
      case LookupError => Some(Stop)
      case NumberAllocated => Some(Stop)
      case NotPreCommitted => Some(Emit(SectorOldTicket))
      case PreCommitted(_, _, _) =>
        if !env.networkKnown then Some(Stop)
        else if ProveCommitExpired(env.preCommit, env, env.headAfter.value) then Some(Emit(SectorOldTicket))
        else None
  }

  function HandlePreCommit1(s: Sector, env: Env): Action {
    match CheckPieces(s, env, false)
    case Passed =>
      var t := OldTicketCheck(s, env);
      if t.Some? then t.value
      else if env.work.None? then Emit(SectorSealPreCommit1Failed)
      else Send(Of(SectorPreCommit1).(value := env.work.value))
    case InvalidDeals => Send(Of(SectorInvalidDealIDs).(ret := Some(PreCommit1)))
    case ExpiredDeals => Emit(SectorDealsExpired)
    case _ => Stop
  }

  function HandlePreCommit2(s: Sector, env: Env): Action {
    var t := OldTicketCheck(s, env);
    if t.Some? then t.value
    else
      match env.sealedCids
      case None => Emit(SectorSealPreCommit2Failed)
      case Some(Sealed(_, None)) => Emit(SectorSealPreCommit1Failed)
      case Some(Sealed(sealed, Some(unsealed))) => Send(Of(SectorPreCommit2).(sealed := sealed, unsealed := unsealed))
  }

  /** The parameters of a precommit: None when they are ready, otherwise what is done instead. */
  function PreCommitParams(s: Sector, env: Env): Option<Action> {
    if env.head.None? then Some(Stop)
    else
      match CheckPreCommit(s, env, env.head.value)
      case Passed =>
        if !env.networkKnown then Some(Emit(SectorSealPreCommit1Failed))
        else if s.commR.None? then Some(Panic)
        else if !env.collateralKnown then Some(Emit(SectorChainPreCommitFailed))
        else None
      case ApiError => Some(Stop)
      case BadCommD => Some(Emit(SectorSealPreCommit1Failed))
      case ExpiredTicket => Some(Emit(SectorSealPreCommit1Failed))
      case BadTicket => Some(Emit(SectorSealPreCommit1Failed))
      case InvalidDeals => Some(Send(Of(SectorInvalidDealIDs).(ret := Some(PreCommitting))))
      case ExpiredDeals => Some(Emit(SectorDealsExpired))
      case PrecommitOnChain => Some(Emit(SectorPreCommitLanded))
      case SectorNumberAllocated => Some(Stop)
      case _ => Some(Emit(SectorChainPreCommitFailed))
  }

  function HandlePreCommitting(s: Sector, env: Env): Action {
    if env.config.None? then Stop
    else if env.config.value.batchPreCommits && !env.networkKnown then Stop
    else if env.config.value.batchPreCommits && env.network13 then Emit(SectorPreCommitBatch)
    else
      var p := PreCommitParams(s, env);
      if p.Some? then p.value
      else if !env.minerKnown then Stop
      else if !env.paramsOk || !env.addressFound || env.sent.None? then Emit(SectorChainPreCommitFailed)
      else Send(Of(SectorPreCommitted).(message := env.sent.value))
  }

  function HandleSubmitPreCommitBatch(s: Sector, env: Env): Action {
    if s.commD.None? || s.commR.None? then Emit(SectorSealPreCommit1Failed)
    else
      var p := PreCommitParams(s, env);
      if p.Some? then p.value
      else if env.batchResult.None? || env.batchResult.value == "" then Emit(SectorChainPreCommitFailed)
      else Send(Of(SectorPreCommitBatchSent).(message := env.batchResult.value))
  }

  function HandlePreCommitWait(s: Sector, env: Env): Action {
    if s.preCommitMessage == "" then Emit(SectorChainPreCommitFailed)
    else
      match env.wait
      case WaitError(unrecoverable) =>
        if unrecoverable then Emit(SectorChainPreCommitFailed) else Emit(SectorRetryPreCommit)
      case Waited(ExitOk, _) => Emit(SectorPreCommitLanded)
      case Waited(InsufficientFunds, _) => Emit(SectorRetryPreCommit)
      case Waited(OutOfGas, _) => Emit(SectorRetryPreCommit)
      case Waited(OtherExit, _) => Emit(SectorChainPreCommitFailed)
  }

  function HandleWaitSeed(env: Env): Action {
    if env.head.None? then Stop
    else
      match env.preCommit
      case LookupError => Stop
      case NumberAllocated => Stop
      case NotPreCommitted => Emit(SectorChainPreCommitFailed)
      case PreCommitted(_, epoch, _) =>
        if env.headAfter.None? then Stop
        else if env.randomness.None? then Emit(SectorChainPreCommitFailed)
        else Send(Of(SectorSeedReady).(value := env.randomness.value, epoch := epoch + env.policy.challengeDelay))
  }

  function HandleCommitting(s: Sector, env: Env): Action {
    if s.commitMessage != "" && env.search.Seen? then Emit(SectorRetryCommitWait)
    else if env.config.None? then Stop
    else if s.commD.None? || s.commR.None? then Emit(SectorCommitFailed)
    else if env.work.None? || env.moreWork.None? then Emit(SectorComputeProofFailed)
    else if env.head.None? then Stop
    else
      match CheckCommit(s, env)
      case NilPointer => Panic
      case Passed =>
        if env.config.value.finalizeEarly then Send(Of(SectorProofReady).(value := env.moreWork.value))
        else Send(Of(SectorCommitted).(value := env.moreWork.value))
      case _ => Emit(SectorCommitFailed)
  }

  function HandleSubmitCommit(s: Sector, env: Env): Action {
    if env.config.None? then Stop
    else if env.config.value.aggregateCommits && !env.networkKnown then Stop
    else if env.config.value.aggregateCommits && env.network13 then Emit(SectorSubmitCommitAggregate)
    else if env.head.None? then Stop
    else
      match CheckCommit(s, env)
      case NilPointer => Panic
      case Passed =>
        if !env.paramsOk then Emit(SectorCommitFailed)
        else if !env.minerKnown then Stop
        else (match env.preCommitAfter
          case LookupError => Stop
          case NumberAllocated => Stop
          case NotPreCommitted => Emit(SectorCommitFailed)
          case PreCommitted(_, _, _) =>
            if !env.collateralKnown then Stop
            else if !env.addressFound || env.sent.None? then Emit(SectorCommitFailed)
            else Send(Of(SectorCommitSubmitted).(message := env.sent.value)))
      case _ => Emit(SectorCommitFailed)
  }

  /** What comes of handing the sector to the commit batcher. */
  datatype BatchAdd = NotAdded | AddedTo(message: MessageId, failed: bool) | AddPanic

  /** The cutoff uses the precommit info it looked up without a test whether the chain has it. */
  function AddToBatch(env: Env): BatchAdd {
    if env.head.None? || !env.networkKnown || env.preCommit.LookupError? || env.preCommit.NumberAllocated? then NotAdded
    else if env.preCommit.NotPreCommitted? then AddPanic
    else if env.batchResult.None? then NotAdded
    else AddedTo(env.batchResult.value, env.batchSectorFailed)
  }

  function HandleSubmitCommitAggregate(s: Sector, env: Env): Action {
    if s.commD.None? || s.commR.None? then Emit(SectorCommitFailed)
    else
      match AddToBatch(env)
      case AddPanic => Panic
      case AddedTo(message, failed) =>
        if failed || message == "" then Emit(SectorCommitFailed)
        else Send(Of(SectorCommitAggregateSent).(message := message))
      case NotAdded =>
        if env.headAfter.None? then Stop
        else
          match CheckCommit(s, env.(preCommit := env.preCommitAfter))
          case NilPointer => Panic
          case Passed => Emit(SectorRetrySubmitCommit)
          case _ => Emit(SectorCommitFailed)
  }

  function HandleCommitWait(s: Sector, env: Env): Action {
    if s.commitMessage == "" then Emit(SectorCommitFailed)
    else
      match env.wait
      case WaitError(unrecoverable) => if unrecoverable then Emit(SectorCommitFailed) else Emit(SectorRetrySubmitCommit)
      case Waited(InsufficientFunds, _) => Emit(SectorRetrySubmitCommit)
      case Waited(OutOfGas, _) => Emit(SectorRetrySubmitCommit)
      case Waited(OtherExit, _) => Emit(SectorCommitFailed)
      case Waited(ExitOk, _) => if env.sector.OnChain? then Emit(SectorProving) else Emit(SectorCommitFailed)
  }

  function HandleFinalizeSector(s: Sector, env: Env): Action {
    if env.config.None? then Stop
    else if env.work.None? then Emit(SectorFinalizeFailed)
    else if env.config.value.makeCCAvailable && !HasDeals(s.pieces) then Emit(SectorFinalizedAvailable)
    else Emit(SectorFinalized)
  }

  // ---------- replica updates ----------

  function OnPieceError(c: Check): Action {
    match c
    case InvalidDeals => Send(Of(SectorInvalidDealIDs).(ret := None))
    case ExpiredDeals => Emit(SectorDealsExpired)
    case _ => Stop
  }

  function HandleReplicaUpdate(s: Sector, env: Env): Action {
    var c := CheckPieces(s, env, true);
    if !c.Passed? then OnPieceError(c)
    else
      match env.sealedCids
      case Some(Sealed(sealed, Some(unsealed))) =>
        Send(Of(SectorReplicaUpdate).(sealed := sealed, unsealed := unsealed))
      case _ => Emit(SectorUpdateReplicaFailed)
  }

  function HandleProveReplicaUpdate(s: Sector, env: Env): Action {
    if s.updateSealed.None? || s.updateUnsealed.None? || s.commR.None? then Stop
    else if env.headAfter.None? || env.active.None? then Stop
    else if !env.active.value then Emit(SectorAbortUpgrade)
    else if env.work.None? then Emit(SectorProveReplicaUpdateFailed)
    else
      var c := CheckPieces(s, env, true);
      if !c.Passed? then OnPieceError(c)
      else if env.moreWork.None? then Emit(SectorProveReplicaUpdateFailed)
      else Send(Of(SectorProveReplicaUpdate).(value := env.moreWork.value))
  }

  /** Uses the partition and the on-chain sector it looked up without a test whether the chain has them. */
  function HandleSubmitReplicaUpdate(s: Sector, env: Env): Action {
    if env.headAfter.None? then Stop
    else if !CheckReplicaUpdate(s, env).Passed? then Emit(SectorSubmitReplicaUpdateFailed)
    else if env.partition.PartitionError? then Stop
    else if !env.proofTypeKnown then Emit(SectorSubmitReplicaUpdateFailed)
    else if env.partition.NoPartition? || s.updateSealed.None? then Panic
    else if !env.paramsOk then Emit(SectorSubmitReplicaUpdateFailed)
    else if env.config.None? || env.sector.SectorError? || !env.networkKnown then Stop
    else if env.sector.NoSector? then Panic
    else if !env.collateralKnown || !env.minerKnown then Stop
    else if !env.addressFound || env.sent.None? then Emit(SectorSubmitReplicaUpdateFailed)
    else Send(Of(SectorReplicaUpdateSubmitted).(message := env.sent.value))
  }

  function HandleReplicaUpdateWait(s: Sector, env: Env): Action {
    if s.replicaUpdateMessage == "" then Emit(SectorSubmitReplicaUpdateFailed)
    else if !(env.wait.Waited? && env.wait.exit.ExitOk?) then Emit(SectorSubmitReplicaUpdateFailed)
    else
      match env.sector
      case OnChain(sealed) =>
        if s.updateSealed.None? then Panic
        else if sealed != s.updateSealed.value then Emit(SectorAbortUpgrade)
        else Emit(SectorReplicaUpdateLanded)
      case _ => Emit(SectorSubmitReplicaUpdateFailed)
  }

  function HandleFinalizeReplicaUpdate(env: Env): Action {
    if env.config.None? then Stop
    else if env.work.None? then Emit(SectorFinalizeFailed)
    else Emit(SectorFinalized)
  }

  function HandleReleaseSectorKey(env: Env): Action {
    if env.work.None? then Emit(SectorReleaseKeyFailed) else Emit(SectorKeyReleased)
  }

  function HandleSubmitReplicaUpdateFailed(s: Sector, env: Env): Action {
    if !env.cooldown then Stop
    else if s.replicaUpdateMessage != "" && (!env.search.Seen? || env.search.exit.ExitOk?) then
      Emit(SectorRetrySubmitReplicaUpdateWait)
    else if s.replicaUpdateMessage != "" && env.search.exit.OutOfGas? then Emit(SectorRetrySubmitReplicaUpdate)
    else if env.headAfter.None? then Stop
    else
      match CheckReplicaUpdate(s, env)
      case Passed =>
        if env.active.None? then Stop
        else if !env.active.value then Emit(SectorAbortUpgrade)
        else Emit(SectorRetrySubmitReplicaUpdate)
      case BadUpdate => Emit(SectorRetryReplicaUpdate)
      case BadUpdateProof => Emit(SectorRetryProveReplicaUpdate)
      case InvalidDeals => Send(Of(SectorInvalidDealIDs).(ret := None))
      case ExpiredDeals => Emit(SectorDealsExpired)
      case _ => Stop
  }

  function HandleAbortUpgrade(s: Sector, env: Env): Action {
    if !s.ccUpdate || env.work.None? || env.config.None? then Stop else Emit(SectorRevertUpgradeToProving)
  }

  // ---------- failures ----------

  function HandlePreCommitFailed(s: Sector, env: Env): Action {
    if env.head.None? then Stop
    else if s.preCommitMessage != "" && env.search.SearchError? then AfterCooldown(env, SectorRetryPreCommitWait)
    else if s.preCommitMessage != "" && (env.search.NotSeen? || env.search.exit.ExitOk?)
    then Emit(SectorRetryPreCommitWait)
    else if s.preCommitMessage != "" && env.search.exit.OutOfGas? then Emit(SectorRetryPreCommit)
    else
      match CheckPreCommit(s, env, env.head.value)
      case Passed => PreCommitFailedOnChain(s, env)
      case PrecommitOnChain => PreCommitFailedOnChain(s, env)
      case BadCommD => Emit(SectorSealPreCommit1Failed)
      case ExpiredTicket => Emit(SectorSealPreCommit1Failed)
      case BadTicket => Emit(SectorSealPreCommit1Failed)
      case InvalidDeals => Send(Of(SectorInvalidDealIDs).(ret := Some(PreCommitFailed)))
      case ExpiredDeals => Emit(SectorDealsExpired)
      case NoPrecommit => Emit(SectorRetryPreCommit)
      case _ => Stop
  }

  function PreCommitFailedOnChain(s: Sector, env: Env): Action {
    if env.headAfter.Some? && env.preCommitAfter.PreCommitted? then
      if s.preCommitMessage == "" then Emit(SectorPreCommitLanded)
      else if s.commR.None? then Panic
      else if env.preCommitAfter.sealed != s.commR.value then Stop
      else AfterCooldown(env, SectorRetryWaitSeed)
    else AfterCooldown(env, SectorRetryPreCommit)
  }

  function HandleCommitFailed(s: Sector, env: Env): Action {
    if env.head.None? then Stop
    else if s.commitMessage != "" && env.search.SearchError? then AfterCooldown(env, SectorRetryCommitWait)
    else if s.commitMessage != "" && (env.search.NotSeen? || env.search.exit.ExitOk?) then Emit(SectorRetryCommitWait)
    else if s.commitMessage != "" && env.search.exit.OutOfGas? then Emit(SectorRetrySubmitCommit)
    else
      match CheckCommit(s, env)
      case NilPointer => Panic
      case Passed => AfterCooldown(env, SectorRetryComputeProof)
      case BadSeed => Emit(SectorRetryWaitSeed)
      case InvalidProof =>
        AfterCooldown(env, if s.invalidProofs > 0 then SectorSealPreCommit1Failed else SectorRetryInvalidProof)
      case PrecommitOnChain => Emit(SectorRetryPreCommitWait)
      case NoPrecommit => Emit(SectorRetryPreCommit)
      case InvalidDeals => Send(Of(SectorInvalidDealIDs).(ret := Some(CommitFailed)))
      case ExpiredDeals => Emit(SectorDealsExpired)
      case CommitWaitFailed => AfterCooldown(env, SectorRetryCommitWait)
      case _ => Stop
  }

  function HandleComputeProofFailed(s: Sector, env: Env): Action {
    AfterCooldown(env, if s.invalidProofs > 1 then SectorSealPreCommit1Failed else SectorRetryComputeProof)
  }

  function HandleSealPreCommit2Failed(s: Sector, env: Env): Action {
    AfterCooldown(env, if s.preCommit2Fails > 3 then SectorRetrySealPreCommit1 else SectorRetrySealPreCommit2)
  }

  /** The pieces whose deal has to be looked up again; None if the sector cannot be fixed at all. */
  function ToFix(pieces: seq<Piece>, deal: nat -> DealAnswer, i: nat): (r: Option<seq<nat>>)
    requires i <= |pieces|
    ensures r.Some? ==> forall k :: 0 <= k < |r.value| ==> i <= r.value[k] < |pieces| && pieces[r.value[k]].deal.Some?
    decreases |pieces| - i
  {
    if i == |pieces| then Some([])
    else
      var a := deal(i);
      if pieces[i].deal.None? && !a.zeroCid then None
      else if pieces[i].deal.Some? && a.found && a.matches && a.started then None
      else
        var rest := ToFix(pieces, deal, i + 1);
        if rest.Some? && pieces[i].deal.Some? && !(a.found && a.matches) then Some([i] + rest.value) else rest
  }

  /** A piece that no deal lookup can mend: padding that is not zero, or a valid deal that has started. */
  predicate Unfixable(p: Piece, a: DealAnswer) {
    if p.deal.None? then !a.zeroCid else a.found && a.matches && a.started
  }

  /** A piece whose deal is not on chain, or is another one there. */
  predicate Invalid(p: Piece, a: DealAnswer) { p.deal.Some? && !(a.found && a.matches) }

  /**
   The pieces to fix are exactly those with an invalid deal, in order; there is no list exactly when some piece cannot
   be mended.
   */
  lemma {:induction false} ToFixExactly(pieces: seq<Piece>, deal: nat -> DealAnswer, i: nat)
    requires i <= |pieces|
    ensures ToFix(pieces, deal, i).None? <==> exists k :: i <= k < |pieces| && Unfixable(pieces[k], deal(k))
    ensures ToFix(pieces, deal, i).Some? ==> var r := ToFix(pieces, deal, i).value;
      && (forall k :: k in r <==> i <= k < |pieces| && Invalid(pieces[k], deal(k)))
      && (forall j, k :: 0 <= j < k < |r| ==> r[j] < r[k])
    decreases |pieces| - i
  {
    if i < |pieces| {
      ToFixExactly(pieces, deal, i + 1);
    }
  }

  predicate Fixable(a: DealAnswer) { a.published && a.current.Some? }

  /** The new deal ids of the pieces to fix; None if one of them has no current deal. */
  function Fixes(toFix: seq<nat>, deal: nat -> DealAnswer): (r: Option<map<nat, nat>>)
    ensures r.Some? ==> forall k :: k in r.value <==> k in toFix
  {
    if forall k :: k in toFix ==> Fixable(deal(k))
    then Some(map k | k in toFix && Fixable(deal(k)) :: deal(k).current.value) else None
  }

  function Prepend(acc: seq<nat>, rest: Option<seq<nat>>): Option<seq<nat>> {
    if rest.None? then None else Some(acc + rest.value)
  }

  /** The loop over the pieces of a sector with invalid deals. */
  method RecoveryPiecesToFix(pieces: seq<Piece>, deal: nat -> DealAnswer) returns (r: Option<seq<nat>>)
    ensures r == ToFix(pieces, deal, 0)
  {
    var toFix: seq<nat> := [];
    ghost var all := ToFix(pieces, deal, 0);
    assert all.Some? ==> toFix + all.value == all.value;
    for i := 0 to |pieces|
      invariant ToFix(pieces, deal, 0) == Prepend(toFix, ToFix(pieces, deal, i))
    {
      var a := deal(i);
      if pieces[i].deal.None? {
        if !a.zeroCid {
          return None;
        }
        continue;
      }
      if !a.found || !a.matches {
        ghost var rest := ToFix(pieces, deal, i + 1);
        assert rest.Some? ==> toFix + ([i] + rest.value) == (toFix + [i]) + rest.value;
        toFix := toFix + [i];
        continue;
      }
      if a.started {
        return None;
      }
    }
    assert toFix + [] == toFix;
    r := Some(toFix);
  }

  /** The loop that looks up the current deals; a piece that was never published ends it. */
  method RecoverDeals(toFix: seq<nat>, deal: nat -> DealAnswer) returns (r: Option<map<nat, nat>>)
    ensures r == Fixes(toFix, deal)
  {
    var failed: set<nat> := {};
    var updates: map<nat, nat> := map[];
    for j := 0 to |toFix|
      invariant failed == {} <==> forall k :: k in toFix[..j] ==> Fixable(deal(k))
      invariant forall k :: k in updates <==> k in toFix[..j] && Fixable(deal(k))
      invariant forall k :: k in updates ==> updates[k] == deal(k).current.value
    {
      var i := toFix[j];
      assert toFix[..j + 1] == toFix[..j] + [i];
      assert i in toFix;
      var a := deal(i);
      if !a.published {
        assert !Fixable(deal(i));
        return None;
      }
      if a.current.None? {
        failed := failed + {i};
      } else {
        updates := updates[i := a.current.value];
      }
    }
    assert toFix[..|toFix|] == toFix;
    if failed != {} {
      return None;
    }
    assert updates == Fixes(toFix, deal).value;
    r := Some(updates);
  }

  function HandleRecoverDealIDs(s: Sector, env: Env, failWith: EventType): Action {
    var toFix := ToFix(s.pieces, env.deal, 0);
    if env.head.None? || toFix.None? || env.headAfter.None? then Stop
    else
      match Fixes(toFix.value, env.deal)
      case None => Emit(failWith)
      case Some(updates) => Send(Of(SectorUpdateDealIDs).(updates := updates))
  }

  function HandleDealsExpired(env: Env): Action { if env.sector.NoSector? then Emit(SectorRemove) else Stop }

  function HandleSnapDealsExpired(s: Sector): Action { if s.ccUpdate then Emit(SectorAbortUpgrade) else Stop }

  // ---------- termination, removal, faults ----------

  function HandleTerminating(env: Env): Action {
    match env.sector
    case SectorError => Emit(SectorTerminateFailed)
    case NoSector => if env.preCommit.NotPreCommitted? then Emit(SectorRemove) else Emit(SectorTerminateFailed)
    case OnChain(_) =>
      if env.sent.None? then Emit(SectorTerminateFailed)
      else Send(Of(SectorTerminating).(message := if env.terminated then "" else env.sent.value))
  }

  function HandleTerminateWait(s: Sector, env: Env): Action {
    if s.terminateMessage == "" then Stop
    else
      match env.wait
      case Waited(ExitOk, height) => Send(Of(SectorTerminated).(epoch := height))
      case _ => Emit(SectorTerminateFailed)
  }

  function HandleTerminateFinality(env: Env): Action {
    if env.head.None? || !env.networkKnown then Emit(SectorTerminateFailed) else Emit(SectorRemove)
  }

  function HandleTerminateFailed(env: Env): Action {
    if env.preCommit.PreCommitted? then Stop else AfterCooldown(env, SectorTerminate)
  }

  function HandleRemoving(env: Env): Action { if env.work.None? then Emit(SectorRemoveFailed) else Emit(SectorRemoved) }

  function HandleFaultReported(s: Sector, env: Env): Action {
    if s.faultReportMsg != "" && env.wait.Waited? && env.wait.exit.ExitOk? then Emit(SectorFaultedFinal) else Stop
  }

  /** The handler of the state the sector is in. */
  function Handle(s: Sector, env: Env): Action {
    if s.state == Empty then HandleWaitDeals(env)
    else if s.state == WaitDeals then HandleWaitDeals(env)
    else if s.state == AddPiece then HandleAddPiece(env)
    else if s.state == Packing then HandlePacking(env)
    else if s.state == GetTicket then HandleGetTicket(s, env)
    else if s.state == PreCommit1 then HandlePreCommit1(s, env)
    else if s.state == PreCommit2 then HandlePreCommit2(s, env)
    else if s.state == PreCommitting then HandlePreCommitting(s, env)
    else if s.state == SubmitPreCommitBatch then HandleSubmitPreCommitBatch(s, env)
    else if s.state == PreCommitBatchWait then HandlePreCommitWait(s, env)
    else if s.state == PreCommitWait then HandlePreCommitWait(s, env)
    else if s.state == WaitSeed then HandleWaitSeed(env)
    else if s.state == Committing then HandleCommitting(s, env)
    else if s.state == SubmitCommit then HandleSubmitCommit(s, env)
    else if s.state == SubmitCommitAggregate then HandleSubmitCommitAggregate(s, env)
    else if s.state == CommitWait then HandleCommitWait(s, env)
    else if s.state == CommitAggregateWait then HandleCommitWait(s, env)
    else if s.state == CommitFinalize then HandleFinalizeSector(s, env)
    else if s.state == FinalizeSector then HandleFinalizeSector(s, env)
    else if s.state == SnapDealsWaitDeals then HandleWaitDeals(env)
    else if s.state == SnapDealsAddPiece then HandleAddPiece(env)
    else if s.state == SnapDealsPacking then HandlePacking(env)
    else if s.state == UpdateReplica then HandleReplicaUpdate(s, env)
    else if s.state == ProveReplicaUpdate then HandleProveReplicaUpdate(s, env)
    else if s.state == SubmitReplicaUpdate then HandleSubmitReplicaUpdate(s, env)
    else if s.state == ReplicaUpdateWait then HandleReplicaUpdateWait(s, env)
    else if s.state == FinalizeReplicaUpdate then HandleFinalizeReplicaUpdate(env)
    else if s.state == UpdateActivating then Emit(SectorUpdateActive)
    else if s.state == ReleaseSectorKey then HandleReleaseSectorKey(env)
    else if s.state == AddPieceFailed then Emit(SectorRetryWaitDeals)
    else if s.state == SealPreCommit1Failed then AfterCooldown(env, SectorRetrySealPreCommit1)
    else if s.state == SealPreCommit2Failed then HandleSealPreCommit2Failed(s, env)
    else if s.state == PreCommitFailed then HandlePreCommitFailed(s, env)
    else if s.state == ComputeProofFailed then HandleComputeProofFailed(s, env)
    else if s.state == CommitFailed then HandleCommitFailed(s, env)
    else if s.state == CommitFinalizeFailed then AfterCooldown(env, SectorRetryFinalize)
    else if s.state == FinalizeFailed then AfterCooldown(env, SectorRetryFinalize)
    else if s.state == DealsExpired then HandleDealsExpired(env)
    else if s.state == RecoverDealIDs then HandleRecoverDealIDs(s, env, SectorRemove)
    else if s.state == SnapDealsAddPieceFailed then Emit(SectorRetryWaitDeals)
    else if s.state == SnapDealsDealsExpired then HandleSnapDealsExpired(s)
    else if s.state == SnapDealsRecoverDealIDs then HandleRecoverDealIDs(s, env, SectorAbortUpgrade)
    else if s.state == ReplicaUpdateFailed then HandleSubmitReplicaUpdateFailed(s, env)
    else if s.state == ReleaseSectorKeyFailed then AfterCooldown(env, SectorUpdateActive)
    else if s.state == FinalizeReplicaUpdateFailed then AfterCooldown(env, SectorRetryFinalize)
    else if s.state == AbortUpgrade then HandleAbortUpgrade(s, env)
    else if s.state == Terminating then HandleTerminating(env)
    else if s.state == TerminateWait then HandleTerminateWait(s, env)
    else if s.state == TerminateFinality then HandleTerminateFinality(env)
    else if s.state == TerminateFailed then HandleTerminateFailed(env)
    else if s.state == Removing then HandleRemoving(env)
    else if s.state == RemoveFailed then AfterCooldown(env, SectorRemove)
    else if s.state == FaultReported then HandleFaultReported(s, env)
    else Stop
  }
}
