/** Runs from a new sector to the places where the machine does not do what one would expect. */
module SectorWitness {
  import opened Options
  import opened SectorFsm
  import opened SectorHandlers
  import opened SectorSafety
  import opened SectorFreeze
  import opened SectorForced

  /** Some run from a new sector, with what the repository sends and no forced state, ends in the machine. */
  ghost predicate Reachable(m: Machine) {
    exists run: seq<Machine>, steps: seq<Step> :: IsUnforcedRun(run, steps) && run[|steps|] == m
  }

  /** The same with forced states. */
  ghost predicate ReachableForced(m: Machine) {
    exists run: seq<Machine>, steps: seq<Step> :: IsForcedRun(run, steps) && run[|steps|] == m
  }

  lemma ReachNext(m: Machine, step: Step)
    requires Reachable(m) && Possible(m, step) && !Forces(step)
    ensures Reachable(Then(m, step))
  {
    var run, steps :| IsUnforcedRun(run, steps) && run[|steps|] == m;
    var run2, steps2 := run + [Then(m, step)], steps + [step];
    assert IsUnforcedRun(run2, steps2) && run2[|steps2|] == Then(m, step);
  }

  lemma ReachForced(m: Machine, step: Step)
    requires ReachableForced(m) && Possible(m, step)
    ensures ReachableForced(Then(m, step))
  {
    var run, steps :| IsForcedRun(run, steps) && run[|steps|] == m;
    var run2, steps2 := run + [Then(m, step)], steps + [step];
    assert IsForcedRun(run2, steps2) && run2[|steps2|] == Then(m, step);
  }

  /** The step puts exactly the event in the empty queue of the sector. */
  predicate Sends(s: Sector, step: Step, e: Event) {
    match step
    case Arrive(x) => x == e && FromOutside(e) && e.kind != SectorForceState
    case HandlerDone(env) => GoodIds(env) && Handle(s, env) == Send(e)
    case PlanBatch(_) => false
  }

  /** A step that sends an event to an idle sector, and a round that consumes it. */
  predicate Leads(s: Sector, step: Step, e: Event, t: Sector) {
    Sends(s, step, e) && Plan(s, [e]).processed == 1 && Plan(s, [e]).sector == t
  }

  lemma ReachPlanned(s: Sector, step: Step, e: Event, t: Sector)
    requires Reachable(Machine(s, [])) && Leads(s, step, e, t)
    ensures Reachable(Machine(t, []))
  {
    ReachNext(Machine(s, []), step);
    var m := Then(Machine(s, []), step);
    assert m == Machine(s, [e]);
    ReachNext(m, PlanBatch(1));
    assert m.pending[..1] == [e] && m.pending[1..] == [];
  }

  /** A set of sectors that holds the new one and whatever its members lead to. */
  ghost predicate Closed(r: iset<Sector>) {
    NEW_SECTOR in r && forall s, step, e, t :: s in r && Leads(s, step, e, t) ==> t in r
  }

  ghost function ReachableSectors(): iset<Sector> { iset s | Reachable(Machine(s, [])) }

  lemma ReachableIsClosed()
    ensures Closed(ReachableSectors())
  {
    var run: seq<Machine>, steps: seq<Step> := [NEW_MACHINE], [];
    assert IsUnforcedRun(run, steps) && run[|steps|] == NEW_MACHINE;
    forall s, step, e, t | s in ReachableSectors() && Leads(s, step, e, t) ensures t in ReachableSectors() {
      ReachPlanned(s, step, e, t);
    }
  }

  // ---------- a chain on which everything works ----------

  const CHAIN := Env(
    Policy(100, 100, 100, 10, 0), Some(Config(false, false, false, false)), Some(5), Some(5), true, false, true,
    PreCommitLookup.PreCommitted(5, 5, 1), PreCommitLookup.PreCommitted(5, 5, 1), Some(false), Some(7),
    (i: nat) => DealAnswer(true, true, true, false, true, None), Some(2), Seen(ExitOk), Waited(ExitOk, 5), OnChain(1),
    Located, true, Some(true), true, true, true, true, true, Some("message"), Some("message"), false, false, Some(3),
    Some(4), Some(Sealed(1, Some(2))), Added([]))

  /** What packing fills an empty sector with: one piece of its size. */
  const FILLER := Piece(2048, None)

  lemma FillerChecks(s: Sector)
    requires s.pieces == [FILLER]
    ensures CheckPieces(s, CHAIN, false) == Passed
  {
    assert CheckFrom(s.pieces, CHAIN.deal, 1) == Passed;
  }

  /** An event that the table of a state other than Committing takes to the next state. */
  lemma Go(r: iset<Sector>, s: Sector, step: Step, e: Event, next: SectorState) returns (t: Sector)
    requires Closed(r) && s in r && Sends(s, step, e)
    requires s.state != Committing && !FinalState(s.state) && s.state != Removed
    requires !Global(e) && RuleFor(s.state, e.kind) == On(next) && next != PackingFailed
      && next != ReleaseSectorKeyFailed
    ensures t in r && t == Apply(e, s).(state := next)
  {
    t := Apply(e, s).(state := next);
    assert Plan(s, [e]) == Planned(t, 1, true);
    assert Leads(s, step, e, t);
  }

  lemma AtGetTicket(r: iset<Sector>) returns (s: Sector)
    requires Closed(r)
    ensures s in r && s.state == GetTicket && s.pieces == [FILLER] && s.commitMessage == ""
  {
    s := Go(r, NEW_SECTOR, Arrive(Of(SectorStartCC)), Of(SectorStartCC), Packing);
    var e := Of(SectorPacked).(pieces := [FILLER]);
    var env := CHAIN.(input := Added([FILLER]));
    assert Handle(s, env).event.pieces == [FILLER];
    s := Go(r, s, HandlerDone(env), e, GetTicket);
  }

  lemma AtPreCommit1(r: iset<Sector>) returns (s: Sector)
    requires Closed(r)
    ensures s in r && s.state == PreCommit1 && s.pieces == [FILLER] && s.ticketEpoch == 5
    ensures s.commitMessage == ""
  {
    s := AtGetTicket(r);
    s := Go(r, s, HandlerDone(CHAIN), Of(SectorTicket).(value := 7, epoch := 5), PreCommit1);
  }

  lemma AtPreCommit2(r: iset<Sector>) returns (s: Sector)
    requires Closed(r)
    ensures s in r && s.state == PreCommit2 && s.pieces == [FILLER] && s.ticketEpoch == 5
    ensures s.commitMessage == ""
  {
    s := AtPreCommit1(r);
    FillerChecks(s);
    s := Go(r, s, HandlerDone(CHAIN), Of(SectorPreCommit1).(value := 3), PreCommit2);
  }

  /** Both commitments are recorded, and there is no commit message yet. */
  predicate SealedNow(s: Sector) {
    s.pieces == [FILLER] && s.commD == Some(2) && s.commR == Some(1) && s.commitMessage == ""
  }

  lemma AtPreCommitting(r: iset<Sector>) returns (s: Sector)
    requires Closed(r)
    ensures s in r && s.state == PreCommitting && SealedNow(s) && s.ticketEpoch == 5
  {
    s := AtPreCommit2(r);
    s := Go(r, s, HandlerDone(CHAIN), Of(SectorPreCommit2).(sealed := 1, unsealed := 2), PreCommitting);
  }

  lemma AtWaitSeed(r: iset<Sector>) returns (s: Sector)
    requires Closed(r)
    ensures s in r && s.state == WaitSeed && SealedNow(s)
  {
    s := AtPreCommitting(r);
    FillerChecks(s);
    s := Go(r, s, HandlerDone(CHAIN), Of(SectorPreCommitLanded), WaitSeed);
  }

  lemma AtCommitting(r: iset<Sector>) returns (s: Sector)
    requires Closed(r)
    ensures s in r && s.state == Committing && SealedNow(s) && s.seedEpoch == 15 && s.seedValue == 7
  {
    s := AtWaitSeed(r);
    s := Go(r, s, HandlerDone(CHAIN), Of(SectorSeedReady).(value := 7, epoch := 15), Committing);
  }

  /** A sector that is committing is asked to start packing: from then on it is frozen. */
  lemma CommittingFreezes() returns (m: Machine)
    ensures Reachable(m) && m.sector.state == Committing && Blocked(m)
  {
    ReachableIsClosed();
    var s := AtCommitting(ReachableSectors());
    ReachNext(Machine(s, []), Arrive(Of(SectorStartPacking)));
    m := Then(Machine(s, []), Arrive(Of(SectorStartPacking)));
  }

  lemma AtSubmitCommit(r: iset<Sector>) returns (s: Sector)
    requires Closed(r)
    ensures s in r && s.state == SubmitCommit && SealedNow(s) && s.seedEpoch == 15 && s.seedValue == 7
  {
    var c := AtCommitting(r);
    FillerChecks(c);
    var e := Of(SectorCommitted).(value := 4);
    s := Apply(e, c).(state := SubmitCommit);
    assert PlanCommitting(s, [e][1..]) == Planned(s, 0, true);
    assert Leads(c, HandlerDone(CHAIN), e, s);
  }

  /** Commits are aggregated, and the precommit is gone when the batcher asks for it: the handler uses a nil pointer. */
  lemma AggregatePanics(r: iset<Sector>) returns (s: Sector, env: Env)
    requires Closed(r)
    ensures s in r && GoodIds(env) && s.state == SubmitCommitAggregate && Handle(s, env).Panic?
  {
    s := AtSubmitCommit(r);
    var aggregating := CHAIN.(config := Some(Config(false, true, false, false)), network13 := true);
    s := Go(r, s, HandlerDone(aggregating), Of(SectorSubmitCommitAggregate), SubmitCommitAggregate);
    env := CHAIN.(preCommit := NotPreCommitted);
  }

  lemma AtCommitWait(r: iset<Sector>) returns (s: Sector)
    requires Closed(r)
    ensures s in r && s.state == CommitWait && s.pieces == [FILLER] && s.commR == Some(1) && s.commitMessage != ""
  {
    s := AtSubmitCommit(r);
    FillerChecks(s);
    s := Go(r, s, HandlerDone(CHAIN), Of(SectorCommitSubmitted).(message := "message"), CommitWait);
  }

  lemma AtFinalizeSector(r: iset<Sector>) returns (s: Sector)
    requires Closed(r)
    ensures s in r && s.state == FinalizeSector && s.pieces == [FILLER] && s.commR == Some(1)
  {
    s := AtCommitWait(r);
    s := Go(r, s, HandlerDone(CHAIN), Of(SectorProving), FinalizeSector);
  }

  lemma AtProving(r: iset<Sector>) returns (s: Sector)
    requires Closed(r)
    ensures s in r && s.state == Proving && s.pieces == [FILLER] && s.commR == Some(1)
  {
    s := AtFinalizeSector(r);
    s := Go(r, s, HandlerDone(CHAIN), Of(SectorFinalized), Proving);
  }

  /** A user forces a sector that is proving into a final state, and then asks it to start packing. */
  lemma FinalStateFreezes(f: SectorState) returns (m: Machine)
    requires FinalState(f)
    ensures ReachableForced(m) && m.sector.state == f && Blocked(m)
  {
    ReachableIsClosed();
    var s := AtProving(ReachableSectors());
    var force := Of(SectorForceState).(forced := f);
    var run, steps :| IsUnforcedRun(run, steps) && run[|steps|] == Machine(s, []);
    ReachForced(Machine(s, []), Arrive(force));
    assert Then(Machine(s, []), Arrive(force)) == Machine(s, [force]);
    ForceMoves(s, f);
    ReachForced(Machine(s, [force]), PlanBatch(1));
    var t := s.(state := f);
    ReachForced(Machine(t, []), Arrive(Of(SectorStartPacking)));
    m := Machine(t, [Of(SectorStartPacking)]);
  }

  lemma ForceMoves(s: Sector, f: SectorState)
    requires s.state == Proving && FinalState(f)
    ensures var force := Of(SectorForceState).(forced := f);
      Then(Machine(s, [force]), PlanBatch(1)) == Machine(s.(state := f), [])
  {
    var force := Of(SectorForceState).(forced := f);
    assert [force][..1] == [force];
    assert PlanFirst(s, force) == Ends(s.(state := f), true);
  }

  // ---------- a replica update ----------

  /** A deal that fills the sector. */
  const DEAL := Piece(2048, Some(1))

  /** A sector with one piece and no deal may be marked. */
  lemma AtAvailable(r: iset<Sector>) returns (s: Sector)
    requires Closed(r)
    ensures s in r && s.state == Available && s.commR == Some(1)
  {
    s := AtProving(r);
    assert |s.pieces| == 1 && s.pieces[0].deal.None?;
    s := Go(r, s, Arrive(Of(SectorMarkForUpdate)), Of(SectorMarkForUpdate), Available);
  }

  lemma AtSnapDealsWaitDeals(r: iset<Sector>) returns (s: Sector)
    requires Closed(r)
    ensures s in r && s.state == SnapDealsWaitDeals && s.pieces == [] && s.ccUpdate && s.commR == Some(1)
  {
    s := AtAvailable(r);
    s := Go(r, s, Arrive(Of(SectorStartCCUpdate)), Of(SectorStartCCUpdate), SnapDealsWaitDeals);
  }

  lemma AtSnapDealsAddPiece(r: iset<Sector>) returns (s: Sector)
    requires Closed(r)
    ensures s in r && s.state == SnapDealsAddPiece && s.pieces == [] && s.ccUpdate && s.commR == Some(1)
  {
    s := AtSnapDealsWaitDeals(r);
    s := Go(r, s, Arrive(Of(SectorAddPiece)), Of(SectorAddPiece), SnapDealsAddPiece);
  }

  lemma AtSnapDealsWaitDealsAgain(r: iset<Sector>) returns (s: Sector)
    requires Closed(r)
    ensures s in r && s.state == SnapDealsWaitDeals && s.pieces == [DEAL] && s.ccUpdate && s.commR == Some(1)
  {
    s := AtSnapDealsAddPiece(r);
    var e := Of(SectorPieceAdded).(pieces := [DEAL]);
    s := Go(r, s, HandlerDone(CHAIN.(input := Added([DEAL]))), e, SnapDealsWaitDeals);
  }

  lemma AtSnapDealsPacking(r: iset<Sector>) returns (s: Sector)
    requires Closed(r)
    ensures s in r && s.state == SnapDealsPacking && s.pieces == [DEAL] && s.ccUpdate && s.commR == Some(1)
  {
    s := AtSnapDealsWaitDealsAgain(r);
    s := Go(r, s, Arrive(Of(SectorStartPacking)), Of(SectorStartPacking), SnapDealsPacking);
  }

  lemma AtUpdateReplica(r: iset<Sector>) returns (s: Sector)
    requires Closed(r)
    ensures s in r && s.state == UpdateReplica && s.pieces == [DEAL] && s.ccUpdate && s.commR == Some(1)
  {
    s := AtSnapDealsPacking(r);
    assert Handle(s, CHAIN).event.pieces == [];
    s := Go(r, s, HandlerDone(CHAIN), Of(SectorPacked), UpdateReplica);
  }

  lemma DealChecks(s: Sector, must: bool)
    requires s.pieces == [DEAL]
    ensures CheckPieces(s, CHAIN, must) == Passed
  {
    assert CheckFrom(s.pieces, CHAIN.deal, 1) == Passed;
    assert s.pieces[0].deal.Some?;
  }

  /** The data an update has once it is computed. */
  predicate Updated(s: Sector) {
    s.pieces == [DEAL] && s.ccUpdate && s.commR == Some(1) && s.updateSealed == Some(1) && s.updateUnsealed == Some(2)
  }

  lemma AtProveReplicaUpdate(r: iset<Sector>) returns (s: Sector)
    requires Closed(r)
    ensures s in r && s.state == ProveReplicaUpdate && Updated(s)
  {
    s := AtUpdateReplica(r);
    DealChecks(s, true);
    s := Go(r, s, HandlerDone(CHAIN), Of(SectorReplicaUpdate).(sealed := 1, unsealed := 2), ProveReplicaUpdate);
  }

  lemma AtFinalizeReplicaUpdate(r: iset<Sector>) returns (s: Sector)
    requires Closed(r)
    ensures s in r && s.state == FinalizeReplicaUpdate && Updated(s) && s.replicaUpdateProof.Some?
  {
    s := AtProveReplicaUpdate(r);
    DealChecks(s, true);
    s := Go(r, s, HandlerDone(CHAIN), Of(SectorProveReplicaUpdate).(value := 4), FinalizeReplicaUpdate);
  }

  lemma AtSubmitReplicaUpdate(r: iset<Sector>) returns (s: Sector)
    requires Closed(r)
    ensures s in r && s.state == SubmitReplicaUpdate && Updated(s) && s.replicaUpdateProof.Some?
  {
    s := AtFinalizeReplicaUpdate(r);
    s := Go(r, s, HandlerDone(CHAIN), Of(SectorFinalized), SubmitReplicaUpdate);
  }

  /** The update passes its check and the chain has no partition, or no sector: the handler uses a nil pointer. */
  lemma SubmitReplicaUpdatePanics(r: iset<Sector>) returns (s: Sector)
    requires Closed(r)
    ensures s in r && s.state == SubmitReplicaUpdate
    ensures Handle(s, CHAIN.(partition := NoPartition)).Panic? && Handle(s, CHAIN.(sector := NoSector)).Panic?
  {
    s := AtSubmitReplicaUpdate(r);
    DealChecks(s, true);
    assert CheckPieces(s, CHAIN.(partition := NoPartition), true) == CheckPieces(s, CHAIN, true);
    assert CheckPieces(s, CHAIN.(sector := NoSector), true) == CheckPieces(s, CHAIN, true);
  }

  lemma AtReplicaUpdateWait(r: iset<Sector>) returns (s: Sector)
    requires Closed(r)
    ensures s in r && s.state == ReplicaUpdateWait && Updated(s) && s.replicaUpdateMessage != ""
  {
    s := AtSubmitReplicaUpdate(r);
    DealChecks(s, true);
    s := Go(r, s, HandlerDone(CHAIN), Of(SectorReplicaUpdateSubmitted).(message := "message"), ReplicaUpdateWait);
  }

  lemma AtUpdateActivating(r: iset<Sector>) returns (s: Sector)
    requires Closed(r)
    ensures s in r && s.state == UpdateActivating
  {
    s := AtReplicaUpdateWait(r);
    s := Go(r, s, HandlerDone(CHAIN), Of(SectorReplicaUpdateLanded), UpdateActivating);
  }

  lemma AtReleaseSectorKey(r: iset<Sector>) returns (s: Sector)
    requires Closed(r)
    ensures s in r && s.state == ReleaseSectorKey
  {
    s := AtUpdateActivating(r);
    s := Go(r, s, HandlerDone(CHAIN), Of(SectorUpdateActive), ReleaseSectorKey);
  }

  /** The failure moves the sector without being consumed. */
  lemma KeyFailureMoves(s: Sector)
    requires s.state == ReleaseSectorKey
    ensures Plan(s, [Of(SectorReleaseKeyFailed)]) == Planned(s.(state := ReleaseSectorKeyFailed), 0, true)
  {
    var e := Of(SectorReleaseKeyFailed);
    assert PlanFirst(s, e) == Ends(s.(state := ReleaseSectorKeyFailed), true);
  }

  /** Seen again, it is dropped. */
  lemma KeyFailureIsDropped(t: Sector)
    requires t.state == ReleaseSectorKeyFailed
    ensures Plan(t, [Of(SectorReleaseKeyFailed)]) == Planned(t, 1, false)
  {
    assert PlanFirst(t, Of(SectorReleaseKeyFailed)) == Ends(t, false);
  }

  lemma ReachRound(s: Sector, e: Event, t: Sector, n: nat)
    requires Reachable(Machine(s, [e])) && Plan(s, [e]).sector == t && Plan(s, [e]).processed == n
    ensures Reachable(Machine(t, [e][n..]))
  {
    ReachNext(Machine(s, [e]), PlanBatch(1));
    assert [e][..1] == [e];
  }

  /** Releasing the key fails; the failure moves the sector, is seen again and dropped. */
  lemma AtReleaseSectorKeyFailed() returns (t: Sector)
    ensures Reachable(Machine(t, [])) && t.state == ReleaseSectorKeyFailed
  {
    ReachableIsClosed();
    var s := AtReleaseSectorKey(ReachableSectors());
    var failed := Of(SectorReleaseKeyFailed);
    t := s.(state := ReleaseSectorKeyFailed);
    KeyReleaseFails(s);
    ReachNext(Machine(s, []), HandlerDone(CHAIN.(work := None)));
    KeyFailureMoves(s);
    ReachRound(s, failed, t, 0);
    assert [failed][0..] == [failed] && [failed][1..] == [];
    KeyFailureIsDropped(t);
    ReachRound(t, failed, t, 1);
  }

  lemma KeyReleaseFails(s: Sector)
    requires s.state == ReleaseSectorKey
    ensures Then(Machine(s, []), HandlerDone(CHAIN.(work := None))) == Machine(s, [Of(SectorReleaseKeyFailed)])
  {
  }

  /** The process restarts before the retry: the sector is frozen. */
  lemma ReleaseKeyFreezes() returns (m: Machine)
    ensures Reachable(m) && m.sector.state == ReleaseSectorKeyFailed && Blocked(m)
  {
    var t := AtReleaseSectorKeyFailed();
    ReachNext(Machine(t, []), Arrive(Of(SectorRestart)));
    m := Machine(t, [Of(SectorRestart)]);
  }

  /**
   All kinds of frozen sector come about in runs from a new one: Committing and ReleaseSectorKeyFailed with what users
   and handlers send, the final states after a forced state.
   */
  lemma FreezesAreReachable()
    ensures exists m :: Reachable(m) && m.sector.state == Committing && Blocked(m)
    ensures exists m :: Reachable(m) && m.sector.state == ReleaseSectorKeyFailed && Blocked(m)
    ensures forall f :: FinalState(f) ==> exists m :: ReachableForced(m) && m.sector.state == f && Blocked(m)
  {
    var _ := CommittingFreezes();
    var _ := ReleaseKeyFreezes();
    forall f | FinalState(f) ensures exists m :: ReachableForced(m) && m.sector.state == f && Blocked(m) {
      var _ := FinalStateFreezes(f);
    }
  }

  /** Both uses of a nil pointer come about in runs from a new sector. */
  lemma PanicsAreReachable()
    ensures exists s, env :: Reachable(Machine(s, [])) && s.state == SubmitCommitAggregate && Handle(s, env).Panic?
    ensures exists s, env :: Reachable(Machine(s, [])) && s.state == SubmitReplicaUpdate && Handle(s, env).Panic?
  {
    ReachableIsClosed();
    var s, env := AggregatePanics(ReachableSectors());
    assert Reachable(Machine(s, [])) && Handle(s, env).Panic?;
    var t := SubmitReplicaUpdatePanics(ReachableSectors());
    assert Reachable(Machine(t, [])) && Handle(t, CHAIN.(sector := NoSector)).Panic?;
  }
}
