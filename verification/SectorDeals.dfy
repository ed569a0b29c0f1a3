/**
 Deal recovery in runs where events queue up: the new deal ids that a recovery found are written into the pieces it
 looked at, unless an upgrade replaces the pieces while they wait in the queue.
 */
module SectorDeals {
  import opened SectorFsm
  import opened SectorHandlers
  import opened SectorSafety
  import opened SectorRuns

  /** Every piece the update names is there and has a deal; the source writes through its deal without a test. */
  predicate NamesDeals(e: Event, s: Sector) {
    e.kind == SectorUpdateDealIDs ==> forall i :: i in e.updates ==> i < |s.pieces| && s.pieces[i].deal.Some?
  }

  predicate AllNameDeals(events: seq<Event>, s: Sector) {
    forall k :: 0 <= k < |events| ==> NamesDeals(events[k], s)
  }

  /** The pieces with deals are still there. */
  predicate DealsKept(s: Sector, t: Sector) {
    forall i :: 0 <= i < |s.pieces| && s.pieces[i].deal.Some? ==> i < |t.pieces| && t.pieces[i].deal.Some?
  }

  /** The pieces are replaced: an upgrade starts, or is reverted. */
  predicate Replaces(s: Sector, t: Sector) {
    || (s.state == Available && t.state == SnapDealsWaitDeals)
    || (s.state == AbortUpgrade && t.state == Proving)
  }

  lemma AllNameDealsKept(events: seq<Event>, s: Sector, t: Sector)
    requires AllNameDeals(events, s) && DealsKept(s, t)
    ensures AllNameDeals(events, t)
  {
    forall k | 0 <= k < |events| ensures NamesDeals(events[k], t) { assert NamesDeals(events[k], s); }
  }

  // ---------- what planning does to the pieces ----------

  lemma ApplyPieces(e: Event, s: Sector)
    requires e.kind != SectorStartCCUpdate && e.kind != SectorRevertUpgradeToProving
    ensures DealsKept(s, Apply(e, s))
  {
  }

  lemma TableReplaces(s: SectorState, k: EventType)
    requires k == SectorStartCCUpdate || k == SectorRevertUpgradeToProving
    ensures RuleFor(s, k).Unexpected?
      || (k == SectorStartCCUpdate && s == Available && RuleFor(s, k) == On(SnapDealsWaitDeals))
      || (k == SectorRevertUpgradeToProving && s == AbortUpgrade && RuleFor(s, k) == On(Proving))
  {
  }

  lemma FirstPieces(s: Sector, e: Event)
    ensures DealsKept(s, PlanFirst(s, e).sector) || (Replaces(s, PlanFirst(s, e).sector) && PlanFirst(s, e).Ends?)
  {
    if e.kind == SectorStartCCUpdate || e.kind == SectorRevertUpgradeToProving {
      TableReplaces(s.state, e.kind);
    } else {
      ApplyPieces(e, s);
    }
  }

  lemma FirstStays(s: Sector, e: Event)
    requires PlanFirst(s, e).GoesOn?
    ensures PlanFirst(s, e).sector == s
  {
    StayingEvents(s.state, e.kind);
  }

  lemma {:induction false} PlanOnePieces(s: Sector, events: seq<Event>)
    ensures DealsKept(s, PlanOne(s, events).sector) || Replaces(s, PlanOne(s, events).sector)
    decreases |events|
  {
    if events != [] {
      FirstPieces(s, events[0]);
      if PlanFirst(s, events[0]).GoesOn? {
        FirstStays(s, events[0]);
        PlanOnePieces(s, events[1..]);
      }
    }
  }

  lemma {:induction false} PlanCommittingPieces(s: Sector, events: seq<Event>)
    ensures PlanCommitting(s, events).sector.pieces == s.pieces
    decreases |events|
  {
    if events != [] {
      var e := events[0];
      PlanCommittingPieces(s, events[1..]);
      PlanCommittingPieces(ApplyGlobal(e, s), events[1..]);
      if CommittingNext(e).Some? {
        PlanCommittingPieces(CommittingApply(e, s).(state := CommittingNext(e).value), events[1..]);
      }
    }
  }

  lemma PlanPieces(s: Sector, events: seq<Event>)
    ensures DealsKept(s, Plan(s, events).sector) || Replaces(s, Plan(s, events).sector)
  {
    PlanOnePieces(s, events);
    PlanCommittingPieces(s, events);
  }

  // ---------- what is sent ----------

  predicate OnlyRecovers(s: Sector, a: Action) {
    a.Send? && a.event.kind == SectorUpdateDealIDs ==> s.state == RecoverDealIDs || s.state == SnapDealsRecoverDealIDs
  }

  lemma SealingRecovers(s: Sector, env: Env)
    requires InputState(s.state) || PreCommitState(s.state) || CommitState(s.state)
    ensures OnlyRecovers(s, Handle(s, env))
  {
  }

  lemma FailedRecovers(s: Sector, env: Env)
    requires FailedState(s.state)
    ensures OnlyRecovers(s, Handle(s, env))
  {
  }

  lemma SnapRecovers(s: Sector, env: Env)
    requires SnapState(s.state)
    ensures OnlyRecovers(s, Handle(s, env))
  {
  }

  lemma SentNamesDeals(s: Sector, env: Env)
    requires Handle(s, env).Send?
    ensures NamesDeals(Handle(s, env).event, s)
  {
    if Handle(s, env).event.kind == SectorUpdateDealIDs {
      if InputState(s.state) || PreCommitState(s.state) || CommitState(s.state) { SealingRecovers(s, env); }
      else if FailedState(s.state) { FailedRecovers(s, env); }
      else if SnapState(s.state) { SnapRecovers(s, env); }
      RecoveryNamesDeals(s, env, if s.state == RecoverDealIDs then SectorRemove else SectorAbortUpgrade);
    }
  }

  // ---------- runs ----------

  /** When the pieces are replaced, no update of deal ids is left in the queue. */
  predicate CleanReplacement(m: Machine, step: Step)
    requires Enabled(m, step)
  {
    var n := Next(m, step);
    Replaces(m.sector, n.sector) ==> forall k :: 0 <= k < |n.pending| ==> n.pending[k].kind != SectorUpdateDealIDs
  }

  lemma StepKeepsNames(m: Machine, step: Step)
    requires AllNameDeals(m.pending, m.sector) && Enabled(m, step) && CleanReplacement(m, step)
    ensures AllNameDeals(Next(m, step).pending, Next(m, step).sector)
  {
    match step
    case Arrive(e) =>
    case HandlerDone(env) => if Handle(m.sector, env).Send? { SentNamesDeals(m.sector, env); }
    case PlanBatch(n) =>
      var p := Plan(m.sector, m.pending[..n]);
      PlanPieces(m.sector, m.pending[..n]);
      if !Replaces(m.sector, p.sector) {
        assert AllNameDeals(m.pending[p.processed..], m.sector) by {
          forall k | 0 <= k < |m.pending[p.processed..]| ensures NamesDeals(m.pending[p.processed..][k], m.sector) {
            assert NamesDeals(m.pending[p.processed + k], m.sector);
          }
        }
        AllNameDealsKept(m.pending[p.processed..], m.sector, p.sector);
      }
  }

  lemma {:induction false} RunKeepsNames(run: seq<Machine>, steps: seq<Step>, k: nat)
    requires IsRun(run, steps) && k <= |steps| && forall i :: 0 <= i < k ==> CleanReplacement(run[i], steps[i])
    ensures AllNameDeals(run[k].pending, run[k].sector)
  {
    if k > 0 {
      RunKeepsNames(run, steps, k - 1);
      StepKeepsNames(run[k - 1], steps[k - 1]);
    }
  }

  /** The event is applied to the sector, not refused or global. */
  predicate Applied(s: Sector, e: Event) { !Global(e) && !RuleFor(s.state, e.kind).Unexpected? }

  /** No update that a round of the planner applies names a piece without a deal. */
  predicate WritesDeals(s: Sector, events: seq<Event>)
    decreases |events|
  {
    events != [] ==>
      && (Applied(s, events[0]) ==> NamesDeals(events[0], s))
      && (PlanFirst(s, events[0]).GoesOn? ==> WritesDeals(PlanFirst(s, events[0]).sector, events[1..]))
  }

  lemma {:induction false} NamedAreWritten(s: Sector, events: seq<Event>)
    requires AllNameDeals(events, s)
    ensures WritesDeals(s, events)
    decreases |events|
  {
    if events != [] {
      assert NamesDeals(events[0], s);
      if PlanFirst(s, events[0]).GoesOn? {
        FirstStays(s, events[0]);
        NamedAreWritten(s, events[1..]);
      }
    }
  }

  /**
   Over every run, however events overlap, in which no upgrade starts or is reverted with an update of deal ids still
   queued: an update that is applied names only pieces of the sector that have a deal, so writing it cannot fail.
   */
  lemma AppliedUpdatesNameDeals(run: seq<Machine>, steps: seq<Step>, k: nat, n: nat)
    requires IsRun(run, steps) && k <= |steps| && n <= |run[k].pending|
    requires forall i :: 0 <= i < k ==> CleanReplacement(run[i], steps[i])
    ensures WritesDeals(run[k].sector, run[k].pending[..n])
  {
    RunKeepsNames(run, steps, k);
    forall i | 0 <= i < n ensures NamesDeals(run[k].pending[..n][i], run[k].sector) {
      assert NamesDeals(run[k].pending[i], run[k].sector);
    }
    NamedAreWritten(run[k].sector, run[k].pending[..n]);
  }
}
