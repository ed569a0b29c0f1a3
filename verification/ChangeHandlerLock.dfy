/**
 The lock of the proof cache.  A prover that has a proof to announce holds the lock while it waits for room in the
 channel; meanwhile the submitter can do only what does not look into the cache.  Nothing looks at the prover in
 between, so its result counts as processed when the announcement is out.
 */
module ChangeHandlerLock {
  import opened Options
  import opened Deadlines
  import opened ChangeHandler

  datatype Adding = Adding(generation: nat, posts: Posts)

  datatype Locked = Locked(st: State, adding: Option<Adding>)

  datatype Move = Plain(e: Event) | Block(generation: nat, posts: Posts) | Unblock

  const START := Locked(INIT, None)

  /** The check of a window gets as far as looking for its proofs. */
  predicate LooksUp(u: Submitter, id: nat) {
    && id in u.objects && u.objects[id].state == Start
    && u.objects[id].di.open + SUBMIT_CONFIDENCE <= u.height < u.objects[id].di.close
  }

  predicate WindowLooksUp(u: Submitter, open: int) {
    && u.mode.InHeadChange? && open in u.windows && u.windows[open] in u.objects
    && var v := ResetWindow(u, open, u.mode.revert); LooksUp(v, v.windows[open])
  }

  /** The event of the submitter needs the lock. */
  predicate NeedsLock(u: Submitter, e: Event) {
    || (e.HeadWindow? && WindowLooksUp(u, e.open))
    || (e.HandlePostReady? && u.mode.InPostReady? && u.mode.open in u.windows && LooksUp(u, u.windows[u.mode.open]))
  }

  predicate Full(st: State) { |st.cache.added| >= ADDED_CAPACITY }

  predicate MoveEnabled(s: Schedule, l: Locked, m: Move) {
    match m
    case Plain(e) =>
      && Enabled(s, l.st, e)
      && (l.adding.Some? ==> !e.ProverHead? && !e.GenerationResult? && !NeedsLock(l.st.submitter, e))
    case Block(g, _) => l.adding.None? && g in l.st.prover.generations && Full(l.st)
    case Unblock => l.adding.Some? && l.adding.value.generation in l.st.prover.generations && !Full(l.st)
  }

  function Moved(s: Schedule, l: Locked, m: Move): Locked
    requires s.Valid() && MoveEnabled(s, l, m)
  {
    match m
    case Plain(e) => l.(st := Step(s, l.st, e))
    case Block(g, posts) => l.(adding := Some(Adding(g, posts)))
    case Unblock => Locked(Step(s, l.st, GenerationResult(l.adding.value.generation, Some(l.adding.value.posts))), None)
  }

  /** A run from some state. */
  ghost predicate IsPath(s: Schedule, path: seq<Locked>, moves: seq<Move>) {
    && s.Valid() && |path| == |moves| + 1
    && forall i :: 0 <= i < |moves| ==> MoveEnabled(s, path[i], moves[i]) && path[i + 1] == Moved(s, path[i], moves[i])
  }

  /** Every run with the lock is a run of the step system: all that holds of those holds here. */
  lemma {:induction false} LockedRunIsRun(s: Schedule, path: seq<Locked>, moves: seq<Move>, k: nat)
    returns (trace: seq<State>, events: seq<Event>)
    requires IsPath(s, path, moves) && path[0] == START && k <= |moves|
    ensures IsRun(s, trace, events) && trace[|events|] == path[k].st
    decreases k
  {
    if k == 0 {
      trace, events := [INIT], [];
    } else {
      trace, events := LockedRunIsRun(s, path, moves, k - 1);
      var l := path[k - 1];
      if moves[k - 1].Plain? {
        trace, events := trace + [path[k].st], events + [moves[k - 1].e];
      } else if moves[k - 1].Unblock? {
        var e := GenerationResult(l.adding.value.generation, Some(l.adding.value.posts));
        trace, events := trace + [path[k].st], events + [e];
      }
    }
  }

  // ----- when the two loops are stuck -----

  /** A window of the head change under way, or the window announced, is about to be looked up. */
  predicate AboutToLookUp(u: Submitter) {
    || (u.mode.InHeadChange? && exists open :: open in u.mode.pending && WindowLooksUp(u, open))
    || NeedsLock(u, HandlePostReady)
  }

  /** The prover holds the lock until there is room, and the submitter needs the lock before it can make room. */
  predicate Doomed(l: Locked) { l.adding.Some? && Full(l.st) && AboutToLookUp(l.st.submitter) }

  lemma LookUpStays(u: Submitter, cache: Cache, o: int, open: int)
    requires SubmitterOk(u) && u.mode.InHeadChange? && o in u.mode.pending && open in u.mode.pending && o != open
    requires WindowLooksUp(u, open)
    ensures var v := ProcessWindow(u, cache, o);
      v.mode.InHeadChange? && v.mode.pending == u.mode.pending - {o} && WindowLooksUp(v, open)
  {
    OtherWindowUntouched(u, cache, o, open);
    assert open in u.mode.pending - {o};
  }

  /** What is enabled there only brings the end nearer: one more window is done that needs no lock. */
  lemma DoomedMoves(s: Schedule, l: Locked, m: Move)
    requires s.Valid() && SubmitterOk(l.st.submitter) && Doomed(l) && MoveEnabled(s, l, m)
    ensures Doomed(Moved(s, l, m)) && l.st.submitter.mode.InHeadChange?
    ensures Moved(s, l, m).st.submitter.mode.InHeadChange?
    ensures Moved(s, l, m).st.submitter.mode.pending < l.st.submitter.mode.pending
  {
    var u := l.st.submitter;
    var open :| open in u.mode.pending && WindowLooksUp(u, open);
    LookUpStays(u, l.st.cache, m.e.open, open);
  }

  /** What holds in every run with the lock. */
  ghost predicate LockOk(l: Locked) {
    && SubmitterOk(l.st.submitter)
    && (l.st.submitter.mode.InHeadChange? ==> l.st.submitter.mode.pending != {})
    && |l.st.cache.added| <= ADDED_CAPACITY
    && (l.adding.Some? ==> l.adding.value.generation in l.st.prover.generations)
  }

  lemma MoveKeepsLockOk(s: Schedule, l: Locked, m: Move)
    requires s.Valid() && LockOk(l) && MoveEnabled(s, l, m)
    ensures LockOk(Moved(s, l, m))
  {
    if m.Plain? {
      StepKeepsSubmitterOk(s, l.st, m.e);
      if m.e.HeadBegin? { assert m.e.di.open in Step(s, l.st, m.e).submitter.mode.pending; }
    }
  }

  lemma {:induction false} RunKeepsLockOk(s: Schedule, path: seq<Locked>, moves: seq<Move>, k: nat)
    requires IsPath(s, path, moves) && path[0] == START && k <= |moves|
    ensures LockOk(path[k])
  {
    if k > 0 {
      RunKeepsLockOk(s, path, moves, k - 1);
      MoveKeepsLockOk(s, path[k - 1], moves[k - 1]);
    }
  }

  /** Within n moves the prover can get rid of its announcement. */
  ghost predicate Releases(s: Schedule, l: Locked, n: nat)
    requires s.Valid()
    decreases n
  {
    MoveEnabled(s, l, Unblock) || (n > 0 && exists m :: MoveEnabled(s, l, m) && Releases(s, Moved(s, l, m), n - 1))
  }

  lemma ReleasesAfter(s: Schedule, l: Locked, m: Move, n: nat)
    requires s.Valid() && MoveEnabled(s, l, m) && Releases(s, Moved(s, l, m), n)
    ensures Releases(s, l, n + 1)
  {
  }

  lemma {:induction false} DoomedNeverReleases(s: Schedule, l: Locked, n: nat)
    requires s.Valid() && LockOk(l) && Doomed(l)
    ensures !Releases(s, l, n)
    decreases n
  {
    if n > 0 {
      forall m | MoveEnabled(s, l, m) ensures !Releases(s, Moved(s, l, m), n - 1) {
        DoomedMoves(s, l, m);
        MoveKeepsLockOk(s, l, m);
        DoomedNeverReleases(s, Moved(s, l, m), n - 1);
      }
    }
  }

  /** An idle submitter reads an announcement, which makes room. */
  lemma IdleReleases(s: Schedule, l: Locked)
    requires s.Valid() && LockOk(l) && l.adding.Some? && l.st.submitter.mode == Idle
    ensures Releases(s, l, 1)
  {
    if Full(l.st) {
      assert MoveEnabled(s, Moved(s, l, Plain(TakePostReady)), Unblock);
      ReleasesAfter(s, l, Plain(TakePostReady), 0);
    }
  }

  lemma LookUpSame(u: Submitter, cache: Cache, o: int, open: int)
    requires SubmitterOk(u) && u.mode.InHeadChange? && o in u.mode.pending && open in u.mode.pending && o != open
    ensures WindowLooksUp(ProcessWindow(u, cache, o), open) <==> WindowLooksUp(u, open)
  {
    OtherWindowUntouched(u, cache, o, open);
    assert open in u.mode.pending - {o};
  }

  lemma SomeOf<T>(pending: set<T>) returns (o: T)
    requires pending != {}
    ensures o in pending
  {
    o :| o in pending;
  }

  /** A head change none of whose windows is looked up comes to its end. */
  lemma {:induction false} HeadChangeReleases(s: Schedule, l: Locked, n: nat)
    requires s.Valid() && LockOk(l) && l.adding.Some? && l.st.submitter.mode.InHeadChange?
    requires !AboutToLookUp(l.st.submitter) && |l.st.submitter.mode.pending| == n
    ensures Releases(s, l, n + 1)
    decreases n
  {
    var u := l.st.submitter;
    var o := SomeOf(u.mode.pending);
    var m := Plain(HeadWindow(o));
    var k := Moved(s, l, m);
    MoveKeepsLockOk(s, l, m);
    if k.st.submitter.mode == Idle {
      IdleReleases(s, k);
      ReleasesMore(s, k, 1, n);
    } else {
      forall open | open in u.mode.pending - {o} ensures !WindowLooksUp(k.st.submitter, open) {
        LookUpSame(u, l.st.cache, o, open);
      }
      HeadChangeReleases(s, k, n - 1);
    }
    ReleasesAfter(s, l, m, n);
  }

  lemma {:induction false} ReleasesMore(s: Schedule, l: Locked, n: nat, k: nat)
    requires s.Valid() && Releases(s, l, n) && n <= k
    ensures Releases(s, l, k)
    decreases n
  {
    if !MoveEnabled(s, l, Unblock) {
      var m :| MoveEnabled(s, l, m) && Releases(s, Moved(s, l, m), n - 1);
      ReleasesMore(s, Moved(s, l, m), n - 1, k - 1);
    }
  }

  ghost predicate ReleasedBy(s: Schedule, l: Locked, n: nat)
    requires s.Valid()
  {
    Releases(s, l, n)
  }

  lemma NotDoomedReleases(s: Schedule, l: Locked) returns (n: nat)
    requires s.Valid() && LockOk(l) && l.adding.Some? && !Doomed(l)
    ensures Releases(s, l, n)
  {
    if !Full(l.st) {
      n := 0;
    } else if l.st.submitter.mode == Idle {
      IdleReleases(s, l);
      n := 1;
    } else if l.st.submitter.mode.InHeadChange? {
      n := |l.st.submitter.mode.pending| + 1;
      HeadChangeReleases(s, l, n - 1);
    } else {
      n := 2;
      MoveKeepsLockOk(s, l, Plain(HandlePostReady));
      IdleReleases(s, Moved(s, l, Plain(HandlePostReady)));
      ReleasesAfter(s, l, Plain(HandlePostReady), 1);
    }
  }

  /** A prover that waits for room can get it if and only if the submitter is not about to look into the cache. */
  lemma ReleasesIffNotDoomed(s: Schedule, l: Locked)
    requires s.Valid() && LockOk(l) && l.adding.Some?
    ensures (exists n: nat :: ReleasedBy(s, l, n)) <==> !Doomed(l)
  {
    if Doomed(l) {
      forall n: nat ensures !ReleasedBy(s, l, n) { DoomedNeverReleases(s, l, n); }
    } else {
      var n := NotDoomedReleases(s, l);
      assert ReleasedBy(s, l, n);
    }
  }

  /** Neither loop can do anything. */
  ghost predicate Deadlocked(s: Schedule, l: Locked) { forall m :: !MoveEnabled(s, l, m) }

  /** Both loops are stuck exactly when the channel is full and all the submitter has left to do needs the lock. */
  lemma DeadlockedIff(s: Schedule, l: Locked)
    requires s.Valid() && LockOk(l)
    ensures Deadlocked(s, l) <==>
      && l.adding.Some? && Full(l.st)
      && (|| (l.st.submitter.mode.InHeadChange?
              && forall open :: open in l.st.submitter.mode.pending ==> WindowLooksUp(l.st.submitter, open))
          || NeedsLock(l.st.submitter, HandlePostReady))
  {
    var u := l.st.submitter;
    var di := NewInfo(s, 0, 0, 0);
    if l.adding.None? {
      assert MoveEnabled(s, l, Plain(ProverHead(0, di)));
    } else if !Full(l.st) {
      assert MoveEnabled(s, l, Unblock);
    } else if u.mode == Idle {
      assert MoveEnabled(s, l, Plain(HeadBegin(None, 0, di)));
    } else if u.mode.InPostReady? {
      assert MoveEnabled(s, l, Plain(HandlePostReady)) <==> !NeedsLock(u, HandlePostReady);
    } else {
      forall open | open in u.mode.pending && !WindowLooksUp(u, open)
        ensures MoveEnabled(s, l, Plain(HeadWindow(open))) {}
    }
  }
}
