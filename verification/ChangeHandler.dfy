/**
 The window PoSt change handler as a step system.

 Two goroutines share a proof cache: the prover generates proofs, the submitter sends
 them.  Each handles one message at a time, and a step below is one stretch of one
 goroutine between two accesses to the shared cache.  The submitter walks its windows in
 map order, so a head change there is one opening step and one step per window, and the
 prover may add proofs in between.  A run is any interleaving of enabled steps.
 */
module ChangeHandler {
  import opened Options
  import opened Deadlines

  const SUBMIT_CONFIDENCE := 4
  const CHALLENGE_CONFIDENCE := 10
  /** Capacity of the channel that announces cached proofs. */
  const ADDED_CAPACITY := 16

  type Posts = seq<nat>

  // ----- the prover -----

  /** A proof generation whose result has not been processed. */
  datatype Generation = Generation(di: Info, aborted: bool)

  datatype Prover = Prover(current: Option<nat>, generations: map<nat, Generation>, started: nat)

  /** Cached proofs by window opening, and the openings announced but not yet read. */
  datatype Cache = Cache(proofs: map<int, Posts>, added: seq<int>)

  // ----- the submitter -----

  datatype SubmitState = Start | Submitting | Complete

  /** `abort` names the submission whose cancel function the window holds. */
  datatype PostWindow = PostWindow(di: Info, state: SubmitState, abort: Option<nat>)

  /** A submission whose result has not been processed; `window` is the object its callback holds. */
  datatype Submission = Submission(window: nat, height: int, posts: Posts, aborted: bool)

  datatype Mode = Idle | InHeadChange(revert: Option<int>, pending: set<int>) | InPostReady(open: int)

  /** Window objects have identities, so that a late result can reach an object that was replaced. */
  datatype Submitter = Submitter(
    height: int,
    windows: map<int, nat>,
    objects: map<nat, PostWindow>,
    submissions: map<nat, Submission>,
    nextWindow: nat,
    nextSubmission: nat,
    mode: Mode)

  datatype State = State(prover: Prover, cache: Cache, submitter: Submitter)

  datatype Event =
    | ProverHead(height: int, di: Info)
    | GenerationResult(generation: nat, result: Option<Posts>)
    | HeadBegin(revert: Option<int>, height: int, di: Info)
    | HeadWindow(open: int)
    | TakePostReady
    | HandlePostReady
    | SubmitResult(submission: nat, failed: bool)

  const INIT_PROVER := Prover(None, map[], 0)
  const INIT_CACHE := Cache(map[], [])
  const INIT_SUBMITTER := Submitter(0, map[], map[], map[], 0, 0, Idle)
  const INIT := State(INIT_PROVER, INIT_CACHE, INIT_SUBMITTER)

  // ----- prover steps -----

  function AbortExpired(p: Prover, height: int): Prover {
    if p.current.Some? && p.current.value in p.generations && height >= p.generations[p.current.value].di.close
    then p.(current := None,
            generations := p.generations[p.current.value := p.generations[p.current.value].(aborted := true)])
    else p
  }

  function ProveHead(s: Schedule, p: Prover, cache: Cache, height: int, di: Info): Prover
    requires s.Valid() && WellFormed(s, di)
  {
    var q := AbortExpired(p, height);
    if q.current.Some? then q
    else
      var next := FirstUncached(s, cache.proofs.Keys, di);
      if height < next.challenge + CHALLENGE_CONFIDENCE then q
      else Prover(Some(q.started), q.generations[q.started := Generation(next, false)], q.started + 1)
  }

  function AddProofs(cache: Cache, open: int, posts: Posts): Cache {
    Cache(cache.proofs[open := posts], cache.added + [open])
  }

  /** A failure clears `current` only if it is this generation; a success clears it unconditionally. */
  function FinishGeneration(p: Prover, generation: nat, result: Option<Posts>): Prover {
    var rest := p.generations - {generation};
    if result.None? && p.current != Some(generation) then p.(generations := rest)
    else p.(current := None, generations := rest)
  }

  // ----- submitter steps -----

  function SubmitIfReady(u: Submitter, cache: Cache, id: nat): Submitter
    requires id in u.objects
  {
    var pw := u.objects[id];
    if u.height >= pw.di.close || pw.state != Start || u.height < pw.di.open + SUBMIT_CONFIDENCE
       || pw.di.open !in cache.proofs
    then u
    else if cache.proofs[pw.di.open] == [] then u.(objects := u.objects[id := pw.(state := Complete)])
    else u.(objects := u.objects[id := pw.(state := Submitting, abort := Some(u.nextSubmission))],
            submissions := u.submissions[u.nextSubmission := Submission(id, u.height, cache.proofs[pw.di.open], false)],
            nextSubmission := u.nextSubmission + 1)
  }

  function Track(u: Submitter, di: Info): Submitter {
    if di.open in u.windows then u
    else u.(windows := u.windows[di.open := u.nextWindow],
            objects := u.objects[u.nextWindow := PostWindow(di, Start, None)],
            nextWindow := u.nextWindow + 1)
  }

  function BeginHeadChange(u: Submitter, revert: Option<int>, height: int, di: Info): Submitter {
    var v := Track(u.(height := height), di);
    v.(mode := InHeadChange(revert, v.windows.Keys))
  }

  predicate RevertedBelow(revert: Option<int>, open: int) {
    revert.Some? && revert.value < open
  }

  /** Replace the window by a fresh object and cancel its submission. */
  function Replace(u: Submitter, open: int): Submitter
    requires open in u.windows && u.windows[open] in u.objects
  {
    var pw := u.objects[u.windows[open]];
    if pw.abort.None? then u
    else
      u.(windows := u.windows[open := u.nextWindow],
         objects := u.objects[u.nextWindow := PostWindow(pw.di, Start, None)],
         nextWindow := u.nextWindow + 1,
         submissions := if pw.abort.value in u.submissions
                        then u.submissions[pw.abort.value := u.submissions[pw.abort.value].(aborted := true)]
                        else u.submissions)
  }

  function ResetWindow(u: Submitter, open: int, revert: Option<int>): (v: Submitter)
    requires open in u.windows && u.windows[open] in u.objects
    ensures open in v.windows && v.windows[open] in v.objects
  {
    var pw := u.objects[u.windows[open]];
    if pw.state == Submitting && (RevertedBelow(revert, pw.di.open) || u.height >= pw.di.close)
    then Replace(u, open)
    else if pw.state == Complete && RevertedBelow(revert, pw.di.open)
    then u.(objects := u.objects[u.windows[open] := pw.(state := Start)])
    else u
  }

  function LeaveWindow(m: Mode, open: int): Mode {
    if m.InHeadChange? && m.pending - {open} != {} then InHeadChange(m.revert, m.pending - {open}) else Idle
  }

  function ProcessWindow(u: Submitter, cache: Cache, open: int): Submitter
    requires u.mode.InHeadChange? && open in u.windows && u.windows[open] in u.objects
  {
    var v := ResetWindow(u, open, u.mode.revert);
    SubmitIfReady(v, cache, v.windows[open]).(mode := LeaveWindow(u.mode, open))
  }

  function ProcessPostReady(u: Submitter, cache: Cache, open: int): Submitter {
    if open in u.windows && u.windows[open] in u.objects
    then SubmitIfReady(u, cache, u.windows[open]).(mode := Idle)
    else u.(mode := Idle)
  }

  function FinishSubmission(u: Submitter, submission: nat, failed: bool): Submitter
    requires submission in u.submissions
  {
    var id := u.submissions[submission].window;
    var v := u.(submissions := u.submissions - {submission});
    if id in u.objects
    then v.(objects := u.objects[id := u.objects[id].(state := if failed then Start else Complete)])
    else v
  }

  // ----- the step system -----

  predicate Enabled(s: Schedule, st: State, e: Event) {
    match e
    case ProverHead(_, di) => WellFormed(s, di)
    case GenerationResult(g, result) =>
      g in st.prover.generations && (result.Some? ==> |st.cache.added| < ADDED_CAPACITY)
    case HeadBegin(_, _, di) => st.submitter.mode == Idle && WellFormed(s, di)
    case HeadWindow(open) =>
      && st.submitter.mode.InHeadChange? && open in st.submitter.mode.pending
      && open in st.submitter.windows && st.submitter.windows[open] in st.submitter.objects
    case TakePostReady => st.submitter.mode == Idle && st.cache.added != []
    case HandlePostReady => st.submitter.mode.InPostReady?
    case SubmitResult(sub, _) => st.submitter.mode == Idle && sub in st.submitter.submissions
  }

  function Step(s: Schedule, st: State, e: Event): State
    requires s.Valid() && Enabled(s, st, e)
  {
    match e
    case ProverHead(height, di) => st.(prover := ProveHead(s, st.prover, st.cache, height, di))
    case GenerationResult(g, result) =>
      st.(prover := FinishGeneration(st.prover, g, result),
          cache := if result.Some? then AddProofs(st.cache, st.prover.generations[g].di.open, result.value)
                   else st.cache)
    case HeadBegin(revert, height, di) => st.(submitter := BeginHeadChange(st.submitter, revert, height, di))
    case HeadWindow(open) => st.(submitter := ProcessWindow(st.submitter, st.cache, open))
    case TakePostReady =>
      st.(cache := st.cache.(added := st.cache.added[1..]),
          submitter := st.submitter.(mode := InPostReady(st.cache.added[0])))
    case HandlePostReady =>
      st.(submitter := ProcessPostReady(st.submitter, st.cache, st.submitter.mode.open))
    case SubmitResult(sub, failed) => st.(submitter := FinishSubmission(st.submitter, sub, failed))
  }

  /** `trace[i]` is the state before `events[i]`. */
  ghost predicate IsRun(s: Schedule, trace: seq<State>, events: seq<Event>) {
    && s.Valid()
    && |trace| == |events| + 1
    && trace[0] == INIT
    && forall i :: 0 <= i < |events| ==> Enabled(s, trace[i], events[i]) && trace[i + 1] == Step(s, trace[i], events[i])
  }

  // ----- what a reader observes -----

  predicate Tracked(st: State, open: int) {
    open in st.submitter.windows && st.submitter.windows[open] in st.submitter.objects
  }

  function Window(st: State, open: int): PostWindow
    requires Tracked(st, open)
  {
    st.submitter.objects[st.submitter.windows[open]]
  }

  /** A submission that is started, not cancelled, and whose result has not been processed. */
  predicate LiveSubmission(st: State, sub: nat, open: int) {
    && sub in st.submitter.submissions && !st.submitter.submissions[sub].aborted
    && st.submitter.submissions[sub].window in st.submitter.objects
    && st.submitter.objects[st.submitter.submissions[sub].window].di.open == open
  }

  predicate LiveGeneration(st: State, g: nat) {
    g in st.prover.generations && !st.prover.generations[g].aborted
  }

  // ----- the submitter's invariant -----

  ghost predicate WindowsOk(u: Submitter) {
    && (forall o :: o in u.windows ==> u.windows[o] in u.objects && u.objects[u.windows[o]].di.open == o)
    && (forall id :: id in u.objects ==> id < u.nextWindow)
    && (u.mode.InHeadChange? ==> u.mode.pending <= u.windows.Keys)
  }

  /** Every unprocessed submission is held by exactly one object, which waits for it. */
  ghost predicate SubmissionOk(u: Submitter, k: nat)
    requires k in u.submissions
  {
    var sub := u.submissions[k];
    && k < u.nextSubmission
    && sub.window in u.objects
    && u.objects[sub.window].state == Submitting
    && u.objects[sub.window].abort == Some(k)
    && u.objects[sub.window].di.open in u.windows
    && (sub.aborted <==> u.windows[u.objects[sub.window].di.open] != sub.window)
  }

  ghost predicate WaitingOk(u: Submitter, id: nat)
    requires id in u.objects
  {
    u.objects[id].state == Submitting ==>
      && u.objects[id].abort.Some?
      && u.objects[id].abort.value in u.submissions
      && u.submissions[u.objects[id].abort.value].window == id
  }

  ghost predicate SubmitterOk(u: Submitter) {
    && WindowsOk(u)
    && (forall k :: k in u.submissions ==> SubmissionOk(u, k))
    && (forall id :: id in u.objects ==> WaitingOk(u, id))
  }

  lemma SubmitIfReadyKeepsOk(u: Submitter, cache: Cache, open: int)
    requires SubmitterOk(u) && open in u.windows
    ensures SubmitterOk(SubmitIfReady(u, cache, u.windows[open]))
  {
    var id := u.windows[open];
    var v := SubmitIfReady(u, cache, id);
    forall k | k in v.submissions ensures SubmissionOk(v, k) {
      if k in u.submissions { assert SubmissionOk(u, k); }
    }
    forall i | i in v.objects ensures WaitingOk(v, i) {
      assert WaitingOk(u, i);
    }
  }

  lemma ResetWindowKeepsOk(u: Submitter, open: int, revert: Option<int>)
    requires SubmitterOk(u) && open in u.windows
    ensures SubmitterOk(ResetWindow(u, open, revert))
  {
    var v := ResetWindow(u, open, revert);
    assert WaitingOk(u, u.windows[open]);
    forall k | k in v.submissions ensures SubmissionOk(v, k) {
      assert SubmissionOk(u, k);
    }
    forall i | i in v.objects ensures WaitingOk(v, i) {
      if i in u.objects { assert WaitingOk(u, i); }
    }
  }

  lemma BeginKeepsOk(u: Submitter, revert: Option<int>, height: int, di: Info)
    requires SubmitterOk(u) && u.mode == Idle
    ensures SubmitterOk(BeginHeadChange(u, revert, height, di))
  {
    var v := BeginHeadChange(u, revert, height, di);
    forall k | k in v.submissions ensures SubmissionOk(v, k) {
      assert SubmissionOk(u, k);
    }
    forall i | i in v.objects ensures WaitingOk(v, i) {
      if i in u.objects { assert WaitingOk(u, i); }
    }
  }

  lemma FinishKeepsOk(u: Submitter, sub: nat, failed: bool)
    requires SubmitterOk(u) && sub in u.submissions
    ensures SubmitterOk(FinishSubmission(u, sub, failed))
  {
    var v := FinishSubmission(u, sub, failed);
    assert SubmissionOk(u, sub);
    forall k | k in v.submissions ensures SubmissionOk(v, k) {
      assert SubmissionOk(u, k);
    }
    forall i | i in v.objects ensures WaitingOk(v, i) {
      assert WaitingOk(u, i);
    }
  }

  lemma ModeKeepsOk(u: Submitter, m: Mode)
    requires SubmitterOk(u) && (m.InHeadChange? ==> m.pending <= u.windows.Keys)
    ensures SubmitterOk(u.(mode := m))
  {
    var v := u.(mode := m);
    forall k | k in v.submissions ensures SubmissionOk(v, k) {
      assert SubmissionOk(u, k);
    }
    forall i | i in v.objects ensures WaitingOk(v, i) {
      assert WaitingOk(u, i);
    }
  }

  lemma ProcessWindowKeepsOk(u: Submitter, cache: Cache, open: int)
    requires SubmitterOk(u) && u.mode.InHeadChange? && open in u.windows
    ensures SubmitterOk(ProcessWindow(u, cache, open))
    ensures ProcessWindow(u, cache, open).windows.Keys == u.windows.Keys
  {
    var v := ResetWindow(u, open, u.mode.revert);
    ResetWindowKeepsOk(u, open, u.mode.revert);
    SubmitIfReadyKeepsOk(v, cache, open);
    ModeKeepsOk(SubmitIfReady(v, cache, v.windows[open]), LeaveWindow(u.mode, open));
  }

  lemma StepKeepsSubmitterOk(s: Schedule, st: State, e: Event)
    requires s.Valid() && SubmitterOk(st.submitter) && Enabled(s, st, e)
    ensures SubmitterOk(Step(s, st, e).submitter)
  {
    var u := st.submitter;
    match e
    case ProverHead(_, _) =>
    case GenerationResult(_, _) =>
    case HeadBegin(revert, height, di) => BeginKeepsOk(u, revert, height, di);
    case HeadWindow(open) => ProcessWindowKeepsOk(u, st.cache, open);
    case TakePostReady => ModeKeepsOk(u, InPostReady(st.cache.added[0]));
    case HandlePostReady =>
      var open := u.mode.open;
      if open in u.windows {
        SubmitIfReadyKeepsOk(u, st.cache, open);
        ModeKeepsOk(SubmitIfReady(u, st.cache, u.windows[open]), Idle);
      } else {
        ModeKeepsOk(u, Idle);
      }
    case SubmitResult(sub, failed) => FinishKeepsOk(u, sub, failed);
  }

  lemma {:induction false} RunKeepsSubmitterOk(s: Schedule, trace: seq<State>, events: seq<Event>, i: nat)
    requires IsRun(s, trace, events) && i < |trace|
    ensures SubmitterOk(trace[i].submitter)
  {
    if i > 0 {
      RunKeepsSubmitterOk(s, trace, events, i - 1);
      StepKeepsSubmitterOk(s, trace[i - 1], events[i - 1]);
    }
  }

  // ----- claims about submissions -----

  /** At most one live submission per window, in every reachable state; it belongs to the tracked window. */
  lemma OneLiveSubmission(s: Schedule, trace: seq<State>, events: seq<Event>, i: nat, a: nat, b: nat, open: int)
    requires IsRun(s, trace, events) && i < |trace|
    requires LiveSubmission(trace[i], a, open) && LiveSubmission(trace[i], b, open)
    ensures a == b
    ensures Tracked(trace[i], open) && Window(trace[i], open).state == Submitting
    ensures Window(trace[i], open).abort == Some(a)
  {
    RunKeepsSubmitterOk(s, trace, events, i);
    var u := trace[i].submitter;
    assert SubmissionOk(u, a) && SubmissionOk(u, b);
  }

  /** A window that waits for a result always has exactly the live submission it waits for. */
  lemma SubmittingWindowIsLive(s: Schedule, trace: seq<State>, events: seq<Event>, i: nat, open: int)
    requires IsRun(s, trace, events) && i < |trace|
    requires Tracked(trace[i], open) && Window(trace[i], open).state == Submitting
    ensures Window(trace[i], open).abort.Some?
    ensures LiveSubmission(trace[i], Window(trace[i], open).abort.value, open)
  {
    RunKeepsSubmitterOk(s, trace, events, i);
    var u := trace[i].submitter;
    assert WaitingOk(u, u.windows[open]);
    assert SubmissionOk(u, u.objects[u.windows[open]].abort.value);
  }

  /**
   Every submission starts with the cached, non-empty proofs of its window, at a height in
   [open + confidence, close), and from Start -- or from a window that this very step put
   back to Start because the chain was reverted below its opening.
   */
  lemma SubmissionStartsWhenReady(s: Schedule, trace: seq<State>, events: seq<Event>, i: nat, k: nat)
    requires IsRun(s, trace, events) && i < |events|
    requires k !in trace[i].submitter.submissions && k in trace[i + 1].submitter.submissions
    ensures
      var before, sub := trace[i], trace[i + 1].submitter.submissions[k];
      && sub.window in trace[i + 1].submitter.objects
      && var di := trace[i + 1].submitter.objects[sub.window].di;
      && Tracked(before, di.open)
      && di.open in before.cache.proofs
      && sub.posts == before.cache.proofs[di.open] && sub.posts != []
      && sub.height == before.submitter.height
      && di.open + SUBMIT_CONFIDENCE <= sub.height < di.close
      && (Window(before, di.open).state == Start
          || (events[i] == HeadWindow(di.open) && RevertedBelow(before.submitter.mode.revert, di.open)))
      && LiveSubmission(trace[i + 1], k, di.open)
  {
    RunKeepsSubmitterOk(s, trace, events, i);
    RunKeepsSubmitterOk(s, trace, events, i + 1);
    assert SubmissionOk(trace[i + 1].submitter, k);
    var u, cache := trace[i].submitter, trace[i].cache;
    if events[i].HeadWindow? {
      var v := ResetWindow(u, events[i].open, u.mode.revert);
      ResetStartsNothing(u, events[i].open, k);
      StartsReady(v, cache, v.windows[events[i].open], k);
    } else if events[i].HandlePostReady? && u.mode.open in u.windows {
      StartsReady(u, cache, u.windows[u.mode.open], k);
    }
  }

  /** Resetting a window starts no submission, and puts it in Start only from Start or after a revert or its close. */
  lemma ResetStartsNothing(u: Submitter, open: int, k: nat)
    requires SubmitterOk(u) && u.mode.InHeadChange? && open in u.windows
    ensures var v := ResetWindow(u, open, u.mode.revert);
      && (k in v.submissions <==> k in u.submissions) && v.height == u.height
      && v.objects[v.windows[open]].di == u.objects[u.windows[open]].di
      && (v.objects[v.windows[open]].state == Start ==>
            || u.objects[u.windows[open]].state == Start
            || RevertedBelow(u.mode.revert, open) || u.height >= u.objects[u.windows[open]].di.close)
  {
    assert WaitingOk(u, u.windows[open]);
  }

  /** A check that starts a submission finds the window in Start, its proofs cached, and the height in range. */
  lemma StartsReady(u: Submitter, cache: Cache, id: nat, k: nat)
    requires id in u.objects && k !in u.submissions && k in SubmitIfReady(u, cache, id).submissions
    ensures var v, di := SubmitIfReady(u, cache, id), u.objects[id].di;
      && u.objects[id].state == Start && di.open in cache.proofs && cache.proofs[di.open] != []
      && di.open + SUBMIT_CONFIDENCE <= u.height < di.close
      && v.submissions[k] == Submission(id, u.height, cache.proofs[di.open], false) && v.objects[id].di == di
  {
  }

  /** The result of a cancelled submission changes no tracked window. */
  lemma AbortedResultIsHarmless(s: Schedule, trace: seq<State>, events: seq<Event>, i: nat, open: int)
    requires IsRun(s, trace, events) && i < |events|
    requires events[i].SubmitResult?
    requires trace[i].submitter.submissions[events[i].submission].aborted
    ensures Tracked(trace[i + 1], open) == Tracked(trace[i], open)
    ensures Tracked(trace[i], open) ==> Window(trace[i + 1], open) == Window(trace[i], open)
  {
    RunKeepsSubmitterOk(s, trace, events, i);
    assert SubmissionOk(trace[i].submitter, events[i].submission);
  }

  lemma CompleteInHeadChange(s: Schedule, st: State, o: int, open: int)
    requires s.Valid() && SubmitterOk(st.submitter) && Enabled(s, st, HeadWindow(o))
    requires Tracked(st, open) && Window(st, open).state == Complete
    ensures Tracked(Step(s, st, HeadWindow(o)), open)
    ensures Window(Step(s, st, HeadWindow(o)), open).state == Complete
            || (o == open && RevertedBelow(st.submitter.mode.revert, open))
  {
    if o != open { OtherWindowUntouched(st.submitter, st.cache, o, open); }
  }

  lemma CompleteStep(s: Schedule, st: State, e: Event, open: int)
    requires s.Valid() && SubmitterOk(st.submitter) && Enabled(s, st, e)
    requires Tracked(st, open) && Window(st, open).state == Complete
    ensures Tracked(Step(s, st, e), open)
    ensures Window(Step(s, st, e), open).state == Complete
            || (e == HeadWindow(open) && RevertedBelow(st.submitter.mode.revert, open))
  {
    if e.HeadWindow? { CompleteInHeadChange(s, st, e.open, open); }
    else if e.SubmitResult? { assert SubmissionOk(st.submitter, e.submission); }
  }

  /** A completed window leaves Complete only in a head change that reverts below its opening. */
  lemma {:induction false} CompleteUntilRevert(s: Schedule, trace: seq<State>, events: seq<Event>, i: nat, j: nat,
                                               open: int)
    returns (k: nat)
    requires IsRun(s, trace, events) && i <= j < |trace|
    requires Tracked(trace[i], open) && Window(trace[i], open).state == Complete
    requires !(Tracked(trace[j], open) && Window(trace[j], open).state == Complete)
    ensures i <= k < j && events[k] == HeadWindow(open)
    ensures RevertedBelow(trace[k].submitter.mode.revert, open)
    decreases j - i
  {
    RunKeepsSubmitterOk(s, trace, events, i);
    CompleteStep(s, trace[i], events[i], open);
    if Window(trace[i + 1], open).state == Complete {
      k := CompleteUntilRevert(s, trace, events, i + 1, j, open);
    } else {
      k := i;
    }
  }

  // ----- no lost submit trigger -----

  /** The window could be submitted right now and nothing is being done about it yet. */
  predicate Ready(st: State, open: int) {
    && Tracked(st, open)
    && Window(st, open).state == Start
    && open in st.cache.proofs
    && open + SUBMIT_CONFIDENCE <= st.submitter.height < Window(st, open).di.close
  }

  /** A trigger for the window is still to be handled. */
  predicate Triggered(st: State, open: int) {
    || open in st.cache.added
    || (st.submitter.mode.InHeadChange? && open in st.submitter.mode.pending)
    || st.submitter.mode == InPostReady(open)
  }

  predicate FailsFor(st: State, e: Event, open: int) {
    && e.SubmitResult? && e.failed
    && LiveSubmission(st, e.submission, open)
  }

  /** The window's submission failed at step `k`, and no head change began since. */
  ghost predicate FailedSince(trace: seq<State>, events: seq<Event>, open: int, k: int, i: int)
    requires |trace| == |events| + 1 && 0 <= i < |trace|
  {
    && 0 <= k < i
    && FailsFor(trace[k], events[k], open)
    && forall j :: k < j < i ==> !events[j].HeadBegin?
  }

  /** After its check a window is submitted, complete, or not ready. */
  lemma WindowHandled(u: Submitter, cache: Cache, open: int)
    requires SubmitterOk(u) && open in u.windows
    ensures
      var v := SubmitIfReady(u, cache, u.windows[open]);
      && open in v.windows && v.windows[open] in v.objects
      && var pw := v.objects[v.windows[open]];
      !(pw.state == Start && open in cache.proofs && open + SUBMIT_CONFIDENCE <= v.height < pw.di.close)
  {
  }

  /**
   What one step may do to a ready window: it has a trigger, had none before either, or its submission just
   failed.
   */
  predicate TriggerKept(s: Schedule, st: State, e: Event, open: int)
    requires s.Valid() && Enabled(s, st, e)
  {
    || Triggered(Step(s, st, e), open)
    || (!e.HeadBegin? && Ready(st, open) && !Triggered(st, open))
    || FailsFor(st, e, open)
  }

  lemma AnnouncedTriggers(s: Schedule, st: State, e: Event, open: int)
    requires s.Valid() && Enabled(s, st, e) && e.GenerationResult? && Ready(Step(s, st, e), open)
    ensures TriggerKept(s, st, e, open)
  {
    var added := Step(s, st, e).cache.added;
    assert open in st.cache.added ==> open in added;
    if e.result.Some? { assert added[|added| - 1] == st.prover.generations[e.generation].di.open; }
  }

  lemma HeadWindowTriggers(s: Schedule, st: State, o: int, open: int)
    requires s.Valid() && SubmitterOk(st.submitter) && Enabled(s, st, HeadWindow(o))
    requires Ready(Step(s, st, HeadWindow(o)), open)
    ensures TriggerKept(s, st, HeadWindow(o), open)
  {
    var u := st.submitter;
    ResetWindowKeepsOk(u, o, u.mode.revert);
    if o == open {
      WindowHandled(ResetWindow(u, o, u.mode.revert), st.cache, o);
    } else {
      OtherWindowUntouched(u, st.cache, o, open);
      assert open in u.mode.pending ==> open in u.mode.pending - {o};
    }
  }

  /** Handling one window leaves the others as they are. */
  lemma OtherWindowUntouched(u: Submitter, cache: Cache, o: int, open: int)
    requires SubmitterOk(u) && u.mode.InHeadChange? && o in u.windows && o != open
    ensures var v := ProcessWindow(u, cache, o);
      && (open in v.windows <==> open in u.windows) && v.height == u.height
      && (open in u.windows ==>
            v.windows[open] == u.windows[open] && u.windows[open] in v.objects
            && v.objects[u.windows[open]] == u.objects[u.windows[open]])
  {
  }

  lemma OtherStepTriggers(s: Schedule, st: State, e: Event, open: int)
    requires s.Valid() && SubmitterOk(st.submitter) && Enabled(s, st, e) && !e.GenerationResult? && !e.HeadWindow?
    requires Ready(Step(s, st, e), open)
    ensures TriggerKept(s, st, e, open)
  {
    match e
    case HeadBegin(revert, height, di) => assert open in Step(s, st, e).submitter.mode.pending;
    case TakePostReady => assert open in st.cache.added ==> open == st.cache.added[0] || open in st.cache.added[1..];
    case HandlePostReady => HandledTriggers(s, st, open);
    case SubmitResult(sub, failed) => assert SubmissionOk(st.submitter, sub);
    case _ =>
  }

  lemma HandledTriggers(s: Schedule, st: State, open: int)
    requires s.Valid() && SubmitterOk(st.submitter) && Enabled(s, st, HandlePostReady)
    requires Ready(Step(s, st, HandlePostReady), open)
    ensures TriggerKept(s, st, HandlePostReady, open)
  {
    var o := st.submitter.mode.open;
    if o in st.submitter.windows { WindowHandled(st.submitter, st.cache, o); }
  }

  /** One step: a ready window without a trigger was so before, or its submission just failed. */
  lemma TriggerStep(s: Schedule, st: State, e: Event, open: int)
    requires s.Valid() && SubmitterOk(st.submitter) && Enabled(s, st, e)
    requires Ready(Step(s, st, e), open)
    ensures
      || Triggered(Step(s, st, e), open)
      || (!e.HeadBegin? && Ready(st, open) && !Triggered(st, open))
      || FailsFor(st, e, open)
  {
    if e.GenerationResult? { AnnouncedTriggers(s, st, e, open); }
    else if e.HeadWindow? { HeadWindowTriggers(s, st, e.open, open); }
    else { OtherStepTriggers(s, st, e, open); }
  }

  /**
   In every reachable state a window that could be submitted has a trigger pending, or its
   last submission failed after the last head change.
   */
  lemma {:induction false} NoLostTrigger(s: Schedule, trace: seq<State>, events: seq<Event>, i: nat, open: int)
    returns (k: int)
    requires IsRun(s, trace, events) && i < |trace|
    requires Ready(trace[i], open)
    ensures Triggered(trace[i], open) || FailedSince(trace, events, open, k, i)
  {
    k := 0;
    if !Triggered(trace[i], open) {
      RunKeepsSubmitterOk(s, trace, events, i - 1);
      TriggerStep(s, trace[i - 1], events[i - 1], open);
      if FailsFor(trace[i - 1], events[i - 1], open) {
        k := i - 1;
      } else {
        k := NoLostTrigger(s, trace, events, i - 1, open);
      }
    }
  }

  // ----- claims about generations -----

  /** The prover tracks exactly the live generations, and the one it tracks has no cached proof. */
  ghost predicate ProverOk(p: Prover, cache: Cache) {
    && (forall g :: g in p.generations ==> g < p.started)
    && (forall g :: g in p.generations && !p.generations[g].aborted ==> p.current == Some(g))
    && (p.current.Some? ==>
          && p.current.value in p.generations
          && !p.generations[p.current.value].aborted
          && p.generations[p.current.value].di.open !in cache.proofs)
  }

  /** A cancelled generation that reports success while another one is running. */
  predicate ClobbersCurrent(st: State, e: Event) {
    && e.GenerationResult? && e.result.Some?
    && st.prover.current.Some? && st.prover.current != Some(e.generation)
  }

  /** A step keeps the prover's bookkeeping if and only if it is not such a late success. */
  lemma StepKeepsProverOk(s: Schedule, st: State, e: Event)
    requires s.Valid() && ProverOk(st.prover, st.cache) && Enabled(s, st, e)
    ensures ProverOk(Step(s, st, e).prover, Step(s, st, e).cache) <==> !ClobbersCurrent(st, e)
  {
    var p, t := st.prover, Step(s, st, e);
    if ClobbersCurrent(st, e) {
      var g := p.current.value;
      assert g in t.prover.generations && !t.prover.generations[g].aborted;
    }
  }

  /** An aborted generation reports an error. */
  ghost predicate AbortsReportErrors(trace: seq<State>, events: seq<Event>)
    requires |trace| == |events| + 1
  {
    forall i :: 0 <= i < |events| && events[i].GenerationResult? && events[i].result.Some? ==>
      LiveGeneration(trace[i], events[i].generation)
  }

  lemma {:induction false} RunKeepsProverOk(s: Schedule, trace: seq<State>, events: seq<Event>, i: nat)
    requires IsRun(s, trace, events) && AbortsReportErrors(trace, events) && i < |trace|
    ensures ProverOk(trace[i].prover, trace[i].cache)
  {
    if i > 0 {
      RunKeepsProverOk(s, trace, events, i - 1);
      StepKeepsProverOk(s, trace[i - 1], events[i - 1]);
    }
  }

  /** If aborted generations report errors, at most one generation is live in every reachable state. */
  lemma OneLiveGeneration(s: Schedule, trace: seq<State>, events: seq<Event>, i: nat, a: nat, b: nat)
    requires IsRun(s, trace, events) && AbortsReportErrors(trace, events) && i < |trace|
    requires LiveGeneration(trace[i], a) && LiveGeneration(trace[i], b)
    ensures a == b && trace[i].prover.current == Some(a)
  {
    RunKeepsProverOk(s, trace, events, i);
  }

  /**
   A running generation stays the current one until its own result, or until a head change
   at or past the close of its window: no late failure of another generation clears it.
   */
  lemma {:induction false} CurrentUntilDone(s: Schedule, trace: seq<State>, events: seq<Event>, i: nat, j: nat)
    returns (k: nat)
    requires IsRun(s, trace, events) && AbortsReportErrors(trace, events) && i <= j < |trace|
    requires trace[i].prover.current.Some? && trace[j].prover.current != trace[i].prover.current
    ensures i <= k < j && trace[k].prover.current == trace[i].prover.current
    ensures var g := trace[i].prover.current.value;
      || (events[k].GenerationResult? && events[k].generation == g)
      || (events[k].ProverHead? && g in trace[k].prover.generations
          && events[k].height >= trace[k].prover.generations[g].di.close)
    decreases j - i
  {
    RunKeepsProverOk(s, trace, events, i);
    if trace[i + 1].prover.current == trace[i].prover.current {
      k := CurrentUntilDone(s, trace, events, i + 1, j);
    } else {
      k := i;
    }
  }

  lemma {:induction false} CacheGrows(s: Schedule, trace: seq<State>, events: seq<Event>, i: nat, j: nat)
    requires IsRun(s, trace, events) && i <= j < |trace|
    ensures trace[i].cache.proofs.Keys <= trace[j].cache.proofs.Keys
    decreases j - i
  {
    if i < j {
      CacheGrows(s, trace, events, i + 1, j);
      assert trace[i].cache.proofs.Keys <= trace[i + 1].cache.proofs.Keys;
    }
  }

  /** If aborted generations report errors, each window's proofs enter the cache at most once. */
  lemma ProofsCachedOnce(s: Schedule, trace: seq<State>, events: seq<Event>, i: nat, j: nat)
    requires IsRun(s, trace, events) && AbortsReportErrors(trace, events) && i < j < |events|
    requires events[i].GenerationResult? && events[i].result.Some?
    requires events[j].GenerationResult? && events[j].result.Some?
    ensures trace[i].prover.generations[events[i].generation].di.open
            != trace[j].prover.generations[events[j].generation].di.open
  {
    RunKeepsProverOk(s, trace, events, j);
    CacheGrows(s, trace, events, i + 1, j);
    assert LiveGeneration(trace[j], events[j].generation);
    assert trace[i].prover.generations[events[i].generation].di.open in trace[i + 1].cache.proofs;
  }
}
