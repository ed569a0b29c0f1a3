/**
 The manager's work and call tracking.  A piece of work is started on a worker, which answers
 with a call id and later returns the call's result; callers wait for the result by work id,
 possibly after cancelled waits and manager restarts, and results may arrive before the start
 is recorded.  Steps are the stretches executed under one lock; runs interleave them freely.
 */
module CallTracker {
  import opened Options

  type WorkId = nat
  type CallId = nat
  type Result = nat

  datatype Status = Started | Running | Done

  /** `call` is set when the work is recorded as running on a worker. */
  datatype Work = Work(status: Status, call: Option<CallId>)

  /** The waiter blocked on a work's channel; `woken` once the channel is closed. */
  datatype Waiter = Waiter(call: CallId, woken: bool)

  /**
   The work store and the manager's maps.  `callRes` holds one-slot channels: None is empty.
   `waitRes` are the works with an open wait channel, `waiters` the callers blocked on one.
   */
  datatype Manager = Manager(
    work: map<WorkId, Work>,
    callToWork: map<CallId, WorkId>,
    callRes: map<CallId, Option<Result>>,
    results: map<WorkId, Result>,
    waitRes: set<WorkId>,
    waiters: map<WorkId, Waiter>)

  datatype Tracker = Tracker(running: set<CallId>, done: set<CallId>)

  /**
   The outside world: calls ever issued, and of those the ones issued since the last restart
   (`current`), recorded by the tracker, being returned and returned; calls used to start work;
   calls waited for directly, and the ones with a blocked waiter.
   */
  datatype World = World(
    issued: set<CallId>,
    current: set<CallId>,
    recorded: set<CallId>,
    returning: set<CallId>,
    returned: set<CallId>,
    startCalls: set<CallId>,
    simpleCalls: set<CallId>,
    callWaiters: set<CallId>)

  datatype State = State(m: Manager, tracker: Tracker, world: World)

  datatype Event =
    | GetWork(w: WorkId)
    | Cancel(w: WorkId)
    | Issue(c: CallId)
    | Record(c: CallId)
    | StartOk(w: WorkId, c: CallId)
    | StartFailed(w: WorkId)
    | ReturnBegins(c: CallId)
    | ReturnResult(c: CallId)
    | WaitWork(w: WorkId)
    | WaitWakes(w: WorkId)
    | WaitCancelled(w: WorkId)
    | WaitCall(c: CallId)
    | CallReady(c: CallId)
    | CallCancelled(c: CallId)
    | Restart(abortUnfinished: bool, calls: map<CallId, WorkId>)

  const NO_TRACKER := Tracker({}, {})
  const INIT := State(Manager(map[], map[], map[], map[], {}, map[]), NO_TRACKER, World({}, {}, {}, {}, {}, {}, {}, {}))

  // ----- work store and maps -----

  function Begin(m: Manager, w: WorkId): Manager {
    if w in m.work then m else m.(work := m.work[w := Work(Started, None)])
  }

  /** The cancel function returned to the caller that began the work. */
  function CancelWork(m: Manager, w: WorkId): Manager {
    if w in m.work && (m.work[w].status == Started || (m.work[w].status == Done && m.work[w].call.None?))
    then m.(work := m.work - {w})
    else m
  }

  function RecordStart(m: Manager, w: WorkId, c: CallId): Manager {
    m.(work := m.work[w := Work(if w in m.results then Done else Running, Some(c))],
       callToWork := m.callToWork[c := w])
  }

  function RecordFailedStart(m: Manager, w: WorkId): Manager
    requires w in m.work
  {
    m.(work := m.work[w := m.work[w].(status := Done)])
  }

  datatype Reply = Accepted(m: Manager) | AlreadyReported

  /** The result of a call: to its work if the call is known, else to the call's own channel. */
  function Return(m: Manager, c: CallId, r: Result): Reply {
    if c !in m.callToWork then
      if c in m.callRes && m.callRes[c].Some? then AlreadyReported
      else Accepted(m.(callRes := m.callRes[c := Some(r)]))
    else
      var w := m.callToWork[c];
      if w in m.results then AlreadyReported
      else
        var n := m.(results := m.results[w := r],
                    work := if w in m.work then m.work[w := m.work[w].(status := Done)] else m.work);
        if w !in m.waitRes then Accepted(n)
        else Accepted(n.(waitRes := m.waitRes - {w},
                         waiters := if w in m.waiters then m.waiters[w := m.waiters[w].(woken := true)] else m.waiters))
  }

  datatype WaitError = NoWork | NotStarted | WrongCallToWork | CallResTaken

  datatype Outcome = Value(r: Result) | Blocked | Failed(e: WaitError)

  datatype WaitResult = WaitResult(m: Manager, out: Outcome)

  /** Forget a finished work and its call. */
  function Finish(m: Manager, w: WorkId, c: CallId): Manager {
    m.(results := m.results - {w}, callToWork := m.callToWork - {c}, work := m.work - {w})
  }

  function Wait(m: Manager, w: WorkId): WaitResult {
    if w !in m.work then WaitResult(m, Failed(NoWork))
    else if m.work[w].status == Started then WaitResult(m, Failed(NotStarted))
    else if m.work[w].call.None? || m.work[w].call.value !in m.callToWork || m.callToWork[m.work[w].call.value] != w
    then WaitResult(m, Failed(WrongCallToWork))
    else
      var c := m.work[w].call.value;
      if c in m.callRes then
        var n := m.(callToWork := m.callToWork - {c});
        if m.callRes[c].Some?
        then WaitResult(n.(work := m.work - {w}, callRes := m.callRes - {c}), Value(m.callRes[c].value))
        else WaitResult(n, Failed(CallResTaken))
      else if w in m.results then WaitResult(Finish(m, w, c), Value(m.results[w]))
      else WaitResult(m.(waitRes := m.waitRes + {w}, waiters := m.waiters[w := Waiter(c, false)]), Blocked)
  }

  /** A woken waiter takes the result; the zero result stands for a missing entry. */
  function Wake(m: Manager, w: WorkId): WaitResult
    requires w in m.waiters
  {
    var r := if w in m.results then m.results[w] else 0;
    WaitResult(Finish(m, w, m.waiters[w].call).(waiters := m.waiters - {w}), Value(r))
  }

  function WaitForCall(m: Manager, c: CallId): Manager {
    if c in m.callToWork || c in m.callRes then m else m.(callRes := m.callRes[c := None])
  }

  /** Only the work store survives a restart, and of it only the works running on a worker. */
  function Survivors(work: map<WorkId, Work>, abortUnfinished: bool): map<WorkId, Work> {
    map w | w in work && work[w].status == Running && !abortUnfinished :: work[w]
  }

  /** `calls` maps the recorded call of every work back to the work. */
  ghost predicate Rebuilt(work: map<WorkId, Work>, calls: map<CallId, WorkId>) {
    && (forall w :: w in work && work[w].call.Some? ==> work[w].call.value in calls)
    && (forall c :: c in calls ==> calls[c] in work && work[calls[c]].call == Some(c))
  }

  function Recover(m: Manager, abortUnfinished: bool, calls: map<CallId, WorkId>): Manager {
    Manager(Survivors(m.work, abortUnfinished), calls, map[], map[], {}, map[])
  }

  // ----- the tracker of running calls -----

  function OnDone(t: Tracker, c: CallId): Tracker {
    if c in t.running then t.(running := t.running - {c}) else t.(done := t.done + {c})
  }

  function Track(t: Tracker, c: CallId): Tracker {
    if c in t.done then t.(done := t.done - {c}) else t.(running := t.running + {c})
  }

  // ----- the step system -----

  /**
   What the runs assume: call ids are unique, a call is returned at most once between two
   restarts, the calls that start work are not also waited for directly, a work has at most one
   waiter, and the store does not fail.
   */
  ghost predicate Enabled(s: State, e: Event) {
    match e
    case GetWork(_) => true
    case Cancel(_) => true
    case Issue(c) => c !in s.world.issued
    case Record(c) => c in s.world.current && c !in s.world.recorded
    case StartOk(w, c) =>
      && w in s.m.work && s.m.work[w].status == Started
      && c in s.world.issued && c !in s.world.startCalls && c !in s.world.simpleCalls
    case StartFailed(w) => w in s.m.work && s.m.work[w].status == Started
    case ReturnBegins(c) => c in s.world.issued && c !in s.world.returning && c !in s.world.returned
    case ReturnResult(c) => c in s.world.returning
    case WaitWork(w) => w !in s.m.waiters
    case WaitWakes(w) => w in s.m.waiters && s.m.waiters[w].woken
    case WaitCancelled(w) => w in s.m.waiters
    case WaitCall(c) => c in s.world.issued && c !in s.world.startCalls && c !in s.world.simpleCalls
    case CallReady(c) => c in s.world.callWaiters && c in s.m.callRes && s.m.callRes[c].Some?
    case CallCancelled(c) => c in s.world.callWaiters
    case Restart(abort, calls) => Rebuilt(Survivors(s.m.work, abort), calls)
  }

  function Step(res: CallId -> Result, s: State, e: Event): State
    requires Enabled(s, e)
  {
    match e
    case GetWork(w) => s.(m := Begin(s.m, w))
    case Cancel(w) => s.(m := CancelWork(s.m, w))
    case Issue(c) => s.(world := s.world.(issued := s.world.issued + {c}, current := s.world.current + {c}))
    case Record(c) =>
      s.(tracker := Track(s.tracker, c), world := s.world.(recorded := s.world.recorded + {c}))
    case StartOk(w, c) =>
      s.(m := RecordStart(s.m, w, c), world := s.world.(startCalls := s.world.startCalls + {c}))
    case StartFailed(w) => s.(m := RecordFailedStart(s.m, w))
    case ReturnBegins(c) =>
      s.(tracker := OnDone(s.tracker, c), world := s.world.(returning := s.world.returning + {c}))
    case ReturnResult(c) =>
      s.(m := match Return(s.m, c, res(c)) { case Accepted(m) => m case AlreadyReported => s.m },
         world := s.world.(returning := s.world.returning - {c}, returned := s.world.returned + {c}))
    case WaitWork(w) => s.(m := Wait(s.m, w).m)
    case WaitWakes(w) => s.(m := Wake(s.m, w).m)
    case WaitCancelled(w) => s.(m := s.m.(waiters := s.m.waiters - {w}))
    case WaitCall(c) =>
      s.(m := WaitForCall(s.m, c),
         world := s.world.(simpleCalls := s.world.simpleCalls + {c}, callWaiters := s.world.callWaiters + {c}))
    case CallReady(c) =>
      s.(m := s.m.(callRes := s.m.callRes - {c}), world := s.world.(callWaiters := s.world.callWaiters - {c}))
    case CallCancelled(c) =>
      s.(m := s.m.(callRes := s.m.callRes - {c}), world := s.world.(callWaiters := s.world.callWaiters - {c}))
    case Restart(abort, calls) =>
      s.(m := Recover(s.m, abort, calls), tracker := NO_TRACKER,
         world := s.world.(current := {}, recorded := {}, returning := {}, returned := {}, callWaiters := {}))
  }

  ghost predicate IsRun(res: CallId -> Result, trace: seq<State>, events: seq<Event>) {
    && |trace| == |events| + 1
    && trace[0] == INIT
    && forall i :: 0 <= i < |events| ==> Enabled(trace[i], events[i]) && trace[i + 1] == Step(res, trace[i], events[i])
  }

  // ----- the invariant -----

  /** A started work and its call know each other; its result, once there, is the call's. */
  ghost predicate WorkOk(res: CallId -> Result, s: State, w: WorkId)
    requires w in s.m.work
  {
    var x := s.m.work[w];
    && (x.call.Some? ==>
          && x.status != Started
          && x.call.value in s.m.callToWork && s.m.callToWork[x.call.value] == w
          && x.call.value in s.world.startCalls
          && (x.status == Done ==> w in s.m.results))
    && (x.call.None? ==> x.status != Running)
    && (w in s.m.results ==> x.status == Done && x.call.Some? && s.m.results[w] == res(x.call.value)
                             && x.call.value in s.world.returned)
  }

  ghost predicate CallsOk(res: CallId -> Result, s: State) {
    && (forall c :: c in s.m.callToWork ==>
          c in s.world.startCalls && s.m.callToWork[c] in s.m.work && s.m.work[s.m.callToWork[c]].call == Some(c))
    && (forall c :: c in s.m.callRes && s.m.callRes[c].Some? ==>
          s.m.callRes[c].value == res(c) && c in s.world.returned)
    && (forall c :: c in s.m.callRes && s.m.callRes[c].None? ==> c in s.world.simpleCalls && c !in s.world.returned)
    && s.world.startCalls !! s.world.simpleCalls
    && s.world.returning !! s.world.returned
    && s.world.startCalls + s.world.simpleCalls + s.world.returning + s.world.returned + s.world.current
       <= s.world.issued
    && s.world.recorded <= s.world.current
    && s.world.callWaiters <= s.world.simpleCalls
  }

  /** The result of a known call has arrived exactly if it is in one of two places, never in both. */
  ghost predicate ArrivalOk(s: State) {
    forall c :: c in s.m.callToWork ==>
      && (c in s.world.returned <==> c in s.m.callRes || s.m.callToWork[c] in s.m.results)
      && !(c in s.m.callRes && s.m.callToWork[c] in s.m.results)
  }

  /** The result of a call nobody has claimed yet is kept in the call's channel. */
  ghost predicate UnclaimedOk(s: State) {
    forall c :: c in s.world.returned && c !in s.world.startCalls && c !in s.world.simpleCalls ==>
      c in s.m.callRes && s.m.callRes[c].Some?
  }

  ghost predicate WaiterOk(s: State, w: WorkId)
    requires w in s.m.waiters
  {
    var x := s.m.waiters[w];
    && w in s.m.work && s.m.work[w].call == Some(x.call) && x.call !in s.m.callRes
    && (x.woken <==> w in s.m.results)
    && (!x.woken ==> w in s.m.waitRes)
  }

  ghost predicate WorksOk(res: CallId -> Result, s: State) {
    && (forall w :: w in s.m.work ==> WorkOk(res, s, w))
    && (forall w :: w in s.m.results ==> w in s.m.work)
  }

  ghost predicate WaitersOk(s: State) {
    forall w :: w in s.m.waiters ==> WaiterOk(s, w)
  }

  ghost predicate StateOk(res: CallId -> Result, s: State) {
    WorksOk(res, s) && WaitersOk(s) && CallsOk(res, s) && ArrivalOk(s) && UnclaimedOk(s)
  }

  /** A call issued since the last restart is `running` from recording to return, `done` if it returned first. */
  ghost predicate TrackerOk(s: State) {
    && s.tracker.running + s.tracker.done <= s.world.issued
    && forall c :: c in s.world.current ==>
      var arrived := c in s.world.returning || c in s.world.returned;
      && (c in s.tracker.running <==> c in s.world.recorded && !arrived)
      && (c in s.tracker.done <==> c !in s.world.recorded && arrived)
  }

  // ----- the steps keep the invariant -----

  /** What the return of a known call does to the state. */
  ghost predicate ReturnedTo(res: CallId -> Result, s: State, c: CallId, t: State)
    requires c in s.m.callToWork
  {
    var w := s.m.callToWork[c];
    && w in s.m.work
    && t.m.work == s.m.work[w := s.m.work[w].(status := Done)]
    && t.m.results == s.m.results[w := res(c)]
    && t.m.callToWork == s.m.callToWork && t.m.callRes == s.m.callRes
    && t.m.waitRes == s.m.waitRes - {w}
    && t.m.waiters == (if w in s.m.waiters && w in s.m.waitRes
                       then s.m.waiters[w := s.m.waiters[w].(woken := true)] else s.m.waiters)
    && t.world == s.world.(returning := s.world.returning - {c}, returned := s.world.returned + {c})
  }

  lemma ReturnKnownForm(res: CallId -> Result, s: State, c: CallId)
    requires StateOk(res, s) && Enabled(s, ReturnResult(c)) && c in s.m.callToWork
    ensures Return(s.m, c, res(c)).Accepted?
    ensures ReturnedTo(res, s, c, Step(res, s, ReturnResult(c)))
  {
    assert WorkOk(res, s, s.m.callToWork[c]);
  }

  lemma ReturnKnownWorks(res: CallId -> Result, s: State, c: CallId, t: State)
    requires StateOk(res, s) && c in s.m.callToWork && c in s.world.returning && ReturnedTo(res, s, c, t)
    ensures WorksOk(res, t) && WaitersOk(t)
  {
    assert WorkOk(res, s, s.m.callToWork[c]);
    forall v | v in t.m.work ensures WorkOk(res, t, v) { assert WorkOk(res, s, v); }
    forall v | v in t.m.waiters ensures WaiterOk(t, v) { assert WaiterOk(s, v); }
  }

  lemma ReturnKnownArrival(res: CallId -> Result, s: State, c: CallId, t: State)
    requires StateOk(res, s) && c in s.m.callToWork && c in s.world.returning && ReturnedTo(res, s, c, t)
    ensures ArrivalOk(t)
  {
    forall d | d in t.m.callToWork
      ensures d in t.world.returned <==> d in t.m.callRes || t.m.callToWork[d] in t.m.results
      ensures !(d in t.m.callRes && t.m.callToWork[d] in t.m.results)
    {
      assert d != c ==> s.m.callToWork[d] != s.m.callToWork[c];
    }
  }

  lemma ReturnKnownCall(res: CallId -> Result, s: State, c: CallId)
    requires StateOk(res, s) && Enabled(s, ReturnResult(c)) && c in s.m.callToWork
    ensures Return(s.m, c, res(c)).Accepted?
    ensures StateOk(res, Step(res, s, ReturnResult(c)))
  {
    var t := Step(res, s, ReturnResult(c));
    ReturnKnownForm(res, s, c);
    ReturnKnownWorks(res, s, c, t);
    ReturnKnownArrival(res, s, c, t);
    assert CallsOk(res, t);
    assert UnclaimedOk(t);
  }

  lemma ReturnUnknownCall(res: CallId -> Result, s: State, c: CallId)
    requires StateOk(res, s) && Enabled(s, ReturnResult(c)) && c !in s.m.callToWork
    ensures Return(s.m, c, res(c)).Accepted?
    ensures StateOk(res, Step(res, s, ReturnResult(c)))
  {
    var t := Step(res, s, ReturnResult(c));
    assert WorksOk(res, t) by {
      forall v | v in t.m.work ensures WorkOk(res, t, v) { assert WorkOk(res, s, v); }
    }
    assert WaitersOk(t) by {
      forall v | v in t.m.waiters ensures WaiterOk(t, v) {
        assert WaiterOk(s, v);
        assert WorkOk(res, s, v);
      }
    }
  }

  lemma StartKeepsOk(res: CallId -> Result, s: State, w: WorkId, c: CallId)
    requires StateOk(res, s) && w in s.m.work && s.m.work[w].call.None?
    requires c in s.world.issued && c !in s.world.startCalls && c !in s.world.simpleCalls
    ensures w !in s.m.results
    ensures StateOk(res, s.(m := RecordStart(s.m, w, c), world := s.world.(startCalls := s.world.startCalls + {c})))
  {
    var t := s.(m := RecordStart(s.m, w, c), world := s.world.(startCalls := s.world.startCalls + {c}));
    assert WorkOk(res, s, w);
    assert WorksOk(res, t) by {
      forall v | v in t.m.work ensures WorkOk(res, t, v) { assert WorkOk(res, s, v); }
    }
    assert WaitersOk(t) by {
      forall v | v in t.m.waiters ensures WaiterOk(t, v) { assert WaiterOk(s, v); }
    }
    assert ArrivalOk(t) by {
      forall d | d in t.m.callToWork
        ensures d in t.world.returned <==> d in t.m.callRes || t.m.callToWork[d] in t.m.results
      {
        assert d == c || d in s.m.callToWork;
      }
    }
  }

  lemma FinishKeepsOk(res: CallId -> Result, s: State, w: WorkId, c: CallId)
    requires StateOk(res, s) && w in s.m.work && s.m.work[w].call == Some(c)
    ensures StateOk(res, s.(m := Finish(s.m, w, c).(waiters := s.m.waiters - {w})))
  {
    assert WorkOk(res, s, w);
    var t := s.(m := Finish(s.m, w, c).(waiters := s.m.waiters - {w}));
    assert WorksOk(res, t) by {
      forall v | v in t.m.work ensures WorkOk(res, t, v) { assert WorkOk(res, s, v); }
    }
    assert WaitersOk(t) by {
      forall v | v in t.m.waiters ensures WaiterOk(t, v) { assert WaiterOk(s, v); }
    }
    assert ArrivalOk(t) by {
      forall d | d in t.m.callToWork ensures t.m.callToWork[d] != w {
        assert d in s.m.callToWork;
      }
    }
  }

  /** The channel of a call whose work is finished can go. */
  lemma DropChannelKeepsOk(res: CallId -> Result, s: State, c: CallId)
    requires StateOk(res, s) && c !in s.m.callToWork && c in s.world.startCalls
    ensures StateOk(res, s.(m := s.m.(callRes := s.m.callRes - {c})))
  {
    var t := s.(m := s.m.(callRes := s.m.callRes - {c}));
    assert WorksOk(res, t) by {
      forall v | v in t.m.work ensures WorkOk(res, t, v) { assert WorkOk(res, s, v); }
    }
    assert WaitersOk(t) by {
      forall v | v in t.m.waiters ensures WaiterOk(t, v) { assert WaiterOk(s, v); }
    }
  }

  lemma BlockKeepsOk(res: CallId -> Result, s: State, w: WorkId)
    requires StateOk(res, s) && w !in s.m.waiters && Wait(s.m, w).out == Blocked
    ensures StateOk(res, s.(m := Wait(s.m, w).m))
  {
    var t := s.(m := Wait(s.m, w).m);
    assert WorkOk(res, s, w);
    assert WorksOk(res, t) by {
      forall v | v in t.m.work ensures WorkOk(res, t, v) { assert WorkOk(res, s, v); }
    }
    forall v | v in t.m.waiters ensures WaiterOk(t, v) { assert v in s.m.waiters ==> WaiterOk(s, v); }
  }

  lemma WaitKeepsOk(res: CallId -> Result, s: State, w: WorkId)
    requires StateOk(res, s) && Enabled(s, WaitWork(w))
    ensures StateOk(res, Step(res, s, WaitWork(w)))
  {
    if w in s.m.work && s.m.work[w].call.Some? {
      var c := s.m.work[w].call.value;
      assert WorkOk(res, s, w);
      assert s.m.waiters - {w} == s.m.waiters;
      if c in s.m.callRes {
        assert w !in s.m.results && s.m.results - {w} == s.m.results;
        FinishKeepsOk(res, s, w, c);
        DropChannelKeepsOk(res, s.(m := Finish(s.m, w, c).(waiters := s.m.waiters - {w})), c);
      } else if w in s.m.results {
        FinishKeepsOk(res, s, w, c);
      } else {
        BlockKeepsOk(res, s, w);
      }
    }
  }

  lemma WakeKeepsOk(res: CallId -> Result, s: State, w: WorkId)
    requires StateOk(res, s) && Enabled(s, WaitWakes(w))
    ensures StateOk(res, Step(res, s, WaitWakes(w)))
  {
    assert WaiterOk(s, w);
    FinishKeepsOk(res, s, w, s.m.waiters[w].call);
  }

  lemma RestartKeepsOk(res: CallId -> Result, s: State, abort: bool, calls: map<CallId, WorkId>)
    requires StateOk(res, s) && Enabled(s, Restart(abort, calls))
    ensures StateOk(res, Step(res, s, Restart(abort, calls)))
  {
    var t := Step(res, s, Restart(abort, calls));
    assert WorksOk(res, t) by {
      forall v | v in t.m.work ensures WorkOk(res, t, v) {
        assert WorkOk(res, s, v);
        assert calls[t.m.work[v].call.value] == v by {
          assert WorkOk(res, s, calls[t.m.work[v].call.value]);
        }
      }
    }
    assert CallsOk(res, t) by {
      forall c | c in calls ensures c in t.world.startCalls { assert WorkOk(res, s, calls[c]); }
    }
  }

  /** Steps that only touch works without a call. */
  lemma UnstartedStepKeepsOk(res: CallId -> Result, s: State, e: Event)
    requires StateOk(res, s) && Enabled(s, e) && (e.GetWork? || e.Cancel? || e.StartFailed?)
    ensures StateOk(res, Step(res, s, e))
  {
    UnstartedStepKeepsWorks(res, s, e);
    UnstartedStepKeepsCalls(res, s, e);
  }

  lemma UnstartedStepKeepsWorks(res: CallId -> Result, s: State, e: Event)
    requires StateOk(res, s) && Enabled(s, e) && (e.GetWork? || e.Cancel? || e.StartFailed?)
    ensures WorksOk(res, Step(res, s, e)) && WaitersOk(Step(res, s, e))
  {
    var t := Step(res, s, e);
    if e.w in s.m.work { assert WorkOk(res, s, e.w); }
    forall v | v in t.m.work ensures WorkOk(res, t, v) { assert v in s.m.work ==> WorkOk(res, s, v); }
    forall v | v in t.m.waiters ensures WaiterOk(t, v) { assert WaiterOk(s, v); }
  }

  lemma UnstartedStepKeepsCalls(res: CallId -> Result, s: State, e: Event)
    requires StateOk(res, s) && Enabled(s, e) && (e.GetWork? || e.Cancel? || e.StartFailed?)
    ensures CallsOk(res, Step(res, s, e)) && ArrivalOk(Step(res, s, e)) && UnclaimedOk(Step(res, s, e))
  {
    if e.w in s.m.work { assert WorkOk(res, s, e.w); }
  }

  /** Steps of direct waiters: they touch the channels of calls that start no work. */
  lemma DirectStepKeepsOk(res: CallId -> Result, s: State, e: Event)
    requires StateOk(res, s) && Enabled(s, e) && (e.WaitCall? || e.CallReady? || e.CallCancelled?)
    ensures StateOk(res, Step(res, s, e))
  {
    DirectStepKeepsWorks(res, s, e);
    DirectStepKeepsCalls(res, s, e);
  }

  lemma DirectStepKeepsWorks(res: CallId -> Result, s: State, e: Event)
    requires StateOk(res, s) && Enabled(s, e) && (e.WaitCall? || e.CallReady? || e.CallCancelled?)
    ensures WorksOk(res, Step(res, s, e)) && WaitersOk(Step(res, s, e))
  {
    var t := Step(res, s, e);
    forall v | v in t.m.work ensures WorkOk(res, t, v) { assert WorkOk(res, s, v); }
    forall v | v in t.m.waiters ensures WaiterOk(t, v) {
      assert WaiterOk(s, v);
      assert WorkOk(res, s, v);
    }
  }

  lemma DirectStepKeepsCalls(res: CallId -> Result, s: State, e: Event)
    requires StateOk(res, s) && Enabled(s, e) && (e.WaitCall? || e.CallReady? || e.CallCancelled?)
    ensures CallsOk(res, Step(res, s, e)) && ArrivalOk(Step(res, s, e)) && UnclaimedOk(Step(res, s, e))
  {
  }

  /** Steps that change neither works nor channels. */
  lemma OutsideStepKeepsOk(res: CallId -> Result, s: State, e: Event)
    requires StateOk(res, s) && Enabled(s, e) && (e.Issue? || e.Record? || e.ReturnBegins? || e.WaitCancelled?)
    ensures StateOk(res, Step(res, s, e))
  {
    var t := Step(res, s, e);
    assert WorksOk(res, t) by {
      forall v | v in t.m.work ensures WorkOk(res, t, v) { assert WorkOk(res, s, v); }
    }
    assert WaitersOk(t) by {
      forall v | v in t.m.waiters ensures WaiterOk(t, v) { assert WaiterOk(s, v); }
    }
  }

  lemma StepKeepsOk(res: CallId -> Result, s: State, e: Event)
    requires StateOk(res, s) && Enabled(s, e)
    ensures StateOk(res, Step(res, s, e))
  {
    match e
    case StartOk(w, c) =>
      assert WorkOk(res, s, w);
      StartKeepsOk(res, s, w, c);
    case ReturnResult(c) =>
      if c in s.m.callToWork { ReturnKnownCall(res, s, c); } else { ReturnUnknownCall(res, s, c); }
    case WaitWork(w) => WaitKeepsOk(res, s, w);
    case WaitWakes(w) => WakeKeepsOk(res, s, w);
    case Restart(abort, calls) => RestartKeepsOk(res, s, abort, calls);
    case GetWork(_) => UnstartedStepKeepsOk(res, s, e);
    case Cancel(_) => UnstartedStepKeepsOk(res, s, e);
    case StartFailed(_) => UnstartedStepKeepsOk(res, s, e);
    case WaitCall(_) => DirectStepKeepsOk(res, s, e);
    case CallReady(_) => DirectStepKeepsOk(res, s, e);
    case CallCancelled(_) => DirectStepKeepsOk(res, s, e);
    case _ => OutsideStepKeepsOk(res, s, e);
  }

  lemma StepKeepsTrackerOk(res: CallId -> Result, s: State, e: Event)
    requires TrackerOk(s) && s.world.recorded <= s.world.current <= s.world.issued
    requires s.world.returning + s.world.returned <= s.world.issued && Enabled(s, e)
    ensures TrackerOk(Step(res, s, e))
  {
  }

  lemma {:induction false} RunKeepsOk(res: CallId -> Result, trace: seq<State>, events: seq<Event>, i: nat)
    requires IsRun(res, trace, events) && i < |trace|
    ensures StateOk(res, trace[i]) && TrackerOk(trace[i])
  {
    if i > 0 {
      RunKeepsOk(res, trace, events, i - 1);
      StepKeepsOk(res, trace[i - 1], events[i - 1]);
      StepKeepsTrackerOk(res, trace[i - 1], events[i - 1]);
    }
  }

  // ----- claims over whole runs -----

  ghost predicate StartedWith(s: State, w: WorkId, c: CallId) {
    w in s.m.work && s.m.work[w].call == Some(c)
  }

  /**
   A wait on a started work gets the result of the call the work was started with if that
   result has arrived, and blocks otherwise.  None of the error branches is taken.
   */
  lemma WaitGetsOwnResult(res: CallId -> Result, trace: seq<State>, events: seq<Event>, i: nat, w: WorkId, c: CallId)
    requires IsRun(res, trace, events) && i < |events| && events[i] == WaitWork(w)
    requires StartedWith(trace[i], w, c)
    ensures Wait(trace[i].m, w).out == if c in trace[i].world.returned then Value(res(c)) else Blocked
    ensures c in trace[i].world.returned ==> w !in trace[i + 1].m.work && c !in trace[i + 1].m.callToWork
  {
    RunKeepsOk(res, trace, events, i);
    assert WorkOk(res, trace[i], w);
  }

  /** A waiter that wakes gets the result of the call its work was started with. */
  lemma WakeGetsOwnResult(res: CallId -> Result, trace: seq<State>, events: seq<Event>, i: nat, w: WorkId)
    requires IsRun(res, trace, events) && i < |events| && events[i] == WaitWakes(w)
    ensures w in trace[i].m.work && trace[i].m.work[w].call == Some(trace[i].m.waiters[w].call)
    ensures Wake(trace[i].m, w).out == Value(res(trace[i].m.waiters[w].call))
    ensures w !in trace[i + 1].m.work
  {
    RunKeepsOk(res, trace, events, i);
    assert WaiterOk(trace[i], w);
    assert WorkOk(res, trace[i], w);
  }

  /** A blocked waiter is woken as soon as the result of its work's call has been returned. */
  lemma NoWaiterForgotten(res: CallId -> Result, trace: seq<State>, events: seq<Event>, i: nat, w: WorkId)
    requires IsRun(res, trace, events) && i < |trace| && w in trace[i].m.waiters
    ensures trace[i].m.waiters[w].woken <==> trace[i].m.waiters[w].call in trace[i].world.returned
  {
    RunKeepsOk(res, trace, events, i);
    assert WaiterOk(trace[i], w);
    assert WorkOk(res, trace[i], w);
  }

  /** Returning a result never meets an earlier one. */
  lemma ReturnIsAccepted(res: CallId -> Result, trace: seq<State>, events: seq<Event>, i: nat)
    requires IsRun(res, trace, events) && i < |events| && events[i].ReturnResult?
    ensures Return(trace[i].m, events[i].c, res(events[i].c)).Accepted?
  {
    RunKeepsOk(res, trace, events, i);
    var c := events[i].c;
    if c in trace[i].m.callToWork { ReturnKnownCall(res, trace[i], c); } else { ReturnUnknownCall(res, trace[i], c); }
  }

  /** A direct wait on a call gets that call's result. */
  lemma CallGetsOwnResult(res: CallId -> Result, trace: seq<State>, events: seq<Event>, i: nat)
    requires IsRun(res, trace, events) && i < |events| && events[i].CallReady?
    ensures trace[i].m.callRes[events[i].c] == Some(res(events[i].c))
  {
    RunKeepsOk(res, trace, events, i);
  }

  /** Once a call was recorded and returned, in either order, the tracker has forgotten it. */
  lemma TrackerForgets(res: CallId -> Result, trace: seq<State>, events: seq<Event>, i: nat, c: CallId)
    requires IsRun(res, trace, events) && i < |trace|
    requires c in trace[i].world.recorded && c in trace[i].world.returned
    ensures c !in trace[i].tracker.running && c !in trace[i].tracker.done
  {
    RunKeepsOk(res, trace, events, i);
  }

  // ----- why a work may be started only once -----

  /** Recording a start keeps the invariant if and only if the work has no call yet. */
  lemma StartOnlyOnce(res: CallId -> Result, s: State, w: WorkId, c: CallId)
    requires StateOk(res, s) && w in s.m.work
    requires c in s.world.issued && c !in s.world.startCalls && c !in s.world.simpleCalls
    ensures StateOk(res, s.(m := RecordStart(s.m, w, c), world := s.world.(startCalls := s.world.startCalls + {c})))
            <==> s.m.work[w].call.None?
  {
    var t := s.(m := RecordStart(s.m, w, c), world := s.world.(startCalls := s.world.startCalls + {c}));
    assert WorkOk(res, s, w);
    if s.m.work[w].call.None? {
      StartKeepsOk(res, s, w, c);
    } else {
      var earlier := s.m.work[w].call.value;
      assert t.m.callToWork[earlier] == w && t.m.work[w].call != Some(earlier);
    }
  }

  /** Started twice, a work hands out the result of its first call although it records the second. */
  lemma SecondStartMisroutes(m: Manager, w: WorkId, first: CallId, second: CallId, r: Result)
    requires m == RecordStart(RecordStart(Begin(INIT.m, w), w, first), w, second) && first != second
    ensures m.work[w].call == Some(second)
    ensures Return(m, first, r).Accepted? && Wait(Return(m, first, r).m, w).out == Value(r)
  {
  }
}
