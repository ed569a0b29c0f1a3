/** The manager's maps and the worker tracker, updated in place under their locks. */
module CallTrackerObjects {
  import opened Options
  import opened CallTracker

  /** The works that survive, of those no longer to be looked at. */
  ghost predicate KeptSoFar(store: map<WorkId, Work>, todo: set<WorkId>, abortUnfinished: bool,
                            kept: map<WorkId, Work>) {
    && (forall w :: w in kept <==> w in store && w !in todo && store[w].status == Running && !abortUnfinished)
    && (forall w :: w in kept ==> kept[w] == store[w])
  }

  lemma RebuiltGrows(kept: map<WorkId, Work>, calls: map<CallId, WorkId>, w: WorkId, x: Work)
    requires Rebuilt(kept, calls) && x.call.Some? && w !in kept && forall v :: v in kept ==> kept[v].call != x.call
    ensures Rebuilt(kept[w := x], calls[x.call.value := w])
  {
  }

  class WorkManager {
    var work: map<WorkId, Work>
    var callToWork: map<CallId, WorkId>
    var callRes: map<CallId, Option<Result>>
    var results: map<WorkId, Result>
    var waitRes: set<WorkId>
    var waiters: map<WorkId, Waiter>

    function View(): Manager
      reads this
    {
      Manager(work, callToWork, callRes, results, waitRes, waiters)
    }

    /** Open the manager on an existing work store. */
    constructor (store: map<WorkId, Work>)
      ensures View() == Manager(store, map[], map[], map[], {}, map[])
    {
      work, callToWork, callRes, results, waitRes, waiters := store, map[], map[], map[], {}, map[];
    }

    /** Drop what is not running on a worker and relearn the calls of what is. */
    method SetupWorkTracker(abortUnfinished: bool)
      requires callToWork == map[] && callRes == map[] && results == map[] && waitRes == {} && waiters == map[]
      requires forall w :: w in work && work[w].status == Running ==> work[w].call.Some?
      requires forall v, w :: v in work && w in work && v != w && work[v].call.Some? ==> work[v].call != work[w].call
      modifies this
      ensures Rebuilt(Survivors(old(work), abortUnfinished), callToWork)
      ensures View() == Recover(old(View()), abortUnfinished, callToWork)
    {
      var store := work;
      var todo := store.Keys;
      var kept: map<WorkId, Work> := map[];
      var calls: map<CallId, WorkId> := map[];
      while todo != {}
        invariant todo <= store.Keys && KeptSoFar(store, todo, abortUnfinished, kept) && Rebuilt(kept, calls)
        modifies {}
        decreases todo
      {
        var wid := AnyOf(todo);
        todo := todo - {wid};
        if store[wid].status == Running && !abortUnfinished {
          RebuiltGrows(kept, calls, wid, store[wid]);
          kept := kept[wid := store[wid]];
          calls := calls[store[wid].call.value := wid];
        }
      }
      work, callToWork := kept, calls;
      assert kept == Survivors(store, abortUnfinished);
    }

    /** `wait` is true when the work is already tracked. */
    method GetWork(w: WorkId) returns (wait: bool)
      modifies this
      ensures View() == Begin(old(View()), w)
      ensures wait == (w in old(work))
    {
      wait := w in work;
      if !wait {
        work := work[w := Work(Started, None)];
      }
    }

    method Cancel(w: WorkId)
      modifies this
      ensures View() == CancelWork(old(View()), w)
    {
      if w !in work { return; }
      match work[w].status
      case Started => work := work - {w};
      case Done =>
        if work[w].call.None? {
          work := work - {w};
        }
      case Running =>
    }

    method StartWork(w: WorkId, call: Option<CallId>)
      requires w in work
      modifies this
      ensures call.Some? ==> View() == RecordStart(old(View()), w, call.value)
      ensures call.None? ==> View() == RecordFailedStart(old(View()), w)
    {
      if call.None? {
        work := work[w := work[w].(status := Done)];
        return;
      }
      var status := if w in results then Done else Running;
      work := work[w := Work(status, Some(call.value))];
      callToWork := callToWork[call.value := w];
    }

    /** The part of a wait before it blocks. */
    method WaitWork(w: WorkId) returns (out: Outcome)
      modifies this
      ensures View() == Wait(old(View()), w).m && out == Wait(old(View()), w).out
    {
      if w !in work { return Failed(NoWork); }
      var ws := work[w];
      if ws.status == Started { return Failed(NotStarted); }
      if ws.call.None? || ws.call.value !in callToWork || callToWork[ws.call.value] != w {
        return Failed(WrongCallToWork);
      }
      var c := ws.call.value;
      if c in callRes {
        callToWork := callToWork - {c};
        if callRes[c].Some? {
          work := work - {w};
          out := Value(callRes[c].value);
          callRes := callRes - {c};
          return;
        }
        return Failed(CallResTaken);
      }
      if w in results {
        out := Value(results[w]);
        results, callToWork, work := results - {w}, callToWork - {c}, work - {w};
        return;
      }
      waitRes := waitRes + {w};
      waiters := waiters[w := Waiter(c, false)];
      return Blocked;
    }

    /** The part of a wait after its channel was closed. */
    method WaitWoken(w: WorkId) returns (r: Result)
      requires w in waiters && w in results
      modifies this
      ensures View() == Wake(old(View()), w).m && Value(r) == Wake(old(View()), w).out
    {
      var c := waiters[w].call;
      r := results[w];
      results, callToWork, work := results - {w}, callToWork - {c}, work - {w};
      waiters := waiters - {w};
    }

    method WaitCall(c: CallId) returns (ok: bool)
      modifies this
      ensures View() == WaitForCall(old(View()), c)
      ensures ok == (c !in old(callToWork))
    {
      ok := c !in callToWork;
      if ok && c !in callRes {
        callRes := callRes[c := None];
      }
    }

    method ReturnResult(c: CallId, r: Result) returns (accepted: bool)
      modifies this
      ensures accepted == Return(old(View()), c, r).Accepted?
      ensures accepted ==> View() == Return(old(View()), c, r).m
      ensures !accepted ==> View() == old(View())
    {
      if c !in callToWork {
        if c in callRes && callRes[c].Some? { return false; }
        callRes := callRes[c := Some(r)];
        return true;
      }
      var w := callToWork[c];
      if w in results { return false; }
      results := results[w := r];
      if w in work {
        work := work[w := work[w].(status := Done)];
      }
      if w in waitRes {
        waitRes := waitRes - {w};
        if w in waiters {
          waiters := waiters[w := waiters[w].(woken := true)];
        }
      }
      return true;
    }
  }

  class WorkTracker {
    var running: set<CallId>
    var done: set<CallId>

    function View(): Tracker
      reads this
    {
      Tracker(running, done)
    }

    constructor ()
      ensures View() == NO_TRACKER
    {
      running, done := {}, {};
    }

    method CallDone(c: CallId)
      modifies this
      ensures View() == OnDone(old(View()), c)
    {
      if c !in running {
        done := done + {c};
        return;
      }
      running := running - {c};
    }

    /** After the worker answered with a call id. */
    method CallIssued(c: CallId)
      modifies this
      ensures View() == Track(old(View()), c)
    {
      if c in done {
        done := done - {c};
        return;
      }
      running := running + {c};
    }
  }
}
