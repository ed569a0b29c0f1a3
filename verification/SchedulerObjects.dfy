/** The scheduler's loops over its own fields, proved against the functions of module Scheduler. */
module SchedulerObjects {
  import opened Options
  import opened RequestQueue
  import opened QueueRemoval
  import opened Scheduler
  import R = Resources

  class TaskScheduler {
    const spec: SpecOf
    var queue: Queue
    var open: seq<nat>
    var workers: seq<Worker>

    constructor (spec: SpecOf, workers: seq<Worker>)
      ensures this.spec == spec && queue.items == [] && open == [] && this.workers == workers
    {
      this.spec, this.open, this.workers := spec, [], workers;
      queue := new Queue();
    }

    /** Step 2: walk the queue, charge the chosen windows and remember the positions to remove. */
    method FillWindows(choice: Choice) returns (windows: seq<Window>, rm: seq<nat>)
      requires |choice| == |queue.items|
      requires forall i :: 0 <= i < |choice| && choice[i].Some? ==> choice[i].value < |open|
      requires forall i :: 0 <= i < |open| ==> open[i] < |workers|
      ensures rm == Picks(choice)
      ensures |windows| == |open|
      ensures forall w :: 0 <= w < |open| ==>
                && windows[w].todo == Todo(queue.items, choice, w)
                && windows[w].account == Charged(spec, workers[open[w]].info, windows[w].todo)
    {
      windows := seq(|open|, _ => Window([], R.EMPTY));
      rm := [];
      var q := queue.items;
      for sqi := 0 to |q|
        invariant |windows| == |open| && rm == Picks(choice[..sqi])
        invariant forall w :: 0 <= w < |open| ==>
                    && windows[w].todo == Todo(q[..sqi], choice[..sqi], w)
                    && windows[w].account == Charged(spec, workers[open[w]].info, windows[w].todo)
      {
        assert q[..sqi + 1][..sqi] == q[..sqi] && choice[..sqi + 1][..sqi] == choice[..sqi];
        if choice[sqi].Some? {
          var task, wnd := q[sqi], choice[sqi].value;
          var x := windows[wnd];
          assert (x.todo + [task])[..|x.todo|] == x.todo;
          windows := windows[wnd := Window(x.todo + [task], R.Charge(x.account, workers[open[wnd]].info, spec(task)))];
          rm := rm + [sqi];
        }
      }
      assert q[..|q|] == q && choice[..|q|] == choice;
    }

    /** Step 3: send the filled windows without blocking, keep the others open. */
    method SubmitWindows(windows: seq<Window>, ghost q: seq<Request>, ghost choice: Choice)
      requires |q| == |choice| && |windows| == |open|
      requires forall i :: 0 <= i < |open| ==> open[i] < |workers|
      requires forall w :: 0 <= w < |open| ==>
                 && windows[w].todo == Todo(q, choice, w)
                 && windows[w].account == Charged(spec, workers[open[w]].info, windows[w].todo)
      modifies this
      ensures workers == Deliver(spec, old(workers), old(open), q, choice, |old(open)|)
      ensures open == StillOpen(old(open), q, choice, |old(open)|)
      ensures queue == old(queue)
    {
      ghost var before := workers;
      var stillOpen: seq<nat> := [];
      for wnd := 0 to |open|
        invariant queue == old(queue) && open == old(open) && |workers| == |before|
        invariant workers == Deliver(spec, before, open, q, choice, wnd)
        invariant stillOpen == StillOpen(open, q, choice, wnd)
        invariant forall w :: 0 <= w < |before| ==> workers[w].info == before[w].info
      {
        if |windows[wnd].todo| == 0 {
          stillOpen := stillOpen + [open[wnd]];
        } else {
          var w := open[wnd];
          if |workers[w].delivered| < SCHED_WINDOWS {
            workers := workers[w := workers[w].(delivered := workers[w].delivered + [windows[wnd]])];
          }
        }
      }
      open := stillOpen;
    }

    method TryToSchedule(choice: Choice)
      requires Sorted(queue.items)
      requires |choice| == |queue.items|
      requires forall i :: 0 <= i < |choice| && choice[i].Some? ==> choice[i].value < |open|
      requires forall i :: 0 <= i < |open| ==> open[i] < |workers|
      modifies this, queue
      ensures queue == old(queue)
      ensures CanLeave(old(queue.items), Picks(choice), queue.items)
      ensures Unique(old(queue.items)) && TiesPickedTogether(old(queue.items), Picks(choice)) ==>
        LeavesUnpicked(old(queue.items), Picks(choice), queue.items)
      ensures Distinct(old(queue.items)) ==> queue.items == Kept(old(queue.items), choice)
      ensures workers == Deliver(spec, old(workers), old(open), old(queue.items), choice, |old(open)|)
      ensures open == StillOpen(old(open), old(queue.items), choice, |old(open)|)
    {
      ghost var q := queue.items;
      var windows, rm := FillWindows(choice);
      queue.RemoveAll(rm);
      RemovalKeepsTheRest(q, choice);
      if Unique(q) && TiesPickedTogether(q, Picks(choice)) { TiesSuffice(q, rm, queue.items); }
      SubmitWindows(windows, q, choice);
    }
  }

  class WindowWorker {
    const spec: SpecOf
    const info: R.Worker
    const ignoreResources: bool
    var requested: int
    var active: seq<Window>
    const preparing: R.ActiveResources
    const running: R.ActiveResources

    constructor (spec: SpecOf, info: R.Worker, ignoreResources: bool)
      ensures this.spec == spec && this.info == info && this.ignoreResources == ignoreResources
      ensures requested == 0 && active == [] && preparing.View() == R.EMPTY && running.View() == R.EMPTY
      ensures fresh(preparing) && fresh(running) && preparing != running
    {
      this.spec, this.info, this.ignoreResources := spec, info, ignoreResources;
      requested, active := 0, [];
      preparing := new R.ActiveResources();
      running := new R.ActiveResources();
    }

    function View(): Worker
      reads this
    {
      Worker(info, ignoreResources, requested, [], active)
    }

    /** The inner loop of compaction: collect what the lower window can take. */
    method MoveTasks(lower: Window, upper: Window) returns (low: Window, up: Window)
      ensures var m := MoveDown(spec, View(), lower, upper.todo, upper.account);
        low == m.lower && up == Window(m.kept, m.upper)
    {
      low := lower;
      var account := upper.account;
      var newTodo: seq<Request> := [];
      for ti := 0 to |upper.todo|
        invariant Moved(low, newTodo, account) == MoveDown(spec, View(), lower, upper.todo[..ti], upper.account)
      {
        assert upper.todo[..ti + 1][..ti] == upper.todo[..ti];
        var todo := upper.todo[ti];
        var needRes := spec(todo);
        if R.CanHandle(low.account, info, needRes, ignoreResources) {
          low := Window(low.todo + [todo], R.Charge(low.account, info, needRes));
          account := R.Release(account, info, needRes);
        } else {
          newTodo := newTodo + [todo];
        }
      }
      assert upper.todo[..|upper.todo|] == upper.todo;
      up := Window(newTodo, account);
    }

    /** Every window into its lower neighbour, oldest pair first. */
    method MoveAll() returns (windows: seq<Window>)
      ensures windows == CompactPairs(spec, View(), active, |active|)
    {
      windows := active;
      if |active| > 1 {
        for wi := 1 to |active|
          invariant windows == CompactPairs(spec, View(), active, wi)
        {
          var low, up := MoveTasks(windows[wi - 1], windows[wi]);
          windows := windows[wi - 1 := low][wi := up];
        }
      }
    }

    method DropEmpty(windows: seq<Window>) returns (kept: seq<Window>, compacted: nat)
      ensures kept == NonEmpty(windows) && compacted == |windows| - |kept|
    {
      compacted, kept := 0, [];
      for i := 0 to |windows|
        invariant kept == NonEmpty(windows[..i]) && compacted == i - |kept|
      {
        assert windows[..i + 1][..i] == windows[..i];
        if |windows[i].todo| == 0 {
          compacted := compacted + 1;
        } else {
          kept := kept + [windows[i]];
        }
      }
      assert windows[..|windows|] == windows;
    }

    method CompactWindows()
      modifies this
      ensures View() == Compact(spec, old(View()))
    {
      var windows := MoveAll();
      var newWindows, compacted := DropEmpty(windows);
      active := newWindows;
      requested := requested - compacted;
    }

    /** The first task of the first window that `account` has room for. */
    method FirstAdmitted(todo: seq<Request>, account: R.ActiveResources, readyOnly: bool) returns (tidx: int)
      ensures -1 <= tidx < |todo|
      ensures tidx >= 0 ==> Admitted(todo[tidx], account.View(), readyOnly)
      ensures forall t :: 0 <= t < (if tidx >= 0 then tidx else |todo|) ==>
        !Admitted(todo[t], account.View(), readyOnly)
    {
      tidx := -1;
      for t := 0 to |todo|
        invariant forall k :: 0 <= k < t ==> !Admitted(todo[k], account.View(), readyOnly)
      {
        if !(readyOnly && todo[t].task != Commit1 && todo[t].task != Commit2) {
          var ok := account.CanHandleRequest(info, spec(todo[t]), ignoreResources);
          if ok {
            return t;
          }
        }
      }
    }

    predicate Admitted(r: Request, account: R.Account, readyOnly: bool) {
      && (readyOnly ==> r.task == Commit1 || r.task == Commit2)
      && R.CanHandle(account, info, spec(r), ignoreResources)
    }

    /**
     The assignment loop shared by prepared and ready work: start admitted tasks of the first
     window, close it when it is empty, stop when nothing more is admitted.  `readyOnly`
     charges the running account and takes commit tasks only.
     */
    method AssignWork(readyOnly: bool) returns (started: seq<Request>)
      requires preparing != running
      modifies this, preparing, running
      ensures forall r :: TodoCount(active, r) + Occurs(started, r) == TodoCount(old(active), r)
      ensures requested - |active| == old(requested) - |old(active)|
      ensures active != [] ==> active[0].todo != [] && forall t :: 0 <= t < |active[0].todo| ==>
                !Admitted(active[0].todo[t], (if readyOnly then running else preparing).View(), readyOnly)
      ensures (if readyOnly then running else preparing).View()
              == ChargeAll(spec, info, old((if readyOnly then running else preparing).View()), started)
      ensures (if readyOnly then preparing else running).View() ==
        old((if readyOnly then preparing else running).View())
    {
      var account := if readyOnly then running else preparing;
      ghost var other := if readyOnly then preparing else running;
      ghost var before := account.View();
      ghost var windows := active;
      started := [];
      while active != []
        invariant forall r :: TodoCount(active, r) + Occurs(started, r) == TodoCount(windows, r)
        invariant requested - |active| == old(requested) - |old(active)|
        invariant account.View() == ChargeAll(spec, info, before, started)
        invariant other.View() == old(other.View())
        decreases |active|, if active == [] then 0 else |active[0].todo|
      {
        var first := active[0];
        if |first.todo| == 0 {
          CloseFirst(active);
          active := active[1..];
          requested := requested - 1;
        } else {
          var tidx := FirstAdmitted(first.todo, account, readyOnly);
          if tidx == -1 {
            break;
          }
          var todo := first.todo[tidx];
          account.Add(info, spec(todo));
          StartFirst(active, tidx, started);
          ChargeAllAppend(spec, info, before, started, todo);
          active := TakeTask(active, tidx);
          started := started + [todo];
        }
      }
    }

    /** Ready work goes first, unless prepared tasks wait for the running account. */
    method ProcessAssignedWindows(waiting: nat) returns (started: seq<Request>)
      requires preparing != running
      modifies this, preparing, running
      ensures forall r :: TodoCount(active, r) + Occurs(started, r) == TodoCount(old(active), r)
      ensures requested - |active| == old(requested) - |old(active)|
      ensures active != [] ==> active[0].todo != [] && forall t :: 0 <= t < |active[0].todo| ==>
                !Admitted(active[0].todo[t], preparing.View(), false)
    {
      var ready: seq<Request> := [];
      if waiting == 0 {
        ready := AssignWork(true);
      }
      ghost var between := active;
      var prepared := AssignWork(false);
      started := ready + prepared;
      forall r ensures TodoCount(active, r) + Occurs(started, r) == TodoCount(old(active), r) {
        assert TodoCount(active, r) + Occurs(prepared, r) == TodoCount(between, r);
        assert TodoCount(between, r) + Occurs(ready, r) == TodoCount(old(active), r);
      }
    }
  }

  function ChargeAll(spec: SpecOf, info: R.Worker, a: R.Account, tasks: seq<Request>): R.Account {
    if tasks == [] then a
    else R.Charge(ChargeAll(spec, info, a, tasks[..|tasks| - 1]), info, spec(tasks[|tasks| - 1]))
  }

  lemma ChargeAllAppend(spec: SpecOf, info: R.Worker, a: R.Account, tasks: seq<Request>, t: Request)
    ensures ChargeAll(spec, info, a, tasks + [t]) == R.Charge(ChargeAll(spec, info, a, tasks), info, spec(t))
  {
    assert (tasks + [t])[..|tasks|] == tasks;
  }

  lemma CloseFirst(windows: seq<Window>)
    requires windows != [] && windows[0].todo == []
    ensures forall r :: TodoCount(windows[1..], r) == TodoCount(windows, r)
  {
    forall r ensures TodoCount(windows[1..], r) == TodoCount(windows, r) {
      TodoCountHead(windows, r);
    }
  }

  lemma StartFirst(windows: seq<Window>, i: nat, started: seq<Request>)
    requires windows != [] && i < |windows[0].todo|
    ensures forall r :: TodoCount(TakeTask(windows, i), r) + Occurs(started + [windows[0].todo[i]], r)
                        == TodoCount(windows, r) + Occurs(started, r)
  {
    forall r ensures TodoCount(TakeTask(windows, i), r) + Occurs(started + [windows[0].todo[i]], r)
                     == TodoCount(windows, r) + Occurs(started, r)
    {
      StartConserves(windows[0].todo, i, r);
      TodoCountUpdate(windows, 0, TakeTask(windows, i)[0], r);
      OccursAppend(started, windows[0].todo[i], r);
    }
  }
}
