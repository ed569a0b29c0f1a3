/**
 The sealing scheduler: queued requests, window requests travelling between workers and
 scheduler, scheduling windows, compaction and task start.

 Each step is what one goroutine does between two channel operations.  Which acceptable
 window a request gets depends on worker selectors and utilization; the steps allow any.
 Resource needs are an arbitrary function of the request, the same for every lookup.
 */
module Scheduler {
  import opened Options
  import opened RequestQueue
  import opened QueueRemoval
  import R = Resources

  const SCHED_WINDOWS := 2

  datatype Window = Window(todo: seq<Request>, account: R.Account)

  /** `delivered` is the worker's window channel, whose capacity is SCHED_WINDOWS. */
  datatype Worker = Worker(
    info: R.Worker,
    ignoreResources: bool,
    requested: int,
    delivered: seq<Window>,
    active: seq<Window>)

  /**
   `requests` is the channel of window requests and `open` those the scheduler holds, both
   by worker.  `submitted` and `started` record what came in and what was handed to workers.
   */
  datatype State = State(
    queue: seq<Request>,
    requests: seq<nat>,
    open: seq<nat>,
    workers: seq<Worker>,
    submitted: multiset<Request>,
    started: multiset<Request>)

  type SpecOf = Request -> R.Spec

  // ----- assigning the queue to open windows -----

  /** choice[i] is the open window that request i of the queue goes to. */
  type Choice = seq<Option<nat>>

  function Kept(q: seq<Request>, c: Choice): seq<Request>
    requires |q| == |c|
  {
    if q == [] then []
    else
      var n := |q| - 1;
      var kept := Kept(q[..n], c[..n]);
      if c[n].None? then kept + [q[n]] else kept
  }

  function Todo(q: seq<Request>, c: Choice, wnd: nat): seq<Request>
    requires |q| == |c|
  {
    if q == [] then []
    else
      var n := |q| - 1;
      var todo := Todo(q[..n], c[..n], wnd);
      if c[n] == Some(wnd) then todo + [q[n]] else todo
  }

  /** How often `r` stands in `q`. */
  function Occurs(q: seq<Request>, r: Request): nat { multiset(q)[r] }

  lemma OccursAppend(q: seq<Request>, x: Request, r: Request)
    ensures Occurs(q + [x], r) == Occurs(q, r) + if x == r then 1 else 0
  {
  }

  lemma OccursLast(q: seq<Request>, r: Request)
    requires q != []
    ensures Occurs(q, r) == Occurs(q[..|q| - 1], r) + if q[|q| - 1] == r then 1 else 0
  {
    assert q == q[..|q| - 1] + [q[|q| - 1]];
  }

  /** How often `r` was given to one of the first `m` windows. */
  ghost function Assigned(q: seq<Request>, c: Choice, m: nat, r: Request): nat
    requires |q| == |c|
  {
    if m == 0 then 0 else Assigned(q, c, m - 1, r) + Occurs(Todo(q, c, m - 1), r)
  }

  lemma TodoStep(q: seq<Request>, x: Request, c: Choice, d: Option<nat>, wnd: nat, r: Request)
    requires |q| == |c|
    ensures Occurs(Todo(q + [x], c + [d], wnd), r)
            == Occurs(Todo(q, c, wnd), r) + if d == Some(wnd) && x == r then 1 else 0
  {
    assert (q + [x])[..|q|] == q && (c + [d])[..|c|] == c;
    OccursAppend(Todo(q, c, wnd), x, r);
  }

  lemma {:induction false} AssignedStep(q: seq<Request>, x: Request, c: Choice, d: Option<nat>, m: nat, r: Request)
    requires |q| == |c|
    ensures Assigned(q + [x], c + [d], m, r)
            == Assigned(q, c, m, r) + if d.Some? && d.value < m && x == r then 1 else 0
  {
    if m > 0 {
      AssignedStep(q, x, c, d, m - 1, r);
      TodoStep(q, x, c, d, m - 1, r);
      AssignedOne(q + [x], c + [d], m - 1, r);
      AssignedOne(q, c, m - 1, r);
    }
  }

  /** Every queued request is either kept or given to exactly one window. */
  lemma {:induction false} AssignmentConserves(q: seq<Request>, c: Choice, m: nat, r: Request)
    requires |q| == |c|
    requires forall i :: 0 <= i < |c| && c[i].Some? ==> c[i].value < m
    ensures Occurs(q, r) == Occurs(Kept(q, c), r) + Assigned(q, c, m, r)
  {
    if q == [] {
      EmptyAssigned(c, m, r);
    } else {
      var n := |q| - 1;
      AssignmentConserves(q[..n], c[..n], m, r);
      assert q == q[..n] + [q[n]] && c == c[..n] + [c[n]];
      AssignedStep(q[..n], q[n], c[..n], c[n], m, r);
      OccursLast(q, r);
      OccursAppend(Kept(q[..n], c[..n]), q[n], r);
    }
  }

  lemma {:induction false} EmptyAssigned(c: Choice, m: nat, r: Request)
    requires |c| == 0
    ensures Assigned([], c, m, r) == 0
  {
    if m > 0 { EmptyAssigned(c, m - 1, r); }
  }

  /** The positions to remove from the queue, in increasing order. */
  function Picks(c: Choice): (rm: seq<nat>)
    ensures forall k :: 0 <= k < |rm| ==> rm[k] < |c|
    ensures forall j, k :: 0 <= j < k < |rm| ==> rm[j] < rm[k]
  {
    if c == [] then []
    else
      var n := |c| - 1;
      var rm := Picks(c[..n]);
      if c[n].Some? then rm + [n] else rm
  }

  lemma {:induction false} DropLastPosition(q: seq<Request>, rm: seq<nat>, from: nat)
    requires q != [] && from <= |rm|
    requires forall k :: 0 <= k < |rm| ==> rm[k] < |q| - 1
    requires forall j, k :: 0 <= j < k < |rm| ==> rm[j] < rm[k]
    ensures WithoutAll(q, rm + [|q| - 1], from) == WithoutAll(q[..|q| - 1], rm, from)
    decreases |rm| - from
  {
    if from < |rm| {
      DropLastPosition(q, rm, from + 1);
      RemovesNext(q, rm + [|q| - 1], from);
      RemovesNext(q[..|q| - 1], rm, from);
    } else {
      assert WithoutAll(q, rm + [|q| - 1], |rm| + 1) == q;
      assert Without(q, |q| - 1) == q[..|q| - 1];
    }
  }

  lemma WithoutBeforeLast(q: seq<Request>, x: Request, i: nat)
    requires i < |q|
    ensures Without(q + [x], i) == Without(q, i) + [x]
  {
  }

  lemma {:induction false} KeepLastPosition(q: seq<Request>, rm: seq<nat>, from: nat)
    requires q != [] && from <= |rm|
    requires forall k :: 0 <= k < |rm| ==> rm[k] < |q| - 1
    requires forall j, k :: 0 <= j < k < |rm| ==> rm[j] < rm[k]
    ensures WithoutAll(q, rm, from) == WithoutAll(q[..|q| - 1], rm, from) + [q[|q| - 1]]
    decreases |rm| - from
  {
    if from < |rm| {
      KeepLastPosition(q, rm, from + 1);
      RemovesNext(q, rm, from);
      RemovesNext(q[..|q| - 1], rm, from);
      WithoutBeforeLast(WithoutAll(q[..|q| - 1], rm, from + 1), q[|q| - 1], rm[from]);
    }
  }

  /** Removing the picked positions one by one, last first, leaves exactly the kept requests. */
  lemma {:induction false} RemovalKeepsTheRest(q: seq<Request>, c: Choice)
    requires |q| == |c|
    ensures WithoutAll(q, Picks(c), 0) == Kept(q, c)
  {
    if q != [] {
      var n := |q| - 1;
      RemovalKeepsTheRest(q[..n], c[..n]);
      if c[n].Some? {
        DropLastPosition(q, Picks(c[..n]), 0);
      } else {
        KeepLastPosition(q, Picks(c[..n]), 0);
      }
    }
  }

  /** The window account after charging `todo` in order. */
  function Charged(spec: SpecOf, info: R.Worker, todo: seq<Request>): R.Account {
    if todo == [] then R.EMPTY
    else R.Charge(Charged(spec, info, todo[..|todo| - 1]), info, spec(todo[|todo| - 1]))
  }

  /** Submit the first `k` windows that got requests; a full channel drops the window. */
  function Deliver(spec: SpecOf, ws: seq<Worker>, open: seq<nat>, q: seq<Request>, c: Choice, k: nat): (r: seq<Worker>)
    requires |q| == |c| && k <= |open|
    requires forall i :: 0 <= i < |open| ==> open[i] < |ws|
    ensures |r| == |ws|
    decreases k
  {
    if k == 0 then ws
    else
      var r := Deliver(spec, ws, open, q, c, k - 1);
      var todo, w := Todo(q, c, k - 1), open[k - 1];
      if todo == [] || |r[w].delivered| >= SCHED_WINDOWS then r
      else r[w := r[w].(delivered := r[w].delivered + [Window(todo, Charged(spec, r[w].info, todo))])]
  }

  function StillOpen(open: seq<nat>, q: seq<Request>, c: Choice, k: nat): seq<nat>
    requires |q| == |c| && k <= |open|
  {
    if k == 0 then []
    else
      var rest := StillOpen(open, q, c, k - 1);
      if Todo(q, c, k - 1) == [] then rest + [open[k - 1]] else rest
  }

  // ----- compaction -----

  datatype Moved = Moved(lower: Window, kept: seq<Request>, upper: R.Account)

  /** Move the tasks of a window that the window below can still take. */
  function MoveDown(spec: SpecOf, w: Worker, lower: Window, todo: seq<Request>, upper: R.Account): Moved {
    if todo == [] then Moved(lower, [], upper)
    else
      var n := |todo| - 1;
      var m, t := MoveDown(spec, w, lower, todo[..n], upper), todo[n];
      if R.CanHandle(m.lower.account, w.info, spec(t), w.ignoreResources)
      then Moved(Window(m.lower.todo + [t], R.Charge(m.lower.account, w.info, spec(t))),
                 m.kept, R.Release(m.upper, w.info, spec(t)))
      else m.(kept := m.kept + [t])
  }

  /** Compact windows 1..k-1 into their lower neighbours, in order. */
  function CompactPairs(spec: SpecOf, w: Worker, windows: seq<Window>, k: nat): (r: seq<Window>)
    requires k <= |windows|
    ensures |r| == |windows|
  {
    if k <= 1 then windows
    else
      var r := CompactPairs(spec, w, windows, k - 1);
      var m := MoveDown(spec, w, r[k - 2], r[k - 1].todo, r[k - 1].account);
      r[k - 2 := m.lower][k - 1 := Window(m.kept, m.upper)]
  }

  function NonEmpty(windows: seq<Window>): (r: seq<Window>)
    ensures |r| <= |windows|
  {
    if windows == [] then []
    else
      var n := |windows| - 1;
      var rest := NonEmpty(windows[..n]);
      if windows[n].todo == [] then rest else rest + [windows[n]]
  }

  function Compact(spec: SpecOf, w: Worker): Worker {
    var compacted := NonEmpty(CompactPairs(spec, w, w.active, |w.active|));
    w.(active := compacted, requested := w.requested - (|w.active| - |compacted|))
  }

  function TakeTask(windows: seq<Window>, i: nat): seq<Window>
    requires windows != [] && i < |windows[0].todo|
  {
    windows[0 := windows[0].(todo := Without(windows[0].todo, i))]
  }

  // ----- the step system -----

  datatype Event =
    | Submit(request: Request, sorted: seq<Request>)
    | RequestWindow(w: nat)
    | TakeRequest
    | TrySched(choice: Choice, left: seq<Request>)
    | Receive(w: nat)
    | CompactWindows(w: nat)
    | StartTask(w: nat, i: nat)
    | CloseWindow(w: nat)

  function Specs(spec: SpecOf, todo: seq<Request>): (r: seq<R.Spec>)
    ensures |r| == |todo|
    ensures forall i :: 0 <= i < |todo| ==> r[i] == spec(todo[i])
  {
    seq(|todo|, i requires 0 <= i < |todo| => spec(todo[i]))
  }

  predicate Below64(a: R.Account) {
    a.memMin < R.U64 && a.memMax < R.U64 && a.cpu < R.U64
  }

  function AllocatedSum(windows: seq<Window>): R.Account {
    if windows == [] then R.EMPTY
    else R.Plus(AllocatedSum(windows[..|windows| - 1]), windows[|windows| - 1].account)
  }

  /**
   An assumption of the run is part of TrySched and CompactWindows: the totals of one window, or of all windows of
   one worker, stay below 2^64.
   */
  predicate Enabled(spec: SpecOf, s: State, e: Event) {
    match e
    case Submit(request, sorted) => true
    case RequestWindow(w) => w < |s.workers| && s.workers[w].requested < SCHED_WINDOWS
    case TakeRequest => s.requests != []
    case TrySched(c, _) =>
      && |c| == |s.queue|
      && (forall i :: 0 <= i < |c| && c[i].Some? ==> c[i].value < |s.open|)
      && (forall i :: 0 <= i < |s.open| ==>
            s.open[i] < |s.workers| && Below64(R.Total(Specs(spec, Todo(s.queue, c, i)), s.workers[s.open[i]].info)))
    case Receive(w) => w < |s.workers| && s.workers[w].delivered != []
    case CompactWindows(w) => w < |s.workers| && Below64(AllocatedSum(s.workers[w].active))
    case StartTask(w, i) =>
      w < |s.workers| && s.workers[w].active != [] && i < |s.workers[w].active[0].todo|
    case CloseWindow(w) =>
      w < |s.workers| && s.workers[w].active != [] && s.workers[w].active[0].todo == []
  }

  /** A request object is submitted once; what the sorts of the queue leave behind is any of their outcomes. */
  ghost predicate QueueStep(s: State, e: Event) {
    match e
    case Submit(request, sorted) =>
      request !in s.submitted && Sorted(sorted) && multiset(sorted) == multiset(s.queue) + multiset{request}
    case TrySched(c, left) => CanLeave(s.queue, Picks(c), left)
    case _ => true
  }

  function Step(spec: SpecOf, s: State, e: Event): State
    requires Enabled(spec, s, e)
  {
    match e
    case Submit(request, sorted) =>
      s.(queue := sorted, submitted := s.submitted + multiset{request})
    case RequestWindow(w) =>
      s.(requests := s.requests + [w],
         workers := s.workers[w := s.workers[w].(requested := s.workers[w].requested + 1)])
    case TakeRequest => s.(requests := s.requests[1..], open := s.open + [s.requests[0]])
    case TrySched(c, left) =>
      s.(queue := left,
         workers := Deliver(spec, s.workers, s.open, s.queue, c, |s.open|),
         open := StillOpen(s.open, s.queue, c, |s.open|))
    case Receive(w) =>
      var x := s.workers[w];
      s.(workers := s.workers[w := x.(delivered := x.delivered[1..], active := x.active + [x.delivered[0]])])
    case CompactWindows(w) => s.(workers := s.workers[w := Compact(spec, s.workers[w])])
    case StartTask(w, i) =>
      var x := s.workers[w];
      s.(workers := s.workers[w := x.(active := TakeTask(x.active, i))],
         started := s.started + multiset{x.active[0].todo[i]})
    case CloseWindow(w) =>
      var x := s.workers[w];
      s.(workers := s.workers[w := x.(active := x.active[1..], requested := x.requested - 1)])
  }

  ghost predicate Initial(s: State) {
    && s.queue == [] && s.requests == [] && s.open == [] && s.submitted == multiset{} && s.started == multiset{}
    && forall w :: 0 <= w < |s.workers| ==>
         s.workers[w].requested == 0 && s.workers[w].delivered == [] && s.workers[w].active == []
  }

  ghost predicate IsRun(spec: SpecOf, trace: seq<State>, events: seq<Event>) {
    && |trace| == |events| + 1
    && Initial(trace[0])
    && forall i :: 0 <= i < |events| ==>
         Enabled(spec, trace[i], events[i]) && QueueStep(trace[i], events[i])
         && trace[i + 1] == Step(spec, trace[i], events[i])
  }

  // ----- task conservation -----

  /** How often `r` stands in the todo lists of `windows`. */
  function TodoCount(windows: seq<Window>, r: Request): nat {
    if windows == [] then 0
    else TodoCount(windows[..|windows| - 1], r) + Occurs(windows[|windows| - 1].todo, r)
  }

  function WorkerCount(w: Worker, r: Request): nat { TodoCount(w.delivered, r) + TodoCount(w.active, r) }

  function TaskCount(ws: seq<Worker>, r: Request): nat { FirstTasks(ws, |ws|, r) }

  /** How often `r` stands in the windows of the first n workers. */
  function FirstTasks(ws: seq<Worker>, n: nat, r: Request): nat
    requires n <= |ws|
  {
    if n == 0 then 0 else FirstTasks(ws, n - 1, r) + WorkerCount(ws[n - 1], r)
  }

  lemma {:induction false} TodoCountUpdate(windows: seq<Window>, i: nat, x: Window, r: Request)
    requires i < |windows|
    ensures TodoCount(windows[i := x], r) == TodoCount(windows, r) - Occurs(windows[i].todo, r) + Occurs(x.todo, r)
  {
    var n := |windows| - 1;
    if i == n {
      assert windows[i := x][..n] == windows[..n];
    } else {
      assert windows[i := x][..n] == windows[..n][i := x];
      TodoCountUpdate(windows[..n], i, x, r);
    }
  }

  lemma TodoCountAppend(windows: seq<Window>, x: Window, r: Request)
    ensures TodoCount(windows + [x], r) == TodoCount(windows, r) + Occurs(x.todo, r)
  {
    assert (windows + [x])[..|windows|] == windows;
  }

  lemma {:induction false} TodoCountHead(windows: seq<Window>, r: Request)
    requires windows != []
    ensures TodoCount(windows, r) == Occurs(windows[0].todo, r) + TodoCount(windows[1..], r)
  {
    var n := |windows| - 1;
    if n == 0 {
      assert windows[..n] == [];
    } else {
      TodoCountHead(windows[..n], r);
      assert windows[..n][1..] == windows[1..][..n - 1];
    }
  }

  lemma TaskCountUpdate(ws: seq<Worker>, i: nat, x: Worker, r: Request)
    requires i < |ws|
    ensures TaskCount(ws[i := x], r) == TaskCount(ws, r) - WorkerCount(ws[i], r) + WorkerCount(x, r)
  {
    FirstTasksUpdate(ws, i, x, |ws|, r);
  }

  lemma {:induction false} FirstTasksUpdate(ws: seq<Worker>, i: nat, x: Worker, n: nat, r: Request)
    requires i < |ws| && n <= |ws|
    ensures FirstTasks(ws[i := x], n, r)
            == FirstTasks(ws, n, r) + if i < n then WorkerCount(x, r) - WorkerCount(ws[i], r) else 0
    decreases n
  {
    if n > 0 { FirstTasksUpdate(ws, i, x, n - 1, r); }
  }

  lemma {:induction false} MoveDownConserves(spec: SpecOf, w: Worker, lower: Window, todo: seq<Request>,
                                             upper: R.Account, r: Request)
    ensures var m := MoveDown(spec, w, lower, todo, upper);
      Occurs(m.lower.todo, r) + Occurs(m.kept, r) == Occurs(lower.todo, r) + Occurs(todo, r)
  {
    if todo != [] {
      var n := |todo| - 1;
      var m := MoveDown(spec, w, lower, todo[..n], upper);
      MoveDownConserves(spec, w, lower, todo[..n], upper, r);
      OccursLast(todo, r);
      OccursAppend(m.kept, todo[n], r);
      OccursAppend(m.lower.todo, todo[n], r);
    }
  }

  /** Moving tasks between two neighbours keeps the count. */
  lemma PairConserves(spec: SpecOf, w: Worker, p: seq<Window>, k: nat, r: Request)
    requires 1 < k <= |p|
    ensures var m := MoveDown(spec, w, p[k - 2], p[k - 1].todo, p[k - 1].account);
      TodoCount(p[k - 2 := m.lower][k - 1 := Window(m.kept, m.upper)], r) == TodoCount(p, r)
  {
    var m := MoveDown(spec, w, p[k - 2], p[k - 1].todo, p[k - 1].account);
    MoveDownConserves(spec, w, p[k - 2], p[k - 1].todo, p[k - 1].account, r);
    TodoCountUpdate(p, k - 2, m.lower, r);
    TodoCountUpdate(p[k - 2 := m.lower], k - 1, Window(m.kept, m.upper), r);
  }

  lemma {:induction false} CompactPairsConserves(spec: SpecOf, w: Worker, windows: seq<Window>, k: nat, r: Request)
    requires k <= |windows|
    ensures TodoCount(CompactPairs(spec, w, windows, k), r) == TodoCount(windows, r)
  {
    if k > 1 {
      CompactPairsConserves(spec, w, windows, k - 1, r);
      PairConserves(spec, w, CompactPairs(spec, w, windows, k - 1), k, r);
    }
  }

  lemma {:induction false} NonEmptyConserves(windows: seq<Window>, r: Request)
    ensures TodoCount(NonEmpty(windows), r) == TodoCount(windows, r)
  {
    if windows != [] {
      var n := |windows| - 1;
      NonEmptyConserves(windows[..n], r);
      TodoCountAppend(NonEmpty(windows[..n]), windows[n], r);
    }
  }

  /** Compaction moves tasks between windows and neither loses nor copies one. */
  lemma CompactConserves(spec: SpecOf, w: Worker, r: Request)
    ensures TodoCount(Compact(spec, w).active, r) == TodoCount(w.active, r)
    ensures |Compact(spec, w).active| - Compact(spec, w).requested == |w.active| - w.requested
  {
    CompactPairsConserves(spec, w, w.active, |w.active|, r);
    NonEmptyConserves(CompactPairs(spec, w, w.active, |w.active|), r);
  }

  // ----- window credit -----

  function Count(s: seq<nat>, w: nat): nat { multiset(s)[w] }

  ghost predicate CreditOk(s: State, w: nat)
    requires w < |s.workers|
  {
    var x := s.workers[w];
    && x.requested == Count(s.requests, w) + Count(s.open, w) + |x.delivered| + |x.active|
    && x.requested <= SCHED_WINDOWS
  }

  ghost predicate Credits(s: State) {
    && (forall i :: 0 <= i < |s.requests| ==> s.requests[i] < |s.workers|)
    && (forall i :: 0 <= i < |s.open| ==> s.open[i] < |s.workers|)
    && forall w :: 0 <= w < |s.workers| ==> CreditOk(s, w)
  }

  /** With credit no window is dropped: window by window, open turns into delivered. */
  lemma {:induction false} DeliverKeepsCredit(spec: SpecOf, s: State, c: Choice, k: nat, w: nat)
    requires |c| == |s.queue| && k <= |s.open| && Credits(s) && w < |s.workers|
    ensures var r := Deliver(spec, s.workers, s.open, s.queue, c, k);
      && r[w].info == s.workers[w].info && r[w].ignoreResources == s.workers[w].ignoreResources
      && r[w].requested == s.workers[w].requested && r[w].active == s.workers[w].active
      && s.workers[w].delivered <= r[w].delivered
      && |r[w].delivered| + Count(StillOpen(s.open, s.queue, c, k), w) ==
        |s.workers[w].delivered| + Count(s.open[..k], w)
    decreases k
  {
    if k > 0 {
      DeliverKeepsCredit(spec, s, c, k - 1, w);
      CountPrefix(s.open, k, w);
      CountAppend(StillOpen(s.open, s.queue, c, k - 1), s.open[k - 1], w);
      if s.open[k - 1] == w { Room(spec, s, c, k - 1); }
    }
  }

  lemma CountPrefix(open: seq<nat>, k: nat, w: nat)
    requires 0 < k <= |open|
    ensures Count(open[..k], w) == Count(open[..k - 1], w) + if open[k - 1] == w then 1 else 0
  {
    assert open[..k] == open[..k - 1] + [open[k - 1]];
  }

  /** The channel of a worker has room for each of its open windows. */
  lemma CountBeyond(open: seq<nat>, k: nat)
    requires k < |open|
    ensures Count(open, open[k]) >= Count(open[..k], open[k]) + 1
  {
    assert open == open[..k] + [open[k]] + open[k + 1..];
  }

  lemma Room(spec: SpecOf, s: State, c: Choice, k: nat)
    requires |c| == |s.queue| && k < |s.open| && Credits(s)
    requires
      var w, r := s.open[k], Deliver(spec, s.workers, s.open, s.queue, c, k);
      |r[w].delivered| + Count(StillOpen(s.open, s.queue, c, k), w) == |s.workers[w].delivered| + Count(s.open[..k], w)
    ensures |Deliver(spec, s.workers, s.open, s.queue, c, k)[s.open[k]].delivered| < SCHED_WINDOWS
  {
    assert CreditOk(s, s.open[k]);
    CountBeyond(s.open, k);
  }

  /** With credit, every filled window is appended to its worker's channel. */
  lemma DeliverStep(spec: SpecOf, s: State, c: Choice, k: nat)
    requires |c| == |s.queue| && k < |s.open| && Credits(s)
    ensures var ws, todo, w := Deliver(spec, s.workers, s.open, s.queue, c, k), Todo(s.queue, c, k), s.open[k];
      && ws[w].info == s.workers[w].info
      && Deliver(spec, s.workers, s.open, s.queue, c, k + 1) ==
           if todo == [] then ws
           else ws[w := ws[w].(delivered := ws[w].delivered + [Window(todo, Charged(spec, ws[w].info, todo))])]
  {
    DeliverKeepsCredit(spec, s, c, k, s.open[k]);
    Room(spec, s, c, k);
  }

  lemma {:induction false} StillOpenFromOpen(open: seq<nat>, q: seq<Request>, c: Choice, k: nat, bound: nat)
    requires |q| == |c| && k <= |open|
    requires forall i :: 0 <= i < |open| ==> open[i] < bound
    ensures forall i :: 0 <= i < |StillOpen(open, q, c, k)| ==> StillOpen(open, q, c, k)[i] < bound
  {
    if k > 0 {
      StillOpenFromOpen(open, q, c, k - 1, bound);
    }
  }

  lemma CountAppend(s: seq<nat>, x: nat, w: nat)
    ensures Count(s + [x], w) == Count(s, w) + if x == w then 1 else 0
  {
  }

  lemma CountHead(s: seq<nat>, w: nat)
    requires s != []
    ensures Count(s, w) == Count(s[1..], w) + if s[0] == w then 1 else 0
  {
    assert s == [s[0]] + s[1..];
  }

  lemma ScheduleKeepsCredit(spec: SpecOf, s: State, c: Choice, left: seq<Request>, w: nat)
    requires Enabled(spec, s, TrySched(c, left)) && Credits(s) && w < |s.workers|
    ensures w < |Step(spec, s, TrySched(c, left)).workers| && CreditOk(Step(spec, s, TrySched(c, left)), w)
  {
    assert CreditOk(s, w);
    DeliverKeepsCredit(spec, s, c, |s.open|, w);
    assert s.open[..|s.open|] == s.open;
  }

  lemma OtherStepKeepsCredit(spec: SpecOf, s: State, e: Event, w: nat)
    requires Enabled(spec, s, e) && Credits(s) && w < |s.workers| && !e.TrySched?
    ensures w < |Step(spec, s, e).workers| && CreditOk(Step(spec, s, e), w)
  {
    assert CreditOk(s, w);
    match e
    case RequestWindow(v) => CountAppend(s.requests, v, w);
    case TakeRequest =>
      CountHead(s.requests, w);
      CountAppend(s.open, s.requests[0], w);
    case _ =>
  }

  lemma StepKeepsCredits(spec: SpecOf, s: State, e: Event)
    requires Enabled(spec, s, e) && Credits(s)
    ensures Credits(Step(spec, s, e))
  {
    var t := Step(spec, s, e);
    if e.TrySched? { StillOpenFromOpen(s.open, s.queue, e.choice, |s.open|, |s.workers|); }
    forall w | 0 <= w < |t.workers| ensures CreditOk(t, w) {
      if e.TrySched? { ScheduleKeepsCredit(spec, s, e.choice, e.left, w); }
      else { OtherStepKeepsCredit(spec, s, e, w); }
    }
  }

  lemma AddDelivered(ws: seq<Worker>, w: nat, x: Window, r: Request)
    requires w < |ws|
    ensures TaskCount(ws[w := ws[w].(delivered := ws[w].delivered + [x])], r) == TaskCount(ws, r) + Occurs(x.todo, r)
  {
    TodoCountAppend(ws[w].delivered, x, r);
    TaskCountUpdate(ws, w, ws[w].(delivered := ws[w].delivered + [x]), r);
  }

  /** With credit, delivery hands every assigned request to some worker. */
  lemma {:induction false} DeliverConserves(spec: SpecOf, s: State, c: Choice, k: nat, r: Request)
    requires |c| == |s.queue| && k <= |s.open| && Credits(s)
    ensures TaskCount(Deliver(spec, s.workers, s.open, s.queue, c, k), r)
            == TaskCount(s.workers, r) + Assigned(s.queue, c, k, r)
    decreases k
  {
    if k > 0 {
      var j := k - 1;
      DeliverConserves(spec, s, c, j, r);
      DeliverOneConserves(spec, s, c, j, r);
      AssignedOne(s.queue, c, j, r);
      assert k == j + 1;
    }
  }

  lemma AssignedOne(q: seq<Request>, c: Choice, k: nat, r: Request)
    requires |q| == |c|
    ensures Assigned(q, c, k + 1, r) == Assigned(q, c, k, r) + Occurs(Todo(q, c, k), r)
  {
  }

  lemma DeliverOneConserves(spec: SpecOf, s: State, c: Choice, k: nat, r: Request)
    requires |c| == |s.queue| && k < |s.open| && Credits(s)
    ensures TaskCount(Deliver(spec, s.workers, s.open, s.queue, c, k + 1), r)
            == TaskCount(Deliver(spec, s.workers, s.open, s.queue, c, k), r) + Occurs(Todo(s.queue, c, k), r)
  {
    DeliverStep(spec, s, c, k);
    DeliveredCount(spec, Deliver(spec, s.workers, s.open, s.queue, c, k), s.open[k], Todo(s.queue, c, k), r);
  }

  lemma DeliveredCount(spec: SpecOf, ws: seq<Worker>, w: nat, todo: seq<Request>, r: Request)
    requires w < |ws|
    ensures var x := Window(todo, Charged(spec, ws[w].info, todo));
      TaskCount(if todo == [] then ws else ws[w := ws[w].(delivered := ws[w].delivered + [x])], r)
        == TaskCount(ws, r) + Occurs(todo, r)
  {
    AddDelivered(ws, w, Window(todo, Charged(spec, ws[w].info, todo)), r);
    assert todo == [] ==> Occurs(todo, r) == 0;
  }

  /** How often `r` is queued, in a window, or started. */
  function Everywhere(s: State, r: Request): nat {
    Occurs(s.queue, r) + TaskCount(s.workers, r) + s.started[r]
  }

  lemma StartConserves(todo: seq<Request>, i: nat, r: Request)
    requires i < |todo|
    ensures Occurs(Without(todo, i), r) + (if todo[i] == r then 1 else 0) == Occurs(todo, r)
  {
    assert todo == todo[..i] + [todo[i]] + todo[i + 1..];
  }

  /** A step that touches one worker changes the task count by what that worker gained. */
  lemma WorkerStepConserves(spec: SpecOf, s: State, e: Event, r: Request)
    requires Enabled(spec, s, e)
    requires e.RequestWindow? || e.Receive? || e.CompactWindows? || e.CloseWindow?
    ensures TaskCount(Step(spec, s, e).workers, r) == TaskCount(s.workers, r)
  {
    var x, y := s.workers[e.w], Step(spec, s, e).workers[e.w];
    TaskCountUpdate(s.workers, e.w, y, r);
    match e
    case RequestWindow(_) =>
    case Receive(_) =>
      TodoCountHead(x.delivered, r);
      TodoCountAppend(x.active, x.delivered[0], r);
    case CompactWindows(_) => CompactConserves(spec, x, r);
    case CloseWindow(_) => TodoCountHead(x.active, r);
  }

  lemma StartStepConserves(spec: SpecOf, s: State, w: nat, i: nat, r: Request)
    requires Enabled(spec, s, StartTask(w, i))
    ensures Everywhere(Step(spec, s, StartTask(w, i)), r) == Everywhere(s, r)
  {
    var x := s.workers[w];
    StartConserves(x.active[0].todo, i, r);
    TodoCountUpdate(x.active, 0, TakeTask(x.active, i)[0], r);
    TaskCountUpdate(s.workers, w, x.(active := TakeTask(x.active, i)), r);
  }

  /** A round picks its requests such that their removal cannot hit others. */
  ghost predicate PicksAreSafe(s: State, e: Event) {
    e.TrySched? && |e.choice| == |s.queue| ==> TiesPickedTogether(s.queue, Picks(e.choice))
  }

  lemma {:induction false} PicksAre(c: Choice, u: nat)
    requires u < |c|
    ensures u in Picks(c) <==> c[u].Some?
  {
    if u < |c| - 1 { PicksAre(c[..|c| - 1], u); }
  }

  lemma {:induction false} KeptHas(q: seq<Request>, c: Choice, u: nat)
    requires |q| == |c| && u < |q| && c[u].None?
    ensures q[u] in Kept(q, c)
  {
    if u < |q| - 1 { KeptHas(q[..|q| - 1], c[..|q| - 1], u); }
  }

  lemma {:induction false} KeptFrom(q: seq<Request>, c: Choice, x: Request) returns (u: nat)
    requires |q| == |c| && x in Kept(q, c)
    ensures u < |q| && c[u].None? && q[u] == x
  {
    var n := |q| - 1;
    if c[n].None? && q[n] == x { u := n; } else { u := KeptFrom(q[..n], c[..n], x); }
  }

  lemma {:induction false} KeptIsUnique(q: seq<Request>, c: Choice)
    requires |q| == |c| && Unique(q)
    ensures Unique(Kept(q, c))
  {
    if q != [] {
      var n := |q| - 1;
      KeptIsUnique(q[..n], c[..n]);
      if q[n] in Kept(q[..n], c[..n]) { var u := KeptFrom(q[..n], c[..n], q[n]); }
    }
  }

  /** The kept requests are those at the positions that were not picked. */
  lemma KeptIsUnpicked(q: seq<Request>, c: Choice)
    requires |q| == |c| && Unique(q)
    ensures LeavesUnpicked(q, Picks(c), Kept(q, c))
  {
    KeptIsUnique(q, c);
    forall x ensures x in Kept(q, c) <==> x in Unpicked(q, Picks(c)) {
      if x in Kept(q, c) {
        var u := KeptFrom(q, c, x);
        PicksAre(c, u);
      }
      if x in Unpicked(q, Picks(c)) {
        var u :| 0 <= u < |q| && u !in Picks(c) && q[u] == x;
        PicksAre(c, u);
        KeptHas(q, c, u);
      }
    }
  }

  lemma LeftIsKept(q: seq<Request>, c: Choice, left: seq<Request>, r: Request)
    requires |q| == |c| && Sorted(q) && Unique(q)
    requires CanLeave(q, Picks(c), left) && TiesPickedTogether(q, Picks(c))
    ensures Occurs(left, r) == Occurs(Kept(q, c), r)
  {
    KeptIsUnpicked(q, c);
    TiesSuffice(q, Picks(c), left);
    UniqueOccurs(left, r);
    UniqueOccurs(Kept(q, c), r);
  }

  lemma UniqueOccurs(q: seq<Request>, r: Request)
    requires Unique(q)
    ensures Occurs(q, r) == if r in q then 1 else 0
  {
    UniqueCounts(q);
    assert r in q <==> r in multiset(q);
  }

  lemma ScheduleConserves(spec: SpecOf, s: State, c: Choice, left: seq<Request>, r: Request)
    requires Enabled(spec, s, TrySched(c, left)) && QueueStep(s, TrySched(c, left)) && Credits(s)
    ensures Everywhere(Step(spec, s, TrySched(c, left)), r) - Everywhere(s, r)
      == Occurs(left, r) - Occurs(Kept(s.queue, c), r)
  {
    AssignmentConserves(s.queue, c, |s.open|, r);
    DeliverConserves(spec, s, c, |s.open|, r);
  }

  lemma StepConserves(spec: SpecOf, s: State, e: Event, r: Request)
    requires Enabled(spec, s, e) && QueueStep(s, e) && Credits(s) && Everywhere(s, r) == s.submitted[r]
    requires Sorted(s.queue) && Unique(s.queue) && PicksAreSafe(s, e)
    ensures Everywhere(Step(spec, s, e), r) == Step(spec, s, e).submitted[r]
  {
    match e
    case Submit(request, sorted) =>
      assert Occurs(sorted, r) == (multiset(s.queue) + multiset{request})[r];
    case TakeRequest =>
    case TrySched(c, left) =>
      LeftIsKept(s.queue, c, left, r);
      ScheduleConserves(spec, s, c, left, r);
    case StartTask(w, i) => StartStepConserves(spec, s, w, i, r);
    case _ => WorkerStepConserves(spec, s, e, r);
  }

  /**
   A round neither loses nor copies a request, whatever the sorts do, if and only if no picked request, but for the
   last one, is tied with one that was not picked.
   */
  lemma RoundConservesIff(spec: SpecOf, s: State, c: Choice)
    requires |c| == |s.queue| && Enabled(spec, s, TrySched(c, [])) && Credits(s) && Sorted(s.queue) && Unique(s.queue)
    ensures
      (forall left, r :: CanLeave(s.queue, Picks(c), left) ==>
        Everywhere(Step(spec, s, TrySched(c, left)), r) == Everywhere(s, r))
      <==> TiesPickedTogether(s.queue, Picks(c))
  {
    if TiesPickedTogether(s.queue, Picks(c)) {
      forall left, r | CanLeave(s.queue, Picks(c), left)
        ensures Everywhere(Step(spec, s, TrySched(c, left)), r) == Everywhere(s, r)
      {
        LeftIsKept(s.queue, c, left, r);
        ScheduleConserves(spec, s, c, left, r);
      }
    } else {
      var left, r := RoundLoses(s.queue, c);
      ScheduleConserves(spec, s, c, left, r);
    }
  }

  lemma RoundLoses(q: seq<Request>, c: Choice) returns (left: seq<Request>, r: Request)
    requires |q| == |c| && Sorted(q) && Unique(q) && !TiesPickedTogether(q, Picks(c))
    ensures CanLeave(q, Picks(c), left) && Occurs(left, r) != Occurs(Kept(q, c), r)
  {
    left, r := SomeIsLost(q, Picks(c));
    KeptIsUnpicked(q, c);
    UniqueOccurs(Kept(q, c), r);
    assert r !in multiset(left);
  }

  lemma StepKeepsQueue(spec: SpecOf, s: State, e: Event)
    requires Enabled(spec, s, e) && QueueStep(s, e) && Sorted(s.queue)
    ensures Sorted(Step(spec, s, e).queue)
  {
    if e.TrySched? { CanLeaveSorted(s.queue, Picks(e.choice), e.left); }
  }

  lemma {:induction false} InitialTasks(ws: seq<Worker>, n: nat, r: Request)
    requires n <= |ws| && forall w :: 0 <= w < |ws| ==> ws[w].delivered == [] && ws[w].active == []
    ensures FirstTasks(ws, n, r) == 0
    decreases n
  {
    if n > 0 { InitialTasks(ws, n - 1, r); }
  }

  lemma {:induction false} RunKeepsCredits(spec: SpecOf, trace: seq<State>, events: seq<Event>, i: nat)
    requires IsRun(spec, trace, events) && i < |trace|
    ensures Credits(trace[i]) && Sorted(trace[i].queue)
  {
    if i > 0 {
      RunKeepsCredits(spec, trace, events, i - 1);
      StepKeepsCredits(spec, trace[i - 1], events[i - 1]);
      StepKeepsQueue(spec, trace[i - 1], events[i - 1]);
    }
  }

  // ----- claims over whole runs -----

  /** Every request is submitted at most once, and is in as many places as it was submitted. */
  ghost predicate InOnePlace(s: State) {
    forall r :: Everywhere(s, r) == s.submitted[r] && s.submitted[r] <= 1
  }

  lemma InOnePlaceIsUnique(s: State)
    requires InOnePlace(s)
    ensures Unique(s.queue)
  {
    forall r ensures multiset(s.queue)[r] <= 1 { assert Everywhere(s, r) <= 1; }
    CountsUnique(s.queue);
  }

  lemma StepKeepsInOnePlace(spec: SpecOf, s: State, e: Event)
    requires Enabled(spec, s, e) && QueueStep(s, e) && Credits(s) && Sorted(s.queue)
    requires InOnePlace(s) && PicksAreSafe(s, e)
    ensures InOnePlace(Step(spec, s, e))
  {
    InOnePlaceIsUnique(s);
    forall r ensures Everywhere(Step(spec, s, e), r) == Step(spec, s, e).submitted[r]
      && Step(spec, s, e).submitted[r] <= 1
    {
      assert Everywhere(s, r) == s.submitted[r];
      StepConserves(spec, s, e, r);
    }
  }

  lemma {:induction false} RunKeepsInOnePlace(spec: SpecOf, trace: seq<State>, events: seq<Event>, i: nat)
    requires IsRun(spec, trace, events) && i < |trace| && forall j :: 0 <= j < i ==> PicksAreSafe(trace[j], events[j])
    ensures InOnePlace(trace[i])
  {
    if i == 0 {
      forall r ensures Everywhere(trace[0], r) == trace[0].submitted[r] && trace[0].submitted[r] <= 1 {
        InitialTasks(trace[0].workers, |trace[0].workers|, r);
      }
    } else {
      RunKeepsInOnePlace(spec, trace, events, i - 1);
      RunKeepsCredits(spec, trace, events, i - 1);
      StepKeepsInOnePlace(spec, trace[i - 1], events[i - 1]);
    }
  }

  /**
   In every run whose rounds so far had safe picks, a submitted request is in exactly one place: queued, in the todo
   list of one window, or started; any other request is in none.
   */
  lemma RequestInOnePlace(spec: SpecOf, trace: seq<State>, events: seq<Event>, i: nat, r: Request)
    requires IsRun(spec, trace, events) && i < |trace| && forall j :: 0 <= j < i ==> PicksAreSafe(trace[j], events[j])
    ensures Occurs(trace[i].queue, r) + TaskCount(trace[i].workers, r) + trace[i].started[r]
      == if r in trace[i].submitted then 1 else 0
    ensures Sorted(trace[i].queue)
  {
    RunKeepsCredits(spec, trace, events, i);
    RunKeepsInOnePlace(spec, trace, events, i);
    assert Everywhere(trace[i], r) == trace[i].submitted[r];
  }

  /**
   A worker's credit equals its requests in the channel, open at the scheduler, delivered but
   unread, and active, and never exceeds the number of windows.
   */
  lemma CreditIsExact(spec: SpecOf, trace: seq<State>, events: seq<Event>, i: nat, w: nat)
    requires IsRun(spec, trace, events) && i < |trace| && w < |trace[i].workers|
    ensures var x := trace[i].workers[w];
      && x.requested == Count(trace[i].requests, w) + Count(trace[i].open, w) + |x.delivered| + |x.active|
      && x.requested <= SCHED_WINDOWS
  {
    RunKeepsCredits(spec, trace, events, i);
    assert CreditOk(trace[i], w);
  }

  lemma {:induction false} DeliverGrows(spec: SpecOf, s: State, c: Choice, j: nat, k: nat, w: nat)
    requires |c| == |s.queue| && j <= k <= |s.open| && Credits(s) && w < |s.workers|
    ensures Deliver(spec, s.workers, s.open, s.queue, c, j)[w].delivered
            <= Deliver(spec, s.workers, s.open, s.queue, c, k)[w].delivered
    ensures Deliver(spec, s.workers, s.open, s.queue, c, k)[w].info == s.workers[w].info
    decreases k - j
  {
    DeliverKeepsCredit(spec, s, c, k, w);
    if j < k {
      DeliverGrows(spec, s, c, j, k - 1, w);
      DeliverOneGrows(spec, s, c, k - 1, w);
    }
  }

  lemma DeliverOneGrows(spec: SpecOf, s: State, c: Choice, k: nat, w: nat)
    requires |c| == |s.queue| && k < |s.open| && Credits(s) && w < |s.workers|
    ensures Deliver(spec, s.workers, s.open, s.queue, c, k)[w].delivered
            <= Deliver(spec, s.workers, s.open, s.queue, c, k + 1)[w].delivered
  {
    DeliverStep(spec, s, c, k);
  }

  /** The non-blocking send never takes its dropping branch: every filled window reaches its worker. */
  lemma NoWindowDropped(spec: SpecOf, trace: seq<State>, events: seq<Event>, i: nat, wnd: nat)
    requires IsRun(spec, trace, events) && i < |events| && events[i].TrySched?
    requires wnd < |trace[i].open| && Todo(trace[i].queue, events[i].choice, wnd) != []
    ensures var s, todo := trace[i], Todo(trace[i].queue, events[i].choice, wnd);
      var w := s.open[wnd];
      w < |s.workers| && w < |trace[i + 1].workers|
      && Window(todo, Charged(spec, s.workers[w].info, todo)) in trace[i + 1].workers[w].delivered
  {
    RunKeepsCredits(spec, trace, events, i);
    FilledWindowDelivered(spec, trace[i], events[i].choice, wnd);
  }

  lemma FilledWindowDelivered(spec: SpecOf, s: State, c: Choice, wnd: nat)
    requires Credits(s) && |c| == |s.queue| && wnd < |s.open| && Todo(s.queue, c, wnd) != []
    ensures var w, todo := s.open[wnd], Todo(s.queue, c, wnd);
      Window(todo, Charged(spec, s.workers[w].info, todo))
        in Deliver(spec, s.workers, s.open, s.queue, c, |s.open|)[w].delivered
  {
    var w, todo := s.open[wnd], Todo(s.queue, c, wnd);
    DeliverStep(spec, s, c, wnd);
    var x := Window(todo, Charged(spec, s.workers[w].info, todo));
    var after := Deliver(spec, s.workers, s.open, s.queue, c, wnd + 1)[w].delivered;
    assert after[|after| - 1] == x;
    DeliverGrows(spec, s, c, wnd + 1, |s.open|, w);
    InLonger(after, Deliver(spec, s.workers, s.open, s.queue, c, |s.open|)[w].delivered, x);
  }

  lemma InLonger(a: seq<Window>, b: seq<Window>, x: Window)
    requires a <= b && x in a
    ensures x in b
  {
  }
}
