/**
 The account of a scheduling window always covers the tasks still in its todo list, so the
 unsigned subtractions of window compaction never underflow.
 */
module WindowAccounts {
  import opened RequestQueue
  import opened Scheduler
  import R = Resources

  ghost predicate Covered(spec: SpecOf, info: R.Worker, x: Window) {
    R.NoMore(R.Total(Specs(spec, x.todo), info), x.account)
  }

  ghost predicate AllCovered(spec: SpecOf, info: R.Worker, windows: seq<Window>) {
    forall i :: 0 <= i < |windows| ==> Covered(spec, info, windows[i])
  }

  lemma SpecsAppend(spec: SpecOf, todo: seq<Request>, t: Request, info: R.Worker)
    ensures R.Total(Specs(spec, todo + [t]), info) == R.Plus(R.Total(Specs(spec, todo), info), R.Need(spec(t), info))
  {
    assert Specs(spec, todo + [t]) == Specs(spec, todo) + [spec(t)];
    R.TotalAppend(Specs(spec, todo), spec(t), info);
  }

  lemma SpecsWithout(spec: SpecOf, todo: seq<Request>, i: nat, info: R.Worker)
    requires i < |todo|
    ensures R.Total(Specs(spec, todo), info)
            == R.Plus(R.Total(Specs(spec, Without(todo, i)), info), R.Need(spec(todo[i]), info))
  {
    var all := Specs(spec, todo);
    assert Specs(spec, Without(todo, i)) == all[..i] + all[i + 1..];
    R.TotalWithout(all, i, info);
  }

  /** Below 2^64 charging in order gives the exact total. */
  lemma {:induction false} ChargedIsTotal(spec: SpecOf, info: R.Worker, todo: seq<Request>)
    requires Below64(R.Total(Specs(spec, todo), info))
    ensures Charged(spec, info, todo) == R.Total(Specs(spec, todo), info)
  {
    if todo != [] {
      var n := |todo| - 1;
      assert todo == todo[..n] + [todo[n]];
      SpecsAppend(spec, todo[..n], todo[n], info);
      ChargedIsTotal(spec, info, todo[..n]);
      var before := R.Total(Specs(spec, todo[..n]), info);
      ExactCharge(before, info, spec(todo[n]));
    }
  }

  lemma ExactCharge(a: R.Account, info: R.Worker, spec: R.Spec)
    requires Below64(R.Plus(a, R.Need(spec, info)))
    ensures R.Charge(a, info, spec) == R.Plus(a, R.Need(spec, info))
  {
    R.Mod64(a.memMin + spec.minMemory);
    R.Mod64(a.memMax + spec.maxMemory);
    R.Mod64(a.cpu + R.Threads(spec, info));
  }

  function Minus(a: R.Account, b: R.Account): R.Account
    requires a.memMin >= b.memMin && a.memMax >= b.memMax && a.cpu >= b.cpu
  {
    R.Account(a.memMin - b.memMin, a.memMax - b.memMax, a.gpu - b.gpu, a.cpu - b.cpu)
  }

  lemma ExactRelease(a: R.Account, info: R.Worker, spec: R.Spec)
    requires Below64(a) && R.NoMore(R.Need(spec, info), a)
    ensures R.Release(a, info, spec) == Minus(a, R.Need(spec, info))
  {
    R.Mod64(a.memMin - spec.minMemory);
    R.Mod64(a.memMax - spec.maxMemory);
    R.Mod64(a.cpu - R.Threads(spec, info));
  }

  /** Moving one task shifts its need from one account to the other, exactly. */
  lemma ShiftOne(lower: R.Account, upper: R.Account, info: R.Worker, spec: R.Spec)
    requires Below64(R.Plus(lower, upper)) && R.NoMore(R.Need(spec, info), upper)
    ensures R.Charge(lower, info, spec) == R.Plus(lower, R.Need(spec, info))
    ensures R.Release(upper, info, spec) == Minus(upper, R.Need(spec, info))
    ensures R.Plus(R.Charge(lower, info, spec), R.Release(upper, info, spec)) == R.Plus(lower, upper)
  {
    ExactCharge(lower, info, spec);
    ExactRelease(upper, info, spec);
  }

  /** After the first `n` tasks of the upper window were looked at. */
  ghost predicate HalfMoved(spec: SpecOf, info: R.Worker, lower: Window, todo: seq<Request>, upper: R.Account,
                            m: Moved, n: nat)
    requires n <= |todo|
  {
    && Covered(spec, info, m.lower)
    && R.NoMore(R.Total(Specs(spec, m.kept + todo[n..]), info), m.upper)
    && R.Plus(m.lower.account, m.upper) == R.Plus(lower.account, upper)
  }

  lemma MoveOneKeeps(spec: SpecOf, w: Worker, lower: Window, todo: seq<Request>, upper: R.Account, m: Moved, n: nat)
    requires n < |todo| && Below64(R.Plus(lower.account, upper))
    requires HalfMoved(spec, w.info, lower, todo, upper, m, n)
    ensures var t := todo[n];
      HalfMoved(spec, w.info, lower, todo, upper,
                Moved(Window(m.lower.todo + [t], R.Charge(m.lower.account, w.info, spec(t))), m.kept,
                      R.Release(m.upper, w.info, spec(t))), n + 1)
  {
    var t := todo[n];
    var rest := m.kept + todo[n..];
    assert rest[|m.kept|] == t && Without(rest, |m.kept|) == m.kept + todo[n + 1..];
    SpecsWithout(spec, rest, |m.kept|, w.info);
    ShiftOne(m.lower.account, m.upper, w.info, spec(t));
    SpecsAppend(spec, m.lower.todo, t, w.info);
  }

  lemma {:induction false} MoveDownHalf(spec: SpecOf, w: Worker, lower: Window, todo: seq<Request>, upper: R.Account,
                                        n: nat)
    requires n <= |todo| && Covered(spec, w.info, lower) && Covered(spec, w.info, Window(todo, upper))
    requires Below64(R.Plus(lower.account, upper))
    ensures HalfMoved(spec, w.info, lower, todo, upper, MoveDown(spec, w, lower, todo[..n], upper), n)
  {
    if n == 0 {
      assert [] + todo[0..] == todo;
    } else {
      MoveDownHalf(spec, w, lower, todo, upper, n - 1);
      var m := MoveDown(spec, w, lower, todo[..n - 1], upper);
      assert todo[..n][..n - 1] == todo[..n - 1];
      MoveOneKeeps(spec, w, lower, todo, upper, m, n - 1);
      assert m.kept + [todo[n - 1]] + todo[n..] == m.kept + todo[n - 1..];
    }
  }

  /** Moving tasks down keeps both windows covered and the sum of the two accounts unchanged. */
  lemma MoveDownCovered(spec: SpecOf, w: Worker, lower: Window, upper: Window)
    requires Covered(spec, w.info, lower) && Covered(spec, w.info, upper)
    requires Below64(R.Plus(lower.account, upper.account))
    ensures var m := MoveDown(spec, w, lower, upper.todo, upper.account);
      && Covered(spec, w.info, m.lower)
      && Covered(spec, w.info, Window(m.kept, m.upper))
      && R.Plus(m.lower.account, m.upper) == R.Plus(lower.account, upper.account)
  {
    var n := |upper.todo|;
    MoveDownHalf(spec, w, lower, upper.todo, upper.account, n);
    assert upper.todo[..n] == upper.todo;
    var m := MoveDown(spec, w, lower, upper.todo, upper.account);
    assert m.kept + upper.todo[n..] == m.kept;
  }

  lemma {:induction false} SumOfUpdate(windows: seq<Window>, k: nat, x: Window, y: Window)
    requires k + 1 < |windows|
    requires R.Plus(x.account, y.account) == R.Plus(windows[k].account, windows[k + 1].account)
    ensures AllocatedSum(windows[k := x][k + 1 := y]) == AllocatedSum(windows)
  {
    var n := |windows| - 1;
    var r := windows[k := x][k + 1 := y];
    if k + 1 == n {
      assert r[..n][..n - 1] == windows[..n][..n - 1];
    } else {
      assert r[..n] == windows[..n][k := x][k + 1 := y];
      SumOfUpdate(windows[..n], k, x, y);
    }
  }

  lemma {:induction false} PairBelowSum(windows: seq<Window>, k: nat)
    requires k + 1 < |windows|
    ensures var p, s := R.Plus(windows[k].account, windows[k + 1].account), AllocatedSum(windows);
      p.memMin <= s.memMin && p.memMax <= s.memMax && p.cpu <= s.cpu
  {
    var n := |windows| - 1;
    if k + 1 == n {
      assert windows[..n][n - 1] == windows[k];
    } else {
      PairBelowSum(windows[..n], k);
    }
  }

  lemma PairCovered(spec: SpecOf, w: Worker, r: seq<Window>, k: nat)
    requires 1 < k <= |r| && AllCovered(spec, w.info, r) && Below64(AllocatedSum(r))
    ensures var m := MoveDown(spec, w, r[k - 2], r[k - 1].todo, r[k - 1].account);
      var t := r[k - 2 := m.lower][k - 1 := Window(m.kept, m.upper)];
      AllCovered(spec, w.info, t) && AllocatedSum(t) == AllocatedSum(r)
  {
    PairBelowSum(r, k - 2);
    MoveDownCovered(spec, w, r[k - 2], r[k - 1]);
    var m := MoveDown(spec, w, r[k - 2], r[k - 1].todo, r[k - 1].account);
    SumOfUpdate(r, k - 2, m.lower, Window(m.kept, m.upper));
    CoveredUpdate(spec, w.info, r, k, m.lower, Window(m.kept, m.upper));
  }

  lemma CoveredUpdate(spec: SpecOf, info: R.Worker, r: seq<Window>, k: nat, x: Window, y: Window)
    requires 1 < k <= |r| && AllCovered(spec, info, r) && Covered(spec, info, x) && Covered(spec, info, y)
    ensures AllCovered(spec, info, r[k - 2 := x][k - 1 := y])
  {
  }

  lemma {:induction false} CompactPairsCovered(spec: SpecOf, w: Worker, windows: seq<Window>, k: nat)
    requires k <= |windows| && AllCovered(spec, w.info, windows) && Below64(AllocatedSum(windows))
    ensures AllCovered(spec, w.info, CompactPairs(spec, w, windows, k))
    ensures AllocatedSum(CompactPairs(spec, w, windows, k)) == AllocatedSum(windows)
  {
    if k > 1 {
      CompactPairsCovered(spec, w, windows, k - 1);
      PairCovered(spec, w, CompactPairs(spec, w, windows, k - 1), k);
    }
  }

  lemma {:induction false} NonEmptyCovered(spec: SpecOf, info: R.Worker, windows: seq<Window>)
    requires AllCovered(spec, info, windows)
    ensures AllCovered(spec, info, NonEmpty(windows))
  {
    if windows != [] {
      NonEmptyCovered(spec, info, windows[..|windows| - 1]);
    }
  }

  ghost predicate WorkerCovered(spec: SpecOf, w: Worker) {
    AllCovered(spec, w.info, w.delivered) && AllCovered(spec, w.info, w.active)
  }

  ghost predicate WorkersCovered(spec: SpecOf, ws: seq<Worker>) {
    forall i :: 0 <= i < |ws| ==> WorkerCovered(spec, ws[i])
  }

  /** One more window in a worker's channel. */
  lemma DeliverOneCovered(spec: SpecOf, ws: seq<Worker>, w: nat, todo: seq<Request>)
    requires w < |ws| && WorkersCovered(spec, ws) && Below64(R.Total(Specs(spec, todo), ws[w].info))
    ensures WorkersCovered(spec,
      ws[w := ws[w].(delivered := ws[w].delivered + [Window(todo, Charged(spec, ws[w].info, todo))])])
  {
    ChargedIsTotal(spec, ws[w].info, todo);
    assert Covered(spec, ws[w].info, Window(todo, Charged(spec, ws[w].info, todo)));
    assert WorkerCovered(spec, ws[w]);
  }

  lemma {:induction false} DeliverCovered(spec: SpecOf, s: State, c: Choice, left: seq<Request>, k: nat)
    requires Enabled(spec, s, TrySched(c, left)) && k <= |s.open| && WorkersCovered(spec, s.workers)
    ensures WorkersCovered(spec, Deliver(spec, s.workers, s.open, s.queue, c, k))
    ensures forall w :: 0 <= w < |s.workers| ==>
              Deliver(spec, s.workers, s.open, s.queue, c, k)[w].info == s.workers[w].info
    decreases k
  {
    if k > 0 {
      DeliverCovered(spec, s, c, left, k - 1);
      DeliverOneCovered(spec, Deliver(spec, s.workers, s.open, s.queue, c, k - 1), s.open[k - 1],
        Todo(s.queue, c, k - 1));
    }
  }

  lemma StartCovered(spec: SpecOf, x: Worker, i: nat)
    requires WorkerCovered(spec, x) && x.active != [] && i < |x.active[0].todo|
    ensures WorkerCovered(spec, x.(active := TakeTask(x.active, i)))
  {
    SpecsWithout(spec, x.active[0].todo, i, x.info);
    assert Covered(spec, x.info, x.active[0]);
    assert Covered(spec, x.info, TakeTask(x.active, i)[0]);
  }

  lemma StepKeepsCovered(spec: SpecOf, s: State, e: Event)
    requires Enabled(spec, s, e) && WorkersCovered(spec, s.workers)
    ensures WorkersCovered(spec, Step(spec, s, e).workers)
  {
    match e
    case Submit(_, _) =>
    case RequestWindow(w) => assert WorkerCovered(spec, s.workers[w]);
    case TakeRequest =>
    case TrySched(c, left) => DeliverCovered(spec, s, c, left, |s.open|);
    case Receive(w) => assert WorkerCovered(spec, s.workers[w]);
    case CompactWindows(w) =>
      var x := s.workers[w];
      assert WorkerCovered(spec, x);
      CompactPairsCovered(spec, x, x.active, |x.active|);
      NonEmptyCovered(spec, x.info, CompactPairs(spec, x, x.active, |x.active|));
    case StartTask(w, i) => StartCovered(spec, s.workers[w], i);
    case CloseWindow(w) => assert WorkerCovered(spec, s.workers[w]);
  }

  lemma {:induction false} RunKeepsCovered(spec: SpecOf, trace: seq<State>, events: seq<Event>, i: nat)
    requires IsRun(spec, trace, events) && i < |trace|
    ensures WorkersCovered(spec, trace[i].workers)
  {
    if i > 0 {
      RunKeepsCovered(spec, trace, events, i - 1);
      StepKeepsCovered(spec, trace[i - 1], events[i - 1]);
    }
  }

  /**
   In every reachable state each window's account covers its todo list, and a compaction keeps
   the exact sum of the accounts: none of its unsigned subtractions underflows.
   */
  lemma CompactionNeverUnderflows(spec: SpecOf, trace: seq<State>, events: seq<Event>, i: nat)
    requires IsRun(spec, trace, events) && i < |events| && events[i].CompactWindows?
    ensures var w := trace[i].workers[events[i].w];
      && AllCovered(spec, w.info, w.active)
      && AllocatedSum(CompactPairs(spec, w, w.active, |w.active|)) == AllocatedSum(w.active)
      && AllCovered(spec, w.info, CompactPairs(spec, w, w.active, |w.active|))
  {
    RunKeepsCovered(spec, trace, events, i);
    var w := trace[i].workers[events[i].w];
    assert WorkerCovered(spec, w);
    CompactPairsCovered(spec, w, w.active, |w.active|);
  }
}
