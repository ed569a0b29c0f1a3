/**
 Worker resource accounts.  Memory and CPU counters are unsigned 64-bit and wrap; GPU
 shares are real numbers.
 */
module Resources {
  import opened Options

  const U64 := 0x1_0000_0000_0000_0000

  function Add64(a: nat, b: nat): nat { (a + b) % U64 }

  function Sub64(a: nat, b: nat): nat { (a - b) % U64 }

  /** What one task needs; parallelism -1 means "most of the cores". */
  datatype Spec = Spec(
    minMemory: nat,
    maxMemory: nat,
    baseMinMemory: nat,
    gpu: real,
    maxParallelism: int,
    maxParallelismGPU: int)

  datatype Worker = Worker(memPhysical: nat, memUsed: nat, memSwap: nat, memSwapUsed: nat, cpus: nat, gpus: nat) {
    /** The reserved memory fits in physical memory plus swap, and the totals fit in 64 bits. */
    predicate Valid() {
      && memPhysical + memSwap < U64
      && memUsed + memSwapUsed <= memPhysical + memSwap
      && cpus * 92 < U64
    }
  }

  function Threads(spec: Spec, w: Worker): nat {
    var mp := if spec.gpu > 0.0 && w.gpus > 0 && spec.maxParallelismGPU != 0
              then spec.maxParallelismGPU else spec.maxParallelism;
    if mp == -1 then
      var n := ((w.cpus * 92) % U64) / 100;
      if n == 0 then w.cpus else n
    else mp % U64
  }

  /** The sums the capacity test forms for one task do not overflow. */
  predicate SpecOk(spec: Spec, w: Worker) {
    && spec.minMemory + spec.baseMinMemory < U64
    && spec.maxMemory + spec.baseMinMemory < U64
    && w.cpus + Threads(spec, w) < U64
  }

  /** What is in use: the counters of a worker phase or of a scheduling window. */
  datatype Account = Account(memMin: nat, memMax: nat, gpu: real, cpu: nat)

  const EMPTY := Account(0, 0, 0.0, 0)

  function Gpu(spec: Spec): real { if spec.gpu > 0.0 then spec.gpu else 0.0 }

  function Charge(a: Account, w: Worker, spec: Spec): Account {
    Account(Add64(a.memMin, spec.minMemory), Add64(a.memMax, spec.maxMemory),
            a.gpu + Gpu(spec), Add64(a.cpu, Threads(spec, w)))
  }

  function Release(a: Account, w: Worker, spec: Spec): Account {
    Account(Sub64(a.memMin, spec.minMemory), Sub64(a.memMax, spec.maxMemory),
            a.gpu - Gpu(spec), Sub64(a.cpu, Threads(spec, w)))
  }

  /** The capacity test, with the wrap-around of its unsigned subtractions. */
  predicate CanHandle(a: Account, w: Worker, spec: Spec, ignoreResources: bool) {
    ignoreResources
    || (&& Add64(spec.minMemory, spec.baseMinMemory) <= Sub64(w.memPhysical, a.memMin)
        && (var reserved := Add64(w.memUsed, w.memSwapUsed);
            var vmemUsed := if a.memMax < reserved then reserved else a.memMax;
            Add64(spec.maxMemory, spec.baseMinMemory) <= Sub64(Add64(w.memPhysical, w.memSwap), vmemUsed))
        && Add64(a.cpu, Threads(spec, w)) <= w.cpus
        && !(w.gpus > 0 && spec.gpu > 0.0 && a.gpu + spec.gpu > w.gpus as real))
  }

  /** Within the worker's physical memory, virtual memory, cores and (if any) GPUs. */
  predicate Fits(a: Account, w: Worker) {
    && a.memMin <= w.memPhysical
    && a.memMax <= w.memPhysical + w.memSwap
    && a.cpu <= w.cpus
    && (w.gpus > 0 ==> a.gpu <= w.gpus as real)
  }

  lemma Mod64(x: int)
    requires 0 <= x < U64
    ensures x % U64 == x
  {
  }

  function Max(a: nat, b: nat): nat { if a < b then b else a }

  /** The test without wrap-around: what is left covers the need, including the shared base memory. */
  predicate HasRoom(a: Account, w: Worker, spec: Spec) {
    && a.memMin + spec.minMemory + spec.baseMinMemory <= w.memPhysical
    && Max(a.memMax, w.memUsed + w.memSwapUsed) + spec.maxMemory + spec.baseMinMemory <= w.memPhysical + w.memSwap
    && a.cpu + Threads(spec, w) <= w.cpus
    && (w.gpus > 0 && spec.gpu > 0.0 ==> a.gpu + spec.gpu <= w.gpus as real)
  }

  /** On accounts that fit, the 64-bit test means what it says. */
  lemma CanHandleIsHasRoom(a: Account, w: Worker, spec: Spec)
    requires w.Valid() && SpecOk(spec, w) && Fits(a, w)
    ensures CanHandle(a, w, spec, false) <==> HasRoom(a, w, spec)
  {
    Mod64(spec.minMemory + spec.baseMinMemory);
    Mod64(spec.maxMemory + spec.baseMinMemory);
    Mod64(w.memPhysical - a.memMin);
    Mod64(w.memPhysical + w.memSwap);
    Mod64(w.memUsed + w.memSwapUsed);
    Mod64(w.memPhysical + w.memSwap - Max(a.memMax, w.memUsed + w.memSwapUsed));
    Mod64(a.cpu + Threads(spec, w));
  }

  /** A task admitted by the capacity test fits, and its charge does not wrap. */
  lemma AdmittedFits(a: Account, w: Worker, spec: Spec)
    requires w.Valid() && SpecOk(spec, w) && Fits(a, w) && CanHandle(a, w, spec, false)
    ensures Fits(Charge(a, w, spec), w)
    ensures Charge(a, w, spec) == Plus(a, Need(spec, w))
  {
    CanHandleIsHasRoom(a, w, spec);
    Mod64(a.cpu + Threads(spec, w));
    Mod64(a.memMin + spec.minMemory);
    Mod64(a.memMax + spec.maxMemory);
  }

  /** `a` uses no more of anything than `b`. */
  predicate NoMore(a: Account, b: Account) {
    a.memMin <= b.memMin && a.memMax <= b.memMax && a.gpu <= b.gpu && a.cpu <= b.cpu
  }

  /** Giving something back keeps the capacity test true. */
  lemma CanHandleAfterRelease(a: Account, b: Account, w: Worker, spec: Spec)
    requires w.Valid() && SpecOk(spec, w) && Fits(b, w) && NoMore(a, b)
    requires CanHandle(b, w, spec, false)
    ensures CanHandle(a, w, spec, false)
  {
    CanHandleIsHasRoom(a, w, spec);
    CanHandleIsHasRoom(b, w, spec);
  }

  // ----- sums over tasks -----

  function Need(spec: Spec, w: Worker): Account {
    Account(spec.minMemory, spec.maxMemory, Gpu(spec), Threads(spec, w))
  }

  function Plus(a: Account, b: Account): Account {
    Account(a.memMin + b.memMin, a.memMax + b.memMax, a.gpu + b.gpu, a.cpu + b.cpu)
  }

  function Total(tasks: seq<Spec>, w: Worker): (r: Account)
    ensures r.gpu >= 0.0
  {
    if tasks == [] then EMPTY else Plus(Total(tasks[..|tasks| - 1], w), Need(tasks[|tasks| - 1], w))
  }

  lemma {:induction false} TotalWithout(tasks: seq<Spec>, i: nat, w: Worker)
    requires i < |tasks|
    ensures Total(tasks, w) == Plus(Total(tasks[..i] + tasks[i + 1..], w), Need(tasks[i], w))
    ensures NoMore(Total(tasks[..i] + tasks[i + 1..], w), Total(tasks, w))
  {
    var n := |tasks| - 1;
    var rest := tasks[..i] + tasks[i + 1..];
    if i == n {
      assert rest == tasks[..n];
    } else {
      assert rest[..|rest| - 1] == tasks[..n][..i] + tasks[..n][i + 1..];
      assert rest[|rest| - 1] == tasks[n];
      TotalWithout(tasks[..n], i, w);
    }
  }

  lemma TotalAppend(tasks: seq<Spec>, spec: Spec, w: Worker)
    ensures Total(tasks + [spec], w) == Plus(Total(tasks, w), Need(spec, w))
  {
    assert (tasks + [spec])[..|tasks|] == tasks;
  }

  /** Releasing a task that was charged subtracts exactly its need: the counters do not underflow. */
  lemma ReleaseCharged(a: Account, rest: Account, w: Worker, spec: Spec)
    requires a == Plus(rest, Need(spec, w))
    requires a.memMin < U64 && a.memMax < U64 && a.cpu < U64
    ensures Release(a, w, spec) == rest
  {
    Mod64(rest.memMin);
    Mod64(rest.memMax);
    Mod64(rest.cpu);
  }

  // ----- a worker's tasks, step by step -----

  /**
   `chosen` is the task that passed the test for the preparing account in one lock hold and
   is charged in the next.  Tasks whose preparation succeeded stay charged to `preparing`
   until the active account has room.
   */
  datatype Phases = Phases(
    preparing: Account,
    active: Account,
    chosen: Option<Spec>,
    preparingTasks: seq<Spec>,
    activeTasks: seq<Spec>)

  datatype Event =
    | Choose(spec: Spec)
    | StartPreparing
    | PrepareFailed(i: nat)
    | StartWork(i: nat)
    | StartReady(spec: Spec)
    | FinishWork(i: nat)

  const IDLE := Phases(EMPTY, EMPTY, None, [], [])

  predicate Enabled(w: Worker, p: Phases, e: Event) {
    match e
    case Choose(spec) => p.chosen.None? && SpecOk(spec, w) && CanHandle(p.preparing, w, spec, false)
    case StartPreparing => p.chosen.Some?
    case PrepareFailed(i) => i < |p.preparingTasks|
    case StartWork(i) => i < |p.preparingTasks| && CanHandle(p.active, w, p.preparingTasks[i], false)
    case StartReady(spec) => p.chosen.None? && SpecOk(spec, w) && CanHandle(p.active, w, spec, false)
    case FinishWork(i) => i < |p.activeTasks|
  }

  function Drop(tasks: seq<Spec>, i: nat): seq<Spec>
    requires i < |tasks|
  {
    tasks[..i] + tasks[i + 1..]
  }

  function Step(w: Worker, p: Phases, e: Event): Phases
    requires Enabled(w, p, e)
  {
    match e
    case Choose(spec) => p.(chosen := Some(spec))
    case StartPreparing =>
      p.(chosen := None, preparing := Charge(p.preparing, w, p.chosen.value),
         preparingTasks := p.preparingTasks + [p.chosen.value])
    case PrepareFailed(i) =>
      p.(preparing := Release(p.preparing, w, p.preparingTasks[i]), preparingTasks := Drop(p.preparingTasks, i))
    case StartWork(i) =>
      p.(active := Charge(p.active, w, p.preparingTasks[i]),
         preparing := Release(p.preparing, w, p.preparingTasks[i]),
         preparingTasks := Drop(p.preparingTasks, i),
         activeTasks := p.activeTasks + [p.preparingTasks[i]])
    case StartReady(spec) =>
      p.(active := Charge(p.active, w, spec), activeTasks := p.activeTasks + [spec])
    case FinishWork(i) =>
      p.(active := Release(p.active, w, p.activeTasks[i]), activeTasks := Drop(p.activeTasks, i))
  }

  ghost predicate IsRun(w: Worker, trace: seq<Phases>, events: seq<Event>) {
    && w.Valid()
    && |trace| == |events| + 1
    && trace[0] == IDLE
    && forall i :: 0 <= i < |events| ==> Enabled(w, trace[i], events[i]) && trace[i + 1] == Step(w, trace[i], events[i])
  }

  ghost predicate Exact(a: Account, tasks: seq<Spec>, w: Worker) {
    && a == Total(tasks, w)
    && Fits(a, w)
    && forall i :: 0 <= i < |tasks| ==> SpecOk(tasks[i], w)
  }

  ghost predicate PhasesOk(w: Worker, p: Phases) {
    && Exact(p.preparing, p.preparingTasks, w)
    && Exact(p.active, p.activeTasks, w)
    && (p.chosen.Some? ==> SpecOk(p.chosen.value, w) && CanHandle(p.preparing, w, p.chosen.value, false))
  }

  lemma ChargeKeepsExact(a: Account, tasks: seq<Spec>, w: Worker, spec: Spec)
    requires w.Valid() && Exact(a, tasks, w) && SpecOk(spec, w) && CanHandle(a, w, spec, false)
    ensures Exact(Charge(a, w, spec), tasks + [spec], w)
  {
    AdmittedFits(a, w, spec);
    TotalAppend(tasks, spec, w);
  }

  lemma ReleaseKeepsExact(a: Account, tasks: seq<Spec>, w: Worker, i: nat)
    requires w.Valid() && Exact(a, tasks, w) && i < |tasks|
    ensures Exact(Release(a, w, tasks[i]), Drop(tasks, i), w)
    ensures NoMore(Release(a, w, tasks[i]), a)
  {
    TotalWithout(tasks, i, w);
    ReleaseCharged(a, Total(Drop(tasks, i), w), w, tasks[i]);
  }

  lemma StepKeepsPhasesOk(w: Worker, p: Phases, e: Event)
    requires w.Valid() && PhasesOk(w, p) && Enabled(w, p, e)
    ensures PhasesOk(w, Step(w, p, e))
  {
    match e
    case Choose(spec) =>
    case StartPreparing => ChargeKeepsExact(p.preparing, p.preparingTasks, w, p.chosen.value);
    case PrepareFailed(i) =>
      ReleaseKeepsExact(p.preparing, p.preparingTasks, w, i);
      KeepChosen(w, p, Release(p.preparing, w, p.preparingTasks[i]));
    case StartWork(i) =>
      ReleaseKeepsExact(p.preparing, p.preparingTasks, w, i);
      KeepChosen(w, p, Release(p.preparing, w, p.preparingTasks[i]));
      ChargeKeepsExact(p.active, p.activeTasks, w, p.preparingTasks[i]);
    case StartReady(spec) => ChargeKeepsExact(p.active, p.activeTasks, w, spec);
    case FinishWork(i) => ReleaseKeepsExact(p.active, p.activeTasks, w, i);
  }

  /** Between test and charge other goroutines only give resources back. */
  lemma KeepChosen(w: Worker, p: Phases, less: Account)
    requires w.Valid() && PhasesOk(w, p) && NoMore(less, p.preparing)
    ensures p.chosen.Some? ==> CanHandle(less, w, p.chosen.value, false)
  {
    if p.chosen.Some? {
      CanHandleAfterRelease(less, p.preparing, w, p.chosen.value);
    }
  }

  /**
   In every reachable state both accounts equal the sums over the tasks in their phase and
   stay within the worker's resources, although a task is tested and charged in two lock holds.
   */
  lemma {:induction false} AccountsAreExact(w: Worker, trace: seq<Phases>, events: seq<Event>, i: nat)
    requires IsRun(w, trace, events) && i < |trace|
    ensures trace[i].preparing == Total(trace[i].preparingTasks, w) && Fits(trace[i].preparing, w)
    ensures trace[i].active == Total(trace[i].activeTasks, w) && Fits(trace[i].active, w)
    ensures PhasesOk(w, trace[i])
  {
    if i > 0 {
      AccountsAreExact(w, trace, events, i - 1);
      StepKeepsPhasesOk(w, trace[i - 1], events[i - 1]);
    }
  }

  // ----- when the unsigned test is right -----

  /** The sums the test forms of the worker alone fit in 64 bits. */
  predicate SumsFit(w: Worker) {
    w.memPhysical + w.memSwap < U64 && w.memUsed + w.memSwapUsed < U64 && w.cpus * 92 < U64
  }

  predicate ReservedFits(w: Worker) { w.memUsed + w.memSwapUsed <= w.memPhysical + w.memSwap }

  /** Whatever the test admits, there is room for. */
  ghost predicate TestIsRight(w: Worker) {
    forall a, spec :: Fits(a, w) && SpecOk(spec, w) && CanHandle(a, w, spec, false) ==> HasRoom(a, w, spec)
  }

  /** Whatever the test admits, the worker's resources still cover the account. */
  ghost predicate AdmissionIsSafe(w: Worker) {
    forall a, spec :: Fits(a, w) && SpecOk(spec, w) && CanHandle(a, w, spec, false) ==> Fits(Charge(a, w, spec), w)
  }

  /** A task that needs nothing is admitted although the reserved memory alone is too much. */
  lemma NeedsNothing(w: Worker)
    requires SumsFit(w) && !ReservedFits(w)
    ensures !TestIsRight(w)
  {
    var spec := Spec(0, 0, 0, 0.0, 0, 0);
    assert Fits(EMPTY, w) && SpecOk(spec, w) && CanHandle(EMPTY, w, spec, false) && !HasRoom(EMPTY, w, spec);
  }

  /** A task that needs more virtual memory than there is is admitted. */
  lemma NeedsTooMuch(w: Worker)
    requires SumsFit(w) && !ReservedFits(w)
    ensures !AdmissionIsSafe(w)
  {
    var total := w.memPhysical + w.memSwap;
    var spec := Spec(0, total + 1, 0, 0.0, 0, 0);
    Mod64(total - (w.memUsed + w.memSwapUsed) + U64);
    Mod64(total + 1);
    assert Fits(EMPTY, w) && SpecOk(spec, w) && CanHandle(EMPTY, w, spec, false) && !Fits(Charge(EMPTY, w, spec), w);
  }

  /**
   The unsigned test is right, and what it admits is safe, exactly for the workers whose reserved memory fits in
   physical memory plus swap.
   */
  lemma TestIsRightIffReservedFits(w: Worker)
    requires SumsFit(w)
    ensures TestIsRight(w) <==> ReservedFits(w)
    ensures AdmissionIsSafe(w) <==> ReservedFits(w)
  {
    if ReservedFits(w) {
      forall a, spec | Fits(a, w) && SpecOk(spec, w) && CanHandle(a, w, spec, false)
        ensures HasRoom(a, w, spec) && Fits(Charge(a, w, spec), w) {
        CanHandleIsHasRoom(a, w, spec);
        AdmittedFits(a, w, spec);
      }
    } else {
      NeedsNothing(w);
      NeedsTooMuch(w);
    }
  }

  /** The counters as the worker code holds them. */
  class ActiveResources {
    var memUsedMin: nat
    var memUsedMax: nat
    var gpuUsed: real
    var cpuUse: nat

    function View(): Account
      reads this
    {
      Account(memUsedMin, memUsedMax, gpuUsed, cpuUse)
    }

    constructor ()
      ensures View() == EMPTY
    {
      memUsedMin, memUsedMax, gpuUsed, cpuUse := 0, 0, 0.0, 0;
    }

    method Add(w: Worker, spec: Spec)
      modifies this
      ensures View() == Charge(old(View()), w, spec)
    {
      if spec.gpu > 0.0 {
        gpuUsed := gpuUsed + spec.gpu;
      }
      cpuUse := Add64(cpuUse, Threads(spec, w));
      memUsedMin := Add64(memUsedMin, spec.minMemory);
      memUsedMax := Add64(memUsedMax, spec.maxMemory);
    }

    method Free(w: Worker, spec: Spec)
      modifies this
      ensures View() == Release(old(View()), w, spec)
    {
      if spec.gpu > 0.0 {
        gpuUsed := gpuUsed - spec.gpu;
      }
      cpuUse := Sub64(cpuUse, Threads(spec, w));
      memUsedMin := Sub64(memUsedMin, spec.minMemory);
      memUsedMax := Sub64(memUsedMax, spec.maxMemory);
    }

    method CanHandleRequest(w: Worker, spec: Spec, ignoreResources: bool) returns (ok: bool)
      ensures ok == CanHandle(View(), w, spec, ignoreResources)
    {
      if ignoreResources { return true; }
      var memNeeded := Add64(spec.minMemory, spec.baseMinMemory);
      var memAvail := Sub64(w.memPhysical, memUsedMin);
      if memNeeded > memAvail { return false; }

      var vmemNeeded := Add64(spec.maxMemory, spec.baseMinMemory);
      var vmemUsed := memUsedMax;
      var reserved := Add64(w.memUsed, w.memSwapUsed);
      if vmemUsed < reserved { vmemUsed := reserved; }
      var vmemAvail := Sub64(Add64(w.memPhysical, w.memSwap), vmemUsed);
      if vmemNeeded > vmemAvail { return false; }

      if Add64(cpuUse, Threads(spec, w)) > w.cpus { return false; }

      if w.gpus > 0 && spec.gpu > 0.0 {
        if gpuUsed + spec.gpu > w.gpus as real { return false; }
      }
      return true;
    }
  }
}
