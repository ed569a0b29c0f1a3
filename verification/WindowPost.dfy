/** Batches of partitions for window proofs, the sectors proved in them, and the retries of a proof. */
module WindowPost {
  import opened Options

  // ---------- batches ----------

  function Flatten<T>(batches: seq<seq<T>>): seq<T> {
    if batches == [] then [] else Flatten(batches[..|batches| - 1]) + batches[|batches| - 1]
  }

  function CeilDiv(n: nat, k: nat): nat
    requires k > 0
  {
    if n % k == 0 then n / k else n / k + 1
  }

  /** The number of batches of at most k needed, one batch less after k elements. */
  lemma CeilDivStep(n: nat, k: nat)
    requires k > 0 && n > 0
    ensures n <= k ==> CeilDiv(n, k) == 1
    ensures n > k ==> CeilDiv(n, k) == CeilDiv(n - k, k) + 1
  {
    if n > k {
      assert n == (n / k) * k + n % k;
      DivUnique(n - k, k, n / k - 1, n % k);
    } else if n < k {
      DivUnique(n, k, 0, n);
    } else {
      DivUnique(n, k, 1, 0);
    }
  }

  lemma DivUnique(n: nat, k: nat, q: int, r: nat)
    requires k > 0 && n == q * k + r && r < k
    ensures n / k == q && n % k == r
  {
    var d := n / k - q;
    assert d * k == r - n % k;
    assert d >= 1 ==> (d - 1) * k >= 0;
    assert d <= -1 ==> (d + 1) * k <= 0;
  }

  /** Split into batches of k; only the last may be shorter. */
  method BatchPartitions<T>(partitions: seq<T>, k: nat) returns (batches: seq<seq<T>>)
    requires k > 0
    ensures Flatten(batches) == partitions
    ensures |batches| == CeilDiv(|partitions|, k)
    ensures forall b :: 0 <= b < |batches| ==> 0 < |batches[b]| <= k
    ensures forall b :: 0 <= b < |batches| - 1 ==> |batches[b]| == k
  {
    batches := [];
    var i := 0;
    assert CeilDiv(0, k) == 0 by { DivUnique(0, k, 0, 0); }
    while i < |partitions|
      invariant 0 <= i <= |partitions|
      invariant Flatten(batches) == partitions[..i]
      invariant |batches| + CeilDiv(|partitions| - i, k) == CeilDiv(|partitions|, k)
      invariant forall b :: 0 <= b < |batches| ==> 0 < |batches[b]| <= k
      invariant i < |partitions| ==> forall b :: 0 <= b < |batches| ==> |batches[b]| == k
      invariant forall b :: 0 <= b < |batches| - 1 ==> |batches[b]| == k
      decreases |partitions| - i
    {
      CeilDivStep(|partitions| - i, k);
      var end := if i + k > |partitions| then |partitions| else i + k;
      ghost var before := batches;
      batches := batches + [partitions[i..end]];
      assert batches[..|batches| - 1] == before;
      i := end;
    }
    assert partitions[..|partitions|] == partitions;
  }

  function TotalLength<T>(batches: seq<seq<T>>): nat {
    if batches == [] then 0 else TotalLength(batches[..|batches| - 1]) + |batches[|batches| - 1]|
  }

  /** The index given to a partition of a batch is its position among all partitions. */
  lemma {:induction false} IndexIsPosition<T>(batches: seq<seq<T>>, b: nat, p: nat)
    requires b < |batches| && p < |batches[b]|
    ensures var i := TotalLength(batches[..b]) + p; i < |Flatten(batches)| && Flatten(batches)[i] == batches[b][p]
    decreases |batches|
  {
    var n := |batches| - 1;
    FlattenLength(batches[..n]);
    if b < n {
      IndexIsPosition(batches[..n], b, p);
      assert batches[..n][..b] == batches[..b];
    }
  }

  lemma {:induction false} FlattenLength<T>(batches: seq<seq<T>>)
    ensures |Flatten(batches)| == TotalLength(batches)
    decreases |batches|
  {
    if batches != [] { FlattenLength(batches[..|batches| - 1]); }
  }

  // ---------- the sectors of a partition ----------

  /** A partition as the chain gives it, with its sectors in ascending order, and the sectors the miner can read. */
  datatype Partition = Partition(live: set<nat>, faulty: set<nat>, recovering: set<nat>, sectors: seq<nat>,
                                 readable: set<nat>)

  function ToProve(p: Partition, manual: bool): set<nat> {
    (if manual then p.live else p.live - p.faulty) + p.recovering
  }

  /** The sectors that are proved: those to prove that can be read and were not skipped by an earlier attempt. */
  function Good(p: Partition, manual: bool, skip: set<nat>): set<nat> { ToProve(p, manual) * p.readable - skip }

  function Skipped(p: Partition, manual: bool, skip: set<nat>): set<nat> { ToProve(p, manual) - Good(p, manual, skip) }

  /** The good sectors of a list, in its order. */
  function GoodOf(sectors: seq<nat>, good: set<nat>): seq<nat> {
    if sectors == [] then []
    else
      var n := |sectors| - 1;
      if sectors[n] in good then GoodOf(sectors[..n], good) + [sectors[n]] else GoodOf(sectors[..n], good)
  }

  lemma {:induction false} GoodOfMembers(sectors: seq<nat>, good: set<nat>)
    ensures forall x :: x in GoodOf(sectors, good) <==> x in sectors && x in good
    decreases |sectors|
  {
    if sectors != [] {
      var n := |sectors| - 1;
      GoodOfMembers(sectors[..n], good);
      assert sectors == sectors[..n] + [sectors[n]];
    }
  }

  /** What the prover is given for a partition: all its sectors in order, with the first good one for those not good. */
  function ProofSectors(p: Partition, manual: bool, skip: set<nat>): seq<nat> {
    var good := GoodOf(p.sectors, Good(p, manual, skip));
    if good == [] then []
    else seq(|p.sectors|, i requires 0 <= i < |p.sectors| => if p.sectors[i] in good then p.sectors[i] else good[0])
  }

  /** Put together from the infos of the good sectors. */
  method SectorsForProof(good: seq<nat>, sectors: seq<nat>) returns (r: seq<nat>)
    ensures good == [] ==> r == []
    ensures good != [] ==>
      r == seq(|sectors|, i requires 0 <= i < |sectors| => if sectors[i] in good then sectors[i] else good[0])
  {
    if |good| == 0 {
      return [];
    }
    var substitute := good[0];
    var byId: map<nat, nat> := map[];
    for i := 0 to |good|
      invariant byId.Keys == set x | x in good[..i]
      invariant forall x :: x in byId ==> byId[x] == x
    {
      byId := byId[good[i] := good[i]];
      assert good[..i + 1] == good[..i] + [good[i]];
    }
    assert good[..|good|] == good;
    r := [];
    for i := 0 to |sectors|
      invariant |r| == i
      invariant forall k :: 0 <= k < i ==> r[k] == if sectors[k] in good then sectors[k] else good[0]
    {
      r := r + [if sectors[i] in byId then byId[sectors[i]] else substitute];
    }
  }

  /** The prover never sees a sector that is not good. */
  lemma ProofSectorsAreGood(p: Partition, manual: bool, skip: set<nat>)
    ensures forall x :: x in ProofSectors(p, manual, skip) ==> x in Good(p, manual, skip)
  {
    var good := GoodOf(p.sectors, Good(p, manual, skip));
    GoodOfMembers(p.sectors, Good(p, manual, skip));
    if good != [] { assert good[0] in good; }
  }

  // ---------- one attempt at a batch ----------

  datatype Entry = Entry(index: nat, skipped: set<nat>)

  /** The sectors given to the prover for the first n partitions of a batch. */
  function Infos(batch: seq<Partition>, manual: bool, skip: set<nat>, n: nat): seq<nat>
    requires n <= |batch|
  {
    if n == 0 then [] else Infos(batch, manual, skip, n - 1) + ProofSectors(batch[n - 1], manual, skip)
  }

  /** The partitions with something to prove, with their index and what was skipped. */
  function Entries(batch: seq<Partition>, start: nat, manual: bool, skip: set<nat>, n: nat): seq<Entry>
    requires n <= |batch|
  {
    if n == 0 then []
    else
      var before := Entries(batch, start, manual, skip, n - 1);
      if ProofSectors(batch[n - 1], manual, skip) == [] then before
      else before + [Entry(start + n - 1, Skipped(batch[n - 1], manual, skip))]
  }

  /** One partition: what is given to the prover, and what is skipped. */
  method AttemptPartition(p: Partition, manual: bool, skip: set<nat>) returns (ssi: seq<nat>, skipped: set<nat>)
    ensures ssi == ProofSectors(p, manual, skip) && skipped == Skipped(p, manual, skip)
  {
    var toProve := p.live - p.faulty;
    if manual {
      toProve := p.live;
    }
    toProve := toProve + p.recovering;
    var good := toProve * p.readable;
    good := good - skip;
    skipped := toProve - good;
    ssi := SectorsForProof(GoodOf(p.sectors, good), p.sectors);
  }

  method Attempt(batch: seq<Partition>, start: nat, manual: bool, skip: set<nat>)
    returns (infos: seq<nat>, entries: seq<Entry>)
    ensures infos == Infos(batch, manual, skip, |batch|)
    ensures entries == Entries(batch, start, manual, skip, |batch|)
  {
    infos, entries := [], [];
    for i := 0 to |batch|
      invariant infos == Infos(batch, manual, skip, i)
      invariant entries == Entries(batch, start, manual, skip, i)
    {
      var ssi, skipped := AttemptPartition(batch[i], manual, skip);
      NextPartition(batch, start, manual, skip, i, ssi, skipped);
      if |ssi| == 0 {
        continue;
      }
      infos := infos + ssi;
      entries := entries + [Entry(start + i, skipped)];
    }
  }

  lemma NextPartition(batch: seq<Partition>, start: nat, manual: bool, skip: set<nat>, i: nat, ssi: seq<nat>,
                      skipped: set<nat>)
    requires i < |batch| && ssi == ProofSectors(batch[i], manual, skip) && skipped == Skipped(batch[i], manual, skip)
    ensures var infos, entries := Infos(batch, manual, skip, i), Entries(batch, start, manual, skip, i);
      && Infos(batch, manual, skip, i + 1) == (if ssi == [] then infos else infos + ssi)
      && Entries(batch, start, manual, skip, i + 1) ==
        (if ssi == [] then entries else entries + [Entry(start + i, skipped)])
  {
  }

  // ---------- retries ----------

  datatype Outcome = Proved(proof: nat) | Failed(sectors: seq<nat>)

  /** What the prover answers for a batch, at an attempt, for the sectors it is given. */
  type Prover = (nat, nat, seq<nat>) -> Outcome

  /** One batch of the cycle: its partitions, its number, and the position of its first partition. */
  datatype Job = Job(batch: seq<Partition>, number: nat, start: nat, manual: bool)

  function Elements(s: seq<nat>): set<nat> { set x | x in s }

  /** What an attempt that skips some sectors gives the prover. */
  function Given(job: Job, skip: set<nat>): seq<nat> { Infos(job.batch, job.manual, skip, |job.batch|) }

  /** The a-th attempt fails on the sectors named and is followed by another. */
  predicate Retried(job: Job, prover: Prover, a: nat, skip: set<nat>, sectors: seq<nat>) {
    Given(job, skip) != [] && sectors != [] && prover(job.number, a, Given(job, skip)) == Failed(sectors)
  }

  datatype BatchResult = NothingToProve | Post(entries: seq<Entry>, proof: nat, skip: set<nat>) | Abort

  /** The a-th attempt, which skips the given sectors, is the last, with the given result. */
  predicate Concludes(job: Job, prover: Prover, a: nat, skip: set<nat>, r: BatchResult) {
    match r
    case NothingToProve => Given(job, skip) == []
    case Abort => Given(job, skip) != [] && prover(job.number, a, Given(job, skip)) == Failed([])
    case Post(entries, proof, left) =>
      && Given(job, skip) != [] && prover(job.number, a, Given(job, skip)) == Proved(proof)
      && entries == Entries(job.batch, job.start, job.manual, skip, |job.batch|) && left == skip
  }

  /** An attempt that failed: what it skipped, and the sectors its failure named. */
  datatype Try = Try(skip: set<nat>, sectors: seq<nat>)

  /** What the attempt after some failed ones skips. */
  function SkipNext(tries: seq<Try>): set<nat> {
    if tries == [] then {} else tries[|tries| - 1].skip + Elements(tries[|tries| - 1].sectors)
  }

  /** Every attempt skipped what the one before it left. */
  predicate Chained(tries: seq<Try>) {
    && (tries != [] ==> tries[0].skip == {})
    && forall a :: 0 < a < |tries| ==> tries[a].skip == tries[a - 1].skip + Elements(tries[a - 1].sectors)
  }

  /** Every attempt so far failed on the sectors it named, and was retried. */
  ghost predicate AllRetried(job: Job, prover: Prover, tries: seq<Try>) {
    forall a :: 0 <= a < |tries| ==> Retried(job, prover, a, tries[a].skip, tries[a].sectors)
  }

  /** All attempts but the last were retried, and the last gave the result. */
  ghost predicate EndsWith(job: Job, prover: Prover, tries: seq<Try>, r: BatchResult) {
    Chained(tries) && AllRetried(job, prover, tries) && Concludes(job, prover, |tries|, SkipNext(tries), r)
  }

  ghost predicate Ends(job: Job, prover: Prover, r: BatchResult) {
    exists tries: seq<Try> :: EndsWith(job, prover, tries, r)
  }

  /** The last attempt skips exactly the sectors named by those before it. */
  lemma {:induction false} SkipIsNamed(tries: seq<Try>, x: nat)
    requires Chained(tries)
    ensures x in SkipNext(tries) <==> exists a :: 0 <= a < |tries| && x in tries[a].sectors
    decreases |tries|
  {
    if tries != [] {
      var n := |tries| - 1;
      SkipIsNamed(tries[..n], x);
      assert tries[n].skip == SkipNext(tries[..n]);
      assert forall a :: 0 <= a < n ==> tries[..n][a] == tries[a];
    }
  }

  /** An attempt fails on one list of sectors, and is not both retried and the last. */
  lemma OneAnswer(job: Job, prover: Prover, a: nat, skip: set<nat>, x: seq<nat>, y: seq<nat>, r: BatchResult)
    ensures Retried(job, prover, a, skip, x) && Retried(job, prover, a, skip, y) ==> x == y
    ensures !(Retried(job, prover, a, skip, x) && Concludes(job, prover, a, skip, r))
  {
  }

  lemma {:induction false} SameTries(job: Job, prover: Prover, v: seq<Try>, w: seq<Try>, n: nat)
    requires Chained(v) && Chained(w) && AllRetried(job, prover, v) && AllRetried(job, prover, w) && n < |v| && n < |w|
    ensures v[n] == w[n]
    decreases n
  {
    if n > 0 { SameTries(job, prover, v, w, n - 1); }
    assert v[n].skip == w[n].skip;
    OneAnswer(job, prover, n, v[n].skip, v[n].sectors, w[n].sectors, Abort);
  }

  lemma NotLonger(job: Job, prover: Prover, v: seq<Try>, r: BatchResult, w: seq<Try>, s: BatchResult)
    requires EndsWith(job, prover, v, r) && EndsWith(job, prover, w, s)
    ensures |v| <= |w|
  {
    var n := |w|;
    if n < |v| {
      if n > 0 { SameTries(job, prover, v, w, n - 1); }
      OneAnswer(job, prover, n, v[n].skip, v[n].sectors, [], s);
    }
  }

  /** A batch ends in one way only: its attempts and its result are determined by the prover. */
  lemma EndIsUnique(job: Job, prover: Prover, v: seq<Try>, r: BatchResult, w: seq<Try>, s: BatchResult)
    requires EndsWith(job, prover, v, r) && EndsWith(job, prover, w, s)
    ensures v == w && r == s
  {
    NotLonger(job, prover, v, r, w, s);
    NotLonger(job, prover, w, s, v, r);
    forall n | 0 <= n < |v| ensures v[n] == w[n] { SameTries(job, prover, v, w, n); }
  }

  /** A failed proof that names sectors names one it was given. */
  ghost predicate NamesGiven(prover: Prover) {
    forall b, a, infos :: prover(b, a, infos).Failed? && prover(b, a, infos).sectors != [] ==>
      exists x :: x in prover(b, a, infos).sectors && x in infos
  }

  /** All sectors the first n partitions could prove. */
  function Provable(batch: seq<Partition>, manual: bool, n: nat): set<nat>
    requires n <= |batch|
  {
    if n == 0 then {} else Provable(batch, manual, n - 1) + ToProve(batch[n - 1], manual) * batch[n - 1].readable
  }

  lemma {:induction false} InfosAreProvable(batch: seq<Partition>, manual: bool, skip: set<nat>, n: nat)
    requires n <= |batch|
    ensures forall x :: x in Infos(batch, manual, skip, n) ==> x in Provable(batch, manual, n) && x !in skip
    decreases n
  {
    if n > 0 {
      InfosAreProvable(batch, manual, skip, n - 1);
      ProofSectorsAreGood(batch[n - 1], manual, skip);
    }
  }

  /** Skipping a sector that was given to the prover leaves fewer to prove. */
  lemma SkippingShrinks(batch: seq<Partition>, manual: bool, skip: set<nat>, more: seq<nat>, x: nat)
    requires x in more && x in Infos(batch, manual, skip, |batch|)
    ensures |Provable(batch, manual, |batch|) - (skip + Elements(more))| < |Provable(batch, manual, |batch|) - skip|
  {
    InfosAreProvable(batch, manual, skip, |batch|);
    var small := Provable(batch, manual, |batch|) - (skip + Elements(more));
    var big := Provable(batch, manual, |batch|) - skip;
    assert big == small + (big - small) && x in big - small;
  }

  /** How many sectors of the batch could still be proved. */
  function Left(job: Job, skip: set<nat>): nat { |Provable(job.batch, job.manual, |job.batch|) - skip| }

  lemma RetryExtends(job: Job, prover: Prover, tries: seq<Try>, sectors: seq<nat>)
    requires Chained(tries) && AllRetried(job, prover, tries)
    requires Retried(job, prover, |tries|, SkipNext(tries), sectors)
    ensures var more := tries + [Try(SkipNext(tries), sectors)]; Chained(more) && AllRetried(job, prover, more)
  {
  }

  /**
   Prove a batch, skipping the sectors that failed and trying again. The result is that of the first attempt that is not
   retried; there is one because every retry has fewer sectors to prove.
   */
  method ProveBatch(job: Job, prover: Prover) returns (r: BatchResult, tries: seq<Try>)
    requires NamesGiven(prover)
    ensures EndsWith(job, prover, tries, r)
    ensures |tries| <= Left(job, {})
  {
    tries := [];
    var postSkipped: set<nat> := {};
    while true
      invariant Chained(tries) && AllRetried(job, prover, tries) && postSkipped == SkipNext(tries)
      invariant |tries| + Left(job, postSkipped) <= Left(job, {})
      decreases Left(job, postSkipped)
    {
      var result, sectors := TryOnce(job, prover, |tries|, postSkipped);
      if result.Some? {
        return result.value, tries;
      }
      RetryShrinks(job, prover, |tries|, postSkipped, sectors);
      RetryExtends(job, prover, tries, sectors);
      tries := tries + [Try(postSkipped, sectors)];
      postSkipped := postSkipped + Elements(sectors);
    }
  }

  /** One attempt: it is the last, or it failed on some sectors and is to be retried. */
  method TryOnce(job: Job, prover: Prover, a: nat, skip: set<nat>)
    returns (result: Option<BatchResult>, sectors: seq<nat>)
    ensures result.Some? ==> Concludes(job, prover, a, skip, result.value)
    ensures result.None? ==> Retried(job, prover, a, skip, sectors)
  {
    var infos, entries := Attempt(job.batch, job.start, job.manual, skip);
    if |infos| == 0 {
      return Some(NothingToProve), [];
    }
    match prover(job.number, a, infos) {
      case Proved(proof) => return Some(Post(entries, proof, skip)), [];
      case Failed(named) =>
        if |named| == 0 {
          return Some(Abort), [];
        }
        return None, named;
    }
  }

  lemma RetryShrinks(job: Job, prover: Prover, a: nat, skip: set<nat>, sectors: seq<nat>)
    requires NamesGiven(prover) && Retried(job, prover, a, skip, sectors)
    ensures Left(job, skip + Elements(sectors)) < Left(job, skip)
  {
    var x :| x in sectors && x in Given(job, skip);
    SkippingShrinks(job.batch, job.manual, skip, sectors, x);
  }

  // ---------- the cycle ----------

  /** The job of a batch: it starts where the batches before it end. */
  function JobOf(batches: seq<seq<Partition>>, b: nat, manual: bool): Job
    requires b < |batches|
  {
    Job(batches[b], b, TotalLength(batches[..b]), manual)
  }

  method StartOf(batches: seq<seq<Partition>>, b: nat) returns (start: nat)
    requires b < |batches|
    ensures start == TotalLength(batches[..b])
  {
    start := 0;
    for j := 0 to b
      invariant start == TotalLength(batches[..j])
    {
      assert batches[..j + 1][..j] == batches[..j];
      start := start + |batches[j]|;
    }
  }

  /** The submissions among the results, in order. */
  function Posts(results: seq<BatchResult>): seq<BatchResult> {
    if results == [] then []
    else
      var n := |results| - 1;
      if results[n].Post? then Posts(results[..n]) + [results[n]] else Posts(results[..n])
  }

  /** Every batch so far has ended as its own attempts say. */
  ghost predicate Accounted(batches: seq<seq<Partition>>, manual: bool, prover: Prover, results: seq<BatchResult>) {
    && |results| <= |batches|
    && forall b :: 0 <= b < |results| ==> Ends(JobOf(batches, b, manual), prover, results[b])
  }

  /**
   The whole cycle: batch after batch is proved, has nothing to prove, or ends the cycle. What is returned are exactly
   the submissions of the batches, in order.
   */
  method RunCycle(partitions: seq<Partition>, k: nat, manual: bool, prover: Prover)
    returns (r: Option<seq<BatchResult>>, batches: seq<seq<Partition>>, results: seq<BatchResult>)
    requires k > 0 && NamesGiven(prover)
    ensures Flatten(batches) == partitions && |batches| == CeilDiv(|partitions|, k)
    ensures forall b :: 0 <= b < |batches| ==> 0 < |batches[b]| <= k
    ensures Accounted(batches, manual, prover, results)
    ensures r.Some? ==> |results| == |batches| && (forall b :: 0 <= b < |results| ==> !results[b].Abort?)
    ensures r.Some? ==> r.value == Posts(results)
    ensures r.None? ==> results != [] && results[|results| - 1].Abort?
  {
    batches := BatchPartitions(partitions, k);
    results := [];
    var posts: seq<BatchResult> := [];
    for b := 0 to |batches|
      invariant |results| == b && Accounted(batches, manual, prover, results)
      invariant forall i :: 0 <= i < b ==> !results[i].Abort?
      invariant posts == Posts(results)
    {
      var result := ProveNext(batches, manual, prover, results, b);
      ghost var before := results;
      results := results + [result];
      assert results[..b] == before;
      if result.Abort? {
        return None, batches, results;
      }
      if result.Post? {
        posts := posts + [result];
      }
    }
    r := Some(posts);
  }

  /** One more batch of the cycle. */
  method ProveNext(batches: seq<seq<Partition>>, manual: bool, prover: Prover, ghost results: seq<BatchResult>, b: nat)
    returns (result: BatchResult)
    requires NamesGiven(prover) && b == |results| < |batches| && Accounted(batches, manual, prover, results)
    ensures Accounted(batches, manual, prover, results + [result])
  {
    var start := StartOf(batches, b);
    var tries;
    result, tries := ProveBatch(Job(batches[b], b, start, manual), prover);
    AccountedExtends(batches, manual, prover, results, tries, result);
  }

  lemma AccountedExtends(batches: seq<seq<Partition>>, manual: bool, prover: Prover, results: seq<BatchResult>,
                         tries: seq<Try>, result: BatchResult)
    requires |results| < |batches| && Accounted(batches, manual, prover, results)
    requires EndsWith(JobOf(batches, |results|, manual), prover, tries, result)
    ensures Accounted(batches, manual, prover, results + [result])
  {
    assert Ends(JobOf(batches, |results|, manual), prover, result);
  }

  // ---------- what the submissions say of the partitions ----------

  ghost predicate ListedIn(entries: seq<Entry>, index: nat) {
    exists j :: 0 <= j < |entries| && entries[j].index == index
  }

  predicate IndexesIncrease(entries: seq<Entry>) {
    forall i, j :: 0 <= i < j < |entries| ==> entries[i].index < entries[j].index
  }

  /** An entry names a partition of the batch by its position, with exactly the sectors left out there. */
  predicate EntryOk(e: Entry, batch: seq<Partition>, start: nat, manual: bool, skip: set<nat>, n: nat) {
    && start <= e.index < start + n <= start + |batch|
    && e.skipped == Skipped(batch[e.index - start], manual, skip)
    && ProofSectors(batch[e.index - start], manual, skip) != []
  }

  lemma {:induction false} EntriesAreOk(batch: seq<Partition>, start: nat, manual: bool, skip: set<nat>, n: nat)
    requires n <= |batch|
    ensures var entries := Entries(batch, start, manual, skip, n);
      && IndexesIncrease(entries)
      && (forall j :: 0 <= j < |entries| ==> EntryOk(entries[j], batch, start, manual, skip, n))
    decreases n
  {
    if n > 0 {
      EntriesAreOk(batch, start, manual, skip, n - 1);
      var before := Entries(batch, start, manual, skip, n - 1);
      forall j | 0 <= j < |before| ensures EntryOk(before[j], batch, start, manual, skip, n) {
        assert EntryOk(before[j], batch, start, manual, skip, n - 1);
      }
    }
  }

  lemma {:induction false} EntriesAreComplete(batch: seq<Partition>, start: nat, manual: bool, skip: set<nat>, n: nat,
                                              p: nat)
    requires p < n <= |batch| && ProofSectors(batch[p], manual, skip) != []
    ensures ListedIn(Entries(batch, start, manual, skip, n), start + p)
    decreases n
  {
    var entries := Entries(batch, start, manual, skip, n);
    if p == n - 1 {
      assert entries[|entries| - 1].index == start + p;
    } else {
      EntriesAreComplete(batch, start, manual, skip, n - 1, p);
      var before := Entries(batch, start, manual, skip, n - 1);
      var j :| 0 <= j < |before| && before[j].index == start + p;
      assert entries[j].index == start + p;
    }
  }

  lemma {:induction false} NothingGiven(batch: seq<Partition>, manual: bool, skip: set<nat>, n: nat, p: nat)
    requires p < n <= |batch| && |Infos(batch, manual, skip, n)| == 0
    ensures |ProofSectors(batch[p], manual, skip)| == 0
    decreases n
  {
    var before, here := Infos(batch, manual, skip, n - 1), ProofSectors(batch[n - 1], manual, skip);
    assert |before + here| == |before| + |here|;
    if p < n - 1 { NothingGiven(batch, manual, skip, n - 1, p); }
  }

  /** A submission names partitions by their own positions, in order, with exactly the sectors left out there. */
  lemma SubmissionSays(job: Job, prover: Prover, r: BatchResult)
    requires Ends(job, prover, r) && r.Post?
    ensures IndexesIncrease(r.entries)
    ensures forall j :: 0 <= j < |r.entries| ==>
      EntryOk(r.entries[j], job.batch, job.start, job.manual, r.skip, |job.batch|)
  {
    EntriesAreOk(job.batch, job.start, job.manual, r.skip, |job.batch|);
  }

  /** A partition is in the submission of its batch exactly when something of it is left to prove after the skipping. */
  lemma SubmittedExactly(job: Job, prover: Prover, tries: seq<Try>, r: BatchResult, p: nat)
    requires EndsWith(job, prover, tries, r) && p < |job.batch| && !r.Abort?
    ensures |ProofSectors(job.batch[p], job.manual, SkipNext(tries))| > 0 <==>
      r.Post? && ListedIn(r.entries, job.start + p)
  {
    var skip := SkipNext(tries);
    if r.Post? {
      ListedExactly(job.batch, job.start, job.manual, skip, p);
    } else {
      NothingGiven(job.batch, job.manual, skip, |job.batch|, p);
    }
  }

  lemma ListedIsLeft(batch: seq<Partition>, start: nat, manual: bool, skip: set<nat>, entries: seq<Entry>, p: nat)
    requires p < |batch| && ListedIn(entries, start + p)
    requires forall j :: 0 <= j < |entries| ==> EntryOk(entries[j], batch, start, manual, skip, |batch|)
    ensures |ProofSectors(batch[p], manual, skip)| > 0
  {
    var j :| 0 <= j < |entries| && entries[j].index == start + p;
    assert EntryOk(entries[j], batch, start, manual, skip, |batch|);
  }

  lemma ListedExactly(batch: seq<Partition>, start: nat, manual: bool, skip: set<nat>, p: nat)
    requires p < |batch|
    ensures |ProofSectors(batch[p], manual, skip)| > 0 <==>
      ListedIn(Entries(batch, start, manual, skip, |batch|), start + p)
  {
    var entries := Entries(batch, start, manual, skip, |batch|);
    if ListedIn(entries, start + p) {
      EntriesAreOk(batch, start, manual, skip, |batch|);
      ListedIsLeft(batch, start, manual, skip, entries, p);
    } else if |ProofSectors(batch[p], manual, skip)| > 0 {
      EntriesAreComplete(batch, start, manual, skip, |batch|, p);
    }
  }

  /**
   What an entry reports as skipped: of the sectors to prove, exactly those that cannot be read or that a failed attempt
   at the batch named. All others are given to the prover.
   */
  lemma SkippedExactly(job: Job, prover: Prover, tries: seq<Try>, r: BatchResult, j: nat, x: nat)
    requires EndsWith(job, prover, tries, r) && r.Post? && j < |r.entries|
    ensures job.start <= r.entries[j].index < job.start + |job.batch|
    ensures var p := job.batch[r.entries[j].index - job.start];
      x in r.entries[j].skipped <==>
        x in ToProve(p, job.manual) && (x !in p.readable || exists a :: 0 <= a < |tries| && x in tries[a].sectors)
  {
    EntriesAreOk(job.batch, job.start, job.manual, r.skip, |job.batch|);
    assert EntryOk(r.entries[j], job.batch, job.start, job.manual, r.skip, |job.batch|);
    SkipIsNamed(tries, x);
  }

  lemma {:induction false} LengthGrows<T>(batches: seq<seq<T>>, b: nat, c: nat)
    requires b < c <= |batches|
    ensures TotalLength(batches[..b]) + |batches[b]| <= TotalLength(batches[..c])
    decreases c
  {
    assert batches[..c][..c - 1] == batches[..c - 1];
    if b < c - 1 { LengthGrows(batches, b, c - 1); }
  }

  /** No other batch's submission lists the partition: each is in at most one. */
  lemma ListedByOwnBatch(batches: seq<seq<Partition>>, manual: bool, prover: Prover, results: seq<BatchResult>,
                         b: nat, p: nat, c: nat)
    requires Accounted(batches, manual, prover, results) && b < |results| && c < |results| && p < |batches[b]|
    requires results[c].Post? && ListedIn(results[c].entries, TotalLength(batches[..b]) + p)
    ensures c == b
  {
    SubmissionSays(JobOf(batches, c, manual), prover, results[c]);
    if b < c { LengthGrows(batches, b, c); }
    if c < b { LengthGrows(batches, c, b); }
  }

  /**
   Over a whole cycle: a partition is listed by the submission of its own batch, at its own position, exactly when
   something of it is left to prove after that batch's failed attempts, and by no other submission.
   */
  lemma EveryPartitionOnce(batches: seq<seq<Partition>>, manual: bool, prover: Prover, results: seq<BatchResult>,
                           b: nat, p: nat)
    requires Accounted(batches, manual, prover, results) && b < |results| && p < |batches[b]| && !results[b].Abort?
    ensures exists tries: seq<Try> ::
      && EndsWith(JobOf(batches, b, manual), prover, tries, results[b])
      && forall c :: 0 <= c < |results| ==>
        (results[c].Post? && ListedIn(results[c].entries, TotalLength(batches[..b]) + p)
         <==> c == b && |ProofSectors(batches[b][p], manual, SkipNext(tries))| > 0)
  {
    var job, i := JobOf(batches, b, manual), TotalLength(batches[..b]) + p;
    var tries: seq<Try> :| EndsWith(job, prover, tries, results[b]);
    SubmittedExactly(job, prover, tries, results[b], p);
    forall c | 0 <= c < |results|
      ensures results[c].Post? && ListedIn(results[c].entries, i)
        <==> c == b && |ProofSectors(batches[b][p], manual, SkipNext(tries))| > 0 {
      if results[c].Post? && ListedIn(results[c].entries, i) {
        ListedByOwnBatch(batches, manual, prover, results, b, p, c);
      }
    }
  }
}
