/** The batchers as objects, and the choice of a commit batch. */
module BatcherObjects {
  import opened Options
  import opened Batcher
  import Collateral

  // ---------- the numbers of a batch, sorted ----------

  predicate StrictlySorted(s: seq<nat>) { forall i, j :: 0 <= i < j < |s| ==> s[i] < s[j] }

  function InsertNumber(s: seq<nat>, x: nat): seq<nat> {
    if s == [] || x <= s[0] then [x] + s else [s[0]] + InsertNumber(s[1..], x)
  }

  function SortNumbers(s: seq<nat>): seq<nat> {
    if s == [] then [] else InsertNumber(SortNumbers(s[..|s| - 1]), s[|s| - 1])
  }

  lemma {:induction false} InsertNumberElements(s: seq<nat>, x: nat)
    ensures forall y :: y in InsertNumber(s, x) <==> y in s || y == x
    ensures |InsertNumber(s, x)| == |s| + 1
    decreases |s|
  {
    if s != [] && x > s[0] {
      InsertNumberElements(s[1..], x);
      assert s == [s[0]] + s[1..];
    }
  }

  lemma {:induction false} InsertNumberSorted(s: seq<nat>, x: nat)
    requires StrictlySorted(s) && x !in s
    ensures StrictlySorted(InsertNumber(s, x))
    decreases |s|
  {
    if s != [] && x > s[0] {
      InsertNumberSorted(s[1..], x);
      InsertNumberElements(s[1..], x);
      var r := InsertNumber(s[1..], x);
      forall j | 0 <= j < |r| ensures s[0] < r[j] { assert r[j] in r; }
    }
  }

  predicate Distinct(s: seq<nat>) { forall i, j :: 0 <= i < j < |s| ==> s[i] != s[j] }

  lemma {:induction false} SortNumbersElements(s: seq<nat>)
    ensures forall y :: y in SortNumbers(s) <==> y in s
    ensures |SortNumbers(s)| == |s|
    decreases |s|
  {
    if s != [] {
      var n := |s| - 1;
      SortNumbersElements(s[..n]);
      InsertNumberElements(SortNumbers(s[..n]), s[n]);
      assert s == s[..n] + [s[n]];
    }
  }

  lemma {:induction false} SortNumbersSorted(s: seq<nat>)
    requires Distinct(s)
    ensures StrictlySorted(SortNumbers(s))
    decreases |s|
  {
    if s != [] {
      var n := |s| - 1;
      SortNumbersSorted(s[..n]);
      SortNumbersElements(s[..n]);
      assert s[n] !in s[..n];
      InsertNumberSorted(SortNumbers(s[..n]), s[n]);
    }
  }

  // ---------- choosing a commit batch ----------

  /** An order in which a map is gone through. */
  ghost predicate OrderOf(order: seq<SectorNumber>, todo: map<SectorNumber, Input>) {
    Distinct(order) && Elements(order) == todo.Keys
  }

  /** The sectors among those looked at whose collateral is known. */
  function KnownOf(looked: seq<SectorNumber>, collateral: nat -> Option<nat>): seq<SectorNumber> {
    if looked == [] then []
    else
      var n := |looked| - 1;
      var before := KnownOf(looked[..n], collateral);
      if collateral(looked[n]).Some? then before + [looked[n]] else before
  }

  lemma {:induction false} KnownOfElements(looked: seq<SectorNumber>, collateral: nat -> Option<nat>)
    requires Distinct(looked)
    ensures Distinct(KnownOf(looked, collateral))
    ensures forall sn :: sn in KnownOf(looked, collateral) <==> sn in looked && collateral(sn).Some?
    decreases |looked|
  {
    if looked != [] {
      var n := |looked| - 1;
      KnownOfElements(looked[..n], collateral);
      assert looked == looked[..n] + [looked[n]];
    }
  }

  /** The sectors looked at until the batch is full. */
  function Looked(order: seq<SectorNumber>, collateral: nat -> Option<nat>, max: nat): seq<SectorNumber> {
    if order == [] then []
    else
      var n := |order| - 1;
      var before := Looked(order[..n], collateral, max);
      if |before| < n || |KnownOf(before, collateral)| >= max then before else order
  }

  /** The sectors looked at are a prefix that was cut only because the batch was full, and never beyond that. */
  lemma {:induction false} LookedUntilFull(order: seq<SectorNumber>, collateral: nat -> Option<nat>, max: nat)
    ensures var looked := Looked(order, collateral, max);
      && looked <= order && |KnownOf(looked, collateral)| <= max
      && (|looked| < |order| ==> |KnownOf(looked, collateral)| == max)
    decreases |order|
  {
    if order != [] {
      var n := |order| - 1;
      LookedUntilFull(order[..n], collateral, max);
      assert order[..n] <= order;
      assert |KnownOf(order, collateral)| <= |KnownOf(order[..n], collateral)| + 1;
    }
  }

  /** What was chosen: the sectors looked at, and of them the ones that go into the message. */
  datatype Chosen = Chosen(looked: seq<SectorNumber>, failed: set<SectorNumber>, infos: seq<SectorNumber>,
                           collateral: nat)

  function FailedOf(looked: seq<SectorNumber>, collateral: nat -> Option<nat>): set<SectorNumber> {
    set sn | sn in looked && collateral(sn).None?
  }

  /** Go through the queue until the batch is full; sectors without a known collateral fail. */
  method Choose(order: seq<SectorNumber>, collateral: nat -> Option<nat>, max: nat) returns (c: Chosen)
    ensures c.looked == Looked(order, collateral, max) && c.failed == FailedOf(c.looked, collateral)
    ensures c.infos == KnownOf(c.looked, collateral)
    ensures c.collateral == Collateral.Total(c.looked, collateral)
  {
    c := Chosen([], {}, [], 0);
    var i := 0;
    while i < |order| && |c.infos| < max
      invariant 0 <= i <= |order| && c.looked == order[..i] == Looked(order[..i], collateral, max)
      invariant c.infos == KnownOf(c.looked, collateral) && c.failed == FailedOf(c.looked, collateral)
      invariant c.collateral == Collateral.Total(c.looked, collateral)
    {
      var id := order[i];
      var looked := c.looked + [id];
      LooksAtOneMore(order, collateral, max, i);
      var sc := collateral(id);
      if sc.None? {
        c := Chosen(looked, c.failed + {id}, c.infos, c.collateral);
      } else {
        c := Chosen(looked, c.failed, c.infos + [id], c.collateral + sc.value);
      }
      i := i + 1;
    }
    StaysFull(order, collateral, max, i);
  }

  /** What one more sector adds to what was chosen. */
  lemma LooksAtOneMore(order: seq<SectorNumber>, collateral: nat -> Option<nat>, max: nat, i: nat)
    requires i < |order| && order[..i] == Looked(order[..i], collateral, max) && |KnownOf(order[..i], collateral)| < max
    ensures var before, after, id := order[..i], order[..i + 1], order[i];
      && after == before + [id] && Looked(after, collateral, max) == after
      && KnownOf(after, collateral) ==
           (if collateral(id).Some? then KnownOf(before, collateral) + [id] else KnownOf(before, collateral))
      && FailedOf(after, collateral) ==
           (if collateral(id).None? then FailedOf(before, collateral) + {id} else FailedOf(before, collateral))
      && Collateral.Total(after, collateral) == Collateral.Total(before, collateral) + Collateral.Worth(collateral(id))
  {
    assert order[..i + 1][..i] == order[..i];
  }

  /** Once the batch is full, or the queue has been gone through, no more sectors are looked at. */
  lemma {:induction false} StaysFull(order: seq<SectorNumber>, collateral: nat -> Option<nat>, max: nat, i: nat)
    requires i <= |order| && order[..i] == Looked(order[..i], collateral, max)
    requires i == |order| || |KnownOf(order[..i], collateral)| >= max
    ensures Looked(order, collateral, max) == order[..i]
    decreases |order|
  {
    if i < |order| {
      var n := |order| - 1;
      assert order[..n][..i] == order[..i];
      StaysFull(order[..n], collateral, max, i);
    } else {
      assert order[..i] == order;
    }
  }

  datatype Sent = SentAs(message: string) | SendError(error: string)

  /** The sectors of the aggregate, strictly increasing. */
  function BatchInfos(order: seq<SectorNumber>, collateral: nat -> Option<nat>, max: nat): seq<SectorNumber> {
    SortNumbers(KnownOf(Looked(order, collateral, max), collateral))
  }

  function AggregateResult(looked: seq<SectorNumber>, failed: set<SectorNumber>, sent: Sent): Res {
    match sent
    case SentAs(message) => Res(looked, failed, message, None)
    case SendError(error) => Res(looked, failed, "", Some(error))
  }

  /**
   The results of a round that aggregates: none if no collateral is known, otherwise one for all sectors looked
   at.
   */
  function AggregateResults(order: seq<SectorNumber>, collateral: nat -> Option<nat>, max: nat, sent: Sent): seq<Res> {
    var looked := Looked(order, collateral, max);
    if KnownOf(looked, collateral) == [] then []
    else [AggregateResult(looked, FailedOf(looked, collateral), sent)]
  }

  /** A batch is empty exactly when no collateral is known in the whole queue, or the limit is zero. */
  lemma BatchEmptyIff(order: seq<SectorNumber>, collateral: nat -> Option<nat>, max: nat)
    ensures BatchInfos(order, collateral, max) == [] <==> max == 0 || KnownOf(order, collateral) == []
  {
    var looked := Looked(order, collateral, max);
    LookedUntilFull(order, collateral, max);
    SortNumbersElements(KnownOf(looked, collateral));
    if |looked| == |order| { assert looked == order; }
    KnownOfPrefix(order, |looked|, collateral);
  }

  lemma {:induction false} KnownOfPrefix(order: seq<SectorNumber>, n: nat, collateral: nat -> Option<nat>)
    requires n <= |order|
    ensures |KnownOf(order[..n], collateral)| <= |KnownOf(order, collateral)|
    decreases |order|
  {
    if n < |order| {
      assert order[..|order| - 1][..n] == order[..n];
      KnownOfPrefix(order[..|order| - 1], n, collateral);
    } else {
      assert order[..n] == order;
    }
  }

  /** A batch takes every sector with a known collateral, up to the limit. */
  lemma BatchSize(order: seq<SectorNumber>, collateral: nat -> Option<nat>, max: nat)
    ensures |BatchInfos(order, collateral, max)|
      == if |KnownOf(order, collateral)| < max then |KnownOf(order, collateral)| else max
  {
    var looked := Looked(order, collateral, max);
    LookedUntilFull(order, collateral, max);
    SortNumbersElements(KnownOf(looked, collateral));
    if |looked| == |order| { assert looked == order; }
    KnownOfPrefix(order, |looked|, collateral);
  }

  /**
   One aggregate. The numbers in the message are strictly increasing, exactly the sectors looked at whose collateral is
   known, at most the limit, and each has the proof of its own sector beside it.
   */
  method ProcessBatch(todo: map<SectorNumber, Input>, order: seq<SectorNumber>, collateral: nat -> Option<nat>,
                      max: nat, sent: Sent)
    returns (results: seq<Res>, infos: seq<SectorNumber>, proofs: seq<nat>)
    requires OrderOf(order, todo)
    ensures infos == BatchInfos(order, collateral, max) && |infos| <= max && StrictlySorted(infos)
    ensures forall sn :: sn in infos <==> sn in Looked(order, collateral, max) && collateral(sn).Some?
    ensures |proofs| == |infos| && forall i :: 0 <= i < |infos| ==>
      infos[i] in todo && proofs[i] == todo[infos[i]].proof
    ensures results == AggregateResults(order, collateral, max, sent)
  {
    var c := Choose(order, collateral, max);
    LookedUntilFull(order, collateral, max);
    DistinctPrefix(order, c.looked);
    KnownOfElements(c.looked, collateral);
    SortNumbersSorted(c.infos);
    SortNumbersElements(c.infos);
    if c.infos == [] {
      return [], [], [];
    }
    infos := SortNumbers(c.infos);
    proofs := ProofsOf(todo, order, infos);
    results := [AggregateResult(c.looked, c.failed, sent)];
  }

  method ProofsOf(todo: map<SectorNumber, Input>, ghost order: seq<SectorNumber>, infos: seq<SectorNumber>)
    returns (proofs: seq<nat>)
    requires OrderOf(order, todo) && forall sn :: sn in infos ==> sn in order
    ensures |proofs| == |infos| && forall i :: 0 <= i < |infos| ==>
      infos[i] in todo && proofs[i] == todo[infos[i]].proof
  {
    proofs := [];
    for i := 0 to |infos|
      invariant |proofs| == i && forall k :: 0 <= k < i ==> infos[k] in todo && proofs[k] == todo[infos[k]].proof
    {
      assert infos[i] in Elements(order);
      proofs := proofs + [todo[infos[i]].proof];
    }
  }

  lemma DistinctPrefix(order: seq<nat>, looked: seq<nat>)
    requires Distinct(order) && looked <= order
    ensures Distinct(looked) && forall sn :: sn in looked ==> sn in order
  {
  }

  /** The result of a message for one sector. */
  function SingleResult(sn: SectorNumber, sent: Sent): Res {
    match sent
    case SentAs(message) => Res([sn], {}, message, None)
    case SendError(_) => Res([sn], {sn}, "", None)
  }

  function IndividualResults(order: seq<SectorNumber>, send: nat -> Sent): seq<Res> {
    seq(|order|, i requires 0 <= i < |order| => SingleResult(order[i], send(order[i])))
  }

  /** One message per queued sector. */
  method ProcessIndividually(order: seq<SectorNumber>, send: nat -> Sent) returns (results: seq<Res>)
    ensures results == IndividualResults(order, send)
  {
    results := [];
    for i := 0 to |order|
      invariant |results| == i && forall k :: 0 <= k < i ==> results[k] == SingleResult(order[k], send(order[k]))
    {
      results := results + [SingleResult(order[i], send(order[i]))];
    }
  }

  lemma {:induction false} IndividualLists(order: seq<SectorNumber>, results: seq<Res>, n: nat)
    requires |results| == |order| && n <= |order|
    requires forall i :: 0 <= i < |order| ==> results[i].sectors == [order[i]]
    ensures Listed(results, n) == Elements(order[..n])
    decreases n
  {
    if n > 0 {
      IndividualLists(order, results, n - 1);
      assert order[..n] == order[..n - 1] + [order[n - 1]];
    }
  }

  /** A round of single messages lists every queued sector. */
  lemma IndividualRoundListsAll(b: Batcher, order: seq<SectorNumber>, send: nat -> Sent)
    requires OrderOf(order, b.todo)
    ensures var results := IndividualResults(order, send);
      Listed(results, |results|) == b.todo.Keys && DeliverResults(b, results, |results|).todo == map[]
  {
    var results := IndividualResults(order, send);
    IndividualLists(order, results, |order|);
    assert order[..|order|] == order;
    ListedLeave(b, results, |results|);
  }

  /** A round of single messages serves everyone who waits, each with the result of its own sector. */
  lemma IndividualRoundServesAll(b: Batcher, order: seq<SectorNumber>, send: nat -> Sent, w: WaiterId)
    requires BatcherOk(b) && OrderOf(order, b.todo) && Waits(b, w)
    ensures var results := IndividualResults(order, send);
      var c := DeliverResults(b, results, |results|);
      && c.todo == map[]
      && w < |c.channels| && c.channels[w] == [SingleResult(b.owner[w], send(b.owner[w]))]
  {
    var results := IndividualResults(order, send);
    IndividualRoundListsAll(b, order, send);
    RoundServes(b, results, w);
    assert Served(b, w) && b.owner[w] in b.todo.Keys;
    SentAreResults(b, results, |results|, w);
    OwnResult(order, send, DeliverResults(b, results, |results|).channels[w], b.owner[w]);
  }

  lemma OwnResult(order: seq<SectorNumber>, send: nat -> Sent, got: seq<Res>, sn: SectorNumber)
    requires |got| == 1 && sn in got[0].sectors && forall r :: r in got ==> r in IndividualResults(order, send)
    ensures got == [SingleResult(sn, send(sn))]
  {
    assert got[0] in got;
  }

  /** Whatever a waiter is sent is a result of the round. */
  lemma {:induction false} SentAreResults(b: Batcher, results: seq<Res>, n: nat, w: WaiterId)
    requires w < |b.channels| && b.channels[w] == [] && n <= |results|
    ensures var c := DeliverResults(b, results, n).channels; w < |c| && forall r :: r in c[w] ==> r in results
    decreases n
  {
    if n > 0 {
      SentAreResults(b, results, n - 1, w);
      SomeSendOnly(DeliverResults(b, results, n - 1), results[n - 1], |results[n - 1].sectors|, w);
      assert results[n - 1] in results;
    }
  }

  lemma {:induction false} SomeSendOnly(b: Batcher, r: Res, n: nat, w: WaiterId)
    requires n <= |r.sectors| && w < |b.channels|
    ensures var c := DeliverSome(b, r, n).channels; w < |c| && forall x :: x in c[w] ==> x in b.channels[w] || x == r
    decreases n
  {
    if n > 0 {
      SomeSendOnly(b, r, n - 1, w);
      SectorSendsOnly(DeliverSome(b, r, n - 1), r.sectors[n - 1], r, w);
    }
  }

  lemma SectorSendsOnly(b: Batcher, sn: SectorNumber, r: Res, w: WaiterId)
    requires w < |b.channels|
    ensures var c := DeliverSector(b, sn, r).channels; w < |c| && forall x :: x in c[w] ==> x in b.channels[w] || x == r
  {
  }

  /** While a result is handed to the waiters of a sector, the next one's channel is still empty. */
  lemma WaiterIsFree(b: Batcher, sn: SectorNumber, i: nat, r: Res)
    requires BatcherOk(b) && i < |WaitersOf(b, sn)|
    ensures var ws := WaitersOf(b, sn);
      var before := SendTo(b.channels, ws[..i], r);
      && ws[i] < |before| && before[ws[i]] == []
      && SendTo(b.channels, ws[..i + 1], r) == before[ws[i] := [r]]
  {
    var ws := WaitersOf(b, sn);
    assert ws[..i + 1] == ws[..i] + [ws[i]];
    assert b.channels[ws[i]] + [r] == [r];
  }

  datatype BatchConfig = BatchConfig(minBatch: nat, maxBatch: nat, aboveBaseFee: bool)

  const MIN_AGGREGATED: nat := 4

  /** What a round asks the outside; None where a call failed. */
  datatype RoundEnv = RoundEnv(
    config: Option<BatchConfig>,
    blackout: Option<bool>,
    baseFeeLow: Option<bool>,
    minerKnown: bool,
    headKnown: bool,
    order: seq<SectorNumber>,
    collateral: nat -> Option<nat>,
    sent: Sent,
    send: nat -> Sent)

  datatype Mode = NoRound | RoundError | Individually | Aggregate(max: nat)

  /** What a round does, from the length of the queue, its trigger and the answers it gets. */
  function RoundMode(total: nat, notif: bool, env: RoundEnv): Mode {
    if total == 0 then NoRound
    else if env.config.None? then RoundError
    else if notif && total < env.config.value.maxBatch then NoRound
    else if env.blackout.None? then RoundError
    else
      var cfg := env.config.value;
      var few := total < cfg.minBatch || total < MIN_AGGREGATED || env.blackout.value;
      if !few && cfg.aboveBaseFee && env.baseFeeLow.None? then RoundError
      else if !env.headKnown then RoundError
      else if few || (cfg.aboveBaseFee && env.baseFeeLow.value)
      then if env.minerKnown then Individually else RoundError
      else Aggregate(cfg.maxBatch)
  }

  /** A round is due, and all it asks first is answered. */
  predicate Starts(total: nat, notif: bool, env: RoundEnv) {
    && total > 0 && env.config.Some? && (notif ==> total >= env.config.value.maxBatch)
    && env.blackout.Some? && env.headKnown
  }

  /** Single messages, because the queue is short or aggregates are not wanted at the time. */
  predicate TooFew(total: nat, env: RoundEnv)
    requires env.config.Some? && env.blackout.Some?
  {
    total < env.config.value.minBatch || total < MIN_AGGREGATED || env.blackout.value
  }

  /** When a round does nothing, aggregates, or sends single messages; in all other cases it fails. */
  lemma RoundModeExactly(total: nat, notif: bool, env: RoundEnv)
    ensures RoundMode(total, notif, env) == NoRound <==>
      total == 0 || (notif && env.config.Some? && total < env.config.value.maxBatch)
    ensures forall max :: RoundMode(total, notif, env) == Aggregate(max) <==>
      && Starts(total, notif, env) && !TooFew(total, env) && max == env.config.value.maxBatch
      && (env.config.value.aboveBaseFee ==> env.baseFeeLow == Some(false))
    ensures RoundMode(total, notif, env) == Individually <==>
      && Starts(total, notif, env) && env.minerKnown
      && (TooFew(total, env) || (env.config.value.aboveBaseFee && env.baseFeeLow == Some(true)))
  {
  }

  /**
   The round decides by the length of the queue, but the aggregate has only sectors with a known collateral, up to the
   limit: it has the least number the network takes if and only if the limit and the known collaterals allow it.
   */
  lemma AggregateReachesMinimumIff(order: seq<SectorNumber>, notif: bool, env: RoundEnv, max: nat)
    requires RoundMode(|order|, notif, env) == Aggregate(max)
    ensures |BatchInfos(order, env.collateral, max)| >= MIN_AGGREGATED <==>
      max >= MIN_AGGREGATED && |KnownOf(order, env.collateral)| >= MIN_AGGREGATED
    ensures (forall sn :: sn in order ==> env.collateral(sn).Some?) && max >= MIN_AGGREGATED ==>
      |BatchInfos(order, env.collateral, max)| >= MIN_AGGREGATED
  {
    BatchSize(order, env.collateral, max);
    RoundModeExactly(|order|, notif, env);
    if forall sn :: sn in order ==> env.collateral(sn).Some? { AllKnown(order, env.collateral); }
  }

  lemma {:induction false} AllKnown(order: seq<SectorNumber>, collateral: nat -> Option<nat>)
    requires forall sn :: sn in order ==> collateral(sn).Some?
    ensures KnownOf(order, collateral) == order
    decreases |order|
  {
    if order != [] {
      var n := |order| - 1;
      assert order == order[..n] + [order[n]];
      AllKnown(order[..n], collateral);
    }
  }

  /** The decisions at the start of a round, in the order they are made. */
  method ChooseMode(total: nat, notif: bool, env: RoundEnv) returns (mode: Mode)
    ensures mode == RoundMode(total, notif, env)
  {
    if total == 0 {
      return NoRound;
    }
    if env.config.None? {
      return RoundError;
    }
    var cfg := env.config.value;
    if notif && total < cfg.maxBatch {
      return NoRound;
    }
    if env.blackout.None? {
      return RoundError;
    }
    var individual := total < cfg.minBatch || total < MIN_AGGREGATED || env.blackout.value;
    if !individual && cfg.aboveBaseFee {
      if env.baseFeeLow.None? {
        return RoundError;
      }
      individual := env.baseFeeLow.value;
    }
    if !env.headKnown || (individual && !env.minerKnown) {
      return RoundError;
    }
    mode := if individual then Individually else Aggregate(cfg.maxBatch);
  }

  function ResultsOf(mode: Mode, env: RoundEnv): seq<Res> {
    match mode
    case Individually => IndividualResults(env.order, env.send)
    case Aggregate(max) => AggregateResults(env.order, env.collateral, max, env.sent)
    case _ => []
  }

  // ---------- the object ----------

  class CommitBatcher {
    var todo: map<SectorNumber, Input>
    var waiting: map<SectorNumber, seq<WaiterId>>
    var cutoffs: map<SectorNumber, int>
    var channels: seq<seq<Res>>
    ghost var owner: seq<SectorNumber>

    ghost function View(): Batcher
      reads this
    {
      Batcher(todo, waiting, cutoffs, owner, channels)
    }

    constructor ()
      ensures View() == EMPTY
    {
      todo, waiting, cutoffs, channels, owner := map[], map[], map[], [], [];
    }

    method AddCommit(sn: SectorNumber, input: Input, cutoff: int) returns (w: WaiterId)
      modifies this
      ensures View() == Add(old(View()), sn, input, cutoff) && w == old(|channels|)
    {
      cutoffs := cutoffs[sn := cutoff];
      todo := todo[sn := input];
      w := |channels|;
      channels := channels + [[]];
      owner := owner + [sn];
      waiting := waiting[sn := (if sn in waiting then waiting[sn] else []) + [w]];
    }

    /** A send that does not block: the channel has room for one result. */
    method Send(w: WaiterId, r: Res)
      requires w < |channels| && channels[w] == []
      modifies this`channels
      ensures channels == old(channels)[w := [r]]
    {
      assert channels[w] + [r] == [r];
      channels := channels[w := channels[w] + [r]];
    }

    method HandOutSector(sn: SectorNumber, r: Res)
      requires BatcherOk(View())
      modifies this
      ensures View() == DeliverSector(old(View()), sn, r)
    {
      var ws := if sn in waiting then waiting[sn] else [];
      ghost var start := channels;
      for i := 0 to |ws|
        invariant todo == old(todo) && waiting == old(waiting) && cutoffs == old(cutoffs) && owner == old(owner)
        invariant channels == SendTo(start, ws[..i], r)
      {
        WaiterIsFree(old(View()), sn, i, r);
        Send(ws[i], r);
      }
      assert ws[..|ws|] == ws;
      waiting := waiting - {sn};
      todo := todo - {sn};
      cutoffs := cutoffs - {sn};
    }

    /** Hand the results of a round to those who wait for them. */
    method HandOut(results: seq<Res>)
      requires BatcherOk(View())
      modifies this
      ensures View() == DeliverResults(old(View()), results, |results|) && BatcherOk(View())
    {
      ghost var start := View();
      for k := 0 to |results|
        invariant View() == DeliverResults(start, results, k) && BatcherOk(View())
      {
        HandOutResult(results[k]);
      }
    }

    method HandOutResult(r: Res)
      requires BatcherOk(View())
      modifies this
      ensures View() == DeliverSome(old(View()), r, |r.sectors|) && BatcherOk(View())
    {
      ghost var start := View();
      for j := 0 to |r.sectors|
        invariant View() == DeliverSome(start, r, j) && BatcherOk(View())
      {
        DeliverSectorKeepsOk(View(), r.sectors[j], r);
        HandOutSector(r.sectors[j], r);
      }
    }

    /** One round: nothing, one message per sector, or one aggregate; its results reach the waiters. */
    method MaybeStartBatch(notif: bool, env: RoundEnv) returns (results: seq<Res>, ok: bool)
      requires BatcherOk(View()) && OrderOf(env.order, todo)
      modifies this
      ensures BatcherOk(View())
      ensures View() == DeliverResults(old(View()), results, |results|)
      ensures results == ResultsOf(RoundMode(|old(todo)|, notif, env), env)
      ensures ok <==> RoundMode(|old(todo)|, notif, env) != RoundError
    {
      var mode := ChooseMode(|todo|, notif, env);
      results, ok := [], mode != RoundError;
      if mode.Individually? {
        results := ProcessIndividually(env.order, env.send);
      } else if mode.Aggregate? {
        var batch, _, _ := ProcessBatch(todo, env.order, env.collateral, mode.max, env.sent);
        results := batch;
      }
      HandOut(results);
    }
  }
}
