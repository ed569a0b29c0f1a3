/**
 The commit and precommit batchers: sectors queue with a cutoff and a waiter, and rounds hand results to the waiters.
 */
module Batcher {
  import opened Options

  type SectorNumber = nat
  type WaiterId = nat

  datatype Input = Input(proof: nat, spt: nat)

  /** The result of one message: the sectors it is for, those that failed in it, its id, or an error. */
  datatype Res = Res(sectors: seq<SectorNumber>, failed: set<SectorNumber>, message: string, error: Option<string>)

  /**
   The state under the lock. Waiters are numbered as they register: owner is the sector each registered for, channels
   what has been sent to each so far; a channel holds one result before a send would block.
   */
  datatype Batcher = Batcher(
    todo: map<SectorNumber, Input>,
    waiting: map<SectorNumber, seq<WaiterId>>,
    cutoffs: map<SectorNumber, int>,
    owner: seq<SectorNumber>,
    channels: seq<seq<Res>>)

  const EMPTY := Batcher(map[], map[], map[], [], [])

  function WaitersOf(b: Batcher, sn: SectorNumber): seq<WaiterId> { if sn in b.waiting then b.waiting[sn] else [] }

  /** Registering a sector: a second registration replaces its input and cutoff and adds a waiter. */
  function Add(b: Batcher, sn: SectorNumber, input: Input, cutoff: int): Batcher {
    Batcher(b.todo[sn := input], b.waiting[sn := WaitersOf(b, sn) + [|b.channels|]], b.cutoffs[sn := cutoff],
            b.owner + [sn], b.channels + [[]])
  }

  /** A result sent to the given waiters. */
  function SendTo(channels: seq<seq<Res>>, ws: seq<WaiterId>, r: Res): (c: seq<seq<Res>>)
    ensures |c| == |channels|
  {
    seq(|channels|, w requires 0 <= w < |channels| => if w in ws then channels[w] + [r] else channels[w])
  }

  /** A result handed to the waiters of one of its sectors, which then leaves the queue. */
  function DeliverSector(b: Batcher, sn: SectorNumber, r: Res): Batcher {
    Batcher(b.todo - {sn}, b.waiting - {sn}, b.cutoffs - {sn}, b.owner, SendTo(b.channels, WaitersOf(b, sn), r))
  }

  /** The first n sectors of a result. */
  function DeliverSome(b: Batcher, r: Res, n: nat): Batcher
    requires n <= |r.sectors|
  {
    if n == 0 then b else DeliverSector(DeliverSome(b, r, n - 1), r.sectors[n - 1], r)
  }

  /** The first n results of a round. */
  function DeliverResults(b: Batcher, results: seq<Res>, n: nat): Batcher
    requires n <= |results|
  {
    if n == 0 then b
    else DeliverSome(DeliverResults(b, results, n - 1), results[n - 1], |results[n - 1].sectors|)
  }

  // ---------- what always holds ----------

  predicate Waits(b: Batcher, w: WaiterId) { w < |b.owner| && w in WaitersOf(b, b.owner[w]) }

  /** Queue, waiters and cutoffs are for the same sectors. */
  predicate SameSectors(b: Batcher) { b.todo.Keys == b.waiting.Keys == b.cutoffs.Keys && |b.owner| == |b.channels| }

  /** The waiters of a sector registered for it, once each, and their channels are empty. */
  ghost predicate ListOk(ws: seq<WaiterId>, sn: SectorNumber, owner: seq<SectorNumber>, channels: seq<seq<Res>>) {
    && (forall i :: 0 <= i < |ws| ==>
      ws[i] < |owner| && ws[i] < |channels| && owner[ws[i]] == sn && channels[ws[i]] == [])
    && (forall i, j :: 0 <= i < j < |ws| ==> ws[i] != ws[j])
  }

  ghost predicate WaitersOk(b: Batcher) {
    forall sn :: sn in b.waiting ==> ListOk(b.waiting[sn], sn, b.owner, b.channels)
  }

  /** A waiter is waiting with an empty channel, or was sent exactly one result, which lists its sector. */
  predicate Served(b: Batcher, w: WaiterId)
    requires w < |b.owner| && w < |b.channels|
  {
    if Waits(b, w) then b.channels[w] == [] else |b.channels[w]| == 1 && b.owner[w] in b.channels[w][0].sectors
  }

  ghost predicate BatcherOk(b: Batcher) {
    && SameSectors(b)
    && WaitersOk(b)
    && (forall w :: 0 <= w < |b.owner| ==> Served(b, w))
  }

  lemma ListOkGrows(ws: seq<WaiterId>, sn: SectorNumber, b: Batcher, other: SectorNumber)
    requires SameSectors(b) && ListOk(ws, sn, b.owner, b.channels)
    ensures ListOk(ws, sn, b.owner + [other], b.channels + [[]])
    ensures ListOk(ws + [|b.channels|], sn, b.owner + [sn], b.channels + [[]])
  {
  }

  lemma AddServes(b: Batcher, sn: SectorNumber, input: Input, cutoff: int, w: WaiterId)
    requires SameSectors(b) && w <= |b.owner| && (w < |b.owner| ==> Served(b, w))
    ensures Served(Add(b, sn, input, cutoff), w)
  {
    var c := Add(b, sn, input, cutoff);
    if w < |b.owner| {
      assert Waits(c, w) <==> Waits(b, w);
    } else {
      assert w in c.waiting[sn] && Waits(c, w);
    }
  }

  lemma AddKeepsOk(b: Batcher, sn: SectorNumber, input: Input, cutoff: int)
    requires BatcherOk(b)
    ensures BatcherOk(Add(b, sn, input, cutoff))
  {
    var c := Add(b, sn, input, cutoff);
    ListOkGrows([], sn, b, sn);
    forall k | k in c.waiting ensures ListOk(c.waiting[k], k, c.owner, c.channels) {
      if k in b.waiting { ListOkGrows(b.waiting[k], k, b, sn); }
    }
    forall w | 0 <= w < |c.owner| ensures Served(c, w) { AddServes(b, sn, input, cutoff, w); }
  }

  lemma DeliverSectorKeepsOk(b: Batcher, sn: SectorNumber, r: Res)
    requires BatcherOk(b) && sn in r.sectors
    ensures BatcherOk(DeliverSector(b, sn, r))
  {
    var c := DeliverSector(b, sn, r);
    forall k | k in c.waiting ensures ListOk(c.waiting[k], k, c.owner, c.channels) {
      assert ListOk(b.waiting[k], k, b.owner, b.channels);
    }
    forall w | 0 <= w < |c.owner| ensures Served(c, w) {
      assert Served(b, w);
    }
  }

  lemma {:induction false} DeliverSomeKeepsOk(b: Batcher, r: Res, n: nat)
    requires BatcherOk(b) && n <= |r.sectors|
    ensures BatcherOk(DeliverSome(b, r, n))
    decreases n
  {
    if n > 0 {
      DeliverSomeKeepsOk(b, r, n - 1);
      DeliverSectorKeepsOk(DeliverSome(b, r, n - 1), r.sectors[n - 1], r);
    }
  }

  lemma {:induction false} DeliverKeepsOk(b: Batcher, results: seq<Res>, n: nat)
    requires BatcherOk(b) && n <= |results|
    ensures BatcherOk(DeliverResults(b, results, n))
    decreases n
  {
    if n > 0 {
      DeliverKeepsOk(b, results, n - 1);
      DeliverSomeKeepsOk(DeliverResults(b, results, n - 1), results[n - 1], |results[n - 1].sectors|);
    }
  }

  // ---------- whole runs ----------

  /** Something registers, or a round ends with some results: whichever they are. */
  datatype Step = Register(sn: SectorNumber, input: Input, cutoff: int) | Round(results: seq<Res>)

  function Next(b: Batcher, s: Step): Batcher {
    match s
    case Register(sn, input, cutoff) => Add(b, sn, input, cutoff)
    case Round(results) => DeliverResults(b, results, |results|)
  }

  ghost predicate IsRun(run: seq<Batcher>, steps: seq<Step>) {
    && |run| == |steps| + 1
    && run[0] == EMPTY
    && forall k :: 0 <= k < |steps| ==> run[k + 1] == Next(run[k], steps[k])
  }

  lemma {:induction false} RunKeepsOk(run: seq<Batcher>, steps: seq<Step>, k: nat)
    requires IsRun(run, steps) && k <= |steps|
    ensures BatcherOk(run[k])
  {
    if k > 0 {
      RunKeepsOk(run, steps, k - 1);
      match steps[k - 1]
      case Register(sn, input, cutoff) => AddKeepsOk(run[k - 1], sn, input, cutoff);
      case Round(results) => DeliverKeepsOk(run[k - 1], results, |results|);
    }
  }

  /** Over every run no waiter is forgotten, none gets two results, and none gets a result for another sector. */
  lemma WaitersAreServedOnce(run: seq<Batcher>, steps: seq<Step>, k: nat, w: WaiterId)
    requires IsRun(run, steps) && k <= |steps| && w < |run[k].owner|
    ensures run[k].todo.Keys == run[k].waiting.Keys == run[k].cutoffs.Keys && w < |run[k].channels|
    ensures var b := run[k];
      if b.channels[w] == [] then Waits(b, w)
      else |b.channels[w]| == 1 && b.owner[w] in b.channels[w][0].sectors && !Waits(b, w)
  {
    RunKeepsOk(run, steps, k);
    assert Served(run[k], w);
  }

  // ---------- what a round does to the queue ----------

  function Elements(s: seq<SectorNumber>): set<SectorNumber> { set sn | sn in s }

  /** The sectors the first n results of a round list. */
  function Listed(results: seq<Res>, n: nat): set<SectorNumber>
    requires n <= |results|
  {
    if n == 0 then {} else Listed(results, n - 1) + Elements(results[n - 1].sectors)
  }

  lemma {:induction false} SomeLeave(b: Batcher, r: Res, n: nat)
    requires n <= |r.sectors|
    ensures DeliverSome(b, r, n).todo == b.todo - Elements(r.sectors[..n])
    ensures DeliverSome(b, r, n).owner == b.owner
    decreases n
  {
    if n > 0 {
      SomeLeave(b, r, n - 1);
      assert r.sectors[..n] == r.sectors[..n - 1] + [r.sectors[n - 1]];
    }
  }

  /** Exactly the listed sectors leave the queue; the others keep their input. */
  lemma {:induction false} ListedLeave(b: Batcher, results: seq<Res>, n: nat)
    requires n <= |results|
    ensures DeliverResults(b, results, n).todo == b.todo - Listed(results, n)
    ensures DeliverResults(b, results, n).owner == b.owner
    decreases n
  {
    if n > 0 {
      ListedLeave(b, results, n - 1);
      var r := results[n - 1];
      SomeLeave(DeliverResults(b, results, n - 1), r, |r.sectors|);
      assert r.sectors[..|r.sectors|] == r.sectors;
    }
  }

  /** After a round, a waiter of a listed sector has its result, and a waiter of any other sector still waits. */
  lemma RoundServes(b: Batcher, results: seq<Res>, w: WaiterId)
    requires BatcherOk(b) && Waits(b, w)
    ensures var c := DeliverResults(b, results, |results|);
      && w < |c.channels| && w < |c.owner|
      && (b.owner[w] in Listed(results, |results|) ==> |c.channels[w]| == 1 && b.owner[w] in c.channels[w][0].sectors)
      && (b.owner[w] !in Listed(results, |results|) ==> Waits(c, w) && c.channels[w] == [])
  {
    var c := DeliverResults(b, results, |results|);
    DeliverKeepsOk(b, results, |results|);
    ListedLeave(b, results, |results|);
    assert Served(c, w);
    if b.owner[w] !in Listed(results, |results|) { UnlistedKeepWaiting(b, results, |results|, w); }
  }

  lemma {:induction false} UnlistedInResult(b: Batcher, r: Res, n: nat, w: WaiterId)
    requires n <= |r.sectors| && Waits(b, w) && b.owner[w] !in r.sectors
    ensures Waits(DeliverSome(b, r, n), w)
    decreases n
  {
    SomeLeave(b, r, n);
    if n > 0 { UnlistedInResult(b, r, n - 1, w); }
  }

  lemma {:induction false} UnlistedKeepWaiting(b: Batcher, results: seq<Res>, n: nat, w: WaiterId)
    requires n <= |results| && Waits(b, w) && b.owner[w] !in Listed(results, n)
    ensures Waits(DeliverResults(b, results, n), w)
    decreases n
  {
    if n > 0 {
      UnlistedKeepWaiting(b, results, n - 1, w);
      ListedLeave(b, results, n - 1);
      UnlistedInResult(DeliverResults(b, results, n - 1), results[n - 1], |results[n - 1].sectors|, w);
    }
  }
}
