/** The scheduler's request queue: a slice kept sorted by re-sorting after every change. */
module RequestQueue {

  datatype TaskType =
    | DataCid | AddPiece | PreCommit1 | PreCommit2 | Commit1 | Commit2
    | Finalize | Fetch | Unseal
    | ReplicaUpdate | ProveReplicaUpdate1 | ProveReplicaUpdate2 | RegenSectorKey | FinalizeReplicaUpdate

  /** Smaller is more urgent; a task type missing from the table counts as 0. */
  function Order(t: TaskType): int {
    match t
    case RegenSectorKey => 11
    case DataCid => 10
    case AddPiece => 9
    case ReplicaUpdate => 8
    case ProveReplicaUpdate2 => 7
    case ProveReplicaUpdate1 => 6
    case PreCommit1 => 5
    case PreCommit2 => 4
    case Commit2 => 3
    case Commit1 => 2
    case Unseal => 1
    case FinalizeReplicaUpdate => 0
    case Fetch => -1
    case Finalize => -2
  }

  /** `id` is the identity of the request object. */
  datatype Request = Request(id: nat, task: TaskType, priority: int, sector: nat, proofType: nat)

  predicate Less(a: Request, b: Request) {
    var oa, ob := Order(a.task), Order(b.task);
    if (oa < 0) != (ob < 0) then oa < ob
    else if a.priority != b.priority then a.priority > b.priority
    else if a.task != b.task then oa < ob
    else a.sector < b.sector
  }

  /** The comparison is a strict order, so a sorted arrangement exists for every queue. */
  lemma LessIsStrictOrder(a: Request, b: Request, c: Request)
    ensures !Less(a, a)
    ensures Less(a, b) ==> !Less(b, a)
    ensures Less(a, b) && Less(b, c) ==> Less(a, c)
  {
  }

  /** What the library sort promises: nothing stands behind something it precedes. */
  ghost predicate Sorted(q: seq<Request>) {
    forall i, j :: 0 <= i < j < |q| ==> !Less(q[j], q[i])
  }

  ghost predicate Distinct(q: seq<Request>) {
    forall i, j :: 0 <= i < j < |q| ==> Less(q[i], q[j]) || Less(q[j], q[i])
  }

  /** Every request object is queued once. */
  ghost predicate Unique(q: seq<Request>) { forall i, j :: 0 <= i < j < |q| ==> q[i] != q[j] }

  lemma {:induction false} SameHead(p: seq<Request>, q: seq<Request>)
    requires p != [] && Sorted(p) && Sorted(q) && multiset(p) == multiset(q) && Distinct(p)
    ensures q != [] && p[0] == q[0]
  {
    assert p[0] in multiset(p) && p[0] in multiset(q);
    var j :| 0 <= j < |q| && q[j] == p[0];
    assert q[0] in multiset(q) && q[0] in multiset(p);
    var i :| 0 <= i < |p| && p[i] == q[0];
  }

  lemma TailMultiset(q: seq<Request>)
    requires q != []
    ensures multiset(q[1..]) == multiset(q) - multiset{q[0]}
  {
    assert q == [q[0]] + q[1..];
  }

  /** A queue whose requests are pairwise distinct has exactly one sorted arrangement. */
  lemma {:induction false} SortedIsUnique(p: seq<Request>, q: seq<Request>)
    requires Sorted(p) && Sorted(q) && multiset(p) == multiset(q) && Distinct(p)
    ensures p == q
  {
    if p == [] {
      assert |multiset(q)| == |q|;
    } else {
      SameHead(p, q);
      TailMultiset(p);
      TailMultiset(q);
      assert Sorted(p[1..]) && Sorted(q[1..]) && Distinct(p[1..]);
      SortedIsUnique(p[1..], q[1..]);
      assert p == [p[0]] + p[1..] && q == [q[0]] + q[1..];
    }
  }

  lemma {:induction false} LessAcross(q: seq<Request>, i: nat, j: nat)
    requires i < j < |q|
    requires forall k :: 0 <= k < |q| - 1 ==> Less(q[k], q[k + 1])
    ensures Less(q[i], q[j])
    decreases j - i
  {
    assert Less(q[j - 1], q[j - 1 + 1]);
    if i < j - 1 {
      LessAcross(q, i, j - 1);
      LessIsStrictOrder(q[i], q[j - 1], q[j]);
    }
  }

  function Swapped(q: seq<Request>, k: nat): seq<Request>
    requires k + 1 < |q|
  {
    q[k := q[k + 1]][k + 1 := q[k]]
  }

  /** Two neighbours that do not precede each other may stand either way round. */
  lemma SwapKeepsSorted(q: seq<Request>, k: nat)
    requires k + 1 < |q| && Sorted(q) && !Less(q[k], q[k + 1])
    ensures Sorted(Swapped(q, k)) && multiset(Swapped(q, k)) == multiset(q)
  {
    var p := Swapped(q, k);
    forall i, j | 0 <= i < j < |p| ensures !Less(p[j], p[i]) {
      if !(i == k && j == k + 1) {
        var i', j' := (if i == k then k + 1 else if i == k + 1 then k else i),
          (if j == k then k + 1 else if j == k + 1 then k else j);
        assert p[i] == q[i'] && p[j] == q[j'] && i' < j';
      }
    }
  }

  /** The sort of a sorted queue has a single possible outcome if and only if the requests are pairwise distinct. */
  lemma SortedUniqueIffDistinct(q: seq<Request>)
    requires Sorted(q) && Unique(q)
    ensures Distinct(q) <==> forall p :: Sorted(p) && multiset(p) == multiset(q) ==> p == q
  {
    if Distinct(q) {
      forall p | Sorted(p) && multiset(p) == multiset(q) ensures p == q {
        SortedIsUnique(q, p);
      }
    } else if forall k :: 0 <= k < |q| - 1 ==> Less(q[k], q[k + 1]) {
      forall i, j | 0 <= i < j < |q| ensures Less(q[i], q[j]) {
        LessAcross(q, i, j);
      }
    } else {
      var k :| 0 <= k < |q| - 1 && !Less(q[k], q[k + 1]);
      SwapKeepsSorted(q, k);
      assert Swapped(q, k)[k] != q[k];
    }
  }

  /** Drop the request at `i`. */
  function Without(q: seq<Request>, i: nat): seq<Request>
    requires i < |q|
  {
    q[..i] + q[i + 1..]
  }

  lemma WithoutKeepsSorted(q: seq<Request>, i: nat)
    requires i < |q| && Sorted(q)
    ensures Sorted(Without(q, i))
    ensures multiset(Without(q, i)) == multiset(q) - multiset{q[i]}
  {
    assert q == q[..i] + [q[i]] + q[i + 1..];
  }

  lemma WithoutKeepsDistinct(q: seq<Request>, i: nat)
    requires i < |q| && Distinct(q)
    ensures Distinct(Without(q, i))
  {
  }

  /** Put `x` in front of the first request it precedes. */
  method InsertSorted(q: seq<Request>, x: Request) returns (r: seq<Request>)
    requires Sorted(q)
    ensures Sorted(r) && multiset(r) == multiset(q) + multiset{x}
  {
    var i := 0;
    while i < |q| && !Less(x, q[i])
      invariant 0 <= i <= |q|
      invariant forall k :: 0 <= k < i ==> !Less(x, q[k])
    {
      i := i + 1;
    }
    r := q[..i] + [x] + q[i..];
    InsertKeepsSorted(q, i, x);
    InsertAdds(q, i, x);
  }

  lemma InsertKeepsSorted(q: seq<Request>, i: nat, x: Request)
    requires Sorted(q) && i <= |q| && (forall k :: 0 <= k < i ==> !Less(x, q[k])) && (i < |q| ==> Less(x, q[i]))
    ensures Sorted(q[..i] + [x] + q[i..])
  {
    forall k | i <= k < |q| ensures !Less(q[k], x) { LessIsStrictOrder(q[k], x, q[i]); }
  }

  lemma InsertAdds(q: seq<Request>, i: nat, x: Request)
    requires i <= |q|
    ensures multiset(q[..i] + [x] + q[i..]) == multiset(q) + multiset{x}
  {
    assert q == q[..i] + q[i..];
  }

  /** The library sort: the contract is all that callers may rely on. */
  method Sort(q: seq<Request>) returns (r: seq<Request>)
    ensures Sorted(r) && multiset(r) == multiset(q)
  {
    r := [];
    for i := 0 to |q|
      invariant Sorted(r) && multiset(r) == multiset(q[..i])
    {
      r := InsertSorted(r, q[i]);
      assert q[..i + 1] == q[..i] + [q[i]];
    }
    assert q[..|q|] == q;
  }

  /** Increasing positions of the queue. */
  predicate Positions(q: seq<Request>, rm: seq<nat>) {
    && (forall k :: 0 <= k < |rm| ==> rm[k] < |q|)
    && (forall j, k :: 0 <= j < k < |rm| ==> rm[j] < rm[k])
  }

  /** The queue after the request at `i` is removed: any sorted arrangement of the others. */
  ghost predicate Removed(q: seq<Request>, i: nat, r: seq<Request>)
    requires i < |q|
  {
    Sorted(r) && multiset(r) == multiset(q) - multiset{q[i]}
  }

  /** Removing the positions from the last to the first, with some outcome of each sort, leaves `r`. */
  ghost predicate CanLeave(q: seq<Request>, rm: seq<nat>, r: seq<Request>)
    decreases |rm|
  {
    if rm == [] then r == q
    else
      var n := |rm| - 1;
      rm[n] < |q| && exists p :: Removed(q, rm[n], p) && CanLeave(p, rm[..n], r)
  }

  /** The removals still to come, after the ones done on the way from `q` to `p`. */
  ghost predicate LeavesRest(q: seq<Request>, rm: seq<nat>, p: seq<Request>, i: nat)
    requires i <= |rm|
  {
    forall r :: CanLeave(p, rm[..i], r) ==> CanLeave(q, rm, r)
  }

  lemma LeavesNext(q: seq<Request>, rm: seq<nat>, p: seq<Request>, i: nat, t: seq<Request>)
    requires i < |rm| && rm[i] < |p| && Removed(p, rm[i], t) && LeavesRest(q, rm, p, i + 1)
    ensures LeavesRest(q, rm, t, i)
  {
    assert rm[..i + 1][..i] == rm[..i];
    forall r | CanLeave(t, rm[..i], r) ensures CanLeave(q, rm, r) {
      assert CanLeave(p, rm[..i + 1], r);
    }
  }

  class Queue {
    var items: seq<Request>

    constructor ()
      ensures items == []
    {
      items := [];
    }

    method Push(x: Request)
      modifies this
      ensures Sorted(items)
      ensures multiset(items) == old(multiset(items)) + multiset{x}
    {
      items := Sort(items + [x]);
    }

    /**
     Overwrite the slot with the last request, shrink and re-sort.  On a sorted queue of
     pairwise distinct requests this removes exactly the one at `i` and moves no other.
     */
    method Remove(i: nat) returns (item: Request)
      requires i < |items|
      modifies this
      ensures item == old(items)[i]
      ensures Sorted(items)
      ensures multiset(items) == old(multiset(items)) - multiset{item}
      ensures Sorted(old(items)) && Distinct(old(items)) ==> items == Without(old(items), i)
    {
      var n := |items|;
      ghost var q := items;
      item := items[i];
      var shrunk := items[i := items[n - 1]][..n - 1];
      SwapOut(q, i);
      items := Sort(shrunk);
      if Sorted(q) && Distinct(q) {
        WithoutKeepsSorted(q, i);
        WithoutKeepsDistinct(q, i);
        SortedIsUnique(Without(q, i), items);
      }
    }

    /** Remove the queue positions in `rm`, which are increasing, starting from the last one. */
    method RemoveAll(rm: seq<nat>)
      requires Sorted(items) && Positions(items, rm)
      modifies this
      ensures CanLeave(old(items), rm, items)
      ensures Sorted(items)
      ensures Distinct(old(items)) ==> items == WithoutAll(old(items), rm, 0) && Distinct(items)
    {
      ghost var q := items;
      var i := |rm|;
      assert rm[..i] == rm;
      while i > 0
        invariant 0 <= i <= |rm| && Sorted(items) && |items| == |q| - (|rm| - i)
        invariant LeavesRest(q, rm, items, i)
        invariant Distinct(q) ==> Distinct(items) && items == WithoutAll(q, rm, i)
      {
        i := i - 1;
        ghost var p := items;
        PositionBound(q, rm, i);
        var item := Remove(rm[i]);
        assert |multiset(items)| == |multiset(p)| - 1;
        LeavesNext(q, rm, p, i, items);
        if Distinct(q) {
          RemovesNext(q, rm, i);
          WithoutKeepsDistinct(p, rm[i]);
        }
      }
    }
  }

  /** Behind a position there is room for all later ones. */
  lemma {:induction false} PositionBound(q: seq<Request>, rm: seq<nat>, i: nat)
    requires Positions(q, rm) && i < |rm|
    ensures rm[i] < |q| - (|rm| - 1 - i)
    decreases |rm| - i
  {
    if i + 1 < |rm| { PositionBound(q, rm, i + 1); }
  }

  lemma RemovesNext(q: seq<Request>, rm: seq<nat>, i: nat)
    requires i < |rm|
    requires Positions(q, rm)
    ensures var rest := WithoutAll(q, rm, i + 1); rm[i] < |rest| && WithoutAll(q, rm, i) == Without(rest, rm[i])
  {
  }

  lemma SwapOut(q: seq<Request>, i: nat)
    requires i < |q|
    ensures multiset(q[i := q[|q| - 1]][..|q| - 1]) == multiset(q) - multiset{q[i]}
  {
    var n := |q| - 1;
    if i == n {
      assert q == q[..n] + [q[n]] && q[i := q[n]][..n] == q[..n];
    } else {
      var a, b := q[..i], q[i + 1..n];
      assert q == a + [q[i]] + b + [q[n]];
      assert q[i := q[n]][..n] == a + [q[n]] + b;
      DropOne(a, q[i], b, q[n]);
    }
  }

  lemma DropOne(a: seq<Request>, x: Request, b: seq<Request>, y: Request)
    ensures multiset(a + [y] + b) == multiset(a + [x] + b + [y]) - multiset{x}
  {
  }

  /** Remove positions rm[from..], highest first; positions below the lowest of them keep their index. */
  ghost function WithoutAll(q: seq<Request>, rm: seq<nat>, from: nat): (r: seq<Request>)
    requires from <= |rm|
    requires Positions(q, rm)
    ensures from < |rm| ==> rm[from] <= |r| && r[..rm[from]] == q[..rm[from]]
    ensures from == |rm| ==> r == q
    decreases |rm| - from
  {
    if from == |rm| then q
    else
      var rest := WithoutAll(q, rm, from + 1);
      assert from + 1 < |rm| ==> rest[..rm[from + 1]][rm[from]] == q[..rm[from + 1]][rm[from]];
      Without(rest, rm[from])
  }
}
