/**
 When removing by position is right.  Positions are found in one arrangement of the queue and used in later ones: after
 every removal the queue is sorted anew, and requests that do not precede each other may change places.
 */
module QueueRemoval {
  import opened RequestQueue

  /** Neither precedes the other. */
  predicate Tied(a: Request, b: Request) { !Less(a, b) && !Less(b, a) }

  /** `r` holds exactly the requests of `q` at the positions that are not in `rm`. */
  ghost predicate LeavesUnpicked(q: seq<Request>, rm: seq<nat>, r: seq<Request>) {
    Unique(r) && forall x :: x in r <==> x in Unpicked(q, rm)
  }

  ghost function Unpicked(q: seq<Request>, rm: seq<nat>): set<Request> {
    set u | 0 <= u < |q| && u !in rm :: q[u]
  }

  ghost function Picked(q: seq<Request>, rm: seq<nat>): set<Request>
    requires Positions(q, rm)
  {
    set k | 0 <= k < |rm| :: q[rm[k]]
  }

  /** No picked request, but for the last one, is tied with one that is not picked. */
  ghost predicate TiesPickedTogether(q: seq<Request>, rm: seq<nat>)
    requires Positions(q, rm)
  {
    forall k, u :: 0 <= k < |rm| - 1 && 0 <= u < |q| && u !in rm ==> !Tied(q[rm[k]], q[u])
  }

  // ----- sorted arrangements agree up to ties -----

  lemma TiedIsEquivalence(a: Request, b: Request, c: Request)
    ensures Tied(a, a) && (Tied(a, b) ==> Tied(b, a))
    ensures Tied(a, b) && Tied(b, c) ==> Tied(a, c)
    ensures Tied(a, b) ==> (Less(a, c) <==> Less(b, c)) && (Less(c, a) <==> Less(c, b))
  {
  }

  /** Up to the first place of the first request of another arrangement, all are tied with it. */
  lemma TiedUpTo(p: seq<Request>, q: seq<Request>, j: nat, i: nat)
    requires Sorted(p) && Sorted(q) && multiset(p) == multiset(q) && i <= j < |q| && p != [] && q[j] == p[0]
    ensures Tied(q[i], p[0])
  {
    assert q[i] in multiset(q) && q[i] in multiset(p);
    var k :| 0 <= k < |p| && p[k] == q[i];
    if k == 0 { TiedIsEquivalence(q[i], q[i], q[i]); }
    if i == j { TiedIsEquivalence(q[i], q[i], q[i]); }
  }

  /** A request at or before the place of the other arrangement's first one is tied with its neighbour before. */
  lemma TiedNeighbours(p: seq<Request>, q: seq<Request>, j: nat, i: nat, x: Request)
    requires Sorted(p) && Sorted(q) && multiset(p) == multiset(q) && 0 < i <= j < |q| && p != [] && q[j] == p[0]
    requires Tied(x, q[i - 1])
    ensures Tied(x, q[i])
  {
    TiedUpTo(p, q, j, i - 1);
    TiedUpTo(p, q, j, i);
    TiedIsEquivalence(x, q[i - 1], p[0]);
    TiedIsEquivalence(x, p[0], q[i]);
  }

  /** Two sorted arrangements of the same requests are tied place by place. */
  lemma {:induction false} SortedAreTied(p: seq<Request>, q: seq<Request>, i: nat)
    requires Sorted(p) && Sorted(q) && multiset(p) == multiset(q) && i < |p|
    ensures i < |q| && Tied(p[i], q[i])
    decreases |p|
  {
    assert |multiset(p)| == |p| && |multiset(q)| == |q|;
    assert p[0] in multiset(q);
    var j :| 0 <= j < |q| && q[j] == p[0];
    if i == 0 {
      TiedUpTo(p, q, j, 0);
    } else {
      TailsAreArrangements(p, q, j);
      SortedAreTied(p[1..], Without(q, j), i - 1);
      if i <= j { TiedNeighbours(p, q, j, i, p[i]); }
    }
  }

  lemma TailsAreArrangements(p: seq<Request>, q: seq<Request>, j: nat)
    requires Sorted(p) && Sorted(q) && multiset(p) == multiset(q) && p != [] && j < |q| && q[j] == p[0]
    ensures Sorted(p[1..]) && Sorted(Without(q, j)) && multiset(p[1..]) == multiset(Without(q, j))
  {
    TailMultiset(p);
    WithoutKeepsSorted(q, j);
  }

  // ----- the condition suffices -----

  /** All that can be taken for a pick, but for the last, is in `picked`. */
  ghost predicate TakesPicked(q: seq<Request>, rm: seq<nat>, picked: set<Request>)
    requires Positions(q, rm)
  {
    && (forall k :: 0 <= k < |rm| ==> q[rm[k]] in picked)
    && (forall k, u :: 0 <= k < |rm| - 1 && 0 <= u < |q| && Tied(q[rm[k]], q[u]) ==> q[u] in picked)
  }

  lemma RemovedIsTied(q: seq<Request>, i: nat, p: seq<Request>, j: nat)
    requires Sorted(q) && i < |q| && Removed(q, i, p) && j < i
    ensures |p| == |q| - 1 && Tied(q[j], p[j])
  {
    WithoutKeepsSorted(q, i);
    assert |multiset(p)| == |multiset(Without(q, i))|;
    SortedAreTied(Without(q, i), p, j);
  }

  lemma RemovedIsFrom(q: seq<Request>, i: nat, p: seq<Request>)
    requires Unique(q) && i < |q| && Removed(q, i, p)
    ensures |p| == |q| - 1 && Unique(p) && forall x :: x in p <==> x in q && x != q[i]
  {
    UniqueCounts(q);
    assert |multiset(p)| == |multiset(q)| - 1;
    forall x ensures x in p <==> x in q && x != q[i] {
      assert x in p <==> x in multiset(p);
      assert x in q <==> x in multiset(q);
    }
    CountsUnique(p);
  }

  lemma {:induction false} UniqueCounts(q: seq<Request>)
    requires Unique(q)
    ensures forall x :: multiset(q)[x] <= 1
  {
    if q != [] {
      UniqueCounts(q[1..]);
      assert q[0] !in q[1..] && q == [q[0]] + q[1..];
      forall x ensures multiset(q)[x] <= 1 { assert multiset(q)[x] == multiset([q[0]])[x] + multiset(q[1..])[x]; }
    }
  }

  lemma CountsUnique(q: seq<Request>)
    requires forall x :: multiset(q)[x] <= 1
    ensures Unique(q)
  {
    forall i, j | 0 <= i < j < |q| ensures q[i] != q[j] {
      assert q == q[..i] + [q[i]] + q[i + 1..j] + [q[j]] + q[j + 1..];
      assert multiset(q)[q[j]] <= 1;
    }
  }

  lemma TakesPickedNext(q: seq<Request>, rm: seq<nat>, picked: set<Request>, p: seq<Request>)
    requires Sorted(q) && Unique(q) && rm != [] && Positions(q, rm) && TakesPicked(q, rm, picked)
    requires Removed(q, rm[|rm| - 1], p)
    ensures Positions(p, rm[..|rm| - 1]) && TakesPicked(p, rm[..|rm| - 1], picked)
  {
    var n := |rm| - 1;
    RemovedIsFrom(q, rm[n], p);
    forall k | 0 <= k < n ensures rm[k] < |p| && Tied(q[rm[k]], p[rm[k]]) {
      RemovedIsTied(q, rm[n], p, rm[k]);
    }
    forall k, u | 0 <= k < n && 0 <= u < |p| && Tied(p[rm[k]], p[u]) ensures p[u] in picked {
      TiedIsEquivalence(q[rm[k]], p[rm[k]], p[u]);
      assert p[u] in q;
      var v :| 0 <= v < |q| && q[v] == p[u];
    }
    forall k | 0 <= k < n ensures p[rm[k]] in picked {
      TiedIsEquivalence(p[rm[k]], p[rm[k]], p[rm[k]]);
    }
  }

  /** Then only such requests leave the queue. */
  lemma {:induction false} OnlyPickedLeave(q: seq<Request>, rm: seq<nat>, picked: set<Request>, r: seq<Request>)
    requires Sorted(q) && Unique(q) && Positions(q, rm) && TakesPicked(q, rm, picked) && CanLeave(q, rm, r)
    ensures Unique(r) && |r| == |q| - |rm|
    ensures forall x :: x in q && x !in picked ==> x in r
    decreases |rm|
  {
    if rm != [] {
      var n := |rm| - 1;
      var p :| Removed(q, rm[n], p) && CanLeave(p, rm[..n], r);
      RemovedIsFrom(q, rm[n], p);
      TakesPickedNext(q, rm, picked, p);
      OnlyPickedLeave(p, rm[..n], picked, r);
    }
  }

  ghost function Elements(q: seq<Request>): set<Request> { set x | x in q }

  lemma {:induction false} UniqueSize(q: seq<Request>)
    requires Unique(q)
    ensures |Elements(q)| == |q|
  {
    if q != [] {
      UniqueSize(q[1..]);
      assert Elements(q) == {q[0]} + Elements(q[1..]);
    }
  }

  ghost function Pick(q: seq<Request>, rm: seq<nat>): seq<Request>
    requires Positions(q, rm)
  {
    seq(|rm|, k requires 0 <= k < |rm| => q[rm[k]])
  }

  lemma PickedSize(q: seq<Request>, rm: seq<nat>)
    requires Unique(q) && Positions(q, rm)
    ensures |Picked(q, rm)| == |rm|
  {
    var s := Pick(q, rm);
    forall x | x in Picked(q, rm) ensures x in s {
      var k :| 0 <= k < |rm| && q[rm[k]] == x;
      assert s[k] == x;
    }
    assert Elements(s) == Picked(q, rm);
    assert Unique(s);
    UniqueSize(s);
  }

  lemma PickedOrNot(q: seq<Request>, rm: seq<nat>)
    requires Unique(q) && Positions(q, rm)
    ensures Elements(q) == Picked(q, rm) + Unpicked(q, rm)
  {
    forall x | x in Elements(q) ensures x in Picked(q, rm) + Unpicked(q, rm) {
      var u :| 0 <= u < |q| && q[u] == x;
      if u in rm { var k :| 0 <= k < |rm| && rm[k] == u; }
    }
  }

  lemma NotBoth(q: seq<Request>, rm: seq<nat>)
    requires Unique(q) && Positions(q, rm)
    ensures Picked(q, rm) !! Unpicked(q, rm)
  {
  }

  lemma TiesSuffice(q: seq<Request>, rm: seq<nat>, r: seq<Request>)
    requires Sorted(q) && Unique(q) && Positions(q, rm) && TiesPickedTogether(q, rm) && CanLeave(q, rm, r)
    ensures LeavesUnpicked(q, rm, r)
  {
    PickedSize(q, rm);
    PickedOrNot(q, rm);
    NotBoth(q, rm);
    forall k, u | 0 <= k < |rm| - 1 && 0 <= u < |q| && Tied(q[rm[k]], q[u]) ensures q[u] in Picked(q, rm) {
      assert q[u] in Elements(q);
      assert u in rm;
    }
    OnlyPickedLeave(q, rm, Picked(q, rm), r);
    UniqueSize(q);
    UniqueSize(r);
    assert Unpicked(q, rm) <= Elements(r);
    SameSize(Unpicked(q, rm), Elements(r));
  }

  lemma SameSize<T>(a: set<T>, b: set<T>)
    requires a <= b && |a| == |b|
    ensures a == b
  {
    assert b == a + (b - a);
  }

  lemma {:induction false} CanLeaveSorted(q: seq<Request>, rm: seq<nat>, r: seq<Request>)
    requires Sorted(q) && CanLeave(q, rm, r)
    ensures Sorted(r)
    decreases |rm|
  {
    if rm != [] {
      var n := |rm| - 1;
      var p :| Removed(q, rm[n], p) && CanLeave(p, rm[..n], r);
      CanLeaveSorted(p, rm[..n], r);
    }
  }

  // ----- the condition is needed -----

  function Exchange(q: seq<Request>, a: nat, b: nat): seq<Request>
    requires a < |q| && b < |q|
  {
    q[a := q[b]][b := q[a]]
  }

  lemma ExchangeKeepsSorted(q: seq<Request>, a: nat, b: nat)
    requires a < |q| && b < |q| && Sorted(q) && Tied(q[a], q[b])
    ensures Sorted(Exchange(q, a, b)) && multiset(Exchange(q, a, b)) == multiset(q)
  {
    var p := Exchange(q, a, b);
    forall i, j | 0 <= i < j < |p| ensures !Less(p[j], p[i]) {
      TiedIsEquivalence(q[i], p[i], p[j]);
      TiedIsEquivalence(q[j], p[j], q[i]);
      TiedIsEquivalence(q[i], q[i], q[i]);
      TiedIsEquivalence(q[j], q[j], q[j]);
      assert Tied(q[i], p[i]) && Tied(q[j], p[j]);
    }
  }

  /** Whatever is to be removed, the removals come to an end and add nothing. */
  lemma {:induction false} SomethingIsLeft(q: seq<Request>, rm: seq<nat>) returns (r: seq<Request>)
    requires Sorted(q) && Positions(q, rm)
    ensures CanLeave(q, rm, r) && forall x :: x in r ==> x in q
    decreases |rm|
  {
    if rm == [] {
      r := q;
    } else {
      var n := |rm| - 1;
      WithoutKeepsSorted(q, rm[n]);
      r := SomethingIsLeft(Without(q, rm[n]), rm[..n]);
    }
  }

  lemma StillThere(q: seq<Request>, i: nat, u: nat)
    requires i < |q| && u < |q| && u != i
    ensures var p := Without(q, i); |p| == |q| - 1 && (if u < i then p[u] == q[u] else p[u - 1] == q[u])
  {
  }

  /** The sort after a removal may put a request at the place of one it is tied with. */
  lemma TakesPlace(q: seq<Request>, i: nat, a: nat, u: nat) returns (t: seq<Request>)
    requires Sorted(q) && Unique(q) && a < i < |q| && u < |q| && u != i && Tied(q[a], q[u])
    ensures Removed(q, i, t) && |t| == |q| - 1 && Unique(t) && t[a] == q[u]
  {
    var v := if u < i then u else u - 1;
    var p := Without(q, i);
    WithoutKeepsSorted(q, i);
    StillThere(q, i, a);
    StillThere(q, i, u);
    ExchangeKeepsSorted(p, a, v);
    t := Exchange(p, a, v);
    assert Removed(q, i, t);
    RemovedIsFrom(q, i, t);
  }

  /** What is at the last place to remove is gone. */
  lemma LosesLast(q: seq<Request>, rm: seq<nat>) returns (r: seq<Request>)
    requires Sorted(q) && Unique(q) && Positions(q, rm) && rm != []
    ensures CanLeave(q, rm, r) && q[rm[|rm| - 1]] !in r
  {
    var n := |rm| - 1;
    var p := Without(q, rm[n]);
    WithoutKeepsSorted(q, rm[n]);
    RemovedIsFrom(q, rm[n], p);
    r := SomethingIsLeft(p, rm[..n]);
  }

  lemma LosesNow(q: seq<Request>, rm: seq<nat>, u: nat) returns (r: seq<Request>)
    requires Sorted(q) && Unique(q) && Positions(q, rm) && |rm| >= 2
    requires u < |q| && u !in rm && Tied(q[rm[|rm| - 2]], q[u])
    ensures CanLeave(q, rm, r) && q[u] !in r
  {
    var n := |rm| - 1;
    assert rm[n] in rm;
    var t := TakesPlace(q, rm[n], rm[n - 1], u);
    r := LosesLast(t, rm[..n]);
  }

  /** A pick that is not the last and is tied with an unpicked request: some run loses the latter. */
  lemma {:induction false} Loses(q: seq<Request>, rm: seq<nat>, k: nat, u: nat) returns (r: seq<Request>)
    requires Sorted(q) && Unique(q) && Positions(q, rm) && k < |rm| - 1
    requires u < |q| && u !in rm && Tied(q[rm[k]], q[u])
    ensures CanLeave(q, rm, r) && q[u] !in r
    decreases |rm|
  {
    var n := |rm| - 1;
    if k == n - 1 {
      r := LosesNow(q, rm, u);
    } else {
      var i := rm[n];
      assert i in rm;
      var v := if u < i then u else u - 1;
      var p := Without(q, i);
      assert p[v] == q[u] && p[rm[k]] == q[rm[k]];
      WithoutKeepsSorted(q, i);
      RemovedIsFrom(q, i, p);
      assert Removed(q, i, p);
      r := Loses(p, rm[..n], k, v);
    }
  }

  lemma SomeIsLost(q: seq<Request>, rm: seq<nat>) returns (r: seq<Request>, x: Request)
    requires Sorted(q) && Unique(q) && Positions(q, rm) && !TiesPickedTogether(q, rm)
    ensures CanLeave(q, rm, r) && x in Unpicked(q, rm) && x !in r
  {
    var k, u :| 0 <= k < |rm| - 1 && 0 <= u < |q| && u !in rm && Tied(q[rm[k]], q[u]);
    r := Loses(q, rm, k, u);
    x := q[u];
  }

  /**
   Every sequence of sort outcomes leaves exactly the requests that were not picked, if and only if no picked request,
   but for the last one, is tied with one that was not picked.
   */
  lemma RemovalRightIff(q: seq<Request>, rm: seq<nat>)
    requires Sorted(q) && Unique(q) && Positions(q, rm)
    ensures (forall r :: CanLeave(q, rm, r) ==> LeavesUnpicked(q, rm, r)) <==> TiesPickedTogether(q, rm)
  {
    if TiesPickedTogether(q, rm) {
      forall r | CanLeave(q, rm, r) ensures LeavesUnpicked(q, rm, r) { TiesSuffice(q, rm, r); }
    } else {
      var r, x := SomeIsLost(q, rm);
      assert !LeavesUnpicked(q, rm, r);
    }
  }

  /** The first sort may exchange two requests that are tied. */
  lemma TwinsExchanged(q: seq<Request>)
    requires |q| == 3 && Sorted(q) && Tied(q[0], q[1])
    ensures Removed(q, 2, [q[1], q[0]])
  {
    WithoutKeepsSorted(q, 2);
    ExchangeKeepsSorted(Without(q, 2), 0, 1);
    assert Exchange(Without(q, 2), 0, 1) == [q[1], q[0]];
  }

  lemma FirstRemoved(p: seq<Request>, r: seq<Request>)
    requires |p| == 2 && r == [p[1]]
    ensures Removed(p, 0, r)
  {
    assert p == [p[0]] + r;
  }

  /**
   Three requests of which the first two are tied; the first and the third are put in windows.  The second may be
   removed in place of the first, which stays queued although it is in a window, and the second is lost.
   */
  lemma TwinIsLost(q: seq<Request>, rm: seq<nat>, r: seq<Request>)
    requires |q| == 3 && Sorted(q) && Unique(q) && Tied(q[0], q[1])
    requires |rm| == 2 && rm[0] == 0 && rm[1] == 2 && r == [q[0]]
    ensures CanLeave(q, rm, r) && q[1] in Unpicked(q, rm) && q[1] !in r
  {
    var p := [q[1], q[0]];
    TwinsExchanged(q);
    FirstRemoved(p, r);
    assert CanLeave(r, rm[..1][..0], r);
    assert CanLeave(p, rm[..1], r);
  }

  function Twin(id: nat): Request { Request(id, PreCommit1, 0, 1, 0) }

  const THIRD := Request(2, PreCommit1, 0, 2, 0)

  /** Two requests for the same task on the same sector, and one for another sector. */
  lemma TwinsExist() returns (q: seq<Request>, rm: seq<nat>)
    ensures |q| == 3 && Sorted(q) && Unique(q) && Tied(q[0], q[1]) && |rm| == 2 && rm[0] == 0 && rm[1] == 2
  {
    q, rm := [Twin(0), Twin(1), THIRD], [0, 2];
  }

  lemma TwinsLoseOne()
    ensures exists q, rm, r ::
      Sorted(q) && Unique(q) && Positions(q, rm) && CanLeave(q, rm, r) && !LeavesUnpicked(q, rm, r)
  {
    var q, rm := TwinsExist();
    TwinIsLost(q, rm, [q[0]]);
  }
}
