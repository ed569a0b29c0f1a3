/**
 Runs of the change handler as it is wired: every head change comes with the deadline the head lies in, and is handed
 to the prover and then to the submitter before the next one.
 */
module ChangeHandlerWitness {
  import opened Options
  import opened Deadlines
  import opened ChangeHandler
  import opened ChangeHandlerLock

  /** Deadlines, epochs per deadline, and how long before its opening a deadline is challenged. */
  const MAINNET := Schedule(48, 60, 20)

  datatype Head = Head(height: int, di: Info)

  /** The head whose deadline this is. */
  predicate InDeadline(h: Head) { h.di.open <= h.height < h.di.close }

  /** The head that the prover has and the submitter has not; it comes before any other. */
  predicate HeadOk(handed: Option<Head>, m: Move) {
    match m
    case Plain(ProverHead(height, di)) => handed.None? && InDeadline(Head(height, di))
    case Plain(HeadBegin(_, height, di)) => handed == Some(Head(height, di))
    case _ => true
  }

  function HandedAfter(handed: Option<Head>, m: Move): Option<Head> {
    match m
    case Plain(ProverHead(height, di)) => Some(Head(height, di))
    case Plain(HeadBegin(_, _, _)) => None
    case _ => handed
  }

  ghost predicate InTurn(handed: seq<Option<Head>>, moves: seq<Move>) {
    && |handed| == |moves| + 1 && handed[0] == None
    && forall i :: 0 <= i < |moves| ==> HeadOk(handed[i], moves[i]) && handed[i + 1] == HandedAfter(handed[i], moves[i])
  }

  /** Some such run from the start ends there. */
  ghost predicate Reached(l: Locked, handed: Option<Head>) {
    exists path: seq<Locked>, moves: seq<Move>, heads: seq<Option<Head>> ::
      IsPath(MAINNET, path, moves) && path[0] == START && path[|moves|] == l
      && InTurn(heads, moves) && heads[|moves|] == handed
  }

  lemma ReachStart()
    ensures Reached(START, None)
  {
    var path: seq<Locked>, moves: seq<Move>, heads: seq<Option<Head>> := [START], [], [None];
    assert IsPath(MAINNET, path, moves) && InTurn(heads, moves);
    assert path[|moves|] == START && heads[|moves|] == None;
  }

  lemma LongerPath(path: seq<Locked>, moves: seq<Move>, m: Move)
    requires IsPath(MAINNET, path, moves) && MoveEnabled(MAINNET, path[|moves|], m)
    ensures IsPath(MAINNET, path + [Moved(MAINNET, path[|moves|], m)], moves + [m])
  {
  }

  lemma LongerTurn(heads: seq<Option<Head>>, moves: seq<Move>, m: Move)
    requires InTurn(heads, moves) && HeadOk(heads[|moves|], m)
    ensures InTurn(heads + [HandedAfter(heads[|moves|], m)], moves + [m])
  {
  }

  lemma ReachMove(l: Locked, handed: Option<Head>, m: Move)
    requires Reached(l, handed) && MoveEnabled(MAINNET, l, m) && HeadOk(handed, m)
    ensures Reached(Moved(MAINNET, l, m), HandedAfter(handed, m))
  {
    var path: seq<Locked>, moves: seq<Move>, heads: seq<Option<Head>> :|
      IsPath(MAINNET, path, moves) && path[0] == START && path[|moves|] == l
      && InTurn(heads, moves) && heads[|moves|] == handed;
    LongerPath(path, moves, m);
    LongerTurn(heads, moves, m);
    var moves2 := moves + [m];
    assert (path + [Moved(MAINNET, l, m)])[|moves2|] == Moved(MAINNET, l, m);
    assert (heads + [HandedAfter(handed, m)])[|moves2|] == HandedAfter(handed, m);
  }

  /** The k-th deadline of the first proving period. */
  function Deadline(k: nat): Info { NewInfo(MAINNET, 0, k, 0) }

  // ----- head changes that submit nothing -----

  /** The first k deadlines may be tracked, and nothing was submitted. */
  ghost predicate Quiet(u: Submitter, k: nat) {
    && u.mode == Idle
    && forall open :: open in u.windows ==>
         && open + 60 <= 60 * k && u.windows[open] in u.objects && u.windows[open] < u.nextWindow
         && u.objects[u.windows[open]].state == Start
         && u.objects[u.windows[open]].di.open == open && u.objects[u.windows[open]].di.close == open + 60
  }

  /** No window pending in the head change has anything to reset or to look up. */
  ghost predicate Calm(u: Submitter) {
    && u.mode.InHeadChange? && u.mode.pending != {}
    && forall open :: open in u.mode.pending ==>
         && open in u.windows && u.windows[open] in u.objects
         && u.objects[u.windows[open]].state == Start && !LooksUp(u, u.windows[open])
  }

  function Rested(l: Locked): Locked { l.(st := l.st.(submitter := l.st.submitter.(mode := Idle))) }

  lemma CalmWindow(u: Submitter, cache: Cache, open: int)
    requires Calm(u) && open in u.mode.pending
    ensures ProcessWindow(u, cache, open) == u.(mode := LeaveWindow(u.mode, open))
  {
  }

  lemma {:induction false} CalmSweep(l: Locked, handed: Option<Head>)
    requires Reached(l, handed) && Calm(l.st.submitter)
    ensures Reached(Rested(l), handed)
    decreases |l.st.submitter.mode.pending|
  {
    var u := l.st.submitter;
    var open := SomeOf(u.mode.pending);
    CalmWindow(u, l.st.cache, open);
    var m := Plain(HeadWindow(open));
    assert !WindowLooksUp(u, open);
    ReachMove(l, handed, m);
    var n := Moved(MAINNET, l, m);
    if u.mode.pending - {open} == {} {
      assert n == Rested(l);
    } else {
      assert |u.mode.pending - {open}| == |u.mode.pending| - 1;
      CalmSweep(n, handed);
      assert Rested(n) == Rested(l);
    }
  }

  /** The head at the opening of the k-th deadline comes too early for it and too late for all before. */
  lemma QuietHead(u: Submitter, k: nat)
    requires Quiet(u, k)
    ensures var v := BeginHeadChange(u, None, 60 * k, Deadline(k)); Calm(v) && Quiet(v.(mode := Idle), k + 1)
  {
    var v := BeginHeadChange(u, None, 60 * k, Deadline(k));
    assert Deadline(k).open in v.mode.pending;
  }

  /** The submitter takes that head. */
  lemma SubmitterTakes(l: Locked, k: nat) returns (n: Locked)
    requires Reached(l, Some(Head(60 * k, Deadline(k)))) && k < 48 && Quiet(l.st.submitter, k)
    ensures Reached(n, None) && Quiet(n.st.submitter, k + 1)
    ensures n.adding == l.adding && n.st.prover == l.st.prover && n.st.cache == l.st.cache
    ensures Deadline(k).open in n.st.submitter.windows
  {
    var m := Plain(HeadBegin(None, 60 * k, Deadline(k)));
    ReachMove(l, Some(Head(60 * k, Deadline(k))), m);
    QuietHead(l.st.submitter, k);
    CalmSweep(Moved(MAINNET, l, m), None);
    n := Rested(Moved(MAINNET, l, m));
  }

  /** The prover, which is free or late, starts on the deadline of the head. */
  lemma ProverStarts(l: Locked, k: nat, height: int) returns (n: Locked)
    requires Reached(l, None) && k < 48 && l.adding.None? && InDeadline(Head(height, Deadline(k)))
    requires AbortExpired(l.st.prover, height).current.None? && Deadline(k).open !in l.st.cache.proofs
    ensures Reached(n, Some(Head(height, Deadline(k))))
    ensures n == l.(st := l.st.(prover := n.st.prover))
    ensures var p := AbortExpired(l.st.prover, height);
      n.st.prover == Prover(Some(p.started), p.generations[p.started := Generation(Deadline(k), false)], p.started + 1)
  {
    var m := Plain(ProverHead(height, Deadline(k)));
    assert FirstUncached(MAINNET, l.st.cache.proofs.Keys, Deadline(k)) == Deadline(k);
    ReachMove(l, None, m);
    n := Moved(MAINNET, l, m);
  }

  // ----- a success that comes late -----

  lemma FirstGeneration() returns (l: Locked)
    ensures Reached(l, None) && l.adding.None? && Quiet(l.st.submitter, 1) && l.st.cache == INIT_CACHE
    ensures l.st.prover == Prover(Some(0), map[0 := Generation(Deadline(0), false)], 1)
  {
    ReachStart();
    var m := ProverStarts(START, 0, 0);
    l := SubmitterTakes(m, 0);
  }

  /** Window 0 has expired while it was being proved, and window 1 is being proved. */
  lemma SecondGeneration() returns (l: Locked)
    ensures Reached(l, None) && l.adding.None? && l.st.cache == INIT_CACHE
    ensures l.st.prover.started == 2 && l.st.prover.current == Some(1)
    ensures l.st.prover.generations ==
      map[0 := Generation(Deadline(0), true), 1 := Generation(Deadline(1), false)]
  {
    var first := FirstGeneration();
    GivesUpFirst(first.st.prover);
    var m := ProverStarts(first, 1, 60);
    l := SubmitterTakes(m, 1);
  }

  lemma GivesUpFirst(p: Prover)
    requires p == Prover(Some(0), map[0 := Generation(Deadline(0), false)], 1)
    ensures AbortExpired(p, 60) == Prover(None, map[0 := Generation(Deadline(0), true)], 1)
  {
  }

  /**
   The cancelled generation reports success, which is accepted and clears the current one, and the next head, one epoch
   later, starts window 1 a second time: two generations for one window are live.
   */
  lemma LateSuccessRunsTwoGenerations()
    ensures exists l, handed ::
      && Reached(l, handed) && LiveGeneration(l.st, 1) && LiveGeneration(l.st, 2)
      && l.st.prover.generations[1].di == l.st.prover.generations[2].di
  {
    var l := SecondGeneration();
    var late := Plain(GenerationResult(0, Some([7])));
    ReachMove(l, None, late);
    var n := Moved(MAINNET, l, late);
    assert n.st.cache.proofs == map[0 := [7]] && n.st.prover.current.None?;
    var e := ProverStarts(n, 1, 61);
    assert LiveGeneration(e.st, 1) && LiveGeneration(e.st, 2);
  }

  // ----- a run into the deadlock -----

  /** The proofs of the first k windows are cached and announced, and the submitter has read none. */
  ghost predicate Announced(l: Locked, k: nat) {
    && l.adding.None? && Quiet(l.st.submitter, k)
    && l.st.prover.current.None? && |l.st.cache.added| == k
    && forall open :: open in l.st.cache.proofs ==> open < 60 * k
  }

  /** The head at the opening of window k goes to both, and the prover starts on the window. */
  lemma StartsWindow(l: Locked, k: nat) returns (n: Locked, g: nat)
    requires Reached(l, None) && k < 48 && Announced(l, k)
    ensures Reached(n, None) && n.adding.None? && Quiet(n.st.submitter, k + 1) && n.st.cache == l.st.cache
    ensures g in n.st.prover.generations && n.st.prover.generations[g] == Generation(Deadline(k), false)
    ensures n.st.prover.current == Some(g) && Deadline(k).open in n.st.submitter.windows
  {
    var m := ProverStarts(l, k, 60 * k);
    g := l.st.prover.started;
    n := SubmitterTakes(m, k);
  }

  lemma {:induction false} AnnouncesMany(k: nat) returns (l: Locked)
    requires k <= ADDED_CAPACITY
    ensures Reached(l, None) && Announced(l, k)
    decreases k
  {
    if k == 0 {
      ReachStart();
      l := START;
    } else {
      var before := AnnouncesMany(k - 1);
      var n, g := StartsWindow(before, k - 1);
      l := AnnouncesNext(n, g, k);
    }
  }

  /** The proof of the k-th window is announced. */
  lemma AnnouncesNext(n: Locked, g: nat, k: nat) returns (l: Locked)
    requires 0 < k <= ADDED_CAPACITY && Reached(n, None) && n.adding.None? && Quiet(n.st.submitter, k)
    requires |n.st.cache.added| == k - 1 && forall open :: open in n.st.cache.proofs ==> open < 60 * (k - 1)
    requires g in n.st.prover.generations && n.st.prover.generations[g].di == Deadline(k - 1)
    ensures Reached(l, None) && Announced(l, k)
  {
    var m := Plain(GenerationResult(g, Some([7])));
    ReachMove(n, None, m);
    l := Moved(MAINNET, n, m);
  }

  /**
   Sixteen proofs are announced and unread.  The prover has the head at which the seventeenth window can be submitted
   when its proof comes, and waits for room; the submitter, which gets the same head, needs the cache.
   */
  lemma DoomIsReachable()
    ensures exists l, handed :: Reached(l, handed) && Doomed(l)
  {
    var l := AnnouncesMany(ADDED_CAPACITY);
    var n, g := StartsWindow(l, ADDED_CAPACITY);
    var head := Head(964, Deadline(16));
    var b := BlocksAtHead(n, g, head);
    var m := Plain(HeadBegin(None, head.height, head.di));
    ReachMove(b, Some(head), m);
    SubmitterIsStuck(b, Deadline(16));
  }

  /** The next head changes nothing for the prover; then its proof is there, and there is no room to announce it. */
  lemma BlocksAtHead(l: Locked, g: nat, head: Head) returns (b: Locked)
    requires Reached(l, None) && l.adding.None? && Full(l.st) && head == Head(964, Deadline(16))
    requires l.st.prover.current == Some(g) && g in l.st.prover.generations
    requires l.st.prover.generations[g] == Generation(Deadline(16), false)
    ensures Reached(b, Some(head)) && b.adding.Some? && b.st == l.st
  {
    var m := Plain(ProverHead(head.height, head.di));
    ReachMove(l, None, m);
    var n := Moved(MAINNET, l, m);
    assert n == l;
    ReachMove(n, Some(head), Block(g, [7]));
    b := Moved(MAINNET, n, Block(g, [7]));
  }

  lemma SubmitterIsStuck(b: Locked, di: Info)
    requires b.adding.Some? && Full(b.st) && Quiet(b.st.submitter, 17) && di == Deadline(16)
    requires di.open in b.st.submitter.windows
    ensures var m := Plain(HeadBegin(None, 964, di)); MoveEnabled(MAINNET, b, m) && Doomed(Moved(MAINNET, b, m))
  {
    var m := Plain(HeadBegin(None, 964, di));
    var u := Moved(MAINNET, b, m).st.submitter;
    assert di.open in u.mode.pending && WindowLooksUp(u, di.open);
  }
}
