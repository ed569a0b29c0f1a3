/**
 The change handler's objects, with their fields updated in place.  Each method does one
 step of the step system in module ChangeHandler.
 */
module ChangeHandlerObjects {
  import opened Options
  import opened Deadlines
  import opened ChangeHandler

  /** While waiting is set, the prover holds the lock and waits for room in the channel. */
  class PostsCache {
    var proofs: map<int, Posts>
    var added: seq<int>
    var waiting: Option<int>

    function View(): Cache
      reads this
    {
      Cache(proofs, added)
    }

    constructor ()
      ensures View() == INIT_CACHE && waiting.None?
    {
      proofs, added, waiting := map[], [], None;
    }

    /** The announcement is sent while the cache is locked; a full channel leaves the lock held. */
    method Add(di: Info, posts: Posts)
      requires waiting.None?
      modifies this
      ensures proofs == old(proofs)[di.open := posts]
      ensures |old(added)| < ADDED_CAPACITY ==> View() == AddProofs(old(View()), di.open, posts) && waiting.None?
      ensures |old(added)| >= ADDED_CAPACITY ==> added == old(added) && waiting == Some(di.open)
    {
      proofs := proofs[di.open := posts];
      if |added| < ADDED_CAPACITY {
        added := added + [di.open];
      } else {
        waiting := Some(di.open);
      }
    }

    /** Receiving an announcement makes room for one that waits, and so gives the lock back. */
    method Take() returns (open: int)
      requires added != []
      modifies this
      ensures open == old(added)[0] && proofs == old(proofs) && waiting.None?
      ensures added == old(added)[1..] + if old(waiting).Some? then [old(waiting).value] else []
    {
      open := added[0];
      added := added[1..];
      if waiting.Some? {
        added := added + [waiting.value];
        waiting := None;
      }
    }

    method Get(di: Info) returns (posts: Posts, ok: bool)
      ensures ok == (di.open in proofs)
      ensures posts == if ok then proofs[di.open] else []
    {
      ok := di.open in proofs;
      posts := if ok then proofs[di.open] else [];
    }
  }

  class ProveHandler {
    const schedule: Schedule
    const posts: PostsCache
    var current: Option<nat>
    var generations: map<nat, Generation>
    var started: nat

    function View(): Prover
      reads this
    {
      Prover(current, generations, started)
    }

    constructor (schedule: Schedule, posts: PostsCache)
      ensures this.schedule == schedule && this.posts == posts && View() == INIT_PROVER
    {
      this.schedule, this.posts := schedule, posts;
      current, generations, started := None, map[], 0;
    }

    method ProcessHeadChange(height: int, deadline: Info)
      requires schedule.Valid() && WellFormed(schedule, deadline)
      modifies this
      ensures View() == ProveHead(schedule, old(View()), posts.View(), height, deadline)
    {
      if current.Some? && current.value in generations && height >= generations[current.value].di.close {
        generations := generations[current.value := generations[current.value].(aborted := true)];
        current := None;
      }
      if current.Some? {
        return;
      }
      var di := deadline;
      var proofs, complete := posts.Get(di);
      while complete
        invariant WellFormed(schedule, di) && complete == (di.open in posts.proofs)
        invariant FirstUncached(schedule, posts.proofs.Keys, di) == FirstUncached(schedule, posts.proofs.Keys, deadline)
        modifies {}
        decreases CachedFrom(posts.proofs.Keys, di.open)
      {
        assert di.open in CachedFrom(posts.proofs.Keys, di.open);
        di := NextDeadline(schedule, di);
        proofs, complete := posts.Get(di);
      }
      assert di == FirstUncached(schedule, posts.View().proofs.Keys, deadline);
      if height < di.challenge + CHALLENGE_CONFIDENCE {
        return;
      }
      current := Some(started);
      generations := generations[started := Generation(di, false)];
      started := started + 1;
    }

    /** A success is cached; if its announcement finds the channel full, the prover is left waiting with the lock. */
    method ProcessPostResult(generation: nat, result: Option<Posts>)
      requires generation in generations && posts.waiting.None?
      modifies this, posts
      ensures View() == FinishGeneration(old(View()), generation, result)
      ensures result.None? ==> posts.View() == old(posts.View()) && posts.waiting.None?
      ensures result.Some? ==>
        var open := old(generations)[generation].di.open;
        if |old(posts.added)| < ADDED_CAPACITY
        then posts.View() == AddProofs(old(posts.View()), open, result.value) && posts.waiting.None?
        else
          && posts.View() == old(posts.View()).(proofs := old(posts.proofs)[open := result.value])
          && posts.waiting == Some(open)
    {
      var di := generations[generation].di;
      generations := generations - {generation};
      if result.None? {
        if current == Some(generation) {
          current := None;
        }
        return;
      }
      current := None;
      posts.Add(di, result.value);
    }
  }

  /** The windows of one head change, handled in the order the map yields them. */
  ghost function Sweep(u: Submitter, cache: Cache, order: seq<int>): Submitter {
    if order == [] then u
    else
      var v, open := Sweep(u, cache, order[..|order| - 1]), order[|order| - 1];
      if v.mode.InHeadChange? && open in v.windows && v.windows[open] in v.objects
      then ProcessWindow(v, cache, open)
      else v
  }

  /** Half way through a head change: `order` is done, `todo` is left. */
  ghost predicate Sweeping(begun: Submitter, u: Submitter, cache: Cache, order: seq<int>, todo: set<int>) {
    && SubmitterOk(u)
    && u == Sweep(begun, cache, order)
    && u.windows.Keys == begun.windows.Keys
    && todo <= u.windows.Keys
    && (todo == {} ==> u.mode == Idle)
    && (todo != {} ==> u.mode.InHeadChange? && u.mode.pending == todo)
    && (forall o :: o in u.windows.Keys <==> o in order || o in todo)
    && |order| + |todo| == |begun.windows.Keys|
  }

  lemma SweepStep(begun: Submitter, u: Submitter, cache: Cache, order: seq<int>, todo: set<int>, open: int)
    requires Sweeping(begun, u, cache, order, todo) && open in todo
    ensures open in u.windows && u.windows[open] in u.objects
    ensures Sweeping(begun, ProcessWindow(u, cache, open), cache, order + [open], todo - {open})
  {
    ProcessWindowKeepsOk(u, cache, open);
    assert (order + [open])[..|order|] == order;
    forall o ensures o in u.windows.Keys <==> o in order + [open] || o in todo - {open} {
      assert o in order + [open] <==> o in order || o == open;
    }
  }

  lemma SweepDone(begun: Submitter, u: Submitter, cache: Cache, order: seq<int>)
    requires Sweeping(begun, u, cache, order, {})
    ensures SubmitterOk(u) && u.mode == Idle && u == Sweep(begun, cache, order)
    ensures |order| == |u.windows.Keys| && forall o :: o in u.windows.Keys <==> o in order
  {
  }

  class SubmitHandler {
    const posts: PostsCache
    var height: int
    var windows: map<int, nat>
    var objects: map<nat, PostWindow>
    var submissions: map<nat, Submission>
    var nextWindow: nat
    var nextSubmission: nat
    var mode: Mode

    function View(): Submitter
      reads this
    {
      Submitter(height, windows, objects, submissions, nextWindow, nextSubmission, mode)
    }

    constructor (posts: PostsCache)
      ensures this.posts == posts && View() == INIT_SUBMITTER
    {
      this.posts := posts;
      height, windows, objects, submissions := 0, map[], map[], map[];
      nextWindow, nextSubmission, mode := 0, 0, Idle;
    }

    method SubmitWhenReady(id: nat)
      requires id in objects
      modifies this
      ensures View() == SubmitIfReady(old(View()), posts.View(), id)
    {
      var pw := objects[id];
      if height >= pw.di.close { return; }
      if pw.state != Start { return; }
      if height < pw.di.open + SUBMIT_CONFIDENCE { return; }
      var proofs, ok := posts.Get(pw.di);
      if !ok { return; }
      if |proofs| == 0 {
        objects := objects[id := pw.(state := Complete)];
        return;
      }
      objects := objects[id := pw.(state := Submitting, abort := Some(nextSubmission))];
      submissions := submissions[nextSubmission := Submission(id, height, proofs, false)];
      nextSubmission := nextSubmission + 1;
    }

    method ProcessHeadChangeForWindow(open: int)
      requires mode.InHeadChange? && open in windows && windows[open] in objects
      modifies this
      ensures View() == ProcessWindow(old(View()), posts.View(), open)
    {
      var pw := objects[windows[open]];
      var revertedToPrevDL := RevertedBelow(mode.revert, pw.di.open);
      var expired := height >= pw.di.close;
      if pw.state == Submitting && (revertedToPrevDL || expired) {
        if pw.abort.Some? {
          windows := windows[open := nextWindow];
          objects := objects[nextWindow := PostWindow(pw.di, Start, None)];
          nextWindow := nextWindow + 1;
          if pw.abort.value in submissions {
            submissions := submissions[pw.abort.value := submissions[pw.abort.value].(aborted := true)];
          }
        }
      } else if pw.state == Complete && revertedToPrevDL {
        objects := objects[windows[open] := pw.(state := Start)];
      }
      assert View() == ResetWindow(old(View()), open, mode.revert);
      SubmitWhenReady(windows[open]);
      mode := LeaveWindow(mode, open);
    }

    method BeginWindows(revert: Option<int>, newHeight: int, di: Info) returns (todo: set<int>)
      requires SubmitterOk(View()) && mode == Idle
      modifies this
      ensures View() == BeginHeadChange(old(View()), revert, newHeight, di)
      ensures Sweeping(View(), View(), posts.View(), [], todo)
    {
      BeginKeepsOk(View(), revert, newHeight, di);
      height := newHeight;
      if di.open !in windows {
        windows := windows[di.open := nextWindow];
        objects := objects[nextWindow := PostWindow(di, Start, None)];
        nextWindow := nextWindow + 1;
      }
      mode := InHeadChange(revert, windows.Keys);
      todo := windows.Keys;
      assert di.open in todo;
    }

    method SweepOne(open: int, ghost begun: Submitter, ghost order: seq<int>, ghost todo: set<int>)
      requires Sweeping(begun, View(), posts.View(), order, todo) && open in todo
      modifies this
      ensures Sweeping(begun, View(), posts.View(), order + [open], todo - {open})
    {
      SweepStep(begun, View(), posts.View(), order, todo, open);
      ghost var next := ProcessWindow(View(), posts.View(), open);
      ProcessHeadChangeForWindow(open);
      assert View() == next;
    }

    /** A whole head change when the prover does nothing meanwhile; `order` is the map's order. */
    method ProcessHeadChange(revert: Option<int>, newHeight: int, di: Info) returns (ghost order: seq<int>)
      requires SubmitterOk(View()) && mode == Idle
      modifies this
      ensures SubmitterOk(View()) && mode == Idle
      ensures View() == Sweep(BeginHeadChange(old(View()), revert, newHeight, di), posts.View(), order)
      ensures |order| == |windows.Keys| && (forall o :: o in windows.Keys <==> o in order)
    {
      var todo := BeginWindows(revert, newHeight, di);
      ghost var begun := View();
      order := [];
      while todo != {}
        invariant Sweeping(begun, View(), posts.View(), order, todo)
        decreases todo
      {
        var open := AnyOf(todo);
        SweepOne(open, begun, order, todo);
        todo, order := todo - {open}, order + [open];
      }
      SweepDone(begun, View(), posts.View(), order);
    }

    method ProcessPostReady(open: int)
      requires mode == InPostReady(open)
      modifies this
      ensures View() == ChangeHandler.ProcessPostReady(old(View()), posts.View(), open)
    {
      if open in windows && windows[open] in objects {
        SubmitWhenReady(windows[open]);
      }
      mode := Idle;
    }

    method ProcessSubmitResult(submission: nat, failed: bool)
      requires submission in submissions
      modifies this
      ensures View() == FinishSubmission(old(View()), submission, failed)
    {
      var id := submissions[submission].window;
      submissions := submissions - {submission};
      if id in objects {
        objects := objects[id := objects[id].(state := if failed then Start else Complete)];
      }
    }
  }
}
