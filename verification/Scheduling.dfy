// Handles for scheduled callbacks: whatever the event loop, other threads and the callback itself
// do, a one-shot runs at most once and nothing runs after a cancellation. When exactly the loop's
// own handle is cancelled with the callback depends on whether the handle was known by then.
module Scheduling {

  // How far scheduling has come. The loop has the entry from the start; the scheduling thread then
  // names the loop's handle and makes cancelling it the context's cleanup. On the loop's own thread
  // both come before anything can fire, on another thread they need not.
  datatype Phase = Queued | Named | Linked

  // `cleanup` says that a cleanup is set, `handleCancelled` whether the loop's handle was cancelled,
  // `runs` how often the callback has been called.
  datatype Ctx = Ctx(repeat: bool, phase: Phase, cancelled: bool, cleanup: bool, handleCancelled: bool, runs: nat)

  function Submitted(repeat: bool): Ctx {
    Ctx(repeat, Queued, false, false, false, 0)
  }

  // Scheduling goes on by one assignment.
  function Assigned(c: Ctx): Ctx {
    match c.phase
    case Queued => c.(phase := Named)
    case Named => c.(phase := Linked, cleanup := true)
    case Linked => c
  }

  function Cancelled(c: Ctx): Ctx {
    if c.cancelled then c
    else c.(cancelled := true, cleanup := false, handleCancelled := c.handleCancelled || c.cleanup)
  }

  // The callback is called unless the context is cancelled. It may cancel its own context; `stops`
  // is what a watch's stop test says afterwards.
  function Ran(c: Ctx, cancelsItself: bool, stops: bool): Ctx {
    if c.cancelled then c
    else
      var ran := c.(runs := c.runs + 1);
      var d := if cancelsItself then Cancelled(ran) else ran;
      if d.repeat && !d.cancelled && !stops then d else d.(cancelled := true)
  }

  // The loop fires. When the callback is done with, the handle is cancelled; if it has no name yet,
  // that raises and the loop goes on.
  function FiredOnce(c: Ctx, cancelsItself: bool, stops: bool): Ctx {
    var d := Ran(c, cancelsItself, stops);
    if d.cancelled && !d.phase.Queued? then d.(handleCancelled := true, cleanup := false) else d
  }

  datatype Step = Assign | Cancel | Fire(cancelsItself: bool, stops: bool)

  function Next(c: Ctx, s: Step): Ctx {
    match s
    case Assign => Assigned(c)
    case Cancel => Cancelled(c)
    case Fire(cancelsItself, stops) => FiredOnce(c, cancelsItself, stops)
  }

  function After(c: Ctx, steps: seq<Step>): Ctx {
    if steps == [] then c else Next(After(c, steps[..|steps| - 1]), steps[|steps| - 1])
  }

  ghost predicate Sound(c: Ctx) {
    && (c.handleCancelled ==> c.cancelled && !c.phase.Queued?)
    && (!c.repeat ==> c.runs <= 1)
    && (!c.repeat && c.runs == 1 ==> c.cancelled)
    && (c.cleanup ==> c.phase.Linked?)
    && (c.phase.Linked? && !c.cancelled ==> c.cleanup)
  }

  // After any history, from any thread: a one-shot has run at most once, and the loop's handle is
  // only ever cancelled with its context.
  lemma {:induction false} EveryHistoryIsSound(repeat: bool, steps: seq<Step>)
    ensures Sound(After(Submitted(repeat), steps))
    ensures After(Submitted(repeat), steps).repeat == repeat
  {
    if steps != [] {
      EveryHistoryIsSound(repeat, steps[..|steps| - 1]);
    }
  }

  // Once cancelled, by anyone or by its own end, a callback never runs again.
  lemma {:induction false} NeverAfterCancel(c: Ctx, steps: seq<Step>)
    requires c.cancelled
    ensures After(c, steps).cancelled && After(c, steps).runs == c.runs
  {
    if steps != [] {
      NeverAfterCancel(c, steps[..|steps| - 1]);
    }
  }

  // A step that cancels the loop's handle if it finds or leaves the context cancelled: a firing once
  // the handle has a name, or a cancellation that finds the cleanup set.
  predicate Reaches(c: Ctx, s: Step) {
    (s.Fire? && !c.phase.Queued?) || (s.Cancel? && c.phase.Linked? && !c.cancelled)
  }

  // The state before step k.
  function Before(repeat: bool, steps: seq<Step>, k: nat): Ctx
    requires k <= |steps|
  {
    After(Submitted(repeat), steps[..k])
  }

  lemma BeforeNext(repeat: bool, steps: seq<Step>, k: nat)
    requires k < |steps|
    ensures Before(repeat, steps, k + 1) == Next(Before(repeat, steps, k), steps[k])
    ensures Sound(Before(repeat, steps, k))
  {
    EveryHistoryIsSound(repeat, steps[..k]);
    assert steps[..k + 1][..k] == steps[..k];
  }

  // The context has been cancelled by step n. The loop's handle has been cancelled too exactly if
  // that step reached it or a later firing did.
  lemma {:induction false} HandleFollowsIff(repeat: bool, steps: seq<Step>, n: nat, m: nat)
    requires n < m <= |steps|
    requires !Before(repeat, steps, n).cancelled && Before(repeat, steps, n + 1).cancelled
    ensures Before(repeat, steps, m).cancelled
    ensures Before(repeat, steps, m).handleCancelled <==>
      exists k :: n <= k < m && Reaches(Before(repeat, steps, k), steps[k])
    decreases m
  {
    BeforeNext(repeat, steps, m - 1);
    if n < m - 1 {
      HandleFollowsIff(repeat, steps, n, m - 1);
      StaysReached(Before(repeat, steps, m - 1), steps[m - 1]);
    } else {
      FirstReached(Before(repeat, steps, n), steps[n]);
    }
  }

  lemma StaysReached(c: Ctx, s: Step)
    requires c.cancelled
    ensures Next(c, s).cancelled && (Next(c, s).handleCancelled <==> c.handleCancelled || Reaches(c, s))
  {
  }

  lemma FirstReached(c: Ctx, s: Step)
    requires Sound(c) && !c.cancelled && Next(c, s).cancelled
    ensures Next(c, s).handleCancelled <==> Reaches(c, s)
  {
  }

  // On the loop's own thread, where scheduling is complete before anything else happens, the handle
  // is cancelled exactly when the context is.
  lemma {:induction false} OwnThreadHandleFollows(repeat: bool, steps: seq<Step>)
    ensures
      var c := After(Assigned(Assigned(Submitted(repeat))), steps);
      && c.phase.Linked? && (c.cancelled <==> c.handleCancelled) && (c.cancelled <==> !c.cleanup)
  {
    if steps != [] {
      OwnThreadHandleFollows(repeat, steps[..|steps| - 1]);
    }
  }

  // From another thread a one-shot may fire before its handle has a name: it has run and is
  // cancelled for good, but the handle never is, and a cleanup is set for what is over.
  lemma EarlyFiringMissesHandle()
    ensures After(Submitted(false), [Fire(false, false), Assign, Assign]) == Ctx(false, Linked, true, true, false, 1)
  {
    var s0 := Submitted(false);
    var all := [Fire(false, false), Assign, Assign];
    assert all[..2][..1][..0] == [] && all[..2][..1] == [Fire(false, false)];
    assert After(s0, all[..2][..1]) == Ctx(false, Queued, true, false, false, 1);
    assert After(s0, all[..2]) == Ctx(false, Named, true, false, false, 1);
  }

  // An interval that nobody cancels and whose stop test never holds runs at every firing.
  lemma {:induction false} IntervalRunsEveryTime(c: Ctx, steps: seq<Step>)
    requires c.repeat && !c.cancelled
    requires forall i :: 0 <= i < |steps| ==> steps[i] == Fire(false, false) || steps[i].Assign?
    ensures
      var d := After(c, steps);
      d.repeat && !d.cancelled && d.runs == c.runs + Firings(steps)
  {
    if steps != [] {
      IntervalRunsEveryTime(c, steps[..|steps| - 1]);
    }
  }

  // The first firing after which the stop test holds, or during which the callback cancels its own
  // context, is the last: it runs once more and then never again, whatever happens later.
  lemma {:induction false} IntervalStops(c: Ctx, steps: seq<Step>, k: nat)
    requires c.repeat && !c.cancelled && k < |steps|
    requires forall i :: 0 <= i < k ==> steps[i] == Fire(false, false) || steps[i].Assign?
    requires steps[k].Fire? && (steps[k].cancelsItself || steps[k].stops)
    ensures After(c, steps).cancelled && After(c, steps).runs == c.runs + Firings(steps[..k]) + 1
    decreases |steps|
  {
    var n := |steps| - 1;
    if k < n {
      assert steps[..n][..k] == steps[..k];
      IntervalStops(c, steps[..n], k);
    } else {
      IntervalRunsEveryTime(c, steps[..k]);
    }
  }

  function Firings(steps: seq<Step>): nat {
    if steps == [] then 0
    else Firings(steps[..|steps| - 1]) + if steps[|steps| - 1].Fire? then 1 else 0
  }

  // A handle of the event loop.
  class Handle {
    var cancelled: bool

    constructor ()
      ensures !cancelled
    {
      cancelled := false;
    }

    method Cancel()
      modifies this
      ensures cancelled
    {
      cancelled := true;
    }
  }

  // A context and the closure that the loop calls; `entry` is the handle of the loop's entry and
  // `handle` the closure's name for it, not assigned at first.
  class Context {
    const repeat: bool
    const entry: Handle
    var handle: Handle?
    var linked: bool
    var cancelled: bool
    var cleanup: Handle?
    ghost var runs: nat

    ghost predicate Valid()
      reads this
    {
      (handle == null || handle == entry) && (cleanup == null || cleanup == entry) && (linked ==> handle != null)
    }

    ghost function View(): Ctx
      reads this, entry
    {
      Ctx(repeat, if linked then Linked else if handle != null then Named else Queued,
          cancelled, cleanup != null, entry.cancelled, runs)
    }

    constructor (repeat: bool)
      ensures Valid() && fresh(entry) && View() == Submitted(repeat)
    {
      entry := new Handle();
      this.repeat := repeat;
      handle, linked, cancelled, cleanup, runs := null, false, false, null, 0;
    }

    // The two assignments that follow the call of the loop.
    method Assign()
      requires Valid()
      modifies `handle, `linked, `cleanup
      ensures Valid() && View() == Assigned(old(View()))
    {
      if handle == null {
        handle := entry;
      } else if !linked {
        cleanup := handle;
        linked := true;
      }
    }

    method Cancel()
      requires Valid()
      modifies this, entry
      ensures Valid() && View() == Cancelled(old(View()))
    {
      if cancelled {
        return;
      }
      cancelled := true;
      var todo := cleanup;
      cleanup := null;
      if todo != null {
        todo.Cancel();
      }
    }

    method RunOnce(cancelsItself: bool, stops: bool) returns (keepAlive: bool)
      requires Valid()
      modifies this, entry
      ensures Valid() && View() == Ran(old(View()), cancelsItself, stops)
      ensures keepAlive == !cancelled
    {
      if cancelled {
        return false;
      }
      runs := runs + 1;
      if cancelsItself {
        Cancel();
      }
      keepAlive := repeat && !cancelled;
      if keepAlive && stops {
        keepAlive := false;
      }
      if !keepAlive {
        cancelled := true;
      }
    }

    // What the loop calls. Cancelling a handle without a name raises, which the loop catches.
    method Fire(cancelsItself: bool, stops: bool)
      requires Valid()
      modifies this, entry
      ensures Valid() && View() == FiredOnce(old(View()), cancelsItself, stops)
    {
      var again := RunOnce(cancelsItself, stops);
      if !again {
        if handle == null {
          return;
        }
        handle.Cancel();
        cleanup := null;
      }
    }
  }
}
