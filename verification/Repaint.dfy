// The launcher mode paints a query at once and repaints it when a lookup is ready. Repaints are
// coalesced, use the newest plan, and stop when the query is cleared or the popup closes.
module Repaint {
  import opened Prelude
  import opened Lookups

  // What a query is planned to show: the text to look up as a path, whether paths are wanted at
  // all, and whether the entry holds an active query.
  datatype Plan<Q> = Plan(query: Q, wantPath: bool, active: bool)

  datatype Note<Q> = Planned(plan: Plan<Q>) | Cleared | Closed | Painted(plan: Plan<Q>)

  type Waiter = ()

  // `idle` is the repaint scheduled in the main loop, if any: cancelling it or running it clears
  // the field. `shown` is the path answer the newest paint of the current plan was based on.
  datatype Popup<Q, K> = Popup(
    paths: Keyed<Q, K, Waiter>,
    plan: Option<Plan<Q>>,
    accept: bool,
    idle: bool,
    shown: Option<Rows<Q, K>>,
    log: seq<Note<Q>>)

  function Fresh<Q, K>(): Popup<Q, K> {
    Popup(Unasked(), None, false, false, None, [])
  }

  function Answer<Q(==), K>(l: Keyed<Q, K, Waiter>, query: Q): Option<Rows<Q, K>> {
    if Lookups.Resolved(l, query) then l.rows else None
  }

  // A lookup that has called its waiter schedules a repaint, unless one is scheduled already.
  function Woken<Q, K>(p: Popup<Q, K>, paths: Keyed<Q, K, Waiter>): Popup<Q, K> {
    p.(paths := paths, idle := p.idle || (paths.calls != p.paths.calls && p.accept))
  }

  function Queried<Q(==), K>(p: Popup<Q, K>, plan: Plan<Q>): Popup<Q, K> {
    var paths := if plan.wantPath then Ensured(p.paths, plan.query, ()) else Invalidated(p.paths);
    p.(plan := Some(plan), accept := true, log := p.log + [Planned(plan)],
       shown := Answer(p.paths, plan.query), paths := paths)
  }

  function Repainted<Q(==), K>(p: Popup<Q, K>): Popup<Q, K> {
    var q := p.(idle := false);
    if p.plan.None? || !(p.accept && p.plan.value.active) then q
    else q.(shown := Answer(p.paths, p.plan.value.query), log := p.log + [Painted(p.plan.value)])
  }

  function Hurried<Q(==), K>(p: Popup<Q, K>, outcome: Outcome<K>): Popup<Q, K> {
    var q := Woken(p, Lookups.Flushed(p.paths, outcome));
    if q.idle then Repainted(q) else q
  }

  function Dropped<Q, K>(p: Popup<Q, K>): Popup<Q, K> {
    p.(plan := None, idle := false, paths := Invalidated(p.paths), log := p.log + [Cleared])
  }

  function Rejected<Q, K>(p: Popup<Q, K>): Popup<Q, K> {
    p.(plan := None, accept := false, idle := false, paths := Invalidated(p.paths), log := p.log + [Closed])
  }

  // `OtherReady` is a call back from the bookmark, recent-file, command or window lookups.
  datatype Step<Q, K> =
    | Query(plan: Plan<Q>)
    | Complete(i: nat, outcome: Outcome<K>)
    | OtherReady
    | Idle
    | Flush(outcome: Outcome<K>)
    | Clear
    | Close

  predicate Possible<Q, K>(p: Popup<Q, K>, s: Step<Q, K>) {
    match s
    case Complete(i, _) => i < |p.paths.outstanding|
    case Idle => p.idle
    case _ => true
  }

  function Next<Q(==), K>(p: Popup<Q, K>, s: Step<Q, K>): Popup<Q, K>
    requires Possible(p, s)
  {
    match s
    case Query(plan) => Queried(p, plan)
    case Complete(i, outcome) => Woken(p, Completed(p.paths, i, outcome))
    case OtherReady => p.(idle := p.idle || p.accept)
    case Idle => Repainted(p)
    case Flush(outcome) => Hurried(p, outcome)
    case Clear => Dropped(p)
    case Close => Rejected(p)
  }

  // The plan in force after a log: the newest one, unless the query was cleared or the popup closed.
  function InForce<Q>(log: seq<Note<Q>>): Option<Plan<Q>> {
    if log == [] then None
    else match log[|log| - 1]
      case Planned(plan) => Some(plan)
      case Painted(_) => InForce(log[..|log| - 1])
      case _ => None
  }

  ghost predicate PaintsInForce<Q>(log: seq<Note<Q>>) {
    forall j :: 0 <= j < |log| && log[j].Painted? ==> InForce(log[..j]) == Some(log[j].plan) && log[j].plan.active
  }

  // An answer that has arrived for the plan in force is on screen, or a repaint is scheduled; and
  // as long as it has not arrived, the lookup has somebody to call.
  ghost predicate NothingMissed<Q, K>(p: Popup<Q, K>) {
    p.plan.Some? && p.plan.value.wantPath ==>
      var q := p.plan.value.query;
      && (Lookups.Resolved(p.paths, q) ==> p.shown == p.paths.rows || p.idle || !p.plan.value.active)
      && (!Lookups.Resolved(p.paths, q) ==> p.paths.query == Some(q) && p.paths.onReady.Some?)
  }

  ghost predicate Sound<Q, K>(p: Popup<Q, K>) {
    && Lookups.Sound(p.paths)
    && p.plan == InForce(p.log)
    && (p.plan.Some? ==> p.accept)
    && PaintsInForce(p.log)
    && NothingMissed(p)
  }

  lemma LogSnoc<Q>(log: seq<Note<Q>>, note: Note<Q>)
    requires PaintsInForce(log)
    requires note.Painted? ==> InForce(log) == Some(note.plan) && note.plan.active
    ensures PaintsInForce(log + [note])
    ensures InForce(log + [note]) ==
      match note { case Planned(plan) => Some(plan) case Painted(_) => InForce(log) case _ => None }
  {
    var longer := log + [note];
    assert longer[..|log|] == log;
    forall j | 0 <= j < |longer| && longer[j].Painted?
      ensures InForce(longer[..j]) == Some(longer[j].plan) && longer[j].plan.active
    {
      assert longer[..j] == log[..j];
    }
  }

  lemma RepaintKeeps<Q(!new), K>(p: Popup<Q, K>)
    requires Sound(p)
    ensures Sound(Repainted(p))
  {
    if p.plan.Some? && p.accept && p.plan.value.active {
      LogSnoc(p.log, Painted(p.plan.value));
    }
  }

  lemma WakeKeeps<Q(!new), K>(p: Popup<Q, K>, paths: Keyed<Q, K, Waiter>)
    requires Sound(p) && Lookups.Sound(paths)
    requires paths == p.paths.(outstanding := paths.outstanding, pendingFinish := paths.pendingFinish, raised := paths.raised)
      || (paths.resolved && paths.query == p.paths.query
          && (p.paths.onReady.Some? ==> paths.calls != p.paths.calls)
          && !p.paths.resolved)
    ensures Sound(Woken(p, paths))
  {
  }

  lemma QueryKeeps<Q(!new), K>(p: Popup<Q, K>, plan: Plan<Q>)
    requires Sound(p)
    ensures Sound(Queried(p, plan))
  {
    LogSnoc(p.log, Planned(plan));
    EnsureKeeps(p.paths, plan.query, ());
    assert Invalidated(p.paths).outstanding == p.paths.outstanding;
  }

  lemma StepKeeps<Q(!new), K>(p: Popup<Q, K>, s: Step<Q, K>)
    requires Sound(p) && Possible(p, s)
    ensures Sound(Next(p, s))
  {
    match s
    case Query(plan) => QueryKeeps(p, plan);
    case Complete(i, outcome) =>
      CompleteKeeps(p.paths, i, outcome);
      WakeKeeps(p, Completed(p.paths, i, outcome));
    case OtherReady =>
    case Idle => RepaintKeeps(p);
    case Flush(outcome) =>
      FlushKeeps(p.paths, outcome);
      WakeKeeps(p, Lookups.Flushed(p.paths, outcome));
      RepaintKeeps(Woken(p, Lookups.Flushed(p.paths, outcome)));
    case Clear =>
      LogSnoc(p.log, Cleared);
      Lookups.StepKeeps(p.paths, Lookups.Step.Invalidate);
    case Close =>
      LogSnoc(p.log, Closed);
      Lookups.StepKeeps(p.paths, Lookups.Step.Invalidate);
  }

  function After<Q(==), K>(p: Popup<Q, K>, steps: seq<Step<Q, K>>): Popup<Q, K>
    requires AllPossible(p, steps)
    decreases |steps|, 1
  {
    if steps == [] then p else Next(After(p, steps[..|steps| - 1]), steps[|steps| - 1])
  }

  predicate AllPossible<Q(==), K>(p: Popup<Q, K>, steps: seq<Step<Q, K>>)
    decreases |steps|, 0
  {
    steps == [] ||
    (AllPossible(p, steps[..|steps| - 1]) && Possible(After(p, steps[..|steps| - 1]), steps[|steps| - 1]))
  }

  lemma {:induction false} EveryRunIsSound<Q(!new), K>(steps: seq<Step<Q, K>>)
    requires AllPossible(Fresh(), steps)
    ensures Sound(After(Fresh(), steps))
  {
    if steps != [] {
      EveryRunIsSound(steps[..|steps| - 1]);
      StepKeeps(After(Fresh(), steps[..|steps| - 1]), steps[|steps| - 1]);
    }
  }

  // Every repaint uses the newest plan, and none happens after the query was cleared or the popup
  // closed until a new query is planned.
  lemma RepaintsUseTheNewestPlan<Q(!new), K>(steps: seq<Step<Q, K>>, j: nat)
    requires AllPossible(Fresh(), steps)
    requires j < |After(Fresh<Q, K>(), steps).log| && After(Fresh<Q, K>(), steps).log[j].Painted?
    ensures
      var log := After(Fresh<Q, K>(), steps).log;
      exists i :: 0 <= i < j && log[i] == Planned(log[j].plan) && forall k :: i < k < j ==> log[k].Painted?
  {
    EveryRunIsSound(steps);
    var log := After(Fresh<Q, K>(), steps).log;
    var i := InForceSince(log[..j]);
    assert log[..j][i] == log[i];
    forall k | i < k < j ensures log[k].Painted? {
      assert log[..j][k].Painted?;
    }
  }

  lemma {:induction false} InForceSince<Q>(log: seq<Note<Q>>) returns (i: nat)
    requires InForce(log).Some?
    ensures i < |log| && log[i] == Planned(InForce(log).value)
    ensures forall k :: i < k < |log| ==> log[k].Painted?
  {
    var n := |log| - 1;
    if log[n].Planned? {
      i := n;
    } else {
      i := InForceSince(log[..n]);
      assert forall k :: i < k < n ==> log[..n][k].Painted?;
    }
  }

  // No answer is missed: for the plan in force, either the path's answer is on screen, or a repaint
  // is scheduled, or its completion is still coming, or that completion raised.
  lemma AnswerReachesScreen<Q(!new), K>(steps: seq<Step<Q, K>>)
    requires AllPossible(Fresh(), steps)
    requires After(Fresh<Q, K>(), steps).plan.Some?
    requires After(Fresh<Q, K>(), steps).plan.value.wantPath && After(Fresh<Q, K>(), steps).plan.value.active
    ensures
      var p := After(Fresh<Q, K>(), steps);
      var q := p.plan.value.query;
      || (Lookups.Resolved(p.paths, q) && p.shown == p.paths.rows && p.shown.Some? && p.shown.value.query == q)
      || p.idle
      || (p.paths.onReady.Some? && Awaited(p.paths))
      || p.paths.loadId in p.paths.raised
  {
    EveryRunIsSound(steps);
  }

  class LauncherMode<Q(==), K> {
    const paths: Lookup<Q, K, Waiter>
    var lookupIdle: bool
    var paintPlanned: Option<Plan<Q>>
    var acceptPaint: bool
    ghost var shown: Option<Rows<Q, K>>
    ghost var log: seq<Note<Q>>

    ghost function View(): Popup<Q, K>
      reads this, paths
    {
      Popup(paths.View(), paintPlanned, acceptPaint, lookupIdle, shown, log)
    }

    constructor ()
      ensures fresh(paths) && View() == Fresh()
    {
      var lookup := new Lookup<Q, K, Waiter>();
      paths := lookup;
      lookupIdle, paintPlanned, acceptPaint := false, None, false;
      shown, log := None, [];
    }

    method HandleQuery(plan: Plan<Q>) returns (rows: Option<Rows<Q, K>>)
      modifies this, paths
      ensures View() == Queried(old(View()), plan) && rows == shown
    {
      paintPlanned := Some(plan);
      acceptPaint := true;
      log := log + [Planned(plan)];
      rows := paths.Search(plan.query);
      shown := rows;
      if plan.wantPath {
        paths.EnsureLookup(plan.query, ());
      } else {
        paths.InvalidateLookup();
      }
    }

    method ScheduleRepaint()
      modifies `lookupIdle
      ensures lookupIdle == (old(lookupIdle) || acceptPaint)
    {
      if lookupIdle || !acceptPaint {
        return;
      }
      lookupIdle := true;
    }

    // A path completion's turn in the main loop.
    method PathCompletes(i: nat, outcome: Outcome<K>)
      requires i < |paths.mainLoop|
      modifies this, paths
      ensures View() == Woken(old(View()), Completed(old(paths.View()), i, outcome))
    {
      ghost var before := paths.calls;
      var waiting := paths.onReady.Some?;
      paths.RunCompletion(i, outcome);
      if waiting && paths.onReady.None? {
        ScheduleRepaint();
      }
    }

    method RunRepaint() returns (rows: Option<Rows<Q, K>>)
      modifies this
      ensures View() == Repainted(old(View()))
    {
      lookupIdle := false;
      rows := None;
      if paintPlanned.None? {
        return;
      }
      if !(acceptPaint && paintPlanned.value.active) {
        return;
      }
      rows := paths.Search(paintPlanned.value.query);
      shown := rows;
      log := log + [Painted(paintPlanned.value)];
    }

    method FlushLookups(outcome: Outcome<K>)
      modifies this, paths
      ensures View() == Hurried(old(View()), outcome)
    {
      var waiting := paths.onReady.Some?;
      paths.FlushLookup(outcome);
      if waiting && paths.onReady.None? {
        ScheduleRepaint();
      }
      if lookupIdle {
        var rows := RunRepaint();
      }
    }

    method DropTypedAsyncPaint()
      modifies this, paths
      ensures View() == Dropped(old(View()))
    {
      lookupIdle := false;
      paintPlanned := None;
      paths.InvalidateLookup();
      log := log + [Cleared];
    }

    method RejectAsyncPaint()
      modifies this, paths
      ensures View() == Rejected(old(View()))
    {
      acceptPaint := false;
      lookupIdle := false;
      paintPlanned := None;
      paths.InvalidateLookup();
      log := log + [Closed];
    }
  }
}
