// Recent files and bookmarks are loaded once for all queries and kept until they are invalidated.
module CachedLookups {
  import opened Prelude
  import opened Lookups

  // `value` is what was loaded; the fields from `outstanding` on are the completions waiting in the
  // main loop, and history.
  datatype Cached<V, W> = Cached(
    value: Option<V>,
    loading: bool,
    onReady: Option<W>,
    loadId: nat,
    pendingFinish: Option<nat>,
    outstanding: seq<nat>,
    calls: seq<W>,
    applied: seq<nat>,
    raised: set<nat>)

  function Empty<V, W>(): Cached<V, W> {
    Cached(None, false, None, 0, None, [], [], [], {})
  }

  function Taken<V, W>(c: Cached<V, W>, loadId: nat, value: V): Cached<V, W> {
    if loadId != c.loadId || c.value.Some? then c
    else c.(value := Some(value), loading := false, pendingFinish := None, onReady := None,
            calls := c.calls + (if c.onReady.Some? then [c.onReady.value] else []),
            applied := c.applied + [loadId])
  }

  function Wanted<V, W>(c: Cached<V, W>, ready: W): Cached<V, W> {
    if c.value.Some? then c
    else if c.loading then c.(onReady := Some(ready))
    else c.(onReady := Some(ready), loading := true, pendingFinish := Some(c.loadId), outstanding := c.outstanding + [c.loadId])
  }

  function Dropped<V, W>(c: Cached<V, W>): Cached<V, W> {
    c.(value := None, loading := false, onReady := None, pendingFinish := None, loadId := c.loadId + 1)
  }

  function Hurried<V, W>(c: Cached<V, W>, outcome: Outcome<V>): Cached<V, W> {
    var d := c.(pendingFinish := None);
    if c.pendingFinish.None? || outcome.Raises? then d else Taken(d, c.pendingFinish.value, outcome.kind)
  }

  // A completion that comes too late does not read anything.
  function Loaded<V, W>(c: Cached<V, W>, i: nat, outcome: Outcome<V>): Cached<V, W>
    requires i < |c.outstanding|
  {
    var id := c.outstanding[i];
    var d := c.(outstanding := c.outstanding[..i] + c.outstanding[i + 1..]);
    if id != c.loadId || c.value.Some? then d
    else match outcome
      case Raises => d.(raised := d.raised + {id})
      case Found(value) => Taken(d, id, value)
  }

  datatype Step<V, W> =
    | Ensure(ready: W)
    | Invalidate
    | Flush(outcome: Outcome<V>)
    | Complete(i: nat, outcome: Outcome<V>)

  predicate Possible<V, W>(c: Cached<V, W>, s: Step<V, W>) {
    s.Complete? ==> s.i < |c.outstanding|
  }

  function Next<V, W>(c: Cached<V, W>, s: Step<V, W>): Cached<V, W>
    requires Possible(c, s)
  {
    match s
    case Ensure(ready) => Wanted(c, ready)
    case Invalidate => Dropped(c)
    case Flush(outcome) => Hurried(c, outcome)
    case Complete(i, outcome) => Loaded(c, i, outcome)
  }

  ghost predicate LoadsFit(outstanding: seq<nat>, loadId: nat, raised: set<nat>) {
    && (forall i :: 0 <= i < |outstanding| ==> outstanding[i] <= loadId && outstanding[i] !in raised)
    && (forall i, j :: 0 <= i < j < |outstanding| ==> outstanding[i] < outstanding[j])
    && (forall id :: id in raised ==> id <= loadId)
  }

  ghost predicate Sound<V, W>(c: Cached<V, W>) {
    && LoadsFit(c.outstanding, c.loadId, c.raised)
    && AppliedFit(c.applied, c.loadId, c.value.Some?)
    && (c.pendingFinish.Some? ==> c.pendingFinish.value == c.loadId && c.loading)
    && (c.loading ==> c.value.None?)
    && (c.loadId in c.raised ==> c.loading || c.value.Some?)
    && (c.onReady.Some? ==> c.loading)
    && (c.loading ==> c.loadId in c.outstanding || c.loadId in c.raised)
    && (c.loadId in c.outstanding ==> c.loading || c.value.Some?)
  }

  lemma LoadTaken(outstanding: seq<nat>, i: nat, loadId: nat, raised: set<nat>)
    requires i < |outstanding| && LoadsFit(outstanding, loadId, raised)
    ensures
      var rest := outstanding[..i] + outstanding[i + 1..];
      && LoadsFit(rest, loadId, raised) && LoadsFit(rest, loadId, raised + {outstanding[i]})
      && (forall id :: id in rest <==> id in outstanding && id != outstanding[i])
  {
    var rest := outstanding[..i] + outstanding[i + 1..];
    assert forall k :: 0 <= k < |rest| ==> rest[k] == outstanding[if k < i then k else k + 1];
    forall id | id in outstanding && id != outstanding[i] ensures id in rest {
      var k :| 0 <= k < |outstanding| && outstanding[k] == id;
      assert rest[if k < i then k else k - 1] == id;
    }
  }

  lemma WantedKeeps<V, W>(c: Cached<V, W>, ready: W)
    requires Sound(c)
    ensures Sound(Wanted(c, ready))
  {
    var d := Wanted(c, ready);
    assert c.value.None? && !c.loading ==> d.outstanding[|c.outstanding|] == c.loadId;
  }

  lemma LoadedKeeps<V, W>(c: Cached<V, W>, i: nat, outcome: Outcome<V>)
    requires Sound(c) && i < |c.outstanding|
    ensures Sound(Loaded(c, i, outcome))
  {
    LoadTaken(c.outstanding, i, c.loadId, c.raised);
  }

  lemma StepKeeps<V, W>(c: Cached<V, W>, s: Step<V, W>)
    requires Sound(c) && Possible(c, s)
    ensures Sound(Next(c, s))
  {
    match s
    case Ensure(ready) => WantedKeeps(c, ready);
    case Invalidate =>
    case Flush(outcome) =>
    case Complete(i, outcome) => LoadedKeeps(c, i, outcome);
  }

  function After<V, W>(c: Cached<V, W>, steps: seq<Step<V, W>>): Cached<V, W>
    requires AllPossible(c, steps)
    decreases |steps|, 1
  {
    if steps == [] then c else Next(After(c, steps[..|steps| - 1]), steps[|steps| - 1])
  }

  predicate AllPossible<V, W>(c: Cached<V, W>, steps: seq<Step<V, W>>)
    decreases |steps|, 0
  {
    steps == [] ||
    (AllPossible(c, steps[..|steps| - 1]) && Possible(After(c, steps[..|steps| - 1]), steps[|steps| - 1]))
  }

  lemma {:induction false} RunKeeps<V, W>(c: Cached<V, W>, steps: seq<Step<V, W>>)
    requires Sound(c) && AllPossible(c, steps)
    ensures Sound(After(c, steps))
  {
    if steps != [] {
      RunKeeps(c, steps[..|steps| - 1]);
      StepKeeps(After(c, steps[..|steps| - 1]), steps[|steps| - 1]);
    }
  }

  // Whoever waits has a completion coming, exactly when the current load's completion did not raise;
  // no load is applied twice.
  lemma WaiterIsAwaitedIffNotRaised<V, W>(steps: seq<Step<V, W>>)
    requires AllPossible(Empty(), steps)
    ensures
      var c := After(Empty<V, W>(), steps);
      && (c.onReady.Some? ==> (c.loadId in c.outstanding <==> c.loadId !in c.raised))
      && forall i, j :: 0 <= i < j < |c.applied| ==> c.applied[i] != c.applied[j]
  {
    RunKeeps(Empty<V, W>(), steps);
  }

  // A load that raised leaves the cache loading for good: however often it is wanted again, nothing
  // is started, nobody is called and nothing is loaded until somebody invalidates or flushes.
  lemma {:induction false} RaisedLoadBlocksTheCache<V, W(!new)>(c: Cached<V, W>, steps: seq<Step<V, W>>)
    requires Sound(c) && c.loading && c.loadId in c.raised && AllPossible(c, steps)
    requires forall i :: 0 <= i < |steps| ==> steps[i].Complete? || steps[i].Ensure?
    ensures
      var d := After(c, steps);
      && Sound(d) && d.loading && d.value.None? && d.calls == c.calls
      && d.loadId == c.loadId && d.loadId in d.raised && |d.outstanding| <= |c.outstanding|
  {
    if steps != [] {
      var before := steps[..|steps| - 1];
      RaisedLoadBlocksTheCache(c, before);
      assert steps[|steps| - 1].Complete? || steps[|steps| - 1].Ensure?;
      StepKeeps(After(c, before), steps[|steps| - 1]);
    }
  }

  // Whoever asks for an empty cache waits for it from then on, in the place of any earlier caller; it
  // is loaded once, and the load's completion, or a flush, fills it and calls that caller.
  lemma CallerIsAnswered<V, W>(c: Cached<V, W>, ready: W, i: nat, value: V)
    requires Sound(c) && c.value.None? && i < |Wanted(c, ready).outstanding|
    ensures
      var m := Wanted(c, ready);
      var done := Loaded(m, i, Found(value));
      && m.onReady == Some(ready) && m.loading && m.calls == c.calls
      && m.outstanding == c.outstanding + (if c.loading then [] else [c.loadId])
      && (if m.outstanding[i] == m.loadId then done.value == Some(value) && done.calls == c.calls + [ready]
          else done.value.None? && done.calls == c.calls && done.onReady == Some(ready))
      && (m.pendingFinish.Some? ==>
            var now := Hurried(m, Found(value));
            now.value == Some(value) && now.calls == c.calls + [ready] && now.onReady.None?)
  {
    WantedKeeps(c, ready);
  }

  class Cache<V, W> {
    var value: Option<V>
    var loading: bool
    var onReady: Option<W>
    var loadId: nat
    var pendingFinish: Option<nat>
    var mainLoop: seq<nat>
    ghost var calls: seq<W>
    ghost var applied: seq<nat>
    ghost var raised: set<nat>

    ghost function View(): Cached<V, W>
      reads this
    {
      Cached(value, loading, onReady, loadId, pendingFinish, mainLoop, calls, applied, raised)
    }

    constructor ()
      ensures View() == Empty()
    {
      value, loading, onReady, loadId, pendingFinish, mainLoop := None, false, None, 0, None, [];
      calls, applied, raised := [], [], {};
    }

    method Apply(loaded: V, id: nat)
      modifies this
      ensures View() == Taken(old(View()), id, loaded)
    {
      if id != loadId || value.Some? {
        return;
      }
      value := Some(loaded);
      loading := false;
      pendingFinish := None;
      applied := applied + [id];
      FlushReady();
    }

    method FlushReady()
      modifies `onReady, `calls
      ensures onReady.None? && calls == old(calls) + if old(onReady).Some? then [old(onReady).value] else []
    {
      var callback := onReady;
      onReady := None;
      if callback.Some? {
        calls := calls + [callback.value];
      }
    }

    method StartLoad()
      modifies `loading, `pendingFinish, `mainLoop
      ensures loading && pendingFinish == Some(loadId) && mainLoop == old(mainLoop) + [loadId]
    {
      loading := true;
      pendingFinish := Some(loadId);
      mainLoop := mainLoop + [loadId];
    }

    method EnsureLoaded(ready: W)
      modifies this
      ensures View() == Wanted(old(View()), ready)
    {
      if value.Some? {
        return;
      }
      onReady := Some(ready);
      if !loading {
        StartLoad();
      }
    }

    method InvalidateCache()
      modifies this
      ensures View() == Dropped(old(View()))
    {
      value, loading, onReady, pendingFinish := None, false, None, None;
      loadId := loadId + 1;
    }

    method FlushLookup(outcome: Outcome<V>)
      modifies this
      ensures View() == Hurried(old(View()), outcome)
    {
      var finish := pendingFinish;
      pendingFinish := None;
      if finish.Some? {
        if value.None? && outcome.Found? {
          Apply(outcome.kind, finish.value);
        }
      }
    }

    method RunCompletion(i: nat, outcome: Outcome<V>)
      requires i < |mainLoop|
      modifies this
      ensures View() == Loaded(old(View()), i, outcome)
    {
      var id := mainLoop[i];
      mainLoop := mainLoop[..i] + mainLoop[i + 1..];
      if id != loadId || value.Some? {
        return;
      }
      match outcome
      case Raises => raised := raised + {id};
      case Found(loaded) => Apply(loaded, id);
    }
  }
}
