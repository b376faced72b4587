// Slow facts about paths, commands, recent files and bookmarks are looked up on a later turn of the
// main loop. A load id tells a completion that nobody waits for any more from the current one.
module Lookups {
  import opened Prelude

  // ---------------------------------------------------------------- lookups for one query

  // A load that was started: what it asks, and the id it was given.
  datatype Ticket<Q> = Ticket(query: Q, loadId: nat)

  // Asking the file system may also raise.
  datatype Outcome<K> = Found(kind: K) | Raises

  // Rows remember which query they were computed for, and from which answer.
  datatype Rows<Q, K> = Rows(query: Q, kind: K)

  // The lookup record of paths and commands. `query` is None for the empty string. The fields from
  // `outstanding` on are the completions waiting in the main loop, and history: the callbacks
  // called, the loads whose answer was applied, and those whose completion raised.
  datatype Keyed<Q, K, W> = Keyed(
    query: Option<Q>,
    rows: Option<Rows<Q, K>>,
    resolved: bool,
    onReady: Option<W>,
    loadId: nat,
    pendingFinish: Option<Ticket<Q>>,
    outstanding: seq<Ticket<Q>>,
    calls: seq<W>,
    applied: seq<nat>,
    raised: set<nat>)

  function Unasked<Q, K, W>(): Keyed<Q, K, W> {
    Keyed(None, None, false, None, 0, None, [], [], [], {})
  }

  function Applied<Q(==), K, W>(l: Keyed<Q, K, W>, t: Ticket<Q>, kind: K): Keyed<Q, K, W> {
    if t.loadId != l.loadId then l
    else if l.resolved && l.query == Some(t.query) then l
    else l.(rows := Some(Rows(t.query, kind)), resolved := true, pendingFinish := None, onReady := None,
            calls := l.calls + (if l.onReady.Some? then [l.onReady.value] else []),
            applied := l.applied + [t.loadId])
  }

  function Ensured<Q(==), K, W>(l: Keyed<Q, K, W>, query: Q, ready: W): Keyed<Q, K, W> {
    if l.query == Some(query) && l.resolved then l
    else if l.query == Some(query) then l.(onReady := Some(ready))
    else
      var t := Ticket(query, l.loadId + 1);
      l.(onReady := Some(ready), loadId := t.loadId, query := Some(query), resolved := false,
         pendingFinish := Some(t), outstanding := l.outstanding + [t])
  }

  function Invalidated<Q, K, W>(l: Keyed<Q, K, W>): Keyed<Q, K, W> {
    l.(query := None, rows := None, resolved := false, onReady := None, pendingFinish := None, loadId := l.loadId + 1)
  }

  function Flushed<Q(==), K, W>(l: Keyed<Q, K, W>, outcome: Outcome<K>): Keyed<Q, K, W> {
    var m := l.(pendingFinish := None);
    if l.pendingFinish.None? || outcome.Raises? then m else Applied(m, l.pendingFinish.value, outcome.kind)
  }

  function Completed<Q(==), K, W>(l: Keyed<Q, K, W>, i: nat, outcome: Outcome<K>): Keyed<Q, K, W>
    requires i < |l.outstanding|
  {
    var t := l.outstanding[i];
    var m := l.(outstanding := l.outstanding[..i] + l.outstanding[i + 1..]);
    match outcome
    case Raises => m.(raised := m.raised + {t.loadId})
    case Found(kind) => Applied(m, t, kind)
  }

  datatype Step<Q, K, W> =
    | Ensure(query: Q, ready: W)
    | Invalidate
    | Flush(outcome: Outcome<K>)
    | Complete(i: nat, outcome: Outcome<K>)

  predicate Possible<Q, K, W>(l: Keyed<Q, K, W>, s: Step<Q, K, W>) {
    s.Complete? ==> s.i < |l.outstanding|
  }

  function Next<Q(==), K, W>(l: Keyed<Q, K, W>, s: Step<Q, K, W>): Keyed<Q, K, W>
    requires Possible(l, s)
  {
    match s
    case Ensure(query, ready) => Ensured(l, query, ready)
    case Invalidate => Invalidated(l)
    case Flush(outcome) => Flushed(l, outcome)
    case Complete(i, outcome) => Completed(l, i, outcome)
  }

  // The current load has a completion waiting.
  ghost predicate Awaited<Q, K, W>(l: Keyed<Q, K, W>) {
    exists i :: 0 <= i < |l.outstanding| && l.outstanding[i].loadId == l.loadId
  }

  // At most one completion per load, and the current load's asks the current query.
  ghost predicate TicketsFit<Q>(outstanding: seq<Ticket<Q>>, loadId: nat, query: Option<Q>) {
    && (forall i :: 0 <= i < |outstanding| ==> outstanding[i].loadId <= loadId)
    && (forall i, j :: 0 <= i < j < |outstanding| ==> outstanding[i].loadId < outstanding[j].loadId)
    && (forall i :: 0 <= i < |outstanding| && outstanding[i].loadId == loadId ==> query == Some(outstanding[i].query))
  }

  // A load whose completion raised has no completion any more.
  ghost predicate RaisedFit<Q>(raised: set<nat>, outstanding: seq<Ticket<Q>>, loadId: nat) {
    && (forall id :: id in raised ==> id <= loadId)
    && (forall i :: 0 <= i < |outstanding| ==> outstanding[i].loadId !in raised)
  }

  // Every load is applied at most once.
  ghost predicate AppliedFit(applied: seq<nat>, loadId: nat, resolved: bool) {
    && (forall i, j :: 0 <= i < j < |applied| ==> applied[i] < applied[j])
    && (forall i :: 0 <= i < |applied| ==> applied[i] <= loadId)
    && (|applied| > 0 && applied[|applied| - 1] == loadId ==> resolved)
  }

  ghost predicate Sound<Q, K, W>(l: Keyed<Q, K, W>) {
    && TicketsFit(l.outstanding, l.loadId, l.query)
    && RaisedFit(l.raised, l.outstanding, l.loadId)
    && AppliedFit(l.applied, l.loadId, l.resolved)
    && (l.pendingFinish.Some? ==>
          && l.query == Some(l.pendingFinish.value.query) && l.pendingFinish.value.loadId == l.loadId
          && !l.resolved)
    // rows belong to the query they are offered for
    && (l.resolved ==> l.query.Some? && l.rows.Some? && l.rows.value.query == l.query.value)
    // somebody waits only for a query that is being looked up
    && (l.onReady.Some? ==> l.query.Some? && !l.resolved)
    && (l.query.Some? && !l.resolved ==> Awaited(l) || l.loadId in l.raised)
  }

  // Taking one completion from the main loop.
  lemma TicketTaken<Q>(outstanding: seq<Ticket<Q>>, i: nat, loadId: nat, query: Option<Q>, raised: set<nat>)
    requires i < |outstanding| && TicketsFit(outstanding, loadId, query) && RaisedFit(raised, outstanding, loadId)
    ensures
      var rest := outstanding[..i] + outstanding[i + 1..];
      && TicketsFit(rest, loadId, query)
      && RaisedFit(raised, rest, loadId)
      && RaisedFit(raised + {outstanding[i].loadId}, rest, loadId)
  {
    var rest := outstanding[..i] + outstanding[i + 1..];
    assert forall k :: 0 <= k < |rest| ==> rest[k] == outstanding[if k < i then k else k + 1];
  }

  lemma EnsureKeeps<Q(!new), K, W>(l: Keyed<Q, K, W>, query: Q, ready: W)
    requires Sound(l)
    ensures Sound(Ensured(l, query, ready))
  {
    var m := Ensured(l, query, ready);
    if l.query != Some(query) {
      assert m.outstanding[|l.outstanding|] == Ticket(query, m.loadId);
    } else {
      assert m.outstanding == l.outstanding;
    }
  }

  lemma FlushKeeps<Q(!new), K, W>(l: Keyed<Q, K, W>, outcome: Outcome<K>)
    requires Sound(l)
    ensures Sound(Flushed(l, outcome))
  {
    assert Flushed(l, outcome).outstanding == l.outstanding;
  }

  lemma CompleteKeeps<Q(!new), K, W>(l: Keyed<Q, K, W>, i: nat, outcome: Outcome<K>)
    requires Sound(l) && i < |l.outstanding|
    ensures Sound(Completed(l, i, outcome))
  {
    var m := Completed(l, i, outcome);
    TicketTaken(l.outstanding, i, l.loadId, l.query, l.raised);
    if l.outstanding[i].loadId != l.loadId && Awaited(l) {
      var k :| 0 <= k < |l.outstanding| && l.outstanding[k].loadId == l.loadId;
      assert m.outstanding[if k < i then k else k - 1].loadId == m.loadId;
    }
  }

  lemma StepKeeps<Q(!new), K, W>(l: Keyed<Q, K, W>, s: Step<Q, K, W>)
    requires Sound(l) && Possible(l, s)
    ensures Sound(Next(l, s))
  {
    match s
    case Ensure(query, ready) => EnsureKeeps(l, query, ready);
    case Invalidate => assert Invalidated(l).outstanding == l.outstanding;
    case Flush(outcome) => FlushKeeps(l, outcome);
    case Complete(i, outcome) => CompleteKeeps(l, i, outcome);
  }

  function After<Q(==), K, W>(l: Keyed<Q, K, W>, steps: seq<Step<Q, K, W>>): Keyed<Q, K, W>
    requires AllPossible(l, steps)
    decreases |steps|, 1
  {
    if steps == [] then l else Next(After(l, steps[..|steps| - 1]), steps[|steps| - 1])
  }

  predicate AllPossible<Q(==), K, W>(l: Keyed<Q, K, W>, steps: seq<Step<Q, K, W>>)
    decreases |steps|, 0
  {
    steps == [] ||
    (AllPossible(l, steps[..|steps| - 1]) && Possible(After(l, steps[..|steps| - 1]), steps[|steps| - 1]))
  }

  lemma {:induction false} EveryRunIsSound<Q(!new), K, W>(steps: seq<Step<Q, K, W>>)
    requires AllPossible(Unasked(), steps)
    ensures Sound(After(Unasked(), steps))
  {
    if steps != [] {
      EveryRunIsSound(steps[..|steps| - 1]);
      StepKeeps(After(Unasked(), steps[..|steps| - 1]), steps[|steps| - 1]);
    }
  }

  // What a search reads.
  predicate Resolved<Q(==), K, W>(l: Keyed<Q, K, W>, query: Q) {
    l.query == Some(query) && l.resolved
  }

  // In every interleaving the rows a search is given were computed for the query it asks about, and
  // no load's answer was taken over twice.
  lemma RowsAnswerTheQuery<Q(!new), K, W>(steps: seq<Step<Q, K, W>>, query: Q)
    requires AllPossible(Unasked(), steps) && Resolved(After(Unasked(), steps), query)
    ensures
      var l := After(Unasked(), steps);
      && l.rows.Some? && l.rows.value.query == query
      && forall i, j :: 0 <= i < j < |l.applied| ==> l.applied[i] != l.applied[j]
  {
    EveryRunIsSound(steps);
  }

  // Whoever waits has a completion coming, exactly when the completion of the current load did not
  // raise: after that nothing is left to wake the waiter.
  lemma WaiterIsAwaitedIffNotRaised<Q(!new), K, W>(steps: seq<Step<Q, K, W>>)
    requires AllPossible(Unasked(), steps) && After(Unasked(), steps).onReady.Some?
    ensures
      var l := After(Unasked(), steps);
      Awaited(l) <==> l.loadId !in l.raised
  {
    EveryRunIsSound(steps);
  }

  // A waiter whose load raised sleeps through every later completion and every repeated request for
  // the same query, however many there are.
  lemma {:induction false} LostWakeUpStaysLost<Q(!new), K, W(!new)>(l: Keyed<Q, K, W>, steps: seq<Step<Q, K, W>>)
    requires Sound(l) && l.onReady.Some? && l.loadId in l.raised && AllPossible(l, steps)
    requires forall i :: 0 <= i < |steps| ==> steps[i].Complete? || (steps[i].Ensure? && Some(steps[i].query) == l.query)
    ensures
      var m := After(l, steps);
      && Sound(m) && m.calls == l.calls && m.onReady.Some? && !m.resolved
      && m.query == l.query && m.loadId == l.loadId && m.loadId in m.raised
  {
    if steps != [] {
      var before := steps[..|steps| - 1];
      LostWakeUpStaysLost(l, before);
      assert steps[|steps| - 1].Complete? || (steps[|steps| - 1].Ensure? && Some(steps[|steps| - 1].query) == l.query);
      StepKeeps(After(l, before), steps[|steps| - 1]);
    }
  }

  // Concretely: the completion raises, the same query is asked again, and nothing is on its way.
  lemma LostWakeUp<K(!new)>()
    ensures
      var steps: seq<Step<string, K, int>> := [Ensure("~/secret", 1), Complete(0, Raises), Ensure("~/secret", 2)];
      && AllPossible(Unasked<string, K, int>(), steps)
      && After(Unasked(), steps).onReady == Some(2) && After(Unasked(), steps).outstanding == []
  {
    var s1: Step<string, K, int> := Ensure("~/secret", 1);
    var s2: Step<string, K, int> := Complete(0, Raises);
    var s3: Step<string, K, int> := Ensure("~/secret", 2);
    var l: Keyed<string, K, int> := Unasked();
    assert [s1][..0] == [] && [s1, s2][..1] == [s1] && [s1, s2, s3][..2] == [s1, s2];
    assert After(l, []) == l;
    assert After(l, [s1]) == Ensured(l, "~/secret", 1);
    assert After(l, [s1, s2]) == Completed(After(l, [s1]), 0, Raises);
    assert After(l, [s1, s2, s3]) == Ensured(After(l, [s1, s2]), "~/secret", 2);
  }

  // When the awaited completion does arrive, the waiter is called and the query is answered; a
  // completion of an older load changes nothing at all.
  lemma CompletionWakes<Q(!new), K, W>(l: Keyed<Q, K, W>, i: nat, kind: K)
    requires Sound(l) && i < |l.outstanding|
    ensures
      var m := Completed(l, i, Found(kind));
      if l.outstanding[i].loadId == l.loadId && l.onReady.Some? then
        && m.calls == l.calls + [l.onReady.value] && m.onReady.None?
        && Resolved(m, l.query.value) && m.rows == Some(Rows(l.query.value, kind))
      else if l.outstanding[i].loadId != l.loadId then
        m == l.(outstanding := m.outstanding)
      else m.calls == l.calls
  {
  }

  // Whoever asks about a query that is not answered yet waits for it from then on, in the place of
  // any earlier waiter, and a new query is loaded: the completion of that load calls the asker with
  // the answer there, and is the only one that does.
  lemma AskerIsAnswered<Q(!new), K, W>(l: Keyed<Q, K, W>, query: Q, ready: W, i: nat, kind: K)
    requires Sound(l) && !Resolved(l, query) && i < |Ensured(l, query, ready).outstanding|
    ensures
      var m := Ensured(l, query, ready);
      var done := Completed(m, i, Found(kind));
      && m.query == Some(query) && m.onReady == Some(ready) && m.calls == l.calls
      && m.outstanding == l.outstanding + (if l.query == Some(query) then [] else [Ticket(query, m.loadId)])
      && (m.outstanding[i].loadId == m.loadId ==>
            done.calls == l.calls + [ready] && Resolved(done, query) && done.rows == Some(Rows(query, kind)))
      && (m.outstanding[i].loadId != m.loadId ==> done.calls == l.calls && done.onReady == Some(ready))
  {
    EnsureKeeps(l, query, ready);
    CompletionWakes(Ensured(l, query, ready), i, kind);
  }

  // A flush that finds an answer resolves the query at once and wakes the waiter; the completion that
  // is still on its way then changes nothing. A flush that finds none leaves query and waiter alone.
  lemma FlushResolves<Q(!new), K, W>(l: Keyed<Q, K, W>, outcome: Outcome<K>)
    requires Sound(l) && l.pendingFinish.Some?
    ensures Flushed(l, outcome).pendingFinish.None?
    ensures outcome.Raises? ==> Flushed(l, outcome) == l.(pendingFinish := None)
    ensures outcome.Found? ==>
      var m := Flushed(l, outcome);
      && Resolved(m, l.query.value) && m.rows == Some(Rows(l.query.value, outcome.kind))
      && m.onReady.None? && m.calls == l.calls + (if l.onReady.Some? then [l.onReady.value] else [])
      && forall i: nat, late {:trigger Completed(m, i, Found(late))} ::
           i < |m.outstanding| && m.outstanding[i].loadId == m.loadId ==>
             Completed(m, i, Found(late)) == m.(outstanding := m.outstanding[..i] + m.outstanding[i + 1..])
  {
  }

  class Lookup<Q(==), K, W> {
    var query: Option<Q>
    var rows: Option<Rows<Q, K>>
    var resolved: bool
    var onReady: Option<W>
    var loadId: nat
    var pendingFinish: Option<Ticket<Q>>
    var mainLoop: seq<Ticket<Q>>
    ghost var calls: seq<W>
    ghost var applied: seq<nat>
    ghost var raised: set<nat>

    ghost function View(): Keyed<Q, K, W>
      reads this
    {
      Keyed(query, rows, resolved, onReady, loadId, pendingFinish, mainLoop, calls, applied, raised)
    }

    constructor ()
      ensures View() == Unasked()
    {
      query, rows, resolved, onReady, loadId, pendingFinish, mainLoop := None, None, false, None, 0, None, [];
      calls, applied, raised := [], [], {};
    }

    // Calling a waiter back; a waiter only schedules work for a later turn.
    method CallReady() returns (called: Option<W>)
      modifies `onReady, `calls
      ensures called == old(onReady) && onReady.None?
      ensures calls == old(calls) + if called.Some? then [called.value] else []
    {
      called := onReady;
      onReady := None;
      if called.Some? {
        calls := calls + [called.value];
      }
    }

    method Apply(t: Ticket<Q>, kind: K)
      modifies this
      ensures View() == Applied(old(View()), t, kind)
    {
      if t.loadId != loadId {
        return;
      }
      if resolved && query == Some(t.query) {
        return;
      }
      rows := Some(Rows(t.query, kind));
      resolved := true;
      pendingFinish := None;
      applied := applied + [t.loadId];
      var called := CallReady();
    }

    method EnsureLookup(asked: Q, ready: W)
      modifies this
      ensures View() == Ensured(old(View()), asked, ready)
    {
      if query == Some(asked) && resolved {
        return;
      }
      onReady := Some(ready);
      if query == Some(asked) && !resolved {
        return;
      }
      loadId := loadId + 1;
      query := Some(asked);
      resolved := false;
      pendingFinish := Some(Ticket(asked, loadId));
      mainLoop := mainLoop + [Ticket(asked, loadId)];
    }

    method InvalidateLookup()
      modifies this
      ensures View() == Invalidated(old(View()))
    {
      query, rows, resolved, onReady, pendingFinish := None, None, false, None, None;
      loadId := loadId + 1;
    }

    method FlushLookup(outcome: Outcome<K>)
      modifies this
      ensures View() == Flushed(old(View()), outcome)
    {
      var finish := pendingFinish;
      pendingFinish := None;
      if finish.Some? && outcome.Found? {
        Apply(finish.value, outcome.kind);
      }
    }

    // A completion's turn in the main loop; an exception ends at the loop's barrier.
    method RunCompletion(i: nat, outcome: Outcome<K>)
      requires i < |mainLoop|
      modifies this
      ensures View() == Completed(old(View()), i, outcome)
    {
      var t := mainLoop[i];
      mainLoop := mainLoop[..i] + mainLoop[i + 1..];
      match outcome
      case Raises => raised := raised + {t.loadId};
      case Found(kind) => Apply(t, kind);
    }

    method Search(asked: Q) returns (found: Option<Rows<Q, K>>)
      ensures found == if Resolved(View(), asked) then rows else None
    {
      found := if query == Some(asked) && resolved then rows else None;
    }
  }
}
