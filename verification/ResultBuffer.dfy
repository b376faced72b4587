// Streamed result batches, the throttled buffer that collects them and the list they are painted on.
module ResultBuffer {
  import opened Prelude

  // One "render results" effect: the rows it carries, whether they extend what the
  // stream has shown so far, and whether the stream is over.
  datatype Batch<T> = Batch(results: seq<T>, append: bool, final: bool)

  // What a reader expects to see after a list of batches, with no buffering at all:
  // an appending batch extends the list, any other batch replaces it.
  function Fold<T>(batches: seq<Batch<T>>): seq<T> {
    if batches == [] then []
    else
      var last := batches[|batches| - 1];
      if last.append then Fold(batches[..|batches| - 1]) + last.results else last.results
  }

  // The buffer's fields together with the list on screen.
  datatype Screen<T> = Screen(
    buffer: Option<seq<T>>,
    painted: bool,
    isAppending: bool,
    armed: bool,
    wired: bool,
    shown: seq<T>)

  function Cleared<T>(s: Screen<T>): Screen<T> {
    Screen(None, false, false, false, false, s.shown)
  }

  function Flushed<T>(s: Screen<T>): Screen<T> {
    if !s.wired || s.buffer.None? then s
    else Screen(None, true, false, false, false,
                if s.painted && s.isAppending then s.shown + s.buffer.value else s.buffer.value)
  }

  function Fired<T>(s: Screen<T>): Screen<T> {
    if s.armed then Flushed(s) else s
  }

  function Collected<T>(s: Screen<T>, b: Batch<T>): Screen<T> {
    if b.append && s.buffer.Some?
    then s.(wired := true, buffer := Some(s.buffer.value + b.results))
    else s.(wired := true, buffer := Some(b.results), isAppending := b.append)
  }

  function Enqueued<T>(s: Screen<T>, b: Batch<T>): Screen<T> {
    var t := Collected(s, b);
    if b.final then Flushed(t) else t.(armed := true)
  }

  // Something else than the stream puts a list on screen.
  function Covered<T>(s: Screen<T>, rows: seq<T>): Screen<T> {
    s.(shown := rows)
  }

  // The screen after a reset and the batches `all`, of which the first `upTo` have been painted.
  ghost predicate Tracks<T(!new)>(s: Screen<T>, all: seq<Batch<T>>, upTo: nat) {
    && upTo <= |all|
    && (s.armed <==> s.buffer.Some?)
    && (s.buffer.Some? ==> s.wired)
    && (s.painted <==> upTo > 0)
    && (s.painted ==> s.shown == Fold(all[..upTo]))
    && (s.buffer.None? <==> upTo == |all|)
    && (s.buffer.Some? ==>
          Fold(all) == if s.painted && s.isAppending then s.shown + s.buffer.value else s.buffer.value)
  }

  lemma ClearedTracks<T(!new)>(s: Screen<T>)
    ensures Tracks(Cleared(s), [], 0)
  {
  }

  // Painting catches the screen up with every batch received.
  lemma FlushedTracks<T(!new)>(s: Screen<T>, all: seq<Batch<T>>, upTo: nat)
    requires Tracks(s, all, upTo)
    ensures Tracks(Flushed(s), all, |all|)
    ensures Flushed(s).buffer.None?
  {
    assert all[..|all|] == all;
  }

  lemma CollectedFolds<T(!new)>(s: Screen<T>, all: seq<Batch<T>>, upTo: nat, b: Batch<T>)
    requires Tracks(s, all, upTo)
    ensures
      var t := Collected(s, b);
      Fold(all + [b]) == if t.painted && t.isAppending then t.shown + t.buffer.value else t.buffer.value
  {
    assert (all + [b])[..|all|] == all;
    if b.append && s.buffer.Some? && s.painted && s.isAppending {
      assert (s.shown + s.buffer.value) + b.results == s.shown + (s.buffer.value + b.results);
    }
    if s.buffer.None? {
      assert all[..upTo] == all;
    }
  }

  // One batch, whatever its flags: an unfinished one is buffered with the timer armed,
  // a closing one is painted at once.
  lemma EnqueuedTracks<T(!new)>(s: Screen<T>, all: seq<Batch<T>>, upTo: nat, b: Batch<T>)
    requires Tracks(s, all, upTo)
    ensures Tracks(Enqueued(s, b), all + [b], if b.final then |all| + 1 else upTo)
    ensures !b.final ==> Enqueued(s, b).shown == s.shown
  {
    var next := all + [b];
    var t := Collected(s, b);
    CollectedFolds(s, all, upTo, b);
    assert next[..upTo] == all[..upTo];
    assert Tracks(t.(armed := true), next, upTo);
    if b.final {
      FlushedTracks(t.(armed := true), next, upTo);
    }
  }

  // What can happen to the buffer between two resets.
  datatype BufferStep<T> = Arrive(batch: Batch<T>) | TimerFires

  function Arrived<T>(steps: seq<BufferStep<T>>): seq<Batch<T>> {
    if steps == [] then []
    else
      var rest := Arrived(steps[..|steps| - 1]);
      match steps[|steps| - 1]
      case Arrive(b) => rest + [b]
      case TimerFires => rest
  }

  // How many of the arrived batches are on screen.
  function Visible<T>(steps: seq<BufferStep<T>>): nat {
    if steps == [] then 0
    else match steps[|steps| - 1]
      case Arrive(b) => if b.final then |Arrived(steps)| else Visible(steps[..|steps| - 1])
      case TimerFires => |Arrived(steps)|
  }

  function Play<T>(s: Screen<T>, steps: seq<BufferStep<T>>): Screen<T> {
    if steps == [] then s
    else
      var t := Play(s, steps[..|steps| - 1]);
      match steps[|steps| - 1]
      case Arrive(b) => Enqueued(t, b)
      case TimerFires => Fired(t)
  }

  // Throttling refines the plain fold: however arrivals and timer firings interleave after a
  // reset, the list on screen is the fold of a prefix of the batches, exactly the batches that
  // arrived up to the last firing or closing batch, and a batch not yet shown has its timer armed.
  lemma {:induction false} ThrottleRefinesFold<T(!new)>(s: Screen<T>, steps: seq<BufferStep<T>>)
    ensures Tracks(Play(Cleared(s), steps), Arrived(steps), Visible(steps))
    ensures Visible(steps) > 0 ==> Play(Cleared(s), steps).shown == Fold(Arrived(steps)[..Visible(steps)])
    ensures Visible(steps) == 0 ==> Play(Cleared(s), steps).shown == s.shown
    ensures Visible(steps) < |Arrived(steps)| ==> Play(Cleared(s), steps).armed
  {
    if steps == [] {
      ClearedTracks(s);
    } else {
      var before := steps[..|steps| - 1];
      ThrottleRefinesFold(s, before);
      var t := Play(Cleared(s), before);
      match steps[|steps| - 1]
      case Arrive(b) => EnqueuedTracks(t, Arrived(before), Visible(before), b);
      case TimerFires =>
        if t.armed {
          FlushedTracks(t, Arrived(before), Visible(before));
        }
    }
  }

  // The list model of the popup.
  class ResultsModel<T> {
    var results: seq<T>

    constructor ()
      ensures results == []
    {
      results := [];
    }

    method SetResults(rows: seq<T>, append: bool)
      modifies this
      ensures results == if append then old(results) + rows else rows
    {
      if append && |results| > 0 {
        results := results + rows;
        return;
      }
      results := rows;
    }
  }

  // The buffer itself. `emit` stands for the closure handed over with each batch: the only thing
  // that closure does is to set the rows of the popup's list.
  class ResultBuffer<T> {
    var buffer: Option<seq<T>>
    var painted: bool
    var isAppending: bool
    var timer: bool
    var emit: ResultsModel?<T>

    ghost function View(model: ResultsModel<T>): Screen<T>
      reads this, model
    {
      Screen(buffer, painted, isAppending, timer, emit != null, model.results)
    }

    // Batches only ever go to one list.
    ghost predicate Feeds(model: ResultsModel<T>)
      reads this
    {
      emit == null || emit == model
    }

    constructor (ghost model: ResultsModel<T>)
      ensures View(model) == Cleared(View(model)) && Feeds(model)
    {
      buffer, painted, isAppending, timer, emit := None, false, false, false, null;
    }

    method Reset(ghost model: ResultsModel<T>)
      modifies this
      ensures View(model) == Cleared(old(View(model))) && Feeds(model)
    {
      if timer {
        timer := false;
      }
      buffer := None;
      painted := false;
      isAppending := false;
      emit := null;
    }

    method Enqueue(batch: Batch<T>, model: ResultsModel<T>)
      requires Feeds(model)
      modifies this, model
      ensures View(model) == Enqueued(old(View(model)), batch) && Feeds(model)
    {
      emit := model;
      if batch.append && buffer.Some? {
        buffer := Some(buffer.value + batch.results);
      } else {
        buffer := Some(batch.results);
        isAppending := batch.append;
      }
      if batch.final {
        Paint(model);
      } else if !timer {
        timer := true;
      }
    }

    method ThrottledPaint(ghost model: ResultsModel<T>)
      requires Feeds(model)
      modifies this, model
      ensures View(model) == Fired(old(View(model))) && Feeds(model)
    {
      if timer {
        Paint(model);
      }
    }

    method Paint(ghost model: ResultsModel<T>)
      requires Feeds(model)
      modifies this, model
      ensures View(model) == Flushed(old(View(model))) && Feeds(model)
    {
      if emit == null || buffer.None? {
        return;
      }
      var append := painted && isAppending;
      var results := buffer.value;
      var target := emit;
      Reset(model);
      painted := true;
      target.SetResults(results, append);
    }
  }
}
