// Waiting for a stopped extension: when the wait is still running, which requests its end can
// answer, and what is shown then.
module LoadingWaits {
  import opened Prelude
  import opened ResultBuffer
  import opened ExtensionApi
  import opened Launcher
  import opened StreamingRun

  // Where the query handled in a step leads: the user's own, or one set by a response.
  function LedTo<T>(s: System<T>, e: Event<T>): Option<Target>
    requires CanHappen(s, e)
  {
    if e.Query? then Some(e.target)
    else if e.Respond? && Starts(s, e) then e.nested
    else None
  }

  // A query for a stopped extension starts the wait.
  predicate StartsWait<T>(s: System<T>, e: Event<T>)
    requires CanHappen(s, e)
  {
    LedTo(s, e).Some? && LedTo(s, e).value.Stopped?
  }

  // The timeout, a failure of the active extension, and any other query for an extension end it.
  predicate EndsWait<T>(s: System<T>, e: Event<T>)
    requires CanHappen(s, e)
  {
    || e.LoadingTimeout?
    || (e.Fail? && s.app.active == Some(e.ext))
    || (LedTo(s, e).Some? && (LedTo(s, e).value.NoExtension? || LedTo(s, e).value.Running?))
  }

  // The rows a wait ended with, if its end answers a callback.
  function Answer<T>(s: System<T>, e: Event<T>): Option<seq<Stamped<T>>>
    requires CanHappen(s, e)
  {
    if s.app.pending.None? then None
    else if e.LoadingTimeout? then Some([])
    else if e.Fail? && s.app.active == Some(e.ext) && s.app.loading then Some([e.row])
    else None
  }

  lemma QueryWaits<T(!new)>(a: App<T>, target: Target, rows: seq<Stamped<T>>)
    ensures
      var b := Queried(a, target, rows);
      && b.cut.None?
      && b.loading == if target.Stopped? then true else if target.NoExtension? || target.Running? then false else a.loading
  {
  }

  lemma ActivationWaits<T(!new)>(a: App<T>, what: Activation<T>)
    ensures Activated(a, what).loading == a.loading && Activated(a, what).cut.None?
  {
  }

  lemma ReceivedWaits<T(!new)>(a: App<T>, ext: ExtId, packet: Packet<T>, nested: Option<Target>, rows: seq<Stamped<T>>)
    ensures
      var b := Received(a, ext, packet, nested, rows);
      if !LeadsOn(a, ext, packet, nested) then b.loading == a.loading && b.cut == a.cut
      else
        && b.cut.None?
        && b.loading == if nested.value.Stopped? then true
                        else if nested.value.NoExtension? || nested.value.Running? then false else a.loading
  {
    LeadingResponse(a, ext, packet, nested, rows);
    if LeadsOn(a, ext, packet, nested) {
      QueryWaits(Called(a, a.pending.value, packet.effect), nested.value, rows);
    }
  }

  lemma QuietWaits<T(!new)>(a: App<T>, e: Event<T>)
    requires !InProcess(e) && !e.Respond? && !e.Query? && !e.Activate?
    ensures
      var b := LauncherStep(a, e);
      var ends := e.LoadingTimeout? || (e.Fail? && a.active == Some(e.ext));
      && b.loading == (a.loading && !ends)
      && b.cut == if a.pending.Some? && ends && (e.LoadingTimeout? || a.loading)
                  then Some(if e.LoadingTimeout? then [] else [e.row]) else a.cut
  {
  }

  lemma ResponseWaits<T(!new)>(s: System<T>, e: Event<T>)
    requires CanHappen(s, e) && e.Respond?
    ensures
      var a, b := s.app, Step(s, e).app;
      && b.loading == (StartsWait(s, e) || (a.loading && !EndsWait(s, e)))
      && b.cut == if Starts(s, e) then None else if Answer(s, e).Some? then Answer(s, e) else a.cut
  {
    ReceivedWaits(s.app, e.ext, s.exts[e.ext].sent[s.read[e.ext]], e.nested, e.rows);
  }

  lemma LauncherWaits<T(!new)>(s: System<T>, e: Event<T>)
    requires CanHappen(s, e) && !InProcess(e) && !e.Respond?
    ensures
      var a, b := s.app, LauncherStep(s.app, e);
      && b.loading == (StartsWait(s, e) || (a.loading && !EndsWait(s, e)))
      && b.cut == if Starts(s, e) then None else if Answer(s, e).Some? then Answer(s, e) else a.cut
  {
    if e.Query? {
      QueryWaits(s.app, e.target, e.rows);
    } else if e.Activate? {
      ActivationWaits(s.app, e.what);
    } else {
      QuietWaits(s.app, e);
    }
  }

  // What one step does to the wait, and to what its end has answered.
  lemma StepWaits<T(!new)>(s: System<T>, e: Event<T>)
    requires CanHappen(s, e)
    ensures
      var a, b := s.app, Step(s, e).app;
      && b.loading == (StartsWait(s, e) || (a.loading && !EndsWait(s, e)))
      && b.cut == if Starts(s, e) then None else if Answer(s, e).Some? then Answer(s, e) else a.cut
  {
    if InProcess(e) {
    } else if e.Respond? {
      ResponseWaits(s, e);
    } else {
      LauncherWaits(s, e);
    }
  }

  // A wait that began at step k and that no step since then has ended.
  ghost predicate WaitingSince<T(!new)>(states: seq<System<T>>, events: seq<Event<T>>, k: nat, i: nat)
    requires |states| == |events| + 1 && i < |states|
  {
    && k < i
    && CanHappen(states[k], events[k]) && StartsWait(states[k], events[k])
    && forall j :: k < j < i ==> CanHappen(states[j], events[j]) && !EndsWait(states[j], events[j])
  }

  ghost predicate WaitPending<T(!new)>(states: seq<System<T>>, events: seq<Event<T>>, i: nat)
    requires |states| == |events| + 1 && i < |states|
  {
    exists k :: WaitingSince(states, events, k, i)
  }

  lemma StillWaiting<T(!new)>(states: seq<System<T>>, events: seq<Event<T>>, k: nat, i: nat)
    requires |states| == |events| + 1 && i < |events| && k < i
    requires CanHappen(states[i], events[i])
    ensures WaitingSince(states, events, k, i + 1)
        <==> WaitingSince(states, events, k, i) && !EndsWait(states[i], events[i])
  {
  }

  // The loading timer runs exactly if the newest extension query led to a stopped extension and
  // neither a timeout nor a failure has ended that wait since.
  lemma {:induction false} LoadingIffWaitPending<T(!new)>(ids: set<ExtId>, states: seq<System<T>>, events: seq<Event<T>>, i: nat)
    requires IsRun(ids, states, events) && i < |states|
    ensures states[i].app.loading <==> WaitPending(states, events, i)
  {
    if i > 0 {
      var j := i - 1;
      assert Follows(states[j], events[j], states[j + 1]);
      LoadingIffWaitPending(ids, states, events, j);
      StepWaits(states[j], events[j]);
      if StartsWait(states[j], events[j]) {
        assert WaitingSince(states, events, j, i);
      } else {
        forall k: nat | k < j
          ensures WaitingSince(states, events, k, i) <==> WaitingSince(states, events, k, j) && !EndsWait(states[j], events[j])
        {
          StillWaiting(states, events, k, j);
        }
        assert !WaitingSince(states, events, j, i);
      }
    }
  }

  // A request whose callback is set can be ended by the loading timeout exactly if it was sent by
  // an activation while a wait was pending; it is that wait that ends it.
  lemma TimeoutEndsIffSentInWait<T(!new)>(ids: set<ExtId>, states: seq<System<T>>, events: seq<Event<T>>, i: nat) returns (m: nat)
    requires IsRun(ids, states, events) && i < |states|
    requires states[i].app.route.Asked? && states[i].app.pending.Some?
    ensures StartedAt(states, events, m, i) && Asks(states[m], events[m])
    ensures states[i].app.requestId == states[m + 1].app.requestId == states[m].app.requestId + 1
    ensures CanHappen(states[i], LoadingTimeout) <==> events[m].Activate? && WaitPending(states, events, m)
    ensures CanHappen(states[i], LoadingTimeout) ==> WaitPending(states, events, i)
  {
    m := NewestStart(ids, states, events, i);
    assert Follows(states[m], events[m], states[m + 1]);
    StepAsks(states[m], events[m]);
    RunIsFine(ids, states, events, i);
    LoadingIffWaitPending(ids, states, events, m);
    LoadingIffWaitPending(ids, states, events, i);
  }

  // The end of a wait has answered the newest query or activation exactly if a step since its start
  // ended the wait while a callback was set.

  // At step k, in the time of the newest query or activation, the end of a wait answered a callback.
  ghost predicate EndedAt<T(!new)>(
    states: seq<System<T>>, events: seq<Event<T>>, k: nat, i: nat, rows: seq<Stamped<T>>)
    requires |states| == |events| + 1 && i < |states|
  {
    && k < i
    && CanHappen(states[k], events[k]) && Answer(states[k], events[k]) == Some(rows)
    && states[k].app.epoch == states[i].app.epoch
  }

  lemma NothingMore<T(!new)>(ids: set<ExtId>, states: seq<System<T>>, events: seq<Event<T>>, j: nat)
    requires IsRun(ids, states, events) && j < |events| && states[j].app.epoch == states[j + 1].app.epoch
    requires states[j].app.pending.None?
    ensures states[j + 1].app.cut == states[j].app.cut && states[j + 1].app.pending.None?
  {
    assert Follows(states[j], events[j], states[j + 1]);
    StepAsks(states[j], events[j]);
    StepWaits(states[j], events[j]);
    QuietStepStays(ids, states, events, j);
  }

  // Once the end of a wait has answered, it stays the last answer of its time.
  lemma {:induction false} AnswerStays<T(!new)>(ids: set<ExtId>, states: seq<System<T>>, events: seq<Event<T>>, k: nat, i: nat)
    requires IsRun(ids, states, events) && k <= i < |states| && states[k].app.epoch == states[i].app.epoch
    requires states[k].app.pending.None?
    ensures states[i].app.cut == states[k].app.cut && states[i].app.pending.None?
    decreases i
  {
    if k < i {
      EpochsGrow(ids, states, events, k, i - 1);
      EpochsGrow(ids, states, events, i - 1, i);
      AnswerStays(ids, states, events, k, i - 1);
      NothingMore(ids, states, events, i - 1);
    }
  }

  lemma AnswerEnds<T(!new)>(s: System<T>, e: Event<T>)
    requires CanHappen(s, e) && Answer(s, e).Some?
    ensures
      var b := Step(s, e).app;
      b.cut == Answer(s, e) && b.pending.None? && b.epoch == s.app.epoch
  {
    StepWaits(s, e);
    StepAsks(s, e);
  }

  // The end of a wait has answered the newest query or activation exactly if some step since that
  // one started ended a wait while a callback was set; the rows are then those it ended with.
  lemma {:induction false} CutIffWaitEnded<T(!new)>(
    ids: set<ExtId>, states: seq<System<T>>, events: seq<Event<T>>, i: nat, rows: seq<Stamped<T>>)
    requires IsRun(ids, states, events) && i < |states|
    ensures states[i].app.cut == Some(rows) <==> exists k :: EndedAt(states, events, k, i, rows)
  {
    if k: nat :| EndedAt(states, events, k, i, rows) {
      assert Follows(states[k], events[k], states[k + 1]);
      AnswerEnds(states[k], events[k]);
      AnswerStays(ids, states, events, k + 1, i);
    }
    if states[i].app.cut == Some(rows) {
      var k := CutFrom(ids, states, events, i, rows);
    }
  }

  lemma {:induction false} CutFrom<T(!new)>(
    ids: set<ExtId>, states: seq<System<T>>, events: seq<Event<T>>, i: nat, rows: seq<Stamped<T>>) returns (k: nat)
    requires IsRun(ids, states, events) && i < |states| && states[i].app.cut == Some(rows)
    ensures EndedAt(states, events, k, i, rows)
  {
    var j := i - 1;
    assert Follows(states[j], events[j], states[j + 1]);
    StepWaits(states[j], events[j]);
    StepAsks(states[j], events[j]);
    if Answer(states[j], events[j]).Some? {
      k := j;
    } else {
      k := CutFrom(ids, states, events, j, rows);
    }
  }

  // What the end of a wait shows in place of the answers of a request: after the timeout nothing,
  // after a failure its one row. It stays until the next query or activation.
  lemma EndOfWaitShows<T(!new)>(
    ids: set<ExtId>, states: seq<System<T>>, events: seq<Event<T>>, k: nat, i: nat, rows: seq<Stamped<T>>)
    requires IsRun(ids, states, events) && i < |states| && EndedAt(states, events, k, i, rows)
    requires states[i].app.route.Asked?
    ensures states[i].app.screen.shown == rows && states[i].app.pending.None?
    ensures rows == if events[k].LoadingTimeout? then [] else [events[k].row]
  {
    CutIffWaitEnded(ids, states, events, i, rows);
    RunIsFine(ids, states, events, i);
    CutIsShown(states[i].app);
  }
}
