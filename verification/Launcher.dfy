// The launcher's side of a conversation with extensions: the core, which owns the query, the
// placeholder and the result buffer, and the extension mode, which sends requests and filters
// responses.
module Launcher {
  import opened Prelude
  import opened ResultBuffer
  import opened ExtensionApi

  type ExtId = nat

  // The closure a mode gets to answer with. The core makes one for every query and every
  // activation; a `checked` one is ignored when the extension mode is no longer the core's mode.
  datatype Callback = Callback(epoch: nat, checked: bool)

  // What became of the newest query or activation:
  //  - Elsewhere: it went to another mode (or to none);
  //  - Missed: the extension mode found no extension for the keyword;
  //  - Waiting: the extension is not running, the mode waits for it;
  //  - Asked: a request was sent (`late` when a loading wait was still pending then);
  //  - Kept: an activation that sent nothing.
  datatype Route = Elsewhere | Missed | Waiting | Asked(ext: ExtId, req: RequestId, late: bool) | Kept

  // Where a query string leads, as decided by keywords, records and running processes.
  datatype Target = Nowhere | OtherMode | NoExtension | Stopped(ext: ExtId) | Running(ext: ExtId)

  // What activating a row leads to.
  datatype Activation<T> =
    | ShowActions(rows: seq<Stamped<T>>)
    | Inert
    | Send(running: bool)
    | Launch(ext: ExtId, running: bool)

  // Messages to extensions.
  datatype Ask = Ask(ext: ExtId, req: RequestId, isInput: bool)

  // `epoch` counts queries and activations, from 1 for the state before the first. The fields from
  // `route` on are history: what became of the newest one, in which epoch the newest request was
  // sent, the effects answered since then, how many of their batches are painted, and the rows with
  // which the end of a loading wait has answered it.
  datatype App<T> = App(
    epoch: nat,
    inExtensions: bool,
    active: Option<ExtId>,
    requestId: nat,
    pending: Option<Callback>,
    loading: bool,
    placeholder: bool,
    screen: Screen<Stamped<T>>,
    outbox: seq<Ask>,
    route: Route,
    askedIn: nat,
    arrived: seq<Effect<Stamped<T>>>,
    upTo: nat,
    cut: Option<seq<Stamped<T>>>)

  function Blank<T>(): App<T> {
    App(1, false, None, 0, None, false, false, Screen(None, false, false, false, false, []), [], Elsewhere, 0, [], 0, None)
  }

  // ---------------------------------------------------------------- the core

  function Entered<T>(a: App<T>): App<T> {
    a.(epoch := a.epoch + 1, screen := Cleared(a.screen), arrived := [], upTo := 0, cut := None)
  }

  predicate Heeded<T>(a: App<T>, cb: Callback) {
    cb.checked ==> a.inExtensions
  }

  // A callback is called with an effect.
  function Called<T>(a: App<T>, cb: Callback, e: Effect<Stamped<T>>): App<T> {
    if !Heeded(a, cb) then a
    else
      var b := a.(placeholder := false, arrived := a.arrived + [e]);
      if !e.Render? then b
      else b.(screen := Enqueued(b.screen, e.batch),
              upTo := if e.batch.final then |BatchesIn(b.arrived)| else b.upTo)
  }

  // Rows rendered past the buffer.
  function Shown<T>(a: App<T>, rows: seq<Stamped<T>>): App<T> {
    a.(placeholder := false, screen := Covered(a.screen, rows))
  }

  function Throttled<T>(a: App<T>): App<T> {
    a.(screen := Fired(a.screen),
       upTo := if a.screen.armed && a.screen.wired then |BatchesIn(a.arrived)| else a.upTo)
  }

  // ---------------------------------------------------------------- the extension mode

  function Requested<T>(a: App<T>, ext: ExtId, isInput: bool, cb: Callback): App<T> {
    a.(requestId := a.requestId + 1, pending := Some(cb),
       outbox := a.outbox + [Ask(ext, a.requestId + 1, isInput)],
       route := Asked(ext, a.requestId + 1, a.loading), askedIn := a.epoch)
  }

  function LoadingOver<T>(a: App<T>, rows: seq<Stamped<T>>): App<T> {
    var b := a.(loading := false, pending := None);
    if a.pending.None? then b else Called(b.(cut := Some(rows)), a.pending.value, Render(Batch(rows, false, true)))
  }

  function Failed<T>(a: App<T>, ext: ExtId, rows: seq<Stamped<T>>): App<T> {
    if a.active != Some(ext) then a
    else if a.loading then LoadingOver(a, rows)
    else a.(pending := None)
  }

  // A new query string, with the rows shown when no mode takes it or no extension owns it.
  function Queried<T>(a: App<T>, target: Target, rows: seq<Stamped<T>>): App<T> {
    var b := Entered(a).(inExtensions := !target.Nowhere? && !target.OtherMode?);
    var cb := Callback(b.epoch, true);
    match target
    case Nowhere => Shown(b.(route := Elsewhere), rows)
    case OtherMode => b.(route := Elsewhere, placeholder := true)
    case NoExtension =>
      Called(b.(route := Missed, placeholder := true, loading := false), cb, Render(Batch(rows, false, true)))
    case Stopped(ext) =>
      b.(route := Waiting, placeholder := true, loading := true, active := Some(ext), pending := Some(cb))
    case Running(ext) =>
      Requested(b.(placeholder := true, loading := false, active := Some(ext)), ext, true, cb)
  }

  function Activated<T>(a: App<T>, what: Activation<T>): App<T> {
    var b := Entered(a).(route := Kept);
    var cb := Callback(b.epoch, b.inExtensions);
    match what
    case ShowActions(rows) => Shown(b, rows)
    case Inert => b
    case Send(running) =>
      if b.active.None? || !running then b else Requested(b, b.active.value, false, cb)
    case Launch(ext, running) =>
      var c := b.(active := Some(ext));
      if !running then c else Requested(c, ext, false, cb)
  }

  // A query nobody takes, or whose keyword has no extension, is answered with its rows at once.
  lemma UnansweredQueryShows<T>(a: App<T>, target: Target, rows: seq<Stamped<T>>)
    requires target.Nowhere? || target.NoExtension?
    ensures
      var b := Queried(a, target, rows);
      && b.screen.shown == rows && Throttled(b).screen.shown == rows && !b.placeholder
      && b.outbox == a.outbox && b.requestId == a.requestId
  {
  }

  // The actions of a row replace what is on screen, and nothing that was buffered before can paint
  // over them; no extension hears of it.
  lemma ActionsAreShown<T>(a: App<T>, rows: seq<Stamped<T>>)
    ensures
      var b := Activated(a, ShowActions(rows));
      && b.screen.shown == rows && Throttled(b).screen.shown == rows && !b.placeholder
      && b.outbox == a.outbox && b.requestId == a.requestId && b.pending == a.pending
  {
  }

  // Any other activation leaves the list on screen as it is, and asks an extension only if that one
  // is running.
  lemma ActivationKeepsScreen<T>(a: App<T>, what: Activation<T>)
    requires !what.ShowActions?
    ensures
      var b := Activated(a, what);
      var asked := if what.Launch? then Some(what.ext) else if what.Send? then a.active else None;
      && b.screen.shown == a.screen.shown && Throttled(b).screen.shown == a.screen.shown
      && b.outbox == a.outbox +
           if asked.Some? && what.running then [Ask(asked.value, a.requestId + 1, false)] else []
  {
  }

  predicate Accepts<T>(a: App<T>, ext: ExtId, packet: Packet<T>) {
    a.active == Some(ext) && a.pending.Some? && packet.req == a.requestId
  }

  // A response arrives. Acting on the launcher may set a new query, which is handled before the
  // response is done with: `nested` says where that query leads.
  function Received<T>(a: App<T>, ext: ExtId, packet: Packet<T>, nested: Option<Target>, rows: seq<Stamped<T>>): App<T> {
    if !Accepts(a, ext, packet) then a
    else
      var b := Called(a, a.pending.value, packet.effect);
      var c := if packet.effect.Act? && nested.Some? && Heeded(a, a.pending.value)
               then Queried(b, nested.value, rows) else b;
      if Terminal(packet.effect) then c.(pending := None) else c
  }

  // A response that is accepted is delivered first, and its callback is dropped afterwards.
  lemma ReceivedInTwo<T>(a: App<T>, effect: Effect<Stamped<T>>, nested: Option<Target>, rows: seq<Stamped<T>>, b: App<T>)
    requires a.active.Some? && a.pending.Some?
    requires b == if effect.Act? && nested.Some? && Heeded(a, a.pending.value)
                  then Queried(Called(a, a.pending.value, effect), nested.value, rows)
                  else Called(a, a.pending.value, effect)
    ensures Received(a, a.active.value, Packet(a.requestId, effect), nested, rows) ==
      if Terminal(effect) then b.(pending := None) else b
  {
  }

  // ---------------------------------------------------------------- the objects

  class Launcher<T> {
    const buffer: ResultBuffer<Stamped<T>>
    const model: ResultsModel<Stamped<T>>
    var epoch: nat
    var modeIsExtensions: bool
    var placeholderTimer: bool
    var activeExt: Option<ExtId>
    var pendingCallback: Option<Callback>
    var loadingTimer: bool
    var requestId: nat
    var outbox: seq<Ask>
    ghost var route: Route
    ghost var askedIn: nat
    ghost var arrived: seq<Effect<Stamped<T>>>
    ghost var upTo: nat
    ghost var cut: Option<seq<Stamped<T>>>

    ghost predicate Valid()
      reads this, buffer
    {
      buffer.Feeds(model)
    }

    ghost function View(): App<T>
      reads this, buffer, model
    {
      App(epoch, modeIsExtensions, activeExt, requestId, pendingCallback, loadingTimer, placeholderTimer,
          buffer.View(model), outbox, route, askedIn, arrived, upTo, cut)
    }

    constructor ()
      ensures Valid() && fresh(buffer) && fresh(model) && View() == Blank()
    {
      var list := new ResultsModel<Stamped<T>>();
      model := list;
      buffer := new ResultBuffer(list);
      epoch, modeIsExtensions, placeholderTimer := 1, false, false;
      activeExt, pendingCallback, loadingTimer, requestId := None, None, false, 0;
      outbox := [];
      route, askedIn, arrived, upTo, cut := Elsewhere, 0, [], 0, None;
    }

    method Enter()
      requires Valid()
      modifies this, buffer
      ensures Valid() && View() == Entered(old(View()))
    {
      buffer.Reset(model);
      epoch := epoch + 1;
      arrived, upTo, cut := [], 0, None;
    }

    method RenderResults(rows: seq<Stamped<T>>)
      requires Valid()
      modifies this, model
      ensures Valid() && View() == Shown(old(View()), rows)
    {
      placeholderTimer := false;
      model.SetResults(rows, false);
    }

    method ShowPlaceholder(row: Stamped<T>)
      requires Valid() && placeholderTimer
      modifies this, model
      ensures Valid() && View() == Shown(old(View()), [row])
    {
      RenderResults([row]);
    }

    method ThrottleFires()
      requires Valid()
      modifies this, buffer, model
      ensures Valid() && View() == Throttled(old(View()))
    {
      if buffer.timer && buffer.emit != null {
        upTo := |BatchesIn(arrived)|;
      }
      buffer.ThrottledPaint(model);
    }

    // The closure the core hands to modes.
    method ModeCallback(cb: Callback, effect: Effect<Stamped<T>>)
      requires Valid()
      modifies this, buffer, model
      ensures Valid() && View() == Called(old(View()), cb, effect)
    {
      if cb.checked && !modeIsExtensions {
        return;
      }
      placeholderTimer := false;
      arrived := arrived + [effect];
      if effect.Render? {
        buffer.Enqueue(effect.batch, model);
        if effect.batch.final {
          upTo := |BatchesIn(arrived)|;
        }
      }
    }

    method SetQuery(target: Target, rows: seq<Stamped<T>>)
      requires Valid()
      modifies this, buffer, model
      ensures Valid() && View() == Queried(old(View()), target, rows)
    {
      Enter();
      modeIsExtensions := false;
      if target.Nowhere? {
        route := Elsewhere;
        RenderResults(rows);
        return;
      }
      placeholderTimer := true;
      if target.OtherMode? {
        route := Elsewhere;
        return;
      }
      modeIsExtensions := true;
      HandleQuery(target, rows, Callback(epoch, true));
    }

    method HandleQuery(target: Target, rows: seq<Stamped<T>>, cb: Callback)
      requires Valid() && !target.Nowhere? && !target.OtherMode?
      requires modeIsExtensions && placeholderTimer
      modifies this, buffer, model
      ensures Valid()
      ensures target.NoExtension? ==>
        View() == Called(old(View()).(route := Missed, loading := false), cb, Render(Batch(rows, false, true)))
      ensures target.Stopped? ==>
        View() == old(View()).(route := Waiting, loading := true, active := Some(target.ext), pending := Some(cb))
      ensures target.Running? ==>
        View() == Requested(old(View()).(loading := false, active := Some(target.ext)), target.ext, true, cb)
    {
      loadingTimer := false;
      if target.NoExtension? {
        route := Missed;
        ModeCallback(cb, Render(Batch(rows, false, true)));
        return;
      }
      activeExt := Some(target.ext);
      if target.Stopped? {
        route := Waiting;
        pendingCallback := Some(cb);
        loadingTimer := true;
        return;
      }
      SendRequest(true, true, cb);
    }

    method SendRequest(isInput: bool, running: bool, cb: Callback)
      modifies this
      ensures View() ==
        if old(activeExt).None? || !running then old(View())
        else Requested(old(View()), old(activeExt).value, isInput, cb)
    {
      if activeExt.None? {
        return;
      }
      if !running {
        return;
      }
      requestId := requestId + 1;
      pendingCallback := Some(cb);
      outbox := outbox + [Ask(activeExt.value, requestId, isInput)];
      route, askedIn := Asked(activeExt.value, requestId, loadingTimer), epoch;
    }

    method ActivateResult(what: Activation<T>)
      requires Valid()
      modifies this, buffer, model
      ensures Valid() && View() == Activated(old(View()), what)
    {
      Enter();
      route := Kept;
      var cb := Callback(epoch, modeIsExtensions);
      match what
      case ShowActions(rows) => RenderResults(rows);
      case Inert =>
      case Send(running) => SendRequest(false, running, cb);
      case Launch(ext, running) =>
        activeExt := Some(ext);
        SendRequest(false, running, cb);
    }

    method HandleMessage(ext: ExtId, packet: Packet<T>, nested: Option<Target>, rows: seq<Stamped<T>>)
      requires Valid()
      modifies this, buffer, model
      ensures Valid() && View() == Received(old(View()), ext, packet, nested, rows)
    {
      if activeExt.None? {
        return;
      }
      if activeExt.value != ext || pendingCallback.None? || packet.req != requestId {
        return;
      }
      HandleResponse(packet.effect, nested, rows);
    }

    method HandleResponse(effect: Effect<Stamped<T>>, nested: Option<Target>, rows: seq<Stamped<T>>)
      requires Valid() && activeExt.Some? && pendingCallback.Some?
      modifies this, buffer, model
      ensures Valid()
      ensures View() == Received(old(View()), old(activeExt).value, Packet(old(requestId), effect), nested, rows)
    {
      ghost var a := View();
      var cb := pendingCallback.value;
      var heeded := cb.checked ==> modeIsExtensions;
      ModeCallback(cb, effect);
      if effect.Act? && nested.Some? && heeded {
        SetQuery(nested.value, rows);
      }
      ReceivedInTwo(a, effect, nested, rows, View());
      var isStreamingBatch := effect.Render? && !effect.batch.final;
      if !isStreamingBatch {
        pendingCallback := None;
      }
    }

    method FinishLoading(rows: seq<Stamped<T>>)
      requires Valid()
      modifies this, buffer, model
      ensures Valid() && View() == LoadingOver(old(View()), rows)
    {
      loadingTimer := false;
      var callback := pendingCallback;
      pendingCallback := None;
      if callback.Some? {
        cut := Some(rows);
        ModeCallback(callback.value, Render(Batch(rows, false, true)));
      }
    }

    method Errored(ext: ExtId, failure: Stamped<T>)
      requires Valid()
      modifies this, buffer, model
      ensures Valid() && View() == Failed(old(View()), ext, [failure])
    {
      if activeExt != Some(ext) {
        return;
      }
      if loadingTimer {
        FinishLoading([failure]);
      } else {
        pendingCallback := None;
      }
    }
  }
}
