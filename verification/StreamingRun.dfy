// The launcher and its extension processes together: every interleaving of queries, activations,
// dispatches, yields, responses, timer firings, failures and restarts.
module StreamingRun {
  import opened Prelude
  import opened ResultBuffer
  import opened ExtensionApi
  import opened Launcher

  // `inbox` holds the requests a process has not read yet, `read` how much of what a process has
  // written the launcher has read.
  datatype System<T> = System(
    app: App<T>,
    exts: map<ExtId, Process<T>>,
    inbox: map<ExtId, seq<Ask>>,
    read: map<ExtId, nat>)

  datatype Event<T> =
    | Query(target: Target, rows: seq<Stamped<T>>)
    | Activate(what: Activation<T>)
    | Respond(ext: ExtId, nested: Option<Target>, rows: seq<Stamped<T>>)
    | Throttle
    | Placeholder(row: Stamped<T>)
    | LoadingTimeout
    | Fail(ext: ExtId, row: Stamped<T>)
    | OtherModeAnswers(effect: Effect<Stamped<T>>)
    | Hear(ext: ExtId, listening: bool)
    | Inside(ext: ExtId, move: Move<T>)
    | Restart(ext: ExtId, unreadLost: bool)

  function Start<T>(ids: set<ExtId>): System<T> {
    System(Blank(), map e | e in ids :: Newborn(), map e | e in ids :: [], map e | e in ids :: 0)
  }

  predicate Wired<T>(s: System<T>) {
    s.inbox.Keys == s.exts.Keys && s.read.Keys == s.exts.Keys
  }

  predicate Reachable<T>(s: System<T>, target: Target) {
    target.Running? ==> target.ext in s.exts
  }

  predicate CanHappen<T>(s: System<T>, e: Event<T>) {
    Wired(s) &&
    match e
    case Query(target, _) => Reachable(s, target)
    case Activate(what) =>
      && (what.Send? && what.running && s.app.active.Some? ==> s.app.active.value in s.exts)
      && (what.Launch? && what.running ==> what.ext in s.exts)
    case Respond(ext, nested, _) =>
      ext in s.exts && s.read[ext] < |s.exts[ext].sent| && (nested.Some? ==> Reachable(s, nested.value))
    case Throttle => true
    case Placeholder(_) => s.app.placeholder
    case LoadingTimeout => s.app.loading
    case Fail(_, _) => true
    case OtherModeAnswers(_) => s.app.route.Elsewhere? && !s.app.inExtensions
    case Hear(ext, _) => ext in s.exts && s.inbox[ext] != []
    case Inside(ext, move) => ext in s.exts && !move.Hears? && !move.Respawns? && Possible(s.exts[ext], move)
    case Restart(ext, _) => ext in s.exts
  }

  // Requests the app has just sent go to the extension's inbox.
  function Mailed<T>(s: System<T>, a: App<T>): System<T> {
    var t := s.(app := a.(outbox := []));
    if a.outbox == [] || a.outbox[0].ext !in s.inbox then t
    else t.(inbox := s.inbox[a.outbox[0].ext := s.inbox[a.outbox[0].ext] + [a.outbox[0]]])
  }

  function WithProcess<T>(s: System<T>, ext: ExtId, p: Process<T>, inbox: seq<Ask>): System<T> {
    s.(inbox := s.inbox[ext := inbox], exts := s.exts[ext := p])
  }

  // A process is replaced. Responses it wrote that nobody has read are either still readable or
  // lost, and then it is as if they had never been written.
  function Replaced<T>(p: Process<T>, read: nat, unreadLost: bool): Process<T> {
    Respawned(if unreadLost && read <= |p.sent| then p.(sent := p.sent[..read]) else p)
  }

  predicate InProcess<T>(e: Event<T>) {
    e.Hear? || e.Inside? || e.Restart?
  }

  // What happens in a process.
  function ProcessStep<T>(s: System<T>, e: Event<T>): System<T>
    requires CanHappen(s, e) && InProcess(e)
  {
    match e
    case Hear(ext, listening) =>
      var ask := s.inbox[ext][0];
      WithProcess(s, ext, Heard(s.exts[ext], ask.req, ask.isInput, listening), s.inbox[ext][1..])
    case Inside(ext, move) => WithProcess(s, ext, Next(s.exts[ext], move), s.inbox[ext])
    case Restart(ext, unreadLost) =>
      WithProcess(s, ext, Replaced(s.exts[ext], s.read[ext], unreadLost), [])
  }

  // What the user, timers, the extension service and other modes make the launcher do.
  function LauncherStep<T>(a: App<T>, e: Event<T>): App<T>
    requires !InProcess(e) && !e.Respond?
  {
    match e
    case Query(target, rows) => Queried(a, target, rows)
    case Activate(what) => Activated(a, what)
    case Throttle => Throttled(a)
    case Placeholder(row) => Shown(a, [row])
    case LoadingTimeout => LoadingOver(a, [])
    case Fail(ext, row) => Failed(a, ext, [row])
    case OtherModeAnswers(effect) => Called(a, Callback(a.epoch, false), effect)
  }

  // Reading one more packet.
  function Advanced<T>(s: System<T>, ext: ExtId): System<T>
    requires ext in s.read
  {
    s.(read := s.read[ext := s.read[ext] + 1])
  }

  function Step<T>(s: System<T>, e: Event<T>): System<T>
    requires CanHappen(s, e)
  {
    if InProcess(e) then ProcessStep(s, e)
    else if e.Respond? then
      Mailed(Advanced(s, e.ext), Received(s.app, e.ext, s.exts[e.ext].sent[s.read[e.ext]], e.nested, e.rows))
    else Mailed(s, LauncherStep(s.app, e))
  }

  // ---------------------------------------------------------------- what every run keeps

  // The launcher on its own: the screen tracks what was answered, the placeholder never covers it,
  // and the newest request belongs to the newest query exactly when that query sent one.
  ghost predicate Tidy<T(!new)>(a: App<T>) {
    && Tracks(a.screen, BatchesIn(a.arrived), a.upTo)
    && FinishedIsPainted(a)
    && (a.placeholder ==> BatchesIn(a.arrived) == [])
    && (a.route.Asked? <==> a.askedIn == a.epoch)
    && a.askedIn <= a.epoch
    && (a.pending.Some? ==> a.pending.value.epoch <= a.epoch)
    && (a.pending.Some? && a.pending.value.epoch == a.epoch ==> Heeded(a, a.pending.value))
    && (a.route.Asked? ==>
          && a.route.req == a.requestId && a.active == Some(a.route.ext)
          && (a.pending.Some? ==> a.pending.value.epoch == a.epoch))
    && (a.route.Asked? && !a.route.late ==> !a.loading)
    && (a.route.Elsewhere? ==> !a.inExtensions)
  }

  // How the newest request ends: nothing follows its terminal response, and as long as its callback
  // is set, the loading wait it was sent in is still running. The end of that wait answers it last.
  ghost predicate EndsOnce<T(!new)>(a: App<T>) {
    a.route.Asked? ==>
      && (forall i :: 0 <= i < |a.arrived| && Terminal(a.arrived[i]) ==> i == |a.arrived| - 1 && a.pending.None?)
      && (a.pending.Some? ==> (a.loading <==> a.route.late))
      && (a.cut.Some? ==> a.pending.None? && CutShort(a.arrived, a.cut.value))
  }

  // The last thing answered is the list with which a loading wait ended.
  ghost predicate CutShort<T(!new)>(arrived: seq<Effect<Stamped<T>>>, rows: seq<Stamped<T>>) {
    arrived != [] && arrived[|arrived| - 1] == Render(Batch(rows, false, true))
  }

  // A finished list does not wait for the timer.
  ghost predicate FinishedIsPainted<T(!new)>(a: App<T>) {
    var n := |a.arrived|;
    n > 0 && a.arrived[n - 1].Render? && Terminal(a.arrived[n - 1]) ==> a.upTo == |BatchesIn(a.arrived)|
  }

  ghost predicate Mailbox(inbox: seq<Ask>, ext: ExtId, heard: set<RequestId>, newest: RequestId) {
    && (forall i :: 0 <= i < |inbox| ==> inbox[i].ext == ext && inbox[i].req <= newest)
    && (forall i, j :: 0 <= i < j < |inbox| ==> inbox[i].req < inbox[j].req)
    && (forall r, i :: r in heard && 0 <= i < |inbox| ==> r < inbox[i].req)
    && (forall r :: r in heard ==> r <= newest)
  }

  ghost predicate ExtFine<T(!new)>(s: System<T>, e: ExtId)
    requires Wired(s) && e in s.exts
  {
    && Sound(s.exts[e])
    && s.read[e] <= |s.exts[e].sent|
    && Mailbox(s.inbox[e], e, s.exts[e].heard, s.app.requestId)
  }

  // The newest query or activation sent a request, and no loading wait has answered it.
  predicate Uncut<T>(a: App<T>) {
    a.route.Asked? && a.cut.None?
  }

  // What the newest request's callback has been given is what the launcher has read of its
  // responses, up to the one that ended it.
  ghost predicate Answering<T(!new)>(s: System<T>)
    requires Wired(s)
  {
    var a := s.app;
    Uncut(a) ==>
      && a.route.ext in s.exts
      && s.read[a.route.ext] <= |s.exts[a.route.ext].sent|
      && UpToDate(a, SentFor(s.exts[a.route.ext].sent[..s.read[a.route.ext]], a.requestId))
  }

  ghost predicate UpToDate<T(!new)>(a: App<T>, answers: seq<Effect<Stamped<T>>>) {
    && a.arrived <= answers
    && (a.pending.Some? ==> a.arrived == answers)
  }

  ghost predicate Sturdy<T(!new)>(s: System<T>) {
    && Wired(s)
    && s.app.outbox == []
    && Tidy(s.app)
    && EndsOnce(s.app)
    && (forall e {:trigger ExtFine(s, e)} :: e in s.exts ==> ExtFine(s, e))
  }

  ghost predicate Fine<T(!new)>(s: System<T>) {
    Sturdy(s) && Answering(s)
  }

  // ---------------------------------------------------------------- the launcher's steps

  lemma BatchesInSnoc<T>(es: seq<Effect<T>>, e: Effect<T>)
    ensures BatchesIn(es + [e]) == if e.Render? then BatchesIn(es) + [e.batch] else BatchesIn(es)
  {
    assert (es + [e])[..|es|] == es;
  }

  lemma CalledIsTidy<T(!new)>(a: App<T>, cb: Callback, e: Effect<Stamped<T>>)
    requires Tidy(a)
    ensures Tidy(Called(a, cb, e))
  {
    if Heeded(a, cb) {
      BatchesInSnoc(a.arrived, e);
      if e.Render? {
        EnqueuedTracks(a.screen, BatchesIn(a.arrived), a.upTo, e.batch);
      }
    }
  }

  lemma ThrottledIsTidy<T(!new)>(a: App<T>)
    requires Tidy(a)
    ensures Tidy(Throttled(a))
  {
    if a.screen.armed {
      FlushedTracks(a.screen, BatchesIn(a.arrived), a.upTo);
    }
  }

  lemma EnteredIsTidy<T(!new)>(a: App<T>, inExtensions: bool, route: Route, placeholder: bool, loading: bool, active: Option<ExtId>)
    requires Tidy(a) && !route.Asked? && (route.Elsewhere? ==> !inExtensions)
    ensures Tidy(Entered(a).(inExtensions := inExtensions, route := route, placeholder := placeholder,
                             loading := loading, active := active))
  {
    ClearedTracks(a.screen);
  }

  lemma RequestedIsTidy<T(!new)>(a: App<T>, ext: ExtId, isInput: bool, cb: Callback)
    requires Tidy(a) && a.active == Some(ext) && cb.epoch == a.epoch && Heeded(a, cb)
    ensures Tidy(Requested(a, ext, isInput, cb))
  {
  }

  lemma QueriedIsTidy<T(!new)>(a: App<T>, target: Target, rows: seq<Stamped<T>>)
    requires Tidy(a)
    ensures Tidy(Queried(a, target, rows))
  {
    var inExtensions := !target.Nowhere? && !target.OtherMode?;
    var cb := Callback(a.epoch + 1, true);
    match target
    case Nowhere => EnteredIsTidy(a, false, Elsewhere, a.placeholder, a.loading, a.active);
    case OtherMode => EnteredIsTidy(a, false, Elsewhere, true, a.loading, a.active);
    case NoExtension =>
      EnteredIsTidy(a, true, Missed, true, false, a.active);
      CalledIsTidy(Entered(a).(inExtensions := true, route := Missed, placeholder := true, loading := false), cb,
                   Render(Batch(rows, false, true)));
    case Stopped(ext) => EnteredIsTidy(a, true, Waiting, true, true, Some(ext));
    case Running(ext) =>
      EnteredIsTidy(a, true, Missed, true, false, Some(ext));
      var b := Entered(a).(inExtensions := true, route := Missed, placeholder := true, loading := false, active := Some(ext));
      RequestedIsTidy(b, ext, true, cb);
      assert Queried(a, target, rows) == Requested(b, ext, true, cb);
  }

  lemma SentIsTidy<T(!new)>(a: App<T>, ext: ExtId)
    requires Tidy(a) && a.route.Kept?
    ensures Tidy(Requested(a.(active := Some(ext)), ext, false, Callback(a.epoch, a.inExtensions)))
  {
    var b := a.(active := Some(ext));
    assert Tidy(b) by {
      ActiveIsFree(a, ext);
    }
    RequestedIsTidy(b, ext, false, Callback(a.epoch, a.inExtensions));
  }

  lemma ActiveIsFree<T(!new)>(a: App<T>, ext: ExtId)
    requires Tidy(a) && !a.route.Asked?
    ensures Tidy(a.(active := Some(ext)))
  {
  }

  lemma RowsAreTidy<T(!new)>(a: App<T>, rows: seq<Stamped<T>>)
    requires Tidy(a) && a.arrived == []
    ensures Tidy(Shown(a, rows))
  {
  }

  lemma ActivatedIsTidy<T(!new)>(a: App<T>, what: Activation<T>)
    requires Tidy(a)
    ensures Tidy(Activated(a, what))
  {
    EnteredIsTidy(a, a.inExtensions, Kept, a.placeholder, a.loading, a.active);
    var b := Entered(a).(route := Kept);
    match what
    case ShowActions(rows) => RowsAreTidy(b, rows);
    case Inert =>
    case Send(running) =>
      if b.active.Some? && running {
        assert b.(active := Some(b.active.value)) == b;
        SentIsTidy(b, b.active.value);
      }
    case Launch(ext, running) =>
      ActiveIsFree(b, ext);
      if running {
        SentIsTidy(b, ext);
      }
  }

  lemma LoadingOverIsTidy<T(!new)>(a: App<T>, rows: seq<Stamped<T>>)
    requires Tidy(a)
    ensures Tidy(LoadingOver(a, rows))
  {
    var b := a.(loading := false, pending := None);
    if a.pending.Some? {
      CalledIsTidy(b, a.pending.value, Render(Batch(rows, false, true)));
    }
  }

  // A response acts on the launcher and sets a query.
  predicate LeadsOn<T>(a: App<T>, ext: ExtId, packet: Packet<T>, nested: Option<Target>) {
    nested.Some? && packet.effect.Act? && Accepts(a, ext, packet) && Heeded(a, a.pending.value)
  }

  lemma LeadingResponse<T(!new)>(a: App<T>, ext: ExtId, packet: Packet<T>, nested: Option<Target>, rows: seq<Stamped<T>>)
    ensures LeadsOn(a, ext, packet, nested) ==>
      Received(a, ext, packet, nested, rows)
      == Queried(Called(a, a.pending.value, packet.effect), nested.value, rows).(pending := None)
    ensures !LeadsOn(a, ext, packet, nested) ==>
      Received(a, ext, packet, nested, rows) == Received(a, ext, packet, None, rows)
  {
  }

  lemma PlainlyTidy<T(!new)>(a: App<T>, ext: ExtId, packet: Packet<T>, rows: seq<Stamped<T>>)
    requires Tidy(a)
    ensures Tidy(Received(a, ext, packet, None, rows))
  {
    if Accepts(a, ext, packet) {
      CalledIsTidy(a, a.pending.value, packet.effect);
      PendingDropped(Called(a, a.pending.value, packet.effect));
    }
  }

  lemma PendingDropped<T(!new)>(a: App<T>)
    requires Tidy(a)
    ensures Tidy(a.(pending := None))
  {
  }

  lemma ReceivedIsTidy<T(!new)>(a: App<T>, ext: ExtId, packet: Packet<T>, nested: Option<Target>, rows: seq<Stamped<T>>)
    requires Tidy(a)
    ensures Tidy(Received(a, ext, packet, nested, rows))
  {
    LeadingResponse(a, ext, packet, nested, rows);
    if LeadsOn(a, ext, packet, nested) {
      var b := Called(a, a.pending.value, packet.effect);
      CalledIsTidy(a, a.pending.value, packet.effect);
      QueriedIsTidy(b, nested.value, rows);
      PendingDropped(Queried(b, nested.value, rows));
    } else {
      PlainlyTidy(a, ext, packet, rows);
    }
  }

  lemma QueriedEndsOnce<T(!new)>(a: App<T>, target: Target, rows: seq<Stamped<T>>)
    ensures EndsOnce(Queried(a, target, rows))
  {
    if target.Running? {
      var b := Queried(a, target, rows);
      assert b.arrived == [] && b.cut.None? && !b.loading && !b.route.late;
    }
  }

  lemma ActivatedEndsOnce<T(!new)>(a: App<T>, what: Activation<T>)
    ensures EndsOnce(Activated(a, what))
  {
    var b := Activated(a, what);
    assert b.arrived == [] && b.cut.None? && b.loading == a.loading;
  }

  lemma LoadingOverEndsOnce<T(!new)>(a: App<T>, rows: seq<Stamped<T>>)
    requires Tidy(a) && EndsOnce(a)
    ensures EndsOnce(LoadingOver(a, rows))
  {
    var b := LoadingOver(a, rows);
    if a.route.Asked? && a.pending.Some? {
      assert Heeded(a, a.pending.value);
      assert b.arrived == a.arrived + [Render(Batch(rows, false, true))] && b.cut == Some(rows);
      assert forall i :: 0 <= i < |a.arrived| ==> !Terminal(a.arrived[i]);
    } else {
      assert a.route.Asked? ==> b.arrived == a.arrived && b.cut == a.cut;
    }
  }

  lemma PlainlyEndsOnce<T(!new)>(a: App<T>, ext: ExtId, packet: Packet<T>, rows: seq<Stamped<T>>)
    requires Tidy(a) && EndsOnce(a)
    ensures EndsOnce(Received(a, ext, packet, None, rows))
  {
  }

  lemma ReceivedEndsOnce<T(!new)>(a: App<T>, ext: ExtId, packet: Packet<T>, nested: Option<Target>, rows: seq<Stamped<T>>)
    requires Tidy(a) && EndsOnce(a)
    ensures EndsOnce(Received(a, ext, packet, nested, rows))
  {
    LeadingResponse(a, ext, packet, nested, rows);
    if LeadsOn(a, ext, packet, nested) {
      QueriedEndsOnce(Called(a, a.pending.value, packet.effect), nested.value, rows);
    } else {
      PlainlyEndsOnce(a, ext, packet, rows);
    }
  }

  // A query or activation sends at most one request, under a number never used before, and the
  // newest request's answers start empty.
  ghost predicate Forwards<T(!new)>(a: App<T>, b: App<T>) {
    && b.requestId >= a.requestId
    && (b.outbox == [] ==> b.requestId == a.requestId)
    && (b.outbox != [] ==>
          && |b.outbox| == 1 && b.requestId == a.requestId + 1
          && b.outbox[0].req == b.requestId
          && b.route.Asked? && b.route.ext == b.outbox[0].ext && b.route.req == b.requestId
          && b.arrived == [])
    && (b.outbox == [] && b.route.Asked? ==> b.route == a.route)
  }

  lemma QueriedForwards<T(!new)>(a: App<T>, target: Target, rows: seq<Stamped<T>>)
    requires a.outbox == []
    ensures Forwards(a, Queried(a, target, rows))
    ensures Queried(a, target, rows).outbox == [] ==> !Queried(a, target, rows).route.Asked?
    ensures Queried(a, target, rows).outbox != [] ==> target == Running(Queried(a, target, rows).outbox[0].ext)
  {
  }

  lemma ActivatedForwards<T(!new)>(a: App<T>, what: Activation<T>)
    requires a.outbox == []
    ensures Forwards(a, Activated(a, what))
    ensures Activated(a, what).outbox == [] ==> !Activated(a, what).route.Asked?
    ensures Activated(a, what).outbox != [] ==>
      || (what.Send? && what.running && a.active == Some(Activated(a, what).outbox[0].ext))
      || (what.Launch? && what.running && what.ext == Activated(a, what).outbox[0].ext)
  {
  }

  // ---------------------------------------------------------------- the processes' steps

  // Apart from a restart a process only adds to what it has written, and only hears what it is sent.
  lemma MoveWrites<T(!new)>(p: Process<T>, m: Move<T>)
    requires Possible(p, m) && !m.Respawns?
    ensures p.sent <= Next(p, m).sent
    ensures Next(p, m).heard == if m.Hears? then p.heard + {m.req} else p.heard
  {
  }

  lemma {:induction false} SentForPrefix<T>(sent: seq<Packet<T>>, n: nat, r: RequestId)
    requires n <= |sent|
    ensures SentFor(sent[..n], r) <= SentFor(sent, r)
  {
    if n == |sent| {
      assert sent[..n] == sent;
    } else {
      SentForPrefix(sent[..|sent| - 1], n, r);
      assert sent[..|sent| - 1][..n] == sent[..n];
    }
  }

  lemma ReplacedIsSound<T(!new)>(p: Process<T>, read: nat, unreadLost: bool)
    requires Sound(p) && read <= |p.sent|
    ensures Sound(Replaced(p, read, unreadLost))
  {
    var q := Replaced(p, read, unreadLost);
    assert q.sent[q.cacheFrom..] == [];
    forall r | r in q.stories ensures Told(q, r) {
      assert Told(p, r);
      SentForPrefix(p.sent, read, r);
    }
  }

  // ---------------------------------------------------------------- keeping the whole invariant

  // Steps that touch only the launcher and send nothing.
  lemma AppStepKeeps<T(!new)>(s: System<T>, a: App<T>)
    requires Fine(s) && Tidy(a) && EndsOnce(a) && a.outbox == [] && a.requestId == s.app.requestId
    requires a.route == s.app.route
    requires Uncut(a) ==>
      s.app.cut.None? && a.arrived == s.app.arrived && (a.pending == s.app.pending || a.pending.None?)
    ensures Fine(Mailed(s, a))
  {
    var t := Mailed(s, a);
    forall e | e in t.exts ensures ExtFine(t, e) {
      assert ExtFine(s, e);
    }
  }

  lemma NewRequestUnanswered<T(!new)>(p: Process<T>, n: nat, newest: RequestId)
    requires Sound(p) && n <= |p.sent|
    requires forall r :: r in p.heard ==> r <= newest
    ensures SentFor(p.sent[..n], newest + 1) == []
  {
    NothingSent(p.sent[..n], newest + 1);
  }

  lemma MailedAnswers<T(!new)>(s: System<T>, a: App<T>)
    requires Sturdy(s) && Forwards(s.app, a)
    requires a.outbox == [] ==> !a.route.Asked?
    requires a.outbox != [] ==> a.outbox[0].ext in s.exts
    ensures Wired(Mailed(s, a)) && Answering(Mailed(s, a))
  {
    if a.outbox != [] {
      var ext := a.outbox[0].ext;
      assert ExtFine(s, ext);
      NewRequestUnanswered(s.exts[ext], s.read[ext], s.app.requestId);
    }
  }

  lemma MailboxGrows(inbox: seq<Ask>, ask: Ask, ext: ExtId, heard: set<RequestId>, newest: RequestId)
    requires Mailbox(inbox, ext, heard, newest)
    ensures Mailbox(inbox, ext, heard, newest + 1)
    ensures ask.ext == ext && ask.req == newest + 1 ==> Mailbox(inbox + [ask], ext, heard, newest + 1)
  {
  }

  lemma MailedExt<T(!new)>(s: System<T>, a: App<T>, e: ExtId)
    requires Wired(s) && e in s.exts && ExtFine(s, e) && Forwards(s.app, a)
    ensures Wired(Mailed(s, a)) && ExtFine(Mailed(s, a), e)
  {
    if a.outbox != [] {
      MailboxGrows(s.inbox[e], a.outbox[0], e, s.exts[e].heard, s.app.requestId);
    }
  }

  lemma OutboxIsMoot<T(!new)>(a: App<T>)
    requires Tidy(a) && EndsOnce(a)
    ensures Tidy(a.(outbox := [])) && EndsOnce(a.(outbox := []))
  {
    var b := a.(outbox := []);
    assert b.route == a.route && b.pending == a.pending && b.arrived == a.arrived && b.cut == a.cut;
    assert b.loading == a.loading && b.screen == a.screen && b.upTo == a.upTo;
    if b.pending.Some? && b.pending.value.epoch == b.epoch {
      assert Heeded(b, b.pending.value) == Heeded(a, a.pending.value);
    }
  }

  lemma MailedIsTidy<T(!new)>(s: System<T>, a: App<T>)
    requires Tidy(a) && EndsOnce(a)
    ensures Tidy(Mailed(s, a).app) && EndsOnce(Mailed(s, a).app) && Mailed(s, a).app.outbox == []
  {
    OutboxIsMoot(a);
    assert Mailed(s, a).app == a.(outbox := []);
  }

  // Steps that may send a request.
  lemma MailedKeeps<T(!new)>(s: System<T>, a: App<T>)
    requires Sturdy(s) && Tidy(a) && EndsOnce(a) && Forwards(s.app, a)
    requires a.outbox == [] ==> !a.route.Asked?
    requires a.outbox != [] ==> a.outbox[0].ext in s.exts
    ensures Fine(Mailed(s, a))
  {
    var t := Mailed(s, a);
    MailedAnswers(s, a);
    MailedIsTidy(s, a);
    forall e | e in t.exts ensures ExtFine(t, e) {
      MailedExt(s, a, e);
    }
  }

  lemma AdvancedIsSturdy<T(!new)>(s: System<T>, ext: ExtId)
    requires Sturdy(s) && ext in s.exts && s.read[ext] < |s.exts[ext].sent|
    ensures Sturdy(Advanced(s, ext))
  {
    var t := Advanced(s, ext);
    forall e | e in t.exts ensures ExtFine(t, e) {
      assert ExtFine(s, e);
    }
  }

  lemma ReceivedIsUpToDate<T(!new)>(a: App<T>, ext: ExtId, packet: Packet<T>, rows: seq<Stamped<T>>, answers: seq<Effect<Stamped<T>>>)
    requires Tidy(a) && a.route.Asked? && UpToDate(a, answers)
    ensures
      UpToDate(Received(a, ext, packet, None, rows),
               if ext == a.route.ext && packet.req == a.requestId then answers + [packet.effect] else answers)
  {
  }

  lemma ReceivedPlainly<T(!new)>(a: App<T>, ext: ExtId, packet: Packet<T>, rows: seq<Stamped<T>>)
    ensures
      var b := Received(a, ext, packet, None, rows);
      && b.route == a.route && b.requestId == a.requestId && b.outbox == a.outbox && b.cut == a.cut
  {
  }

  // A response that does not lead to a new query.
  lemma PlainResponseAnswers<T(!new)>(s: System<T>, ext: ExtId, rows: seq<Stamped<T>>)
    requires Wired(s) && Tidy(s.app) && Answering(s) && ext in s.exts && s.read[ext] < |s.exts[ext].sent|
    ensures
      var packet := s.exts[ext].sent[s.read[ext]];
      Answering(Advanced(s, ext).(app := Received(s.app, ext, packet, None, rows)))
  {
    var a := s.app;
    var sent := s.exts[ext].sent;
    var packet := sent[s.read[ext]];
    ReceivedPlainly(a, ext, packet, rows);
    if Uncut(a) {
      var answers := SentFor(s.exts[a.route.ext].sent[..s.read[a.route.ext]], a.requestId);
      ReceivedIsUpToDate(a, ext, packet, rows, answers);
      assert sent[..s.read[ext] + 1] == sent[..s.read[ext]] + [packet];
      SentForSnoc(sent[..s.read[ext]], packet, a.requestId);
      if ext == a.route.ext && packet.req != a.requestId {
        assert answers + [] == answers;
      }
    }
  }

  lemma PlainResponseKeeps<T(!new)>(s: System<T>, ext: ExtId, rows: seq<Stamped<T>>)
    requires Fine(s) && ext in s.exts && s.read[ext] < |s.exts[ext].sent|
    ensures
      var packet := s.exts[ext].sent[s.read[ext]];
      Fine(Advanced(s, ext).(app := Received(s.app, ext, packet, None, rows)))
  {
    var packet := s.exts[ext].sent[s.read[ext]];
    var t := Advanced(s, ext).(app := Received(s.app, ext, packet, None, rows));
    AdvancedIsSturdy(s, ext);
    ReceivedIsTidy(s.app, ext, packet, None, rows);
    ReceivedEndsOnce(s.app, ext, packet, None, rows);
    ReceivedPlainly(s.app, ext, packet, rows);
    PlainResponseAnswers(s, ext, rows);
    forall e | e in t.exts ensures ExtFine(t, e) {
      assert ExtFine(Advanced(s, ext), e);
    }
  }

  lemma LeadingResponseKeeps<T(!new)>(s: System<T>, ext: ExtId, packet: Packet<T>, nested: Option<Target>, rows: seq<Stamped<T>>)
    requires Fine(s) && ext in s.exts && s.read[ext] < |s.exts[ext].sent| && packet == s.exts[ext].sent[s.read[ext]]
    requires LeadsOn(s.app, ext, packet, nested) && Reachable(s, nested.value)
    ensures Fine(Mailed(Advanced(s, ext), Received(s.app, ext, packet, nested, rows)))
  {
    var a := s.app;
    var b := Called(a, a.pending.value, packet.effect);
    AdvancedIsSturdy(s, ext);
    ReceivedIsTidy(a, ext, packet, nested, rows);
    ReceivedEndsOnce(a, ext, packet, nested, rows);
    QueriedForwards(b, nested.value, rows);
    LeadingResponse(a, ext, packet, nested, rows);
    MailedKeeps(Advanced(s, ext), Received(a, ext, packet, nested, rows));
  }

  lemma ResponseKeeps<T(!new)>(s: System<T>, ext: ExtId, nested: Option<Target>, rows: seq<Stamped<T>>)
    requires Fine(s) && ext in s.exts && s.read[ext] < |s.exts[ext].sent|
    requires nested.Some? ==> Reachable(s, nested.value)
    ensures
      var packet := s.exts[ext].sent[s.read[ext]];
      Fine(Mailed(Advanced(s, ext), Received(s.app, ext, packet, nested, rows)))
  {
    var packet := s.exts[ext].sent[s.read[ext]];
    if LeadsOn(s.app, ext, packet, nested) {
      LeadingResponseKeeps(s, ext, packet, nested, rows);
    } else {
      LeadingResponse(s.app, ext, packet, nested, rows);
      PlainResponseKeeps(s, ext, rows);
      var t := Advanced(s, ext).(app := Received(s.app, ext, packet, None, rows));
      assert Mailed(Advanced(s, ext), t.app) == t;
    }
  }

  lemma ProcessStepAnswers<T(!new)>(s: System<T>, ext: ExtId, p: Process<T>, inbox: seq<Ask>)
    requires Wired(s) && Answering(s) && ext in s.exts
    requires s.read[ext] <= |p.sent| && s.read[ext] <= |s.exts[ext].sent|
    requires p.sent[..s.read[ext]] == s.exts[ext].sent[..s.read[ext]]
    ensures Wired(WithProcess(s, ext, p, inbox)) && Answering(WithProcess(s, ext, p, inbox))
  {
  }

  // Steps inside one process: it stays sound, writes at the end of what it has written and hears
  // no more than the front of its inbox.
  lemma ProcessStepKeeps<T(!new)>(s: System<T>, ext: ExtId, p: Process<T>, inbox: seq<Ask>)
    requires Fine(s) && ext in s.exts && Sound(p)
    requires s.read[ext] <= |p.sent| && s.read[ext] <= |s.exts[ext].sent|
    requires p.sent[..s.read[ext]] == s.exts[ext].sent[..s.read[ext]]
    requires Mailbox(inbox, ext, p.heard, s.app.requestId)
    ensures Fine(WithProcess(s, ext, p, inbox))
  {
    var t := WithProcess(s, ext, p, inbox);
    ProcessStepAnswers(s, ext, p, inbox);
    forall e | e in t.exts ensures ExtFine(t, e) {
      if e != ext {
        assert ExtFine(s, e);
      }
    }
  }

  lemma HearEmptiesMailbox(inbox: seq<Ask>, ext: ExtId, heard: set<RequestId>, newest: RequestId)
    requires Mailbox(inbox, ext, heard, newest) && inbox != []
    ensures inbox[0].req !in heard
    ensures Mailbox(inbox[1..], ext, heard + {inbox[0].req}, newest)
  {
  }

  lemma HearKeeps<T(!new)>(s: System<T>, ext: ExtId, listening: bool)
    requires Fine(s) && ext in s.exts && s.inbox[ext] != []
    ensures
      var ask := s.inbox[ext][0];
      Fine(WithProcess(s, ext, Heard(s.exts[ext], ask.req, ask.isInput, listening), s.inbox[ext][1..]))
  {
    assert ExtFine(s, ext);
    var p := s.exts[ext];
    var ask := s.inbox[ext][0];
    var m := Hears(ask.req, ask.isInput, listening);
    HearEmptiesMailbox(s.inbox[ext], ext, p.heard, s.app.requestId);
    MoveKeeps(p, m);
    MoveWrites(p, m);
    assert p.sent <= Next(p, m).sent;
    ProcessStepKeeps(s, ext, Next(p, m), s.inbox[ext][1..]);
  }

  lemma InsideKeeps<T(!new)>(s: System<T>, ext: ExtId, m: Move<T>)
    requires Fine(s) && CanHappen(s, Inside(ext, m))
    ensures Fine(WithProcess(s, ext, Next(s.exts[ext], m), s.inbox[ext]))
  {
    assert ExtFine(s, ext);
    var p := s.exts[ext];
    MoveKeeps(p, m);
    MoveWrites(p, m);
    assert p.sent <= Next(p, m).sent;
    ProcessStepKeeps(s, ext, Next(p, m), s.inbox[ext]);
  }

  lemma RestartKeeps<T(!new)>(s: System<T>, ext: ExtId, unreadLost: bool)
    requires Fine(s) && ext in s.exts
    ensures Fine(WithProcess(s, ext, Replaced(s.exts[ext], s.read[ext], unreadLost), []))
  {
    assert ExtFine(s, ext);
    var p := Replaced(s.exts[ext], s.read[ext], unreadLost);
    ReplacedIsSound(s.exts[ext], s.read[ext], unreadLost);
    assert p.sent == if unreadLost then s.exts[ext].sent[..s.read[ext]] else s.exts[ext].sent;
    ProcessStepKeeps(s, ext, p, []);
  }

  lemma ProcessStepIsFine<T(!new)>(s: System<T>, e: Event<T>)
    requires Fine(s) && CanHappen(s, e) && InProcess(e)
    ensures Fine(ProcessStep(s, e))
  {
    match e
    case Hear(ext, listening) => HearKeeps(s, ext, listening);
    case Inside(ext, m) => InsideKeeps(s, ext, m);
    case Restart(ext, unreadLost) => RestartKeeps(s, ext, unreadLost);
  }

  lemma PlaceholderIsTidy<T(!new)>(a: App<T>, row: Stamped<T>)
    requires Tidy(a) && a.placeholder
    ensures Tidy(Shown(a, [row]))
  {
  }

  lemma FailedIsTidy<T(!new)>(a: App<T>, ext: ExtId, row: Stamped<T>)
    requires Tidy(a)
    ensures Tidy(Failed(a, ext, [row]))
  {
    LoadingOverIsTidy(a, [row]);
    PendingDropped(a);
  }

  lemma LauncherStepIsTidy<T(!new)>(a: App<T>, e: Event<T>)
    requires Tidy(a) && !InProcess(e) && !e.Respond?
    requires e.Placeholder? ==> a.placeholder
    ensures Tidy(LauncherStep(a, e))
  {
    match e
    case Query(target, rows) => QueriedIsTidy(a, target, rows);
    case Activate(what) => ActivatedIsTidy(a, what);
    case Throttle => ThrottledIsTidy(a);
    case Placeholder(row) => PlaceholderIsTidy(a, row);
    case LoadingTimeout => LoadingOverIsTidy(a, []);
    case Fail(ext, row) => FailedIsTidy(a, ext, row);
    case OtherModeAnswers(effect) => CalledIsTidy(a, Callback(a.epoch, false), effect);
  }

  lemma FailedEndsOnce<T(!new)>(a: App<T>, ext: ExtId, row: Stamped<T>)
    requires Tidy(a) && EndsOnce(a)
    ensures EndsOnce(Failed(a, ext, [row]))
  {
    LoadingOverEndsOnce(a, [row]);
  }

  lemma AsideEndsOnce<T(!new)>(a: App<T>, e: Event<T>)
    requires EndsOnce(a) && (e.Throttle? || e.Placeholder? || (e.OtherModeAnswers? && a.route.Elsewhere?))
    ensures EndsOnce(LauncherStep(a, e))
  {
    var b := LauncherStep(a, e);
    assert b.route == a.route && b.pending == a.pending && b.loading == a.loading && b.cut == a.cut;
    assert !e.OtherModeAnswers? ==> b.arrived == a.arrived;
  }

  lemma LauncherStepEndsOnce<T(!new)>(a: App<T>, e: Event<T>)
    requires Tidy(a) && EndsOnce(a) && !InProcess(e) && !e.Respond?
    requires e.OtherModeAnswers? ==> a.route.Elsewhere?
    ensures EndsOnce(LauncherStep(a, e))
  {
    match e
    case Query(target, rows) => QueriedEndsOnce(a, target, rows);
    case Activate(what) => ActivatedEndsOnce(a, what);
    case LoadingTimeout => LoadingOverEndsOnce(a, []);
    case Fail(ext, row) => FailedEndsOnce(a, ext, row);
    case _ => AsideEndsOnce(a, e);
  }

  // Timers and failures neither send nor answer, but for the end of a loading wait; another mode
  // answers only its own queries.
  lemma QuietStep<T(!new)>(a: App<T>, e: Event<T>)
    requires Tidy(a) && !InProcess(e) && !e.Respond? && !e.Query? && !e.Activate?
    requires e.OtherModeAnswers? ==> a.route.Elsewhere?
    ensures
      var b := LauncherStep(a, e);
      && b.outbox == a.outbox && b.requestId == a.requestId && b.route == a.route
      && (Uncut(b) ==> a.cut.None? && b.arrived == a.arrived && (b.pending == a.pending || b.pending.None?))
  {
    match e
    case LoadingTimeout => EndOfWaitStep(a, []);
    case Fail(ext, row) => FailStep(a, ext, row);
    case _ => AsideStep(a, e);
  }

  lemma FailStep<T(!new)>(a: App<T>, ext: ExtId, row: Stamped<T>)
    ensures
      var b := Failed(a, ext, [row]);
      && b.outbox == a.outbox && b.requestId == a.requestId && b.route == a.route
      && (b.cut.None? ==> a.cut.None? && b.arrived == a.arrived && (b.pending == a.pending || b.pending.None?))
  {
    EndOfWaitStep(a, [row]);
  }

  lemma AsideStep<T(!new)>(a: App<T>, e: Event<T>)
    requires e.Throttle? || e.Placeholder? || (e.OtherModeAnswers? && a.route.Elsewhere?)
    ensures
      var b := LauncherStep(a, e);
      && b.outbox == a.outbox && b.requestId == a.requestId && b.route == a.route && b.cut == a.cut
      && b.pending == a.pending && (a.route.Asked? ==> b.arrived == a.arrived)
  {
  }

  lemma EndOfWaitStep<T(!new)>(a: App<T>, rows: seq<Stamped<T>>)
    ensures
      var b := LoadingOver(a, rows);
      && b.outbox == a.outbox && b.requestId == a.requestId && b.route == a.route
      && (b.cut.None? ==> a.cut.None? && b.arrived == a.arrived && b.pending.None?)
  {
  }

  lemma LauncherStepKeeps<T(!new)>(s: System<T>, e: Event<T>)
    requires Fine(s) && CanHappen(s, e) && !InProcess(e) && !e.Respond?
    ensures Fine(Mailed(s, LauncherStep(s.app, e)))
  {
    LauncherStepIsTidy(s.app, e);
    LauncherStepEndsOnce(s.app, e);
    var b := LauncherStep(s.app, e);
    if e.Query? {
      QueriedForwards(s.app, e.target, e.rows);
      MailedKeeps(s, b);
    } else if e.Activate? {
      ActivatedForwards(s.app, e.what);
      MailedKeeps(s, b);
    } else {
      QuietStep(s.app, e);
      AppStepKeeps(s, b);
    }
  }

  lemma StepKeeps<T(!new)>(s: System<T>, e: Event<T>)
    requires Fine(s) && CanHappen(s, e)
    ensures Fine(Step(s, e))
  {
    if InProcess(e) {
      ProcessStepIsFine(s, e);
    } else if e.Respond? {
      ResponseKeeps(s, e.ext, e.nested, e.rows);
    } else {
      LauncherStepKeeps(s, e);
    }
  }

  // ---------------------------------------------------------------- whole runs

  ghost predicate IsRun<T(!new)>(ids: set<ExtId>, states: seq<System<T>>, events: seq<Event<T>>) {
    && |states| == |events| + 1
    && states[0] == Start(ids)
    && forall i {:trigger Follows(states[i], events[i], states[i + 1])} :: 0 <= i < |events| ==>
         Follows(states[i], events[i], states[i + 1])
  }

  ghost predicate Follows<T(!new)>(s: System<T>, e: Event<T>, t: System<T>) {
    CanHappen(s, e) && t == Step(s, e)
  }

  lemma {:induction false} RunIsFine<T(!new)>(ids: set<ExtId>, states: seq<System<T>>, events: seq<Event<T>>, i: nat)
    requires IsRun(ids, states, events) && i < |states|
    ensures Fine(states[i])
  {
    if i == 0 {
      var s := states[0];
      forall e | e in s.exts ensures ExtFine(s, e) {
        EveryRunIsSound<T>([]);
      }
    } else {
      var k := i - 1;
      RunIsFine(ids, states, events, k);
      assert Follows(states[k], events[k], states[k + 1]);
      StepKeeps(states[k], events[k]);
    }
  }

  // At any time, whatever was answered and however paints were throttled, the list painted since
  // the newest query or activation is the fold of the batches answered to it, and batches not yet
  // painted have the timer armed.
  lemma PaintedIsFold<T(!new)>(ids: set<ExtId>, states: seq<System<T>>, events: seq<Event<T>>, i: nat)
    requires IsRun(ids, states, events) && i < |states|
    ensures
      var a := states[i].app;
      var batches := BatchesIn(a.arrived);
      && a.upTo <= |batches|
      && (a.upTo > 0 ==> a.screen.shown == Fold(batches[..a.upTo]))
      && (a.upTo < |batches| ==> a.screen.armed)
  {
    RunIsFine(ids, states, events, i);
  }

  function BareBatches<T>(bs: seq<Batch<Stamped<T>>>): (bare: seq<Batch<T>>)
    ensures |bare| == |bs|
    ensures forall i :: 0 <= i < |bs| ==> bare[i] == BareBatch(bs[i])
  {
    seq(|bs|, i requires 0 <= i < |bs| => BareBatch(bs[i]))
  }

  lemma {:induction false} FoldRows<T>(bs: seq<Batch<Stamped<T>>>)
    ensures Rows(Fold(bs)) == Fold(BareBatches(bs))
  {
    if bs != [] {
      var shorter := bs[..|bs| - 1];
      FoldRows(shorter);
      assert BareBatches(bs)[..|bs| - 1] == BareBatches(shorter);
      var last := bs[|bs| - 1];
      if last.append {
        assert Rows(Fold(shorter) + last.results) == Rows(Fold(shorter)) + Rows(last.results);
      }
    }
  }

  lemma {:induction false} BatchesOfRenders<T>(es: seq<Effect<Stamped<T>>>)
    requires forall i :: 0 <= i < |es| ==> es[i].Render?
    ensures |BatchesIn(es)| == |es|
    ensures forall i :: 0 <= i < |es| ==> BatchesIn(es)[i] == es[i].batch
    ensures BareBatches(BatchesIn(es)) == BatchesIn(BareAll(es))
  {
    if es != [] {
      var shorter := es[..|es| - 1];
      BatchesOfRenders(shorter);
      assert BareAll(es)[..|es| - 1] == BareAll(shorter);
      assert BatchesIn(es) == BatchesIn(shorter) + [es[|es| - 1].batch];
    }
  }

  lemma {:induction false} SentIsTold<T(!new)>(p: Process<T>, r: RequestId)
    requires Housekept(p) && SentFor(p.sent, r) != []
    ensures r in p.stories
  {
    if r !in p.stories {
      NothingSent(p.sent, r);
    }
  }

  // A prefix of the responses to a streaming request, painted: what the generator yielded so far.
  lemma PrefixReplays<T(!new)>(p: Process<T>, r: RequestId, es: seq<Effect<Stamped<T>>>)
    requires Sound(p) && es != [] && es <= SentFor(p.sent, r)
    ensures r in p.stories
    ensures !p.stories[r].ending.Replied? ==>
      var items := p.stories[r].items;
      && (forall i :: 0 <= i < |es| ==> es[i].Render? && (Terminal(es[i]) <==> i == |items|))
      && Rows(Fold(BatchesIn(es))) == Replay(Taken(items, |es|))
      && |es| <= |items| + 1
      && (|es| > |items| ==> p.stories[r].ending.Closed?)
  {
    SentIsTold(p, r);
    assert Told(p, r);
    var s := p.stories[r];
    if !s.ending.Replied? {
      var bare := BareAll(es);
      assert bare <= Script(s);
      ScriptReplays(s, bare);
      forall i | 0 <= i < |es| ensures es[i].Render? && (Terminal(es[i]) <==> Terminal(bare[i])) {
        assert bare[i] == Bare(es[i]);
      }
      BatchesOfRenders(es);
      FoldRows(BatchesIn(es));
    }
  }

  // The main result. While the newest request is a streaming one, what is painted is exactly what
  // its generator has yielded up to some item, nothing follows the closing batch, and once that
  // batch has arrived everything the generator ever yielded is on screen. Only the end of a loading
  // wait cuts a stream short: then the list it ended with is shown, and nothing follows that.
  lemma StreamReachesScreen<T(!new)>(ids: set<ExtId>, states: seq<System<T>>, events: seq<Event<T>>, i: nat)
    requires IsRun(ids, states, events) && i < |states|
    requires states[i].app.route.Asked? && states[i].app.arrived != []
    ensures states[i].app.cut.Some? ==> states[i].app.screen.shown == states[i].app.cut.value && states[i].app.pending.None?
    ensures
      var a := states[i].app;
      a.cut.None? ==>
        && a.route.ext in states[i].exts
        && a.requestId in states[i].exts[a.route.ext].stories
        && var story := states[i].exts[a.route.ext].stories[a.requestId];
           !story.ending.Replied? ==>
             && a.upTo <= |a.arrived| <= |story.items| + 1
             && (a.upTo > 0 ==>
                   Rows(a.screen.shown) == Replay(Taken(story.items, a.upTo)))
             && (|a.arrived| > |story.items| ==>
                   story.ending.Closed? && a.upTo == |a.arrived| && Rows(a.screen.shown) == Replay(story.items))
  {
    RunIsFine(ids, states, events, i);
    var a := states[i].app;
    if a.cut.None? {
      assert ExtFine(states[i], a.route.ext);
      AnsweredReplays(a, states[i].exts[a.route.ext], states[i].read[a.route.ext]);
    } else {
      CutIsShown(a);
    }
  }

  lemma CutIsShown<T(!new)>(a: App<T>)
    requires Tidy(a) && EndsOnce(a) && a.route.Asked? && a.cut.Some?
    ensures a.screen.shown == a.cut.value
  {
    var n := |a.arrived| - 1;
    assert a.arrived[..n] + [a.arrived[n]] == a.arrived;
    BatchesInSnoc(a.arrived[..n], a.arrived[n]);
    assert BatchesIn(a.arrived)[..a.upTo] == BatchesIn(a.arrived);
  }

  lemma AnsweredReplays<T(!new)>(a: App<T>, p: Process<T>, read: nat)
    requires Tidy(a) && Sound(p) && read <= |p.sent| && a.arrived != []
    requires a.route.Asked? && UpToDate(a, SentFor(p.sent[..read], a.requestId))
    ensures a.requestId in p.stories
    ensures
      var story := p.stories[a.requestId];
      !story.ending.Replied? ==>
        && a.upTo <= |a.arrived| <= |story.items| + 1
        && (a.upTo > 0 ==>
              Rows(a.screen.shown) == Replay(Taken(story.items, a.upTo)))
        && (|a.arrived| > |story.items| ==>
              story.ending.Closed? && a.upTo == |a.arrived| && Rows(a.screen.shown) == Replay(story.items))
  {
    var r := a.requestId;
    SentForPrefix(p.sent, read, r);
    PrefixReplays(p, r, a.arrived);
    var story := p.stories[r];
    if !story.ending.Replied? {
      BatchesOfRenders(a.arrived);
      PaintedReplays(a, p);
      ClosingIsPainted(a, |story.items|);
    }
  }

  lemma PaintedReplays<T(!new)>(a: App<T>, p: Process<T>)
    requires Tidy(a) && Sound(p) && a.arrived != [] && a.arrived <= SentFor(p.sent, a.requestId)
    requires a.requestId in p.stories && !p.stories[a.requestId].ending.Replied?
    requires forall i :: 0 <= i < |a.arrived| ==> a.arrived[i].Render?
    ensures a.upTo > 0 ==>
      var items := p.stories[a.requestId].items;
      Rows(a.screen.shown) == Replay(Taken(items, a.upTo))
  {
    if a.upTo > 0 {
      BatchesOfRenders(a.arrived);
      var es := a.arrived[..a.upTo];
      BatchesOfRenders(es);
      assert BatchesIn(es) == BatchesIn(a.arrived)[..a.upTo];
      PrefixReplays(p, a.requestId, es);
    }
  }

  // The closing batch, the only finished one of a stream and always its last, is painted at once.
  lemma ClosingIsPainted<T(!new)>(a: App<T>, n: nat)
    requires Tidy(a)
    requires forall i :: 0 <= i < |a.arrived| ==> a.arrived[i].Render? && (Terminal(a.arrived[i]) <==> i == n)
    ensures |a.arrived| == n + 1 ==> a.upTo == |a.arrived|
  {
    BatchesOfRenders(a.arrived);
  }

  // Nothing is given to a request's callback after the response that ended it.
  lemma NothingAfterTheEnd<T(!new)>(ids: set<ExtId>, states: seq<System<T>>, events: seq<Event<T>>, i: nat, k: nat)
    requires IsRun(ids, states, events) && i < |states|
    requires states[i].app.route.Asked? && k < |states[i].app.arrived| && Terminal(states[i].app.arrived[k])
    ensures k == |states[i].app.arrived| - 1 && states[i].app.pending.None?
  {
    RunIsFine(ids, states, events, i);
  }

  // What a step may do to the launcher: start a new epoch or stay in the current one, and then
  // keep the request; a callback that is gone does not come back.
  ghost predicate SameOrNewEpoch<T(!new)>(a: App<T>, b: App<T>) {
    && a.epoch <= b.epoch
    && (a.epoch == b.epoch ==>
          && b.route == a.route && b.requestId == a.requestId
          && (a.pending.None? ==> b.pending.None? && (b.arrived == a.arrived || a.route.Elsewhere?)))
  }

  lemma CalledFrame<T(!new)>(a: App<T>, cb: Callback, e: Effect<Stamped<T>>)
    ensures
      var b := Called(a, cb, e);
      && b.epoch == a.epoch && b.route == a.route && b.requestId == a.requestId && b.pending == a.pending
  {
  }

  lemma ReceivedFrame<T(!new)>(a: App<T>, ext: ExtId, packet: Packet<T>, nested: Option<Target>, rows: seq<Stamped<T>>)
    ensures SameOrNewEpoch(a, Received(a, ext, packet, nested, rows))
    ensures
      var b := Received(a, ext, packet, nested, rows);
      b.requestId > a.requestId ==> b.pending.None? && b.route.Asked? && b.arrived == []
  {
    if Accepts(a, ext, packet) {
      CalledFrame(a, a.pending.value, packet.effect);
    }
  }

  lemma FailedFrame<T(!new)>(a: App<T>, ext: ExtId, rows: seq<Stamped<T>>)
    ensures SameOrNewEpoch(a, Failed(a, ext, rows)) && SameOrNewEpoch(a, LoadingOver(a, rows))
  {
    if a.pending.Some? {
      CalledFrame(a.(loading := false, pending := None), a.pending.value, Render(Batch(rows, false, true)));
    }
  }

  lemma QueriedFrame<T(!new)>(a: App<T>, target: Target, rows: seq<Stamped<T>>)
    ensures SameOrNewEpoch(a, Queried(a, target, rows))
    ensures
      var b := Queried(a, target, rows);
      b.requestId > a.requestId ==> b.pending.Some? && b.route.Asked? && b.arrived == []
  {
  }

  lemma ActivatedFrame<T(!new)>(a: App<T>, what: Activation<T>)
    ensures SameOrNewEpoch(a, Activated(a, what))
    ensures
      var b := Activated(a, what);
      b.requestId > a.requestId ==> b.pending.Some? && b.route.Asked? && b.arrived == []
  {
  }

  lemma LauncherStepFrame<T(!new)>(a: App<T>, e: Event<T>)
    requires !InProcess(e) && !e.Respond? && (e.OtherModeAnswers? ==> a.route.Elsewhere?)
    ensures SameOrNewEpoch(a, LauncherStep(a, e))
    ensures
      var b := LauncherStep(a, e);
      b.requestId > a.requestId ==> b.pending.Some? && b.route.Asked? && b.arrived == []
  {
    match e
    case Query(target, rows) => QueriedFrame(a, target, rows);
    case Activate(what) => ActivatedFrame(a, what);
    case LoadingTimeout => FailedFrame(a, 0, []);
    case Fail(ext, row) => FailedFrame(a, ext, [row]);
    case OtherModeAnswers(effect) => CalledFrame(a, Callback(a.epoch, false), effect);
    case _ =>
  }

  lemma RunFrame<T(!new)>(ids: set<ExtId>, states: seq<System<T>>, events: seq<Event<T>>, i: nat)
    requires IsRun(ids, states, events) && i < |events|
    ensures SameOrNewEpoch(states[i].app, states[i + 1].app)
    ensures
      var b := states[i + 1].app;
      b.requestId > states[i].app.requestId ==>
        (b.pending.Some? <==> !events[i].Respond?) && b.route.Asked? && b.arrived == []
  {
    var s := states[i];
    var e := events[i];
    assert Follows(s, e, states[i + 1]);
    if InProcess(e) {
    } else if e.Respond? {
      ReceivedFrame(s.app, e.ext, s.exts[e.ext].sent[s.read[e.ext]], e.nested, e.rows);
    } else {
      LauncherStepFrame(s.app, e);
    }
  }

  // A step starts a new query or activation: the user's own, or a query set by a response.
  predicate Starts<T>(s: System<T>, e: Event<T>)
    requires CanHappen(s, e)
  {
    e.Query? || e.Activate? || (e.Respond? && LeadsOn(s.app, e.ext, s.exts[e.ext].sent[s.read[e.ext]], e.nested))
  }

  // A step that starts one asks an extension: the query leads to a running one, or the activation
  // is sent to a running one.
  predicate Asks<T>(s: System<T>, e: Event<T>)
    requires CanHappen(s, e)
  {
    match e
    case Query(target, _) => target.Running?
    case Activate(what) => (what.Send? && what.running && s.app.active.Some?) || (what.Launch? && what.running)
    case Respond(_, nested, _) => Starts(s, e) && nested.value.Running?
    case _ => false
  }

  lemma ReceivedAsks<T(!new)>(a: App<T>, ext: ExtId, packet: Packet<T>, nested: Option<Target>, rows: seq<Stamped<T>>)
    ensures
      var b, leads := Received(a, ext, packet, nested, rows), LeadsOn(a, ext, packet, nested);
      && b.epoch == a.epoch + (if leads then 1 else 0)
      && b.requestId == a.requestId + (if leads && nested.value.Running? then 1 else 0)
      && (leads ==> (b.route.Asked? <==> nested.value.Running?))
      && (leads && b.route.Asked? ==> !b.route.late)
  {
    LeadingResponse(a, ext, packet, nested, rows);
    if Accepts(a, ext, packet) {
      CalledFrame(a, a.pending.value, packet.effect);
    }
  }

  lemma QueriedAsks<T(!new)>(a: App<T>, target: Target, rows: seq<Stamped<T>>)
    ensures
      var b := Queried(a, target, rows);
      && b.epoch == a.epoch + 1 && b.requestId == a.requestId + (if target.Running? then 1 else 0)
      && (b.route.Asked? <==> target.Running?) && (b.route.Asked? ==> !b.route.late)
  {
  }

  lemma ActivatedAsks<T(!new)>(a: App<T>, what: Activation<T>)
    ensures
      var b := Activated(a, what);
      var asks := (what.Send? && what.running && a.active.Some?) || (what.Launch? && what.running);
      && b.epoch == a.epoch + 1 && b.requestId == a.requestId + (if asks then 1 else 0)
      && (b.route.Asked? <==> asks) && (b.route.Asked? ==> (b.route.late <==> a.loading))
  {
  }

  lemma QuietAsks<T(!new)>(a: App<T>, e: Event<T>)
    requires !InProcess(e) && !e.Respond? && !e.Query? && !e.Activate?
    ensures LauncherStep(a, e).epoch == a.epoch && LauncherStep(a, e).requestId == a.requestId
  {
  }

  lemma LauncherAsks<T(!new)>(s: System<T>, e: Event<T>)
    requires CanHappen(s, e) && !InProcess(e) && !e.Respond?
    ensures Asking(s, e, LauncherStep(s.app, e))
  {
    if e.Query? {
      QueriedAsks(s.app, e.target, e.rows);
    } else if e.Activate? {
      ActivatedAsks(s.app, e.what);
    } else {
      QuietAsks(s.app, e);
    }
  }

  ghost predicate Asking<T(!new)>(s: System<T>, e: Event<T>, b: App<T>)
    requires CanHappen(s, e)
  {
    && b.epoch == s.app.epoch + (if Starts(s, e) then 1 else 0)
    && b.requestId == s.app.requestId + (if Asks(s, e) then 1 else 0)
    && (Starts(s, e) ==> (b.route.Asked? <==> Asks(s, e)))
    && (Starts(s, e) && b.route.Asked? ==> (b.route.late <==> e.Activate? && s.app.loading))
  }

  lemma ResponseAsks<T(!new)>(s: System<T>, e: Event<T>)
    requires CanHappen(s, e) && e.Respond?
    ensures Asking(s, e, Received(s.app, e.ext, s.exts[e.ext].sent[s.read[e.ext]], e.nested, e.rows))
  {
    ReceivedAsks(s.app, e.ext, s.exts[e.ext].sent[s.read[e.ext]], e.nested, e.rows);
  }

  lemma StepApp<T(!new)>(s: System<T>, e: Event<T>)
    requires CanHappen(s, e)
    ensures Step(s, e).app ==
      if InProcess(e) then s.app
      else if e.Respond? then Received(s.app, e.ext, s.exts[e.ext].sent[s.read[e.ext]], e.nested, e.rows).(outbox := [])
      else LauncherStep(s.app, e).(outbox := [])
  {
  }

  // Exactly the steps that start something begin a new epoch, and exactly those that ask use a new
  // number; a request is late if an activation sends it during a loading wait.
  lemma StepAsks<T(!new)>(s: System<T>, e: Event<T>)
    requires CanHappen(s, e)
    ensures Asking(s, e, Step(s, e).app)
  {
    StepApp(s, e);
    if InProcess(e) {
    } else if e.Respond? {
      ResponseAsks(s, e);
    } else {
      LauncherAsks(s, e);
    }
  }

  // The step that started the newest query or activation: since then no other has been started.
  ghost predicate StartedAt<T(!new)>(states: seq<System<T>>, events: seq<Event<T>>, m: nat, i: nat)
    requires |states| == |events| + 1 && i < |states|
  {
    && m < i
    && CanHappen(states[m], events[m]) && Starts(states[m], events[m])
    && states[m + 1].app.epoch == states[i].app.epoch
  }

  // A step that starts nothing keeps the newest request, and sets no callback.
  lemma QuietStepStays<T(!new)>(ids: set<ExtId>, states: seq<System<T>>, events: seq<Event<T>>, k: nat)
    requires IsRun(ids, states, events) && k < |events|
    ensures Follows(states[k], events[k], states[k + 1])
    ensures !Starts(states[k], events[k]) ==>
      var a, b := states[k].app, states[k + 1].app;
      && b.requestId == a.requestId && b.route == a.route && b.epoch == a.epoch
      && (b.pending.Some? ==> a.pending.Some?)
  {
    assert Follows(states[k], events[k], states[k + 1]);
    StepAsks(states[k], events[k]);
    RunFrame(ids, states, events, k);
  }

  // As long as a callback is set there is such a step, and nothing was asked since.
  lemma {:induction false} NewestStart<T(!new)>(ids: set<ExtId>, states: seq<System<T>>, events: seq<Event<T>>, i: nat)
    returns (m: nat)
    requires IsRun(ids, states, events) && i < |states|
    requires states[i].app.pending.Some? || states[i].app.route.Asked?
    ensures StartedAt(states, events, m, i)
    ensures states[i].app.requestId == states[m + 1].app.requestId
    ensures states[i].app.route == states[m + 1].app.route
  {
    assert i > 0;
    var k := i - 1;
    QuietStepStays(ids, states, events, k);
    if Starts(states[k], events[k]) {
      m := k;
    } else {
      m := NewestStart(ids, states, events, k);
    }
  }

  // A response that passes the filter answers the newest request ever sent. That request was sent
  // by the step that started the newest query or activation exactly if this step asked a running
  // extension. A query that waits for its extension, or finds none, and an activation that sends
  // nothing ask nobody, so the late responses to an earlier request land in the new list.
  lemma AnswerBelongsIffAsked<T(!new)>(
    ids: set<ExtId>, states: seq<System<T>>, events: seq<Event<T>>, i: nat, ext: ExtId, packet: Packet<T>) returns (m: nat)
    requires IsRun(ids, states, events) && i < |states|
    requires Accepts(states[i].app, ext, packet)
    ensures StartedAt(states, events, m, i) && Follows(states[m], events[m], states[m + 1])
    ensures states[m].app.requestId <= packet.req == states[m + 1].app.requestId
    ensures packet.req > states[m].app.requestId <==> Asks(states[m], events[m])
  {
    m := NewestStart(ids, states, events, i);
    assert Follows(states[m], events[m], states[m + 1]);
    StepAsks(states[m], events[m]);
  }

  // A request that has just been sent has its callback armed exactly when it was not sent from
  // inside the handling of a response: ending that response clears whatever callback is set.
  lemma CallbackArmedIffNotNested<T(!new)>(ids: set<ExtId>, states: seq<System<T>>, events: seq<Event<T>>, i: nat)
    requires IsRun(ids, states, events) && i < |events|
    requires states[i + 1].app.requestId > states[i].app.requestId
    ensures states[i + 1].app.pending.Some? <==> !events[i].Respond?
    ensures states[i + 1].app.route.Asked? && states[i + 1].app.arrived == []
  {
    RunFrame(ids, states, events, i);
  }

  // Such a request is never answered: until the next query or activation no response to it and no
  // failure is shown.
  lemma {:induction false} UnarmedIsNeverAnswered<T(!new)>(
    ids: set<ExtId>, states: seq<System<T>>, events: seq<Event<T>>, i: nat, j: nat)
    requires IsRun(ids, states, events) && i <= j < |states|
    requires states[i].app.route.Asked? && states[i].app.pending.None?
    requires states[j].app.epoch == states[i].app.epoch
    ensures states[j].app.arrived == states[i].app.arrived && states[j].app.pending.None?
    ensures states[j].app.route == states[i].app.route
    decreases j
  {
    if i < j {
      EpochsGrow(ids, states, events, i, j - 1);
      RunFrame(ids, states, events, j - 1);
      UnarmedIsNeverAnswered(ids, states, events, i, j - 1);
    }
  }

  lemma {:induction false} EpochsGrow<T(!new)>(
    ids: set<ExtId>, states: seq<System<T>>, events: seq<Event<T>>, i: nat, j: nat)
    requires IsRun(ids, states, events) && i <= j < |states|
    ensures states[i].app.epoch <= states[j].app.epoch
    decreases j
  {
    if i < j {
      EpochsGrow(ids, states, events, i, j - 1);
      RunFrame(ids, states, events, j - 1);
    }
  }

  // ---------------------------------------------------------------- activating what is shown

  lemma {:induction false} FoldComesFromBatches<T>(bs: seq<Batch<T>>, x: T)
    requires x in Fold(bs)
    ensures exists k :: 0 <= k < |bs| && x in bs[k].results
  {
    if bs != [] {
      var last := bs[|bs| - 1];
      if x in last.results {
      } else {
        FoldComesFromBatches(bs[..|bs| - 1], x);
      }
    }
  }

  lemma {:induction false} SentForComesFromPackets<T>(sent: seq<Packet<T>>, r: RequestId, k: nat) returns (j: nat)
    requires k < |SentFor(sent, r)|
    ensures j < |sent| && sent[j] == Packet(r, SentFor(sent, r)[k])
  {
    var shorter := sent[..|sent| - 1];
    if k < |SentFor(shorter, r)| {
      j := SentForComesFromPackets(shorter, r, k);
    } else {
      j := |sent| - 1;
    }
  }

  // No rows were rendered for request r before the current cache was started.
  ghost predicate CacheCovers<T(!new)>(p: Process<T>, r: RequestId) {
    forall j :: 0 <= j < |p.sent| && j < p.cacheFrom && p.sent[j].req == r ==> !p.sent[j].effect.Render?
  }

  lemma PaintedRowResolves<T(!new)>(p: Process<T>, r: RequestId, es: seq<Effect<Stamped<T>>>, x: Stamped<T>)
    requires Sound(p) && CacheCovers(p, r)
    requires es <= SentFor(p.sent, r) && (forall i :: 0 <= i < |es| ==> es[i].Render?)
    requires x in Fold(BatchesIn(es))
    ensures x.id < |p.cache| && p.cache[x.id] == x.row
  {
    BatchesOfRenders(es);
    FoldComesFromBatches(BatchesIn(es), x);
    var k :| 0 <= k < |es| && x in BatchesIn(es)[k].results;
    var j := SentForComesFromPackets(p.sent, r, k);
    assert Resolves(p.cache, p.cacheOf, p.sent[j]);
    var i :| 0 <= i < |es[k].batch.results| && es[k].batch.results[i] == x;
  }

  lemma ShownComesFromAnswers<T(!new)>(a: App<T>)
    requires Tidy(a) && a.upTo > 0
    requires forall k :: 0 <= k < |a.arrived| ==> a.arrived[k].Render?
    ensures a.upTo <= |a.arrived| && a.screen.shown == Fold(BatchesIn(a.arrived[..a.upTo]))
  {
    BatchesOfRenders(a.arrived);
    var es := a.arrived[..a.upTo];
    BatchesOfRenders(es);
    assert BatchesIn(es) == BatchesIn(a.arrived)[..a.upTo];
  }

  // Activating a row on screen hands the handler the very instance it produced, as long as no other
  // request's rows were sent in between.
  lemma ShownRowsResolve<T(!new)>(
    ids: set<ExtId>, states: seq<System<T>>, events: seq<Event<T>>, i: nat, p: Process<T>, x: Stamped<T>)
    requires IsRun(ids, states, events) && i < |states|
    requires Uncut(states[i].app) && states[i].app.upTo > 0
    requires forall k :: 0 <= k < |states[i].app.arrived| ==> states[i].app.arrived[k].Render?
    requires states[i].app.route.ext in states[i].exts && p == states[i].exts[states[i].app.route.ext]
    requires CacheCovers(p, states[i].app.requestId)
    requires x in states[i].app.screen.shown
    ensures x.id < |p.cache| && p.cache[x.id] == x.row
  {
    RunIsFine(ids, states, events, i);
    var a := states[i].app;
    assert ExtFine(states[i], a.route.ext);
    SentForPrefix(p.sent, states[i].read[a.route.ext], a.requestId);
    ShownComesFromAnswers(a);
    PaintedRowResolves(p, a.requestId, a.arrived[..a.upTo], x);
  }
}
