// The timer scheduler of extension processes: a heap of timers, a list of entries submitted by
// other threads, one-shot and repeating callbacks, and cancellation at any time.
module EventLoop {
  import opened Prelude

  type Id = nat
  type Thread = nat

  // An entry keeps its identity over reschedules, which change only when it is due and its order.
  datatype Entry = Entry(id: Id, due: real, order: nat, interval: Option<real>)

  predicate Before(a: Entry, b: Entry) {
    a.due < b.due || (a.due == b.due && a.order < b.order)
  }

  // The heap, as the list of its entries in the order in which they are popped.
  function Pushed(heap: seq<Entry>, e: Entry): (r: seq<Entry>)
    ensures forall x :: x in r <==> x in heap || x == e
  {
    if heap == [] || Before(e, heap[0]) then [e] + heap else [heap[0]] + Pushed(heap[1..], e)
  }

  function PushedAll(heap: seq<Entry>, es: seq<Entry>): (r: seq<Entry>)
    ensures forall x :: x in r <==> x in heap || x in es
    decreases |es|
  {
    if es == [] then heap else PushedAll(Pushed(heap, es[0]), es[1..])
  }

  ghost predicate Sorted(heap: seq<Entry>) {
    forall i, j :: 0 <= i < j < |heap| ==> !Before(heap[j], heap[i])
  }

  lemma {:induction false} PushedSorted(heap: seq<Entry>, e: Entry)
    requires Sorted(heap)
    ensures Sorted(Pushed(heap, e))
  {
    if heap != [] && !Before(e, heap[0]) {
      PushedSorted(heap[1..], e);
      var rest := Pushed(heap[1..], e);
      forall i | 0 <= i < |rest| ensures !Before(rest[i], heap[0]) {
        assert rest[i] in rest;
      }
    }
  }

  lemma {:induction false} PushedAllSorted(heap: seq<Entry>, es: seq<Entry>)
    requires Sorted(heap)
    ensures Sorted(PushedAll(heap, es))
    decreases |es|
  {
    if es != [] {
      PushedSorted(heap, es[0]);
      PushedAllSorted(Pushed(heap, es[0]), es[1..]);
    }
  }

  // How an entry came to be.
  datatype Birth = Birth(thread: Thread, delay: real, at: real, interval: Option<real>)

  // A callback started, a callback came back, an entry was cancelled.
  datatype Note = Ran(id: Id, due: real, at: real) | Back(id: Id, at: real) | Cancelled(id: Id)

  // `hands` are entries a thread has made but not queued yet. The fields from `finished` on are
  // history: entries that are over, entries dropped from the heap, births, and what happened.
  datatype Loop = Loop(
    timers: seq<Entry>,
    pending: seq<Entry>,
    hands: seq<Entry>,
    running: Option<Entry>,
    counter: nat,
    cancelled: set<Id>,
    clock: real,
    finished: set<Id>,
    dropped: set<Id>,
    births: map<Id, Birth>,
    log: seq<Note>)

  function Fresh(): Loop {
    Loop([], [], [], None, 0, {}, 0.0, {}, {}, map[], [])
  }

  function Positive(delay: real): real {
    if delay < 0.0 then 0.0 else delay
  }

  // call_later has two halves: an entry is made, and then queued, directly by the loop's own
  // thread (or while no thread runs the loop) and through the pending list by any other.
  function Made(l: Loop, thread: Thread, delay: real, interval: Option<real>, now: real): Loop {
    var e := Entry(l.counter, now + Positive(delay), l.counter, interval);
    l.(counter := l.counter + 1, hands := l.hands + [e], clock := now,
       births := l.births[e.id := Birth(thread, Positive(delay), now, interval)])
  }

  function Queued(l: Loop, k: nat, direct: bool): Loop
    requires k < |l.hands|
  {
    var e := l.hands[k];
    var m := l.(hands := l.hands[..k] + l.hands[k + 1..]);
    if direct then m.(timers := Pushed(m.timers, e)) else m.(pending := m.pending + [e])
  }

  function CancelledOne(l: Loop, id: Id): Loop {
    l.(cancelled := l.cancelled + {id}, log := l.log + [Cancelled(id)])
  }

  function Pulled(l: Loop): Loop {
    l.(timers := PushedAll(l.timers, l.pending), pending := [])
  }

  // What the loop does with the earliest entry: dropped if cancelled, left if not due, and
  // otherwise popped to run.
  function Picked(m: Loop, now: real): Loop
    requires m.timers != []
  {
    var e := m.timers[0];
    if e.id in m.cancelled then m.(timers := m.timers[1..], dropped := m.dropped + {e.id})
    else if e.due > now then m.(clock := now)
    else m.(timers := m.timers[1..], running := Some(e), clock := now, log := m.log + [Ran(e.id, e.due, now)])
  }

  // One turn of the loop up to the callback: pending entries are adopted and one is picked.
  function Turned(l: Loop, now: real): Loop {
    var m := Pulled(l);
    if m.timers == [] then m else Picked(m, now)
  }

  // The callback is over: a repeating entry that was not cancelled meanwhile goes back.
  function Returned(l: Loop, now: real): Loop
    requires l.running.Some?
  {
    var e := l.running.value;
    var m := l.(running := None, clock := now, log := l.log + [Back(e.id, now)]);
    if e.interval.Some? && e.id !in l.cancelled then
      m.(counter := l.counter + 1,
         timers := Pushed(l.timers, e.(due := now + e.interval.value, order := l.counter)))
    else m.(finished := l.finished + {e.id})
  }

  datatype Step =
    | Make(thread: Thread, delay: real, interval: Option<real>, now: real)
    | Queue(k: nat, direct: bool)
    | Cancel(id: Id)
    | Turn(now: real)
    | Return(now: real)

  // The clock never goes back; a thread makes one entry at a time; the loop's thread takes its
  // next turn only after the callback has returned.
  predicate Possible(l: Loop, s: Step) {
    match s
    case Make(thread, _, _, now) =>
      && now >= l.clock
      && forall i :: 0 <= i < |l.hands| && l.hands[i].id in l.births ==> l.births[l.hands[i].id].thread != thread
    case Queue(k, _) => k < |l.hands|
    case Cancel(id) => id in l.births
    case Turn(now) => now >= l.clock && l.running.None?
    case Return(now) => now >= l.clock && l.running.Some?
  }

  function Next(l: Loop, s: Step): Loop
    requires Possible(l, s)
  {
    match s
    case Make(thread, delay, interval, now) => Made(l, thread, delay, interval, now)
    case Queue(k, direct) => Queued(l, k, direct)
    case Cancel(id) => CancelledOne(l, id)
    case Turn(now) => Turned(l, now)
    case Return(now) => Returned(l, now)
  }

  // ---------------------------------------------------------------- every entry in one place

  function Count(es: seq<Entry>, id: Id): nat {
    if es == [] then 0 else (if es[0].id == id then 1 else 0) + Count(es[1..], id)
  }

  lemma {:induction false} CountConcat(es: seq<Entry>, fs: seq<Entry>, id: Id)
    ensures Count(es + fs, id) == Count(es, id) + Count(fs, id)
  {
    if es == [] {
      assert es + fs == fs;
    } else {
      assert (es + fs)[1..] == es[1..] + fs;
      CountConcat(es[1..], fs, id);
    }
  }

  lemma CountSnoc(es: seq<Entry>, e: Entry, id: Id)
    ensures Count(es + [e], id) == Count(es, id) + if e.id == id then 1 else 0
  {
    CountConcat(es, [e], id);
    assert [e][1..] == [];
  }

  lemma CountWithout(es: seq<Entry>, k: nat, id: Id)
    requires k < |es|
    ensures Count(es, id) == Count(es[..k] + es[k + 1..], id) + if es[k].id == id then 1 else 0
  {
    CountConcat(es[..k], es[k + 1..], id);
    CountConcat(es[..k], es[k..], id);
    assert es == es[..k] + es[k..];
    assert es[k..][1..] == es[k + 1..];
  }

  lemma {:induction false} CountIn(es: seq<Entry>, e: Entry)
    requires e in es
    ensures Count(es, e.id) >= 1
  {
    if es[0] != e {
      CountIn(es[1..], e);
    }
  }

  lemma {:induction false} CountNames(es: seq<Entry>, id: Id) returns (e: Entry)
    requires Count(es, id) >= 1
    ensures e in es && e.id == id
  {
    if es[0].id == id {
      e := es[0];
    } else {
      e := CountNames(es[1..], id);
    }
  }

  lemma {:induction false} PushedCount(heap: seq<Entry>, e: Entry, id: Id)
    ensures Count(Pushed(heap, e), id) == Count(heap, id) + if e.id == id then 1 else 0
  {
    if heap != [] && !Before(e, heap[0]) {
      PushedCount(heap[1..], e, id);
    } else {
      assert ([e] + heap)[1..] == heap;
    }
  }

  lemma {:induction false} PushedAllCount(heap: seq<Entry>, es: seq<Entry>, id: Id)
    ensures Count(PushedAll(heap, es), id) == Count(heap, id) + Count(es, id)
    decreases |es|
  {
    if es != [] {
      PushedCount(heap, es[0], id);
      PushedAllCount(Pushed(heap, es[0]), es[1..], id);
    }
  }

  function Here(b: bool): nat {
    if b then 1 else 0
  }

  // In how many places entry `id` is: the heap, the pending list, its maker's hands, running, over,
  // or dropped.
  function Places(l: Loop, id: Id): nat {
    Count(l.timers, id) + Count(l.pending, id) + Count(l.hands, id)
    + Here(l.running.Some? && l.running.value.id == id) + Here(id in l.finished) + Here(id in l.dropped)
  }

  ghost predicate OnePlaceEach(l: Loop) {
    forall id {:trigger Places(l, id)} :: Places(l, id) == Here(id in l.births)
  }

  lemma MadePlaces(l: Loop, thread: Thread, delay: real, interval: Option<real>, now: real, id: Id)
    requires Places(l, id) == Here(id in l.births) && l.counter !in l.births
    ensures Places(Made(l, thread, delay, interval, now), id) == Here(id in Made(l, thread, delay, interval, now).births)
  {
    CountSnoc(l.hands, Entry(l.counter, now + Positive(delay), l.counter, interval), id);
  }

  lemma QueuedPlaces(l: Loop, k: nat, direct: bool, id: Id)
    requires k < |l.hands|
    ensures Places(Queued(l, k, direct), id) == Places(l, id)
  {
    CountWithout(l.hands, k, id);
    CountSnoc(l.pending, l.hands[k], id);
    PushedCount(l.timers, l.hands[k], id);
  }

  lemma PulledPlaces(l: Loop, id: Id)
    ensures Places(Pulled(l), id) == Places(l, id)
  {
    PushedAllCount(l.timers, l.pending, id);
  }

  lemma PickedPlaces(m: Loop, now: real, id: Id)
    requires m.timers != [] && m.running.None? && Places(m, id) <= 1
    ensures Places(Picked(m, now), id) == Places(m, id)
  {
  }

  lemma ReturnedPlaces(l: Loop, now: real, id: Id)
    requires l.running.Some? && Places(l, id) <= 1
    ensures Places(Returned(l, now), id) == Places(l, id)
  {
    var e := l.running.value;
    if e.interval.Some? && e.id !in l.cancelled {
      var again := e.(due := now + e.interval.value, order := l.counter);
      PushedCount(l.timers, again, id);
    } else if e.id == id {
      assert id !in l.finished;
    }
  }

  lemma StepPlaces(l: Loop, s: Step)
    requires Possible(l, s) && OnePlaceEach(l) && l.counter !in l.births
    ensures OnePlaceEach(Next(l, s))
  {
    forall id ensures Places(Next(l, s), id) == Here(id in Next(l, s).births) {
      assert Places(l, id) == Here(id in l.births);
      match s
      case Make(thread, delay, interval, now) => MadePlaces(l, thread, delay, interval, now, id);
      case Queue(k, direct) => QueuedPlaces(l, k, direct, id);
      case Cancel(_) =>
      case Turn(now) =>
        PulledPlaces(l, id);
        if Pulled(l).timers != [] {
          PickedPlaces(Pulled(l), now, id);
        }
      case Return(now) => ReturnedPlaces(l, now, id);
    }
  }

  // ---------------------------------------------------------------- what a run may log

  function RanIn(log: seq<Note>): set<Id> {
    if log == [] then {}
    else
      var last := log[|log| - 1];
      RanIn(log[..|log| - 1]) + if last.Ran? then {last.id} else {}
  }

  function CancelledIn(log: seq<Note>): set<Id> {
    if log == [] then {}
    else
      var last := log[|log| - 1];
      CancelledIn(log[..|log| - 1]) + if last.Cancelled? then {last.id} else {}
  }

  // What the log last says of an entry's callback: nothing, that it started, or that it came back.
  datatype Phase = Unseen | Busy(since: real) | Rested(since: real)

  function PhaseOf(log: seq<Note>, id: Id): Phase {
    if log == [] then Unseen
    else
      var last := log[|log| - 1];
      if last.Ran? && last.id == id then Busy(last.at)
      else if last.Back? && last.id == id then Rested(last.at)
      else PhaseOf(log[..|log| - 1], id)
  }

  // Two entries made by one thread with equal delays, in this order.
  predicate SameQueue(births: map<Id, Birth>, a: Id, b: Id) {
    && a < b && a in births && b in births
    && births[a].thread == births[b].thread && births[a].delay == births[b].delay
  }

  // A run in the log is allowed by what was logged before: not before its due time, which for a
  // first run is the time asked for, and for a later one the interval after the callback came back;
  // not after a cancellation; not twice for a one-shot; and not ahead of an earlier entry of the
  // same thread and delay, unless that one was cancelled.
  ghost predicate MayRun(births: map<Id, Birth>, before: seq<Note>, note: Note) {
    note.Ran? ==>
      && note.id in births
      && note.at >= note.due
      && note.id !in CancelledIn(before)
      && (note.id in RanIn(before) ==> IsNextRun(births[note.id], PhaseOf(before, note.id), note.due))
      && (note.id !in RanIn(before) ==>
            && note.due == births[note.id].at + births[note.id].delay
            && (forall a {:trigger SameQueue(births, a, note.id)} ::
                  SameQueue(births, a, note.id) ==> a in RanIn(before) || a in CancelledIn(before)))
  }

  predicate IsNextRun(birth: Birth, phase: Phase, due: real) {
    birth.interval.Some? && phase.Rested? && due == phase.since + birth.interval.value
  }

  // A callback comes back once for each time it started, and not earlier.
  ghost predicate MayReturn(before: seq<Note>, note: Note) {
    note.Back? ==> PhaseOf(before, note.id).Busy? && PhaseOf(before, note.id).since <= note.at
  }

  ghost predicate MayBeLogged(births: map<Id, Birth>, before: seq<Note>, note: Note) {
    MayRun(births, before, note) && MayReturn(before, note)
  }

  ghost predicate LogFine(births: map<Id, Birth>, log: seq<Note>) {
    forall j {:trigger MayBeLogged(births, log[..j], log[j])} ::
      0 <= j < |log| ==> MayBeLogged(births, log[..j], log[j])
  }

  // ---------------------------------------------------------------- what every step keeps

  ghost predicate EntryFits(l: Loop, e: Entry) {
    && e.id in l.births
    && e.order < l.counter
    && e.interval == l.births[e.id].interval
    && (e.id !in RanIn(l.log) ==> e.due == l.births[e.id].at + l.births[e.id].delay && e.order == e.id)
  }

  // Nothing queued has run already, unless it repeats, is over with its last run, and due after it.
  ghost predicate WaitingFits(l: Loop, e: Entry) {
    EntryFits(l, e) && (e.id in RanIn(l.log) ==> IsNextRun(l.births[e.id], PhaseOf(l.log, e.id), e.due))
  }

  ghost predicate RunningFits(l: Loop, e: Entry) {
    && EntryFits(l, e) && e.id in RanIn(l.log)
    && PhaseOf(l.log, e.id).Busy? && PhaseOf(l.log, e.id).since <= l.clock
  }

  // An entry in a thread's hands is the newest that thread has made.
  ghost predicate InHandFits(l: Loop, e: Entry) {
    && WaitingFits(l, e)
    && e.id !in RanIn(l.log)
    && forall b {:trigger SameQueue(l.births, e.id, b)} :: !SameQueue(l.births, e.id, b)
  }

  ghost predicate BirthsFit(l: Loop) {
    && (forall a :: a in l.births ==> a < l.counter && l.births[a].at <= l.clock)
    && (forall a, b :: a in l.births && b in l.births && a < b ==> l.births[a].at <= l.births[b].at)
  }

  ghost predicate OverFits(l: Loop) {
    && l.cancelled == CancelledIn(l.log)
    && (forall id :: id in l.dropped ==> id in l.cancelled)
    && (forall id :: id in l.finished ==> id in RanIn(l.log) && id in l.births)
    && (forall id :: id in l.finished && id in l.births ==> l.births[id].interval.None? || id in l.cancelled)
  }

  ghost predicate Sound(l: Loop) {
    && OnePlaceEach(l)
    && Sorted(l.timers)
    && (forall e {:trigger e in l.timers} :: e in l.timers ==> WaitingFits(l, e))
    && (forall e {:trigger e in l.pending} :: e in l.pending ==> WaitingFits(l, e))
    && (forall e {:trigger e in l.hands} :: e in l.hands ==> InHandFits(l, e))
    && (l.running.Some? ==> RunningFits(l, l.running.value))
    && BirthsFit(l)
    && OverFits(l)
    && LogFine(l.births, l.log)
  }

  lemma MakeKeeps(l: Loop, thread: Thread, delay: real, interval: Option<real>, now: real)
    requires Sound(l) && Possible(l, Make(thread, delay, interval, now))
    ensures Sound(Made(l, thread, delay, interval, now))
  {
    var m := Made(l, thread, delay, interval, now);
    StepPlaces(l, Make(thread, delay, interval, now));
    RanAreBorn(l);
    forall e | e in l.hands ensures InHandFits(m, e) {
      assert InHandFits(l, e);
      forall b ensures !SameQueue(m.births, e.id, b) {
        assert !SameQueue(l.births, e.id, b);
      }
    }
    BirthKeepsLog(l.births, m.births, l.log);
  }

  // Log entries only speak of entries that were born by then.
  lemma {:induction false} RanBorn(births: map<Id, Birth>, log: seq<Note>, id: Id)
    requires LogFine(births, log) && id in RanIn(log)
    ensures id in births
  {
    var n := |log| - 1;
    assert MayBeLogged(births, log[..n], log[n]);
    if !(log[n].Ran? && log[n].id == id) {
      LogFinePrefix(births, log, n);
      RanBorn(births, log[..n], id);
    }
  }

  lemma LogFinePrefix(births: map<Id, Birth>, log: seq<Note>, n: nat)
    requires LogFine(births, log) && n <= |log|
    ensures LogFine(births, log[..n])
  {
    forall j | 0 <= j < n ensures MayBeLogged(births, log[..n][..j], log[..n][j]) {
      assert log[..n][..j] == log[..j];
      assert MayBeLogged(births, log[..j], log[j]);
    }
  }

  lemma RanAreBorn(l: Loop)
    requires Sound(l)
    ensures forall id :: id in RanIn(l.log) ==> id in l.births
    ensures l.counter !in RanIn(l.log)
  {
    forall id | id in RanIn(l.log) ensures id in l.births {
      RanBorn(l.births, l.log, id);
    }
  }

  // A new entry is behind all entries in the log, so it changes nothing that was allowed.
  lemma BirthKeepsLog(births: map<Id, Birth>, more: map<Id, Birth>, log: seq<Note>)
    requires LogFine(births, log)
    requires forall id :: id in births ==> id in more && more[id] == births[id]
    requires forall a, b :: a in more && a !in births && b in births ==> b < a
    ensures LogFine(more, log)
  {
    forall j | 0 <= j < |log| ensures MayBeLogged(more, log[..j], log[j]) {
      assert MayBeLogged(births, log[..j], log[j]);
      if log[j].Ran? {
        forall a | SameQueue(more, a, log[j].id) ensures SameQueue(births, a, log[j].id) {
        }
      }
    }
  }

  lemma QueueKeeps(l: Loop, k: nat, direct: bool)
    requires Sound(l) && k < |l.hands|
    ensures Sound(Queued(l, k, direct))
  {
    var m := Queued(l, k, direct);
    var e := l.hands[k];
    assert e in l.hands;
    StepPlaces(l, Queue(k, direct));
    assert InHandFits(l, e);
    PushedSorted(l.timers, e);
    forall x | x in m.hands ensures InHandFits(m, x) {
      assert x in l.hands && InHandFits(l, x);
    }
  }

  lemma LogSnoc(births: map<Id, Birth>, log: seq<Note>, note: Note)
    requires LogFine(births, log) && MayBeLogged(births, log, note)
    ensures LogFine(births, log + [note])
    ensures RanIn(log + [note]) == RanIn(log) + if note.Ran? then {note.id} else {}
    ensures CancelledIn(log + [note]) == CancelledIn(log) + if note.Cancelled? then {note.id} else {}
    ensures forall id {:trigger PhaseOf(log + [note], id)} ::
      note.Cancelled? || note.id != id ==> PhaseOf(log + [note], id) == PhaseOf(log, id)
  {
    var longer := log + [note];
    assert longer[..|log|] == log;
    forall j | 0 <= j < |longer| ensures MayBeLogged(births, longer[..j], longer[j]) {
      if j < |log| {
        assert longer[..j] == log[..j];
        assert MayBeLogged(births, log[..j], log[j]);
      }
    }
  }

  lemma CancelKeeps(l: Loop, id: Id)
    requires Sound(l)
    ensures Sound(CancelledOne(l, id))
  {
    var m := CancelledOne(l, id);
    LogSnoc(l.births, l.log, Cancelled(id));
    assert RanIn(m.log) == RanIn(l.log);
    forall i ensures Places(m, i) == Here(i in m.births) {
      assert Places(l, i) == Here(i in l.births);
    }
    forall e | e in m.hands ensures InHandFits(m, e) {
      assert InHandFits(l, e);
    }
  }

  lemma PullKeeps(l: Loop)
    requires Sound(l)
    ensures Sound(Pulled(l)) && Pulled(l).pending == []
  {
    var m := Pulled(l);
    forall i ensures Places(m, i) == Here(i in m.births) {
      PulledPlaces(l, i);
      assert Places(l, i) == Here(i in l.births);
    }
    PushedAllSorted(l.timers, l.pending);
    forall e | e in m.timers ensures WaitingFits(m, e) {
      assert e in l.timers || e in l.pending;
    }
    forall e | e in m.hands ensures InHandFits(m, e) {
      assert InHandFits(l, e);
    }
  }

  // With nothing pending, an earlier entry of the same thread and delay is not still waiting when
  // the head of the heap runs for the first time.
  lemma HeadIsFirst(m: Loop, a: Id)
    requires Sound(m) && m.pending == [] && m.timers != [] && m.running.None?
    requires m.timers[0].id !in RanIn(m.log)
    requires SameQueue(m.births, a, m.timers[0].id)
    ensures a in RanIn(m.log) || a in CancelledIn(m.log)
  {
    var e := m.timers[0];
    assert e in m.timers;
    if a !in RanIn(m.log) && a !in CancelledIn(m.log) {
      assert Places(m, a) == Here(a in m.births);
      if Count(m.hands, a) >= 1 {
        var h := CountNames(m.hands, a);
        assert false;
      } else {
        var w := CountNames(m.timers, a);
        assert false;
      }
    }
  }

  lemma PickKeeps(m: Loop, now: real)
    requires Sound(m) && m.pending == [] && m.timers != [] && m.running.None? && now >= m.clock
    ensures Sound(Picked(m, now))
  {
    var n := Picked(m, now);
    var e := m.timers[0];
    assert e in m.timers;
    forall i ensures Places(n, i) == Here(i in n.births) {
      assert Places(m, i) == Here(i in m.births);
      PickedPlaces(m, now, i);
    }
    assert WaitingFits(m, e);
    if e.id !in m.cancelled && e.due <= now {
      RunKeeps(m, now);
    } else {
      forall x | x in n.timers ensures WaitingFits(n, x) {
        assert x in m.timers;
      }
      forall x | x in n.hands ensures InHandFits(n, x) {
        assert InHandFits(m, x);
      }
    }
  }

  lemma RunIsAllowed(m: Loop, now: real)
    requires Sound(m) && m.pending == [] && m.timers != [] && m.running.None?
    requires m.timers[0].id !in m.cancelled && m.timers[0].due <= now
    ensures MayRun(m.births, m.log, Ran(m.timers[0].id, m.timers[0].due, now))
  {
    var e := m.timers[0];
    assert e in m.timers;
    assert WaitingFits(m, e);
    if e.id !in RanIn(m.log) {
      forall a | SameQueue(m.births, a, e.id) ensures a in RanIn(m.log) || a in CancelledIn(m.log) {
        HeadIsFirst(m, a);
      }
    }
  }

  // The entry that starts to run is in no other place, so nothing else in the loop is affected.
  lemma OnlyHere(m: Loop, x: Entry)
    requires OnePlaceEach(m) && m.timers != []
    requires x in m.timers[1..] || x in m.hands
    ensures x.id != m.timers[0].id
  {
    assert Places(m, x.id) == Here(x.id in m.births);
    if x in m.timers[1..] {
      CountIn(m.timers[1..], x);
    } else {
      CountIn(m.hands, x);
    }
  }

  lemma RunKeeps(m: Loop, now: real)
    requires Sound(m) && m.pending == [] && m.timers != [] && m.running.None? && now >= m.clock
    requires m.timers[0].id !in m.cancelled && m.timers[0].due <= now
    requires OnePlaceEach(Picked(m, now))
    ensures Sound(Picked(m, now))
  {
    var n := Picked(m, now);
    var e := m.timers[0];
    assert e in m.timers;
    assert WaitingFits(m, e);
    RunIsAllowed(m, now);
    LogSnoc(m.births, m.log, Ran(e.id, e.due, now));
    assert CancelledIn(n.log) == CancelledIn(m.log);
    forall x | x in n.timers ensures WaitingFits(n, x) {
      OnlyHere(m, x);
      assert x in m.timers && WaitingFits(m, x);
    }
    forall x | x in n.hands ensures InHandFits(n, x) {
      OnlyHere(m, x);
      assert InHandFits(m, x);
    }
  }

  // The entry that comes back from its callback is queued nowhere.
  lemma OnlyRunning(l: Loop, x: Entry)
    requires OnePlaceEach(l) && l.running.Some?
    requires x in l.timers || x in l.pending || x in l.hands
    ensures x.id != l.running.value.id
  {
    assert Places(l, x.id) == Here(x.id in l.births);
    if x in l.timers {
      CountIn(l.timers, x);
    } else if x in l.pending {
      CountIn(l.pending, x);
    } else {
      CountIn(l.hands, x);
    }
  }

  lemma ReturnIsLogged(l: Loop, now: real)
    requires Sound(l) && l.running.Some? && now >= l.clock
    ensures LogFine(Returned(l, now).births, Returned(l, now).log)
    ensures RanIn(Returned(l, now).log) == RanIn(l.log) && CancelledIn(Returned(l, now).log) == CancelledIn(l.log)
    ensures PhaseOf(Returned(l, now).log, l.running.value.id) == Rested(now)
    ensures forall id :: id != l.running.value.id ==> PhaseOf(Returned(l, now).log, id) == PhaseOf(l.log, id)
  {
    LogSnoc(l.births, l.log, Back(l.running.value.id, now));
    forall id | id != l.running.value.id ensures PhaseOf(Returned(l, now).log, id) == PhaseOf(l.log, id) {
      assert PhaseOf(l.log + [Back(l.running.value.id, now)], id) == PhaseOf(l.log, id);
    }
  }

  lemma ReturnKeeps(l: Loop, now: real)
    requires Sound(l) && l.running.Some? && now >= l.clock
    ensures Sound(Returned(l, now))
  {
    var m := Returned(l, now);
    forall i ensures Places(m, i) == Here(i in m.births) {
      assert Places(l, i) == Here(i in l.births);
      ReturnedPlaces(l, now, i);
    }
    ReturnIsLogged(l, now);
    ReturnedTimers(l, now);
    forall x | x in m.pending ensures WaitingFits(m, x) {
      OnlyRunning(l, x);
      assert WaitingFits(l, x);
    }
    forall x | x in m.hands ensures InHandFits(m, x) {
      assert InHandFits(l, x);
    }
    assert m.births == l.births && m.cancelled == l.cancelled;
    assert BirthsFit(m) && OverFits(m);
  }

  lemma ReturnedTimers(l: Loop, now: real)
    requires Sound(l) && l.running.Some? && now >= l.clock
    ensures Sorted(Returned(l, now).timers)
    ensures forall x {:trigger x in Returned(l, now).timers} :: x in Returned(l, now).timers ==> WaitingFits(Returned(l, now), x)
  {
    var m, e := Returned(l, now), l.running.value;
    ReturnIsLogged(l, now);
    if e.interval.Some? {
      PushedSorted(l.timers, e.(due := now + e.interval.value, order := l.counter));
    }
    forall x | x in m.timers ensures WaitingFits(m, x) {
      if x in l.timers {
        OnlyRunning(l, x);
        assert WaitingFits(l, x);
      }
    }
  }

  lemma StepKeeps(l: Loop, s: Step)
    requires Sound(l) && Possible(l, s)
    ensures Sound(Next(l, s))
  {
    match s
    case Make(thread, delay, interval, now) => MakeKeeps(l, thread, delay, interval, now);
    case Queue(k, direct) => QueueKeeps(l, k, direct);
    case Cancel(id) => CancelKeeps(l, id);
    case Turn(now) =>
      PullKeeps(l);
      if Pulled(l).timers != [] {
        PickKeeps(Pulled(l), now);
      }
    case Return(now) => ReturnKeeps(l, now);
  }

  // ---------------------------------------------------------------- whole runs

  function After(l: Loop, steps: seq<Step>): Loop
    requires AllPossible(l, steps)
    decreases |steps|, 1
  {
    if steps == [] then l else Next(After(l, steps[..|steps| - 1]), steps[|steps| - 1])
  }

  predicate AllPossible(l: Loop, steps: seq<Step>)
    decreases |steps|, 0
  {
    steps == [] ||
    (AllPossible(l, steps[..|steps| - 1]) && Possible(After(l, steps[..|steps| - 1]), steps[|steps| - 1]))
  }

  lemma {:induction false} RunKeepsSound(l: Loop, steps: seq<Step>)
    requires Sound(l) && AllPossible(l, steps)
    ensures Sound(After(l, steps))
  {
    if steps != [] {
      RunKeepsSound(l, steps[..|steps| - 1]);
      StepKeeps(After(l, steps[..|steps| - 1]), steps[|steps| - 1]);
    }
  }

  lemma FreshIsSound()
    ensures Sound(Fresh())
  {
    forall id ensures Places(Fresh(), id) == Here(id in Fresh().births) {
    }
  }

  // At all times every entry is in exactly one place.
  lemma AlwaysOnePlace(steps: seq<Step>, id: Id)
    requires AllPossible(Fresh(), steps)
    ensures Places(After(Fresh(), steps), id) == Here(id in After(Fresh(), steps).births)
  {
    FreshIsSound();
    RunKeepsSound(Fresh(), steps);
  }

  // Nothing runs before it is due or after it was cancelled; a one-shot runs at most once.
  lemma RunsAreTimely(steps: seq<Step>, j: nat)
    requires AllPossible(Fresh(), steps)
    requires j < |After(Fresh(), steps).log| && After(Fresh(), steps).log[j].Ran?
    ensures
      var l := After(Fresh(), steps);
      var note := l.log[j];
      && note.id in l.births
      && note.at >= note.due
      && note.id !in CancelledIn(l.log[..j])
      && (note.id in RanIn(l.log[..j]) ==> l.births[note.id].interval.Some?)
      && (note.id !in RanIn(l.log[..j]) ==> note.due == l.births[note.id].at + l.births[note.id].delay)
  {
    FreshIsSound();
    RunKeepsSound(Fresh(), steps);
    var l := After(Fresh(), steps);
    assert MayBeLogged(l.births, l.log[..j], l.log[j]);
  }

  // Two runs of one entry with no run of it in between.
  ghost predicate Consecutive(log: seq<Note>, j: nat, k: nat) {
    && j < k < |log| && log[j].Ran? && log[k].Ran? && log[j].id == log[k].id
    && forall i :: j < i < k ==> !(log[i].Ran? && log[i].id == log[j].id)
  }

  // While a callback is busy, it is so since its last run.
  lemma {:induction false} BusySinceRun(log: seq<Note>, j: nat, n: nat)
    requires j < n <= |log| && log[j].Ran?
    requires forall i :: j < i < n ==> !(log[i].Ran? && log[i].id == log[j].id)
    requires PhaseOf(log[..n], log[j].id).Busy?
    ensures PhaseOf(log[..n], log[j].id) == Busy(log[j].at)
    ensures forall i :: j < i < n ==> !(log[i].Back? && log[i].id == log[j].id)
  {
    assert log[..n][..n - 1] == log[..n - 1];
    if j < n - 1 {
      BusySinceRun(log, j, n - 1);
    }
  }

  // When it rests, it came back exactly once since then.
  lemma {:induction false} RestedSinceBack(births: map<Id, Birth>, log: seq<Note>, j: nat, n: nat) returns (b: nat)
    requires LogFine(births, log) && j < n <= |log| && log[j].Ran?
    requires forall i :: j < i < n ==> !(log[i].Ran? && log[i].id == log[j].id)
    requires PhaseOf(log[..n], log[j].id).Rested?
    ensures j < b < n && log[b] == Back(log[j].id, PhaseOf(log[..n], log[j].id).since) && log[b].at >= log[j].at
    ensures forall i :: j < i < n && i != b ==> !(log[i].Back? && log[i].id == log[j].id)
  {
    assert log[..n][..n - 1] == log[..n - 1];
    var last := log[n - 1];
    if last.Back? && last.id == log[j].id {
      b := n - 1;
      assert MayBeLogged(births, log[..n - 1], log[n - 1]);
      BusySinceRun(log, j, n - 1);
    } else {
      b := RestedSinceBack(births, log, j, n - 1);
    }
  }

  // Between two runs of an entry its callback comes back exactly once, and the second run is due
  // exactly the interval after that; so the second starts at least the interval after the first.
  lemma IntervalIsKept(steps: seq<Step>, j: nat, k: nat) returns (b: nat)
    requires AllPossible(Fresh(), steps) && Consecutive(After(Fresh(), steps).log, j, k)
    ensures
      var l := After(Fresh(), steps);
      && j < b < k && l.log[b].Back? && l.log[b].id == l.log[j].id
      && (forall i :: j < i < k && i != b ==> !(l.log[i].Back? && l.log[i].id == l.log[j].id))
      && l.log[j].id in l.births && l.births[l.log[j].id].interval.Some?
      && l.log[k].due == l.log[b].at + l.births[l.log[j].id].interval.value
      && l.log[k].at >= l.log[j].at + l.births[l.log[j].id].interval.value
  {
    FreshIsSound();
    RunKeepsSound(Fresh(), steps);
    var l := After(Fresh(), steps);
    assert MayBeLogged(l.births, l.log[..k], l.log[k]);
    RanBefore(l.log, j, k);
    b := RestedSinceBack(l.births, l.log, j, k);
  }

  lemma {:induction false} RanBefore(log: seq<Note>, j: nat, n: nat)
    requires j < n <= |log| && log[j].Ran?
    ensures log[j].id in RanIn(log[..n])
  {
    assert log[..n][..n - 1] == log[..n - 1];
    if j < n - 1 {
      RanBefore(log, j, n - 1);
    }
  }

  // Every entry goes back to a call of the run, whose thread, delay, time and interval it keeps.
  lemma {:induction false} BirthsAreCalls(steps: seq<Step>, id: Id) returns (i: nat)
    requires AllPossible(Fresh(), steps) && id in After(Fresh(), steps).births
    ensures i < |steps| && steps[i].Make?
    ensures
      var birth := After(Fresh(), steps).births[id];
      && birth.thread == steps[i].thread && birth.at == steps[i].now && birth.interval == steps[i].interval
      && birth.delay >= 0.0 && birth.delay >= steps[i].delay && birth.delay in {0.0, steps[i].delay}
  {
    var n := |steps| - 1;
    var before := After(Fresh(), steps[..n]);
    if id in before.births && (id != before.counter || !steps[n].Make?) {
      i := BirthsAreCalls(steps[..n], id);
    } else {
      i := n;
    }
  }

  // Entries made by one thread with equal delays first run in the order in which they were made,
  // whether they went through the pending list or not, unless the earlier one was cancelled.
  lemma RunsInSubmissionOrder(steps: seq<Step>, a: Id, j: nat)
    requires AllPossible(Fresh(), steps)
    requires j < |After(Fresh(), steps).log| && After(Fresh(), steps).log[j].Ran?
    requires SameQueue(After(Fresh(), steps).births, a, After(Fresh(), steps).log[j].id)
    ensures
      var l := After(Fresh(), steps);
      || a in RanIn(l.log[..j]) || a in CancelledIn(l.log[..j])
      || l.log[j].id in RanIn(l.log[..j])
  {
    FreshIsSound();
    RunKeepsSound(Fresh(), steps);
    var l := After(Fresh(), steps);
    assert MayBeLogged(l.births, l.log[..j], l.log[j]);
  }

  // A repeating entry that nobody cancels is never lost: it is always queued, in its maker's hands,
  // or running right now.
  lemma IntervalsGoOn(steps: seq<Step>, id: Id)
    requires AllPossible(Fresh(), steps)
    requires id in After(Fresh(), steps).births && After(Fresh(), steps).births[id].interval.Some?
    requires id !in CancelledIn(After(Fresh(), steps).log)
    ensures
      var l := After(Fresh(), steps);
      Count(l.timers, id) + Count(l.pending, id) + Count(l.hands, id)
      + Here(l.running.Some? && l.running.value.id == id) == 1
  {
    FreshIsSound();
    RunKeepsSound(Fresh(), steps);
    assert Places(After(Fresh(), steps), id) == 1;
  }

  // ---------------------------------------------------------------- the loop object

  ghost predicate Leads(start: Loop, steps: seq<Step>, l: Loop) {
    AllPossible(start, steps) && After(start, steps) == l
  }

  lemma LeadsFurther(start: Loop, steps: seq<Step>, l: Loop, s: Step)
    requires Leads(start, steps, l) && Possible(l, s) && Sound(l)
    ensures Leads(start, steps + [s], Next(l, s)) && Sound(Next(l, s))
  {
    assert (steps + [s])[..|steps|] == steps;
    StepKeeps(l, s);
  }

  // What a callback, or another thread, may do. Time only moves forward, by `elapsed`.
  datatype Act =
    | Later(thread: Thread, delay: real, interval: Option<real>, elapsed: real)
    | CancelIt(id: Id)

  // What happens around one callback of the loop: the time that has passed when the loop looks at
  // the clock, what is done while the callback runs, and the time it takes.
  datatype Round = Round(wait: real, acts: seq<Act>, took: real)

  function Forward(elapsed: real): real {
    if elapsed < 0.0 then 0.0 else elapsed
  }

  class MiniLoop {
    var timers: seq<Entry>
    var pending: seq<Entry>
    var cancelled: set<Id>
    var counter: nat
    var clock: real
    var threadId: Option<Thread>
    ghost var running: Option<Entry>
    ghost var finished: set<Id>
    ghost var dropped: set<Id>
    var births: map<Id, Birth>
    ghost var log: seq<Note>

    ghost function View(): Loop
      reads this
    {
      Loop(timers, pending, [], running, counter, cancelled, clock, finished, dropped, births, log)
    }

    constructor ()
      ensures View() == Fresh() && threadId.None?
    {
      timers, pending, cancelled, counter, clock, threadId := [], [], {}, 0, 0.0, None;
      running, finished, dropped, births, log := None, {}, {}, map[], [];
    }

    method Monotonic(elapsed: real) returns (now: real)
      modifies `clock
      ensures now == clock == old(clock) + Forward(elapsed)
    {
      clock := clock + Forward(elapsed);
      now := clock;
    }

    method CallLater(thread: Thread, delay: real, interval: Option<real>, elapsed: real) returns (id: Id)
      modifies this
      ensures id == old(counter) && threadId == old(threadId)
      ensures
        var made := Made(old(View()), thread, delay, interval, clock);
        View() == Queued(made, 0, threadId.None? || threadId == Some(thread))
      ensures clock >= old(clock)
    {
      var now := Monotonic(elapsed);
      id := counter;
      var entry := Entry(id, now + Positive(delay), id, interval);
      births := births[id := Birth(thread, Positive(delay), now, interval)];
      counter := counter + 1;
      if threadId.None? || threadId == Some(thread) {
        timers := Pushed(timers, entry);
      } else {
        pending := pending + [entry];
      }
      assert Made(old(View()), thread, delay, interval, now).hands[1..] == [];
    }

    method CancelHandle(id: Id)
      modifies this
      ensures View() == CancelledOne(old(View()), id) && threadId == old(threadId)
    {
      cancelled := cancelled + {id};
      log := log + [Cancelled(id)];
    }

    method PullPending()
      modifies `timers, `pending
      ensures View() == Pulled(old(View()))
    {
      if pending == [] {
        return;
      }
      var entries := pending;
      pending := [];
      var i := 0;
      while i < |entries|
        invariant i <= |entries| && pending == []
        invariant PushedAll(timers, entries[i..]) == PushedAll(old(timers), old(pending))
      {
        timers := Pushed(timers, entries[i]);
        i := i + 1;
      }
    }

    // The actions of a callback and of other threads while it runs.
    method Perform(acts: seq<Act>, ghost start: Loop, ghost before: seq<Step>) returns (ghost steps: seq<Step>)
      requires Leads(start, before, View()) && Sound(View())
      modifies this
      ensures Leads(start, steps, View()) && Sound(View())
      ensures running == old(running) && clock >= old(clock) && threadId == old(threadId)
    {
      steps := before;
      for i := 0 to |acts|
        invariant Leads(start, steps, View()) && Sound(View())
        invariant running == old(running) && clock >= old(clock) && threadId == old(threadId)
      {
        match acts[i] {
          case Later(thread, delay, interval, elapsed) =>
            ghost var was := View();
            var id := CallLater(thread, delay, interval, elapsed);
            ghost var make := Make(thread, delay, interval, clock);
            ghost var queue := Queue(0, threadId.None? || threadId == Some(thread));
            LeadsFurther(start, steps, was, make);
            LeadsFurther(start, steps + [make], Next(was, make), queue);
            steps := steps + [make] + [queue];
          case CancelIt(id) =>
            if id in births {
              LeadsFurther(start, steps, View(), Cancel(id));
              CancelHandle(id);
              steps := steps + [Cancel(id)];
            }
        }
      }
    }

    // The earliest entry was cancelled while it waited.
    method DropEarliest(ghost was: Loop)
      requires was.hands == [] && View() == Pulled(was) && timers != [] && timers[0].id in cancelled
      modifies `timers, `dropped
      ensures View() == Turned(was, clock) && |timers| < |old(timers)|
    {
      dropped := dropped + {timers[0].id};
      timers := timers[1..];
    }

    // The earliest entry leaves the heap to run.
    method PopEarliest(ghost was: Loop)
      requires was.hands == [] && View() == Pulled(was).(clock := clock)
      requires timers != [] && timers[0].id !in cancelled && timers[0].due <= clock
      modifies this
      ensures View() == Turned(was, clock) && running == Some(old(timers[0]))
      ensures clock == old(clock) && threadId == old(threadId)
    {
      var entry := timers[0];
      timers := timers[1..];
      running := Some(entry);
      log := log + [Ran(entry.id, entry.due, clock)];
    }

    // Its callback has returned.
    method Reschedule(entry: Entry, took: real)
      requires running == Some(entry)
      modifies this
      ensures View() == Returned(old(View()), clock)
      ensures clock >= old(clock) && threadId == old(threadId)
    {
      var now := Monotonic(took);
      running := None;
      log := log + [Back(entry.id, now)];
      if entry.interval.Some? && entry.id !in cancelled {
        timers := Pushed(timers, entry.(due := now + entry.interval.value, order := counter));
        counter := counter + 1;
      } else {
        finished := finished + {entry.id};
      }
    }

    method RunCallback(entry: Entry, round: Round, ghost start: Loop, ghost before: seq<Step>)
      returns (ghost steps: seq<Step>)
      requires running == Some(entry)
      requires Leads(start, before, View()) && Sound(View())
      modifies this
      ensures Leads(start, steps, View()) && Sound(View())
      ensures running.None? && threadId == old(threadId)
    {
      steps := Perform(round.acts, start, before);
      ghost var ran := View();
      Reschedule(entry, round.took);
      LeadsFurther(start, steps, ran, Return(clock));
      steps := steps + [Return(clock)];
    }

    // Runs everything that is due. `rounds` says what happens around each callback; the loop is cut
    // short when the list is used up.
    method RunDueTimers(rounds: seq<Round>) returns (timeout: Option<real>, cut: bool, ghost steps: seq<Step>)
      requires Sound(View()) && running.None?
      modifies this
      ensures Leads(old(View()), steps, View()) && Sound(View())
      ensures running.None? && threadId == old(threadId)
      ensures !cut && timeout.None? ==> timers == [] && pending == []
      ensures !cut && timeout.Some? ==> pending == [] && SleepsUntilNext(timers, cancelled, clock, timeout.value)
    {
      ghost var start := View();
      steps, cut, timeout := [], true, None;
      var used := 0;
      while used < |rounds|
        invariant used <= |rounds|
        invariant Leads(start, steps, View()) && Sound(View())
        invariant running.None? && threadId == old(threadId) && cut
        decreases |rounds| - used, |timers| + |pending|
      {
        ghost var was := View();
        PushedAllLength(was.timers, was.pending);
        PullPending();
        if timers == [] {
          LeadsFurther(start, steps, was, Turn(clock));
          return None, false, steps + [Turn(clock)];
        }
        var entry := timers[0];
        if entry.id in cancelled {
          LeadsFurther(start, steps, was, Turn(clock));
          DropEarliest(was);
          steps := steps + [Turn(clock)];
          continue;
        }
        var now := Monotonic(rounds[used].wait);
        LeadsFurther(start, steps, was, Turn(now));
        steps := steps + [Turn(now)];
        if entry.due > now {
          SleepIsExact(Pulled(was), now);
          return Some(entry.due - now), false, steps;
        }
        PopEarliest(was);
        steps := RunCallback(entry, rounds[used], start, steps);
        used := used + 1;
      }
    }
  }

  lemma SleepIsExact(l: Loop, now: real)
    requires Sorted(l.timers) && l.timers != [] && l.timers[0].id !in l.cancelled && l.timers[0].due > now
    ensures SleepsUntilNext(l.timers, l.cancelled, now, l.timers[0].due - now)
  {
    forall i | 0 <= i < |l.timers| ensures l.timers[i].due >= l.timers[0].due {
      assert i > 0 ==> !Before(l.timers[i], l.timers[0]);
    }
  }

  // The loop sleeps exactly until its earliest entry is due, which is not cancelled and still to come.
  ghost predicate SleepsUntilNext(timers: seq<Entry>, cancelled: set<Id>, now: real, timeout: real) {
    && timeout > 0.0
    && timers != [] && timers[0].id !in cancelled && timers[0].due == now + timeout
    && forall i :: 0 <= i < |timers| ==> timers[i].due >= now + timeout
  }

  lemma {:induction false} PushedAllLength(heap: seq<Entry>, es: seq<Entry>)
    ensures |PushedAll(heap, es)| == |heap| + |es|
    decreases |es|
  {
    if es != [] {
      PushedLength(heap, es[0]);
      PushedAllLength(Pushed(heap, es[0]), es[1..]);
    }
  }

  lemma {:induction false} PushedLength(heap: seq<Entry>, e: Entry)
    ensures |Pushed(heap, e)| == |heap| + 1
  {
    if heap != [] && !Before(e, heap[0]) {
      PushedLength(heap[1..], e);
    }
  }
}
