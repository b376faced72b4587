/**
 A reference monitor for the extension service. It watches what the service does to extension
 processes and directories and rejects any history in which exclusive access is broken.
 */
module ServiceMonitor {
  import opened Prelude

  type Id = string
  type Pid = nat
  type Serial = nat

  /** What a process was launched from: a version of the installed copy, or a preview overlay. */
  datatype Record = Installed(version: nat) | Preview(token: nat)

  datatype Proc = Proc(id: Id, record: Record)

  datatype JobKind = Restart | Install | Update | Uninstall

  /** Why a process ended: because it was asked to, or any error. */
  datatype Cause = Stopped | Crashed

  datatype Event =
    | Enqueued(id: Id, serial: Serial, kind: JobKind)   // a job joined the queue of an id
    | Begun(id: Id, serial: Serial)      // the job took the id
    | Ended(id: Id, serial: Serial)      // the job released the id
    | Awaited(id: Id, serial: Serial)    // the job asked to be told when the process is gone
    | Told(id: Id, serial: Serial)       // its stop callback ran
    | Touched(id: Id, serial: Serial)    // the job changed the installed directory
    | Spawned(pid: Pid, proc: Proc)
    | Asked(pid: Pid)                    // the live process was asked to end
    | Exited(pid: Pid, id: Id, cause: Cause)
    | Failed(id: Id)                     // a process could not be started
    | Blamed(id: Id)                     // the failure was recorded: an error stored, or a preview given up

  datatype Monitor = Monitor(
    queues: map<Id, seq<Serial>>, held: map<Id, Serial>, known: set<Serial>,
    awaiting: set<Serial>, told: set<Serial>, live: map<Pid, Proc>, pids: set<Pid>, asked: set<Pid>)

  const START := Monitor(map[], map[], {}, {}, {}, map[], {}, {})

  function Queue(m: Monitor, id: Id): seq<Serial> {
    if id in m.queues then m.queues[id] else []
  }

  predicate Holds(m: Monitor, id: Id, s: Serial) {
    id in m.held && m.held[id] == s
  }

  /** No live process of `id` runs from the installed directory. */
  ghost predicate DirectoryFree(m: Monitor, id: Id) {
    forall p :: p in m.live && m.live[p].id == id ==> m.live[p].record.Preview?
  }

  ghost predicate NoProcess(m: Monitor, id: Id) {
    forall p :: p in m.live ==> m.live[p].id != id
  }

  /** When the monitor accepts an event. */
  ghost predicate Allows(m: Monitor, e: Event) {
    match e
    case Enqueued(id, s, _) => s !in m.known
    case Begun(id, s) => id !in m.held && Queue(m, id) != [] && Queue(m, id)[0] == s
    case Ended(id, s) => Holds(m, id, s) && s !in m.awaiting
    case Awaited(id, s) => Holds(m, id, s) && s !in m.awaiting && s !in m.told
    case Told(id, s) => Holds(m, id, s) && s in m.awaiting && DirectoryFree(m, id)
    case Touched(id, s) => Holds(m, id, s) && s in m.told && DirectoryFree(m, id)
    case Spawned(p, proc) => p !in m.pids && proc.id !in m.held && NoProcess(m, proc.id)
    case Asked(p) => p in m.live
    case Exited(p, id, cause) => p in m.live && m.live[p].id == id && (cause.Stopped? <==> p in m.asked)
    case Failed(id) => id !in m.held && NoProcess(m, id)
    case Blamed(_) => true
  }

  /** A process of `id` failed: it ended without being asked to, or could not be started. */
  predicate IsFault(e: Event, id: Id) {
    e == Failed(id) || (e.Exited? && e.id == id && e.cause.Crashed?)
  }

  /** A failure is recorded right after it happened. */
  predicate Grounded(before: seq<Event>, e: Event) {
    e.Blamed? ==> before != [] && IsFault(before[|before| - 1], e.id)
  }

  ghost function After(m: Monitor, e: Event): Monitor
    requires Allows(m, e)
  {
    match e
    case Enqueued(id, s, _) => m.(queues := m.queues[id := Queue(m, id) + [s]], known := m.known + {s})
    case Begun(id, s) => m.(queues := m.queues[id := Queue(m, id)[1..]], held := m.held[id := s])
    case Ended(id, s) => m.(held := m.held - {id})
    case Awaited(_, s) => m.(awaiting := m.awaiting + {s})
    case Told(_, s) => m.(awaiting := m.awaiting - {s}, told := m.told + {s})
    case Touched(_, _) => m
    case Spawned(p, proc) => m.(live := m.live[p := proc], pids := m.pids + {p})
    case Asked(p) => m.(asked := m.asked + {p})
    case Exited(p, _, _) => m.(live := m.live - {p})
    case Failed(_) => m
    case Blamed(_) => m
  }

  /** The monitor after a history, or nothing when it rejected some event. */
  ghost function Replay(t: seq<Event>): Option<Monitor> {
    if t == [] then Some(START) else
    var before, e := t[..|t| - 1], t[|t| - 1];
    var m := Replay(before);
    if m.Some? && Allows(m.value, e) && Grounded(before, e) then Some(After(m.value, e)) else None
  }

  ghost predicate Accepts(t: seq<Event>) {
    Replay(t).Some?
  }

  lemma ReplayAppend(t: seq<Event>, e: Event)
    requires Accepts(t) && Allows(Replay(t).value, e) && Grounded(t, e)
    ensures Replay(t + [e]) == Some(After(Replay(t).value, e))
  {
    assert (t + [e])[..|t|] == t;
  }

  /** Every prefix of an accepted history is accepted. */
  lemma {:induction false} PrefixAccepted(t: seq<Event>, n: nat)
    requires Accepts(t) && n <= |t|
    ensures Accepts(t[..n])
    decreases |t|
  {
    if n < |t| {
      PrefixAccepted(t[..|t| - 1], n);
      assert t[..|t| - 1][..n] == t[..n];
    } else {
      assert t[..n] == t;
    }
  }

  lemma StepAt(t: seq<Event>, i: nat)
    requires Accepts(t) && i < |t|
    ensures Accepts(t[..i]) && Allows(Replay(t[..i]).value, t[i]) && Grounded(t[..i], t[i])
    ensures Replay(t[..i + 1]) == Some(After(Replay(t[..i]).value, t[i]))
  {
    PrefixAccepted(t, i);
    PrefixAccepted(t, i + 1);
    assert t[..i + 1][..i] == t[..i];
  }

  /** A job keeps its id until it ends. */
  lemma {:induction false} HeldUntilEnded(t: seq<Event>, i: nat, j: nat, id: Id, s: Serial)
    requires Accepts(t) && i < j <= |t| && t[i] == Begun(id, s)
    requires forall k :: i < k < j ==> t[k] != Ended(id, s)
    ensures Accepts(t[..j]) && Holds(Replay(t[..j]).value, id, s)
    decreases j
  {
    StepAt(t, j - 1);
    if j - 1 > i {
      HeldUntilEnded(t, i, j - 1, id, s);
    }
  }

  /** Mutual exclusion: between two jobs that take the same id, the first one ended. */
  lemma JobsNeverOverlap(t: seq<Event>, i: nat, j: nat, id: Id, s: Serial, s': Serial)
    requires Accepts(t) && i < j < |t| && t[i] == Begun(id, s) && t[j] == Begun(id, s')
    ensures exists k :: i < k < j && t[k] == Ended(id, s)
  {
    if forall k :: i < k < j ==> t[k] != Ended(id, s) {
      HeldUntilEnded(t, i, j, id, s);
      StepAt(t, j);
    }
  }

  /** No process is spawned for an id while a job holds it. */
  lemma NoSpawnWhileHeld(t: seq<Event>, i: nat, j: nat, id: Id, s: Serial)
    requires Accepts(t) && i < j < |t| && t[i] == Begun(id, s) && t[j].Spawned? && t[j].proc.id == id
    ensures exists k :: i < k < j && t[k] == Ended(id, s)
  {
    if forall k :: i < k < j ==> t[k] != Ended(id, s) {
      HeldUntilEnded(t, i, j, id, s);
      StepAt(t, j);
    }
  }

  /** At most one process of an id is live at any time. */
  lemma {:induction false} OneProcessPerId(t: seq<Event>, p: Pid, q: Pid)
    requires Accepts(t)
    requires var m := Replay(t).value; p in m.live && q in m.live && m.live[p].id == m.live[q].id
    ensures p == q
    decreases |t|
  {
    var m := Replay(t[..|t| - 1]).value;
    if p in m.live && q in m.live {
      OneProcessPerId(t[..|t| - 1], p, q);
    }
  }

  /** From the stop callback of a job to its end, the installed directory has no live process. */
  lemma {:induction false} DirectoryFreeUntilEnded(t: seq<Event>, i: nat, j: nat, id: Id, s: Serial)
    requires Accepts(t) && i < j <= |t| && t[i] == Told(id, s)
    requires forall k :: i < k < j ==> t[k] != Ended(id, s)
    ensures Accepts(t[..j])
    ensures Holds(Replay(t[..j]).value, id, s) && DirectoryFree(Replay(t[..j]).value, id)
    decreases j
  {
    StepAt(t, j - 1);
    if j - 1 > i {
      DirectoryFreeUntilEnded(t, i, j - 1, id, s);
    }
  }

  /** The serials an id queued, and those that took it, in order. */
  function QueuedOf(t: seq<Event>, id: Id): seq<Serial> {
    if t == [] then [] else
    var rest := QueuedOf(t[..|t| - 1], id);
    match t[|t| - 1]
    case Enqueued(k, s, _) => if k == id then rest + [s] else rest
    case _ => rest
  }

  function BegunOf(t: seq<Event>, id: Id): seq<Serial> {
    if t == [] then [] else
    var rest := BegunOf(t[..|t| - 1], id);
    match t[|t| - 1]
    case Begun(k, s) => if k == id then rest + [s] else rest
    case _ => rest
  }

  /** FIFO: the jobs that took an id, followed by those still waiting, are the jobs queued, in order. */
  lemma {:induction false} JobsStartInOrder(t: seq<Event>, id: Id)
    requires Accepts(t)
    ensures BegunOf(t, id) + Queue(Replay(t).value, id) == QueuedOf(t, id)
    decreases |t|
  {
    if t != [] {
      JobsStartInOrder(t[..|t| - 1], id);
      var m := Replay(t[..|t| - 1]).value;
      if t[|t| - 1].Begun? && t[|t| - 1].id == id {
        assert Queue(m, id) == [t[|t| - 1].serial] + Queue(m, id)[1..];
      }
    }
  }

  lemma {:induction false} QueuedKnown(t: seq<Event>, id: Id)
    requires Accepts(t)
    ensures forall i :: 0 <= i < |QueuedOf(t, id)| ==> QueuedOf(t, id)[i] in Replay(t).value.known
    decreases |t|
  {
    if t != [] {
      QueuedKnown(t[..|t| - 1], id);
    }
  }

  /** No job is queued twice, so (with FIFO) none starts twice. */
  lemma {:induction false} QueuedOnce(t: seq<Event>, id: Id, i: nat, j: nat)
    requires Accepts(t) && i < j < |QueuedOf(t, id)|
    ensures QueuedOf(t, id)[i] != QueuedOf(t, id)[j]
    decreases |t|
  {
    var rest := t[..|t| - 1];
    QueuedKnown(rest, id);
    if j < |QueuedOf(rest, id)| {
      QueuedOnce(rest, id, i, j);
    }
  }

  lemma {:induction false} ToldForever(t: seq<Event>, i: nat, j: nat, id: Id, s: Serial)
    requires Accepts(t) && i < j <= |t| && t[i] == Told(id, s)
    ensures Accepts(t[..j]) && s in Replay(t[..j]).value.told && s !in Replay(t[..j]).value.awaiting
    decreases j
  {
    StepAt(t, j - 1);
    if j - 1 > i {
      ToldForever(t, i, j - 1, id, s);
    }
  }

  /** The stop callback of a job runs at most once. */
  lemma ToldOnce(t: seq<Event>, i: nat, j: nat, id: Id, id': Id, s: Serial)
    requires Accepts(t) && i < j < |t| && t[i] == Told(id, s)
    ensures t[j] != Told(id', s)
  {
    ToldForever(t, i, j, id, s);
    StepAt(t, j);
  }

  lemma {:induction false} AwaitingUntilTold(t: seq<Event>, i: nat, j: nat, id: Id, s: Serial)
    requires Accepts(t) && i < j <= |t| && t[i] == Awaited(id, s)
    requires forall k, id' :: i < k < j ==> t[k] != Told(id', s)
    ensures Accepts(t[..j]) && s in Replay(t[..j]).value.awaiting
    decreases j
  {
    StepAt(t, j - 1);
    if j - 1 > i {
      AwaitingUntilTold(t, i, j - 1, id, s);
    }
  }

  /** A job that asked for a stop callback got it before it ended. */
  lemma ToldBeforeEnded(t: seq<Event>, i: nat, j: nat, id: Id, id': Id, s: Serial)
    requires Accepts(t) && i < j < |t| && t[i] == Awaited(id, s) && t[j] == Ended(id', s)
    ensures exists k, id'' :: i < k < j && t[k] == Told(id'', s)
  {
    if forall k, id'' :: i < k < j ==> t[k] != Told(id'', s) {
      AwaitingUntilTold(t, i, j, id, s);
      StepAt(t, j);
    }
  }

  // ---------------------------------------------------------------- who is to blame

  lemma {:induction false} AskedForever(t: seq<Event>, i: nat, j: nat, p: Pid)
    requires Accepts(t) && i < j <= |t| && t[i] == Asked(p)
    ensures Accepts(t[..j]) && p in Replay(t[..j]).value.asked
    decreases j
  {
    StepAt(t, j - 1);
    if j - 1 > i {
      AskedForever(t, i, j - 1, p);
    }
  }

  lemma {:induction false} AskedBefore(t: seq<Event>, j: nat, p: Pid) returns (i: nat)
    requires Accepts(t) && j <= |t| && Accepts(t[..j]) && p in Replay(t[..j]).value.asked
    ensures i < j && t[i] == Asked(p)
    decreases j
  {
    i := 0;
    assert t[..0] == [];
    if j > 0 {
      StepAt(t, j - 1);
      if t[j - 1] == Asked(p) {
        i := j - 1;
      } else {
        i := AskedBefore(t, j - 1, p);
      }
    }
  }

  /** A process that ended was stopped exactly if it had been asked to end; any other end is a crash. */
  lemma StoppedIffAsked(t: seq<Event>, j: nat)
    requires Accepts(t) && j < |t| && t[j].Exited?
    ensures t[j].cause.Stopped? <==> exists i :: 0 <= i < j && t[i] == Asked(t[j].pid)
  {
    StepAt(t, j);
    if t[j].cause.Stopped? {
      var i := AskedBefore(t, j, t[j].pid);
    }
    forall i | 0 <= i < j && t[i] == Asked(t[j].pid) ensures t[j].cause.Stopped? {
      AskedForever(t, i, j, t[j].pid);
    }
  }

  /** A failure is only ever recorded for an id right after one of its processes ended that nobody
      had asked to, or could not be started. */
  lemma BlamedForFault(t: seq<Event>, j: nat)
    requires Accepts(t) && j < |t| && t[j].Blamed?
    ensures 0 < j
    ensures
      || t[j - 1] == Failed(t[j].id)
      || (t[j - 1].Exited? && t[j - 1].id == t[j].id && forall i :: 0 <= i < j ==> t[i] != Asked(t[j - 1].pid))
  {
    StepAt(t, j);
    if t[j - 1].Exited? {
      StoppedIffAsked(t, j - 1);
    }
  }
}
