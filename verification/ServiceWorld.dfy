/** The state of the extension service as one value, its invariants, and its elementary changes. */
module ServiceWorld {
  import opened Prelude
  import opened ServiceMonitor

  /** What is on disk for an id: the installed version, and the state file. */
  datatype DiskEntry = DiskEntry(version: Option<nat>, enabled: bool, error: bool)

  const NO_ENTRY := DiskEntry(None, true, false)

  datatype PreviewRecord = PreviewRecord(id: Id, token: nat)

  datatype Job = Job(serial: Serial, kind: JobKind)

  /** The two closures a job hands to a stop: release the id, or change the directory and then release. */
  datatype Callback = Release(serial: Serial) | Touch(serial: Serial)

  datatype ProcessState = ProcessState(
    runtime: Option<Pid>, record: Option<Record>, pendingStop: Option<seq<Callback>>,
    jobs: seq<Job>, jobActive: bool, draining: bool)

  const FRESH := ProcessState(None, None, None, [], false, false)

  datatype World = World(
    states: map<Id, ProcessState>, disk: map<Id, DiskEntry>, preview: Option<PreviewRecord>,
    live: map<Pid, Proc>, dead: set<Pid>, aborted: set<Pid>, working: map<Serial, Id>, released: set<Serial>,
    nextPid: nat, nextSerial: nat, nextToken: nat,
    trace: seq<Event>, exiting: map<Id, Pid>, owner: map<Serial, Id>, changed: set<Id>)

  // ---------------------------------------------------------------- Readings

  function St(w: World, id: Id): ProcessState {
    if id in w.states then w.states[id] else FRESH
  }

  function Disk(w: World, id: Id): DiskEntry {
    if id in w.disk then w.disk[id] else NO_ENTRY
  }

  predicate PreviewFor(w: World, id: Id) {
    w.preview.Some? && w.preview.value.id == id
  }

  /** The record an id stands for: the preview overlay first, then the installed copy. */
  function Resolve(w: World, id: Id): Option<Record> {
    if PreviewFor(w, id) then Some(Preview(w.preview.value.token))
    else if Disk(w, id).version.Some? then Some(Installed(Disk(w, id).version.value))
    else None
  }

  /** The record that should be running: the resolved one, if enabled and without a stored error. */
  function Desired(w: World, id: Id): Option<Record> {
    var r := Resolve(w, id);
    if r.Some? && (r.value.Preview? || (Disk(w, id).enabled && !Disk(w, id).error)) then r else None
  }

  predicate HasRestart(jobs: seq<Job>) {
    exists i :: 0 <= i < |jobs| && jobs[i].kind == Restart
  }

  function Serials(jobs: seq<Job>): (s: seq<Serial>)
    ensures |s| == |jobs| && forall i :: 0 <= i < |jobs| ==> s[i] == jobs[i].serial
  {
    if jobs == [] then [] else [jobs[0].serial] + Serials(jobs[1..])
  }

  /** Nothing in flight for an id: no job, no queue, no stop, no dispatch on the stack. */
  predicate Quiet(s: ProcessState) {
    !s.jobActive && s.jobs == [] && s.pendingStop.None? && !s.draining
  }

  ghost function Mon(w: World): Monitor
    requires Accepts(w.trace)
  {
    Replay(w.trace).value
  }

  // ---------------------------------------------------------------- Invariants

  /** The process fields of an id agree with the live processes. */
  predicate ProcAt(w: World, id: Id) {
    var s := St(w, id);
    && s.runtime.Some? == s.record.Some?
    && (s.runtime.Some? ==>
          && s.pendingStop.None? && s.runtime.value in w.live && s.runtime.value !in w.aborted
          && w.live[s.runtime.value] == Proc(id, s.record.value))
    && (id in w.exiting ==>
          && s.pendingStop.Some? && w.exiting[id] in w.live && w.live[w.exiting[id]].id == id)
  }

  /** The job fields of an id agree with the monitor, and its serials are its own. */
  ghost predicate JobAt(w: World, id: Id)
    requires Accepts(w.trace)
  {
    var s, m := St(w, id), Mon(w);
    && (s.pendingStop.Some? ==> |s.pendingStop.value| <= 1)
    && (s.pendingStop.Some? && s.pendingStop.value != [] ==> Holds(m, id, s.pendingStop.value[0].serial))
    && s.jobActive == (id in m.held)
    && Queue(m, id) == Serials(s.jobs)
    && (forall i :: 0 <= i < |s.jobs| ==> Waiting(w, id, s.jobs[i].serial))
    && (forall i, j :: 0 <= i < j < |s.jobs| ==> s.jobs[i].serial < s.jobs[j].serial)
    && (id in m.held ==>
          && m.held[id] !in w.released && m.held[id] in w.owner && w.owner[m.held[id]] == id
          && (m.held[id] in w.working ==> m.held[id] !in m.awaiting && m.held[id] !in m.told)
          && forall i :: 0 <= i < |s.jobs| ==> m.held[id] < s.jobs[i].serial)
  }

  /** A queued serial belongs to its id and nothing has happened to it yet. */
  ghost predicate Waiting(w: World, id: Id, s: Serial)
    requires Accepts(w.trace)
  {
    s in w.owner && w.owner[s] == id && s !in w.released && s !in w.working
    && s !in Mon(w).awaiting && s !in Mon(w).told
  }

  /** Every live process is the runtime of its id or the process its stop is waiting for. */
  ghost predicate Owned(w: World, p: Pid)
    requires p in w.live
  {
    var id := w.live[p].id;
    St(w, id).runtime == Some(p) || (id in w.exiting && w.exiting[id] == p)
  }

  /** Pids in use are below the counter, and live ones are owned. */
  ghost predicate PidOk(w: World, p: Pid)
    requires Accepts(w.trace)
  {
    && (p in Mon(w).pids || p in w.live || p in w.aborted ==> p < w.nextPid)
    && (p in w.live ==> Owned(w, p))
  }

  /** Serials in use are below the counter, and outside work is only done for the job holding an id. */
  ghost predicate SerialOk(w: World, s: Serial)
    requires Accepts(w.trace)
  {
    var m := Mon(w);
    && (s in m.known || s in w.released || s in w.working || s in m.awaiting || s in m.told || s in w.owner
        ==> s < w.nextSerial)
    && (s in w.working ==> Holds(m, w.working[s], s))
  }

  ghost predicate IdOk(w: World, id: Id)
    requires Accepts(w.trace)
  {
    ProcAt(w, id) && JobAt(w, id)
  }

  ghost predicate Core(w: World) {
    && Accepts(w.trace)
    && Mon(w).live == w.live && Mon(w).asked == w.aborted
    && (forall p {:trigger PidOk(w, p)} :: PidOk(w, p))
    && (forall s {:trigger SerialOk(w, s)} :: SerialOk(w, s))
    && (forall id {:trigger IdOk(w, id)} :: IdOk(w, id))
  }

  /** The job holding an id has exactly one continuation: outside work, or the stop in flight. */
  ghost predicate Progress(w: World, id: Id)
    requires Accepts(w.trace)
  {
    var s, m := St(w, id), Mon(w);
    id in m.held ==> (m.held[id] in w.working) != (s.pendingStop.Some? && s.pendingStop.value != [])
  }

  ghost predicate AwaitOk(w: World, id: Id)
    requires Accepts(w.trace)
  {
    var s, m := St(w, id), Mon(w);
    id in m.held ==> (m.held[id] in m.awaiting) == (s.pendingStop.Some? && s.pendingStop.value != [])
  }

  predicate QueueOk(w: World, id: Id) {
    St(w, id).jobs != [] && !St(w, id).draining ==> St(w, id).jobActive
  }

  predicate ExitDue(w: World, id: Id) {
    St(w, id).pendingStop.Some? ==> id in w.exiting
  }

  /** A stop nobody waits for is of an installed copy. */
  predicate PendRec(w: World, id: Id) {
    St(w, id).pendingStop == Some([]) && id in w.exiting && w.exiting[id] in w.live
    ==> w.live[w.exiting[id]].record.Installed?
  }

  /** The process and queue bookkeeping of an id, between dispatches. */
  ghost predicate Weak(w: World, id: Id)
    requires Accepts(w.trace)
  {
    Progress(w, id) && AwaitOk(w, id) && QueueOk(w, id) && ExitDue(w, id) && PendRec(w, id)
  }

  /** A runtime is the resolved record, unless a restart is queued or the disk changed unannounced. */
  predicate RecOk(w: World, id: Id) {
    var s := St(w, id);
    s.record.Some? && Resolve(w, id) != s.record
      && (s.record.value.Preview? || PreviewFor(w, id) || id !in w.changed)
    ==> HasRestart(s.jobs)
  }

  /** While a stop nobody waits for is in flight, a preview that took over has queued a restart. */
  predicate PendOk(w: World, id: Id) {
    St(w, id).pendingStop == Some([]) && PreviewFor(w, id) ==> HasRestart(St(w, id).jobs)
  }

  /** Convergence: a quiet id runs exactly what should run. */
  predicate Aligned(w: World, id: Id) {
    Quiet(St(w, id)) && id !in w.changed ==> St(w, id).record == Desired(w, id)
  }

  predicate Strong(w: World, id: Id) {
    RecOk(w, id) && PendOk(w, id) && Aligned(w, id)
  }

  ghost predicate Fine(w: World, k: Id, bad: set<Id>)
    requires Accepts(w.trace)
  {
    Weak(w, k) && (k !in bad ==> Strong(w, k))
  }

  /** All ids but one are in order; those in `bad` only in their bookkeeping. */
  ghost predicate Rest(w: World, id: Id, bad: set<Id>)
    requires Accepts(w.trace)
  {
    forall k {:trigger Fine(w, k, bad)} :: k != id ==> Fine(w, k, bad)
  }

  ghost predicate AllGood(w: World) {
    Core(w) && forall k {:trigger Fine(w, k, {})} :: Fine(w, k, {}) && !St(w, k).draining
  }

  // ---------------------------------------------------------------- Measures

  function PreviewCount(w: World): nat {
    if w.preview.Some? then 1 else 0
  }

  function Misaligned(w: World, id: Id): nat {
    if St(w, id).runtime.Some? && St(w, id).record != Desired(w, id) then 1 else 0
  }

  /** Jobs queued plus the job holding the id. */
  function Load(w: World, id: Id): nat {
    |St(w, id).jobs| + if St(w, id).jobActive then 1 else 0
  }

  /** Since position `n` of the history, a failure of the id was recorded. */
  ghost predicate BlamedSince(t: seq<Event>, n: nat, id: Id) {
    exists k :: n <= k < |t| && t[k] == Blamed(id)
  }

  /** Since position `n` of the history, a job changed the installed directory of the id. */
  ghost predicate TouchedSince(t: seq<Event>, n: nat, id: Id) {
    exists k :: n <= k < |t| && t[k].Touched? && t[k].id == id
  }

  /** History only grows; nothing on disk changes for other ids; the preview can only be given up, and
      an error only be stored, for a failure; only jobs change the installed copy and whether it is enabled. */
  ghost predicate Onward(w: World, w': World, id: Id) {
    && w.trace <= w'.trace
    && w'.nextToken == w.nextToken
    && w'.disk - {id} == w.disk - {id}
    && (w'.preview == w.preview || (w'.preview.None? && BlamedSince(w'.trace, |w.trace|, id)))
    && (Disk(w', id).error ==> Disk(w, id).error || BlamedSince(w'.trace, |w.trace|, id))
    && (|| TouchedSince(w'.trace, |w.trace|, id)
        || (Disk(w', id).version == Disk(w, id).version && Disk(w', id).enabled == Disk(w, id).enabled))
  }

  lemma OnwardTrans(w: World, w1: World, w2: World, id: Id)
    requires Onward(w, w1, id) && Onward(w1, w2, id)
    ensures Onward(w, w2, id)
  {
    assert forall k :: 0 <= k < |w1.trace| ==> w2.trace[k] == w1.trace[k];
    if BlamedSince(w1.trace, |w.trace|, id) {
      var k :| |w.trace| <= k < |w1.trace| && w1.trace[k] == Blamed(id);
      assert w2.trace[k] == Blamed(id);
    }
    if TouchedSince(w1.trace, |w.trace|, id) {
      var k :| |w.trace| <= k < |w1.trace| && w1.trace[k].Touched? && w1.trace[k].id == id;
      assert w2.trace[k].Touched? && w2.trace[k].id == id;
    }
  }

  /** Every error stored meanwhile, for whatever id, is in the history. */
  ghost predicate Accounted(w: World, w': World) {
    && w.trace <= w'.trace
    && forall k {:trigger Disk(w', k)} :: Disk(w', k).error ==> Disk(w, k).error || BlamedSince(w'.trace, |w.trace|, k)
  }

  lemma OnwardAccounts(w: World, w': World, id: Id)
    requires Onward(w, w', id)
    ensures Accounted(w, w')
  {
    forall k | k != id ensures Disk(w', k) == Disk(w, k) {
      assert k in w.disk <==> k in w.disk - {id};
      assert k in w'.disk <==> k in w'.disk - {id};
      assert k in w.disk ==> (w.disk - {id})[k] == w.disk[k];
      assert k in w'.disk ==> (w'.disk - {id})[k] == w'.disk[k];
    }
  }

  lemma AccountedTrans(w: World, w1: World, w2: World)
    requires Accounted(w, w1) && Accounted(w1, w2)
    ensures Accounted(w, w2)
  {
    forall k | Disk(w2, k).error ensures Disk(w, k).error || BlamedSince(w2.trace, |w.trace|, k) {
      if BlamedSince(w1.trace, |w.trace|, k) {
        var i :| |w.trace| <= i < |w1.trace| && w1.trace[i] == Blamed(k);
        assert w2.trace[i] == Blamed(k);
      } else if !Disk(w1, k).error {
        assert BlamedSince(w2.trace, |w1.trace|, k);
      }
    }
  }

  /** Nothing was added to the work of an id, unless the preview was given up; no new disk change is pending. */
  ghost predicate Lessens(w: World, w': World, id: Id) {
    && Onward(w, w', id)
    && w'.changed <= w.changed
    && (|| PreviewCount(w') < PreviewCount(w)
        || (&& PreviewCount(w') == PreviewCount(w)
            && Load(w', id) <= Load(w, id)
            && (|| |St(w', id).jobs| < |St(w, id).jobs|
                || (|St(w', id).jobs| == |St(w, id).jobs| && Misaligned(w', id) <= Misaligned(w, id)))))
  }

  /** What runs afterwards is a new process, or the old one with any restart of it still queued. */
  predicate Renews(w: World, w': World, id: Id) {
    && w.nextPid <= w'.nextPid
    && (|| Renewed(w, w', id)
        || (St(w', id).runtime == St(w, id).runtime && (HasRestart(St(w, id).jobs) ==> HasRestart(St(w', id).jobs))))
  }

  predicate Renewed(w: World, w': World, id: Id) {
    St(w', id).runtime.Some? ==> St(w', id).runtime.value >= w.nextPid
  }

  ghost predicate NoGrow(w: World, w': World, id: Id) {
    Lessens(w, w', id) && Renews(w, w', id)
  }

  /** A job of the id ended and none was added, unless the preview was given up. */
  predicate Shrinks(w: World, w': World, id: Id) {
    || PreviewCount(w') < PreviewCount(w)
    || (PreviewCount(w') == PreviewCount(w) && Load(w', id) < Load(w, id))
  }

  /** What every step of the service leaves behind for the id it works on. */
  ghost predicate Settled(w: World, w': World, id: Id, bad: set<Id>) {
    && Core(w') && Rest(w', id, bad) && Weak(w', id) && Strong(w', id)
    && St(w', id).draining == St(w, id).draining
    && (forall k :: k != id ==> St(w', k) == St(w, k))
    && NoGrow(w, w', id)
  }

  /** The job `s` holds the id and its continuation is running now. */
  ghost predicate InHand(w: World, id: Id, s: Serial)
    requires Accepts(w.trace)
  {
    Holds(Mon(w), id, s) && s !in w.working && s !in Mon(w).awaiting
  }

  // ---------------------------------------------------------------- Elementary changes

  function Put(w: World, id: Id, s: ProcessState): World {
    w.(states := w.states[id := s])
  }

  function Log(w: World, e: Event): World {
    w.(trace := w.trace + [e])
  }

  function DoEnqueue(w: World, id: Id, kind: JobKind): World {
    var s, n := St(w, id), w.nextSerial;
    Log(Put(w, id, s.(jobs := s.jobs + [Job(n, kind)])), Enqueued(id, n, kind)).(nextSerial := n + 1, owner := w.owner[n := id])
  }

  function DoBegin(w: World, id: Id): World
    requires St(w, id).jobs != []
  {
    var s := St(w, id);
    Log(Put(w, id, s.(jobs := s.jobs[1..], jobActive := true)), Begun(id, s.jobs[0].serial))
  }

  function DoEnd(w: World, id: Id, serial: Serial): World {
    Log(Put(w, id, St(w, id).(jobActive := false)), Ended(id, serial)).(released := w.released + {serial})
  }

  function DoSpawn(w: World, id: Id, r: Record): World {
    var p := w.nextPid;
    Log(Put(w, id, St(w, id).(runtime := Some(p), record := Some(r))), Spawned(p, Proc(id, r))).(
      live := w.live[p := Proc(id, r)], nextPid := p + 1, changed := w.changed - {id})
  }

  /** The runtime becomes a process to wait for. */
  function DoStop(w: World, id: Id): World
    requires St(w, id).runtime.Some?
  {
    var s := St(w, id);
    Put(w, id, s.(runtime := None, record := None, pendingStop := Some([]))).(
      exiting := w.exiting[id := s.runtime.value])
  }

  /** A job waits for the stop in flight. */
  function DoJoin(w: World, id: Id, cb: Callback): World
    requires St(w, id).pendingStop.Some?
  {
    var s := St(w, id);
    Log(Put(w, id, s.(pendingStop := Some(s.pendingStop.value + [cb]))), Awaited(id, cb.serial))
  }

  /** A live process is asked to end. */
  function DoAsk(w: World, p: Pid): World {
    Log(w, Asked(p)).(aborted := w.aborted + {p})
  }

  /** The process is gone: stopped if it was asked to end, crashed if not. */
  function DoExit(w: World, p: Pid, cause: Cause): World
    requires p in w.live
  {
    var id := w.live[p].id;
    Log(Put(w, id, St(w, id).(runtime := None, record := None)), Exited(p, id, cause)).(
      live := w.live - {p}, exiting := w.exiting - {id})
  }

  /** A process could not be started. */
  function DoFail(w: World, id: Id): World {
    Log(Put(w, id, St(w, id)), Failed(id))
  }

  /** The failure that just happened is recorded. */
  function DoBlame(w: World, id: Id): World {
    Log(w, Blamed(id))
  }

  /** The callbacks of the finished stop are taken out to be run. */
  function DoDrain(w: World, id: Id): World {
    Put(w, id, St(w, id).(pendingStop := None))
  }

  function DoTold(w: World, id: Id, s: Serial): World {
    Log(w, Told(id, s))
  }

  function DoTouch(w: World, id: Id, s: Serial, entry: DiskEntry): World {
    Log(w, Touched(id, s)).(disk := w.disk[id := entry])
  }

  // ---------------------------------------------------------------- Each change keeps the core

  /** The processes of an id are unchanged. */
  predicate SameProc(w: World, w': World, k: Id) {
    && St(w', k) == St(w, k)
    && (k in w'.exiting <==> k in w.exiting)
    && (k in w.exiting ==>
          && w'.exiting[k] == w.exiting[k]
          && w.exiting[k] in w.live && w.exiting[k] in w'.live && w'.live[w.exiting[k]] == w.live[w.exiting[k]])
    && (St(w, k).runtime.Some? ==>
          var p := St(w, k).runtime.value;
          && (p in w'.aborted <==> p in w.aborted)
          && p in w.live && p in w'.live && w'.live[p] == w.live[p])
  }

  /** What should run for an id is unchanged. */
  predicate SameGoal(w: World, w': World, k: Id) {
    && (k in w'.changed <==> k in w.changed)
    && Resolve(w', k) == Resolve(w, k) && Desired(w', k) == Desired(w, k)
    && (PreviewFor(w', k) <==> PreviewFor(w, k))
  }

  /** The jobs of an id are unchanged. */
  ghost predicate SameJobs(w: World, w': World, k: Id)
    requires Accepts(w.trace) && Accepts(w'.trace)
  {
    var m, m' := Mon(w), Mon(w');
    && (k in m'.held <==> k in m.held) && (k in m.held ==> m'.held[k] == m.held[k])
    && Queue(m', k) == Queue(m, k)
    && forall s :: s in w.owner && w.owner[s] == k ==>
         && s in w'.owner && w'.owner[s] == k
         && (s in w'.released <==> s in w.released) && (s in w'.working <==> s in w.working)
         && (s in m'.awaiting <==> s in m.awaiting) && (s in m'.told <==> s in m.told)
  }

  ghost predicate SameFor(w: World, w': World, k: Id)
    requires Accepts(w.trace) && Accepts(w'.trace)
  {
    SameProc(w, w', k) && SameGoal(w, w', k) && SameJobs(w, w', k)
  }

  lemma SameKeeps(w: World, w': World, k: Id)
    requires Accepts(w.trace) && Accepts(w'.trace) && SameFor(w, w', k)
    requires IdOk(w, k)
    ensures IdOk(w', k)
    ensures Weak(w, k) ==> Weak(w', k)
    ensures Strong(w, k) ==> Strong(w', k)
  {
    forall i | 0 <= i < |St(w, k).jobs| ensures Waiting(w', k, St(w, k).jobs[i].serial) {
      assert Waiting(w, k, St(w, k).jobs[i].serial);
    }
  }

  /** A change confined to one id keeps the rest of the world in order. */
  lemma Frame(w: World, w': World, id: Id, bad: set<Id>)
    requires Core(w) && Rest(w, id, bad) && Accepts(w'.trace)
    requires forall k :: k != id ==> SameFor(w, w', k)
    ensures Rest(w', id, bad) && forall k :: k != id ==> IdOk(w', k)
  {
    forall k | k != id ensures Fine(w', k, bad) && IdOk(w', k) {
      assert IdOk(w, k) && Fine(w, k, bad);
      SameKeeps(w, w', k);
    }
  }

  /** A change of the history, and of one job's standing, leaves the ids it is not about as they were. */
  lemma SameBut(w: World, w': World, k: Id)
    requires Accepts(w.trace) && Accepts(w'.trace) && ProcAt(w, k) && St(w', k) == St(w, k)
    requires w'.exiting == w.exiting && w'.live == w.live && w'.aborted == w.aborted
    requires w'.disk == w.disk && w'.preview == w.preview && w'.changed == w.changed
    requires w'.owner == w.owner && w'.released == w.released && w'.working == w.working
    requires Mon(w').held == Mon(w).held && Mon(w').queues == Mon(w).queues
    requires forall s :: s in w.owner && w.owner[s] == k ==>
               (s in Mon(w').awaiting <==> s in Mon(w).awaiting) && (s in Mon(w').told <==> s in Mon(w).told)
    ensures SameFor(w, w', k)
  {
  }

  /** The processes and serials of a world whose history grew by an event about one job. */
  lemma CountersStill(w: World, w': World)
    requires Core(w) && Accepts(w'.trace)
    requires w' == w.(states := w'.states, trace := w'.trace)
    requires forall k :: St(w', k).runtime == St(w, k).runtime
    requires var m, m' := Mon(w), Mon(w');
             && m'.held == m.held && m'.known == m.known && m'.pids == m.pids && m'.live == m.live && m'.asked == m.asked
             && forall s :: s in m'.awaiting || s in m'.told ==> s in m.awaiting || s in m.told || s in w.owner
    ensures Mon(w').live == w'.live && Mon(w').asked == w'.aborted
    ensures (forall p :: PidOk(w', p)) && forall s :: SerialOk(w', s)
  {
    forall q ensures PidOk(w', q) {
      assert PidOk(w, q);
    }
    forall s' ensures SerialOk(w', s') {
      assert SerialOk(w, s');
    }
  }

  /** The serials waiting in the queue of an id, untouched by a change, still wait. */
  lemma SameWaiting(w: World, w': World, id: Id)
    requires Accepts(w.trace) && Accepts(w'.trace) && JobAt(w, id)
    requires forall s :: Waiting(w, id, s) ==> Waiting(w', id, s) || Holds(Mon(w), id, s) || Holds(Mon(w'), id, s)
    ensures forall i :: 0 <= i < |St(w, id).jobs| ==>
              var s := St(w, id).jobs[i].serial; Waiting(w', id, s) || Holds(Mon(w), id, s) || Holds(Mon(w'), id, s)
  {
  }

  lemma EnqueueKeepsWaiting(w: World, id: Id, kind: JobKind, i: nat)
    requires Core(w) && Accepts(DoEnqueue(w, id, kind).trace) && i <= |St(w, id).jobs|
    requires Mon(DoEnqueue(w, id, kind)) == After(Mon(w), Enqueued(id, w.nextSerial, kind))
    ensures var w' := DoEnqueue(w, id, kind);
            Waiting(w', id, St(w', id).jobs[i].serial) && (i < |St(w, id).jobs| ==> St(w, id).jobs[i].serial < w.nextSerial)
  {
    assert SerialOk(w, w.nextSerial) && IdOk(w, id);
    if i < |St(w, id).jobs| {
      assert Waiting(w, id, St(w, id).jobs[i].serial) && SerialOk(w, St(w, id).jobs[i].serial);
    }
  }

  lemma EnqueueKeepsJobs(w: World, id: Id, kind: JobKind)
    requires Core(w) && Accepts(DoEnqueue(w, id, kind).trace)
    requires Mon(DoEnqueue(w, id, kind)) == After(Mon(w), Enqueued(id, w.nextSerial, kind))
    ensures JobAt(DoEnqueue(w, id, kind), id)
  {
    var w', jobs := DoEnqueue(w, id, kind), St(w, id).jobs;
    var jobs' := St(w', id).jobs;
    assert JobAt(w, id) by {
      assert IdOk(w, id);
    }
    SerialsAppend(jobs, Job(w.nextSerial, kind));
    forall i | 0 <= i < |jobs'|
      ensures Waiting(w', id, jobs'[i].serial) && (i < |jobs| ==> jobs'[i] == jobs[i] && jobs[i].serial < w.nextSerial)
    {
      EnqueueKeepsWaiting(w, id, kind, i);
    }
    if id in Mon(w).held {
      assert SerialOk(w, Mon(w).held[id]);
    }
  }

  lemma EnqueueSameProc(w: World, id: Id, kind: JobKind, k: Id)
    requires ProcAt(w, k)
    ensures k != id ==> SameProc(w, DoEnqueue(w, id, kind), k)
    ensures ProcAt(DoEnqueue(w, id, kind), k)
  {
    var w' := DoEnqueue(w, id, kind);
    assert w'.exiting == w.exiting && w'.aborted == w.aborted && w'.live == w.live;
    assert k != id ==> St(w', k) == St(w, k);
    assert St(w', id) == St(w, id).(jobs := St(w, id).jobs + [Job(w.nextSerial, kind)]);
  }

  lemma EnqueueSameGoal(w: World, id: Id, kind: JobKind, k: Id)
    ensures SameGoal(w, DoEnqueue(w, id, kind), k)
  {
    var w' := DoEnqueue(w, id, kind);
    assert w'.preview == w.preview && w'.disk == w.disk && w'.changed == w.changed;
  }

  lemma EnqueueSameJobs(w: World, id: Id, kind: JobKind, k: Id)
    requires Accepts(w.trace) && w.nextSerial !in w.owner && k != id
    requires Accepts(DoEnqueue(w, id, kind).trace)
    requires Mon(DoEnqueue(w, id, kind)) == After(Mon(w), Enqueued(id, w.nextSerial, kind))
    ensures SameJobs(w, DoEnqueue(w, id, kind), k)
  {
    var w' := DoEnqueue(w, id, kind);
    var m, m' := Mon(w), Mon(w');
    assert w'.owner == w.owner[w.nextSerial := id] && w'.released == w.released && w'.working == w.working;
    assert m'.held == m.held && m'.awaiting == m.awaiting && m'.told == m.told && Queue(m', k) == Queue(m, k);
    JobsWithOne(w, w', id, w.nextSerial, k);
  }

  lemma JobsWithOne(w: World, w': World, id: Id, n: Serial, k: Id)
    requires Accepts(w.trace) && Accepts(w'.trace) && n !in w.owner && k != id
    requires w'.owner == w.owner[n := id] && w'.released == w.released && w'.working == w.working
    requires var m, m' := Mon(w), Mon(w');
             m'.held == m.held && m'.awaiting == m.awaiting && m'.told == m.told && Queue(m', k) == Queue(m, k)
    ensures SameJobs(w, w', k)
  {
  }

  lemma EnqueueSame(w: World, id: Id, kind: JobKind, k: Id)
    requires Accepts(w.trace) && IdOk(w, k) && w.nextSerial !in w.owner && k != id
    requires Accepts(DoEnqueue(w, id, kind).trace)
    requires Mon(DoEnqueue(w, id, kind)) == After(Mon(w), Enqueued(id, w.nextSerial, kind))
    ensures SameFor(w, DoEnqueue(w, id, kind), k)
  {
    EnqueueSameProc(w, id, kind, k);
    EnqueueSameGoal(w, id, kind, k);
    EnqueueSameJobs(w, id, kind, k);
  }

  lemma EnqueueKeeps(w: World, id: Id, kind: JobKind, bad: set<Id>)
    requires Core(w) && Rest(w, id, bad)
    ensures var w' := DoEnqueue(w, id, kind);
            && Core(w') && Rest(w', id, bad)
            && Mon(w') == After(Mon(w), Enqueued(id, w.nextSerial, kind))
  {
    var w' := DoEnqueue(w, id, kind);
    assert SerialOk(w, w.nextSerial);
    ReplayAppend(w.trace, Enqueued(id, w.nextSerial, kind));
    EnqueueKeepsJobs(w, id, kind);
    forall k | k != id ensures SameFor(w, w', k) {
      assert IdOk(w, k);
      EnqueueSame(w, id, kind, k);
    }
    Frame(w, w', id, bad);
    assert IdOk(w, id);
    EnqueueSameProc(w, id, kind, id);
    forall p ensures PidOk(w', p) {
      assert PidOk(w, p);
    }
    forall s' ensures SerialOk(w', s') {
      assert SerialOk(w, s');
    }
  }

  lemma SerialsAppend(jobs: seq<Job>, job: Job)
    ensures Serials(jobs + [job]) == Serials(jobs) + [job.serial]
  {
  }

  lemma BeginKeepsJobs(w: World, id: Id)
    requires Core(w) && St(w, id).jobs != [] && !St(w, id).jobActive
    ensures var w', s := DoBegin(w, id), St(w, id).jobs[0].serial;
            && Accepts(w'.trace) && Mon(w') == After(Mon(w), Begun(id, s))
            && JobAt(w', id) && Waiting(w, id, s)
  {
    assert IdOk(w, id);
    var jobs, w' := St(w, id).jobs, DoBegin(w, id);
    var jobs' := St(w', id).jobs;
    assert Waiting(w, id, jobs[0].serial);
    ReplayAppend(w.trace, Begun(id, jobs[0].serial));
    assert Serials(jobs)[1..] == Serials(jobs');
    forall i | 0 <= i < |jobs'| ensures Waiting(w', id, jobs'[i].serial) && jobs[0].serial < jobs'[i].serial {
      assert jobs'[i] == jobs[i + 1];
      assert Waiting(w, id, jobs[i + 1].serial);
    }
  }

  lemma BeginKeeps(w: World, id: Id, bad: set<Id>)
    requires Core(w) && Rest(w, id, bad)
    requires St(w, id).jobs != [] && !St(w, id).jobActive
    ensures var w' := DoBegin(w, id);
            && Core(w') && Rest(w', id, bad)
            && Mon(w') == After(Mon(w), Begun(id, St(w, id).jobs[0].serial))
            && InHand(w', id, St(w, id).jobs[0].serial)
            && St(w, id).jobs[0].serial !in Mon(w').told
  {
    var w' := DoBegin(w, id);
    BeginKeepsJobs(w, id);
    forall k | k != id ensures SameFor(w, w', k) {
      assert IdOk(w, k);
    }
    Frame(w, w', id, bad);
    assert IdOk(w, id);
    assert IdOk(w', id);
    forall p ensures PidOk(w', p) {
      assert PidOk(w, p);
    }
    forall s' ensures SerialOk(w', s') {
      assert SerialOk(w, s');
    }
  }

  lemma EndKeepsJobs(w: World, id: Id, s: Serial)
    requires Core(w) && InHand(w, id, s)
    requires St(w, id).pendingStop.None? || St(w, id).pendingStop == Some([])
    ensures var w' := DoEnd(w, id, s);
            Accepts(w'.trace) && Mon(w') == After(Mon(w), Ended(id, s)) && JobAt(w', id)
  {
    var w' := DoEnd(w, id, s);
    assert IdOk(w, id);
    ReplayAppend(w.trace, Ended(id, s));
    forall i | 0 <= i < |St(w, id).jobs| ensures Waiting(w', id, St(w, id).jobs[i].serial) {
      assert Waiting(w, id, St(w, id).jobs[i].serial);
    }
  }

  lemma EndSame(w: World, id: Id, s: Serial, k: Id)
    requires Accepts(w.trace) && IdOk(w, k) && IdOk(w, id) && k != id && InHand(w, id, s)
    requires Accepts(DoEnd(w, id, s).trace) && Mon(DoEnd(w, id, s)) == After(Mon(w), Ended(id, s))
    ensures SameFor(w, DoEnd(w, id, s), k)
  {
    var w' := DoEnd(w, id, s);
    var m, m' := Mon(w), Mon(w');
    assert St(w', k) == St(w, k) && w'.exiting == w.exiting && w'.live == w.live && w'.aborted == w.aborted;
    assert w'.preview == w.preview && w'.disk == w.disk && w'.changed == w.changed;
    assert w'.owner == w.owner && w'.working == w.working && w'.released == w.released + {s} && w.owner[s] == id;
    assert m'.queues == m.queues && m'.awaiting == m.awaiting && m'.told == m.told && m'.held == m.held - {id};
  }

  lemma EndKeeps(w: World, id: Id, s: Serial, bad: set<Id>)
    requires Core(w) && Rest(w, id, bad) && InHand(w, id, s)
    requires St(w, id).pendingStop.None? || St(w, id).pendingStop == Some([])
    ensures var w' := DoEnd(w, id, s);
            && Core(w') && Rest(w', id, bad)
            && Mon(w') == After(Mon(w), Ended(id, s))
  {
    var w' := DoEnd(w, id, s);
    assert IdOk(w, id);
    EndKeepsJobs(w, id, s);
    forall k | k != id ensures SameFor(w, w', k) {
      assert IdOk(w, k);
      EndSame(w, id, s, k);
    }
    Frame(w, w', id, bad);
    assert IdOk(w', id);
    forall p ensures PidOk(w', p) {
      assert PidOk(w, p);
    }
    forall s' ensures SerialOk(w', s') {
      assert SerialOk(w, s');
    }
  }

  lemma SpawnAllowed(w: World, id: Id, r: Record)
    requires Core(w)
    requires St(w, id).runtime.None? && St(w, id).pendingStop.None? && !St(w, id).jobActive
    ensures var w' := DoSpawn(w, id, r);
            && Accepts(w'.trace) && Mon(w') == After(Mon(w), Spawned(w.nextPid, Proc(id, r)))
            && forall p :: p in w.live ==> w.live[p].id != id
  {
    assert IdOk(w, id);
    assert PidOk(w, w.nextPid);
    forall p | p in w.live ensures w.live[p].id != id {
      assert PidOk(w, p);
    }
    ReplayAppend(w.trace, Spawned(w.nextPid, Proc(id, r)));
  }

  lemma SpawnSameProc(w: World, id: Id, r: Record, k: Id)
    requires ProcAt(w, k) && w.nextPid !in w.live && k != id
    ensures SameProc(w, DoSpawn(w, id, r), k)
  {
    var w' := DoSpawn(w, id, r);
    assert w'.exiting == w.exiting && w'.aborted == w.aborted;
    assert St(w', k) == St(w, k);
    assert forall p :: p in w.live ==> p in w'.live && w'.live[p] == w.live[p];
  }

  lemma SpawnSameGoal(w: World, id: Id, r: Record, k: Id)
    requires k != id
    ensures SameGoal(w, DoSpawn(w, id, r), k)
  {
    var w' := DoSpawn(w, id, r);
    assert w'.preview == w.preview && w'.disk == w.disk;
  }

  lemma SpawnSameJobs(w: World, id: Id, r: Record, k: Id)
    requires Accepts(w.trace) && Accepts(DoSpawn(w, id, r).trace)
    requires Mon(DoSpawn(w, id, r)).(live := Mon(w).live, pids := Mon(w).pids) == Mon(w)
    ensures SameJobs(w, DoSpawn(w, id, r), k)
  {
    var w' := DoSpawn(w, id, r);
    var m, m' := Mon(w), Mon(w');
    assert w'.owner == w.owner && w'.released == w.released && w'.working == w.working;
    assert m'.held == m.held && m'.queues == m.queues && m'.awaiting == m.awaiting && m'.told == m.told;
  }

  lemma SpawnSame(w: World, id: Id, r: Record, k: Id)
    requires Accepts(w.trace) && ProcAt(w, k) && w.nextPid !in w.live
    requires k != id && Accepts(DoSpawn(w, id, r).trace)
    requires Mon(DoSpawn(w, id, r)).(live := Mon(w).live, pids := Mon(w).pids) == Mon(w)
    ensures SameFor(w, DoSpawn(w, id, r), k)
  {
    SpawnSameProc(w, id, r, k);
    SpawnSameGoal(w, id, r, k);
    SpawnSameJobs(w, id, r, k);
  }

  lemma SpawnAt(w: World, id: Id, r: Record)
    requires Accepts(w.trace) && Accepts(DoSpawn(w, id, r).trace) && IdOk(w, id)
    requires Mon(DoSpawn(w, id, r)).(live := Mon(w).live, pids := Mon(w).pids) == Mon(w)
    requires w.nextPid !in w.live && w.nextPid !in w.aborted
    requires St(w, id).runtime.None? && St(w, id).pendingStop.None?
    ensures IdOk(DoSpawn(w, id, r), id)
  {
    var w' := DoSpawn(w, id, r);
    var m, m' := Mon(w), Mon(w');
    assert m'.held == m.held && m'.queues == m.queues && m'.awaiting == m.awaiting && m'.told == m.told;
    assert St(w', id) == St(w, id).(runtime := Some(w.nextPid), record := Some(r));
    assert JobAt(w', id) by {
      forall i | 0 <= i < |St(w, id).jobs| ensures Waiting(w', id, St(w, id).jobs[i].serial) {
        assert Waiting(w, id, St(w, id).jobs[i].serial);
      }
    }
    assert ProcAt(w', id);
  }

  lemma SpawnPid(w: World, id: Id, r: Record, p: Pid)
    requires Accepts(w.trace) && Accepts(DoSpawn(w, id, r).trace) && PidOk(w, p)
    requires Mon(DoSpawn(w, id, r)) == Mon(w).(live := Mon(DoSpawn(w, id, r)).live, pids := Mon(w).pids + {w.nextPid})
    requires p in w.live ==> w.live[p].id != id
    ensures PidOk(DoSpawn(w, id, r), p)
  {
    var w' := DoSpawn(w, id, r);
    assert w'.exiting == w.exiting && w'.aborted == w.aborted && w'.nextPid == w.nextPid + 1;
    if p in w'.live {
      if p == w.nextPid {
        assert St(w', id).runtime == Some(p);
      } else {
        assert w'.live[p] == w.live[p] && St(w', w.live[p].id) == St(w, w.live[p].id);
        assert Owned(w, p);
      }
    }
  }

  lemma SpawnSerial(w: World, id: Id, r: Record, s: Serial)
    requires Accepts(w.trace) && Accepts(DoSpawn(w, id, r).trace) && SerialOk(w, s)
    requires Mon(DoSpawn(w, id, r)).(live := Mon(w).live, pids := Mon(w).pids) == Mon(w)
    ensures SerialOk(DoSpawn(w, id, r), s)
  {
    var w' := DoSpawn(w, id, r);
    var m, m' := Mon(w), Mon(w');
    assert w'.owner == w.owner && w'.released == w.released && w'.working == w.working && w'.nextSerial == w.nextSerial;
    assert m'.held == m.held && m'.known == m.known && m'.awaiting == m.awaiting && m'.told == m.told;
  }

  lemma SpawnKeeps(w: World, id: Id, r: Record, bad: set<Id>)
    requires Core(w) && Rest(w, id, bad)
    requires St(w, id).runtime.None? && St(w, id).pendingStop.None? && !St(w, id).jobActive
    ensures var w' := DoSpawn(w, id, r);
            && Core(w') && Rest(w', id, bad)
            && Mon(w') == After(Mon(w), Spawned(w.nextPid, Proc(id, r)))
  {
    var w' := DoSpawn(w, id, r);
    SpawnAllowed(w, id, r);
    assert PidOk(w, w.nextPid);
    forall k | k != id ensures SameFor(w, w', k) {
      assert IdOk(w, k);
      SpawnSame(w, id, r, k);
    }
    Frame(w, w', id, bad);
    assert IdOk(w, id);
    SpawnAt(w, id, r);
    forall p ensures PidOk(w', p) {
      assert PidOk(w, p);
      SpawnPid(w, id, r, p);
    }
    forall s ensures SerialOk(w', s) {
      assert SerialOk(w, s);
      SpawnSerial(w, id, r, s);
    }
  }

  lemma StopSame(w: World, id: Id, k: Id)
    requires Accepts(w.trace) && ProcAt(w, k) && k != id && St(w, id).runtime.Some?
    ensures SameFor(w, DoStop(w, id), k)
  {
    var w' := DoStop(w, id);
    assert St(w', k) == St(w, k) && w'.live == w.live && w'.aborted == w.aborted && w'.trace == w.trace;
    assert w'.preview == w.preview && w'.disk == w.disk && w'.changed == w.changed;
    assert w'.owner == w.owner && w'.released == w.released && w'.working == w.working;
  }

  lemma StopPid(w: World, id: Id, p: Pid)
    requires Accepts(w.trace) && PidOk(w, p) && St(w, id).runtime.Some? && ProcAt(w, id)
    requires p in w.live ==> ProcAt(w, w.live[p].id)
    ensures PidOk(DoStop(w, id), p)
  {
    var w' := DoStop(w, id);
    assert w'.live == w.live && w'.aborted == w.aborted && w'.trace == w.trace && w'.nextPid == w.nextPid;
    assert w'.exiting == w.exiting[id := St(w, id).runtime.value];
    if p in w.live && w.live[p].id != id {
      assert St(w', w.live[p].id) == St(w, w.live[p].id);
    }
  }

  lemma StopKeeps(w: World, id: Id, bad: set<Id>)
    requires Core(w) && Rest(w, id, bad) && St(w, id).runtime.Some?
    ensures var w' := DoStop(w, id); Core(w') && Rest(w', id, bad) && Mon(w') == Mon(w)
  {
    assert IdOk(w, id);
    var w' := DoStop(w, id);
    forall k | k != id ensures SameFor(w, w', k) {
      assert IdOk(w, k);
      StopSame(w, id, k);
    }
    Frame(w, w', id, bad);
    SameWaiting(w, w', id);
    assert IdOk(w', id);
    forall p ensures PidOk(w', p) {
      assert PidOk(w, p);
      assert p in w.live ==> IdOk(w, w.live[p].id);
      StopPid(w, id, p);
    }
    forall s' ensures SerialOk(w', s') {
      assert SerialOk(w, s');
    }
  }

  lemma JoinAt(w: World, id: Id, cb: Callback)
    requires Accepts(w.trace) && IdOk(w, id) && St(w, id).pendingStop == Some([])
    requires InHand(w, id, cb.serial) && cb.serial !in Mon(w).told
    ensures var w' := DoJoin(w, id, cb);
            Accepts(w'.trace) && Mon(w') == After(Mon(w), Awaited(id, cb.serial)) && IdOk(w', id)
  {
    ReplayAppend(w.trace, Awaited(id, cb.serial));
    SameWaiting(w, DoJoin(w, id, cb), id);
  }

  lemma JoinKeeps(w: World, id: Id, cb: Callback, bad: set<Id>)
    requires Core(w) && Rest(w, id, bad) && St(w, id).pendingStop == Some([])
    requires InHand(w, id, cb.serial) && cb.serial !in Mon(w).told
    ensures var w' := DoJoin(w, id, cb);
            && Core(w') && Rest(w', id, bad)
            && Mon(w') == After(Mon(w), Awaited(id, cb.serial))
  {
    assert IdOk(w, id);
    var w' := DoJoin(w, id, cb);
    JoinAt(w, id, cb);
    forall k | k != id ensures SameFor(w, w', k) {
      assert IdOk(w, k);
      SameBut(w, w', k);
    }
    Frame(w, w', id, bad);
    CountersStill(w, w');
  }

  lemma GoalStill(w: World, w': World, k: Id)
    requires w'.preview == w.preview && w'.disk == w.disk && w'.changed == w.changed
    ensures SameGoal(w, w', k)
  {
  }

  lemma JobsStill(w: World, w': World, k: Id)
    requires Accepts(w.trace) && Accepts(w'.trace)
    requires w'.owner == w.owner && w'.released == w.released && w'.working == w.working
    requires var m, m' := Mon(w), Mon(w');
             m'.held == m.held && m'.queues == m.queues && m'.awaiting == m.awaiting && m'.told == m.told
    ensures SameJobs(w, w', k)
  {
  }

  lemma ExitSameProc(w: World, p: Pid, cause: Cause, k: Id)
    requires ProcAt(w, k) && p in w.live && w.live[p].id != k
    ensures SameProc(w, DoExit(w, p, cause), k)
  {
    var w' := DoExit(w, p, cause);
    assert St(w', k) == St(w, k) && w'.aborted == w.aborted;
    assert w'.live == w.live - {p} && w'.exiting == w.exiting - {w.live[p].id};
  }

  lemma ExitSame(w: World, p: Pid, cause: Cause, k: Id)
    requires Accepts(w.trace) && ProcAt(w, k) && p in w.live && w.live[p].id != k
    requires Accepts(DoExit(w, p, cause).trace) && Mon(DoExit(w, p, cause)) == Mon(w).(live := Mon(w).live - {p})
    ensures SameFor(w, DoExit(w, p, cause), k)
  {
    ExitSameProc(w, p, cause, k);
    GoalStill(w, DoExit(w, p, cause), k);
    JobsStill(w, DoExit(w, p, cause), k);
  }

  lemma ExitAt(w: World, p: Pid, cause: Cause)
    requires Accepts(w.trace) && p in w.live && IdOk(w, w.live[p].id)
    requires Accepts(DoExit(w, p, cause).trace) && Mon(DoExit(w, p, cause)) == Mon(w).(live := Mon(w).live - {p})
    ensures IdOk(DoExit(w, p, cause), w.live[p].id)
  {
    SameWaiting(w, DoExit(w, p, cause), w.live[p].id);
  }

  lemma ExitPid(w: World, p: Pid, cause: Cause, q: Pid)
    requires Accepts(w.trace) && p in w.live && PidOk(w, p) && PidOk(w, q) && ProcAt(w, w.live[p].id)
    requires Accepts(DoExit(w, p, cause).trace) && Mon(DoExit(w, p, cause)) == Mon(w).(live := Mon(w).live - {p})
    ensures PidOk(DoExit(w, p, cause), q)
    ensures q in DoExit(w, p, cause).live ==> w.live[q].id != w.live[p].id
  {
  }

  lemma ExitKeeps(w: World, p: Pid, cause: Cause, bad: set<Id>)
    requires Core(w) && p in w.live && Rest(w, w.live[p].id, bad) && (cause.Stopped? <==> p in w.aborted)
    ensures var w', id := DoExit(w, p, cause), w.live[p].id;
            && Core(w') && Rest(w', id, bad)
            && Mon(w') == After(Mon(w), Exited(p, id, cause))
            && NoProcess(Mon(w'), id)
  {
    var id, w' := w.live[p].id, DoExit(w, p, cause);
    assert IdOk(w, id) && PidOk(w, p);
    ReplayAppend(w.trace, Exited(p, id, cause));
    forall q ensures PidOk(w', q) && (q in w'.live ==> w'.live[q].id != id) {
      assert PidOk(w, q);
      ExitPid(w, p, cause, q);
    }
    forall k | k != id ensures SameFor(w, w', k) {
      assert IdOk(w, k);
      ExitSame(w, p, cause, k);
    }
    Frame(w, w', id, bad);
    ExitAt(w, p, cause);
    forall s' ensures SerialOk(w', s') {
      assert SerialOk(w, s');
    }
  }

  lemma AskSame(w: World, id: Id, p: Pid, k: Id)
    requires Accepts(w.trace) && ProcAt(w, k) && k != id && p in w.live && w.live[p].id == id
    requires Accepts(DoAsk(w, p).trace) && Mon(DoAsk(w, p)) == After(Mon(w), Asked(p))
    ensures SameFor(w, DoAsk(w, p), k)
  {
    AskSameProc(w, id, p, k);
    GoalStill(w, DoAsk(w, p), k);
    JobsStill(w, DoAsk(w, p), k);
  }

  lemma AskSameProc(w: World, id: Id, p: Pid, k: Id)
    requires ProcAt(w, k) && k != id && p in w.live && w.live[p].id == id
    ensures SameProc(w, DoAsk(w, p), k)
  {
    var w' := DoAsk(w, p);
    assert w'.states == w.states && w'.exiting == w.exiting && w'.live == w.live && w'.aborted == w.aborted + {p};
  }

  lemma AskKeeps(w: World, id: Id, p: Pid, bad: set<Id>)
    requires Core(w) && Rest(w, id, bad) && p in w.live && w.live[p].id == id && St(w, id).runtime.None?
    ensures var w' := DoAsk(w, p); Core(w') && Rest(w', id, bad) && Mon(w') == After(Mon(w), Asked(p))
  {
    var w' := DoAsk(w, p);
    ReplayAppend(w.trace, Asked(p));
    forall k | k != id ensures SameFor(w, w', k) {
      assert IdOk(w, k);
      AskSame(w, id, p, k);
    }
    Frame(w, w', id, bad);
    assert IdOk(w, id);
    SameWaiting(w, w', id);
    assert IdOk(w', id);
    forall q ensures PidOk(w', q) {
      assert PidOk(w, q);
    }
    forall s' ensures SerialOk(w', s') {
      assert SerialOk(w, s');
    }
  }

  /** An event that changes nothing but the history. */
  lemma NoteKeeps(w: World, w': World, id: Id, e: Event, bad: set<Id>)
    requires Core(w) && Rest(w, id, bad)
    requires w' == w.(states := w'.states, trace := w.trace + [e]) && forall k :: St(w', k) == St(w, k)
    requires Allows(Mon(w), e) && Grounded(w.trace, e) && After(Mon(w), e) == Mon(w)
    ensures Core(w') && Rest(w', id, bad) && Mon(w') == Mon(w)
  {
    ReplayAppend(w.trace, e);
    forall k | k != id ensures SameFor(w, w', k) {
      assert IdOk(w, k);
      SameBut(w, w', k);
    }
    Frame(w, w', id, bad);
    assert IdOk(w, id);
    SameWaiting(w, w', id);
    assert IdOk(w', id);
    CountersStill(w, w');
  }

  /** An id that runs nothing, waits for nothing and has no job has no process. */
  lemma FailKeeps(w: World, id: Id, bad: set<Id>)
    requires Core(w) && Rest(w, id, bad)
    requires St(w, id).runtime.None? && St(w, id).pendingStop.None? && !St(w, id).jobActive
    ensures var w' := DoFail(w, id); Core(w') && Rest(w', id, bad) && Mon(w') == Mon(w)
  {
    assert IdOk(w, id);
    forall p | p in w.live ensures w.live[p].id != id {
      assert PidOk(w, p);
    }
    NoteKeeps(w, DoFail(w, id), id, Failed(id), bad);
  }

  lemma BlameKeeps(w: World, id: Id, bad: set<Id>)
    requires Core(w) && Rest(w, id, bad) && w.trace != [] && IsFault(w.trace[|w.trace| - 1], id)
    ensures var w' := DoBlame(w, id); Core(w') && Rest(w', id, bad) && Mon(w') == Mon(w)
  {
    NoteKeeps(w, DoBlame(w, id), id, Blamed(id), bad);
  }

  lemma DrainKeeps(w: World, id: Id, bad: set<Id>)
    requires Core(w) && Rest(w, id, bad) && id !in w.exiting
    ensures var w' := DoDrain(w, id); Core(w') && Rest(w', id, bad) && Mon(w') == Mon(w)
  {
    var w' := DoDrain(w, id);
    forall k | k != id ensures SameFor(w, w', k) {
      assert IdOk(w, k);
    }
    Frame(w, w', id, bad);
    assert IdOk(w, id);
    SameWaiting(w, w', id);
    assert IdOk(w', id);
    forall q ensures PidOk(w', q) {
      assert PidOk(w, q);
    }
    forall s' ensures SerialOk(w', s') {
      assert SerialOk(w, s');
    }
  }

  lemma ToldKeeps(w: World, id: Id, s: Serial, bad: set<Id>)
    requires Core(w) && Rest(w, id, bad)
    requires Holds(Mon(w), id, s) && s in Mon(w).awaiting && DirectoryFree(Mon(w), id)
    ensures var w' := DoTold(w, id, s);
            && Core(w') && Rest(w', id, bad)
            && Mon(w') == After(Mon(w), Told(id, s))
  {
    var w' := DoTold(w, id, s);
    assert IdOk(w, id);
    ReplayAppend(w.trace, Told(id, s));
    forall k | k != id ensures SameFor(w, w', k) {
      assert IdOk(w, k);
      SameBut(w, w', k);
    }
    Frame(w, w', id, bad);
    SameWaiting(w, w', id);
    assert IdOk(w', id);
    CountersStill(w, w');
  }

  lemma TouchSame(w: World, id: Id, s: Serial, entry: DiskEntry, k: Id)
    requires Accepts(w.trace) && ProcAt(w, k) && k != id
    requires Accepts(DoTouch(w, id, s, entry).trace) && Mon(DoTouch(w, id, s, entry)) == Mon(w)
    ensures SameFor(w, DoTouch(w, id, s, entry), k)
  {
    var w' := DoTouch(w, id, s, entry);
    assert w'.states == w.states && w'.exiting == w.exiting && w'.live == w.live && w'.aborted == w.aborted;
    assert w'.preview == w.preview && w'.changed == w.changed && Disk(w', k) == Disk(w, k);
    assert w'.owner == w.owner && w'.released == w.released && w'.working == w.working;
  }

  lemma TouchKeeps(w: World, id: Id, s: Serial, entry: DiskEntry, bad: set<Id>)
    requires Core(w) && Rest(w, id, bad)
    requires Holds(Mon(w), id, s) && s in Mon(w).told && DirectoryFree(Mon(w), id)
    ensures var w' := DoTouch(w, id, s, entry);
            && Core(w') && Rest(w', id, bad)
            && Mon(w') == Mon(w)
  {
    var w' := DoTouch(w, id, s, entry);
    ReplayAppend(w.trace, Touched(id, s));
    forall k | k != id ensures SameFor(w, w', k) {
      assert IdOk(w, k);
      TouchSame(w, id, s, entry, k);
    }
    Frame(w, w', id, bad);
    assert IdOk(w, id);
    SameWaiting(w, w', id);
    assert IdOk(w', id);
    forall q ensures PidOk(w', q) {
      assert PidOk(w, q);
    }
    forall s' ensures SerialOk(w', s') {
      assert SerialOk(w, s');
    }
  }

  lemma PlainAt(w: World, w': World, id: Id)
    requires Accepts(w.trace) && IdOk(w, id)
    requires w' == w.(states := w'.states, disk := w'.disk, preview := w'.preview, changed := w'.changed,
                      working := w'.working, dead := w'.dead)
    requires St(w', id) == St(w, id).(draining := St(w', id).draining)
    requires forall s :: s in w'.working && s !in w.working ==> InHand(w, id, s) && s !in Mon(w).told
    ensures IdOk(w', id)
  {
    SameWaiting(w, w', id);
  }

  /** Changes that touch neither processes nor queues: disk, draining, outside work, the overlay of this id. */
  lemma PlainKeeps(w: World, w': World, id: Id, bad: set<Id>)
    requires Core(w) && Rest(w, id, bad)
    requires w' == w.(states := w'.states, disk := w'.disk, preview := w'.preview, changed := w'.changed,
                      working := w'.working, dead := w'.dead)
    requires St(w', id) == St(w, id).(draining := St(w', id).draining)
    requires forall k :: k != id ==> St(w', k) == St(w, k) && Disk(w', k) == Disk(w, k) && (k in w'.changed <==> k in w.changed)
    requires w'.preview != w.preview ==> (w.preview.Some? ==> w.preview.value.id == id) && (w'.preview.Some? ==> w'.preview.value.id == id)
    requires forall s :: s in w'.working && s !in w.working ==> InHand(w, id, s) && s !in Mon(w).told && w'.working[s] == id
    requires forall s :: s in w'.working && s in w.working ==> w'.working[s] == w.working[s]
    requires forall s :: s in w.working && s !in w'.working ==> Holds(Mon(w), id, s)
    ensures Core(w') && Rest(w', id, bad) && Mon(w') == Mon(w)
  {
    assert IdOk(w, id);
    forall k | k != id ensures SameFor(w, w', k) {
      assert IdOk(w, k);
    }
    Frame(w, w', id, bad);
    PlainAt(w, w', id);
    forall q ensures PidOk(w', q) {
      assert PidOk(w, q);
    }
    forall s' ensures SerialOk(w', s') {
      assert SerialOk(w, s');
    }
  }

  /** A job asks to be told at once: there is no process to wait for. */
  lemma AwaitKeeps(w: World, id: Id, s: Serial, bad: set<Id>)
    requires Core(w) && Rest(w, id, bad) && InHand(w, id, s) && s !in Mon(w).told
    ensures var w' := Log(w, Awaited(id, s));
            Core(w') && Rest(w', id, bad) && Mon(w') == After(Mon(w), Awaited(id, s))
  {
    var w' := Log(w, Awaited(id, s));
    assert IdOk(w, id);
    ReplayAppend(w.trace, Awaited(id, s));
    forall k | k != id ensures SameFor(w, w', k) {
      assert IdOk(w, k);
      SameBut(w, w', k);
    }
    Frame(w, w', id, bad);
    SameWaiting(w, w', id);
    assert IdOk(w', id);
    CountersStill(w, w');
  }

  // ---------------------------------------------------------------- What the invariants mean

  /** Convergence: with nothing in flight, an id runs exactly the record that resolves and is enabled. */
  lemma Converged(w: World, id: Id)
    requires AllGood(w) && Quiet(St(w, id)) && id !in w.changed
    ensures St(w, id).runtime.Some? <==> Desired(w, id).Some?
    ensures St(w, id).runtime.Some? ==>
              var p := St(w, id).runtime.value; p in w.live && w.live[p] == Proc(id, Desired(w, id).value)
  {
    assert IdOk(w, id) && Fine(w, id, {});
  }

  /** A process of an id is live exactly when its runtime is set or a stop is in flight, and it is the only one. */
  lemma ExclusiveProcess(w: World, id: Id)
    requires AllGood(w)
    ensures (exists p :: p in w.live && w.live[p].id == id) <==> St(w, id).runtime.Some? || St(w, id).pendingStop.Some?
    ensures forall p, q :: p in w.live && q in w.live && w.live[p].id == id && w.live[q].id == id ==> p == q
  {
    assert IdOk(w, id) && Fine(w, id, {});
    forall p | p in w.live && w.live[p].id == id
      ensures St(w, id).runtime == Some(p) || (id in w.exiting && w.exiting[id] == p)
    {
      assert PidOk(w, p);
    }
  }

  /** No lost release: whatever an id still has in flight, an outside event is due that moves it on. */
  lemma NoDeadlock(w: World, id: Id)
    requires AllGood(w) && !Quiet(St(w, id))
    ensures
      || (id in Mon(w).held && Mon(w).held[id] in w.working)
      || (id in w.exiting && w.exiting[id] in w.live && w.live[w.exiting[id]].id == id)
  {
    assert IdOk(w, id) && Fine(w, id, {});
  }
}
