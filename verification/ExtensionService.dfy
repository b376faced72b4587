/**
 The extension service: its methods call each other as in the program, re-entrancy included.
 Each is proved to keep the invariants of `ServiceWorld` and a history the monitor accepts.
 */
module ExtensionService {
  import opened Prelude
  import opened ServiceMonitor
  import opened ServiceWorld

  /** The bookkeeping of an id whose exit handler may be running. */
  ghost predicate Ready(w: World, id: Id)
    requires Accepts(w.trace)
  {
    Progress(w, id) && AwaitOk(w, id) && PendRec(w, id) && (ExitDue(w, id) || St(w, id).jobActive)
  }

  predicate Kept(w: World, id: Id) {
    RecOk(w, id) && PendOk(w, id)
  }

  /** The bookkeeping of an id whose process is gone and whose stop callbacks are still to run. */
  ghost predicate Books(w: World, id: Id)
    requires Accepts(w.trace)
  {
    Progress(w, id) && AwaitOk(w, id) && QueueOk(w, id) && PendRec(w, id)
  }

  /** Nothing runs, nothing is stopping, and at most a restart is queued. */
  predicate Lull(s: ProcessState) {
    s.runtime.None? && s.pendingStop.None? && !s.jobActive
    && (s.jobs == [] || (|s.jobs| == 1 && s.jobs[0].kind == Restart))
  }

  /** The job holding the id waits for a stop in flight. */
  predicate Waits(w: World, id: Id) {
    St(w, id).jobActive && St(w, id).pendingStop.Some? && St(w, id).pendingStop.value != []
  }

  /** With no stop in flight and no installed copy running, the installed directory is free. */
  lemma NoProcessFree(w: World, id: Id)
    requires Core(w) && id !in w.exiting
    requires St(w, id).record.Some? ==> St(w, id).record.value.Preview?
    ensures DirectoryFree(Mon(w), id)
  {
    assert IdOk(w, id);
    forall p | p in w.live && w.live[p].id == id ensures w.live[p].record.Preview? {
      assert PidOk(w, p);
    }
  }

  lemma RestartSurvives(jobs: seq<Job>)
    requires jobs != [] && jobs[0].kind != Restart && HasRestart(jobs)
    ensures HasRestart(jobs[1..])
  {
    var i :| 0 <= i < |jobs| && jobs[i].kind == Restart;
    assert jobs[1..][i - 1] == jobs[i];
  }

  lemma RestartQueued(jobs: seq<Job>, job: Job)
    ensures HasRestart(jobs) || job.kind == Restart ==> HasRestart(jobs + [job])
  {
    if HasRestart(jobs) {
      var i :| 0 <= i < |jobs| && jobs[i].kind == Restart;
      assert (jobs + [job])[i].kind == Restart;
    } else if job.kind == Restart {
      assert (jobs + [job])[|jobs|].kind == Restart;
    }
  }

  /** The process states of all other ids are the same. */
  ghost predicate OnlyAt(w: World, w': World, id: Id) {
    forall k :: k != id ==> St(w', k) == St(w, k)
  }

  /** A step followed by settled work is settled work. */
  lemma Compose(w: World, w1: World, w2: World, id: Id, bad: set<Id>)
    requires NoGrow(w, w1, id) && OnlyAt(w, w1, id) && St(w1, id).draining == St(w, id).draining
    requires Settled(w1, w2, id, bad)
    ensures Settled(w, w2, id, bad)
    ensures Load(w1, id) < Load(w, id) ==> Shrinks(w, w2, id)
    ensures Shrinks(w1, w2, id) || Shrinks(w, w1, id) ==> Shrinks(w, w2, id)
    ensures St(w1, id).runtime.None? ==> Renewed(w, w2, id)
  {
    OnwardTrans(w, w1, w2, id);
  }

  /** A restart may give up its place in the queue for a new process. */
  lemma ComposeRestart(w: World, w1: World, w2: World, id: Id, bad: set<Id>)
    requires Lessens(w, w1, id) && w1.nextPid == w.nextPid && OnlyAt(w, w1, id)
    requires St(w1, id).draining == St(w, id).draining
    requires Settled(w1, w2, id, bad) && Renewed(w1, w2, id)
    ensures Settled(w, w2, id, bad)
  {
    OnwardTrans(w, w1, w2, id);
  }

  lemma EndedNoGrow(w: World, id: Id, s: Serial)
    requires St(w, id).jobActive
    ensures var w1 := DoEnd(w, id, s);
            && NoGrow(w, w1, id) && OnlyAt(w, w1, id)
            && PreviewCount(w1) == PreviewCount(w) && Misaligned(w1, id) == Misaligned(w, id)
            && St(w1, id) == St(w, id).(jobActive := false) && Load(w1, id) < Load(w, id)
  {
    var w1 := DoEnd(w, id, s);
    assert w1.trace == w.trace + [Ended(id, s)];
    assert w1.preview == w.preview && w1.disk == w.disk && w1.nextToken == w.nextToken;
    assert St(w1, id) == St(w, id).(jobActive := false);
  }

  lemma EndedReady(w: World, id: Id, s: Serial)
    requires Accepts(DoEnd(w, id, s).trace) && id !in Mon(DoEnd(w, id, s)).held
    requires ExitDue(w, id) && PendRec(w, id)
    ensures var w1 := DoEnd(w, id, s); Ready(w1, id) && ExitDue(w1, id)
  {
    var w1 := DoEnd(w, id, s);
    assert w1.exiting == w.exiting && w1.live == w.live;
    assert St(w1, id) == St(w, id).(jobActive := false);
    assert Progress(w1, id) && AwaitOk(w1, id);
  }

  lemma EndedKept(w: World, id: Id, s: Serial)
    requires Kept(w, id)
    ensures Kept(DoEnd(w, id, s), id)
  {
    var w1 := DoEnd(w, id, s);
    assert w1.preview == w.preview && w1.disk == w.disk && w1.changed == w.changed;
    assert St(w1, id) == St(w, id).(jobActive := false);
  }

  lemma AfterEnd(w: World, id: Id, s: Serial, bad: set<Id>)
    requires Core(w) && Rest(w, id, bad)
    requires InHand(w, id, s) && ExitDue(w, id) && PendRec(w, id) && Kept(w, id)
    requires St(w, id).pendingStop.Some? ==> St(w, id).pendingStop.value == []
    ensures var w1 := DoEnd(w, id, s);
            && Core(w1) && Rest(w1, id, bad) && Ready(w1, id) && Kept(w1, id) && ExitDue(w1, id)
            && NoGrow(w, w1, id) && OnlyAt(w, w1, id)
            && PreviewCount(w1) == PreviewCount(w) && Misaligned(w1, id) == Misaligned(w, id)
            && St(w1, id) == St(w, id).(jobActive := false) && Load(w1, id) < Load(w, id)
    ensures s !in w.released
  {
    assert IdOk(w, id);
    EndKeeps(w, id, s, bad);
    EndedNoGrow(w, id, s);
    EndedReady(w, id, s);
    EndedKept(w, id, s);
  }

  /** The queue of `w` moved on from that of `w0`. */
  ghost predicate Advanced(w0: World, w: World, id: Id) {
    && NoGrow(w0, w, id) && ExitDue(w, id)
    && (|| PreviewCount(w) < PreviewCount(w0)
        || (PreviewCount(w) == PreviewCount(w0) && |St(w, id).jobs| < |St(w0, id).jobs|))
  }

  /** Entering and leaving the drain loop touches nothing else. */
  lemma SetDraining(w: World, id: Id, d: bool, bad: set<Id>)
    requires Core(w) && Rest(w, id, bad) && Ready(w, id) && Kept(w, id)
    ensures var w1 := Put(w, id, St(w, id).(draining := d));
            && Core(w1) && Rest(w1, id, bad) && Ready(w1, id) && Kept(w1, id) && OnlyAt(w, w1, id)
            && (ExitDue(w, id) ==> ExitDue(w1, id))
            && PreviewCount(w1) == PreviewCount(w) && Misaligned(w1, id) == Misaligned(w, id)
            && NoGrow(w, w1, id) && St(w1, id) == St(w, id).(draining := d)
  {
    PlainKeeps(w, Put(w, id, St(w, id).(draining := d)), id, bad);
  }

  lemma DrainingUndone(w: World, id: Id)
    requires St(w, id).jobActive && !St(w, id).draining
    ensures var w1 := Put(w, id, St(w, id).(draining := true)); Put(w1, id, St(w1, id).(draining := false)) == w
  {
    var w1 := Put(w, id, St(w, id).(draining := true));
    assert id in w.states && w1.states[id := w.states[id]] == w.states;
  }

  lemma NoGrowTrans(w: World, w1: World, w2: World, id: Id)
    requires NoGrow(w, w1, id) && NoGrow(w1, w2, id)
    ensures NoGrow(w, w2, id)
  {
    OnwardTrans(w, w1, w2, id);
  }

  /** A job in flight, with its bookkeeping in order, is settled. */
  lemma SettledBusy(w: World, w': World, id: Id, bad: set<Id>)
    requires Core(w') && Rest(w', id, bad) && Ready(w', id) && Kept(w', id) && ExitDue(w', id)
    requires QueueOk(w', id) && !Quiet(St(w', id))
    requires NoGrow(w, w', id) && OnlyAt(w, w', id) && St(w', id).draining == St(w, id).draining
    ensures Settled(w, w', id, bad)
  {
  }

  lemma BegunNoGrow(w: World, id: Id)
    requires !St(w, id).jobActive && St(w, id).jobs != []
    ensures var w1 := DoBegin(w, id); Lessens(w, w1, id) && OnlyAt(w, w1, id) && PreviewCount(w1) == PreviewCount(w)
    ensures St(w, id).jobs[0].kind != Restart ==> NoGrow(w, DoBegin(w, id), id)
  {
    var w1 := DoBegin(w, id);
    assert w1.trace == w.trace + [Begun(id, St(w, id).jobs[0].serial)];
    assert w1.preview == w.preview && w1.disk == w.disk && w1.nextToken == w.nextToken;
    assert St(w1, id) == St(w, id).(jobs := St(w, id).jobs[1..], jobActive := true);
    if St(w, id).jobs[0].kind != Restart && HasRestart(St(w, id).jobs) {
      RestartSurvives(St(w, id).jobs);
    }
  }

  lemma BegunKept(w: World, id: Id)
    requires St(w, id).jobs != [] && St(w, id).jobs[0].kind != Restart && Kept(w, id)
    ensures Kept(DoBegin(w, id), id)
  {
    var w1 := DoBegin(w, id);
    assert w1.preview == w.preview && w1.disk == w.disk && w1.changed == w.changed;
    assert St(w1, id) == St(w, id).(jobs := St(w, id).jobs[1..], jobActive := true);
    if HasRestart(St(w, id).jobs) {
      RestartSurvives(St(w, id).jobs);
    }
  }

  lemma AfterBegin(w: World, id: Id, bad: set<Id>)
    requires Core(w) && Rest(w, id, bad)
    requires !St(w, id).jobActive && St(w, id).jobs != []
    requires ExitDue(w, id) && PendRec(w, id) && Kept(w, id)
    ensures var w1, job := DoBegin(w, id), St(w, id).jobs[0];
            && Core(w1) && Rest(w1, id, bad) && InHand(w1, id, job.serial) && job.serial !in Mon(w1).told
            && ExitDue(w1, id) && PendRec(w1, id) && (job.kind != Restart ==> Kept(w1, id) && NoGrow(w, w1, id))
            && Lessens(w, w1, id) && w1.nextPid == w.nextPid && OnlyAt(w, w1, id) && PreviewCount(w1) == PreviewCount(w)
            && St(w1, id) == St(w, id).(jobs := St(w, id).jobs[1..], jobActive := true)
            && (St(w1, id).pendingStop.Some? ==> St(w1, id).pendingStop.value == [])
            && job.serial !in w1.released
  {
    assert IdOk(w, id);
    BeginKeeps(w, id, bad);
    BegunNoGrow(w, id);
    var w1 := DoBegin(w, id);
    assert w1.exiting == w.exiting && w1.live == w.live && w1.released == w.released;
    if St(w, id).jobs[0].kind != Restart {
      BegunKept(w, id);
    }
    assert IdOk(w1, id);
  }

  /** The job in hand leaves for outside work. */
  lemma AfterLeave(w: World, id: Id, s: Serial, bad: set<Id>)
    requires Core(w) && Rest(w, id, bad) && InHand(w, id, s) && s !in Mon(w).told
    requires ExitDue(w, id) && PendRec(w, id) && Kept(w, id)
    requires St(w, id).pendingStop.Some? ==> St(w, id).pendingStop.value == []
    ensures Settled(w, w.(working := w.working[s := id]), id, bad)
  {
    assert IdOk(w, id);
    PlainKeeps(w, w.(working := w.working[s := id]), id, bad);
  }

  lemma AfterStop(w: World, id: Id, bad: set<Id>)
    requires Core(w) && Rest(w, id, bad) && St(w, id).runtime.Some?
    ensures var w1, p := DoStop(w, id), St(w, id).runtime.value;
            && Core(w1) && Rest(w1, id, bad) && Mon(w1) == Mon(w)
            && NoGrow(w, w1, id) && OnlyAt(w, w1, id) && PreviewCount(w1) == PreviewCount(w) && Misaligned(w1, id) == 0
            && St(w, id).record.Some?
            && St(w1, id) == St(w, id).(runtime := None, record := None, pendingStop := Some([]))
            && p in w1.live && w1.live[p] == Proc(id, St(w, id).record.value) && p !in w1.aborted
  {
    assert IdOk(w, id);
    StopKeeps(w, id, bad);
  }

  /** A stop that no job waits for. */
  lemma AfterLoneStop(w: World, id: Id)
    requires Core(w) && St(w, id).runtime.Some? && St(w, id).record.Some? && St(w, id).record.value.Installed?
    requires !St(w, id).jobActive && QueueOk(w, id) && (PreviewFor(w, id) ==> HasRestart(St(w, id).jobs))
    ensures Accepts(DoStop(w, id).trace) && Weak(DoStop(w, id), id) && Kept(DoStop(w, id), id)
  {
    assert IdOk(w, id);
  }

  /** A stop that the job in hand waits for. */
  lemma AfterJoin(w: World, id: Id, cb: Callback, bad: set<Id>)
    requires Core(w) && Rest(w, id, bad) && St(w, id).pendingStop == Some([]) && id in w.exiting
    requires InHand(w, id, cb.serial) && cb.serial !in Mon(w).told
    ensures var w1 := DoJoin(w, id, cb);
            && Settled(w, w1, id, bad) && PreviewCount(w1) == PreviewCount(w)
            && St(w1, id) == St(w, id).(pendingStop := Some([cb])) && Waits(w1, id)
            && Misaligned(w1, id) == 0
  {
    assert IdOk(w, id);
    JoinKeeps(w, id, cb, bad);
    var w1 := DoJoin(w, id, cb);
    assert IdOk(w1, id);
    assert [] + [cb] == [cb];
    assert Weak(w1, id) && Strong(w1, id) && NoGrow(w, w1, id);
  }

  /** Nothing to wait for: the callback of the job in hand may run at once. */
  lemma AfterAwait(w: World, id: Id, cb: Callback, bad: set<Id>)
    requires Core(w) && Rest(w, id, bad) && St(w, id).pendingStop.None?
    requires InHand(w, id, cb.serial) && cb.serial !in Mon(w).told
    requires St(w, id).record.Some? ==> St(w, id).record.value.Preview? && RecOk(w, id)
    ensures var w1 := Log(w, Awaited(id, cb.serial));
            && Core(w1) && Rest(w1, id, bad) && Kept(w1, id)
            && Holds(Mon(w1), id, cb.serial) && cb.serial in Mon(w1).awaiting && DirectoryFree(Mon(w1), id)
            && NoGrow(w, w1, id) && OnlyAt(w, w1, id) && PreviewCount(w1) == PreviewCount(w)
            && Misaligned(w1, id) == Misaligned(w, id)
  {
    assert IdOk(w, id);
    AwaitKeeps(w, id, cb.serial, bad);
    NoProcessFree(Log(w, Awaited(id, cb.serial)), id);
  }

  /** A stop in flight is no state to align. */
  lemma StillStopping(w: World, id: Id, bad: set<Id>)
    requires Core(w) && Rest(w, id, bad) && Weak(w, id) && Kept(w, id) && St(w, id).pendingStop.Some?
    ensures Settled(w, w, id, bad)
    ensures St(w, id).pendingStop.value != [] ==> Waits(w, id)
  {
    assert IdOk(w, id);
  }

  /** The stop in flight asks its process to end. */
  lemma AfterAsk(w: World, id: Id, pid: Pid, bad: set<Id>)
    requires Core(w) && Rest(w, id, bad) && Weak(w, id) && Kept(w, id)
    requires St(w, id).pendingStop.Some? && St(w, id).runtime.None?
    requires pid in w.live && w.live[pid].id == id
    ensures var w1 := DoAsk(w, pid);
            && Settled(w, w1, id, bad) && OnlyAt(w, w1, id) && Kept(w1, id)
            && PreviewCount(w1) == PreviewCount(w) && Misaligned(w1, id) == Misaligned(w, id)
    ensures St(w, id).pendingStop.value != [] ==> Waits(DoAsk(w, pid), id)
  {
    var w1 := DoAsk(w, pid);
    AskKeeps(w, id, pid, bad);
    StillStopping(w1, id, bad);
  }

  lemma AfterTold(w: World, id: Id, s: Serial, bad: set<Id>)
    requires Core(w) && Rest(w, id, bad) && Kept(w, id) && St(w, id).pendingStop.None?
    requires Holds(Mon(w), id, s) && s in Mon(w).awaiting && s !in w.working && DirectoryFree(Mon(w), id)
    ensures var w1 := DoTold(w, id, s);
            && Core(w1) && Rest(w1, id, bad) && Kept(w1, id) && InHand(w1, id, s) && s in Mon(w1).told
            && DirectoryFree(Mon(w1), id) && ExitDue(w1, id) && PendRec(w1, id) && s !in w1.released
            && NoGrow(w, w1, id) && OnlyAt(w, w1, id) && PreviewCount(w1) == PreviewCount(w)
            && Misaligned(w1, id) == Misaligned(w, id)
  {
    assert IdOk(w, id);
    ToldKeeps(w, id, s, bad);
  }

  lemma TouchedOnward(w: World, id: Id, s: Serial, entry: DiskEntry)
    requires entry.error ==> Disk(w, id).error
    ensures Onward(w, DoTouch(w, id, s, entry), id)
  {
    var w1 := DoTouch(w, id, s, entry);
    assert w1.trace[|w.trace|] == Touched(id, s);
    assert w1.disk - {id} == w.disk - {id};
  }

  lemma AfterTouch(w: World, id: Id, s: Serial, entry: DiskEntry, bad: set<Id>)
    requires Core(w) && Rest(w, id, bad) && Kept(w, id) && InHand(w, id, s) && s in Mon(w).told
    requires DirectoryFree(Mon(w), id) && ExitDue(w, id) && PendRec(w, id) && St(w, id).pendingStop.None?
    requires entry.error ==> Disk(w, id).error
    ensures var w1 := DoTouch(w, id, s, entry);
            && Core(w1) && Rest(w1, id, bad) && Kept(w1, id) && InHand(w1, id, s)
            && ExitDue(w1, id) && PendRec(w1, id) && s !in w1.released
            && NoGrow(w, w1, id) && OnlyAt(w, w1, id) && PreviewCount(w1) == PreviewCount(w)
            && Misaligned(w1, id) <= Misaligned(w, id)
  {
    assert IdOk(w, id);
    TouchKeeps(w, id, s, entry, bad);
    TouchedOnward(w, id, s, entry);
  }

  /** Clearing the error of an installed copy, while nothing of it runs. */
  lemma AfterDisk(w: World, id: Id, entry: DiskEntry, bad: set<Id>)
    requires Core(w) && Rest(w, id, bad) && Kept(w, id)
    requires entry == Disk(w, id).(error := false)
    requires St(w, id).runtime.None? && St(w, id).record.None?
    ensures var w1 := w.(disk := w.disk[id := entry]);
            && Core(w1) && Rest(w1, id, bad) && Kept(w1, id) && Mon(w1) == Mon(w)
            && (Weak(w, id) ==> Weak(w1, id)) && (Books(w, id) ==> Books(w1, id))
            && Resolve(w1, id) == Resolve(w, id)
            && NoGrow(w, w1, id) && OnlyAt(w, w1, id) && PreviewCount(w1) == PreviewCount(w) && Misaligned(w1, id) == 0
  {
    PlainKeeps(w, w.(disk := w.disk[id := entry]), id, bad);
    assert w.disk[id := entry] - {id} == w.disk - {id};
  }

  /** A fresh look at the record of an id that runs nothing. */
  lemma AfterLook(w: World, id: Id, bad: set<Id>)
    requires Core(w) && Rest(w, id, bad) && Weak(w, id)
    ensures var w1 := w.(changed := w.changed - {id});
            && Core(w1) && Rest(w1, id, bad) && Weak(w1, id) && (PendOk(w, id) ==> PendOk(w1, id)) && Mon(w1) == Mon(w)
            && (St(w, id).record.None? ==> RecOk(w1, id))
            && NoGrow(w, w1, id) && OnlyAt(w, w1, id) && PreviewCount(w1) == PreviewCount(w)
            && Misaligned(w1, id) == Misaligned(w, id)
  {
    PlainKeeps(w, w.(changed := w.changed - {id}), id, bad);
  }

  lemma SpawnedWorld(w: World, w1: World, id: Id, r: Record)
    requires w1 == w.(states := w.states[id := St(w, id).(runtime := Some(w.nextPid), record := Some(r))],
                      live := w.live[w.nextPid := Proc(id, r)], nextPid := w.nextPid + 1,
                      trace := w.trace + [Spawned(w.nextPid, Proc(id, r))], changed := w.changed - {id})
    ensures w1 == DoSpawn(w, id, r)
  {
  }

  lemma SpawnedWeak(w: World, id: Id, r: Record)
    requires Accepts(w.trace) && IdOk(w, id) && Weak(w, id)
    requires St(w, id).runtime.None? && St(w, id).pendingStop.None? && !St(w, id).jobActive
    requires Accepts(DoSpawn(w, id, r).trace) && Mon(DoSpawn(w, id, r)).held == Mon(w).held
    ensures Weak(DoSpawn(w, id, r), id)
  {
    var w1 := DoSpawn(w, id, r);
    assert St(w1, id) == St(w, id).(runtime := Some(w.nextPid), record := Some(r)) && w1.exiting == w.exiting;
    assert id !in Mon(w1).held;
  }

  lemma SpawnedStrong(w: World, id: Id, r: Record)
    requires Desired(w, id) == Some(r) && St(w, id).pendingStop.None?
    ensures Strong(DoSpawn(w, id, r), id)
  {
    var w1 := DoSpawn(w, id, r);
    assert w1.preview == w.preview && w1.disk == w.disk;
    assert Desired(w1, id) == Some(r) && Resolve(w1, id) == Some(r) && St(w1, id).record == Some(r);
  }

  lemma SpawnedNoGrow(w: World, id: Id, r: Record)
    requires Desired(w, id) == Some(r)
    ensures NoGrow(w, DoSpawn(w, id, r), id)
  {
    var w1 := DoSpawn(w, id, r);
    assert w1.trace == w.trace + [Spawned(w.nextPid, Proc(id, r))];
    assert w1.preview == w.preview && w1.disk == w.disk && w1.nextToken == w.nextToken;
    assert St(w1, id).jobs == St(w, id).jobs && St(w1, id).jobActive == St(w, id).jobActive;
    assert Desired(w1, id) == Some(r) == St(w1, id).record;
  }

  lemma SpawnSettles(w: World, id: Id, r: Record)
    requires Accepts(w.trace) && IdOk(w, id) && Weak(w, id) && Desired(w, id) == Some(r)
    requires St(w, id).runtime.None? && St(w, id).pendingStop.None? && !St(w, id).jobActive
    requires Accepts(DoSpawn(w, id, r).trace) && Mon(DoSpawn(w, id, r)).held == Mon(w).held
    ensures var w1 := DoSpawn(w, id, r); Weak(w1, id) && Strong(w1, id) && NoGrow(w, w1, id)
  {
    SpawnedWeak(w, id, r);
    SpawnedStrong(w, id, r);
    SpawnedNoGrow(w, id, r);
  }

  lemma AfterSpawn(w: World, id: Id, r: Record, bad: set<Id>)
    requires Core(w) && Rest(w, id, bad) && Weak(w, id) && Desired(w, id) == Some(r)
    requires St(w, id).runtime.None? && St(w, id).pendingStop.None? && !St(w, id).jobActive
    ensures Settled(w, DoSpawn(w, id, r), id, bad)
  {
    SpawnKeeps(w, id, r, bad);
    assert IdOk(w, id);
    SpawnSettles(w, id, r);
  }

  lemma AfterExit(w: World, id: Id, p: Pid, cause: Cause, bad: set<Id>)
    requires Core(w) && Rest(w, id, bad) && Weak(w, id) && Kept(w, id) && p in w.live && w.live[p].id == id
    requires cause.Stopped? <==> p in w.aborted
    ensures var w1 := DoExit(w, p, cause);
            && Core(w1) && Rest(w1, id, bad) && Books(w1, id) && Kept(w1, id)
            && id !in w1.exiting
            && NoGrow(w, w1, id) && OnlyAt(w, w1, id) && PreviewCount(w1) == PreviewCount(w) && Misaligned(w1, id) == 0
            && St(w1, id) == St(w, id).(runtime := None, record := None)
    ensures St(w, id).runtime.Some? ==> St(w, id).record == Some(w.live[p].record) && St(w, id).pendingStop.None?
    ensures St(w, id).runtime.None? ==> id in w.exiting && w.exiting[id] == p && St(w, id).pendingStop.Some?
    ensures p in w.aborted ==> St(w, id).runtime.None?
  {
    assert IdOk(w, id) && PidOk(w, p);
    ExitKeeps(w, p, cause, bad);
  }

  lemma AfterEnqueue(w: World, id: Id, kind: JobKind, bad: set<Id>)
    requires Core(w) && Rest(w, id, bad) && Ready(w, id) && (kind == Restart || Kept(w, id))
    ensures var w1 := DoEnqueue(w, id, kind);
            && Core(w1) && Rest(w1, id, bad) && Ready(w1, id) && Kept(w1, id)
            && (ExitDue(w, id) ==> ExitDue(w1, id)) && OnlyAt(w, w1, id) && PreviewCount(w1) == PreviewCount(w)
            && St(w1, id) == St(w, id).(jobs := St(w, id).jobs + [Job(w.nextSerial, kind)])
  {
    assert IdOk(w, id);
    EnqueueKeeps(w, id, kind, bad);
    RestartQueued(St(w, id).jobs, Job(w.nextSerial, kind));
  }

  lemma EnqueuedOnward(w: World, w2: World, id: Id, kind: JobKind)
    requires Onward(DoEnqueue(w, id, kind), w2, id)
    ensures Onward(w, w2, id)
  {
    var w1 := DoEnqueue(w, id, kind);
    assert w1.trace == w.trace + [Enqueued(id, w.nextSerial, kind)];
    assert w1.preview == w.preview && w1.disk == w.disk && w1.nextToken == w.nextToken;
    OnwardTrans(w, w1, w2, id);
  }

  /** What runs is new, or its restart is queued. */
  predicate RestartDue(w: World, w': World, id: Id) {
    w.nextPid <= w'.nextPid && (Renewed(w, w', id) || HasRestart(St(w', id).jobs))
  }

  lemma EnqueuedRestart(w: World, w2: World, id: Id)
    requires Renews(DoEnqueue(w, id, Restart), w2, id)
    ensures RestartDue(w, w2, id)
  {
    var w1 := DoEnqueue(w, id, Restart);
    assert St(w1, id).jobs == St(w, id).jobs + [Job(w.nextSerial, Restart)] && w1.nextPid == w.nextPid;
    RestartQueued(St(w, id).jobs, Job(w.nextSerial, Restart));
  }

  lemma AfterUnpreview(w: World, bad: set<Id>)
    requires w.preview.Some?
    requires var id := w.preview.value.id; Core(w) && Rest(w, id, bad) && Ready(w, id) && QueueOk(w, id)
    ensures var id, w1 := w.preview.value.id, w.(preview := None);
            && Core(w1) && Rest(w1, id, bad) && Ready(w1, id) && QueueOk(w1, id) && Mon(w1) == Mon(w)
            && (ExitDue(w, id) ==> ExitDue(w1, id)) && OnlyAt(w, w1, id)
            && PreviewCount(w1) < PreviewCount(w)
  {
    var id, w1 := w.preview.value.id, w.(preview := None);
    PlainKeeps(w, w1, id, bad);
  }

  /** A preview given up for a failure. */
  lemma UnpreviewSettles(w: World, w0: World, w1: World, w2: World, id: Id, bad: set<Id>)
    requires PreviewFor(w, id) && w0 == DoBlame(w, id).(preview := None) && w1 == DoEnqueue(w0, id, Restart)
    requires Settled(w1, w2, id, bad)
    ensures Settled(w, w2, id, bad) && w2.preview.None?
  {
    assert St(w1, id) == St(w, id).(jobs := St(w, id).jobs + [Job(w.nextSerial, Restart)]);
    assert forall k :: k != id ==> St(w1, k) == St(w, k);
    UnpreviewOnward(w, w0, w1, id);
    OnwardTrans(w, w1, w2, id);
    RestartQueued(St(w, id).jobs, Job(w.nextSerial, Restart));
    assert PreviewCount(w2) < PreviewCount(w) && w1.nextPid == w.nextPid;
  }

  lemma UnpreviewOnward(w: World, w0: World, w1: World, id: Id)
    requires w0 == DoBlame(w, id).(preview := None) && w1 == DoEnqueue(w0, id, Restart)
    ensures Onward(w, w1, id) && w1.changed == w.changed
  {
    assert w1.trace[|w.trace|] == Blamed(id);
    assert w.trace <= w1.trace && w1.disk == w.disk && w1.changed == w.changed;
  }

  /** The error of `rec` was recorded, or the preview it came from was given up, for an id that runs nothing. */
  ghost predicate Saved(w: World, w': World, id: Id, rec: Record)
    requires Accepts(w.trace) && Accepts(w'.trace)
  {
    && St(w', id).runtime.None? && St(w', id).record.None? && id !in w'.exiting
    && St(w', id).pendingStop == St(w, id).pendingStop && St(w', id).jobActive == St(w, id).jobActive
    && St(w', id).draining == St(w, id).draining
    && Books(w', id) && Kept(w', id)
    && (St(w', id).jobs == St(w, id).jobs ==>
          && w'.preview == w.preview && w'.changed == w.changed && Disk(w', id).version == Disk(w, id).version
          && (rec.Installed? ==> Disk(w', id).error)
          && (rec.Preview? ==> w.preview != Some(PreviewRecord(id, rec.token))))
    && (St(w', id).jobs != St(w, id).jobs ==> St(w', id).jobs != [] && (St(w', id).jobActive || St(w', id).draining))
  }

  lemma AfterSame(w: World, id: Id, bad: set<Id>)
    requires Core(w) && Rest(w, id, bad)
    ensures var w1 := Put(w, id, St(w, id));
            && Core(w1) && Rest(w1, id, bad) && Mon(w1) == Mon(w) && St(w1, id) == St(w, id)
            && (Weak(w, id) ==> Weak(w1, id)) && (Kept(w, id) ==> Kept(w1, id))
            && NoGrow(w, w1, id) && OnlyAt(w, w1, id) && Desired(w1, id) == Desired(w, id)
  {
    PlainKeeps(w, Put(w, id, St(w, id)), id, bad);
  }

  /** Taking the callbacks out: one that was waiting may now run. */
  lemma AfterDrain(w: World, id: Id, bad: set<Id>)
    requires Core(w) && Rest(w, id, bad)
    requires St(w, id).pendingStop.None? || (Books(w, id) && Kept(w, id) && St(w, id).record.None? && id !in w.exiting)
    ensures var w1 := DoDrain(w, id);
            && Core(w1) && Rest(w1, id, bad) && Mon(w1) == Mon(w)
            && St(w1, id) == St(w, id).(pendingStop := None)
            && NoGrow(w, w1, id) && OnlyAt(w, w1, id) && Desired(w1, id) == Desired(w, id)
            && (Kept(w, id) ==> Kept(w1, id))
            && PreviewCount(w1) == PreviewCount(w) && Misaligned(w1, id) == Misaligned(w, id)
    ensures St(w, id).pendingStop == Some([]) ==> Weak(DoDrain(w, id), id)
    ensures St(w, id).pendingStop.None? ==>
              (Weak(w, id) ==> Weak(DoDrain(w, id), id)) && (Strong(w, id) ==> Strong(DoDrain(w, id), id))
    ensures St(w, id).pendingStop.Some? && St(w, id).pendingStop.value != [] ==>
              var m, s := Mon(w), St(w, id).pendingStop.value[0].serial;
              && |St(w, id).pendingStop.value| == 1
              && Holds(m, id, s) && s in m.awaiting && s !in w.working && DirectoryFree(m, id)
  {
    assert IdOk(w, id);
    if St(w, id).pendingStop.None? {
      AfterSame(w, id, bad);
      assert DoDrain(w, id) == Put(w, id, St(w, id));
    } else {
      DrainKeeps(w, id, bad);
      NoProcessFree(w, id);
    }
  }

  /** The callbacks of a finished stop were taken out: nothing else changed, and one may run now. */
  ghost predicate Drained(w: World, w1: World, id: Id, callbacks: seq<Callback>)
    requires Accepts(w.trace) && Accepts(w1.trace)
  {
    var s, m := St(w, id), Mon(w1);
    && m == Mon(w) && St(w1, id) == s.(pendingStop := None)
    && NoGrow(w, w1, id) && OnlyAt(w, w1, id)
    && (Kept(w, id) ==> Kept(w1, id))
    && PreviewCount(w1) == PreviewCount(w) && Misaligned(w1, id) == Misaligned(w, id)
    && (s.pendingStop == Some([]) ==> Weak(w1, id))
    && (s.pendingStop.None? ==> (Weak(w, id) ==> Weak(w1, id)) && (Strong(w, id) ==> Strong(w1, id)))
    && (callbacks != [] ==>
          && |callbacks| == 1 && Holds(m, id, callbacks[0].serial)
          && callbacks[0].serial in m.awaiting && callbacks[0].serial !in w1.working && DirectoryFree(m, id))
  }

  /** What an exit handler may be told: a live process and its cause, or a failed start. */
  ghost predicate ExitCase(w: World, id: Id, rec: Record, pid: Option<Pid>, cause: Cause) {
    && (pid.Some? ==>
          && pid.value in w.live && w.live[pid.value] == Proc(id, rec)
          && (cause.Stopped? <==> pid.value in w.aborted))
    && (pid.None? ==>
          && cause.Crashed? && Desired(w, id) == Some(rec)
          && St(w, id).runtime.None? && St(w, id).pendingStop.None? && !St(w, id).jobActive)
  }

  ghost function AfterGone(w: World, id: Id, pid: Option<Pid>, cause: Cause): World
    requires pid.Some? ==> pid.value in w.live
  {
    if pid.Some? then DoExit(w, pid.value, cause) else DoFail(w, id)
  }

  /** What an id with no restart queued ran, or could not start, is what it resolves to: the preview
      if there is one, the installed copy otherwise. */
  lemma WhatRan(w: World, id: Id, rec: Record, pid: Option<Pid>, bad: set<Id>)
    requires Core(w) && Rest(w, id, bad) && Weak(w, id) && Kept(w, id) && ExitCase(w, id, rec, pid, Crashed)
    requires !HasRestart(St(w, id).jobs) && id !in w.changed
    requires St(w, id).pendingStop.None? || St(w, id).pendingStop == Some([])
    ensures rec.Installed? ==> !PreviewFor(w, id)
    ensures rec.Preview? ==> w.preview == Some(PreviewRecord(id, rec.token))
  {
    assert IdOk(w, id);
    if pid.Some? {
      AfterExit(w, id, pid.value, Crashed, bad);
    }
  }

  lemma NothingDesired(w1: World, w2: World, id: Id, rec: Record)
    requires Accepts(w1.trace) && Accepts(w2.trace) && Saved(w1, w2, id, rec) && St(w2, id).jobs == St(w1, id).jobs
    requires rec.Installed? ==> !PreviewFor(w1, id)
    requires rec.Preview? ==> w1.preview == Some(PreviewRecord(id, rec.token))
    ensures Desired(w2, id).None?
  {
  }

  /** After an error nobody waited for, nothing should run: the id is aligned. */
  lemma ExitAligned(w: World, w1: World, w2: World, id: Id, rec: Record, pid: Option<Pid>, bad: set<Id>)
    requires Core(w) && Rest(w, id, bad) && Weak(w, id) && Kept(w, id) && ExitCase(w, id, rec, pid, Crashed)
    requires w1 == AfterGone(w, id, pid, Crashed) && Core(w1)
    requires Core(w2) && Rest(w2, id, bad) && Saved(w1, w2, id, rec)
    requires St(w2, id).pendingStop.None? || St(w2, id).pendingStop == Some([])
    ensures Strong(DoDrain(w2, id), id)
  {
    GoneFacts(w, id, rec, pid, Crashed, bad);
    AfterDrain(w2, id, bad);
    var w3 := DoDrain(w2, id);
    assert w3.preview == w2.preview && w3.disk == w2.disk && w3.changed == w2.changed;
    assert w1.preview == w.preview && w1.disk == w.disk && w1.changed == w.changed;
    if Quiet(St(w3, id)) && id !in w3.changed {
      assert St(w2, id).jobs == St(w1, id).jobs == [];
      WhatRan(w, id, rec, pid, bad);
      NothingDesired(w1, w2, id, rec);
    }
  }

  /** What is known once the process is gone. */
  ghost predicate Gone(w: World, w1: World, id: Id, rec: Record, pid: Option<Pid>, cause: Cause, bad: set<Id>) {
    && Core(w1) && Rest(w1, id, bad) && Books(w1, id) && Kept(w1, id)
    && id !in w1.exiting && St(w1, id) == St(w, id).(runtime := None, record := None)
    && NoGrow(w, w1, id) && OnlyAt(w, w1, id) && Misaligned(w1, id) == 0
    && PreviewCount(w1) == PreviewCount(w)
    && (St(w1, id).pendingStop == Some([]) ==> rec.Installed?)
    && (pid.None? ==> St(w1, id).pendingStop.None? && St(w, id).record.None?)
    && (St(w1, id).pendingStop.Some? && St(w1, id).pendingStop.value != [] ==> St(w1, id).jobActive)
    && (cause.Stopped? ==> St(w, id).runtime.None? && St(w, id).record.None? && St(w, id).pendingStop.Some?)
  }

  lemma GoneByExit(w: World, id: Id, rec: Record, pid: Pid, cause: Cause, bad: set<Id>)
    requires Core(w) && Rest(w, id, bad) && Weak(w, id) && Kept(w, id) && ExitCase(w, id, rec, Some(pid), cause)
    ensures Gone(w, DoExit(w, pid, cause), id, rec, Some(pid), cause, bad)
  {
    assert IdOk(w, id);
    AfterExit(w, id, pid, cause, bad);
  }

  lemma FailedNoGrow(w: World, id: Id)
    ensures var w1 := DoFail(w, id);
            NoGrow(w, w1, id) && OnlyAt(w, w1, id) && PreviewCount(w1) == PreviewCount(w) && Misaligned(w1, id) == Misaligned(w, id)
  {
    var w1 := DoFail(w, id);
    assert w1.preview == w.preview && w1.disk == w.disk && w1.changed == w.changed && w1.nextToken == w.nextToken;
    assert w1.nextPid == w.nextPid && St(w1, id) == St(w, id) && w1.trace == w.trace + [Failed(id)];
  }

  lemma FailedBooks(w: World, id: Id)
    requires Accepts(w.trace) && Weak(w, id) && Kept(w, id)
    requires Accepts(DoFail(w, id).trace) && Mon(DoFail(w, id)) == Mon(w)
    ensures Books(DoFail(w, id), id) && Kept(DoFail(w, id), id)
  {
    var w1 := DoFail(w, id);
    assert w1.preview == w.preview && w1.disk == w.disk && w1.changed == w.changed && w1.working == w.working;
    assert w1.exiting == w.exiting && w1.live == w.live && St(w1, id) == St(w, id);
  }

  lemma GoneByFailure(w: World, id: Id, rec: Record, bad: set<Id>)
    requires Core(w) && Rest(w, id, bad) && Weak(w, id) && Kept(w, id) && ExitCase(w, id, rec, None, Crashed)
    ensures Gone(w, DoFail(w, id), id, rec, None, Crashed, bad)
  {
    assert IdOk(w, id);
    FailKeeps(w, id, bad);
    FailedNoGrow(w, id);
    FailedBooks(w, id);
    assert DoFail(w, id).exiting == w.exiting && St(DoFail(w, id), id) == St(w, id);
  }

  lemma GoneFacts(w: World, id: Id, rec: Record, pid: Option<Pid>, cause: Cause, bad: set<Id>)
    requires Core(w) && Rest(w, id, bad) && Weak(w, id) && Kept(w, id) && ExitCase(w, id, rec, pid, cause)
    ensures Gone(w, AfterGone(w, id, pid, cause), id, rec, pid, cause, bad)
  {
    if pid.Some? {
      GoneByExit(w, id, rec, pid.value, cause, bad);
    } else {
      GoneByFailure(w, id, rec, bad);
    }
  }

  /** What an error leaves when nobody waited for the process. */
  ghost predicate Recorded(w1: World, w2: World, id: Id, rec: Record, bad: set<Id>)
    requires Accepts(w1.trace) && Accepts(w2.trace)
  {
    || Saved(w1, w2, id, rec)
    || (!St(w1, id).jobActive && Settled(w1, w2, id, bad) && St(w2, id).pendingStop.None?)
  }

  lemma AfterCrash(w: World, w2: World, id: Id, rec: Record, pid: Option<Pid>, bad: set<Id>)
    requires Core(w) && Rest(w, id, bad) && Weak(w, id) && Kept(w, id) && ExitCase(w, id, rec, pid, Crashed)
    requires var w1 := AfterGone(w, id, pid, Crashed);
             && Accepts(w1.trace) && Core(w2) && Rest(w2, id, bad) && NoGrow(w1, w2, id) && OnlyAt(w1, w2, id)
             && Recorded(w1, w2, id, rec, bad)
    requires St(w2, id).pendingStop.None? || St(w2, id).pendingStop == Some([])
    ensures Settled(w, DoDrain(w2, id), id, bad)
  {
    var w1, w3 := AfterGone(w, id, pid, Crashed), DoDrain(w2, id);
    GoneFacts(w, id, rec, pid, Crashed, bad);
    AfterDrain(w2, id, bad);
    NoGrowTrans(w, w1, w2, id);
    NoGrowTrans(w, w2, w3, id);
    if Saved(w1, w2, id, rec) {
      ExitAligned(w, w1, w2, id, rec, pid, bad);
    }
  }

  lemma GoodAt(w: World, id: Id)
    requires AllGood(w)
    ensures Core(w) && Rest(w, id, {}) && IdOk(w, id) && Weak(w, id) && Strong(w, id) && !St(w, id).draining
  {
    assert Fine(w, id, {}) && IdOk(w, id);
    forall k | k != id ensures Fine(w, k, {}) {
      assert Fine(w, k, {});
    }
  }

  lemma GoodAfter(w: World, w1: World, w2: World, id: Id)
    requires AllGood(w) && OnlyAt(w, w1, id) && St(w1, id).draining == St(w, id).draining
    requires Settled(w1, w2, id, {})
    ensures AllGood(w2)
  {
    AllCalm(w);
    CalmKept(w, w1, w2, id, {});
    GoodFrom(w2, id);
  }

  /** Settled work on one id, seen from outside. */
  lemma GoodSettled(w: World, w2: World, id: Id)
    requires AllGood(w) && Settled(w, w2, id, {})
    ensures AllGood(w2) && OnlyAt(w, w2, id) && Accounted(w, w2)
  {
    GoodAfter(w, w, w2, id);
    OnwardAccounts(w, w2, id);
  }

  /** No drain loop is on the stack. */
  predicate Calm(w: World) {
    forall k :: k in w.states ==> !w.states[k].draining
  }

  lemma AllCalm(w: World)
    requires AllGood(w)
    ensures Calm(w)
  {
    forall k | k in w.states ensures !w.states[k].draining {
      GoodAt(w, k);
    }
  }

  lemma CalmKept(w: World, w1: World, w2: World, id: Id, bad: set<Id>)
    requires Calm(w) && OnlyAt(w, w1, id) && St(w1, id).draining == St(w, id).draining && Settled(w1, w2, id, bad)
    ensures Calm(w2)
  {
    forall k | k in w2.states ensures !w2.states[k].draining {
      assert k != id ==> St(w2, k) == St(w1, k) == St(w, k);
    }
  }

  lemma GoodFrom(w: World, id: Id)
    requires Core(w) && Rest(w, id, {}) && Weak(w, id) && Strong(w, id) && Calm(w)
    ensures AllGood(w)
  {
    forall k ensures Fine(w, k, {}) && !St(w, k).draining {
      assert k != id ==> Fine(w, k, {});
    }
  }

  /** Changing the flags of a state file, not the installed version. */
  lemma AfterFlags(w: World, id: Id, entry: DiskEntry)
    requires AllGood(w) && entry.version == Disk(w, id).version
    ensures var w1 := w.(disk := w.disk[id := entry]);
            Core(w1) && Rest(w1, id, {}) && Weak(w1, id) && Kept(w1, id) && OnlyAt(w, w1, id)
  {
    GoodAt(w, id);
    PlainKeeps(w, w.(disk := w.disk[id := entry]), id, {});
  }

  /** A death nobody has noticed changes nothing the service knows. */
  lemma AfterDeath(w: World, pid: Pid)
    requires AllGood(w)
    ensures AllGood(w.(dead := w.dead + {pid}))
  {
    var w1 := w.(dead := w.dead + {pid});
    GoodAt(w, "");
    PlainKeeps(w, w1, "", {});
    AllCalm(w);
    GoodFrom(w1, "");
  }

  /** A change on disk the service has not been told about. */
  lemma AfterDiskChange(w: World, id: Id, entry: DiskEntry)
    requires AllGood(w)
    ensures AllGood(w.(disk := w.disk[id := entry], changed := w.changed + {id}))
  {
    GoodAt(w, id);
    var w1 := w.(disk := w.disk[id := entry], changed := w.changed + {id});
    PlainKeeps(w, w1, id, {});
    forall k ensures Fine(w1, k, {}) && !St(w1, k).draining {
      GoodAt(w, k);
      assert k != id ==> Fine(w1, k, {});
    }
  }

  /** Being told of a change: a restart will follow. */
  lemma AfterNotice(w: World, id: Id)
    requires AllGood(w)
    ensures var w1 := w.(changed := w.changed - {id});
            && Core(w1) && Rest(w1, id, {}) && Weak(w1, id) && OnlyAt(w, w1, id)
            && (St(w, id) == FRESH && Resolve(w, id).None? ==> Strong(w1, id))
  {
    GoodAt(w, id);
    PlainKeeps(w, w.(changed := w.changed - {id}), id, {});
  }

  ghost function NewPreview(w: World, id: Id): World {
    w.(preview := Some(PreviewRecord(id, w.nextToken)), nextToken := w.nextToken + 1)
  }

  /** A new preview leaves the bookkeeping of every id in order, and ids it does not concern as they were. */
  lemma AfterPreview(w: World, id: Id, k: Id)
    requires AllGood(w)
    ensures var w1 := NewPreview(w, id);
            && Accepts(w1.trace) && IdOk(w1, k) && Weak(w1, k) && (k != id && !PreviewFor(w, k) ==> Strong(w1, k))
  {
    var w1 := NewPreview(w, id);
    GoodAt(w, k);
    forall i | 0 <= i < |St(w, k).jobs| ensures Waiting(w1, k, St(w, k).jobs[i].serial) {
      assert Waiting(w, k, St(w, k).jobs[i].serial);
    }
  }

  /** The superseded preview first (or the new one, if there is no other), the new one afterwards. */
  lemma PreviewFirst(w: World, id: Id, first: Id, bad: set<Id>)
    requires AllGood(w)
    requires if w.preview.Some? && w.preview.value.id != id then first == w.preview.value.id && bad == {id}
             else first == id && bad == {}
    ensures var w1 := NewPreview(w, id); Core(w1) && Rest(w1, first, bad) && Weak(w1, first)
  {
    var w1 := NewPreview(w, id);
    forall p ensures PidOk(w1, p) {
      assert PidOk(w, p);
    }
    forall s ensures SerialOk(w1, s) {
      assert SerialOk(w, s);
    }
    forall k ensures IdOk(w1, k) && Weak(w1, k) && (k != first ==> Fine(w1, k, bad)) {
      AfterPreview(w, id, k);
    }
  }

  lemma PreviewSecond(w: World, other: Id, id: Id)
    requires Accepts(w.trace) && other != id
    requires Rest(w, other, {id}) && Weak(w, other) && Strong(w, other)
    ensures Rest(w, id, {}) && Weak(w, id)
  {
    forall k ensures Weak(w, k) && (k != id ==> Fine(w, k, {})) {
      assert k != other ==> Fine(w, k, {id});
    }
  }

  /** The job that was working outside is back. */
  lemma AfterReturn(w: World, id: Id, s: Serial)
    requires AllGood(w) && s in w.working && w.working[s] == id
    ensures var w1 := w.(working := w.working - {s});
            && Core(w1) && Rest(w1, id, {}) && Kept(w1, id) && ExitDue(w1, id) && PendRec(w1, id)
            && InHand(w1, id, s) && s !in Mon(w1).told && s !in w1.released
            && (St(w1, id).pendingStop.Some? ==> St(w1, id).pendingStop.value == [])
            && NoGrow(w, w1, id) && OnlyAt(w, w1, id)
  {
    GoodAt(w, id);
    assert SerialOk(w, s);
    PlainKeeps(w, w.(working := w.working - {s}), id, {});
  }

  lemma HolderWorks(w: World, s: Serial)
    requires AllGood(w) && s in w.working
    ensures !Waits(w, w.working[s])
  {
    GoodAt(w, w.working[s]);
    assert SerialOk(w, s);
  }

  /** A job working outside works for the id it holds. */
  lemma HolderIsOwner(w: World, id: Id)
    requires AllGood(w) && id in Mon(w).held && Mon(w).held[id] in w.working
    ensures w.working[Mon(w).held[id]] == id
  {
    var s := Mon(w).held[id];
    assert SerialOk(w, s) && IdOk(w, id) && IdOk(w, w.working[s]);
  }

  /** An id with something in flight but no outside work waits for its one process to end. */
  lemma OnlyProcessStops(w: World, id: Id)
    requires AllGood(w) && !Quiet(St(w, id))
    requires forall s :: s in w.working ==> w.working[s] != id
    ensures St(w, id).runtime.None? && St(w, id).pendingStop.Some?
    ensures id in w.exiting && w.exiting[id] in w.live && w.live[w.exiting[id]].id == id
    ensures Waits(w, id) || (St(w, id).pendingStop == Some([]) && Load(w, id) == 0)
  {
    GoodAt(w, id);
    if id in Mon(w).held && Mon(w).held[id] in w.working {
      HolderIsOwner(w, id);
    }
    NoDeadlock(w, id);
  }

  /** The last thing that happened is a failure of the id. */
  predicate Faulty(w: World, id: Id) {
    w.trace != [] && IsFault(w.trace[|w.trace| - 1], id)
  }

  lemma AfterBlame(w: World, id: Id, bad: set<Id>)
    requires Core(w) && Rest(w, id, bad) && Faulty(w, id)
    ensures var w1 := DoBlame(w, id);
            && Core(w1) && Rest(w1, id, bad) && Mon(w1) == Mon(w) && OnlyAt(w, w1, id) && St(w1, id) == St(w, id)
            && (Books(w, id) ==> Books(w1, id)) && (Kept(w, id) ==> Kept(w1, id))
  {
    BlameKeeps(w, id, bad);
  }

  lemma SavedByFlag(w: World, id: Id, rec: Record, bad: set<Id>)
    requires Core(w) && Rest(w, id, bad) && Books(w, id) && Kept(w, id) && rec.Installed? && Faulty(w, id)
    requires St(w, id).runtime.None? && St(w, id).record.None? && id !in w.exiting
    ensures var w1 := DoBlame(w, id).(disk := w.disk[id := Disk(w, id).(error := true)]);
            Core(w1) && Rest(w1, id, bad) && OnlyAt(w, w1, id) && NoGrow(w, w1, id) && Saved(w, w1, id, rec)
  {
    var w0, disk := DoBlame(w, id), w.disk[id := Disk(w, id).(error := true)];
    AfterBlame(w, id, bad);
    PlainKeeps(w0, w0.(disk := disk), id, bad);
    assert disk - {id} == w.disk - {id};
    assert w0.trace[|w.trace|] == Blamed(id);
  }

  /** Giving up the preview while a job or drain loop is busy leaves a restart queued behind it. */
  lemma SavedByRestart(w: World, id: Id, rec: Record, bad: set<Id>)
    requires Core(w) && Rest(w, id, bad) && Books(w, id) && Kept(w, id) && PreviewFor(w, id) && Faulty(w, id)
    requires St(w, id).runtime.None? && St(w, id).record.None? && id !in w.exiting
    requires St(w, id).pendingStop != Some([])
    ensures var w0 := DoBlame(w, id);
            && Core(w0) && Rest(w0, id, bad) && Ready(w0, id) && QueueOk(w0, id)
    ensures !St(w, id).jobActive ==> St(w, id).pendingStop.None?
    ensures var w1 := DoEnqueue(DoBlame(w, id).(preview := None), id, Restart);
            && Core(w1) && Rest(w1, id, bad) && OnlyAt(w, w1, id) && NoGrow(w, w1, id)
            && (St(w, id).draining || St(w, id).jobActive ==> Saved(w, w1, id, rec))
  {
    assert IdOk(w, id);
    AfterBlame(w, id, bad);
    var w0 := DoBlame(w, id).(preview := None);
    AfterUnpreview(DoBlame(w, id), bad);
    AfterEnqueue(w0, id, Restart, bad);
    var w1 := DoEnqueue(w0, id, Restart);
    assert St(w1, id) == St(w, id).(jobs := St(w, id).jobs + [Job(w.nextSerial, Restart)]);
    UnpreviewOnward(w, w0, w1, id);
    assert Progress(w1, id) && AwaitOk(w1, id) && PendRec(w1, id);
  }

  /** The event that follows a history. */
  predicate Next(t: seq<Event>, t': seq<Event>, e: Event) {
    t <= t' && |t| < |t'| && t'[|t|] == e
  }

  /** What running a stop callback leaves in the history. */
  function Telling(id: Id, cb: Callback): seq<Event> {
    match cb
    case Release(s) => [Told(id, s), Ended(id, s)]
    case Touch(s) => [Told(id, s), Touched(id, s), Ended(id, s)]
  }

  lemma ToldThenEnded(t: seq<Event>, t': seq<Event>, id: Id, cb: Callback)
    requires t' == t + [Told(id, cb.serial)] + if cb.Touch? then [Touched(id, cb.serial)] else []
    ensures t' + [Ended(id, cb.serial)] == t + Telling(id, cb)
  {
  }

  /** Since position `n` of the history, a process of the id crashed or could not be started. */
  ghost predicate FaultSince(t: seq<Event>, n: nat, id: Id) {
    exists k :: n <= k < |t| && IsFault(t[k], id)
  }

  lemma BlameNeedsFault(t: seq<Event>, n: nat, id: Id)
    requires Accepts(t) && n < |t| && !t[n].Blamed? && BlamedSince(t, n, id)
    ensures FaultSince(t, n, id)
  {
    var k :| n <= k < |t| && t[k] == Blamed(id);
    StepAt(t, k);
    assert IsFault(t[k - 1], id);
  }

  class Service {
    var states: map<Id, ProcessState>
    var disk: map<Id, DiskEntry>
    var preview: Option<PreviewRecord>
    var live: map<Pid, Proc>
    var dead: set<Pid>
    var aborted: set<Pid>
    var working: map<Serial, Id>
    var released: set<Serial>
    var nextPid: nat
    var nextSerial: nat
    var nextToken: nat
    ghost var trace: seq<Event>
    ghost var exiting: map<Id, Pid>
    ghost var owner: map<Serial, Id>
    ghost var changed: set<Id>

    ghost function View(): World
      reads this
    {
      World(states, disk, preview, live, dead, aborted, working, released,
            nextPid, nextSerial, nextToken, trace, exiting, owner, changed)
    }

    function State(id: Id): (s: ProcessState)
      reads this
      ensures s == St(View(), id)
    {
      if id in states then states[id] else FRESH
    }

    function Entry(id: Id): (d: DiskEntry)
      reads this
      ensures d == Disk(View(), id)
    {
      if id in disk then disk[id] else NO_ENTRY
    }

    /** The record an id resolves to, preview overlay first. */
    function Get(id: Id): (r: Option<Record>)
      reads this
      ensures r == Resolve(View(), id)
    {
      if preview.Some? && preview.value.id == id then Some(Preview(preview.value.token))
      else if Entry(id).version.Some? then Some(Installed(Entry(id).version.value))
      else None
    }

    function IsEnabled(id: Id, r: Record): bool
      reads this
    {
      r.Preview? || (Entry(id).enabled && !Entry(id).error)
    }

    // ------------------------------------------------------------ jobs

    /** A job gives its id back. A second release of the same job does nothing. */
    method ReleaseJob(id: Id, serial: Serial, ghost bad: set<Id>)
      requires Core(View()) && Rest(View(), id, bad)
      requires serial !in released ==>
                 InHand(View(), id, serial) && ExitDue(View(), id) && PendRec(View(), id) && Kept(View(), id)
                 && (State(id).pendingStop.Some? ==> State(id).pendingStop.value == [])
      modifies this
      ensures old(serial in released) ==> View() == old(View())
      ensures old(serial !in released) ==>
                Settled(old(View()), View(), id, bad) && Shrinks(old(View()), View(), id)
      ensures old(serial !in released) ==> old(trace) + [Ended(id, serial)] <= trace
      ensures old(serial !in released && State(id).draining) ==> View() == old(DoEnd(View(), id, serial))
      decreases PreviewCount(View()), |State(id).jobs|, Misaligned(View(), id), 8
    {
      if serial in released {
        return;
      }
      ghost var w := View();
      AfterEnd(w, id, serial, bad);
      released := released + {serial};
      states := states[id := State(id).(jobActive := false)];
      trace := trace + [Ended(id, serial)];
      ghost var w1 := View();
      assert w1 == DoEnd(w, id, serial);
      RunNextJob(id, bad);
      Compose(w, w1, View(), id, bad);
    }

    /** Runs queued jobs until one stays in flight; if the queue drained, reconciles. */
    method RunNextJob(id: Id, ghost bad: set<Id>)
      requires Core(View()) && Rest(View(), id, bad)
      requires Ready(View(), id) && Kept(View(), id)
      modifies this
      ensures old(State(id).draining || State(id).jobActive) ==> View() == old(View())
      ensures old(ExitDue(View(), id)) ==> Settled(old(View()), View(), id, bad)
      ensures old(Lull(State(id))) ==> State(id).pendingStop.None?
      decreases PreviewCount(View()), |State(id).jobs|, Misaligned(View(), id), 7
    {
      if State(id).draining {
        return;
      }
      ghost var w := View();
      RunQueue(id, bad);
      ghost var w1 := View();
      if !State(id).jobActive && State(id).jobs == [] {
        Reconcile(id, bad);
        Compose(w, w1, View(), id, bad);
      } else if ExitDue(w, id) {
        SettledBusy(w, w1, id, bad);
      }
    }

    /** Runs jobs until one stays in flight or the queue is empty, marked as the owner of the queue. */
    method RunQueue(id: Id, ghost bad: set<Id>)
      requires Core(View()) && Rest(View(), id, bad) && Ready(View(), id) && Kept(View(), id) && !State(id).draining
      modifies this
      ensures Core(View()) && Rest(View(), id, bad) && Ready(View(), id) && Kept(View(), id)
      ensures !State(id).draining && OnlyAt(old(View()), View(), id) && (State(id).jobActive || State(id).jobs == [])
      ensures old(State(id).jobActive) ==> View() == old(View())
      ensures old(ExitDue(View(), id)) ==> ExitDue(View(), id)
      ensures NoGrow(old(View()), View(), id)
      ensures old(Lull(State(id))) ==> Lull(State(id))
      decreases PreviewCount(View()), |State(id).jobs|, Misaligned(View(), id), 6, 1
    {
      ghost var w := View();
      MarkDraining(id, true, bad);
      ghost var w1 := View();
      DrainQueue(id, bad);
      ghost var w2 := View();
      MarkDraining(id, false, bad);
      NoGrowTrans(w, w1, w2, id);
      NoGrowTrans(w, w2, View(), id);
      if St(w, id).jobActive {
        DrainingUndone(w, id);
      }
    }

    method MarkDraining(id: Id, d: bool, ghost bad: set<Id>)
      requires Core(View()) && Rest(View(), id, bad) && Ready(View(), id) && Kept(View(), id)
      modifies this`states
      ensures View() == old(Put(View(), id, State(id).(draining := d)))
      ensures Core(View()) && Rest(View(), id, bad) && Ready(View(), id) && Kept(View(), id)
      ensures OnlyAt(old(View()), View(), id) && NoGrow(old(View()), View(), id)
      ensures old(ExitDue(View(), id)) ==> ExitDue(View(), id)
      ensures State(id) == old(State(id)).(draining := d)
      ensures PreviewCount(View()) == PreviewCount(old(View())) && Misaligned(View(), id) == Misaligned(old(View()), id)
    {
      SetDraining(View(), id, d, bad);
      states := states[id := State(id).(draining := d)];
    }

    /** The loop that owns the queue: it picks up whatever is appended to it meanwhile. */
    method DrainQueue(id: Id, ghost bad: set<Id>)
      requires Core(View()) && Rest(View(), id, bad) && Ready(View(), id) && Kept(View(), id) && State(id).draining
      modifies this
      ensures Core(View()) && Rest(View(), id, bad) && Ready(View(), id) && Kept(View(), id)
      ensures State(id).draining && OnlyAt(old(View()), View(), id) && (State(id).jobActive || State(id).jobs == [])
      ensures View() == old(View()) || (Advanced(old(View()), View(), id) && !old(State(id).jobActive))
      ensures NoGrow(old(View()), View(), id)
      ensures old(Lull(State(id))) ==> Lull(State(id))
      decreases PreviewCount(View()), |State(id).jobs|, Misaligned(View(), id), 6, 0
    {
      ghost var w0 := View();
      while !State(id).jobActive && State(id).jobs != []
        invariant Core(View()) && Rest(View(), id, bad) && Ready(View(), id) && Kept(View(), id)
        invariant State(id).draining && OnlyAt(w0, View(), id)
        invariant Lull(St(w0, id)) ==> Lull(State(id))
        invariant View() == w0 || (Advanced(w0, View(), id) && !St(w0, id).jobActive)
        decreases PreviewCount(View()), |State(id).jobs|
      {
        ghost var w := View();
        StartNextJob(id, bad);
        NoGrowTrans(w0, w, View(), id);
      }
    }

    /** Takes the next job off the queue and runs it until it releases or waits. */
    method StartNextJob(id: Id, ghost bad: set<Id>)
      requires Core(View()) && Rest(View(), id, bad)
      requires State(id).draining && !State(id).jobActive && State(id).jobs != []
      requires ExitDue(View(), id) && PendRec(View(), id) && Kept(View(), id)
      modifies this
      ensures Settled(old(View()), View(), id, bad)
      ensures Next(old(trace), trace, Begun(id, old(State(id).jobs[0].serial)))
      ensures PreviewCount(View()) < old(PreviewCount(View()))
              || (PreviewCount(View()) == old(PreviewCount(View())) && |State(id).jobs| < old(|State(id).jobs|))
      ensures old(State(id).draining && State(id).runtime.None? && State(id).pendingStop.None? && State(id).jobs[0].kind == Restart) ==>
                State(id) == old(State(id)).(jobs := old(State(id).jobs)[1..], jobActive := false)
      decreases PreviewCount(View()), |State(id).jobs|, Misaligned(View(), id), 5
    {
      ghost var w := View();
      AfterBegin(w, id, bad);
      var job := State(id).jobs[0];
      states := states[id := State(id).(jobs := State(id).jobs[1..], jobActive := true)];
      trace := trace + [Begun(id, job.serial)];
      ghost var w1 := View();
      assert w1 == DoBegin(w, id);
      RunJob(id, job, bad);
      if job.kind == Restart {
        ComposeRestart(w, w1, View(), id, bad);
      } else {
        Compose(w, w1, View(), id, bad);
      }
    }

    /** The body of a job that has just taken its id. */
    method RunJob(id: Id, job: Job, ghost bad: set<Id>)
      requires Core(View()) && Rest(View(), id, bad)
      requires InHand(View(), id, job.serial) && job.serial !in Mon(View()).told && job.serial !in released
      requires ExitDue(View(), id) && PendRec(View(), id) && (job.kind != Restart ==> Kept(View(), id))
      requires State(id).pendingStop.Some? ==> State(id).pendingStop.value == []
      modifies this
      ensures Settled(old(View()), View(), id, bad)
      ensures job.kind == Restart ==> Renewed(old(View()), View(), id)
      ensures old(State(id).draining && State(id).runtime.None? && State(id).pendingStop.None? && job.kind == Restart) ==>
                State(id) == old(State(id)).(jobActive := false)
      decreases PreviewCount(View()), |State(id).jobs|, Misaligned(View(), id), 17
    {
      if job.kind == Restart {
        Stop(id, Some(Release(job.serial)), bad);
      } else if job.kind != Install && Entry(id).version.None? {
        // the extension is no longer installed: report the error
        ReleaseJob(id, job.serial, bad);
      } else if * {
        // failed before anything was started
        ReleaseJob(id, job.serial, bad);
      } else if * {
        StopExtension(id, Touch(job.serial), bad);
      } else {
        // waits for a download, a check or a dependency install
        AfterLeave(View(), id, job.serial, bad);
        working := working[job.serial := id];
      }
    }

    // ------------------------------------------------------------ stopping

    /** Stops the process of an id, if any; the callback runs once it is gone. */
    method Stop(id: Id, cb: Option<Callback>, ghost bad: set<Id>)
      requires Core(View()) && Rest(View(), id, bad)
      requires cb.Some? ==>
                 && InHand(View(), id, cb.value.serial) && cb.value.serial !in Mon(View()).told
                 && ExitDue(View(), id)
                 && (State(id).pendingStop.Some? ==> State(id).pendingStop.value == [])
      requires cb.None? ==>
                 && Misaligned(View(), id) == 1 && State(id).record.Some? && State(id).record.value.Installed? && !State(id).jobActive
                 && QueueOk(View(), id) && (PreviewFor(View(), id) ==> HasRestart(State(id).jobs))
      modifies this
      ensures Settled(old(View()), View(), id, bad)
      ensures cb.Some? ==> Shrinks(old(View()), View(), id) || Waits(View(), id)
      ensures cb.Some? ==> Renewed(old(View()), View(), id)
      ensures cb.Some? ==> Next(old(trace), trace, Awaited(id, cb.value.serial))
      ensures old(State(id).draining && State(id).runtime.None? && State(id).pendingStop.None? && cb.Some? && cb.value.Release?) ==>
                State(id) == old(State(id)).(jobActive := false)
      decreases PreviewCount(View()), |State(id).jobs|, Misaligned(View(), id), if cb.Some? then 15 else 3
    {
      if State(id).runtime.Some? {
        StopRunning(id, cb, bad);
      } else if State(id).pendingStop.Some? {
        if cb.Some? {
          JoinStop(id, cb.value, bad);
        }
      } else if cb.Some? {
        assert IdOk(View(), id);
        TellAtOnce(id, cb.value, bad);
      }
    }

    /** The runtime becomes a process to wait for, and is asked to end. */
    method StopRunning(id: Id, cb: Option<Callback>, ghost bad: set<Id>)
      requires Core(View()) && Rest(View(), id, bad) && State(id).runtime.Some?
      requires cb.Some? ==>
                 && InHand(View(), id, cb.value.serial) && cb.value.serial !in Mon(View()).told
                 && ExitDue(View(), id)
                 && (State(id).pendingStop.Some? ==> State(id).pendingStop.value == [])
      requires cb.None? ==>
                 && Misaligned(View(), id) == 1 && State(id).record.Some? && State(id).record.value.Installed? && !State(id).jobActive
                 && QueueOk(View(), id) && (PreviewFor(View(), id) ==> HasRestart(State(id).jobs))
      modifies this
      ensures Settled(old(View()), View(), id, bad)
      ensures cb.Some? ==> Shrinks(old(View()), View(), id) || Waits(View(), id)
      ensures cb.Some? ==> Renewed(old(View()), View(), id)
      ensures cb.Some? ==> Next(old(trace), trace, Awaited(id, cb.value.serial))
      decreases PreviewCount(View()), |State(id).jobs|, Misaligned(View(), id), if cb.Some? then 14 else 2
    {
      ghost var w := View();
      var pid, rec := BeginStop(id, cb, bad);
      ghost var w1 := View();
      StopRuntime(id, pid, rec, bad);
      Compose(w, w1, View(), id, bad);
    }

    method BeginStop(id: Id, cb: Option<Callback>, ghost bad: set<Id>) returns (pid: Pid, rec: Record)
      requires Core(View()) && Rest(View(), id, bad) && State(id).runtime.Some?
      requires cb.Some? ==>
                 && InHand(View(), id, cb.value.serial) && cb.value.serial !in Mon(View()).told
                 && ExitDue(View(), id)
                 && (State(id).pendingStop.Some? ==> State(id).pendingStop.value == [])
      requires cb.None? ==>
                 && Misaligned(View(), id) == 1 && State(id).record.Some? && State(id).record.value.Installed? && !State(id).jobActive
                 && QueueOk(View(), id) && (PreviewFor(View(), id) ==> HasRestart(State(id).jobs))
      modifies this`states, this`exiting, this`trace
      ensures Core(View()) && Rest(View(), id, bad) && Weak(View(), id) && Kept(View(), id)
      ensures id in exiting && exiting[id] == pid && pid in live && live[pid] == Proc(id, rec) && pid !in aborted
      ensures State(id) == old(State(id)).(runtime := None, record := None, pendingStop := Some(if cb.Some? then [cb.value] else []))
      ensures cb.Some? ==> Waits(View(), id) && Next(old(trace), trace, Awaited(id, cb.value.serial))
      ensures NoGrow(old(View()), View(), id) && OnlyAt(old(View()), View(), id) && Misaligned(View(), id) == 0
    {
      ghost var w := View();
      AfterStop(w, id, bad);
      if cb.None? {
        AfterLoneStop(w, id);
      }
      pid, rec := State(id).runtime.value, State(id).record.value;
      states := states[id := State(id).(runtime := None, record := None, pendingStop := Some([]))];
      exiting := exiting[id := pid];
      ghost var w1 := View();
      assert w1 == DoStop(w, id);
      if cb.Some? {
        JoinStop(id, cb.value, bad);
        NoGrowTrans(w, w1, View(), id);
      }
    }

    /** Adds a callback to the stop in flight. */
    method JoinStop(id: Id, cb: Callback, ghost bad: set<Id>)
      requires Core(View()) && Rest(View(), id, bad) && State(id).pendingStop == Some([]) && id in exiting
      requires InHand(View(), id, cb.serial) && cb.serial !in Mon(View()).told
      modifies this`states, this`trace
      ensures View() == old(DoJoin(View(), id, cb)) && Next(old(trace), trace, Awaited(id, cb.serial))
      ensures Settled(old(View()), View(), id, bad) && State(id) == old(State(id)).(pendingStop := Some([cb]))
      ensures Waits(View(), id) && Misaligned(View(), id) == 0
    {
      ghost var w := View();
      AfterJoin(w, id, cb, bad);
      states := states[id := State(id).(pendingStop := Some(State(id).pendingStop.value + [cb]))];
      trace := trace + [Awaited(id, cb.serial)];
      assert View() == DoJoin(w, id, cb);
    }

    /**
     Asks a process to end. It may already be dead, in which case its exit is reported later as an
     error; otherwise its exit counts as a stop, and may even be noticed before this returns.
     */
    method StopRuntime(id: Id, pid: Pid, rec: Record, ghost bad: set<Id>)
      requires Core(View()) && Rest(View(), id, bad) && Weak(View(), id) && Kept(View(), id)
      requires id in exiting && exiting[id] == pid && pid in live && live[pid] == Proc(id, rec)
      requires State(id).pendingStop.Some? && State(id).runtime.None? && pid !in aborted
      modifies this
      ensures Settled(old(View()), View(), id, bad)
      ensures old(State(id).pendingStop.value != []) ==> Shrinks(old(View()), View(), id) || Waits(View(), id)
      ensures if pid in old(dead) then View() == old(View()) else Next(old(trace), trace, Asked(pid))
      decreases PreviewCount(View()), |State(id).jobs|, Misaligned(View(), id), 13, 1
    {
      StillStopping(View(), id, bad);
      if pid !in dead {
        AskToEnd(id, pid, rec, bad);
      }
    }

    /** The process is alive and is asked to end. */
    method AskToEnd(id: Id, pid: Pid, rec: Record, ghost bad: set<Id>)
      requires Core(View()) && Rest(View(), id, bad) && Weak(View(), id) && Kept(View(), id)
      requires id in exiting && exiting[id] == pid && pid in live && live[pid] == Proc(id, rec)
      requires State(id).pendingStop.Some? && State(id).runtime.None?
      modifies this
      ensures Settled(old(View()), View(), id, bad)
      ensures old(State(id).pendingStop.value != []) ==> Shrinks(old(View()), View(), id) || Waits(View(), id)
      ensures Next(old(trace), trace, Asked(pid))
      decreases PreviewCount(View()), |State(id).jobs|, Misaligned(View(), id), 13, 0
    {
      ghost var w := View();
      AfterAsk(w, id, pid, bad);
      aborted := aborted + {pid};
      trace := trace + [Asked(pid)];
      ghost var w1 := View();
      assert w1 == DoAsk(w, pid);
      if * {
        ExitHandler(id, rec, Some(pid), Stopped, bad);
        Compose(w, w1, View(), id, bad);
      }
    }

    /** A file job stops the process of the installed copy; a preview running in its place survives. */
    method StopExtension(id: Id, cb: Callback, ghost bad: set<Id>)
      requires Core(View()) && Rest(View(), id, bad) && ExitDue(View(), id) && PendRec(View(), id) && Kept(View(), id)
      requires InHand(View(), id, cb.serial) && cb.serial !in Mon(View()).told
      requires State(id).pendingStop.Some? ==> State(id).pendingStop.value == []
      modifies this
      ensures Settled(old(View()), View(), id, bad)
      ensures Shrinks(old(View()), View(), id) || Waits(View(), id)
      ensures Next(old(trace), trace, Awaited(id, cb.serial))
      ensures old(State(id).record.Some? && State(id).record.value.Preview?) ==>
                old(trace) + [Awaited(id, cb.serial)] + Telling(id, cb) <= trace
      decreases PreviewCount(View()), |State(id).jobs|, Misaligned(View(), id), 16
    {
      if State(id).record.Some? && State(id).record.value.Preview? {
        assert IdOk(View(), id);
        TellAtOnce(id, cb, bad);
      } else {
        Stop(id, Some(cb), bad);
      }
    }

    /** There is nothing to wait for: the callback runs at once. */
    method TellAtOnce(id: Id, cb: Callback, ghost bad: set<Id>)
      requires Core(View()) && Rest(View(), id, bad) && State(id).pendingStop.None?
      requires InHand(View(), id, cb.serial) && cb.serial !in Mon(View()).told
      requires State(id).record.Some? ==> State(id).record.value.Preview? && RecOk(View(), id)
      modifies this
      ensures Settled(old(View()), View(), id, bad) && Shrinks(old(View()), View(), id)
      ensures old(trace) + [Awaited(id, cb.serial)] + Telling(id, cb) <= trace
      ensures Next(old(trace), trace, Awaited(id, cb.serial))
      ensures old(State(id).draining) ==> State(id) == old(State(id)).(jobActive := false)
      decreases PreviewCount(View()), |State(id).jobs|, Misaligned(View(), id), 10
    {
      ghost var w := View();
      AfterAwait(w, id, cb, bad);
      trace := trace + [Awaited(id, cb.serial)];
      ghost var w1 := View();
      assert w1 == Log(w, Awaited(id, cb.serial));
      FireCallback(id, cb, bad);
      Compose(w, w1, View(), id, bad);
    }

    /** Runs one stop callback: a release, or a change of the installed directory and then a release. */
    method FireCallback(id: Id, cb: Callback, ghost bad: set<Id>)
      requires Core(View()) && Rest(View(), id, bad) && Kept(View(), id) && State(id).pendingStop.None?
      requires Holds(Mon(View()), id, cb.serial) && cb.serial in Mon(View()).awaiting
      requires cb.serial !in working && DirectoryFree(Mon(View()), id)
      modifies this
      ensures Settled(old(View()), View(), id, bad) && Shrinks(old(View()), View(), id)
      ensures old(trace) + Telling(id, cb) <= trace
      ensures old(State(id).draining) ==> State(id) == old(State(id)).(jobActive := false)
      decreases PreviewCount(View()), |State(id).jobs|, Misaligned(View(), id), 9
    {
      ghost var w := View();
      TellJob(id, cb, bad);
      ghost var w1 := View();
      ToldThenEnded(w.trace, w1.trace, id, cb);
      ReleaseJob(id, cb.serial, bad);
      Compose(w, w1, View(), id, bad);
    }

    /** The job is told, and changes the directory if that is what it waited for. */
    method TellJob(id: Id, cb: Callback, ghost bad: set<Id>)
      requires Core(View()) && Rest(View(), id, bad) && Kept(View(), id) && State(id).pendingStop.None?
      requires Holds(Mon(View()), id, cb.serial) && cb.serial in Mon(View()).awaiting
      requires cb.serial !in working && DirectoryFree(Mon(View()), id)
      modifies this`disk, this`trace
      ensures Core(View()) && Rest(View(), id, bad) && Kept(View(), id) && InHand(View(), id, cb.serial)
      ensures ExitDue(View(), id) && PendRec(View(), id) && cb.serial !in released
      ensures NoGrow(old(View()), View(), id) && OnlyAt(old(View()), View(), id)
      ensures trace == old(trace) + [Told(id, cb.serial)] + if cb.Touch? then [Touched(id, cb.serial)] else []
      ensures cb.Release? ==> disk == old(disk)
    {
      ghost var w := View();
      AfterTold(w, id, cb.serial, bad);
      trace := trace + [Told(id, cb.serial)];
      ghost var w1 := View();
      assert w1 == DoTold(w, id, cb.serial);
      if cb.Touch? {
        SwapDirectory(id, cb.serial, bad);
        NoGrowTrans(w, w1, View(), id);
      }
    }

    /** The outcome of swapping or removing the directory is up to the file system. */
    method SwapDirectory(id: Id, serial: Serial, ghost bad: set<Id>)
      requires Core(View()) && Rest(View(), id, bad) && Kept(View(), id)
      requires InHand(View(), id, serial) && serial in Mon(View()).told && DirectoryFree(Mon(View()), id)
      requires ExitDue(View(), id) && PendRec(View(), id) && State(id).pendingStop.None? && serial !in released
      modifies this`disk, this`trace
      ensures Core(View()) && Rest(View(), id, bad) && Kept(View(), id) && InHand(View(), id, serial)
      ensures ExitDue(View(), id) && PendRec(View(), id)
      ensures NoGrow(old(View()), View(), id) && OnlyAt(old(View()), View(), id)
      ensures trace == old(trace) + [Touched(id, serial)]
    {
      ghost var w := View();
      var entry: DiskEntry := *;
      // no outcome stores an error
      entry := entry.(error := entry.error && Entry(id).error);
      AfterTouch(w, id, serial, entry, bad);
      disk := disk[id := entry];
      trace := trace + [Touched(id, serial)];
      assert View() == DoTouch(w, id, serial, entry);
    }

    // ------------------------------------------------------------ starting and exiting

    /** Aligns the process of an id with what should run, unless a job or a stop will do so later. */
    method Reconcile(id: Id, ghost bad: set<Id>)
      requires Core(View()) && Rest(View(), id, bad) && Weak(View(), id) && Kept(View(), id)
      requires !State(id).jobActive && State(id).pendingStop.None? ==> State(id).jobs == [] || State(id).runtime.None?
      modifies this
      ensures Settled(old(View()), View(), id, bad)
      ensures old(State(id).jobActive || State(id).pendingStop.Some?) ==> View() == old(View())
      ensures old(State(id).runtime.None?) ==> State(id).pendingStop == old(State(id).pendingStop)
      decreases PreviewCount(View()), |State(id).jobs|, Misaligned(View(), id), 6
    {
      if State(id).jobActive || State(id).pendingStop.Some? {
        return;
      }
      ghost var w := View();
      assert IdOk(w, id);
      var r := Get(id);
      if r.Some? && IsEnabled(id, r.value) {
        if State(id).runtime.None? {
          StartExtension(id, r.value, bad);
        }
      } else {
        AfterLook(w, id, bad);
        changed := changed - {id};
        ghost var w1 := View();
        if State(id).runtime.Some? {
          Stop(id, None, bad);
          Compose(w, w1, View(), id, bad);
        }
      }
    }

    /** Spawns a process for a record, clearing a stored error first. */
    method StartExtension(id: Id, r: Record, ghost bad: set<Id>)
      requires Core(View()) && Rest(View(), id, bad) && Weak(View(), id) && Kept(View(), id)
      requires Resolve(View(), id) == Some(r) && (r.Preview? || Entry(id).enabled)
      requires State(id).runtime.Some? ==> Strong(View(), id)
      modifies this
      ensures Settled(old(View()), View(), id, bad)
      ensures old(State(id).runtime.None?) ==> State(id).pendingStop == old(State(id).pendingStop)
      ensures old(State(id).runtime.None? && State(id).pendingStop.None? && !State(id).jobActive) ==>
                id !in changed
      ensures old(State(id).runtime.None? && (State(id).pendingStop.Some? || State(id).jobActive)) ==>
                View() == old(View()).(disk := disk) && (r.Installed? ==> disk == old(disk)[id := old(Entry(id)).(error := false)])
      decreases PreviewCount(View()), |State(id).jobs|, Misaligned(View(), id), 5
    {
      if State(id).runtime.Some? {
        return;
      }
      ghost var w := View();
      assert IdOk(w, id);
      if r.Installed? {
        AfterDisk(w, id, Entry(id).(error := false), bad);
        disk := disk[id := Entry(id).(error := false)];
      }
      ghost var w1 := View();
      if State(id).jobActive || State(id).pendingStop.Some? {
        return;
      }
      LaunchFree(id, r, bad);
      Compose(w, w1, View(), id, bad);
    }

    /** Launches what was just looked up, for an id that nothing holds. */
    method LaunchFree(id: Id, r: Record, ghost bad: set<Id>)
      requires Core(View()) && Rest(View(), id, bad) && Weak(View(), id) && Kept(View(), id)
      requires Desired(View(), id) == Some(r) && State(id).record.None?
      requires State(id).runtime.None? && State(id).pendingStop.None? && !State(id).jobActive
      modifies this
      ensures Settled(old(View()), View(), id, bad) && State(id).pendingStop.None? && id !in changed
      decreases PreviewCount(View()), |State(id).jobs|, Misaligned(View(), id), 4, 1
    {
      ghost var w := View();
      AfterLook(w, id, bad);
      changed := changed - {id};
      ghost var w1 := View();
      Launch(id, r, bad);
      Compose(w, w1, View(), id, bad);
    }

    /** Validates and spawns; any failure is reported through the exit handler. */
    method Launch(id: Id, r: Record, ghost bad: set<Id>)
      requires Core(View()) && Rest(View(), id, bad) && Weak(View(), id) && Kept(View(), id)
      requires Desired(View(), id) == Some(r)
      requires State(id).runtime.None? && State(id).pendingStop.None? && !State(id).jobActive
      modifies this
      ensures Settled(old(View()), View(), id, bad) && State(id).pendingStop.None?
      decreases PreviewCount(View()), |State(id).jobs|, Misaligned(View(), id), 4, 0
    {
      if * {
        // invalid, incompatible, or failed to start
        ExitHandler(id, r, None, Crashed, bad);
      } else {
        AfterSpawn(View(), id, r, bad);
        Spawn(id, r);
      }
    }

    method Spawn(id: Id, r: Record)
      modifies this`live, this`nextPid, this`trace, this`changed, this`states
      ensures View() == old(DoSpawn(View(), id, r))
    {
      ghost var w := View();
      var pid := nextPid;
      states := states[id := State(id).(runtime := Some(pid), record := Some(r))];
      live := live[pid := Proc(id, r)];
      nextPid := pid + 1;
      trace := trace + [Spawned(pid, Proc(id, r))];
      changed := changed - {id};
      SpawnedWorld(w, View(), id, r);
    }

    /** Runs when a process is gone, or could not be started (`pid` is `None`). */
    method ExitHandler(id: Id, rec: Record, pid: Option<Pid>, cause: Cause, ghost bad: set<Id>)
      requires Core(View()) && Rest(View(), id, bad) && Weak(View(), id) && Kept(View(), id)
      requires ExitCase(View(), id, rec, pid, cause)
      modifies this
      ensures Settled(old(View()), View(), id, bad)
      ensures old(State(id).pendingStop.Some? && State(id).pendingStop.value != []) ==> Shrinks(old(View()), View(), id)
      ensures pid.None? || old(State(id).pendingStop) == Some([]) ==> State(id).pendingStop.None?
      ensures pid.Some? ==> Next(old(trace), trace, Exited(pid.value, id, cause))
      decreases PreviewCount(View()), |State(id).jobs|, Misaligned(View(), id), if pid.None? then 3 else 12
    {
      ghost var w := View();
      var errored := cause != Stopped;
      var callbacks := EndProcess(id, rec, pid, cause, bad);
      ghost var w1 := View();
      AfterProcess(id, callbacks, errored, bad);
      if callbacks != [] || !errored {
        Compose(w, w1, View(), id, bad);
      }
    }

    /** The stop callbacks run; only after an intentional stop the id is reconciled. */
    method AfterProcess(id: Id, callbacks: seq<Callback>, errored: bool, ghost bad: set<Id>)
      requires Core(View()) && Rest(View(), id, bad) && |callbacks| <= 1 && State(id).pendingStop.None?
      requires callbacks != [] ==>
                 && Kept(View(), id)
                 && Holds(Mon(View()), id, callbacks[0].serial) && callbacks[0].serial in Mon(View()).awaiting
                 && callbacks[0].serial !in working && DirectoryFree(Mon(View()), id)
      requires !errored ==> State(id).runtime.None? && (callbacks == [] ==> Weak(View(), id) && Kept(View(), id))
      modifies this
      ensures callbacks == [] && errored ==> View() == old(View())
      ensures callbacks != [] || !errored ==> Settled(old(View()), View(), id, bad)
      ensures callbacks != [] ==> Shrinks(old(View()), View(), id)
      ensures callbacks == [] ==> State(id).pendingStop.None?
      decreases PreviewCount(View()), |State(id).jobs|, Misaligned(View(), id), if callbacks == [] && errored then 1 else 11
    {
      ghost var w := View();
      RunCallbacks(id, callbacks, bad);
      if !errored {
        ghost var w1 := View();
        Reconcile(id, bad);
        Compose(w, w1, View(), id, bad);
      }
    }

    /** Everything up to the stop callbacks: they are drained, and an error is recorded. */
    method EndProcess(id: Id, rec: Record, pid: Option<Pid>, cause: Cause, ghost bad: set<Id>) returns (callbacks: seq<Callback>)
      requires Core(View()) && Rest(View(), id, bad) && Weak(View(), id) && Kept(View(), id)
      requires ExitCase(View(), id, rec, pid, cause)
      modifies this
      ensures Core(View()) && Rest(View(), id, bad)
      ensures NoGrow(old(View()), View(), id) && OnlyAt(old(View()), View(), id)
      ensures State(id).draining == old(State(id).draining) && State(id).pendingStop.None?
      ensures old(State(id).pendingStop.Some? && State(id).pendingStop.value != []) ==> callbacks != []
      ensures old(State(id).pendingStop) == Some([]) ==> callbacks == []
      ensures callbacks != [] ==>
                && |callbacks| == 1 && Kept(View(), id) && Holds(Mon(View()), id, callbacks[0].serial)
                && callbacks[0].serial in Mon(View()).awaiting && callbacks[0].serial !in working
                && DirectoryFree(Mon(View()), id)
      ensures callbacks == [] && cause.Crashed? ==> Settled(old(View()), View(), id, bad)
      ensures cause.Stopped? ==> State(id).runtime.None? && (callbacks == [] ==> Weak(View(), id) && Kept(View(), id))
      ensures pid.None? ==> callbacks == []
      ensures pid.Some? ==> Next(old(trace), trace, Exited(pid.value, id, cause))
      decreases PreviewCount(View()), |State(id).jobs|, Misaligned(View(), id), 2, 1
    {
      ghost var w := View();
      ghost var w1 := RecordEnd(id, rec, pid, cause, bad);
      ghost var w2 := View();
      callbacks := TakeCallbacks(id, bad);
      NoGrowTrans(w, w2, View(), id);
      if cause != Stopped && callbacks == [] {
        AfterCrash(w, w2, id, rec, pid, bad);
      }
    }

    /** The end of the process is noted, and its error is stored or ends its preview. */
    method RecordEnd(id: Id, rec: Record, pid: Option<Pid>, cause: Cause, ghost bad: set<Id>) returns (ghost gone: World)
      requires Core(View()) && Rest(View(), id, bad) && Weak(View(), id) && Kept(View(), id)
      requires ExitCase(View(), id, rec, pid, cause)
      modifies this
      ensures Core(View()) && Rest(View(), id, bad)
      ensures NoGrow(old(View()), View(), id) && OnlyAt(old(View()), View(), id)
      ensures State(id).draining == old(State(id).draining)
      ensures gone == old(AfterGone(View(), id, pid, cause)) && Core(gone) && NoGrow(gone, View(), id) && OnlyAt(gone, View(), id)
      ensures if cause.Stopped? then View() == gone && State(id).runtime.None?
              else Recorded(gone, View(), id, rec, bad)
      ensures State(id).pendingStop.None?
              || (State(id).pendingStop == old(State(id).pendingStop)
                  && Books(View(), id) && Kept(View(), id) && State(id).record.None? && id !in exiting)
      ensures old(State(id).pendingStop.Some? && State(id).pendingStop.value != []) || cause.Stopped? ==>
                State(id).pendingStop == old(State(id).pendingStop)
      ensures cause.Stopped? ==> State(id).pendingStop.Some?
      ensures pid.None? ==> State(id).pendingStop.None?
      ensures pid.Some? ==> Next(old(trace), trace, Exited(pid.value, id, cause))
      decreases PreviewCount(View()), |State(id).jobs|, Misaligned(View(), id), 2, 0
    {
      ghost var w := View();
      GoneFacts(w, id, rec, pid, cause, bad);
      MarkGone(id, pid, cause);
      gone := View();
      if cause != Stopped {
        SaveError(id, rec, bad);
      }
      NoGrowTrans(w, gone, View(), id);
    }

    /** The process is gone, and if it failed, so is the runtime. */
    method MarkGone(id: Id, pid: Option<Pid>, cause: Cause)
      requires pid.Some? ==> pid.value in live && live[pid.value].id == id
      requires cause.Crashed? || (State(id).runtime.None? && State(id).record.None? && State(id).pendingStop.Some?)
      requires pid.None? ==> cause.Crashed? && State(id).runtime.None? && State(id).record.None?
      modifies this`live, this`trace, this`exiting, this`states
      ensures View() == old(AfterGone(View(), id, pid, cause))
      ensures pid.Some? ==> Next(old(trace), trace, Exited(pid.value, id, cause))
    {
      ghost var w := View();
      if pid.Some? {
        live := live - {pid.value};
        trace := trace + [Exited(pid.value, id, cause)];
        exiting := exiting - {id};
      } else {
        trace := trace + [Failed(id)];
      }
      if cause.Crashed? {
        states := states[id := State(id).(runtime := None, record := None)];
      }
      assert View().states == AfterGone(w, id, pid, cause).states;
    }

    /** The callbacks are drained into a fresh list: one may start a new runtime or queue a new stop. */
    method TakeCallbacks(id: Id, ghost bad: set<Id>) returns (callbacks: seq<Callback>)
      requires Core(View()) && Rest(View(), id, bad)
      requires State(id).pendingStop.None?
               || (Books(View(), id) && Kept(View(), id) && State(id).record.None? && id !in exiting)
      modifies this`states
      ensures View() == old(DoDrain(View(), id))
      ensures callbacks == if old(State(id).pendingStop.Some?) then old(State(id).pendingStop.value) else []
      ensures Core(View()) && Rest(View(), id, bad) && Drained(old(View()), View(), id, callbacks)
    {
      AfterDrain(View(), id, bad);
      callbacks := if State(id).pendingStop.Some? then State(id).pendingStop.value else [];
      states := states[id := State(id).(pendingStop := None)];
    }

    /** Stores the error of a failed copy; a failed preview is given up instead. */
    method SaveError(id: Id, rec: Record, ghost bad: set<Id>)
      requires Core(View()) && Rest(View(), id, bad) && Books(View(), id) && Kept(View(), id) && Faulty(View(), id)
      requires State(id).runtime.None? && State(id).record.None? && id !in exiting
      requires State(id).pendingStop == Some([]) ==> rec.Installed?
      modifies this
      ensures Core(View()) && Rest(View(), id, bad) && OnlyAt(old(View()), View(), id)
      ensures NoGrow(old(View()), View(), id)
      ensures Recorded(old(View()), View(), id, rec, bad)
      decreases PreviewCount(View()), |State(id).jobs|, Misaligned(View(), id), 1, 1
    {
      ghost var w := View();
      if rec.Installed? {
        SavedByFlag(w, id, rec, bad);
        trace := trace + [Blamed(id)];
        disk := disk[id := Entry(id).(error := true)];
      } else if preview == Some(PreviewRecord(id, rec.token)) {
        DropPreview(id, rec, bad);
      } else {
        AfterSame(w, id, bad);
      }
    }

    /** The failed preview is given up, and the installed copy will be restarted. */
    method DropPreview(id: Id, rec: Record, ghost bad: set<Id>)
      requires Core(View()) && Rest(View(), id, bad) && Books(View(), id) && Kept(View(), id) && Faulty(View(), id)
      requires State(id).runtime.None? && State(id).record.None? && id !in exiting
      requires rec.Preview? && preview == Some(PreviewRecord(id, rec.token)) && State(id).pendingStop != Some([])
      modifies this
      ensures Core(View()) && Rest(View(), id, bad) && OnlyAt(old(View()), View(), id)
      ensures NoGrow(old(View()), View(), id)
      ensures Recorded(old(View()), View(), id, rec, bad)
      decreases PreviewCount(View()), |State(id).jobs|, Misaligned(View(), id), 1, 0
    {
      ghost var w := View();
      SavedByRestart(w, id, rec, bad);
      trace := trace + [Blamed(id)];
      ghost var w0 := View();
      assert w0 == DoBlame(w, id);
      StopPreview(bad);
      if !St(w, id).jobActive {
        UnpreviewSettles(w, w0.(preview := None), DoEnqueue(w0.(preview := None), id, Restart), View(), id, bad);
      }
    }

    method RunCallbacks(id: Id, callbacks: seq<Callback>, ghost bad: set<Id>)
      requires Core(View()) && Rest(View(), id, bad) && |callbacks| <= 1
      requires callbacks != [] ==>
                 && Kept(View(), id) && State(id).pendingStop.None?
                 && Holds(Mon(View()), id, callbacks[0].serial) && callbacks[0].serial in Mon(View()).awaiting
                 && callbacks[0].serial !in working && DirectoryFree(Mon(View()), id)
      modifies this
      ensures callbacks == [] ==> View() == old(View())
      ensures callbacks != [] ==> Settled(old(View()), View(), id, bad) && Shrinks(old(View()), View(), id)
      ensures old(State(id).draining) ==> State(id).runtime == old(State(id).runtime)
      decreases PreviewCount(View()), |State(id).jobs|, Misaligned(View(), id), if callbacks == [] then 0 else 10
    {
      ghost var w := View();
      var i := 0;
      while i < |callbacks|
        invariant 0 <= i <= |callbacks|
        invariant i == 0 ==> View() == w
        invariant i > 0 ==> Settled(w, View(), id, bad) && Shrinks(w, View(), id)
        invariant i > 0 && St(w, id).draining ==> State(id).runtime == St(w, id).runtime
      {
        FireCallback(id, callbacks[i], bad);
        i := i + 1;
      }
    }

    // ------------------------------------------------------------ queueing

    method EnqueueJob(id: Id, kind: JobKind, ghost bad: set<Id>)
      requires Core(View()) && Rest(View(), id, bad) && Ready(View(), id) && QueueOk(View(), id)
      requires kind == Restart || Kept(View(), id)
      modifies this
      ensures old(State(id).draining || State(id).jobActive) ==> View() == old(DoEnqueue(View(), id, kind))
      ensures old(ExitDue(View(), id)) ==> Settled(old(DoEnqueue(View(), id, kind)), View(), id, bad)
      ensures old(ExitDue(View(), id)) ==> Next(old(trace), trace, Enqueued(id, old(nextSerial), kind))
      ensures old(Lull(State(id)) && State(id).jobs == []) && kind == Restart ==> State(id).pendingStop.None?
      decreases PreviewCount(View()), |State(id).jobs| + 1, 1, 11
    {
      AfterEnqueue(View(), id, kind, bad);
      AppendJob(id, kind);
      RunNextJob(id, bad);
    }

    method AppendJob(id: Id, kind: JobKind)
      modifies this`states, this`trace, this`owner, this`nextSerial
      ensures View() == old(DoEnqueue(View(), id, kind))
    {
      states := states[id := State(id).(jobs := State(id).jobs + [Job(nextSerial, kind)])];
      trace := trace + [Enqueued(id, nextSerial, kind)];
      owner := owner[nextSerial := id];
      nextSerial := nextSerial + 1;
    }

    /** Gives up the preview and queues a restart that brings the installed copy back. */
    method StopPreview(ghost bad: set<Id>)
      requires preview.Some? ==>
                 var id := preview.value.id;
                 Core(View()) && Rest(View(), id, bad) && Ready(View(), id) && QueueOk(View(), id)
      modifies this
      ensures old(preview.None?) ==> View() == old(View())
      ensures old(preview.Some?) ==>
                var id := old(preview.value.id); var w := old(View()).(preview := None);
                && (St(w, id).draining || St(w, id).jobActive ==> View() == DoEnqueue(w, id, Restart))
                && (ExitDue(w, id) ==> Settled(DoEnqueue(w, id, Restart), View(), id, bad) && preview.None?
                                       && Next(old(trace), trace, Enqueued(id, old(nextSerial), Restart)))
                && (St(w, id).runtime.None? && St(w, id).pendingStop.None? && !St(w, id).jobActive
                    ==> State(id).pendingStop.None?)
      decreases PreviewCount(View()), 0, 0, 0
    {
      if preview.None? {
        return;
      }
      ghost var w := View();
      var id := preview.value.id;
      AfterUnpreview(w, bad);
      preview := None;
      EnqueueJob(id, Restart, bad);
    }

    // ------------------------------------------------------------ what the outside world does

    constructor (disk: map<Id, DiskEntry>)
      ensures AllGood(View()) && trace == [] && states == map[] && preview.None? && this.disk == disk
    {
      states, this.disk, preview, live := map[], disk, None, map[];
      dead, aborted, working, released := {}, {}, map[], {};
      nextPid, nextSerial, nextToken := 0, 0, 0;
      trace, exiting, owner, changed := [], map[], map[], disk.Keys;
      new;
      ghost var w := View();
      forall p ensures PidOk(w, p) {}
      forall s ensures SerialOk(w, s) {}
      forall k ensures IdOk(w, k) && Fine(w, k, {}) && !St(w, k).draining {}
    }

    /** The user enables or disables an extension; a stored error is dropped. */
    method ToggleEnabled(id: Id, enabled: bool)
      requires AllGood(View())
      modifies this
      ensures AllGood(View())
      ensures old(State(id).jobActive || State(id).pendingStop.Some?) ==>
                View() == old(View()).(disk := old(disk)[id := old(Entry(id)).(enabled := enabled, error := false)])
      ensures Accounted(old(View()), View())
      ensures !TouchedSince(trace, |old(trace)|, id) ==>
                Entry(id).enabled == enabled && Entry(id).version == old(Entry(id)).version
    {
      ghost var w := View();
      AfterFlags(w, id, Entry(id).(enabled := enabled, error := false));
      GoodAt(w, id);
      disk := disk[id := Entry(id).(enabled := enabled, error := false)];
      ghost var w1 := View();
      Reconcile(id, {});
      GoodAfter(w, w1, View(), id);
      OnwardAccounts(w1, View(), id);
    }

    /** An install, update or uninstall is requested. */
    method RequestJob(id: Id, kind: JobKind)
      requires AllGood(View())
      modifies this
      ensures AllGood(View())
      ensures Next(old(trace), trace, Enqueued(id, old(nextSerial), kind)) && Accounted(old(View()), View())
    {
      ghost var w := View();
      GoodAt(w, id);
      EnqueueJob(id, kind, {});
      GoodAfter(w, DoEnqueue(w, id, kind), View(), id);
      EnqueuedOnward(w, View(), id, kind);
      OnwardAccounts(w, View(), id);
    }

    /** A process is gone. */
    method ProcessExit(pid: Pid)
      requires AllGood(View()) && pid in live
      modifies this
      ensures AllGood(View())
      ensures Next(old(trace), trace, Exited(pid, old(live[pid].id), if pid in old(aborted) then Stopped else Crashed))
      ensures old(Waits(View(), live[pid].id)) && old(State(live[pid].id).runtime) != Some(pid) ==>
                Shrinks(old(View()), View(), old(live[pid].id))
      ensures NoGrow(old(View()), View(), old(live[pid].id)) && Accounted(old(View()), View())
      ensures old(State(live[pid].id).pendingStop) == Some([]) ==> State(old(live[pid].id)).pendingStop.None?
    {
      ghost var w := View();
      var id := live[pid].id;
      GoodAt(w, id);
      ExitHandler(id, live[pid].record, Some(pid), if pid in aborted then Stopped else Crashed, {});
      GoodSettled(w, View(), id);
    }

    /** A process dies; its exit is noticed later. */
    method ProcessDies(pid: Pid)
      requires AllGood(View())
      modifies this`dead
      ensures AllGood(View()) && View() == old(View()).(dead := old(dead) + {pid})
    {
      AfterDeath(View(), pid);
      dead := dead + {pid};
    }

    /** Outside work of a job completes: it fails and releases, or goes on to stop the process. */
    method JobStep(serial: Serial)
      requires AllGood(View()) && serial in working
      modifies this
      ensures AllGood(View())
      ensures var id := old(working[serial]);
              NoGrow(old(View()), View(), id) && (Shrinks(old(View()), View(), id) || Waits(View(), id))
      ensures Accounted(old(View()), View())
    {
      ghost var w := View();
      var id := working[serial];
      AfterReturn(w, id, serial);
      working := working - {serial};
      ghost var w1 := View();
      if * {
        ReleaseJob(id, serial, {});
      } else {
        StopExtension(id, Touch(serial), {});
      }
      Compose(w, w1, View(), id, {});
      GoodAfter(w, w1, View(), id);
      OnwardAccounts(w, View(), id);
    }

    /** A release that comes late, from a job that already released, changes nothing. */
    method LateRelease(id: Id, serial: Serial)
      requires AllGood(View()) && serial in released
      modifies this
      ensures View() == old(View())
    {
      GoodAt(View(), id);
      ReleaseJob(id, serial, {});
    }

    /** Another program changes the installed copy or the state file. */
    method DiskChanged(id: Id, entry: DiskEntry)
      requires AllGood(View())
      modifies this`disk, this`changed
      ensures AllGood(View()) && View() == old(View()).(disk := old(disk)[id := entry], changed := old(changed) + {id})
    {
      AfterDiskChange(View(), id, entry);
      disk := disk[id := entry];
      changed := changed + {id};
    }

    /** ... and tells the service, which restarts every id named. */
    method Reload(ids: seq<Id>)
      requires AllGood(View())
      modifies this
      ensures AllGood(View())
      ensures changed <= old(changed) && forall id :: id in ids ==> id !in changed
      ensures Accounted(old(View()), View())
    {
      var i := 0;
      while i < |ids|
        invariant 0 <= i <= |ids| && AllGood(View()) && Accounted(old(View()), View())
        invariant changed <= old(changed) && forall j :: 0 <= j < i ==> ids[j] !in changed
      {
        ghost var w := View();
        ReloadOne(ids[i]);
        OnwardAccounts(w, View(), ids[i]);
        AccountedTrans(old(View()), w, View());
        i := i + 1;
      }
    }

    method ReloadOne(id: Id)
      requires AllGood(View())
      modifies this
      ensures AllGood(View())
      ensures changed <= old(changed) && id !in changed && Onward(old(View()), View(), id)
      ensures old(Get(id).Some? || id in states) ==>
                Next(old(trace), trace, Enqueued(id, old(nextSerial), Restart)) && RestartDue(old(View()), View(), id)
      ensures old(Get(id).None? && id !in states) ==> View() == old(View()).(changed := changed)
    {
      ghost var w := View();
      AfterNotice(w, id);
      AllCalm(w);
      changed := changed - {id};
      ghost var w1 := View();
      if Get(id).Some? || id in states {
        QueueRestart(id, {});
        OnwardTrans(w, w1, View(), id);
      }
      GoodFrom(View(), id);
    }

    /** Queues a restart of an id that is in order but for what it should run. */
    method QueueRestart(id: Id, ghost bad: set<Id>)
      requires Core(View()) && Rest(View(), id, bad) && Weak(View(), id) && Calm(View())
      modifies this
      ensures Core(View()) && Rest(View(), id, bad) && Weak(View(), id) && Strong(View(), id) && Calm(View())
      ensures changed <= old(changed) && nextToken == old(nextToken) && (preview == old(preview) || preview.None?)
      ensures Onward(old(View()), View(), id) && RestartDue(old(View()), View(), id)
      ensures Next(old(trace), trace, Enqueued(id, old(nextSerial), Restart))
    {
      ghost var w := View();
      EnqueueJob(id, Restart, bad);
      CalmKept(w, DoEnqueue(w, id, Restart), View(), id, bad);
      EnqueuedOnward(w, View(), id, Restart);
      EnqueuedRestart(w, View(), id);
    }

    /** A preview of `id` starts, superseding any other, whose id is restarted first. */
    method PreviewExt(id: Id)
      requires AllGood(View())
      modifies this
      ensures AllGood(View())
      ensures preview.None? || preview == Some(PreviewRecord(id, old(nextToken)))
      ensures nextToken == old(nextToken) + 1
      ensures exists i :: |old(trace)| <= i < |trace| && trace[i].Enqueued? && trace[i].id == id && trace[i].kind == Restart
      ensures old(preview.Some?) && old(preview).value.id != id ==>
                Next(old(trace), trace, Enqueued(old(preview).value.id, old(nextSerial), Restart))
      ensures Accounted(old(View()), View())
    {
      Supersede(id);
      ghost var n, w1 := |trace|, View();
      QueueRestart(id, {});
      OnwardAccounts(w1, View(), id);
      AccountedTrans(old(View()), w1, View());
      assert trace[n].Enqueued? && trace[n].id == id && trace[n].kind == Restart;
      GoodFrom(View(), id);
    }

    /** The new preview takes the place of any other, whose id is restarted. */
    method Supersede(id: Id)
      requires AllGood(View())
      modifies this
      ensures Core(View()) && Rest(View(), id, {}) && Weak(View(), id) && Calm(View())
      ensures (preview.None? || preview == Some(PreviewRecord(id, old(nextToken)))) && nextToken == old(nextToken) + 1
      ensures Accounted(old(View()), View())
      ensures old(preview.Some?) && old(preview).value.id != id ==>
                Next(old(trace), trace, Enqueued(old(preview).value.id, old(nextSerial), Restart))
    {
      ghost var w := View();
      var previous := preview;
      var superseded := previous.Some? && previous.value.id != id;
      var first := if superseded then previous.value.id else id;
      PreviewFirst(w, id, first, if superseded then {id} else {});
      AllCalm(w);
      SetPreview(id);
      ghost var w1 := View();
      if superseded {
        QueueRestart(first, {id});
        PreviewSecond(View(), first, id);
        OnwardAccounts(w1, View(), first);
        AccountedTrans(w, w1, View());
      }
    }

    method SetPreview(id: Id)
      modifies this`preview, this`nextToken
      ensures View() == old(NewPreview(View(), id))
    {
      preview := Some(PreviewRecord(id, nextToken));
      nextToken := nextToken + 1;
    }

    /** The preview ends on request. */
    method EndPreview()
      requires AllGood(View())
      modifies this
      ensures AllGood(View()) && preview.None? && Accounted(old(View()), View())
      ensures old(preview.None?) ==> View() == old(View())
      ensures old(preview.Some?) ==> Next(old(trace), trace, Enqueued(old(preview).value.id, old(nextSerial), Restart))
    {
      if preview.Some? {
        ghost var w, id := View(), preview.value.id;
        GoodAt(w, id);
        StopPreview({});
        GoodAfter(w, DoEnqueue(w.(preview := None), id, Restart), View(), id);
        EnqueuedOnward(w.(preview := None), View(), id, Restart);
        OnwardAccounts(w.(preview := None), View(), id);
      }
    }

    /** At startup every enabled extension is started, also one whose stored error stopped it before. */
    method StartExtensions(ids: set<Id>)
      requires AllGood(View())
      modifies this
      ensures AllGood(View()) && Accounted(old(View()), View())
      ensures old(states == map[] && preview.None?) ==> changed !! ids
    {
      var rest := ids;
      ghost var idle := states == map[] && preview.None?;
      while rest != {}
        invariant AllGood(View()) && rest <= ids && Accounted(old(View()), View())
        invariant idle ==> preview.None? && changed !! (ids - rest) && forall k :: k in rest ==> State(k) == FRESH
        decreases rest
      {
        var id :| id in rest;
        rest := rest - {id};
        ghost var w := View();
        StartOne(id);
        AccountedTrans(old(View()), w, View());
      }
    }

    method StartOne(id: Id)
      requires AllGood(View())
      modifies this
      ensures AllGood(View()) && OnlyAt(old(View()), View(), id) && Accounted(old(View()), View())
      ensures changed <= old(changed) && (old(preview.None?) ==> preview.None?)
      ensures old(State(id)) == FRESH && old(preview.None?) ==> id !in changed
    {
      ghost var w := View();
      GoodAt(w, id);
      var r := Get(id);
      if r.Some? && Entry(id).enabled {
        StartExtension(id, r.value, {});
        GoodSettled(w, View(), id);
      } else {
        Look(id);
      }
    }

    /** An id that is not to be started and runs nothing is in order. */
    method Look(id: Id)
      requires AllGood(View())
      modifies this`changed
      ensures AllGood(View()) && changed <= old(changed) && OnlyAt(old(View()), View(), id) && Accounted(old(View()), View())
      ensures State(id).runtime.None? && preview.None? && (Get(id).None? || !Entry(id).enabled) ==> id !in changed
    {
      if State(id).runtime.None? && (Get(id).None? || (Get(id).value.Installed? && !Entry(id).enabled)) {
        ghost var w := View();
        GoodAt(w, id);
        AfterLook(w, id, {});
        changed := changed - {id};
        GoodSettled(w, View(), id);
      }
    }

    /** However the outside steps an id waits for turn out, finitely many of them leave it converged. */
    method Settle(id: Id)
      requires AllGood(View())
      modifies this
      ensures AllGood(View()) && Quiet(State(id)) && NoGrow(old(View()), View(), id)
      ensures id !in changed ==> State(id).record == Desired(View(), id)
    {
      while !Quiet(State(id))
        invariant AllGood(View()) && NoGrow(old(View()), View(), id)
        decreases PreviewCount(View()), Load(View(), id), if Quiet(State(id)) then 0 else if Waits(View(), id) then 1 else 2
      {
        ghost var w := View();
        if s: Serial :| s in working && working[s] == id {
          HolderWorks(View(), s);
          JobStep(s);
        } else {
          OnlyProcessStops(View(), id);
          var pid :| pid in live && live[pid].id == id;
          ProcessExit(pid);
        }
        NoGrowTrans(old(View()), w, View(), id);
        GoodAt(View(), id);
      }
      GoodAt(View(), id);
    }

    /** A reload of an extension that should run leaves it running, whatever was in flight, unless
        meanwhile a process of it crashed or could not be started, or a job changed its directory.
        What runs then is a process that was started after the reload. */
    method ReloadAndSettle(id: Id)
      requires AllGood(View()) && Desired(View(), id).Some?
      modifies this
      ensures AllGood(View()) && Quiet(State(id))
      ensures
        || FaultSince(trace, |old(trace)|, id) || TouchedSince(trace, |old(trace)|, id)
        || (State(id).runtime.Some? && State(id).record == old(Desired(View(), id)))
      ensures State(id).runtime.Some? ==> State(id).runtime.value >= old(nextPid)
    {
      ghost var w := View();
      ReloadOne(id);
      ghost var w1 := View();
      Settle(id);
      OnwardTrans(w, w1, View(), id);
      if BlamedSince(trace, |w.trace|, id) {
        BlameNeedsFault(trace, |w.trace|, id);
      }
      assert IdOk(View(), id);
    }

    /** Any action of the outside world; one that is not possible now does nothing. */
    method Perform(a: Action)
      requires AllGood(View())
      modifies this
      ensures AllGood(View())
      ensures !a.Changed? ==> Accounted(old(View()), View())
      ensures a.Toggle? && !TouchedSince(trace, |old(trace)|, a.id) ==> Entry(a.id).enabled == a.enabled
      ensures a.Request? ==> Next(old(trace), trace, Enqueued(a.id, old(nextSerial), a.kind))
      ensures a.Reloaded? ==> forall id :: id in a.ids ==> id !in changed
      ensures a.Previewed? ==> nextToken == old(nextToken) + 1
      ensures a.PreviewEnded? ==> preview.None?
      ensures a.Changed? ==> disk == old(disk)[a.id := a.entry] && trace == old(trace)
      ensures a.Died? && old(a.pid in live) ==>
                Next(old(trace), trace, Exited(a.pid, old(live[a.pid].id), if a.pid in old(aborted) then Stopped else Crashed))
      ensures a.Returned? && old(a.serial in working) ==>
                var id := old(working[a.serial]); Shrinks(old(View()), View(), id) || Waits(View(), id)
      ensures a.Died? && old(a.pid !in live) ==> View() == old(View())
      ensures a.Returned? && old(a.serial !in working) ==> View() == old(View())
      ensures a.ReleasedLate? ==> View() == old(View())
    {
      match a
      case Toggle(id, enabled) => ToggleEnabled(id, enabled);
      case Request(id, kind) => RequestJob(id, kind);
      case Reloaded(ids) => Reload(ids);
      case Previewed(id) => PreviewExt(id);
      case PreviewEnded => EndPreview();
      case Started(found) => StartExtensions(found);
      case Changed(id, entry) => DiskChanged(id, entry);
      case Dies(pid) => ProcessDies(pid);
      case Died(pid) =>
        if pid in live {
          ProcessExit(pid);
        }
      case Returned(serial) =>
        if serial in working {
          JobStep(serial);
        }
      case ReleasedLate(id, serial) =>
        if serial in released {
          LateRelease(id, serial);
        }
    }
  }

  datatype Action =
    | Toggle(id: Id, enabled: bool)
    | Request(id: Id, kind: JobKind)
    | Reloaded(ids: seq<Id>)
    | Previewed(id: Id)
    | PreviewEnded
    | Started(found: set<Id>)
    | Changed(id: Id, entry: DiskEntry)
    | Dies(pid: Pid)
    | Died(pid: Pid)
    | Returned(serial: Serial)
    | ReleasedLate(id: Id, serial: Serial)

  /** Another program stored an error for the id. */
  predicate FromOutside(script: seq<Action>, id: Id) {
    exists j {:trigger script[j]} :: 0 <= j < |script| && script[j].Changed? && script[j].id == id && script[j].entry.error
  }

  /** The stored error of an id was there at the start, came from outside, or is in the history. */
  ghost predicate Explained(disk: map<Id, DiskEntry>, script: seq<Action>, w: World, id: Id) {
    Disk(w, id).error ==>
      || (id in disk && disk[id].error)
      || FromOutside(script, id)
      || BlamedSince(w.trace, 0, id)
  }

  lemma ExplainedStill(disk: map<Id, DiskEntry>, script: seq<Action>, i: nat, w: World, w': World, id: Id)
    requires i < |script| && Explained(disk, script[..i], w, id)
    requires if script[i].Changed? then w'.disk == w.disk[script[i].id := script[i].entry] && w'.trace == w.trace
             else Accounted(w, w')
    ensures Explained(disk, script[..i + 1], w', id)
  {
    assert forall j :: 0 <= j < i ==> script[..i + 1][j] == script[..i][j];
    if script[i].Changed? {
      assert script[..i + 1][i] == script[i];
      assert id != script[i].id ==> Disk(w', id) == Disk(w, id);
    } else if BlamedSince(w.trace, 0, id) {
      var k :| 0 <= k < |w.trace| && w.trace[k] == Blamed(id);
      assert w'.trace[k] == Blamed(id);
    }
  }

  lemma AllExplained(disk: map<Id, DiskEntry>, script: seq<Action>, i: nat, longer: seq<Action>, w: World, w': World)
    requires i < |script| && longer == script[..i + 1] && forall id :: Explained(disk, script[..i], w, id)
    requires if script[i].Changed? then w'.disk == w.disk[script[i].id := script[i].entry] && w'.trace == w.trace
             else Accounted(w, w')
    ensures forall id :: Explained(disk, longer, w', id)
  {
    forall id ensures Explained(disk, longer, w', id) {
      ExplainedStill(disk, script, i, w, w', id);
    }
  }

  /** Every run, from an empty service over any disk, keeps the invariants after every action. */
  method Run(disk: map<Id, DiskEntry>, script: seq<Action>) returns (s: Service)
    ensures fresh(s) && AllGood(s.View()) && Accepts(s.trace)
    ensures forall id :: Quiet(s.State(id)) && id !in s.changed ==> s.State(id).record == Desired(s.View(), id)
    ensures forall id :: Explained(disk, script, s.View(), id)
  {
    s := new Service(disk);
    var i := 0;
    while i < |script|
      invariant i <= |script| && fresh(s) && AllGood(s.View())
      invariant forall id :: Explained(disk, script[..i], s.View(), id)
    {
      ghost var w := s.View();
      s.Perform(script[i]);
      AllExplained(disk, script, i, script[..i + 1], w, s.View());
      i := i + 1;
    }
    assert script[..i] == script;
    forall id | Quiet(s.State(id)) && id !in s.changed ensures s.State(id).record == Desired(s.View(), id) {
      GoodAt(s.View(), id);
    }
  }
}
