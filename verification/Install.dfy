// Installing an extension: download into a staging directory, install dependencies, stop the running
// process, swap the directories, save the state. Every step may fail.
module Install {
  import opened Prelude

  // What a directory holds: the files installed before, the files downloaded, what a failed move
  // across devices has left behind, or a directory that another one was moved into.
  datatype Dir = Old | New | Scraps | Nested(outer: Dir, inner: Dir)

  // The three directories involved; None if there is none.
  datatype Disk = Disk(staging: Option<Dir>, target: Option<Dir>, backup: Option<Dir>)

  // How a move ends. A failed one keeps its source, and may leave scraps at its destination.
  datatype Outcome = Works | Fails(scraps: bool)

  // shutil.move: into a destination that exists, not over it.
  function Moved(from: Dir, to: Option<Dir>): Dir {
    if to.Some? then Nested(to.value, from) else from
  }

  function Failed(to: Option<Dir>, outcome: Outcome): Option<Dir> {
    if outcome.Fails? && outcome.scraps && to.None? then Some(Scraps) else to
  }

  class Directories {
    var staging: Option<Dir>
    var target: Option<Dir>
    var backup: Option<Dir>

    ghost function View(): Disk
      reads this
    {
      Disk(staging, target, backup)
    }

    constructor (installed: Option<Dir>, stale: Option<Dir>)
      ensures View() == Disk(None, installed, stale)
    {
      staging, target, backup := None, installed, stale;
    }

    // Replaces the installed directory by the staged one. A stale backup is no obstacle, and the
    // files installed before are never lost: on failure they are in place or in the backup.
    method SwapDir(backUp: Outcome, swap: Outcome, restore: Outcome) returns (ok: bool)
      requires staging == Some(New)
      modifies this
      ensures staging.None?
      ensures ok ==> target == Some(New) && backup.None?
      ensures ok <==> swap.Works? && (old(target).Some? ==> backUp.Works?)
      ensures !ok && old(target).Some? ==> target == old(target) || backup == old(target)
      ensures !ok && old(target).None? ==> target.None?
      ensures !ok && restore.Works? ==> target == old(target)
    {
      backup := None;
      var backedUp := false;
      if target.Some? {
        if backUp.Works? {
          backup := Some(Moved(target.value, backup));
          target := None;
          backedUp := true;
        } else {
          backup := Failed(backup, backUp);
          staging := None;
          return false;
        }
      }
      if swap.Fails? {
        target := Failed(target, swap);
        target := None;
        if backedUp {
          if restore.Works? {
            target := Some(Moved(backup.value, target));
            backup := None;
          } else {
            target := Failed(target, restore);
          }
        }
        staging := None;
        return false;
      }
      target := Some(Moved(staging.value, target));
      staging := None;
      backup := None;
      return true;
    }
  }

  // Where an installation is: which step's callbacks it waits for.
  datatype Phase = Downloading | InstallingDependencies | Stopping | Settled

  // A step calls exactly one of its callbacks, once.
  datatype Event =
    | Downloaded
    | DownloadFailed
    | DependenciesInstalled
    | DependenciesFailed
    | Stopped(backUp: Outcome, swap: Outcome, restore: Outcome, saves: bool)

  predicate Expected(phase: Phase, e: Event) {
    match phase
    case Downloading => e.Downloaded? || e.DownloadFailed?
    case InstallingDependencies => e.DependenciesInstalled? || e.DependenciesFailed?
    case Stopping => e.Stopped?
    case Settled => false
  }

  // A whole run: every event is one of those the step under way may end with.
  function PhaseAfter(phase: Phase, e: Event): Phase {
    match e
    case Downloaded => InstallingDependencies
    case DependenciesInstalled => Stopping
    case _ => Settled
  }

  predicate Orderly(phase: Phase, events: seq<Event>)
    decreases |events|
  {
    events == [] || (Expected(phase, events[0]) && Orderly(PhaseAfter(phase, events[0]), events[1..]))
  }

  // No further event can come.
  ghost predicate Over(phase: Phase) {
    forall e :: !Expected(phase, e)
  }

  // Until an installation is settled, some step is still to end.
  lemma OverIffSettled(phase: Phase)
    ensures Over(phase) <==> phase.Settled?
  {
    match phase
    case Downloading => assert Expected(phase, Downloaded);
    case InstallingDependencies => assert Expected(phase, DependenciesInstalled);
    case Stopping => assert Expected(phase, Stopped(Works, Works, Works, true));
    case Settled =>
  }

  class Installation {
    const dirs: Directories
    var phase: Phase
    ghost var dones: nat
    ghost var errors: nat
    ghost var saved: bool
    ghost const before: Option<Dir>

    // Nothing is reported before the end, one thing at the end, and it tells what is on disk. The
    // state is only saved for files that were swapped in.
    ghost predicate Valid()
      reads this, dirs
    {
      && dones + errors == (if phase.Settled? then 1 else 0)
      && (!phase.Settled? ==> dirs.staging == Some(New) && dirs.target == before && !saved)
      && (phase.Settled? ==> dirs.staging.None?)
      && (dones == 1 ==> dirs.target == Some(New) && dirs.backup.None? && saved)
      && (saved ==> dones == 1)
      && (errors == 1 && before.Some? ==> dirs.target in {before, Some(New)} || dirs.backup == before)
    }

    // `prepared` tells whether the staging directory could be made.
    constructor (d: Directories, prepared: bool)
      requires d.staging.None?
      modifies d
      ensures dirs == d && Valid() && before == old(d.target)
      ensures phase == if prepared then Downloading else Settled
      ensures !prepared ==> d.View() == old(d.View())
    {
      dirs := d;
      before := d.target;
      dones, errors, saved := 0, if prepared then 0 else 1, false;
      phase := if prepared then Downloading else Settled;
      new;
      if prepared {
        d.staging := Some(New);
      }
    }

    method Fail()
      requires Valid() && !phase.Settled?
      modifies this, dirs
      ensures Valid() && phase.Settled? && errors == 1 && dirs.target == old(dirs.target)
    {
      dirs.staging := None;
      errors := errors + 1;
      phase := Settled;
    }

    method SwapAndFinish(backUp: Outcome, swap: Outcome, restore: Outcome, saves: bool)
      requires Valid() && phase.Stopping?
      modifies this, dirs
      ensures Valid() && phase.Settled?
      ensures dones == 1 <==> saves && swap.Works? && (before.Some? ==> backUp.Works?)
    {
      var error := false;
      var swapped := dirs.SwapDir(backUp, swap, restore);
      if swapped {
        if saves {
          saved := true;
        } else {
          error := true;
        }
      } else {
        error := true;
      }
      dirs.staging := None;
      if error {
        errors := errors + 1;
      } else {
        dones := dones + 1;
      }
      phase := Settled;
    }

    method Handle(e: Event)
      requires Valid() && Expected(phase, e)
      modifies this, dirs
      ensures Valid() && phase == PhaseAfter(old(phase), e)
      ensures dones > old(dones) ==> e.Stopped?
      ensures e.Stopped? ==> (dones == 1 <==> e.saves && e.swap.Works? && (before.Some? ==> e.backUp.Works?))
    {
      match e
      case Downloaded => phase := InstallingDependencies;
      case DependenciesInstalled => phase := Stopping;
      case DownloadFailed => Fail();
      case DependenciesFailed => Fail();
      case Stopped(backUp, swap, restore, saves) => SwapAndFinish(backUp, swap, restore, saves);
    }

    // However the steps end, a run that no further event can continue has told the caller exactly
    // once; that comes after at most three events, and success means that every step succeeded.
    method Run(events: seq<Event>)
      requires Valid() && phase.Downloading? && Orderly(phase, events)
      modifies this, dirs
      ensures Valid()
      ensures Over(phase) ==> dones + errors == 1
      ensures !Over(phase) ==> dones + errors == 0
      ensures |events| <= 3 && (|events| == 3 ==> Over(phase))
      ensures dones == 1 <==>
        && |events| == 3 && events[0].Downloaded? && events[1].DependenciesInstalled? && events[2].Stopped?
        && events[2].saves && events[2].swap.Works? && (before.Some? ==> events[2].backUp.Works?)
    {
      ghost var rest := events;
      for i := 0 to |events|
        invariant Valid() && rest == events[i..] && Orderly(phase, rest)
        invariant (phase.Downloading? ==> i == 0) && i <= 3 && (i == 3 ==> phase.Settled?)
        invariant phase.InstallingDependencies? ==> i == 1 && events[0].Downloaded?
        invariant phase.Stopping? ==> i == 2 && events[0].Downloaded? && events[1].DependenciesInstalled?
        invariant dones == 1 <==>
          && i == |events| == 3 && events[0].Downloaded? && events[1].DependenciesInstalled? && events[2].Stopped?
          && events[2].saves && events[2].swap.Works? && (before.Some? ==> events[2].backUp.Works?)
        invariant phase.Settled? ==> i == |events|
        invariant phase.Settled? && dones == 0 ==>
          !(|events| == 3 && events[0].Downloaded? && events[1].DependenciesInstalled? && events[2].Stopped?
            && events[2].saves && events[2].swap.Works? && (before.Some? ==> events[2].backUp.Works?))
      {
        assert rest[0] == events[i] && rest[1..] == events[i + 1..];
        Handle(events[i]);
        rest := rest[1..];
        if phase.Settled? {
          assert rest == [];
        }
      }
      OverIffSettled(phase);
    }
  }
}
