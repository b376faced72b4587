// Today's screen time, from a history of changes between the active and the inactive state.
module ScreenTime {

  // A change of state at a wall-clock time.
  datatype Change = Change(wasActive: bool, isActive: bool, wall: real)

  // What reading the history file accepts: real changes, in the order of time.
  ghost predicate Readable(history: seq<Change>) {
    && (forall i :: 0 <= i < |history| ==> history[i].wasActive != history[i].isActive && history[i].wall >= 0.0)
    && (forall i, j :: 0 <= i < j < |history| ==> history[i].wall <= history[j].wall)
  }

  // Each change starts from the state the one before led to. Reading does not check this.
  predicate Chained(history: seq<Change>) {
    forall i :: 0 < i < |history| ==> history[i].wasActive == history[i - 1].isActive
  }

  method ParseHistory(items: seq<Change>) returns (history: seq<Change>)
    ensures Readable(history)
    ensures Readable(items) ==> history == items
    ensures !Readable(items) ==> history == []
  {
    history := [];
    var previous := 0.0;
    for i := 0 to |items|
      invariant history == items[..i] && Readable(history)
      invariant previous == if i == 0 then 0.0 else items[i - 1].wall
    {
      var item := items[i];
      if item.wasActive == item.isActive || item.wall < previous {
        return [];
      }
      history := history + [item];
      previous := item.wall;
    }
    assert items[..|items|] == items;
  }

  function Max(a: real, b: real): real {
    if a < b then b else a
  }

  function Min(a: real, b: real): real {
    if a < b then a else b
  }

  // How much of [from, to] lies within [lo, hi].
  function Clip(from: real, to: real, lo: real, hi: real): real {
    Max(0.0, Min(to, hi) - Max(from, lo))
  }

  // The active time in [lo, hi] up to the i-th change: time is cut into pieces at the changes, the
  // first piece reaches back for ever, and a piece counts if the change at its end leaves the
  // active state.
  function ActiveBefore(history: seq<Change>, i: nat, lo: real, hi: real): real
    requires i <= |history|
  {
    if i == 0 then 0.0
    else
      var from := if i == 1 then lo else history[i - 2].wall;
      ActiveBefore(history, i - 1, lo, hi)
      + if history[i - 1].wasActive then Clip(from, history[i - 1].wall, lo, hi) else 0.0
  }

  // All of it: after the last change the state no longer changes.
  function ActiveTime(history: seq<Change>, lo: real, hi: real): real {
    if history == [] then 0.0
    else
      var last := history[|history| - 1];
      ActiveBefore(history, |history|, lo, hi) + if last.isActive then Clip(last.wall, hi, lo, hi) else 0.0
  }

  lemma {:induction false} NothingBeforeToday(history: seq<Change>, i: nat, lo: real, hi: real)
    requires i <= |history| && forall j :: 0 <= j < i ==> history[j].wall < lo
    ensures ActiveBefore(history, i, lo, hi) == 0.0
  {
    if i > 0 {
      NothingBeforeToday(history, i - 1, lo, hi);
    }
  }

  // What the tally of today's changes holds: the time counted, and since when the active state is
  // thought to last.
  datatype Tally = Tally(active: real, since: real)

  function Tallied(t: Tally, change: Change): Tally {
    if change.isActive then t.(since := change.wall)
    else if change.wasActive then t.(active := t.active + Max(change.wall - t.since, 0.0))
    else t
  }

  function FirstSince(history: seq<Change>, lo: real): (first: nat)
    ensures first <= |history|
    ensures forall j :: 0 <= j < first ==> history[j].wall < lo
    ensures first < |history| ==> history[first].wall >= lo
  {
    if history == [] || history[0].wall >= lo then 0 else 1 + FirstSince(history[1..], lo)
  }

  function TallyUpTo(history: seq<Change>, i: nat, lo: real): Tally
    requires i <= |history|
  {
    if i <= FirstSince(history, lo) then Tally(0.0, lo)
    else Tallied(TallyUpTo(history, i - 1, lo), history[i - 1])
  }

  function ScreenSeconds(history: seq<Change>, lo: real, now: real): real {
    var t := TallyUpTo(history, |history|, lo);
    Max(0.0, t.active + if history != [] && history[|history| - 1].isActive then Max(now - t.since, 0.0) else 0.0)
  }

  method ActiveSecondsToday(now: real, startOfToday: real, entries: seq<Change>) returns (active: real)
    ensures active == ScreenSeconds(entries, startOfToday, now)
  {
    var firstToday := -1;
    var index := 0;
    while index < |entries|
      invariant index <= |entries| && firstToday == -1
      invariant forall j :: 0 <= j < index ==> entries[j].wall < startOfToday
    {
      if entries[index].wall >= startOfToday {
        firstToday := index;
        break;
      }
      index := index + 1;
    }
    active := 0.0;
    var activeStart := startOfToday;
    assert firstToday >= 0 ==> firstToday == FirstSince(entries, startOfToday);
    assert firstToday < 0 ==> FirstSince(entries, startOfToday) == |entries|;
    if firstToday >= 0 {
      for i := firstToday to |entries|
        invariant Tally(active, activeStart) == TallyUpTo(entries, i, startOfToday)
      {
        var entry := entries[i];
        if entry.isActive {
          activeStart := entry.wall;
        } else if entry.wasActive {
          active := active + Max(entry.wall - activeStart, 0.0);
        }
      }
    }
    if |entries| > 0 && entries[|entries| - 1].isActive {
      active := active + Max(now - activeStart, 0.0);
    }
    active := Max(0.0, active);
  }

  // What is counted more than once: when the active state ends twice in a row, the time from its last
  // start (or the start of the day) to the first of the two ends is counted again with the second.
  function Surplus(history: seq<Change>, i: nat, lo: real): real
    requires i <= |history|
  {
    if i < 2 then 0.0
    else
      Surplus(history, i - 1, lo)
      + if history[i - 1].wasActive && history[i - 2].wasActive
        then Max(0.0, history[i - 2].wall - TallyUpTo(history, i - 1, lo).since) else 0.0
  }

  // The tally is the active time and the surplus.
  lemma {:induction false} TallyIsActive(history: seq<Change>, i: nat, lo: real, now: real)
    requires Readable(history) && lo <= now && i <= |history|
    requires forall j :: 0 <= j < |history| ==> history[j].wall <= now
    ensures TallyUpTo(history, i, lo).active == ActiveBefore(history, i, lo, now) + Surplus(history, i, lo)
    ensures i > 0 && history[i - 1].isActive ==> TallyUpTo(history, i, lo).since == Max(history[i - 1].wall, lo)
    ensures i <= FirstSince(history, lo) ==> TallyUpTo(history, i, lo) == Tally(0.0, lo)
    ensures i > 0 ==> TallyUpTo(history, i, lo).since <= Max(history[i - 1].wall, lo)
  {
    if i <= FirstSince(history, lo) {
      NothingBeforeToday(history, i, lo, now);
      NothingExtraBeforeToday(history, i, lo);
    } else {
      TallyIsActive(history, i - 1, lo, now);
    }
  }

  lemma {:induction false} NothingExtraBeforeToday(history: seq<Change>, i: nat, lo: real)
    requires i <= FirstSince(history, lo)
    ensures Surplus(history, i, lo) == 0.0
  {
    if i >= 2 {
      NothingExtraBeforeToday(history, i - 1, lo);
    }
  }

  // For every readable history the seconds counted are the measure of the active time between the
  // start of the day and now, and the surplus on top of it.
  lemma ScreenTimeIsActiveTime(history: seq<Change>, lo: real, now: real)
    requires Readable(history) && lo <= now
    requires forall j :: 0 <= j < |history| ==> history[j].wall <= now
    ensures ScreenSeconds(history, lo, now) == ActiveTime(history, lo, now) + Surplus(history, |history|, lo)
    ensures Surplus(history, |history|, lo) >= 0.0
  {
    TallyIsActive(history, |history|, lo, now);
    ActiveBounds(history, |history|, lo, now);
    SurplusIsExtra(history, |history|, lo);
  }

  lemma {:induction false} SurplusIsExtra(history: seq<Change>, i: nat, lo: real)
    requires i <= |history|
    ensures Surplus(history, i, lo) >= 0.0
  {
    if i >= 2 {
      SurplusIsExtra(history, i - 1, lo);
    }
  }

  // No two changes in a row end the active state so that the first of them is later than both the
  // start of the day and every earlier start of the active state.
  predicate CountedOnce(history: seq<Change>, lo: real) {
    forall i :: 0 < i < |history| ==> !EndsTwice(history, i, lo)
  }

  predicate EndsTwice(history: seq<Change>, i: nat, lo: real)
    requires 0 < i < |history|
  {
    && history[i].wasActive && history[i - 1].wasActive
    && history[i - 1].wall > lo
    && forall j :: 0 <= j < i - 1 && history[j].isActive ==> history[j].wall < history[i - 1].wall
  }

  // Since when the active state is thought to last: the last start, if that was today.
  lemma {:induction false} SinceIsLastStart(history: seq<Change>, i: nat, lo: real)
    requires Readable(history) && i <= |history|
    ensures TallyUpTo(history, i, lo).since >= lo
    ensures forall j :: 0 <= j < i && history[j].isActive ==> history[j].wall <= TallyUpTo(history, i, lo).since
    ensures TallyUpTo(history, i, lo).since > lo ==>
      exists j :: 0 <= j < i && history[j].isActive && history[j].wall == TallyUpTo(history, i, lo).since
  {
    if i > 0 {
      SinceIsLastStart(history, i - 1, lo);
    }
  }

  lemma ExtraIffEndsTwice(history: seq<Change>, i: nat, lo: real)
    requires Readable(history) && 0 < i < |history|
    ensures EndsTwice(history, i, lo) <==>
      && history[i].wasActive && history[i - 1].wasActive
      && history[i - 1].wall > TallyUpTo(history, i, lo).since
  {
    SinceIsLastStart(history, i, lo);
    var since := TallyUpTo(history, i, lo).since;
    if history[i - 1].wasActive && since > lo {
      var j :| 0 <= j < i && history[j].isActive && history[j].wall == since;
      assert j != i - 1;
    }
  }

  lemma {:induction false} NoSurplusIff(history: seq<Change>, i: nat, lo: real)
    requires Readable(history) && i <= |history|
    ensures Surplus(history, i, lo) == 0.0 <==> forall k :: 0 < k < i ==> !EndsTwice(history, k, lo)
  {
    if i >= 2 {
      NoSurplusIff(history, i - 1, lo);
      SurplusIsExtra(history, i - 1, lo);
      ExtraIffEndsTwice(history, i - 1, lo);
    }
  }

  // The exact condition under which the seconds counted are the active time.
  lemma CountedRightIff(history: seq<Change>, lo: real, now: real)
    requires Readable(history) && lo <= now
    requires forall j :: 0 <= j < |history| ==> history[j].wall <= now
    ensures ScreenSeconds(history, lo, now) == ActiveTime(history, lo, now) <==> CountedOnce(history, lo)
  {
    ScreenTimeIsActiveTime(history, lo, now);
    NoSurplusIff(history, |history|, lo);
  }

  // It holds of every history whose changes follow each other.
  lemma ChainedIsCountedOnce(history: seq<Change>, lo: real)
    requires Readable(history) && Chained(history)
    ensures CountedOnce(history, lo)
  {
    forall i | 0 < i < |history| ensures !EndsTwice(history, i, lo) {
      assert history[i].wasActive == history[i - 1].isActive;
    }
  }

  // A history in which the active state ends twice is readable, but its time is counted twice: after
  // twenty seconds of the day thirty are reported.
  lemma UnchainedCountsTwice()
    ensures
      var history := [Change(true, false, 10.0), Change(true, false, 20.0)];
      && Readable(history) && !CountedOnce(history, 0.0)
      && ScreenSeconds(history, 0.0, 20.0) == 30.0 && ActiveTime(history, 0.0, 20.0) == 20.0
  {
    var history := [Change(true, false, 10.0), Change(true, false, 20.0)];
    assert EndsTwice(history, 1, 0.0);
    assert FirstSince(history, 0.0) == 0;
    assert TallyUpTo(history, 1, 0.0) == Tally(10.0, 0.0);
    assert TallyUpTo(history, 2, 0.0) == Tally(30.0, 0.0);
    assert ActiveBefore(history, 1, 0.0, 20.0) == 10.0;
  }

  lemma {:induction false} ActiveBounds(history: seq<Change>, i: nat, lo: real, hi: real)
    requires Readable(history) && i <= |history| && lo <= hi && forall j :: 0 <= j < |history| ==> history[j].wall <= hi
    ensures 0.0 <= ActiveBefore(history, i, lo, hi) <= if i == 0 then 0.0 else Max(0.0, history[i - 1].wall - lo)
  {
    if i > 0 {
      ActiveBounds(history, i - 1, lo, hi);
    }
  }

  // The same history with the states exchanged.
  function Swapped(history: seq<Change>): (r: seq<Change>)
    ensures |r| == |history|
    ensures forall i :: 0 <= i < |r| ==> r[i] == Change(!history[i].wasActive, !history[i].isActive, history[i].wall)
  {
    seq(|history|, i requires 0 <= i < |history| => Change(!history[i].wasActive, !history[i].isActive, history[i].wall))
  }

  lemma {:induction false} PiecesAddUp(history: seq<Change>, i: nat, lo: real, hi: real)
    requires Readable(history) && i <= |history| && lo <= hi && forall j :: 0 <= j < |history| ==> history[j].wall <= hi
    ensures ActiveBefore(history, i, lo, hi) + ActiveBefore(Swapped(history), i, lo, hi)
         == if i == 0 then 0.0 else Max(0.0, history[i - 1].wall - lo)
  {
    if i > 0 {
      PiecesAddUp(history, i - 1, lo, hi);
    }
  }

  // Active and inactive time are together the day so far.
  lemma DayAddsUp(history: seq<Change>, lo: real, now: real)
    requires history != [] && Readable(history) && lo <= now && forall i :: 0 <= i < |history| ==> history[i].wall <= now
    ensures ActiveTime(history, lo, now) + ActiveTime(Swapped(history), lo, now) == now - lo
  {
    PiecesAddUp(history, |history|, lo, now);
  }

  lemma ActiveTimeBounds(history: seq<Change>, lo: real, now: real)
    requires Readable(history) && lo <= now && forall i :: 0 <= i < |history| ==> history[i].wall <= now
    ensures 0.0 <= ActiveTime(history, lo, now) <= now - lo
  {
    ActiveBounds(history, |history|, lo, now);
  }

  // The seconds counted are at most those the day has lasted, exactly if what is counted twice fits
  // into the inactive time. In particular they are if nothing is counted twice.
  lemma ActiveAtMostToday(history: seq<Change>, lo: real, now: real)
    requires Readable(history) && lo <= now && forall i :: 0 <= i < |history| ==> history[i].wall <= now
    ensures ScreenSeconds(history, lo, now) >= 0.0
    ensures history != [] ==>
      (ScreenSeconds(history, lo, now) <= now - lo <==> Surplus(history, |history|, lo) <= ActiveTime(Swapped(history), lo, now))
    ensures CountedOnce(history, lo) ==> ScreenSeconds(history, lo, now) <= now - lo
  {
    ScreenTimeIsActiveTime(history, lo, now);
    CountedRightIff(history, lo, now);
    ActiveTimeBounds(history, lo, now);
    if history != [] {
      DayAddsUp(history, lo, now);
    }
  }

  lemma {:induction false} PastIsPast(history: seq<Change>, i: nat, lo: real, now: real, later: real)
    requires i <= |history| && now <= later && forall j :: 0 <= j < |history| ==> history[j].wall <= now
    ensures ActiveBefore(history, i, lo, now) == ActiveBefore(history, i, lo, later)
  {
    if i > 0 {
      PastIsPast(history, i - 1, lo, now, later);
    }
  }

  // While nothing changes the seconds counted grow with the clock, one by one in the active state
  // and not at all in the inactive one, whatever the history.
  lemma GrowsWithTheClock(history: seq<Change>, lo: real, now: real, later: real)
    requires Readable(history) && lo <= now <= later && forall i :: 0 <= i < |history| ==> history[i].wall <= now
    ensures
      ScreenSeconds(history, lo, later) - ScreenSeconds(history, lo, now) ==
        if history != [] && history[|history| - 1].isActive then later - now else 0.0
  {
    ScreenTimeIsActiveTime(history, lo, now);
    ScreenTimeIsActiveTime(history, lo, later);
    PastIsPast(history, |history|, lo, now, later);
  }

  // The seconds counted in the active state and those that would be counted in the inactive one are
  // together the day so far, exactly if neither counts anything twice.
  lemma ActiveAndInactive(history: seq<Change>, lo: real, now: real)
    requires history != [] && Readable(history)
    requires lo <= now && forall i :: 0 <= i < |history| ==> history[i].wall <= now
    ensures
      ScreenSeconds(history, lo, now) + ScreenSeconds(Swapped(history), lo, now) == now - lo <==>
        CountedOnce(history, lo) && CountedOnce(Swapped(history), lo)
  {
    var other := Swapped(history);
    assert Readable(other);
    DayAddsUp(history, lo, now);
    ScreenTimeIsActiveTime(history, lo, now);
    ScreenTimeIsActiveTime(other, lo, now);
    CountedRightIff(history, lo, now);
    CountedRightIff(other, lo, now);
  }
}
