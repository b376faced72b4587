// Ranking apps by a score that forgets: each launch adds one to the launched app and shrinks all
// scores by a factor that depends on how many launches there were, a number that is not stored but
// recovered from the sum of the scores.
module AppRankings {
  import opened Prelude

  // Apps are told apart by their desktop ids.
  type AppId = nat

  datatype Entry = Entry(app: AppId, score: real)

  const DECAY_RATE := 3

  // A dictionary keeps its entries in the order in which they were added.
  ghost predicate Distinct(es: seq<Entry>) {
    forall i, j :: 0 <= i < j < |es| ==> es[i].app != es[j].app
  }

  function Sum(es: seq<Entry>): real {
    if es == [] then 0.0 else es[0].score + Sum(es[1..])
  }

  // Python's round: to the nearest integer, ties to the even one.
  function Round(x: real): int {
    var f := x.Floor;
    var rest := x - f as real;
    if rest < 0.5 || (rest == 0.5 && f % 2 == 0) then f else f + 1
  }

  function Max(a: int, b: int): int {
    if a < b then b else a
  }

  function TotalLaunches(es: seq<Entry>): nat {
    Max(0, Round((DECAY_RATE + 1) as real * Sum(es) - DECAY_RATE as real))
  }

  function Decay(n: nat): real {
    n as real / (n + DECAY_RATE) as real
  }

  function Scaled(es: seq<Entry>, factor: real): seq<Entry> {
    if es == [] then [] else [Entry(es[0].app, es[0].score * factor)] + Scaled(es[1..], factor)
  }

  // dict.get(app, 0)
  function ScoreOf(es: seq<Entry>, app: AppId): real {
    if es == [] then 0.0 else if es[0].app == app then es[0].score else ScoreOf(es[1..], app)
  }

  predicate Has(es: seq<Entry>, app: AppId) {
    exists i :: 0 <= i < |es| && es[i].app == app
  }

  // dict[app] = score
  function Stored(es: seq<Entry>, app: AppId, score: real): seq<Entry> {
    if es == [] then [Entry(app, score)]
    else if es[0].app == app then [Entry(app, score)] + es[1..]
    else [es[0]] + Stored(es[1..], app, score)
  }

  // A launch, if there were n launches before.
  function BumpedAfter(es: seq<Entry>, n: nat, app: AppId): seq<Entry> {
    var faded := Scaled(es, Decay(n));
    Stored(faded, app, ScoreOf(faded, app) + 1.0)
  }

  // A launch as it is recorded: the number of launches before is read off the scores.
  function Bumped(es: seq<Entry>, app: AppId): seq<Entry> {
    BumpedAfter(es, TotalLaunches(es), app)
  }

  // The scores after opening these apps one after the other, from scratch.
  function Recorded(apps: seq<AppId>): seq<Entry> {
    if apps == [] then [] else Bumped(Recorded(apps[..|apps| - 1]), apps[|apps| - 1])
  }

  // The same with a counter.
  function History(apps: seq<AppId>): seq<Entry> {
    if apps == [] then [] else BumpedAfter(History(apps[..|apps| - 1]), |apps| - 1, apps[|apps| - 1])
  }

  // ---------------------------------------------------------------- sums and single scores

  lemma Distributes(a: real, b: real, factor: real)
    ensures (a + b) * factor == a * factor + b * factor
  {
  }

  lemma {:induction false} ScaledSum(es: seq<Entry>, factor: real)
    ensures Sum(Scaled(es, factor)) == Sum(es) * factor
  {
    if es != [] {
      ScaledSum(es[1..], factor);
      Distributes(es[0].score, Sum(es[1..]), factor);
    }
  }

  lemma {:induction false} ScaledScore(es: seq<Entry>, factor: real, app: AppId)
    ensures ScoreOf(Scaled(es, factor), app) == ScoreOf(es, app) * factor
  {
    if es != [] {
      ScaledScore(es[1..], factor, app);
    }
  }

  lemma {:induction false} StoredSum(es: seq<Entry>, app: AppId, score: real)
    ensures Sum(Stored(es, app, score)) == Sum(es) - ScoreOf(es, app) + score
  {
    if es == [] {
      assert Stored(es, app, score)[1..] == [];
    } else if es[0].app == app {
      assert Stored(es, app, score)[1..] == es[1..];
    } else {
      StoredSum(es[1..], app, score);
      assert Stored(es, app, score)[1..] == Stored(es[1..], app, score);
    }
  }

  lemma {:induction false} StoredScore(es: seq<Entry>, app: AppId, score: real, other: AppId)
    ensures ScoreOf(Stored(es, app, score), other) == if other == app then score else ScoreOf(es, other)
  {
    if es == [] {
      assert Stored(es, app, score)[1..] == [];
    } else if es[0].app == app {
      assert Stored(es, app, score)[1..] == es[1..];
    } else {
      StoredScore(es[1..], app, score, other);
      assert Stored(es, app, score)[1..] == Stored(es[1..], app, score);
    }
  }

  ghost predicate Unsigned(es: seq<Entry>) {
    forall i :: 0 <= i < |es| ==> es[i].score >= 0.0
  }

  lemma {:induction false} ScoreAtMostSum(es: seq<Entry>, app: AppId)
    requires Unsigned(es)
    ensures 0.0 <= ScoreOf(es, app) <= Sum(es)
  {
    if es != [] {
      ScoreAtMostSum(es[1..], app);
    }
  }

  lemma {:induction false} StoredUnsigned(es: seq<Entry>, app: AppId, score: real)
    requires Unsigned(es) && score >= 0.0
    ensures Unsigned(Stored(es, app, score))
  {
    if es != [] && es[0].app != app {
      StoredUnsigned(es[1..], app, score);
    }
  }

  // ---------------------------------------------------------------- the count in the sum

  // The scores of n launches: their sum tells n.
  ghost predicate Counts(es: seq<Entry>, n: nat) {
    && Unsigned(es)
    && (n == 0 ==> es == [])
    && (n > 0 ==> Sum(es) == (n + 3) as real / 4.0)
  }

  lemma SumTellsCount(es: seq<Entry>, n: nat)
    requires Counts(es, n)
    ensures TotalLaunches(es) == n
  {
    if n > 0 {
      assert 4.0 * Sum(es) - 3.0 == n as real;
    }
  }

  lemma {:induction false} ScaledUnsigned(es: seq<Entry>, factor: real)
    requires Unsigned(es) && factor >= 0.0
    ensures Unsigned(Scaled(es, factor))
  {
    if es != [] {
      ScaledUnsigned(es[1..], factor);
    }
  }

  lemma DecayBounds(n: nat)
    ensures 0.0 <= Decay(n) < 1.0
    ensures n > 0 ==> Decay(n) > 0.0
  {
  }

  lemma BumpCounts(es: seq<Entry>, n: nat, app: AppId)
    requires Counts(es, n)
    ensures Counts(BumpedAfter(es, n, app), n + 1)
  {
    var d := Decay(n);
    var faded := Scaled(es, d);
    DecayBounds(n);
    ScaledUnsigned(es, d);
    ScaledSum(es, d);
    FadedSum(n);
    StoredSum(faded, app, ScoreOf(faded, app) + 1.0);
    ScoreAtMostSum(faded, app);
    StoredUnsigned(faded, app, ScoreOf(faded, app) + 1.0);
    if n == 0 {
      assert faded == [];
    }
  }

  lemma FadedSum(n: nat)
    ensures (n + 3) as real / 4.0 * Decay(n) == n as real / 4.0
  {
    var m := (n + 3) as real;
    assert m * (n as real / m) == n as real;
  }

  lemma {:induction false} HistoryCounts(apps: seq<AppId>)
    ensures Counts(History(apps), |apps|)
  {
    if apps != [] {
      HistoryCounts(apps[..|apps| - 1]);
      BumpCounts(History(apps[..|apps| - 1]), |apps| - 1, apps[|apps| - 1]);
    }
  }

  // No counter is needed: from scratch, after N launches of whatever apps in whatever order, the
  // scores sum up to (N + 3) / 4, the number of launches is recovered exactly, and so the scores
  // recorded without a counter are those kept with one.
  lemma {:induction false} LaunchesAreRecovered(apps: seq<AppId>)
    ensures Recorded(apps) == History(apps)
    ensures TotalLaunches(Recorded(apps)) == |apps|
    ensures apps != [] ==> Sum(Recorded(apps)) == (|apps| + 3) as real / 4.0
  {
    if apps != [] {
      LaunchesAreRecovered(apps[..|apps| - 1]);
    }
    HistoryCounts(apps);
    SumTellsCount(History(apps), |apps|);
  }

  // ---------------------------------------------------------------- fading

  // What one launch does to each app: all fade alike, and the launched one gains one.
  lemma BumpScores(es: seq<Entry>, n: nat, app: AppId, other: AppId)
    ensures ScoreOf(BumpedAfter(es, n, app), other) == ScoreOf(es, other) * Decay(n) + if other == app then 1.0 else 0.0
  {
    var faded := Scaled(es, Decay(n));
    ScaledScore(es, Decay(n), other);
    StoredScore(faded, app, ScoreOf(faded, app) + 1.0, other);
  }

  // One app's score, followed on its own: every launch fades it, its own launches add one.
  function Score(fade: nat -> real, apps: seq<AppId>, app: AppId): real {
    if apps == [] then 0.0
    else
      var n := |apps| - 1;
      Score(fade, apps[..n], app) * fade(n) + if apps[n] == app then 1.0 else 0.0
  }

  // The recorded scores are these.
  lemma {:induction false} ScoresMatch(apps: seq<AppId>, app: AppId)
    ensures ScoreOf(History(apps), app) == Score(Decay, apps, app)
  {
    if apps != [] {
      var n := |apps| - 1;
      ScoresMatch(apps[..n], app);
      BumpScores(History(apps[..n]), n, apps[n], app);
    }
  }

  // Weights that undo the fading: n (n + 1) (n + 2) for n / (n + 3).
  ghost predicate Undoes(weight: nat -> real, fade: nat -> real) {
    forall n: nat {:trigger fade(n)} :: UndoesOnce(weight(n + 1), fade(n), weight(n))
  }

  ghost predicate UndoesOnce(w: real, d: real, v: real) {
    w * d == v
  }

  function Rising3(n: nat): real {
    n as real * (n + 1) as real * (n + 2) as real
  }

  lemma RisingUndoesDecay()
    ensures Undoes(Rising3, Decay)
  {
    forall n: nat ensures UndoesOnce(Rising3(n + 1), Decay(n), Rising3(n)) {
      RisingTelescopes(n);
    }
  }

  lemma RisingTelescopes(n: nat)
    ensures UndoesOnce(Rising3(n + 1), Decay(n), Rising3(n))
  {
    Cancels((n + 1) as real * (n + 2) as real, n as real, (n + 3) as real);
  }

  lemma Cancels(b: real, a: real, m: real)
    requires m > 0.0
    ensures b * m * (a / m) == a * b
  {
    assert a / m * m == a;
    assert b * m * (a / m) == b * (a / m * m);
  }

  // What all launches of an app are worth together: the j-th launch of all counts weight(j).
  function Worth(weight: nat -> real, apps: seq<AppId>, app: AppId): real {
    if apps == [] then 0.0
    else
      var n := |apps| - 1;
      Worth(weight, apps[..n], app) + if apps[n] == app then weight(n + 1) else 0.0
  }

  lemma Accumulates(s: real, d: real, gain: real, w: real, v: real, worth: real)
    requires UndoesOnce(w, d, v) && s * v == worth
    ensures (s * d + gain) * w == worth + gain * w
  {
    assert s * d * w == s * (w * d);
    Distributes(s * d, gain, w);
  }

  // The closed form of every score, after any history of N launches: with N (N + 1) (N + 2) as
  // weight(N), score * N (N + 1) (N + 2) is the sum of j (j + 1) (j + 2) over the launches j of the app.
  lemma {:induction false} ScoreIsWorth(fade: nat -> real, weight: nat -> real, apps: seq<AppId>, app: AppId)
    requires Undoes(weight, fade)
    ensures Score(fade, apps, app) * weight(|apps|) == Worth(weight, apps, app)
  {
    if apps != [] {
      var n := |apps| - 1;
      ScoreIsWorth(fade, weight, apps[..n], app);
      Accumulates(Score(fade, apps[..n], app), fade(n), if apps[n] == app then 1.0 else 0.0,
                  weight(n + 1), weight(n), Worth(weight, apps[..n], app));
    }
  }

  lemma {:induction false} OthersAddNothing(weight: nat -> real, before: seq<AppId>, others: seq<AppId>, app: AppId)
    requires app !in others
    ensures Worth(weight, before + others, app) == Worth(weight, before, app)
  {
    if others == [] {
      assert before + others == before;
    } else {
      var k := |others| - 1;
      OthersAddNothing(weight, before, others[..k], app);
      assert (before + others)[..|before| + k] == before + others[..k];
    }
  }

  lemma ScoreIsWorthOf(fade: nat -> real, weight: nat -> real, apps: seq<AppId>, app: AppId, s: real, w: real)
    requires Undoes(weight, fade) && s == Score(fade, apps, app) && w == weight(|apps|)
    ensures s * w == Worth(weight, apps, app)
  {
    ScoreIsWorth(fade, weight, apps, app);
  }

  // An app that is left alone while k others are opened keeps the fraction
  // N(N+1)(N+2) / ((N+k)(N+k+1)(N+k+2)) of its score: from `s` with weight `u` to `t` with weight `v`.
  lemma LeftAlone(
    fade: nat -> real, weight: nat -> real, before: seq<AppId>, others: seq<AppId>, app: AppId,
    s: real, t: real, u: real, v: real)
    requires Undoes(weight, fade) && app !in others
    requires s == Score(fade, before, app) && t == Score(fade, before + others, app)
    requires u == weight(|before|) && v == weight(|before| + |others|)
    ensures t * v == s * u
  {
    OthersAddNothing(weight, before, others, app);
    ScoreIsWorthOf(fade, weight, before, app, s, u);
    ScoreIsWorthOf(fade, weight, before + others, app, t, v);
  }

  lemma RecordedScore(apps: seq<AppId>, app: AppId)
    ensures ScoreOf(Recorded(apps), app) == Score(Decay, apps, app)
  {
    LaunchesAreRecovered(apps);
    ScoresMatch(apps, app);
  }

  lemma LeftAloneExactly(before: seq<AppId>, others: seq<AppId>, app: AppId, s: real, t: real, u: real, v: real)
    requires app !in others
    requires s == Score(Decay, before, app) && t == Score(Decay, before + others, app)
    requires u == Rising3(|before|) && v == Rising3(|before| + |others|)
    ensures t * v == s * u
  {
    RisingUndoesDecay();
    LeftAlone(Decay, Rising3, before, others, app, s, t, u, v);
  }

  // The same for the scores as they are recorded: `s` before, `t` after the others were opened.
  lemma LeftAloneRecorded(before: seq<AppId>, others: seq<AppId>, app: AppId, s: real, t: real, u: real, v: real)
    requires app !in others
    requires s == ScoreOf(Recorded(before), app) && t == ScoreOf(Recorded(before + others), app)
    requires u == Rising3(|before|) && v == Rising3(|before| + |others|)
    ensures t * v == s * u
  {
    RecordedScore(before, app);
    RecordedScore(before + others, app);
    LeftAloneExactly(before, others, app, s, t, u, v);
  }

  // Opening an app strictly raises its score, and keeps the order of all others.
  lemma BumpRaisesAndKeepsOrder(apps: seq<AppId>, app: AppId, a: AppId, b: AppId)
    requires apps != [] && a != app && b != app
    ensures
      var es, bumped := History(apps), History(apps + [app]);
      && ScoreOf(bumped, app) > ScoreOf(es, app)
      && (ScoreOf(bumped, a) < ScoreOf(bumped, b) <==> ScoreOf(es, a) < ScoreOf(es, b))
  {
    var n, es := |apps|, History(apps);
    assert (apps + [app])[..n] == apps;
    HistoryCounts(apps);
    BumpScores(es, n, app, app);
    BumpScores(es, n, app, a);
    BumpScores(es, n, app, b);
    ScoreAtMostSum(es, app);
    OneUpOthersFaded(n, ScoreOf(es, app), ScoreOf(es, a), ScoreOf(es, b));
  }

  lemma OneUpOthersFaded(n: nat, s: real, a: real, b: real)
    requires n > 0 && 0.0 <= s <= (n + 3) as real / 4.0
    ensures s * Decay(n) + 1.0 > s
    ensures a * Decay(n) < b * Decay(n) <==> a < b
  {
    DecayBounds(n);
    RaisedByOne(n, s);
    ScalingKeepsOrder(a, b, Decay(n));
  }

  lemma RaisedByOne(n: nat, s: real)
    requires 0.0 <= s <= (n + 3) as real / 4.0
    ensures s * Decay(n) + 1.0 > s
  {
    var m := (n + 3) as real;
    assert n as real / m == 1.0 - 3.0 / m;
    assert s * (1.0 - 3.0 / m) == s - s * (3.0 / m);
    assert s * (3.0 / m) <= m / 4.0 * (3.0 / m);
    assert m / 4.0 * (3.0 / m) == 3.0 / 4.0;
  }

  lemma ScalingKeepsOrder(a: real, b: real, factor: real)
    requires factor > 0.0
    ensures a * factor < b * factor <==> a < b
  {
  }

  // ---------------------------------------------------------------- overtaking

  function Repeat(app: AppId, k: nat): (apps: seq<AppId>)
    ensures |apps| == k && forall i :: 0 <= i < k ==> apps[i] == app
  {
    seq(k, i => app)
  }

  // n (n + 1) (n + 2) (n + 3)
  function Rising4(n: nat): nat {
    n * (n + 1) * (n + 2) * (n + 3)
  }

  // Four times the sum of weight(j) for j up to n.
  function Total(weight: nat -> real, n: nat): real {
    if n == 0 then 0.0 else Total(weight, n - 1) + 4.0 * weight(n)
  }

  lemma {:induction false} TotalIsRising(n: nat)
    ensures Total(Rising3, n) == Rising4(n) as real
  {
    if n > 0 {
      TotalIsRising(n - 1);
      RisingSteps(n - 1);
    }
  }

  lemma RisingSteps(n: nat)
    ensures Rising4(n + 1) as real == Rising4(n) as real + 4.0 * Rising3(n + 1)
  {
    var b := (n + 1) * (n + 2) * (n + 3);
    assert Rising4(n + 1) == b * (n + 4);
    assert Rising4(n) == b * n;
    var c := (n + 1) * (n + 2);
    assert c as real == (n + 1) as real * (n + 2) as real;
    assert b as real == c as real * (n + 3) as real;
  }

  // With two apps in play, their launches are worth all launches together.
  lemma {:induction false} TwoApps(weight: nat -> real, apps: seq<AppId>, a: AppId, b: AppId)
    requires a != b && forall i :: 0 <= i < |apps| ==> apps[i] == a || apps[i] == b
    ensures 4.0 * (Worth(weight, apps, a) + Worth(weight, apps, b)) == Total(weight, |apps|)
  {
    if apps != [] {
      TwoApps(weight, apps[..|apps| - 1], a, b);
    }
  }

  lemma ComparesScaled(a: real, b: real, w: real, x: real, y: real)
    requires w > 0.0 && a * w == x && b * w == y
    ensures a < b <==> x < y
  {
    assert (b - a) * w == y - x;
    assert b - a > 0.0 ==> (b - a) * w > 0.0;
    assert b - a <= 0.0 ==> (b - a) * w <= 0.0;
  }

  // Scores compare as the launches behind them.
  lemma ScoresCompare(fade: nat -> real, weight: nat -> real, apps: seq<AppId>, a: AppId, b: AppId)
    requires Undoes(weight, fade) && weight(|apps|) > 0.0
    ensures Score(fade, apps, a) < Score(fade, apps, b) <==> Worth(weight, apps, a) < Worth(weight, apps, b)
  {
    ScoreIsWorth(fade, weight, apps, a);
    ScoreIsWorth(fade, weight, apps, b);
    ComparesScaled(Score(fade, apps, a), Score(fade, apps, b), weight(|apps|), Worth(weight, apps, a), Worth(weight, apps, b));
  }

  lemma RisingPositive(n: nat)
    requires n > 0
    ensures Rising3(n) > 0.0
  {
    assert n as real * (n + 1) as real > 0.0;
  }

  lemma {:induction false} NeverOpened(weight: nat -> real, apps: seq<AppId>, app: AppId)
    requires app !in apps
    ensures Worth(weight, apps, app) == 0.0
  {
    if apps != [] {
      NeverOpened(weight, apps[..|apps| - 1], app);
    }
  }

  lemma WorthOvertakes(weight: nat -> real, older: AppId, newer: AppId, n: nat, k: nat)
    requires older != newer
    ensures
      var apps := Repeat(older, n) + Repeat(newer, k);
      Worth(weight, apps, older) < Worth(weight, apps, newer) <==> Total(weight, n + k) > 2.0 * Total(weight, n)
  {
    var apps := Repeat(older, n) + Repeat(newer, k);
    NeverOpened(weight, Repeat(older, n), newer);
    TwoApps(weight, Repeat(older, n), older, newer);
    OthersAddNothing(weight, Repeat(older, n), Repeat(newer, k), older);
    TwoApps(weight, apps, older, newer);
  }

  // A new app opened k times in a row overtakes one that holds all N launches, exactly when
  // (N+k)(N+k+1)(N+k+2)(N+k+3) > 2 N(N+1)(N+2)(N+3).
  lemma NewAppOvertakes(older: AppId, newer: AppId, n: nat, k: nat)
    requires older != newer && n > 0
    ensures
      var es := Recorded(Repeat(older, n) + Repeat(newer, k));
      ScoreOf(es, older) < ScoreOf(es, newer) <==> Rising4(n + k) > 2 * Rising4(n)
  {
    var apps := Repeat(older, n) + Repeat(newer, k);
    RisingUndoesDecay();
    RisingPositive(n + k);
    ScoresCompare(Decay, Rising3, apps, older, newer);
    WorthOvertakes(Rising3, older, newer, n, k);
    TotalIsRising(n);
    TotalIsRising(n + k);
    ScoresMatch(apps, older);
    ScoresMatch(apps, newer);
    LaunchesAreRecovered(apps);
  }

  // ---------------------------------------------------------------- migrated counts

  // Launch counts of the old format are divided by DECAY_RATE + 1.
  function Migrated(counts: seq<(AppId, nat)>): seq<Entry> {
    if counts == [] then []
    else
      var rest := Migrated(counts[1..]);
      if counts[0].1 > 0 then [Entry(counts[0].0, counts[0].1 as real / (DECAY_RATE + 1) as real)] + rest else rest
  }

  function Launches(counts: seq<(AppId, nat)>): nat {
    if counts == [] then 0 else counts[0].1 + Launches(counts[1..])
  }

  lemma {:induction false} MigratedSum(counts: seq<(AppId, nat)>)
    ensures Sum(Migrated(counts)) == Launches(counts) as real / 4.0
  {
    if counts != [] {
      MigratedSum(counts[1..]);
      if counts[0].1 > 0 {
        assert Migrated(counts)[1..] == Migrated(counts[1..]);
      }
    }
  }

  // Migrated scores do not meet the rule that the number of launches can be recovered from their
  // sum: three launches are lost, so the count is right exactly when there were none.
  lemma MigrationLosesThree(counts: seq<(AppId, nat)>)
    ensures Launches(counts) < 3 ==> TotalLaunches(Migrated(counts)) == 0
    ensures Launches(counts) >= 3 ==> TotalLaunches(Migrated(counts)) == Launches(counts) - 3
    ensures TotalLaunches(Migrated(counts)) == Launches(counts) <==> Launches(counts) == 0
  {
    MigratedSum(counts);
    var n: int := Launches(counts);
    assert 4.0 * Sum(Migrated(counts)) - 3.0 == (n - 3) as real;
  }

  // ---------------------------------------------------------------- the rankings object

  // Most used first, ties in the order in which the apps were first opened.
  function Ranked(es: seq<Entry>): (r: seq<Entry>)
    ensures multiset(r) == multiset(es)
  {
    if es == [] then []
    else
      assert es == es[..|es| - 1] + [es[|es| - 1]];
      Placed(Ranked(es[..|es| - 1]), es[|es| - 1])
  }

  // `e` comes after all entries so far.
  function Placed(ranked: seq<Entry>, e: Entry): (r: seq<Entry>)
    ensures multiset(r) == multiset(ranked) + multiset{e}
  {
    if ranked == [] then [e]
    else if ranked[0].score >= e.score then
      assert ranked == [ranked[0]] + ranked[1..];
      [ranked[0]] + Placed(ranked[1..], e)
    else [e] + ranked
  }

  ghost predicate Descending(es: seq<Entry>) {
    forall i, j :: 0 <= i < j < |es| ==> es[i].score >= es[j].score
  }

  lemma {:induction false} PlacedDescending(ranked: seq<Entry>, e: Entry)
    requires Descending(ranked)
    ensures Descending(Placed(ranked, e))
  {
    if ranked != [] && ranked[0].score >= e.score {
      PlacedDescending(ranked[1..], e);
      var rest := Placed(ranked[1..], e);
      forall i | 0 <= i < |rest| ensures ranked[0].score >= rest[i].score {
        assert rest[i] in multiset(rest);
        assert rest[i] == e || rest[i] in ranked[1..];
      }
    }
  }

  lemma {:induction false} RankedDescending(es: seq<Entry>)
    ensures Descending(Ranked(es))
  {
    if es != [] {
      RankedDescending(es[..|es| - 1]);
      PlacedDescending(Ranked(es[..|es| - 1]), es[|es| - 1]);
    }
  }

  function Ids(es: seq<Entry>): (ids: seq<AppId>)
    ensures |ids| == |es| && forall i :: 0 <= i < |es| ==> ids[i] == es[i].app
  {
    seq(|es|, i requires 0 <= i < |es| => es[i].app)
  }

  lemma ScaledFrom(es: seq<Entry>, factor: real, i: nat, e: Entry)
    requires i < |es| && e.app == es[i].app && e.score == es[i].score * factor
    ensures Scaled(es[i..], factor) == [e] + Scaled(es[i + 1..], factor)
  {
    var tail := es[i..];
    assert tail != [] && tail[0] == es[i] && tail[1..] == es[i + 1..];
    var all := Scaled(tail, factor);
    assert all[0].app == e.app && all[0].score == e.score;
    assert all[0] == e;
    assert all[1..] == Scaled(tail[1..], factor);
    assert all == [all[0]] + all[1..];
  }

  class Rankings {
    var entries: seq<Entry>
    var rankingCache: Option<seq<AppId>>

    // A cached ranking is the current one.
    ghost predicate Valid()
      reads this
    {
      rankingCache.Some? ==> rankingCache.value == Ids(Ranked(entries))
    }

    constructor ()
      ensures Valid() && entries == []
    {
      entries, rankingCache := [], None;
    }

    method Bump(app: AppId)
      requires Valid()
      modifies this
      ensures Valid() && entries == Bumped(old(entries), app)
    {
      var n := TotalLaunches(entries);
      var decay := n as real / (n + DECAY_RATE) as real;
      var faded: seq<Entry> := [];
      for i := 0 to |entries|
        invariant entries == old(entries)
        invariant faded + Scaled(entries[i..], decay) == Scaled(old(entries), decay)
      {
        var e := Entry(entries[i].app, entries[i].score * decay);
        ScaledFrom(entries, decay, i, e);
        assert (faded + [e]) + Scaled(entries[i + 1..], decay) == faded + ([e] + Scaled(entries[i + 1..], decay));
        faded := faded + [e];
      }
      assert faded + [] == faded;
      entries := Stored(faded, app, ScoreOf(faded, app) + 1.0);
      rankingCache := None;
    }

    method GetAppIds() returns (ids: seq<AppId>)
      requires Valid()
      modifies `rankingCache
      ensures Valid() && ids == Ids(Ranked(entries)) && rankingCache == Some(ids)
    {
      if rankingCache.None? {
        rankingCache := Some(Ids(Ranked(entries)));
      }
      ids := rankingCache.value;
    }
  }
}
