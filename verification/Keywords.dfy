// The index of trigger keywords: which mode a keyword belongs to, kept up to date when some modes'
// triggers change.
module Keywords {
  import opened Prelude

  type Mode = nat

  datatype Trigger = Trigger(name: string, keyword: string)

  type Index = map<string, Trigger>

  // No keyword belongs to two modes.
  ghost predicate Disjoint(keywords: map<Mode, Index>) {
    forall m, n, k :: m in keywords && n in keywords && k in keywords[m] && k in keywords[n] ==> m == n
  }

  // Every keyword stands for a trigger its mode lists.
  ghost predicate Listed(keywords: map<Mode, Index>, triggers: map<Mode, seq<Trigger>>) {
    forall m, k :: m in keywords && k in keywords[m] ==>
      m in triggers && keywords[m][k] in triggers[m] && keywords[m][k].keyword == k && k != ""
  }

  function First(ts: seq<Trigger>, k: string): Option<Trigger> {
    if ts == [] then None else if ts[0].keyword == k then Some(ts[0]) else First(ts[1..], k)
  }

  lemma {:induction false} FirstOfMore(ts: seq<Trigger>, t: Trigger, k: string)
    ensures First(ts + [t], k) ==
      if First(ts, k).Some? then First(ts, k) else if t.keyword == k then Some(t) else None
  {
    if ts == [] {
      assert [t][1..] == [];
      assert [] + [t] == [t];
    } else {
      FirstOfMore(ts[1..], t, k);
      assert (ts + [t])[1..] == ts[1..] + [t];
    }
  }

  lemma {:induction false} FirstIsListed(ts: seq<Trigger>, k: string)
    requires First(ts, k).Some?
    ensures First(ts, k).value in ts && First(ts, k).value.keyword == k
  {
    if ts[0].keyword != k {
      FirstIsListed(ts[1..], k);
    }
  }

  class KeywordCache {
    var keywords: map<Mode, Index>
    var triggers: map<Mode, seq<Trigger>>

    ghost predicate Valid()
      reads this
    {
      Disjoint(keywords) && Listed(keywords, triggers)
    }

    constructor ()
      ensures Valid() && keywords == map[] && triggers == map[]
    {
      keywords, triggers := map[], map[];
    }

    // One outdated mode: its new triggers get the keywords that nobody has claimed.
    method LoadMode(mode: Mode, found: seq<Trigger>, claimed: set<string>) returns (all: set<string>)
      modifies this
      ensures keywords.Keys == old(keywords).Keys + {mode} && triggers == old(triggers)[mode := found]
      ensures forall m :: m in old(keywords) && m != mode ==> keywords[m] == old(keywords)[m]
      ensures all == claimed + keywords[mode].Keys
      ensures forall k :: k in keywords[mode] <==> k != "" && k !in claimed && First(found, k).Some?
      ensures forall k :: k in keywords[mode] ==> Some(keywords[mode][k]) == First(found, k)
    {
      var index: Index := map[];
      all := claimed;
      for i := 0 to |found|
        invariant all == claimed + index.Keys
        invariant forall k :: k in index <==> k != "" && k !in claimed && First(found[..i], k).Some?
        invariant forall k :: k in index ==> Some(index[k]) == First(found[..i], k)
      {
        var t := found[i];
        assert found[..i + 1] == found[..i] + [t];
        forall k ensures First(found[..i + 1], k) ==
          if First(found[..i], k).Some? then First(found[..i], k) else if t.keyword == k then Some(t) else None
        {
          FirstOfMore(found[..i], t, k);
        }
        if t.keyword != "" && t.keyword !in all {
          index := index[t.keyword := t];
          all := all + {t.keyword};
        }
      }
      assert found[..|found|] == found;
      keywords := keywords[mode := index];
      triggers := triggers[mode := found];
    }

    // Reloading some or all modes, in whatever order a set is walked through.
    method LoadTriggers(outdated: seq<Mode>, found: map<Mode, seq<Trigger>>)
      requires Valid()
      requires forall i, j :: 0 <= i < j < |outdated| ==> outdated[i] != outdated[j]
      requires forall m :: m in outdated ==> m in found
      modifies this
      ensures Valid()
      ensures forall m :: m in outdated ==> m in triggers && m in keywords && triggers[m] == found[m]
      ensures forall m :: m in old(keywords) && m !in outdated ==> m in keywords && keywords[m] == old(keywords)[m]
      ensures forall m, k :: m in outdated && k != "" && First(found[m], k).Some? ==>
        exists n :: n in keywords && k in keywords[n]
      ensures keywords.Keys == old(keywords).Keys + set m | m in outdated
    {
      var claimed := set m, k | m in keywords && m !in outdated && k in keywords[m] :: k;
      SettledAtFirst(keywords, outdated, claimed);
      for i := 0 to |outdated|
        invariant Progress(old(keywords), old(triggers), keywords, triggers, outdated[..i], found)
        invariant Settled(keywords, outdated, i, claimed)
        invariant forall m, k :: m in outdated[..i] && k != "" && First(found[m], k).Some? ==> k in claimed
      {
        var mode := outdated[i];
        ghost var before, listed := keywords, triggers;
        assert outdated[..i + 1] == outdated[..i] + [mode];
        assert mode !in outdated[..i];
        var more := LoadMode(mode, found[mode], claimed);
        SettlesOne(before, keywords, outdated, i, claimed, more);
        ProgressOne(old(keywords), old(triggers), before, listed, keywords, triggers, outdated[..i], mode, found);
        claimed := more;
      }
      assert outdated[..|outdated|] == outdated;
      SettledIsDisjoint(keywords, outdated, claimed);
      ProgressIsListed(old(keywords), old(triggers), keywords, triggers, outdated, found);
      forall m, k | m in outdated && k != "" && First(found[m], k).Some? ensures exists n :: n in keywords && k in keywords[n] {
        assert k in claimed;
      }
    }

    // The mode that a query's keyword selects, when the modes are looked through in some order.
    method Select(order: seq<Mode>, keyword: string) returns (mode: Option<Mode>)
      requires Valid() && forall m :: m in order ==> m in keywords
      ensures mode.Some? ==> mode.value in order && keyword in keywords[mode.value]
      ensures mode.None? ==> forall m :: m in order ==> keyword !in keywords[m]
      ensures forall m :: m in order && keyword in keywords[m] ==> mode == Some(m)
    {
      for i := 0 to |order|
        invariant forall j :: 0 <= j < i ==> keyword !in keywords[order[j]]
      {
        if keyword in keywords[order[i]] {
          return Some(order[i]);
        }
      }
      return None;
    }
  }

  // The modes loaded so far, and those not to be loaded, share no keyword, and all theirs are claimed.
  ghost predicate Settled(keywords: map<Mode, Index>, outdated: seq<Mode>, i: nat, claimed: set<string>)
    requires i <= |outdated|
  {
    && (forall m, k {:trigger Owns(keywords, outdated, i, m, k)} :: Owns(keywords, outdated, i, m, k) ==> k in claimed)
    && (forall m, n, k {:trigger Owns(keywords, outdated, i, m, k), Owns(keywords, outdated, i, n, k)} ::
          Owns(keywords, outdated, i, m, k) && Owns(keywords, outdated, i, n, k) ==> m == n)
    && (forall k :: k in claimed ==> exists m :: Owns(keywords, outdated, i, m, k))
  }

  ghost predicate Owns(keywords: map<Mode, Index>, outdated: seq<Mode>, i: nat, m: Mode, k: string)
    requires i <= |outdated|
  {
    m in keywords && k in keywords[m] && (m in outdated[..i] || m !in outdated)
  }

  // The caches after some modes were loaded: theirs are new, the others' as before.
  ghost predicate Progress(
    was: map<Mode, Index>, listed: map<Mode, seq<Trigger>>, keywords: map<Mode, Index>, triggers: map<Mode, seq<Trigger>>,
    done: seq<Mode>, found: map<Mode, seq<Trigger>>)
  {
    && keywords.Keys == was.Keys + (set m | m in done)
    && (forall m :: m in was && m !in done ==> keywords[m] == was[m])
    && (forall m :: m in done ==> m in found && m in triggers && triggers[m] == found[m])
    && (forall m :: m in listed && m !in done ==> m in triggers && triggers[m] == listed[m])
    && (forall m, k :: m in done && k in keywords[m] ==> k != "" && Some(keywords[m][k]) == First(found[m], k))
  }

  lemma ProgressOne(
    was: map<Mode, Index>, listed: map<Mode, seq<Trigger>>, before: map<Mode, Index>, had: map<Mode, seq<Trigger>>,
    keywords: map<Mode, Index>, triggers: map<Mode, seq<Trigger>>, done: seq<Mode>, mode: Mode, found: map<Mode, seq<Trigger>>)
    requires Progress(was, listed, before, had, done, found) && mode in found && mode !in done
    requires keywords.Keys == before.Keys + {mode} && triggers == had[mode := found[mode]]
    requires forall m :: m in before && m != mode ==> keywords[m] == before[m]
    requires forall k :: k in keywords[mode] ==> k != "" && Some(keywords[mode][k]) == First(found[mode], k)
    ensures Progress(was, listed, keywords, triggers, done + [mode], found)
  {
    var more := done + [mode];
    assert forall m :: m in more <==> m in done || m == mode;
    assert (set m | m in more) == (set m | m in done) + {mode};
  }

  lemma ProgressIsListed(
    was: map<Mode, Index>, listed: map<Mode, seq<Trigger>>, keywords: map<Mode, Index>, triggers: map<Mode, seq<Trigger>>,
    done: seq<Mode>, found: map<Mode, seq<Trigger>>)
    requires Listed(was, listed) && Progress(was, listed, keywords, triggers, done, found)
    ensures Listed(keywords, triggers)
  {
    forall m, k | m in keywords && k in keywords[m]
      ensures m in triggers && keywords[m][k] in triggers[m] && keywords[m][k].keyword == k && k != ""
    {
      if m in done {
        FirstIsListed(found[m], k);
      }
    }
  }

  lemma SettledAtFirst(keywords: map<Mode, Index>, outdated: seq<Mode>, claimed: set<string>)
    requires Disjoint(keywords)
    requires claimed == set m, k | m in keywords && m !in outdated && k in keywords[m] :: k
    ensures Settled(keywords, outdated, 0, claimed)
  {
    forall k | k in claimed ensures exists m :: Owns(keywords, outdated, 0, m, k) {
      var m :| m in keywords && m !in outdated && k in keywords[m];
      assert Owns(keywords, outdated, 0, m, k);
    }
  }

  // At the end every keyword has one owner.
  lemma SettledIsDisjoint(keywords: map<Mode, Index>, outdated: seq<Mode>, claimed: set<string>)
    requires Settled(keywords, outdated, |outdated|, claimed)
    ensures Disjoint(keywords)
    ensures forall k :: k in claimed ==> exists m :: m in keywords && k in keywords[m]
  {
    assert outdated[..|outdated|] == outdated;
    forall m, n, k | m in keywords && n in keywords && k in keywords[m] && k in keywords[n] ensures m == n {
      assert Owns(keywords, outdated, |outdated|, m, k) && Owns(keywords, outdated, |outdated|, n, k);
    }
    forall k | k in claimed ensures exists m :: m in keywords && k in keywords[m] {
      var m :| Owns(keywords, outdated, |outdated|, m, k);
    }
  }

  lemma SettlesOne(
    before: map<Mode, Index>, after: map<Mode, Index>, outdated: seq<Mode>, i: nat, claimed: set<string>, more: set<string>)
    requires i < |outdated| && Settled(before, outdated, i, claimed)
    requires outdated[i] !in outdated[..i] && outdated[i] in after && after.Keys == before.Keys + {outdated[i]}
    requires forall m :: m in before && m != outdated[i] ==> after[m] == before[m]
    requires more == claimed + after[outdated[i]].Keys
    requires forall k :: k in after[outdated[i]] ==> k !in claimed
    ensures Settled(after, outdated, i + 1, more)
  {
    var j := i + 1;
    assert outdated[..j] == outdated[..i] + [outdated[i]];
    assert forall m, k {:trigger Owns(after, outdated, j, m, k)} :: Owns(after, outdated, j, m, k) ==>
      if m == outdated[i] then k in after[m] else Owns(before, outdated, i, m, k);
    forall k | k in more ensures exists m :: Owns(after, outdated, j, m, k) {
      if k in claimed {
        var m :| Owns(before, outdated, i, m, k);
        assert m != outdated[i];
        assert Owns(after, outdated, j, m, k);
      } else {
        assert Owns(after, outdated, j, outdated[i], k);
      }
    }
  }

  function Pick(keywords: map<Mode, Index>, order: seq<Mode>, k: string): Option<Mode>
    requires forall m :: m in order ==> m in keywords
  {
    if order == [] then None
    else if k in keywords[order[0]] then Some(order[0])
    else Pick(keywords, order[1..], k)
  }

  lemma {:induction false} PickFinds(keywords: map<Mode, Index>, order: seq<Mode>, k: string)
    requires forall m :: m in order ==> m in keywords
    ensures Pick(keywords, order, k).Some? ==>
      Pick(keywords, order, k).value in order && k in keywords[Pick(keywords, order, k).value]
    ensures Pick(keywords, order, k).None? ==> forall m :: m in order ==> k !in keywords[m]
  {
    if order != [] && k !in keywords[order[0]] {
      PickFinds(keywords, order[1..], k);
    }
  }

  // Which mode a keyword selects does not depend on the order in which the modes are looked through.
  lemma PickIsOrderFree(keywords: map<Mode, Index>, a: seq<Mode>, b: seq<Mode>, k: string)
    requires Disjoint(keywords)
    requires forall m :: m in a ==> m in keywords
    requires forall m :: m in a <==> m in b
    ensures Pick(keywords, a, k) == Pick(keywords, b, k)
  {
    PickFinds(keywords, a, k);
    PickFinds(keywords, b, k);
  }
}
