// Moving the selection over a list in which some rows cannot be selected, and keeping it when the
// list is repainted.
module Selection {
  import opened Prelude

  // ---------------------------------------------------------------- moving

  predicate Any(rows: seq<bool>) {
    exists i :: 0 <= i < |rows| && rows[i]
  }

  predicate NoneIn(rows: seq<bool>, lo: int, hi: int) {
    forall i :: lo <= i < hi && 0 <= i < |rows| ==> !rows[i]
  }

  // The first selectable row at or after s, going round at the end.
  ghost predicate FirstFrom(rows: seq<bool>, s: int, r: int) {
    && 0 <= r < |rows| && rows[r]
    && if s <= r then NoneIn(rows, s, r) else NoneIn(rows, s, |rows|) && NoneIn(rows, 0, r)
  }

  // The last selectable row at or before s, going round at the start.
  ghost predicate LastFrom(rows: seq<bool>, s: int, r: int) {
    && 0 <= r < |rows| && rows[r]
    && if r <= s then NoneIn(rows, r + 1, s + 1) else NoneIn(rows, 0, s + 1) && NoneIn(rows, r + 1, |rows|)
  }

  function Wrapped(i: int, length: nat): int {
    if i < 0 then length - 1 else if i >= length then 0 else i
  }

  function Clamped(i: int, length: nat): int {
    if i < 0 then 0 else if i >= length then length - 1 else i
  }

  function NextSelectedIndex(current: int, delta: int, length: nat): int {
    if length == 0 then -1
    else if delta == 1 || delta == -1 then Wrapped(current + delta, length)
    else Clamped(current + delta, length)
  }

  // Where a page move ends: the row itself, the nearest one further on, or the nearest one back.
  ghost predicate Nearest(rows: seq<bool>, target: int, step: int, r: int) {
    && 0 <= r < |rows| && rows[r]
    && (if step > 0
        then if r >= target then NoneIn(rows, target, r) else NoneIn(rows, r + 1, |rows|)
        else if r <= target then NoneIn(rows, r + 1, target + 1) else NoneIn(rows, 0, r))
  }

  method NextActivatableIndex(current: int, delta: int, rows: seq<bool>) returns (r: int)
    ensures Any(rows) ==> 0 <= r < |rows| && rows[r]
    ensures !Any(rows) ==> r == -1
    ensures Any(rows) && delta == 1 ==> FirstFrom(rows, Wrapped(current + 1, |rows|), r)
    ensures Any(rows) && delta == -1 ==> LastFrom(rows, Wrapped(current - 1, |rows|), r)
    ensures Any(rows) && delta != 1 && delta != -1 ==>
      Nearest(rows, Clamped(current + delta, |rows|), if delta > 0 then 1 else -1, r)
  {
    var length := |rows|;
    if length == 0 {
      return -1;
    }
    if delta == 1 || delta == -1 {
      r := Step(current, delta, rows);
      return;
    }
    var nxt := NextSelectedIndex(current, delta, length);
    if rows[nxt] {
      return nxt;
    }
    var step := if delta > 0 then 1 else -1;
    var index := nxt + step;
    while 0 <= index < length
      invariant -1 <= index <= length && (index - nxt) * step > 0
      invariant step > 0 ==> NoneIn(rows, nxt, index)
      invariant step < 0 ==> NoneIn(rows, index + 1, nxt + 1)
      decreases if step > 0 then length - index else index + 1
    {
      if rows[index] {
        return index;
      }
      index := index + step;
    }
    index := nxt - step;
    while 0 <= index < length
      invariant -1 <= index <= length && (nxt - index) * step > 0
      invariant step > 0 ==> NoneIn(rows, index + 1, length)
      invariant step < 0 ==> NoneIn(rows, 0, index)
      decreases if step > 0 then index + 1 else length - index
    {
      if rows[index] {
        return index;
      }
      index := index - step;
    }
    return -1;
  }

  // An arrow key: one row on, round the ends, over rows that cannot be selected.
  method Step(current: int, delta: int, rows: seq<bool>) returns (r: int)
    requires |rows| > 0 && (delta == 1 || delta == -1)
    ensures !Any(rows) ==> r == -1
    ensures Any(rows) && delta == 1 ==> FirstFrom(rows, Wrapped(current + 1, |rows|), r)
    ensures Any(rows) && delta == -1 ==> LastFrom(rows, Wrapped(current - 1, |rows|), r)
  {
    var length := |rows|;
    ghost var s := Wrapped(current + delta, length);
    var nxt := current;
    ghost var round := false;
    for k := 0 to length
      invariant k == 0 ==> nxt == current && !round
      invariant k > 0 && delta == 1 ==> nxt == s + k - 1 - (if round then length else 0)
      invariant k > 0 && delta == -1 ==> nxt == s - k + 1 + (if round then length else 0)
      invariant k > 0 ==> 0 <= nxt < length
      invariant k > 0 && delta == 1 ==>
        if round then nxt < s && NoneIn(rows, s, length) && NoneIn(rows, 0, nxt + 1) else s <= nxt && NoneIn(rows, s, nxt + 1)
      invariant k > 0 && delta == -1 ==>
        if round then nxt > s && NoneIn(rows, 0, s + 1) && NoneIn(rows, nxt, length) else nxt <= s && NoneIn(rows, nxt, s + 1)
    {
      nxt := nxt + delta;
      if nxt < 0 {
        nxt := length - 1;
        round := k > 0;
      } else if nxt >= length {
        nxt := 0;
        round := k > 0;
      }
      if rows[nxt] {
        return nxt;
      }
    }
    return if 0 <= current < length && rows[current] then current else -1;
  }

  // ---------------------------------------------------------------- the cycle of selectable rows

  // `s` lists the selectable rows, from top to bottom.
  ghost predicate Lists(s: seq<nat>, rows: seq<bool>) {
    && (forall k :: 0 <= k < |s| ==> s[k] < |rows| && rows[s[k]])
    && (forall i :: 0 <= i < |rows| && rows[i] ==> i in s)
    && (forall j, k :: 0 <= j < k < |s| ==> s[j] < s[k])
  }

  function Selectable(rows: seq<bool>): (s: seq<nat>)
    ensures Lists(s, rows)
  {
    if rows == [] then []
    else
      var n := |rows| - 1;
      var rest := Selectable(rows[..n]);
      if rows[n] then rest + [n] else rest
  }

  function Down(s: seq<nat>, k: nat): nat
    requires k < |s|
  {
    s[if k + 1 == |s| then 0 else k + 1]
  }

  lemma FirstIsUnique(rows: seq<bool>, s: int, a: int, b: int)
    requires 0 <= s < |rows| && FirstFrom(rows, s, a) && FirstFrom(rows, s, b)
    ensures a == b
  {
  }

  lemma LastIsUnique(rows: seq<bool>, s: int, a: int, b: int)
    requires 0 <= s < |rows| && LastFrom(rows, s, a) && LastFrom(rows, s, b)
    ensures a == b
  {
  }

  // Between two selectable rows that follow each other no other row can be selected.
  lemma NoneBetween(s: seq<nat>, rows: seq<bool>, k: nat)
    requires k < |s| && Lists(s, rows)
    ensures NoneIn(rows, s[k] + 1, if k + 1 < |s| then s[k + 1] else |rows|)
    ensures k == 0 ==> NoneIn(rows, 0, s[0])
  {
    forall i | s[k] < i < (if k + 1 < |s| then s[k + 1] else |rows|) ensures i !in s {
      forall j | 0 <= j < |s| ensures s[j] != i {
        if j < k {
          assert s[j] < s[k];
        } else if k + 1 < j {
          assert s[k + 1] < s[j];
        }
      }
    }
    if k == 0 {
      forall i | 0 <= i < s[0] ensures i !in s {
        forall j | 0 <= j < |s| ensures s[j] != i {
          if 0 < j {
            assert s[0] < s[j];
          }
        }
      }
    }
  }

  // From the k-th selectable row the Down key goes to the next one, and from the last to the first.
  lemma DownIsNext(s: seq<nat>, rows: seq<bool>, k: nat, r: int)
    requires k < |s| && Lists(s, rows) && FirstFrom(rows, Wrapped(s[k] + 1, |rows|), r)
    ensures r == Down(s, k)
  {
    NoneBetween(s, rows, k);
    NoneBetween(s, rows, 0);
    assert FirstFrom(rows, Wrapped(s[k] + 1, |rows|), Down(s, k));
    FirstIsUnique(rows, Wrapped(s[k] + 1, |rows|), r, Down(s, k));
  }

  // The Up key undoes it.
  lemma UpIsPrevious(s: seq<nat>, rows: seq<bool>, k: nat, r: int)
    requires k < |s| && Lists(s, rows) && LastFrom(rows, Wrapped(Down(s, k) - 1, |rows|), r)
    ensures r == s[k]
  {
    NoneBetween(s, rows, k);
    NoneBetween(s, rows, 0);
    assert LastFrom(rows, Wrapped(Down(s, k) - 1, |rows|), s[k]);
    LastIsUnique(rows, Wrapped(Down(s, k) - 1, |rows|), r, s[k]);
  }

  // A walk with the Down key.
  ghost predicate DownWalk(rows: seq<bool>, walk: seq<nat>) {
    forall i {:trigger walk[i + 1]} :: 0 <= i < |walk| - 1 ==>
      walk[i] < |rows| && FirstFrom(rows, Wrapped(walk[i] + 1, |rows|), walk[i + 1])
  }

  lemma OneStep(rows: seq<bool>, walk: seq<nat>, i: nat)
    requires DownWalk(rows, walk) && i + 1 < |walk|
    ensures FirstFrom(rows, Wrapped(walk[i] + 1, |rows|), walk[i + 1])
  {
    assert walk[i + 1] >= 0;
  }

  function Turned(x: nat, m: nat): nat {
    if x < m then x else x - m
  }

  // After i steps from the k-th of m selectable rows, up to a whole turn, the walk is at the
  // (k + i)-th, counted round.
  lemma {:induction false} WalkGoesRound(s: seq<nat>, rows: seq<bool>, walk: seq<nat>, k: nat, i: nat)
    requires k < |s| && Lists(s, rows) && DownWalk(rows, walk) && i < |walk| && walk[0] == s[k]
    requires i <= |s|
    ensures walk[i] == s[Turned(k + i, |s|)]
  {
    if i > 0 {
      WalkGoesRound(s, rows, walk, k, i - 1);
      OneStep(rows, walk, i - 1);
      DownIsNext(s, rows, Turned(k + i - 1, |s|), walk[i]);
    }
  }

  // With m selectable rows, m steps visit each of them exactly once and come back.
  lemma CycleVisitsEach(s: seq<nat>, rows: seq<bool>, walk: seq<nat>, k: nat, row: nat) returns (i: nat)
    requires k < |s| && Lists(s, rows) && DownWalk(rows, walk) && |walk| == |s| + 1
    requires walk[0] == s[k] && row < |rows| && rows[row]
    ensures walk[|walk| - 1] == walk[0]
    ensures i < |walk| - 1 && walk[i] == row
    ensures forall j :: 0 <= j < |walk| - 1 && walk[j] == row ==> j == i
  {
    var m := |s|;
    WalkGoesRound(s, rows, walk, k, m);
    var t := Place(s, rows, row);
    i := if t >= k then t - k else t + m - k;
    WalkGoesRound(s, rows, walk, k, i);
    forall j | 0 <= j < m && walk[j] == row ensures j == i {
      WalkGoesRound(s, rows, walk, k, j);
      Increasing(s, rows, Turned(k + j, m), t);
    }
  }

  lemma Place(s: seq<nat>, rows: seq<bool>, row: nat) returns (t: nat)
    requires Lists(s, rows) && row < |rows| && rows[row]
    ensures t < |s| && s[t] == row
  {
    t :| t < |s| && s[t] == row;
  }

  lemma Increasing(s: seq<nat>, rows: seq<bool>, u: nat, t: nat)
    requires Lists(s, rows) && u < |s| && t < |s| && s[u] == s[t]
    ensures u == t
  {
  }

  // ---------------------------------------------------------------- repainting

  // What a row shows. Rows need not have an id.
  datatype Row = Row(id: Option<string>, kind: Option<string>, title: Option<string>, description: string, selectable: bool)

  datatype Key = Key(id: Option<string>, kind: Option<string>, title: Option<string>, description: string, index: int)

  function SelectionKey(row: Row, index: nat): Key {
    Key(row.id, row.kind, row.title, row.description, index)
  }

  function FirstIndex(rows: seq<Row>, wanted: Row -> bool): (i: int)
    ensures -1 <= i < |rows|
    ensures i >= 0 ==> wanted(rows[i]) && forall j :: 0 <= j < i ==> !wanted(rows[j])
    ensures i == -1 ==> forall j :: 0 <= j < |rows| ==> !wanted(rows[j])
  {
    if rows == [] then -1
    else if wanted(rows[0]) then 0
    else
      var i := FirstIndex(rows[1..], wanted);
      if i == -1 then -1 else i + 1
  }

  function FirstSelectableIndex(rows: seq<Row>): int {
    FirstIndex(rows, (row: Row) => row.selectable)
  }

  predicate SameId(row: Row, key: Key) {
    key.id.Some? && row.id == key.id && row.selectable
  }

  predicate SameText(row: Row, key: Key) {
    row.selectable && row.kind == key.kind && row.title == key.title && row.description == key.description
  }

  function PaintSelectionIndex(previous: Option<Key>, rows: seq<Row>): int {
    if rows == [] then -1
    else if previous.None? then FirstSelectableIndex(rows)
    else
      var key := previous.value;
      var byId := FirstIndex(rows, (row: Row) => SameId(row, key));
      if key.id.Some? && byId >= 0 then byId
      else
        var byText := FirstIndex(rows, (row: Row) => SameText(row, key));
        if byText >= 0 then byText
        else if 0 <= key.index < |rows| && rows[key.index].selectable then key.index
        else FirstSelectableIndex(rows)
  }

  // After a repaint a selectable row is selected unless there is none, and if the list still holds a
  // selectable row with the previous id, the first such row is.
  lemma RepaintKeepsSelection(previous: Option<Key>, rows: seq<Row>)
    ensures
      var r := PaintSelectionIndex(previous, rows);
      && (r == -1 <==> forall i :: 0 <= i < |rows| ==> !rows[i].selectable)
      && (r != -1 ==> 0 <= r < |rows| && rows[r].selectable)
      && (previous.Some? && (exists i :: 0 <= i < |rows| && SameId(rows[i], previous.value)) ==>
            SameId(rows[r], previous.value) && forall j :: 0 <= j < r ==> !SameId(rows[j], previous.value))
  {
    if rows != [] && previous.Some? {
      var key := previous.value;
      var byId := FirstIndex(rows, (row: Row) => SameId(row, key));
      var byText := FirstIndex(rows, (row: Row) => SameText(row, key));
      var first := FirstSelectableIndex(rows);
      assert byId == -1 ==> forall j :: 0 <= j < |rows| ==> !SameId(rows[j], key);
      assert byText >= 0 ==> SameText(rows[byText], key);
    }
  }

  // With the previous row gone by id, the first selectable row that reads the same is selected; with
  // that gone too, the row at the previous index, if it can be; otherwise, as for a first painting,
  // the first selectable row there is.
  lemma RepaintFallsBack(previous: Option<Key>, rows: seq<Row>)
    requires rows != []
    requires previous.Some? ==> forall j :: 0 <= j < |rows| ==> !SameId(rows[j], previous.value)
    ensures
      var r := PaintSelectionIndex(previous, rows);
      if previous.Some? && exists j :: 0 <= j < |rows| && SameText(rows[j], previous.value) then
        && 0 <= r < |rows| && SameText(rows[r], previous.value)
        && forall j :: 0 <= j < r ==> !SameText(rows[j], previous.value)
      else if previous.Some? && 0 <= previous.value.index < |rows| && rows[previous.value.index].selectable then
        r == previous.value.index
      else
        && (r == -1 || (0 <= r < |rows| && rows[r].selectable))
        && forall j :: 0 <= j < (if r == -1 then |rows| else r) ==> !rows[j].selectable
  {
    var first := FirstSelectableIndex(rows);
    if previous.Some? {
      var key := previous.value;
      var byId := FirstIndex(rows, (row: Row) => SameId(row, key));
      var byText := FirstIndex(rows, (row: Row) => SameText(row, key));
      assert byId == -1;
    }
  }

  // Repainting the same list keeps the selected row, exactly when no row above it could be mistaken
  // for it: one with the same id or, for a row without id, with the same kind, title and description.
  lemma SameListSameRow(rows: seq<Row>, i: nat)
    requires i < |rows| && rows[i].selectable
    ensures
      var key := SelectionKey(rows[i], i);
      PaintSelectionIndex(Some(key), rows) == i <==>
        forall j :: 0 <= j < i ==> if rows[i].id.Some? then !SameId(rows[j], key) else !SameText(rows[j], key)
  {
    var key := SelectionKey(rows[i], i);
    var byId := FirstIndex(rows, (row: Row) => SameId(row, key));
    var byText := FirstIndex(rows, (row: Row) => SameText(row, key));
    assert SameText(rows[i], key);
    if rows[i].id.Some? {
      assert SameId(rows[i], key);
      assert byId >= 0;
    } else {
      assert byText >= 0;
    }
  }
}
