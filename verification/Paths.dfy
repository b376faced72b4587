// Normalising absolute paths, and writing paths under the home directory with a tilde.
module Paths {

  // ---------------------------------------------------------------- segments

  // str.split("/")
  function Split(path: string): (parts: seq<string>)
    ensures |parts| > 0
  {
    if path == "" then [""]
    else if path[0] == '/' then [""] + Split(path[1..])
    else
      var rest := Split(path[1..]);
      [[path[0]] + rest[0]] + rest[1..]
  }

  // "/".join(parts)
  function Join(parts: seq<string>): string {
    if parts == [] then "" else if |parts| == 1 then parts[0] else parts[0] + "/" + Join(parts[1..])
  }

  predicate NoSlash(part: string) {
    '/' !in part
  }

  lemma {:induction false} SplitHasNoSlash(path: string)
    ensures forall i :: 0 <= i < |Split(path)| ==> NoSlash(Split(path)[i])
  {
    if path != "" {
      SplitHasNoSlash(path[1..]);
    }
  }

  lemma {:induction false} SplitPart(part: string)
    requires NoSlash(part)
    ensures Split(part) == [part]
  {
    if part != "" {
      assert NoSlash(part[1..]) by {
        assert forall i :: 0 <= i < |part[1..]| ==> part[1..][i] == part[i + 1];
      }
      SplitPart(part[1..]);
      assert [part[0]] + part[1..] == part;
    }
  }

  lemma {:induction false} SplitAround(part: string, rest: string)
    requires NoSlash(part)
    ensures Split(part + "/" + rest) == [part] + Split(rest)
  {
    var whole := part + "/" + rest;
    if part == "" {
      assert whole[1..] == rest;
    } else {
      assert NoSlash(part[1..]) by {
        assert forall i :: 0 <= i < |part[1..]| ==> part[1..][i] == part[i + 1];
      }
      SplitAround(part[1..], rest);
      assert whole[1..] == part[1..] + "/" + rest;
      assert [part[0]] + part[1..] == part;
    }
  }

  // Splitting what was joined gives the parts back.
  lemma {:induction false} SplitJoin(parts: seq<string>)
    requires parts != [] && forall i :: 0 <= i < |parts| ==> NoSlash(parts[i])
    ensures Split(Join(parts)) == parts
  {
    if |parts| == 1 {
      SplitPart(parts[0]);
    } else {
      SplitJoin(parts[1..]);
      SplitAround(parts[0], Join(parts[1..]));
    }
  }

  // ---------------------------------------------------------------- normalising

  // One step down, nowhere, or one step up, from the directory that `parts` leads to.
  function Walked(parts: seq<string>, part: string): seq<string> {
    if part == "" || part == "." then parts
    else if part == ".." then if parts == [] then parts else parts[..|parts| - 1]
    else parts + [part]
  }

  function Walk(start: seq<string>, parts: seq<string>): seq<string> {
    if parts == [] then start else Walked(Walk(start, parts[..|parts| - 1]), parts[|parts| - 1])
  }

  predicate Absolute(path: string) {
    path != "" && path[0] == '/'
  }

  function Normalized(path: string): string {
    if !Absolute(path) then path else "/" + Join(Walk([], Split(path)))
  }

  method NormalizeAbsolute(path: string) returns (result: string)
    ensures result == Normalized(path)
  {
    if !Absolute(path) {
      return path;
    }
    var all := Split(path);
    var parts: seq<string> := [];
    for i := 0 to |all|
      invariant parts == Walk([], all[..i])
    {
      var part := all[i];
      assert all[..i + 1][..i] == all[..i];
      if part == "" || part == "." {
        continue;
      }
      if part == ".." {
        if |parts| > 0 {
          parts := parts[..|parts| - 1];
        }
        continue;
      }
      parts := parts + [part];
    }
    assert all[..|all|] == all;
    result := "/" + Join(parts);
  }

  // A segment that names a directory entry.
  predicate Proper(part: string) {
    NoSlash(part) && part != "" && part != "." && part != ".."
  }

  predicate AllProper(parts: seq<string>) {
    forall i :: 0 <= i < |parts| ==> Proper(parts[i])
  }

  lemma {:induction false} WalkIsProper(start: seq<string>, parts: seq<string>)
    requires AllProper(start) && forall i :: 0 <= i < |parts| ==> NoSlash(parts[i])
    ensures AllProper(Walk(start, parts))
  {
    if parts != [] {
      WalkIsProper(start, parts[..|parts| - 1]);
    }
  }

  lemma {:induction false} WalkProper(start: seq<string>, parts: seq<string>)
    requires AllProper(parts)
    ensures Walk(start, parts) == start + parts
  {
    if parts == [] {
      assert start + parts == start;
    } else {
      WalkProper(start, parts[..|parts| - 1]);
      assert Proper(parts[|parts| - 1]);
      assert start + parts == (start + parts[..|parts| - 1]) + [parts[|parts| - 1]];
    }
  }

  lemma {:induction false} WalkConcat(start: seq<string>, a: seq<string>, b: seq<string>)
    ensures Walk(start, a + b) == Walk(Walk(start, a), b)
  {
    if b == [] {
      assert a + b == a;
    } else {
      WalkConcat(start, a, b[..|b| - 1]);
      assert (a + b)[..|a + b| - 1] == a + b[..|b| - 1];
    }
  }

  // The segments of a normalised path: none is empty, "." or "..".
  lemma NormalizedIsClean(path: string) returns (parts: seq<string>)
    requires Absolute(path)
    ensures AllProper(parts) && Normalized(path) == "/" + Join(parts) && parts == Walk([], Split(path))
    ensures parts != [] ==> Split(Normalized(path)) == [""] + parts
    ensures Walk([], Split(Normalized(path))) == parts
  {
    parts := Walk([], Split(path));
    SplitHasNoSlash(path);
    WalkIsProper([], Split(path));
    assert ("/" + Join(parts))[1..] == Join(parts);
    if parts == [] {
      assert Split("/") == ["", ""];
      assert ["", ""][..1] == [""] && [""][..0] == [];
      assert Walk([], [""]) == [] && Walk([], ["", ""]) == [];
    } else {
      SplitJoin(parts);
      WalkConcat([], [""], parts);
      assert Walk([], [""]) == [] by { assert [""][..0] == []; }
      WalkProper([], parts);
    }
  }

  lemma NormalizedIsIdempotent(path: string)
    ensures Normalized(Normalized(path)) == Normalized(path)
  {
    if Absolute(path) {
      var parts := NormalizedIsClean(path);
    }
  }

  // Normalising the directory first does not change where a relative path leads from it.
  lemma NormalizedComposes(dir: string, rest: string)
    requires Absolute(dir)
    ensures Normalized(dir + "/" + rest) == Normalized(Normalized(dir) + "/" + rest)
  {
    var parts := NormalizedIsClean(dir);
    WalkInto(dir, rest);
    WalkInto(Normalized(dir), rest);
  }

  lemma WalkInto(dir: string, rest: string)
    ensures Walk([], Split(dir + "/" + rest)) == Walk(Walk([], Split(dir)), Split(rest))
  {
    SplitConcat(dir, rest);
    WalkConcat([], Split(dir), Split(rest));
  }

  // One more character in front.
  function Prefixed(c: char, parts: seq<string>): seq<string>
    requires |parts| > 0
  {
    if c == '/' then [""] + parts else [[c] + parts[0]] + parts[1..]
  }

  lemma SplitCons(c: char, rest: string)
    ensures Split([c] + rest) == Prefixed(c, Split(rest))
  {
    assert ([c] + rest)[1..] == rest;
  }

  lemma PrefixedConcat(c: char, s: seq<string>, r: seq<string>)
    requires |s| > 0
    ensures Prefixed(c, s + r) == Prefixed(c, s) + r
  {
    assert (s + r)[1..] == s[1..] + r;
    assert [""] + (s + r) == ([""] + s) + r;
  }

  lemma {:induction false} SplitConcat(dir: string, rest: string)
    ensures Split(dir + "/" + rest) == Split(dir) + Split(rest)
  {
    if dir == "" {
      SplitCons('/', rest);
      assert dir + "/" + rest == ['/'] + rest;
    } else {
      var c, tail := dir[0], dir[1..];
      SplitConcat(tail, rest);
      SplitCons(c, tail);
      SplitCons(c, tail + "/" + rest);
      PrefixedConcat(c, Split(tail), Split(rest));
      assert dir == [c] + tail && dir + "/" + rest == [c] + (tail + "/" + rest);
    }
  }

  // ---------------------------------------------------------------- where a path leads

  lemma WalkEntry(dir: string, part: string)
    requires Absolute(dir) && NoSlash(part)
    ensures Absolute(dir + "/" + part)
    ensures Walk([], Split(dir + "/" + part)) == Walked(Walk([], Split(dir)), part)
  {
    WalkInto(dir, part);
    SplitPart(part);
    var at := Walk([], Split(dir));
    assert [part][..0] == [] && Walk(at, [part]) == Walked(at, part);
  }

  // A directory entry is one segment more than its directory.
  lemma NormalizedEntry(dir: string, part: string) returns (parts: seq<string>)
    requires Absolute(dir) && Proper(part)
    ensures AllProper(parts) && Normalized(dir) == "/" + Join(parts)
    ensures Normalized(dir + "/" + part) == "/" + Join(parts + [part])
    ensures parts != [] ==> Split(Normalized(dir)) == [""] + parts
    ensures Split(Normalized(dir + "/" + part)) == [""] + (parts + [part])
  {
    parts := NormalizedIsClean(dir);
    WalkEntry(dir, part);
    var below := NormalizedIsClean(dir + "/" + part);
    assert below == parts + [part];
  }

  // ".." takes back the step down before it, whatever that was.
  lemma NormalizedParent(dir: string, part: string)
    requires Absolute(dir) && Proper(part)
    ensures Normalized(dir + "/" + part + "/..") == Normalized(dir)
  {
    var below := dir + "/" + part;
    WalkEntry(dir, part);
    WalkEntry(below, "..");
    assert below + "/.." == below + "/" + "..";
    var at := Walk([], Split(dir));
    assert (at + [part])[..|at|] == at;
  }

  lemma JoinIsNotEmpty(parts: seq<string>)
    requires AllProper(parts) && parts != []
    ensures Join(parts) != ""
  {
    assert Proper(parts[0]);
  }

  lemma RootHasNoSegments(dir: string)
    requires Absolute(dir) && Normalized(dir) == "/"
    ensures Walk([], Split(dir)) == []
  {
    var parts := Walk([], Split(dir));
    SplitHasNoSlash(dir);
    WalkIsProper([], Split(dir));
    assert |"/" + Join(parts)| == 1 + |Join(parts)|;
    if parts != [] {
      JoinIsNotEmpty(parts);
    }
  }

  // The root is its own parent.
  lemma NormalizedRoot(dir: string)
    requires Absolute(dir) && Normalized(dir) == "/"
    ensures Normalized(dir + "/..") == "/"
  {
    RootHasNoSegments(dir);
    WalkEntry(dir, "..");
    assert dir + "/.." == dir + "/" + "..";
  }

  lemma NormalizedDotDot()
    ensures Normalized("/..") == "/"
  {
    SplitAround("", "..");
    SplitPart("..");
    assert "" + "/" + ".." == "/.." && [""] + [".."] == ["", ".."];
    assert ["", ".."][..1] == [""] && [""][..0] == [];
    assert Walk([], [""]) == [] && Walk([], ["", ".."]) == [];
  }

  // A repeated or trailing slash and "." lead nowhere.
  lemma NormalizedStays(dir: string)
    requires Absolute(dir)
    ensures Normalized(dir + "/.") == Normalized(dir) && Normalized(dir + "/") == Normalized(dir)
  {
    WalkEntry(dir, ".");
    WalkEntry(dir, "");
    assert dir + "/" + "." == dir + "/." && dir + "/" + "" == dir + "/";
  }

  // ---------------------------------------------------------------- the home directory

  // What str.strip() removes.
  predicate IsSpace(c: char) {
    || c == ' ' || '\t' <= c <= '\r' || '\U{1c}' <= c <= '\U{1f}' || c == '\U{85}' || c == '\U{a0}'
    || c == '\U{1680}' || '\U{2000}' <= c <= '\U{200a}' || c == '\U{2028}' || c == '\U{2029}'
    || c == '\U{202f}' || c == '\U{205f}' || c == '\U{3000}'
  }

  function StripLeft(s: string): string {
    if s != "" && IsSpace(s[0]) then StripLeft(s[1..]) else s
  }

  function StripRight(s: string): (r: string)
    ensures |r| <= |s| && r == s[..|r|]
    ensures r == s <==> s == "" || !IsSpace(s[|s| - 1])
  {
    if s != "" && IsSpace(s[|s| - 1]) then StripRight(s[..|s| - 1]) else s
  }

  function Strip(s: string): string {
    StripRight(StripLeft(s))
  }

  function Expanded(query: string, home: string): string {
    var text := Strip(query);
    if text == "~" || text == "." then Normalized(home)
    else if text == ".." then Normalized(home + "/..")
    else if |text| >= 2 && text[..2] in {"~/", "./"} then Normalized(home + "/" + text[2..])
    else if |text| >= 3 && text[..3] == "../" then Normalized(home + "/" + text)
    else text
  }

  function Collapsed(path: string, home: string): string {
    if path == home then "~"
    else if home + "/" <= path then "~" + path[|home|..]
    else path
  }

  predicate IsNormal(path: string) {
    Absolute(path) && Normalized(path) == path
  }

  lemma {:induction false} WalkNotLonger(start: seq<string>, parts: seq<string>)
    ensures Weight(Walk(start, parts)) <= Weight(start) + Weight(parts)
  {
    if parts != [] {
      var before := Walk(start, parts[..|parts| - 1]);
      WalkNotLonger(start, parts[..|parts| - 1]);
      if parts[|parts| - 1] == ".." && before != [] {
        assert Weight(before) >= Weight(before[..|before| - 1]);
      } else if Walked(before, parts[|parts| - 1]) != before {
        assert (before + [parts[|parts| - 1]])[..|before|] == before;
      }
    }
  }

  // The characters of a list of segments, each with its separator.
  function Weight(parts: seq<string>): nat {
    if parts == [] then 0 else Weight(parts[..|parts| - 1]) + |parts[|parts| - 1]| + 1
  }

  lemma {:induction false} WeightCons(parts: seq<string>)
    requires parts != []
    ensures Weight(parts) == |parts[0]| + 1 + Weight(parts[1..])
  {
    if |parts| == 1 {
      assert parts[..0] == [] && parts[1..] == [];
    } else {
      WeightCons(parts[..|parts| - 1]);
      assert parts[..|parts| - 1][1..] == parts[1..][..|parts| - 2];
    }
  }

  lemma {:induction false} JoinWeight(parts: seq<string>)
    requires parts != []
    ensures |Join(parts)| + 1 == Weight(parts)
  {
    WeightCons(parts);
    if |parts| > 1 {
      JoinWeight(parts[1..]);
    } else {
      assert parts[1..] == [];
    }
  }

  lemma {:induction false} SplitWeight(path: string)
    ensures Weight(Split(path)) == |path| + 1
  {
    var parts := Split(path);
    WeightCons(parts);
    if path == "" {
      assert parts[1..] == [];
    } else {
      SplitWeight(path[1..]);
      WeightCons(Split(path[1..]));
      if path[0] == '/' {
        assert parts[1..] == Split(path[1..]);
      } else {
        assert parts[1..] == Split(path[1..])[1..];
      }
    }
  }

  lemma NormalizedNotLonger(path: string)
    ensures |Normalized(path)| <= |path|
  {
    if Absolute(path) {
      var parts := Walk([], Split(path));
      SplitWeight(path);
      assert Split(path) == [""] + Split(path[1..]);
      SplitWeight(path[1..]);
      WalkConcat([], [""], Split(path[1..]));
      assert Walk([], [""]) == [] by { assert [""][..0] == []; }
      WalkNotLonger([], Split(path[1..]));
      if parts != [] {
        JoinWeight(parts);
      }
    }
  }

  lemma CollapsedUnder(home: string, rest: string)
    ensures home + "/" + rest != home && Collapsed(home + "/" + rest, home) == "~/" + rest
  {
    var path := home + "/" + rest;
    assert |path| > |home| && path[|home|..] == "/" + rest;
    assert "~" + ("/" + rest) == "~/" + rest;
  }

  // What expanding makes of a path below the home directory.
  lemma ExpandedUnder(home: string, rest: string)
    requires IsNormal(home) && IsNormal(home + "/" + rest)
    ensures Normalized(home + "/" + StripRight(rest)) == home + "/" + rest <==> StripRight(rest) == rest
  {
    if StripRight(rest) != rest {
      NormalizedNotLonger(home + "/" + StripRight(rest));
    }
  }

  lemma CollapseExpandInside(path: string, home: string)
    requires IsNormal(path) && IsNormal(home) && path != home && home + "/" <= path
    ensures Expanded(Collapsed(path, home), home) == path <==> !IsSpace(path[|path| - 1])
  {
    var rest := path[|home| + 1..];
    assert path == home + "/" + rest;
    CollapsedUnder(home, rest);
    ExpandTilde(rest, home);
    ExpandedUnder(home, rest);
    if rest == "" {
      LastOfConcat(home + "/", rest);
    } else {
      assert path[|path| - 1] == rest[|rest| - 1];
    }
  }

  lemma CollapseExpandOutside(path: string, home: string)
    requires Absolute(path) && path != home && !(home + "/" <= path)
    ensures Expanded(Collapsed(path, home), home) == path <==> !IsSpace(path[|path| - 1])
  {
    assert StripLeft(path) == path;
    AbsoluteIsKept(path);
    var text := StripRight(path);
    assert Strip(path) == text;
    assert Expanded(path, home) == text by {
      assert text[0] == '/';
      assert |text| >= 2 ==> text[..2][0] == '/';
      assert |text| >= 3 ==> text[..3][0] == '/';
    }
  }

  // Collapsing and expanding a path gives it back, exactly when it is the home directory itself or
  // does not end in white space, which expanding strips.
  lemma CollapseExpand(path: string, home: string)
    requires IsNormal(path) && IsNormal(home)
    ensures Expanded(Collapsed(path, home), home) == path <==> path == home || !IsSpace(path[|path| - 1])
  {
    if path == home {
      assert Strip("~") == "~";
    } else if home + "/" <= path {
      CollapseExpandInside(path, home);
    } else {
      CollapseExpandOutside(path, home);
    }
  }

  // Concretely, a file whose name ends in a blank is not found again.
  lemma TrailingBlankIsLost()
    ensures Expanded(Collapsed("/x ", "/h"), "/h") == "/x"
  {
    assert StripRight("/x ") == StripRight("/x") by { assert "/x "[..2] == "/x"; }
    assert Collapsed("/x ", "/h") == "/x " && Strip("/x ") == "/x";
  }

  // "." is the home directory and ".." the one above it, at the front of a path too.
  lemma ExpandedDots(rest: string, home: string)
    requires Absolute(home)
    ensures Expanded("~", home) == Normalized(home) && Expanded(".", home) == Normalized(home)
    ensures Expanded("./" + rest, home) == Normalized(home + "/" + StripRight(rest))
    ensures Expanded("~/" + rest, home) == Expanded("./" + rest, home)
  {
    assert Strip("~") == "~" && Strip(".") == ".";
    ExpandTilde(rest, home);
    ExpandDot(rest, home);
  }

  lemma ExpandedParent(rest: string, above: string, user: string)
    requires Absolute(above) && Proper(user)
    ensures Expanded("..", above + "/" + user) == Normalized(above)
    ensures Expanded("../" + rest, above + "/" + user) == Normalized(above + "/" + StripRight(rest))
  {
    var home := above + "/" + user;
    assert Strip("..") == "..";
    ExpandDotDot(rest, home);
    ParentComposes(StripRight(rest), above, user);
    NormalizedParent(above, user);
  }

  lemma ParentComposes(rest: string, above: string, user: string)
    requires Absolute(above) && Proper(user)
    ensures Normalized(above + "/" + user + "/.." + "/" + rest) == Normalized(above + "/" + rest)
  {
    var up := above + "/" + user + "/..";
    NormalizedParent(above, user);
    assert Absolute(up) by { assert up[0] == above[0]; }
    NormalizedComposes(up, rest);
    NormalizedComposes(above, rest);
  }

  lemma LastOfConcat(a: string, b: string)
    requires a != "" && !IsSpace(a[|a| - 1]) && (b == "" || !IsSpace(b[|b| - 1]))
    ensures !IsSpace((a + b)[|a + b| - 1])
  {
  }

  lemma ExpandTilde(rest: string, home: string)
    ensures Expanded("~/" + rest, home) == Normalized(home + "/" + StripRight(rest))
  {
    var q := "~/" + rest;
    assert StripLeft(q) == q;
    StripRightAfter("~/", rest);
    var text := StripRight(q);
    assert text == "~/" + StripRight(rest);
    assert text[..2] == "~/" && text[2..] == StripRight(rest);
  }

  lemma ExpandDot(rest: string, home: string)
    ensures Expanded("./" + rest, home) == Normalized(home + "/" + StripRight(rest))
  {
    var q := "./" + rest;
    assert StripLeft(q) == q;
    StripRightAfter("./", rest);
    var text := StripRight(q);
    assert text == "./" + StripRight(rest);
    assert text[..2] == "./" && text[2..] == StripRight(rest);
  }

  lemma DotDotApart(home: string, rest: string)
    ensures home + "/" + ("../" + rest) == home + "/.." + "/" + rest
  {
    assert "/" + ("../" + rest) == "/.." + ("/" + rest);
  }

  lemma ExpandedAbove(query: string, home: string)
    requires |Strip(query)| >= 3 && Strip(query)[..3] == "../"
    ensures Expanded(query, home) == Normalized(home + "/" + Strip(query))
  {
    var text := Strip(query);
    assert text[..3][..2] == text[..2];
    assert text[0] == '.' && text[1] == '.';
  }

  lemma ExpandDotDot(rest: string, home: string)
    ensures Expanded("../" + rest, home) == Normalized(home + "/.." + "/" + StripRight(rest))
  {
    var q := "../" + rest;
    assert StripLeft(q) == q;
    StripRightAfter("../", rest);
    assert Strip(q) == "../" + StripRight(rest);
    ExpandedAbove(q, home);
    DotDotApart(home, StripRight(rest));
  }

  lemma {:induction false} StripRightAfter(a: string, b: string)
    requires a != "" && !IsSpace(a[|a| - 1])
    ensures StripRight(a + b) == a + StripRight(b)
  {
    if b == "" {
      assert a + b == a;
    } else if IsSpace(b[|b| - 1]) {
      StripRightAfter(a, b[..|b| - 1]);
      assert (a + b)[..|a + b| - 1] == a + b[..|b| - 1];
    }
  }

  // Stripping an absolute path never makes it look like one relative to the home directory.
  lemma AbsoluteIsKept(path: string)
    requires Absolute(path)
    ensures StripRight(path) != "" && StripRight(path)[0] == '/'
  {
    StripRightAfter("/", path[1..]);
    assert path == "/" + path[1..];
  }
}
