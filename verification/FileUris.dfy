// File URIs and the paths they stand for. A string is the sequence of its UTF-8 bytes.
module FileUris {
  import opened Prelude

  type Byte = x: int | 0 <= x < 256

  type Bytes = seq<Byte>

  // ---------------------------------------------------------------- UTF-8 (section 3 of RFC 3629)

  predicate Tail(b: Byte) {
    0x80 <= b <= 0xBF
  }

  // How many bytes the first character takes, or None if they are no character.
  function CharLength(b: Bytes): (n: Option<nat>)
    requires b != []
    ensures n.Some? ==> 1 <= n.value <= |b|
  {
    if b[0] <= 0x7F then Some(1)
    else if 0xC2 <= b[0] <= 0xDF && |b| >= 2 && Tail(b[1]) then Some(2)
    else if |b| >= 3 && Tail(b[2])
      && ((b[0] == 0xE0 && 0xA0 <= b[1] <= 0xBF) || (0xE1 <= b[0] <= 0xEC && Tail(b[1]))
          || (b[0] == 0xED && 0x80 <= b[1] <= 0x9F) || (0xEE <= b[0] <= 0xEF && Tail(b[1]))) then Some(3)
    else if |b| >= 4 && Tail(b[2]) && Tail(b[3])
      && ((b[0] == 0xF0 && 0x90 <= b[1] <= 0xBF) || (0xF1 <= b[0] <= 0xF3 && Tail(b[1]))
          || (b[0] == 0xF4 && 0x80 <= b[1] <= 0x8F)) then Some(4)
    else None
  }

  predicate Utf8(b: Bytes)
    decreases |b|
  {
    b == [] || (CharLength(b).Some? && Utf8(b[CharLength(b).value..]))
  }

  const SLASH: Byte := 0x2F
  const PERCENT: Byte := 0x25

  // A slash is never part of a longer character, so text may be cut at it.
  lemma {:induction false} Utf8AtSlash(a: Bytes, b: Bytes)
    ensures Utf8(a + [SLASH] + b) <==> Utf8(a) && Utf8(b)
    decreases |a|
  {
    var whole := a + [SLASH] + b;
    if a == [] {
      assert whole[1..] == b;
    } else {
      CharLengthStops(a, b);
      if CharLength(a).Some? {
        var n := CharLength(a).value;
        Utf8AtSlash(a[n..], b);
        assert whole[n..] == a[n..] + [SLASH] + b;
      }
    }
  }

  lemma CharLengthStops(a: Bytes, b: Bytes)
    requires a != []
    ensures CharLength(a + [SLASH] + b) == CharLength(a)
  {
    var whole := a + [SLASH] + b;
    assert whole[|a|] == SLASH;
    assert forall i :: 0 <= i < |a| ==> whole[i] == a[i];
  }

  // ---------------------------------------------------------------- percent encoding (section 2.1 of RFC 3986)

  predicate Unreserved(b: Byte) {
    || 0x30 <= b <= 0x39 || 0x41 <= b <= 0x5A || 0x61 <= b <= 0x7A
    || b == 0x5F || b == 0x2E || b == 0x2D || b == 0x7E
  }

  function HexDigit(n: int): Byte
    requires 0 <= n < 16
  {
    if n < 10 then 0x30 + n else 0x41 + n - 10
  }

  predicate IsHex(b: Byte) {
    0x30 <= b <= 0x39 || 0x41 <= b <= 0x46 || 0x61 <= b <= 0x66
  }

  function HexValue(b: Byte): (n: int)
    requires IsHex(b)
    ensures 0 <= n < 16
  {
    if b <= 0x39 then b - 0x30 else if b <= 0x46 then b - 0x41 + 10 else b - 0x61 + 10
  }

  // quote(): a slash is kept if `slash` says so.
  function QuoteByte(b: Byte, slash: bool): Bytes {
    if Unreserved(b) || (slash && b == SLASH) then [b] else [PERCENT, HexDigit(b / 16), HexDigit(b % 16)]
  }

  function Quote(s: Bytes, slash: bool): Bytes {
    if s == [] then [] else QuoteByte(s[0], slash) + Quote(s[1..], slash)
  }

  predicate Escape(s: Bytes) {
    |s| >= 3 && s[0] == PERCENT && IsHex(s[1]) && IsHex(s[2])
  }

  // A percent sign that starts no escape is itself escaped.
  function Repaired(s: Bytes): Bytes {
    if s == [] then []
    else if s[0] == PERCENT && !Escape(s) then [PERCENT, 0x32, 0x35] + Repaired(s[1..])
    else [s[0]] + Repaired(s[1..])
  }

  // unquote() with strict errors: escapes are decoded within each run of ASCII characters, and what
  // a run decodes to must be text. `run` holds what the current run has decoded to so far.
  function UnquoteRun(s: Bytes, run: Bytes): Option<Bytes>
    decreases |s|
  {
    if s == [] then if Utf8(run) then Some(run) else None
    else if s[0] >= 0x80 then
      if !Utf8(run) then None
      else match UnquoteRun(s[1..], [])
        case None => None
        case Some(rest) => Some(run + [s[0]] + rest)
    else if Escape(s) then UnquoteRun(s[3..], run + [16 * HexValue(s[1]) + HexValue(s[2])])
    else UnquoteRun(s[1..], run + [s[0]])
  }

  function Unquote(s: Bytes): Option<Bytes> {
    UnquoteRun(s, [])
  }

  lemma QuotedByteIsPlain(b: Byte, slash: bool, rest: Bytes)
    ensures
      var q := QuoteByte(b, slash);
      && (forall i :: 0 <= i < |q| ==> q[i] < 0x80)
      && (|q| == 3 ==> Escape(q + rest) && 16 * HexValue(q[1]) + HexValue(q[2]) == b)
      && (|q| == 1 ==> q[0] == b && b != PERCENT && !Escape(q + rest))
  {
  }

  lemma {:induction false} UnquoteQuoted(s: Bytes, slash: bool, run: Bytes)
    ensures UnquoteRun(Quote(s, slash), run) == if Utf8(run + s) then Some(run + s) else None
    decreases |s|
  {
    if s == [] {
      assert run + s == run;
    } else {
      var q, rest := QuoteByte(s[0], slash), Quote(s[1..], slash);
      QuotedByteIsPlain(s[0], slash, rest);
      UnquoteQuoted(s[1..], slash, run + [s[0]]);
      assert (run + [s[0]]) + s[1..] == run + s;
      assert (q + rest)[|q|..] == rest;
    }
  }

  // Whatever text is quoted, unquoting gives it back.
  lemma UnquoteQuote(s: Bytes, slash: bool)
    requires Utf8(s)
    ensures Unquote(Quote(s, slash)) == Some(s)
  {
    UnquoteQuoted(s, slash, []);
    assert [] + s == s;
  }

  lemma {:induction false} QuotedNeedsNoRepair(s: Bytes, slash: bool)
    ensures Repaired(Quote(s, slash)) == Quote(s, slash)
  {
    if s != [] {
      var q, rest := QuoteByte(s[0], slash), Quote(s[1..], slash);
      QuotedByteIsPlain(s[0], slash, rest);
      QuotedNeedsNoRepair(s[1..], slash);
      RepairSkips(q, rest);
    }
  }

  lemma RepairPlain(b: Byte, rest: Bytes)
    requires b != PERCENT
    ensures Repaired([b] + rest) == [b] + Repaired(rest)
  {
    assert ([b] + rest)[1..] == rest;
  }

  lemma RepairSkips(q: Bytes, rest: Bytes)
    requires (|q| == 1 && q[0] != PERCENT) || (|q| == 3 && Escape(q))
    ensures Repaired(q + rest) == q + Repaired(rest)
  {
    var s := q + rest;
    if |q| == 1 {
      assert s[1..] == rest;
    } else {
      RepairPlain(s[2], rest);
      RepairPlain(s[1], [s[2]] + rest);
      assert s[1..] == [s[1]] + ([s[2]] + rest);
      assert Escape(s);
      assert q + Repaired(rest) == [q[0]] + ([q[1]] + ([q[2]] + Repaired(rest)));
    }
  }

  lemma {:induction false} RepairedIsStable(s: Bytes)
    ensures Repaired(Repaired(s)) == Repaired(s)
    decreases |s|
  {
    if s != [] {
      if s[0] == PERCENT && !Escape(s) {
        RepairedIsStable(s[1..]);
        RepairSkips([PERCENT, 0x32, 0x35], Repaired(s[1..]));
      } else if Escape(s) {
        RepairedIsStable(s[3..]);
        assert s == s[..3] + s[3..];
        RepairSkips(s[..3], s[3..]);
        RepairSkips(s[..3], Repaired(s[3..]));
      } else {
        RepairedIsStable(s[1..]);
        RepairSkips([s[0]], Repaired(s[1..]));
      }
    }
  }

  // ---------------------------------------------------------------- file URIs (section 2 of RFC 8089)

  function Lower(b: Byte): Byte {
    if 0x41 <= b <= 0x5A then b + 0x20 else b
  }

  // The text starts with these lower-case letters, in any case.
  predicate StartsWith(s: Bytes, prefix: Bytes) {
    |s| >= |prefix| && forall i :: 0 <= i < |prefix| ==> Lower(s[i]) == prefix[i]
  }

  // "file://", "file:" and "localhost"
  const FILE_AUTHORITY: Bytes := [0x66, 0x69, 0x6C, 0x65, 0x3A, 0x2F, 0x2F]
  const FILE: Bytes := [0x66, 0x69, 0x6C, 0x65, 0x3A]
  const LOCALHOST: Bytes := [0x6C, 0x6F, 0x63, 0x61, 0x6C, 0x68, 0x6F, 0x73, 0x74]
  const HASH: Byte := 0x23
  const QUESTION: Byte := 0x3F
  const LINE_FEED: Byte := 0x0A

  // The text up to the first of these marks.
  function UpTo(s: Bytes, marks: set<Byte>): (r: Bytes)
    ensures r <= s
    ensures forall i :: 0 <= i < |r| ==> r[i] !in marks
    ensures |r| < |s| ==> s[|r|] in marks
  {
    if s == [] || s[0] in marks then [] else [s[0]] + UpTo(s[1..], marks)
  }

  lemma {:induction false} UpToConcat(a: Bytes, rest: Bytes, marks: set<Byte>)
    requires forall i :: 0 <= i < |a| ==> a[i] !in marks
    requires rest == [] || rest[0] in marks
    ensures UpTo(a + rest, marks) == a
  {
    if a == [] {
      assert a + rest == rest;
    } else {
      UpToConcat(a[1..], rest, marks);
      assert (a + rest)[1..] == a[1..] + rest;
    }
  }

  const MARKS: set<Byte> := {HASH, QUESTION}

  // Without the fragment and the query.
  function Href(uri: Bytes): Bytes {
    UpTo(uri, MARKS)
  }

  // What follows "file://" and an empty or local authority.
  function LocalPart(uri: Bytes): (raw: Option<Bytes>)
    ensures raw.Some? ==> raw.value != [] && raw.value[0] == SLASH
  {
    var href := Href(uri);
    if !StartsWith(href, FILE_AUTHORITY) then None
    else
      var all := href[|FILE_AUTHORITY|..];
      var local := StartsWith(all, LOCALHOST) && (|all| == |LOCALHOST| || all[|LOCALHOST|] == SLASH);
      var raw := if local then all[|LOCALHOST|..] else all;
      if raw == [] || raw[0] != SLASH then None else Some(raw)
  }

  // The path of a file URI; None where the original answers with the empty string.
  function PathFromFileUri(uri: Bytes): Option<Bytes> {
    match LocalPart(uri)
    case None => None
    case Some(raw) => Unquote(Repaired(raw))
  }

  // "/".join(quote(part) for part in path.split("/")), which keeps slashes and quotes the rest.
  function FileUriFromAbsolute(path: Bytes): Bytes {
    FILE_AUTHORITY + Quote(path, true)
  }

  lemma {:induction false} QuotedHasNoMarks(s: Bytes, slash: bool)
    ensures forall i :: 0 <= i < |Quote(s, slash)| ==>
      && Quote(s, slash)[i] != HASH && Quote(s, slash)[i] != QUESTION && Quote(s, slash)[i] != LINE_FEED
      && (Quote(s, slash)[i] == SLASH ==> slash)
  {
    if s != [] {
      QuotedHasNoMarks(s[1..], slash);
      assert forall i :: 0 <= i < |QuoteByte(s[0], slash)| ==>
        var b := QuoteByte(s[0], slash)[i];
        b != HASH && b != QUESTION && b != LINE_FEED && (b == SLASH ==> slash);
    }
  }

  lemma LocalPartOf(raw: Bytes)
    requires raw != [] && raw[0] == SLASH && forall i :: 0 <= i < |raw| ==> raw[i] !in MARKS
    ensures LocalPart(FILE_AUTHORITY + raw) == Some(raw)
  {
    var uri := FILE_AUTHORITY + raw;
    UpToConcat(uri, [], MARKS);
    assert uri + [] == uri;
    assert uri[|FILE_AUTHORITY|..] == raw;
    assert Lower(raw[0]) != LOCALHOST[0];
  }

  // The path of a file's URI is the file's path.
  lemma PathOfUri(path: Bytes)
    requires Utf8(path) && path != [] && path[0] == SLASH
    ensures PathFromFileUri(FileUriFromAbsolute(path)) == Some(path)
  {
    var quoted := Quote(path, true);
    QuotedHasNoMarks(path, true);
    assert QuoteByte(SLASH, true) == [SLASH];
    LocalPartOf(quoted);
    QuotedNeedsNoRepair(path, true);
    UnquoteQuote(path, true);
  }

  // ---------------------------------------------------------------- what is decoded is text

  lemma CharLengthPrefix(a: Bytes, b: Bytes)
    requires a != [] && CharLength(a).Some?
    ensures CharLength(a + b) == CharLength(a)
  {
    assert forall i :: 0 <= i < |a| ==> (a + b)[i] == a[i];
  }

  lemma DropJoined(a: Bytes, b: Bytes, n: nat)
    requires n <= |a|
    ensures (a + b)[n..] == a[n..] + b
  {
  }

  lemma Utf8Step(s: Bytes, n: nat)
    requires s != [] && CharLength(s) == Some(n)
    ensures Utf8(s) <==> Utf8(s[n..])
  {
  }

  lemma {:induction false} Utf8Concat(a: Bytes, b: Bytes)
    requires Utf8(a) && Utf8(b)
    ensures Utf8(a + b)
    decreases |a|
  {
    if a == [] {
      assert a + b == b;
    } else {
      var n := CharLength(a).value;
      Utf8Step(a, n);
      CharLengthPrefix(a, b);
      Utf8Concat(a[n..], b);
      DropJoined(a, b, n);
      Utf8Step(a + b, n);
    }
  }

  lemma {:induction false} AsciiIsText(s: Bytes)
    requires forall i :: 0 <= i < |s| ==> s[i] < 0x80
    ensures Utf8(s)
  {
    if s != [] {
      AsciiIsText(s[1..]);
    }
  }

  // Text may be cut at any ASCII character.
  lemma {:induction false} Utf8AtMark(a: Bytes, mark: Byte, b: Bytes)
    requires mark < 0x80
    ensures Utf8(a + [mark] + b) <==> Utf8(a) && Utf8(b)
    decreases |a|
  {
    var whole := a + [mark] + b;
    if a == [] {
      assert whole[1..] == b;
    } else {
      assert whole[|a|] == mark;
      assert forall i :: 0 <= i < |a| ==> whole[i] == a[i];
      assert CharLength(whole) == CharLength(a);
      if CharLength(a).Some? {
        var n := CharLength(a).value;
        Utf8AtMark(a[n..], mark, b);
        assert whole[n..] == a[n..] + [mark] + b;
      }
    }
  }

  lemma Utf8UpTo(s: Bytes, marks: set<Byte>)
    requires Utf8(s) && forall m :: m in marks ==> m < 0x80
    ensures Utf8(UpTo(s, marks))
  {
    var r := UpTo(s, marks);
    if |r| < |s| {
      assert s == r + [s[|r|]] + s[|r| + 1..];
      Utf8AtMark(r, s[|r|], s[|r| + 1..]);
    } else {
      assert r == s;
    }
  }

  lemma {:induction false} Utf8AfterAscii(s: Bytes, n: nat)
    requires Utf8(s) && n <= |s| && forall i :: 0 <= i < n ==> s[i] < 0x80
    ensures Utf8(s[n..])
    decreases n
  {
    if n > 0 {
      Utf8AfterAscii(s[1..], n - 1);
      assert s[1..][n - 1..] == s[n..];
    }
  }

  // A character beyond ASCII is passed on whole.
  lemma CharIsBeyond(s: Bytes)
    requires s != [] && s[0] >= 0x80 && CharLength(s).Some?
    ensures forall i :: 0 <= i < CharLength(s).value ==> s[i] >= 0x80
    ensures Utf8(s[..CharLength(s).value])
  {
    var n := CharLength(s).value;
    assert CharLength(s[..n]) == Some(n);
    assert s[..n][n..] == [];
  }

  lemma {:induction false} RepairPasses(s: Bytes, n: nat)
    requires n <= |s| && forall i :: 0 <= i < n ==> s[i] >= 0x80
    ensures Repaired(s) == s[..n] + Repaired(s[n..])
    decreases n
  {
    if n == 0 {
      assert s[..0] + Repaired(s) == Repaired(s);
    } else {
      RepairPasses(s[1..], n - 1);
      assert s[1..][n - 1..] == s[n..];
      assert s[..n] == [s[0]] + s[1..][..n - 1];
    }
  }

  lemma {:induction false} RepairedIsText(s: Bytes)
    requires Utf8(s)
    ensures Utf8(Repaired(s))
    decreases |s|
  {
    if s != [] {
      var n := CharLength(s).value;
      RepairedIsText(s[n..]);
      if s[0] >= 0x80 {
        CharIsBeyond(s);
        RepairPasses(s, n);
        Utf8Concat(s[..n], Repaired(s[n..]));
      } else if s[0] == PERCENT && !Escape(s) {
        AsciiIsText([PERCENT, 0x32, 0x35]);
        Utf8Concat([PERCENT, 0x32, 0x35], Repaired(s[1..]));
      } else {
        assert [s[0]][1..] == [];
        Utf8Concat([s[0]], Repaired(s[1..]));
      }
    }
  }

  // A byte that is not ASCII stands for itself and ends the run of escapes before it.
  lemma UnquoteHigh(x: Byte, t: Bytes)
    requires x >= 0x80 && UnquoteRun([x] + t, []).Some?
    ensures UnquoteRun(t, []).Some? && UnquoteRun([x] + t, []).value == [x] + UnquoteRun(t, []).value
  {
    assert ([x] + t)[1..] == t && [] + [x] == [x];
  }

  lemma ConsJoined(a: Bytes, b: Bytes)
    requires a != []
    ensures a + b == [a[0]] + (a[1..] + b)
  {
  }

  lemma {:induction false} UnquoteHighs(a: Bytes, rest: Bytes)
    requires forall i :: 0 <= i < |a| ==> a[i] >= 0x80
    requires UnquoteRun(a + rest, []).Some?
    ensures UnquoteRun(rest, []).Some? && UnquoteRun(a + rest, []).value == a + UnquoteRun(rest, []).value
    decreases |a|
  {
    if a == [] {
      assert a + rest == rest;
      assert a + UnquoteRun(rest, []).value == UnquoteRun(rest, []).value;
    } else {
      ConsJoined(a, rest);
      UnquoteHigh(a[0], a[1..] + rest);
      UnquoteHighs(a[1..], rest);
      ConsJoined(a, UnquoteRun(rest, []).value);
    }
  }

  lemma {:induction false} UnquotePasses(s: Bytes, n: nat)
    requires n <= |s| && forall i :: 0 <= i < n ==> s[i] >= 0x80
    requires UnquoteRun(s, []).Some?
    ensures UnquoteRun(s[n..], []).Some? && UnquoteRun(s, []).value == s[..n] + UnquoteRun(s[n..], []).value
  {
    var a, rest := s[..n], s[n..];
    assert a + rest == s && forall i :: 0 <= i < |a| ==> a[i] == s[i];
    UnquoteHighs(a, rest);
  }

  lemma {:induction false} UnquotedIsText(s: Bytes, run: Bytes)
    requires Utf8(s) && UnquoteRun(s, run).Some?
    ensures Utf8(UnquoteRun(s, run).value) && run <= UnquoteRun(s, run).value
    decreases |s|
  {
    if s != [] {
      if s[0] >= 0x80 {
        var n := CharLength(s).value;
        CharIsBeyond(s);
        RunEnds(s, run);
        UnquotePasses(s, n);
        UnquotedIsText(s[n..], []);
        Utf8Concat(s[..n], UnquoteRun(s[n..], []).value);
        Utf8Concat(run, UnquoteRun(s, []).value);
      } else if Escape(s) {
        Utf8AfterAscii(s, 3);
        UnquotedIsText(s[3..], run + [16 * HexValue(s[1]) + HexValue(s[2])]);
      } else {
        UnquotedIsText(s[1..], run + [s[0]]);
      }
    }
  }

  lemma RunEnds(s: Bytes, run: Bytes)
    requires s != [] && s[0] >= 0x80 && UnquoteRun(s, run).Some?
    ensures Utf8(run) && UnquoteRun(s, []).Some? && UnquoteRun(s, run).value == run + UnquoteRun(s, []).value
  {
    var rest := UnquoteRun(s[1..], []).value;
    assert run + [s[0]] + rest == run + ([] + [s[0]] + rest);
  }

  predicate Ascii(s: Bytes) {
    forall i :: 0 <= i < |s| ==> s[i] < 0x80
  }

  lemma PrefixesAreAscii()
    ensures Ascii(FILE_AUTHORITY) && Ascii(LOCALHOST)
  {
  }

  lemma AfterPrefix(s: Bytes, prefix: Bytes)
    requires Utf8(s) && StartsWith(s, prefix) && Ascii(prefix)
    ensures Utf8(s[|prefix|..])
  {
    forall i | 0 <= i < |prefix| ensures s[i] < 0x80 {
      assert Lower(s[i]) == prefix[i];
    }
    Utf8AfterAscii(s, |prefix|);
  }

  lemma LocalPartIsText(uri: Bytes)
    requires Utf8(uri) && LocalPart(uri).Some?
    ensures Utf8(LocalPart(uri).value)
  {
    Utf8UpTo(uri, MARKS);
    var href := Href(uri);
    PrefixesAreAscii();
    AfterPrefix(href, FILE_AUTHORITY);
    var all := href[|FILE_AUTHORITY|..];
    if StartsWith(all, LOCALHOST) {
      AfterPrefix(all, LOCALHOST);
    }
  }

  // The path of a file URI is an absolute path.
  lemma PathIsAbsolute(uri: Bytes)
    requires Utf8(uri) && PathFromFileUri(uri).Some?
    ensures Utf8(PathFromFileUri(uri).value)
    ensures PathFromFileUri(uri).value != [] && PathFromFileUri(uri).value[0] == SLASH
  {
    var raw := LocalPart(uri).value;
    LocalPartIsText(uri);
    RepairedIsText(raw);
    UnquotedIsText(Repaired(raw), []);
    var s := Repaired(raw);
    Utf8AfterAscii(s, 1);
    assert UnquoteRun(s, []) == UnquoteRun(s[1..], [] + [SLASH]);
    UnquotedIsText(s[1..], [] + [SLASH]);
  }

  // ---------------------------------------------------------------- URIs with an authority

  // scheme "://" authority path suffix; the path ends at the first question mark or hash.
  datatype Parts = Parts(scheme: Bytes, authority: Bytes, path: Bytes, suffix: Bytes)

  const COLON_SLASHES: Bytes := [0x3A, 0x2F, 0x2F]

  // The pattern's last part has no line feed, except that one at the very end is not looked at.
  function Suffix(rest: Bytes): Option<Bytes> {
    if LINE_FEED !in rest then Some(rest)
    else if rest[|rest| - 1] == LINE_FEED && LINE_FEED !in rest[..|rest| - 1] then Some(rest[..|rest| - 1])
    else None
  }

  // Matching the pattern for a scheme of n bytes.
  function Cut(uri: Bytes, n: nat): (p: Option<Parts>)
    ensures p.Some? ==> p.value.authority != []
  {
    if |uri| < n + 3 || uri[n..n + 3] != COLON_SLASHES then None
    else
      var rest := uri[n + 3..];
      var authority := UpTo(rest, {SLASH});
      if authority == [] then None
      else
        var tail := rest[|authority|..];
        match Suffix(tail[|UpTo(tail, MARKS)|..])
        case None => None
        case Some(suffix) => Some(Parts(uri[..n], authority, UpTo(tail, MARKS), suffix))
  }

  function Glued(p: Parts): Bytes {
    p.scheme + COLON_SLASHES + (p.authority + (p.path + p.suffix))
  }

  function EncodePart(part: Bytes): Bytes {
    if part == [] then []
    else match Unquote(Repaired(part))
      case Some(text) => Quote(text, false)
      case None => Repaired(part)
  }

  // The path, part by part.
  function EncodePath(path: Bytes): Bytes
    decreases |path|
  {
    var part := UpTo(path, {SLASH});
    if |part| == |path| then EncodePart(part)
    else EncodePart(part) + [SLASH] + EncodePath(path[|part| + 1..])
  }

  function EncodeAuthority(uri: Bytes, n: nat): Bytes {
    match Cut(uri, n)
    case None => uri
    case Some(p) => if p.path == [] then uri else Glued(p.(path := EncodePath(p.path)))
  }

  function CanonicalFileUri(uri: Bytes): Bytes {
    if !StartsWith(uri, FILE) then uri
    else match PathFromFileUri(uri)
      case Some(path) => FileUriFromAbsolute(path)
      case None => EncodeAuthority(uri, 4)
  }

  ghost predicate Avoids(s: Bytes, marks: set<Byte>) {
    forall i :: 0 <= i < |s| ==> s[i] !in marks
  }

  lemma {:induction false} RepairAvoids(s: Bytes, marks: set<Byte>)
    requires Avoids(s, marks) && marks !! {0x32, 0x35, PERCENT}
    ensures Avoids(Repaired(s), marks)
  {
    if s != [] {
      assert Avoids(s[1..], marks);
      RepairAvoids(s[1..], marks);
    }
  }

  lemma EncodePartAvoids(part: Bytes)
    requires Avoids(part, MARKS + {SLASH})
    ensures Avoids(EncodePart(part), MARKS + {SLASH})
  {
    if part != [] {
      match Unquote(Repaired(part))
      case Some(text) => QuotedHasNoMarks(text, false);
      case None => RepairAvoids(part, MARKS + {SLASH});
    }
  }

  // Encoding a part again changes nothing, and does not make it decodable.
  lemma EncodePartIsStable(part: Bytes)
    requires Utf8(part)
    ensures EncodePart(EncodePart(part)) == EncodePart(part)
    ensures Unquote(Repaired(EncodePart(part))).Some? <==> Unquote(Repaired(part)).Some?
  {
    if part != [] {
      match Unquote(Repaired(part))
      case Some(text) =>
        RepairedIsText(part);
        UnquotedIsText(Repaired(part), []);
        QuotedNeedsNoRepair(text, false);
        UnquoteQuote(text, false);
      case None => RepairedIsStable(part);
    }
  }

  lemma EncodePathCons(part: Bytes, rest: Bytes)
    requires Avoids(part, {SLASH})
    ensures EncodePath(part) == EncodePart(part)
    ensures EncodePath(part + [SLASH] + rest) == EncodePart(part) + [SLASH] + EncodePath(rest)
  {
    UpToConcat(part, [], {SLASH});
    assert part + [] == part;
    UpToConcat(part, [SLASH] + rest, {SLASH});
    var whole := part + [SLASH] + rest;
    assert whole == part + ([SLASH] + rest);
    assert whole[|part| + 1..] == rest;
  }

  // A path is a part, or a part, a slash and a path.
  lemma PathCases(path: Bytes) returns (part: Bytes, rest: Bytes)
    ensures Avoids(part, {SLASH})
    ensures path == part || (path == part + [SLASH] + rest && |rest| < |path|)
    ensures path != [] && path[0] == SLASH ==> part == [] && path != part
  {
    part := UpTo(path, {SLASH});
    rest := [];
    if |part| < |path| {
      rest := path[|part| + 1..];
      assert path == part + [path[|part|]] + rest;
    }
  }

  lemma {:induction false} EncodePathIsStable(path: Bytes)
    requires Utf8(path)
    ensures EncodePath(EncodePath(path)) == EncodePath(path)
    decreases |path|
  {
    var part, rest := PathCases(path);
    EncodePathCons(part, rest);
    if path != part {
      Utf8AtMark(part, SLASH, rest);
      EncodePathIsStable(rest);
    }
    EncodePartIsStable(part);
    EncodePartHasNoSlash(part);
    EncodePathCons(EncodePart(part), EncodePath(rest));
  }

  lemma EncodePartHasNoSlash(part: Bytes)
    requires Avoids(part, {SLASH})
    ensures Avoids(EncodePart(part), {SLASH})
  {
    if part != [] {
      match Unquote(Repaired(part))
      case Some(text) => QuotedHasNoMarks(text, false);
      case None => RepairAvoids(part, {SLASH});
    }
  }

  lemma SlashJoined(a: Bytes, b: Bytes)
    requires Avoids(a, MARKS) && Avoids(b, MARKS)
    ensures Avoids(a + [SLASH] + b, MARKS)
  {
  }

  lemma SlashSplit(path: Bytes, part: Bytes, rest: Bytes)
    requires path == part + [SLASH] + rest && Avoids(path, MARKS) && Avoids(part, {SLASH})
    ensures Avoids(part, MARKS + {SLASH}) && Avoids(rest, MARKS)
  {
    assert forall i :: 0 <= i < |part| ==> part[i] == path[i];
    assert forall i :: 0 <= i < |rest| ==> rest[i] == path[|part| + 1 + i];
  }

  lemma {:induction false} EncodePathAvoids(path: Bytes)
    requires Avoids(path, MARKS)
    ensures Avoids(EncodePath(path), MARKS)
    ensures path != [] && path[0] == SLASH ==> EncodePath(path) != [] && EncodePath(path)[0] == SLASH
    decreases |path|
  {
    var part, rest := PathCases(path);
    EncodePathCons(part, rest);
    if path != part {
      SlashSplit(path, part, rest);
      EncodePartAvoids(part);
      EncodePathAvoids(rest);
      SlashJoined(EncodePart(part), EncodePath(rest));
    } else {
      EncodePartAvoids(part);
    }
  }

  // ---------------------------------------------------------------- cutting what was glued

  ghost predicate Fits(p: Parts, n: nat) {
    && |p.scheme| == n && p.authority != [] && Avoids(p.authority, {SLASH}) && Avoids(p.path, MARKS)
    && (p.path != [] ==> p.path[0] == SLASH)
    && (p.suffix == [] || p.suffix[0] in MARKS)
    && LINE_FEED !in p.suffix
  }

  // The tail of a match: its path, and its suffix up to a final line feed that is not kept.
  lemma TailParts(tail: Bytes) returns (path: Bytes, end: Bytes)
    requires tail == [] || tail[0] == SLASH
    ensures path == UpTo(tail, MARKS) && end == tail[|path|..] && tail == path + end
    ensures Avoids(path, MARKS) && (path != [] ==> path[0] == SLASH)
    ensures end == [] || end[0] in MARKS
    ensures Suffix(end).Some? ==>
      LINE_FEED !in Suffix(end).value && (Suffix(end).value == [] || Suffix(end).value[0] in MARKS)
  {
    path := UpTo(tail, MARKS);
    end := tail[|path|..];
  }

  lemma CutFits(uri: Bytes, n: nat) returns (tail: Bytes)
    requires Cut(uri, n).Some?
    ensures
      var p := Cut(uri, n).value;
      && Fits(p, n)
      && uri == p.scheme + COLON_SLASHES + (p.authority + tail)
      && p.path == UpTo(tail, MARKS) && (tail == [] || tail[0] == SLASH)
      && Suffix(tail[|p.path|..]) == Some(p.suffix)
  {
    var rest := uri[n + 3..];
    var authority := UpTo(rest, {SLASH});
    tail := rest[|authority|..];
    assert rest == authority + tail;
    assert uri == uri[..n] + uri[n..n + 3] + rest;
    var path, end := TailParts(tail);
  }

  lemma CutOf(scheme: Bytes, authority: Bytes, tail: Bytes, n: nat)
    requires |scheme| == n && authority != [] && Avoids(authority, {SLASH}) && (tail == [] || tail[0] == SLASH)
    ensures
      Cut(scheme + COLON_SLASHES + (authority + tail), n) ==
        match Suffix(tail[|UpTo(tail, MARKS)|..]) {
          case None => None
          case Some(suffix) => Some(Parts(scheme, authority, UpTo(tail, MARKS), suffix))
        }
  {
    var uri := scheme + COLON_SLASHES + (authority + tail);
    assert uri[..n] == scheme && uri[n..n + 3] == COLON_SLASHES;
    var rest := uri[n + 3..];
    assert rest == authority + tail;
    UpToConcat(authority, tail, {SLASH});
    assert rest[|authority|..] == tail;
  }

  lemma CutGlued(p: Parts, n: nat)
    requires Fits(p, n) && p.path != []
    ensures Cut(Glued(p), n) == Some(p)
  {
    var tail := p.path + p.suffix;
    UpToConcat(p.path, p.suffix, MARKS);
    assert tail[|p.path|..] == p.suffix;
    assert Suffix(p.suffix) == Some(p.suffix);
    CutOf(p.scheme, p.authority, tail, n);
  }

  lemma TextAfter(before: Bytes, tail: Bytes)
    requires Utf8(before + tail) && (tail == [] || tail[0] == SLASH)
    ensures Utf8(tail)
  {
    if tail != [] {
      assert before + tail == before + [SLASH] + tail[1..];
      Utf8AtMark(before, SLASH, tail[1..]);
      assert tail == [] + [SLASH] + tail[1..];
      Utf8AtMark([], SLASH, tail[1..]);
    }
  }

  lemma Regrouped(a: Bytes, b: Bytes, c: Bytes, d: Bytes)
    ensures a + b + (c + d) == (a + b + c) + d
  {
  }

  // The path part of glued text, taken off its end.
  lemma TailIsText(before: Bytes, tail: Bytes)
    requires Utf8(before + tail) && (tail == [] || tail[0] == SLASH)
    ensures Utf8(UpTo(tail, MARKS))
  {
    TextAfter(before, tail);
    Utf8UpTo(tail, MARKS);
  }

  lemma PathIsText(uri: Bytes, n: nat)
    requires Utf8(uri) && Cut(uri, n).Some?
    ensures Utf8(Cut(uri, n).value.path)
  {
    var tail := CutFits(uri, n);
    var p := Cut(uri, n).value;
    Regrouped(p.scheme, COLON_SLASHES, p.authority, tail);
    TailIsText(p.scheme + COLON_SLASHES + p.authority, tail);
  }

  // Encoding the path of a URI with an authority twice is encoding it once.
  lemma EncodeAuthorityIsStable(uri: Bytes, n: nat)
    requires Utf8(uri)
    ensures EncodeAuthority(EncodeAuthority(uri, n), n) == EncodeAuthority(uri, n)
  {
    if Cut(uri, n).Some? && Cut(uri, n).value.path != [] {
      var tail := CutFits(uri, n);
      var p := Cut(uri, n).value;
      PathIsText(uri, n);
      EncodePathIsStable(p.path);
      EncodePathAvoids(p.path);
      CutGlued(p.(path := EncodePath(p.path)), n);
    }
  }

  // ---------------------------------------------------------------- canonical file URIs

  lemma EscapeStops(a: Bytes, b: Bytes)
    requires a != []
    ensures Escape(a + [SLASH] + b) <==> Escape(a)
  {
    var whole := a + [SLASH] + b;
    assert whole[|a|] == SLASH;
    assert forall i :: 0 <= i < |a| ==> whole[i] == a[i];
  }

  // What the first byte becomes.
  function FirstRepaired(s: Bytes): Bytes
    requires s != []
  {
    if s[0] == PERCENT && !Escape(s) then [PERCENT, 0x32, 0x35] else [s[0]]
  }

  lemma RepairStep(s: Bytes)
    requires s != []
    ensures Repaired(s) == FirstRepaired(s) + Repaired(s[1..])
  {
  }

  lemma PutBefore(first: Bytes, a: Bytes, b: Bytes)
    ensures first + (a + [SLASH] + b) == (first + a) + [SLASH] + b
  {
  }

  lemma {:induction false} RepairAtSlash(a: Bytes, b: Bytes)
    ensures Repaired(a + [SLASH] + b) == Repaired(a) + [SLASH] + Repaired(b)
  {
    var whole := a + [SLASH] + b;
    if a == [] {
      assert whole[1..] == b;
    } else {
      EscapeStops(a, b);
      RepairAtSlash(a[1..], b);
      assert whole[0] == a[0] && whole[1..] == a[1..] + [SLASH] + b;
      RepairStep(a);
      RepairStep(whole);
      PutBefore(FirstRepaired(a), Repaired(a[1..]), Repaired(b));
    }
  }

  // What is decoded after a slash is text or not, whatever was decoded before the slash.
  lemma {:induction false} RunAfterSlash(b: Bytes, run: Bytes, more: Bytes)
    ensures UnquoteRun(b, run + [SLASH] + more).Some? <==> Utf8(run) && UnquoteRun(b, more).Some?
    decreases |b|
  {
    Utf8AtSlash(run, more);
    if b != [] && b[0] < 0x80 {
      var byte := if Escape(b) then 16 * HexValue(b[1]) + HexValue(b[2]) else b[0];
      assert (run + [SLASH] + more) + [byte] == run + [SLASH] + (more + [byte]);
      RunAfterSlash(if Escape(b) then b[3..] else b[1..], run, more + [byte]);
    }
  }

  lemma {:induction false} UnquoteAtSlash(a: Bytes, b: Bytes, run: Bytes)
    ensures UnquoteRun(a + [SLASH] + b, run).Some? <==> UnquoteRun(a, run).Some? && UnquoteRun(b, []).Some?
    decreases |a|
  {
    var whole := a + [SLASH] + b;
    if a == [] {
      assert whole[1..] == b;
      assert run + [SLASH] + [] == run + [SLASH];
      RunAfterSlash(b, run, []);
    } else {
      EscapeStops(a, b);
      if a[0] >= 0x80 {
        assert whole[1..] == a[1..] + [SLASH] + b;
        UnquoteAtSlash(a[1..], b, []);
      } else if Escape(a) {
        assert whole[3..] == a[3..] + [SLASH] + b;
        UnquoteAtSlash(a[3..], b, run + [16 * HexValue(a[1]) + HexValue(a[2])]);
      } else {
        assert whole[1..] == a[1..] + [SLASH] + b;
        UnquoteAtSlash(a[1..], b, run + [a[0]]);
      }
    }
  }

  predicate Decodable(s: Bytes) {
    Unquote(Repaired(s)).Some?
  }

  lemma DecodableAtSlash(a: Bytes, b: Bytes)
    ensures Decodable(a + [SLASH] + b) <==> Decodable(a) && Decodable(b)
  {
    RepairAtSlash(a, b);
    UnquoteAtSlash(Repaired(a), Repaired(b), []);
  }

  // Encoding the parts of a path that can be decoded does not make the others decodable.
  lemma {:induction false} EncodePathKeepsDecodable(path: Bytes)
    requires Utf8(path)
    ensures Decodable(EncodePath(path)) <==> Decodable(path)
    decreases |path|
  {
    var part, rest := PathCases(path);
    EncodePathCons(part, rest);
    if path != part {
      Utf8AtMark(part, SLASH, rest);
      EncodePathKeepsDecodable(rest);
      DecodableAtSlash(part, rest);
      DecodableAtSlash(EncodePart(part), EncodePath(rest));
    }
    EncodePartIsStable(part);
  }

  // Whether the scheme and authority leave a local path.
  predicate IsLocal(scheme: Bytes, authority: Bytes) {
    && StartsWith(scheme + COLON_SLASHES, FILE_AUTHORITY)
    && |authority| == |LOCALHOST| && StartsWith(authority, LOCALHOST)
  }

  lemma AvoidsJoined(a: Bytes, b: Bytes)
    requires Avoids(a, MARKS) && Avoids(b, MARKS)
    ensures Avoids(a + b, MARKS)
  {
  }

  lemma HrefOfFront(front: Bytes, rest: Bytes)
    requires Avoids(front, MARKS) && (rest == [] || rest[0] in MARKS)
    ensures Href(front + rest) == front
  {
    UpToConcat(front, rest, MARKS);
  }

  lemma JoinedRight(before: Bytes, a: Bytes, b: Bytes, c: Bytes)
    ensures before + (a + (b + c)) == (before + (a + b)) + c
    ensures before + ((a + b) + c) == (before + a) + (b + c)
  {
  }

  lemma HrefPlain(before: Bytes, authority: Bytes, tail: Bytes)
    requires Avoids(before, MARKS) && Avoids(authority, MARKS)
    ensures Href(before + (authority + tail)) == before + (authority + UpTo(tail, MARKS))
  {
    var path := UpTo(tail, MARKS);
    var rest := tail[|path|..];
    assert tail == path + rest && (rest == [] || rest[0] in MARKS);
    JoinedRight(before, authority, path, rest);
    AvoidsJoined(authority, path);
    AvoidsJoined(before, authority + path);
    HrefOfFront(before + (authority + path), rest);
  }

  lemma HrefMarked(before: Bytes, authority: Bytes, tail: Bytes)
    requires Avoids(before, MARKS) && !Avoids(authority, MARKS)
    ensures Href(before + (authority + tail)) == before + UpTo(authority, MARKS)
  {
    var kept := UpTo(authority, MARKS);
    var rest := authority[|kept|..];
    assert authority == kept + rest && rest != [] && rest[0] in MARKS;
    JoinedRight(before, kept, rest, tail);
    AvoidsJoined(before, kept);
    HrefOfFront(before + kept, rest + tail);
  }

  lemma HrefOf(scheme: Bytes, authority: Bytes, tail: Bytes)
    requires Avoids(scheme, MARKS)
    ensures Avoids(authority, MARKS) ==>
      Href(scheme + COLON_SLASHES + (authority + tail)) == scheme + COLON_SLASHES + (authority + UpTo(tail, MARKS))
    ensures !Avoids(authority, MARKS) ==>
      Href(scheme + COLON_SLASHES + (authority + tail)) == scheme + COLON_SLASHES + UpTo(authority, MARKS)
  {
    AvoidsJoined(scheme, COLON_SLASHES);
    if Avoids(authority, MARKS) {
      HrefPlain(scheme + COLON_SLASHES, authority, tail);
    } else {
      HrefMarked(scheme + COLON_SLASHES, authority, tail);
    }
  }

  lemma StartsInFront(a: Bytes, b: Bytes, prefix: Bytes)
    requires |a| >= |prefix|
    ensures StartsWith(a + b, prefix) <==> StartsWith(a, prefix)
  {
    assert forall i :: 0 <= i < |prefix| ==> (a + b)[i] == a[i];
  }

  // A prefix without a slash ends before the path does begin.
  lemma StartsBeforePath(a: Bytes, path: Bytes, prefix: Bytes)
    requires path != [] && path[0] == SLASH && SLASH !in prefix
    ensures StartsWith(a + path, prefix) <==> StartsWith(a, prefix)
  {
    if |a| >= |prefix| {
      StartsInFront(a, path, prefix);
    } else {
      assert (a + path)[|a|] == SLASH && Lower(SLASH) == SLASH;
      assert prefix[|a|] in prefix;
    }
  }

  lemma LocalPartAfter(href: Bytes, scheme: Bytes, authority: Bytes, path: Bytes, uri: Bytes)
    requires |scheme| == 4 && authority != [] && Avoids(authority, {SLASH}) && path != [] && path[0] == SLASH
    requires href == scheme + COLON_SLASHES + (authority + path) && Href(uri) == href
    ensures LocalPart(uri) == if IsLocal(scheme, authority) then Some(path) else None
  {
    var all := authority + path;
    StartsInFront(scheme + COLON_SLASHES, all, FILE_AUTHORITY);
    DropFront(scheme + COLON_SLASHES, all);
    StartsBeforePath(authority, path, LOCALHOST);
    DropFront(authority, path);
    assert all[0] == authority[0] != SLASH;
    if |all| > |LOCALHOST| && |authority| > |LOCALHOST| {
      assert all[|LOCALHOST|] == authority[|LOCALHOST|] != SLASH;
    }
  }

  lemma DropFront(a: Bytes, b: Bytes)
    ensures (a + b)[|a|..] == b
  {
  }

  lemma NoLocalPart(uri: Bytes, scheme: Bytes, all: Bytes)
    requires |scheme| == 4 && Href(uri) == scheme + COLON_SLASHES + all && Avoids(all, {SLASH})
    ensures LocalPart(uri).None?
  {
    assert Href(uri)[7..] == all;
  }

  // With a path, whether a URI has a local part depends only on what is before the path.
  lemma LocalPartOfParts(scheme: Bytes, authority: Bytes, tail: Bytes)
    requires |scheme| == 4 && Avoids(scheme, MARKS) && authority != [] && Avoids(authority, {SLASH})
    requires tail != [] && tail[0] == SLASH
    ensures
      LocalPart(scheme + COLON_SLASHES + (authority + tail)) ==
        if Avoids(authority, MARKS) && IsLocal(scheme, authority) then Some(UpTo(tail, MARKS)) else None
  {
    var uri := scheme + COLON_SLASHES + (authority + tail);
    HrefOf(scheme, authority, tail);
    if Avoids(authority, MARKS) {
      LocalPartAfter(Href(uri), scheme, authority, UpTo(tail, MARKS), uri);
    } else {
      NoLocalPart(uri, scheme, UpTo(authority, MARKS));
    }
  }

  // With its path encoded, a URI still stands for a path or still does not.
  lemma EncodedPathOrNot(scheme: Bytes, authority: Bytes, tail: Bytes, suffix: Bytes)
    requires |scheme| == 4 && Avoids(scheme, MARKS) && authority != [] && Avoids(authority, {SLASH})
    requires tail != [] && tail[0] == SLASH && Utf8(UpTo(tail, MARKS))
    requires suffix == [] || suffix[0] in MARKS
    ensures
      var path := EncodePath(UpTo(tail, MARKS));
      PathFromFileUri(scheme + COLON_SLASHES + (authority + (path + suffix))).Some?
      <==> PathFromFileUri(scheme + COLON_SLASHES + (authority + tail)).Some?
  {
    var path := UpTo(tail, MARKS);
    LocalPartOfParts(scheme, authority, tail);
    EncodePathAvoids(path);
    EncodePathKeepsDecodable(path);
    LocalPartOfParts(scheme, authority, EncodePath(path) + suffix);
    UpToConcat(EncodePath(path), suffix, MARKS);
  }

  lemma SchemeOf(uri: Bytes, p: Parts, tail: Bytes)
    requires StartsWith(uri, FILE) && |p.scheme| == 4 && uri == p.scheme + COLON_SLASHES + (p.authority + tail)
    ensures Avoids(p.scheme, MARKS)
    ensures forall rest :: StartsWith(p.scheme + COLON_SLASHES + rest, FILE)
  {
    assert forall i :: 0 <= i < 4 ==> p.scheme[i] == uri[i] && Lower(p.scheme[i]) == FILE[i];
    forall rest ensures StartsWith(p.scheme + COLON_SLASHES + rest, FILE) {
      var other := p.scheme + COLON_SLASHES + rest;
      assert forall i :: 0 <= i < 5 ==> other[i] == uri[i];
    }
  }

  // A URI that stands for no path still stands for none once its authority form is encoded.
  lemma EncodedHasNoPath(uri: Bytes)
    requires Utf8(uri) && StartsWith(uri, FILE) && PathFromFileUri(uri).None?
    ensures StartsWith(EncodeAuthority(uri, 4), FILE) && PathFromFileUri(EncodeAuthority(uri, 4)).None?
  {
    if Cut(uri, 4).Some? && Cut(uri, 4).value.path != [] {
      var tail := CutFits(uri, 4);
      var p := Cut(uri, 4).value;
      SchemeOf(uri, p, tail);
      PathIsText(uri, 4);
      EncodedPathOrNot(p.scheme, p.authority, tail, p.suffix);
    }
  }

  // Canonicalising a file URI twice is canonicalising it once, for every URI there is.
  lemma CanonicalIsIdempotent(uri: Bytes)
    requires Utf8(uri)
    ensures CanonicalFileUri(CanonicalFileUri(uri)) == CanonicalFileUri(uri)
  {
    if StartsWith(uri, FILE) {
      match PathFromFileUri(uri)
      case Some(path) =>
        PathIsAbsolute(uri);
        PathOfUri(path);
      case None =>
        EncodedHasNoPath(uri);
        EncodeAuthorityIsStable(uri, 4);
    }
  }

  // ---------------------------------------------------------------- what the canonical form is

  predicate IsUpperHex(b: Byte) {
    0x30 <= b <= 0x39 || 0x41 <= b <= 0x46
  }

  // Nothing but unreserved bytes, slashes if `slash` says so, and escapes of bytes that need one.
  predicate Quoted(s: Bytes, slash: bool) {
    s == [] ||
    if s[0] == PERCENT then
      && |s| >= 3 && IsUpperHex(s[1]) && IsUpperHex(s[2])
      && !Unreserved(16 * HexValue(s[1]) + HexValue(s[2])) && Quoted(s[3..], slash)
    else (Unreserved(s[0]) || (slash && s[0] == SLASH)) && Quoted(s[1..], slash)
  }

  lemma {:induction false} QuoteIsQuoted(s: Bytes, slash: bool)
    ensures Quoted(Quote(s, slash), slash)
  {
    if s != [] {
      var q, rest := QuoteByte(s[0], slash), Quote(s[1..], slash);
      QuoteIsQuoted(s[1..], slash);
      assert (q + rest)[|q|..] == rest;
    }
  }

  lemma PathNeedsScheme(uri: Bytes)
    requires PathFromFileUri(uri).Some?
    ensures StartsWith(uri, FILE)
  {
    var href := Href(uri);
    assert forall i :: 0 <= i < 5 ==> Lower(href[i]) == FILE_AUTHORITY[i] && uri[i] == href[i] && FILE[i] == FILE_AUTHORITY[i];
  }

  // A URI that stands for a path is written out anew: "file://", then the path in quoted form.
  lemma CanonicalForm(uri: Bytes)
    requires Utf8(uri) && PathFromFileUri(uri).Some?
    ensures FILE_AUTHORITY <= CanonicalFileUri(uri)
    ensures Quoted(CanonicalFileUri(uri)[|FILE_AUTHORITY|..], true)
    ensures Unquote(CanonicalFileUri(uri)[|FILE_AUTHORITY|..]) == PathFromFileUri(uri)
  {
    var path := PathFromFileUri(uri).value;
    PathNeedsScheme(uri);
    PathIsAbsolute(uri);
    QuoteIsQuoted(path, true);
    UnquoteQuote(path, true);
    assert (FILE_AUTHORITY + Quote(path, true))[|FILE_AUTHORITY|..] == Quote(path, true);
  }

  // The canonical form stands for the same path, or like the URI itself for none.
  lemma CanonicalKeepsPath(uri: Bytes)
    requires Utf8(uri)
    ensures PathFromFileUri(CanonicalFileUri(uri)) == PathFromFileUri(uri)
  {
    if PathFromFileUri(uri).Some? {
      PathNeedsScheme(uri);
      PathIsAbsolute(uri);
      PathOfUri(PathFromFileUri(uri).value);
    } else if StartsWith(uri, FILE) {
      EncodedHasNoPath(uri);
    }
  }

  // Two URIs of files have the same canonical form exactly if they stand for the same path.
  lemma CanonicalIffSamePath(a: Bytes, b: Bytes)
    requires Utf8(a) && Utf8(b) && PathFromFileUri(a).Some? && PathFromFileUri(b).Some?
    ensures CanonicalFileUri(a) == CanonicalFileUri(b) <==> PathFromFileUri(a) == PathFromFileUri(b)
  {
    PathNeedsScheme(a);
    PathNeedsScheme(b);
    CanonicalKeepsPath(a);
    CanonicalKeepsPath(b);
  }

  // A query or a fragment does not change the path.
  lemma MarksAreIgnored(uri: Bytes, mark: Byte, rest: Bytes)
    requires mark in MARKS
    ensures PathFromFileUri(uri + [mark] + rest) == PathFromFileUri(uri)
  {
    var href := Href(uri);
    var after := uri[|href|..] + [mark] + rest;
    UpToConcat(href, after, MARKS);
    assert uri + [mark] + rest == href + after;
    UpToConcat(href, [], MARKS);
    assert href + [] == href;
  }

  // A URI with an authority stands for a path only if that is the local host, and then for the same
  // path as without it.
  lemma HostDecides(host: Bytes, raw: Bytes)
    requires host != [] && Avoids(host, MARKS + {SLASH}) && Avoids(raw, MARKS) && raw != [] && raw[0] == SLASH
    ensures PathFromFileUri(FILE_AUTHORITY + (host + raw)) ==
      if |host| == |LOCALHOST| && StartsWith(host, LOCALHOST) then PathFromFileUri(FILE_AUTHORITY + raw) else None
  {
    LocalPartOf(raw);
    LocalPartAt(host, raw);
  }

  lemma LocalPartAt(host: Bytes, raw: Bytes)
    requires host != [] && Avoids(host, MARKS + {SLASH}) && Avoids(raw, MARKS) && raw != [] && raw[0] == SLASH
    ensures LocalPart(FILE_AUTHORITY + (host + raw)) ==
      if |host| == |LOCALHOST| && StartsWith(host, LOCALHOST) then Some(raw) else None
  {
    var all := host + raw;
    var uri := FILE_AUTHORITY + all;
    assert Avoids(uri, MARKS);
    UpToConcat(uri, [], MARKS);
    assert uri + [] == uri;
    assert StartsWith(FILE_AUTHORITY, FILE_AUTHORITY);
    assert StartsWith(uri, FILE_AUTHORITY);
    assert uri[|FILE_AUTHORITY|..] == all;
    StartsBeforePath(host, raw, LOCALHOST);
    assert all[|host|..] == raw && all[0] == host[0] && host[0] != SLASH;
  }

  // ---------------------------------------------------------------- what the encoded authority form is

  // What a part decodes to is quoted in full; a part that decodes to no text is only repaired.
  lemma EncodedPart(part: Bytes)
    requires Utf8(part)
    ensures Decodable(part) ==>
      Quoted(EncodePart(part), false) && Unquote(Repaired(EncodePart(part))) == Unquote(Repaired(part))
    ensures !Decodable(part) ==> EncodePart(part) == Repaired(part)
  {
    if Decodable(part) && part != [] {
      var text := Unquote(Repaired(part)).value;
      RepairedIsText(part);
      UnquotedIsText(Repaired(part), []);
      QuoteIsQuoted(text, false);
      QuotedNeedsNoRepair(text, false);
      UnquoteQuote(text, false);
    }
  }

  lemma {:induction false} QuotedAtSlash(a: Bytes, b: Bytes)
    requires Quoted(a, false) && Quoted(b, true)
    ensures Quoted(a + [SLASH] + b, true)
    decreases |a|
  {
    var whole := a + [SLASH] + b;
    if a == [] {
      assert whole[1..] == b;
    } else if a[0] == PERCENT {
      QuotedAtSlash(a[3..], b);
      assert whole[3..] == a[3..] + [SLASH] + b;
    } else {
      QuotedAtSlash(a[1..], b);
      assert whole[1..] == a[1..] + [SLASH] + b;
    }
  }

  lemma {:induction false} QuotedLoosens(s: Bytes)
    requires Quoted(s, false)
    ensures Quoted(s, true)
    decreases |s|
  {
    if s != [] {
      QuotedLoosens(if s[0] == PERCENT then s[3..] else s[1..]);
    }
  }

  // The encoded path of a URI with an authority: the parts stay parts, and each is quoted.
  lemma {:induction false} EncodedPath(path: Bytes)
    requires Utf8(path) && Decodable(path)
    ensures Quoted(EncodePath(path), true)
    ensures Unquote(Repaired(EncodePath(path))) == Unquote(Repaired(path))
    decreases |path|
  {
    var part, rest := PathCases(path);
    EncodePathCons(part, rest);
    if path != part {
      Utf8AtMark(part, SLASH, rest);
      DecodableAtSlash(part, rest);
      EncodedPart(part);
      EncodedPath(rest);
      QuotedAtSlash(EncodePart(part), EncodePath(rest));
      DecodedAtSlash(part, rest);
      DecodedAtSlash(EncodePart(part), EncodePath(rest));
    } else {
      EncodedPart(part);
      QuotedLoosens(EncodePart(part));
    }
  }

  lemma {:induction false} RunOverSlash(b: Bytes, run: Bytes, more: Bytes)
    requires UnquoteRun(b, run + [SLASH] + more).Some? && UnquoteRun(b, more).Some?
    ensures UnquoteRun(b, run + [SLASH] + more).value == run + [SLASH] + UnquoteRun(b, more).value
    decreases |b|
  {
    if b != [] && b[0] < 0x80 {
      var byte := if Escape(b) then 16 * HexValue(b[1]) + HexValue(b[2]) else b[0];
      assert (run + [SLASH] + more) + [byte] == run + [SLASH] + (more + [byte]);
      RunOverSlash(if Escape(b) then b[3..] else b[1..], run, more + [byte]);
    } else if b != [] {
      var rest := UnquoteRun(b[1..], []).value;
      assert (run + [SLASH] + more) + [b[0]] + rest == run + [SLASH] + (more + [b[0]] + rest);
    }
  }

  lemma {:induction false} UnquotedAtSlash(a: Bytes, b: Bytes, run: Bytes)
    requires UnquoteRun(a, run).Some? && UnquoteRun(b, []).Some? && UnquoteRun(a + [SLASH] + b, run).Some?
    ensures UnquoteRun(a + [SLASH] + b, run).value == UnquoteRun(a, run).value + [SLASH] + UnquoteRun(b, []).value
    decreases |a|
  {
    var whole := a + [SLASH] + b;
    if a == [] {
      assert whole[1..] == b;
      assert run + [SLASH] + [] == run + [SLASH];
      RunOverSlash(b, run, []);
    } else {
      EscapeStops(a, b);
      if a[0] >= 0x80 {
        assert whole[1..] == a[1..] + [SLASH] + b;
        UnquotedAtSlash(a[1..], b, []);
        var first, last := UnquoteRun(a[1..], []).value, UnquoteRun(b, []).value;
        assert run + [a[0]] + (first + [SLASH] + last) == (run + [a[0]] + first) + [SLASH] + last;
      } else if Escape(a) {
        assert whole[3..] == a[3..] + [SLASH] + b;
        UnquotedAtSlash(a[3..], b, run + [16 * HexValue(a[1]) + HexValue(a[2])]);
      } else {
        assert whole[1..] == a[1..] + [SLASH] + b;
        UnquotedAtSlash(a[1..], b, run + [a[0]]);
      }
    }
  }

  lemma DecodedAtSlash(a: Bytes, b: Bytes)
    requires Decodable(a) && Decodable(b)
    ensures Unquote(Repaired(a + [SLASH] + b))
         == Some(Unquote(Repaired(a)).value + [SLASH] + Unquote(Repaired(b)).value)
  {
    DecodableAtSlash(a, b);
    RepairAtSlash(a, b);
    UnquotedAtSlash(Repaired(a), Repaired(b), []);
  }

  // Only the path changes.
  lemma EncodedAuthorityForm(uri: Bytes, n: nat)
    requires Utf8(uri) && Cut(uri, n).Some? && Cut(uri, n).value.path != []
    ensures Cut(EncodeAuthority(uri, n), n) == Some(Cut(uri, n).value.(path := EncodePath(Cut(uri, n).value.path)))
    ensures Decodable(Cut(uri, n).value.path) ==> Quoted(Cut(EncodeAuthority(uri, n), n).value.path, true)
  {
    var p := Cut(uri, n).value;
    var tail := CutFits(uri, n);
    EncodePathAvoids(p.path);
    CutGlued(p.(path := EncodePath(p.path)), n);
    PathIsText(uri, n);
    if Decodable(p.path) {
      EncodedPath(p.path);
    }
  }
}
