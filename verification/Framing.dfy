// Newline-delimited messages over a byte stream that is written and read in arbitrary pieces.
module Framing {

  type Byte = x: int | 0 <= x < 256

  const NEWLINE: Byte := 10

  // An encoded message: JSON text has no raw newline in it (section 7 of RFC 8259 has control
  // characters in strings escaped) and is never empty.
  predicate Encoded(m: seq<Byte>) {
    m != [] && NEWLINE !in m
  }

  predicate AllEncoded(ms: seq<seq<Byte>>) {
    forall i :: 0 <= i < |ms| ==> Encoded(ms[i])
  }

  // What a list of messages looks like on the wire.
  function Wire(ms: seq<seq<Byte>>): seq<Byte> {
    if ms == [] then [] else ms[0] + [NEWLINE] + Wire(ms[1..])
  }

  // Reading byte by byte: the line begun, and the lines completed so far. Empty lines are skipped.
  datatype Reader = Reader(line: seq<Byte>, messages: seq<seq<Byte>>)

  function Fed(r: Reader, b: Byte): Reader {
    if b != NEWLINE then r.(line := r.line + [b])
    else if r.line == [] then r
    else Reader([], r.messages + [r.line])
  }

  function FedAll(r: Reader, bytes: seq<Byte>): Reader {
    if bytes == [] then r else Fed(FedAll(r, bytes[..|bytes| - 1]), bytes[|bytes| - 1])
  }

  lemma {:induction false} FedInPieces(r: Reader, a: seq<Byte>, b: seq<Byte>)
    ensures FedAll(r, a + b) == FedAll(FedAll(r, a), b)
  {
    if b == [] {
      assert a + b == a;
    } else {
      FedInPieces(r, a, b[..|b| - 1]);
      assert (a + b)[..|a + b| - 1] == a + b[..|b| - 1];
    }
  }

  lemma {:induction false} FedWithoutNewline(r: Reader, bytes: seq<Byte>)
    requires NEWLINE !in bytes
    ensures FedAll(r, bytes) == r.(line := r.line + bytes)
  {
    if bytes == [] {
      assert r.line + bytes == r.line;
    } else {
      FedWithoutNewline(r, bytes[..|bytes| - 1]);
      assert bytes == bytes[..|bytes| - 1] + [bytes[|bytes| - 1]];
      assert r.line + bytes == (r.line + bytes[..|bytes| - 1]) + [bytes[|bytes| - 1]];
    }
  }

  lemma FedOne(r: Reader, b: Byte)
    ensures FedAll(r, [b]) == Fed(r, b)
  {
    assert [b][..0] == [];
  }

  // A line, its newline, and the rest.
  lemma FedLine(messages: seq<seq<Byte>>, line: seq<Byte>, rest: seq<Byte>)
    requires NEWLINE !in line
    ensures
      FedAll(Reader([], messages), line + [NEWLINE] + rest)
      == FedAll(Reader([], if line == [] then messages else messages + [line]), rest)
  {
    var r := Reader([], messages);
    FedInPieces(r, line + [NEWLINE], rest);
    FedInPieces(r, line, [NEWLINE]);
    FedWithoutNewline(r, line);
    assert [] + line == line;
    FedOne(Reader(line, messages), NEWLINE);
  }

  // The wire carries exactly the messages, whatever was read before.
  lemma {:induction false} WireReads(before: seq<seq<Byte>>, ms: seq<seq<Byte>>, rest: seq<Byte>)
    requires AllEncoded(ms)
    ensures FedAll(Reader([], before), Wire(ms) + rest) == FedAll(Reader([], before + ms), rest)
    decreases |ms|
  {
    if ms == [] {
      assert Wire(ms) + rest == rest && before + ms == before;
    } else {
      assert Encoded(ms[0]);
      assert Wire(ms) + rest == ms[0] + [NEWLINE] + (Wire(ms[1..]) + rest);
      FedLine(before, ms[0], Wire(ms[1..]) + rest);
      WireReads(before + [ms[0]], ms[1..], rest);
      assert before + ms == (before + [ms[0]]) + ms[1..];
    }
  }

  // Messages written one after the other make up the wire of all of them.
  lemma {:induction false} WireSnoc(ms: seq<seq<Byte>>, m: seq<Byte>)
    ensures Wire(ms + [m]) == Wire(ms) + Wire([m])
  {
    if ms == [] {
      assert [] + [m] == [m];
    } else {
      WireSnoc(ms[1..], m);
      assert (ms + [m])[1..] == ms[1..] + [m];
    }
  }

  // A stream cut into chunks, some of them possibly empty.
  function Joined(chunks: seq<seq<Byte>>): seq<Byte> {
    if chunks == [] then [] else Joined(chunks[..|chunks| - 1]) + chunks[|chunks| - 1]
  }

  function FedChunks(r: Reader, chunks: seq<seq<Byte>>): Reader {
    if chunks == [] then r else FedAll(FedChunks(r, chunks[..|chunks| - 1]), chunks[|chunks| - 1])
  }

  lemma {:induction false} ChunkingIsIrrelevant(r: Reader, chunks: seq<seq<Byte>>)
    ensures FedChunks(r, chunks) == FedAll(r, Joined(chunks))
  {
    if chunks != [] {
      ChunkingIsIrrelevant(r, chunks[..|chunks| - 1]);
      FedInPieces(r, Joined(chunks[..|chunks| - 1]), chunks[|chunks| - 1]);
    }
  }

  // However the bytes of the messages, and of a message still being written, arrive: exactly the
  // messages are delivered, in order, and the buffer holds exactly the bytes after the last newline.
  lemma DeliveredAsSent(ms: seq<seq<Byte>>, unfinished: seq<Byte>, chunks: seq<seq<Byte>>)
    requires AllEncoded(ms) && NEWLINE !in unfinished
    requires Joined(chunks) == Wire(ms) + unfinished
    ensures FedChunks(Reader([], []), chunks) == Reader(unfinished, ms)
  {
    ChunkingIsIrrelevant(Reader([], []), chunks);
    WireReadsFirst(ms, unfinished);
    FedFirst(ms, unfinished);
  }

  lemma WireReadsFirst(ms: seq<seq<Byte>>, rest: seq<Byte>)
    requires AllEncoded(ms)
    ensures FedAll(Reader([], []), Wire(ms) + rest) == FedAll(Reader([], ms), rest)
  {
    WireReads([], ms, rest);
    assert [] + ms == ms;
  }

  lemma FedFirst(messages: seq<seq<Byte>>, bytes: seq<Byte>)
    requires NEWLINE !in bytes
    ensures FedAll(Reader([], messages), bytes) == Reader(bytes, messages)
  {
    FedWithoutNewline(Reader([], messages), bytes);
    assert [] + bytes == bytes;
  }

  lemma WireOne(m: seq<Byte>)
    ensures Wire([m]) == m + [NEWLINE]
  {
    assert m + [NEWLINE] + [] == m + [NEWLINE];
  }

  // Writing on where the last write stopped.
  lemma WrittenMore(socket: seq<Byte>, frame: seq<Byte>, at: nat, count: nat)
    requires at + count <= |frame|
    ensures socket + frame[..at] + frame[at..][..count] == socket + frame[..at + count]
    ensures frame[at..][count..] == frame[at + count..]
  {
    assert frame[..at] + frame[at..][..count] == frame[..at + count];
    assert socket + frame[..at] + frame[at..][..count] == socket + (frame[..at] + frame[at..][..count]);
  }

  // Where the first newline is.
  function Find(bytes: seq<Byte>): (n: nat)
    requires NEWLINE in bytes
    ensures n < |bytes| && bytes[n] == NEWLINE
    ensures forall i :: 0 <= i < n ==> bytes[i] != NEWLINE
  {
    if bytes[0] == NEWLINE then 0 else Find(bytes[1..]) + 1
  }

  // ---------------------------------------------------------------- the controller

  // What one call of the operating system's write accepts of the bytes offered to it: at least one
  // and at most all, or an error.
  datatype Written = Accepted(count: nat) | Broken

  // What one call of read gives.
  datatype Read = Chunk(bytes: seq<Byte>) | WouldBlock | Closed | Failed

  class SocketMsgController {
    var readBuffer: seq<Byte>
    var onClose: bool
    ghost var closes: nat
    var socket: seq<Byte>

    constructor ()
      ensures readBuffer == [] && onClose && closes == 0 && socket == []
    {
      readBuffer, onClose, closes, socket := [], true, 0, [];
    }

    // The close callback is called at most once.
    method TriggerClose()
      modifies `onClose, `closes
      ensures !onClose && closes == old(closes) + if old(onClose) then 1 else 0
    {
      var callback := onClose;
      onClose := false;
      if callback {
        closes := closes + 1;
      }
    }

    // Writes a message piece by piece. Either all of it is written, or the connection broke after
    // some prefix of it.
    method Send(message: seq<Byte>, writes: seq<Written>) returns (used: nat)
      requires forall i :: 0 <= i < |writes| && writes[i].Accepted? ==> writes[i].count > 0
      requires |writes| > |message|
      modifies `socket, `onClose, `closes
      ensures used <= |writes|
      ensures (exists i :: 0 <= i < used && writes[i].Broken?) ==>
        !onClose && exists n :: 0 <= n <= |message| && socket == old(socket) + (message + [NEWLINE])[..n]
      ensures (forall i :: 0 <= i < used ==> writes[i].Accepted?) ==>
        socket == old(socket) + Wire([message]) && onClose == old(onClose) && closes == old(closes)
    {
      ghost var frame := message + [NEWLINE];
      ghost var at := 0;
      var payload := message + [NEWLINE];
      used := 0;
      while payload != []
        invariant at <= |frame| && used <= at && payload == frame[at..]
        invariant socket == old(socket) + frame[..at]
        invariant forall i :: 0 <= i < used ==> writes[i].Accepted?
        invariant onClose == old(onClose) && closes == old(closes)
        decreases |payload|
      {
        var w := writes[used];
        used := used + 1;
        if w.Broken? {
          TriggerClose();
          assert at <= |message| && socket == old(socket) + (message + [NEWLINE])[..at];
          return;
        }
        var count := if w.count > |payload| then |payload| else w.count;
        WrittenMore(old(socket), frame, at, count);
        socket := socket + payload[..count];
        payload := payload[count..];
        at := at + count;
      }
      assert frame[..at] == frame;
      WireOne(message);
    }

    // Reads what is there and hands over the complete lines; the rest stays in the buffer.
    method ReadAvailable(read: Read) returns (messages: seq<seq<Byte>>)
      requires NEWLINE !in readBuffer
      modifies `readBuffer, `onClose, `closes
      ensures NEWLINE !in readBuffer
      ensures read.Chunk? && read.bytes != [] ==>
        && FedAll(Reader(old(readBuffer), []), read.bytes) == Reader(readBuffer, messages)
        && onClose == old(onClose) && closes == old(closes)
      ensures !(read.Chunk? && read.bytes != []) ==> messages == [] && readBuffer == old(readBuffer)
      ensures read.WouldBlock? ==> onClose == old(onClose) && closes == old(closes)
      ensures read.Closed? || read.Failed? || (read.Chunk? && read.bytes == []) ==>
        !onClose && closes == old(closes) + if old(onClose) then 1 else 0
    {
      messages := [];
      if read.WouldBlock? {
        return;
      }
      if read.Failed? || read.Closed? || read.bytes == [] {
        TriggerClose();
        return;
      }
      readBuffer := readBuffer + read.bytes;
      ghost var all := readBuffer;
      while NEWLINE in readBuffer
        modifies `readBuffer
        invariant FedAll(Reader([], messages), readBuffer) == FedAll(Reader([], []), all)
        decreases |readBuffer|
      {
        var n := Find(readBuffer);
        var line := readBuffer[..n];
        assert readBuffer == line + [NEWLINE] + readBuffer[n + 1..];
        FedLine(messages, line, readBuffer[n + 1..]);
        readBuffer := readBuffer[n + 1..];
        if line == [] {
          continue;
        }
        messages := messages + [line];
      }
      FedWithoutNewline(Reader([], messages), readBuffer);
      assert [] + readBuffer == readBuffer;
      FedInPieces(Reader([], []), old(readBuffer), read.bytes);
      FedWithoutNewline(Reader([], []), old(readBuffer));
      assert [] + old(readBuffer) == old(readBuffer);
    }
  }
}
