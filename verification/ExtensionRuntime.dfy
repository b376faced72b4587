// One extension process as the launcher sees it: what it prints is passed on line by line, and
// its exit is reported once.
module ExtensionRuntime {
  import opened Framing

  datatype Stream = Stdout | Stderr

  datatype Report = WasStopped | WasError

  // What a stream that ended has passed on: the unterminated last line counts too.
  function Finished(r: Reader): seq<seq<Byte>> {
    if r.line == [] then r.messages else r.messages + [r.line]
  }

  // However the text of some lines, the last perhaps unterminated, is cut into chunks: each line
  // is passed on once, in order.
  lemma EveryLineIsPassedOn(lines: seq<seq<Byte>>, last: seq<Byte>, chunks: seq<seq<Byte>>)
    requires AllEncoded(lines) && NEWLINE !in last
    requires Joined(chunks) == Wire(lines) + last
    ensures Finished(FedChunks(Reader([], []), chunks)) == if last == [] then lines else lines + [last]
  {
    DeliveredAsSent(lines, last, chunks);
  }

  datatype Event =
    | StopAsked
    | KillDue
    | Polled
    | Hangup                            // the socket closed or broke
    | Output(stream: Stream, read: Read)
    | Died

  class Runtime {
    var alive: bool
    var aborted: bool
    var killed: bool
    var connected: bool
    var polling: bool
    var exitHandled: bool
    var watched: set<Stream>
    var streamsOpen: int
    var buffers: map<Stream, seq<Byte>>
    ghost var reports: seq<Report>
    ghost var passed: map<Stream, seq<seq<Byte>>>
    ghost var received: map<Stream, seq<Byte>>
    ghost var broken: set<Stream>

    // A stream still read has passed on its complete lines; one read to its end, all of them.
    ghost predicate StreamOk(s: Stream)
      reads this
    {
      s in buffers && s in passed && s in received &&
      var r := FedAll(Reader([], []), received[s]);
      if s in watched || s in broken then r == Reader(buffers[s], passed[s])
      else buffers[s] == [] && passed[s] == Finished(r)
    }

    // An exit check is under way, or done, exactly if the connection is gone or both streams are.
    ghost predicate Valid()
      reads this
    {
      && StreamOk(Stdout) && StreamOk(Stderr)
      && streamsOpen == |watched| && broken !! watched
      && ((exitHandled || polling) <==> (!connected || watched == {}))
      && (exitHandled ==> !polling && !alive && !connected)
      && reports == (if !exitHandled then [] else if aborted then [WasStopped] else [WasError])
      && (aborted ==> !connected)
    }

    // Nothing but the exit bookkeeping differs.
    twostate predicate OnlyExit()
      reads this
    {
      && watched == old(watched) && streamsOpen == old(streamsOpen) && buffers == old(buffers)
      && passed == old(passed) && received == old(received) && broken == old(broken)
      && aborted == old(aborted) && killed == old(killed)
      && (alive ==> old(alive)) && (old(exitHandled) ==> exitHandled) && (connected ==> old(connected))
    }

    constructor ()
      ensures Valid() && alive && connected && watched == {Stdout, Stderr} && reports == []
      ensures passed == map[Stdout := [], Stderr := []] && received == map[Stdout := [], Stderr := []]
    {
      alive, aborted, killed, connected, polling, exitHandled := true, false, false, true, false, false;
      watched, streamsOpen := {Stdout, Stderr}, 2;
      buffers := map[Stdout := [], Stderr := []];
      reports, broken := [], {};
      passed, received := map[Stdout := [], Stderr := []], map[Stdout := [], Stderr := []];
    }

    // Asks the operating system whether the process is gone. It may have died just now.
    method Poll() returns (gone: bool)
      modifies `alive
      ensures gone == !alive && (alive ==> old(alive))
    {
      if * {
        alive := false;
      }
      gone := !alive;
    }

    // A process found dead is left to be reported as an error; otherwise its exit counts as a stop,
    // and it is killed later if it does not end by itself.
    method Stop()
      requires Valid()
      modifies this
      ensures Valid() && killed == old(killed)
      ensures old(exitHandled) ==> reports == old(reports)
      ensures aborted != old(aborted) ==> aborted && !connected && (exitHandled || polling)
      ensures alive ==> aborted
      ensures old(!alive) ==> unchanged(this)
    {
      var gone := Poll();
      if gone {
        return;
      }
      aborted := true;
      CloseController();
    }

    // The forced kill, half a second after a stop.
    method Kill()
      requires Valid()
      modifies `alive, `killed
      ensures Valid() && (alive ==> killed)
    {
      var gone := Poll();
      if !gone {
        killed := true;
      }
    }

    method CloseController()
      requires StreamOk(Stdout) && StreamOk(Stderr) && streamsOpen == |watched| && broken !! watched
      requires (exitHandled || polling) ==> !connected || watched == {} || exitHandled
      requires !connected || watched == {} ==> exitHandled || polling
      requires exitHandled ==> !polling && !alive && reports == []
      requires !exitHandled ==> reports == []
      modifies `connected, `polling, `exitHandled, `reports, `alive
      ensures !connected && OnlyExit()
      ensures old(exitHandled) ==> exitHandled && !polling && !alive && reports == []
      ensures !old(exitHandled) ==> Valid()
      decreases if exitHandled then 0 else 1, 2
    {
      if connected {
        connected := false;
        ScheduleExitCheck();
      }
    }

    // Waits for the process to be gone, and looks at once.
    method ScheduleExitCheck()
      requires StreamOk(Stdout) && StreamOk(Stderr) && streamsOpen == |watched| && broken !! watched
      requires exitHandled ==> !polling && !alive
      requires !exitHandled ==> reports == [] && (!connected || watched == {}) && (aborted ==> !connected)
      modifies `connected, `polling, `exitHandled, `reports, `alive
      ensures OnlyExit()
      ensures old(exitHandled) ==> reports == old(reports) && !polling && connected == old(connected)
      ensures !old(exitHandled) ==> Valid()
      decreases if exitHandled then 0 else 1, 1
    {
      if exitHandled || polling {
        return;
      }
      polling := true;
      PollExit();
    }

    // One look. The report is made before anything else can look again.
    method PollExit()
      requires StreamOk(Stdout) && StreamOk(Stderr) && streamsOpen == |watched| && broken !! watched
      requires !exitHandled ==> reports == [] && polling && (!connected || watched == {}) && (aborted ==> !connected)
      modifies `connected, `polling, `exitHandled, `reports, `alive
      ensures OnlyExit()
      ensures old(exitHandled) ==> reports == old(reports) && polling == old(polling) && connected == old(connected)
      ensures !old(exitHandled) ==> Valid() && (alive || |reports| == 1)
      decreases if exitHandled then 0 else 1, 0
    {
      if exitHandled {
        return;
      }
      var gone := Poll();
      if !gone {
        return;
      }
      polling := false;
      exitHandled := true;
      HandleExit();
    }

    method HandleExit()
      requires StreamOk(Stdout) && StreamOk(Stderr) && streamsOpen == |watched| && broken !! watched
      requires exitHandled && !polling && !alive && reports == []
      modifies `connected, `polling, `exitHandled, `reports, `alive
      ensures OnlyExit() && Valid() && |reports| == 1
      decreases 0, 3
    {
      CloseController();
      reports := reports + [if aborted then WasStopped else WasError];
    }

    method Hang()
      requires Valid()
      modifies this
      ensures Valid() && !connected && OnlyExit()
    {
      if connected {
        connected := false;
        ScheduleExitCheck();
      }
    }

    // Passes on the complete lines of what a stream has; at its end also the unterminated last one.
    method ReadOutput(s: Stream, read: Read)
      requires Valid() && s in watched
      modifies this
      ensures Valid()
      ensures read.WouldBlock? ==> watched == old(watched) && passed == old(passed) && received == old(received)
      ensures read.Chunk? && read.bytes != [] ==>
                watched == old(watched) && received == old(received)[s := old(received)[s] + read.bytes]
      ensures read.Closed? || read.Failed? || (read.Chunk? && read.bytes == []) ==>
                watched == old(watched) - {s} && received == old(received)
      ensures s in broken <==> read.Failed?
      ensures old(exitHandled) ==> reports == old(reports)
    {
      if read.WouldBlock? {
        return;
      }
      if read.Failed? {
        broken := broken + {s};
        EndStream(s);
        return;
      }
      if read.Closed? || read.bytes == [] {
        var remainder := buffers[s];
        buffers := buffers[s := []];
        if remainder != [] {
          passed := passed[s := passed[s] + [remainder]];
        }
        EndStream(s);
        return;
      }
      TakeLines(s, read.bytes);
    }

    // Adds a chunk to the line begun, and passes on the lines it completes.
    method TakeLines(s: Stream, bytes: seq<Byte>)
      requires Valid() && s in watched
      modifies `buffers, `passed, `received
      ensures Valid() && received == old(received)[s := old(received)[s] + bytes]
    {
      var lines, rest := SplitLines(buffers[s] + bytes);
      MoreLines(received[s], bytes, lines, rest);
      received := received[s := received[s] + bytes];
      buffers := buffers[s := rest];
      passed := passed[s := passed[s] + lines];
    }

    // Cuts off line after line. Empty lines are dropped.
    static method SplitLines(bytes: seq<Byte>) returns (lines: seq<seq<Byte>>, rest: seq<Byte>)
      ensures FedAll(Reader([], []), bytes) == Reader(rest, lines)
    {
      lines, rest := [], bytes;
      while NEWLINE in rest
        invariant FedAll(Reader([], lines), rest) == FedAll(Reader([], []), bytes)
        decreases |rest|
      {
        var n := Find(rest);
        var line := rest[..n];
        assert rest == line + [NEWLINE] + rest[n + 1..];
        FedLine(lines, line, rest[n + 1..]);
        rest := rest[n + 1..];
        if line != [] {
          lines := lines + [line];
        }
      }
      FedWithoutNewline(Reader([], lines), rest);
      assert [] + rest == rest;
    }

    // A stream is read no more; after the last one the exit is looked for.
    method EndStream(s: Stream)
      requires StreamOkBut(Stdout, s) && StreamOkBut(Stderr, s) && s in watched
      requires streamsOpen == |watched| && broken !! watched - {s}
      requires (exitHandled || polling) <==> (!connected || watched == {})
      requires exitHandled ==> !polling && !alive && !connected
      requires reports == (if !exitHandled then [] else if aborted then [WasStopped] else [WasError])
      requires aborted ==> !connected
      modifies `watched, `streamsOpen, `connected, `polling, `exitHandled, `reports, `alive
      ensures Valid() && watched == old(watched) - {s}
      ensures old(exitHandled) ==> reports == old(reports)
    {
      watched := watched - {s};
      streamsOpen := if streamsOpen > 0 then streamsOpen - 1 else 0;
      if streamsOpen == 0 {
        assert watched == {};
        ScheduleExitCheck();
      } else {
        assert |watched| == streamsOpen;
      }
    }

    ghost predicate StreamOkBut(k: Stream, s: Stream)
      reads this
    {
      k in buffers && k in passed && k in received &&
      var r := FedAll(Reader([], []), received[k]);
      if (k in watched && k != s) || k in broken then r == Reader(buffers[k], passed[k])
      else buffers[k] == [] && passed[k] == Finished(r)
    }

    // The poll, every tenth of a second while an exit check is under way.
    method Tick()
      requires Valid() && polling
      modifies this
      ensures Valid() && OnlyExit() && (alive || |reports| == 1)
    {
      PollExit();
    }

    method Perform(e: Event)
      requires Valid()
      modifies this
      ensures Valid() && old(reports) <= reports
    {
      match e
      case StopAsked => Stop();
      case KillDue => Kill();
      case Polled =>
        if polling {
          Tick();
        }
      case Hangup => Hang();
      case Output(s, read) =>
        if s in watched {
          ReadOutput(s, read);
        }
      case Died => alive := false;
    }
  }

  lemma {:induction false} LineHasNoNewline(bytes: seq<Byte>)
    ensures NEWLINE !in FedAll(Reader([], []), bytes).line
  {
    if bytes != [] {
      LineHasNoNewline(bytes[..|bytes| - 1]);
    }
  }

  // Lines already complete come before those of what follows.
  lemma {:induction false} FedAfter(before: seq<seq<Byte>>, line: seq<Byte>, messages: seq<seq<Byte>>, bytes: seq<Byte>)
    ensures var r := FedAll(Reader(line, messages), bytes);
            FedAll(Reader(line, before + messages), bytes) == r.(messages := before + r.messages)
  {
    if bytes != [] {
      FedAfter(before, line, messages, bytes[..|bytes| - 1]);
      var r := FedAll(Reader(line, messages), bytes[..|bytes| - 1]);
      assert before + (r.messages + [r.line]) == (before + r.messages) + [r.line];
    }
  }

  // A chunk after a stream: the line begun is completed by it.
  lemma MoreLines(received: seq<Byte>, bytes: seq<Byte>, lines: seq<seq<Byte>>, rest: seq<Byte>)
    requires FedAll(Reader([], []), FedAll(Reader([], []), received).line + bytes) == Reader(rest, lines)
    ensures FedAll(Reader([], []), received + bytes)
         == Reader(rest, FedAll(Reader([], []), received).messages + lines)
  {
    var r := FedAll(Reader([], []), received);
    FedInPieces(Reader([], []), received, bytes);
    LineHasNoNewline(received);
    FedInPieces(Reader([], []), r.line, bytes);
    FedWithoutNewline(Reader([], []), r.line);
    assert [] + r.line == r.line && r.messages + [] == r.messages;
    FedAfter(r.messages, r.line, [], bytes);
  }

  // In every run the exit is reported at most once, only for a process that is gone, and as a stop
  // exactly if a stop found the process alive. If the process is gone and the connection or both
  // streams are too, one more look reports it.
  method Run(script: seq<Event>) returns (r: Runtime)
    ensures fresh(r) && r.Valid() && |r.reports| <= 1
    ensures r.reports != [] ==> !r.alive && r.reports[0].WasStopped? == r.aborted
    ensures !r.alive && (!r.connected || r.watched == {}) ==> |r.reports| == 1
  {
    r := new Runtime();
    var i := 0;
    while i < |script|
      invariant fresh(r) && r.Valid()
    {
      r.Perform(script[i]);
      i := i + 1;
    }
    if r.polling {
      r.Tick();
    }
  }
}
