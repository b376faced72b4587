// Where responses go astray: the cases the exact conditions of StreamingRun exclude.
module StreamingExamples {
  import opened Prelude
  import opened ResultBuffer
  import opened ExtensionApi
  import opened Launcher

  // An extension that heard one query and answered it with one row.
  lemma OneAnswer<T>(row: T) returns (p: Process<T>)
    ensures p ==
      Looped(Answered(DebounceOver(Heard(Newborn<T>(), 1, true, true), true), 0, Render(Batch([row], false, true))))
    ensures p.sent == [Packet(1, Render(Batch([Stamped(0, row)], false, true)))]
  {
    var p2 := DebounceOver(Heard(Newborn<T>(), 1, true, true), true);
    assert p2.threads == [Thread(1, Some(1), 0)];
    p := Looped(Answered(p2, 0, Render(Batch([row], false, true))));
    assert Stamp([row], 0) == [Stamped(0, row)];
  }

  // From any state: a query that waits for a stopped extension is ended by a late answer to the
  // request before it, whose rows are then shown as the answer.
  lemma LateAnswerEndsTheWait<T>(a: App<T>, ext: ExtId, packet: Packet<T>)
    requires packet.req == a.requestId && packet.effect.Render? && packet.effect.batch.final
    ensures
      var waiting := Queried(a, Stopped(ext), []);
      var b := Received(waiting, ext, packet, None, []);
      && waiting.route.Waiting? && waiting.arrived == []
      && b.screen.shown == packet.effect.batch.results
      && b.pending.None?
  {
    var waiting := Queried(a, Stopped(ext), []);
    assert waiting.screen == Cleared(a.screen);
    assert Enqueued(waiting.screen, packet.effect.batch).shown == packet.effect.batch.results;
    assert Received(waiting, ext, packet, None, []) == Called(waiting, waiting.pending.value, packet.effect).(pending := None);
  }

  // Concretely: the extension's answer to the first query is written, the process is stopped, the
  // second query waits for it, and only then the answer is read.
  lemma LateAnswerEndsTheWaitRun<T>(row: T) returns (p: Process<T>)
    ensures p.sent == [Packet(1, Render(Batch([Stamped(0, row)], false, true)))]
    ensures
      var first := Queried(Blank<T>(), Target.Running(7), []);
      && first.outbox == [Ask(7, 1, true)]
      && Received(Queried(first, Stopped(7), []), 7, p.sent[0], None, []).screen.shown == [Stamped(0, row)]
  {
    p := OneAnswer(row);
  }

  // From any state in which a stream is running: a query for a keyword without an extension shows
  // its one row, and the next appended batch of the old stream is painted behind it.
  lemma OldStreamExtendsMissedQuery<T>(a: App<T>, ext: ExtId, packet: Packet<T>, notice: Stamped<T>)
    requires Accepts(a, ext, packet)
    requires packet.effect.Render? && packet.effect.batch.append && !packet.effect.batch.final
    ensures
      var missed := Queried(a, NoExtension, [notice]);
      && missed.screen.shown == [notice]
      && Throttled(Received(missed, ext, packet, None, [])).screen.shown == [notice] + packet.effect.batch.results
  {
  }

  // From any state: when the response to an activation sets a query that is sent to a running
  // extension, the new request is sent but its callback is dropped.
  lemma NestedQueryLosesItsCallback<T>(a: App<T>, ext: ExtId, other: ExtId, rows: seq<Stamped<T>>)
    requires Accepts(a, ext, Packet(a.requestId, Act)) && Heeded(a, a.pending.value)
    ensures
      var b := Received(a, ext, Packet(a.requestId, Act), Some(Target.Running(other)), rows);
      && b.route == Asked(other, a.requestId + 1, false)
      && b.outbox == a.outbox + [Ask(other, a.requestId + 1, true)]
      && b.pending.None?
  {
  }

  // From any state in which an activation is sent while a query still waits for a stopped
  // extension: the end of that wait shows an empty list in place of the activation's answer.
  lemma WaitEndsActivation<T>(a: App<T>, stopped: ExtId, ext: ExtId, answer: Packet<T>)
    ensures
      var b := Activated(Queried(a, Stopped(stopped), []), Launch(ext, true));
      var c := LoadingOver(b, []);
      && b.route == Asked(ext, a.requestId + 1, true)
      && c.screen.shown == [] && c.pending.None?
      && Received(c, ext, answer, None, []) == c
  {
    var waiting := Queried(a, Stopped(stopped), []);
    var b := Activated(waiting, Launch(ext, true));
    var cb := Callback(a.epoch + 2, true);
    assert waiting.loading && waiting.inExtensions;
    assert b.pending == Some(cb) && b.inExtensions && b.screen == Cleared(waiting.screen);
    var empty: Batch<Stamped<T>> := Batch([], false, true);
    assert Enqueued(b.screen, empty).shown == [];
    var c := LoadingOver(b, []);
    assert c.screen == Enqueued(b.screen, empty) && c.pending.None?;
  }
}
