// The extension's side of a conversation: debounced input events, handler threads that stream
// results, the main loop that sends responses, and the cache that maps result ids to instances.
module ExtensionApi {
  import opened Prelude
  import opened ResultBuffer

  type RequestId = nat

  // ---------------------------------------------------------------- what a generator means

  // A generator yields single rows, which extend the list, and lists, which replace it.
  datatype Item<T> = Single(row: T) | Listing(rows: seq<T>)

  // The list a generator's author expects on screen.
  function Replay<T>(items: seq<Item<T>>): seq<T> {
    if items == [] then []
    else match items[|items| - 1]
      case Single(row) => Replay(items[..|items| - 1]) + [row]
      case Listing(rows) => rows
  }

  function ItemBatch<T>(item: Item<T>): Batch<T> {
    match item
    case Single(row) => Batch([row], true, false)
    case Listing(rows) => Batch(rows, false, false)
  }

  function Batches<T>(items: seq<Item<T>>): (bs: seq<Batch<T>>)
    ensures |bs| == |items|
    ensures forall i :: 0 <= i < |items| ==> bs[i] == ItemBatch(items[i])
  {
    seq(|items|, i requires 0 <= i < |items| => ItemBatch(items[i]))
  }

  function Closing<T>(items: seq<Item<T>>): Batch<T> {
    Batch([], items != [], true)
  }

  // The batches denote what the author expects, with and without the closing one.
  lemma {:induction false} BatchesReplay<T>(items: seq<Item<T>>)
    ensures Fold(Batches(items)) == Replay(items)
    ensures Fold(Batches(items) + [Closing(items)]) == Replay(items)
  {
    var bs := Batches(items);
    assert (bs + [Closing(items)])[..|bs|] == bs;
    if items != [] {
      var shorter := items[..|items| - 1];
      BatchesReplay(shorter);
      assert bs[..|bs| - 1] == Batches(shorter);
    }
  }

  // How many items a thread gets through before it sees that it is superseded.
  function Unseen(superseded: seq<bool>): (n: nat)
    ensures n <= |superseded|
    ensures forall i :: 0 <= i < n ==> !superseded[i]
    ensures n < |superseded| ==> superseded[n]
  {
    if superseded == [] || superseded[0] then 0 else 1 + Unseen(superseded[1..])
  }

  // The loop of a streaming thread. `superseded[i]` is what the thread sees when it compares its
  // input number with the current one, just after the generator has yielded item i. A superseded
  // thread sends no closing batch.
  method StreamResponse<T>(items: seq<Item<T>>, superseded: seq<bool>) returns (out: seq<Batch<T>>)
    requires |superseded| == |items|
    ensures Unseen(superseded) == |items| ==> out == Batches(items) + [Closing(items)]
    ensures Unseen(superseded) < |items| ==> out == Batches(items[..Unseen(superseded)])
  {
    out := [];
    var batches := 0;
    for i := 0 to |items|
      invariant batches == i && out == Batches(items[..i])
      invariant i <= Unseen(superseded)
    {
      if superseded[i] {
        return;
      }
      var append := items[i].Single?;
      var results := if append then [items[i].row] else items[i].rows;
      out := out + [Batch(results, append, false)];
      batches := batches + 1;
      assert items[..i + 1] == items[..i] + [items[i]];
    }
    assert items[..|items|] == items;
    out := out + [Batch([], batches > 0, true)];
  }

  // ---------------------------------------------------------------- effects and messages

  datatype Effect<T> = Render(batch: Batch<T>) | DoNothing | Act

  // Everything but an unfinished batch ends its request.
  predicate Terminal<T>(e: Effect<T>) {
    !(e.Render? && !e.batch.final)
  }

  datatype Stamped<T> = Stamped(id: nat, row: T)

  function Stamp<T>(rows: seq<T>, first: nat): (s: seq<Stamped<T>>)
    ensures |s| == |rows|
    ensures forall i :: 0 <= i < |rows| ==> s[i] == Stamped(first + i, rows[i])
  {
    seq(|rows|, i requires 0 <= i < |rows| => Stamped(first + i, rows[i]))
  }

  function Rows<T>(s: seq<Stamped<T>>): (rows: seq<T>)
    ensures |rows| == |s|
    ensures forall i :: 0 <= i < |s| ==> rows[i] == s[i].row
  {
    seq(|s|, i requires 0 <= i < |s| => s[i].row)
  }

  function BareBatch<T>(b: Batch<Stamped<T>>): Batch<T> {
    Batch(Rows(b.results), b.append, b.final)
  }

  function Bare<T>(e: Effect<Stamped<T>>): Effect<T> {
    match e
    case Render(b) => Render(BareBatch(b))
    case DoNothing => DoNothing
    case Act => Act
  }

  function BareAll<T>(es: seq<Effect<Stamped<T>>>): (bare: seq<Effect<T>>)
    ensures |bare| == |es|
    ensures forall i :: 0 <= i < |es| ==> bare[i] == Bare(es[i])
  {
    seq(|es|, i requires 0 <= i < |es| => Bare(es[i]))
  }

  // A handler thread, started for a request; input events carry their number.
  datatype Thread = Thread(req: RequestId, input: Option<nat>, batches: nat)

  // A response waiting for the main loop.
  datatype Reply<T> = Reply(req: RequestId, input: Option<nat>, effect: Effect<T>)

  // A response on the wire.
  datatype Packet<T> = Packet(req: RequestId, effect: Effect<Stamped<T>>)

  function SentFor<T>(sent: seq<Packet<T>>, r: RequestId): seq<Effect<Stamped<T>>> {
    if sent == [] then []
    else
      var last := sent[|sent| - 1];
      SentFor(sent[..|sent| - 1], r) + (if last.req == r then [last.effect] else [])
  }

  function WaitingFor<T>(idle: seq<Reply<T>>, r: RequestId): seq<Effect<T>> {
    if idle == [] then []
    else (if idle[0].req == r then [idle[0].effect] else []) + WaitingFor(idle[1..], r)
  }

  lemma {:induction false} WaitingForSnoc<T>(idle: seq<Reply<T>>, reply: Reply<T>, r: RequestId)
    ensures WaitingFor(idle + [reply], r) == WaitingFor(idle, r) + if reply.req == r then [reply.effect] else []
  {
    var longer := idle + [reply];
    if idle == [] {
      assert longer[1..] == [];
    } else {
      var first := if idle[0].req == r then [idle[0].effect] else [];
      var last := if reply.req == r then [reply.effect] else [];
      assert longer[0] == idle[0] && longer[1..] == idle[1..] + [reply];
      WaitingForSnoc(idle[1..], reply, r);
      assert first + (WaitingFor(idle[1..], r) + last) == (first + WaitingFor(idle[1..], r)) + last;
    }
  }

  lemma {:induction false} NothingWaiting<T>(idle: seq<Reply<T>>, r: RequestId)
    requires forall i :: 0 <= i < |idle| ==> idle[i].req != r
    ensures WaitingFor(idle, r) == []
  {
    if idle != [] {
      NothingWaiting(idle[1..], r);
    }
  }

  lemma {:induction false} NothingSent<T>(sent: seq<Packet<T>>, r: RequestId)
    requires forall i :: 0 <= i < |sent| ==> sent[i].req != r
    ensures SentFor(sent, r) == []
  {
    if sent != [] {
      NothingSent(sent[..|sent| - 1], r);
    }
  }

  // ---------------------------------------------------------------- the process

  datatype Ending<T> = Open | Closed | Replied(effect: Effect<T>)

  // What a request's handler has done so far.
  datatype Story<T> = Story(input: Option<nat>, items: seq<Item<T>>, ending: Ending<T>)

  function Renders<T>(bs: seq<Batch<T>>): (es: seq<Effect<T>>)
    ensures |es| == |bs|
    ensures forall i :: 0 <= i < |bs| ==> es[i] == Render(bs[i])
  {
    seq(|bs|, i requires 0 <= i < |bs| => Render(bs[i]))
  }

  // The responses a handler has produced so far.
  function Script<T>(s: Story<T>): seq<Effect<T>> {
    match s.ending
    case Open => Renders(Batches(s.items))
    case Closed => Renders(Batches(s.items)) + [Render(Closing(s.items))]
    case Replied(e) => [e]
  }

  datatype Note = Opened(input: nat) | Wrote(answers: Option<nat>)

  // One process. The fields after `cacheOf` are history: what was heard, which requests reached a
  // handler (and which did so in this process), what each handler did, everything written to the
  // socket, where in it the current cache starts, and the order of dispatches and writes.
  datatype Process<T> = Process(
    inputId: nat,
    debounced: Option<RequestId>,
    threads: seq<Thread>,
    idle: seq<Reply<T>>,
    cache: seq<T>,
    cacheOf: Option<RequestId>,
    heard: set<RequestId>,
    live: set<RequestId>,
    stories: map<RequestId, Story<T>>,
    sent: seq<Packet<T>>,
    cacheFrom: nat,
    journal: seq<Note>)

  predicate Stale<T>(p: Process<T>, input: Option<nat>) {
    input.Some? && input.value != p.inputId
  }

  // Sending a response: dropped when a newer input was dispatched, stamped and cached otherwise.
  function Send<T>(p: Process<T>, reply: Reply<T>): Process<T> {
    if Stale(p, reply.input) then p
    else
      var q := p.(journal := p.journal + [Wrote(reply.input)]);
      match reply.effect
      case Render(b) =>
        var same := p.cacheOf == Some(reply.req);
        var base := if same then p.cache else [];
        var wire := Batch(Stamp(b.results, |base|), b.append, b.final);
        q.(cache := base + b.results, cacheOf := Some(reply.req),
           cacheFrom := if same then p.cacheFrom else |p.sent|,
           sent := p.sent + [Packet(reply.req, Render(wire))])
      case DoNothing => q.(sent := p.sent + [Packet(reply.req, DoNothing)])
      case Act => q.(sent := p.sent + [Packet(reply.req, Act)])
  }

  function Dispatched<T>(p: Process<T>, req: RequestId, isInput: bool, listening: bool): Process<T> {
    var q := if isInput then p.(inputId := p.inputId + 1, journal := p.journal + [Opened(p.inputId + 1)]) else p;
    var input := if isInput then Some(q.inputId) else None;
    if listening then
      q.(threads := q.threads + [Thread(req, input, 0)],
         stories := q.stories[req := Story(input, [], Open)], live := q.live + {req})
    else
      Send(q.(stories := q.stories[req := Story(input, [], Replied(DoNothing))], live := q.live + {req}),
           Reply(req, input, DoNothing))
  }

  function Heard<T>(p: Process<T>, req: RequestId, isInput: bool, listening: bool): Process<T> {
    var q := p.(heard := p.heard + {req});
    if isInput then q.(debounced := Some(req)) else Dispatched(q, req, false, listening)
  }

  function DebounceOver<T>(p: Process<T>, listening: bool): Process<T> {
    if p.debounced.None? then p
    else Dispatched(p.(debounced := None), p.debounced.value, true, listening)
  }

  function Without(threads: seq<Thread>, k: nat): seq<Thread>
    requires k < |threads|
  {
    threads[..k] + threads[k + 1..]
  }

  predicate Running<T>(p: Process<T>, k: nat) {
    k < |p.threads| && p.threads[k].req in p.stories
  }

  // Thread k's generator yields. The thread compares input numbers and then posts its batch; a
  // newer input may be dispatched in between, so an outdated thread may still post.
  function Yielded<T>(p: Process<T>, k: nat, item: Item<T>, gaveUp: bool): Process<T>
    requires Running(p, k)
  {
    var t := p.threads[k];
    var s := p.stories[t.req];
    if gaveUp then p.(threads := Without(p.threads, k))
    else p.(threads := p.threads[k := t.(batches := t.batches + 1)],
            idle := p.idle + [Reply(t.req, t.input, Render(ItemBatch(item)))],
            stories := p.stories[t.req := s.(items := s.items + [item])])
  }

  function Finished<T>(p: Process<T>, k: nat): Process<T>
    requires Running(p, k)
  {
    var t := p.threads[k];
    p.(threads := Without(p.threads, k),
       idle := p.idle + [Reply(t.req, t.input, Render(Batch([], t.batches > 0, true)))],
       stories := p.stories[t.req := p.stories[t.req].(ending := Closed)])
  }

  // A handler that is no generator answers once; an input handler may not act on the launcher.
  function Allowed<T>(input: Option<nat>, e: Effect<T>): Effect<T> {
    if input.Some? && e.Act? then DoNothing else e
  }

  function Answered<T>(p: Process<T>, k: nat, e: Effect<T>): Process<T>
    requires Running(p, k)
  {
    var t := p.threads[k];
    var effect := Allowed(t.input, e);
    p.(threads := Without(p.threads, k),
       idle := p.idle + [Reply(t.req, t.input, effect)],
       stories := p.stories[t.req := p.stories[t.req].(ending := Replied(effect))])
  }

  function Raised<T>(p: Process<T>, k: nat): Process<T>
    requires k < |p.threads|
  {
    p.(threads := Without(p.threads, k))
  }

  function Looped<T>(p: Process<T>): Process<T> {
    if p.idle == [] then p else Send(p.(idle := p.idle[1..]), p.idle[0])
  }

  // The process is gone and another one takes its place.
  function Respawned<T>(p: Process<T>): Process<T> {
    p.(inputId := 0, debounced := None, threads := [], idle := [], cache := [], cacheOf := None,
       live := {}, cacheFrom := |p.sent|, journal := [])
  }

  function Newborn<T>(): Process<T> {
    Process(0, None, [], [], [], None, {}, {}, map[], [], 0, [])
  }

  datatype Move<T> =
    | Hears(req: RequestId, isInput: bool, listening: bool)
    | DebounceEnds(listening: bool)
    | Yields(k: nat, item: Item<T>, gaveUp: bool)
    | Finishes(k: nat)
    | Answers(k: nat, effect: Effect<T>)
    | Raises(k: nat)
    | Loops
    | Respawns

  // Request numbers are never used twice, only an outdated thread gives up, and a handler that
  // answers once has not yielded.
  predicate Possible<T>(p: Process<T>, m: Move<T>) {
    match m
    case Hears(req, _, _) => req !in p.heard
    case DebounceEnds(_) => true
    case Yields(k, _, gaveUp) => Running(p, k) && (gaveUp ==> Stale(p, p.threads[k].input))
    case Finishes(k) => Running(p, k)
    case Answers(k, _) => Running(p, k) && p.threads[k].batches == 0
    case Raises(k) => Running(p, k)
    case Loops => true
    case Respawns => true
  }

  function Next<T>(p: Process<T>, m: Move<T>): Process<T>
    requires Possible(p, m)
  {
    match m
    case Hears(req, isInput, listening) => Heard(p, req, isInput, listening)
    case DebounceEnds(listening) => DebounceOver(p, listening)
    case Yields(k, item, gaveUp) => Yielded(p, k, item, gaveUp)
    case Finishes(k) => Finished(p, k)
    case Answers(k, e) => Answered(p, k, e)
    case Raises(k) => Raised(p, k)
    case Loops => Looped(p)
    case Respawns => Respawned(p)
  }

  // ---------------------------------------------------------------- what every run keeps


  // A request's responses on the wire are a prefix of what its handler produced; while no newer
  // input was dispatched, the rest of them waits in order for the main loop.
  ghost predicate Told<T(!new)>(p: Process<T>, r: RequestId)
    requires r in p.stories
  {
    var s := p.stories[r];
    && BareAll(SentFor(p.sent, r)) <= Script(s)
    && (r in p.live && !Stale(p, s.input) ==> BareAll(SentFor(p.sent, r)) + WaitingFor(p.idle, r) == Script(s))
    && (r in p.live && s.input.Some? ==> s.input.value <= p.inputId)
    && (s.ending.Replied? ==> s.items == [])
  }

  ghost predicate AllTold<T(!new)>(p: Process<T>) {
    forall r {:trigger Told(p, r)} :: r in p.stories ==> Told(p, r)
  }

  ghost predicate ThreadFits<T(!new)>(live: set<RequestId>, stories: map<RequestId, Story<T>>, t: Thread) {
    && t.req in live && t.req in stories
    && stories[t.req].input == t.input
    && stories[t.req].ending.Open?
    && t.batches == |stories[t.req].items|
  }

  ghost predicate ReplyFits<T(!new)>(live: set<RequestId>, stories: map<RequestId, Story<T>>, r: Reply<T>) {
    r.req in live && r.req in stories && stories[r.req].input == r.input
  }

  ghost predicate Housekept<T(!new)>(p: Process<T>) {
    && p.stories.Keys <= p.heard
    && p.live <= p.stories.Keys
    && (p.debounced.Some? ==> p.debounced.value in p.heard && p.debounced.value !in p.stories)
    && (forall i {:trigger ThreadFits(p.live, p.stories, p.threads[i])} :: 0 <= i < |p.threads| ==> ThreadFits(p.live, p.stories, p.threads[i]))
    && (forall i, j :: 0 <= i < j < |p.threads| ==> p.threads[i].req != p.threads[j].req)
    && (forall i {:trigger ReplyFits(p.live, p.stories, p.idle[i])} :: 0 <= i < |p.idle| ==> ReplyFits(p.live, p.stories, p.idle[i]))
    && (forall i :: 0 <= i < |p.sent| ==> p.sent[i].req in p.stories)
  }

  // Ids resolve: every row sent since the cache was last replaced finds its own instance.
  ghost predicate Resolves<T(!new)>(cache: seq<T>, cacheOf: Option<RequestId>, packet: Packet<T>) {
    packet.effect.Render? ==>
      && cacheOf == Some(packet.req)
      && forall i :: 0 <= i < |packet.effect.batch.results| ==>
        var s := packet.effect.batch.results[i];
        s.id < |cache| && cache[s.id] == s.row
  }

  // The rows sent by a list of packets, in order.
  function Carried<T>(sent: seq<Packet<T>>): seq<Stamped<T>> {
    if sent == [] then []
    else
      var last := sent[|sent| - 1];
      Carried(sent[..|sent| - 1]) + if last.effect.Render? then last.effect.batch.results else []
  }

  ghost predicate CacheMatches<T(!new)>(sent: seq<Packet<T>>, from: nat, cache: seq<T>, cacheOf: Option<RequestId>) {
    && from <= |sent|
    && (cacheOf.None? ==> cache == [])
    && (cacheOf.Some? ==> from < |sent|)
    && Carried(sent[from..]) == Stamp(cache, 0)
    && (forall i {:trigger Resolves(cache, cacheOf, sent[i])} :: from <= i < |sent| ==> Resolves(cache, cacheOf, sent[i]))
  }

  ghost predicate Cached<T(!new)>(p: Process<T>) {
    CacheMatches(p.sent, p.cacheFrom, p.cache, p.cacheOf)
  }

  ghost predicate Ordered<T(!new)>(p: Process<T>) {
    && (forall i :: 0 <= i < |p.journal| && p.journal[i].Opened? ==> p.journal[i].input <= p.inputId)
    && (forall i, j :: 0 <= i < j < |p.journal| && p.journal[i].Opened? && p.journal[j].Wrote? && p.journal[j].answers.Some?
          ==> p.journal[i].input <= p.journal[j].answers.value)
  }

  ghost predicate Sound<T(!new)>(p: Process<T>) {
    Housekept(p) && AllTold(p) && Cached(p) && Ordered(p)
  }

  // ---------------------------------------------------------------- sending

  lemma {:induction false} CarriedSnoc<T>(sent: seq<Packet<T>>, packet: Packet<T>)
    ensures Carried(sent + [packet]) == Carried(sent) + if packet.effect.Render? then packet.effect.batch.results else []
  {
    assert (sent + [packet])[..|sent|] == sent;
  }

  lemma SentForSnoc<T>(sent: seq<Packet<T>>, packet: Packet<T>, r: RequestId)
    ensures SentFor(sent + [packet], r) == SentFor(sent, r) + if packet.req == r then [packet.effect] else []
  {
    assert (sent + [packet])[..|sent|] == sent;
  }

  // What Send writes: nothing for an outdated input, otherwise the reply with ids on its rows.
  lemma SendWrites<T>(p: Process<T>, reply: Reply<T>) returns (packet: Packet<T>)
    ensures Stale(p, reply.input) ==> Send(p, reply) == p
    ensures !Stale(p, reply.input) ==>
      && Send(p, reply).sent == p.sent + [packet]
      && packet.req == reply.req && Bare(packet.effect) == reply.effect
  {
    var q := Send(p, reply);
    packet := Packet(reply.req, DoNothing);
    if !Stale(p, reply.input) {
      packet := q.sent[|p.sent|];
      if reply.effect.Render? {
        assert Rows(packet.effect.batch.results) == reply.effect.batch.results;
      }
    }
  }

  // Numbering goes on where it stopped.
  lemma StampAppend<T>(a: seq<T>, b: seq<T>)
    ensures Stamp(a + b, 0) == Stamp(a, 0) + Stamp(b, |a|)
  {
  }

  lemma CarriedOne<T>(packet: Packet<T>)
    ensures Carried([packet]) == if packet.effect.Render? then packet.effect.batch.results else []
  {
    assert Carried<T>([]) == [];
    CarriedSnoc([], packet);
    assert [] + [packet] == [packet];
  }

  lemma DropAppend<T>(sent: seq<T>, x: T, from: nat)
    requires from <= |sent|
    ensures (sent + [x])[from..] == sent[from..] + [x]
  {
  }

  // What Send does with rows: they get the next ids of a cache, a fresh one for another request.
  lemma SendRenders<T>(p: Process<T>, reply: Reply<T>, packet: Packet<T>)
    requires !Stale(p, reply.input) && reply.effect.Render?
    requires packet == Send(p, reply).sent[|p.sent|]
    ensures
      var q, same := Send(p, reply), p.cacheOf == Some(reply.req);
      var base, rows := if same then p.cache else [], reply.effect.batch.results;
      && q.sent == p.sent + [packet] && q.cache == base + rows && q.cacheOf == Some(reply.req)
      && q.cacheFrom == (if same then p.cacheFrom else |p.sent|)
      && packet.req == reply.req && packet.effect.Render? && packet.effect.batch.results == Stamp(rows, |base|)
  {
  }

  lemma StampResolves<T(!new)>(base: seq<T>, rows: seq<T>, packet: Packet<T>)
    requires packet.effect.Render? && packet.effect.batch.results == Stamp(rows, |base|)
    ensures Resolves(base + rows, Some(packet.req), packet)
  {
  }

  lemma CacheRestarts<T(!new)>(p: Process<T>, reply: Reply<T>)
    requires !Stale(p, reply.input) && reply.effect.Render? && p.cacheOf != Some(reply.req)
    ensures Cached(Send(p, reply))
  {
    var q := Send(p, reply);
    var packet, rows := q.sent[|p.sent|], reply.effect.batch.results;
    SendRenders(p, reply, packet);
    DropAppend(p.sent, packet, |p.sent|);
    assert [] + rows == rows && p.sent[|p.sent|..] == [] && [] + [packet] == [packet];
    CarriedOne(packet);
    StampResolves([], rows, packet);
    RestartMatches(p.sent, packet, rows);
  }

  lemma RestartMatches<T(!new)>(sent: seq<Packet<T>>, packet: Packet<T>, rows: seq<T>)
    requires Carried((sent + [packet])[|sent|..]) == Stamp(rows, 0) && Resolves(rows, Some(packet.req), packet)
    ensures CacheMatches(sent + [packet], |sent|, rows, Some(packet.req))
  {
  }

  // What Send does with anything else.
  lemma SendActs<T>(p: Process<T>, reply: Reply<T>, packet: Packet<T>)
    requires !Stale(p, reply.input) && !reply.effect.Render?
    requires packet == Send(p, reply).sent[|p.sent|]
    ensures
      var q := Send(p, reply);
      && q.sent == p.sent + [packet] && q.cache == p.cache && q.cacheOf == p.cacheOf && q.cacheFrom == p.cacheFrom
      && !packet.effect.Render?
  {
  }

  lemma CarriedAppend<T>(sent: seq<Packet<T>>, packet: Packet<T>, from: nat, cache: seq<T>, rows: seq<T>)
    requires from <= |sent| && Carried(sent[from..]) == Stamp(cache, 0)
    requires if packet.effect.Render? then packet.effect.batch.results == Stamp(rows, |cache|) else rows == []
    ensures Carried((sent + [packet])[from..]) == Stamp(cache + rows, 0)
  {
    DropAppend(sent, packet, from);
    CarriedSnoc(sent[from..], packet);
    StampAppend(cache, rows);
    assert Stamp<T>([], |cache|) == [];
  }

  lemma ResolvesAll<T(!new)>(
    sent: seq<Packet<T>>, packet: Packet<T>, from: nat, cache: seq<T>, rows: seq<T>, cacheOf: Option<RequestId>)
    requires from <= |sent| && Resolves(cache + rows, cacheOf, packet)
    requires forall i {:trigger Resolves(cache, cacheOf, sent[i])} :: from <= i < |sent| ==> Resolves(cache, cacheOf, sent[i])
    ensures forall i {:trigger Resolves(cache + rows, cacheOf, (sent + [packet])[i])} :: from <= i < |sent| + 1 ==>
      Resolves(cache + rows, cacheOf, (sent + [packet])[i])
  {
    forall i | from <= i < |sent| + 1 ensures Resolves(cache + rows, cacheOf, (sent + [packet])[i]) {
      if i < |sent| {
        assert Resolves(cache, cacheOf, sent[i]);
        ResolvesStill(cache, rows, cacheOf, sent[i]);
      }
    }
  }

  lemma CacheGrows<T(!new)>(p: Process<T>, reply: Reply<T>)
    requires Cached(p) && !Stale(p, reply.input)
    requires reply.effect.Render? ==> p.cacheOf == Some(reply.req)
    ensures Cached(Send(p, reply))
  {
    var q := Send(p, reply);
    var packet := q.sent[|p.sent|];
    if reply.effect.Render? {
      SendRenders(p, reply, packet);
      StampResolves(p.cache, reply.effect.batch.results, packet);
      GrownMatches(p, packet, reply.effect.batch.results);
    } else {
      SendActs(p, reply, packet);
      GrownMatches(p, packet, []);
      assert p.cache + [] == p.cache;
    }
  }

  lemma GrownMatches<T(!new)>(p: Process<T>, packet: Packet<T>, rows: seq<T>)
    requires Cached(p) && Resolves(p.cache + rows, p.cacheOf, packet)
    requires if packet.effect.Render? then p.cacheOf.Some? && packet.effect.batch.results == Stamp(rows, |p.cache|)
             else rows == []
    ensures CacheMatches(p.sent + [packet], p.cacheFrom, p.cache + rows, p.cacheOf)
  {
    CarriedAppend(p.sent, packet, p.cacheFrom, p.cache, rows);
    ResolvesAll(p.sent, packet, p.cacheFrom, p.cache, rows, p.cacheOf);
  }

  lemma ResolvesStill<T(!new)>(cache: seq<T>, rows: seq<T>, cacheOf: Option<RequestId>, packet: Packet<T>)
    requires Resolves(cache, cacheOf, packet)
    ensures Resolves(cache + rows, cacheOf, packet)
  {
  }

  lemma SendCaches<T(!new)>(p: Process<T>, reply: Reply<T>)
    requires Cached(p)
    ensures Cached(Send(p, reply))
  {
    if !Stale(p, reply.input) {
      if reply.effect.Render? && p.cacheOf != Some(reply.req) {
        CacheRestarts(p, reply);
      } else {
        CacheGrows(p, reply);
      }
    }
  }

  lemma SendOrders<T(!new)>(p: Process<T>, reply: Reply<T>)
    requires Ordered(p)
    ensures Ordered(Send(p, reply))
  {
  }

  // ---------------------------------------------------------------- every move keeps the invariant

  ghost predicate TellsOthers<T(!new)>(p: Process<T>, except: RequestId) {
    forall r {:trigger Told(p, r)} :: r in p.stories && r != except ==> Told(p, r)
  }

  lemma BareSnoc<T>(es: seq<Effect<Stamped<T>>>, e: Effect<Stamped<T>>)
    ensures BareAll(es + [e]) == BareAll(es) + [Bare(e)]
  {
  }

  // The request being answered: its reply has left the queue and is now sent or dropped.
  lemma SendTellsOwn<T(!new)>(p: Process<T>, reply: Reply<T>)
    requires ReplyFits(p.live, p.stories, reply)
    requires BareAll(SentFor(p.sent, reply.req)) <= Script(p.stories[reply.req])
    requires !Stale(p, reply.input) ==>
      BareAll(SentFor(p.sent, reply.req)) + ([reply.effect] + WaitingFor(p.idle, reply.req)) == Script(p.stories[reply.req])
    requires reply.input.Some? ==> reply.input.value <= p.inputId
    requires p.stories[reply.req].ending.Replied? ==> p.stories[reply.req].items == []
    ensures Told(Send(p, reply), reply.req)
  {
    var packet := SendWrites(p, reply);
    if !Stale(p, reply.input) {
      var told := SentFor(p.sent, reply.req);
      SentForSnoc(p.sent, packet, reply.req);
      BareSnoc(told, packet.effect);
      var rest := WaitingFor(p.idle, reply.req);
      assert (BareAll(told) + [reply.effect]) + rest == BareAll(told) + ([reply.effect] + rest);
    }
  }

  // A request is told what it was told before.
  lemma ToldStill<T(!new)>(p: Process<T>, q: Process<T>, r: RequestId)
    requires r in p.stories && Told(p, r) && q.stories == p.stories && q.live == p.live && q.inputId == p.inputId
    requires SentFor(q.sent, r) == SentFor(p.sent, r) && q.idle == p.idle
    ensures Told(q, r)
  {
  }

  lemma SendTellsOther<T(!new)>(p: Process<T>, reply: Reply<T>, r: RequestId)
    requires r in p.stories && r != reply.req && Told(p, r)
    ensures Told(Send(p, reply), r)
  {
    if !Stale(p, reply.input) {
      var packet := SendWrites(p, reply);
      SentForSnoc(p.sent, packet, r);
      ToldStill(p, Send(p, reply), r);
    }
  }

  lemma SendTells<T(!new)>(p: Process<T>, reply: Reply<T>)
    requires ReplyFits(p.live, p.stories, reply) && TellsOthers(p, reply.req)
    requires BareAll(SentFor(p.sent, reply.req)) <= Script(p.stories[reply.req])
    requires !Stale(p, reply.input) ==>
      BareAll(SentFor(p.sent, reply.req)) + ([reply.effect] + WaitingFor(p.idle, reply.req)) == Script(p.stories[reply.req])
    requires reply.input.Some? ==> reply.input.value <= p.inputId
    requires p.stories[reply.req].ending.Replied? ==> p.stories[reply.req].items == []
    ensures AllTold(Send(p, reply))
  {
    var q := Send(p, reply);
    forall r | r in q.stories ensures Told(q, r) {
      if r == reply.req {
        SendTellsOwn(p, reply);
      } else {
        SendTellsOther(p, reply, r);
      }
    }
  }

  lemma SendHousekept<T(!new)>(p: Process<T>, reply: Reply<T>)
    requires Housekept(p) && ReplyFits(p.live, p.stories, reply)
    ensures Housekept(Send(p, reply))
  {
    var packet := SendWrites(p, reply);
    var q := Send(p, reply);
    assert forall i :: 0 <= i < |q.threads| ==> ThreadFits(p.live, p.stories, q.threads[i]);
    assert forall i :: 0 <= i < |q.idle| ==> ReplyFits(p.live, p.stories, q.idle[i]);
  }

  // The main loop sends the oldest waiting response.
  lemma PoppedHousekept<T(!new)>(p: Process<T>)
    requires Housekept(p) && p.idle != []
    ensures Housekept(p.(idle := p.idle[1..]))
  {
    var q := p.(idle := p.idle[1..]);
    forall i | 0 <= i < |q.idle| ensures ReplyFits(q.live, q.stories, q.idle[i]) {
      assert q.idle[i] == p.idle[i + 1] && ReplyFits(p.live, p.stories, p.idle[i + 1]);
    }
    forall i | 0 <= i < |q.threads| ensures ThreadFits(q.live, q.stories, q.threads[i]) {
      assert ThreadFits(p.live, p.stories, p.threads[i]);
    }
  }

  lemma PoppedTells<T(!new)>(p: Process<T>, r: RequestId)
    requires AllTold(p) && p.idle != [] && r in p.stories && r != p.idle[0].req
    ensures Told(p.(idle := p.idle[1..]), r)
  {
    assert Told(p, r);
  }

  lemma LoopKeeps<T(!new)>(p: Process<T>)
    requires Sound(p)
    ensures Sound(Looped(p))
  {
    if p.idle != [] {
      var reply := p.idle[0];
      var q := p.(idle := p.idle[1..]);
      assert ReplyFits(p.live, p.stories, reply);
      assert Told(p, reply.req);
      PoppedHousekept(p);
      forall r | r in q.stories && r != reply.req ensures Told(q, r) {
        PoppedTells(p, r);
      }
      assert Cached(q) && Ordered(q);
      SendHousekept(q, reply);
      SendTells(q, reply);
      SendCaches(q, reply);
      SendOrders(q, reply);
    }
  }

  // A response is posted for a thread that is still running, together with what it did.
  function Posted<T>(p: Process<T>, k: nat, threads: seq<Thread>, story: Story<T>, e: Effect<T>): Process<T>
    requires Running(p, k)
  {
    var t := p.threads[k];
    p.(threads := threads, idle := p.idle + [Reply(t.req, t.input, e)], stories := p.stories[t.req := story])
  }

  lemma PostTells<T(!new)>(p: Process<T>, k: nat, threads: seq<Thread>, story: Story<T>, e: Effect<T>)
    requires Sound(p) && Running(p, k)
    requires story.input == p.threads[k].input
    requires Script(story) == Script(p.stories[p.threads[k].req]) + [e]
    requires story.ending.Replied? ==> story.items == []
    ensures AllTold(Posted(p, k, threads, story, e))
  {
    var t := p.threads[k];
    var reply := Reply(t.req, t.input, e);
    var q := Posted(p, k, threads, story, e);
    assert ThreadFits(p.live, p.stories, t);
    forall r | r in q.stories ensures Told(q, r) {
      assert Told(p, r);
      WaitingForSnoc(p.idle, reply, r);
      if r == t.req && !Stale(p, t.input) {
        assert BareAll(SentFor(p.sent, r)) + (WaitingFor(p.idle, r) + [e])
            == (BareAll(SentFor(p.sent, r)) + WaitingFor(p.idle, r)) + [e];
      }
    }
  }

  lemma PostHousekept<T(!new)>(p: Process<T>, k: nat, threads: seq<Thread>, story: Story<T>, e: Effect<T>)
    requires Sound(p) && Running(p, k)
    requires story.input == p.threads[k].input
    requires forall i, j :: 0 <= i < j < |threads| ==> threads[i].req != threads[j].req
    requires forall i :: 0 <= i < |threads| ==>
      if threads[i].req == p.threads[k].req
      then threads[i] == Thread(p.threads[k].req, p.threads[k].input, |story.items|) && story.ending.Open?
      else threads[i] in p.threads
    ensures Housekept(Posted(p, k, threads, story, e))
  {
    var q := Posted(p, k, threads, story, e);
    assert ThreadFits(p.live, p.stories, p.threads[k]);
    forall i | 0 <= i < |q.idle| ensures ReplyFits(q.live, q.stories, q.idle[i]) {
      if i < |p.idle| {
        assert ReplyFits(p.live, p.stories, p.idle[i]);
      }
    }
    forall i | 0 <= i < |threads| ensures ThreadFits(q.live, q.stories, threads[i]) {
      if threads[i].req != p.threads[k].req {
        assert ThreadFits(p.live, p.stories, threads[i]);
      }
    }
  }

  lemma ThreadsWithout<T(!new)>(p: Process<T>, k: nat)
    requires Housekept(p) && k < |p.threads|
    ensures
      var rest := Without(p.threads, k);
      && (forall i, j :: 0 <= i < j < |rest| ==> rest[i].req != rest[j].req)
      && (forall i :: 0 <= i < |rest| ==> rest[i].req != p.threads[k].req && rest[i] in p.threads)
  {
    var rest := Without(p.threads, k);
    assert forall i :: 0 <= i < |rest| ==> rest[i] == p.threads[if i < k then i else i + 1];
  }

  lemma YieldKeeps<T(!new)>(p: Process<T>, k: nat, item: Item<T>)
    requires Sound(p) && Running(p, k)
    ensures Sound(Yielded(p, k, item, false))
  {
    var t := p.threads[k];
    var was := p.stories[t.req];
    var story := was.(items := was.items + [item]);
    var threads := p.threads[k := t.(batches := t.batches + 1)];
    assert ThreadFits(p.live, p.stories, t);
    PostTells(p, k, threads, story, Render(ItemBatch(item)));
    PostHousekept(p, k, threads, story, Render(ItemBatch(item)));
    assert Yielded(p, k, item, false) == Posted(p, k, threads, story, Render(ItemBatch(item)));
  }

  lemma FinishKeeps<T(!new)>(p: Process<T>, k: nat)
    requires Sound(p) && Running(p, k)
    ensures Sound(Finished(p, k))
  {
    var t := p.threads[k];
    var story := p.stories[t.req].(ending := Closed);
    assert ThreadFits(p.live, p.stories, t);
    ThreadsWithout(p, k);
    PostTells(p, k, Without(p.threads, k), story, Render(Closing(story.items)));
    PostHousekept(p, k, Without(p.threads, k), story, Render(Closing(story.items)));
    assert Finished(p, k) == Posted(p, k, Without(p.threads, k), story, Render(Closing(story.items)));
  }

  lemma AnswerKeeps<T(!new)>(p: Process<T>, k: nat, e: Effect<T>)
    requires Sound(p) && Running(p, k) && p.threads[k].batches == 0
    ensures Sound(Answered(p, k, e))
  {
    var t := p.threads[k];
    var effect := Allowed(t.input, e);
    var story := p.stories[t.req].(ending := Replied(effect));
    assert ThreadFits(p.live, p.stories, t);
    ThreadsWithout(p, k);
    PostTells(p, k, Without(p.threads, k), story, effect);
    PostHousekept(p, k, Without(p.threads, k), story, effect);
    assert Answered(p, k, e) == Posted(p, k, Without(p.threads, k), story, effect);
  }

  lemma RaiseKeeps<T(!new)>(p: Process<T>, k: nat)
    requires Sound(p) && Running(p, k)
    ensures Sound(Raised(p, k))
  {
    var q := Raised(p, k);
    ThreadsWithout(p, k);
    forall i | 0 <= i < |q.threads| ensures ThreadFits(q.live, q.stories, q.threads[i]) {
      assert ThreadFits(p.live, p.stories, q.threads[i]);
    }
    forall i | 0 <= i < |q.idle| ensures ReplyFits(q.live, q.stories, q.idle[i]) {
      assert ReplyFits(p.live, p.stories, p.idle[i]);
    }
    forall r | r in q.stories ensures Told(q, r) {
      assert Told(p, r);
    }
  }

  lemma RespawnKeeps<T(!new)>(p: Process<T>)
    requires Sound(p)
    ensures Sound(Respawned(p))
  {
    var q := Respawned(p);
    assert q.sent[q.cacheFrom..] == [];
    forall r | r in q.stories ensures Told(q, r) {
      assert Told(p, r);
    }
  }

  // A request is recorded with the input number it opens, before any thread or reply exists for it.
  function Opening<T>(p: Process<T>, req: RequestId, isInput: bool, ending: Ending<T>): Process<T> {
    var q := if isInput then p.(inputId := p.inputId + 1, journal := p.journal + [Opened(p.inputId + 1)]) else p;
    var input := if isInput then Some(q.inputId) else None;
    q.(stories := q.stories[req := Story(input, [], ending)], live := q.live + {req})
  }

  lemma OpeningTells<T(!new)>(p: Process<T>, req: RequestId, isInput: bool, ending: Ending<T>)
    requires Sound(p) && req !in p.stories
    ensures TellsOthers(Opening(p, req, isInput, ending), req)
    ensures SentFor(p.sent, req) == [] && WaitingFor(p.idle, req) == []
    ensures ending.Open? ==> AllTold(Opening(p, req, isInput, ending))
  {
    var q := Opening(p, req, isInput, ending);
    NothingSent(p.sent, req);
    forall i | 0 <= i < |p.idle| ensures p.idle[i].req != req {
      assert ReplyFits(p.live, p.stories, p.idle[i]);
    }
    NothingWaiting(p.idle, req);
    forall r | r in q.stories && r != req ensures Told(q, r) {
      OpeningTellsOther(p, req, isInput, ending, r);
    }
  }

  lemma OpeningTellsOther<T(!new)>(p: Process<T>, req: RequestId, isInput: bool, ending: Ending<T>, r: RequestId)
    requires r in p.stories && r != req && Told(p, r)
    ensures Told(Opening(p, req, isInput, ending), r)
  {
  }

  lemma OpeningKept<T(!new)>(p: Process<T>, req: RequestId, isInput: bool, ending: Ending<T>)
    requires Sound(p) && req !in p.stories && req in p.heard && p.debounced != Some(req)
    ensures
      var q := Opening(p, req, isInput, ending);
      Housekept(q) && Cached(q) && Ordered(q)
  {
    var q := Opening(p, req, isInput, ending);
    forall i | 0 <= i < |q.threads| ensures ThreadFits(q.live, q.stories, q.threads[i]) && q.threads[i].req != req {
      assert ThreadFits(p.live, p.stories, p.threads[i]);
    }
    forall i | 0 <= i < |q.idle| ensures ReplyFits(q.live, q.stories, q.idle[i]) {
      assert ReplyFits(p.live, p.stories, p.idle[i]);
    }
  }

  lemma StartKeeps<T(!new)>(p: Process<T>, req: RequestId, isInput: bool)
    requires Sound(p) && req !in p.stories && req in p.heard && p.debounced != Some(req)
    ensures Sound(Dispatched(p, req, isInput, true))
  {
    var q := Opening(p, req, isInput, Open);
    OpeningKept(p, req, isInput, Open);
    OpeningTells(p, req, isInput, Open);
    var d := Dispatched(p, req, isInput, true);
    var input := q.stories[req].input;
    assert d == q.(threads := q.threads + [Thread(req, input, 0)]) && q.threads == p.threads;
    forall i | 0 <= i < |p.threads| ensures p.threads[i].req != req {
      assert ThreadFits(p.live, p.stories, p.threads[i]);
    }
    StartedHousekept(q, req, input);
    forall r | r in d.stories ensures Told(d, r) {
      assert Told(q, r);
      ToldStill(q, d, r);
    }
  }

  lemma StartedHousekept<T(!new)>(q: Process<T>, req: RequestId, input: Option<nat>)
    requires Housekept(q) && req in q.live && q.stories[req] == Story(input, [], Open)
    requires forall i :: 0 <= i < |q.threads| ==> q.threads[i].req != req
    ensures Housekept(q.(threads := q.threads + [Thread(req, input, 0)]))
  {
    var d := q.(threads := q.threads + [Thread(req, input, 0)]);
    forall i | 0 <= i < |d.threads| ensures ThreadFits(d.live, d.stories, d.threads[i]) {
      if i < |q.threads| {
        assert ThreadFits(q.live, q.stories, q.threads[i]);
      }
    }
    forall i | 0 <= i < |d.idle| ensures ReplyFits(d.live, d.stories, d.idle[i]) {
      assert ReplyFits(q.live, q.stories, q.idle[i]);
    }
  }

  // Without a listener the request is answered on the spot.
  lemma NoListenerKeeps<T(!new)>(p: Process<T>, req: RequestId, isInput: bool)
    requires Sound(p) && req !in p.stories && req in p.heard && p.debounced != Some(req)
    ensures Sound(Dispatched(p, req, isInput, false))
  {
    var q := Opening(p, req, isInput, Replied(DoNothing));
    var reply := Reply(req, q.stories[req].input, DoNothing);
    OpeningKept(p, req, isInput, Replied(DoNothing));
    OpeningTells(p, req, isInput, Replied(DoNothing));
    assert Dispatched(p, req, isInput, false) == Send(q, reply);
    SendHousekept(q, reply);
    SendTells(q, reply);
    SendCaches(q, reply);
    SendOrders(q, reply);
  }

  lemma DispatchKeeps<T(!new)>(p: Process<T>, req: RequestId, isInput: bool, listening: bool)
    requires Sound(p) && req !in p.stories && req in p.heard && p.debounced != Some(req)
    ensures Sound(Dispatched(p, req, isInput, listening))
  {
    if listening {
      StartKeeps(p, req, isInput);
    } else {
      NoListenerKeeps(p, req, isInput);
    }
  }

  // Fields that only record which requests are pending or known do not touch the rest.
  lemma NotingKeeps<T(!new)>(p: Process<T>, heard: set<RequestId>, debounced: Option<RequestId>)
    requires Sound(p) && p.heard <= heard
    requires debounced.Some? ==> debounced.value in heard && debounced.value !in p.stories
    ensures Sound(p.(heard := heard, debounced := debounced))
  {
    var q := p.(heard := heard, debounced := debounced);
    forall i | 0 <= i < |q.threads| ensures ThreadFits(q.live, q.stories, q.threads[i]) {
      assert ThreadFits(p.live, p.stories, p.threads[i]);
    }
    forall i | 0 <= i < |q.idle| ensures ReplyFits(q.live, q.stories, q.idle[i]) {
      assert ReplyFits(p.live, p.stories, p.idle[i]);
    }
    forall r | r in q.stories ensures Told(q, r) {
      assert Told(p, r);
    }
  }

  lemma MoveKeeps<T(!new)>(p: Process<T>, m: Move<T>)
    requires Sound(p) && Possible(p, m)
    ensures Sound(Next(p, m))
  {
    match m
    case Hears(req, isInput, listening) =>
      NotingKeeps(p, p.heard + {req}, if isInput then Some(req) else p.debounced);
      if !isInput {
        DispatchKeeps(p.(heard := p.heard + {req}), req, false, listening);
      }
    case DebounceEnds(listening) =>
      if p.debounced.Some? {
        NotingKeeps(p, p.heard, None);
        DispatchKeeps(p.(debounced := None), p.debounced.value, true, listening);
      }
    case Yields(k, item, gaveUp) =>
      if gaveUp {
        RaiseKeeps(p, k);
      } else {
        YieldKeeps(p, k, item);
      }
    case Finishes(k) => FinishKeeps(p, k);
    case Answers(k, e) => AnswerKeeps(p, k, e);
    case Raises(k) => RaiseKeeps(p, k);
    case Loops => LoopKeeps(p);
    case Respawns => RespawnKeeps(p);
  }

  // ---------------------------------------------------------------- whole runs of one process

  function After<T>(moves: seq<Move<T>>): Process<T>
    requires AllPossible(moves)
    decreases |moves|, 1
  {
    if moves == [] then Newborn() else Next(After(moves[..|moves| - 1]), moves[|moves| - 1])
  }

  predicate AllPossible<T>(moves: seq<Move<T>>)
    decreases |moves|, 0
  {
    moves == [] ||
    (AllPossible(moves[..|moves| - 1]) && Possible(After(moves[..|moves| - 1]), moves[|moves| - 1]))
  }

  lemma {:induction false} EveryRunIsSound<T(!new)>(moves: seq<Move<T>>)
    requires AllPossible(moves)
    ensures Sound(After(moves))
  {
    if moves != [] {
      EveryRunIsSound(moves[..|moves| - 1]);
      MoveKeeps(After(moves[..|moves| - 1]), moves[|moves| - 1]);
    }
  }

  // ---------------------------------------------------------------- which input is dispatched

  // Move i heard an input, and since then no newer one came, none was dispatched, and the process
  // stayed the same.
  ghost predicate IsNewestInput<T(!new)>(moves: seq<Move<T>>, i: nat) {
    && i < |moves| && moves[i].Hears? && moves[i].isInput
    && forall j {:trigger moves[j]} :: i < j < |moves| ==> !Supersedes(moves[j])
  }

  predicate Supersedes<T>(m: Move<T>) {
    (m.Hears? && m.isInput) || m.DebounceEnds? || m.Respawns?
  }

  lemma NewestSnoc<T(!new)>(moves: seq<Move<T>>, m: Move<T>, i: nat)
    ensures IsNewestInput(moves + [m], i) <==>
      if i == |moves| then m.Hears? && m.isInput else IsNewestInput(moves, i) && !Supersedes(m)
  {
    var longer := moves + [m];
    assert forall j :: 0 <= j < |moves| ==> longer[j] == moves[j];
    if i < |moves| && IsNewestInput(longer, i) {
      assert !Supersedes(longer[|moves|]);
      forall j | i < j < |moves| ensures !Supersedes(moves[j]) {
        assert !Supersedes(longer[j]);
      }
    }
  }

  // What moves do to the pending input.
  lemma DebouncedAfter<T(!new)>(p: Process<T>, m: Move<T>)
    requires Possible(p, m)
    ensures Next(p, m).debounced ==
      if m.Hears? && m.isInput then Some(m.req) else if Supersedes(m) then None else p.debounced
  {
  }

  // The pending input is the newest one heard since the last dispatch or the start of the process.
  lemma {:induction false} PendingIsNewest<T(!new)>(moves: seq<Move<T>>, i: nat)
    requires AllPossible(moves) && IsNewestInput(moves, i)
    ensures After(moves).debounced == Some(moves[i].req)
  {
    var n := |moves| - 1;
    var m := moves[n];
    assert moves[..n] + [m] == moves;
    NewestSnoc(moves[..n], m, i);
    DebouncedAfter(After(moves[..n]), m);
    if i < n {
      PendingIsNewest(moves[..n], i);
    }
  }

  lemma {:induction false} PendingWasHeard<T(!new)>(moves: seq<Move<T>>) returns (i: nat)
    requires AllPossible(moves) && After(moves).debounced.Some?
    ensures IsNewestInput(moves, i) && After(moves).debounced == Some(moves[i].req)
  {
    var n := |moves| - 1;
    var m := moves[n];
    assert moves[..n] + [m] == moves;
    DebouncedAfter(After(moves[..n]), m);
    i := n;
    if !Supersedes(m) {
      i := PendingWasHeard(moves[..n]);
    }
    NewestSnoc(moves[..n], m, i);
  }

  lemma PendingIffNewest<T(!new)>(moves: seq<Move<T>>, r: RequestId)
    requires AllPossible(moves)
    ensures After(moves).debounced == Some(r) <==> exists i: nat :: IsNewestInput(moves, i) && moves[i].req == r
  {
    if After(moves).debounced == Some(r) {
      var i := PendingWasHeard(moves);
    }
    forall i: nat | IsNewestInput(moves, i) && moves[i].req == r ensures After(moves).debounced == Some(r) {
      PendingIsNewest(moves, i);
    }
  }

  // The request has got a handler thread, or its answer.
  ghost predicate IsHandled<T(!new)>(p: Process<T>, q: Process<T>, req: RequestId, input: Option<nat>, listening: bool) {
    && q.stories.Keys == p.stories.Keys + {req} && q.stories[req].input == input
    && q.threads == p.threads + (if listening then [Thread(req, input, 0)] else [])
    && q.sent == p.sent + (if listening then [] else [Packet(req, DoNothing)])
  }

  lemma DelayEnds<T(!new)>(p: Process<T>, listening: bool)
    requires Housekept(p) && p.debounced.Some?
    ensures
      var q := Next(p, DebounceEnds(listening));
      && p.debounced.value !in p.stories && q.inputId == p.inputId + 1
      && IsHandled(p, q, p.debounced.value, Some(q.inputId), listening)
  {
  }

  // When the delay is over, the newest input is dispatched under the next input number, and nothing
  // else is; without one nothing happens.
  lemma NewestIsDispatched<T(!new)>(moves: seq<Move<T>>, listening: bool)
    requires AllPossible(moves)
    ensures
      var p, q := After(moves), Next(After(moves), DebounceEnds(listening));
      && (forall i: nat {:trigger IsNewestInput(moves, i)} :: IsNewestInput(moves, i) ==>
            && moves[i].req !in p.stories && q.inputId == p.inputId + 1
            && IsHandled(p, q, moves[i].req, Some(q.inputId), listening))
      && ((forall i: nat {:trigger IsNewestInput(moves, i)} :: !IsNewestInput(moves, i)) ==> q == p)
  {
    EveryRunIsSound(moves);
    forall i: nat | IsNewestInput(moves, i) ensures After(moves).debounced == Some(moves[i].req) {
      PendingIsNewest(moves, i);
    }
    if After(moves).debounced.Some? {
      DelayEnds(After(moves), listening);
      var i := PendingWasHeard(moves);
    }
  }

  // Any other event is handled when it is heard.
  lemma OthersAreHandled<T(!new)>(moves: seq<Move<T>>, req: RequestId, listening: bool)
    requires AllPossible(moves) && Possible(After(moves), Hears(req, false, listening))
    ensures IsHandled(After(moves), Next(After(moves), Hears(req, false, listening)), req, None, listening)
    ensures Next(After(moves), Hears(req, false, listening)).debounced == After(moves).debounced
  {
  }

  // Move k ended the delay of the input that move i heard.
  ghost predicate Dispatches<T(!new)>(moves: seq<Move<T>>, i: nat, k: nat) {
    k < |moves| && moves[k].DebounceEnds? && IsNewestInput(moves[..k], i)
  }

  ghost predicate WasDispatched<T(!new)>(moves: seq<Move<T>>, i: nat) {
    exists k: nat :: Dispatches(moves, i, k)
  }

  lemma DispatchedSnoc<T(!new)>(moves: seq<Move<T>>, m: Move<T>, i: nat)
    ensures WasDispatched(moves + [m], i) <==> WasDispatched(moves, i) || (m.DebounceEnds? && IsNewestInput(moves, i))
  {
    var longer := moves + [m];
    assert longer[..|moves|] == moves;
    forall k: nat | k < |moves| ensures Dispatches(longer, i, k) <==> Dispatches(moves, i, k) {
      assert longer[..k] == moves[..k];
    }
    if m.DebounceEnds? && IsNewestInput(moves, i) {
      assert Dispatches(longer, i, |moves|);
    }
    if WasDispatched(moves, i) {
      var k: nat :| Dispatches(moves, i, k);
      assert Dispatches(longer, i, k);
    }
  }

  lemma HeardAfter<T(!new)>(p: Process<T>, m: Move<T>)
    requires Possible(p, m)
    ensures p.heard <= Next(p, m).heard && (m.Hears? ==> m.req in Next(p, m).heard)
  {
  }

  lemma {:induction false} HeardIsRecorded<T(!new)>(moves: seq<Move<T>>, i: nat)
    requires AllPossible(moves) && i < |moves| && moves[i].Hears?
    ensures moves[i].req in After(moves).heard
  {
    var n := |moves| - 1;
    HeardAfter(After(moves[..n]), moves[n]);
    if i < n {
      HeardIsRecorded(moves[..n], i);
    }
  }

  lemma KeysAfter<T(!new)>(p: Process<T>, m: Move<T>)
    requires Possible(p, m)
    ensures Next(p, m).stories.Keys == p.stories.Keys +
      if m.Hears? && !m.isInput then {m.req}
      else if m.DebounceEnds? && p.debounced.Some? then {p.debounced.value}
      else {}
  {
  }

  // An event that was heard is handled, unless it is an input whose delay did not end before a newer
  // input came or the process was gone.
  lemma {:induction false} HandledIff<T(!new)>(moves: seq<Move<T>>, i: nat)
    requires AllPossible(moves) && i < |moves| && moves[i].Hears?
    ensures moves[i].req in After(moves).stories <==> !moves[i].isInput || WasDispatched(moves, i)
  {
    var n := |moves| - 1;
    var m := moves[n];
    var p := After(moves[..n]);
    assert moves[..n] + [m] == moves;
    EveryRunIsSound(moves[..n]);
    KeysAfter(p, m);
    DispatchedSnoc(moves[..n], m, i);
    if i < n {
      HeardIsRecorded(moves[..n], i);
      HandledIff(moves[..n], i);
      if m.DebounceEnds? && p.debounced.Some? {
        var newest := PendingWasHeard(moves[..n]);
        RequestsDiffer(moves[..n], i, newest);
        if IsNewestInput(moves[..n], i) {
          PendingIsNewest(moves[..n], i);
        }
      } else if m.DebounceEnds? && IsNewestInput(moves[..n], i) {
        PendingIsNewest(moves[..n], i);
      }
    } else {
      NotYetDispatched(moves[..n], i);
    }
  }

  lemma NotYetDispatched<T(!new)>(moves: seq<Move<T>>, i: nat)
    requires i >= |moves|
    ensures !WasDispatched(moves, i) && !IsNewestInput(moves, i)
  {
  }

  lemma {:induction false} RequestsDiffer<T(!new)>(moves: seq<Move<T>>, i: nat, j: nat)
    requires AllPossible(moves) && i < |moves| && j < |moves| && moves[i].Hears? && moves[j].Hears?
    ensures moves[i].req == moves[j].req ==> i == j
  {
    var n := |moves| - 1;
    if i < n && j < n {
      RequestsDiffer(moves[..n], i, j);
    } else if i < n {
      HeardIsRecorded(moves[..n], i);
    } else if j < n {
      HeardIsRecorded(moves[..n], j);
    }
  }

  // ---------------------------------------------------------------- what is sent

  // Once input n has been dispatched, nothing is written any more for an earlier input.
  lemma NothingSentForOlderInput<T(!new)>(moves: seq<Move<T>>, i: nat, j: nat)
    requires AllPossible(moves)
    requires i < j < |After(moves).journal|
    requires After(moves).journal[i].Opened? && After(moves).journal[j].Wrote?
    ensures After(moves).journal[j].answers.Some? ==> After(moves).journal[j].answers.value >= After(moves).journal[i].input
  {
    EveryRunIsSound(moves);
  }

  // An input handler's answer never acts on the launcher.
  lemma {:induction false} InputStoriesNeverAct<T(!new)>(moves: seq<Move<T>>, r: RequestId)
    requires AllPossible(moves) && r in After(moves).stories && After(moves).stories[r].input.Some?
    ensures After(moves).stories[r].ending.Replied? ==> !After(moves).stories[r].ending.effect.Act?
  {
    var n := |moves| - 1;
    var p := After(moves[..n]);
    EveryRunIsSound(moves[..n]);
    StoriesAfter(p, moves[n], r);
    if r in p.stories && p.stories[r].input.Some? {
      InputStoriesNeverAct(moves[..n], r);
    }
  }

  lemma StoriesAfter<T(!new)>(p: Process<T>, m: Move<T>, r: RequestId)
    requires Sound(p) && Possible(p, m) && r in Next(p, m).stories
    ensures
      var s := Next(p, m).stories[r];
      || !s.ending.Replied? || s.input.None? || !s.ending.effect.Act?
      || (r in p.stories && s.input == p.stories[r].input && s.ending == p.stories[r].ending)
  {
    match m
    case Answers(k, _) => assert ThreadFits(p.live, p.stories, p.threads[k]);
    case _ =>
  }

  lemma {:induction false} SentIsListed<T>(sent: seq<Packet<T>>, i: nat)
    requires i < |sent|
    ensures sent[i].effect in SentFor(sent, sent[i].req)
  {
    if i < |sent| - 1 {
      SentIsListed(sent[..|sent| - 1], i);
    }
  }

  // So no packet written for an input event does.
  lemma InputNeverActs<T(!new)>(moves: seq<Move<T>>, i: nat)
    requires AllPossible(moves) && i < |After(moves).sent|
    ensures
      var p := After(moves);
      && p.sent[i].req in p.stories
      && (p.stories[p.sent[i].req].input.Some? ==> !p.sent[i].effect.Act?)
  {
    EveryRunIsSound(moves);
    var p := After(moves);
    var r, e := p.sent[i].req, p.sent[i].effect;
    if p.stories[r].input.Some? {
      InputStoriesNeverAct(moves, r);
      assert Told(p, r);
      SentIsListed(p.sent, i);
      var es := SentFor(p.sent, r);
      var k :| 0 <= k < |es| && es[k] == e;
      assert BareAll(es)[k] == Bare(e);
      assert Script(p.stories[r])[k] == Bare(e);
    }
  }

  // From the first response of a request up to another request's rendered response, ids count
  // 0, 1, 2, ... across appending and replacing batches alike, and each one names the row it was
  // sent with.
  lemma IdsCountUp<T(!new)>(moves: seq<Move<T>>, k: nat)
    requires AllPossible(moves) && k < |SinceCache(After(moves))|
    ensures
      var p := After(moves);
      var sent := SinceCache(p);
      && sent[k].id == k
      && |sent| == |p.cache| && p.cache[k] == sent[k].row
  {
    EveryRunIsSound(moves);
  }

  // The rows sent since the cache was last replaced.
  function SinceCache<T>(p: Process<T>): seq<Stamped<T>> {
    if p.cacheFrom <= |p.sent| then Carried(p.sent[p.cacheFrom..]) else []
  }

  // The cache restarts exactly when it changes owner: on a rendered response to another request,
  // or with the process.
  lemma CacheSurvives<T(!new)>(p: Process<T>, m: Move<T>)
    requires Sound(p) && Possible(p, m) && p.cacheOf.Some?
    ensures Next(p, m).cacheFrom == p.cacheFrom <==> Next(p, m).cacheOf == p.cacheOf
    ensures Next(p, m).cacheOf == p.cacheOf ==> p.cache <= Next(p, m).cache
    ensures Next(p, m).cacheOf != p.cacheOf ==>
      || m.Respawns?
      || (m.Loops? && p.idle[0].effect.Render? && Next(p, m).cacheOf == Some(p.idle[0].req))
  {
  }

  // A prefix of a streaming handler's responses shows what the generator has yielded up to there.
  function BatchesIn<T>(es: seq<Effect<T>>): seq<Batch<T>> {
    if es == [] then []
    else
      var last := es[|es| - 1];
      BatchesIn(es[..|es| - 1]) + if last.Render? then [last.batch] else []
  }

  lemma {:induction false} BatchesInRenders<T>(bs: seq<Batch<T>>)
    ensures BatchesIn(Renders(bs)) == bs
  {
    var es := Renders(bs);
    if bs == [] {
      assert es == [];
    } else {
      assert es[..|es| - 1] == Renders(bs[..|bs| - 1]);
      BatchesInRenders(bs[..|bs| - 1]);
    }
  }

  // The first k items, or all of them.
  function Taken<T>(items: seq<Item<T>>, k: nat): seq<Item<T>> {
    if k < |items| then items[..k] else items
  }

  lemma UnfinishedReplays<T>(items: seq<Item<T>>)
    ensures Fold(BatchesIn(Renders(Batches(items)))) == Replay(items)
    ensures forall i :: 0 <= i < |items| ==> !Terminal(Renders(Batches(items))[i])
  {
    BatchesReplay(items);
    BatchesInRenders(Batches(items));
  }

  lemma FinishedReplays<T>(items: seq<Item<T>>)
    ensures Fold(BatchesIn(Renders(Batches(items)) + [Render(Closing(items))])) == Replay(items)
  {
    BatchesReplay(items);
    var bs := Batches(items) + [Closing(items)];
    BatchesInRenders(bs);
    assert Renders(bs) == Renders(Batches(items)) + [Render(Closing(items))];
  }

  // A prefix of a stream's responses shows the rows yielded up to there; only the closing one is
  // terminal, and it comes after all items.
  lemma ScriptReplays<T>(s: Story<T>, es: seq<Effect<T>>)
    requires es <= Script(s) && !s.ending.Replied?
    ensures Fold(BatchesIn(es)) == Replay(Taken(s.items, |es|))
    ensures forall i :: 0 <= i < |es| ==> es[i].Render? && (Terminal(es[i]) <==> i == |s.items|)
  {
    UnfinishedReplays(s.items);
    if |es| <= |s.items| {
      var items := Taken(s.items, |es|);
      assert items == s.items[..|es|];
      assert es == Renders(Batches(items));
      UnfinishedReplays(items);
    } else {
      assert es == Script(s);
      FinishedReplays(s.items);
    }
  }

  // ---------------------------------------------------------------- the API object

  // A dictionary that is filled with the keys 0, 1, 2, ...
  ghost predicate Dense<T>(m: map<nat, T>) {
    forall i: nat :: i in m <==> i < |m|
  }

  ghost function InOrder<T>(m: map<nat, T>): seq<T>
    requires Dense(m)
  {
    seq(|m|, i requires 0 <= i < |m| => m[i])
  }

  lemma DenseGrows<T>(m: map<nat, T>, x: T)
    requires Dense(m)
    ensures Dense(m[|m| := x]) && InOrder(m[|m| := x]) == InOrder(m) + [x]
  {
    assert |m| !in m;
    assert |m[|m| := x]| == |m| + 1;
  }

  class Extension<T> {
    var inputRequestId: nat
    var inputDebounceTimer: Option<RequestId>
    var resultCache: map<nat, T>
    var cacheRequestId: Option<RequestId>
    var threads: seq<Thread>
    var idle: seq<Reply<T>>
    var socket: seq<Packet<T>>
    ghost var heard: set<RequestId>
    ghost var live: set<RequestId>
    ghost var stories: map<RequestId, Story<T>>
    ghost var cacheFrom: nat
    ghost var journal: seq<Note>

    ghost predicate Valid()
      reads this
    {
      Dense(resultCache)
    }

    ghost function View(): Process<T>
      reads this
      requires Valid()
    {
      Process(inputRequestId, inputDebounceTimer, threads, idle, InOrder(resultCache), cacheRequestId,
              heard, live, stories, socket, cacheFrom, journal)
    }

    constructor ()
      ensures Valid() && View() == Newborn()
    {
      inputRequestId, inputDebounceTimer := 0, None;
      resultCache, cacheRequestId := map[], None;
      threads, idle, socket := [], [], [];
      heard, live, stories, cacheFrom, journal := {}, {}, map[], 0, [];
      new;
      assert InOrder(resultCache) == [];
    }

    method TriggerEvent(req: RequestId, isInput: bool, listening: bool)
      requires Valid()
      modifies this
      ensures Valid() && View() == Heard(old(View()), req, isInput, listening)
    {
      heard := heard + {req};
      if !isInput {
        DoTriggerEvent(req, false, listening);
        return;
      }
      inputDebounceTimer := Some(req);
    }

    method TriggerDebounced(listening: bool)
      requires Valid() && inputDebounceTimer.Some?
      modifies this
      ensures Valid() && View() == DebounceOver(old(View()), listening)
    {
      var req := inputDebounceTimer.value;
      inputDebounceTimer := None;
      DoTriggerEvent(req, true, listening);
    }

    method DoTriggerEvent(req: RequestId, isInput: bool, listening: bool)
      requires Valid()
      modifies this
      ensures Valid() && View() == Dispatched(old(View()), req, isInput, listening)
    {
      var input: Option<nat> := None;
      if isInput {
        inputRequestId := inputRequestId + 1;
        input := Some(inputRequestId);
        journal := journal + [Opened(inputRequestId)];
      }
      live := live + {req};
      stories := stories[req := Story(input, [], if listening then Open else Replied(DoNothing))];
      if !listening {
        SendResponse(Reply(req, input, DoNothing));
        return;
      }
      threads := threads + [Thread(req, input, 0)];
    }

    // What the loop of StreamResponse does with one item, and at its end.
    method StreamItem(k: nat, item: Item<T>, gaveUp: bool)
      requires Valid() && Running(View(), k)
      modifies this
      ensures Valid() && View() == Yielded(old(View()), k, item, gaveUp)
    {
      var t := threads[k];
      if gaveUp {
        threads := Without(threads, k);
        return;
      }
      var append := item.Single?;
      var results := if append then [item.row] else item.rows;
      RunWhenIdle(t, Render(Batch(results, append, false)));
      threads := threads[k := t.(batches := t.batches + 1)];
      stories := stories[t.req := stories[t.req].(items := stories[t.req].items + [item])];
    }

    method StreamEnd(k: nat)
      requires Valid() && Running(View(), k)
      modifies this
      ensures Valid() && View() == Finished(old(View()), k)
    {
      var t := threads[k];
      RunWhenIdle(t, Render(Batch([], t.batches > 0, true)));
      threads := Without(threads, k);
      stories := stories[t.req := stories[t.req].(ending := Closed)];
    }

    // A handler returned something else than a generator.
    method Return(k: nat, effect: Effect<T>)
      requires Valid() && Running(View(), k)
      modifies this
      ensures Valid() && View() == Answered(old(View()), k, effect)
    {
      var t := threads[k];
      var message := effect;
      if t.input.Some? && effect.Act? {
        message := DoNothing;
      }
      RunWhenIdle(t, message);
      threads := Without(threads, k);
      stories := stories[t.req := stories[t.req].(ending := Replied(message))];
    }

    method RunWhenIdle(t: Thread, effect: Effect<T>)
      modifies `idle
      ensures idle == old(idle) + [Reply(t.req, t.input, effect)]
    {
      idle := idle + [Reply(t.req, t.input, effect)];
    }

    method Loop()
      requires Valid()
      modifies this
      ensures Valid() && View() == Looped(old(View()))
    {
      if idle == [] {
        return;
      }
      var reply := idle[0];
      idle := idle[1..];
      SendResponse(reply);
    }

    method SendResponse(reply: Reply<T>)
      requires Valid()
      modifies this
      ensures Valid() && View() == Send(old(View()), reply)
    {
      if reply.input.Some? && reply.input.value != inputRequestId {
        return;
      }
      journal := journal + [Wrote(reply.input)];
      var message: Effect<Stamped<T>>;
      match reply.effect {
        case Render(batch) =>
          var wire := AssignResultIds(reply.req, batch.results);
          message := Render(Batch(wire, batch.append, batch.final));
        case DoNothing => message := DoNothing;
        case Act => message := Act;
      }
      socket := socket + [Packet(reply.req, message)];
    }

    method AssignResultIds(req: RequestId, results: seq<T>) returns (wire: seq<Stamped<T>>)
      requires Valid()
      modifies `resultCache, `cacheRequestId, `cacheFrom
      ensures Valid() && cacheRequestId == Some(req)
      ensures old(cacheRequestId) == Some(req) ==>
        InOrder(resultCache) == old(InOrder(resultCache)) + results && wire == Stamp(results, |old(resultCache)|)
      ensures old(cacheRequestId) != Some(req) ==> InOrder(resultCache) == results && wire == Stamp(results, 0)
      ensures cacheFrom == if old(cacheRequestId) == Some(req) then old(cacheFrom) else |socket|
    {
      if cacheRequestId != Some(req) {
        resultCache := map[];
        cacheRequestId := Some(req);
        cacheFrom := |socket|;
      }
      ghost var base := InOrder(resultCache);
      wire := [];
      for i := 0 to |results|
        modifies `resultCache
        invariant Valid() && InOrder(resultCache) == base + results[..i]
        invariant wire == Stamp(results[..i], |base|)
      {
        var resultId := |resultCache|;
        DenseGrows(resultCache, results[i]);
        resultCache := resultCache[resultId := results[i]];
        wire := wire + [Stamped(resultId, results[i])];
        assert results[..i + 1] == results[..i] + [results[i]];
      }
      assert results[..|results|] == results;
      assert base == [] ==> base + results == results;
    }

    // An activation names a result by id; the handler gets the instance behind it.
    method ConvertActivation(id: nat) returns (instance: Option<T>)
      requires Valid()
      ensures instance == if id < |View().cache| then Some(View().cache[id]) else None
    {
      instance := if id in resultCache then Some(resultCache[id]) else None;
    }
  }
}
