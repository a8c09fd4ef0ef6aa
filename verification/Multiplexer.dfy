/** The proxy's shared connection, and a client task that uses it. */
module Multiplexer {
  import opened Bytes
  import opened Frame
  import opened Receive
  import opened ParserTheory
  import opened Session
  import opened Network
  import opened Exchanges

  // The shared connection

  /** An exchange of the proxy: after any error the connection is dropped; a panic skips that. */
  function Relayed(h: Held, wire: seq<byte>): (r: Conversed)
    requires h.Wired()
    ensures r.held.Wired()
  {
    var c := Converse(h, wire);
    if c.outcome.Failure? then c.(held := c.held.(conn := None)) else c
  }

  /**
   * The discipline of the proxy: if nothing is outstanding on the connection held, nothing is
   * outstanding after an exchange, however it ends; and an answer is the one to this request.
   */
  lemma RelayedKeeps(h: Held, wire: seq<byte>)
    requires Ready(h)
    ensures var r := Relayed(h, wire);
            && Ready(r.held)
            && Grew(h.world.net, r.held.world.net)
            && (r.outcome.Answer? ==> SameOrNewer(h, r.held) && Paired(h.world.net, wire, r.held, r.outcome.rx))
            && (r.outcome.Failure? ==> r.held.conn.None?)
  {
    hide Converse, Paired, Quiet, Linked, Grew, SameOrNewer;
    ConverseKeeps(h, wire);
  }

  /** One exchange, under the lock of the shared connection. */
  method Exchange(upstream: Line, wire: seq<byte>) returns (outcome: Outcome)
    requires upstream.State().Wired()
    modifies upstream
    ensures Conversed(upstream.State(), outcome) == Relayed(old(upstream.State()), wire)
  {
    outcome := upstream.Exchange(wire);
    if outcome.Failure? {
      upstream.Drop();
    }
  }

  // A downstream client

  /** A task: its session, the shared connection, the answers delivered, the fate of the writes to come. */
  datatype Served = Served(pump: Pump, held: Held, delivered: seq<seq<byte>>, writes: seq<bool>)

  /** Whether the next write to the client succeeds; beyond the end of the script all do. */
  predicate Writable(writes: seq<bool>) {
    writes == [] || writes[0]
  }

  function Later(writes: seq<bool>): seq<bool> {
    if writes == [] then [] else writes[1..]
  }

  predicate Serving(s: Served) {
    s.pump.rx.Shaped() && s.held.Wired()
  }

  function Ended(p: Pump): (q: Pump)
    requires p.rx.Shaped()
    ensures q.rx.Shaped()
  {
    p.(running := false)
  }

  /** A complete frame: it is relayed, and the answer, if there is one, is delivered. */
  function Handed(s: Served, wire: seq<byte>): (t: Served)
    requires Serving(s)
    ensures Serving(t)
  {
    var r := Relayed(s.held, wire);
    match r.outcome
    case Failure(_) => s.(held := r.held)
    case Unwound => s.(held := r.held, pump := Ended(s.pump))
    case Answer(rx) =>
      if Writable(s.writes)
      then s.(held := r.held, delivered := s.delivered + [rx.raw], writes := Later(s.writes))
      else s.(held := r.held, pump := Ended(s.pump))
  }

  /** One downstream byte. */
  function ServeByte(s: Served, c: byte): (t: Served)
    requires Serving(s)
    ensures Serving(t)
  {
    var q := s.(pump := Take(s.pump, c));
    if Step(s.pump.rx, c).verdict.Done? then Handed(q, Step(s.pump.rx, c).rx.raw) else q
  }

  function ServeAll(s: Served, d: seq<byte>): (t: Served)
    requires Serving(s)
    ensures Serving(t)
    decreases |d|
  {
    if d == [] || !s.pump.running then s else ServeAll(ServeByte(s, d[0]), d[1..])
  }

  function ServeChunks(s: Served, chunks: seq<seq<byte>>): (t: Served)
    requires Serving(s)
    ensures Serving(t)
    decreases |chunks|
  {
    if chunks == [] || chunks[0] == [] then s else ServeChunks(ServeAll(s, chunks[0]), chunks[1..])
  }

  /** Every frame cut off so far has been handed to the shared connection, in order, and nothing else. */
  ghost predicate HandedOn(s: Served, base: seq<seq<byte>>) {
    s.held.tried == base + Frames(s.pump.segments)
  }

  /** A piece that is no frame changes nothing of this. */
  lemma OtherHandsOn(s: Served, g: Segment, rx: Rx, running: bool, base: seq<seq<byte>>)
    requires HandedOn(s, base) && !g.Forwarded?
    ensures HandedOn(s.(pump := Pump(rx, s.pump.segments + [g], running)), base)
    ensures HandedOn(s.(pump := Pump(rx, s.pump.segments + [], running)), base)
  {
    FramesLast(s.pump.segments, g);
    assert s.pump.segments + [] == s.pump.segments;
    hide Frames;
  }

  lemma ServeByteHandsOn(s: Served, c: byte, base: seq<seq<byte>>)
    requires Serving(s) && s.pump.running && HandedOn(s, base)
    ensures HandedOn(ServeByte(s, c), base)
  {
    hide *;
    ServesBy(s, c);
    ServingShaped(s);
    var t := Step(s.pump.rx, c);
    match t.verdict
    case More => OtherHandsOn(s, Junk([c]), t.rx, true, base);
    case Done =>
      FrameCutOff(s, t.rx.raw, base);
      HandedHandsOn(s.(pump := Pump(Fresh(false), s.pump.segments + [Forwarded(t.rx.raw)], true)), t.rx.raw, base);
    case Failed(_) => OtherHandsOn(s, Dropped(t.rx.raw), Fresh(false), true, base);
    case Panicked => OtherHandsOn(s, Fatal(t.rx.raw), t.rx, false, base);
  }

  lemma ServingShaped(s: Served)
    requires Serving(s)
    ensures s.pump.rx.Shaped()
  {
  }

  lemma FrameCutOff(s: Served, wire: seq<byte>, base: seq<seq<byte>>)
    requires Serving(s) && HandedOn(s, base)
    ensures var u := s.(pump := Pump(Fresh(false), s.pump.segments + [Forwarded(wire)], true));
            Serving(u) && base + Frames(u.pump.segments) == u.held.tried + [wire]
  {
    FramesLast(s.pump.segments, Forwarded(wire));
    hide Frames;
  }

  lemma HandedHandsOn(s: Served, wire: seq<byte>, base: seq<seq<byte>>)
    requires Serving(s) && base + Frames(s.pump.segments) == s.held.tried + [wire]
    ensures HandedOn(Handed(s, wire), base)
  {
    Converses(s.held, wire);
    hide Frames, Converse;
  }

  lemma Converses(h: Held, wire: seq<byte>)
    requires h.Wired()
    ensures Relayed(h, wire).held.tried == h.tried + [wire]
  {
  }

  /** Of whatever a client sends, the frames and only the frames reach the shared connection, in order. */
  lemma {:induction false} ServeAllHandsOn(s: Served, d: seq<byte>, base: seq<seq<byte>>)
    requires Serving(s) && HandedOn(s, base)
    ensures HandedOn(ServeAll(s, d), base)
    decreases |d|
  {
    if d != [] && s.pump.running {
      ServeByteHandsOn(s, d[0], base);
      hide ServeByte, HandedOn;
      ServeAllHandsOn(ServeByte(s, d[0]), d[1..], base);
    }
  }

  lemma {:induction false} ServeChunksHandsOn(s: Served, chunks: seq<seq<byte>>, base: seq<seq<byte>>)
    requires Serving(s) && HandedOn(s, base)
    ensures HandedOn(ServeChunks(s, chunks), base)
    decreases |chunks|
  {
    if chunks != [] && chunks[0] != [] {
      ServeAllHandsOn(s, chunks[0], base);
      hide ServeAll, HandedOn;
      ServeChunksHandsOn(ServeAll(s, chunks[0]), chunks[1..], base);
    }
  }

  /** Nothing outstanding upstream, no panic to come, and a client that can be written to. */
  ghost predicate Smooth(s: Served) {
    Serving(s) && Ready(s.held) && Calm(s.held.world) && forall b :: b in s.writes ==> b
  }

  lemma RelayedCalm(h: Held, wire: seq<byte>)
    requires Ready(h) && Calm(h.world)
    ensures Calm(Relayed(h, wire).held.world) && !Relayed(h, wire).outcome.Unwound?
  {
    ConverseCalm(h, wire);
    hide Converse, Ready, Calm;
  }

  lemma LaterWritable(writes: seq<bool>)
    requires forall b :: b in writes ==> b
    ensures Writable(writes) && forall b :: b in Later(writes) ==> b
  {
    if writes != [] {
      assert writes[0] in writes && forall b :: b in writes[1..] ==> b in writes;
    }
  }

  lemma HandedSmooth(s: Served, wire: seq<byte>)
    requires Smooth(s)
    ensures Smooth(Handed(s, wire)) && Handed(s, wire).pump == s.pump
  {
    RelayedKeeps(s.held, wire);
    RelayedCalm(s.held, wire);
    LaterWritable(s.writes);
    hide Relayed, Ready, Calm, Writable, Later, Paired, Grew, SameOrNewer;
  }

  lemma ServeByteSmooth(s: Served, c: byte)
    requires Smooth(s) && s.pump.running && Take(s.pump, c).running
    ensures Smooth(ServeByte(s, c)) && ServeByte(s, c).pump == Take(s.pump, c)
  {
    var q := s.(pump := Take(s.pump, c));
    assert Smooth(q);
    hide Take, Step, Handed, Smooth;
    if Step(s.pump.rx, c).verdict.Done? {
      HandedSmooth(q, Step(s.pump.rx, c).rx.raw);
    }
  }

  lemma {:induction false} ServeAllSmooth(s: Served, d: seq<byte>)
    requires Smooth(s) && TakeAll(s.pump, d).running
    ensures Smooth(ServeAll(s, d)) && ServeAll(s, d).pump == TakeAll(s.pump, d)
    decreases |d|
  {
    if d != [] && s.pump.running {
      ServeByteSmooth(s, d[0]);
      hide Take, ServeByte, Smooth;
      ServeAllSmooth(ServeByte(s, d[0]), d[1..]);
    }
  }

  lemma {:induction false} ServeChunksSmooth(s: Served, chunks: seq<seq<byte>>)
    requires Smooth(s) && TakeChunks(s.pump, chunks).running && forall k :: k in chunks ==> k != []
    ensures Smooth(ServeChunks(s, chunks)) && ServeChunks(s, chunks).pump == TakeChunks(s.pump, chunks)
    decreases |chunks|
  {
    if chunks == [] {
    } else {
      assert chunks[0] in chunks && forall k :: k in chunks[1..] ==> k in chunks;
      if !TakeAll(s.pump, chunks[0]).running {
        EndedTakes(TakeAll(s.pump, chunks[0]), chunks[1..]);
      }
      ServeAllSmooth(s, chunks[0]);
      hide TakeAll, ServeAll, Smooth;
      ServeChunksSmooth(ServeAll(s, chunks[0]), chunks[1..]);
    }
  }

  lemma {:induction false} EndedTakes(p: Pump, chunks: seq<seq<byte>>)
    requires p.rx.Shaped() && !p.running
    ensures TakeChunks(p, chunks) == p
    decreases |chunks|
  {
    if chunks == [] {
    } else {
      EndedTakes(p, chunks[1..]);
    }
  }

  /**
   * For every stream of frames, damaged frames and junk, cut into reads in any way, a client task hands
   * exactly the frames to the shared connection, byte for byte and in order, whatever each exchange
   * comes to, as long as the client can be written to and nothing sent declares a length of 3.
   */
  lemma ServesEveryFrame(h: Held, segments: seq<Segment>, chunks: seq<seq<byte>>, writable: seq<bool>)
    requires Ready(h) && Calm(h.world) && forall b :: b in writable ==> b
    requires forall g :: g in segments ==> Genuine(g) && !DeclaresThree(g.bytes)
    requires Concat(chunks) == Text(segments) && forall k :: k in chunks ==> k != []
    ensures var t := ServeChunks(Served(START_UP, h, [], writable), chunks);
            t.pump.running && Pending(t.pump) == [] && t.held.tried == h.tried + Frames(segments) && Ready(t.held)
  {
    var s := Served(START_UP, h, [], writable);
    ForwardsExactly(segments, chunks);
    assert Smooth(s);
    assert Frames(START_UP.segments) == [] && h.tried + [] == h.tried;
    ServeChunksHandsOn(s, chunks, h.tried);
    hide ServeChunks, TakeChunks, Frames, Genuine, Text, Concat, DeclaresThree;
    ServeChunksSmooth(s, chunks);
  }

  /** A task that has ended takes nothing more. */
  lemma {:induction false} EndedServes(s: Served, chunks: seq<seq<byte>>)
    requires Serving(s) && !s.pump.running
    ensures ServeChunks(s, chunks) == s
    decreases |chunks|
  {
    if chunks != [] && chunks[0] != [] {
      EndedServes(s, chunks[1..]);
    }
  }

  /** A complete frame: the exchange, and the write of the answer. */
  method Forward(upstream: Line, wire: seq<byte>, writes: seq<bool>, ghost s: Served)
    returns (alive: bool, answer: seq<seq<byte>>, rest: seq<bool>)
    requires Serving(s) && s.held == upstream.State() && s.writes == writes
    modifies upstream
    ensures Handed(s, wire)
         == Served(if alive then s.pump else Ended(s.pump), upstream.State(), s.delivered + answer, rest)
  {
    var outcome := Exchange(upstream, wire);
    match outcome
    case Failure(_) =>
      assert s.delivered + [] == s.delivered;
      return true, [], writes;
    case Unwound =>
      assert s.delivered + [] == s.delivered;
      return false, [], writes;
    case Answer(rx) =>
      if Writable(writes) {
        return true, [rx.raw], Later(writes);
      }
      assert s.delivered + [] == s.delivered;
      return false, [], writes;
  }

  /** One byte, by the verdict on it. */
  lemma ServesBy(s: Served, c: byte)
    requires Serving(s) && s.pump.running
    ensures var t, p, k := Step(s.pump.rx, c), s.pump, s.pump.segments;
            ServeByte(s, c) ==
            match t.verdict
            case More =>
              s.(pump := Pump(t.rx, k + (if p.rx.buffer == [] && c != START then [Junk([c])] else []), true))
            case Done => Handed(s.(pump := Pump(Fresh(false), k + [Forwarded(t.rx.raw)], true)), t.rx.raw)
            case Failed(_) => s.(pump := Pump(Fresh(false), k + [Dropped(t.rx.raw)], true))
            case Panicked => s.(pump := Pump(t.rx, k + [Fatal(t.rx.raw)], false))
  {
    hide Step, Handed;
  }

  /** One byte from downstream: the body of the inner loop. */
  method ServeOne(upstream: Line, parser: ReceiveFrame, c: byte, segments: seq<Segment>, writes: seq<bool>,
                  ghost s: Served)
    returns (alive: bool, rx: ReceiveFrame, cut: seq<Segment>, answer: seq<seq<byte>>, rest: seq<bool>)
    requires Serving(s) && !parser.complete && parser.State() == s.pump.rx
    requires s.pump.running && s.pump.segments == segments && s.held == upstream.State() && s.writes == writes
    modifies upstream, parser
    ensures (rx == parser || fresh(rx)) && (alive ==> !rx.complete)
    ensures ServeByte(s, c)
         == Served(Pump(rx.State(), cut, alive), upstream.State(), s.delivered + answer, rest)
  {
    ghost var t := Step(parser.State(), c);
    StepCompletes(parser.State(), c);
    FeedOne(parser.State(), c);
    ServesBy(s, c);
    rx, alive, answer, rest := parser, true, [], writes;
    assert s.delivered + [] == s.delivered;
    var synced := parser.buffer != [] || c == START;
    hide Step, Feed, Take, ServeByte, Handed;
    var r := rx.Consume([c]);
    if r.Panic? {
      alive, cut := false, segments + [Fatal(rx.raw)];
    } else if !r.Consumed? {
      cut := segments + [Dropped(rx.raw)];
      rx := new ReceiveFrame(false);
    } else if rx.complete {
      cut := segments + [Forwarded(rx.raw)];
      alive, answer, rest := Forward(upstream, rx.raw, writes, s.(pump := Pump(Fresh(false), cut, true)));
      rx := new ReceiveFrame(false);
    } else {
      cut := segments + (if synced then [] else [Junk([c])]);
    }
  }

  lemma ServeAllNext(s: Served, d: seq<byte>)
    requires Serving(s)
    ensures ServeAll(s, d) == if d == [] || !s.pump.running then s else ServeAll(ServeByte(s, d[0]), d[1..])
  {
  }

  lemma ServeChunksNext(s: Served, chunks: seq<seq<byte>>)
    requires Serving(s)
    ensures ServeChunks(s, chunks)
         == if chunks == [] || chunks[0] == [] then s else ServeChunks(ServeAll(s, chunks[0]), chunks[1..])
  {
  }

  /** One read's worth of bytes: the inner loop. */
  method ServeChunk(upstream: Line, parser: ReceiveFrame, buf: seq<byte>, segments: seq<Segment>,
                    writes: seq<bool>, ghost s: Served)
    returns (alive: bool, rx: ReceiveFrame, cut: seq<Segment>, answers: seq<seq<byte>>, rest: seq<bool>)
    requires Serving(s) && !parser.complete && parser.State() == s.pump.rx
    requires s.pump.running && s.pump.segments == segments && s.held == upstream.State() && s.writes == writes
    modifies upstream, parser
    ensures (rx == parser || fresh(rx)) && (alive ==> !rx.complete)
    ensures ServeAll(s, buf)
         == Served(Pump(rx.State(), cut, alive), upstream.State(), s.delivered + answers, rest)
  {
    hide *;
    alive, rx, cut, answers, rest := true, parser, segments, [], writes;
    ghost var now := s;
    assert s.delivered + [] == s.delivered;
    var i := 0;
    while i < |buf| && alive
      invariant i <= |buf|
      invariant Serving(now) && now == Served(Pump(rx.State(), cut, alive), upstream.State(), s.delivered + answers, rest)
      invariant (rx == parser || fresh(rx)) && (alive ==> !rx.complete)
      invariant ServeAll(s, buf) == ServeAll(now, buf[i..])
    {
      var c := buf[i];
      ServeAllNext(now, buf[i..]);
      assert buf[i..][1..] == buf[i + 1..];
      i := i + 1;
      var answer;
      ghost var next := ServeByte(now, c);
      alive, rx, cut, answer, rest := ServeOne(upstream, rx, c, cut, rest, now);
      assert s.delivered + (answers + answer) == now.delivered + answer;
      answers := answers + answer;
      now := next;
    }
    ServeAllNext(now, buf[i..]);
  }

  /**
   * A downstream client's task: it reads until the client closes, a write fails or a
   * parser panics. `session` is what it has made of the bytes it took.
   */
  method ServeClient(upstream: Line, chunks: seq<seq<byte>>, writable: seq<bool>)
    returns (session: Pump, delivered: seq<seq<byte>>, writes: seq<bool>)
    requires upstream.State().Wired()
    modifies upstream
    ensures Served(session, upstream.State(), delivered, writes)
         == ServeChunks(Served(START_UP, old(upstream.State()), [], writable), chunks)
  {
    var rx := new ReceiveFrame(false);
    var segments: seq<Segment> := [];
    delivered, writes := [], writable;
    ghost var start := Served(START_UP, upstream.State(), [], writable);
    ghost var s := start;
    var k := 0;
    var alive := true;
    while k < |chunks| && chunks[k] != [] && alive
      invariant k <= |chunks|
      invariant Serving(s) && s == Served(Pump(rx.State(), segments, alive), upstream.State(), delivered, writes)
      invariant fresh(rx) && (alive ==> !rx.complete)
      invariant ServeChunks(start, chunks) == ServeChunks(s, chunks[k..])
    {
      var buf := chunks[k];
      k := k + 1;
      assert chunks[k - 1..][1..] == chunks[k..];
      ServeChunksNext(s, chunks[k - 1..]);
      var answers;
      ghost var next := ServeAll(s, buf);
      alive, rx, segments, answers, writes := ServeChunk(upstream, rx, buf, segments, writes, s);
      delivered := delivered + answers;
      s := next;
    }
    if !alive {
      EndedServes(s, chunks[k..]);
    } else {
      ServeChunksNext(s, chunks[k..]);
    }
    session := Pump(rx.State(), segments, alive);
  }
}
