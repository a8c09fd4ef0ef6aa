/** Values through frames and back, and streams with noise and damage through a whole session. */
module EndToEnd {
  import opened Bytes
  import opened Frame
  import opened Receive
  import opened ParserTheory
  import opened FrameTheory
  import opened ErrorDetection
  import opened Session
  import opened Network
  import opened Exchanges
  import opened Multiplexer
  import Proxy
  import opened Codec
  import opened Clients
  import opened LateAnswers

  // Values

  /**
   * A value encoded for a wire type, put in a frame and read back, behind any junk and before any
   * other payload bytes, is decoded to itself exactly where the codec alone would do so.
   */
  lemma ValueThroughFrame(junk: seq<byte>, command: Command, id: u32, t: DataType, v: DataValue, casts: Casts,
                          trailing: seq<byte>, ignoreCrc: bool)
    requires START !in junk && command != Extension && command != Command.Read
    requires EncodeFor(t, v, casts).Ok? && Fits(command, EncodeFor(t, v, casts).value + trailing)
    ensures var payload, n := EncodeFor(t, v, casts).value + trailing, Normalized(t, v, casts).value;
            var wire := Printed(command, id, payload, 0, Standard);
            var f := Feed(Fresh(ignoreCrc), junk + wire);
            && f.verdict.Done? && f.rx.crcOk && f.rx.id == id && f.used == |junk| + |wire|
            && (DecodeValue(t, f.rx.data) == Ok(n) <==> t != Enum && (t == String ==> Terminated(n.text, trailing)))
  {
    var payload := EncodeFor(t, v, casts).value + trailing;
    RoundTripAfterJunk(junk, command, id, payload, 0, ignoreCrc);
    Codec.RoundTrip(t, v, casts, trailing);
    hide Feed, Printed, DecodeValue, EncodeFor, Normalized;
  }

  lemma {:induction false} EscapedLength(bs: seq<byte>)
    ensures |Escaped(bs)| <= 2 * |bs|
  {
    if bs == [] {
    } else {
      EscapedLength(bs[..|bs| - 1]);
    }
  }

  /** A response with a value of a fixed width fits into one read of a client, and answers with that value. */
  lemma ResponseAnswers(id: u32, t: DataType, v: DataValue)
    requires Holds(t, v) && t != Enum && t != String
    ensures AnswersWith(Printed(Response, id, EncodeValue(v), 0, Standard), t, v)
  {
    var payload := EncodeValue(v);
    FixedWidth(t, v, []);
    assert payload + [] == payload && 1 <= |payload| <= 4;
    FrameTheory.RoundTrip(Response, id, payload, 0, false);
    EscapedLength(Sealed(Core(Response, 4 + |payload|, Content(Response, id, payload, 0, Standard))));
    hide Feed, Escaped, DecodeValue, EncodeValue;
  }

  /**
   * So for every fixed-width value that is a number, the sync client can report its verified write
   * as confirmed by a read-back that the device never answered.
   */
  lemma SyncConfirmsUnanswered(obj: ObjectInfo, value: DataValue, casts: Casts, retries: nat)
    requires Holds(obj.requestType, value) && obj.responseType == obj.requestType
    requires obj.requestType != Enum && obj.requestType != String && ValueEq(value, value)
    ensures EncodeFor(obj.requestType, value, casts).Ok?
    ensures var wire := WriteWire(obj, EncodeFor(obj.requestType, value, casts).value);
            var answer := Printed(Response, obj.id, EncodeValue(value), 0, Standard);
            var r := WriteVerified(Sync, Held(None, World(Net([], []), SILENCE + Belated(answer)), []), obj, value, casts,
                                   retries);
            r.call == Value(value) && r.held.world.net.log == [Request(wire, 0, Some(answer)), Request(ReadWire(obj), 0, None)]
  {
    NormalizedHolds(obj.requestType, value, casts);
    ResponseAnswers(obj.id, obj.responseType, value);
    hide Printed, AnswersWith, Belated, SILENCE, EncodeValue, ValueEq, WriteWire, ReadWire, Clients.WriteVerified;
    SyncAcceptsLate(obj, value, casts, retries, Printed(Response, obj.id, EncodeValue(value), 0, Standard), value);
  }

  // Streams

  /** Something a client sends: noise, a frame, or a frame that arrives damaged behind its header. */
  datatype Piece =
    | Noise(junk: seq<byte>)
    | Whole(command: Command, id: u32, payload: seq<byte>)
    | Damaged(body: seq<byte>, command: Command, length: nat)

  predicate Plausible(p: Piece) {
    match p
    case Noise(junk) => START !in junk
    case Whole(command, _, payload) => command != Extension && Fits(command, payload)
    case Damaged(body, command, length) => Arrived(body, command, length) && !Intact(body)
  }

  function SegmentOf(p: Piece): Segment {
    match p
    case Noise(junk) => Junk(junk)
    case Whole(command, id, payload) => Forwarded(Printed(command, id, payload, 0, Standard))
    case Damaged(body, _, _) => Segment.Dropped([START] + Escaped(body))
  }

  lemma PieceGenuine(p: Piece)
    requires Plausible(p)
    ensures Genuine(SegmentOf(p)) && !SegmentOf(p).Fatal? && !DeclaresThree(SegmentOf(p).bytes)
  {
    hide Feed, Escaped, DeclaresThree;
    match p {
      case Noise(_) =>
      case Whole(command, id, payload) => FrameTheory.RoundTrip(command, id, payload, 0, false);
      case Damaged(body, command, length) => DecidedByChecksum(body, command, length);
    }
    FatalExactly(SegmentOf(p));
  }

  function SegmentsOf(pieces: seq<Piece>): seq<Segment> {
    if pieces == [] then [] else SegmentsOf(pieces[..|pieces| - 1]) + [SegmentOf(pieces[|pieces| - 1])]
  }

  /** The bytes of the stream, and the frames in it that arrive whole. */
  function Wire(pieces: seq<Piece>): seq<byte> {
    Text(SegmentsOf(pieces))
  }

  function WholeFrames(pieces: seq<Piece>): seq<seq<byte>> {
    if pieces == [] then []
    else
      var p := pieces[|pieces| - 1];
      WholeFrames(pieces[..|pieces| - 1])
      + if p.Whole? then [Printed(p.command, p.id, p.payload, 0, Standard)] else []
  }

  lemma {:induction false} SegmentsGenuine(pieces: seq<Piece>)
    requires forall p :: p in pieces ==> Plausible(p)
    ensures forall g :: g in SegmentsOf(pieces) ==> Genuine(g) && !g.Fatal? && !DeclaresThree(g.bytes)
    ensures Frames(SegmentsOf(pieces)) == WholeFrames(pieces)
  {
    hide Genuine, Plausible, Printed, DeclaresThree;
    if pieces == [] {
    } else {
      SegmentsGenuine(pieces[..|pieces| - 1]);
      PieceGenuine(pieces[|pieces| - 1]);
      FramesLast(SegmentsOf(pieces[..|pieces| - 1]), SegmentOf(pieces[|pieces| - 1]));
    }
  }

  /**
   * For every list of frames, with noise between them and some of them damaged, cut into reads in
   * any way: the client's task takes exactly the undamaged frames to the shared connection, byte
   * for byte and in order, whatever the exchanges come to, and is then ready for the next one.
   */
  lemma Recovery(h: Held, pieces: seq<Piece>, chunks: seq<seq<byte>>, writable: seq<bool>)
    requires Ready(h) && Calm(h.world) && forall b :: b in writable ==> b
    requires forall p :: p in pieces ==> Plausible(p)
    requires Concat(chunks) == Wire(pieces) && forall k :: k in chunks ==> k != []
    ensures var t := ServeChunks(Served(START_UP, h, [], writable), chunks);
            t.pump.running && Pending(t.pump) == [] && t.held.tried == h.tried + WholeFrames(pieces)
  {
    hide Genuine, Plausible, Frames, ServeChunks, Text, Concat, Ready, Calm;
    SegmentsGenuine(pieces);
    ServesEveryFrame(h, SegmentsOf(pieces), chunks, writable);
  }

  /**
   * In every run of the proxy, when a client has sent such a stream, each request that reaches the
   * device for it is an undamaged frame of the stream: the one with the number on record.
   */
  lemma RequestsAreFrames(events: seq<Proxy.Event>, t: nat, pieces: seq<Piece>, n: nat)
    requires t < |Proxy.Run(events).tasks| && Proxy.Run(events).tasks[t].taken == Wire(pieces)
    requires forall p :: p in pieces ==> Plausible(p)
    requires n < |Proxy.Run(events).net.log| && |Proxy.Run(events).senders| == |Proxy.Run(events).net.log|
    requires Proxy.Run(events).senders[n].task == t
    ensures var s := Proxy.Run(events);
            && s.senders[n].frame < |WholeFrames(pieces)|
            && s.net.log[n].wire == WholeFrames(pieces)[s.senders[n].frame]
  {
    hide *;
    Proxy.SessionsApart(events, t);
    Proxy.RequestOnRecord(events, n);
    SegmentsGenuine(pieces);
    WireText(pieces);
    CutBack(SegmentsOf(pieces));
    FramesOfSingles(SegmentsOf(pieces));
  }

  lemma WireText(pieces: seq<Piece>)
    ensures Wire(pieces) == Text(SegmentsOf(pieces))
  {
  }

  /** A well-formed answer of the device is delivered to the client byte for byte. */
  lemma AnswerDeliveredWhole(events: seq<Proxy.Event>, t: nat, i: nat, command: Command, id: u32, payload: seq<byte>)
    requires t < |Proxy.Run(events).tasks| && i < |Proxy.Run(events).tasks[t].delivered|
    requires command != Extension && Fits(command, payload)
    ensures var s := Proxy.Run(events);
            var reply, wire := s.tasks[t].delivered[i].reply, Printed(command, id, payload, 0, Standard);
            && reply.request < |s.net.log|
            && (s.net.log[reply.request].answer == Some(wire) ==> reply.bytes == wire)
  {
    hide *;
    Proxy.RepliesPaired(events, t, i);
    FrameTheory.RoundTrip(command, id, payload, 0, false);
  }

  // Damage

  /** The body of a frame, before escaping. */
  function Body(command: Command, id: u32, payload: seq<byte>): seq<byte> {
    Sealed(Core(command, 4 + |payload|, Be(id, 4) + payload))
  }

  /** It is what a printed frame escapes. */
  lemma BodyPrinted(command: Command, id: u32, payload: seq<byte>)
    requires 4 + |payload| < Pow256(command.LengthWidth()) && (command == Command.Read ==> payload == [])
    ensures [START] + Escaped(Body(command, id, payload)) == Printed(command, id, payload, 0, Standard)
  {
    hide Escaped, Sealed, Core, Be, Printed, Pow256;
    FrameReprinted(command, id, payload, 0);
  }

  lemma BodyArrives(command: Command, id: u32, payload: seq<byte>)
    requires command != Extension && 4 + |payload| < Pow256(command.LengthWidth())
    ensures var body := Body(command, id, payload);
            |body| >= 2 && Arrived(body, command, 4 + |payload|) && Intact(body)
  {
    var core := Core(command, 4 + |payload|, Be(id, 4) + payload);
    CoreCut(command, 4 + |payload|, Be(id, 4) + payload);
    assert Sealed(core)[..|Sealed(core)| - 2] == core;
    hide Core, Be, Pow256;
  }

  /** The header of a body decides what it claims to be. */
  lemma SameHeader(sent: seq<byte>, got: seq<byte>, command: Command, length: nat)
    requires Arrived(sent, command, length) && |got| == |sent|
    requires got[..1 + command.LengthWidth()] == sent[..1 + command.LengthWidth()]
    ensures Arrived(got, command, length)
  {
    var w := command.LengthWidth();
    assert got[0] == got[..1 + w][0] && got[1..1 + w] == got[..1 + w][1..];
    assert sent[1..1 + w] == sent[..1 + w][1..];
  }

  /**
   * A frame whose bytes behind the header are changed in one or two neighbouring places, on one
   * side of the checksum's edge, is noticed: it is dropped at its last byte.
   */
  lemma DamageNoticed(command: Command, id: u32, payload: seq<byte>, got: seq<byte>, i: nat)
    requires command != Extension && 4 + |payload| < Pow256(command.LengthWidth())
    requires var sent := Body(command, id, payload);
             && |got| == |sent| && got != sent && 1 + command.LengthWidth() <= i <= |sent| - 2 && sent[..i] == got[..i]
             && (i == |sent| - 2 || (i + 2 <= |sent| - 2 && sent[i + 2..] == got[i + 2..]))
    ensures Plausible(Damaged(got, command, 4 + |payload|)) && Rejected(got)
  {
    hide *;
    var sent, w := Body(command, id, payload), command.LengthWidth();
    BodyArrives(command, id, payload);
    ShorterPrefix(sent, got, i, 1 + w);
    SameHeader(sent, got, command, 4 + |payload|);
    TwoBytesRejected(sent, got, command, 4 + |payload|, i);
    RejectedUnlessIntact(got, command, 4 + |payload|);
    DamagedPlausible(got, command, 4 + |payload|);
  }

  lemma ShorterPrefix(a: seq<byte>, b: seq<byte>, i: nat, k: nat)
    requires k <= i <= |a| && i <= |b| && a[..i] == b[..i]
    ensures a[..k] == b[..k]
  {
    assert a[..k] == a[..i][..k] && b[..k] == b[..i][..k];
  }

  lemma DamagedPlausible(got: seq<byte>, command: Command, length: nat)
    requires |got| >= 2 && Arrived(got, command, length) && !Intact(got)
    ensures Plausible(Damaged(got, command, length))
  {
  }
}
