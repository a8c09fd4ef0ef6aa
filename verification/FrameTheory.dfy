/**
 * Printer and parser: what `make_frame` prints, `consume` reads back, and when; what
 * `consume` accepts, `make_frame` would have printed.
 */
module FrameTheory {
  import opened Bytes
  import opened Crc
  import opened Frame
  import opened Receive
  import opened ParserTheory

  // A printed body, byte by byte

  /** A byte of the body, in wire form, is judged once, at its last wire byte. */
  predicate Taken(s: Rx, b: byte, f: Fed) {
    && f.used == |Esc(b)|
    && f.rx.buffer == s.buffer + [b]
    && f.verdict == Judge(s.ignoreCrcMismatch, s.buffer + [b])
  }

  lemma FeedPlain(s: Rx, b: byte)
    requires Live(s) && s.buffer != [] && (s.escaping || b != ESCAPE)
    ensures var f := Feed(s, [b]);
            f.used == 1 && f.rx.buffer == s.buffer + [b]
            && f.verdict == Judge(s.ignoreCrcMismatch, s.buffer + [b])
  {
    LiveShaped(s);
    StepPush(s, b);
    hide *;
    FeedOne(s, b);
  }

  /** The escape token is only noted. */
  lemma FeedEscapeToken(s: Rx)
    requires Live(s) && s.buffer != [] && !s.escaping
    ensures s.Shaped()
    ensures var f := Feed(s, [ESCAPE]);
            && f.verdict.More? && f.used == 1 && Live(f.rx) && f.rx.escaping && f.rx.buffer == s.buffer
            && f.rx.ignoreCrcMismatch == s.ignoreCrcMismatch
  {
    StepEscape(s);
    LiveShaped(s);
    FeedOne(s, ESCAPE);
    UnescapeNext(s.raw, ESCAPE);
    WaitingBytes(s);
    hide Live, Step, Feed;
  }

  lemma WaitingBytes(s: Rx)
    requires Live(s)
    ensures s.buffer == Unescape(s.raw).bytes && s.escaping == Unescape(s.raw).pending
  {
    hide Unescape, Judge;
  }

  lemma TakenWhole(s: Rx, b: byte, f: Fed)
    requires f.used == |Esc(b)| && f.rx.buffer == s.buffer + [b]
    requires f.verdict == Judge(s.ignoreCrcMismatch, s.buffer + [b])
    ensures Taken(s, b, f)
  {
  }

  lemma EscIs(b: byte)
    ensures Esc(b) == if b == START || b == ESCAPE then [ESCAPE] + [b] else [b]
  {
  }

  lemma FeedEsc(s: Rx, b: byte)
    requires Live(s) && s.buffer != [] && !s.escaping
    ensures Taken(s, b, Feed(s, Esc(b)))
  {
    hide *;
    EscIs(b);
    LiveShaped(s);
    if b == START || b == ESCAPE {
      FeedEscapeToken(s);
      FeedPlain(Feed(s, [ESCAPE]).rx, b);
      FeedAppend(s, [ESCAPE], [b]);
    } else {
      FeedPlain(s, b);
    }
    TakenWhole(s, b, Feed(s, Esc(b)));
  }

  /** None of the shorter forms of a body is decided. */
  predicate Undecided(ignoreCrc: bool, body: seq<byte>, n: nat)
    requires n <= |body|
  {
    forall j :: 0 <= j < n ==> Judge(ignoreCrc, [START] + body[..j]) == More
  }

  /** The whole body is fed, and the last byte of it is judged. */
  predicate FedWhole(ignoreCrc: bool, body: seq<byte>, f: Fed) {
    && f.used == 1 + |Escaped(body)|
    && f.rx.buffer == [START] + body
    && f.verdict == Judge(ignoreCrc, [START] + body)
  }

  lemma {:induction false} FeedBody(ignoreCrc: bool, body: seq<byte>)
    requires Undecided(ignoreCrc, body, |body|)
    ensures FedWhole(ignoreCrc, body, Feed(Fresh(ignoreCrc), [START] + Escaped(body)))
    decreases |body|
  {
    if body == [] {
      FreshLive(ignoreCrc);
      assert [START] + Escaped(body) == [START];
      assert [START] + body == [START];
      FeedOne(Fresh(ignoreCrc), START);
    } else {
      var init := body[..|body| - 1];
      forall j | 0 <= j < |init|
        ensures Judge(ignoreCrc, [START] + init[..j]) == More
      {
        assert init[..j] == body[..j];
      }
      FeedBody(ignoreCrc, init);
      FeedBodyLast(ignoreCrc, init, body[|body| - 1]);
      assert body == init + [body[|body| - 1]];
    }
  }

  lemma FeedBodyLast(ignoreCrc: bool, init: seq<byte>, last: byte)
    requires Judge(ignoreCrc, [START] + init) == More
    requires FedWhole(ignoreCrc, init, Feed(Fresh(ignoreCrc), [START] + Escaped(init)))
    ensures var body := init + [last];
            FedWhole(ignoreCrc, body, Feed(Fresh(ignoreCrc), [START] + Escaped(body)))
  {
    var start, wire := Fresh(ignoreCrc), [START] + Escaped(init);
    var f := Feed(start, wire);
    FreshLive(ignoreCrc);
    FeedReaches(start, wire);
    WholeWire(start, wire, f);
    UnescapeEscaped(init);
    FeedEsc(f.rx, last);
    FeedAppend(start, wire, Esc(last));
    EscapedLast(init, last);
    Associates([START], Escaped(init), Esc(last));
    Associates([START], init, [last]);
  }

  lemma EscapedLast(init: seq<byte>, last: byte)
    ensures Escaped(init + [last]) == Escaped(init) + Esc(last)
  {
    assert (init + [last])[..|init|] == init;
  }

  /** Fed a wire from its start token on, a parser keeps all of it. */
  lemma WholeWire(s: Rx, wire: seq<byte>, f: Fed)
    requires Live(s) && s.buffer == [] && wire != [] && wire[0] == START
    requires f.used == |wire| && Reached(s, wire, f)
    ensures f.rx.raw == wire
  {
    assert wire[..f.used] == wire;
    FirstIn(wire, |wire| - |f.rx.raw|);
  }

  /** The wire form of a body is fed whole and kept whole, and decided by its last byte. */
  lemma FeedWire(ignoreCrc: bool, body: seq<byte>)
    requires Undecided(ignoreCrc, body, |body|)
    ensures var wire := [START] + Escaped(body);
            var f := Feed(Fresh(ignoreCrc), wire);
            && f.verdict == Judge(ignoreCrc, [START] + body)
            && f.used == |wire| && f.rx.raw == wire && f.rx.buffer == [START] + body
            && (f.verdict.Done? ==> Closed(f.rx))
  {
    var wire := [START] + Escaped(body);
    FeedBody(ignoreCrc, body);
    FreshLive(ignoreCrc);
    FeedReaches(Fresh(ignoreCrc), wire);
    hide Live, Feed, Judge, Closed, Escaped;
    WholeWire(Fresh(ignoreCrc), wire, Feed(Fresh(ignoreCrc), wire));
  }

  // Headers of printed frames

  /** A body whose length field says `length`: command, length field, then anything. */
  predicate Declares(body: seq<byte>, command: Command, length: nat) {
    && command != Extension
    && |body| >= 1 + command.LengthWidth()
    && body[0] == command.Byte()
    && body[1..1 + command.LengthWidth()] == Be(length, command.LengthWidth())
    && length < Pow256(command.LengthWidth())
  }

  lemma LengthRead(body: seq<byte>, command: Command, length: nat)
    requires Declares(body, command, length) && |body| >= 6 + command.LengthWidth() - 1
    ensures DeclaredLength(command, [START] + body) == length
  {
    ByteWidths();
    var b := [START] + body;
    if command.IsLong() {
      BeTwo(length);
      assert b[2] == body[1..3][0] && b[3] == body[1..3][1];
    } else {
      BeOne(length);
      assert b[2] == body[1..2][0];
    }
  }

  lemma HeaderOf(body: seq<byte>, command: Command, length: nat)
    requires Declares(body, command, length)
    ensures CommandOf([START] + body) == Some(command)
    ensures HeaderEnd([START] + body) == 6 + command.LengthWidth()
    ensures |body| >= 5 + command.LengthWidth() ==>
              Headed([START] + body) && FrameEnd([START] + body) == 4 + command.LengthWidth() + length
  {
    CommandBytes(body[0], command);
    if |body| >= 5 + command.LengthWidth() {
      LengthRead(body, command, length);
    }
  }

  /** Such a body is decided exactly at its declared end, not before. */
  lemma DecidedAtEnd(ignoreCrc: bool, body: seq<byte>, command: Command, length: nat)
    requires Declares(body, command, length) && |body| == 3 + command.LengthWidth() + length && length >= 3
    ensures Undecided(ignoreCrc, body, |body|)
  {
    forall j | 0 <= j < |body|
      ensures Judge(ignoreCrc, [START] + body[..j]) == More
    {
      if j >= 1 + command.LengthWidth() {
        assert body[..j][1..1 + command.LengthWidth()] == body[1..1 + command.LengthWidth()];
        HeaderOf(body[..j], command, length);
      } else if j >= 1 {
        CommandBytes(body[0], command);
        assert ([START] + body[..j])[1] == body[0];
      }
    }
  }

  /** Every body that declares a length of 3 makes the parser panic, on the byte behind its header. */
  lemma ThreePanics(ignoreCrc: bool, body: seq<byte>, command: Command)
    requires Declares(body, command, 3) && |body| == 6 + command.LengthWidth()
    ensures var wire := [START] + Escaped(body);
            var f := Feed(Fresh(ignoreCrc), wire);
            f.verdict == Panicked && f.used == |wire| && DeclaresThree(wire)
  {
    DecidedAtEnd(ignoreCrc, body, command, 3);
    FeedWire(ignoreCrc, body);
    HeaderOf(body, command, 3);
    PanicsExactly(ignoreCrc, [START] + Escaped(body));
    hide Feed, Escaped, DeclaresThree;
  }

  // Round trip

  /** The payload of a frame, and the part of the content that the parser takes for its id. */
  lemma CoreCut(command: Command, length: nat, content: seq<byte>)
    requires command != Extension && length < Pow256(command.LengthWidth()) && |content| >= 4
    ensures var core, w := Core(command, length, content), command.LengthWidth();
            var body := Sealed(core);
            && Declares(body, command, length)
            && |body| == 3 + w + |content|
            && ([START] + body)[1..|body| - 1] == core
            && ([START] + body)[6 + w..|body| - 1] == content[4..]
            && ([START] + body)[2 + w..6 + w] == content[..4]
            && FromBe2(body[|body| - 2], body[|body| - 1]) == Crc16(core)
  {
    var core, w := Core(command, length, content), command.LengthWidth();
    var body := Sealed(core);
    var b := [START] + body;
    BeTwo(Crc16(core));
    assert body[..|core|] == core;
    assert b[1..|body| - 1] == core;
    assert core[1..1 + w] == Be(length, w) && core[1 + w..] == content;
    assert body[1..1 + w] == core[1..1 + w];
    assert b[2 + w..|body| - 1] == content;
  }

  /** What a parser holds after accepting a frame. */
  predicate Accepts(f: Fed, command: Command, id: u32, data: seq<byte>) {
    f.verdict.Done? && f.rx.complete && f.rx.crcOk
    && f.rx.command == Some(command) && f.rx.id == id && f.rx.data == data
  }

  lemma JudgedDone(ignoreCrc: bool, command: Command, content: seq<byte>)
    requires command != Extension && 4 <= |content| < Pow256(command.LengthWidth())
    ensures var b := [START] + Sealed(Core(command, |content|, content));
            Judge(ignoreCrc, b) == Done && CommandOf(b) == Some(command) && HeaderEnd(b) == 6 + command.LengthWidth()
  {
    var body := Sealed(Core(command, |content|, content));
    CoreCut(command, |content|, content);
    HeaderOf(body, command, |content|);
  }

  lemma AcceptedFields(ignoreCrc: bool, command: Command, content: seq<byte>, f: Fed)
    requires command != Extension && 4 <= |content| < Pow256(command.LengthWidth())
    requires f.verdict.Done? && Closed(f.rx)
    requires f.rx.buffer == [START] + Sealed(Core(command, |content|, content))
    ensures FromBe(content[..4]) < 0x1_0000_0000
    ensures Accepts(f, command, FromBe(content[..4]), content[4..])
  {
    ByteWidths();
    hide Closed, Judge, Sealed, Core, Unescape, CommandOf, HeaderEnd, Headed, FrameEnd, Crc16, FromBe, FromBe2;
    CoreCut(command, |content|, content);
    JudgedDone(ignoreCrc, command, content);
    ClosedFields(f.rx);
  }

  lemma ContentRead(ignoreCrc: bool, command: Command, content: seq<byte>)
    requires command != Extension && 4 <= |content| < Pow256(command.LengthWidth())
    ensures FromBe(content[..4]) < 0x1_0000_0000
    ensures var wire := [START] + Escaped(Sealed(Core(command, |content|, content)));
            var f := Feed(Fresh(ignoreCrc), wire);
            && Accepts(f, command, FromBe(content[..4]), content[4..])
            && f.used == |wire| && f.rx.raw == wire
  {
    hide *;
    var body := Sealed(Core(command, |content|, content));
    CoreCut(command, |content|, content);
    DecidedAtEnd(ignoreCrc, body, command, |content|);
    FeedWire(ignoreCrc, body);
    JudgedDone(ignoreCrc, command, content);
    AcceptedFields(ignoreCrc, command, content, Feed(Fresh(ignoreCrc), [START] + Escaped(body)));
  }

  /** Only the low bytes of a length are printed. */
  lemma BeLow(n: nat, k: nat)
    ensures Be(n, k) == Be(n % Pow256(k), k)
  {
    FromBeBe(n, k);
    BeFromBe(Be(n, k));
  }

  /** The length of the payload fits its length field, and the field says what the frame holds. */
  predicate Fits(command: Command, payload: seq<byte>) {
    if command == Read then |payload| % 0x100 == 0
    else if command.IsLong() then |payload| <= 65531
    else |payload| <= 251
  }

  /** The length field of a frame, as the parser will read it. */
  function PrintedLength(command: Command, payload: seq<byte>, frameType: FrameType): nat {
    (frameType.Overhead() + |payload|) % Pow256(command.LengthWidth())
  }

  lemma PrintedBody(command: Command, id: u32, payload: seq<byte>, address: u32, frameType: FrameType)
    ensures Printed(command, id, payload, address, frameType)
         == [START] + Escaped(Sealed(Core(command, PrintedLength(command, payload, frameType),
                                          Content(command, id, payload, address, frameType))))
  {
    BeLow(frameType.Overhead() + |payload|, command.LengthWidth());
  }

  /** `Fits` says exactly when the printed length is the length of what is printed after it. */
  lemma FitsExactly(command: Command, id: u32, payload: seq<byte>, address: u32)
    ensures Fits(command, payload)
        <==> PrintedLength(command, payload, Standard) == |Content(command, id, payload, address, Standard)|
  {
    ByteWidths();
    if command == Read {
      ReadLength(|payload|);
    } else if command.IsLong() {
      WrapFits(4 + |payload|, 0x1_0000);
    } else {
      WrapFits(4 + |payload|, 0x100);
    }
  }

  lemma ReadLength(n: nat)
    ensures (4 + n) % 0x100 == 4 <==> n % 0x100 == 0
  {
  }

  lemma WrapFits(n: nat, limit: nat)
    requires limit > 0
    ensures n % limit == n <==> n < limit
  {
    if n < limit {
      ModSmall(n, limit);
    }
  }

  /**
   * What `make_frame` prints is read back exactly when the payload fits: the parser then
   * completes on the last byte, not before, with the command, id and payload that went in
   * and the wire bytes as printed. When it does not fit, or the command is EXTENSION, the
   * parser does not complete on the last byte.
   */
  lemma RoundTrip(command: Command, id: u32, payload: seq<byte>, address: u32, ignoreCrc: bool)
    ensures var wire := Printed(command, id, payload, address, Standard);
            var f := Feed(Fresh(ignoreCrc), wire);
            && (f.verdict.Done? && f.used == |wire| <==> command != Extension && Fits(command, payload))
            && (command != Extension && Fits(command, payload) ==>
                  Accepts(f, command, id, Carried(command, payload)) && f.rx.raw == wire)
  {
    var content := Content(command, id, payload, address, Standard);
    var length := PrintedLength(command, payload, Standard);
    var wire := Printed(command, id, payload, address, Standard);
    PrintedBody(command, id, payload, address, Standard);
    FitsExactly(command, id, payload, address);
    if command != Extension && Fits(command, payload) {
      ContentCut(command, id, payload, address);
      assert |content| < Pow256(command.LengthWidth());
      ContentRead(ignoreCrc, command, content);
    } else if Feed(Fresh(ignoreCrc), wire).verdict.Done? && Feed(Fresh(ignoreCrc), wire).used == |wire| {
      ReadBackFits(ignoreCrc, command, length, content);
    }
  }

  lemma ContentCut(command: Command, id: u32, payload: seq<byte>, address: u32)
    ensures var content := Content(command, id, payload, address, Standard);
            FromBe(content[..4]) == id && content[4..] == Carried(command, payload)
  {
    var content := Content(command, id, payload, address, Standard);
    assert content[..4] == Be(id, 4);
    FromBeBe(id, 4);
    ByteWidths();
  }

  /** A wire read to its last byte held as much as its length field said. */
  lemma ReadBackFits(ignoreCrc: bool, command: Command, length: nat, content: seq<byte>)
    requires length < Pow256(command.LengthWidth()) && |content| >= 4
    requires var wire := [START] + Escaped(Sealed(Core(command, length, content)));
             var f := Feed(Fresh(ignoreCrc), wire);
             f.verdict.Done? && f.used == |wire|
    ensures command != Extension && length == |content|
  {
    var body := Sealed(Core(command, length, content));
    var wire := [START] + Escaped(body);
    var f := Feed(Fresh(ignoreCrc), wire);
    FreshLive(ignoreCrc);
    FeedReaches(Fresh(ignoreCrc), wire);
    WholeWire(Fresh(ignoreCrc), wire, f);
    UnescapeEscaped(body);
    assert f.rx.buffer == [START] + body;
    CommandBytes(body[0], command);
    CoreCut(command, length, content);
    HeaderOf(body, command, length);
  }

  /** No frame is the beginning of another one, and a frame determines what was printed. */
  lemma PrefixFree(c: Command, i: u32, p: seq<byte>, d: Command, j: u32, q: seq<byte>, address: u32)
    requires c != Extension && Fits(c, p) && d != Extension && Fits(d, q)
    ensures Printed(c, i, p, address, Standard) <= Printed(d, j, q, address, Standard) ==>
              c == d && i == j && Carried(c, p) == Carried(d, q)
  {
    hide *;
    var v, w := Printed(c, i, p, address, Standard), Printed(d, j, q, address, Standard);
    RoundTrip(c, i, p, address, false);
    RoundTrip(d, j, q, address, false);
    if v <= w {
      assert w == v + w[|v|..];
      FeedAppend(Fresh(false), v, w[|v|..]);
      SameAccepted(Feed(Fresh(false), v), c, i, Carried(c, p), d, j, Carried(d, q));
    }
  }

  lemma SameAccepted(f: Fed, c: Command, i: u32, p: seq<byte>, d: Command, j: u32, q: seq<byte>)
    requires Accepts(f, c, i, p) && Accepts(f, d, j, q)
    ensures c == d && i == j && p == q
  {
  }

  /** Junk without a start token before a frame changes nothing but the count of consumed bytes. */
  lemma RoundTripAfterJunk(junk: seq<byte>, command: Command, id: u32, payload: seq<byte>, address: u32,
                           ignoreCrc: bool)
    requires START !in junk && command != Extension && Fits(command, payload)
    ensures var wire := Printed(command, id, payload, address, Standard);
            var f := Feed(Fresh(ignoreCrc), junk + wire);
            && Accepts(f, command, id, Carried(command, payload))
            && f.used == |junk| + |wire| && f.rx.raw == wire
  {
    RoundTrip(command, id, payload, address, ignoreCrc);
    FeedAfterJunk(ignoreCrc, junk, Printed(command, id, payload, address, Standard));
  }

  /** A PLANT frame is read as a standard frame: its address as the id, its id as the first bytes of the data. */
  lemma PlantReadsAsStandard(command: Command, id: u32, payload: seq<byte>, address: u32, ignoreCrc: bool)
    requires command != Extension && command != Read && 8 + |payload| < Pow256(command.LengthWidth())
    ensures var wire := Printed(command, id, payload, address, Plant);
            var f := Feed(Fresh(ignoreCrc), wire);
            && Accepts(f, command, address, Be(id, 4) + payload)
            && f.used == |wire| && f.rx.raw == wire
  {
    PrintedBody(command, id, payload, address, Plant);
    ModSmall(8 + |payload|, Pow256(command.LengthWidth()));
    PlantContent(command, id, payload, address);
    hide *;
    ContentRead(ignoreCrc, command, Content(command, id, payload, address, Plant));
  }

  lemma PlantContent(command: Command, id: u32, payload: seq<byte>, address: u32)
    requires command != Read
    ensures var content := Content(command, id, payload, address, Plant);
            |content| == 8 + |payload| && FromBe(content[..4]) == address && content[4..] == Be(id, 4) + payload
    ensures PrintedLength(command, payload, Plant) == (8 + |payload|) % Pow256(command.LengthWidth())
  {
    var content := Content(command, id, payload, address, Plant);
    assert content[..4] == Be(address, 4) && content[4..] == Be(id, 4) + payload;
    FromBeBe(address, 4);
    ByteWidths();
  }

  // Soundness

  lemma LengthField(b: seq<byte>, command: Command)
    requires |b| >= 7 + (if command.IsLong() then 1 else 0)
    ensures var w := command.LengthWidth();
            Be(DeclaredLength(command, b), w) == b[2..2 + w] && DeclaredLength(command, b) < Pow256(w)
  {
    ByteWidths();
    if command.IsLong() {
      BeTwo(FromBe2(b[2], b[3]));
    } else {
      BeOne(b[2]);
    }
  }

  lemma IdField(b: seq<byte>, command: Command)
    requires |b| >= 7 + (if command.IsLong() then 1 else 0)
    ensures var w := command.LengthWidth();
            Be(DeclaredId(command, b), 4) == b[2 + w..6 + w]
  {
    var w := command.LengthWidth();
    BeFromBe(b[2 + w..6 + w]);
  }

  lemma Regrouped(b: seq<byte>, w: nat)
    requires |b| >= 8 + w
    ensures var n := |b|;
            b == [b[0]] + (([b[1]] + b[2..2 + w] + (b[2 + w..6 + w] + b[6 + w..n - 2])) + [b[n - 2], b[n - 1]])
    ensures b[1..|b| - 2] == [b[1]] + b[2..2 + w] + (b[2 + w..6 + w] + b[6 + w..|b| - 2])
  {
  }

  /** The parts of an accepted buffer: what the parser checked is what `make_frame` would write. */
  lemma CoreRebuilt(b: seq<byte>, command: Command)
    requires |b| >= 8 + command.LengthWidth() && CommandOf(b) == Some(command) && !IsPlantByte(b[1])
    requires |b| == FrameEnd(b)
    requires FromBe2(b[|b| - 2], b[|b| - 1]) == Crc16(b[1..|b| - 2])
    ensures var w := command.LengthWidth();
            var data, id := b[6 + w..|b| - 2], DeclaredId(command, b);
            4 + |data| < Pow256(w) && b == [b[0]] + Sealed(Core(command, 4 + |data|, Be(id, 4) + data))
  {
    var n, w := |b|, command.LengthWidth();
    CommandBytes(b[1], command);
    assert b[1] == command.Byte();
    assert DeclaredLength(command, b) == n - 4 - w;
    LengthField(b, command);
    IdField(b, command);
    BeFromBe2(b[n - 2], b[n - 1]);
    hide *;
    Joined(b, command, n - 4 - w, DeclaredId(command, b));
  }

  lemma Joined(b: seq<byte>, command: Command, length: nat, id: u32)
    requires |b| >= 8 + command.LengthWidth() && b[1] == command.Byte()
    requires Be(length, command.LengthWidth()) == b[2..2 + command.LengthWidth()]
    requires Be(id, 4) == b[2 + command.LengthWidth()..6 + command.LengthWidth()]
    requires Be(Crc16(b[1..|b| - 2]), 2) == [b[|b| - 2], b[|b| - 1]]
    ensures b == [b[0]] + Sealed(Core(command, length, Be(id, 4) + b[6 + command.LengthWidth()..|b| - 2]))
  {
    hide Crc16, Be;
    Regrouped(b, command.LengthWidth());
    assert Core(command, length, Be(id, 4) + b[6 + command.LengthWidth()..|b| - 2]) == b[1..|b| - 2];
  }

  /**
   * Whatever bytes are fed: if the parser completes with a correct checksum on a command byte
   * without the plant bit, its buffer is start token, command, length, id, data and checksum
   * of what lies between.
   */
  lemma AcceptedIsFrame(ignoreCrc: bool, d: seq<byte>)
    requires var f := Feed(Fresh(ignoreCrc), d);
             f.verdict.Done? && f.rx.crcOk && |f.rx.buffer| >= 2 && !IsPlantByte(f.rx.buffer[1])
    ensures var rx := Feed(Fresh(ignoreCrc), d).rx;
            && rx.command.Some? && rx.command.value != Extension
            && 4 + |rx.data| < Pow256(rx.command.value.LengthWidth())
            && rx.buffer == [START] + Sealed(Core(rx.command.value, 4 + |rx.data|, Be(rx.id, 4) + rx.data))
  {
    var rx := Feed(Fresh(ignoreCrc), d).rx;
    FreshLive(ignoreCrc);
    FeedReaches(Fresh(ignoreCrc), d);
    ClosedFields(rx);
    StartUnescaped(rx.raw);
    hide Closed, Live, Feed;
    CoreRebuilt(rx.buffer, rx.command.value);
  }

  /** A wire that escapes every special byte after the start token, and no other. */
  predicate Tight(wire: seq<byte>) {
    |wire| <= 1 ||
    var init, c := wire[..|wire| - 1], wire[|wire| - 1];
    Tight(init) && (if Unescape(init).pending then c == START || c == ESCAPE else c != START)
  }

  /** The wire form of a buffer, with an escape token that waits if there is one. */
  function Rewired(u: Unescaped): seq<byte>
    requires u.bytes != []
  {
    [START] + Escaped(u.bytes[1..]) + (if u.pending then [ESCAPE] else [])
  }

  lemma RewiredEscape(bytes: seq<byte>)
    requires bytes != []
    ensures Rewired(Unescaped(bytes, false)) + [ESCAPE] == Rewired(Unescaped(bytes, true))
  {
  }

  lemma RewiredSpecial(bytes: seq<byte>, c: byte)
    requires bytes != [] && (c == START || c == ESCAPE)
    ensures Rewired(Unescaped(bytes, true)) + [c] == Rewired(Unescaped(bytes + [c], false))
  {
    hide Escaped;
    var e := Escaped(bytes[1..]);
    EscapedLast(bytes[1..], c);
    assert (bytes + [c])[1..] == bytes[1..] + [c];
    Associates([START] + e, [ESCAPE], [c]);
    Associates([START], e, Esc(c));
    assert [ESCAPE] + [c] == Esc(c);
  }

  lemma RewiredPlain(bytes: seq<byte>, c: byte)
    requires bytes != [] && c != START && c != ESCAPE
    ensures Rewired(Unescaped(bytes, false)) + [c] == Rewired(Unescaped(bytes + [c], false))
  {
    hide Escaped;
    var e := Escaped(bytes[1..]);
    EscapedLast(bytes[1..], c);
    assert (bytes + [c])[1..] == bytes[1..] + [c];
    Associates([START], e, [c]);
  }

  lemma {:induction false} TightIsEscaped(wire: seq<byte>)
    requires wire != [] && wire[0] == START && Tight(wire)
    ensures Unescape(wire).bytes != [] && wire == Rewired(Unescape(wire))
    decreases |wire|
  {
    if |wire| == 1 {
      assert wire == [] + [START];
      UnescapeNext([], START);
      assert [START][1..] == [];
    } else {
      var init, c := wire[..|wire| - 1], wire[|wire| - 1];
      var u := Unescape(init);
      TightIsEscaped(init);
      UnescapeNext(init, c);
      assert wire == init + [c];
      assert if u.pending then c == START || c == ESCAPE else c != START;
      hide Tight, Rewired, Unescape;
      if u.pending {
        RewiredSpecial(u.bytes, c);
      } else if c == ESCAPE {
        RewiredEscape(u.bytes);
      } else {
        RewiredPlain(u.bytes, c);
      }
    }
  }

  lemma {:induction false} EscapedIsTight(bs: seq<byte>)
    ensures Tight([START] + Escaped(bs))
  {
    if bs == [] {
    } else {
      var init, b := bs[..|bs| - 1], bs[|bs| - 1];
      var wire := [START] + Escaped(init);
      EscapedIsTight(init);
      UnescapeEscaped(init);
      Associates([START], Escaped(init), Esc(b));
      assert [START] + Escaped(bs) == wire + Esc(b);
      if b == START || b == ESCAPE {
        UnescapeNext(wire, ESCAPE);
        TightNext(wire, ESCAPE);
        TightNext(wire + [ESCAPE], b);
        assert wire + [ESCAPE] + [b] == wire + Esc(b);
      } else {
        TightNext(wire, b);
      }
    }
  }

  lemma TightNext(wire: seq<byte>, c: byte)
    requires wire != [] && Tight(wire)
    requires if Unescape(wire).pending then c == START || c == ESCAPE else c != START
    ensures Tight(wire + [c])
  {
    assert (wire + [c])[..|wire|] == wire;
  }

  /**
   * Printing what was accepted gives a frame with the same fields, and the received wire
   * bytes themselves exactly when the sender escaped what had to be escaped and no more.
   */
  lemma Rebuilt(ignoreCrc: bool, d: seq<byte>, address: u32)
    requires var f := Feed(Fresh(ignoreCrc), d);
             f.verdict.Done? && f.rx.crcOk && |f.rx.buffer| >= 2 && !IsPlantByte(f.rx.buffer[1])
             && f.rx.command.Some? && (f.rx.command == Some(Read) ==> f.rx.data == [])
    ensures var rx := Feed(Fresh(ignoreCrc), d).rx;
            var wire := Printed(rx.command.value, rx.id, rx.data, address, Standard);
            && Accepts(Feed(Fresh(ignoreCrc), wire), rx.command.value, rx.id, rx.data)
            && (wire == rx.raw <==> Tight(rx.raw))
  {
    hide *;
    var rx := Feed(Fresh(ignoreCrc), d).rx;
    var command := rx.command.value;
    AcceptedRaw(ignoreCrc, d);
    AcceptedIsFrame(ignoreCrc, d);
    FrameReprinted(command, rx.id, rx.data, address);
    RoundTrip(command, rx.id, rx.data, address, ignoreCrc);
    RawIsTight(rx.raw, Sealed(Core(command, 4 + |rx.data|, Be(rx.id, 4) + rx.data)));
  }

  lemma AcceptedRaw(ignoreCrc: bool, d: seq<byte>)
    requires Feed(Fresh(ignoreCrc), d).verdict.Done?
    ensures var rx := Feed(Fresh(ignoreCrc), d).rx;
            Closed(rx) && rx.raw != [] && rx.raw[0] == START && Unescape(rx.raw) == Unescaped(rx.buffer, false)
  {
    FreshLive(ignoreCrc);
    FeedReaches(Fresh(ignoreCrc), d);
    ClosedFields(Feed(Fresh(ignoreCrc), d).rx);
  }

  lemma FrameReprinted(command: Command, id: u32, data: seq<byte>, address: u32)
    requires 4 + |data| < Pow256(command.LengthWidth()) && (command == Read ==> data == [])
    ensures Fits(command, data) && Carried(command, data) == data
    ensures Printed(command, id, data, address, Standard)
         == [START] + Escaped(Sealed(Core(command, 4 + |data|, Be(id, 4) + data)))
  {
    ByteWidths();
    assert Content(command, id, data, address, Standard) == Be(id, 4) + data;
  }

  lemma RawIsTight(raw: seq<byte>, body: seq<byte>)
    requires raw != [] && raw[0] == START && Unescape(raw) == Unescaped([START] + body, false)
    ensures raw == [START] + Escaped(body) <==> Tight(raw)
  {
    EscapedIsTight(body);
    if Tight(raw) {
      TightIsEscaped(raw);
      assert ([START] + body)[1..] == body;
    }
  }
}
