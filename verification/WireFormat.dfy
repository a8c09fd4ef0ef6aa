/**
 * The wire format in numbers: what a printed frame looks like byte by byte, and what the parser
 * makes of single bytes, without the names of the model.
 */
module WireFormat {
  import opened Bytes
  import opened Crc
  import opened Frame
  import opened Receive
  import opened ParserTheory

  /** The bytes of a body as they travel: 45 is inserted before every 43 and every 45, and nowhere else. */
  function Marked(body: seq<byte>): seq<byte> {
    if body == [] then []
    else (if body[0] == 43 || body[0] == 45 then [45, body[0]] else [body[0]]) + Marked(body[1..])
  }

  lemma {:induction false} MarkedLast(body: seq<byte>, b: byte)
    ensures Marked(body + [b]) == Marked(body) + if b == 43 || b == 45 then [45, b] else [b]
    decreases |body|
  {
    if body == [] {
      assert [b][1..] == [];
    } else {
      assert (body + [b])[0] == body[0] && (body + [b])[1..] == body[1..] + [b];
      MarkedLast(body[1..], b);
    }
  }

  lemma {:induction false} EscapedIsMarked(body: seq<byte>)
    ensures Escaped(body) == Marked(body)
    decreases |body|
  {
    if body == [] {
    } else {
      var init, b := body[..|body| - 1], body[|body| - 1];
      assert body == init + [b];
      EscapedIsMarked(init);
      MarkedLast(init, b);
    }
  }

  /** The six commands of the protocol and the extension byte; commands 3 and 6 have the wide length field. */
  function CommandNumber(command: Command): nat {
    match command
    case Read => 1
    case Write => 2
    case LongWrite => 3
    case Response => 5
    case LongResponse => 6
    case ReadPeriodically => 8
    case Extension => 60
  }

  /** Four bytes of a number, the most significant first. */
  predicate HoldsNumber(body: seq<byte>, at: nat, n: nat)
    requires at + 4 <= |body|
  {
    && body[at] == n / 0x100_0000
    && body[at + 1] == n / 0x1_0000 % 256
    && body[at + 2] == n / 0x100 % 256
    && body[at + 3] == n % 256
  }

  lemma BeFour(n: nat)
    requires n < 0x1_0000_0000
    ensures var b := Be(n, 4);
            |b| == 4 && b[0] == n / 0x100_0000 && b[1] == n / 0x1_0000 % 256 && b[2] == n / 0x100 % 256
            && b[3] == n % 256
  {
    var n1, n2, n3 := n / 0x100, n / 0x100 / 0x100, n / 0x100 / 0x100 / 0x100;
    assert n2 == n / 0x1_0000 && n3 == n / 0x100_0000;
    assert Be(n3, 1) == [] + [Low(n3)];
    assert Be(n2, 2) == Be(n3, 1) + [Low(n2)];
    assert Be(n1, 3) == Be(n2, 2) + [Low(n1)];
    assert Be(n, 4) == Be(n1, 3) + [Low(n)];
  }

  lemma BeLowTwo(n: nat)
    ensures Be(n, 2) == [n / 256 % 256, n % 256]
  {
    assert Be(n / 256, 1) == [] + [Low(n / 256)];
  }

  lemma BeLowOne(n: nat)
    ensures Be(n, 1) == [n % 256]
  {
    assert Be(n, 1) == [] + [Low(n)];
  }

  /** The length field, one byte or two. */
  predicate HoldsLength(body: seq<byte>, command: Command, length: nat)
    requires |body| >= 3
  {
    if CommandNumber(command) == 3 || CommandNumber(command) == 6
    then body[1] == length / 256 % 256 && body[2] == length % 256
    else body[1] == length % 256
  }

  lemma CommandIs(command: Command)
    ensures command.Byte() == CommandNumber(command)
    ensures command.LengthWidth() == if CommandNumber(command) == 3 || CommandNumber(command) == 6 then 2 else 1
  {
  }

  /** Where the ids begin: behind the command and the length field. */
  function IdsAt(command: Command): nat {
    if CommandNumber(command) == 3 || CommandNumber(command) == 6 then 3 else 2
  }

  /** A body in numbers: command, length, ids, payload, checksum. */
  predicate IsBody(body: seq<byte>, command: Command, id: u32, payload: seq<byte>, address: u32, plant: bool) {
    var ids, overhead := IdsAt(command), if plant then 8 else 4;
    var carried := if CommandNumber(command) == 1 then [] else payload;
    && |body| == ids + overhead + |carried| + 2
    && body[0] == CommandNumber(command)
    && HoldsLength(body, command, overhead + |payload|)
    && (plant ==> HoldsNumber(body, ids, address))
    && HoldsNumber(body, ids + overhead - 4, id)
    && body[ids + overhead..|body| - 2] == carried
    && body[|body| - 2] == Crc16(body[..|body| - 2]) / 256 && body[|body| - 1] == Crc16(body[..|body| - 2]) % 256
  }

  lemma HeadIs(command: Command, length: nat, content: seq<byte>)
    requires |content| >= 4
    ensures var core, ids := Core(command, length, content), IdsAt(command);
            |core| == ids + |content| >= 3 && core[0] == CommandNumber(command) && HoldsLength(core, command, length)
            && core[ids..] == content
  {
    CommandIs(command);
    if command.IsLong() {
      BeLowTwo(length);
    } else {
      BeLowOne(length);
    }
    var core := Core(command, length, content);
    assert core == [command.Byte()] + Be(length, command.LengthWidth()) + content;
  }

  lemma ContentIs(command: Command, id: u32, payload: seq<byte>, address: u32, frameType: FrameType)
    ensures var content := Content(command, id, payload, address, frameType);
            var overhead := if frameType == Plant then 8 else 4;
            var carried := if CommandNumber(command) == 1 then [] else payload;
            && |content| == overhead + |carried|
            && (frameType == Plant ==> HoldsNumber(content, 0, address))
            && HoldsNumber(content, overhead - 4, id)
            && content[overhead..] == carried
            && frameType.Overhead() == overhead
  {
    BeFour(id);
    BeFour(address);
    hide Be;
  }

  lemma SealedIs(core: seq<byte>)
    ensures var body := Sealed(core);
            |body| == |core| + 2 && body[..|core|] == core
            && body[|core|] == Crc16(core) / 256 && body[|core| + 1] == Crc16(core) % 256
  {
    BeTwo(Crc16(core));
    hide Crc16, Be;
  }

  lemma BodyIs(core: seq<byte>, body: seq<byte>, ids: nat, content: seq<byte>)
    requires ids <= |core| && core[ids..] == content && |body| == |core| + 2 && body[..|core|] == core
    ensures forall k :: 0 <= k < |core| ==> body[k] == core[k]
    ensures forall k :: 0 <= k < |content| ==> body[ids + k] == content[k]
    ensures forall k :: 0 <= k <= |content| ==> body[ids + k..|body| - 2] == content[k..]
  {
    forall k | 0 <= k < |core|
      ensures body[k] == core[k]
    {
      assert body[..|core|][k] == core[k];
    }
    forall k | 0 <= k <= |content|
      ensures body[ids + k..|body| - 2] == content[k..]
    {
      assert body[ids + k..|core|] == core[ids..][k..];
    }
  }

  /** A core is a body in numbers once its checksum is behind it. */
  lemma BodyFrom(core: seq<byte>, body: seq<byte>, content: seq<byte>,
                 command: Command, id: u32, payload: seq<byte>, address: u32, plant: bool)
    requires var ids, overhead := IdsAt(command), if plant then 8 else 4;
             var carried := if CommandNumber(command) == 1 then [] else payload;
             && |core| == ids + |content| && |core| >= 3 && core[0] == CommandNumber(command)
             && HoldsLength(core, command, overhead + |payload|) && core[ids..] == content
             && |content| == overhead + |carried| && (plant ==> HoldsNumber(content, 0, address))
             && HoldsNumber(content, overhead - 4, id) && content[overhead..] == carried
    requires |body| == |core| + 2 && body[..|core|] == core
    requires body[|core|] == Crc16(core) / 256 && body[|core| + 1] == Crc16(core) % 256
    ensures IsBody(body, command, id, payload, address, plant)
  {
    hide Crc16, CommandNumber;
    BodyIs(core, body, IdsAt(command), content);
    var ids, overhead := IdsAt(command), if plant then 8 else 4;
    assert body[ids + overhead..|body| - 2] == content[overhead..];
    assert body[..|body| - 2] == core;
    assert body[1] == core[1] && body[2] == core[2];
  }

  /**
   * The wire format of `make_frame`: the byte 43, then the body, marked. Of the body every byte is
   * given as a number.
   */
  lemma PrintedInNumbers(command: Command, id: u32, payload: seq<byte>, address: u32, frameType: FrameType)
    returns (body: seq<byte>)
    ensures Printed(command, id, payload, address, frameType) == [43] + Marked(body)
    ensures IsBody(body, command, id, payload, address, frameType == Plant)
  {
    hide *;
    var content := Content(command, id, payload, address, frameType);
    var length := frameType.Overhead() + |payload|;
    var core := Core(command, length, content);
    ContentIs(command, id, payload, address, frameType);
    HeadIs(command, length, content);
    SealedIs(core);
    body := Sealed(core);
    PrintedIs(command, id, payload, address, frameType);
    EscapedIsMarked(body);
    BodyFrom(core, body, content, command, id, payload, address, frameType == Plant);
  }

  lemma PrintedIs(command: Command, id: u32, payload: seq<byte>, address: u32, frameType: FrameType)
    ensures Printed(command, id, payload, address, frameType)
         == [43] + Escaped(Sealed(Core(command, frameType.Overhead() + |payload|,
                                       Content(command, id, payload, address, frameType))))
  {
    hide Escaped, Sealed, Core, Content;
  }

  // The parser, in numbers

  /** The command bytes: 1, 2, 3, 5, 6, 8 and 60, each with or without 64 added. */
  lemma CommandsInNumbers(b: byte, command: Command)
    ensures FromByte(b) == Some(command) <==> b == CommandNumber(command) || b == CommandNumber(command) + 64
    ensures FromByte(b).Some? <==> (b % 64 in {1, 2, 3, 5, 6, 8, 60} && b < 128)
  {
  }

  /** A stream without a byte 43 is skipped, all of it. */
  lemma SkippedWithout43(ignoreCrc: bool, d: seq<byte>)
    requires 43 !in d
    ensures var f := Feed(Fresh(ignoreCrc), d);
            f.verdict == More && f.used == |d| && f.rx.buffer == [] && f.rx.raw == [] && f.rx.consumedBytes == |d|
  {
    SkipJunk(Fresh(ignoreCrc), d);
    hide Feed;
  }

  /** A byte 43 begins a frame; inside one a byte 45 is dropped, unless one came before it, and others are kept. */
  lemma BytesInNumbers(s: Rx, c: byte)
    requires s.Shaped()
    ensures var t := Step(s, c).rx;
            if s.buffer == [] then t.buffer == if c == 43 then [43] else []
            else if c == 45 && !s.escaping then t.buffer == s.buffer && t.escaping
            else t.buffer == s.buffer + [c] && !t.escaping
  {
  }
}
