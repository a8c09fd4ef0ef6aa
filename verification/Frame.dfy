/** Command bytes and frame construction. */
module Frame {
  import opened Bytes
  import opened Crc

  datatype Command = Read | Write | LongWrite | Response | LongResponse | ReadPeriodically | Extension {

    function Byte(): byte {
      match this
      case Read => 0x01
      case Write => 0x02
      case LongWrite => 0x03
      case Response => 0x05
      case LongResponse => 0x06
      case ReadPeriodically => 0x08
      case Extension => 0x3C
    }

    predicate IsLong() {
      LongWrite? || LongResponse?
    }

    /** Width of the length field. */
    function LengthWidth(): nat {
      if IsLong() then 2 else 1
    }
  }

  /** Bit 6 marks plant communication. */
  predicate IsPlantByte(b: byte) {
    b / 0x40 % 2 == 1
  }

  /** Decodes a command byte, with or without the plant bit. */
  function FromByte(b: byte): Option<Command> {
    var base := if IsPlantByte(b) then b - 0x40 else b;
    match base
    case 0x01 => Some(Read)
    case 0x02 => Some(Write)
    case 0x03 => Some(LongWrite)
    case 0x05 => Some(Response)
    case 0x06 => Some(LongResponse)
    case 0x08 => Some(ReadPeriodically)
    case 0x3C => Some(Extension)
    case _ => None
  }

  /** No command of its own has the plant bit; stripped of it, a byte names at most one command. */
  lemma CommandBytes(b: byte, c: Command)
    ensures !IsPlantByte(c.Byte())
    ensures FromByte(b) == Some(c) <==> b == c.Byte() || b == c.Byte() + 0x40
  {
  }

  datatype FrameType = Standard | Plant {

    function Overhead(): nat {
      if Standard? then 4 else 8
    }
  }

  /** '+' */
  const START: byte := 0x2B

  /** '-' */
  const ESCAPE: byte := 0x2D

  /** A byte as it travels inside a frame. */
  function Esc(b: byte): seq<byte> {
    if b == START || b == ESCAPE then [ESCAPE, b] else [b]
  }

  function Escaped(bs: seq<byte>): seq<byte> {
    if bs == [] then [] else Escaped(bs[..|bs| - 1]) + Esc(bs[|bs| - 1])
  }

  /** The payload a frame of this command carries: READ frames carry none. */
  function Carried(command: Command, payload: seq<byte>): seq<byte> {
    if command == Read then [] else payload
  }

  /** Command, length field and content, before the checksum. */
  function Core(command: Command, length: int, content: seq<byte>): seq<byte> {
    [command.Byte()] + Be(length, command.LengthWidth()) + content
  }

  /** A core followed by its checksum. */
  function Sealed(core: seq<byte>): seq<byte> {
    core + Be(Crc16(core), 2)
  }

  /** What follows the length field of a frame. */
  function Content(command: Command, id: u32, payload: seq<byte>, address: u32, frameType: FrameType): seq<byte> {
    (if frameType == Plant then Be(address, 4) else []) + Be(id, 4) + Carried(command, payload)
  }

  /** What `make_frame` prints; the length field keeps only the low bits of the length. */
  function Printed(command: Command, id: u32, payload: seq<byte>, address: u32, frameType: FrameType): seq<byte> {
    [START] + Escaped(Sealed(Core(command, frameType.Overhead() + |payload|,
                                  Content(command, id, payload, address, frameType))))
  }

  lemma EscapedNext(bs: seq<byte>, i: nat)
    requires i < |bs|
    ensures Escaped(bs[..i + 1]) == Escaped(bs[..i]) + Esc(bs[i])
  {
    assert bs[..i + 1][..i] == bs[..i];
  }

  lemma BeOne(n: int)
    ensures Be(n, 1) == [Low(n)]
  {
    assert Be(n, 1) == [] + [Low(n)];
  }

  method MakeFrame(command: Command, id: u32, payload: seq<byte>, address: u32, frameType: FrameType)
    returns (out: seq<byte>)
    ensures out == Printed(command, id, payload, address, frameType)
  {
    ghost var length := frameType.Overhead() + |payload|;
    var buf: seq<byte> := [command.Byte()];
    if command.IsLong() {
      buf := buf + Be(frameType.Overhead() + |payload|, 2);
    } else {
      BeOne(length);
      buf := buf + [Low(frameType.Overhead() + |payload|)];
    }
    ghost var head := [command.Byte()] + Be(length, command.LengthWidth());
    assert buf == head;
    if frameType == Plant {
      buf := buf + Be(address, 4);
    }
    ghost var addressed := if frameType == Plant then Be(address, 4) else [];
    assert buf == head + addressed;
    buf := buf + Be(id, 4);
    if command != Read {
      buf := buf + payload;
    }
    assert buf == head + (addressed + Be(id, 4) + Carried(command, payload));
    var crc := ComputeCrc16(buf);
    buf := buf + Be(crc, 2);

    out := Escape(buf);
  }

  /** The last loop of `make_frame`. */
  method Escape(buf: seq<byte>) returns (out: seq<byte>)
    ensures out == [START] + Escaped(buf)
  {
    out := [START];
    for i := 0 to |buf|
      invariant out == [START] + Escaped(buf[..i])
    {
      ghost var before := out;
      EscapedNext(buf, i);
      if buf[i] == START || buf[i] == ESCAPE {
        out := out + [ESCAPE];
      }
      out := out + [buf[i]];
      assert out == before + Esc(buf[i]);
    }
    assert buf[..|buf|] == buf;
  }
}
