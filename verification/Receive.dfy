/** The incremental receive parser: one step per byte, and the object that takes the steps. */
module Receive {
  import opened Bytes
  import opened Crc
  import opened Frame

  datatype Fault =
    | InvalidCommand(cmd: byte)
    | FrameCrcMismatch(received: u16, calculated: u16)
    | FrameLengthExceeded

  /** What a byte, or a run of bytes, led to. `Panicked`: a slice whose end lies before its start. */
  datatype Verdict = More | Done | Failed(fault: Fault) | Panicked

  /** The fields of a receive parser. */
  datatype Rx = Rx(
    complete: bool,
    crcOk: bool,
    escaping: bool,
    crc16Recv: u16,
    frameLength: nat,
    command: Option<Command>,
    buffer: seq<byte>,
    raw: seq<byte>,
    consumedBytes: nat,
    frameHeaderLength: nat,
    id: u32,
    address: u32,
    data: seq<byte>,
    ignoreCrcMismatch: bool
  ) {
    /** What indexing into the buffer relies on. */
    predicate Shaped() {
      && frameHeaderLength >= 7 + (if command.Some? && command.value.IsLong() then 1 else 0)
      && (frameLength > 0 ==> frameLength >= 5)
      && (|buffer| < 2 ==> command.None?)
    }
  }

  function Fresh(ignoreCrcMismatch: bool): (s: Rx)
    ensures s.Shaped()
  {
    // start(1) + command(1) + length(1) + id(4)
    Rx(false, false, false, 0, 0, None, [], [], 0, 1 + 1 + 1 + 4, 0, 0, [], ignoreCrcMismatch)
  }

  datatype Stepped = Stepped(rx: Rx, verdict: Verdict)

  /** The command byte has arrived. */
  function OnCommand(s: Rx): (r: Stepped)
    requires s.Shaped() && |s.buffer| == 2
    ensures r.rx.Shaped() && |r.rx.buffer| == |s.buffer|
  {
    var b := s.buffer[1];
    match FromByte(b)
    case None => Stepped(s, Failed(InvalidCommand(b)))
    case Some(Extension) => Stepped(s, Failed(InvalidCommand(b)))
    case Some(cmd) =>
      var plant := if IsPlantByte(b) then 4 else 0;
      var long := if cmd.IsLong() then 1 else 0;
      Stepped(s.(command := Some(cmd), frameHeaderLength := s.frameHeaderLength + plant + long), More)
  }

  /** The declared length, read off a buffer that holds the length field. */
  function DeclaredLength(cmd: Command, buffer: seq<byte>): nat
    requires |buffer| >= 7 + (if cmd.IsLong() then 1 else 0)
  {
    if cmd.IsLong() then FromBe2(buffer[2], buffer[3]) else buffer[2]
  }

  function DeclaredId(cmd: Command, buffer: seq<byte>): u32
    requires |buffer| >= 7 + (if cmd.IsLong() then 1 else 0)
  {
    var at := if cmd.IsLong() then 4 else 3;
    ByteWidths();
    FromBe(buffer[at..at + 4])
  }

  /** The header is complete: fix the frame's length and its id. */
  function OnHeader(s: Rx): (r: Stepped)
    requires s.Shaped() && s.command.Some? && |s.buffer| == s.frameHeaderLength
    ensures r.rx.Shaped() && |r.rx.buffer| == |s.buffer|
  {
    // the length field includes the id (4 bytes); a command has no plant bit of its own (CommandBytes)
    Stepped(s.(frameLength := (s.frameHeaderLength - 4) + DeclaredLength(s.command.value, s.buffer) + 2,
               id := DeclaredId(s.command.value, s.buffer)), More)
  }

  /** The last byte has arrived: check the checksum and cut out the data. */
  function OnFrameEnd(s: Rx): (r: Stepped)
    requires s.Shaped() && s.frameLength > 0 && |s.buffer| == s.frameLength
    ensures r.rx.Shaped() && |r.rx.buffer| == |s.buffer|
  {
    var n := |s.buffer|;
    var received := FromBe2(s.buffer[n - 2], s.buffer[n - 1]);
    var calculated := Crc16(s.buffer[1..n - 2]);
    var t := s.(complete := true, crc16Recv := received, crcOk := received == calculated);
    if s.frameHeaderLength > n - 2 then Stepped(t, Panicked)
    else
      var u := t.(data := s.buffer[s.frameHeaderLength..n - 2]);
      if !u.crcOk && !u.ignoreCrcMismatch then Stepped(u, Failed(FrameCrcMismatch(received, calculated)))
      else Stepped(u, Done)
  }

  /** An unescaped byte enters the buffer. */
  function Push(s: Rx, c: byte): (r: Stepped)
    requires s.Shaped() && s.buffer != []
    ensures r.rx.Shaped() && |r.rx.buffer| == |s.buffer| + 1
  {
    var t := s.(buffer := s.buffer + [c]);
    var n := |t.buffer|;
    if n == 2 then OnCommand(t)
    else if n == t.frameHeaderLength && t.command.Some? && t.frameLength == 0 then OnHeader(t)
    else if t.frameLength > 0 && n == t.frameLength then OnFrameEnd(t)
    else if t.frameLength > 0 && n > t.frameLength then Stepped(t, Failed(FrameLengthExceeded))
    else Stepped(t, More)
  }

  /** Before the start token everything is skipped. */
  function Sync(s: Rx, c: byte): Rx {
    if c == START then s.(raw := [c], buffer := [c]) else s
  }

  /** A wire byte after the start token: escape tokens are stripped. */
  function Strip(s: Rx, c: byte): (r: Stepped)
    requires s.Shaped() && s.buffer != []
    ensures r.rx.Shaped()
  {
    if s.escaping then Push(s.(escaping := false), c)
    else if c == ESCAPE then Stepped(s.(escaping := true), More)
    else Push(s, c)
  }

  /** One turn of the loop in `consume`. */
  function Step(s: Rx, c: byte): (r: Stepped)
    requires s.Shaped()
    ensures r.rx.Shaped()
  {
    var t := s.(consumedBytes := s.consumedBytes + 1);
    if t.buffer == [] then Stepped(Sync(t, c), More)
    else Strip(t.(raw := t.raw + [c]), c)
  }

  /** Parser, verdict and number of bytes taken after a run of bytes. */
  datatype Fed = Fed(rx: Rx, verdict: Verdict, used: nat)

  /** What `consume` does with a slice: it stops at the first verdict other than `More`. */
  function Feed(s: Rx, bytes: seq<byte>): (r: Fed)
    requires s.Shaped()
    ensures r.rx.Shaped() && r.used <= |bytes| && (r.verdict.More? ==> r.used == |bytes|)
    decreases |bytes|
  {
    if bytes == [] then Fed(s, More, 0)
    else
      var t := Step(s, bytes[0]);
      if !t.verdict.More? then Fed(t.rx, t.verdict, 1)
      else
        var rest := Feed(t.rx, bytes[1..]);
        Fed(rest.rx, rest.verdict, rest.used + 1)
  }

  /** `Result<usize, RctError>` of `consume`, or the panic. */
  datatype Consumed =
    | Consumed(count: nat)
    | Invalid(cmd: byte, consumed: nat)
    | CrcMismatch(received: u16, calculated: u16, consumed: nat)
    | LengthExceeded(consumed: nat)
    | Panic

  /** How a verdict reaches the caller. */
  function Reported(verdict: Verdict, used: nat): Consumed {
    match verdict
    case More => Consumed(used)
    case Done => Consumed(used)
    case Failed(InvalidCommand(cmd)) => Invalid(cmd, used)
    case Failed(FrameCrcMismatch(received, calculated)) => CrcMismatch(received, calculated, used)
    case Failed(FrameLengthExceeded) => LengthExceeded(used)
    case Panicked => Panic
  }

  class ReceiveFrame {
    var complete: bool
    var crcOk: bool
    var escaping: bool
    var crc16Recv: u16
    var frameLength: nat
    var command: Option<Command>
    var buffer: seq<byte>
    var raw: seq<byte>
    var consumedBytes: nat
    var frameHeaderLength: nat
    var id: u32
    var address: u32
    var data: seq<byte>
    var ignoreCrcMismatch: bool

    /** The fields as a value. */
    function State(): Rx
      reads this
    {
      Rx(complete, crcOk, escaping, crc16Recv, frameLength, command, buffer, raw, consumedBytes,
         frameHeaderLength, id, address, data, ignoreCrcMismatch)
    }

    constructor (ignoreCrcMismatch: bool)
      ensures State() == Fresh(ignoreCrcMismatch)
    {
      complete, crcOk, escaping, crc16Recv := false, false, false, 0;
      frameLength, command := 0, None;
      buffer, raw, consumedBytes := [], [], 0;
      frameHeaderLength := 1 + 1 + 1 + 4;
      id, address, data := 0, 0, [];
      this.ignoreCrcMismatch := ignoreCrcMismatch;
    }

    /** The command byte: the first branch of `consume`. */
    method ReadCommand() returns (v: Verdict)
      requires State().Shaped() && |buffer| == 2
      modifies this`command, this`frameHeaderLength
      ensures Stepped(State(), v) == OnCommand(old(State()))
    {
      var cmd := FromByte(buffer[1]);
      if cmd.None? || cmd.value == Extension {
        return Failed(InvalidCommand(buffer[1]));
      }
      command := cmd;
      if IsPlantByte(buffer[1]) {
        frameHeaderLength := frameHeaderLength + 4;
      }
      if cmd.value.IsLong() {
        frameHeaderLength := frameHeaderLength + 1;
      }
      return More;
    }

    /** A complete header: the second branch of `consume`. */
    method ReadHeader()
      requires State().Shaped() && command.Some? && |buffer| == frameHeaderLength
      modifies this`frameLength, this`id
      ensures State() == OnHeader(old(State())).rx
    {
      var dataLength, oidIdx: nat;
      if command.value.IsLong() {
        dataLength, oidIdx := FromBe2(buffer[2], buffer[3]), 4;
      } else {
        dataLength, oidIdx := buffer[2], 3;
      }
      ByteWidths();
      frameLength := (frameHeaderLength - 4) + dataLength + 2;
      id := FromBe(buffer[oidIdx..oidIdx + 4]);
    }

    /** The declared end of the frame: the third branch of `consume`. */
    method FinishFrame() returns (v: Verdict)
      requires State().Shaped() && frameLength > 0 && |buffer| == frameLength
      modifies this`complete, this`crc16Recv, this`crcOk, this`data
      ensures Stepped(State(), v) == OnFrameEnd(old(State()))
    {
      ghost var s := State();
      var blen := |buffer|;
      complete := true;
      crc16Recv := FromBe2(buffer[blen - 2], buffer[blen - 1]);
      var calculated := ComputeCrc16(buffer[1..blen - 2]);
      crcOk := crc16Recv == calculated;
      ghost var t := State();
      assert t == s.(complete := true, crc16Recv := crc16Recv, crcOk := crcOk);
      if frameHeaderLength > blen - 2 {
        return Panicked;
      }
      data := buffer[frameHeaderLength..blen - 2];
      if !crcOk && !ignoreCrcMismatch {
        return Failed(FrameCrcMismatch(crc16Recv, calculated));
      }
      return Done;
    }

    /** An unescaped byte. */
    method PushByte(c: byte) returns (v: Verdict)
      requires State().Shaped() && buffer != []
      modifies this
      ensures Stepped(State(), v) == Push(old(State()), c)
    {
      buffer := buffer + [c];
      var blen := |buffer|;
      if blen == 2 {
        v := ReadCommand();
      } else if blen == frameHeaderLength && command.Some? && frameLength == 0 {
        ReadHeader();
        v := More;
      } else if frameLength > 0 && blen == frameLength {
        v := FinishFrame();
      } else if frameLength > 0 && blen > frameLength {
        v := Failed(FrameLengthExceeded);
      } else {
        v := More;
      }
    }

    method SyncByte(c: byte)
      modifies this`raw, this`buffer
      ensures State() == Sync(old(State()), c)
    {
      if c == START {
        raw := [c];
        buffer := [c];
      }
    }

    method StripByte(c: byte) returns (v: Verdict)
      requires State().Shaped() && buffer != []
      modifies this
      ensures Stepped(State(), v) == Strip(old(State()), c)
    {
      if escaping {
        escaping := false;
      } else if c == ESCAPE {
        escaping := true;
        return More;
      }
      v := PushByte(c);
    }

    /** The body of the loop in `consume`. */
    method ConsumeByte(c: byte) returns (v: Verdict)
      requires State().Shaped()
      modifies this
      ensures Stepped(State(), v) == Step(old(State()), c)
    {
      consumedBytes := consumedBytes + 1;
      if buffer == [] {
        SyncByte(c);
        v := More;
      } else {
        raw := raw + [c];
        v := StripByte(c);
      }
    }

    method Consume(bytes: seq<byte>) returns (r: Consumed)
      requires State().Shaped()
      modifies this
      ensures var fed := Feed(old(State()), bytes);
              State() == fed.rx && r == Reported(fed.verdict, fed.used)
    {
      var i := 0;
      while i < |bytes|
        invariant 0 <= i <= |bytes|
        invariant State().Shaped()
        invariant var rest := Feed(State(), bytes[i..]);
                  Feed(old(State()), bytes) == Fed(rest.rx, rest.verdict, rest.used + i)
      {
        assert bytes[i..][1..] == bytes[i + 1..];
        var v := ConsumeByte(bytes[i]);
        i := i + 1;
        if !v.More? {
          return Reported(v, i);
        }
      }
      return Consumed(i);
    }
  }
}
