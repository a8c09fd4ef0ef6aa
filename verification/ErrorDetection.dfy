/**
 * Which damaged frames the parser rejects. Damage happens between checksum and escaping:
 * command and length field arrive intact, id, payload and checksum may not.
 */
module ErrorDetection {
  import opened Bytes
  import opened Bits
  import opened Crc
  import opened CrcTheory
  import opened Frame
  import opened Receive
  import opened ParserTheory
  import opened FrameTheory

  /** The checksum at the end of a body is that of what precedes it. */
  predicate Intact(body: seq<byte>)
    requires |body| >= 2
  {
    FromBe2(body[|body| - 2], body[|body| - 1]) == Crc16(body[..|body| - 2])
  }

  /** A body that arrives with the command and length field of a frame, and as long as it says. */
  predicate Arrived(body: seq<byte>, command: Command, length: nat) {
    Declares(body, command, length) && length >= 4 && |body| == 3 + command.LengthWidth() + length
  }

  /** Such a body is decided by its checksum alone, exactly at its last wire byte. */
  lemma DecidedByChecksum(body: seq<byte>, command: Command, length: nat)
    requires Arrived(body, command, length)
    ensures var wire := [START] + Escaped(body);
            var f := Feed(Fresh(false), wire);
            && f.used == |wire| && f.rx.raw == wire
            && f.verdict == if Intact(body) then Done
                            else Failed(FrameCrcMismatch(FromBe2(body[|body| - 2], body[|body| - 1]),
                                                         Crc16(body[..|body| - 2])))
  {
    hide *;
    ArrivedParts(body, command, length);
    DecidedAtEnd(false, body, command, length);
    FeedWire(false, body);
    JudgedByChecksum(body, command, length);
  }

  lemma ArrivedParts(body: seq<byte>, command: Command, length: nat)
    requires Arrived(body, command, length)
    ensures Declares(body, command, length) && length >= 4 && |body| == 3 + command.LengthWidth() + length
  {
  }

  lemma JudgedByChecksum(body: seq<byte>, command: Command, length: nat)
    requires Arrived(body, command, length)
    ensures Judge(false, [START] + body) ==
            if Intact(body) then Done
            else Failed(FrameCrcMismatch(FromBe2(body[|body| - 2], body[|body| - 1]), Crc16(body[..|body| - 2])))
  {
    HeaderOf(body, command, length);
    var b := [START] + body;
    assert b[1..|b| - 2] == body[..|body| - 2];
    hide CommandOf, HeaderEnd, FrameEnd, Headed, Crc16, Declares, FromBe2;
  }

  // The checksum in bits

  lemma FromBe2Bits(hi: byte, lo: byte)
    ensures OfNumber(FromBe2(hi, lo), 16) == OfBytes([hi, lo])
  {
    BeFromBe2(hi, lo);
    OfBytesBe2(FromBe2(hi, lo));
  }

  lemma BitsDecide(a: nat, b: nat)
    requires a < 0x1_0000 && b < 0x1_0000 && OfNumber(a, 16) == OfNumber(b, 16)
    ensures a == b
  {
    BitWidths();
    NumberOfNumber(a, 16);
    NumberOfNumber(b, 16);
  }

  lemma IntactBits(body: seq<byte>)
    requires |body| >= 2
    ensures Intact(body) <==> OfBytes(body[|body| - 2..]) == CrcBits(body[..|body| - 2])
  {
    var hi, lo := body[|body| - 2], body[|body| - 1];
    var core := body[..|body| - 2];
    assert body[|body| - 2..] == [hi, lo];
    hide *;
    FromBe2Bits(hi, lo);
    CrcBitsOfCrc16(core);
    if OfNumber(FromBe2(hi, lo), 16) == OfNumber(Crc16(core), 16) {
      BitsDecide(FromBe2(hi, lo), Crc16(core));
    }
    IntactIs(body);
  }

  lemma IntactIs(body: seq<byte>)
    requires |body| >= 2
    ensures Intact(body) <==> FromBe2(body[|body| - 2], body[|body| - 1]) == Crc16(body[..|body| - 2])
  {
  }

  /** When the core has even length, the whole body is a codeword: it leaves the register empty. */
  lemma EvenIsCodeword(body: seq<byte>)
    requires |body| >= 2 && |body| % 2 == 0
    ensures Intact(body) <==> Absorb(PRESET, OfBytes(body)) == Zeros(16)
  {
    hide *;
    IntactBits(body);
    Codeword(body[..|body| - 2], body[|body| - 2..]);
    assert body == body[..|body| - 2] + body[|body| - 2..];
  }

  lemma Codeword(core: seq<byte>, check: seq<byte>)
    requires |core| % 2 == 0 && |check| == 2
    ensures OfBytes(check) == CrcBits(core) <==> Absorb(PRESET, OfBytes(core + check)) == Zeros(16)
  {
    hide *;
    CrcOfEven(core);
    OfBytesAppend(core, check);
    AbsorbAppend(PRESET, OfBytes(core), OfBytes(check));
    ResidueZero(CrcBits(core), OfBytes(check));
  }

  lemma CrcOfEven(core: seq<byte>)
    requires |core| % 2 == 0
    ensures CrcBits(core) == Absorb(PRESET, OfBytes(core))
  {
    assert Padded(core) == core;
  }

  /** An intact body has an even number of set bits. */
  lemma IntactIsEven(body: seq<byte>)
    requires |body| >= 2 && Intact(body)
    ensures !Odd(OfBytes(body))
  {
    hide *;
    var core, check := body[..|body| - 2], body[|body| - 2..];
    IntactBits(body);
    CrcBitsOfCrc16(core);
    ParityOfCrc16(core);
    assert body == core + check;
    OfBytesAppend(core, check);
    OddAppend(OfBytes(core), OfBytes(check));
  }

  // What is rejected

  /** Any odd number of flipped bits. */
  lemma OddDamageRejected(sent: seq<byte>, got: seq<byte>)
    requires |sent| == |got| >= 2 && Intact(sent)
    requires Distance(OfBytes(sent), OfBytes(got)) % 2 == 1
    ensures !Intact(got)
  {
    hide *;
    IntactIsEven(sent);
    OddDistance(OfBytes(sent), OfBytes(got));
    if Intact(got) {
      IntactIsEven(got);
    }
  }

  /** A burst of at most sixteen bits before the checksum, which itself arrives unharmed. */
  lemma CoreBurstRejected(sent: seq<byte>, got: seq<byte>, at: nat)
    requires |sent| == |got| >= 2 && Intact(sent)
    requires sent[|sent| - 2..] == got[|got| - 2..]
    requires Burst(OfBytes(sent[..|sent| - 2]), OfBytes(got[..|got| - 2]), at)
    ensures !Intact(got)
  {
    var core, core' := sent[..|sent| - 2], got[..|got| - 2];
    IntactBits(sent);
    IntactBits(got);
    PadsWithZeros(core);
    PadsWithZeros(core');
    var pad := Zeros(if |core| % 2 == 1 then 8 else 0);
    AbsorbAppend(PRESET, OfBytes(core), pad);
    AbsorbAppend(PRESET, OfBytes(core'), pad);
    BurstChangesRegister(PRESET, OfBytes(core), OfBytes(core'), at);
    hide Intact, Absorb, OfBytes, Burst;
    if CrcBits(core) == CrcBits(core') {
      AbsorbInjective(Absorb(PRESET, OfBytes(core)), Absorb(PRESET, OfBytes(core')), pad);
    }
  }

  /** Any change confined to the checksum. */
  lemma ChecksumDamageRejected(sent: seq<byte>, got: seq<byte>)
    requires |sent| == |got| >= 2 && Intact(sent)
    requires sent[..|sent| - 2] == got[..|got| - 2] && sent != got
    ensures !Intact(got)
  {
    hide *;
    var n := |sent|;
    IntactIs(sent);
    IntactIs(got);
    assert sent == sent[..n - 2] + [sent[n - 2], sent[n - 1]];
    assert got == got[..n - 2] + [got[n - 2], got[n - 1]];
    BeFromBe2(sent[n - 2], sent[n - 1]);
    BeFromBe2(got[n - 2], got[n - 1]);
  }

  /** With a core of even length, a burst of at most sixteen bits anywhere, the checksum included. */
  lemma EvenBurstRejected(sent: seq<byte>, got: seq<byte>, at: nat)
    requires |sent| == |got| >= 2 && |sent| % 2 == 0 && Intact(sent)
    requires Burst(OfBytes(sent), OfBytes(got), at)
    ensures !Intact(got)
  {
    EvenIsCodeword(sent);
    EvenIsCodeword(got);
    BurstChangesRegister(PRESET, OfBytes(sent), OfBytes(got), at);
  }

  // What is not rejected: a burst across the pad byte of a core of odd length

  function Flipped(b: byte, error: byte): byte {
    BitWidths();
    XorNumberBound(b, error, 8);
    XorNumber(b, error)
  }

  /** The last byte of the core and the first of the checksum, damaged so that it does not show. */
  function Forged(body: seq<byte>): (r: seq<byte>)
    requires |body| >= 3
    ensures |r| == |body|
  {
    var n := |body|;
    body[..n - 3] + [Flipped(body[n - 3], 0x89), Flipped(body[n - 2], 0xA1), body[n - 1]]
  }

  /** 0x89 followed by the pad byte takes an empty register to 0xA100. */
  lemma PadCarries()
    ensures Absorb(Zeros(16), OfNumber(0x89, 8) + Zeros(8)) == OfNumber(0xA1, 8) + Zeros(8)
  {
    hide Turns, Absorb, Shifts;
    var c: nat := 0x8900;
    ByteAtTop(0x89);
    ByteAtTop(0xA1);
    AbsorbAtOnce(Zeros(16), OfNumber(c, 16));
    assert Xor(Zeros(16), OfNumber(c, 16) + Zeros(0)) == OfNumber(c, 16);
    TurnsOf8900();
    TurnsShift(c, 16);
  }

  lemma ByteAtTop(b: byte)
    ensures var wide: nat := b; OfNumber(0x100 * wide, 16) == OfNumber(b, 8) + Zeros(8)
  {
    hide *;
    var wide: nat := b;
    BitWidths();
    OfNumberSplit(0x100 * wide, 8, 8);
    HalvedDiv(0x100 * wide, 8);
    LowBits(0x100 * wide, 0, wide, 8);
    ZeroBits(8);
  }

  /** While no bit reaches the top, a turn doubles. */
  lemma {:induction false} TurnsDouble(c: nat, k: nat)
    requires c * Pow2(k) < 0x1_0000
    ensures Turns(c, k) == c * Pow2(k)
  {
    if k == 0 {
    } else {
      hide XorNumber;
      var p := Pow2(k - 1);
      var half := c * p;
      assert Pow2(k) == 2 * p && c * (2 * p) == 2 * half;
      TurnsDouble(c, k - 1);
      Carry(half);
    }
  }

  lemma {:induction false} TurnsAdd(c: nat, j: nat, k: nat)
    ensures Turns(c, j + k) == Turns(Turns(c, j), k)
    decreases k
  {
    if k == 0 {
    } else {
      TurnsAdd(c, j, k - 1);
    }
  }

  /** A turn that carries. */
  lemma TurnCarries(c: nat, x: nat)
    requires 0x8000 <= c < 0x1_0000 && XorNumber(2 * (c - 0x8000), 0x1021) == x
    ensures Turns(c, 1) == x
  {
    Carry(c);
    assert Turns(c, 0) == c;
  }

  lemma XorValues()
    ensures XorNumber(0x1200, 0x1021) == 0x0221 && XorNumber(0x1080, 0x1021) == 0x00A1
  {
    assert XorNumber(0x9, 0x8) == 0x1;
    assert XorNumber(0x12, 0x10) == 0x2;
    assert XorNumber(0x24, 0x20) == 0x4;
    assert XorNumber(0x48, 0x40) == 0x8;
    assert XorNumber(0x90, 0x81) == 0x11;
    assert XorNumber(0x120, 0x102) == 0x22;
    assert XorNumber(0x240, 0x204) == 0x44;
    assert XorNumber(0x480, 0x408) == 0x88;
    assert XorNumber(0x900, 0x810) == 0x110;
    assert XorNumber(0x8, 0x8) == 0x0;
    assert XorNumber(0x10, 0x10) == 0x0;
    assert XorNumber(0x21, 0x20) == 0x1;
    assert XorNumber(0x42, 0x40) == 0x2;
    assert XorNumber(0x84, 0x81) == 0x5;
    assert XorNumber(0x108, 0x102) == 0xA;
    assert XorNumber(0x210, 0x204) == 0x14;
    assert XorNumber(0x420, 0x408) == 0x28;
    assert XorNumber(0x840, 0x810) == 0x50;
  }

  lemma TurnsOf8900()
    ensures Turns(0x8900, 16) == 0xA100
  {
    hide Turns, XorNumber;
    XorValues();
    TurnCarries(0x8900, 0x0221);
    TurnsAdd(0x8900, 1, 15);
    TurnsDouble(0x0221, 6);
    TurnsAdd(0x0221, 6, 9);
    TurnCarries(0x8840, 0x00A1);
    TurnsAdd(0x8840, 1, 8);
    TurnsDouble(0x00A1, 8);
  }

  lemma FlippedBits(b: byte, error: byte)
    ensures OfNumber(Flipped(b, error), 8) == Xor(OfNumber(b, 8), OfNumber(error, 8))
  {
    XorNumberBits(b, error, 8);
  }

  lemma OddCrc(front: seq<byte>, x: byte)
    requires |front| % 2 == 0
    ensures CrcBits(front + [x]) == Absorb(Absorb(PRESET, OfBytes(front)), OfNumber(x, 8) + Zeros(8))
  {
    hide Absorb, OfBytes, OfNumber;
    PadsWithZeros(front + [x]);
    OfBytesAppend(front, [x]);
    OneByte(x);
    assert OfBytes(front) + OfNumber(x, 8) + Zeros(8) == OfBytes(front) + (OfNumber(x, 8) + Zeros(8));
    AbsorbAppend(PRESET, OfBytes(front), OfNumber(x, 8) + Zeros(8));
  }

  lemma OneByte(x: byte)
    ensures OfBytes([x]) == OfNumber(x, 8)
  {
    assert OfBytes([x]) == OfNumber(x, 8) + OfBytes([]);
  }

  lemma FlipCarries(r: Register, x: byte)
    ensures Absorb(r, OfNumber(Flipped(x, 0x89), 8) + Zeros(8))
         == Xor(Absorb(r, OfNumber(x, 8) + Zeros(8)), OfNumber(0xA1, 8) + Zeros(8))
  {
    hide Absorb, OfNumber, Flipped;
    var m, e := OfNumber(x, 8) + Zeros(8), OfNumber(0x89, 8) + Zeros(8);
    FlippedBits(x, 0x89);
    assert OfNumber(Flipped(x, 0x89), 8) + Zeros(8) == Xor(m, e);
    AbsorbXor(r, Zeros(16), m, e);
    assert Xor(r, Zeros(16)) == r;
    PadCarries();
  }

  lemma CheckFlips(hi: byte, lo: byte)
    ensures OfBytes([Flipped(hi, 0xA1), lo]) == Xor(OfBytes([hi, lo]), OfNumber(0xA1, 8) + Zeros(8))
  {
    hide OfBytes, OfNumber, Flipped;
    FlippedBits(hi, 0xA1);
    OfTwoBytes(hi, lo);
    OfTwoBytes(Flipped(hi, 0xA1), lo);
  }

  /** The forged body passes the check. */
  lemma ForgedIsIntact(body: seq<byte>)
    requires |body| >= 3 && |body| % 2 == 1 && Intact(body)
    ensures Intact(Forged(body))
  {
    hide *;
    var n := |body|;
    IntactBits(body);
    IntactBits(Forged(body));
    ForgedSlices(body);
    ForgedParts(body[..n - 3], body[n - 3], body[n - 2], body[n - 1]);
  }

  lemma ForgedParts(front: seq<byte>, x: byte, hi: byte, lo: byte)
    requires |front| % 2 == 0
    requires OfBytes([hi, lo]) == CrcBits(front + [x])
    ensures OfBytes([Flipped(hi, 0xA1), lo]) == CrcBits(front + [Flipped(x, 0x89)])
  {
    hide *;
    OddCrc(front, x);
    OddCrc(front, Flipped(x, 0x89));
    FlipCarries(Absorb(PRESET, OfBytes(front)), x);
    CheckFlips(hi, lo);
  }

  lemma ForgedSlices(body: seq<byte>)
    requires |body| >= 3
    ensures var n, r := |body|, Forged(body);
            && r[..n - 2] == body[..n - 3] + [Flipped(body[n - 3], 0x89)]
            && r[n - 2..] == [Flipped(body[n - 2], 0xA1), body[n - 1]]
            && body[..n - 2] == body[..n - 3] + [body[n - 3]]
            && body[n - 2..] == [body[n - 2], body[n - 1]]
  {
    hide Flipped;
  }

  // What the parser does with the damage

  /** The parser reports a checksum mismatch, exactly at the last wire byte. */
  predicate Rejected(got: seq<byte>) {
    var wire := [START] + Escaped(got);
    var f := Feed(Fresh(false), wire);
    f.verdict.Failed? && f.verdict.fault.FrameCrcMismatch? && f.used == |wire|
  }

  lemma RejectedUnlessIntact(got: seq<byte>, command: Command, length: nat)
    requires Arrived(got, command, length)
    ensures |got| >= 2 && (Rejected(got) <==> !Intact(got))
  {
    DecidedByChecksum(got, command, length);
    hide Feed, Judge, Closed, Crc16, FromBe2, Escaped;
  }

  /** Any odd number of flipped bits in id, payload and checksum is rejected. */
  lemma OddFlipsRejected(sent: seq<byte>, got: seq<byte>, command: Command, length: nat)
    requires Arrived(sent, command, length) && Arrived(got, command, length) && Intact(sent)
    requires Distance(OfBytes(sent), OfBytes(got)) % 2 == 1
    ensures Rejected(got)
  {
    RejectedUnlessIntact(got, command, length);
    OddDamageRejected(sent, got);
  }

  /** Bytes that agree outside two consecutive ones differ by a burst. */
  lemma BytesBurst(a: seq<byte>, b: seq<byte>, i: nat)
    requires |a| == |b| && a != b && i <= |a| && a[..i] == b[..i]
    requires i + 2 <= |a| ==> a[i + 2..] == b[i + 2..]
    ensures Burst(OfBytes(a), OfBytes(b), 8 * i)
  {
    hide OfBytes;
    var end := if i + 2 <= |a| then i + 2 else |a|;
    if OfBytes(a) == OfBytes(b) {
      OfBytesInjective(a, b);
    }
    OfBytesCut(a, i);
    OfBytesCut(b, i);
    OfBytesCut(a, end);
    OfBytesCut(b, end);
  }

  lemma OfBytesCut(a: seq<byte>, i: nat)
    requires i <= |a|
    ensures OfBytes(a)[..8 * i] == OfBytes(a[..i]) && OfBytes(a)[8 * i..] == OfBytes(a[i..])
  {
    hide OfBytes;
    OfBytesAppend(a[..i], a[i..]);
    assert a == a[..i] + a[i..];
  }

  /** Any change within two consecutive bytes of id and payload, or any change of the checksum alone, is rejected. */
  lemma TwoBytesRejected(sent: seq<byte>, got: seq<byte>, command: Command, length: nat, i: nat)
    requires Arrived(sent, command, length) && Arrived(got, command, length) && Intact(sent) && sent != got
    requires i <= |sent| - 2 && sent[..i] == got[..i]
    requires i == |sent| - 2 || (i + 2 <= |sent| - 2 && sent[i + 2..] == got[i + 2..])
    ensures Rejected(got)
  {
    hide *;
    ArrivedParts(sent, command, length);
    ArrivedParts(got, command, length);
    RejectedUnlessIntact(got, command, length);
    var n := |sent|;
    if i == n - 2 {
      ChecksumDamageRejected(sent, got);
    } else {
      CoreDamage(sent, got, i);
      BytesBurst(sent[..n - 2], got[..n - 2], i);
      CoreBurstRejected(sent, got, 8 * i);
    }
  }

  lemma CoreDamage(sent: seq<byte>, got: seq<byte>, i: nat)
    requires |sent| == |got| && i + 4 <= |sent| && sent != got && sent[..i] == got[..i] && sent[i + 2..] == got[i + 2..]
    ensures var n := |sent|;
            var a, b := sent[..n - 2], got[..n - 2];
            sent[n - 2..] == got[n - 2..] && a != b && a[..i] == b[..i] && a[i + 2..] == b[i + 2..]
  {
    var n := |sent|;
    var a, b := sent[..n - 2], got[..n - 2];
    assert sent[n - 2..] == sent[i + 2..][n - 4 - i..] && got[n - 2..] == got[i + 2..][n - 4 - i..];
    assert sent == a + sent[n - 2..] && got == b + got[n - 2..];
    assert a[i + 2..] == sent[i + 2..][..n - 4 - i] && b[i + 2..] == got[i + 2..][..n - 4 - i];
    assert a[..i] == sent[..i] && b[..i] == got[..i];
  }

  /** Every burst of at most sixteen bits in id, payload and checksum is rejected. */
  ghost predicate AllBurstsRejected(sent: seq<byte>, command: Command, length: nat) {
    forall got, at: nat :: Arrived(got, command, length) && Burst(OfBytes(sent), OfBytes(got), at) ==> Rejected(got)
  }

  /**
   * That holds exactly for bodies of even length. In one of odd length the zero byte that pads
   * the checksum's input lies between the last payload byte and the checksum on the parser's
   * side only, and a burst across that place can pass.
   */
  lemma AllBurstsRejectedIffEven(sent: seq<byte>, command: Command, length: nat)
    requires Arrived(sent, command, length) && Intact(sent)
    ensures AllBurstsRejected(sent, command, length) <==> |sent| % 2 == 0
  {
    if |sent| % 2 == 0 {
      forall got, at: nat | Arrived(got, command, length) && Burst(OfBytes(sent), OfBytes(got), at)
        ensures Rejected(got)
      {
        RejectedUnlessIntact(got, command, length);
        EvenBurstRejected(sent, got, at);
      }
    } else {
      ForgedIsIntact(sent);
      ForgedArrives(sent, command, length);
      RejectedUnlessIntact(Forged(sent), command, length);
      ForgedIsBurst(sent);
    }
  }

  lemma ForgedArrives(sent: seq<byte>, command: Command, length: nat)
    requires Arrived(sent, command, length)
    ensures Arrived(Forged(sent), command, length)
  {
    hide Flipped;
    var w := command.LengthWidth();
    assert Forged(sent)[1..1 + w] == sent[1..1 + w];
  }

  lemma ForgedIsBurst(sent: seq<byte>)
    requires |sent| >= 3
    ensures Burst(OfBytes(sent), OfBytes(Forged(sent)), 8 * (|sent| - 3))
  {
    hide *;
    FlipChanges(sent[|sent| - 3]);
    ForgedDiffers(sent);
    BytesBurst(sent, Forged(sent), |sent| - 3);
  }

  lemma ForgedDiffers(body: seq<byte>)
    requires |body| >= 3
    ensures var n, r := |body|, Forged(body);
            r[n - 3] == Flipped(body[n - 3], 0x89) && r[..n - 3] == body[..n - 3] && r[n - 1..] == body[n - 1..]
  {
    hide Flipped;
  }

  lemma FlipChanges(b: byte)
    ensures Flipped(b, 0x89) != b
  {
    hide Flipped, OfNumber;
    FlippedBits(b, 0x89);
    Digit(0, 0x8, 0, true, false, false, false);
    Digit(0x8, 0x89, 4, true, false, false, true);
    assert OfNumber(0x89, 8)[7];
  }
}
