/**
 * The frame checksum of `crc16`: the byte-wise loop over a 32-bit register, the
 * 16-bit register it maintains, and long division by x^16 + x^12 + x^5 + 1.
 */
module Crc {
  import opened Bytes
  import opened Bits

  /** 0x1021: the coefficients of x^15 down to x^0 of the generator. */
  const POLYNOM: Register := [false, false, false, true, false, false, false, false,
                          false, false, true, false, false, false, false, true]

  /** 0xFFFF */
  const PRESET: Register := Ones(16)

  lemma PolynomBits(n: nat)
    requires n == 0x1021
    ensures OfNumber(n, 16) == POLYNOM
  {
    var n0, n1, n2, n3 := 0, 0x1, 0x10, 0x102;
    assert OfNumber(n0, 0) == [];
    hide OfNumber;
    Digit(n0, n1, 0, false, false, false, true);
    Digit(n1, n2, 4, false, false, false, false);
    Digit(n2, n3, 8, false, false, true, false);
    Digit(n3, n, 12, false, false, false, true);
  }

  lemma PresetBits()
    ensures OfNumber(0xFFFF, 16) == PRESET
  {
    OneBits(16);
    BitWidths();
  }

  type Register = r: bits | |r| == 16 witness Zeros(16)

  /** One turn of the inner loop, on bits 15 to 0. */
  function Shift(r: Register): Register {
    var shifted := r[1..] + [false];
    if r[0] then Xor(shifted, POLYNOM) else shifted
  }

  function Shifts(r: Register, n: nat): Register
    decreases n, r
  {
    if n == 0 then r else Shifts(Shift(r), n - 1)
  }

  /** The register after `m` has passed, one bit at a time. */
  function Absorb(r: Register, m: bits): Register
    decreases |m|
  {
    if m == [] then r else Absorb(Shift([r[0] != m[0]] + r[1..]), m[1..])
  }

  /** An odd-length input gets a zero byte appended. */
  function Padded(data: seq<byte>): (p: seq<byte>)
    ensures |p| % 2 == 0
  {
    if |data| % 2 == 1 then data + [0] else data
  }

  /** The register at the end of `crc16(data)`. */
  function CrcBits(data: seq<byte>): Register {
    Absorb(PRESET, OfBytes(Padded(data)))
  }

  function Crc16(data: seq<byte>): (crc: u16) {
    OfNumberNumber(CrcBits(data));
    BitWidths();
    Number(CrcBits(data))
  }

  lemma CrcBitsOfCrc16(data: seq<byte>)
    ensures OfNumber(Crc16(data), 16) == CrcBits(data)
  {
    OfNumberNumber(CrcBits(data));
  }

  // Linearity

  lemma ShiftXor(a: Register, b: Register)
    ensures Shift(Xor(a, b)) == Xor(Shift(a), Shift(b))
  {
  }

  lemma {:induction false} ShiftsXor(a: Register, b: Register, n: nat)
    ensures Shifts(Xor(a, b), n) == Xor(Shifts(a, n), Shifts(b, n))
    decreases n
  {
    if n == 0 {
    } else {
      ShiftXor(a, b);
      ShiftsXor(Shift(a), Shift(b), n - 1);
    }
  }

  lemma {:induction false} AbsorbXor(r: Register, s: Register, m: bits, n: bits)
    requires |m| == |n|
    ensures Absorb(Xor(r, s), Xor(m, n)) == Xor(Absorb(r, m), Absorb(s, n))
    decreases |m|
  {
    if m == [] {
    } else {
      var r', s' := [r[0] != m[0]] + r[1..], [s[0] != n[0]] + s[1..];
      assert [Xor(r, s)[0] != Xor(m, n)[0]] + Xor(r, s)[1..] == Xor(r', s');
      assert Xor(m, n)[1..] == Xor(m[1..], n[1..]);
      ShiftXor(r', s');
      AbsorbXor(Shift(r'), Shift(s'), m[1..], n[1..]);
    }
  }

  lemma {:induction false} AbsorbAppend(r: Register, m: bits, n: bits)
    ensures Absorb(r, m + n) == Absorb(Absorb(r, m), n)
    decreases |m|
  {
    if m == [] {
      assert m + n == n;
    } else {
      assert (m + n)[1..] == m[1..] + n;
      AbsorbAppend(Shift([r[0] != m[0]] + r[1..]), m[1..], n);
    }
  }

  /** What sits below the top bit moves up unchanged. */
  lemma ShiftBelow(r: Register, w: bits)
    requires 0 < |w| <= 16
    ensures Shift(Xor(r, w + Zeros(16 - |w|)))
         == Xor(Shift([r[0] != w[0]] + r[1..]), w[1..] + Zeros(17 - |w|))
  {
    var top := [r[0] != w[0]] + r[1..];
    var below := [false] + w[1..] + Zeros(16 - |w|);
    assert Xor(r, w + Zeros(16 - |w|)) == Xor(top, below);
    assert Shift(below) == w[1..] + Zeros(17 - |w|);
    ShiftXor(top, below);
  }

  /** Up to sixteen bits may enter the register at once, left-aligned, before it is shifted. */
  lemma {:induction false} AbsorbAtOnce(r: Register, w: bits)
    requires |w| <= 16
    ensures Absorb(r, w) == Shifts(Xor(r, w + Zeros(16 - |w|)), |w|)
    decreases |w|
  {
    if w == [] {
      assert Xor(r, [] + Zeros(16)) == r;
    } else {
      ShiftBelow(r, w);
      AbsorbAtOnce(Shift([r[0] != w[0]] + r[1..]), w[1..]);
    }
  }

  // The 32-bit loop of the source

  lemma TopBit(c: nat)
    requires c < 0x1_0000
    ensures OfNumber(c, 16) == [c >= 0x8000] + OfNumber(c, 15)
  {
    OfNumberSplit(c, 1, 15);
    HalvedDiv(c, 15);
    BitWidths();
    assert OfNumber(c / 0x8000, 1) == [] + [(c / 0x8000) % 2 == 1];
  }

  /** What one turn of the inner loop does to `crcsum`. */
  function Turn(c: nat): nat {
    var w := 2 * c;
    if (w / 0x1_0000) % 0x8000 != 0 then XorNumber(w % 0x1_0000, 0x1021) else w
  }

  lemma Carry(c: nat)
    requires c < 0x1_0000
    ensures (2 * c / 0x1_0000) % 0x8000 != 0 <==> c >= 0x8000
    ensures 2 * c % 0x1_0000 == if c < 0x8000 then 2 * c else 2 * (c - 0x8000)
  {
  }

  lemma Doubled(c: nat, low: nat, h: nat)
    requires 2 * c == low + 0x1_0000 * h
    ensures OfNumber(low, 16) == OfNumber(c, 15) + [false]
  {
    BitWidths();
    LowBits(2 * c, low, h, 16);
  }

  /** It never leaves a bit above bit 15, and it shifts the register. */
  lemma TurnShifts(c: nat)
    requires c < 0x1_0000
    ensures Turn(c) < 0x1_0000 && OfNumber(Turn(c), 16) == Shift(OfNumber(c, 16))
  {
    TopBit(c);
    Carry(c);
    if c < 0x8000 {
      Doubled(c, 2 * c, 0);
    } else {
      var low := 2 * (c - 0x8000);
      Doubled(c, low, 1);
      BitWidths();
      PolynomBits(0x1021);
      XorNumberBound(low, 0x1021, 16);
      XorNumberBits(low, 0x1021, 16);
    }
  }

  /** A byte is added to bits 15 to 8. */
  function Enter(c: nat, b: nat): nat {
    XorNumber(c, 0x100 * b)
  }

  function Turns(c: nat, n: nat): nat
    decreases n, c
  {
    if n == 0 then c else Turn(Turns(c, n - 1))
  }

  lemma {:induction false} TurnsShift(c: nat, n: nat)
    requires c < 0x1_0000
    ensures Turns(c, n) < 0x1_0000 && OfNumber(Turns(c, n), 16) == Shifts(OfNumber(c, 16), n)
  {
    if n == 0 {
    } else {
      TurnsShift(c, n - 1);
      TurnShifts(Turns(c, n - 1));
      ShiftsLast(OfNumber(c, 16), n);
    }
  }

  lemma TurnsBound(c: nat, n: nat)
    requires c < 0x1_0000
    ensures Turns(c, n) < 0x1_0000
  {
    TurnsShift(c, n);
  }

  lemma {:induction false} ShiftsLast(r: Register, n: nat)
    requires n > 0
    ensures Shifts(r, n) == Shift(Shifts(r, n - 1))
    decreases n
  {
    if n > 1 {
      ShiftsLast(Shift(r), n - 1);
    }
  }

  lemma TopByte(b: nat)
    requires b < 0x100
    ensures OfNumber(0x100 * b, 16) == OfNumber(b, 8) + Zeros(8)
  {
    BitWidths();
    hide OfNumber, Pow2, Halved;
    OfNumberSplit(0x100 * b, 8, 8);
    HalvedDiv(0x100 * b, 8);
    LowBits(0x100 * b, 0, b, 8);
    ZeroBits(8);
  }

  lemma EnterIs(c: nat, b: nat)
    ensures Enter(c, b) == XorNumber(c, 0x100 * b)
  {
  }

  /** A byte enters at the top of the register. */
  lemma ByteEnters(c: nat, b: byte)
    requires c < 0x1_0000
    ensures Enter(c, b) < 0x1_0000
    ensures var c' := Turns(Enter(c, b), 8);
            c' < 0x1_0000 && OfNumber(c', 16) == Absorb(OfNumber(c, 16), OfNumber(b, 8))
  {
    hide *;
    var n: nat := b;
    EnterIs(c, n);
    BitWidths();
    XorNumberBound(c, 0x100 * n, 16);
    XorNumberBits(c, 0x100 * n, 16);
    TopByte(n);
    AbsorbAtOnce(OfNumber(c, 16), OfNumber(n, 8));
    TurnsShift(Enter(c, n), 8);
  }

  /** The outer loop, over what is left of the input. */
  function Loop(c: nat, data: seq<byte>): nat
    decreases |data|
  {
    if data == [] then c else Loop(Turns(Enter(c, data[0]), 8), data[1..])
  }

  lemma {:induction false} LoopAbsorbs(c: nat, data: seq<byte>)
    requires c < 0x1_0000
    ensures Loop(c, data) < 0x1_0000
    ensures OfNumber(Loop(c, data), 16) == Absorb(OfNumber(c, 16), OfBytes(data))
    decreases |data|
  {
    if data == [] {
    } else {
      ByteEnters(c, data[0]);
      var c' := Turns(Enter(c, data[0]), 8);
      LoopAbsorbs(c', data[1..]);
      AbsorbAppend(OfNumber(c, 16), OfNumber(data[0], 8), OfBytes(data[1..]));
    }
  }

  lemma LoopIsCrc16(data: seq<byte>)
    ensures Loop(0xFFFF, Padded(data)) == Crc16(data)
  {
    LoopAbsorbs(0xFFFF, Padded(data));
    PresetBits();
    BitWidths();
    NumberOfNumber(Loop(0xFFFF, Padded(data)), 16);
  }

  method ComputeCrc16(data: seq<byte>) returns (crc: u16)
    ensures crc == Crc16(data)
  {
    var crcsum: u32 := 0xFFFF;
    var polynom: u32 := 0x1021;
    var evenPad := |data| % 2 == 1;
    var iter := if evenPad then data + [0] else data;
    var i := 0;
    while i < |iter|
      invariant 0 <= i <= |iter|
      invariant crcsum < 0x1_0000
      invariant Loop(crcsum, iter[i..]) == Loop(0xFFFF, iter)
    {
      var wide: u32 := iter[i]; // byte as u32
      assert iter[i..][1..] == iter[i + 1..];
      ByteEnters(crcsum, wide);
      crcsum := XorNumber(crcsum, 0x100 * wide);
      ghost var start := crcsum;
      for k := 0 to 8
        invariant crcsum < 0x1_0000
        invariant crcsum == Turns(start, k)
      {
        TurnsBound(start, k + 1);
        var shifted := 2 * crcsum;
        if (shifted / 0x1_0000) % 0x8000 != 0 {
          crcsum := XorNumber(shifted % 0x1_0000, polynom);
        } else {
          crcsum := shifted;
        }
      }
      i := i + 1;
    }
    LoopIsCrc16(data);
    crc := crcsum;
  }
}
