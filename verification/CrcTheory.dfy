/**
 * What the checksum detects, and what it is: long division over GF(2) by the
 * generator x^16 + x^12 + x^5 + 1 (section 2 of ITU-T V.41).
 */
module CrcTheory {
  import opened Bytes
  import opened Bits
  import opened Crc

  // The register never forgets

  lemma ShiftInjective(a: Register, b: Register)
    requires Shift(a) == Shift(b)
    ensures a == b
  {
    var m := if a[0] then POLYNOM else Zeros(16);
    var n := if b[0] then POLYNOM else Zeros(16);
    assert Shift(a) == Xor(a[1..] + [false], m);
    assert Shift(b) == Xor(b[1..] + [false], n);
    assert a[0] == Shift(a)[15] == Shift(b)[15] == b[0];
    forall i | 1 <= i < 16
      ensures a[i] == b[i]
    {
      assert (a[1..] + [false])[i - 1] == a[i] && (b[1..] + [false])[i - 1] == b[i];
      assert Shift(a)[i - 1] == (a[i] != m[i - 1]) && Shift(b)[i - 1] == (b[i] != n[i - 1]);
    }
  }

  lemma {:induction false} ShiftsInjective(a: Register, b: Register, n: nat)
    requires Shifts(a, n) == Shifts(b, n)
    ensures a == b
    decreases n
  {
    if n == 0 {
    } else {
      ShiftsInjective(Shift(a), Shift(b), n - 1);
      ShiftInjective(a, b);
    }
  }

  lemma {:induction false} AbsorbInjective(a: Register, b: Register, m: bits)
    requires Absorb(a, m) == Absorb(b, m)
    ensures a == b
    decreases |m|
  {
    if m == [] {
    } else {
      var a', b' := [a[0] != m[0]] + a[1..], [b[0] != m[0]] + b[1..];
      AbsorbInjective(Shift(a'), Shift(b'), m[1..]);
      ShiftInjective(a', b');
      assert a == [a[0]] + a'[1..] && b == [b[0]] + b'[1..];
    }
  }

  lemma WindowInjective(r: Register, v: bits, w: bits)
    requires |v| == |w| <= 16 && Absorb(r, v) == Absorb(r, w)
    ensures v == w
  {
    AbsorbAtOnce(r, v);
    AbsorbAtOnce(r, w);
    var v', w' := v + Zeros(16 - |v|), w + Zeros(16 - |w|);
    ShiftsInjective(Xor(r, v'), Xor(r, w'), |v|);
    forall i | 0 <= i < |v|
      ensures v[i] == w[i]
    {
      assert v'[i] == v[i] && w'[i] == w[i];
      assert Xor(r, v')[i] == Xor(r, w')[i];
    }
  }

  /** `m` and `n` differ, and only within sixteen consecutive bits from `at` on. */
  predicate Burst(m: bits, n: bits, at: nat) {
    && |m| == |n|
    && m != n
    && at <= |m|
    && m[..at] == n[..at]
    && var end := if at + 16 <= |m| then at + 16 else |m|;
    && m[end..] == n[end..]
  }

  /** The three parts of a message in which a burst lies. */
  lemma AbsorbParts(r: Register, m: bits, at: nat, end: nat)
    requires at <= end <= |m|
    ensures Absorb(r, m) == Absorb(Absorb(Absorb(r, m[..at]), m[at..end]), m[end..])
  {
    assert m == m[..at] + (m[at..end] + m[end..]);
    hide Absorb;
    AbsorbAppend(r, m[..at], m[at..end] + m[end..]);
    AbsorbAppend(Absorb(r, m[..at]), m[at..end], m[end..]);
  }

  lemma BurstParts(m: bits, n: bits, at: nat)
    requires Burst(m, n, at)
    ensures var end := if at + 16 <= |m| then at + 16 else |m|;
            at <= end <= |m| == |n| && m[..at] == n[..at] && m[end..] == n[end..] && m[at..end] != n[at..end]
  {
    var end := if at + 16 <= |m| then at + 16 else |m|;
    assert m == m[..at] + m[at..end] + m[end..] && n == n[..at] + n[at..end] + n[end..];
  }

  /** A burst of at most sixteen bits, wherever it lies, always changes the register. */
  lemma BurstChangesRegister(r: Register, m: bits, n: bits, at: nat)
    requires Burst(m, n, at)
    ensures Absorb(r, m) != Absorb(r, n)
  {
    hide *;
    BurstParts(m, n, at);
    var end := if at + 16 <= |m| then at + 16 else |m|;
    AbsorbParts(r, m, at, end);
    AbsorbParts(r, n, at, end);
    var r0 := Absorb(r, m[..at]);
    if Absorb(r, m) == Absorb(r, n) {
      AbsorbInjective(Absorb(r0, m[at..end]), Absorb(r0, n[at..end]), m[end..]);
      WindowInjective(r0, m[at..end], n[at..end]);
    }
  }

  /** Absorbing the register itself clears it, and nothing else of its length does. */
  lemma ResidueZero(r: Register, check: Register)
    ensures Absorb(r, check) == Zeros(16) <==> check == r
  {
    AbsorbAtOnce(r, r);
    assert r + Zeros(0) == r;
    assert Xor(r, r) == Zeros(16);
    ZeroShifts(16);
    if Absorb(r, check) == Zeros(16) {
      WindowInjective(r, check, r);
    }
  }

  lemma {:induction false} ZeroShifts(n: nat)
    ensures Shifts(Zeros(16), n) == Zeros(16)
  {
    if n == 0 {
    } else {
      assert Shift(Zeros(16)) == Zeros(16);
      ZeroShifts(n - 1);
    }
  }

  // Parity

  /** Three terms below x^16, so four in all. */
  lemma OddPolynom()
    ensures Odd(POLYNOM)
  {
    var a, b, c := Zeros(3) + [true], Zeros(6) + [true], Zeros(4) + [true];
    assert POLYNOM == a + (b + c);
    OddAppend(a, b + c);
    OddAppend(b, c);
    OddOneLast(3);
    OddOneLast(6);
    OddOneLast(4);
  }

  lemma OddOneLast(k: nat)
    ensures Odd(Zeros(k) + [true])
  {
    OddAppend(Zeros(k), [true]);
    OddZeros(k);
  }

  lemma EvenPreset()
    ensures !Odd(PRESET)
  {
    assert PRESET == Ones(8) + Ones(8);
    OddAppend(Ones(8), Ones(8));
  }

  lemma OddShift(r: Register)
    ensures Odd(Shift(r)) == Odd(r)
  {
    var up := r[1..] + [false];
    OddAppend(r[1..], [false]);
    OddPolynom();
    OddXor(up, POLYNOM);
  }

  lemma {:induction false} OddAbsorb(r: Register, m: bits)
    ensures Odd(Absorb(r, m)) == (Odd(r) != Odd(m))
    decreases |m|
  {
    if m == [] {
    } else {
      var r' := [r[0] != m[0]] + r[1..];
      OddShift(r');
      OddAbsorb(Shift(r'), m[1..]);
    }
  }

  lemma OddPadded(data: seq<byte>)
    ensures Odd(OfBytes(Padded(data))) == Odd(OfBytes(data))
  {
    PadsWithZeros(data);
    OddZeros(8);
    OddZeros(0);
    OddAppend(OfBytes(data), Zeros(if |data| % 2 == 1 then 8 else 0));
  }

  lemma ZeroByte()
    ensures OfBytes([0]) == Zeros(8)
  {
    ZeroBits(8);
    assert OfBytes([0]) == OfNumber(0, 8) + OfBytes([]);
  }

  /** The checksum has as many set bits as its input, modulo two. */
  lemma ParityOfCrc16(data: seq<byte>)
    ensures Odd(OfNumber(Crc16(data), 16)) == Odd(OfBytes(data))
  {
    CrcBitsOfCrc16(data);
    OddAbsorb(PRESET, OfBytes(Padded(data)));
    EvenPreset();
    OddPadded(data);
  }

  lemma {:induction false} OddZeros(k: nat)
    ensures !Odd(Zeros(k))
  {
    if k == 0 {
    } else {
      assert Zeros(k)[1..] == Zeros(k - 1);
      OddZeros(k - 1);
    }
  }

  lemma AbsorbAffine(r: Register, m: bits, n: bits)
    requires |m| == |n|
    ensures Absorb(r, Xor(m, n)) == Xor(Xor(Absorb(r, m), Absorb(r, n)), Absorb(r, Zeros(|m|)))
  {
    AbsorbXor(r, r, m, n);
    AbsorbXor(Xor(r, r), r, Xor(m, n), Zeros(|m|));
    assert Xor(Xor(r, r), r) == r;
    assert Xor(Xor(m, n), Zeros(|m|)) == Xor(m, n);
  }

  /** Affine: `crc(a ^ b) == crc(a) ^ crc(b) ^ crc(0)` for inputs of one length. */
  lemma CrcAffine(a: seq<byte>, b: seq<byte>, c: seq<byte>, zero: seq<byte>)
    requires |a| == |b| == |c| == |zero|
    requires OfBytes(c) == Xor(OfBytes(a), OfBytes(b)) && OfBytes(zero) == Zeros(8 * |a|)
    ensures OfNumber(Crc16(c), 16)
         == Xor(Xor(OfNumber(Crc16(a), 16), OfNumber(Crc16(b), 16)), OfNumber(Crc16(zero), 16))
  {
    var pad := Zeros(if |a| % 2 == 1 then 8 else 0);
    PadsWithZeros(a);
    PadsWithZeros(b);
    PadsWithZeros(c);
    PadsWithZeros(zero);
    var pa, pb := OfBytes(a) + pad, OfBytes(b) + pad;
    assert OfBytes(c) + pad == Xor(pa, pb);
    assert OfBytes(zero) + pad == Zeros(|pa|);
    AbsorbAffine(PRESET, pa, pb);
    CrcBitsOfCrc16(a);
    CrcBitsOfCrc16(b);
    CrcBitsOfCrc16(c);
    CrcBitsOfCrc16(zero);
  }

  lemma PadsWithZeros(data: seq<byte>)
    ensures OfBytes(Padded(data)) == OfBytes(data) + Zeros(if |data| % 2 == 1 then 8 else 0)
  {
    OfBytesAppend(data, [0]);
    ZeroByte();
  }

  // Long division

  /** The generator, from x^16 down to x^0. */
  const GENERATOR: bits := [true] + POLYNOM

  /** The leading coefficient cancelled, by the generator if it is there. */
  function Cancelled(dividend: bits): (next: bits)
    requires |dividend| > 16
    ensures |next| == |dividend| - 1
  {
    (if dividend[0] then Xor(dividend[..17], GENERATOR) + dividend[17..] else dividend)[1..]
  }

  /** Schoolbook long division: cancel the leading coefficient until fewer than seventeen are left. */
  function Remainder(dividend: bits): (rem: bits)
    ensures |dividend| >= 16 ==> |rem| == 16
    decreases |dividend|
  {
    if |dividend| <= 16 then dividend else Remainder(Cancelled(dividend))
  }

  /** The coefficients cancelled on the way. */
  function Quotient(dividend: bits): (quotient: bits)
    ensures |dividend| >= 16 ==> |quotient| == |dividend| - 16
    decreases |dividend|
  {
    if |dividend| <= 16 then [] else [dividend[0]] + Quotient(Cancelled(dividend))
  }

  /** The product with the generator: the sum of its shifts, one for each coefficient. */
  function Times(factor: bits): (product: bits)
    ensures |product| == |factor| + 16
  {
    if factor == [] then Zeros(16)
    else Xor((if factor[0] then GENERATOR else Zeros(17)) + Zeros(|factor| - 1), [false] + Times(factor[1..]))
  }

  lemma CancelledBack(d: bits)
    requires |d| > 16
    ensures d == Xor((if d[0] then GENERATOR else Zeros(17)) + Zeros(|d| - 17), [false] + Cancelled(d))
  {
    var head := (if d[0] then GENERATOR else Zeros(17)) + Zeros(|d| - 17);
    forall i | 0 <= i < |d|
      ensures d[i] == Xor(head, [false] + Cancelled(d))[i]
    {
      if i > 0 {
        assert ([false] + Cancelled(d))[i] == Cancelled(d)[i - 1];
      }
    }
  }

  lemma XorShifted(head: bits, a: bits, b: bits)
    requires |a| == |b| && |head| == |a| + 1
    ensures Xor(head, [false] + Xor(a, b)) == Xor(Xor(head, [false] + a), [false] + b)
  {
  }

  lemma DivisionNext(d: bits)
    requires |d| > 16
    ensures Quotient(d) == [d[0]] + Quotient(Cancelled(d)) && Remainder(d) == Remainder(Cancelled(d))
  {
    hide Cancelled;
  }

  lemma TimesNext(b: bool, factor: bits)
    ensures Times([b] + factor)
         == Xor((if b then GENERATOR else Zeros(17)) + Zeros(|factor|), [false] + Times(factor))
  {
    assert ([b] + factor)[1..] == factor;
    hide Xor;
  }

  lemma ZerosNext(k: nat, r: bits)
    ensures [false] + (Zeros(k) + r) == Zeros(k + 1) + r
  {
  }

  lemma DivisionEnds(d: bits)
    requires |d| == 16
    ensures d == Xor(Times(Quotient(d)), Zeros(|d| - 16) + Remainder(d))
  {
    assert Times([]) == Zeros(16) && Zeros(0) + d == d;
  }

  /** Long division divides: quotient times generator, plus remainder, is the dividend. */
  lemma {:induction false} DivisionIdentity(d: bits)
    requires |d| >= 16
    ensures d == Xor(Times(Quotient(d)), Zeros(|d| - 16) + Remainder(d))
    decreases |d|
  {
    hide *;
    if |d| == 16 {
      DivisionEnds(d);
    } else {
      var next := Cancelled(d);
      GeneratorLength();
      var head := (if d[0] then GENERATOR else Zeros(17)) + Zeros(|d| - 17);
      DivisionIdentity(next);
      DivisionNext(d);
      CancelledBack(d);
      TimesNext(d[0], Quotient(next));
      ZerosNext(|d| - 17, Remainder(next));
      XorShifted(head, Times(Quotient(next)), Zeros(|d| - 17) + Remainder(next));
    }
  }

  lemma GeneratorLength()
    ensures |GENERATOR| == 17
  {
  }

  /** The register `r` added to the top of the message `m`, shifted up by x^16. */
  function Dividend(r: Register, m: bits): (d: bits)
    ensures |d| == |m| + 16
  {
    Xor(r + Zeros(|m|), m + Zeros(16))
  }

  lemma DividendNext(r: Register, m: bits)
    requires m != []
    ensures var d := Dividend(r, m);
            var next := Dividend(Shift([r[0] != m[0]] + r[1..]), m[1..]);
            next == Cancelled(d)
  {
    var d := Dividend(r, m);
    var top := [r[0] != m[0]] + r[1..];
    var s, rest := Shift(top), m[1..];
    var next := Dividend(s, rest);
    var step := if d[0] then Xor(d[..17], GENERATOR) + d[17..] else d;
    forall i | 0 <= i < |next|
      ensures next[i] == step[1..][i]
    {
      var up := r[1..] + [false];
      assert i < 16 ==> s[i] == (up[i] != (top[0] && POLYNOM[i]));
      assert d[i + 1] == (((r + Zeros(|m|))[i + 1]) != ((m + Zeros(16))[i + 1]));
      assert i < 16 ==> up[i] == (r + Zeros(|m|))[i + 1];
      assert (rest + Zeros(16))[i] == (m + Zeros(16))[i + 1];
    }
  }

  /** Shifting a message through the register divides it. */
  lemma {:induction false} AbsorbDivides(r: Register, m: bits)
    ensures Absorb(r, m) == Remainder(Dividend(r, m))
    decreases |m|
  {
    if m == [] {
      assert Dividend(r, m) == r;
    } else {
      DividendNext(r, m);
      AbsorbDivides(Shift([r[0] != m[0]] + r[1..]), m[1..]);
    }
  }

  /** `crc16` is the remainder of the padded message, shifted up by x^16, with its first sixteen bits inverted. */
  lemma CrcIsRemainder(data: seq<byte>)
    ensures OfNumber(Crc16(data), 16) == Remainder(Dividend(PRESET, OfBytes(Padded(data))))
  {
    CrcBitsOfCrc16(data);
    AbsorbDivides(PRESET, OfBytes(Padded(data)));
  }
}
