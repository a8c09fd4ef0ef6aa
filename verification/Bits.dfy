/** Bit strings, most significant bit first, and their exclusive or. */
module Bits {
  import opened Bytes

  type bits = seq<bool>

  /** The low `k` bits of `n`. */
  function OfNumber(n: nat, k: nat): (s: bits)
    ensures |s| == k
  {
    if k == 0 then [] else OfNumber(n / 2, k - 1) + [n % 2 == 1]
  }

  function Number(s: bits): nat {
    if s == [] then 0 else 2 * Number(s[..|s| - 1]) + (if s[|s| - 1] then 1 else 0)
  }

  function Pow2(k: nat): (p: nat)
    ensures p > 0
  {
    if k == 0 then 1 else 2 * Pow2(k - 1)
  }

  lemma {:induction false} NumberOfNumber(n: nat, k: nat)
    requires n < Pow2(k)
    ensures Number(OfNumber(n, k)) == n
  {
    if k == 0 {
    } else {
      assert OfNumber(n, k)[..k - 1] == OfNumber(n / 2, k - 1);
      NumberOfNumber(n / 2, k - 1);
    }
  }

  lemma {:induction false} OfNumberNumber(s: bits)
    ensures Number(s) < Pow2(|s|)
    ensures OfNumber(Number(s), |s|) == s
  {
    if s == [] {
    } else {
      OfNumberNumber(s[..|s| - 1]);
      assert s == s[..|s| - 1] + [s[|s| - 1]];
    }
  }

  lemma BitWidths()
    ensures Pow2(8) == 0x100 && Pow2(15) == 0x8000 && Pow2(16) == 0x1_0000
  {
    assert Pow2(4) == 16;
    assert Pow2(8) == 0x100;
    assert Pow2(12) == 0x1000;
  }

  function Halved(n: nat, k: nat): nat {
    if k == 0 then n else Halved(n / 2, k - 1)
  }

  function Zeros(k: nat): (s: bits)
    ensures |s| == k && forall i :: 0 <= i < k ==> !s[i]
  {
    seq(k, i => false)
  }

  function Ones(k: nat): (s: bits)
    ensures |s| == k && forall i :: 0 <= i < k ==> s[i]
  {
    seq(k, i => true)
  }

  lemma {:induction false} ZeroBits(k: nat)
    ensures OfNumber(0, k) == Zeros(k)
  {
    if k == 0 {
    } else {
      ZeroBits(k - 1);
    }
  }

  lemma {:induction false} OfNumberSplit(n: nat, j: nat, k: nat)
    ensures OfNumber(n, j + k) == OfNumber(Halved(n, k), j) + OfNumber(n, k)
    decreases k
  {
    if k == 0 {
    } else {
      OfNumberSplit(n / 2, j, k - 1);
    }
  }

  lemma {:induction false} HalvedDiv(n: nat, k: nat)
    ensures Halved(n, k) == n / Pow2(k)
    decreases k
  {
    if k == 0 {
    } else {
      HalvedDiv(n / 2, k - 1);
      DivDiv(n, Pow2(k - 1));
    }
  }

  lemma DivDiv(n: nat, p: nat)
    requires p > 0
    ensures (n / 2) / p == n / (2 * p)
  {
    var q := (n / 2) / p;
    var r := n - 2 * (p * q);
    assert 0 <= r < 2 * p by {
      assert n / 2 == p * q + (n / 2) % p;
    }
    assert n == (2 * p) * q + r;
    DivUnique(n, 2 * p, q, r);
  }

  lemma OfTwoBytes(hi: byte, lo: byte)
    ensures OfBytes([hi, lo]) == OfNumber(hi, 8) + OfNumber(lo, 8)
  {
    assert OfBytes([hi, lo][1..]) == OfNumber(lo, 8) + OfBytes([]);
  }

  /** The low `k` bits do not depend on what lies above them. */
  lemma {:induction false} LowBits(m: nat, n: nat, h: int, k: nat)
    requires m == n + Pow2(k) * h
    ensures OfNumber(m, k) == OfNumber(n, k)
    decreases k
  {
    if k == 0 {
    } else {
      var d := Pow2(k - 1) * h;
      assert m == n + 2 * d by {
        assert Pow2(k) * h == 2 * d;
      }
      LowBits(m / 2, n / 2, h, k - 1);
    }
  }

  /** A 16-bit number is its high byte followed by its low byte. */
  lemma OfBytesBe2(n: nat)
    requires n < 0x1_0000
    ensures OfBytes(Be(n, 2)) == OfNumber(n, 16)
  {
    BeTwo(n);
    OfTwoBytes(n / 0x100, n % 0x100);
    OfNumberSplit(n, 8, 8);
    HalvedDiv(n, 8);
    BitWidths();
    LowBits(n, n % 0x100, n / 0x100, 8);
  }

  lemma Grow(n: nat, k: nat, b: bool)
    ensures OfNumber(2 * n + (if b then 1 else 0), k + 1) == OfNumber(n, k) + [b]
  {
  }

  function Nibble(b3: bool, b2: bool, b1: bool, b0: bool): nat {
    (if b3 then 8 else 0) + (if b2 then 4 else 0) + (if b1 then 2 else 0) + (if b0 then 1 else 0)
  }

  lemma GrowTwo(n: nat, m: nat, k: nat, b1: bool, b0: bool)
    requires m == 4 * n + (if b1 then 2 else 0) + (if b0 then 1 else 0)
    ensures OfNumber(m, k + 2) == OfNumber(n, k) + [b1, b0]
  {
    Grow(n, k, b1);
    Grow(2 * n + (if b1 then 1 else 0), k + 1, b0);
  }

  /** One more hexadecimal digit. */
  lemma Digit(n: nat, m: nat, k: nat, b3: bool, b2: bool, b1: bool, b0: bool)
    requires m == 0x10 * n + Nibble(b3, b2, b1, b0)
    ensures OfNumber(m, k + 4) == OfNumber(n, k) + [b3, b2, b1, b0]
  {
    var h := 4 * n + (if b3 then 2 else 0) + (if b2 then 1 else 0);
    GrowTwo(n, h, k, b3, b2);
    GrowTwo(h, m, k + 2, b1, b0);
  }

  lemma {:induction false} OneBits(k: nat)
    ensures OfNumber(Pow2(k) - 1, k) == Ones(k)
  {
    if k == 0 {
    } else {
      OneBits(k - 1);
      Grow(Pow2(k - 1) - 1, k - 1, true);
    }
  }

  function Xor(a: bits, b: bits): (s: bits)
    requires |a| == |b|
    ensures |s| == |a| && forall i :: 0 <= i < |s| ==> s[i] == (a[i] != b[i])
  {
    seq(|a|, i requires 0 <= i < |a| => a[i] != b[i])
  }

  /** Bitwise exclusive or of naturals: Rust's `^`. */
  function XorNumber(a: nat, b: nat): nat
    decreases a + b
  {
    if a == 0 && b == 0 then 0
    else 2 * XorNumber(a / 2, b / 2) + (if a % 2 != b % 2 then 1 else 0)
  }

  lemma {:induction false} XorNumberBits(a: nat, b: nat, k: nat)
    ensures OfNumber(XorNumber(a, b), k) == Xor(OfNumber(a, k), OfNumber(b, k))
    decreases k
  {
    if k == 0 {
    } else {
      XorNumberBits(a / 2, b / 2, k - 1);
      var x := XorNumber(a, b);
      if a == 0 && b == 0 {
        assert XorNumber(a / 2, b / 2) == 0;
      }
      assert x / 2 == XorNumber(a / 2, b / 2) && (x % 2 == 1 <==> a % 2 != b % 2);
    }
  }

  lemma {:induction false} XorNumberBound(a: nat, b: nat, k: nat)
    requires a < Pow2(k) && b < Pow2(k)
    ensures XorNumber(a, b) < Pow2(k)
    decreases k
  {
    if k == 0 {
    } else {
      XorNumberBound(a / 2, b / 2, k - 1);
      if a == 0 && b == 0 {}
    }
  }

  /** The bits of a byte string. */
  function OfBytes(data: seq<byte>): (s: bits)
    ensures |s| == 8 * |data|
  {
    if data == [] then [] else OfNumber(data[0], 8) + OfBytes(data[1..])
  }

  lemma {:induction false} OfBytesAppend(a: seq<byte>, b: seq<byte>)
    ensures OfBytes(a + b) == OfBytes(a) + OfBytes(b)
  {
    if a == [] {
      assert a + b == b;
    } else {
      assert (a + b)[1..] == a[1..] + b;
      OfBytesAppend(a[1..], b);
    }
  }

  lemma {:induction false} OfBytesInjective(a: seq<byte>, b: seq<byte>)
    requires |a| == |b| && OfBytes(a) == OfBytes(b)
    ensures a == b
  {
    if a == [] {
    } else {
      BitWidths();
      assert OfNumber(a[0], 8) == OfBytes(a)[..8] == OfBytes(b)[..8] == OfNumber(b[0], 8);
      assert OfBytes(a[1..]) == OfBytes(a)[8..] == OfBytes(b)[8..] == OfBytes(b[1..]);
      NumberOfNumber(a[0], 8);
      NumberOfNumber(b[0], 8);
      OfBytesInjective(a[1..], b[1..]);
    }
  }

  /** True when an odd number of bits is set. */
  predicate Odd(s: bits) {
    s != [] && s[0] != Odd(s[1..])
  }

  /** How many positions two strings differ in. */
  function Distance(a: bits, b: bits): nat
    requires |a| == |b|
  {
    if a == [] then 0 else (if a[0] != b[0] then 1 else 0) + Distance(a[1..], b[1..])
  }

  lemma {:induction false} OddDistance(a: bits, b: bits)
    requires |a| == |b|
    ensures Distance(a, b) % 2 == 1 <==> Odd(a) != Odd(b)
  {
    if a == [] {
    } else {
      OddDistance(a[1..], b[1..]);
    }
  }

  lemma {:induction false} OddAppend(a: bits, b: bits)
    ensures Odd(a + b) == (Odd(a) != Odd(b))
  {
    if a == [] {
      assert a + b == b;
    } else {
      assert (a + b)[1..] == a[1..] + b;
      OddAppend(a[1..], b);
    }
  }

  lemma {:induction false} OddXor(a: bits, b: bits)
    requires |a| == |b|
    ensures Odd(Xor(a, b)) == (Odd(a) != Odd(b))
  {
    if a == [] {
    } else {
      assert Xor(a, b)[1..] == Xor(a[1..], b[1..]);
      OddXor(a[1..], b[1..]);
    }
  }
}
