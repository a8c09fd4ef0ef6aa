/** Bytes, the big-endian integers of the wire format, and results. */
module Bytes {

  type byte = x: int | 0 <= x < 0x100
  type u16 = x: int | 0 <= x < 0x1_0000
  type u32 = x: int | 0 <= x < 0x1_0000_0000

  datatype Option<+T> = None | Some(value: T)

  datatype Result<+T, +E> = Ok(value: T) | Err(error: E)

  /** `n as u8`: the low eight bits of a two's complement integer. */
  function Low(n: int): byte {
    n % 0x100
  }

  function Pow256(k: nat): (p: nat)
    ensures p > 0
  {
    if k == 0 then 1 else 0x100 * Pow256(k - 1)
  }

  /** `to_be_bytes`: the low `k` bytes of `n`, two's complement, most significant first. */
  function Be(n: int, k: nat): (bs: seq<byte>)
    ensures |bs| == k
    decreases k, n
  {
    if k == 0 then [] else Be(n / 0x100, k - 1) + [Low(n)]
  }

  /** `from_be_bytes` of an unsigned integer. */
  function FromBe(bs: seq<byte>): (n: nat)
    ensures n < Pow256(|bs|)
  {
    if bs == [] then 0 else 0x100 * FromBe(bs[..|bs| - 1]) + bs[|bs| - 1]
  }

  lemma {:induction false} FromBeBe(n: int, k: nat)
    ensures FromBe(Be(n, k)) == n % Pow256(k)
    decreases k
  {
    if k == 0 {
    } else {
      FromBeBe(n / 0x100, k - 1);
      assert Be(n, k)[..k - 1] == Be(n / 0x100, k - 1);
      ModSplit(n, Pow256(k - 1));
    }
  }

  lemma {:induction false} BeFromBe(bs: seq<byte>)
    ensures Be(FromBe(bs), |bs|) == bs
  {
    if bs == [] {
    } else {
      BeFromBe(bs[..|bs| - 1]);
      assert bs == bs[..|bs| - 1] + [bs[|bs| - 1]];
    }
  }

  lemma ModSplit(n: int, p: nat)
    requires p > 0
    ensures n % (0x100 * p) == 0x100 * ((n / 0x100) % p) + n % 0x100
  {
    var q := n / 0x100;
    var m := 0x100 * (q % p) + n % 0x100;
    assert n == (0x100 * p) * (q / p) + m by {
      assert q == p * (q / p) + q % p;
    }
    ModUnique(n, 0x100 * p, q / p, m);
  }

  lemma ModUnique(n: int, d: nat, q: int, r: int)
    requires d > 0 && n == d * q + r && 0 <= r < d
    ensures n % d == r
  {
    DivUnique(n, d, q, r);
  }

  lemma DivUnique(n: int, d: nat, q: int, r: int)
    requires d > 0 && n == d * q + r && 0 <= r < d
    ensures n / d == q
  {
    var k := n / d - q;
    assert d * k == r - n % d;
    assert k == 0 by {
      assert k >= 1 ==> d * k >= d;
      assert k <= -1 ==> d * k <= d * -1;
    }
  }

  lemma ModSmall(n: nat, d: nat)
    requires n < d
    ensures n % d == n
  {
    ModUnique(n, d, 0, n);
  }

  /** `u16::from_be_bytes`. */
  function FromBe2(hi: byte, lo: byte): u16 {
    var high: int := hi;
    0x100 * high + lo
  }

  lemma BeTwo(n: nat)
    requires n < 0x1_0000
    ensures Be(n, 2) == [n / 0x100, n % 0x100]
  {
    assert Be(n / 0x100, 1) == [] + [Low(n / 0x100)];
  }

  lemma BeFromBe2(hi: byte, lo: byte)
    ensures Be(FromBe2(hi, lo), 2) == [hi, lo]
  {
    BeTwo(FromBe2(hi, lo));
  }

  /** The widths in use: one, two and four bytes. */
  lemma ByteWidths()
    ensures Pow256(1) == 0x100 && Pow256(2) == 0x1_0000 && Pow256(4) == 0x1_0000_0000
  {
    assert Pow256(2) == 0x100 * Pow256(1);
    assert Pow256(3) == 0x100 * Pow256(2);
  }

  function Concat<T>(parts: seq<seq<T>>): seq<T> {
    if parts == [] then [] else parts[0] + Concat(parts[1..])
  }

  lemma {:induction false} ConcatAppend<T>(a: seq<seq<T>>, b: seq<seq<T>>)
    ensures Concat(a + b) == Concat(a) + Concat(b)
  {
    if a == [] {
      assert a + b == b;
    } else {
      assert (a + b)[1..] == a[1..] + b;
      ConcatAppend(a[1..], b);
    }
  }
}
