/**
 * What the codec's bytes mean, in numbers: decoding from the positions of the payload bytes alone,
 * encoding from the mathematical value alone.
 */
module CodecMeaning {
  import opened Bytes
  import opened Codec

  /** The first two bytes as a number, the first four, whatever follows. */
  function Two(data: seq<byte>): nat
    requires |data| >= 2
  {
    data[0] as int * 256 + data[1]
  }

  function Four(data: seq<byte>): nat
    requires |data| >= 4
  {
    data[0] as int * 0x100_0000 + data[1] as int * 0x1_0000 + data[2] as int * 0x100 + data[3]
  }

  /** Two's complement: a number with its top bit set stands for the one that is `modulus` below it. */
  function Centre(n: int, modulus: int): int {
    if n < modulus / 2 then n else n - modulus
  }

  lemma FromBeOne(b: byte)
    ensures FromBe([b]) == b
  {
    assert [b][..0] == [];
  }

  lemma FromBeTwo(data: seq<byte>)
    requires |data| >= 2
    ensures FromBe(data[..2]) == Two(data)
  {
    assert data[..2][..1] == [data[0]];
    FromBeOne(data[0]);
  }

  lemma FromBeFour(data: seq<byte>)
    requires |data| >= 4
    ensures FromBe(data[..4]) == Four(data)
  {
    FromBeTwo(data);
    assert data[..4][..3] == data[..3] && data[..3][..2] == data[..2];
    var n2, n3, n4 := FromBe(data[..2]), FromBe(data[..3]), FromBe(data[..4]);
    assert n3 == 0x100 * n2 + data[2];
    assert n4 == 0x100 * n3 + data[3];
  }

  /** Two's complement of the numbers in the bytes. */
  lemma SignedIsCentre(n: nat)
    ensures n < 0x100 ==> Signed(n, 1) == Centre(n, 0x100)
    ensures n < 0x1_0000 ==> Signed(n, 2) == Centre(n, 0x1_0000)
    ensures n < 0x1_0000_0000 ==> Signed(n, 4) == Centre(n, 0x1_0000_0000)
  {
    ByteWidths();
  }

  /** The bytes that a payload must have, by type. */
  function Needed(t: DataType): nat {
    match t
    case Bool => 1
    case Uint8 => 1
    case Int8 => 1
    case String => 1
    case Uint16 => 2
    case Int16 => 2
    case Enum => 4
    case Uint32 => 4
    case Int32 => 4
    case Float => 4
    case _ => 0
  }

  /** What a payload that is long enough means. */
  ghost predicate Means(t: DataType, data: seq<byte>, v: DataValue)
    requires |data| >= Needed(t)
  {
    match t
    case Bool => v == BoolValue(data[0] != 0)
    case Uint8 => v.U8? && v.u8 == data[0]
    case Int8 => v.I8? && v.i8 == Centre(data[0], 256)
    case Uint16 => v.U16? && v.u16 == Two(data)
    case Int16 => v.I16? && v.i16 == Centre(Two(data), 65536)
    case Uint32 => v.U32? && v.u32 == Four(data)
    case Enum => v.U32? && v.u32 == Four(data)
    case Int32 => v.I32? && v.i32 == Centre(Four(data), 4294967296)
    case Float => v.F32? && v.bits == Four(data)
    case String =>
      v.Str? && v.text <= data && 0 !in v.text && (|v.text| == |data| || data[|v.text|] == 0)
    case _ => v == Raw(data)
  }

  lemma {:induction false} UpToNulMeans(data: seq<byte>)
    ensures var text := UpToNul(data);
            text <= data && 0 !in text && (|text| == |data| || data[|text|] == 0)
    decreases |data|
  {
    if data == [] || data[0] == 0 {
    } else {
      UpToNulMeans(data[1..]);
      assert data == [data[0]] + data[1..];
    }
  }

  /**
   * What decoding means, for every type and every payload: too short exactly below the bytes needed,
   * with both lengths in the error; otherwise the number, truth value or text that the bytes hold.
   */
  lemma DecodedMeans(t: DataType, data: seq<byte>)
    ensures var r := DecodeValue(t, data);
            if |data| < Needed(t) then r == Err(PayloadTooShort(|data|, Needed(t)))
            else r.Ok? && Means(t, data, r.value)
  {
    ByteWidths();
    if |data| >= Needed(t) {
      if Needed(t) == 2 {
        FromBeTwo(data);
        SignedIsCentre(Two(data));
      } else if Needed(t) == 4 {
        FromBeFour(data);
        SignedIsCentre(Four(data));
      } else if t == Int8 {
        SignedIsCentre(data[0]);
      } else if t == String {
        UpToNulMeans(data);
      }
    }
  }

  // Encoding

  /** The number that a truth value or an integer stands for. */
  function MathValue(v: DataValue): int
    requires !v.F32? && !v.Str? && !v.Raw?
  {
    if v.BoolValue? then (if v.b then 1 else 0) else Number(v)
  }

  /** The number in one, two or four bytes. */
  function InBytes(bytes: seq<byte>): nat
    requires |bytes| == 1 || |bytes| == 2 || |bytes| == 4
  {
    if |bytes| == 1 then bytes[0] else if |bytes| == 2 then Two(bytes) else Four(bytes)
  }

  /** Bytes on the wire by integer type, and the number of values they can hold. */
  function WireBytes(t: DataType): nat {
    match t
    case Uint8 => 1
    case Int8 => 1
    case Enum => 1
    case Uint16 => 2
    case Int16 => 2
    case Uint32 => 4
    case Int32 => 4
    case _ => 0
  }

  function Modulus(bytes: nat): nat {
    if bytes == 1 then 256 else if bytes == 2 then 65536 else 4294967296
  }

  lemma BytesHold(n: int)
    ensures |Be(n, 2)| == 2 && |Be(n, 4)| == 4
    ensures InBytes([Low(n)]) == n % 256
    ensures InBytes(Be(n, 2)) == n % 65536
    ensures InBytes(Be(n, 4)) == n % 4294967296
  {
    hide *;
    ByteWidths();
    FromBeBe(n, 2);
    FromBeBe(n, 4);
    OneByteHolds(n);
    InBytesAre(Be(n, 2), Be(n, 4));
  }

  lemma OneByteHolds(n: int)
    ensures InBytes([Low(n)]) == n % 256
  {
  }

  lemma InBytesAre(two: seq<byte>, four: seq<byte>)
    requires |two| == 2 && |four| == 4
    ensures InBytes(two) == FromBe(two) && InBytes(four) == FromBe(four)
  {
    FromBeTwo(two);
    FromBeFour(four);
    assert two[..2] == two && four[..4] == four;
    hide FromBe;
  }

  /** Cutting a number down does not change it modulo the number of values. */
  lemma IntegerHolds(t: DataType, n: int)
    requires WireBytes(t) > 0
    ensures IntegerWidth(t) == WireBytes(t)
    ensures var bytes := EncodeValue(Integer(t, n));
            |bytes| == WireBytes(t) && InBytes(bytes) == n % Modulus(WireBytes(t))
  {
    ByteWidths();
    var v := Integer(t, n);
    IntegerWraps(t, n);
    BytesHold(Number(v));
    SameRemainder(Number(v), n, Modulus(WireBytes(t)));
    hide Be, Signed;
    match v {
      case U8(m) => assert Low(m) == m;
      case _ =>
    }
  }

  lemma SameRemainder(a: int, b: int, m: nat)
    requires m > 0 && (a - b) % m == 0
    ensures a % m == b % m
  {
    var q, p := (a - b) / m, b / m;
    assert a - b == m * q && b == m * p + b % m;
    assert a == m * (p + q) + b % m;
    ModUnique(a, m, p + q, b % m);
  }

  /** The types that a value can be written to. */
  predicate Encodable(t: DataType, v: DataValue) {
    match t
    case Bool => v.BoolValue? || v.I8? || v.U8?
    case String => v.Str?
    case Float => !v.Str? && !v.Raw?
    case _ => WireBytes(t) > 0 && !v.Str? && !v.Raw?
  }

  /** The integer that a value is written as; for a float, what the cast makes of it. */
  function Written(v: DataValue, casts: Casts): int
    requires !v.Str? && !v.Raw?
  {
    if v.F32? then casts.toInt(v.bits) else MathValue(v)
  }

  /** What the bytes written are. */
  ghost predicate WriteMeans(t: DataType, v: DataValue, casts: Casts, bytes: seq<byte>)
    requires Encodable(t, v)
  {
    if t == Bool then bytes == if MathValue(v) == 0 then [0] else [1]
    else if t == String then bytes == v.text
    else if t == Float then |bytes| == 4 && Four(bytes) == if v.F32? then v.bits else casts.toFloat(MathValue(v))
    else |bytes| == WireBytes(t) && InBytes(bytes) == Written(v, casts) % Modulus(WireBytes(t))
  }

  lemma ToIntegerIs(v: DataValue, casts: Casts)
    ensures ToInteger(v, casts) == if v.Str? || v.Raw? then Err(InvalidValue) else Ok(Written(v, casts))
  {
  }

  lemma FloatBytes(bits: u32)
    ensures |Be(bits, 4)| == 4 && Four(Be(bits, 4)) == bits
  {
    BytesHold(bits);
    hide Be;
  }

  /** The error of a type that a value cannot be written to. */
  function WriteError(t: DataType): CodecError {
    if t == Bool || t == String || t == Float || WireBytes(t) > 0 then InvalidValue else UnknownDataType
  }

  lemma EncodedInteger(t: DataType, v: DataValue, casts: Casts)
    requires WireBytes(t) > 0
    ensures var r := EncodeFor(t, v, casts);
            if Encodable(t, v) then r.Ok? && WriteMeans(t, v, casts, r.value) else r == Err(InvalidValue)
  {
    ToIntegerIs(v, casts);
    if Encodable(t, v) {
      IntegerHolds(t, Written(v, casts));
    }
    hide Integer, EncodeValue, ToInteger, MathValue, InBytes, Modulus, Written;
  }

  lemma EncodedFloat(v: DataValue, casts: Casts)
    ensures var r := EncodeFor(Float, v, casts);
            if Encodable(Float, v) then r.Ok? && WriteMeans(Float, v, casts, r.value) else r == Err(InvalidValue)
  {
    ToIntegerIs(v, casts);
    if Encodable(Float, v) {
      FloatBytes(if v.F32? then v.bits else casts.toFloat(MathValue(v)));
    }
    hide Be, ToInteger, MathValue, Four;
  }

  /**
   * What encoding means, for every type and every value: which pairs are errors, and which; and of the
   * others, the number, truth value or text that the bytes hold. An integer keeps its mathematical
   * value modulo the number of values that the type's bytes can hold.
   */
  lemma EncodedMeans(t: DataType, v: DataValue, casts: Casts)
    ensures var r := EncodeFor(t, v, casts);
            if Encodable(t, v) then r.Ok? && WriteMeans(t, v, casts, r.value) else r == Err(WriteError(t))
  {
    if WireBytes(t) > 0 {
      hide *;
      EncodedInteger(t, v, casts);
      IntegerErrors(t);
    } else if t == Float {
      hide *;
      EncodedFloat(v, casts);
      FloatErrors();
    }
  }

  lemma IntegerErrors(t: DataType)
    requires WireBytes(t) > 0
    ensures WriteError(t) == InvalidValue
  {
  }

  lemma FloatErrors()
    ensures WriteError(Float) == InvalidValue
  {
  }

  // Equality of floats

  /** The bit patterns that are no numbers, and those that are zero. */
  lemma FloatPatterns(bits: u32)
    ensures IsNan(bits) <==> (0x7F80_0000 < bits < 0x8000_0000 || 0xFF80_0000 < bits)
    ensures IsZero(bits) <==> bits == 0 || bits == 0x8000_0000
  {
  }

  /** A float equals itself exactly if it is a number, and the two zeros are equal. */
  lemma FloatsEqual(a: u32, b: u32)
    ensures ValueEq(F32(a), F32(b)) <==>
              !IsNan(a) && !IsNan(b) && (a == b || {a, b} == {0, 0x8000_0000})
  {
    FloatPatterns(a);
    FloatPatterns(b);
    if a != b && {a, b} == {0, 0x8000_0000} {
      assert a in {a, b} && b in {a, b};
    }
  }
}
