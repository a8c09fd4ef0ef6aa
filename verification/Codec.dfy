/** Values, their wire types, and how they are encoded and decoded. */
module Codec {
  import opened Bytes

  type i8 = x: int | -0x80 <= x < 0x80
  type i16 = x: int | -0x8000 <= x < 0x8000
  type i32 = x: int | -0x8000_0000 <= x < 0x8000_0000

  datatype DataType =
    | Unknown | Bool | Uint8 | Int8 | Uint16 | Int16 | Uint32 | Int32 | Enum | Float | String
    | Timeseries | EventTable | BatteryModuleStatus | BatteryModuleStatistics | BatteryModuleResistance

  /** A protocol value. A float is its 32 bits, a text its bytes. */
  datatype DataValue =
    | BoolValue(b: bool)
    | I8(i8: i8)
    | U8(u8: byte)
    | I16(i16: i16)
    | U16(u16: u16)
    | I32(i32: i32)
    | U32(u32: u32)
    | F32(bits: u32)
    | Str(text: seq<byte>)
    | Raw(raw: seq<byte>)

  /** The casts between floats and integers, which the model leaves open. */
  datatype Casts = Casts(toInt: u32 -> int, toFloat: int -> u32)

  datatype CodecError = InvalidValue | UnknownDataType | PayloadTooShort(len: nat, need: nat)

  /** `to_be_bytes` of every kind of value. */
  function EncodeValue(v: DataValue): seq<byte> {
    match v
    case BoolValue(b) => [if b then 1 else 0]
    case U8(n) => [n]
    case I8(n) => [Low(n)]
    case U16(n) => Be(n, 2)
    case I16(n) => Be(n, 2)
    case U32(n) => Be(n, 4)
    case I32(n) => Be(n, 4)
    case F32(bits) => Be(bits, 4)
    case Str(text) => text
    case Raw(raw) => raw
  }

  function ToInteger(v: DataValue, casts: Casts): Result<int, CodecError> {
    match v
    case BoolValue(b) => Ok(if b then 1 else 0)
    case I8(n) => Ok(n)
    case U8(n) => Ok(n)
    case I16(n) => Ok(n)
    case U16(n) => Ok(n)
    case I32(n) => Ok(n)
    case U32(n) => Ok(n)
    case F32(bits) => Ok(casts.toInt(bits))
    case _ => Err(InvalidValue)
  }

  /** The range of a two's complement number of `w` bytes. */
  predicate Centred(n: int, w: nat) {
    0 <= 2 * n + Pow256(w) && 2 * n < Pow256(w)
  }

  /** `n as i8`, `as i16`, `as i32`: the low `w` bytes, as a two's complement number. */
  function Signed(n: int, w: nat): (m: int)
    ensures Centred(m, w)
  {
    var m := n % Pow256(w);
    if 2 * m < Pow256(w) then m else m - Pow256(w)
  }

  /** The first half of `encode_for`: the value in the representation of the wire type. */
  function Normalized(t: DataType, v: DataValue, casts: Casts): Result<DataValue, CodecError> {
    ByteWidths();
    match t
    case Bool =>
      if v.BoolValue? then Ok(v)
      else if v.I8? then Ok(BoolValue(v.i8 != 0))
      else if v.U8? then Ok(BoolValue(v.u8 != 0))
      else Err(InvalidValue)
    case Float =>
      if v.F32? then Ok(v)
      else
        (match ToInteger(v, casts)
         case Ok(n) => Ok(F32(casts.toFloat(n)))
         case Err(e) => Err(e))
    case String => if v.Str? then Ok(v) else Err(InvalidValue)
    case _ =>
      if IntegerWidth(t) == 0 then Err(UnknownDataType)
      else
        match ToInteger(v, casts)
        case Ok(n) => Ok(Integer(t, n))
        case Err(e) => Err(e)
  }

  /** The bytes of an integer type, as encoded; an ENUM is encoded like a UINT8. */
  function IntegerWidth(t: DataType): nat {
    match t
    case Uint8 => 1
    case Int8 => 1
    case Enum => 1
    case Uint16 => 2
    case Int16 => 2
    case Uint32 => 4
    case Int32 => 4
    case _ => 0
  }

  /** An integer cut down to the width of its type. */
  function Integer(t: DataType, n: int): DataValue
    requires IntegerWidth(t) > 0
  {
    ByteWidths();
    match t
    case Uint8 => U8(n % 0x100)
    case Enum => U8(n % 0x100)
    case Int8 => I8(Signed(n, 1))
    case Uint16 => U16(n % 0x1_0000)
    case Int16 => I16(Signed(n, 2))
    case Uint32 => U32(n % 0x1_0000_0000)
    case Int32 => I32(Signed(n, 4))
  }

  function EncodeFor(t: DataType, v: DataValue, casts: Casts): Result<seq<byte>, CodecError> {
    match Normalized(t, v, casts)
    case Ok(n) => Ok(EncodeValue(n))
    case Err(e) => Err(e)
  }

  /** The payload bytes that decoding needs; `None` for the types that are returned raw. */
  function Need(t: DataType): Option<nat> {
    match t
    case Bool => Some(1)
    case Uint8 => Some(1)
    case Int8 => Some(1)
    case Uint16 => Some(2)
    case Int16 => Some(2)
    case Enum => Some(4)
    case Uint32 => Some(4)
    case Int32 => Some(4)
    case Float => Some(4)
    case String => Some(1)
    case _ => None
  }

  function DecodeValue(t: DataType, data: seq<byte>): Result<DataValue, CodecError> {
    if Need(t).None? then Ok(Raw(data))
    else if |data| < Need(t).value then Err(PayloadTooShort(|data|, Need(t).value))
    else
      ByteWidths();
      match t
      case Bool => Ok(BoolValue(data[0] != 0))
      case Uint8 => Ok(U8(data[0]))
      case Int8 => Ok(I8(Signed(data[0], 1)))
      case Uint16 => Ok(U16(FromBe(data[..2])))
      case Int16 => Ok(I16(Signed(FromBe(data[..2]), 2)))
      case Enum => Ok(U32(FromBe(data[..4])))
      case Uint32 => Ok(U32(FromBe(data[..4])))
      case Int32 => Ok(I32(Signed(FromBe(data[..4]), 4)))
      case Float => Ok(F32(FromBe(data[..4])))
      case String => Ok(Str(UpToNul(data)))
  }

  /** The bytes before the first NUL, all of them if there is none. */
  function UpToNul(data: seq<byte>): seq<byte> {
    if data == [] || data[0] == 0 then [] else [data[0]] + UpToNul(data[1..])
  }

  // Round trips

  /** The values a wire type encodes to. */
  predicate Holds(t: DataType, v: DataValue) {
    match t
    case Bool => v.BoolValue?
    case Uint8 => v.U8?
    case Enum => v.U8?
    case Int8 => v.I8?
    case Uint16 => v.U16?
    case Int16 => v.I16?
    case Uint32 => v.U32?
    case Int32 => v.I32?
    case Float => v.F32?
    case String => v.Str?
    case _ => false
  }

  /** What can be encoded has the type's representation, and what has it already is encoded as it is. */
  lemma NormalizedHolds(t: DataType, v: DataValue, casts: Casts)
    ensures var n := Normalized(t, v, casts);
            (n.Ok? ==> Holds(t, n.value)) && (Holds(t, v) ==> n == Ok(v))
  {
    ByteWidths();
    SignedSame(v);
  }

  lemma SignedSame(v: DataValue)
    ensures v.I8? ==> Signed(v.i8, 1) == v.i8
    ensures v.I16? ==> Signed(v.i16, 2) == v.i16
    ensures v.I32? ==> Signed(v.i32, 4) == v.i32
  {
    ByteWidths();
    if v.I8? {
      SignedInRange(v.i8, 1);
    } else if v.I16? {
      SignedInRange(v.i16, 2);
    } else if v.I32? {
      SignedInRange(v.i32, 4);
    }
  }

  lemma SignedInRange(n: int, w: nat)
    requires Centred(n, w)
    ensures Signed(n, w) == n && Signed(n % Pow256(w), w) == n
  {
    ModUnique(n, Pow256(w), if n < 0 then -1 else 0, if n < 0 then n + Pow256(w) else n);
    ModSmall(n % Pow256(w), Pow256(w));
  }

  /** Two's complement there and back. */
  lemma SignedBe(n: int, w: nat)
    requires Centred(n, w)
    ensures Signed(FromBe(Be(n, w)), w) == n
  {
    FromBeBe(n, w);
    SignedInRange(n, w);
  }

  lemma UnsignedBe(n: nat, w: nat)
    requires n < Pow256(w)
    ensures FromBe(Be(n, w)) == n
  {
    FromBeBe(n, w);
    ModSmall(n, Pow256(w));
  }

  lemma Front(a: seq<byte>, b: seq<byte>)
    ensures (a + b)[..|a|] == a
  {
  }

  /** The types whose encoding has the width that decoding expects. */
  lemma FixedWidth(t: DataType, v: DataValue, trailing: seq<byte>)
    requires Holds(t, v) && t != Enum && t != String
    ensures DecodeValue(t, EncodeValue(v) + trailing) == Ok(v)
  {
    ByteWidths();
    Front(EncodeValue(v), trailing);
    match v
    case I8(n) => SignedBe(n, 1); BeSingle(n);
    case I16(n) => SignedBe(n, 2);
    case I32(n) => SignedBe(n, 4);
    case U16(n) => UnsignedBe(n, 2);
    case U32(n) => UnsignedBe(n, 4);
    case F32(n) => UnsignedBe(n, 4);
    case _ =>
  }

  lemma BeSingle(n: int)
    ensures Be(n, 1) == [Low(n)] && FromBe(Be(n, 1)) == Low(n)
  {
    assert Be(n, 1) == [] + [Low(n)];
  }

  lemma {:induction false} UpToNulOf(text: seq<byte>, trailing: seq<byte>)
    ensures UpToNul(text + trailing) == text <==> 0 !in text && (trailing == [] || trailing[0] == 0)
    decreases |text|
  {
    var data := text + trailing;
    if text == [] {
      assert data == trailing;
    } else {
      assert data[0] == text[0] && data[1..] == text[1..] + trailing;
      assert text == [text[0]] + text[1..];
      UpToNulOf(text[1..], trailing);
    }
  }

  /** Text and what follows it are read back as the text. */
  predicate Terminated(text: seq<byte>, trailing: seq<byte>) {
    0 !in text && (if trailing == [] then text != [] else trailing[0] == 0)
  }

  /**
   * What `encode_for` makes of a value is decoded to the same value, in the wire type's own
   * representation and whatever follows it, exactly if the type is not ENUM and a text has no
   * NUL, is not empty if nothing follows it, and is followed by a NUL otherwise.
   */
  lemma RoundTrip(t: DataType, v: DataValue, casts: Casts, trailing: seq<byte>)
    requires EncodeFor(t, v, casts).Ok?
    ensures var n := Normalized(t, v, casts).value;
            DecodeValue(t, EncodeFor(t, v, casts).value + trailing) == Ok(n)
            <==> t != Enum && (t == String ==> Terminated(n.text, trailing))
  {
    NormalizedHolds(t, v, casts);
    var n := Normalized(t, v, casts).value;
    if t == String {
      UpToNulOf(n.text, trailing);
    } else if t != Enum {
      FixedWidth(t, n, trailing);
    }
  }

  /** An ENUM is encoded in one byte and decoded from four: too few for it. */
  lemma EnumTooShort(v: DataValue, casts: Casts)
    requires EncodeFor(Enum, v, casts).Ok?
    ensures DecodeValue(Enum, EncodeFor(Enum, v, casts).value) == Err(PayloadTooShort(1, 4))
  {
    NormalizedHolds(Enum, v, casts);
  }

  /** The number an integer value stands for. */
  function Number(v: DataValue): int
    requires v.U8? || v.I8? || v.U16? || v.I16? || v.U32? || v.I32?
  {
    match v
    case U8(n) => n
    case I8(n) => n
    case U16(n) => n
    case I16(n) => n
    case U32(n) => n
    case I32(n) => n
  }

  /** Encoding an integer keeps it up to a multiple of 2 to the width of its type. */
  lemma IntegerWraps(t: DataType, n: int)
    requires IntegerWidth(t) > 0
    ensures Holds(t, Integer(t, n)) && (Number(Integer(t, n)) - n) % Pow256(IntegerWidth(t)) == 0
  {
    ByteWidths();
    var p := Pow256(IntegerWidth(t));
    var q, m := n / p, Number(Integer(t, n));
    assert n == p * q + n % p;
    assert m == n % p || m == n % p - p;
    MultipleMod(p, if m == n % p then -q else -q - 1, m - n);
  }

  lemma MultipleMod(p: nat, q: int, n: int)
    requires p > 0 && n == p * q
    ensures n % p == 0
  {
    ModUnique(n, p, q, 0);
  }

  // Equality of values

  predicate IsNan(bits: u32) {
    bits / 0x80_0000 % 0x100 == 0xFF && bits % 0x80_0000 != 0
  }

  predicate IsZero(bits: u32) {
    bits % 0x8000_0000 == 0
  }

  /** The derived equality of values: that of floats on floats, so no NaN equals itself. */
  predicate ValueEq(a: DataValue, b: DataValue) {
    if a.F32? && b.F32?
    then !IsNan(a.bits) && !IsNan(b.bits) && (a.bits == b.bits || (IsZero(a.bits) && IsZero(b.bits)))
    else a == b
  }

  /** Some payload decodes to a value equal to this one. */
  ghost predicate CanReadBack(t: DataType, v: DataValue) {
    exists data :: DecodeValue(t, data).Ok? && ValueEq(v, DecodeValue(t, data).value)
  }

  /** The values that decoding produces, floats that are not numbers excepted. */
  predicate Readable(t: DataType, v: DataValue) {
    if Need(t).None? then v.Raw?
    else if t == Enum then v.U32?
    else Holds(t, v) && (v.F32? ==> !IsNan(v.bits)) && (v.Str? ==> 0 !in v.text)
  }

  lemma {:induction false} NoNul(data: seq<byte>)
    ensures 0 !in UpToNul(data)
  {
    if data != [] && data[0] != 0 {
      NoNul(data[1..]);
    }
  }

  /** Exactly the readable values can ever be confirmed by reading them back. */
  lemma ReadBackExactly(t: DataType, v: DataValue)
    ensures CanReadBack(t, v) <==> Readable(t, v)
  {
    if Readable(t, v) {
      var data := EncodeValue(v) + if t == String then [0] else [];
      if Need(t).None? {
        assert data == v.raw;
      } else if t == Enum {
        FixedWidth(Uint32, v, []);
      } else if t == String {
        UpToNulOf(v.text, [0]);
      } else {
        FixedWidth(t, v, []);
      }
      assert DecodeValue(t, data).Ok? && ValueEq(v, DecodeValue(t, data).value);
    } else if CanReadBack(t, v) {
      var data :| DecodeValue(t, data).Ok? && ValueEq(v, DecodeValue(t, data).value);
      NoNul(data);
    }
  }
}
