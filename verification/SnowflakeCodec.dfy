/**
 * The 63-bit id layout, most significant bits first: 45 bits of milliseconds since the epoch, 8 bits of
 * node id, 10 bits of sequence. An id travels as a canonical decimal string.
 */
module SnowflakeCodec {
  import opened Wrappers
  import opened Bits

  // 2026-01-01T00:00:00Z in milliseconds.
  const EPOCH_MS: int := 1767225600000
  const NODE_COUNT: int := 256
  const SEQUENCE_COUNT: int := 1024
  const TIMESTAMP_SPAN: int := 0x2000_0000_0000
  const TIMESTAMP_UNIT: int := 0x4_0000
  const MAX_TIMESTAMP_MS: int := EPOCH_MS + TIMESTAMP_SPAN - 1
  const MIN_TIMESTAMP_MS: int := EPOCH_MS + 1
  const MIN_ROUTABLE_ID: int := 0x4_0000
  const MAX_VALUE: int := 0x7fff_ffff_ffff_ffff

  datatype Fields = Fields(tsMs: int, nodeId: int, sequence: int)

  datatype CodecError = FieldOutOfRange | NotRoutable

  predicate ValidFields(f: Fields) {
    && MIN_TIMESTAMP_MS <= f.tsMs <= MAX_TIMESTAMP_MS
    && 0 <= f.nodeId < NODE_COUNT
    && 0 <= f.sequence < SEQUENCE_COUNT
  }

  const NODE_SHIFT: nat := 10
  const TIMESTAMP_SHIFT: nat := 18

  // As a sum; PackIsShiftsAndOrs shows that it is the fields shifted into place.
  function Pack(f: Fields): int {
    (f.tsMs - EPOCH_MS) * TIMESTAMP_UNIT + f.nodeId * SEQUENCE_COUNT + f.sequence
  }

  // UnpackIsShiftsAndMasks shows that these are the fields shifted and masked out.
  function Unpack(value: nat): Fields {
    Fields(value / TIMESTAMP_UNIT + EPOCH_MS, (value / SEQUENCE_COUNT) % NODE_COUNT, value % SEQUENCE_COUNT)
  }

  // ---------------------------------------------------------------- decimal strings

  predicate IsDigit(c: char) {
    '0' <= c <= '9'
  }

  function DigitValue(c: char): (d: nat)
    requires IsDigit(c)
    ensures d < 10
  {
    (c as int) - ('0' as int)
  }

  function DigitChar(d: nat): (c: char)
    requires d < 10
    ensures IsDigit(c) && DigitValue(c) == d
  {
    (('0' as int) + d) as char
  }

  predicate AllDigits(s: string) {
    forall i :: 0 <= i < |s| ==> IsDigit(s[i])
  }

  // What `^[1-9][0-9]{0,18}$` accepts.
  predicate IsCanonicalDecimal(s: string) {
    1 <= |s| <= 19 && AllDigits(s) && s[0] != '0'
  }

  function ToDecimal(n: nat): (s: string)
    ensures 1 <= |s| && AllDigits(s)
    ensures n > 0 ==> s[0] != '0'
  {
    if n < 10 then [DigitChar(n)] else ToDecimal(n / 10) + [DigitChar(n % 10)]
  }

  function FromDecimal(s: string): nat
    requires AllDigits(s)
  {
    if |s| == 0 then 0 else FromDecimal(s[..|s| - 1]) * 10 + DigitValue(s[|s| - 1])
  }

  function PowerOfTen(k: nat): (p: nat)
    ensures p > 0
  {
    if k == 0 then 1 else 10 * PowerOfTen(k - 1)
  }

  function ToRoutable(s: string): Option<nat> {
    if !IsCanonicalDecimal(s) then None
    else if MIN_ROUTABLE_ID <= FromDecimal(s) <= MAX_VALUE then Some(FromDecimal(s))
    else None
  }

  function Encode(f: Fields): Result<string, CodecError> {
    if !ValidFields(f) then Failure(FieldOutOfRange)
    else
      UnpackPack(f);
      Success(ToDecimal(Pack(f)))
  }

  function Decode(s: string): Result<Fields, CodecError> {
    match ToRoutable(s)
    case None => Failure(NotRoutable)
    case Some(value) => Success(Unpack(value))
  }

  // ---------------------------------------------------------------- laws

  lemma Shifts()
    ensures ShiftLeft(1, NODE_SHIFT) == SEQUENCE_COUNT && ShiftLeft(1, TIMESTAMP_SHIFT) == TIMESTAMP_UNIT
    ensures ShiftLeft(1, 8) == NODE_COUNT
  {
    assert ShiftLeft(1, 8) == 256;
    assert ShiftLeft(1, 14) == 16384;
  }

  lemma PackIsShiftsAndOrs(f: Fields)
    requires ValidFields(f)
    ensures Pack(f) == Or(Or(ShiftLeft(f.tsMs - EPOCH_MS, TIMESTAMP_SHIFT), ShiftLeft(f.nodeId, NODE_SHIFT)),
            f.sequence)
  {
    Shifts();
    ShiftLeftScales(f.tsMs - EPOCH_MS, TIMESTAMP_SHIFT);
    ShiftLeftScales(f.nodeId, NODE_SHIFT);
    OrBelowShift(f.tsMs - EPOCH_MS, TIMESTAMP_SHIFT, ShiftLeft(f.nodeId, NODE_SHIFT));
    var high := (f.tsMs - EPOCH_MS) * NODE_COUNT + f.nodeId;
    ShiftLeftScales(high, NODE_SHIFT);
    OrBelowShift(high, NODE_SHIFT, f.sequence);
  }

  lemma UnpackIsShiftsAndMasks(value: nat)
    ensures Unpack(value) == Fields(ShiftRight(value, TIMESTAMP_SHIFT) + EPOCH_MS,
                                    And(ShiftRight(value, NODE_SHIFT), NODE_COUNT - 1), And(value, SEQUENCE_COUNT - 1))
  {
    Shifts();
    ShiftRightDivides(value, TIMESTAMP_SHIFT);
    ShiftRightDivides(value, NODE_SHIFT);
    MaskIsRemainder(ShiftRight(value, NODE_SHIFT), 8);
    MaskIsRemainder(value, NODE_SHIFT);
  }

  // Splitting a packed value recovers the fields, because no field reaches its neighbour's bits.
  lemma UnpackPack(f: Fields)
    requires ValidFields(f)
    ensures MIN_ROUTABLE_ID <= Pack(f) <= MAX_VALUE
    ensures Unpack(Pack(f)) == f
  {
    var high := (f.tsMs - EPOCH_MS) * NODE_COUNT + f.nodeId;
    assert Pack(f) == high * SEQUENCE_COUNT + f.sequence;
    assert Pack(f) / SEQUENCE_COUNT == high;
    assert high % NODE_COUNT == f.nodeId;
    var low := f.nodeId * SEQUENCE_COUNT + f.sequence;
    assert Pack(f) == (f.tsMs - EPOCH_MS) * TIMESTAMP_UNIT + low;
  }

  lemma PackUnpack(value: nat)
    requires MIN_ROUTABLE_ID <= value <= MAX_VALUE
    ensures ValidFields(Unpack(value)) && Pack(Unpack(value)) == value
  {
    var high := value / SEQUENCE_COUNT;
    assert value == high * SEQUENCE_COUNT + value % SEQUENCE_COUNT;
    assert high == (high / NODE_COUNT) * NODE_COUNT + high % NODE_COUNT;
    assert high / NODE_COUNT == value / TIMESTAMP_UNIT;
  }

  lemma {:induction false} FromToDecimal(n: nat)
    ensures FromDecimal(ToDecimal(n)) == n
  {
    if n < 10 {
      assert ToDecimal(n)[..0] == "";
    } else {
      var s := ToDecimal(n);
      assert s[..|s| - 1] == ToDecimal(n / 10);
      FromToDecimal(n / 10);
    }
  }

  lemma LastDigit(front: nat, d: nat)
    requires d < 10
    ensures (front * 10 + d) / 10 == front && (front * 10 + d) % 10 == d
  {
  }

  // A string without a leading zero is the only spelling of its value.
  lemma {:induction false} ToFromDecimal(s: string)
    requires |s| > 0 && AllDigits(s) && s[0] != '0'
    ensures FromDecimal(s) > 0 && ToDecimal(FromDecimal(s)) == s
  {
    var rest, last := s[..|s| - 1], s[|s| - 1];
    assert s == rest + [last];
    if |s| == 1 {
      assert FromDecimal(rest) == 0;
      assert s == [DigitChar(DigitValue(last))];
    } else {
      ToFromDecimal(rest);
      LastDigit(FromDecimal(rest), DigitValue(last));
      assert DigitChar(DigitValue(last)) == last;
    }
  }

  lemma {:induction false} DecimalLength(n: nat, k: nat)
    requires k > 0 && n < PowerOfTen(k)
    ensures |ToDecimal(n)| <= k
  {
    if n >= 10 {
      assert k > 1 by { assert PowerOfTen(1) == 10 * PowerOfTen(0) == 10; }
      DecimalLength(n / 10, k - 1);
    }
  }

  lemma MaxValueFitsNineteenDigits()
    ensures MAX_VALUE < PowerOfTen(19)
  {
    assert PowerOfTen(4) == 10000 by { assert PowerOfTen(2) == 100; assert PowerOfTen(3) == 1000; }
    assert PowerOfTen(8) == 100000000 by {
      assert PowerOfTen(5) == 100000; assert PowerOfTen(6) == 1000000; assert PowerOfTen(7) == 10000000;
    }
    assert PowerOfTen(12) == 1000000000000 by {
      assert PowerOfTen(9) == 1000000000; assert PowerOfTen(10) == 10000000000; assert PowerOfTen(11) == 100000000000;
    }
    assert PowerOfTen(16) == 10000000000000000 by {
      assert PowerOfTen(13) == 10000000000000; assert PowerOfTen(14) == 100000000000000;
      assert PowerOfTen(15) == 1000000000000000;
    }
    assert PowerOfTen(17) == 100000000000000000;
    assert PowerOfTen(18) == 1000000000000000000;
  }

  // Every valid triple survives the trip, and nothing else encodes.
  lemma DecodeEncode(f: Fields)
    ensures Encode(f).Success? <==> ValidFields(f)
    ensures ValidFields(f) ==> Decode(Encode(f).value) == Success(f)
  {
    if ValidFields(f) {
      UnpackPack(f);
      FromToDecimal(Pack(f));
      MaxValueFitsNineteenDigits();
      DecimalLength(Pack(f), 19);
    }
  }

  // An id has one spelling: a string that decodes is the one its fields encode to.
  lemma EncodeDecode(s: string)
    ensures Decode(s).Success? ==> Encode(Decode(s).value) == Success(s)
    ensures Decode(s).Success? <==> IsCanonicalDecimal(s) && MIN_ROUTABLE_ID <= FromDecimal(s) <= MAX_VALUE
  {
    if Decode(s).Success? {
      PackUnpack(FromDecimal(s));
      ToFromDecimal(s);
    }
  }

  predicate FieldsBefore(a: Fields, b: Fields) {
    || a.tsMs < b.tsMs
    || (a.tsMs == b.tsMs && a.nodeId < b.nodeId)
    || (a.tsMs == b.tsMs && a.nodeId == b.nodeId && a.sequence < b.sequence)
  }

  lemma PackMonotone(a: Fields, b: Fields)
    requires ValidFields(a) && ValidFields(b) && FieldsBefore(a, b)
    ensures Pack(a) < Pack(b)
  {
    var lowA, lowB := a.nodeId * SEQUENCE_COUNT + a.sequence, b.nodeId * SEQUENCE_COUNT + b.sequence;
    assert 0 <= lowA < TIMESTAMP_UNIT && 0 <= lowB < TIMESTAMP_UNIT;
    if a.tsMs < b.tsMs {
      assert Pack(a) == (a.tsMs - EPOCH_MS) * TIMESTAMP_UNIT + lowA;
      assert Pack(b) == (b.tsMs - EPOCH_MS) * TIMESTAMP_UNIT + lowB;
      assert (b.tsMs - EPOCH_MS) * TIMESTAMP_UNIT >= (a.tsMs - EPOCH_MS) * TIMESTAMP_UNIT + TIMESTAMP_UNIT;
    }
  }

  // Numeric order of ids, as Postgres compares them, is lexicographic order of (ts, node, sequence).
  lemma IdOrderIsFieldOrder(s: string, t: string)
    requires Decode(s).Success? && Decode(t).Success?
    ensures FromDecimal(s) < FromDecimal(t) <==> FieldsBefore(Decode(s).value, Decode(t).value)
    ensures FromDecimal(s) == FromDecimal(t) <==> s == t
  {
    var a, b := Decode(s).value, Decode(t).value;
    PackUnpack(FromDecimal(s));
    PackUnpack(FromDecimal(t));
    EncodeDecode(s);
    EncodeDecode(t);
    if FieldsBefore(a, b) {
      PackMonotone(a, b);
    } else if FieldsBefore(b, a) {
      PackMonotone(b, a);
    } else {
      assert a == b;
    }
  }

  // Distinct triples are distinct ids, so uniqueness may be argued over (ts, node, sequence).
  lemma EncodeInjective(a: Fields, b: Fields)
    requires Encode(a).Success? && Encode(a) == Encode(b)
    ensures a == b
  {
    DecodeEncode(a);
    DecodeEncode(b);
  }
}
