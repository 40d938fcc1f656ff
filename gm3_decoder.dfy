/**
 * Decoding of GM3 gaussmeter measurement payloads (device_models.py,
 * get_instantenous_data and its duplicate get_instantenous_data_t0).
 *
 * A payload is cut into consecutive 6-byte sections; trailing bytes that do
 * not fill a section are ignored. In a section, byte 1 carries the sign
 * (bit 0x08, set means negative) and a decimal exponent (bits 0x07, a
 * negative power of ten), and bytes 2..5 carry an unsigned big-endian digit
 * magnitude. Byte 0 and the high nibble of byte 1 play no part.
 */
module Gm3Decoder {
  import opened Common

  const SECTION_SIZE: nat := 6

  /** `b & 0x08 != 0`: bit 3 of byte 1 marks a negative value. */
  predicate SignBit(b: byte) {
    (b / 8) % 2 == 1
  }

  /** `b & 0x07`: bits 0..2 of byte 1 give the decimal exponent. */
  function ExponentBits(b: byte): (e: nat)
    ensures e < 8
  {
    b % 8
  }

  /** One decoded section, kept exactly: value = sign * digits * 10^-exponent. */
  datatype Sample = Sample(negative: bool, digits: nat, exponent: nat)

  /** A sample that a 6-byte section can carry. */
  predicate Encodable(x: Sample) {
    x.digits < 0x1_0000_0000 && x.exponent < 8
  }

  function Pow10(e: nat): (r: nat)
    ensures r >= 1
  {
    if e == 0 then 1 else 10 * Pow10(e - 1)
  }

  /** `10 ** -e`, the scale factor applied to the digits. */
  function Scale(e: nat): (r: real)
    ensures r > 0.0
  {
    1.0 / Pow10(e) as real
  }

  /** Unsigned big-endian reading of four bytes. */
  function Magnitude(b2: byte, b3: byte, b4: byte, b5: byte): (r: nat)
    ensures r < 0x1_0000_0000
  {
    ((b2 * 256 + b3) * 256 + b4) * 256 + b5
  }

  function DecodeSection(s: seq<byte>): (x: Sample)
    requires |s| == SECTION_SIZE
    ensures Encodable(x)
  {
    Sample(SignBit(s[1]), Magnitude(s[2], s[3], s[4], s[5]), ExponentBits(s[1]))
  }

  /** The number the source appends for a sample: sign * digits * 10^-exponent. */
  function Value(x: Sample): (v: real)
    ensures v < 0.0 <==> x.negative && x.digits > 0
    ensures v == 0.0 <==> x.digits == 0
  {
    Scaled(if x.negative then -1.0 else 1.0, x.digits as real, Scale(x.exponent))
  }

  /** `sign * digits * magnitude`, the product the decode loop appends. */
  function Scaled(sign: real, digits: real, magnitude: real): real {
    sign * digits * magnitude
  }

  /** The section a meter sends for `x`; `tag` is the unused byte 0. */
  function EncodeSection(x: Sample, tag: byte): (s: seq<byte>)
    requires Encodable(x)
    ensures |s| == SECTION_SIZE && s[0] == tag
  {
    var q1 := x.digits / 256;
    var q2 := q1 / 256;
    [tag, (if x.negative then 8 else 0) + x.exponent, q2 / 256, q2 % 256, q1 % 256, x.digits % 256]
  }

  /** Fixed-point round trip: decoding what was encoded gives back the sample and its value. */
  lemma DecodeEncode(x: Sample, tag: byte)
    requires Encodable(x)
    ensures DecodeSection(EncodeSection(x, tag)) == x
    ensures Value(DecodeSection(EncodeSection(x, tag))) == Value(x)
  {
    var d := x.digits;
    var q1 := d / 256;
    var q2 := q1 / 256;
    assert d == q1 * 256 + d % 256;
    assert q1 == q2 * 256 + q1 % 256;
    assert q2 == (q2 / 256) * 256 + q2 % 256;
  }

  /** Re-encoding a decoded section reproduces it, up to the bits the decoder ignores. */
  lemma EncodeDecode(s: seq<byte>)
    requires |s| == SECTION_SIZE
    ensures EncodeSection(DecodeSection(s), s[0]) == s[1 := s[1] % 16]
  {
    var hi: int := (s[2] as int * 256 + s[3]) * 256 + s[4];
    var d: int := Magnitude(s[2], s[3], s[4], s[5]);
    NibbleSplit(s[1]);
    assert d == hi * 256 + s[5];
    assert d / 256 == hi && d % 256 == s[5];
    assert hi / 256 == s[2] as int * 256 + s[3] && hi % 256 == s[4];
  }

  /** Byte 0 and the high nibble of byte 1 do not affect the decoded sample. */
  lemma DecodeIgnoresTagAndHighBits(s: seq<byte>, t: seq<byte>)
    requires |s| == SECTION_SIZE && |t| == SECTION_SIZE
    requires s[1] % 16 == t[1] % 16
    requires forall i :: 2 <= i < SECTION_SIZE ==> s[i] == t[i]
    ensures DecodeSection(s) == DecodeSection(t)
  {
    LowNibble(s[1]);
    LowNibble(t[1]);
    assert s[2] == t[2] && s[3] == t[3] && s[4] == t[4] && s[5] == t[5];
  }

  /** The sign bit and the exponent bits together make up the low nibble. */
  lemma NibbleSplit(b: byte)
    ensures (if SignBit(b) then 8 else 0) + ExponentBits(b) == b % 16
  {
    var q := b / 16;
    var r := b % 16;
    assert b == 16 * q + r;
    assert b / 8 == 2 * q + r / 8;
    assert b % 8 == r % 8;
  }

  /** The sign and exponent of a byte live in its low nibble. */
  lemma LowNibble(b: byte)
    ensures SignBit(b) == SignBit(b % 16) && ExponentBits(b) == ExponentBits(b % 16)
  {
    var q := b / 16;
    var r := b % 16;
    assert b == 16 * q + r;
    assert b / 8 == 2 * q + r / 8;
    assert b % 8 == r % 8;
  }

  /** The section `02 00 00 00 00 64` decodes to +100. */
  lemma PositiveExample()
    ensures Value(DecodeSection([0x02, 0x00, 0x00, 0x00, 0x00, 0x64])) == 100.0
  {
    var x := DecodeSection([0x02, 0x00, 0x00, 0x00, 0x00, 0x64]);
    assert x == Sample(false, 100, 0);
    assert Scale(0) == 1.0;
  }

  /** The section `00 0A 00 00 01 F4` decodes to -500 * 10^-2 = -5. */
  lemma NegativeExample()
    ensures Value(DecodeSection([0x00, 0x0A, 0x00, 0x00, 0x01, 0xF4])) == -5.0
  {
    var x := DecodeSection([0x00, 0x0A, 0x00, 0x00, 0x01, 0xF4]);
    assert x == Sample(true, 500, 2);
    assert Pow10(2) == 100;
    assert Scale(2) == 1.0 / 100.0;
  }

  /** The list of values the decode loop builds, one per complete section, in order. */
  function Measurables(p: seq<byte>): (r: seq<real>)
    ensures |r| == |p| / 6
    decreases |p|
  {
    if |p| < SECTION_SIZE then [] else [Value(DecodeSection(p[..SECTION_SIZE]))] + Measurables(p[SECTION_SIZE..])
  }

  /** Section `i` of a payload with more than `i` complete sections lies inside it. */
  lemma SectionBounds(len: nat, i: nat)
    requires i < len / 6
    ensures 6 * i + 6 <= len && (len - 6) / 6 == len / 6 - 1
  {
  }

  /** The `i`-th value is the decoding of the `i`-th section. */
  lemma {:induction false} MeasurablesAt(p: seq<byte>, i: nat)
    requires i < |p| / 6
    ensures i < |Measurables(p)|
    ensures Measurables(p)[i] == Value(DecodeSection(p[6 * i..6 * i + 6]))
    decreases i
  {
    SectionBounds(|p|, i);
    var rest := p[6..];
    assert Measurables(p) == [Value(DecodeSection(p[..6]))] + Measurables(rest);
    if i > 0 {
      MeasurablesAt(rest, i - 1);
      var j := 6 * (i - 1);
      assert rest[j..j + 6] == p[j + 6..j + 12];
    }
  }

  /** Bytes after the last complete section are ignored. */
  lemma {:induction false} MeasurablesIgnoreTrailing(p: seq<byte>, tail: seq<byte>)
    requires |p| % 6 == 0 && |tail| < 6
    ensures Measurables(p + tail) == Measurables(p)
    decreases |p|
  {
    if |p| == 0 {
      assert p + tail == tail;
    } else {
      assert (p + tail)[..6] == p[..6];
      assert (p + tail)[6..] == p[6..] + tail;
      MeasurablesIgnoreTrailing(p[6..], tail);
    }
  }

  /** The 31-byte RESET_TIME payload gives five values; its last byte is dropped. */
  lemma ResetTimePayloadGivesFive(p: seq<byte>)
    requires |p| == 31
    ensures |Measurables(p)| == 5
    ensures Measurables(p) == Measurables(p[..30])
  {
    assert p == p[..30] + p[30..];
    MeasurablesIgnoreTrailing(p[..30], p[30..]);
  }

  /**
   * The decode loop: for each complete section, read the sign and exponent
   * from byte 1 and the digits from bytes 2..5, and append
   * sign * digits * 10^-exponent.
   */
  method DecodeMeasurables(p: seq<byte>) returns (out: seq<real>)
    ensures out == Measurables(p)
  {
    var count := |p| / SECTION_SIZE;
    out := [];
    var i := 0;
    while i < count
      invariant 0 <= i <= count
      invariant |out| == i
      invariant forall k :: 0 <= k < i ==> out[k] == Value(DecodeSection(p[6 * k..6 * k + 6]))
    {
      var section := p[6 * i..6 * i + 6];
      var b1 := section[1];
      var sign := 1.0;
      if SignBit(b1) {
        sign := -1.0;
      }
      var digits := Magnitude(section[2], section[3], section[4], section[5]);
      var magnitude := Scale(ExponentBits(b1));
      assert Scaled(sign, digits as real, magnitude) == Value(DecodeSection(section));
      out := out + [Scaled(sign, digits as real, magnitude)];
      i := i + 1;
    }
    forall k | 0 <= k < |out|
      ensures out[k] == Measurables(p)[k]
    {
      MeasurablesAt(p, k);
    }
  }
}
