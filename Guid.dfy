/** `System.Guid` as far as the correlation header needs it: its fields, `Guid.Empty`,
  * `ToByteArray()` and the `Guid(byte[])` constructor. */
module Guids {
  import opened Wrappers
  import opened Bytes

  type uint16 = x: int | 0 <= x < 0x1_0000
  type uint32 = x: int | 0 <= x < 0x1_0000_0000

  /** The layout of a .NET Guid: one 32-bit field, two 16-bit fields and eight bytes.
    * The 32-bit and 16-bit fields are signed in .NET; only their bit patterns matter here. */
  datatype Guid = Guid(a: uint32, b: uint16, c: uint16,
                       d: byte, e: byte, f: byte, g: byte, h: byte, i: byte, j: byte, k: byte)

  /** `Guid.Empty`: every field zero. */
  const Empty: Guid := Guid(0, 0, 0, 0, 0, 0, 0, 0, 0, 0, 0)

  /** `Guid.ToByteArray()`: the three integer fields little-endian, then the eight bytes. */
  function ToByteArray(x: Guid): (r: seq<byte>)
    ensures |r| == 16
  {
    LittleEndian(x.a, 4) + LittleEndian(x.b, 2) + LittleEndian(x.c, 2)
      + [x.d, x.e, x.f, x.g, x.h, x.i, x.j, x.k]
  }

  /** `new Guid(byte[] b)`: an ArgumentException unless `b` is exactly 16 bytes long. */
  function FromByteArray(s: seq<byte>): (r: Result<Guid>)
    ensures r.Failure? <==> |s| != 16
    ensures r.Failure? ==> r.error == ArgumentInvalid
  {
    if |s| != 16 then Failure(ArgumentInvalid)
    else
      Success(Guid(FromLittleEndian(s[0..4]), FromLittleEndian(s[4..6]), FromLittleEndian(s[6..8]),
                   s[8], s[9], s[10], s[11], s[12], s[13], s[14], s[15]))
  }

  /** Every Guid survives the 16-byte form. */
  lemma GuidRoundTrip(x: Guid)
    ensures FromByteArray(ToByteArray(x)) == Success(x)
  {
    var s := ToByteArray(x);
    assert s[0..4] == LittleEndian(x.a, 4);
    assert s[4..6] == LittleEndian(x.b, 2);
    assert s[6..8] == LittleEndian(x.c, 2);
    FromLittleEndianOfLittleEndian(x.a, 4);
    FromLittleEndianOfLittleEndian(x.b, 2);
    FromLittleEndianOfLittleEndian(x.c, 2);
  }

  /** Every 16-byte array is the form of exactly the Guid it builds. */
  lemma BytesRoundTrip(s: seq<byte>)
    requires |s| == 16
    ensures FromByteArray(s).Success? && ToByteArray(FromByteArray(s).value) == s
  {
    LittleEndianOfFromLittleEndian(s[0..4]);
    LittleEndianOfFromLittleEndian(s[4..6]);
    LittleEndianOfFromLittleEndian(s[6..8]);
    assert s == s[0..4] + s[4..6] + s[6..8] + s[8..16];
  }

  /** Distinct Guids have distinct byte forms, so the header identifies the Guid. */
  lemma ToByteArrayInjective(x: Guid, y: Guid)
    requires ToByteArray(x) == ToByteArray(y)
    ensures x == y
  {
    GuidRoundTrip(x);
    GuidRoundTrip(y);
  }

  /** The form of `Guid.Empty` is sixteen zero bytes. */
  lemma EmptyIsZeroBytes()
    ensures ToByteArray(Empty) == seq(16, _ => 0)
  {
  }
}
