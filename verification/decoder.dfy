/**
 * The part every decoder shares: a buffer of little-endian output bytes, the
 * setters that fill it and the 16-bit sample serialiser.
 */
module Decoder {
  import opened Bytes

  /** The concrete decoder a compressed sound header selects. */
  datatype DecoderKind = NullDecoder(bitsPerSample: u32) | IMA4 | ALaw | ULaw | MACE

  /** Reference definition: each sample's two's-complement pattern, low byte first, in order. */
  function LittleEndianSamples(samples: seq<i16>): (r: seq<u8>)
    ensures |r| == 2 * |samples|
  {
    if samples == [] then [] else LittleEndianBytes(AsUint16(samples[0]), 2) + LittleEndianSamples(samples[1..])
  }

  /** Reads 16-bit samples back from little-endian byte pairs. */
  function SamplesFromLittleEndian(b: seq<u8>): (r: seq<i16>)
    requires |b| % 2 == 0
    ensures |r| == |b| / 2
  {
    if b == [] then [] else [AsInt16(LittleEndianValue(b[..2]))] + SamplesFromLittleEndian(b[2..])
  }

  lemma PairValue(lo: u8, hi: u8)
    ensures LittleEndianValue([lo, hi]) == lo + 256 * hi
  {
    assert [lo, hi][1..] == [hi];
    assert [hi][1..] == [];
  }

  /** The two bytes of a 16-bit pattern, low byte first. */
  lemma PairBytes(u: u16)
    ensures LittleEndianBytes(u, 2) == [u % 256, u / 256]
    ensures LittleEndianValue([u % 256, u / 256]) == u
  {
    assert LittleEndianBytes(u, 2) == [u % 256] + LittleEndianBytes(u / 256, 1);
    assert [u % 256, u / 256][1..] == [u / 256];
  }

  lemma {:induction false} LittleEndianSamplesAt(samples: seq<i16>, i: nat)
    requires i < |samples|
    ensures LittleEndianSamples(samples)[2 * i] == AsUint16(samples[i]) % 256
    ensures LittleEndianSamples(samples)[2 * i + 1] == AsUint16(samples[i]) / 256
  {
    PairBytes(AsUint16(samples[0]));
    if i > 0 {
      LittleEndianSamplesAt(samples[1..], i - 1);
    }
  }

  lemma {:induction false} SamplesRoundTrip(samples: seq<i16>)
    ensures SamplesFromLittleEndian(LittleEndianSamples(samples)) == samples
  {
    if samples != [] {
      var b := LittleEndianSamples(samples);
      var u := AsUint16(samples[0]);
      PairBytes(u);
      assert b[..2] == [u % 256, u / 256];
      assert b[2..] == LittleEndianSamples(samples[1..]);
      SamplesRoundTrip(samples[1..]);
    }
  }

  lemma {:induction false} BytesRoundTrip(b: seq<u8>)
    requires |b| % 2 == 0
    ensures LittleEndianSamples(SamplesFromLittleEndian(b)) == b
  {
    if b != [] {
      var s := SamplesFromLittleEndian(b);
      var u := LittleEndianValue(b[..2]);
      assert u == b[0] as int + 256 * b[1] as int by {
        assert b[..2] == [b[0], b[1]];
        PairValue(b[0], b[1]);
      }
      PairBytes(AsUint16(s[0]));
      assert s[1..] == SamplesFromLittleEndian(b[2..]);
      BytesRoundTrip(b[2..]);
      assert b == [b[0], b[1]] + b[2..];
    }
  }

  /** Serialises 16-bit samples into a buffer sized for them, low byte at the lower address. */
  method SerializeToLittleEndian(data: seq<i16>) returns (out: seq<u8>)
    ensures |out| == 2 * |data|
    ensures forall i :: 0 <= i < |data| ==> out[2 * i] == AsUint16(data[i]) % 256 && out[2 * i + 1] == AsUint16(data[i]) / 256
    ensures out == LittleEndianSamples(data)
  {
    var converted := new u8[2 * |data|];
    for i := 0 to |data|
      invariant forall j :: 0 <= j < i ==> converted[2 * j] == AsUint16(data[j]) % 256 && converted[2 * j + 1] == AsUint16(data[j]) / 256
    {
      var unsignedValue := AsUint16(data[i]);
      converted[i * 2] := unsignedValue % 256;
      converted[i * 2 + 1] := unsignedValue / 256;
    }
    out := converted[..];
    forall k | 0 <= k < |out|
      ensures out[k] == LittleEndianSamples(data)[k]
    {
      LittleEndianSamplesAt(data, k / 2);
    }
  }

  /** The output buffer a decoder leaves behind. */
  class Decoder {
    var littleEndianData: seq<u8>

    constructor ()
      ensures GetLittleEndianData() == []
    {
      littleEndianData := [];
    }

    function GetLittleEndianData(): seq<u8>
      reads this
    {
      littleEndianData
    }

    method SetLittleEndianData16(samples: seq<i16>)
      modifies this
      ensures GetLittleEndianData() == LittleEndianSamples(samples)
    {
      littleEndianData := SerializeToLittleEndian(samples);
    }

    method SetLittleEndianData8(samples: seq<i8>)
      modifies this
      ensures |GetLittleEndianData()| == |samples|
      ensures forall i :: 0 <= i < |samples| ==> AsInt8(GetLittleEndianData()[i]) == samples[i]
    {
      littleEndianData := seq(|samples|, i requires 0 <= i < |samples| => AsUint8(samples[i]));
    }

    method SetLittleEndianDataRaw(data: seq<u8>)
      modifies this
      ensures GetLittleEndianData() == data
    {
      littleEndianData := data;
    }
  }
}
