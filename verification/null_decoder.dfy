/** The pass-through decoder for uncompressed sound. */
module NullDecoder {
  import opened Bytes
  import opened Decoder

  /** Bytes taken by `numPackets` samples of `bitsPerSample` bits (size_t arithmetic, truncating). */
  function EncodedSize(bitsPerSample: u32, numPackets: u64): (size: u64)
    ensures numPackets * bitsPerSample < 0x1_0000_0000_0000_0000 ==> size == numPackets * bitsPerSample / 8
  {
    var product := numPackets * bitsPerSample;
    assert product < 0x1_0000_0000_0000_0000 ==> AsUint64(product) == product;
    AsUint64(product) / 8
  }

  /** Decoding changes nothing, so the decoded size is the encoded size. */
  function DecodedSize(bitsPerSample: u32, numPackets: u64): (size: u64)
    ensures size == EncodedSize(bitsPerSample, numPackets)
  {
    AsUint64(numPackets * bitsPerSample) / 8
  }

  function BitsPerSample(kind: DecoderKind): (bits: u32)
    requires kind.NullDecoder?
    ensures bits == kind.bitsPerSample
  {
    kind.bitsPerSample
  }

  /** Stores the input unchanged, whatever the channel count. */
  method Decode(decoder: Decoder, data: seq<u8>, numChannels: nat)
    modifies decoder
    ensures decoder.GetLittleEndianData() == data
  {
    decoder.SetLittleEndianDataRaw(data);
  }
}
