/**
 * Conversion of a parsed sound sample header into a WAV file: the header
 * fields computed from the sound header, the 44-byte header written
 * little-endian, then the sample data, decoded when the sound is compressed.
 */
module WAVFile {
  import opened Bytes
  import opened Wrappers
  import opened Endian
  import opened Decoder
  import opened SoundHeader
  import opened WAVFormat
  import IMA4 = IMA4Decoder
  import XLawDecoder
  import ND = NullDecoder
  import SndFormat
  import SndFile

  // ------------------------------------------------------------ output stream

  /** A binary output stream written by a host whose byte order is `littleHost`. */
  class OutputStream {
    const littleHost: bool
    var written: seq<u8>

    constructor (littleHost: bool)
      ensures this.littleHost == littleHost && written == []
    {
      this.littleHost := littleHost;
      written := [];
    }

    /** Appends memory bytes to the stream, as they are. */
    method Write(mem: seq<u8>)
      modifies this
      ensures written == old(written) + mem
    {
      written := written + mem;
    }
  }

  /**
   * writeLittleValue: the bytes of a host value of `width` bytes, rearranged
   * into little-endian order, so the value itself goes out least significant
   * byte first on either host.
   */
  method WriteLittleValue(out: OutputStream, v: nat, width: nat)
    requires v < Pow256(width)
    modifies out
    ensures out.written == old(out.written) + LittleEndianBytes(v, width)
  {
    var mem := NativeBytes(out.littleHost, v, width);
    var little := SafeLittleEndian(out.littleHost, mem);
    SafeLittleEndianOfValue(out.littleHost, v, width);
    out.Write(little);
  }

  /** writeLittleValue for a uint16_t. */
  method WriteLittle16(out: OutputStream, v: u16)
    modifies out
    ensures out.written == old(out.written) + LittleEndianBytes(v, 2)
  {
    Pow256Widths();
    WriteLittleValue(out, v, 2);
  }

  /** writeLittleValue for a uint32_t. */
  method WriteLittle32(out: OutputStream, v: u32)
    modifies out
    ensures out.written == old(out.written) + LittleEndianBytes(v, 4)
  {
    Pow256Widths();
    WriteLittleValue(out, v, 4);
  }

  /** writeLittleArray of single bytes: the first `length` bytes, each as it is. */
  method WriteLittleBytes(out: OutputStream, buffer: seq<u8>, length: nat)
    requires length <= |buffer|
    modifies out
    ensures out.written == old(out.written) + buffer[..length]
  {
    for i := 0 to length
      invariant out.written == old(out.written) + buffer[..i]
    {
      assert buffer[i..i + 1] == [buffer[i]];
      SingleByteUnchanged(out.littleHost, buffer[i]);
      var little := SafeLittleEndian(out.littleHost, buffer[i..i + 1]);
      out.Write(little);
      assert buffer[..i + 1] == buffer[..i] + [buffer[i]];
    }
  }

  /**
   * Two-byte host values in little-endian order: each pair swapped on a
   * big-endian host, as it is on a little-endian one (the same rearrangement
   * as reading big-endian pairs on a host of the other order).
   */
  function LittlePairs(littleHost: bool, native: seq<u8>): (little: seq<u8>)
    requires |native| % 2 == 0
    ensures |little| == |native|
  {
    SndFormat.PairImage(!littleHost, native)
  }

  lemma LittlePairsAppend(littleHost: bool, b: seq<u8>, i: nat)
    requires 2 * i + 2 <= |b|
    ensures LittlePairs(littleHost, b[..2 * (i + 1)])
      == LittlePairs(littleHost, b[..2 * i]) + SafeLittleEndian(littleHost, b[2 * i..2 * i + 2])
  {
    var front := b[..2 * i];
    var pair := b[2 * i..2 * i + 2];
    var lhs := LittlePairs(littleHost, b[..2 * i + 2]);
    var rhs := LittlePairs(littleHost, front) + SafeLittleEndian(littleHost, pair);
    forall k | 0 <= k < 2 * i
      ensures lhs[k] == rhs[k]
    {
      assert lhs[k] == LittlePairs(littleHost, front)[k];
    }
    SndFormat.PairImageOf(!littleHost, b[..2 * i + 2], i);
    assert lhs[2 * i] == rhs[2 * i] && lhs[2 * i + 1] == rhs[2 * i + 1];
    assert lhs == rhs;
  }

  /** writeLittleArray of two-byte values: the first `count` pairs of `buffer`, each in little-endian order. */
  method WriteLittlePairs(out: OutputStream, buffer: seq<u8>, count: nat)
    requires 2 * count <= |buffer|
    modifies out
    ensures out.written == old(out.written) + LittlePairs(out.littleHost, buffer[..2 * count])
  {
    for i := 0 to count
      invariant out.written == old(out.written) + LittlePairs(out.littleHost, buffer[..2 * i])
    {
      var little := SafeLittleEndian(out.littleHost, buffer[2 * i..2 * i + 2]);
      out.Write(little);
      LittlePairsAppend(out.littleHost, buffer, i);
    }
  }

  /** A little-endian host writes its pairs unchanged. */
  lemma LittlePairsOnLittleHost(native: seq<u8>)
    requires |native| % 2 == 0
    ensures LittlePairs(true, native) == native
  {
  }

  /**
   * Big-endian 16-bit input read into host order and written back out is
   * every pair byte-swapped, whichever the host: the sample bytes of the WAV
   * file do not depend on the machine.
   */
  lemma PairsWrittenAreHostIndependent(littleHost: bool, big: seq<u8>)
    requires |big| % 2 == 0
    ensures LittlePairs(littleHost, SndFormat.PairImage(littleHost, big)) == SndFormat.PairImage(true, big)
  {
    var image := SndFormat.PairImage(littleHost, big);
    forall k | 0 <= k < |big|
      ensures LittlePairs(littleHost, image)[k] == SndFormat.PairImage(true, big)[k]
    {
      if k % 2 == 0 {
        assert (k + 1) % 2 == 1;
      } else {
        assert (k - 1) % 2 == 0;
      }
    }
  }

  /**
   * Already little-endian sample bytes are swapped once more by a big-endian
   * host: its output holds them most significant byte first.
   */
  lemma DecodedSamplesOnBigHost(samples: seq<i16>, i: nat)
    requires i < |samples|
    ensures LittlePairs(false, LittleEndianSamples(samples))[2 * i] == AsUint16(samples[i]) / 256
    ensures LittlePairs(false, LittleEndianSamples(samples))[2 * i + 1] == AsUint16(samples[i]) % 256
  {
    var b := LittleEndianSamples(samples);
    var u := AsUint16(samples[i]);
    LittleEndianSamplesAt(samples, i);
    assert b[2 * i] == u % 256 && b[2 * i + 1] == u / 256;
    DoubleIsEven(|samples|);
    SndFormat.PairImageOf(true, b, i);
    assert LittlePairs(false, b)[2 * i] == b[2 * i + 1];
    assert LittlePairs(false, b)[2 * i + 1] == b[2 * i];
  }

  // --------------------------------------------------------- sample serialising

  /** serializeSamples: each 16-bit sample's pattern, low byte then high byte. */
  method SerializeSamples(data: seq<i16>) returns (convertedData: seq<u8>)
    ensures convertedData == LittleEndianSamples(data)
  {
    var converted := new u8[2 * |data|];
    for i := 0 to |data|
      invariant forall j :: 0 <= j < i ==>
        converted[2 * j] == AsUint16(data[j]) % 256 && converted[2 * j + 1] == AsUint16(data[j]) / 256
    {
      var unsignedValue := AsUint16(data[i]);
      converted[i * 2] := unsignedValue % 0x100;
      converted[i * 2 + 1] := unsignedValue / 0x100;
    }
    convertedData := converted[..];
    forall k | 0 <= k < |convertedData|
      ensures convertedData[k] == LittleEndianSamples(data)[k]
    {
      LittleEndianSamplesAt(data, k / 2);
    }
  }

  // ---------------------------------------------------------- header contents

  /**
   * Bytes of sample data the header announces, from the header fields alone:
   * lengthOrChannels for a standard header, numFrames * 2 * channels for an
   * extended one, numFrames * 128 * channels for a compressed one (int
   * arithmetic, then size_t), none for any other encoding.
   */
  function DataSize(h: SoundSampleHeader): (size: u64)
    requires WellTagged(h)
    ensures h.common.encode == StandardEncode ==> size == AsUint64(h.common.lengthOrChannels)
    ensures h.common.encode !in {StandardEncode, ExtendedEncode, CompressedEncode} ==> size == 0
  {
    var c := h.common;
    if c.encode == StandardEncode then AsUint64(c.lengthOrChannels)
    else if c.encode == ExtendedEncode then AsUint64(Wrap32(Wrap32(h.ext.numFrames * 2) * c.lengthOrChannels))
    else if c.encode == CompressedEncode then AsUint64(Wrap32(Wrap32(h.cmp.numFrames * 128) * c.lengthOrChannels))
    else 0
  }

  /**
   * The data size of extended and compressed headers: numFrames * 2 *
   * channels and numFrames * 128 * channels, modulo 2^32, and exactly when
   * the int products fit.
   */
  lemma DataSizeByEncoding(h: SoundSampleHeader)
    requires WellTagged(h)
    ensures h.common.encode == ExtendedEncode ==>
      AsUint32(DataSize(h)) == AsUint32(h.ext.numFrames * 2 * h.common.lengthOrChannels)
    ensures h.common.encode == ExtendedEncode && -0x8000_0000 <= h.ext.numFrames * 2 < 0x8000_0000
      && 0 <= h.ext.numFrames * 2 * h.common.lengthOrChannels < 0x8000_0000
      ==> DataSize(h) == h.ext.numFrames * 2 * h.common.lengthOrChannels
    ensures h.common.encode == CompressedEncode ==>
      AsUint32(DataSize(h)) == AsUint32(h.cmp.numFrames * 128 * h.common.lengthOrChannels)
    ensures h.common.encode == CompressedEncode && -0x8000_0000 <= h.cmp.numFrames * 128 < 0x8000_0000
      && 0 <= h.cmp.numFrames * 128 * h.common.lengthOrChannels < 0x8000_0000
      ==> DataSize(h) == h.cmp.numFrames * 128 * h.common.lengthOrChannels
  {
    if h.common.encode == ExtendedEncode {
      WrappedProduct(h.ext.numFrames, 2, h.common.lengthOrChannels);
    } else if h.common.encode == CompressedEncode {
      WrappedProduct(h.cmp.numFrames, 128, h.common.lengthOrChannels);
    }
  }

  /** Bits per sample: 8 for a standard header, sampleSize for an extended one, packetSize (16 if 0) for a compressed one. */
  function SampleBits(h: SoundSampleHeader): (bits: u32)
    requires WellTagged(h)
    ensures h.common.encode == StandardEncode ==> bits == 8
    ensures h.common.encode == ExtendedEncode ==> bits == AsUint32(h.ext.sampleSize)
    ensures h.common.encode == CompressedEncode && h.cmp.packetSize == 0 ==> bits == 16
    ensures h.common.encode == CompressedEncode && h.cmp.packetSize != 0 ==> bits == AsUint32(h.cmp.packetSize)
    ensures h.common.encode !in {StandardEncode, ExtendedEncode, CompressedEncode} ==> bits == 0
  {
    var c := h.common;
    if c.encode == StandardEncode then 8
    else if c.encode == ExtendedEncode then AsUint32(h.ext.sampleSize)
    else if c.encode == CompressedEncode then
      if h.cmp.packetSize == 0 then 16 else AsUint32(h.cmp.packetSize)
    else 0
  }

  /** Channels: 1 for a standard header, lengthOrChannels for the others; any other encoding keeps `prior`. */
  function Channels(h: SoundSampleHeader, prior: u16): (channels: u16)
    ensures h.common.encode == StandardEncode ==> channels == 1
    ensures h.common.encode in {ExtendedEncode, CompressedEncode} ==> channels == AsUint16(h.common.lengthOrChannels)
    ensures h.common.encode !in {StandardEncode, ExtendedEncode, CompressedEncode} ==> channels == prior
  {
    var c := h.common;
    if c.encode == StandardEncode then 1
    else if c.encode == ExtendedEncode || c.encode == CompressedEncode then AsUint16(c.lengthOrChannels)
    else prior
  }

  /**
   * The WAV header populated from sound header `h`, starting from `prior`:
   * the tags are kept, the rest is computed in the unsigned arithmetic of the
   * field types.
   */
  function Populated(prior: WAVHeader, h: SoundSampleHeader): (r: WAVHeader)
    requires WellTagged(h)
    ensures r.chunkID == prior.chunkID && r.format == prior.format
    ensures r.subchunk1ID == prior.subchunk1ID && r.subchunk2ID == prior.subchunk2ID
  {
    var size := DataSize(h);
    var bits := SampleBits(h);
    var channels := Channels(h, prior.numChannels);
    var rate: u32 := h.common.sampleRate / 0x1_0000;
    prior.(chunkSize := AsUint32(AsUint64(36 + size)),
           subchunk1Size := 16,
           audioFormat := 1,
           numChannels := channels,
           sampleRate := rate,
           byteRate := AsUint32(AsUint32(rate * channels) * bits) / 8,
           blockAlign := AsUint16(AsUint32(channels * bits) / 8),
           bitsPerSample := AsUint16(bits),
           subchunk2Size := AsUint32(size))
  }

  /** The RIFF size is the data size plus the 36 header bytes after it, modulo 2^32. */
  lemma ChunkSizeCoversData(prior: WAVHeader, h: SoundSampleHeader)
    requires WellTagged(h)
    ensures var r := Populated(prior, h);
      r.chunkSize == AsUint32(36 + r.subchunk2Size) && r.subchunk2Size == DataSize(h) % 0x1_0000_0000
  {
    var size := DataSize(h);
    TruncationOfTruncation(36 + size as int);
    TruncatedSum(36, size as int);
  }

  /**
   * The "fmt " chunk is PCM with a 16-byte body, and the rate keeps only the
   * integer part of the 16.16 fixed-point sample rate.
   */
  lemma PopulatedFormat(prior: WAVHeader, h: SoundSampleHeader)
    requires WellTagged(h)
    ensures var r := Populated(prior, h);
      && r.subchunk1Size == 16 && r.audioFormat == 1
      && r.sampleRate * 0x1_0000 <= h.common.sampleRate < (r.sampleRate + 1) * 0x1_0000
  {
  }

  /**
   * What each header field becomes, for every encoding: the channel count,
   * the bits per sample and the announced data size by encoding, with the
   * unsigned truncations of the field types, and the RIFF size 36 bytes
   * more than the data size.
   */
  lemma PopulatedFields(prior: WAVHeader, h: SoundSampleHeader)
    requires WellTagged(h)
    ensures var r := Populated(prior, h); var c := h.common;
      && r.sampleRate == c.sampleRate / 0x1_0000
      && r.chunkSize == AsUint32(36 + r.subchunk2Size)
      && (c.encode == StandardEncode ==>
            && r.numChannels == 1 && r.bitsPerSample == 8
            && r.subchunk2Size == AsUint32(c.lengthOrChannels))
      && (c.encode == ExtendedEncode ==>
            && r.numChannels == AsUint16(c.lengthOrChannels)
            && r.bitsPerSample == AsUint16(h.ext.sampleSize)
            && r.subchunk2Size == AsUint32(h.ext.numFrames * 2 * c.lengthOrChannels))
      && (c.encode == CompressedEncode ==>
            && r.numChannels == AsUint16(c.lengthOrChannels)
            && r.bitsPerSample == (if h.cmp.packetSize == 0 then 16 else AsUint16(h.cmp.packetSize))
            && r.subchunk2Size == AsUint32(h.cmp.numFrames * 128 * c.lengthOrChannels))
      && (c.encode !in {StandardEncode, ExtendedEncode, CompressedEncode} ==>
            r.numChannels == prior.numChannels && r.bitsPerSample == 0 && r.subchunk2Size == 0)
  {
    ChunkSizeCoversData(prior, h);
    DataSizeByEncoding(h);
    TruncationOfTruncation(h.common.lengthOrChannels);
    if h.common.encode == ExtendedEncode {
      NarrowingOfTruncation(h.ext.sampleSize);
    } else if h.common.encode == CompressedEncode {
      NarrowingOfTruncation(h.cmp.packetSize);
    }
  }

  /**
   * For 8- and 16-bit samples, when nothing wraps, the derived fields agree
   * with each other as the WAV format defines them: a block is one sample of
   * every channel, and a second is sampleRate blocks.
   */
  lemma PopulatedRatesAgree(prior: WAVHeader, h: SoundSampleHeader)
    requires WellTagged(h) && (SampleBits(h) == 8 || SampleBits(h) == 16)
    requires var r := Populated(prior, h);
      r.sampleRate * r.numChannels * SampleBits(h) < 0x1_0000_0000 && r.numChannels * SampleBits(h) < 0x8_0000
    ensures var r := Populated(prior, h);
      && r.bitsPerSample as int == SampleBits(h) as int
      && r.blockAlign * 8 == r.numChannels * r.bitsPerSample
      && r.byteRate == r.sampleRate * r.blockAlign
  {
    DerivedRates(Populated(prior, h), SampleBits(h));
  }

  /** The block align and byte rate derived from `bits` in the arithmetic of the field types agree with each other. */
  lemma DerivedRates(r: WAVHeader, bits: u32)
    requires bits == 8 || bits == 16
    requires r.sampleRate * r.numChannels * bits < 0x1_0000_0000 && r.numChannels * bits < 0x8_0000
    requires r.bitsPerSample == AsUint16(bits)
    requires r.blockAlign == AsUint16(AsUint32(r.numChannels * bits) / 8)
    requires r.byteRate == AsUint32(AsUint32(r.sampleRate * r.numChannels) * bits) / 8
    ensures r.bitsPerSample as int == bits as int
    ensures r.blockAlign * 8 == r.numChannels * r.bitsPerSample
    ensures r.byteRate == r.sampleRate * r.blockAlign
  {
    RateArithmetic(r.sampleRate as int, r.numChannels as int, bits as int);
  }

  /** A standard header writes its sample area as it is, and announces its length modulo 2^32. */
  lemma StandardAnnouncesWrittenBytes(prior: WAVHeader, h: SoundSampleHeader, littleHost: bool,
                                      maceSamples: (seq<u8>, u16) -> seq<i16>)
    requires SndFormat.Decodable(h) && h.common.encode == StandardEncode
    requires |h.common.sampleArea| == AsUint64(h.common.lengthOrChannels)
    ensures var r := Populated(prior, h);
      var out := SampleOutput(littleHost, r.bitsPerSample, DecodedData(h, r.numChannels, maceSamples));
      out == Some(h.common.sampleArea) && r.subchunk2Size == AsUint32(|out.value|)
  {
    StandardIsEightBitMono(prior, h);
  }

  /**
   * A 16-bit extended header whose sample area is the size the load gives it
   * writes every byte of that area, and announces exactly that many.
   */
  lemma ExtendedAnnouncesWrittenBytes(prior: WAVHeader, h: SoundSampleHeader, littleHost: bool,
                                      maceSamples: (seq<u8>, u16) -> seq<i16>)
    requires SndFormat.Decodable(h) && h.common.encode == ExtendedEncode && h.ext.sampleSize == 16
    requires |h.common.sampleArea| == SndFormat.ExtendedSampleLength(h.common, h.ext)
    requires 0 <= h.ext.numFrames && 0 <= h.common.lengthOrChannels
    requires h.ext.numFrames * 16 < 0x8000_0000 && h.ext.numFrames * 2 * h.common.lengthOrChannels < 0x8000_0000
    ensures var r := Populated(prior, h);
      var out := SampleOutput(littleHost, r.bitsPerSample, DecodedData(h, r.numChannels, maceSamples));
      out.Some? && |out.value| == |h.common.sampleArea| && r.subchunk2Size as int == |out.value|
  {
    var r := Populated(prior, h);
    PopulatedFields(prior, h);
    ExtendedSizeMatchesLoad(h);
    ProductWithTwoIsEven(h.ext.numFrames, h.common.lengthOrChannels);
    WholePairsWritten(littleHost, r.bitsPerSample, h.common.sampleArea);
  }

  /** With 16 bits per sample, data of even length is written whole. */
  lemma WholePairsWritten(littleHost: bool, bitsPerSample: u16, data: seq<u8>)
    requires bitsPerSample == 16 && |data| % 2 == 0
    ensures SampleOutput(littleHost, bitsPerSample, data).Some?
    ensures |SampleOutput(littleHost, bitsPerSample, data).value| == |data|
  {
  }

  /** A standard header becomes 8-bit mono: one byte per frame, as many bytes per second as frames. */
  lemma StandardIsEightBitMono(prior: WAVHeader, h: SoundSampleHeader)
    requires WellTagged(h) && h.common.encode == StandardEncode
    ensures var r := Populated(prior, h);
      && r.numChannels == 1 && r.bitsPerSample == 8 && r.blockAlign == 1
      && r.byteRate == r.sampleRate
      && r.subchunk2Size == AsUint64(h.common.lengthOrChannels) % 0x1_0000_0000
  {
    var r := Populated(prior, h);
    assert AsUint32(r.sampleRate * 1) * 8 == r.sampleRate * 8;
  }

  /** A compressed header that gives no packet size is taken as 16-bit: two bytes per channel per frame. */
  lemma CompressedDefaultsToSixteenBits(prior: WAVHeader, h: SoundSampleHeader)
    requires WellTagged(h) && h.common.encode == CompressedEncode && h.cmp.packetSize == 0
    requires 0 < h.common.lengthOrChannels <= 2
    ensures var r := Populated(prior, h);
      && r.bitsPerSample == 16 && r.numChannels == h.common.lengthOrChannels
      && r.blockAlign == 2 * r.numChannels
      && (r.numChannels == 1 ==> r.byteRate == 2 * r.sampleRate)
      && (r.numChannels == 2 ==> r.byteRate == 4 * r.sampleRate)
  {
    var bits := SampleBits(h);
    var channels := Channels(h, prior.numChannels);
    var rate: u32 := h.common.sampleRate / 0x1_0000;
    assert bits == 16;
    assert rate < 0x1_0000;
    if h.common.lengthOrChannels == 1 {
      assert channels == 1;
      assert AsUint32(rate * channels) == rate;
      assert AsUint32(channels * bits) == 16;
      assert AsUint32(rate * bits) == rate * 16;
    } else {
      assert channels == 2;
      assert AsUint32(rate * channels) == rate * 2;
      assert AsUint32(channels * bits) == 32;
      assert AsUint32(rate * 2 * bits) == rate * 32;
    }
  }

  /** An extended 16-bit header announces as many bytes as it loaded, when nothing overflows. */
  lemma ExtendedSizeMatchesLoad(h: SoundSampleHeader)
    requires WellTagged(h) && h.common.encode == ExtendedEncode && h.ext.sampleSize == 16
    requires 0 <= h.ext.numFrames && 0 <= h.common.lengthOrChannels
    requires h.ext.numFrames * 16 < 0x8000_0000 && h.ext.numFrames * 2 * h.common.lengthOrChannels < 0x8000_0000
    ensures DataSize(h) == SndFormat.ExtendedSampleLength(h.common, h.ext)
    ensures DataSize(h) == h.ext.numFrames * 2 * h.common.lengthOrChannels
  {
    SixteenBitLengths(h.ext.numFrames, h.common.lengthOrChannels);
  }

  /**
   * An extended 8-bit header announces two bytes per frame and channel, as
   * for 16-bit data: twice the bytes it loaded, when nothing overflows.
   */
  lemma ExtendedEightBitAnnouncesTwice(h: SoundSampleHeader)
    requires WellTagged(h) && h.common.encode == ExtendedEncode && h.ext.sampleSize == 8
    requires 0 <= h.ext.numFrames && 0 <= h.common.lengthOrChannels
    requires h.ext.numFrames * 8 < 0x8000_0000 && h.ext.numFrames * 2 * h.common.lengthOrChannels < 0x8000_0000
    ensures DataSize(h) == 2 * SndFormat.ExtendedSampleLength(h.common, h.ext)
  {
    EightBitLengths(h.ext.numFrames, h.common.lengthOrChannels);
  }

  /**
   * The announced size of IMA4 data ignores the packet the decoder skips: a
   * single mono packet announces 128 bytes and decodes to none.
   */
  lemma AnnouncedSizeIgnoresSkippedPacket(common: CommonFields, cmp: CompressedFields)
    requires common.encode == CompressedEncode && common.lengthOrChannels == 1 && cmp.numFrames == 1
    requires |common.sampleArea| == IMA4.PacketLength
    ensures DataSize(Compressed(common, cmp)) == 128
    ensures IMA4.DecodedSamples(common.sampleArea, 1) == []
  {
    IMA4.LastMonoPacketSkipped(common.sampleArea, 1);
  }

  // -------------------------------------------------------------- sample data

  /**
   * The bytes a decoder of kind `kind` leaves for `data`: the pass-through
   * decoder the input, the others the little-endian serialisation of their
   * samples. MACE decoding is supplied from outside.
   */
  function DecoderOutput(kind: DecoderKind, data: seq<u8>, numChannels: u16,
                         maceSamples: (seq<u8>, u16) -> seq<i16>): (out: seq<u8>)
    ensures kind.NullDecoder? ==> out == data
    ensures kind.MACE? ==> |out| == 2 * |maceSamples(data, numChannels)|
    ensures kind.ALaw? || kind.ULaw? ==> |out| == 2 * |data|
    ensures kind.IMA4? && numChannels == 1 ==> |out| == 128 * IMA4.MonoPacketCount(|data|)
    ensures kind.IMA4? && numChannels == 2 ==> |out| == 256 * IMA4.StereoPairCount(|data|)
    ensures kind.IMA4? && numChannels != 1 && numChannels != 2 ==> out == []
  {
    match kind
    case NullDecoder(_) => data
    case IMA4 =>
      var samples := IMA4.DecodedSamples(data, numChannels as nat);
      assert numChannels == 1 ==> |samples| == 64 * IMA4.MonoPacketCount(|data|);
      assert numChannels == 2 ==> |samples| == 128 * IMA4.StereoPairCount(|data|);
      LittleEndianSamples(samples)
    case ALaw => LittleEndianSamples(XLawDecoder.ExpandAll(false, data))
    case ULaw => LittleEndianSamples(XLawDecoder.ExpandAll(true, data))
    case MACE => LittleEndianSamples(maceSamples(data, numChannels))
  }

  /**
   * The sample data to write: the sample area as it is for standard and
   * extended headers and for compressed headers with compression ID 0 (or
   * an unknown encoding); otherwise what the header's decoder makes of it.
   */
  function DecodedData(h: SoundSampleHeader, numChannels: u16, maceSamples: (seq<u8>, u16) -> seq<i16>)
    : (data: seq<u8>)
    requires SndFormat.Decodable(h)
    ensures h.common.encode != CompressedEncode || h.cmp.compressionID == 0 ==> data == h.common.sampleArea
  {
    var c := h.common;
    if c.encode == StandardEncode || c.encode == ExtendedEncode then c.sampleArea
    else if c.encode == CompressedEncode then
      if h.cmp.compressionID == 0 then c.sampleArea
      else DecoderOutput(h.cmp.decoder.value, c.sampleArea, numChannels, maceSamples)
    else c.sampleArea
  }

  /** A-law and mu-law data decodes to two bytes per input byte, from which the expanded samples read back. */
  lemma XLawDataReadsBack(h: SoundSampleHeader, numChannels: u16, maceSamples: (seq<u8>, u16) -> seq<i16>)
    requires SndFormat.Decodable(h) && h.common.encode == CompressedEncode && h.cmp.compressionID != 0
    requires h.cmp.decoder == Some(ALaw) || h.cmp.decoder == Some(ULaw)
    ensures var data := DecodedData(h, numChannels, maceSamples);
      && |data| == 2 * |h.common.sampleArea|
      && SamplesFromLittleEndian(data) == XLawDecoder.ExpandAll(h.cmp.decoder == Some(ULaw), h.common.sampleArea)
  {
    SamplesRoundTrip(XLawDecoder.ExpandAll(h.cmp.decoder == Some(ULaw), h.common.sampleArea));
  }

  /**
   * The bytes writeSampleData emits for `data`: with one byte per sample the
   * data as it is; with two, its pairs in little-endian order (an odd last
   * byte is dropped); any other width is refused.
   */
  function SampleOutput(littleHost: bool, bitsPerSample: u16, data: seq<u8>): (r: Option<seq<u8>>)
    ensures r.Some? <==> bitsPerSample / 8 == 1 || bitsPerSample / 8 == 2
    ensures bitsPerSample / 8 == 2 ==> |r.value| == 2 * (|data| / 2)
  {
    var bytesPerSample := bitsPerSample / 8;
    if bytesPerSample == 1 then Some(data)
    else if bytesPerSample == 2 then Some(LittlePairs(littleHost, data[..2 * (|data| / 2)]))
    else None
  }

  // ------------------------------------------------------------------ the file

  class WAVFile {
    var header: WAVHeader
    /** The MACE decoder, whose implementation is not part of this model. */
    const maceSamples: (seq<u8>, u16) -> seq<i16>

    constructor (maceSamples: (seq<u8>, u16) -> seq<i16>)
      ensures header == DefaultHeader() && this.maceSamples == maceSamples
    {
      header := DefaultHeader();
      this.maceSamples := maceSamples;
    }

    /** populateHeader: every computed field assigned from the sound header; always succeeds. */
    method PopulateHeader(h: SoundSampleHeader) returns (ok: bool)
      requires WellTagged(h)
      modifies this
      ensures ok && header == Populated(old(header), h)
    {
      var c := h.common;
      var sampleDataSize: u64 := 0;
      if c.encode == StandardEncode {
        sampleDataSize := AsUint64(c.lengthOrChannels);
      } else if c.encode == ExtendedEncode {
        sampleDataSize := AsUint64(Wrap32(Wrap32(h.ext.numFrames * 2) * c.lengthOrChannels));
      } else if c.encode == CompressedEncode {
        sampleDataSize := AsUint64(Wrap32(Wrap32(h.cmp.numFrames * 128) * c.lengthOrChannels));
      }
      header := header.(chunkSize := AsUint32(AsUint64(36 + sampleDataSize)));
      header := header.(subchunk1Size := 16);
      header := header.(audioFormat := 1);
      if c.encode == StandardEncode {
        header := header.(numChannels := 1);
      } else if c.encode == ExtendedEncode || c.encode == CompressedEncode {
        header := header.(numChannels := AsUint16(c.lengthOrChannels));
      }
      header := header.(sampleRate := c.sampleRate / 0x1_0000);
      var bitsPerSample: u32 := 0;
      if c.encode == StandardEncode {
        bitsPerSample := 8;
      } else if c.encode == ExtendedEncode {
        bitsPerSample := AsUint32(h.ext.sampleSize);
      } else if c.encode == CompressedEncode {
        if h.cmp.packetSize == 0 {
          bitsPerSample := 16;
        } else {
          bitsPerSample := AsUint32(h.cmp.packetSize);
        }
      }
      header := header.(byteRate := AsUint32(AsUint32(header.sampleRate * header.numChannels) * bitsPerSample) / 8);
      header := header.(blockAlign := AsUint16(AsUint32(header.numChannels * bitsPerSample) / 8));
      header := header.(bitsPerSample := AsUint16(bitsPerSample));
      header := header.(subchunk2Size := AsUint32(sampleDataSize));
      return true;
    }

    /** writeBinaryHeader: the 44 header bytes, fields in order, numbers little-endian. */
    method WriteBinaryHeader(out: OutputStream)
      modifies out
      ensures out.written == old(out.written) + HeaderBytes(header)
    {
      WriteRiffChunk(out);
      WriteFmtChunk(out);
      WriteDataHead(out);
    }

    /** The RIFF descriptor part of writeBinaryHeader. */
    method WriteRiffChunk(out: OutputStream)
      modifies out
      ensures out.written == old(out.written) + RiffBytes(header)
    {
      WriteLittleBytes(out, header.chunkID, 4);
      WriteLittle32(out, header.chunkSize);
      WriteLittleBytes(out, header.format, 4);
    }

    /** The "fmt " chunk part of writeBinaryHeader. */
    method WriteFmtChunk(out: OutputStream)
      modifies out
      ensures out.written == old(out.written) + FmtBytes(header)
    {
      ghost var start := out.written;
      ghost var h := header;
      WriteLittleBytes(out, header.subchunk1ID, 4);
      assert header.subchunk1ID[..4] == header.subchunk1ID;
      ghost var sizes := h.subchunk1ID + LittleEndianBytes(h.subchunk1Size, 4);
      WriteLittle32(out, header.subchunk1Size);
      assert out.written == start + sizes;
      ghost var format := sizes + LittleEndianBytes(h.audioFormat, 2) + LittleEndianBytes(h.numChannels, 2);
      WriteLittle16(out, header.audioFormat);
      WriteLittle16(out, header.numChannels);
      assert out.written == start + format;
      ghost var rates := format + LittleEndianBytes(h.sampleRate, 4) + LittleEndianBytes(h.byteRate, 4);
      WriteLittle32(out, header.sampleRate);
      WriteLittle32(out, header.byteRate);
      assert out.written == start + rates;
      WriteLittle16(out, header.blockAlign);
      WriteLittle16(out, header.bitsPerSample);
      assert out.written == start + (rates + LittleEndianBytes(h.blockAlign, 2) + LittleEndianBytes(h.bitsPerSample, 2));
    }

    /** The "data" chunk head part of writeBinaryHeader. */
    method WriteDataHead(out: OutputStream)
      modifies out
      ensures out.written == old(out.written) + DataBytes(header)
    {
      WriteLittleBytes(out, header.subchunk2ID, 4);
      WriteLittle32(out, header.subchunk2Size);
    }

    /**
     * decodeSampleData: the sample area as it is, unless the header is
     * compressed with a nonzero compression ID; then the output of a fresh
     * decoder of the header's kind.
     */
    method DecodeSampleData(h: SoundSampleHeader) returns (data: seq<u8>)
      requires SndFormat.Decodable(h)
      ensures data == DecodedData(h, header.numChannels, maceSamples)
    {
      var c := h.common;
      if c.encode == StandardEncode || c.encode == ExtendedEncode {
        return c.sampleArea;
      } else if c.encode == CompressedEncode {
        if h.cmp.compressionID == 0 {
          return c.sampleArea;
        }
        var kind := h.cmp.decoder.value;
        match kind {
        case NullDecoder(bits) =>
          var decoder := new Decoder();
          ND.Decode(decoder, c.sampleArea, header.numChannels);
          data := decoder.GetLittleEndianData();
        case IMA4 =>
          var decoder := new IMA4.IMA4Decoder();
          var decodedSamples, warning := decoder.Decode(c.sampleArea, header.numChannels);
          data := SerializeSamples(decodedSamples);
        case ALaw =>
          var decoder := new Decoder();
          var ok := XLawDecoder.ALawDecode(decoder, c.sampleArea, header.numChannels);
          data := decoder.GetLittleEndianData();
        case ULaw =>
          var decoder := new Decoder();
          var ok := XLawDecoder.ULawDecode(decoder, c.sampleArea, header.numChannels);
          data := decoder.GetLittleEndianData();
        case MACE =>
          data := SerializeSamples(maceSamples(c.sampleArea, header.numChannels));
        }
        return data;
      }
      return c.sampleArea;
    }

    /**
     * writeSampleData: the decoded data, written as one- or two-byte
     * samples as the header's bit depth says; any other depth writes
     * nothing and fails.
     */
    method WriteSampleData(out: OutputStream, h: SoundSampleHeader) returns (ok: bool)
      requires SndFormat.Decodable(h)
      modifies out
      ensures var r := SampleOutput(out.littleHost, header.bitsPerSample, DecodedData(h, header.numChannels, maceSamples));
        && ok == r.Some?
        && out.written == old(out.written) + if r.Some? then r.value else []
    {
      var decodedSampleData := DecodeSampleData(h);
      var bytesPerSample := header.bitsPerSample / 8;
      if bytesPerSample == 1 {
        WriteLittleBytes(out, decodedSampleData, |decodedSampleData|);
        assert decodedSampleData[..|decodedSampleData|] == decodedSampleData;
        return true;
      } else if bytesPerSample == 2 {
        WriteLittlePairs(out, decodedSampleData, |decodedSampleData| / 2);
        return true;
      }
      return false;
    }

    /**
     * convertSnd: the header populated from the parsed file's sound header,
     * then written, then the sample data. The result of writing the samples
     * is not passed on.
     */
    method ConvertSnd(sndFile: SndFile.SndFile, out: OutputStream) returns (ok: bool)
      requires sndFile.soundSampleHeader.Some? && SndFormat.Decodable(sndFile.soundSampleHeader.value)
      modifies this, out
      ensures ok
      ensures var h := sndFile.soundSampleHeader.value;
        var samples := SampleOutput(out.littleHost, header.bitsPerSample, DecodedData(h, header.numChannels, maceSamples));
        && header == Populated(old(header), h)
        && out.written == old(out.written) + HeaderBytes(header) + (if samples.Some? then samples.value else [])
    {
      var h := sndFile.soundSampleHeader.value;
      ok := PopulateHeader(h);
      WriteBinaryHeader(out);
      var written := WriteSampleData(out, h);
      return true;
    }
  }

  /** The file starts with the header it announces: reading its first 44 bytes gives the header back. */
  lemma OutputStartsWithHeader(header: WAVHeader, samples: seq<u8>)
    ensures DecodeHeader(HeaderBytes(header) + samples) == header
    ensures |HeaderBytes(header) + samples| == HeaderLength + |samples|
  {
    HeaderRoundTrip(header, samples);
  }
}
