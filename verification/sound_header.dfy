/**
 * The three sound sample header records of a 'snd ' resource: the common
 * prefix every header starts with, and the extended (encode 0xFF) and
 * compressed (encode 0xFE) variants that derive from it.
 *
 * The C++ classes form a hierarchy whose base object is also stored on its
 * own (standard header, or a header with an unrecognised encoding); here the
 * stored object is one value of a tagged union, `Base`, `Extended` or
 * `Compressed`, each carrying the common fields.
 */
module SoundHeader {
  import opened Bytes
  import opened Wrappers
  import opened Decoder

  /** The 80-bit extended sample rate as three 32-bit cells, most significant first. */
  type SampleRate80 = s: seq<u32> | |s| == 3 witness [0, 0, 0]

  /** Two rates are equal when their three cells are. */
  lemma SameRate(a: SampleRate80, b: SampleRate80)
    requires a[0] == b[0] && a[1] == b[1] && a[2] == b[2]
    ensures a == b
  {
  }

  /** A 4-character format tag. */
  type FourCC = s: seq<u8> | |s| == 4 witness [0, 0, 0, 0]

  datatype CommonFields = CommonFields(
    samplePtr: u32,
    lengthOrChannels: i32,   // number of samples, or number of channels for compressed data
    sampleRate: u32,         // unsigned 16.16 fixed point
    loopStart: i32,
    loopEnd: i32,
    encode: u8,
    baseFrequency: u8,
    sampleArea: seq<u8>)

  datatype ExtendedFields = ExtendedFields(
    numFrames: i32,
    aiffSampleRate: SampleRate80,
    markerChunk: u32,
    instrumentChunks: u32,
    aesRecording: u32,
    sampleSize: i16,
    futureUse1: i16,
    futureUse2: u32,
    futureUse3: u32,
    futureUse4: u32)

  /**
   * `decoder` is the codec chosen for the format tag once the header has been
   * read; None when no decoder was created.
   */
  datatype CompressedFields = CompressedFields(
    numFrames: i32,
    aiffSampleRate: SampleRate80,
    markerChunk: u32,
    format: FourCC,
    futureUse2: i32,
    stateVars: u32,
    leftOverSamples: u32,
    compressionID: i16,
    packetSize: i16,
    snthID: i16,
    sampleSize: i16,
    decoder: Option<DecoderKind>)

  datatype SoundSampleHeader =
    | Base(common: CommonFields)
    | Extended(common: CommonFields, ext: ExtendedFields)
    | Compressed(common: CommonFields, cmp: CompressedFields)

  const StandardEncode: u8 := 0x00
  const ExtendedEncode: u8 := 0xFF
  const CompressedEncode: u8 := 0xFE

  /** A freshly constructed base header: every field 0, no sample data. */
  function DefaultCommon(): (c: CommonFields)
    ensures c.samplePtr == 0 && c.lengthOrChannels == 0 && c.sampleRate == 0
    ensures c.loopStart == 0 && c.loopEnd == 0 && c.encode == 0 && c.baseFrequency == 0
    ensures c.sampleArea == []
  {
    CommonFields(0, 0, 0, 0, 0, 0, 0, [])
  }

  function DefaultExtended(): (e: ExtendedFields)
    ensures e.numFrames == 0 && e.aiffSampleRate == [0, 0, 0]
    ensures e.markerChunk == 0 && e.instrumentChunks == 0 && e.aesRecording == 0
    ensures e.sampleSize == 0 && e.futureUse1 == 0
    ensures e.futureUse2 == 0 && e.futureUse3 == 0 && e.futureUse4 == 0
  {
    ExtendedFields(0, [0, 0, 0], 0, 0, 0, 0, 0, 0, 0, 0)
  }

  function DefaultCompressed(): (c: CompressedFields)
    ensures c.numFrames == 0 && c.aiffSampleRate == [0, 0, 0] && c.markerChunk == 0
    ensures c.format == [0, 0, 0, 0] && c.futureUse2 == 0 && c.stateVars == 0 && c.leftOverSamples == 0
    ensures c.compressionID == 0 && c.packetSize == 0 && c.snthID == 0 && c.sampleSize == 0
    ensures c.decoder == None
  {
    CompressedFields(0, [0, 0, 0], 0, [0, 0, 0, 0], 0, 0, 0, 0, 0, 0, 0, None)
  }

  /** The extended header built from a base header: the base part copied, the rest at defaults. */
  function ExtendedFrom(base: CommonFields): (h: SoundSampleHeader)
    ensures h.Extended? && h.common == base && h.ext == DefaultExtended()
  {
    Extended(base, DefaultExtended())
  }

  /** The compressed header built from a base header: the base part copied, the rest at defaults. */
  function CompressedFrom(base: CommonFields): (h: SoundSampleHeader)
    ensures h.Compressed? && h.common == base && h.cmp == DefaultCompressed()
  {
    Compressed(base, DefaultCompressed())
  }

  /**
   * The variant of a header agrees with its encoding byte: readers of a
   * header rely on this to view it as the derived record.
   */
  predicate WellTagged(h: SoundSampleHeader)
  {
    && (h.Extended? <==> h.common.encode == ExtendedEncode)
    && (h.Compressed? <==> h.common.encode == CompressedEncode)
  }

  /** Copying a base header into a derived one keeps it well tagged exactly when its encoding names that variant. */
  lemma CopiesAreWellTagged(base: CommonFields)
    ensures WellTagged(ExtendedFrom(base)) <==> base.encode == ExtendedEncode
    ensures WellTagged(CompressedFrom(base)) <==> base.encode == CompressedEncode
    ensures WellTagged(Base(base)) <==> base.encode != ExtendedEncode && base.encode != CompressedEncode
  {
  }
}
