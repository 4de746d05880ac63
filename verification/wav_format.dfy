/**
 * The canonical 44-byte header of a PCM RIFF WAVE file: a RIFF chunk
 * descriptor, a "fmt " chunk and the head of the "data" chunk, every number
 * little-endian.
 */
module WAVFormat {
  import opened Bytes

  /** A 4-character chunk tag. */
  type Tag = s: seq<u8> | |s| == 4 witness [0, 0, 0, 0]

  const RiffTag: Tag := [0x52, 0x49, 0x46, 0x46]   // "RIFF"
  const WaveTag: Tag := [0x57, 0x41, 0x56, 0x45]   // "WAVE"
  const FmtTag: Tag := [0x66, 0x6D, 0x74, 0x20]    // "fmt "
  const DataTag: Tag := [0x64, 0x61, 0x74, 0x61]   // "data"

  const HeaderLength: nat := 44

  datatype WAVHeader = WAVHeader(
    chunkID: Tag,
    chunkSize: u32,
    format: Tag,
    subchunk1ID: Tag,
    subchunk1Size: u32,
    audioFormat: u16,
    numChannels: u16,
    sampleRate: u32,
    byteRate: u32,
    blockAlign: u16,
    bitsPerSample: u16,
    subchunk2ID: Tag,
    subchunk2Size: u32)

  /** A freshly constructed header: the four tags, every number 0. */
  function DefaultHeader(): (h: WAVHeader)
    ensures h.chunkID == RiffTag && h.format == WaveTag && h.subchunk1ID == FmtTag && h.subchunk2ID == DataTag
    ensures h.chunkSize == 0 && h.subchunk1Size == 0 && h.audioFormat == 0 && h.numChannels == 0
    ensures h.sampleRate == 0 && h.byteRate == 0 && h.blockAlign == 0 && h.bitsPerSample == 0
    ensures h.subchunk2Size == 0
  {
    WAVHeader(RiffTag, 0, WaveTag, FmtTag, 0, 0, 0, 0, 0, 0, 0, DataTag, 0)
  }

  // -------------------------------------------------------------- serialising

  /** The RIFF chunk descriptor: tag, chunk size, "WAVE". */
  function RiffBytes(h: WAVHeader): (b: seq<u8>)
    ensures |b| == 12
  {
    h.chunkID + LittleEndianBytes(h.chunkSize, 4) + h.format
  }

  /** The "fmt " chunk: tag, its size, then the six format numbers. */
  function FmtBytes(h: WAVHeader): (b: seq<u8>)
    ensures |b| == 24
  {
    h.subchunk1ID + LittleEndianBytes(h.subchunk1Size, 4)
      + LittleEndianBytes(h.audioFormat, 2) + LittleEndianBytes(h.numChannels, 2)
      + LittleEndianBytes(h.sampleRate, 4) + LittleEndianBytes(h.byteRate, 4)
      + LittleEndianBytes(h.blockAlign, 2) + LittleEndianBytes(h.bitsPerSample, 2)
  }

  /** The head of the "data" chunk: tag and data size. */
  function DataBytes(h: WAVHeader): (b: seq<u8>)
    ensures |b| == 8
  {
    h.subchunk2ID + LittleEndianBytes(h.subchunk2Size, 4)
  }

  /** The header as it lies in the file, fields in declaration order. */
  function HeaderBytes(h: WAVHeader): (b: seq<u8>)
    ensures |b| == HeaderLength
  {
    RiffBytes(h) + FmtBytes(h) + DataBytes(h)
  }

  // ---------------------------------------------------------------- reading

  /** The little-endian number of `width` bytes at `at`. */
  function LField(s: seq<u8>, at: nat, width: nat): (v: nat)
    requires at + width <= |s|
    ensures v < Pow256(width)
  {
    LittleEndianValue(s[at..at + width])
  }

  function TagAt(s: seq<u8>, at: nat): Tag
    requires at + 4 <= |s|
  {
    s[at..at + 4]
  }

  function U16LAt(s: seq<u8>, at: nat): u16
    requires at + 2 <= |s|
  {
    Pow256Widths();
    LField(s, at, 2)
  }

  function U32LAt(s: seq<u8>, at: nat): u32
    requires at + 4 <= |s|
  {
    Pow256Widths();
    LField(s, at, 4)
  }

  /** Reads a header back from the first 44 bytes of `s`. */
  function DecodeHeader(s: seq<u8>): (h: WAVHeader)
    requires |s| >= HeaderLength
  {
    WAVHeader(TagAt(s, 0), U32LAt(s, 4), TagAt(s, 8),
              TagAt(s, 12), U32LAt(s, 16), U16LAt(s, 20), U16LAt(s, 22),
              U32LAt(s, 24), U32LAt(s, 28), U16LAt(s, 32), U16LAt(s, 34),
              TagAt(s, 36), U32LAt(s, 40))
  }

  // ------------------------------------------------------------ round trips

  lemma LFieldOfBytes(s: seq<u8>, at: nat, v: nat, width: nat)
    requires at + width <= |s| && v < Pow256(width)
    requires s[at..at + width] == LittleEndianBytes(v, width)
    ensures LField(s, at, width) == v
  {
    LittleEndianRoundTrip(v, width);
  }

  lemma LFieldAfter(front: seq<u8>, back: seq<u8>, at: nat, width: nat)
    requires at + width <= |back|
    ensures LField(front + back, |front| + at, width) == LField(back, at, width)
    ensures (front + back)[|front| + at..|front| + at + width] == back[at..at + width]
  {
    assert (front + back)[|front| + at..|front| + at + width] == back[at..at + width];
  }

  lemma RiffRoundTrip(h: WAVHeader, rest: seq<u8>)
    ensures var s := RiffBytes(h) + rest;
      s[0..4] == h.chunkID && LField(s, 4, 4) == h.chunkSize && s[8..12] == h.format
  {
    var s := RiffBytes(h) + rest;
    Pow256Widths();
    assert s[4..8] == LittleEndianBytes(h.chunkSize, 4);
    LFieldOfBytes(s, 4, h.chunkSize, 4);
  }

  lemma FmtRoundTrip(h: WAVHeader, rest: seq<u8>)
    ensures var s := FmtBytes(h) + rest;
      && s[0..4] == h.subchunk1ID && LField(s, 4, 4) == h.subchunk1Size
      && LField(s, 8, 2) == h.audioFormat && LField(s, 10, 2) == h.numChannels
      && LField(s, 12, 4) == h.sampleRate && LField(s, 16, 4) == h.byteRate
      && LField(s, 20, 2) == h.blockAlign && LField(s, 22, 2) == h.bitsPerSample
  {
    var s := FmtBytes(h) + rest;
    Pow256Widths();
    assert s[4..8] == LittleEndianBytes(h.subchunk1Size, 4);
    assert s[8..10] == LittleEndianBytes(h.audioFormat, 2);
    assert s[10..12] == LittleEndianBytes(h.numChannels, 2);
    assert s[12..16] == LittleEndianBytes(h.sampleRate, 4);
    assert s[16..20] == LittleEndianBytes(h.byteRate, 4);
    assert s[20..22] == LittleEndianBytes(h.blockAlign, 2);
    assert s[22..24] == LittleEndianBytes(h.bitsPerSample, 2);
    LFieldOfBytes(s, 4, h.subchunk1Size, 4);
    LFieldOfBytes(s, 8, h.audioFormat, 2);
    LFieldOfBytes(s, 10, h.numChannels, 2);
    LFieldOfBytes(s, 12, h.sampleRate, 4);
    LFieldOfBytes(s, 16, h.byteRate, 4);
    LFieldOfBytes(s, 20, h.blockAlign, 2);
    LFieldOfBytes(s, 22, h.bitsPerSample, 2);
  }

  lemma DataRoundTrip(h: WAVHeader, rest: seq<u8>)
    ensures var s := DataBytes(h) + rest;
      s[0..4] == h.subchunk2ID && LField(s, 4, 4) == h.subchunk2Size
  {
    var s := DataBytes(h) + rest;
    Pow256Widths();
    assert s[4..8] == LittleEndianBytes(h.subchunk2Size, 4);
    LFieldOfBytes(s, 4, h.subchunk2Size, 4);
  }

  /** Reading a written header gives it back, whatever follows it. */
  lemma {:induction false} HeaderRoundTrip(h: WAVHeader, rest: seq<u8>)
    ensures DecodeHeader(HeaderBytes(h) + rest) == h
  {
    HeaderRiffRoundTrip(h, rest);
    HeaderFmtRoundTrip(h, rest);
    HeaderDataRoundTrip(h, rest);
  }

  /** The RIFF descriptor sits at the start. */
  lemma HeaderRiffRoundTrip(h: WAVHeader, rest: seq<u8>)
    ensures var s := HeaderBytes(h) + rest;
      s[0..4] == h.chunkID && LField(s, 4, 4) == h.chunkSize && s[8..12] == h.format
  {
    var s := HeaderBytes(h) + rest;
    assert s == RiffBytes(h) + (FmtBytes(h) + DataBytes(h) + rest);
    RiffRoundTrip(h, FmtBytes(h) + DataBytes(h) + rest);
  }

  /** The format chunk sits 12 bytes in. */
  lemma HeaderFmtRoundTrip(h: WAVHeader, rest: seq<u8>)
    ensures var s := HeaderBytes(h) + rest;
      && s[12..16] == h.subchunk1ID && LField(s, 16, 4) == h.subchunk1Size
      && LField(s, 20, 2) == h.audioFormat && LField(s, 22, 2) == h.numChannels
      && LField(s, 24, 4) == h.sampleRate && LField(s, 28, 4) == h.byteRate
      && LField(s, 32, 2) == h.blockAlign && LField(s, 34, 2) == h.bitsPerSample
  {
    var riff := RiffBytes(h);
    var tail := FmtBytes(h) + (DataBytes(h) + rest);
    var s := HeaderBytes(h) + rest;
    assert s == riff + tail;
    FmtRoundTrip(h, DataBytes(h) + rest);
    LFieldAfter(riff, tail, 0, 4);
    LFieldAfter(riff, tail, 4, 4);
    LFieldAfter(riff, tail, 8, 2);
    LFieldAfter(riff, tail, 10, 2);
    LFieldAfter(riff, tail, 12, 4);
    LFieldAfter(riff, tail, 16, 4);
    LFieldAfter(riff, tail, 20, 2);
    LFieldAfter(riff, tail, 22, 2);
  }

  /** The data chunk head sits 36 bytes in. */
  lemma HeaderDataRoundTrip(h: WAVHeader, rest: seq<u8>)
    ensures var s := HeaderBytes(h) + rest;
      s[36..40] == h.subchunk2ID && LField(s, 40, 4) == h.subchunk2Size
  {
    var front := RiffBytes(h) + FmtBytes(h);
    var s := HeaderBytes(h) + rest;
    assert s == front + (DataBytes(h) + rest);
    DataRoundTrip(h, rest);
    LFieldAfter(front, DataBytes(h) + rest, 0, 4);
    LFieldAfter(front, DataBytes(h) + rest, 4, 4);
  }

  /** Every 44-byte string is the serialisation of the header read from it. */
  lemma {:induction false} BytesRoundTrip(s: seq<u8>)
    requires |s| == HeaderLength
    ensures HeaderBytes(DecodeHeader(s)) == s
  {
    var h := DecodeHeader(s);
    RiffBytesOf(s);
    FmtBytesOf(s);
    DataBytesOf(s);
    assert s == s[0..12] + s[12..36] + s[36..44];
  }

  lemma RiffBytesOf(s: seq<u8>)
    requires |s| == HeaderLength
    ensures RiffBytes(DecodeHeader(s)) == s[0..12]
  {
    Pow256Widths();
    LittleEndianBytesOfValue(s[4..8]);
    assert s[0..12] == s[0..4] + s[4..8] + s[8..12];
  }

  lemma FmtBytesOf(s: seq<u8>)
    requires |s| == HeaderLength
    ensures FmtBytes(DecodeHeader(s)) == s[12..36]
  {
    Pow256Widths();
    LittleEndianBytesOfValue(s[16..20]);
    LittleEndianBytesOfValue(s[20..22]);
    LittleEndianBytesOfValue(s[22..24]);
    LittleEndianBytesOfValue(s[24..28]);
    LittleEndianBytesOfValue(s[28..32]);
    LittleEndianBytesOfValue(s[32..34]);
    LittleEndianBytesOfValue(s[34..36]);
    assert s[12..36] == s[12..16] + s[16..20] + s[20..22] + s[22..24]
                        + s[24..28] + s[28..32] + s[32..34] + s[34..36];
  }

  lemma DataBytesOf(s: seq<u8>)
    requires |s| == HeaderLength
    ensures DataBytes(DecodeHeader(s)) == s[36..44]
  {
    Pow256Widths();
    LittleEndianBytesOfValue(s[40..44]);
    assert s[36..44] == s[36..40] + s[40..44];
  }

  /** In the file the tags sit at offsets 0, 8, 12 and 36. */
  lemma TagOffsets(h: WAVHeader)
    ensures var b := HeaderBytes(h);
      b[0..4] == h.chunkID && b[8..12] == h.format && b[12..16] == h.subchunk1ID && b[36..40] == h.subchunk2ID
  {
    HeaderRoundTrip(h, []);
    assert HeaderBytes(h) + [] == HeaderBytes(h);
  }

  /** The header a default-constructed file would write. */
  lemma DefaultHeaderBytes()
    ensures HeaderBytes(DefaultHeader()) == RiffTag + Zeros(4) + WaveTag + FmtTag + Zeros(20) + DataTag + Zeros(4)
  {
    assert LittleEndianBytes(0, 4) == Zeros(4);
    assert LittleEndianBytes(0, 2) == Zeros(2);
    assert Zeros(4) + Zeros(2) + Zeros(2) + Zeros(4) + Zeros(4) + Zeros(2) + Zeros(2) == Zeros(20);
  }
}
