/**
 * The 'snd ' resource as bytes: where each field lies, how the codec is
 * chosen from the format tag, and what loading a sound sample header and
 * parsing a whole resource yield. These functions are the reference the
 * stream-reading parser in module SndFile is proved against.
 *
 * All multi-byte fields are big-endian. A read that would run past the end
 * of the resource is a failure here.
 */
module SndFormat {
  import opened Bytes
  import opened Wrappers
  import opened Endian
  import opened Decoder
  import opened SoundHeader
  import XLawDecoder
  import ND = NullDecoder

  /** bufferCmd with its data-offset bit set. */
  const BufferCmd: u16 := 0x8051

  const FileHeaderLength: nat := 12
  const CommandLength: nat := 8
  const CommonLength: nat := 22
  /** Both the extended and the compressed header have 42 bytes after the common part. */
  const VariantLength: nat := 42

  /** The big-endian value of `width` bytes at `at`. */
  function Field(s: seq<u8>, at: nat, width: nat): (v: nat)
    requires at + width <= |s|
    ensures v < Pow256(width)
  {
    BigEndianValue(s[at..at + width])
  }

  function U8At(s: seq<u8>, at: nat): u8
    requires at + 1 <= |s|
  {
    Pow256Widths();
    Field(s, at, 1)
  }

  function U16At(s: seq<u8>, at: nat): u16
    requires at + 2 <= |s|
  {
    Pow256Widths();
    Field(s, at, 2)
  }

  function U32At(s: seq<u8>, at: nat): u32
    requires at + 4 <= |s|
  {
    Pow256Widths();
    Field(s, at, 4)
  }

  function U64At(s: seq<u8>, at: nat): u64
    requires at + 8 <= |s|
  {
    Pow256Widths();
    Field(s, at, 8)
  }

  function I16At(s: seq<u8>, at: nat): i16
    requires at + 2 <= |s|
  {
    AsInt16(U16At(s, at))
  }

  function I32At(s: seq<u8>, at: nat): i32
    requires at + 4 <= |s|
  {
    AsInt32(U32At(s, at))
  }

  /** A 32-bit cell of which only the two low-order bytes are stored. */
  function PartialU32At(s: seq<u8>, at: nat): (v: u32)
    requires at + 2 <= |s|
    ensures v < 0x1_0000
  {
    Pow256Widths();
    Field(s, at, 2)
  }

  /** Format tags, as the ASCII bytes of their four characters. */
  const TagMac3Lower: FourCC := [0x6d, 0x61, 0x63, 0x33]   // "mac3"
  const TagMac3Upper: FourCC := [0x4d, 0x41, 0x43, 0x33]   // "MAC3"
  const TagIma4Lower: FourCC := [0x69, 0x6d, 0x61, 0x34]   // "ima4"
  const TagIma4Upper: FourCC := [0x49, 0x4d, 0x41, 0x34]   // "IMA4"
  const TagALawLower: FourCC := [0x61, 0x6c, 0x61, 0x77]   // "alaw"
  const TagALawUpper: FourCC := [0x41, 0x4c, 0x41, 0x57]   // "ALAW"
  const TagULawLower: FourCC := [0x75, 0x6c, 0x61, 0x77]   // "ulaw"
  const TagULawUpper: FourCC := [0x55, 0x4c, 0x41, 0x57]   // "ULAW"

  /**
   * The codec for a compressed header. MACE wins on compression ID 3 or its
   * tag; then IMA4, A-law and mu-law by exact tag (lower or upper case only);
   * otherwise there is no decoder, whether the ID is 0 (uncompressed) or the
   * format is unsupported.
   */
  function CreateDecoder(format: FourCC, compressionID: i16): (d: Option<DecoderKind>)
    ensures compressionID == 3 ==> d == Some(MACE)
    ensures d == Some(MACE) <==> compressionID == 3 || format == TagMac3Lower || format == TagMac3Upper
    ensures d == Some(IMA4)
      <==> compressionID != 3 && (format == TagIma4Lower || format == TagIma4Upper)
    ensures d == Some(ALaw)
      <==> compressionID != 3 && (format == TagALawLower || format == TagALawUpper)
    ensures d == Some(ULaw)
      <==> compressionID != 3 && (format == TagULawLower || format == TagULawUpper)
    ensures d == None <==> (
      && compressionID != 3
      && format != TagMac3Lower && format != TagMac3Upper && format != TagIma4Lower && format != TagIma4Upper
      && format != TagALawLower && format != TagALawUpper && format != TagULawLower && format != TagULawUpper)
  {
    if compressionID == 3 || format == TagMac3Lower || format == TagMac3Upper then Some(MACE)
    else if format == TagIma4Lower || format == TagIma4Upper then Some(IMA4)
    else if format == TagALawLower || format == TagALawUpper then Some(ALaw)
    else if format == TagULawLower || format == TagULawUpper then Some(ULaw)
    else None
  }

  /** Tags are compared byte for byte: mixed case selects nothing. */
  lemma MixedCaseTagsDoNotMatch()
    ensures CreateDecoder([0x49, 0x6d, 0x61, 0x34], 0) == None
    ensures CreateDecoder([0x41, 0x6c, 0x61, 0x77], 2) == None
    ensures CreateDecoder(TagMac3Upper, 0) == Some(MACE)
    ensures CreateDecoder(TagULawLower, 3) == Some(MACE)
  {
  }

  /** The 22-byte common header at `at`; its sample area is still empty. */
  function DecodeCommon(s: seq<u8>, at: nat): (c: CommonFields)
    requires at + CommonLength <= |s|
    ensures c.sampleArea == []
  {
    CommonFields(
      U32At(s, at), I32At(s, at + 4), U32At(s, at + 8), I32At(s, at + 12), I32At(s, at + 16),
      U8At(s, at + 20), U8At(s, at + 21), [])
  }

  /** The 42 bytes after the common part of an extended header. */
  function DecodeExtended(s: seq<u8>, at: nat): ExtendedFields
    requires at + VariantLength <= |s|
  {
    ExtendedFields(
      I32At(s, at),
      [PartialU32At(s, at + 4), U32At(s, at + 6), U32At(s, at + 10)],
      U32At(s, at + 14), U32At(s, at + 18), U32At(s, at + 22),
      I16At(s, at + 26), I16At(s, at + 28),
      U32At(s, at + 30), U32At(s, at + 34), U32At(s, at + 38))
  }

  /** The 42 bytes after the common part of a compressed header, and the codec they select. */
  function DecodeCompressed(s: seq<u8>, at: nat): CompressedFields
    requires at + VariantLength <= |s|
  {
    var format := s[at + 18..at + 22];
    var compressionID := I16At(s, at + 34);
    CompressedFields(
      I32At(s, at),
      [PartialU32At(s, at + 4), U32At(s, at + 6), U32At(s, at + 10)],
      U32At(s, at + 14), format, I32At(s, at + 22), U32At(s, at + 26), U32At(s, at + 30),
      compressionID, I16At(s, at + 36), I16At(s, at + 38), I16At(s, at + 40),
      CreateDecoder(format, compressionID))
  }

  function EncodeCommon(c: CommonFields): (b: seq<u8>)
    ensures |b| == CommonLength
  {
    BigEndianBytes(c.samplePtr, 4) + BigEndianBytes(AsUint32(c.lengthOrChannels), 4)
      + BigEndianBytes(c.sampleRate, 4) + BigEndianBytes(AsUint32(c.loopStart), 4)
      + BigEndianBytes(AsUint32(c.loopEnd), 4) + [c.encode, c.baseFrequency]
  }

  /** The first AIFF cell must fit its two stored bytes. */
  function EncodeExtended(e: ExtendedFields): (b: seq<u8>)
    requires e.aiffSampleRate[0] < 0x1_0000
    ensures |b| == VariantLength
  {
    BigEndianBytes(AsUint32(e.numFrames), 4)
      + BigEndianBytes(e.aiffSampleRate[0], 2) + BigEndianBytes(e.aiffSampleRate[1], 4)
      + BigEndianBytes(e.aiffSampleRate[2], 4)
      + BigEndianBytes(e.markerChunk, 4) + BigEndianBytes(e.instrumentChunks, 4)
      + BigEndianBytes(e.aesRecording, 4)
      + BigEndianBytes(AsUint16(e.sampleSize), 2) + BigEndianBytes(AsUint16(e.futureUse1), 2)
      + BigEndianBytes(e.futureUse2, 4) + BigEndianBytes(e.futureUse3, 4) + BigEndianBytes(e.futureUse4, 4)
  }

  function EncodeCompressed(c: CompressedFields): (b: seq<u8>)
    requires c.aiffSampleRate[0] < 0x1_0000
    ensures |b| == VariantLength
  {
    CompressedHeadBytes(c) + CompressedTailBytes(c)
  }

  /** The first 22 bytes: frame count, AIFF rate, marker chunk and format tag. */
  function CompressedHeadBytes(c: CompressedFields): (b: seq<u8>)
    requires c.aiffSampleRate[0] < 0x1_0000
    ensures |b| == 22
  {
    BigEndianBytes(AsUint32(c.numFrames), 4)
      + BigEndianBytes(c.aiffSampleRate[0], 2) + BigEndianBytes(c.aiffSampleRate[1], 4)
      + BigEndianBytes(c.aiffSampleRate[2], 4)
      + BigEndianBytes(c.markerChunk, 4) + c.format
  }

  /** The last 20 bytes: three 32-bit cells, then four 16-bit ones. */
  function CompressedTailBytes(c: CompressedFields): (b: seq<u8>)
    ensures |b| == 20
  {
    CompressedWordBytes(c) + CompressedShortBytes(c)
  }

  /** State, left-over count. */
  function CompressedWordBytes(c: CompressedFields): (b: seq<u8>)
    ensures |b| == 12
  {
    BigEndianBytes(AsUint32(c.futureUse2), 4) + BigEndianBytes(c.stateVars, 4)
      + BigEndianBytes(c.leftOverSamples, 4)
  }

  /** Compression ID, packet size, synth ID and sample size. */
  function CompressedShortBytes(c: CompressedFields): (b: seq<u8>)
    ensures |b| == 8
  {
    BigEndianBytes(AsUint16(c.compressionID), 2) + BigEndianBytes(AsUint16(c.packetSize), 2)
      + BigEndianBytes(AsUint16(c.snthID), 2) + BigEndianBytes(AsUint16(c.sampleSize), 2)
  }

  /** A field whose bytes are the big-endian encoding of v reads back as v. */
  lemma FieldOfBytes(s: seq<u8>, at: nat, v: nat, width: nat)
    requires at + width <= |s| && v < Pow256(width)
    requires s[at..at + width] == BigEndianBytes(v, width)
    ensures Field(s, at, width) == v
  {
    BigEndianRoundTrip(v, width);
  }

  lemma {:induction false} CommonRoundTrip(c: CommonFields, rest: seq<u8>)
    requires c.sampleArea == []
    ensures DecodeCommon(EncodeCommon(c) + rest, 0) == c
  {
    var s := EncodeCommon(c) + rest;
    Pow256Widths();
    SignedRoundTrips(c.lengthOrChannels, 0, 0);
    SignedRoundTrips(c.loopStart, 0, 0);
    SignedRoundTrips(c.loopEnd, 0, 0);
    FieldOfBytes(s, 0, c.samplePtr, 4);
    FieldOfBytes(s, 4, AsUint32(c.lengthOrChannels), 4);
    FieldOfBytes(s, 8, c.sampleRate, 4);
    FieldOfBytes(s, 12, AsUint32(c.loopStart), 4);
    FieldOfBytes(s, 16, AsUint32(c.loopEnd), 4);
    assert s[20..21] == [c.encode] && s[21..22] == [c.baseFrequency];
  }

  lemma {:induction false} ExtendedRoundTrip(e: ExtendedFields, rest: seq<u8>)
    requires e.aiffSampleRate[0] < 0x1_0000
    ensures DecodeExtended(EncodeExtended(e) + rest, 0) == e
  {
    var s := EncodeExtended(e) + rest;
    Pow256Widths();
    SignedRoundTrips(e.numFrames, e.sampleSize, 0);
    SignedRoundTrips(0, e.futureUse1, 0);
    FieldOfBytes(s, 0, AsUint32(e.numFrames), 4);
    FieldOfBytes(s, 4, e.aiffSampleRate[0], 2);
    FieldOfBytes(s, 6, e.aiffSampleRate[1], 4);
    FieldOfBytes(s, 10, e.aiffSampleRate[2], 4);
    FieldOfBytes(s, 14, e.markerChunk, 4);
    FieldOfBytes(s, 18, e.instrumentChunks, 4);
    FieldOfBytes(s, 22, e.aesRecording, 4);
    FieldOfBytes(s, 26, AsUint16(e.sampleSize), 2);
    FieldOfBytes(s, 28, AsUint16(e.futureUse1), 2);
    FieldOfBytes(s, 30, e.futureUse2, 4);
    FieldOfBytes(s, 34, e.futureUse3, 4);
    FieldOfBytes(s, 38, e.futureUse4, 4);
    var rate, decoded := e.aiffSampleRate, DecodeExtended(s, 0).aiffSampleRate;
    assert decoded[0] == rate[0] && decoded[1] == rate[1] && decoded[2] == rate[2];
    SameRate(decoded, rate);
  }

  /** A field read `|front|` bytes further on, past a prefix, is the field of what follows the prefix. */
  lemma FieldAfter(front: seq<u8>, back: seq<u8>, at: nat, width: nat)
    requires at + width <= |back|
    ensures Field(front + back, |front| + at, width) == Field(back, at, width)
  {
    assert (front + back)[|front| + at..|front| + at + width] == back[at..at + width];
  }

  lemma {:induction false} CompressedHeadRoundTrip(c: CompressedFields, rest: seq<u8>)
    requires c.aiffSampleRate[0] < 0x1_0000
    ensures var s := CompressedHeadBytes(c) + rest;
      && Field(s, 0, 4) == AsUint32(c.numFrames) && Field(s, 4, 2) == c.aiffSampleRate[0]
      && Field(s, 6, 4) == c.aiffSampleRate[1] && Field(s, 10, 4) == c.aiffSampleRate[2]
      && Field(s, 14, 4) == c.markerChunk && s[18..22] == c.format
  {
    var s := CompressedHeadBytes(c) + rest;
    Pow256Widths();
    FieldOfBytes(s, 0, AsUint32(c.numFrames), 4);
    FieldOfBytes(s, 4, c.aiffSampleRate[0], 2);
    FieldOfBytes(s, 6, c.aiffSampleRate[1], 4);
    FieldOfBytes(s, 10, c.aiffSampleRate[2], 4);
    FieldOfBytes(s, 14, c.markerChunk, 4);
  }

  lemma {:induction false} CompressedWordRoundTrip(c: CompressedFields, rest: seq<u8>)
    ensures var s := CompressedWordBytes(c) + rest;
      && Field(s, 0, 4) == AsUint32(c.futureUse2) && Field(s, 4, 4) == c.stateVars
      && Field(s, 8, 4) == c.leftOverSamples
  {
    var s := CompressedWordBytes(c) + rest;
    Pow256Widths();
    FieldOfBytes(s, 0, AsUint32(c.futureUse2), 4);
    FieldOfBytes(s, 4, c.stateVars, 4);
    FieldOfBytes(s, 8, c.leftOverSamples, 4);
  }

  lemma {:induction false} CompressedShortRoundTrip(c: CompressedFields, rest: seq<u8>)
    ensures var s := CompressedShortBytes(c) + rest;
      && Field(s, 0, 2) == AsUint16(c.compressionID) && Field(s, 2, 2) == AsUint16(c.packetSize)
      && Field(s, 4, 2) == AsUint16(c.snthID) && Field(s, 6, 2) == AsUint16(c.sampleSize)
  {
    var s := CompressedShortBytes(c) + rest;
    Pow256Widths();
    FieldOfBytes(s, 0, AsUint16(c.compressionID), 2);
    FieldOfBytes(s, 2, AsUint16(c.packetSize), 2);
    FieldOfBytes(s, 4, AsUint16(c.snthID), 2);
    FieldOfBytes(s, 6, AsUint16(c.sampleSize), 2);
  }

  lemma {:induction false} CompressedTailRoundTrip(c: CompressedFields, rest: seq<u8>)
    ensures var s := CompressedTailBytes(c) + rest;
      && Field(s, 0, 4) == AsUint32(c.futureUse2) && Field(s, 4, 4) == c.stateVars
      && Field(s, 8, 4) == c.leftOverSamples && Field(s, 12, 2) == AsUint16(c.compressionID)
      && Field(s, 14, 2) == AsUint16(c.packetSize) && Field(s, 16, 2) == AsUint16(c.snthID)
      && Field(s, 18, 2) == AsUint16(c.sampleSize)
  {
    var words := CompressedWordBytes(c);
    var shorts := CompressedShortBytes(c) + rest;
    assert CompressedTailBytes(c) + rest == words + shorts;
    CompressedWordRoundTrip(c, shorts);
    CompressedShortRoundTrip(c, rest);
    FieldAfter(words, shorts, 0, 2);
    FieldAfter(words, shorts, 2, 2);
    FieldAfter(words, shorts, 4, 2);
    FieldAfter(words, shorts, 6, 2);
  }

  /** Decoding recomputes the codec from the tag, so the stored choice must be the one the tag selects. */
  lemma {:induction false} CompressedRoundTrip(c: CompressedFields, rest: seq<u8>)
    requires c.aiffSampleRate[0] < 0x1_0000
    requires c.decoder == CreateDecoder(c.format, c.compressionID)
    ensures DecodeCompressed(EncodeCompressed(c) + rest, 0) == c
  {
    var head := CompressedHeadBytes(c);
    var tail := CompressedTailBytes(c) + rest;
    var s := EncodeCompressed(c) + rest;
    assert s == head + tail;
    CompressedHeadRoundTrip(c, tail);
    CompressedTailRoundTrip(c, rest);
    FieldAfter(head, tail, 0, 4);
    FieldAfter(head, tail, 4, 4);
    FieldAfter(head, tail, 8, 4);
    FieldAfter(head, tail, 12, 2);
    FieldAfter(head, tail, 14, 2);
    FieldAfter(head, tail, 16, 2);
    FieldAfter(head, tail, 18, 2);
    SignedRoundTrips(c.numFrames, c.compressionID, 0);
    SignedRoundTrips(c.futureUse2, c.packetSize, 0);
    SignedRoundTrips(0, c.snthID, 0);
    SignedRoundTrips(0, c.sampleSize, 0);
    var d := DecodeCompressed(s, 0);
    assert d.numFrames == c.numFrames && d.markerChunk == c.markerChunk && d.format == c.format;
    var rate := c.aiffSampleRate;
    assert d.aiffSampleRate[0] == rate[0] && d.aiffSampleRate[1] == rate[1] && d.aiffSampleRate[2] == rate[2];
    SameRate(d.aiffSampleRate, rate);
    assert d.futureUse2 == c.futureUse2 && d.stateVars == c.stateVars && d.leftOverSamples == c.leftOverSamples;
    assert d.compressionID == c.compressionID && d.packetSize == c.packetSize;
    assert d.snthID == c.snthID && d.sampleSize == c.sampleSize;
  }

  // ---------------------------------------------------------------- commands

  /** The command name: the top 16 bits of a 64-bit sound command. */
  function OpCode(command: u64): (name: u16)
    ensures name * 0x1_0000_0000_0000 <= command < (name + 1) * 0x1_0000_0000_0000
  {
    command / 0x1_0000_0000_0000
  }

  /** The second parameter: the low 16 bits of a sound command. */
  function Param2(command: u64): (p: u16)
    ensures (command - p) % 0x1_0000 == 0
  {
    command % 0x1_0000
  }

  /** The first `count` commands of a resource, in file order. */
  function CommandsOf(s: seq<u8>, count: nat): (commands: seq<u64>)
    requires FileHeaderLength + CommandLength * count <= |s|
    ensures |commands| == count
    ensures forall i :: 0 <= i < count ==> commands[i] == U64At(s, FileHeaderLength + CommandLength * i)
  {
    seq(count, i requires 0 <= i < count => U64At(s, FileHeaderLength + CommandLength * i))
  }

  /** The first command named `name`, or 0 if there is none. */
  function FirstCommand(commands: seq<u64>, name: u16): (command: u64)
    ensures command != 0 ==> command in commands && OpCode(command) == name
    ensures name != 0 && command == 0 ==> forall i :: 0 <= i < |commands| ==> OpCode(commands[i]) != name
  {
    if commands == [] then 0
    else if OpCode(commands[0]) == name then commands[0]
    else FirstCommand(commands[1..], name)
  }

  /** A command named `name` with no such command before it is the one found. */
  lemma {:induction false} FirstCommandIsFirst(commands: seq<u64>, name: u16, i: nat)
    requires i < |commands| && OpCode(commands[i]) == name
    requires forall j :: 0 <= j < i ==> OpCode(commands[j]) != name
    ensures FirstCommand(commands, name) == commands[i]
  {
    if i > 0 {
      FirstCommandIsFirst(commands[1..], name, i - 1);
    }
  }

  // ------------------------------------------------------------- sample data

  /** A vector resized to n: its prefix kept, new cells zero. */
  function Resize(buffer: seq<u8>, n: nat): (r: seq<u8>)
    ensures |r| == n
  {
    if n <= |buffer| then buffer[..n] else buffer + Zeros(n - |buffer|)
  }

  lemma ResizeAt(buffer: seq<u8>, n: nat, i: nat)
    requires i < n
    ensures Resize(buffer, n)[i] == if i < |buffer| then buffer[i] else 0
  {
  }

  /**
   * The memory image of big-endian 16-bit values read one after the other
   * into a host's memory: on a little-endian host the two bytes of each pair
   * trade places, on a big-endian host nothing moves.
   */
  function PairImage(littleHost: bool, src: seq<u8>): (image: seq<u8>)
    requires |src| % 2 == 0
    ensures |image| == |src|
  {
    seq(|src|, j requires 0 <= j < |src| =>
      if !littleHost then src[j] else if j % 2 == 0 then src[j + 1] else src[j - 1])
  }

  /** The two bytes of pair i of the image: swapped on a little-endian host. */
  lemma PairImageOf(littleHost: bool, src: seq<u8>, i: nat)
    requires |src| % 2 == 0 && 2 * i + 2 <= |src|
    ensures PairImage(littleHost, src)[2 * i] == if littleHost then src[2 * i + 1] else src[2 * i]
    ensures PairImage(littleHost, src)[2 * i + 1] == if littleHost then src[2 * i] else src[2 * i + 1]
  {
    assert (2 * i) % 2 == 0 && (2 * i + 1) % 2 == 1;
  }

  /** Pair i of the image is the host's native form of the i-th big-endian pair. */
  lemma PairImageAt(littleHost: bool, src: seq<u8>, i: nat)
    requires |src| % 2 == 0 && 2 * i + 2 <= |src|
    ensures PairImage(littleHost, src)[2 * i..2 * i + 2] == MakeBigEndianNative(littleHost, src[2 * i..2 * i + 2])
  {
    var pair := src[2 * i..2 * i + 2];
    var native := MakeBigEndianNative(littleHost, pair);
    PairImageOf(littleHost, src, i);
    PairToNative(littleHost, pair);
    assert PairImage(littleHost, src)[2 * i..2 * i + 2] == [native[0], native[1]];
    assert native == [native[0], native[1]];
  }

  /** Single bytes need no conversion: bytes are copied as they are. */
  lemma ByteImageIsVerbatim(littleHost: bool, src: seq<u8>, i: nat)
    requires i < |src|
    ensures MakeBigEndianNative(littleHost, src[i..i + 1]) == src[i..i + 1]
  {
    assert src[i..i + 1] == [src[i]];
    SingleByteUnchanged(littleHost, src[i]);
  }

  /**
   * The sample area after reading `length` bytes at `at` into `buffer`, or
   * None if a value runs past the end. The buffer is first resized to
   * `length`. One byte per value: the bytes are copied. Two bytes per value:
   * length / 2 big-endian pairs are read into the host's order (a trailing
   * odd byte stays as resized). Any other width reads nothing.
   */
  function SampleData(s: seq<u8>, at: nat, littleHost: bool, buffer: seq<u8>, length: nat, bytesPerValue: nat)
    : (r: Option<seq<u8>>)
    ensures r.Some? ==> |r.value| == length
  {
    var resized := Resize(buffer, length);
    if bytesPerValue == 1 then
      if at + length > |s| then None else Some(s[at..at + length])
    else if bytesPerValue == 2 then
      var n := 2 * (length / 2);
      if at + n > |s| then None else Some(PairImage(littleHost, s[at..at + n]) + resized[n..])
    else Some(resized)
  }

  /** With one byte per value the area is the next `length` bytes, verbatim, whatever the buffer held. */
  lemma SampleDataOfBytes(s: seq<u8>, at: nat, littleHost: bool, buffer: seq<u8>, length: nat)
    ensures at + length <= |s| ==> SampleData(s, at, littleHost, buffer, length, 1) == Some(s[at..at + length])
    ensures at + length > |s| ==> SampleData(s, at, littleHost, buffer, length, 1) == None
  {
  }

  /** With two bytes per value, pair i of the area is the native form of the i-th big-endian pair. */
  lemma SampleDataOfPairs(s: seq<u8>, at: nat, littleHost: bool, buffer: seq<u8>, length: nat, i: nat)
    requires at + length <= |s| && 2 * i + 2 <= length
    ensures SampleData(s, at, littleHost, buffer, length, 2).Some?
    ensures SampleData(s, at, littleHost, buffer, length, 2).value[2 * i..2 * i + 2]
      == MakeBigEndianNative(littleHost, s[at + 2 * i..at + 2 * i + 2])
  {
    var n := 2 * (length / 2);
    var src := s[at..at + n];
    var image := PairImage(littleHost, src);
    var rest := Resize(buffer, length)[n..];
    var pair := s[at + 2 * i..at + 2 * i + 2];
    var native := MakeBigEndianNative(littleHost, pair);
    var area := image + rest;
    assert SampleData(s, at, littleHost, buffer, length, 2) == Some(area);
    PairImageOf(littleHost, src, i);
    PairToNative(littleHost, pair);
    assert area[2 * i] == native[0] && area[2 * i + 1] == native[1];
    assert area[2 * i..2 * i + 2] == native;
  }

  /** With two bytes per value and an odd length, the last byte is the resized buffer's. */
  lemma SampleDataOfOddLength(s: seq<u8>, at: nat, littleHost: bool, buffer: seq<u8>, length: nat)
    requires at + length <= |s| && length % 2 == 1
    ensures SampleData(s, at, littleHost, buffer, length, 2).Some?
    ensures SampleData(s, at, littleHost, buffer, length, 2).value[length - 1]
      == if length - 1 < |buffer| then buffer[length - 1] else 0
  {
    var n := 2 * (length / 2);
    assert n == length - 1;
    ResizeAt(buffer, length, length - 1);
  }

  /** Any width other than one or two bytes leaves the resized buffer as it is. */
  lemma SampleDataOfOtherWidths(s: seq<u8>, at: nat, littleHost: bool, length: nat, bytesPerValue: nat)
    requires bytesPerValue != 1 && bytesPerValue != 2
    ensures SampleData(s, at, littleHost, [], length, bytesPerValue) == Some(Zeros(length))
  {
    assert Resize([], length) == Zeros(length);
  }

  // ---------------------------------------------------------- header loading

  /**
   * Sizes of the encoded data of the codecs whose size functions are not
   * part of this model, supplied from outside.
   */
  datatype CodecSizes = CodecSizes(ima4EncodedSize: u64 -> u64, maceEncodedSize: u64 -> u64)

  /** The decoder's getEncodedSize for `numPackets` packets. */
  function EncodedSize(kind: DecoderKind, numPackets: u64, sizes: CodecSizes): (size: u64)
    ensures kind.ALaw? || kind.ULaw? ==> size == numPackets
  {
    match kind
    case NullDecoder(bits) => ND.EncodedSize(bits, numPackets)
    case IMA4 => sizes.ima4EncodedSize(numPackets)
    case ALaw => XLawDecoder.EncodedSize(numPackets)
    case ULaw => XLawDecoder.EncodedSize(numPackets)
    case MACE => sizes.maceEncodedSize(numPackets)
  }

  /** Bytes of extended sample data: numFrames * sampleSize / 8 * channels in int arithmetic, then as size_t. */
  function ExtendedSampleLength(common: CommonFields, ext: ExtendedFields): (length: u64)
    ensures var bytesPerChannel := ext.numFrames * ext.sampleSize / 8;
      0 <= ext.numFrames * ext.sampleSize < 0x8000_0000 && 0 <= bytesPerChannel * common.lengthOrChannels < 0x8000_0000
      ==> length == bytesPerChannel * common.lengthOrChannels
  {
    AsUint64(Wrap32(TruncDiv(Wrap32(ext.numFrames * ext.sampleSize), 8) * common.lengthOrChannels))
  }

  /** Bytes per value of extended sample data: sampleSize / 8 as unsigned. */
  function ExtendedBytesPerValue(ext: ExtendedFields): (bytesPerValue: u32)
    ensures 0 <= ext.sampleSize ==> bytesPerValue == ext.sampleSize / 8
    ensures bytesPerValue == 1 || bytesPerValue == 2 <==> 8 <= ext.sampleSize < 24
  {
    AsUint32(TruncDiv(ext.sampleSize, 8))
  }

  /** Packets of compressed data: numFrames * channels in int arithmetic, then as size_t. */
  function CompressedPacketCount(common: CommonFields, cmp: CompressedFields): (count: u64)
    ensures AsUint32(count) == AsUint32(cmp.numFrames * common.lengthOrChannels)
    ensures 0 <= cmp.numFrames * common.lengthOrChannels < 0x8000_0000 ==> count == cmp.numFrames * common.lengthOrChannels
  {
    TruncationOfTruncation(Wrap32(cmp.numFrames * common.lengthOrChannels));
    AsUint64(Wrap32(cmp.numFrames * common.lengthOrChannels))
  }

  /** Whether loading succeeded, and the header stored (None: the stored header is left as it was). */
  datatype LoadOutcome = LoadOutcome(ok: bool, stored: Option<SoundSampleHeader>)

  /** The rest of a standard header's load: its sample area, one byte per value, at `at`. */
  function LoadStandardSpec(s: seq<u8>, at: nat, littleHost: bool, common: CommonFields): (r: LoadOutcome)
  {
    match SampleData(s, at, littleHost, common.sampleArea, AsUint64(common.lengthOrChannels), 1)
    case None => LoadOutcome(false, None)
    case Some(area) => LoadOutcome(true, Some(Base(common.(sampleArea := area))))
  }

  /** The rest of an extended header's load: 42 more header bytes at `at`, then the sample area. */
  function LoadExtendedSpec(s: seq<u8>, at: nat, littleHost: bool, common: CommonFields): (r: LoadOutcome)
  {
    if at + VariantLength > |s| then LoadOutcome(false, None)
    else
      var ext := DecodeExtended(s, at);
      match SampleData(s, at + VariantLength, littleHost, common.sampleArea,
                       ExtendedSampleLength(common, ext), ExtendedBytesPerValue(ext))
      case None => LoadOutcome(false, None)
      case Some(area) => LoadOutcome(true, Some(Extended(common.(sampleArea := area), ext)))
  }

  /**
   * The rest of a compressed header's load: 42 more header bytes at `at`,
   * then the payload they announce.
   */
  function LoadCompressedSpec(s: seq<u8>, at: nat, littleHost: bool, sizes: CodecSizes, common: CommonFields)
    : (r: LoadOutcome)
  {
    if at + VariantLength > |s| then LoadOutcome(false, None)
    else CompressedPayload(s, at + VariantLength, littleHost, sizes, common, DecodeCompressed(s, at))
  }

  /**
   * The sample area of a compressed header read at `at`: as many bytes as
   * its decoder says the packets take. No decoder: nothing can be asked.
   */
  function CompressedPayload(s: seq<u8>, at: nat, littleHost: bool, sizes: CodecSizes,
                             common: CommonFields, cmp: CompressedFields): (r: LoadOutcome)
  {
    match cmp.decoder
    case None => LoadOutcome(false, None)
    case Some(kind) =>
      var length := EncodedSize(kind, CompressedPacketCount(common, cmp), sizes);
      match SampleData(s, at, littleHost, common.sampleArea, length, 1)
      case None => LoadOutcome(false, None)
      case Some(area) => LoadOutcome(true, Some(Compressed(common.(sampleArea := area), cmp)))
  }

  /**
   * Loading the sound sample header at absolute offset `offset`. A read past
   * the end of the resource fails with nothing stored; so does a compressed
   * header for which no decoder exists, whose size cannot be asked.
   */
  function LoadSpec(s: seq<u8>, offset: nat, littleHost: bool, sizes: CodecSizes): (r: LoadOutcome)
    ensures offset + CommonLength > |s| ==> r == LoadOutcome(false, None)
    ensures r.stored.Some? ==>
      r.stored.value.common == DecodeCommon(s, offset).(sampleArea := r.stored.value.common.sampleArea)
  {
    if offset + CommonLength > |s| then LoadOutcome(false, None)
    else
      var common := DecodeCommon(s, offset);
      var at := offset + CommonLength;
      if common.samplePtr != 0 then LoadOutcome(true, None)
      else if common.encode == StandardEncode then LoadStandardSpec(s, at, littleHost, common)
      else if common.encode == ExtendedEncode then LoadExtendedSpec(s, at, littleHost, common)
      else if common.encode == CompressedEncode then LoadCompressedSpec(s, at, littleHost, sizes, common)
      else LoadOutcome(false, Some(Base(common)))
  }

  /** A stored header always agrees with its encoding byte; a failed load stores one only for an unknown encoding. */
  lemma LoadStoresWellTagged(s: seq<u8>, offset: nat, littleHost: bool, sizes: CodecSizes)
    ensures LoadSpec(s, offset, littleHost, sizes).stored.Some? ==> WellTagged(LoadSpec(s, offset, littleHost, sizes).stored.value)
    ensures var r := LoadSpec(s, offset, littleHost, sizes);
      r.stored.Some? && !r.ok ==> r.stored.value.common.encode !in {StandardEncode, ExtendedEncode, CompressedEncode}
  {
  }

  /** A non-null sample pointer: success, nothing stored, no payload read. */
  lemma LoadWithSamplePointer(s: seq<u8>, offset: nat, littleHost: bool, sizes: CodecSizes)
    requires offset + CommonLength <= |s| && DecodeCommon(s, offset).samplePtr != 0
    ensures LoadSpec(s, offset, littleHost, sizes) == LoadOutcome(true, None)
  {
  }

  /** After the common part of a standard header, its sample area is the next lengthOrChannels bytes, verbatim. */
  lemma LoadStandard(s: seq<u8>, at: nat, littleHost: bool, common: CommonFields)
    requires common.sampleArea == []
    ensures var length := AsUint64(common.lengthOrChannels);
      LoadStandardSpec(s, at, littleHost, common)
        == if at + length <= |s| then LoadOutcome(true, Some(Base(common.(sampleArea := s[at..at + length]))))
           else LoadOutcome(false, None)
  {
    SampleDataOfBytes(s, at, littleHost, [], AsUint64(common.lengthOrChannels));
  }

  /** A compressed header's sample area is getEncodedSize(numFrames * channels) bytes, verbatim. */
  lemma LoadCompressed(s: seq<u8>, at: nat, littleHost: bool, sizes: CodecSizes,
                       common: CommonFields, cmp: CompressedFields)
    requires common.sampleArea == [] && cmp.decoder.Some?
    ensures var length := EncodedSize(cmp.decoder.value, CompressedPacketCount(common, cmp), sizes);
      CompressedPayload(s, at, littleHost, sizes, common, cmp)
        == if at + length <= |s| then LoadOutcome(true, Some(Compressed(common.(sampleArea := s[at..at + length]), cmp)))
           else LoadOutcome(false, None)
  {
    SampleDataOfBytes(s, at, littleHost, [], EncodedSize(cmp.decoder.value, CompressedPacketCount(common, cmp), sizes));
  }

  /** Without a decoder the payload size cannot be asked: the load fails and stores nothing. */
  lemma LoadCompressedWithoutDecoder(s: seq<u8>, at: nat, littleHost: bool, sizes: CodecSizes,
                                     common: CommonFields, cmp: CompressedFields)
    requires cmp.decoder.None?
    ensures CompressedPayload(s, at, littleHost, sizes, common, cmp) == LoadOutcome(false, None)
  {
  }

  /** An extended header's sample area has ((numFrames * sampleSize) / 8) * channels bytes. */
  lemma LoadExtendedLength(s: seq<u8>, offset: nat, littleHost: bool, sizes: CodecSizes)
    requires offset + CommonLength + VariantLength <= |s|
    requires DecodeCommon(s, offset).samplePtr == 0 && DecodeCommon(s, offset).encode == ExtendedEncode
    requires LoadSpec(s, offset, littleHost, sizes).ok
    ensures var common := DecodeCommon(s, offset);
      var ext := DecodeExtended(s, offset + CommonLength);
      var r := LoadSpec(s, offset, littleHost, sizes);
      && r.stored == Some(Extended(r.stored.value.common, ext))
      && r.stored.value.common == common.(sampleArea := r.stored.value.common.sampleArea)
      && |r.stored.value.common.sampleArea| == ExtendedSampleLength(common, ext)
  {
  }

  // ----------------------------------------------------------------- parsing

  /** The parser's state: the resource header fields, the commands, the stored sound sample header. */
  datatype SndState = SndState(
    format: u16,
    numDataFormats: u16,
    firstDataFormatID: u16,
    initOption: u32,
    numSoundCommands: u16,
    commands: seq<u64>,
    header: Option<SoundSampleHeader>)

  /** Nothing read yet, no header. */
  function Unparsed(): (st: SndState)
    ensures st.commands == [] && st.header == None
  {
    SndState(0, 0, 0, 0, 0, [], None)
  }

  datatype ParseOutcome = ParseOutcome(ok: bool, state: SndState)

  /** The state after a buffer command: loaded as LoadSpec says, when the name is bufferCmd. */
  function BufferCommandSpec(prior: SndState, s: seq<u8>, command: u64, littleHost: bool, sizes: CodecSizes)
    : (r: ParseOutcome)
    ensures r.ok <==> OpCode(command) == BufferCmd
    ensures r.state.header != prior.header ==> r.ok
  {
    if OpCode(command) != BufferCmd then ParseOutcome(false, prior)
    else
      var load := LoadSpec(s, Param2(command), littleHost, sizes);
      ParseOutcome(true, if load.stored.Some? then prior.(header := load.stored) else prior)
  }

  /**
   * Parsing from state `prior`: fields are read in order and overwrite the
   * state as they are read; commands are appended; a read past the end
   * fails, keeping what was read before it.
   */
  function ParseFrom(prior: SndState, s: seq<u8>, littleHost: bool, sizes: CodecSizes): (r: ParseOutcome)
  {
    var header := ParseHeader(prior, s);
    if !header.ok then header else ParseCommands(header.state, s, littleHost, sizes)
  }

  /**
   * The 12-byte resource header: format and data format count, then, unless
   * there are no data formats, the first data format ID, its init option
   * and the command count. Not ok: parsing stops there.
   */
  function ParseHeader(prior: SndState, s: seq<u8>): (r: ParseOutcome)
    ensures r.ok ==> |s| >= FileHeaderLength
    ensures r.state.commands == prior.commands && r.state.header == prior.header
  {
    if |s| < 2 then ParseOutcome(false, prior)
    else
      var st1 := prior.(format := U16At(s, 0));
      if |s| < 4 then ParseOutcome(false, st1)
      else
        var st2 := st1.(numDataFormats := U16At(s, 2));
        if st2.numDataFormats == 0 then ParseOutcome(false, st2)
        else if |s| < 6 then ParseOutcome(false, st2)
        else
          var st3 := st2.(firstDataFormatID := U16At(s, 4));
          if |s| < 10 then ParseOutcome(false, st3)
          else
            var st4 := st3.(initOption := U32At(s, 6));
            if |s| < FileHeaderLength then ParseOutcome(false, st4)
            else ParseOutcome(true, st4.(numSoundCommands := U16At(s, 10)))
  }

  /** After the resource header: the announced commands, appended to those in `st`, then the first bufferCmd. */
  function ParseCommands(st: SndState, s: seq<u8>, littleHost: bool, sizes: CodecSizes): (r: ParseOutcome)
    requires |s| >= FileHeaderLength
  {
    var available := (|s| - FileHeaderLength) / CommandLength;
    if available < st.numSoundCommands then
      ParseOutcome(false, st.(commands := st.commands + CommandsOf(s, available)))
    else ParseBuffer(st.(commands := st.commands + CommandsOf(s, st.numSoundCommands)), s, littleHost, sizes)
  }

  /** Once the commands are in: the first bufferCmd among them is carried out; without one, parsing fails. */
  function ParseBuffer(st: SndState, s: seq<u8>, littleHost: bool, sizes: CodecSizes): (r: ParseOutcome)
  {
    var command := FirstCommand(st.commands, BufferCmd);
    if command == 0 then ParseOutcome(false, st)
    else ParseOutcome(true, BufferCommandSpec(st, s, command, littleHost, sizes).state)
  }

  /** A resource with no data formats is rejected before any command is read. */
  lemma ParseRejectsNoDataFormats(prior: SndState, s: seq<u8>, littleHost: bool, sizes: CodecSizes)
    requires |s| >= 4 && U16At(s, 2) == 0
    ensures !ParseFrom(prior, s, littleHost, sizes).ok
    ensures ParseFrom(prior, s, littleHost, sizes).state.commands == prior.commands
  {
  }

  /**
   * After a complete read of the header and commands, the fields hold the
   * big-endian values at their offsets, the commands are appended in file
   * order, and parsing succeeds exactly when a bufferCmd is among them -
   * whatever loading its header then does.
   */
  lemma ParseReadsInOrder(prior: SndState, s: seq<u8>, littleHost: bool, sizes: CodecSizes)
    requires |s| >= FileHeaderLength && U16At(s, 2) != 0
    requires FileHeaderLength + CommandLength * U16At(s, 10) <= |s|
    ensures var r := ParseFrom(prior, s, littleHost, sizes);
      var commands := prior.commands + CommandsOf(s, U16At(s, 10));
      && r.state.format == U16At(s, 0)
      && r.state.numDataFormats == U16At(s, 2)
      && r.state.firstDataFormatID == U16At(s, 4)
      && r.state.initOption == U32At(s, 6)
      && r.state.numSoundCommands == U16At(s, 10)
      && r.state.commands == commands
      && (r.ok <==> FirstCommand(commands, BufferCmd) != 0)
      && (r.ok ==>
            var load := LoadSpec(s, Param2(FirstCommand(commands, BufferCmd)), littleHost, sizes);
            r.state.header == if load.stored.Some? then load.stored else prior.header)
  {
    var available := (|s| - FileHeaderLength) / CommandLength;
    assert available >= U16At(s, 10);
  }

  /** Parsing ignores whether the header load succeeded: a failed load still parses. */
  lemma ParseIgnoresLoadResult(s: seq<u8>, littleHost: bool, sizes: CodecSizes)
    requires |s| >= FileHeaderLength && U16At(s, 2) != 0
    requires FileHeaderLength + CommandLength * U16At(s, 10) <= |s|
    requires FirstCommand(CommandsOf(s, U16At(s, 10)), BufferCmd) != 0
    ensures ParseFrom(Unparsed(), s, littleHost, sizes).ok
  {
    ParseReadsInOrder(Unparsed(), s, littleHost, sizes);
    assert [] + CommandsOf(s, U16At(s, 10)) == CommandsOf(s, U16At(s, 10));
  }

  /**
   * What a reader of a stored header relies on: its variant agrees with its
   * encoding byte, and a compressed header carries its decoder.
   */
  predicate Decodable(h: SoundSampleHeader)
  {
    WellTagged(h) && (h.Compressed? ==> h.cmp.decoder.Some?)
  }

  /** Every header a load stores is decodable. */
  lemma LoadStoresDecodable(s: seq<u8>, offset: nat, littleHost: bool, sizes: CodecSizes)
    ensures var r := LoadSpec(s, offset, littleHost, sizes);
      r.stored.Some? ==> Decodable(r.stored.value)
  {
    LoadStoresWellTagged(s, offset, littleHost, sizes);
  }

  /** Parsing keeps the stored header decodable: a parsed resource's header, if any, is. */
  lemma ParseStoresDecodable(prior: SndState, s: seq<u8>, littleHost: bool, sizes: CodecSizes)
    requires prior.header.Some? ==> Decodable(prior.header.value)
    ensures var r := ParseFrom(prior, s, littleHost, sizes);
      r.state.header.Some? ==> Decodable(r.state.header.value)
  {
    var header := ParseHeader(prior, s);
    if header.ok {
      var available := (|s| - FileHeaderLength) / CommandLength;
      var count := if available < header.state.numSoundCommands then available else header.state.numSoundCommands;
      var st := header.state.(commands := header.state.commands + CommandsOf(s, count));
      var command := FirstCommand(st.commands, BufferCmd);
      if available >= header.state.numSoundCommands && command != 0 {
        LoadStoresDecodable(s, Param2(command), littleHost, sizes);
      }
    }
  }
}
