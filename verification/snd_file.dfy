/**
 * The 'snd ' parser as the program runs it: an input stream read field by
 * field, and the SndFile object whose members the parse fills in. Every
 * method is proved against the byte-level reference in module SndFormat.
 */
module SndFile {
  import opened Bytes
  import opened Wrappers
  import opened Endian
  import opened Decoder
  import opened SoundHeader
  import opened SndFormat

  // ------------------------------------------------------------ input stream

  /**
   * Where reading `width` bytes leaves a stream of n bytes that was at
   * position p0 with failure flag f0: a read that fits (of nothing, on a
   * good stream, in particular) moves past the bytes; any other read fails.
   * A failed stream stays at its end.
   */
  predicate ReadStep(n: nat, p0: nat, f0: bool, width: nat, p1: nat, f1: bool)
  {
    if !f0 && p0 + width <= n then p1 == p0 + width && !f1 else f1
  }

  /** Two reads in a row are one read of both widths. */
  lemma ReadStepsCompose(n: nat, p0: nat, f0: bool, a: nat, p1: nat, f1: bool, b: nat, p2: nat, f2: bool)
    requires ReadStep(n, p0, f0, a, p1, f1) && ReadStep(n, p1, f1, b, p2, f2)
    ensures ReadStep(n, p0, f0, a + b, p2, f2)
  {
  }

  /** A binary input stream over the bytes of a resource, with its read position and sticky failure flag. */
  class InputStream {
    const bytes: seq<u8>
    var pos: nat
    var failed: bool

    /** The position never passes the end, and a failed stream sits at it. */
    ghost predicate Valid()
      reads this
    {
      pos <= |bytes| && (failed ==> pos == |bytes|)
    }

    /** A stream at the start of `bytes`; one that could not be opened starts failed. */
    constructor (bytes: seq<u8>, isOpen: bool)
      ensures Valid()
      ensures this.bytes == bytes && failed == !isOpen && (isOpen ==> pos == 0)
    {
      this.bytes := bytes;
      pos := if isOpen then 0 else |bytes|;
      failed := !isOpen;
    }

    /** Whether `count` more bytes can be read. */
    predicate CanRead(count: nat)
      reads this
    {
      !failed && pos + count <= |bytes|
    }

    /** seekg from the beginning: a failed stream does not move, and a seek past the end fails. */
    method Seek(p: nat)
      requires Valid()
      modifies this
      ensures Valid()
      ensures failed == (old(failed) || p > |bytes|)
      ensures !failed ==> pos == p
    {
      if p > |bytes| {
        failed := true;
        pos := |bytes|;
      } else if !failed {
        pos := p;
      }
    }

    /**
     * read of `count` bytes into memory. A read that does not fit fails,
     * and what the memory then holds is left unspecified.
     */
    method Read(count: nat) returns (mem: seq<u8>)
      requires Valid()
      modifies this
      ensures Valid()
      ensures |mem| == count
      ensures ReadStep(|bytes|, old(pos), old(failed), count, pos, failed)
      ensures old(CanRead(count)) ==> mem == bytes[old(pos)..old(pos) + count]
    {
      if !failed && pos + count <= |bytes| {
        mem := bytes[pos..pos + count];
        pos := pos + count;
      } else {
        mem := Zeros(count);
        pos := |bytes|;
        failed := true;
      }
    }
  }

  // ------------------------------------------------------------ value reads

  /** readBigValue: `width` bytes into a variable, then from big-endian into the host's order. */
  method ReadBigValue(stream: InputStream, littleHost: bool, width: nat) returns (v: nat)
    requires stream.Valid()
    modifies stream
    ensures stream.Valid()
    ensures v < Pow256(width)
    ensures ReadStep(|stream.bytes|, old(stream.pos), old(stream.failed), width, stream.pos, stream.failed)
    ensures old(stream.CanRead(width)) ==> v == Field(stream.bytes, old(stream.pos), width)
  {
    var mem := stream.Read(width);
    var native := MakeBigEndianNative(littleHost, mem);
    ConversionsPreserveValue(littleHost, mem);
    v := NativeValue(littleHost, native);
  }

  /**
   * The partial readBigValue: a zeroed variable of `size` bytes whose last
   * `length` bytes are read, then from big-endian into the host's order.
   */
  method ReadPartialBigValue(stream: InputStream, littleHost: bool, size: nat, length: nat) returns (v: nat)
    requires length <= size
    requires stream.Valid()
    modifies stream
    ensures stream.Valid()
    ensures v < Pow256(length)
    ensures ReadStep(|stream.bytes|, old(stream.pos), old(stream.failed), length, stream.pos, stream.failed)
    ensures old(stream.CanRead(length)) ==> v == Field(stream.bytes, old(stream.pos), length)
  {
    var mem := stream.Read(length);
    var variable := Zeros(size - length) + mem;
    var native := MakeBigEndianNative(littleHost, variable);
    ConversionsPreserveValue(littleHost, variable);
    BigEndianZeroPrefix(size - length, mem);
    v := NativeValue(littleHost, native);
  }

  /** readBigArray of `count` one-byte values into `buffer`: bytes are copied as they are. */
  method ReadBigBytes(stream: InputStream, littleHost: bool, buffer: array<u8>, count: nat)
    requires stream.Valid() && count <= buffer.Length
    modifies stream, buffer
    ensures stream.Valid()
    ensures ReadStep(|stream.bytes|, old(stream.pos), old(stream.failed), count, stream.pos, stream.failed)
    ensures old(stream.CanRead(count)) ==> buffer[..count] == stream.bytes[old(stream.pos)..old(stream.pos) + count]
    ensures buffer[count..] == old(buffer[count..])
  {
    ghost var start := stream.pos;
    for i := 0 to count
      invariant stream.Valid()
      invariant ReadStep(|stream.bytes|, start, old(stream.failed), i, stream.pos, stream.failed)
      invariant !stream.failed && start + i <= |stream.bytes| ==> buffer[..i] == stream.bytes[start..start + i]
      invariant buffer[count..] == old(buffer[count..])
    {
      ghost var p0, f0 := stream.pos, stream.failed;
      var mem := stream.Read(1);
      var native := MakeBigEndianNative(littleHost, mem);
      if !f0 && p0 + 1 <= |stream.bytes| {
        ByteImageIsVerbatim(littleHost, stream.bytes, p0);
      }
      buffer[i] := native[0];
      ReadStepsCompose(|stream.bytes|, start, old(stream.failed), i, p0, f0, 1, stream.pos, stream.failed);
    }
  }

  /**
   * readBigArray of `count` two-byte values into `buffer`: each big-endian
   * pair is stored in the host's order.
   */
  method ReadBigPairs(stream: InputStream, littleHost: bool, buffer: array<u8>, count: nat)
    requires stream.Valid() && 2 * count <= buffer.Length
    modifies stream, buffer
    ensures stream.Valid()
    ensures ReadStep(|stream.bytes|, old(stream.pos), old(stream.failed), 2 * count, stream.pos, stream.failed)
    ensures old(stream.CanRead(2 * count)) ==>
      buffer[..2 * count] == PairImage(littleHost, stream.bytes[old(stream.pos)..old(stream.pos) + 2 * count])
    ensures forall j :: 2 * count <= j < buffer.Length ==> buffer[j] == old(buffer[j])
  {
    ghost var start, fits := stream.pos, stream.CanRead(2 * count);
    ghost var src := if fits then stream.bytes[start..start + 2 * count] else [];
    for i := 0 to count
      invariant stream.Valid()
      invariant ReadStep(|stream.bytes|, start, old(stream.failed), 2 * i, stream.pos, stream.failed)
      invariant fits ==> forall j :: 0 <= j < 2 * i ==> buffer[j] == PairImage(littleHost, src)[j]
      invariant forall j :: 2 * count <= j < buffer.Length ==> buffer[j] == old(buffer[j])
    {
      ghost var p0, f0 := stream.pos, stream.failed;
      ReadBigPair(stream, littleHost, buffer, i, fits, start, src);
      ReadStepsCompose(|stream.bytes|, start, old(stream.failed), 2 * i, p0, f0, 2, stream.pos, stream.failed);
    }
    if fits {
      assert buffer[..2 * count] == PairImage(littleHost, src);
    }
  }

  /**
   * One step of readBigArray of two-byte values: value i read into cells
   * 2i and 2i + 1. When the read is the i-th pair of `src`, found at
   * `start`, the two cells are pair i of its image.
   */
  method ReadBigPair(stream: InputStream, littleHost: bool, buffer: array<u8>, i: nat,
                     ghost fits: bool, ghost start: nat, ghost src: seq<u8>)
    requires stream.Valid() && 2 * i + 2 <= buffer.Length
    requires fits ==> && |src| % 2 == 0 && 2 * i + 2 <= |src| && start + |src| <= |stream.bytes|
                      && src == stream.bytes[start..start + |src|]
                      && !stream.failed && stream.pos == start + 2 * i
    modifies stream, buffer
    ensures stream.Valid()
    ensures ReadStep(|stream.bytes|, old(stream.pos), old(stream.failed), 2, stream.pos, stream.failed)
    ensures fits ==> buffer[2 * i] == PairImage(littleHost, src)[2 * i]
    ensures fits ==> buffer[2 * i + 1] == PairImage(littleHost, src)[2 * i + 1]
    ensures forall j :: 0 <= j < buffer.Length && j != 2 * i && j != 2 * i + 1 ==> buffer[j] == old(buffer[j])
  {
    var mem := stream.Read(2);
    var native := MakeBigEndianNative(littleHost, mem);
    buffer[2 * i] := native[0];
    buffer[2 * i + 1] := native[1];
    if fits {
      assert mem[0] == src[2 * i] && mem[1] == src[2 * i + 1];
      PairToNative(littleHost, mem);
      PairImageOf(littleHost, src, i);
    }
  }

  /**
   * readSoundSampleData: the vector resized to `sampleLength` bytes, then
   * filled with one- or two-byte values read from the stream; any other
   * width reads nothing. The new contents of the vector are returned.
   */
  method ReadSoundSampleData(stream: InputStream, littleHost: bool, buffer: seq<u8>, sampleLength: nat,
                             bytesPerValue: nat) returns (area: seq<u8>)
    requires stream.Valid()
    modifies stream
    ensures stream.Valid()
    ensures |area| == sampleLength
    ensures ReadStep(|stream.bytes|, old(stream.pos), old(stream.failed),
                     if bytesPerValue == 1 then sampleLength else if bytesPerValue == 2 then 2 * (sampleLength / 2) else 0,
                     stream.pos, stream.failed)
    ensures !old(stream.failed) ==>
      SampleData(stream.bytes, old(stream.pos), littleHost, buffer, sampleLength, bytesPerValue)
        == if stream.failed then None else Some(area)
  {
    var resized := Resize(buffer, sampleLength);
    var cells := new u8[sampleLength](i requires 0 <= i < sampleLength => resized[i]);
    assert cells[..] == resized;
    if bytesPerValue == 1 {
      ReadBigBytes(stream, littleHost, cells, sampleLength);
      assert cells[..] == cells[..sampleLength];
    } else if bytesPerValue == 2 {
      var n := 2 * (sampleLength / 2);
      ReadBigPairs(stream, littleHost, cells, sampleLength / 2);
      assert cells[n..] == resized[n..];
      assert cells[..] == cells[..n] + cells[n..];
    }
    area := cells[..];
  }

  // ---------------------------------------------------------- header records

  /**
   * readBigValue as one step of reading a record that started at p0 (flag
   * f0) and of which `done` bytes have been read: afterwards `done + width`
   * bytes have been, and the value is the field at p0 + done when the whole
   * prefix fits.
   */
  method ReadNextBigValue(stream: InputStream, littleHost: bool, width: nat, ghost p0: nat, ghost f0: bool,
                          ghost done: nat) returns (v: nat)
    requires stream.Valid() && ReadStep(|stream.bytes|, p0, f0, done, stream.pos, stream.failed)
    modifies stream
    ensures stream.Valid() && ReadStep(|stream.bytes|, p0, f0, done + width, stream.pos, stream.failed)
    ensures v < Pow256(width)
    ensures !f0 && p0 + done + width <= |stream.bytes| ==> v == Field(stream.bytes, p0 + done, width)
  {
    ghost var p1, f1 := stream.pos, stream.failed;
    v := ReadBigValue(stream, littleHost, width);
    ReadStepsCompose(|stream.bytes|, p0, f0, done, p1, f1, width, stream.pos, stream.failed);
  }

  /** The partial readBigValue of `length` bytes into a `size`-byte variable, as one step of a record. */
  method ReadNextPartialBigValue(stream: InputStream, littleHost: bool, size: nat, length: nat, ghost p0: nat,
                                 ghost f0: bool, ghost done: nat) returns (v: nat)
    requires stream.Valid() && ReadStep(|stream.bytes|, p0, f0, done, stream.pos, stream.failed)
    requires length <= size
    modifies stream
    ensures stream.Valid() && ReadStep(|stream.bytes|, p0, f0, done + length, stream.pos, stream.failed)
    ensures v < Pow256(length)
    ensures !f0 && p0 + done + length <= |stream.bytes| ==> v == Field(stream.bytes, p0 + done, length)
  {
    ghost var p1, f1 := stream.pos, stream.failed;
    v := ReadPartialBigValue(stream, littleHost, size, length);
    ReadStepsCompose(|stream.bytes|, p0, f0, done, p1, f1, length, stream.pos, stream.failed);
  }

  /** readBigValue<uint64_t> as one step of a record. */
  method ReadNextU64(stream: InputStream, littleHost: bool, ghost p0: nat, ghost f0: bool, ghost done: nat)
    returns (v: u64)
    requires stream.Valid() && ReadStep(|stream.bytes|, p0, f0, done, stream.pos, stream.failed)
    modifies stream
    ensures stream.Valid() && ReadStep(|stream.bytes|, p0, f0, done + 8, stream.pos, stream.failed)
    ensures !f0 && p0 + done + 8 <= |stream.bytes| ==> v == U64At(stream.bytes, p0 + done)
  {
    Pow256Widths();
    var x := ReadNextBigValue(stream, littleHost, 8, p0, f0, done);
    v := x;
  }

  /** readBigValue<uint32_t> as one step of a record. */
  method ReadNextU32(stream: InputStream, littleHost: bool, ghost p0: nat, ghost f0: bool, ghost done: nat)
    returns (v: u32)
    requires stream.Valid() && ReadStep(|stream.bytes|, p0, f0, done, stream.pos, stream.failed)
    modifies stream
    ensures stream.Valid() && ReadStep(|stream.bytes|, p0, f0, done + 4, stream.pos, stream.failed)
    ensures !f0 && p0 + done + 4 <= |stream.bytes| ==> v == U32At(stream.bytes, p0 + done)
  {
    Pow256Widths();
    var x := ReadNextBigValue(stream, littleHost, 4, p0, f0, done);
    v := x;
  }

  /** readBigValue<int32_t>: the same four bytes, read as two's complement. */
  method ReadNextI32(stream: InputStream, littleHost: bool, ghost p0: nat, ghost f0: bool, ghost done: nat)
    returns (v: i32)
    requires stream.Valid() && ReadStep(|stream.bytes|, p0, f0, done, stream.pos, stream.failed)
    modifies stream
    ensures stream.Valid() && ReadStep(|stream.bytes|, p0, f0, done + 4, stream.pos, stream.failed)
    ensures !f0 && p0 + done + 4 <= |stream.bytes| ==> v == I32At(stream.bytes, p0 + done)
  {
    var x := ReadNextU32(stream, littleHost, p0, f0, done);
    v := AsInt32(x);
  }

  /** readBigValue<uint16_t> as one step of a record. */
  method ReadNextU16(stream: InputStream, littleHost: bool, ghost p0: nat, ghost f0: bool, ghost done: nat)
    returns (v: u16)
    requires stream.Valid() && ReadStep(|stream.bytes|, p0, f0, done, stream.pos, stream.failed)
    modifies stream
    ensures stream.Valid() && ReadStep(|stream.bytes|, p0, f0, done + 2, stream.pos, stream.failed)
    ensures !f0 && p0 + done + 2 <= |stream.bytes| ==> v == U16At(stream.bytes, p0 + done)
  {
    Pow256Widths();
    var x := ReadNextBigValue(stream, littleHost, 2, p0, f0, done);
    v := x;
  }

  /** readBigValue<int16_t>: the same two bytes, read as two's complement. */
  method ReadNextI16(stream: InputStream, littleHost: bool, ghost p0: nat, ghost f0: bool, ghost done: nat)
    returns (v: i16)
    requires stream.Valid() && ReadStep(|stream.bytes|, p0, f0, done, stream.pos, stream.failed)
    modifies stream
    ensures stream.Valid() && ReadStep(|stream.bytes|, p0, f0, done + 2, stream.pos, stream.failed)
    ensures !f0 && p0 + done + 2 <= |stream.bytes| ==> v == I16At(stream.bytes, p0 + done)
  {
    var x := ReadNextU16(stream, littleHost, p0, f0, done);
    v := AsInt16(x);
  }

  /** readBigValue<uint8_t> as one step of a record. */
  method ReadNextU8(stream: InputStream, littleHost: bool, ghost p0: nat, ghost f0: bool, ghost done: nat)
    returns (v: u8)
    requires stream.Valid() && ReadStep(|stream.bytes|, p0, f0, done, stream.pos, stream.failed)
    modifies stream
    ensures stream.Valid() && ReadStep(|stream.bytes|, p0, f0, done + 1, stream.pos, stream.failed)
    ensures !f0 && p0 + done + 1 <= |stream.bytes| ==> v == U8At(stream.bytes, p0 + done)
  {
    Pow256Widths();
    var x := ReadNextBigValue(stream, littleHost, 1, p0, f0, done);
    v := x;
  }

  /** The partial readBigValue<uint32_t> of two bytes, as one step of a record. */
  method ReadNextPartialU32(stream: InputStream, littleHost: bool, ghost p0: nat, ghost f0: bool, ghost done: nat)
    returns (v: u32)
    requires stream.Valid() && ReadStep(|stream.bytes|, p0, f0, done, stream.pos, stream.failed)
    modifies stream
    ensures stream.Valid() && ReadStep(|stream.bytes|, p0, f0, done + 2, stream.pos, stream.failed)
    ensures !f0 && p0 + done + 2 <= |stream.bytes| ==> v == PartialU32At(stream.bytes, p0 + done)
  {
    Pow256Widths();
    var x := ReadNextPartialBigValue(stream, littleHost, 4, 2, p0, f0, done);
    v := x;
  }

  /** readBigArray<uint8_t> of a four-byte tag, as one step of a record. */
  method ReadNextFourCC(stream: InputStream, littleHost: bool, ghost p0: nat, ghost f0: bool, ghost done: nat)
    returns (tag: FourCC)
    requires stream.Valid() && ReadStep(|stream.bytes|, p0, f0, done, stream.pos, stream.failed)
    modifies stream
    ensures stream.Valid() && ReadStep(|stream.bytes|, p0, f0, done + 4, stream.pos, stream.failed)
    ensures !f0 && p0 + done + 4 <= |stream.bytes| ==> tag == stream.bytes[p0 + done..p0 + done + 4]
  {
    ghost var p1, f1 := stream.pos, stream.failed;
    var cells := new u8[4];
    ReadBigBytes(stream, littleHost, cells, 4);
    ReadStepsCompose(|stream.bytes|, p0, f0, done, p1, f1, 4, stream.pos, stream.failed);
    tag := cells[..];
  }

  /**
   * The seven fields of the common header, each read with readBigValue.
   * When all 22 bytes are there the record is the one at that offset;
   * otherwise the stream fails and the values are unspecified.
   */
  method ReadCommonFields(stream: InputStream, littleHost: bool) returns (c: CommonFields)
    requires stream.Valid()
    modifies stream
    ensures stream.Valid()
    ensures ReadStep(|stream.bytes|, old(stream.pos), old(stream.failed), CommonLength, stream.pos, stream.failed)
    ensures old(stream.CanRead(CommonLength)) ==> c == DecodeCommon(stream.bytes, old(stream.pos))
  {
    ghost var p0, f0 := stream.pos, stream.failed;
    var samplePtr := ReadNextU32(stream, littleHost, p0, f0, 0);
    var lengthOrChannels := ReadNextI32(stream, littleHost, p0, f0, 4);
    var sampleRate := ReadNextU32(stream, littleHost, p0, f0, 8);
    var loopStart := ReadNextI32(stream, littleHost, p0, f0, 12);
    var loopEnd := ReadNextI32(stream, littleHost, p0, f0, 16);
    var encode := ReadNextU8(stream, littleHost, p0, f0, 20);
    var baseFrequency := ReadNextU8(stream, littleHost, p0, f0, 21);
    c := CommonFields(samplePtr, lengthOrChannels, sampleRate, loopStart, loopEnd,
                      encode, baseFrequency, []);
  }

  /** The 42 bytes of an extended header after its common part, field by field. */
  method ReadExtendedFields(stream: InputStream, littleHost: bool) returns (e: ExtendedFields)
    requires stream.Valid()
    modifies stream
    ensures stream.Valid()
    ensures ReadStep(|stream.bytes|, old(stream.pos), old(stream.failed), VariantLength, stream.pos, stream.failed)
    ensures old(stream.CanRead(VariantLength)) ==> e == DecodeExtended(stream.bytes, old(stream.pos))
  {
    ghost var p0, f0 := stream.pos, stream.failed;
    var numFrames := ReadNextI32(stream, littleHost, p0, f0, 0);
    var rate0 := ReadNextPartialU32(stream, littleHost, p0, f0, 4);
    var rate1 := ReadNextU32(stream, littleHost, p0, f0, 6);
    var rate2 := ReadNextU32(stream, littleHost, p0, f0, 10);
    var aiffSampleRate: SampleRate80 := [rate0, rate1, rate2];
    var markerChunk := ReadNextU32(stream, littleHost, p0, f0, 14);
    var instrumentChunks := ReadNextU32(stream, littleHost, p0, f0, 18);
    var aesRecording := ReadNextU32(stream, littleHost, p0, f0, 22);
    var sampleSize := ReadNextI16(stream, littleHost, p0, f0, 26);
    var futureUse1 := ReadNextI16(stream, littleHost, p0, f0, 28);
    var futureUse2 := ReadNextU32(stream, littleHost, p0, f0, 30);
    var futureUse3 := ReadNextU32(stream, littleHost, p0, f0, 34);
    var futureUse4 := ReadNextU32(stream, littleHost, p0, f0, 38);
    e := ExtendedFields(numFrames, aiffSampleRate, markerChunk, instrumentChunks, aesRecording,
                        sampleSize, futureUse1, futureUse2, futureUse3, futureUse4);
  }

  /**
   * The 42 bytes of a compressed header after its common part, field by
   * field; the format tag is read as an array of four bytes. No decoder is
   * chosen yet.
   */
  method ReadCompressedFields(stream: InputStream, littleHost: bool) returns (c: CompressedFields)
    requires stream.Valid()
    modifies stream
    ensures stream.Valid()
    ensures ReadStep(|stream.bytes|, old(stream.pos), old(stream.failed), VariantLength, stream.pos, stream.failed)
    ensures old(stream.CanRead(VariantLength)) ==>
      c == DecodeCompressed(stream.bytes, old(stream.pos)).(decoder := None)
  {
    ghost var p0, f0 := stream.pos, stream.failed;
    var numFrames := ReadNextI32(stream, littleHost, p0, f0, 0);
    var rate0 := ReadNextPartialU32(stream, littleHost, p0, f0, 4);
    var rate1 := ReadNextU32(stream, littleHost, p0, f0, 6);
    var rate2 := ReadNextU32(stream, littleHost, p0, f0, 10);
    var aiffSampleRate: SampleRate80 := [rate0, rate1, rate2];
    var markerChunk := ReadNextU32(stream, littleHost, p0, f0, 14);
    var format := ReadNextFourCC(stream, littleHost, p0, f0, 18);
    var futureUse2 := ReadNextI32(stream, littleHost, p0, f0, 22);
    var stateVars := ReadNextU32(stream, littleHost, p0, f0, 26);
    var leftOverSamples := ReadNextU32(stream, littleHost, p0, f0, 30);
    var compressionID := ReadNextI16(stream, littleHost, p0, f0, 34);
    var packetSize := ReadNextI16(stream, littleHost, p0, f0, 36);
    var snthID := ReadNextI16(stream, littleHost, p0, f0, 38);
    var sampleSize := ReadNextI16(stream, littleHost, p0, f0, 40);
    c := CompressedFields(numFrames, aiffSampleRate, markerChunk, format, futureUse2,
                          stateVars, leftOverSamples, compressionID, packetSize, snthID,
                          sampleSize, None);
  }

  // ---------------------------------------------------------------- the parser

  /**
   * A parsed 'snd ' resource: the stream it reads (owned by the caller),
   * the host's byte order, the resource header fields, the sound commands
   * and the sound sample header, which stays None until one is stored.
   */
  class SndFile {
    const stream: InputStream
    const littleHost: bool
    const sizes: CodecSizes
    var format: u16
    var numDataFormats: u16
    var firstDataFormatID: u16
    var initOptionForChannel: u32
    var numSoundCommands: u16
    var soundCommands: seq<u64>
    var soundSampleHeader: Option<SoundSampleHeader>

    /** The parser's fields as one value. */
    function State(): (st: SndState)
      reads this
      ensures st.commands == soundCommands && st.header == soundSampleHeader
    {
      SndState(format, numDataFormats, firstDataFormatID, initOptionForChannel, numSoundCommands,
               soundCommands, soundSampleHeader)
    }

    /** Constructing the object parses the stream at once. */
    constructor (stream: InputStream, littleHost: bool, sizes: CodecSizes)
      requires stream.Valid()
      modifies stream
      ensures this.stream == stream && this.littleHost == littleHost && this.sizes == sizes
      ensures stream.Valid()
      ensures old(stream.failed) ==> State() == Unparsed()
      ensures !old(stream.failed) ==> State() == ParseFrom(Unparsed(), stream.bytes, littleHost, sizes).state
    {
      this.stream := stream;
      this.littleHost := littleHost;
      this.sizes := sizes;
      format, numDataFormats, firstDataFormatID, initOptionForChannel, numSoundCommands := 0, 0, 0, 0, 0;
      soundCommands := [];
      soundSampleHeader := None;
      new;
      var parsed := Parse();
    }

    /**
     * parse: the resource header from offset 0, the sound commands after
     * it, then the first bufferCmd, if there is one, is carried out. An
     * invalid stream is not parsed at all.
     */
    method Parse() returns (ok: bool)
      requires stream.Valid()
      modifies this, stream
      ensures stream.Valid()
      ensures old(stream.failed) ==> !ok && State() == old(State())
      ensures !old(stream.failed) ==> ParseOutcome(ok, State()) == ParseFrom(old(State()), stream.bytes, littleHost, sizes)
    {
      if stream.failed {
        return false;
      }
      stream.Seek(0);
      ok := ReadResourceHeader();
      if !ok {
        return false;
      }
      ok := ParseCommandsAndBuffer();
    }

    /** The resource header part of parse, from offset 0 of a good stream. */
    method ReadResourceHeader() returns (ok: bool)
      requires stream.Valid() && !stream.failed && stream.pos == 0
      modifies this`format, this`numDataFormats, this`firstDataFormatID, this`initOptionForChannel,
               this`numSoundCommands, stream
      ensures stream.Valid()
      ensures ok ==> !stream.failed && stream.pos == FileHeaderLength
      ensures ParseOutcome(ok, State()) == ParseHeader(old(State()), stream.bytes)
    {
      var v16 := ReadNextU16(stream, littleHost, 0, false, 0);
      if stream.failed {
        return false;
      }
      format := v16;
      v16 := ReadNextU16(stream, littleHost, 0, false, 2);
      if stream.failed {
        return false;
      }
      numDataFormats := v16;
      if numDataFormats == 0 {
        return false;
      }
      v16 := ReadNextU16(stream, littleHost, 0, false, 4);
      if stream.failed {
        return false;
      }
      firstDataFormatID := v16;
      var v32 := ReadNextU32(stream, littleHost, 0, false, 6);
      if stream.failed {
        return false;
      }
      initOptionForChannel := v32;
      v16 := ReadNextU16(stream, littleHost, 0, false, 10);
      if stream.failed {
        return false;
      }
      numSoundCommands := v16;
      return true;
    }

    /** The rest of parse, once the resource header is in: the commands, then the first bufferCmd. */
    method ParseCommandsAndBuffer() returns (ok: bool)
      requires stream.Valid() && !stream.failed && stream.pos == FileHeaderLength
      modifies this`soundCommands, this`soundSampleHeader, stream
      ensures stream.Valid()
      ensures ParseOutcome(ok, State()) == ParseCommands(old(State()), stream.bytes, littleHost, sizes)
    {
      ok := ReadSoundCommands();
      if !ok {
        return false;
      }
      var fullBufferCmd := FindSoundCommand(BufferCmd);
      if fullBufferCmd != 0 {
        var loaded := DoBufferCommand(fullBufferCmd);
      } else {
        return false;
      }
      return true;
    }

    /**
     * The command loop of parse: numSoundCommands 64-bit commands read one
     * after the other and appended; it stops at the first that runs past
     * the end.
     */
    method ReadSoundCommands() returns (ok: bool)
      requires stream.Valid() && !stream.failed && stream.pos == FileHeaderLength
      modifies this`soundCommands, stream
      ensures stream.Valid() && (ok ==> !stream.failed)
      ensures var available := (|stream.bytes| - FileHeaderLength) / CommandLength;
        && (ok <==> numSoundCommands <= available)
        && soundCommands == old(soundCommands)
             + CommandsOf(stream.bytes, if ok then numSoundCommands as nat else available)
    {
      ghost var n := |stream.bytes|;
      var i: nat := 0;
      while i < numSoundCommands as nat
        invariant i <= numSoundCommands as nat
        invariant stream.Valid() && !stream.failed && stream.pos == FileHeaderLength + CommandLength * i
        invariant soundCommands == old(soundCommands) + CommandsOf(stream.bytes, i)
      {
        var command := ReadNextU64(stream, littleHost, stream.pos, false, 0);
        if stream.failed {
          assert (n - FileHeaderLength) / CommandLength == i;
          return false;
        }
        assert CommandsOf(stream.bytes, i + 1) == CommandsOf(stream.bytes, i) + [command];
        soundCommands := soundCommands + [command];
        i := i + 1;
      }
      return true;
    }

    /** findSoundCommand: the first command named `name`, or 0. */
    method FindSoundCommand(name: u16) returns (command: u64)
      ensures command == FirstCommand(soundCommands, name)
    {
      var i := 0;
      while i < |soundCommands|
        invariant i <= |soundCommands|
        invariant FirstCommand(soundCommands[i..], name) == FirstCommand(soundCommands, name)
      {
        if OpCode(soundCommands[i]) == name {
          return soundCommands[i];
        }
        assert soundCommands[i..][1..] == soundCommands[i + 1..];
        i := i + 1;
      }
      return 0;
    }

    /**
     * doBufferCommand: a bufferCmd loads the sound sample header at its
     * second parameter; anything else, or an invalid stream, is refused.
     * The result of the load is not passed on.
     */
    method DoBufferCommand(command: u64) returns (ok: bool)
      requires stream.Valid()
      modifies this`soundSampleHeader, stream
      ensures stream.Valid()
      ensures OpCode(command) != BufferCmd || old(stream.failed) ==> !ok && State() == old(State())
      ensures !old(stream.failed) ==>
        ParseOutcome(ok, State()) == BufferCommandSpec(old(State()), stream.bytes, command, littleHost, sizes)
    {
      var cmdName := OpCode(command);
      var param2 := Param2(command);
      if cmdName != BufferCmd {
        return false;
      }
      if stream.failed {
        return false;
      }
      var loaded := LoadSoundSampleHeader(param2);
      return true;
    }

    /**
     * loadSoundSampleHeader: the common header at `offset`, then the rest of
     * the header its encoding calls for and its sample data. The header is
     * stored on success, and also, as a standard header, when the encoding
     * is not recognised.
     */
    method LoadSoundSampleHeader(offset: u16) returns (ok: bool)
      requires stream.Valid() && !stream.failed
      modifies this`soundSampleHeader, stream
      ensures stream.Valid()
      ensures var r := LoadSpec(stream.bytes, offset, littleHost, sizes);
        && ok == r.ok
        && soundSampleHeader == if r.stored.Some? then r.stored else old(soundSampleHeader)
    {
      stream.Seek(offset as nat);
      var common := ReadCommonFields(stream, littleHost);
      if stream.failed {
        return false;
      }
      if common.samplePtr != 0 {
        return true;
      }
      if common.encode == StandardEncode {
        ok := LoadStandardRest(common);
      } else if common.encode == ExtendedEncode {
        ok := LoadExtendedRest(common);
      } else if common.encode == CompressedEncode {
        ok := LoadCompressedRest(common);
      } else {
        soundSampleHeader := Some(Base(common));
        return false;
      }
    }

    /** The standard branch of loadSoundSampleHeader, once the common header is read. */
    method LoadStandardRest(common: CommonFields) returns (ok: bool)
      requires stream.Valid() && !stream.failed
      modifies this`soundSampleHeader, stream
      ensures stream.Valid()
      ensures var r := LoadStandardSpec(stream.bytes, old(stream.pos), littleHost, common);
        && ok == r.ok
        && soundSampleHeader == if r.stored.Some? then r.stored else old(soundSampleHeader)
    {
      var area := ReadSoundSampleData(stream, littleHost, common.sampleArea, AsUint64(common.lengthOrChannels), 1);
      if stream.failed {
        return false;
      }
      soundSampleHeader := Some(Base(common.(sampleArea := area)));
      return true;
    }

    /** The extended branch of loadSoundSampleHeader, once the common header is read. */
    method LoadExtendedRest(common: CommonFields) returns (ok: bool)
      requires stream.Valid() && !stream.failed
      modifies this`soundSampleHeader, stream
      ensures stream.Valid()
      ensures var r := LoadExtendedSpec(stream.bytes, old(stream.pos), littleHost, common);
        && ok == r.ok
        && soundSampleHeader == if r.stored.Some? then r.stored else old(soundSampleHeader)
    {
      var ext := ReadExtendedFields(stream, littleHost);
      if stream.failed {
        return false;
      }
      var sampleLength := ExtendedSampleLength(common, ext);
      var area := ReadSoundSampleData(stream, littleHost, common.sampleArea, sampleLength,
                                      ExtendedBytesPerValue(ext));
      if stream.failed {
        return false;
      }
      soundSampleHeader := Some(Extended(common.(sampleArea := area), ext));
      return true;
    }

    /**
     * The compressed branch of loadSoundSampleHeader, once the common header
     * is read: the decoder for the format tag sizes the payload.
     */
    method LoadCompressedRest(common: CommonFields) returns (ok: bool)
      requires stream.Valid() && !stream.failed
      modifies this`soundSampleHeader, stream
      ensures stream.Valid()
      ensures var r := LoadCompressedSpec(stream.bytes, old(stream.pos), littleHost, sizes, common);
        && ok == r.ok
        && soundSampleHeader == if r.stored.Some? then r.stored else old(soundSampleHeader)
    {
      var cmp := ReadCompressedFields(stream, littleHost);
      if stream.failed {
        return false;
      }
      cmp := cmp.(decoder := CreateDecoder(cmp.format, cmp.compressionID));
      if cmp.decoder.None? {
        return false;
      }
      var sampleLength := EncodedSize(cmp.decoder.value, CompressedPacketCount(common, cmp), sizes);
      var area := ReadSoundSampleData(stream, littleHost, common.sampleArea, sampleLength, 1);
      if stream.failed {
        return false;
      }
      soundSampleHeader := Some(Compressed(common.(sampleArea := area), cmp));
      return true;
    }
  }
}
