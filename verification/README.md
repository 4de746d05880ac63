# SndToWAV in Dafny

SndToWAV converts classic Mac OS `'snd '` sound resources to PCM WAV files.
A resource starts with a 12-byte big-endian resource header. A list of
8-byte sound commands follows, and the first `bufferCmd` (0x8051) among them
gives the offset of a sound sample header. That header is standard (encode
0x00), extended (0xFF) or compressed (0xFE). Its sample area is read after
it, and the converter turns it into a 44-byte RIFF/WAVE header followed by
little-endian PCM data. Compressed data is first expanded by an IMA4, A-law
or mu-law decoder.

The model follows the program module by module:

- `Bytes`: the C++ fixed-width integer types as subsets of `int`. It also
  holds big- and little-endian byte strings, and the conversions between
  signed and unsigned types, including wrap-around and truncating division.
- `Endian`: the byte-order helpers of `SndToWAV.hpp`, whose host byte order is
  a run-time flag. Here the flag is the parameter `littleHost`, and a native
  value is the sequence of its bytes in memory.
- `Utils`: the same helpers from `Utils.hpp`, compiled for a little-endian host.
- `Decoder`, `NullDecoder`, `XLawDecoder`, `IMA4Decoder`: the decoders. Each
  is modelled against a specification function: the byte image of the
  samples, the A-law and mu-law table lookup with its mirror rule, and the
  IMA ADPCM state machine run over 34-byte packets.
- `SoundHeader`, `SndFormat`: the sound sample header variants and where their
  fields sit in the resource. `SndFormat` also states what loading the
  header and parsing the resource produce, as functions of the resource bytes.
- `SndFile`: the parser as the source writes it. A class reads field after
  field from an input stream, and each method is proved to produce the
  state that `SndFormat` specifies.
- `WAVFormat`, `WAVFile`: the WAV header layout, with its encode/decode
  round trip. Also the header populated from a sound sample header, the
  decoded sample data, and the bytes the converter writes.

## Model

| member | source | states |
|---|---|---|
| Bytes.BigEndianValue | src/SndFile.hpp:107-113 | the value read from a big-endian field of n bytes is below 256^n |
| Bytes.BigEndianRoundTrip | src/SndFile.hpp:107-113 | reading back the big-endian bytes of a value that fits gives the value |
| Bytes.BigEndianBytesOfValue | src/SndFile.hpp:107-113 | every byte string is the big-endian image of the value it denotes |
| Bytes.LittleEndianRoundTrip | src/Decoder.cpp:33-39 | reading back the little-endian bytes of a value that fits gives the value |
| Bytes.LittleEndianBytesOfValue | src/Decoder.cpp:33-39 | every byte string is the little-endian image of the value it denotes |
| Bytes.BigEndianZeroPrefix | src/SndFile.hpp:118-125 | zero bytes in front of a big-endian field leave its value unchanged, so a partial read into a zeroed value reads the short field |
| Bytes.Zeros | src/SndFile.hpp:121 | the zero-filled value is n zero bytes |
| Bytes.AsInt8 | src/XLawDecoder.cpp:108 | the signed view of a byte is negative exactly when the top bit is set, and it is the byte modulo 2^8 |
| Bytes.AsInt16 | src/IMA4Decoder.hpp:40-55 | the signed view of a 16-bit value is negative exactly when bit 15 is set, and it is the value modulo 2^16 |
| Bytes.AsInt32 | src/SndFile.hpp:37 | the signed view of a 32-bit field is negative exactly when bit 31 is set, and it is the field modulo 2^32 |
| Bytes.SignedRoundTrips | src/Decoder.cpp:29-31 | converting a signed value to unsigned and back gives the value, at 8, 16 and 32 bits |
| Bytes.Wrap32 | src/SndFile.cpp:359-362 | an int result agrees with the exact result modulo 2^32, and equals it when it fits |
| Bytes.TruncDiv | src/SndFile.cpp:361 | integer division rounds toward zero: a non-negative dividend rounds down, a negative one up, and a non-zero quotient has the dividend's sign |
| Bytes.WrappedProduct | src/WAVFile.cpp:115-119 | a product computed in 32-bit int steps and widened to size_t agrees with the exact product modulo 2^32, and equals it when every step fits |
| Decoder.LittleEndianSamplesAt | src/Decoder.cpp:33-39 | byte 2i of the serialised samples is the low byte of sample i, byte 2i+1 its high byte |
| Decoder.SamplesFromLittleEndian | src/Decoder.cpp:25 | the samples read back from bytes are half as many as the bytes |
| Decoder.SamplesRoundTrip | src/Decoder.cpp:23-43 | the samples read back from the serialisation are the samples |
| Decoder.BytesRoundTrip | src/Decoder.cpp:23-43 | serialising the samples read from an even-length byte string gives the bytes back |
| Decoder.SerializeToLittleEndian | src/Decoder.cpp:23-43 | the output has two bytes per sample, low byte first, and is the little-endian image of the samples |
| Decoder.Decoder.constructor | src/Decoder.cpp:62-65 | a fresh decoder holds no data |
| Decoder.Decoder.SetLittleEndianData16 | src/Decoder.cpp:45-48 | the stored data is the little-endian image of the 16-bit samples |
| Decoder.Decoder.SetLittleEndianData8 | src/Decoder.cpp:50-54 | the stored data has one byte per 8-bit sample, and each byte read as signed is that sample |
| Decoder.Decoder.SetLittleEndianDataRaw | src/Decoder.cpp:57-60 | the stored data is the raw data |
| Endian.SwapEndianReadsBigAsLittle | src/SndToWAV.hpp:44-61 | the byte-reversed string has the same length, and read as little-endian it has the value of the original read as big-endian |
| Endian.SwapEndianReadsLittleAsBig | src/SndToWAV.hpp:44-61 | the byte-reversed string read as big-endian has the value of the original read as little-endian |
| Endian.SwapEndianInvolution | src/SndToWAV.hpp:44-61 | swapping twice gives the original bytes |
| Endian.NativeBytes | src/SndToWAV.hpp:122 | the host representation of a value has the value's width and holds the value for the host's byte order |
| Endian.ConversionsPreserveValue | src/SndToWAV.hpp:72-114 | makeBigEndianNative and makeLittleEndianNative give the native value of a big- or little-endian field; safeBigEndian and safeLittleEndian give a big- or little-endian field of the native value |
| Endian.ConversionsAreInverse | src/SndToWAV.hpp:72-114 | safeBigEndian undoes makeBigEndianNative and the reverse, and the same holds for the little-endian pair |
| Endian.SwapsOnlyWhenOrdersDiffer | src/SndToWAV.hpp:72-90 | the bytes are reversed exactly when the field's byte order differs from the host's |
| Endian.SafeLittleEndianOfValue | src/SndToWAV.hpp:104-114 | safeLittleEndian of a native value's bytes is its little-endian image, on either host |
| Endian.BigEndianInputIsHostIndependent | src/SndToWAV.hpp:72-80 | a big-endian field converted to native order denotes the same value on either host |
| Endian.PairToNative | src/SndToWAV.hpp:72-80 | a 2-byte big-endian field converted to native order is swapped on a little-endian host and kept on a big-endian one |
| Endian.SingleByteUnchanged | src/SndToWAV.hpp:72-114 | one-byte values are never reordered |
| Utils.MakeBigEndianNative | src/Utils.hpp:50-59 | on the compiled-in little-endian host, the native value of a big-endian field is its value |
| Utils.MakeLittleEndianNative | src/Utils.hpp:61-70 | on the compiled-in little-endian host a little-endian field is kept as it is |
| Utils.SafeBigEndian | src/Utils.hpp:72-81 | on the compiled-in little-endian host, the big-endian field has the native value |
| Utils.SafeLittleEndian | src/Utils.hpp:83-92 | on the compiled-in little-endian host the native bytes are kept as they are |
| Utils.AgreeWithLittleEndianHost | src/Utils.hpp:24-26 | the compiled-in helpers are the run-time helpers with the host flag set to little-endian |
| Utils.ConversionsAreInverse | src/Utils.hpp:50-92 | the compiled-in conversions undo each other |
| NullDecoder.EncodedSize | src/NullDecoder.cpp:28-33 | n packets take n * bitsPerSample / 8 bytes when the product fits in size_t |
| NullDecoder.DecodedSize | src/NullDecoder.cpp:35-40 | the decoded size equals the encoded size |
| NullDecoder.BitsPerSample | src/NullDecoder.cpp:42-45 | the bits per sample are the ones the decoder was built with |
| NullDecoder.Decode | src/NullDecoder.cpp:47-51 | the decoder stores the input data unchanged |
| XLawDecoder.ExpandByte | src/XLawDecoder.cpp:106-117 | a byte below 0x80 maps to its table entry; a byte at or above 0x80 maps to the negated entry 0x80 lower |
| XLawDecoder.ExpandAll | src/XLawDecoder.cpp:101 | one sample per input byte |
| XLawDecoder.ExpandAllAt | src/XLawDecoder.cpp:106-117 | sample i is the expansion of byte i |
| XLawDecoder.MirrorRule | src/XLawDecoder.cpp:30-32 | byte b + 0x80 decodes to the negation of what byte b decodes to |
| XLawDecoder.KnownValues | src/XLawDecoder.cpp:37-73 | the table ends give A-law 0x00 → -5504, 0x80 → 5504, 0x7F → -848, 0xFF → 848, and mu-law 0x00 → -32124, 0x80 → 32124, 0x7F and 0xFF → 0 |
| XLawDecoder.EncodedSize | src/XLawDecoder.cpp:81-84 | one byte per packet |
| XLawDecoder.DecodedSize | src/XLawDecoder.cpp:86-95 | two bytes per packet when the product fits in size_t, the width of the 16 bits per sample the decoder reports (`BitsPerSample`) |
| XLawDecoder.Decode | src/XLawDecoder.cpp:97-121 | decoding succeeds and stores the little-endian image of the expanded samples, using the mu-law table exactly when asked to |
| XLawDecoder.ALawDecode | src/XLawDecoder.cpp:129-133 | A-law decoding succeeds and stores the A-law expansion |
| XLawDecoder.ULawDecode | src/XLawDecoder.cpp:141-145 | mu-law decoding succeeds and stores the mu-law expansion |
| SoundHeader.DefaultCommon | src/SoundSampleHeader.hpp:31-39 | a new standard header has every field 0 and an empty sample area |
| SoundHeader.DefaultExtended | src/SoundSampleHeader.hpp:51-64 | the extended fields start at 0 |
| SoundHeader.DefaultCompressed | src/SoundSampleHeader.hpp:76-91 | the compressed fields start at 0, with no decoder |
| SoundHeader.ExtendedFrom | src/SoundSampleHeader.hpp:46-47 | an extended header built from a standard one copies its fields and starts its own at 0 |
| SoundHeader.CompressedFrom | src/SoundSampleHeader.hpp:71-72 | a compressed header built from a standard one copies its fields and starts its own at 0 |
| SoundHeader.CopiesAreWellTagged | src/SndFile.cpp:336-378 | a copied header agrees with its encode byte exactly when the byte names its variant |
| IMA4Decoder.Clamp | src/IMA4Decoder.hpp:32-38 | below the range gives min, inside gives the value, above gives max; the result lies in the range |
| IMA4Decoder.CastSigned16Bit | src/IMA4Decoder.hpp:42-55 | the result is the two's-complement reading of the 16-bit value |
| IMA4Decoder.Diff | src/IMA4Decoder.cpp:66-76 | the difference has the sign of bit 3 of the code, and its size lies between step/8 and 15·step/8 |
| IMA4Decoder.DiffNearReference | src/IMA4Decoder.cpp:68-76 | the integer step difference is within 2 of the reference value ((2m+1)·step)/8, with the nibble's sign |
| IMA4Decoder.MagnitudeGap | src/IMA4Decoder.cpp:72-74 | (2m+1)·step/8 exceeds the shift-and-add reference by at most 2 |
| IMA4Decoder.NextState | src/IMA4Decoder.cpp:55-93 | after one nibble the predictor lies in the int16 range and the step index in 0..88 |
| IMA4Decoder.Final | src/IMA4Decoder.cpp:119-132 | the state after any nibble sequence keeps the step index in range |
| IMA4Decoder.RunLength | src/IMA4Decoder.cpp:119-132 | a run yields one sample per nibble |
| IMA4Decoder.RunAt | src/IMA4Decoder.cpp:125-131 | sample i is the predictor after the first i+1 nibbles |
| IMA4Decoder.Nibbles | src/IMA4Decoder.cpp:119-132 | each payload byte gives two nibbles |
| IMA4Decoder.NibblesAt | src/IMA4Decoder.cpp:122-128 | the low nibble of byte k comes first, then its high nibble |
| IMA4Decoder.HeaderState | src/IMA4Decoder.cpp:112-116 | the packet header gives a predictor in the int16 range and a step index in 0..88 |
| IMA4Decoder.PacketSamplesLength | src/IMA4Decoder.cpp:103-135 | a 34-byte packet decodes to 64 samples |
| IMA4Decoder.InterleaveAt | src/IMA4Decoder.cpp:148-154 | interleaving puts left sample i at 2i and right sample i at 2i+1 |
| IMA4Decoder.InterleaveLength | src/IMA4Decoder.cpp:146 | the interleaved output has room for both channels |
| IMA4Decoder.InterleaveSamples | src/IMA4Decoder.cpp:144-156 | the loop computes the interleaving |
| IMA4Decoder.MonoPacketCountIsLoopBound | src/IMA4Decoder.cpp:185-187 | packet k is decoded exactly when 34k < size - 34, the signed loop test |
| IMA4Decoder.StereoPairCountIsLoopBound | src/IMA4Decoder.cpp:197-199 | packet pair k is decoded exactly when 68k < size - 68 |
| IMA4Decoder.MonoSamplesLength | src/IMA4Decoder.cpp:185-193 | k mono packets give 64k samples |
| IMA4Decoder.StereoSamples | src/IMA4Decoder.cpp:197-205 | k stereo packet pairs give 128k samples |
| IMA4Decoder.DecodedSamples | src/IMA4Decoder.cpp:160-210 | mono data decodes to 64 samples per packet the loop admits, stereo data to 128 per pair, any other channel count to nothing |
| IMA4Decoder.LastMonoPacketSkipped | src/IMA4Decoder.cpp:185-187 | mono data of exactly m packets has only m-1 of them decoded |
| IMA4Decoder.OnlyMonoAndStereo | src/IMA4Decoder.cpp:175-180 | any channel count other than 1 or 2 decodes to nothing |
| IMA4Decoder.IMA4Decoder.constructor | src/IMA4Decoder.hpp:62-65 | a new decoder starts with predictor 0 and step index 0 |
| IMA4Decoder.IMA4Decoder.ProcessNibble | src/IMA4Decoder.cpp:55-93 | the state advances by the low 4 bits of the argument, and the returned sample is the new predictor |
| IMA4Decoder.IMA4Decoder.DecodeBytes | src/IMA4Decoder.cpp:119-132 | the payload loop yields the run over the payload's nibbles and leaves the final state |
| IMA4Decoder.IMA4Decoder.DecodeFrame | src/IMA4Decoder.cpp:103-135 | a packet decodes to its specified samples, leaving its final state |
| IMA4Decoder.IMA4Decoder.DecodeStereoFrame | src/IMA4Decoder.cpp:138-157 | a packet pair decodes to the interleaved samples of its left and right packets |
| IMA4Decoder.IMA4Decoder.DecodeNextPacket | src/IMA4Decoder.cpp:189-192 | appending packet k's samples to the first k packets' samples gives the first k+1 packets' samples |
| IMA4Decoder.IMA4Decoder.DecodeMono | src/IMA4Decoder.cpp:182-193 | the mono loop decodes exactly the packets its bound admits |
| IMA4Decoder.IMA4Decoder.DecodeNextPair | src/IMA4Decoder.cpp:201-205 | appending pair k's samples to the first k pairs' samples gives the first k+1 pairs' samples |
| IMA4Decoder.IMA4Decoder.DecodeStereo | src/IMA4Decoder.cpp:194-206 | the stereo loop decodes exactly the pairs its bound admits |
| IMA4Decoder.IMA4Decoder.Decode | src/IMA4Decoder.cpp:160-210 | the output is the specified decoding for the channel count, and a warning is given exactly when the size is not a multiple of 34 (or of 68 for stereo) |
| SndFormat.Field | src/SndFile.hpp:107-113 | a big-endian field of n bytes is below 256^n |
| SndFormat.PartialU32At | src/SndFile.hpp:118-125 | a 2-byte read into a zeroed 32-bit value is below 2^16 |
| SndFormat.CreateDecoder | src/SndFile.cpp:132-161 | MACE for compression ID 3 or "mac3"/"MAC3"; otherwise IMA4, A-law or mu-law for their lower- or upper-case tags; no decoder for anything else |
| SndFormat.MixedCaseTagsDoNotMatch | src/SndFile.cpp:137-150 | mixed-case tags select no decoder, and compression ID 3 wins over the tag |
| SndFormat.DecodeCommon | src/SndFile.cpp:306-315 | the freshly read common part has an empty sample area |
| SndFormat.CommonRoundTrip | src/SndFile.cpp:309-315 | the 22 common bytes are read back as the fields they encode |
| SndFormat.ExtendedRoundTrip | src/SndFile.cpp:344-355 | the 42 extended bytes are read back as the fields they encode, the first rate word from 2 bytes |
| SndFormat.CompressedHeadRoundTrip | src/SndFile.cpp:380-385 | numFrames, the three rate words, markerChunk and format are read back from their offsets |
| SndFormat.CompressedWordRoundTrip | src/SndFile.cpp:386-388 | futureUse2, stateVars and leftOverSamples are read back |
| SndFormat.CompressedShortRoundTrip | src/SndFile.cpp:389-392 | compressionID, packetSize, snthID and sampleSize are read back |
| SndFormat.CompressedTailRoundTrip | src/SndFile.cpp:386-392 | the 20 bytes after format are read back as the seven fields they encode |
| SndFormat.CompressedRoundTrip | src/SndFile.cpp:380-394 | the 42 compressed bytes are read back as the fields they encode, with the decoder chosen from format and compression ID |
| SndFormat.OpCode | src/SndFile.cpp:234 | the command name is the top 16 bits of the command |
| SndFormat.Param2 | src/SndFile.cpp:251 | param2 is the low 16 bits of the command |
| SndFormat.CommandsOf | src/SndFile.cpp:196-200 | command i is the big-endian 64-bit word at offset 12 + 8i |
| SndFormat.FirstCommand | src/SndFile.cpp:230-239 | a non-zero result is a command with that name; 0 means no command has it |
| SndFormat.FirstCommandIsFirst | src/SndFile.cpp:232-236 | the first command with the name is the one returned |
| SndFormat.Resize | src/SndFile.cpp:283 | the buffer is resized to the sample length |
| SndFormat.ResizeAt | src/SndFile.cpp:283 | resizing keeps the existing bytes and fills the rest with 0 |
| SndFormat.PairImage | src/SndFile.hpp:129-137 | the 16-bit array read keeps the byte count |
| SndFormat.PairImageOf | src/SndFile.hpp:132-136 | each 16-bit value is byte-swapped on a little-endian host and kept on a big-endian one |
| SndFormat.PairImageAt | src/SndFile.hpp:132-136 | each pair is makeBigEndianNative of the pair read |
| SndFormat.ByteImageIsVerbatim | src/SndFile.hpp:129-137 | the byte array read keeps every byte as it is |
| SndFormat.SampleData | src/SndFile.cpp:279-299 | a successful read yields exactly sampleLength bytes |
| SndFormat.SampleDataOfBytes | src/SndFile.cpp:286-288 | one byte per value: the next sampleLength bytes verbatim, or failure past the end |
| SndFormat.SampleDataOfPairs | src/SndFile.cpp:289-297 | two bytes per value: each pair converted to native order |
| SndFormat.SampleDataOfOddLength | src/SndFile.cpp:295-297 | with two bytes per value and an odd length, the last byte is what the resize left there |
| SndFormat.SampleDataOfOtherWidths | src/SndFile.cpp:283-298 | any other width reads nothing and leaves a zero-filled area |
| SndFormat.EncodedSize | src/SndFile.cpp:399-401 | an A-law or mu-law payload takes one byte per packet |
| SndFormat.ExtendedSampleLength | src/SndFile.cpp:359-362 | the extended sample length is numFrames * sampleSize / 8 * channels when the int products fit |
| SndFormat.ExtendedBytesPerValue | src/SndFile.cpp:364-365 | a non-negative sample size gives sampleSize / 8 bytes per value, and the area is read as bytes or pairs exactly when the sample size is 8 to 23 bits |
| SndFormat.CompressedPacketCount | src/SndFile.cpp:399-401 | the packet count agrees with numFrames * channels modulo 2^32, and equals it when the int product fits |
| SndFormat.LoadSpec | src/SndFile.cpp:303-418 | a header that does not fit in the resource fails with nothing stored; a stored header carries the common fields read at the offset, with its sample area filled in |
| SndFormat.LoadStoresWellTagged | src/SndFile.cpp:303-418 | a stored header always agrees with its encode byte; a failed load stores a header only for an unknown encoding |
| SndFormat.LoadWithSamplePointer | src/SndFile.cpp:318-323 | a non-null sample pointer reports success and stores nothing |
| SndFormat.LoadStandard | src/SndFile.cpp:325-335 | a standard header's sample area is the next lengthOrChannels bytes, verbatim |
| SndFormat.LoadCompressed | src/SndFile.cpp:394-411 | a compressed header's sample area is the decoder's encoded size for numFrames * channels packets, verbatim |
| SndFormat.LoadCompressedWithoutDecoder | src/SndFile.cpp:394-401 | without a decoder the load fails and stores nothing |
| SndFormat.LoadExtendedLength | src/SndFile.cpp:357-365 | an extended header is stored with its fields, and its sample area has numFrames * sampleSize / 8 * channels bytes |
| SndFormat.Unparsed | src/SndFile.hpp:142-149 | before parsing there are no commands and no header |
| SndFormat.BufferCommandSpec | src/SndFile.cpp:245-269 | success exactly for a bufferCmd, whatever the load gives; the header changes only then |
| SndFormat.ParseHeader | src/SndFile.cpp:181-194 | the resource header needs 12 bytes, and reading it leaves commands and header alone |
| SndFormat.ParseRejectsNoDataFormats | src/SndFile.cpp:186-190 | zero data formats fail the parse before any command is read |
| SndFormat.ParseReadsInOrder | src/SndFile.cpp:172-226 | parsing reads the five header fields, appends the commands, and succeeds exactly when a bufferCmd exists; the header is then the one that command loads |
| SndFormat.ParseIgnoresLoadResult | src/SndFile.cpp:215-225 | a resource with a bufferCmd parses successfully even when its header fails to load |
| SndFormat.LoadStoresDecodable | src/SndFile.cpp:394-411 | every stored header agrees with its encode byte, and a stored compressed header carries a decoder |
| SndFormat.ParseStoresDecodable | src/SndFile.cpp:172-226 | parsing keeps the stored header decodable |
| SndFile.InputStream.constructor | src/SndFile.cpp:174 | a stream opened on the resource bytes starts at 0 and is failed exactly when opening failed |
| SndFile.InputStream.Seek | src/SndFile.cpp:307 | seeking past the end fails the stream; otherwise the position is the target |
| SndFile.InputStream.Read | src/SndFile.hpp:111 | a read yields the requested count of bytes, taken from the stream when it can read them, and advances or fails the stream |
| SndFile.ReadBigValue | src/SndFile.hpp:107-113 | the value of the big-endian field at the position |
| SndFile.ReadPartialBigValue | src/SndFile.hpp:118-125 | the value of the short big-endian field at the position |
| SndFile.ReadBigBytes | src/SndFile.hpp:129-137 | the byte array read is the stream's bytes, and the rest of the buffer is untouched |
| SndFile.ReadBigPairs | src/SndFile.hpp:129-137 | the 16-bit array read is the native image of the stream's pairs, and the rest of the buffer is untouched |
| SndFile.ReadBigPair | src/SndFile.hpp:134-135 | one iteration fills exactly the i-th pair with its native image |
| SndFile.ReadSoundSampleData | src/SndFile.cpp:279-299 | the area has sampleLength bytes and is the specified sample data unless the read fails |
| SndFile.ReadNextBigValue | src/SndFile.hpp:107-113 | reading continues at the expected offset and yields that field |
| SndFile.ReadNextPartialBigValue | src/SndFile.hpp:118-125 | reading continues at the expected offset and yields that short field |
| SndFile.ReadNextU64 | src/SndFile.cpp:198 | the next 64-bit command word |
| SndFile.ReadNextU32 | src/SndFile.cpp:193 | the next 32-bit big-endian field |
| SndFile.ReadNextI32 | src/SndFile.cpp:310 | the next 32-bit field, read as signed |
| SndFile.ReadNextU16 | src/SndFile.cpp:183-184 | the next 16-bit big-endian field |
| SndFile.ReadNextI16 | src/SndFile.cpp:389-392 | the next 16-bit field, read as signed |
| SndFile.ReadNextU8 | src/SndFile.cpp:314-315 | the next byte |
| SndFile.ReadNextPartialU32 | src/SndFile.cpp:345 | the 2-byte first word of the 80-bit rate |
| SndFile.ReadNextFourCC | src/SndFile.cpp:385 | the next four bytes, verbatim |
| SndFile.ReadCommonFields | src/SndFile.cpp:309-315 | the seven common fields read are the ones encoded at the position |
| SndFile.ReadExtendedFields | src/SndFile.cpp:344-355 | the extended fields read are the ones encoded at the position |
| SndFile.ReadCompressedFields | src/SndFile.cpp:380-392 | the compressed fields read are the ones encoded at the position, before the decoder is chosen |
| SndFile.SndFile.constructor | src/SndFile.cpp:163-168 | constructing parses the resource: the state is what parsing from nothing gives |
| SndFile.SndFile.Parse | src/SndFile.cpp:172-226 | a failed stream reports failure and changes nothing; otherwise the result and state are the specified parse |
| SndFile.SndFile.ReadResourceHeader | src/SndFile.cpp:181-194 | the header fields read, and the zero-data-formats exit, are the specified ones |
| SndFile.SndFile.ParseCommandsAndBuffer | src/SndFile.cpp:196-225 | reading the commands and running the first bufferCmd gives the specified outcome |
| SndFile.SndFile.ReadSoundCommands | src/SndFile.cpp:196-200 | the announced commands are appended in order when the resource holds them all, and the read fails otherwise |
| SndFile.SndFile.FindSoundCommand | src/SndFile.cpp:230-239 | the loop returns the first command with that name, or 0 |
| SndFile.SndFile.DoBufferCommand | src/SndFile.cpp:245-269 | a non-bufferCmd or a failed stream is refused with nothing changed; otherwise the header is loaded from param2 |
| SndFile.SndFile.LoadSoundSampleHeader | src/SndFile.cpp:303-418 | the result and the stored header are those of the specified load at that offset |
| SndFile.SndFile.LoadStandardRest | src/SndFile.cpp:325-335 | the standard branch stores the header with its sample area |
| SndFile.SndFile.LoadExtendedRest | src/SndFile.cpp:336-371 | the extended branch reads its fields, then the sample area |
| SndFile.SndFile.LoadCompressedRest | src/SndFile.cpp:372-411 | the compressed branch reads its fields, chooses the decoder, then reads the payload |
| WAVFormat.DefaultHeader | src/WAVFile.hpp:26-43 | a new header has the RIFF, WAVE, "fmt " and "data" tags and every number 0 |
| WAVFormat.RiffBytes | src/WAVFile.cpp:175-177 | the RIFF chunk head is 12 bytes |
| WAVFormat.FmtBytes | src/WAVFile.cpp:179-186 | the fmt chunk is 24 bytes |
| WAVFormat.DataBytes | src/WAVFile.cpp:188-189 | the data chunk head is 8 bytes |
| WAVFormat.HeaderBytes | src/WAVFile.cpp:173-190 | the binary header is 44 bytes |
| WAVFormat.RiffRoundTrip | src/WAVFile.cpp:175-177 | chunkID, chunkSize and format read back from the RIFF head |
| WAVFormat.FmtRoundTrip | src/WAVFile.cpp:179-186 | the eight fmt fields read back little-endian from their offsets |
| WAVFormat.DataRoundTrip | src/WAVFile.cpp:188-189 | subchunk2ID and subchunk2Size read back |
| WAVFormat.HeaderRoundTrip | src/WAVFile.cpp:173-190 | decoding the written header, with anything after it, gives the header |
| WAVFormat.HeaderRiffRoundTrip | src/WAVFile.cpp:175-177 | the RIFF fields sit at offsets 0, 4 and 8 of the header |
| WAVFormat.HeaderFmtRoundTrip | src/WAVFile.cpp:179-186 | the fmt fields sit at offsets 12 to 34 |
| WAVFormat.HeaderDataRoundTrip | src/WAVFile.cpp:188-189 | the data fields sit at offsets 36 and 40 |
| WAVFormat.BytesRoundTrip | src/WAVFile.cpp:173-190 | any 44 bytes are the header written for what they decode to |
| WAVFormat.TagOffsets | src/WAVFile.cpp:173-190 | the four tags are written verbatim at offsets 0, 8, 12 and 36 |
| WAVFormat.DefaultHeaderBytes | src/WAVFile.hpp:29-43 | a new header is written as its four tags with zeros between |
| WAVFile.OutputStream.constructor | src/WAVFile.cpp:270-278 | a newly opened output holds nothing |
| WAVFile.OutputStream.Write | src/WAVFile.cpp:173-190 | writing appends the bytes |
| WAVFile.WriteLittleValue | src/WAVFile.cpp:176-189 | a value is appended as its little-endian bytes |
| WAVFile.WriteLittle16 | src/WAVFile.cpp:181-186 | a 16-bit field is appended as 2 little-endian bytes |
| WAVFile.WriteLittle32 | src/WAVFile.cpp:176-184 | a 32-bit field is appended as 4 little-endian bytes |
| WAVFile.WriteLittleBytes | src/WAVFile.cpp:247 | a byte array is appended verbatim |
| WAVFile.LittlePairs | src/WAVFile.cpp:254-255 | the 16-bit array written keeps the byte count |
| WAVFile.WriteLittlePairs | src/WAVFile.cpp:254-255 | each native 16-bit value is appended in little-endian order |
| WAVFile.LittlePairsOnLittleHost | src/WAVFile.cpp:249-256 | on a little-endian host the pairs are written as they are |
| WAVFile.PairsWrittenAreHostIndependent | src/WAVFile.cpp:249-256 | 16-bit samples read big-endian and written little-endian give the same bytes on either host |
| WAVFile.DecodedSamplesOnBigHost | src/WAVFile.cpp:249-256 | on a big-endian host, decoded samples that are already little-endian are written with their bytes swapped |
| WAVFile.SerializeSamples | src/WAVFile.cpp:71-91 | the output is the little-endian image of the samples |
| WAVFile.DataSize | src/WAVFile.cpp:109-112 | a standard header announces lengthOrChannels bytes; an unknown encoding announces none |
| WAVFile.DataSizeByEncoding | src/WAVFile.cpp:113-120 | an extended header announces numFrames * 2 * channels bytes and a compressed one numFrames * 128 * channels, modulo 2^32, and exactly when the int products fit |
| WAVFile.SampleBits | src/WAVFile.cpp:141-158 | 8 bits for a standard header, sampleSize for an extended one, packetSize for a compressed one (16 when it is 0), none for an unknown encoding |
| WAVFile.Channels | src/WAVFile.cpp:128-135 | one channel for a standard header, lengthOrChannels for extended and compressed ones, the prior count for an unknown encoding |
| WAVFile.Populated | src/WAVFile.cpp:94-171 | populating the header keeps its four tags |
| WAVFile.PopulatedFields | src/WAVFile.cpp:94-171 | for every encoding: the channel count, the bits per sample and the announced data size the header gets, with the truncations of the field types, and a RIFF size 36 bytes more than the data size |
| WAVFile.PopulatedRatesAgree | src/WAVFile.cpp:160-162 | for 8- and 16-bit samples, when nothing wraps, the block align is one sample of every channel and the byte rate is sampleRate blocks |
| WAVFile.DerivedRates | src/WAVFile.cpp:160-162 | block align and byte rate computed from 8 or 16 bits in the field types' arithmetic are one sample of every channel and sampleRate blocks |
| WAVFile.StandardAnnouncesWrittenBytes | src/WAVFile.cpp:109-112 | a standard header loaded with lengthOrChannels bytes writes its sample area as it is and announces its length modulo 2^32 |
| WAVFile.ExtendedAnnouncesWrittenBytes | src/WAVFile.cpp:113-115 | a 16-bit extended header loaded with its sample length writes every byte of it and announces exactly that many |
| WAVFile.ExtendedEightBitAnnouncesTwice | src/WAVFile.cpp:113-115 | an 8-bit extended header announces twice the bytes it loaded, when nothing overflows |
| WAVFile.ChunkSizeCoversData | src/WAVFile.cpp:109-122 | the RIFF size is 36 plus the data size, and the data size is the announced size, both modulo 2^32 |
| WAVFile.PopulatedFormat | src/WAVFile.cpp:124-139 | the fmt chunk is 16 bytes of PCM, and the rate is the integer part of the 16.16 fixed-point rate |
| WAVFile.StandardIsEightBitMono | src/WAVFile.cpp:128-162 | a standard header gives mono 8-bit data with a byte rate equal to the sample rate |
| WAVFile.CompressedDefaultsToSixteenBits | src/WAVFile.cpp:150-162 | a compressed header with packet size 0 gives 16 bits, and the block align and byte rate that follow |
| WAVFile.ExtendedSizeMatchesLoad | src/WAVFile.cpp:113-115 | for 16-bit extended data without overflow, the announced size is the size loaded, numFrames * 2 * channels |
| WAVFile.AnnouncedSizeIgnoresSkippedPacket | src/WAVFile.cpp:116-120 | one mono IMA4 packet announces 128 bytes while the decoder yields none |
| WAVFile.DecoderOutput | src/WAVFile.cpp:227-231 | the pass-through decoder leaves the data as it is; A-law and mu-law give two bytes per input byte; IMA4 gives 128 bytes per mono packet or 256 per stereo pair the loop admits, and nothing for other channel counts; MACE two bytes per sample |
| WAVFile.DecodedData | src/WAVFile.cpp:197-236 | standard and extended headers, compressed headers with compression ID 0, and unknown encodings pass their sample area through |
| WAVFile.XLawDataReadsBack | src/WAVFile.cpp:227-231 | A-law and mu-law data decode to two bytes per input byte, which read back as the expanded samples |
| WAVFile.SampleOutput | src/WAVFile.cpp:239-262 | output exists exactly for 1 or 2 bytes per sample; with 2 it has the even part of the data's length |
| WAVFile.WAVFile.constructor | src/WAVFile.cpp:60-62 | a new converter holds the default header |
| WAVFile.WAVFile.PopulateHeader | src/WAVFile.cpp:94-171 | populating always succeeds and leaves the specified header |
| WAVFile.WAVFile.WriteBinaryHeader | src/WAVFile.cpp:173-190 | the header's 44 bytes are appended |
| WAVFile.WAVFile.WriteRiffChunk | src/WAVFile.cpp:175-177 | the RIFF head is appended |
| WAVFile.WAVFile.WriteFmtChunk | src/WAVFile.cpp:179-186 | the fmt chunk is appended |
| WAVFile.WAVFile.WriteDataHead | src/WAVFile.cpp:188-189 | the data chunk head is appended |
| WAVFile.WAVFile.DecodeSampleData | src/WAVFile.cpp:197-236 | the data returned is the specified decoded data for the header's channel count |
| WAVFile.WAVFile.WriteSampleData | src/WAVFile.cpp:239-262 | succeeds exactly for 8- or 16-bit output, and then appends the specified sample bytes |
| WAVFile.WAVFile.ConvertSnd | src/WAVFile.cpp:265-284 | converting populates the header, appends the header bytes and the sample bytes, and reports success even when the sample width is refused |
| WAVFile.OutputStartsWithHeader | src/WAVFile.cpp:280-283 | the written file decodes back to its header and is 44 bytes longer than the sample data |

## Notes on the source

- A-law byte 0x00 decodes to -5504: src/XLawDecoder.cpp:38 holds -5504 at
  index 0 of the A-law table. The model follows the table (`KnownValues`).
- Bits per sample are derived per encoding (src/WAVFile.cpp:141-158), not
  from the decoder's getBitsPerSample (src/XLawDecoder.cpp:92-95). The model
  does the same.
- The mono and stereo IMA4 loops (src/IMA4Decoder.cpp:185-187, 197-199) stop
  while a full packet remains, so data of exactly m packets decodes only m-1.
  The model keeps this behaviour (`LastMonoPacketSkipped`).
- The data size of an extended header is numFrames * 2 * channels
  (src/WAVFile.cpp:115) whatever its sample size, while the load reads
  numFrames * sampleSize / 8 * channels bytes (src/SndFile.cpp:359-362). For
  8-bit data the WAV header announces twice the bytes written. The model
  keeps this behaviour (`ExtendedEightBitAnnouncesTwice`).

## Left out

- File and console I/O: logging, the debug printers, and opening the output
  file in convertSnd (src/WAVFile.cpp:270-278) are not modelled. Streams are
  an in-memory input of bytes and an output that collects the bytes written.
- SndFormat.LoadSpec, SndFile.SndFile.LoadSoundSampleHeader: a sample area
  that runs past the end of the resource fails the load, and nothing is
  stored. In the source, readSoundSampleData resizes the area first
  (src/SndFile.cpp:283), the bytes still available are stored and the rest
  stay zero; the load then returns true and stores the header
  (src/SndFile.cpp:328-335, 364-371, 405-411). Header fields read past the
  end have indeterminate values there, and the model fails those loads too.
- SndFormat.ParseCommands, SndFile.SndFile.ReadSoundCommands: a command list
  that runs past the end fails the whole parse. In the source the missing
  commands have indeterminate values (src/SndFile.cpp:196-200). When a
  complete bufferCmd comes first, parse returns true (src/SndFile.cpp:215-225),
  and doBufferCommand refuses the failed stream (src/SndFile.cpp:260-265), so
  no header is loaded.
- SndFile.InputStream.Read: what a failed read leaves in memory is not
  specified.
- SndFile.SndFile.Parse: the stream position after parsing and loading is
  not stated.
- A compressed header with no decoder: the source dereferences a null
  decoder (src/SndFile.cpp:399). The model fails that load and stores
  nothing.
- WAVFile.WAVFile.ConvertSnd: requires a stored header that can be decoded.
  The source would read through a null header or a null decoder otherwise.
- MACE decoding and the IMA4 and MACE getEncodedSize: they have no bodies in
  the files modelled. They are parameters of the model: `maceSamples` and
  `SndFormat.CodecSizes`.
- Endian.MakeBigEndianNative, Endian.MakeLittleEndianNative,
  Endian.SafeBigEndian, Endian.SafeLittleEndian: their own contracts give only
  the length. The value facts are in ConversionsPreserveValue and
  SwapsOnlyWhenOrdersDiffer.
- SndFormat.DecodeCommon: its contract gives only the empty sample area. The
  fields are tied to the bytes by CommonRoundTrip.
- NullDecoder.EncodedSize: the size is stated only when numPackets *
  bitsPerSample fits in size_t. The body wraps modulo 2^64.
- XLawDecoder.DecodedSize: the size is stated only when 2 * numPackets fits
  in size_t.
- WAVFile.WAVFile.PopulateHeader: the announced data size is tied to the
  bytes written only for standard headers and 16-bit extended headers
  (`StandardAnnouncesWrittenBytes`, `ExtendedAnnouncesWrittenBytes`). For
  8-bit extended data it is twice the bytes written
  (`ExtendedEightBitAnnouncesTwice`). For compressed data, whose decoded size
  depends on the codec, no relation to the bytes written is stated.
- WAVFile.ExtendedSizeMatchesLoad: stated for 16-bit samples only; the 8-bit
  case is `ExtendedEightBitAnnouncesTwice`, and other sample sizes are not
  stated.
- WAVFile.PopulatedRatesAgree: stated only for 8- and 16-bit samples whose
  byte rate and block align do not wrap.
- Floating point: the IMA4 step difference (src/IMA4Decoder.cpp:72-74) is
  computed in exact integers. DiffNearReference bounds its distance from the
  shift-and-add reference.
- Signed overflow in int arithmetic is modelled as two's-complement
  wrap-around (`Bytes.Wrap32`), the behaviour of the usual targets.
- readBigArray is modelled only at its two instantiations, uint8_t and
  uint16_t.
- writeLittleValue and writeLittleArray are not defined in the files
  modelled. They are modelled as the little-endian mirror of readBigValue and
  readBigArray.
- Revision mismatches in the sources. SndFile.hpp declares AIFFSampleRate
  with two cells, but SndFile.cpp writes a third; the model follows the
  three cells of SoundSampleHeader.hpp. The `decoder` member is not declared
  in the headers shown. Decoder.hpp declares decode as returning samples,
  while the A-law, mu-law and pass-through decoders store their bytes; each
  decoder is modelled as its .cpp file writes it.
- Allocation failure and exceptions are not modelled.
- main.cpp and the resource-fork extraction of SndToWAV.cpp are not part of
  this model.
