/**
 * A-law and mu-law expansion: each input byte becomes one 16-bit sample read
 * from a 128-entry table, mirrored and negated for bytes whose signed reading
 * is negative.
 */
module XLawDecoder {
  import opened Bytes
  import opened Decoder

  /** A table entry: every entry of both tables lies in [-32256, 0], so its negation still fits in 16 bits. */
  type TableLevel = x: int | -32256 <= x <= 0

  /** Eight consecutive table entries; a table is sixteen of them, entry i at row i / 8, column i % 8. */
  type TableRow = r: seq<TableLevel> | |r| == 8 witness [0, 0, 0, 0, 0, 0, 0, 0]

  /** 16-bit PCM for A-law bytes 0 .. 127. */
  const ALawToPCM: seq<TableRow> := ALawRows0To7 + ALawRows8To15

  /** Rows 0 .. 7 of ALawToPCM. */
  const ALawRows0To7: seq<TableRow> := [
    [-5504, -5248, -6016, -5760, -4480, -4224, -4992, -4736],
    [-7552, -7296, -8064, -7808, -6528, -6272, -7040, -6784],
    [-2752, -2624, -3008, -2880, -2240, -2112, -2496, -2368],
    [-3776, -3648, -4032, -3904, -3264, -3136, -3520, -3392],
    [-22016, -20992, -24064, -23040, -17920, -16896, -19968, -18944],
    [-30208, -29184, -32256, -31232, -26112, -25088, -28160, -27136],
    [-11008, -10496, -12032, -11520, -8960, -8448, -9984, -9472],
    [-15104, -14592, -16128, -15616, -13056, -12544, -14080, -13568]
  ]

  /** Rows 8 .. 15 of ALawToPCM. */
  const ALawRows8To15: seq<TableRow> := [
    [-344, -328, -376, -360, -280, -264, -312, -296],
    [-472, -456, -504, -488, -408, -392, -440, -424],
    [-88, -72, -120, -104, -24, -8, -56, -40],
    [-216, -200, -248, -232, -152, -136, -184, -168],
    [-1376, -1312, -1504, -1440, -1120, -1056, -1248, -1184],
    [-1888, -1824, -2016, -1952, -1632, -1568, -1760, -1696],
    [-688, -656, -752, -720, -560, -528, -624, -592],
    [-944, -912, -1008, -976, -816, -784, -880, -848]
  ]

  /** 16-bit PCM for mu-law bytes 0 .. 127. */
  const ULawToPCM: seq<TableRow> := ULawRows0To7 + ULawRows8To15

  /** Rows 0 .. 7 of ULawToPCM. */
  const ULawRows0To7: seq<TableRow> := [
    [-32124, -31100, -30076, -29052, -28028, -27004, -25980, -24956],
    [-23932, -22908, -21884, -20860, -19836, -18812, -17788, -16764],
    [-15996, -15484, -14972, -14460, -13948, -13436, -12924, -12412],
    [-11900, -11388, -10876, -10364, -9852, -9340, -8828, -8316],
    [-7932, -7676, -7420, -7164, -6908, -6652, -6396, -6140],
    [-5884, -5628, -5372, -5116, -4860, -4604, -4348, -4092],
    [-3900, -3772, -3644, -3516, -3388, -3260, -3132, -3004],
    [-2876, -2748, -2620, -2492, -2364, -2236, -2108, -1980]
  ]

  /** Rows 8 .. 15 of ULawToPCM. */
  const ULawRows8To15: seq<TableRow> := [
    [-1884, -1820, -1756, -1692, -1628, -1564, -1500, -1436],
    [-1372, -1308, -1244, -1180, -1116, -1052, -988, -924],
    [-876, -844, -812, -780, -748, -716, -684, -652],
    [-620, -588, -556, -524, -492, -460, -428, -396],
    [-372, -356, -340, -324, -308, -292, -276, -260],
    [-244, -228, -212, -196, -180, -164, -148, -132],
    [-120, -112, -104, -96, -88, -80, -72, -64],
    [-56, -48, -40, -32, -24, -16, -8, -0]
  ]

  /** Entry `index` of the table the decoder uses: mu-law when asked for, A-law otherwise. */
  function TableEntry(useULaw: bool, index: nat): TableLevel
    requires index < 128
  {
    var rows := if useULaw then ULawToPCM else ALawToPCM;
    rows[index / 8][index % 8]
  }

  /** The sample for one input byte, through its signed (int8_t) reading. */
  function ExpandByte(useULaw: bool, byte: u8): (sample: i16)
    ensures byte < 0x80 ==> sample == TableEntry(useULaw, byte)
    ensures byte >= 0x80 ==> sample == -(TableEntry(useULaw, byte - 0x80) as int)
  {
    var b := AsInt8(byte);
    if b < 0 then -(TableEntry(useULaw, 128 + b) as int) else TableEntry(useULaw, b)
  }

  /** Reference definition: one sample per input byte, in input order. */
  function ExpandAll(useULaw: bool, data: seq<u8>): (samples: seq<i16>)
    ensures |samples| == |data|
  {
    if data == [] then [] else [ExpandByte(useULaw, data[0])] + ExpandAll(useULaw, data[1..])
  }

  lemma {:induction false} ExpandAllAt(useULaw: bool, data: seq<u8>, i: nat)
    requires i < |data|
    ensures ExpandAll(useULaw, data)[i] == ExpandByte(useULaw, data[i])
  {
    if i > 0 {
      ExpandAllAt(useULaw, data[1..], i - 1);
    }
  }

  /** The two halves of the byte range mirror each other with opposite sign. */
  lemma MirrorRule(useULaw: bool, byte: u8)
    requires byte < 0x80
    ensures ExpandByte(useULaw, byte + 0x80) == -(ExpandByte(useULaw, byte) as int)
  {
  }

  lemma KnownValues()
    ensures ExpandByte(false, 0x00) == -5504 && ExpandByte(false, 0x80) == 5504
    ensures ExpandByte(false, 0x7F) == -848 && ExpandByte(false, 0xFF) == 848
    ensures ExpandByte(true, 0x00) == -32124 && ExpandByte(true, 0x80) == 32124
    ensures ExpandByte(true, 0x7F) == 0 && ExpandByte(true, 0xFF) == 0
  {
  }

  /** One input byte per packet. */
  function EncodedSize(numPackets: u64): (size: u64)
    ensures size == numPackets
  {
    AsUint64(numPackets * 1)
  }

  /** Each packet decodes into a 2-byte sample (size_t arithmetic), the width BitsPerSample reports. */
  function DecodedSize(numPackets: u64): (size: u64)
    ensures numPackets < 0x8000_0000_0000_0000 ==> size == 2 * numPackets
    ensures numPackets < 0x8000_0000_0000_0000 ==> size == numPackets * (BitsPerSample / 8)
  {
    AsUint64(numPackets * 2)
  }

  const BitsPerSample: nat := 16

  /**
   * Expands every byte (the channel count is not used) and leaves the
   * samples, serialised little-endian, in the decoder's output buffer.
   */
  method Decode(decoder: Decoder, data: seq<u8>, numChannels: nat, useULaw: bool) returns (ok: bool)
    modifies decoder
    ensures ok
    ensures decoder.GetLittleEndianData() == LittleEndianSamples(ExpandAll(useULaw, data))
  {
    var decodedSamples := new i16[|data|];
    for i := 0 to |data|
      invariant forall j :: 0 <= j < i ==> decodedSamples[j] == ExpandByte(useULaw, data[j])
    {
      decodedSamples[i] := ExpandByte(useULaw, data[i]);
    }
    assert decodedSamples[..] == ExpandAll(useULaw, data) by {
      forall k | 0 <= k < |data|
        ensures decodedSamples[..][k] == ExpandAll(useULaw, data)[k]
      {
        ExpandAllAt(useULaw, data, k);
      }
    }
    decoder.SetLittleEndianData16(decodedSamples[..]);
    return true;
  }

  method ALawDecode(decoder: Decoder, data: seq<u8>, numChannels: nat) returns (ok: bool)
    modifies decoder
    ensures ok
    ensures decoder.GetLittleEndianData() == LittleEndianSamples(ExpandAll(false, data))
  {
    ok := Decode(decoder, data, numChannels, false);
  }

  method ULawDecode(decoder: Decoder, data: seq<u8>, numChannels: nat) returns (ok: bool)
    modifies decoder
    ensures ok
    ensures decoder.GetLittleEndianData() == LittleEndianSamples(ExpandAll(true, data))
  {
    ok := Decode(decoder, data, numChannels, true);
  }
}
