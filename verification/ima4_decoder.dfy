/**
 * Apple IMA4 ADPCM: 34-byte packets, each a 16-bit header (predictor and step
 * index) followed by 32 bytes holding 64 4-bit codes, low nibble first.
 *
 * The pure part (tables, clamping, the one-code state step and the decoding
 * of whole packets) is the reference the stateful decoder class is proved
 * against.
 */
module IMA4Decoder {
  import opened Bytes

  const PacketLength: nat := 34

  /** How the step index moves after each 4-bit code. */
  const IndexTable: seq<int> := [
    -1, -1, -1, -1, 2, 4, 6, 8,
    -1, -1, -1, -1, 2, 4, 6, 8
  ]

  /** The quantiser step for each step index 0 .. 88. */
  const StepTable: seq<nat> := [
    7, 8, 9, 10, 11, 12, 13, 14, 16, 17,
    19, 21, 23, 25, 28, 31, 34, 37, 41, 45,
    50, 55, 60, 66, 73, 80, 88, 97, 107, 118,
    130, 143, 157, 173, 190, 209, 230, 253, 279, 307,
    337, 371, 408, 449, 494, 544, 598, 658, 724, 796,
    876, 963, 1060, 1166, 1282, 1411, 1552, 1707, 1878, 2066,
    2272, 2499, 2749, 3024, 3327, 3660, 4026, 4428, 4871, 5358,
    5894, 6484, 7132, 7845, 8630, 9493, 10442, 11487, 12635, 13899,
    15289, 16818, 18500, 20350, 22385, 24623, 27086, 29794, 32767
  ]

  type Nibble = x: nat | x < 16

  function Clamp(lo: int, value: int, hi: int): (r: int)
    ensures value < lo ==> r == lo
    ensures lo <= value <= hi ==> r == value
    ensures lo <= hi < value ==> r == hi
    ensures lo <= hi ==> lo <= r <= hi
  {
    if value < lo then lo else if value > hi then hi else value
  }

  /** Reads a 16-bit pattern as two's complement, from its 15 low bits and its sign bit. */
  function CastSigned16Bit(value: u16): (r: int)
    ensures r == AsInt16(value)
  {
    var positivePart := value % 0x8000;
    var isNegative := value / 0x8000 == 1;
    if isNegative then positivePart - 0x8000 else positivePart
  }

  /** Predictor and step index: everything the decoder carries from one code to the next. */
  datatype AdpcmState = AdpcmState(predictor: int, stepIndex: int)

  predicate StepIndexInRange(s: AdpcmState)
  {
    0 <= s.stepIndex <= 88
  }

  predicate ValidState(s: AdpcmState)
  {
    StepIndexInRange(s) && -0x8000 <= s.predictor <= 0x7FFF
  }

  /**
   * The signed difference a code adds to the predictor: bit 3 is the sign,
   * bits 0-2 the magnitude m, and the size is (m + 0.5) * step / 4 truncated,
   * which for these non-negative operands is ((2m + 1) * step) div 8.
   */
  function Diff(nibble: Nibble, step: nat): (diff: int)
    ensures nibble < 8 ==> diff >= 0
    ensures nibble >= 8 ==> diff <= 0
    ensures var size := if diff < 0 then -diff else diff; step / 8 <= size && 8 * size <= 15 * step
  {
    var magnitude := nibble % 8;
    var size := ((2 * magnitude + 1) * step) / 8;
    if nibble >= 8 then -size else size
  }

  /** The size of a difference as the IMA ADPCM recommendation computes it: one shifted step per magnitude bit. */
  function ReferenceSize(magnitude: nat, step: nat): nat
  {
    step / 8
      + (if (magnitude / 4) % 2 == 1 then step else 0)
      + (if (magnitude / 2) % 2 == 1 then step / 2 else 0)
      + (if magnitude % 2 == 1 then step / 4 else 0)
  }

  function ReferenceDiff(nibble: Nibble, step: nat): int
  {
    var size: int := ReferenceSize(nibble % 8, step);
    if nibble >= 8 then -size else size
  }

  /** The two agree in sign, and the magnitude computed here exceeds the reference by at most 2. */
  lemma DiffNearReference(nibble: Nibble, step: nat)
    ensures nibble < 8 ==> 0 <= Diff(nibble, step) - ReferenceDiff(nibble, step) <= 2
    ensures nibble >= 8 ==> 0 <= ReferenceDiff(nibble, step) - Diff(nibble, step) <= 2
  {
    MagnitudeGap(nibble % 8, step);
  }

  lemma MagnitudeGap(m: nat, step: nat)
    requires m < 8
    ensures 0 <= ((2 * m + 1) * step) / 8 - ReferenceSize(m, step) <= 2
  {
    if m == 0 {
    } else if m == 1 {
      assert (2 * m + 1) * step == 3 * step;
    } else if m == 2 {
      assert (2 * m + 1) * step == 5 * step;
    } else if m == 3 {
      assert (2 * m + 1) * step == 7 * step;
    } else if m == 4 {
      assert (2 * m + 1) * step == 9 * step;
    } else if m == 5 {
      assert (2 * m + 1) * step == 11 * step;
    } else if m == 6 {
      assert (2 * m + 1) * step == 13 * step;
    } else {
      assert (2 * m + 1) * step == 15 * step;
    }
  }

  /** One decoding step: the predictor moves by the code's difference, both values are clamped. */
  function NextState(s: AdpcmState, nibble: Nibble): (r: AdpcmState)
    requires StepIndexInRange(s)
    ensures ValidState(r)
  {
    var step := StepTable[s.stepIndex];
    var predictor := Clamp(-0x8000, s.predictor + Diff(nibble, step), 0x7FFF);
    var stepIndex := Clamp(0, s.stepIndex + IndexTable[nibble], 88);
    AdpcmState(predictor, stepIndex)
  }

  /** The state after a sequence of codes. */
  function Final(s: AdpcmState, codes: seq<Nibble>): (r: AdpcmState)
    requires StepIndexInRange(s)
    ensures StepIndexInRange(r)
    ensures codes != [] ==> ValidState(r)
  {
    if codes == [] then s else NextState(Final(s, codes[..|codes| - 1]), codes[|codes| - 1])
  }

  /** The samples a sequence of codes produces: the predictor after each code. */
  function Run(s: AdpcmState, codes: seq<Nibble>): (samples: seq<i16>)
    requires StepIndexInRange(s)
  {
    if codes == [] then [] else Run(s, codes[..|codes| - 1]) + [Final(s, codes).predictor]
  }

  lemma {:induction false} RunLength(s: AdpcmState, codes: seq<Nibble>)
    requires StepIndexInRange(s)
    ensures |Run(s, codes)| == |codes|
  {
    if codes != [] {
      RunLength(s, codes[..|codes| - 1]);
    }
  }

  /** Sample i is the predictor once codes 0 .. i have been applied. */
  lemma {:induction false} RunAt(s: AdpcmState, codes: seq<Nibble>, i: nat)
    requires StepIndexInRange(s) && i < |codes|
    ensures |Run(s, codes)| == |codes|
    ensures Run(s, codes)[i] == Final(s, codes[..i + 1]).predictor
  {
    RunLength(s, codes);
    if i < |codes| - 1 {
      var front := codes[..|codes| - 1];
      RunAt(s, front, i);
      assert front[..i + 1] == codes[..i + 1];
    } else {
      assert codes[..i + 1] == codes;
    }
  }

  /** The codes of the data bytes, low nibble then high nibble of each byte. */
  function Nibbles(payload: seq<u8>): (codes: seq<Nibble>)
    ensures |codes| == 2 * |payload|
  {
    if payload == [] then []
    else
      var last := payload[|payload| - 1];
      Nibbles(payload[..|payload| - 1]) + [last % 16, last / 16]
  }

  lemma {:induction false} NibblesAt(payload: seq<u8>, k: nat)
    requires k < |payload|
    ensures Nibbles(payload)[2 * k] == payload[k] % 16
    ensures Nibbles(payload)[2 * k + 1] == payload[k] / 16
  {
    if k < |payload| - 1 {
      NibblesAt(payload[..|payload| - 1], k);
    }
  }

  /** Appending two codes appends their two samples. */
  lemma RunAppendTwo(s: AdpcmState, codes: seq<Nibble>, lo: Nibble, hi: Nibble)
    requires StepIndexInRange(s)
    ensures Final(s, codes + [lo, hi]) == NextState(NextState(Final(s, codes), lo), hi)
    ensures Run(s, codes + [lo, hi])
      == Run(s, codes) + [NextState(Final(s, codes), lo).predictor, Final(s, codes + [lo, hi]).predictor]
  {
    var once := codes + [lo];
    RunAppendOne(s, codes, lo);
    RunAppendOne(s, once, hi);
    assert once + [hi] == codes + [lo, hi];
  }

  /** Appending one code applies one step and appends the predictor it leaves. */
  lemma RunAppendOne(s: AdpcmState, codes: seq<Nibble>, code: Nibble)
    requires StepIndexInRange(s)
    ensures Final(s, codes + [code]) == NextState(Final(s, codes), code)
    ensures Run(s, codes + [code]) == Run(s, codes) + [Final(s, codes + [code]).predictor]
  {
    assert (codes + [code])[..|codes|] == codes;
  }

  lemma NibblesAppend(payload: seq<u8>, n: nat)
    requires n < |payload|
    ensures Nibbles(payload[..n + 1]) == Nibbles(payload[..n]) + [payload[n] % 16, payload[n] / 16]
  {
    assert payload[..n + 1][..n] == payload[..n];
  }

  /** Decoding one more payload byte applies its low code, then its high code. */
  lemma PayloadStep(s: AdpcmState, payload: seq<u8>, n: nat)
    requires StepIndexInRange(s) && n < |payload|
    ensures Final(s, Nibbles(payload[..n + 1]))
      == NextState(NextState(Final(s, Nibbles(payload[..n])), payload[n] % 16), payload[n] / 16)
    ensures Run(s, Nibbles(payload[..n + 1]))
      == Run(s, Nibbles(payload[..n]))
        + [NextState(Final(s, Nibbles(payload[..n])), payload[n] % 16).predictor,
           Final(s, Nibbles(payload[..n + 1])).predictor]
  {
    NibblesAppend(payload, n);
    RunAppendTwo(s, Nibbles(payload[..n]), payload[n] % 16, payload[n] / 16);
  }

  /** The state a packet header sets: the top 9 bits as a signed predictor, the low 7 bits as step index. */
  function HeaderState(header: u16): (s: AdpcmState)
    ensures ValidState(s)
  {
    var stepIndex := Clamp(0, header % 0x80, 88);
    var predictor := CastSigned16Bit(header - header % 0x80);
    AdpcmState(predictor, stepIndex)
  }

  function PacketHeader(packet: seq<u8>): u16
    requires |packet| == PacketLength
  {
    Pow256Widths();
    BigEndianValue(packet[..2])
  }

  /** The 64 samples of one packet. */
  function PacketSamples(packet: seq<u8>): seq<i16>
    requires |packet| == PacketLength
  {
    Run(HeaderState(PacketHeader(packet)), Nibbles(packet[2..]))
  }

  function PacketFinalState(packet: seq<u8>): (s: AdpcmState)
    requires |packet| == PacketLength
  {
    Final(HeaderState(PacketHeader(packet)), Nibbles(packet[2..]))
  }

  lemma PacketSamplesLength(packet: seq<u8>)
    requires |packet| == PacketLength
    ensures |PacketSamples(packet)| == 64
  {
    RunLength(HeaderState(PacketHeader(packet)), Nibbles(packet[2..]));
  }

  /** Left and right samples alternate, left first. */
  function Interleave(left: seq<i16>, right: seq<i16>): (r: seq<i16>)
    requires |left| == |right|
  {
    if left == [] then [] else [left[0], right[0]] + Interleave(left[1..], right[1..])
  }

  lemma {:induction false} InterleaveAt(left: seq<i16>, right: seq<i16>, i: nat)
    requires |left| == |right| && i < |left|
    ensures |Interleave(left, right)| == 2 * |left|
    ensures Interleave(left, right)[2 * i] == left[i] && Interleave(left, right)[2 * i + 1] == right[i]
  {
    InterleaveLength(left, right);
    if i > 0 {
      InterleaveAt(left[1..], right[1..], i - 1);
    }
  }

  lemma {:induction false} InterleaveLength(left: seq<i16>, right: seq<i16>)
    requires |left| == |right|
    ensures |Interleave(left, right)| == 2 * |left|
  {
    if left != [] {
      InterleaveLength(left[1..], right[1..]);
    }
  }

  /** The interleaving loop of the stereo decoder: sample i of each channel goes to slots 2i and 2i + 1. */
  method InterleaveSamples(leftSamples: seq<i16>, rightSamples: seq<i16>) returns (stereoSamples: seq<i16>)
    requires |leftSamples| == |rightSamples|
    ensures stereoSamples == Interleave(leftSamples, rightSamples)
  {
    var stereo := new i16[|leftSamples| + |rightSamples|](_ => 0);
    for i := 0 to |leftSamples|
      invariant forall j :: 0 <= j < i ==> stereo[2 * j] == leftSamples[j] && stereo[2 * j + 1] == rightSamples[j]
    {
      stereo[i * 2] := leftSamples[i];
      stereo[i * 2 + 1] := rightSamples[i];
    }
    stereoSamples := stereo[..];
    InterleaveLength(leftSamples, rightSamples);
    forall k | 0 <= k < |stereoSamples|
      ensures stereoSamples[k] == Interleave(leftSamples, rightSamples)[k]
    {
      InterleaveAt(leftSamples, rightSamples, k / 2);
    }
  }

  /** How many packets the mono loop decodes: those whose end lies strictly before the end of the data. */
  function MonoPacketCount(size: nat): nat
  {
    if size <= PacketLength then 0 else (size - PacketLength - 1) / PacketLength + 1
  }

  /** How many packet pairs the stereo loop decodes. */
  function StereoPairCount(size: nat): nat
  {
    if size <= 2 * PacketLength then 0 else (size - 2 * PacketLength - 1) / (2 * PacketLength) + 1
  }

  /** Packet k is decoded exactly when the loop bound, start < size - 34, admits its start. */
  lemma MonoPacketCountIsLoopBound(size: nat, k: nat)
    ensures k < MonoPacketCount(size) <==> 34 * k < size - 34
    ensures 34 * MonoPacketCount(size) <= size
  {
  }

  lemma StereoPairCountIsLoopBound(size: nat, k: nat)
    ensures k < StereoPairCount(size) <==> 68 * k < size - 68
    ensures 68 * StereoPairCount(size) <= size
  {
  }

  /** The samples of the mono packet starting at byte i. */
  function MonoPacketAt(data: seq<u8>, i: nat): seq<i16>
    requires i + PacketLength <= |data|
  {
    PacketSamples(data[i..i + PacketLength])
  }

  /** The samples of the first k mono packets. */
  function MonoSamples(data: seq<u8>, k: nat): seq<i16>
    requires 34 * k <= |data|
  {
    if k == 0 then [] else MonoSamples(data, k - 1) + MonoPacketAt(data, 34 * (k - 1))
  }

  /** The samples of a left and a right packet, interleaved. */
  function PairSamples(left: seq<u8>, right: seq<u8>): (samples: seq<i16>)
    requires |left| == PacketLength && |right| == PacketLength
    ensures |samples| == 128
  {
    PacketSamplesLength(left);
    PacketSamplesLength(right);
    InterleaveLength(PacketSamples(left), PacketSamples(right));
    Interleave(PacketSamples(left), PacketSamples(right))
  }

  /** The samples of the packet pair starting at byte i, left packet first. */
  function StereoPairAt(data: seq<u8>, i: nat): seq<i16>
    requires i + 2 * PacketLength <= |data|
  {
    PairSamples(data[i..i + PacketLength], data[i + PacketLength..i + 2 * PacketLength])
  }

  /** The samples of the first k stereo packet pairs. */
  function StereoSamples(data: seq<u8>, k: nat): (samples: seq<i16>)
    requires 68 * k <= |data|
    ensures |samples| == 128 * k
  {
    if k == 0 then [] else StereoSamples(data, k - 1) + StereoPairAt(data, 68 * (k - 1))
  }

  /** Reference definition of the whole decode: mono, stereo, or nothing for other channel counts. */
  function DecodedSamples(data: seq<u8>, numChannels: nat): (samples: seq<i16>)
    ensures numChannels == 1 ==> |samples| == 64 * MonoPacketCount(|data|)
    ensures numChannels == 2 ==> |samples| == 128 * StereoPairCount(|data|)
    ensures numChannels != 1 && numChannels != 2 ==> samples == []
  {
    MonoPacketCountIsLoopBound(|data|, 0);
    StereoPairCountIsLoopBound(|data|, 0);
    if numChannels == 1 then
      MonoSamplesLength(data, MonoPacketCount(|data|));
      MonoSamples(data, MonoPacketCount(|data|))
    else if numChannels == 2 then
      StereoSamples(data, StereoPairCount(|data|))
    else []
  }

  lemma {:induction false} MonoSamplesLength(data: seq<u8>, k: nat)
    requires 34 * k <= |data|
    ensures |MonoSamples(data, k)| == 64 * k
  {
    if k > 0 {
      var i := 34 * (k - 1);
      MonoSamplesLength(data, k - 1);
      PacketSamplesLength(data[i..i + PacketLength]);
      assert |MonoPacketAt(data, i)| == 64;
    }
  }

  /** Input made of m whole mono packets yields the samples of only the first m - 1. */
  lemma LastMonoPacketSkipped(data: seq<u8>, m: nat)
    requires m >= 1 && |data| == 34 * m
    ensures MonoPacketCount(|data|) == m - 1
    ensures |DecodedSamples(data, 1)| == 64 * (m - 1)
  {
    MonoSamplesLength(data, m - 1);
  }

  lemma OnlyMonoAndStereo(data: seq<u8>, numChannels: nat)
    requires numChannels != 1 && numChannels != 2
    ensures DecodedSamples(data, numChannels) == []
  {
  }

  /** The IMA4 decoder: its predictor and step index persist from one code to the next. */
  class IMA4Decoder {
    var stepIndex: int
    var predictor: int

    function State(): AdpcmState
      reads this
    {
      AdpcmState(predictor, stepIndex)
    }

    constructor ()
      ensures State() == AdpcmState(0, 0)
    {
      stepIndex := 0;
      predictor := 0;
    }

    /** Decodes one code (only its low 4 bits count) and returns the new predictor. */
    method ProcessNibble(nibble: u8) returns (sample: i16)
      requires StepIndexInRange(State())
      modifies this
      ensures State() == NextState(old(State()), nibble % 16)
      ensures sample == predictor
    {
      var code := nibble % 16;
      var nibbleMagnitude := code % 8;
      var isNegative := code / 8 == 1;
      var step := StepTable[stepIndex];
      var diff := ((2 * nibbleMagnitude + 1) * step) / 8;
      if isNegative {
        diff := -diff;
      }
      predictor := predictor + diff;
      predictor := Clamp(-0x8000, predictor, 0x7FFF);
      stepIndex := stepIndex + IndexTable[code];
      stepIndex := Clamp(0, stepIndex, 88);
      return predictor;
    }

    /** Decodes the data bytes of a packet from the current state, low code first in each byte. */
    method DecodeBytes(payload: seq<u8>) returns (samples: seq<i16>)
      requires StepIndexInRange(State())
      modifies this
      ensures samples == Run(old(State()), Nibbles(payload))
      ensures State() == Final(old(State()), Nibbles(payload))
    {
      ghost var start := State();
      samples := [];
      for i := 0 to |payload|
        invariant StepIndexInRange(State())
        invariant samples == Run(start, Nibbles(payload[..i]))
        invariant State() == Final(start, Nibbles(payload[..i]))
      {
        var lowNibble: Nibble := payload[i] % 16;
        var highNibble: Nibble := payload[i] / 16;
        assert lowNibble % 16 == lowNibble && highNibble % 16 == highNibble;
        var sample1 := ProcessNibble(lowNibble);
        var sample2 := ProcessNibble(highNibble);
        samples := samples + [sample1, sample2];
        PayloadStep(start, payload, i);
      }
      assert payload[..|payload|] == payload;
    }

    /** Decodes the 34-byte packet `frame`; the old state plays no part. */
    method DecodeFrame(frame: seq<u8>) returns (samples: seq<i16>)
      requires |frame| == PacketLength
      modifies this
      ensures samples == PacketSamples(frame)
      ensures State() == PacketFinalState(frame)
    {
      Pow256Widths();
      var header: u16 := BigEndianValue(frame[..2]);
      stepIndex := header % 0x80;
      stepIndex := Clamp(0, stepIndex, 88);
      predictor := CastSigned16Bit(header - header % 0x80);
      assert State() == HeaderState(PacketHeader(frame));
      samples := DecodeBytes(frame[2..]);
    }

    /** Decodes a left and a right packet and interleaves their samples, left first. */
    method DecodeStereoFrame(leftFrame: seq<u8>, rightFrame: seq<u8>) returns (stereoSamples: seq<i16>)
      requires |leftFrame| == PacketLength && |rightFrame| == PacketLength
      modifies this
      ensures stereoSamples == PairSamples(leftFrame, rightFrame)
      ensures State() == PacketFinalState(rightFrame)
    {
      var leftSamples := DecodeFrame(leftFrame);
      var rightSamples := DecodeFrame(rightFrame);
      PacketSamplesLength(leftFrame);
      PacketSamplesLength(rightFrame);
      stereoSamples := InterleaveSamples(leftSamples, rightSamples);
    }

    /** One pass of the mono loop: the packet at byte i = 34k extends the samples of the first k packets. */
    method DecodeNextPacket(data: seq<u8>, i: nat, ghost k: nat, decodedSamples: seq<i16>) returns (extended: seq<i16>)
      requires i == 34 * k && i + PacketLength <= |data|
      requires decodedSamples == MonoSamples(data, k)
      modifies this
      ensures extended == MonoSamples(data, k + 1)
    {
      var samples := DecodeFrame(data[i..i + PacketLength]);
      assert samples == MonoPacketAt(data, i);
      extended := decodedSamples + samples;
    }

    /** The mono loop: one packet at a time while its start lies before size - 34. */
    method DecodeMono(data: seq<u8>) returns (decodedSamples: seq<i16>)
      modifies this
      ensures decodedSamples == MonoSamples(data, MonoPacketCount(|data|))
    {
      decodedSamples := [];
      var i := 0;
      ghost var k := 0;
      MonoPacketCountIsLoopBound(|data|, k);
      while i < |data| - PacketLength
        invariant i == 34 * k && k <= MonoPacketCount(|data|)
        invariant decodedSamples == MonoSamples(data, k)
      {
        MonoPacketCountIsLoopBound(|data|, k);
        decodedSamples := DecodeNextPacket(data, i, k, decodedSamples);
        i, k := i + PacketLength, k + 1;
      }
      MonoPacketCountIsLoopBound(|data|, k);
      assert k == MonoPacketCount(|data|);
    }

    /** One pass of the stereo loop: the pair at byte i = 68k extends the samples of the first k pairs. */
    method DecodeNextPair(data: seq<u8>, i: nat, ghost k: nat, decodedSamples: seq<i16>) returns (extended: seq<i16>)
      requires i == 68 * k && i + 2 * PacketLength <= |data|
      requires decodedSamples == StereoSamples(data, k)
      modifies this
      ensures extended == StereoSamples(data, k + 1)
    {
      var stereoSamples := DecodeStereoFrame(data[i..i + PacketLength], data[i + PacketLength..i + 2 * PacketLength]);
      assert stereoSamples == StereoPairAt(data, i);
      extended := decodedSamples + stereoSamples;
    }

    /** The stereo loop: one packet pair at a time while its start lies before size - 68. */
    method DecodeStereo(data: seq<u8>) returns (decodedSamples: seq<i16>)
      modifies this
      ensures decodedSamples == StereoSamples(data, StereoPairCount(|data|))
    {
      decodedSamples := [];
      var i := 0;
      ghost var k := 0;
      StereoPairCountIsLoopBound(|data|, k);
      while i < |data| - 2 * PacketLength
        invariant i == 68 * k && k <= StereoPairCount(|data|)
        invariant decodedSamples == StereoSamples(data, k)
      {
        StereoPairCountIsLoopBound(|data|, k);
        decodedSamples := DecodeNextPair(data, i, k, decodedSamples);
        i, k := i + 2 * PacketLength, k + 1;
      }
      StereoPairCountIsLoopBound(|data|, k);
      assert k == StereoPairCount(|data|);
    }

    /**
     * Decodes mono or stereo packets in order; any other channel count gives
     * no samples. `warning` is set when the size is not a whole number of
     * packets (or, for stereo, of packet pairs).
     */
    method Decode(data: seq<u8>, numChannels: nat) returns (decodedSamples: seq<i16>, warning: bool)
      modifies this
      ensures decodedSamples == DecodedSamples(data, numChannels)
      ensures warning <==> |data| % 34 != 0 || (numChannels == 2 && |data| % 68 != 0)
    {
      decodedSamples := [];
      warning := |data| % 34 != 0 || (numChannels == 2 && |data| % 68 != 0);
      if numChannels != 1 && numChannels != 2 {
        return;
      }
      if numChannels == 1 {
        decodedSamples := DecodeMono(data);
      } else {
        decodedSamples := DecodeStereo(data);
      }
    }
  }
}
