/**
 * Fixed-width integers and their byte-level readings.
 *
 * The C++ types uint8_t … uint64_t and int8_t … int32_t become subset types of
 * `int`; conversions between them that the source performs implicitly
 * (two's-complement reinterpretation, wrap-around into an unsigned type,
 * truncating division) are written out here once.
 */
module Bytes {
  type u8 = x: int | 0 <= x < 0x100
  type u16 = x: int | 0 <= x < 0x1_0000
  type u32 = x: int | 0 <= x < 0x1_0000_0000
  type u64 = x: int | 0 <= x < 0x1_0000_0000_0000_0000
  type i8 = x: int | -0x80 <= x < 0x80
  type i16 = x: int | -0x8000 <= x < 0x8000
  type i32 = x: int | -0x8000_0000 <= x < 0x8000_0000

  /** 256 to the power n: one more than the largest value n bytes hold. */
  function Pow256(n: nat): (r: nat)
    ensures r >= 1
  {
    if n == 0 then 1 else 256 * Pow256(n - 1)
  }

  lemma Pow256Widths()
    ensures Pow256(1) == 0x100 && Pow256(2) == 0x1_0000
    ensures Pow256(4) == 0x1_0000_0000 && Pow256(8) == 0x1_0000_0000_0000_0000
  {
  }

  /** The value of bytes read most significant first. */
  function BigEndianValue(s: seq<u8>): (v: nat)
    ensures v < Pow256(|s|)
  {
    if s == [] then 0 else BigEndianValue(s[..|s| - 1]) * 256 + s[|s| - 1]
  }

  /** The value of bytes read least significant first. */
  function LittleEndianValue(s: seq<u8>): (v: nat)
    ensures v < Pow256(|s|)
  {
    if s == [] then 0 else s[0] + 256 * LittleEndianValue(s[1..])
  }

  /** The `width` low-order bytes of v, most significant first. */
  function BigEndianBytes(v: nat, width: nat): (r: seq<u8>)
    ensures |r| == width
  {
    if width == 0 then [] else BigEndianBytes(v / 256, width - 1) + [v % 256]
  }

  /** The `width` low-order bytes of v, least significant first. */
  function LittleEndianBytes(v: nat, width: nat): (r: seq<u8>)
    ensures |r| == width
  {
    if width == 0 then [] else [v % 256] + LittleEndianBytes(v / 256, width - 1)
  }

  function Zeros(n: nat): (r: seq<u8>)
    ensures |r| == n && forall i :: 0 <= i < n ==> r[i] == 0
  {
    seq(n, _ => 0)
  }

  lemma {:induction false} BigEndianRoundTrip(v: nat, width: nat)
    requires v < Pow256(width)
    ensures BigEndianValue(BigEndianBytes(v, width)) == v
  {
    if width > 0 {
      var front := BigEndianBytes(v / 256, width - 1);
      BigEndianRoundTrip(v / 256, width - 1);
      assert BigEndianBytes(v, width)[..width - 1] == front;
    }
  }

  lemma {:induction false} BigEndianBytesOfValue(s: seq<u8>)
    ensures BigEndianBytes(BigEndianValue(s), |s|) == s
  {
    if s != [] {
      var front := s[..|s| - 1];
      ByteDivMod(s[|s| - 1], BigEndianValue(front));
      BigEndianBytesOfValue(front);
      assert s == front + [s[|s| - 1]];
    }
  }

  lemma {:induction false} LittleEndianRoundTrip(v: nat, width: nat)
    requires v < Pow256(width)
    ensures LittleEndianValue(LittleEndianBytes(v, width)) == v
  {
    if width > 0 {
      var rest := LittleEndianBytes(v / 256, width - 1);
      LittleEndianRoundTrip(v / 256, width - 1);
      assert LittleEndianBytes(v, width)[1..] == rest;
    }
  }

  lemma {:induction false} LittleEndianBytesOfValue(s: seq<u8>)
    ensures LittleEndianBytes(LittleEndianValue(s), |s|) == s
  {
    if s != [] {
      var high := LittleEndianValue(s[1..]);
      ByteDivMod(s[0], high);
      LittleEndianBytesOfValue(s[1..]);
      assert s == [s[0]] + s[1..];
    }
  }

  /** A low byte and the value above it are recovered by % 256 and / 256. */
  lemma ByteDivMod(low: u8, high: nat)
    ensures (low + 256 * high) % 256 == low && (low + 256 * high) / 256 == high
  {
  }

  /** Leading zero bytes do not change a big-endian value. */
  lemma {:induction false} BigEndianZeroPrefix(n: nat, s: seq<u8>)
    ensures BigEndianValue(Zeros(n) + s) == BigEndianValue(s)
  {
    if s == [] {
      assert Zeros(n) + s == Zeros(n);
      BigEndianOfZeros(n);
    } else {
      var front := s[..|s| - 1];
      assert (Zeros(n) + s)[..n + |s| - 1] == Zeros(n) + front;
      BigEndianZeroPrefix(n, front);
    }
  }

  lemma {:induction false} BigEndianOfZeros(n: nat)
    ensures BigEndianValue(Zeros(n)) == 0
  {
    if n > 0 {
      assert Zeros(n)[..n - 1] == Zeros(n - 1);
      BigEndianOfZeros(n - 1);
    }
  }

  lemma DoubleIsEven(n: nat)
    ensures (2 * n) % 2 == 0
  {
  }

  /**
   * Sixteen-bit frames: numFrames * 16 / 8 * channels and numFrames * 2 *
   * channels, each in 32-bit int arithmetic then as size_t, are both the
   * exact product when it fits.
   */
  lemma SixteenBitLengths(frames: int, channels: int)
    requires 0 <= frames && 0 <= channels
    requires frames * 16 < 0x8000_0000 && frames * 2 * channels < 0x8000_0000
    ensures AsUint64(Wrap32(TruncDiv(Wrap32(frames * 16), 8) * channels)) == frames * 2 * channels
    ensures AsUint64(Wrap32(Wrap32(frames * 2) * channels)) == frames * 2 * channels
  {
    assert Wrap32(frames * 16) == frames * 16;
    assert TruncDiv(frames * 16, 8) == frames * 2;
    assert Wrap32(frames * 2) == frames * 2;
    assert 0 <= frames * 2 * channels;
  }

  /**
   * Eight-bit frames: numFrames * 8 / 8 * channels is numFrames * channels,
   * and numFrames * 2 * channels twice that, when the products fit.
   */
  lemma EightBitLengths(frames: int, channels: int)
    requires 0 <= frames && 0 <= channels
    requires frames * 8 < 0x8000_0000 && frames * 2 * channels < 0x8000_0000
    ensures AsUint64(Wrap32(TruncDiv(Wrap32(frames * 8), 8) * channels)) == frames * channels
    ensures AsUint64(Wrap32(Wrap32(frames * 2) * channels)) == 2 * (frames * channels)
  {
    var product := frames * channels;
    assert frames * 2 * channels == 2 * product;
    assert 0 <= product;
    assert Wrap32(frames * 8) == frames * 8;
    assert TruncDiv(frames * 8, 8) == frames;
    assert Wrap32(frames * 2) == frames * 2;
  }

  lemma ProductWithTwoIsEven(a: int, b: int)
    ensures (a * 2 * b) % 2 == 0
  {
    assert a * 2 * b == 2 * (a * b);
  }

  /** Adding a multiple of 2^32 does not change the low 32 bits. */
  lemma ShiftMod32(x: int, q: int)
    ensures AsUint32(x + q * 0x1_0000_0000) == AsUint32(x)
  {
    var m := 0x1_0000_0000;
    var r := x % m;
    assert x == (x / m) * m + r;
    assert x + q * m == (x / m + q) * m + r;
  }

  /** Truncating to 64 bits, then to 32, is truncating to 32. */
  lemma TruncationOfTruncation(x: int)
    ensures AsUint32(AsUint64(x)) == AsUint32(x)
  {
    var q := x / 0x1_0000_0000_0000_0000;
    assert AsUint64(x) == x + (-q * 0x1_0000_0000) * 0x1_0000_0000;
    ShiftMod32(x, -q * 0x1_0000_0000);
  }

  /** Truncating to 32 bits, then to 16, is truncating to 16. */
  lemma NarrowingOfTruncation(x: int)
    ensures AsUint16(AsUint32(x)) == AsUint16(x)
  {
    var m := 0x1_0000;
    var q := x / 0x1_0000_0000;
    var r := x % m;
    assert x == (x / m) * m + r;
    assert AsUint32(x) == (x / m - q * m) * m + r;
  }

  /**
   * The byte rate and block alignment of 8- or 16-bit samples computed in
   * 32-bit unsigned arithmetic: exact when the products fit.
   */
  lemma RateArithmetic(rate: int, channels: int, bits: int)
    requires 0 <= rate && 0 <= channels && (bits == 8 || bits == 16)
    requires rate * channels * bits < 0x1_0000_0000 && channels * bits < 0x8_0000
    ensures AsUint32(channels * bits) / 8 * 8 == channels * bits
    ensures AsUint16(AsUint32(channels * bits) / 8) == AsUint32(channels * bits) / 8
    ensures AsUint32(AsUint32(rate * channels) * bits) / 8 == rate * (AsUint32(channels * bits) / 8)
  {
    if bits == 8 {
      EightBitRates(rate, channels);
    } else {
      SixteenBitRates(rate, channels);
    }
  }

  lemma EightBitRates(rate: int, channels: int)
    requires 0 <= rate && 0 <= channels
    requires rate * channels * 8 < 0x1_0000_0000 && channels * 8 < 0x8_0000
    ensures AsUint32(channels * 8) / 8 == channels
    ensures AsUint32(AsUint32(rate * channels) * 8) / 8 == rate * channels
  {
    var product := rate * channels;
    assert 0 <= product && product * 8 < 0x1_0000_0000;
    assert AsUint32(product) == product;
    assert AsUint32(product * 8) == product * 8;
    assert AsUint32(channels * 8) == channels * 8;
  }

  lemma SixteenBitRates(rate: int, channels: int)
    requires 0 <= rate && 0 <= channels
    requires rate * channels * 16 < 0x1_0000_0000 && channels * 16 < 0x8_0000
    ensures AsUint32(channels * 16) / 8 == channels * 2
    ensures AsUint32(AsUint32(rate * channels) * 16) / 8 == rate * (channels * 2)
  {
    var product := rate * channels;
    assert 0 <= product && product * 16 < 0x1_0000_0000;
    assert AsUint32(product) == product;
    assert AsUint32(product * 16) == product * 16;
    assert AsUint32(channels * 16) == channels * 16;
    assert rate * (channels * 2) == product * 2;
  }

  /** The low 32 bits of a sum depend only on the low 32 bits of its second term. */
  lemma TruncatedSum(a: int, b: int)
    ensures AsUint32(a + b) == AsUint32(a + AsUint32(b))
  {
    var q := b / 0x1_0000_0000;
    assert a + b == (a + AsUint32(b)) + q * 0x1_0000_0000;
    ShiftMod32(a + AsUint32(b), q);
  }

  /** The low 32 bits of a product depend only on the low 32 bits of its first factor. */
  lemma TruncatedProduct(x: int, c: int)
    ensures AsUint32(x * c) == AsUint32(AsUint32(x) * c)
  {
    var q := x / 0x1_0000_0000;
    assert x * c == AsUint32(x) * c + (q * c) * 0x1_0000_0000;
    ShiftMod32(AsUint32(x) * c, q * c);
  }

  /**
   * The product a * k * c computed in 32-bit int arithmetic, each step
   * wrapping, then widened to 64 bits: its low 32 bits are those of the
   * exact product, and a product whose steps fit is exact.
   */
  lemma WrappedProduct(a: int, k: int, c: int)
    ensures AsUint32(AsUint64(Wrap32(Wrap32(a * k) * c))) == AsUint32(a * k * c)
    ensures -0x8000_0000 <= a * k < 0x8000_0000 && 0 <= a * k * c < 0x8000_0000 ==>
      AsUint64(Wrap32(Wrap32(a * k) * c)) == a * k * c
  {
    var x := Wrap32(a * k);
    var y := Wrap32(x * c);
    TruncationOfTruncation(y);
    TruncatedProduct(x, c);
    TruncatedProduct(a * k, c);
  }

  /** The two's-complement reading of an 8-bit pattern. */
  function AsInt8(v: u8): (r: i8)
    ensures r < 0 <==> v >= 0x80
    ensures r % 0x100 == v
  {
    if v < 0x80 then v else v - 0x100
  }

  /** The two's-complement reading of a 16-bit pattern. */
  function AsInt16(v: u16): (r: i16)
    ensures r < 0 <==> v >= 0x8000
    ensures r % 0x1_0000 == v
  {
    if v < 0x8000 then v else v - 0x1_0000
  }

  /** The two's-complement reading of a 32-bit pattern. */
  function AsInt32(v: u32): (r: i32)
    ensures r < 0 <==> v >= 0x8000_0000
    ensures r % 0x1_0000_0000 == v
  {
    if v < 0x8000_0000 then v else v - 0x1_0000_0000
  }

  /** Conversion of any integer to uint8_t: reduction modulo 2^8. */
  function AsUint8(x: int): u8 { x % 0x100 }

  /** Conversion of any integer to uint16_t: reduction modulo 2^16. */
  function AsUint16(x: int): u16 { x % 0x1_0000 }

  /** Conversion of any integer to uint32_t (unsigned): reduction modulo 2^32. */
  function AsUint32(x: int): u32 { x % 0x1_0000_0000 }

  /** Conversion of any integer to uint64_t / size_t: reduction modulo 2^64. */
  function AsUint64(x: int): u64 { x % 0x1_0000_0000_0000_0000 }

  /**
   * The int result of a signed computation that may overflow, taken as the
   * two's-complement wrap-around the target machine performs.
   */
  function Wrap32(x: int): (r: i32)
    ensures r % 0x1_0000_0000 == x % 0x1_0000_0000
    ensures -0x8000_0000 <= x < 0x8000_0000 ==> r == x
  {
    AsInt32(AsUint32(x))
  }

  /**
   * C's integer division, which truncates toward zero: a non-negative
   * dividend rounds down, a negative one rounds up, and a non-zero quotient
   * has the dividend's sign.
   */
  function TruncDiv(a: int, d: int): (q: int)
    requires d > 0
    ensures a >= 0 ==> q * d <= a < q * d + d
    ensures a < 0 ==> q * d - d < a <= q * d
    ensures q == 0 || (q < 0 <==> a < 0)
  {
    if a >= 0 then a / d else -((-a) / d)
  }

  lemma SignedRoundTrips(x: i32, y: i16, z: i8)
    ensures AsInt32(AsUint32(x)) == x && AsInt16(AsUint16(y)) == y && AsInt8(AsUint8(z)) == z
  {
  }
}
