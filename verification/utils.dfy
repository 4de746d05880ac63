/**
 * The compile-time byte-order helpers: the build defines the machine as
 * little-endian, so big-endian conversions swap and little-endian ones are
 * the identity.
 */
module Utils {
  import opened Bytes
  import Endian

  const OnLittleEndianMachine: bool := true

  function MakeBigEndianNative(big: seq<u8>): (native: seq<u8>)
    ensures |native| == |big|
    ensures LittleEndianValue(native) == BigEndianValue(big)
  {
    if OnLittleEndianMachine then
      Endian.SwapEndianReadsBigAsLittle(big);
      Endian.SwapEndian(big)
    else
      big
  }

  function MakeLittleEndianNative(little: seq<u8>): (native: seq<u8>)
    ensures native == little
  {
    if OnLittleEndianMachine then little else Endian.SwapEndian(little)
  }

  function SafeBigEndian(native: seq<u8>): (big: seq<u8>)
    ensures |big| == |native|
    ensures BigEndianValue(big) == LittleEndianValue(native)
  {
    if OnLittleEndianMachine then
      Endian.SwapEndianReadsLittleAsBig(native);
      Endian.SwapEndian(native)
    else
      native
  }

  function SafeLittleEndian(native: seq<u8>): (little: seq<u8>)
    ensures little == native
  {
    if OnLittleEndianMachine then native else Endian.SwapEndian(native)
  }

  /** The compile-time helpers are the runtime ones on a little-endian host. */
  lemma AgreeWithLittleEndianHost(x: seq<u8>)
    ensures MakeBigEndianNative(x) == Endian.MakeBigEndianNative(true, x)
    ensures MakeLittleEndianNative(x) == Endian.MakeLittleEndianNative(true, x)
    ensures SafeBigEndian(x) == Endian.SafeBigEndian(true, x)
    ensures SafeLittleEndian(x) == Endian.SafeLittleEndian(true, x)
  {
  }

  lemma ConversionsAreInverse(x: seq<u8>)
    ensures SafeBigEndian(MakeBigEndianNative(x)) == x
    ensures MakeBigEndianNative(SafeBigEndian(x)) == x
    ensures MakeLittleEndianNative(x) == x && SafeLittleEndian(x) == x
  {
    Endian.SwapEndianInvolution(x);
  }
}
