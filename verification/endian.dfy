/**
 * Byte-order conversion selected by a host flag (the SndToWAV class helpers).
 *
 * A value of a fixed-width type is represented by its bytes as they lie in
 * the host's memory; `NativeValue` says which integer a host sees in them.
 * `littleHost` plays the part of the runtime flag that records whether the
 * machine is little-endian.
 */
module Endian {
  import opened Bytes

  /** The bytes of a value in reverse order (the byte-by-byte copy loop). */
  function SwapEndian(s: seq<u8>): (r: seq<u8>)
  {
    seq(|s|, k requires 0 <= k < |s| => s[|s| - 1 - k])
  }

  /** Reversing the bytes turns a big-endian reading into a little-endian one. */
  lemma {:induction false} SwapEndianReadsBigAsLittle(s: seq<u8>)
    ensures |SwapEndian(s)| == |s|
    ensures LittleEndianValue(SwapEndian(s)) == BigEndianValue(s)
  {
    if s != [] {
      var front := s[..|s| - 1];
      assert SwapEndian(s)[1..] == SwapEndian(front);
      SwapEndianReadsBigAsLittle(front);
    }
  }

  lemma SwapEndianInvolution(s: seq<u8>)
    ensures SwapEndian(SwapEndian(s)) == s
  {
  }

  lemma SwapEndianReadsLittleAsBig(s: seq<u8>)
    ensures BigEndianValue(SwapEndian(s)) == LittleEndianValue(s)
  {
    SwapEndianReadsBigAsLittle(SwapEndian(s));
    SwapEndianInvolution(s);
  }

  /** The integer a host sees in the bytes `mem` of a value in its memory. */
  function NativeValue(littleHost: bool, mem: seq<u8>): nat
  {
    if littleHost then LittleEndianValue(mem) else BigEndianValue(mem)
  }

  /** The bytes a host stores for value v in a variable of `width` bytes. */
  function NativeBytes(littleHost: bool, v: nat, width: nat): (mem: seq<u8>)
    requires v < Pow256(width)
    ensures |mem| == width
    ensures NativeValue(littleHost, mem) == v
  {
    if littleHost then
      LittleEndianRoundTrip(v, width);
      LittleEndianBytes(v, width)
    else
      BigEndianRoundTrip(v, width);
      BigEndianBytes(v, width)
  }

  /** Bytes that arrived big-endian, rearranged so that the host reads their value. */
  function MakeBigEndianNative(littleHost: bool, big: seq<u8>): (native: seq<u8>)
    ensures |native| == |big|
  {
    if littleHost then SwapEndian(big) else big
  }

  /** Bytes that arrived little-endian, rearranged so that the host reads their value. */
  function MakeLittleEndianNative(littleHost: bool, little: seq<u8>): (native: seq<u8>)
    ensures |native| == |little|
  {
    if littleHost then little else SwapEndian(little)
  }

  /** A host value rearranged into big-endian byte order. */
  function SafeBigEndian(littleHost: bool, native: seq<u8>): (big: seq<u8>)
    ensures |big| == |native|
  {
    if littleHost then SwapEndian(native) else native
  }

  /** A host value rearranged into little-endian byte order. */
  function SafeLittleEndian(littleHost: bool, native: seq<u8>): (little: seq<u8>)
    ensures |little| == |native|
  {
    if littleHost then native else SwapEndian(native)
  }

  /**
   * Each conversion does its job: the host reads in the native bytes the
   * value the input encodes, and the output encodes the value the host read.
   */
  lemma ConversionsPreserveValue(littleHost: bool, x: seq<u8>)
    ensures NativeValue(littleHost, MakeBigEndianNative(littleHost, x)) == BigEndianValue(x)
    ensures NativeValue(littleHost, MakeLittleEndianNative(littleHost, x)) == LittleEndianValue(x)
    ensures BigEndianValue(SafeBigEndian(littleHost, x)) == NativeValue(littleHost, x)
    ensures LittleEndianValue(SafeLittleEndian(littleHost, x)) == NativeValue(littleHost, x)
  {
    SwapEndianReadsBigAsLittle(x);
    SwapEndianReadsLittleAsBig(x);
  }

  /** Converting to native order and back, or back and forth, changes nothing. */
  lemma ConversionsAreInverse(littleHost: bool, x: seq<u8>)
    ensures SafeBigEndian(littleHost, MakeBigEndianNative(littleHost, x)) == x
    ensures MakeBigEndianNative(littleHost, SafeBigEndian(littleHost, x)) == x
    ensures SafeLittleEndian(littleHost, MakeLittleEndianNative(littleHost, x)) == x
    ensures MakeLittleEndianNative(littleHost, SafeLittleEndian(littleHost, x)) == x
  {
    SwapEndianInvolution(x);
  }

  /** Exactly one of the two directions swaps, and which one depends on the host. */
  lemma SwapsOnlyWhenOrdersDiffer(littleHost: bool, x: seq<u8>)
    ensures MakeBigEndianNative(littleHost, x) == (if littleHost then SwapEndian(x) else x)
    ensures MakeLittleEndianNative(littleHost, x) == (if littleHost then x else SwapEndian(x))
  {
  }

  /** The little-endian bytes written for a host value do not depend on the host. */
  lemma {:induction false} SafeLittleEndianOfValue(littleHost: bool, v: nat, width: nat)
    requires v < Pow256(width)
    ensures SafeLittleEndian(littleHost, NativeBytes(littleHost, v, width)) == LittleEndianBytes(v, width)
  {
    var little := SafeLittleEndian(littleHost, NativeBytes(littleHost, v, width));
    ConversionsPreserveValue(littleHost, NativeBytes(littleHost, v, width));
    LittleEndianBytesOfValue(little);
  }

  /** The value a host reads from big-endian input does not depend on the host. */
  lemma BigEndianInputIsHostIndependent(big: seq<u8>)
    ensures NativeValue(true, MakeBigEndianNative(true, big)) == NativeValue(false, MakeBigEndianNative(false, big))
  {
    ConversionsPreserveValue(true, big);
  }

  /** A big-endian pair in native order: swapped on a little-endian host, as it is otherwise. */
  lemma PairToNative(littleHost: bool, big: seq<u8>)
    requires |big| == 2
    ensures MakeBigEndianNative(littleHost, big)[0] == if littleHost then big[1] else big[0]
    ensures MakeBigEndianNative(littleHost, big)[1] == if littleHost then big[0] else big[1]
  {
  }

  /** A single byte is never rearranged. */
  lemma SingleByteUnchanged(littleHost: bool, b: u8)
    ensures MakeBigEndianNative(littleHost, [b]) == [b]
    ensures SafeLittleEndian(littleHost, [b]) == [b]
  {
  }
}
