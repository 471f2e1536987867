/// Bytes, 32-bit words and the big-endian conversions SM4 uses to read a
/// 16-byte key or block as four words and to write four words back.
module Sm4Words {

  /// The four-word working state (`x[0..4]` / `k[0..4]` in the cipher).
  datatype Words = Words(w0: bv32, w1: bv32, w2: bv32, w3: bv32) {
    /// The words in the opposite order.
    function Rev(): Words {
      Words(w3, w2, w1, w0)
    }
  }

  /// `u32::to_be_bytes`: most significant byte first.
  function BeBytes(w: bv32): (r: seq<bv8>)
    ensures |r| == 4
    ensures FromBe(r) == w
  {
    [(w >> 24) as bv8, ((w >> 16) & 0xFF) as bv8, ((w >> 8) & 0xFF) as bv8, (w & 0xFF) as bv8]
  }

  /// `u32::from_be_bytes` on a 4-byte slice.
  function FromBe(b: seq<bv8>): (w: bv32)
    requires |b| == 4
    ensures (w >> 24) as bv8 == b[0] && ((w >> 16) & 0xFF) as bv8 == b[1]
    ensures ((w >> 8) & 0xFF) as bv8 == b[2] && (w & 0xFF) as bv8 == b[3]
  {
    ((b[0] as bv32) << 24) | ((b[1] as bv32) << 16) | ((b[2] as bv32) << 8) | (b[3] as bv32)
  }

  /// Writing out a word read from four bytes gives the same bytes.
  lemma BeBytesOfFromBe(b: seq<bv8>)
    requires |b| == 4
    ensures BeBytes(FromBe(b)) == b
  {
  }

  /// A 16-byte block or key read as four big-endian words.
  function Unpack(b: seq<bv8>): (x: Words)
    requires |b| == 16
  {
    Words(FromBe(b[0..4]), FromBe(b[4..8]), FromBe(b[8..12]), FromBe(b[12..16]))
  }

  /// Four words written out big-endian, word 0 first.
  function Pack(x: Words): (b: seq<bv8>)
    ensures |b| == 16
  {
    BeBytes(x.w0) + BeBytes(x.w1) + BeBytes(x.w2) + BeBytes(x.w3)
  }

  /// Reading back what was written gives the same words.
  lemma UnpackPack(x: Words)
    ensures Unpack(Pack(x)) == x
  {
    var b := Pack(x);
    assert b[0..4] == BeBytes(x.w0);
    assert b[4..8] == BeBytes(x.w1);
    assert b[8..12] == BeBytes(x.w2);
    assert b[12..16] == BeBytes(x.w3);
  }

  /// Writing back what was read gives the same bytes.
  lemma PackUnpack(b: seq<bv8>)
    requires |b| == 16
    ensures Pack(Unpack(b)) == b
  {
    BeBytesOfFromBe(b[0..4]);
    BeBytesOfFromBe(b[4..8]);
    BeBytesOfFromBe(b[8..12]);
    BeBytesOfFromBe(b[12..16]);
    assert b == b[0..4] + b[4..8] + b[8..12] + b[12..16];
  }

  /// The sequence read back to front.
  function Reversed<T>(s: seq<T>): (r: seq<T>)
    ensures |r| == |s|
  {
    seq(|s|, i requires 0 <= i < |s| => s[|s| - 1 - i])
  }

  /// Reading back to front twice gives the sequence back.
  lemma ReversedReversed<T>(s: seq<T>)
    ensures Reversed(Reversed(s)) == s
  {
  }
}
