/// The word transforms of the SM4 round: the S-box substitution tau, the
/// linear diffusions L and L', and their composites T and T'.
module Sm4Transforms {
  import opened Sm4Words
  import opened Sm4Consts

  /// tau: every big-endian byte of the word goes through the S-box on its
  /// own; the table has an entry for every byte value, so tau is total.
  function Tau(a: bv32): bv32 {
    var b := BeBytes(a);
    FromBe([Sbox(b[0]), Sbox(b[1]), Sbox(b[2]), Sbox(b[3])])
  }

  /// Byte n of tau(a), most significant first, is the S-box entry of byte n of a.
  lemma TauBytes(a: bv32)
    ensures BeBytes(Tau(a))[0] == Sbox(BeBytes(a)[0]) && BeBytes(Tau(a))[1] == Sbox(BeBytes(a)[1])
    ensures BeBytes(Tau(a))[2] == Sbox(BeBytes(a)[2]) && BeBytes(Tau(a))[3] == Sbox(BeBytes(a)[3])
  {
    var b := BeBytes(a);
    BeBytesOfFromBe([Sbox(b[0]), Sbox(b[1]), Sbox(b[2]), Sbox(b[3])]);
  }

  /// tau as the source computes it: the bytes go into a 4-byte buffer that
  /// is substituted in place and read back.
  method TauInPlace(a: bv32) returns (r: bv32)
    ensures r == Tau(a)
  {
    var bytes := BeBytes(a);
    var buf := new bv8[4];
    buf[0], buf[1], buf[2], buf[3] := bytes[0], bytes[1], bytes[2], bytes[3];
    buf[0] := Sbox(buf[0]);
    buf[1] := Sbox(buf[1]);
    buf[2] := Sbox(buf[2]);
    buf[3] := Sbox(buf[3]);
    assert buf[..] == [Sbox(bytes[0]), Sbox(bytes[1]), Sbox(bytes[2]), Sbox(bytes[3])];
    r := FromBe(buf[..]);
  }

  /// L, the diffusion of the cipher rounds: the word XORed with its left
  /// rotations by 2, 10, 18 and 24 bits, the bits shifted out at the top
  /// coming back in at the bottom.
  function L(b: bv32): (r: bv32)
    ensures r == b ^ ((b << 2) | (b >> 30)) ^ ((b << 10) | (b >> 22)) ^ ((b << 18) | (b >> 14)) ^ ((b << 24) | (b >> 8))
  {
    b ^ b.RotateLeft(2) ^ b.RotateLeft(10) ^ b.RotateLeft(18) ^ b.RotateLeft(24)
  }

  /// L', the diffusion of the key schedule: the word XORed with its left
  /// rotations by 13 and 23 bits.
  function LPrime(b: bv32): (r: bv32)
    ensures r == b ^ ((b << 13) | (b >> 19)) ^ ((b << 23) | (b >> 9))
  {
    b ^ b.RotateLeft(13) ^ b.RotateLeft(23)
  }

  /// T, the mixer of the cipher rounds.
  function T(x: bv32): bv32 {
    L(Tau(x))
  }

  /// T', the mixer of the key schedule.
  function TPrime(x: bv32): bv32 {
    LPrime(Tau(x))
  }
}
