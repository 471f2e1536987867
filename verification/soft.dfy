/// The software SM4 implementation: key expansion, the block encryption and
/// decryption loops, and the `Sm4` cipher handle that owns the 32 round keys.
module Sm4Soft {
  import opened Sm4Words
  import opened Sm4Consts
  import opened Sm4Transforms
  import opened Sm4Rounds

  /// K0..K3 of the key schedule: the key read as four big-endian words,
  /// each XORed with its system parameter FK. Nothing of the key is lost:
  /// XORing FK back and writing the words out big-endian gives the key.
  function InitialKey(key: seq<bv8>): (k: Words)
    requires |key| == 16
    ensures Pack(Words(k.w0 ^ FK[0], k.w1 ^ FK[1], k.w2 ^ FK[2], k.w3 ^ FK[3])) == key
  {
    var mk := Unpack(key);
    PackUnpack(key);
    Words(mk.w0 ^ FK[0], mk.w1 ^ FK[1], mk.w2 ^ FK[2], mk.w3 ^ FK[3])
  }

  /// The 32 round keys: the key-schedule words after each of the eight
  /// rounds of T' over the CK constants, starting from InitialKey.
  function ExpandKey(key: seq<bv8>): (rk: seq<bv32>)
    requires |key| == 16
    ensures |rk| == 32
  {
    Schedule(TPrime, InitialKey(key), CK, 8)
  }

  /// The round keys are those of GB/T 32907-2016: rk[n] = K[n + 4], where
  /// K[0..4] = MK ^ FK and K[n + 4] = K[n] ^ T'(K[n + 1] ^ K[n + 2] ^ K[n + 3] ^ CK[n]).
  lemma ExpandKeyIsStandard(key: seq<bv8>, n: nat)
    requires |key| == 16 && n < 32
    ensures ExpandKey(key)[n] == X(TPrime, InitialKey(key), CK, n + 4)
  {
    ScheduleIsX(TPrime, InitialKey(key), CK, 8, n);
  }

  /// The block encrypted under round keys rk: 32 sub-rounds over the four
  /// words, round key rk[n] in sub-round n, and the words written out in
  /// reverse order.
  function Encrypt(rk: seq<bv32>, block: seq<bv8>): (r: seq<bv8>)
    requires |rk| == 32 && |block| == 16
    ensures |r| == 16
  {
    Pack(Rounds(T, Unpack(block), rk, 0, 8).Rev())
  }

  /// The block decrypted under round keys rk: the same 32 sub-rounds with
  /// the round keys taken from the last, rk[31 - n] in sub-round n.
  function Decrypt(rk: seq<bv32>, block: seq<bv8>): (r: seq<bv8>)
    requires |rk| == 32 && |block| == 16
    ensures |r| == 16
  {
    Pack(Rounds(T, Unpack(block), Reversed(rk), 0, 8).Rev())
  }

  /// Encryption is the standard's: the ciphertext is (X[35], X[34], X[33],
  /// X[32]) written out big-endian, where X[0..4] is the plaintext and
  /// X[i + 4] = X[i] ^ T(X[i + 1] ^ X[i + 2] ^ X[i + 3] ^ rk[i]).
  lemma EncryptIsStandard(rk: seq<bv32>, block: seq<bv8>)
    requires |rk| == 32 && |block| == 16
    ensures Encrypt(rk, block) == Pack(Reversal(T, Unpack(block), rk, 8))
  {
    RoundsReversal(T, Unpack(block), rk, 8);
  }

  /// Decryption is the same computation with the round keys in reverse
  /// order: X[i + 4] = X[i] ^ T(X[i + 1] ^ X[i + 2] ^ X[i + 3] ^ rk[31 - i]).
  lemma DecryptIsStandard(rk: seq<bv32>, block: seq<bv8>)
    requires |rk| == 32 && |block| == 16
    ensures Decrypt(rk, block) == Pack(Reversal(T, Unpack(block), Reversed(rk), 8))
  {
    RoundsReversal(T, Unpack(block), Reversed(rk), 8);
  }

  /// Decrypting a ciphertext under the same round keys gives back the
  /// plaintext, whatever the 32 round keys are.
  lemma DecryptEncrypt(rk: seq<bv32>, block: seq<bv8>)
    requires |rk| == 32 && |block| == 16
    ensures Decrypt(rk, Encrypt(rk, block)) == block
  {
    var x := Unpack(block);
    var y := Rounds(T, x, rk, 0, 8);
    UnpackPack(y.Rev());
    RoundsUndoPrefix(T, x, rk, 8, 8);
    PackUnpack(block);
  }

  /// Encrypting a decrypted block under the same round keys gives back the
  /// block: encryption and decryption are inverse permutations.
  lemma EncryptDecrypt(rk: seq<bv32>, block: seq<bv8>)
    requires |rk| == 32 && |block| == 16
    ensures Encrypt(rk, Decrypt(rk, block)) == block
  {
    var x := Unpack(block);
    var dk := Reversed(rk);
    var y := Rounds(T, x, dk, 0, 8);
    UnpackPack(y.Rev());
    RoundsUndoPrefix(T, x, dk, 8, 8);
    ReversedReversed(rk);
    PackUnpack(block);
  }

  /// The four stores that end a pass of the key schedule: words w0..w3
  /// become round keys at..at + 3, extending the keys already stored below at.
  method StoreRoundKeys(rk: array<bv32>, at: nat, w0: bv32, w1: bv32, w2: bv32, w3: bv32)
    requires at + 4 <= rk.Length
    modifies rk
    ensures rk[..at + 4] == old(rk[..at]) + [w0, w1, w2, w3]
    ensures rk[at + 4..] == old(rk[at + 4..])
  {
    rk[at] := w0;
    rk[at + 1] := w1;
    rk[at + 2] := w2;
    rk[at + 3] := w3;
  }

  /// One pass of the key-schedule loop: the four words k go through one
  /// round of f with c0..c3 and are stored as round keys at..at + 3.
  method KeyPass(f: bv32 -> bv32, k: array<bv32>, rk: array<bv32>, at: nat, c0: bv32, c1: bv32, c2: bv32, c3: bv32)
    requires k.Length == 4 && at + 4 <= rk.Length && k != rk
    modifies k, rk
    ensures Words(k[0], k[1], k[2], k[3]) == Round(f, old(Words(k[0], k[1], k[2], k[3])), c0, c1, c2, c3)
    ensures rk[..at + 4] == old(rk[..at]) + [k[0], k[1], k[2], k[3]]
    ensures rk[at + 4..] == old(rk[at + 4..])
  {
    RoundInPlace(f, k, c0, c1, c2, c3);
    StoreRoundKeys(rk, at, k[0], k[1], k[2], k[3]);
  }

  /// The loop of `sm4_init_key`, written for any mixer f (the source's is
  /// T'): eight passes over the words k with keys[4 * i .. 4 * i + 4], the
  /// words after pass i stored as round keys 4 * i .. 4 * i + 3.
  method KeyLoop(f: bv32 -> bv32, k: array<bv32>, keys: seq<bv32>, rk: array<bv32>, ghost k0: Words)
    requires k.Length == 4 && rk.Length == |keys| == 32 && k != rk
    requires Words(k[0], k[1], k[2], k[3]) == k0
    modifies k, rk
    ensures rk[..] == Schedule(f, k0, keys, 8)
  {
    for i := 0 to 8
      invariant Words(k[0], k[1], k[2], k[3]) == Rounds(f, k0, keys, 0, i)
      invariant rk[..4 * i] == Schedule(f, k0, keys, i)
    {
      KeyPass(f, k, rk, i * 4, keys[i * 4], keys[i * 4 + 1], keys[i * 4 + 2], keys[i * 4 + 3]);
      RoundsStep(f, k0, keys, i);
      ScheduleStep(f, k0, keys, i, k[0], k[1], k[2], k[3]);
    }
    WholePrefix(rk[..]);
  }

  /// The prefix of a sequence up to its length is the sequence.
  lemma WholePrefix<A>(s: seq<A>)
    ensures s[..|s|] == s
  {
  }

  /// `sm4_init_key`: four working words start as the key XOR FK; the
  /// eight passes of T' with CK update them and store them, in order, as
  /// the 32 round keys.
  method InitKey(key: seq<bv8>) returns (rk: array<bv32>)
    requires |key| == 16
    ensures fresh(rk) && rk[..] == ExpandKey(key)
  {
    rk := new bv32[32];
    var k := new bv32[4];
    var k0 := InitialKey(key);
    k[0], k[1], k[2], k[3] := k0.w0, k0.w1, k0.w2, k0.w3;
    KeyLoop(TPrime, k, CK, rk, k0);
  }

  /// `u32::to_be_bytes` copied into out[at..at + 4]; nothing else changes.
  method StoreWord(out: array<bv8>, at: nat, w: bv32)
    requires at + 4 <= out.Length
    modifies out
    ensures out[..] == old(out[..at]) + BeBytes(w) + old(out[at + 4..])
  {
    var bytes := BeBytes(w);
    out[at] := bytes[0];
    out[at + 1] := bytes[1];
    out[at + 2] := bytes[2];
    out[at + 3] := bytes[3];
  }

  /// The output half of the block functions: the four words written out
  /// big-endian, w0 first.
  method StoreBlock(out: array<bv8>, w0: bv32, w1: bv32, w2: bv32, w3: bv32)
    requires out.Length == 16
    modifies out
    ensures out[..] == Pack(Words(w0, w1, w2, w3))
  {
    StoreWord(out, 0, w0);
    StoreWord(out, 4, w1);
    StoreWord(out, 8, w2);
    StoreWord(out, 12, w3);
  }

  /// The input half of the block functions: the block read as four
  /// big-endian words into a fresh buffer.
  method LoadBlock(input: array<bv8>) returns (x: array<bv32>)
    requires input.Length == 16
    ensures fresh(x) && x.Length == 4 && Words(x[0], x[1], x[2], x[3]) == Unpack(input[..])
  {
    x := new bv32[4];
    x[0] := FromBe(input[0..4]);
    x[1] := FromBe(input[4..8]);
    x[2] := FromBe(input[8..12]);
    x[3] := FromBe(input[12..16]);
  }

  /// The loop of `sm4_encrypt`, written for any mixer f (the source's is
  /// T): eight passes over the words x, sub-round n taking rk[n].
  method EncryptLoop(f: bv32 -> bv32, x: array<bv32>, rk: seq<bv32>, ghost x0: Words)
    requires x.Length == 4 && |rk| == 32
    requires Words(x[0], x[1], x[2], x[3]) == x0
    modifies x
    ensures Words(x[0], x[1], x[2], x[3]) == Rounds(f, x0, rk, 0, 8)
  {
    for i := 0 to 8
      invariant Words(x[0], x[1], x[2], x[3]) == Rounds(f, x0, rk, 0, i)
    {
      RoundInPlace(f, x, rk[i * 4], rk[i * 4 + 1], rk[i * 4 + 2], rk[i * 4 + 3]);
      RoundsStep(f, x0, rk, i);
    }
  }

  /// Round keys 4 * i .. 4 * i + 3 of the reversed schedule are rk[31 - n]
  /// for n = 4 * i .. 4 * i + 3.
  lemma ReversedKeys(rk: seq<bv32>, i: nat)
    requires |rk| == 32 && i < 8
    ensures var dk := Reversed(rk);
      dk[i * 4] == rk[31 - i * 4] && dk[i * 4 + 1] == rk[31 - (i * 4 + 1)] &&
      dk[i * 4 + 2] == rk[31 - (i * 4 + 2)] && dk[i * 4 + 3] == rk[31 - (i * 4 + 3)]
  {
  }

  /// The loop of `sm4_decrypt`, written for any mixer f (the source's is
  /// T): the same passes with sub-round n taking rk[31 - n].
  method DecryptLoop(f: bv32 -> bv32, x: array<bv32>, rk: seq<bv32>, ghost x0: Words)
    requires x.Length == 4 && |rk| == 32
    requires Words(x[0], x[1], x[2], x[3]) == x0
    modifies x
    ensures Words(x[0], x[1], x[2], x[3]) == Rounds(f, x0, Reversed(rk), 0, 8)
  {
    ghost var dk := Reversed(rk);
    for i := 0 to 8
      invariant Words(x[0], x[1], x[2], x[3]) == Rounds(f, x0, dk, 0, i)
    {
      ReversedKeys(rk, i);
      RoundInPlace(f, x, rk[31 - i * 4], rk[31 - (i * 4 + 1)], rk[31 - (i * 4 + 2)], rk[31 - (i * 4 + 3)]);
      RoundsStep(f, x0, dk, i);
    }
  }

  /// `sm4_encrypt`: the input block is read as four words, run through the
  /// 32 sub-rounds of T with rk[0], ..., rk[31], and written to the output
  /// in reverse word order. input and output may be the same buffer.
  method EncryptInOut(rk: seq<bv32>, input: array<bv8>, output: array<bv8>)
    requires |rk| == 32 && input.Length == 16 && output.Length == 16
    modifies output
    ensures output[..] == Encrypt(rk, old(input[..]))
  {
    var x := LoadBlock(input);
    ghost var x0 := Unpack(input[..]);
    EncryptLoop(T, x, rk, x0);
    ghost var y := Rounds(T, x0, rk, 0, 8);
    assert Words(x[3], x[2], x[1], x[0]) == y.Rev();
    StoreBlock(output, x[3], x[2], x[1], x[0]);
  }

  /// `sm4_decrypt`: as `sm4_encrypt`, with sub-round n taking rk[31 - n].
  method DecryptInOut(rk: seq<bv32>, input: array<bv8>, output: array<bv8>)
    requires |rk| == 32 && input.Length == 16 && output.Length == 16
    modifies output
    ensures output[..] == Decrypt(rk, old(input[..]))
  {
    var x := LoadBlock(input);
    ghost var x0 := Unpack(input[..]);
    DecryptLoop(T, x, rk, x0);
    ghost var y := Rounds(T, x0, Reversed(rk), 0, 8);
    assert Words(x[3], x[2], x[1], x[0]) == y.Rev();
    StoreBlock(output, x[3], x[2], x[1], x[0]);
  }

  /// The `Sm4` cipher handle: it owns the 32 round keys of its key, uses
  /// them for every block, and wipes them when it is dropped.
  class Sm4 {
    /// The round keys (`rk: [u32; 32]`).
    const rk: array<bv32>

    /// `KeyInit::new`: the handle holds the expansion of key.
    constructor (key: seq<bv8>)
      requires |key| == 16
      ensures fresh(rk) && rk[..] == ExpandKey(key)
    {
      var keys := InitKey(key);
      rk := keys;
    }

    /// Encrypting one block through the handle: `sm4_encrypt` with the
    /// handle's round keys, which it leaves as they were.
    method EncryptBlock(input: array<bv8>, output: array<bv8>)
      requires rk.Length == 32 && input.Length == 16 && output.Length == 16
      modifies output
      ensures output[..] == Encrypt(rk[..], old(input[..]))
      ensures unchanged(rk)
    {
      EncryptInOut(rk[..], input, output);
    }

    /// Decrypting one block through the handle: `sm4_decrypt` with the
    /// handle's round keys, which it leaves as they were.
    method DecryptBlock(input: array<bv8>, output: array<bv8>)
      requires rk.Length == 32 && input.Length == 16 && output.Length == 16
      modifies output
      ensures output[..] == Decrypt(rk[..], old(input[..]))
      ensures unchanged(rk)
    {
      DecryptInOut(rk[..], input, output);
    }

    /// `Drop` (with zeroize): every round key is overwritten with zero.
    /// Dropping consumes the handle: Rust's ownership rules let no block
    /// operation follow it, so the zeroed keys are never used.
    method Drop()
      modifies rk
      ensures forall n :: 0 <= n < rk.Length ==> rk[n] == 0
    {
      for i := 0 to rk.Length
        invariant forall n :: 0 <= n < i ==> rk[n] == 0
      {
        rk[i] := 0;
      }
    }
  }
}
