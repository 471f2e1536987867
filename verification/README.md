# SM4 block cipher (software implementation) in Dafny

This project models the software SM4 block cipher of the `sm4` crate
(`sm4/src/soft.rs`). SM4 is the 128-bit block cipher of GB/T 32907-2016,
also published as GM/T 0002-2012. The model covers:

- the word transforms: tau (byte-wise S-box), the diffusions L and L', and
  their compositions T = L . tau and T' = L' . tau;
- the key expansion `sm4_init_key`;
- the block functions `sm4_encrypt` and `sm4_decrypt`;
- the `Sm4` handle: it is built from a key, encrypts and decrypts blocks with
  its round keys, and zeroes them when dropped.

The proofs show that:

- the key schedule and the block functions compute the standard's
  recurrences X[i + 4] = X[i] ^ T(X[i + 1] ^ X[i + 2] ^ X[i + 3] ^ rk[i]) and
  K[i + 4] = K[i] ^ T'(K[i + 1] ^ K[i + 2] ^ K[i + 3] ^ CK[i]);
- for every array of 32 round keys, decryption undoes encryption and
  encryption undoes decryption.

Layout, one module per file:

- `words.dfy` (`Sm4Words`): the four-word state `Words`, and the big-endian
  conversions between a word and four bytes and between four words and a
  16-byte block.
- `consts.dfy` (`Sm4Consts`): the S-box, FK and CK, with values from
  GB/T 32907-2016 (section 6.2 for the S-box, section 7.3 for FK and CK).
- `transforms.dfy` (`Sm4Transforms`): tau, L, L', T and T'.
- `rounds.dfy` (`Sm4Rounds`): the round structure shared by the key schedule
  and the block functions, written for any mixing function f. It holds the
  sub-step `Mix`, a pass of four sub-steps `Round`, passes lo..hi `Rounds`,
  the standard's sequence `X`, and the words stored after each pass
  `Schedule`. The inverse property is proved here for any f, so it does
  not depend on the S-box values.
- `soft.dfy` (`Sm4Soft`): the functions of `soft.rs` and the `Sm4` class.
  - The pure specifications are `ExpandKey`, `Encrypt` and `Decrypt`.
  - The imperative methods follow the source's loops over the local `k[4]`
    or `x[4]` buffer and the `rk[32]` array: `InitKey`, `EncryptInOut` and
    `DecryptInOut`.
  - Each loop method (`KeyLoop`, `EncryptLoop`, `DecryptLoop`) takes the
    mixer as a parameter. Its caller passes T' or T, which is what the
    source calls at that point.

Modelling choices:

- Words are `bv32`; `rotate_left` is `RotateLeft`.
- Blocks and keys are sequences or arrays of `bv8`.
- `InOut<Block>` is an input array and an output array, which may be the same
  array (the in-place case).
- A borrowed `&[u32; 32]` is the sequence of its 32 values.

## Model

| member | source | states |
|---|---|---|
| `Sm4Words.BeBytes` | sm4/src/soft.rs:13 | `to_be_bytes` gives four bytes, most significant first, from which `from_be_bytes` reads back the same word |
| `Sm4Words.FromBe` | sm4/src/soft.rs:18 | `from_be_bytes`: byte 0 of the input is the top 8 bits of the word, byte 3 the bottom 8 |
| `Sm4Words.PackUnpack` | sm4/src/soft.rs:72-77 | the four words loaded from a block, written back big-endian, are the same 16 bytes |
| `Sm4Words.UnpackPack` | sm4/src/soft.rs:86-90 | four words written out big-endian and loaded again are the same words |
| `Sm4Transforms.TauBytes` | sm4/src/soft.rs:12-19 | byte j of tau(a), big-endian, is the S-box entry of byte j of a, each byte on its own; tau is defined for every input |
| `Sm4Transforms.Tau` | sm4/src/soft.rs:12-19 | tau: the word's four big-endian bytes each replaced by their S-box entry; it has no contract of its own, and what it computes byte by byte is stated by `TauBytes` |
| `Sm4Transforms.TauInPlace` | sm4/src/soft.rs:12-19 | substituting the 4-byte buffer in place and reading it back gives tau(a) |
| `Sm4Transforms.L` | sm4/src/soft.rs:23-25 | L(b) is b XOR its left rotations by 2, 10, 18 and 24, each rotation a left shift OR the bits shifted out |
| `Sm4Transforms.LPrime` | sm4/src/soft.rs:28-30 | L'(b) is b XOR its left rotations by 13 and 23 |
| `Sm4Rounds.MixUndo` | sm4/src/soft.rs:80-83 | one sub-step `x[j] ^= f(a ^ b ^ c ^ key)` is undone by the same sub-step, whatever f is |
| `Sm4Rounds.RoundUndo` | sm4/src/soft.rs:79-84 | one pass of four sequential sub-steps is undone by a pass on the reversed words with its four keys reversed |
| `Sm4Rounds.RoundsAppend` | sm4/src/soft.rs:79-84 | running passes lo..mid and then mid..hi is running passes lo..hi |
| `Sm4Rounds.RoundsUndoPrefix` | sm4/src/soft.rs:104-109 | the first r passes are undone by the last r passes over the reversed keys, on the reversed words |
| `Sm4Rounds.RoundsIsX` | sm4/src/soft.rs:79-84 | after r passes, word j of the buffer is X[4r + j] of the standard's recurrence |
| `Sm4Rounds.RoundsReversal` | sm4/src/soft.rs:86-90 | the buffer after r passes, reversed, is (X[4r + 3], X[4r + 2], X[4r + 1], X[4r]), the reverse transform R |
| `Sm4Rounds.Schedule` | sm4/src/soft.rs:59-62 | r passes store exactly 4r words |
| `Sm4Rounds.ScheduleIsX` | sm4/src/soft.rs:53-63 | stored word n is X[n + 4] of the recurrence |
| `Sm4Rounds.ScheduleRound` | sm4/src/soft.rs:59-62 | stored word 4i + j is k[j] as pass i left it, which is its value just after sub-step j of pass i |
| `Sm4Rounds.RoundInPlace` | sm4/src/soft.rs:80-83 | the four in-place sub-steps, each seeing the words already updated, compute one pass `Round` |
| `Sm4Soft.InitialKey` | sm4/src/soft.rs:44-51 | K[0..4] are the key's big-endian words XOR FK; XORing FK back and writing the words out gives the key again, so no key bits are lost |
| `Sm4Soft.ExpandKey` | sm4/src/soft.rs:42-66 | the value `sm4_init_key` computes. Its own contract gives only the length, 32 words; what the words are is stated by `ExpandKeyIsStandard` |
| `Sm4Soft.Encrypt` | sm4/src/soft.rs:68-91 | the value `sm4_encrypt` writes. Its own contract gives only the length, 16 bytes; what it computes is stated by `EncryptIsStandard`, and that `Decrypt` undoes it by `DecryptEncrypt` |
| `Sm4Soft.Decrypt` | sm4/src/soft.rs:93-116 | the value `sm4_decrypt` writes. Its own contract gives only the length, 16 bytes; what it computes is stated by `DecryptIsStandard`, and that `Encrypt` undoes it by `EncryptDecrypt` |
| `Sm4Soft.ExpandKeyIsStandard` | sm4/src/soft.rs:44-63 | round key n is K[n + 4], where K[0..4] is the key's big-endian words XOR FK and K[i + 4] = K[i] ^ T'(K[i + 1] ^ K[i + 2] ^ K[i + 3] ^ CK[i]) |
| `Sm4Soft.EncryptIsStandard` | sm4/src/soft.rs:68-91 | encryption runs the 32 sub-rounds X[i + 4] = X[i] ^ T(X[i + 1] ^ X[i + 2] ^ X[i + 3] ^ rk[i]) and outputs X[35], X[34], X[33], X[32] big-endian |
| `Sm4Soft.DecryptIsStandard` | sm4/src/soft.rs:93-116 | decryption is the same recurrence with sub-round n keyed by rk[31 - n] |
| `Sm4Soft.DecryptEncrypt` | sm4/src/soft.rs:93-116 | for every 32 round keys and every block, decrypting the ciphertext gives back the plaintext |
| `Sm4Soft.EncryptDecrypt` | sm4/src/soft.rs:68-91 | for every 32 round keys and every block, encrypting the decryption gives back the block |
| `Sm4Soft.StoreRoundKeys` | sm4/src/soft.rs:59-62 | the four stores of a pass put k[0..4] at rk[4i..4i + 4], keep the keys stored before and leave the rest of rk as it was |
| `Sm4Soft.KeyPass` | sm4/src/soft.rs:54-62 | one pass of the key loop: one round of the mixer on k, then k stored as the next four round keys; the keys before and after those four are untouched |
| `Sm4Soft.KeyLoop` | sm4/src/soft.rs:53-63 | after the eight passes, rk holds the words after each pass, in order (`Schedule`) |
| `Sm4Soft.InitKey` | sm4/src/soft.rs:42-66 | `sm4_init_key` returns a new 32-word array equal to `ExpandKey(key)`: the schedule of T' and CK from the key words XOR FK |
| `Sm4Soft.LoadBlock` | sm4/src/soft.rs:71-77 | the input block read into a new four-word buffer as big-endian words |
| `Sm4Soft.StoreWord` | sm4/src/soft.rs:87 | `copy_from_slice(&w.to_be_bytes())` writes the 4 bytes at the offset and nothing else |
| `Sm4Soft.StoreBlock` | sm4/src/soft.rs:86-90 | the four stores write the 16-byte block of the given words, big-endian, in the order given |
| `Sm4Soft.EncryptLoop` | sm4/src/soft.rs:79-84 | the eight passes with rk[0], ..., rk[31] leave the buffer at `Rounds(f, x0, rk, 0, 8)` |
| `Sm4Soft.ReversedKeys` | sm4/src/soft.rs:105-108 | the keys read as rk[31 - (4i + j)] are keys 4i + j of the reversed schedule |
| `Sm4Soft.DecryptLoop` | sm4/src/soft.rs:104-109 | the eight passes with rk[31], ..., rk[0] leave the buffer at `Rounds(f, x0, Reversed(rk), 0, 8)` |
| `Sm4Soft.EncryptInOut` | sm4/src/soft.rs:68-91 | `sm4_encrypt` writes `Encrypt(rk, input)` to the output, also when the output is the input |
| `Sm4Soft.DecryptInOut` | sm4/src/soft.rs:93-116 | `sm4_decrypt` writes `Decrypt(rk, input)` to the output, also when the output is the input |
| `Sm4Soft.Sm4.constructor` | sm4/src/soft.rs:131-135 | `new` stores exactly the expansion of the key in a new array |
| `Sm4Soft.Sm4.EncryptBlock` | sm4/src/soft.rs:162-166 | encrypting through the handle writes `Encrypt(rk, input)` and leaves rk unchanged |
| `Sm4Soft.Sm4.DecryptBlock` | sm4/src/soft.rs:167-169 | decrypting through the handle writes `Decrypt(rk, input)` and leaves rk unchanged |
| `Sm4Soft.Sm4.Drop` | sm4/src/soft.rs:152-156 | after `drop`, every entry of rk is zero; drop consumes the handle, so nothing uses the zeroed keys |

T and T' (sm4/src/soft.rs:32-40) are the plain compositions `L(Tau(x))` and
`LPrime(Tau(x))`. They have no contract of their own; the lemmas above are
about them through `EncryptIsStandard`, `DecryptIsStandard` and
`ExpandKeyIsStandard`.

## Left out

- The `cipher` crate plumbing is not modelled: the `Key`/`Block` generic
  arrays, `InOut`, the `BlockCipher`, `KeySizeUser` and `KeyInit` traits, and
  the expansion of `impl_simple_block_encdec!`. Keys are 16 bytes, blocks are
  16-byte arrays, and the handle's block methods call the block functions
  directly.
- The batch `encrypt_blocks`/`decrypt_blocks` is not modelled. It is
  implemented inside the `cipher` crate, whose code is not part of this model.
- `fmt::Debug` and `AlgorithmName` (sm4/src/soft.rs:138-148) only format
  strings.
- `derive(Clone)` for `Sm4` is not modelled.
- Sm4Soft.Sm4.Drop: the zeroize crate's volatile writes and compiler fence are a
  plain zero-fill. The model does not capture that the writes cannot be
  optimised away. Nor does it forbid calling the block methods after
  `Drop`: in Rust the handle is consumed by `drop`, and Dafny has no
  ownership to say so.
- Constant-time and side-channel behaviour cannot be expressed in the model.
- The S-box, FK and CK come from `crate::consts`, which is not part of this
  model. Their values are taken from GB/T 32907-2016. The S-box is written
  as a 16 x 16 table (row = high nibble, column = low nibble) rather than a
  256-entry array.
- The known-answer vectors in sm4/tests/mod.rs (one block, and one million
  iterations) are not proved. Evaluating the 64 concrete T and T'
  applications of even one block is beyond what the verifier does here.
  The model's agreement with the standard is stated instead by
  `ExpandKeyIsStandard`, `EncryptIsStandard` and `DecryptIsStandard`.
- The three loop methods take the mixer as a parameter instead of naming
  t or t_prime directly. Their callers pass `T` or `TPrime`, so the
  computation is the source's.
