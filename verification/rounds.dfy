/// The round structure shared by the SM4 key schedule and the block
/// transforms: four words updated in place, one word per sub-step, by a
/// mixing function f (T' with the CK constants for the key schedule, T with
/// the round keys for encryption and decryption).
module Sm4Rounds {
  import opened Sm4Words

  /// One sub-step: the word w absorbs f of the three words a, b, c and a key.
  function Mix(f: bv32 -> bv32, w: bv32, a: bv32, b: bv32, c: bv32, key: bv32): bv32 {
    w ^ f(a ^ b ^ c ^ key)
  }

  /// Mixing the result again with the same words, in any order, and the same
  /// key gives back w: a sub-step is its own inverse whatever f is.
  lemma MixUndo(f: bv32 -> bv32, w: bv32, a: bv32, b: bv32, c: bv32, key: bv32)
    ensures Mix(f, Mix(f, w, a, b, c, key), c, b, a, key) == w
  {
    assert c ^ b ^ a ^ key == a ^ b ^ c ^ key;
  }

  /// One pass of the unrolled loop body: words 0, 1, 2, 3 in turn absorb f
  /// of the three words after them (cyclically) and a key, each sub-step
  /// seeing the words the earlier ones have already updated.
  function Round(f: bv32 -> bv32, x: Words, k0: bv32, k1: bv32, k2: bv32, k3: bv32): Words {
    var a := Mix(f, x.w0, x.w1, x.w2, x.w3, k0);
    var b := Mix(f, x.w1, x.w2, x.w3, a, k1);
    var c := Mix(f, x.w2, x.w3, a, b, k2);
    var d := Mix(f, x.w3, a, b, c, k3);
    Words(a, b, c, d)
  }

  /// Rounds lo, lo + 1, ..., hi - 1, round i using keys[4 * i .. 4 * i + 4]
  /// in order.
  function Rounds(f: bv32 -> bv32, x: Words, keys: seq<bv32>, lo: nat, hi: nat): Words
    requires lo <= hi && 4 * hi <= |keys|
    decreases hi - lo
  {
    if hi == lo then x
    else Round(f, Rounds(f, x, keys, lo, hi - 1), keys[4 * hi - 4], keys[4 * hi - 3], keys[4 * hi - 2], keys[4 * hi - 1])
  }

  /// Running rounds lo..mid and then mid..hi is running lo..hi.
  lemma {:induction false} RoundsAppend(f: bv32 -> bv32, x: Words, keys: seq<bv32>, lo: nat, mid: nat, hi: nat)
    requires lo <= mid <= hi && 4 * hi <= |keys|
    ensures Rounds(f, Rounds(f, x, keys, lo, mid), keys, mid, hi) == Rounds(f, x, keys, lo, hi)
    decreases hi - mid
  {
    if mid < hi {
      RoundsAppend(f, x, keys, lo, mid, hi - 1);
    }
  }

  /// One round is undone by the same round run on the reversed words with
  /// its four keys reversed, and the words come out reversed again.
  lemma RoundUndo(f: bv32 -> bv32, x: Words, k0: bv32, k1: bv32, k2: bv32, k3: bv32)
    ensures Round(f, Round(f, x, k0, k1, k2, k3).Rev(), k3, k2, k1, k0) == x.Rev()
  {
    var y := Round(f, x, k0, k1, k2, k3);
    MixUndo(f, x.w3, y.w0, y.w1, y.w2, k3);
    MixUndo(f, x.w2, x.w3, y.w0, y.w1, k2);
    MixUndo(f, x.w1, x.w2, x.w3, y.w0, k1);
    MixUndo(f, x.w0, x.w1, x.w2, x.w3, k0);
  }

  /// The first r rounds are undone by the last r rounds over the reversed
  /// keys, applied to the reversed words.
  lemma {:induction false} RoundsUndoPrefix(f: bv32 -> bv32, x: Words, keys: seq<bv32>, r: nat, n: nat)
    requires r <= n && |keys| == 4 * n
    ensures Rounds(f, Rounds(f, x, keys, 0, r).Rev(), Reversed(keys), n - r, n) == x.Rev()
    decreases r
  {
    if r > 0 {
      var rev := Reversed(keys);
      var y := Rounds(f, x, keys, 0, r - 1);
      var z := Rounds(f, x, keys, 0, r).Rev();
      var i := 4 * (n - r);
      assert rev[i] == keys[4 * r - 1] && rev[i + 1] == keys[4 * r - 2] && rev[i + 2] == keys[4 * r - 3] && rev[i + 3] == keys[4 * r - 4];
      RoundUndo(f, y, keys[4 * r - 4], keys[4 * r - 3], keys[4 * r - 2], keys[4 * r - 1]);
      assert Rounds(f, z, rev, n - r, n - r + 1) == y.Rev();
      RoundsAppend(f, z, rev, n - r, n - r + 1, n);
      RoundsUndoPrefix(f, x, keys, r - 1, n);
    }
  }

  /// X[i] of GB/T 32907-2016: X[0..4] are the words of x and
  /// X[i + 4] = X[i] ^ f(X[i + 1] ^ X[i + 2] ^ X[i + 3] ^ keys[i]).
  function X(f: bv32 -> bv32, x: Words, keys: seq<bv32>, i: nat): bv32
    requires i < |keys| + 4
  {
    if i == 0 then x.w0
    else if i == 1 then x.w1
    else if i == 2 then x.w2
    else if i == 3 then x.w3
    else Mix(f, X(f, x, keys, i - 4), X(f, x, keys, i - 3), X(f, x, keys, i - 2), X(f, x, keys, i - 1), keys[i - 4])
  }

  /// After r rounds, word j of the in-place state is X[4 * r + j].
  lemma {:induction false} RoundsIsX(f: bv32 -> bv32, x: Words, keys: seq<bv32>, r: nat)
    requires 4 * r <= |keys|
    ensures Rounds(f, x, keys, 0, r) == Words(X(f, x, keys, 4 * r), X(f, x, keys, 4 * r + 1), X(f, x, keys, 4 * r + 2), X(f, x, keys, 4 * r + 3))
  {
    if r > 0 {
      RoundsIsX(f, x, keys, r - 1);
    }
  }

  /// The reverse transform R of GB/T 32907-2016 applied after r rounds:
  /// (X[4 * r + 3], X[4 * r + 2], X[4 * r + 1], X[4 * r]).
  function Reversal(f: bv32 -> bv32, x: Words, keys: seq<bv32>, r: nat): Words
    requires 4 * r <= |keys|
  {
    Words(X(f, x, keys, 4 * r + 3), X(f, x, keys, 4 * r + 2), X(f, x, keys, 4 * r + 1), X(f, x, keys, 4 * r))
  }

  /// The words after r rounds, reversed, are R of the standard's sequence.
  lemma RoundsReversal(f: bv32 -> bv32, x: Words, keys: seq<bv32>, r: nat)
    requires 4 * r <= |keys|
    ensures Rounds(f, x, keys, 0, r).Rev() == Reversal(f, x, keys, r)
  {
    RoundsIsX(f, x, keys, r);
  }

  /// The words after each of the first r rounds, in order: word j after
  /// round i is element 4 * i + j.
  function Schedule(f: bv32 -> bv32, x: Words, keys: seq<bv32>, r: nat): (ks: seq<bv32>)
    requires 4 * r <= |keys|
    ensures |ks| == 4 * r
  {
    if r == 0 then []
    else
      var y := Rounds(f, x, keys, 0, r);
      Schedule(f, x, keys, r - 1) + [y.w0, y.w1, y.w2, y.w3]
  }

  /// Element n of the schedule is X[n + 4]: the words stored after each
  /// round are the standard's sequence from its fifth element on.
  lemma {:induction false} ScheduleIsX(f: bv32 -> bv32, x: Words, keys: seq<bv32>, r: nat, n: nat)
    requires 4 * r <= |keys| && n < 4 * r
    ensures Schedule(f, x, keys, r)[n] == X(f, x, keys, n + 4)
  {
    if n < 4 * r - 4 {
      ScheduleIsX(f, x, keys, r - 1, n);
    } else {
      RoundsIsX(f, x, keys, r);
    }
  }

  /// Element 4 * i + j of the schedule is word j after round i.
  lemma {:induction false} ScheduleRound(f: bv32 -> bv32, x: Words, keys: seq<bv32>, r: nat, i: nat)
    requires 4 * r <= |keys| && i < r
    ensures var s, y := Schedule(f, x, keys, r), Rounds(f, x, keys, 0, i + 1);
      s[4 * i] == y.w0 && s[4 * i + 1] == y.w1 && s[4 * i + 2] == y.w2 && s[4 * i + 3] == y.w3
  {
    if i < r - 1 {
      ScheduleRound(f, x, keys, r - 1, i);
    }
  }

  /// The schedule after round i + 1 is the schedule after round i followed by
  /// the four words a, b, c, d that round leaves.
  lemma ScheduleStep(f: bv32 -> bv32, x: Words, keys: seq<bv32>, i: nat, a: bv32, b: bv32, c: bv32, d: bv32)
    requires 4 * i + 4 <= |keys| && Words(a, b, c, d) == Rounds(f, x, keys, 0, i + 1)
    ensures Schedule(f, x, keys, i + 1) == Schedule(f, x, keys, i) + [a, b, c, d]
  {
  }

  /// Round i + 1 is one more round, with keys[4 * i .. 4 * i + 4], on top of
  /// the first i.
  lemma RoundsStep(f: bv32 -> bv32, x: Words, keys: seq<bv32>, i: nat)
    requires 4 * i + 4 <= |keys|
    ensures Rounds(f, x, keys, 0, i + 1) == Round(f, Rounds(f, x, keys, 0, i), keys[i * 4], keys[i * 4 + 1], keys[i * 4 + 2], keys[i * 4 + 3])
  {
  }

  /// One pass of the loop body on the four-word buffer x: each word in turn
  /// absorbs f of the three words after it (already updated ones included)
  /// and its key.
  method RoundInPlace(f: bv32 -> bv32, x: array<bv32>, k0: bv32, k1: bv32, k2: bv32, k3: bv32)
    requires x.Length == 4
    modifies x
    ensures Words(x[0], x[1], x[2], x[3]) == Round(f, old(Words(x[0], x[1], x[2], x[3])), k0, k1, k2, k3)
  {
    x[0] := Mix(f, x[0], x[1], x[2], x[3], k0);
    x[1] := Mix(f, x[1], x[2], x[3], x[0], k1);
    x[2] := Mix(f, x[2], x[3], x[0], x[1], k2);
    x[3] := Mix(f, x[3], x[0], x[1], x[2], k3);
  }
}
