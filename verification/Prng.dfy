/** The xorshift64* generator (src/runtime/supervisor.rs:49-65).

    A 64-bit word is its sequence of bits, least significant first, so that shifts and
    exclusive-or are exact; `Value` reads a bit sequence as the number it denotes. */
module Prng {
  import opened Base

  const MULTIPLIER := 0x2545_F491_4F6C_DD1D
  const MULTIPLIER_INVERSE := 0x5907_1D96_D81E_CD35

  type Word = w: seq<bool> | |w| == 64 witness seq(64, _ => false)

  function Zero(): Word { seq(64, _ => false) }

  function Xor(a: Word, b: Word): Word { seq(64, i requires 0 <= i < 64 => a[i] != b[i]) }

  function ShiftRight(a: Word, k: nat): Word { seq(64, i requires 0 <= i < 64 => i + k < 64 && a[i + k]) }

  function ShiftLeft(a: Word, k: nat): Word { seq(64, i requires 0 <= i < 64 => i - k >= 0 && a[i - k]) }

  /** The number a bit sequence denotes. */
  function Value(bits: seq<bool>): nat {
    if bits == [] then 0 else (if bits[0] then 1 else 0) + 2 * Value(bits[1..])
  }

  /** The `len` low bits of a number. */
  function Bits(n: nat, len: nat): (b: seq<bool>)
    ensures |b| == len
  {
    if len == 0 then [] else [n % 2 == 1] + Bits(n / 2, len - 1)
  }

  function MixRight(x: Word, k: nat): Word { Xor(x, ShiftRight(x, k)) }

  function MixLeft(x: Word, k: nat): Word { Xor(x, ShiftLeft(x, k)) }

  /** One update of the generator word. */
  function Advance(x: Word): Word {
    MixRight(MixLeft(MixRight(x, 12), 25), 27)
  }

  /** The number handed out for an updated word: a wrapping multiplication. */
  function Output(x: Word): u64 {
    Value(x) * MULTIPLIER % U64
  }

  /** `Prng::new`: seed 0 is replaced by 1. */
  function Seeded(seed: u64): Word {
    Bits(if seed == 0 then 1 else seed, 64)
  }

  /** The generator word after `k` draws. */
  function WordAfter(word: Word, k: nat): Word {
    if k == 0 then word else Advance(WordAfter(word, k - 1))
  }

  /** The `k`-th number drawn from `word`, counting from 1. */
  function Draw(word: Word, k: nat): u64
    requires k >= 1
  {
    Output(WordAfter(word, k))
  }

  // ----- numbers and bits

  function Pow2(n: nat): nat {
    if n == 0 then 1 else 2 * Pow2(n - 1)
  }

  lemma {:induction false} ValueBits(n: nat, len: nat)
    requires n < Pow2(len)
    ensures Value(Bits(n, len)) == n
  {
    if len != 0 {
      ValueBits(n / 2, len - 1);
      assert Bits(n, len)[1..] == Bits(n / 2, len - 1);
    }
  }

  lemma {:induction false} ValueInjective(a: seq<bool>, b: seq<bool>)
    requires |a| == |b| && Value(a) == Value(b)
    ensures a == b
  {
    if a != [] {
      ValueInjective(a[1..], b[1..]);
      assert a == [a[0]] + a[1..] && b == [b[0]] + b[1..];
    }
  }

  lemma {:induction false} ValueBound(bits: seq<bool>)
    ensures Value(bits) < Pow2(|bits|)
  {
    if bits != [] {
      ValueBound(bits[1..]);
    }
  }

  lemma Pow2Is64()
    ensures Pow2(64) == U64
  {
    assert Pow2(4) == 16;
    Pow2Double(4);
    Pow2Double(8);
    Pow2Double(16);
    Pow2Double(32);
  }

  lemma {:induction false} Pow2Sum(m: nat, n: nat)
    ensures Pow2(m + n) == Pow2(m) * Pow2(n)
  {
    if m != 0 {
      Pow2Sum(m - 1, n);
    }
  }

  lemma Pow2Double(n: nat)
    ensures Pow2(n + n) == Pow2(n) * Pow2(n)
  {
    Pow2Sum(n, n);
  }

  // ----- the update is a bijection with an explicit inverse

  /** Bit `i` of the word whose right-mix is `y`: each bit is recovered from the one `k` places up. */
  function RightBit(y: Word, k: nat, i: nat): bool
    requires k > 0
    decreases 64 - i
  {
    i < 64 && y[i] != RightBit(y, k, i + k)
  }

  /** Bit `i` of the word whose left-mix is `y`. */
  function LeftBit(y: Word, k: nat, i: int): bool
    requires k > 0 && i < 64
    decreases i
  {
    i >= 0 && y[i] != LeftBit(y, k, i - k)
  }

  function UnmixRight(y: Word, k: nat): Word
    requires k > 0
  {
    seq(64, i requires 0 <= i < 64 => RightBit(y, k, i))
  }

  function UnmixLeft(y: Word, k: nat): Word
    requires k > 0
  {
    seq(64, i requires 0 <= i < 64 => LeftBit(y, k, i))
  }

  /** The inverse of `Advance`. */
  function Retreat(y: Word): Word {
    UnmixRight(UnmixLeft(UnmixRight(y, 27), 25), 12)
  }

  lemma {:induction false} RightBitOfMix(x: Word, k: nat, i: nat)
    requires k > 0 && i < 64
    ensures RightBit(MixRight(x, k), k, i) == x[i]
    decreases 64 - i
  {
    if i + k < 64 {
      RightBitOfMix(x, k, i + k);
    }
  }

  lemma {:induction false} LeftBitOfMix(x: Word, k: nat, i: nat)
    requires k > 0 && i < 64
    ensures LeftBit(MixLeft(x, k), k, i) == x[i]
  {
    if i >= k {
      LeftBitOfMix(x, k, i - k);
    }
  }

  lemma MixRightInverse(x: Word, k: nat)
    requires k > 0
    ensures UnmixRight(MixRight(x, k), k) == x && MixRight(UnmixRight(x, k), k) == x
  {
    forall i | 0 <= i < 64 ensures UnmixRight(MixRight(x, k), k)[i] == x[i] {
      RightBitOfMix(x, k, i);
    }
    forall i | 0 <= i < 64 ensures MixRight(UnmixRight(x, k), k)[i] == x[i] {
      assert RightBit(x, k, i) == (x[i] != RightBit(x, k, i + k));
    }
  }

  lemma MixLeftInverse(x: Word, k: nat)
    requires k > 0
    ensures UnmixLeft(MixLeft(x, k), k) == x && MixLeft(UnmixLeft(x, k), k) == x
  {
    forall i | 0 <= i < 64 ensures UnmixLeft(MixLeft(x, k), k)[i] == x[i] {
      LeftBitOfMix(x, k, i);
    }
    forall i | 0 <= i < 64 ensures MixLeft(UnmixLeft(x, k), k)[i] == x[i] {
      assert LeftBit(x, k, i) == (x[i] != LeftBit(x, k, i - k));
    }
  }

  /** The state update is a bijection on 64-bit words. */
  lemma AdvanceBijective(x: Word)
    ensures Retreat(Advance(x)) == x && Advance(Retreat(x)) == x
  {
    var a := MixRight(x, 12);
    MixRightInverse(x, 12);
    MixLeftInverse(a, 25);
    MixRightInverse(MixLeft(a, 25), 27);
    var b := UnmixRight(x, 27);
    MixRightInverse(x, 27);
    MixLeftInverse(b, 25);
    MixRightInverse(UnmixLeft(b, 25), 12);
  }

  lemma AdvanceZero()
    ensures Advance(Zero()) == Zero()
  {
    assert MixRight(Zero(), 12) == Zero();
    assert MixLeft(Zero(), 25) == Zero();
    assert MixRight(Zero(), 27) == Zero();
  }

  lemma SeededNotZero(seed: u64)
    ensures Seeded(seed) != Zero()
  {
    Pow2Is64();
    ValueBits(if seed == 0 then 1 else seed, 64);
    ValueOfZero(64);
  }

  lemma {:induction false} ValueOfZero(len: nat)
    ensures Value(seq(len, _ => false)) == 0
  {
    if len != 0 {
      ValueOfZero(len - 1);
      assert seq(len, _ => false)[1..] == seq(len - 1, _ => false);
    }
  }

  /** The multiplier is odd, so it has an inverse modulo 2^64. */
  lemma UndoMultiplier(n: u64)
    ensures (n * MULTIPLIER % U64) * MULTIPLIER_INVERSE % U64 == n
  {
    var carry := n * MULTIPLIER / U64;
    var laps := n * 0xcf65b3f17bf4a6b - carry * MULTIPLIER_INVERSE;
    assert MULTIPLIER * MULTIPLIER_INVERSE == 1 + 0xcf65b3f17bf4a6b * U64;
    assert (n * MULTIPLIER % U64) * MULTIPLIER_INVERSE == n + laps * U64;
    RemainderOf(n, laps);
  }

  lemma RemainderOf(n: u64, laps: int)
    ensures (n + laps * U64) % U64 == n
  {
  }

  lemma OutputInjective(x: Word, y: Word)
    requires Output(x) == Output(y)
    ensures x == y
  {
    Pow2Is64();
    ValueBound(x);
    ValueBound(y);
    UndoMultiplier(Value(x));
    UndoMultiplier(Value(y));
    ValueInjective(x, y);
  }

  lemma {:induction false} WordsSeparate(v: Word, w: Word, k: nat)
    requires v != w
    ensures WordAfter(v, k) != WordAfter(w, k)
  {
    hide Advance, Retreat;
    if k != 0 {
      WordsSeparate(v, w, k - 1);
      AdvanceBijective(WordAfter(v, k - 1));
      AdvanceBijective(WordAfter(w, k - 1));
    }
  }

  lemma {:induction false} ZeroStays(k: nat)
    ensures WordAfter(Zero(), k) == Zero()
  {
    hide Advance;
    if k != 0 {
      ZeroStays(k - 1);
      AdvanceZero();
    }
  }

  /** A seeded generator never reaches the all-zero word, which the update would never leave. */
  lemma NeverZero(seed: u64, k: nat)
    ensures WordAfter(Seeded(seed), k) != Zero()
  {
    hide Advance, Output;
    SeededNotZero(seed);
    WordsSeparate(Seeded(seed), Zero(), k);
    ZeroStays(k);
  }

  /** Two seeds give different `k`-th draws, for every `k`, exactly when they seed different words;
      the only two seeds that coincide are 0 and 1. */
  lemma DrawsSeparate(s: u64, t: u64, k: nat)
    requires k >= 1
    ensures Draw(Seeded(s), k) == Draw(Seeded(t), k) <==> s == t || (s <= 1 && t <= 1)
  {
    hide Advance, Output;
    var a, b := if s == 0 then 1 else s, if t == 0 then 1 else t;
    if a != b {
      Pow2Is64();
      ValueBits(a, 64);
      ValueBits(b, 64);
      WordsSeparate(Seeded(s), Seeded(t), k);
      if Draw(Seeded(s), k) == Draw(Seeded(t), k) {
        OutputInjective(WordAfter(Seeded(s), k), WordAfter(Seeded(t), k));
      }
    }
  }
}
