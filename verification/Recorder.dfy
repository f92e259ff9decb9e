/** Filling a buffer with random bytes and recording bytes as hex
    (src/runtime/supervisor.rs:66-71, 104-113). */
module Recorder {
  import opened Base
  import opened Prng

  type Byte = b: nat | b < 256

  // ----- little-endian bytes

  /** `u64::to_le_bytes`, for any width. */
  function LeBytes(n: nat, len: nat): (bytes: seq<Byte>)
    ensures |bytes| == len
  {
    if len == 0 then [] else [n % 256] + LeBytes(n / 256, len - 1)
  }

  /** The number a little-endian byte sequence denotes. */
  function FromLe(bytes: seq<Byte>): nat {
    if bytes == [] then 0 else bytes[0] + 256 * FromLe(bytes[1..])
  }

  function Pow256(len: nat): nat {
    if len == 0 then 1 else 256 * Pow256(len - 1)
  }

  lemma {:induction false} FromLeBytes(n: nat, len: nat)
    requires n < Pow256(len)
    ensures FromLe(LeBytes(n, len)) == n
  {
    if len != 0 {
      FromLeBytes(n / 256, len - 1);
      assert LeBytes(n, len)[1..] == LeBytes(n / 256, len - 1);
    }
  }

  lemma Pow256Is64()
    ensures Pow256(8) == U64
  {
    assert Pow256(4) == U32;
    assert Pow256(5) == 256 * U32;
  }

  // ----- the fill

  /** The little-endian bytes of the first `k` draws, end to end. */
  function Stream(word: Word, k: nat): (bytes: seq<Byte>)
    ensures |bytes| == 8 * k
  {
    if k == 0 then [] else Stream(word, k - 1) + LeBytes(Draw(word, k), 8)
  }

  /** How many draws a fill of `n` bytes takes: one for every started chunk of eight. */
  function DrawsFor(n: nat): nat { (n + 7) / 8 }

  /** The bytes a fill of `n` bytes writes. */
  function Filled(word: Word, n: nat): (bytes: seq<Byte>)
    ensures |bytes| == n
  {
    Stream(word, DrawsFor(n))[..n]
  }

  class Generator {
    var word: Word
    ghost const seed: u64
    ghost var draws: nat

    /** The word is where the seed's stream stands after the draws made so far, and never zero. */
    ghost predicate Valid()
      reads this
    {
      word == WordAfter(Seeded(seed), draws) && word != Zero()
    }

    constructor (seed: u64)
      ensures Valid() && this.seed == seed && draws == 0
    {
      word := Seeded(seed);
      this.seed := seed;
      draws := 0;
      new;
      NeverZero(seed, 0);
    }

    /** The next number of the seed's stream. */
    method NextU64() returns (x: u64)
      requires Valid()
      modifies this
      ensures Valid() && draws == old(draws) + 1 && x == Draw(Seeded(seed), draws)
    {
      hide Advance, Output;
      word := Advance(word);
      x := Output(word);
      draws := draws + 1;
      NeverZero(seed, draws);
    }

    /** Chunk by chunk, each chunk the prefix of one draw's bytes: the buffer is cut out of the seed's stream where the
        last draw ended. */
    method Fill(out: array<Byte>)
      requires Valid()
      modifies this, out
      ensures Valid() && draws == old(draws) + DrawsFor(out.Length)
      ensures out[..] == Stream(Seeded(seed), draws)[8 * old(draws)..8 * old(draws) + out.Length]
      ensures word == WordAfter(old(word), DrawsFor(out.Length)) && out[..] == Filled(old(word), out.Length)
    {
      hide Advance, Output;
      var n := out.Length;
      var done, chunks := 0, 0;
      while done < n
        invariant Valid() && draws == old(draws) + chunks
        invariant done == if 8 * chunks <= n then 8 * chunks else n
        invariant 8 * chunks < n + 8
        invariant word == WordAfter(old(word), chunks)
        invariant out[..done] == Stream(old(word), chunks)[..done]
      {
        var draw := NextU64();
        chunks := chunks + 1;
        assert draw == Draw(old(word), chunks);
        var bytes := LeBytes(draw, 8);
        var len := if n - done < 8 then n - done else 8;
        CopyChunk(out, done, bytes[..len]);
        assert Stream(old(word), chunks)[..done + len] == Stream(old(word), chunks - 1) + bytes[..len];
        done := done + len;
      }
      Chunks(n, chunks);
      assert out[..] == out[..n];
      FillAt(Seeded(seed), old(draws), n);
    }
  }

  /** `copy_from_slice` into one chunk. */
  method CopyChunk(out: array<Byte>, start: nat, bytes: seq<Byte>)
    requires start + |bytes| <= out.Length
    modifies out
    ensures out[..start + |bytes|] == old(out[..start]) + bytes
  {
    for i := 0 to |bytes|
      invariant out[..start] == old(out[..start])
      invariant out[start..start + i] == bytes[..i]
    {
      out[start + i] := bytes[i];
      assert out[start..start + i + 1] == out[start..start + i] + [bytes[i]];
    }
    assert out[..start + |bytes|] == out[..start] + out[start..start + |bytes|];
  }

  lemma Chunks(n: nat, chunks: nat)
    requires n <= 8 * chunks < n + 8
    ensures chunks == DrawsFor(n)
  {
  }

  lemma {:induction false} StreamAt(word: Word, k: nat, j: nat)
    requires j < k
    ensures Stream(word, k)[8 * j..8 * j + 8] == LeBytes(Draw(word, j + 1), 8)
  {
    hide Advance, Output;
    if j < k - 1 {
      StreamAt(word, k - 1, j);
      assert Stream(word, k)[8 * j..8 * j + 8] == Stream(word, k - 1)[8 * j..8 * j + 8];
    }
  }

  /** Every complete chunk of a fill decodes back to the number drawn for it. */
  lemma FillDecodes(word: Word, n: nat, j: nat)
    requires 8 * j + 8 <= n
    ensures FromLe(Filled(word, n)[8 * j..8 * j + 8]) == Draw(word, j + 1)
  {
    hide Advance, Output;
    StreamAt(word, DrawsFor(n), j);
    assert Filled(word, n)[8 * j..8 * j + 8] == Stream(word, DrawsFor(n))[8 * j..8 * j + 8];
    Pow256Is64();
    FromLeBytes(Draw(word, j + 1), 8);
  }

  lemma {:induction false} StreamSplits(word: Word, j: nat, k: nat)
    ensures Stream(word, j + k) == Stream(word, j) + Stream(WordAfter(word, j), k)
  {
    hide Advance, Output;
    if k == 0 {
      assert Stream(word, j) + [] == Stream(word, j);
    } else {
      StreamSplits(word, j, k - 1);
      WordAfterSum(word, j, k);
    }
  }

  lemma FillAt(word: Word, k: nat, n: nat)
    ensures Filled(WordAfter(word, k), n) == Stream(word, k + DrawsFor(n))[8 * k..8 * k + n]
  {
    StreamSplits(word, k, DrawsFor(n));
    hide Advance, Output, Stream;
  }

  /** A fill goes on with the next whole draw: what the fill before it left of its last draw is dropped, and two fills
      are one longer fill when nothing is left. */
  lemma FillContinues(word: Word, m: nat, n: nat)
    ensures var next := WordAfter(word, DrawsFor(m));
            && Filled(word, m) == Stream(word, DrawsFor(m) + DrawsFor(n))[..m]
            && Filled(next, n) == Stream(word, DrawsFor(m) + DrawsFor(n))[8 * DrawsFor(m)..8 * DrawsFor(m) + n]
            && (m % 8 == 0 ==> Filled(word, m) + Filled(next, n) == Filled(word, m + n))
  {
    FillAt(word, DrawsFor(m), n);
    StreamSplits(word, DrawsFor(m), DrawsFor(n));
    hide Advance, Output, Stream;
    if m % 8 == 0 {
      assert DrawsFor(m) + DrawsFor(n) == DrawsFor(m + n) && 8 * DrawsFor(m) == m;
    }
  }

  lemma {:induction false} WordAfterSum(word: Word, j: nat, k: nat)
    ensures WordAfter(word, j + k) == WordAfter(WordAfter(word, j), k)
  {
    hide Advance, Output;
    if k != 0 {
      WordAfterSum(word, j, k - 1);
    }
  }

  /** Different seeds inject different bytes: two generators that have made the same number of draws,
      from seeds that do not coincide, disagree on every complete chunk of their next fill. */
  lemma SeedsChangeBytes(s: u64, t: u64, k: nat, n: nat, j: nat)
    requires s != t && (s > 1 || t > 1)
    requires 8 * j + 8 <= n
    ensures Filled(WordAfter(Seeded(s), k), n)[8 * j..8 * j + 8]
         != Filled(WordAfter(Seeded(t), k), n)[8 * j..8 * j + 8]
  {
    hide Advance, Output;
    FillDecodes(WordAfter(Seeded(s), k), n, j);
    FillDecodes(WordAfter(Seeded(t), k), n, j);
    WordAfterSum(Seeded(s), k, j + 1);
    WordAfterSum(Seeded(t), k, j + 1);
    DrawsSeparate(s, t, k + j + 1);
  }

  // ----- hex

  /** The digit table. */
  function Digit(d: nat): char
    requires d < 16
  {
    "0123456789abcdef"[d]
  }

  /** The text recorded for a byte sequence. */
  function Hex(bytes: seq<Byte>): (text: string)
    ensures |text| == 2 * |bytes|
  {
    if bytes == [] then "" else [Digit(bytes[0] / 16), Digit(bytes[0] % 16)] + Hex(bytes[1..])
  }

  lemma {:induction false} HexConcat(a: seq<Byte>, b: seq<Byte>)
    ensures Hex(a + b) == Hex(a) + Hex(b)
  {
    hide Digit, Nibble;
    if a == [] {
      assert a + b == b;
    } else {
      assert (a + b)[1..] == a[1..] + b;
      HexConcat(a[1..], b);
    }
  }

  method HexBytes(bytes: seq<Byte>) returns (text: string)
    ensures text == Hex(bytes)
  {
    text := "";
    for i := 0 to |bytes|
      invariant text == Hex(bytes[..i])
    {
      assert bytes[..i + 1] == bytes[..i] + [bytes[i]];
      HexConcat(bytes[..i], [bytes[i]]);
      text := text + [Digit(bytes[i] / 16)];
      text := text + [Digit(bytes[i] % 16)];
    }
    assert bytes[..|bytes|] == bytes;
  }

  function Nibble(c: char): Option<nat> {
    if '0' <= c <= '9' then Some(c as nat - '0' as nat)
    else if 'a' <= c <= 'f' then Some(c as nat - 'a' as nat + 10)
    else None
  }

  /** What a replayer does with the recorded text. */
  function Unhex(text: string): Option<seq<Byte>> {
    if text == "" then Some([])
    else if |text| == 1 then None
    else
      match (Nibble(text[0]), Nibble(text[1]), Unhex(text[2..]))
      case (Some(hi), Some(lo), Some(rest)) => if hi < 16 && lo < 16 then Some([16 * hi + lo] + rest) else None
      case _ => None
  }

  lemma NibbleOfHex(d: nat)
    requires d < 16
    ensures Nibble(Digit(d)) == Some(d)
  {
    var table := "0123456789abcdef";
    assert table[0] == '0' && table[1] == '1' && table[2] == '2' && table[3] == '3' && table[4] == '4' && table[5] == '5';
    assert table[6] == '6' && table[7] == '7' && table[8] == '8' && table[9] == '9' && table[10] == 'a' && table[11] == 'b';
    assert table[12] == 'c' && table[13] == 'd' && table[14] == 'e' && table[15] == 'f';
  }

  lemma {:induction false} UnhexHex(bytes: seq<Byte>)
    ensures Unhex(Hex(bytes)) == Some(bytes)
  {
    hide Digit, Nibble;
    if bytes != [] {
      var text := Hex(bytes);
      NibbleOfHex(bytes[0] / 16);
      NibbleOfHex(bytes[0] % 16);
      assert text[2..] == Hex(bytes[1..]);
      UnhexHex(bytes[1..]);
      assert [bytes[0]] + bytes[1..] == bytes;
    }
  }

  lemma HexOfNibble(c: char)
    requires Nibble(c).Some?
    ensures Nibble(c).value < 16 && Digit(Nibble(c).value) == c
  {
    var d := Nibble(c).value;
    NibbleOfHex(d);
    assert Digit(d) == (if d < 10 then (d + '0' as nat) as char else (d - 10 + 'a' as nat) as char);
  }

  lemma HexPair(hi: nat, lo: nat, rest: seq<Byte>)
    requires hi < 16 && lo < 16
    ensures Hex([16 * hi + lo] + rest) == [Digit(hi), Digit(lo)] + Hex(rest)
  {
    hide Digit;
    assert ([16 * hi + lo] + rest)[1..] == rest;
  }

  /** Only recorded texts decode, and a text is the record of what it decodes to. */
  lemma {:induction false} HexUnhex(text: string)
    requires Unhex(text).Some?
    ensures Hex(Unhex(text).value) == text
  {
    hide Digit, Nibble;
    if text != "" {
      var hi, lo, rest := Nibble(text[0]).value, Nibble(text[1]).value, Unhex(text[2..]).value;
      assert Unhex(text) == Some([16 * hi + lo] + rest);
      HexUnhex(text[2..]);
      HexPair(hi, lo, rest);
      HexOfNibble(text[0]);
      HexOfNibble(text[1]);
      assert text == [text[0], text[1]] + text[2..];
    }
  }
}
