/** Answers that are known in advance: the first draws of the generator, the first bytes it fills in and the text recorded
    for them (src/runtime/supervisor.rs:53-71, 105-113). */
module KnownAnswers {
  import opened Base
  import opened Prng
  import opened Recorder

  // ----- the update, bit by bit

  lemma {:induction false} ValueSplits(bits: seq<bool>, b: nat)
    requires b < |bits| && bits[b]
    ensures Value(bits) == Pow2(b) + Value(bits[b := false])
  {
    if b != 0 {
      ValueSplits(bits[1..], b - 1);
      assert bits[b := false][1..] == bits[1..][b - 1 := false];
    } else {
      assert bits[0 := false][1..] == bits[1..];
    }
  }

  lemma {:induction false} ValueNothing(bits: seq<bool>)
    requires forall i :: 0 <= i < |bits| ==> !bits[i]
    ensures Value(bits) == 0
  {
    if bits != [] { ValueNothing(bits[1..]); }
  }

  function FirstWord(): Word { seq(64, i => i == 0 || i == 25) }

  function SecondWord(): Word { seq(64, i => i == 0 || i == 11 || i == 13 || i == 23 || i == 38 || i == 50) }

  lemma SeedOne()
    ensures Seeded(0) == Seeded(1) == seq(64, i => i == 0)
  {
    var w := seq(64, i => i == 0);
    assert w[1..] == seq(63, _ => false);
    BitsOfZero(63);
    assert Seeded(1) == [true] + Bits(0, 63) == w;
  }

  lemma {:induction false} BitsOfZero(len: nat)
    ensures Bits(0, len) == seq(len, _ => false)
  {
    if len != 0 {
      BitsOfZero(len - 1);
      assert seq(len, _ => false) == [false] + seq(len - 1, _ => false);
    }
  }

  /** The generator of seed 1 stands at bits 0 and 25 after one draw and at bits 0, 11, 13, 23, 38 and 50 after two. */
  lemma WordsOfSeedOne()
    ensures WordAfter(Seeded(1), 1) == FirstWord() && WordAfter(Seeded(1), 2) == SecondWord()
  {
    SeedOne();
    FirstAdvance();
    SecondAdvance();
    hide Advance, Seeded, FirstWord, SecondWord;
    assert WordAfter(Seeded(1), 0) == Seeded(1);
    assert WordAfter(Seeded(1), 1) == Advance(Seeded(1));
  }

  lemma FirstAdvance()
    ensures Advance(seq(64, i => i == 0)) == FirstWord()
  {
  }

  lemma SecondAdvance()
    ensures Advance(FirstWord()) == SecondWord()
  {
  }

  lemma Powers()
    ensures Pow2(0) == 1 && Pow2(11) == 2_048 && Pow2(13) == 8_192 && Pow2(23) == 8_388_608 && Pow2(25) == 33_554_432
    ensures Pow2(38) == 274_877_906_944 && Pow2(50) == 1_125_899_906_842_624
  {
    Pow2Sum(13, 10);
    Pow2Sum(13, 12);
    Pow2Sum(13, 25);
    Pow2Sum(25, 25);
  }

  lemma FirstValue()
    ensures Value(FirstWord()) == 33_554_433
  {
    hide Pow2, Value;
    var w := FirstWord();
    Powers();
    ValueSplits(w, 25);
    var v := w[25 := false];
    ValueSplits(v, 0);
    ValueNothing(v[0 := false]);
  }

  function LowBits(): Word { seq(64, i => i == 0 || i == 11 || i == 13) }

  lemma LowValue()
    ensures Value(LowBits()) == 10_241
  {
    hide Pow2, Value;
    var w := LowBits();
    Powers();
    ValueSplits(w, 13);
    var a := w[13 := false];
    ValueSplits(a, 11);
    var b := a[11 := false];
    ValueSplits(b, 0);
    ValueNothing(b[0 := false]);
  }

  lemma SecondValue()
    ensures Value(SecondWord()) == 0x4_0040_0080_2801
  {
    hide Pow2, Value;
    var w := SecondWord();
    Powers();
    ValueSplits(w, 50);
    var a := w[50 := false];
    ValueSplits(a, 38);
    var b := a[38 := false];
    ValueSplits(b, 23);
    assert b[23 := false] == LowBits();
    LowValue();
  }

  /** The first two numbers drawn from seed 1, and from seed 0. */
  lemma FirstDraws()
    ensures Draw(Seeded(1), 1) == 5_180_492_295_206_395_165 && Draw(Seeded(1), 2) == 12_380_297_144_915_551_517
    ensures Draw(Seeded(0), 1) == 5_180_492_295_206_395_165 && Draw(Seeded(0), 2) == 12_380_297_144_915_551_517
  {
    SeedOne();
    WordsOfSeedOne();
    FirstValue();
    SecondValue();
    hide Seeded, WordAfter, Value, FirstWord, SecondWord;
  }

  /** A draw is of the updated word: undone modulo 2^64, it is the number that word denotes. */
  lemma DrawTellsWord(word: Word, k: nat)
    requires k >= 1
    ensures Draw(word, k) * 0x5907_1D96_D81E_CD35 % 0x1_0000_0000_0000_0000 == Value(WordAfter(word, k))
  {
    Pow2Is64();
    ValueBound(WordAfter(word, k));
    UndoMultiplier(Value(WordAfter(word, k)));
    hide Value, WordAfter;
  }

  // ----- bytes and text

  const FIRST_BYTES: seq<Byte> := [29, 221, 108, 137, 75, 206, 228, 71]
  const SECOND_BYTES: seq<Byte> := [29, 101, 121, 224, 168, 166, 207, 171]

  /** Byte by byte. */
  lemma LeStep(n: nat, len: nat)
    requires len > 0
    ensures LeBytes(n, len) == [n % 256] + LeBytes(n / 256, len - 1)
  {
  }

  lemma BytesOfFirst()
    ensures LeBytes(5180492295206395165, 8) == FIRST_BYTES
  {
    hide LeBytes;
    LeStep(5180492295206395165, 8);
    LeStep(20236298028149981, 7);
    LeStep(79048039172460, 6);
    LeStep(308781403017, 5);
    LeStep(1206177355, 4);
    LeStep(4711630, 3);
    LeStep(18404, 2);
    LeStep(71, 1);
    LeNothing();
  }

  lemma BytesOfSecond()
    ensures LeBytes(12380297144915551517, 8) == SECOND_BYTES
  {
    hide LeBytes;
    LeStep(12380297144915551517, 8);
    LeStep(48360535722326373, 7);
    LeStep(188908342665337, 6);
    LeStep(737923213536, 5);
    LeStep(2882512552, 4);
    LeStep(11259814, 3);
    LeStep(43983, 2);
    LeStep(171, 1);
    LeNothing();
  }

  lemma LeNothing()
    ensures LeBytes(0, 0) == []
  {
  }

  /** The first 16 bytes filled in for seed 1. */
  lemma FirstFill()
    ensures Filled(Seeded(1), 16) == FIRST_BYTES + SECOND_BYTES
  {
    FirstDraws();
    BytesOfFirst();
    BytesOfSecond();
    hide Seeded, Draw, LeBytes, FIRST_BYTES, SECOND_BYTES;
    assert Stream(Seeded(1), 0) == [];
    assert Stream(Seeded(1), 1) == LeBytes(Draw(Seeded(1), 1), 8);
    assert Stream(Seeded(1), 2) == Stream(Seeded(1), 1) + LeBytes(Draw(Seeded(1), 2), 8);
    assert DrawsFor(16) == 2;
  }

  lemma NoText()
    ensures Hex([]) == ""
  {
  }

  lemma TextStep(b: Byte, rest: seq<Byte>)
    ensures Hex([b] + rest) == [Digit(b / 16)] + [Digit(b % 16)] + Hex(rest)
  {
    assert ([b] + rest)[1..] == rest;
    hide Digit;
  }

  lemma FourBytes(a: Byte, b: Byte, c: Byte, d: Byte)
    ensures Hex([a, b, c, d])
         == [Digit(a / 16), Digit(a % 16), Digit(b / 16), Digit(b % 16), Digit(c / 16), Digit(c % 16), Digit(d / 16), Digit(d % 16)]
  {
    hide Hex, Digit;
    NoText();
    TextStep(d, []);
    TextStep(c, [d]);
    TextStep(b, [c, d]);
    TextStep(a, [b, c, d]);
    assert [a] + [b, c, d] == [a, b, c, d] && [b] + [c, d] == [b, c, d] && [c] + [d] == [c, d] && [d] + [] == [d];
  }

  lemma Table()
    ensures Digit(0) == '0' && Digit(1) == '1' && Digit(2) == '2' && Digit(3) == '3' && Digit(4) == '4' && Digit(5) == '5'
    ensures Digit(6) == '6' && Digit(7) == '7' && Digit(8) == '8' && Digit(9) == '9' && Digit(10) == 'a' && Digit(11) == 'b'
    ensures Digit(12) == 'c' && Digit(13) == 'd' && Digit(14) == 'e' && Digit(15) == 'f'
  {
  }

  /** The digits, all sixteen of them and in order. */
  lemma DigitsInOrder()
    ensures Hex([0x01, 0x23, 0x45, 0x67, 0x89, 0xab, 0xcd, 0xef]) == "0123456789abcdef"
  {
    hide Hex, Digit;
    Table();
    FourBytes(1, 35, 69, 103);
    FourBytes(137, 171, 205, 239);
    HexConcat([1, 35, 69, 103], [137, 171, 205, 239]);
    assert [1, 35, 69, 103] + [137, 171, 205, 239] == [1, 35, 69, 103, 137, 171, 205, 239];
    assert "01234567" + "89abcdef" == "0123456789abcdef";
  }

  lemma FirstText()
    ensures Hex(FIRST_BYTES) == "1ddd6c894bcee447"
  {
    hide Hex, Digit;
    Table();
    FourBytes(29, 221, 108, 137);
    FourBytes(75, 206, 228, 71);
    HexConcat([29, 221, 108, 137], [75, 206, 228, 71]);
    assert [29, 221, 108, 137] + [75, 206, 228, 71] == [29, 221, 108, 137, 75, 206, 228, 71];
    assert "1ddd6c89" + "4bcee447" == "1ddd6c894bcee447";
  }

  lemma SecondText()
    ensures Hex(SECOND_BYTES) == "1d6579e0a8a6cfab"
  {
    hide Hex, Digit;
    Table();
    FourBytes(29, 101, 121, 224);
    FourBytes(168, 166, 207, 171);
    HexConcat([29, 101, 121, 224], [168, 166, 207, 171]);
    assert [29, 101, 121, 224] + [168, 166, 207, 171] == [29, 101, 121, 224, 168, 166, 207, 171];
    assert "1d6579e0" + "a8a6cfab" == "1d6579e0a8a6cfab";
  }

  /** What the trace records for a first getrandom of 16 bytes under seed 1. */
  lemma FirstRecord()
    ensures Hex(Filled(Seeded(1), 16)) == "1ddd6c894bcee4471d6579e0a8a6cfab"
  {
    FirstFill();
    FirstText();
    SecondText();
    HexConcat(FIRST_BYTES, SECOND_BYTES);
    hide Hex, Filled, FIRST_BYTES, SECOND_BYTES;
  }
}
