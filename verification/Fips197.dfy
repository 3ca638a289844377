/** The AES-128 cipher as FIPS 197 defines it: the transformations of the state (section 5.1), the key schedule
    (section 5.2) and the inverse cipher (section 5.3), with the theorem that the inverse cipher inverts the cipher. */
module Fips197 {
  import opened GaloisField
  import opened SubstitutionTables

  /** A column of the state, or a word of the key schedule. */
  datatype Word = Word(b0: bv8, b1: bv8, b2: bv8, b3: bv8)

  /** The state as four columns, or a round key as four words. */
  datatype Block = Block(w0: Word, w1: Word, w2: Word, w3: Word)

  const ROUNDS := 10

  function XorWord(v: Word, w: Word): Word {
    Word(Add(v.b0, w.b0), Add(v.b1, w.b1), Add(v.b2, w.b2), Add(v.b3, w.b3))
  }

  function XorBlock(s: Block, t: Block): Block {
    Block(XorWord(s.w0, t.w0), XorWord(s.w1, t.w1), XorWord(s.w2, t.w2), XorWord(s.w3, t.w3))
  }

  // ---- transformations of the state ----

  function SubWord(w: Word): Word {
    Word(SBox(w.b0), SBox(w.b1), SBox(w.b2), SBox(w.b3))
  }

  function InvSubWord(w: Word): Word {
    Word(InvSBox(w.b0), InvSBox(w.b1), InvSBox(w.b2), InvSBox(w.b3))
  }

  function SubBytes(s: Block): Block {
    Block(SubWord(s.w0), SubWord(s.w1), SubWord(s.w2), SubWord(s.w3))
  }

  function InvSubBytes(s: Block): Block {
    Block(InvSubWord(s.w0), InvSubWord(s.w1), InvSubWord(s.w2), InvSubWord(s.w3))
  }

  /** Row r moves r columns to the left. */
  function ShiftRows(s: Block): Block {
    Block(Word(s.w0.b0, s.w1.b1, s.w2.b2, s.w3.b3),
          Word(s.w1.b0, s.w2.b1, s.w3.b2, s.w0.b3),
          Word(s.w2.b0, s.w3.b1, s.w0.b2, s.w1.b3),
          Word(s.w3.b0, s.w0.b1, s.w1.b2, s.w2.b3))
  }

  /** Row r moves r columns to the right. */
  function InvShiftRows(s: Block): Block {
    Block(Word(s.w0.b0, s.w3.b1, s.w2.b2, s.w1.b3),
          Word(s.w1.b0, s.w0.b1, s.w3.b2, s.w2.b3),
          Word(s.w2.b0, s.w1.b1, s.w0.b2, s.w3.b3),
          Word(s.w3.b0, s.w2.b1, s.w1.b2, s.w0.b3))
  }

  function MixColumn(w: Word): Word {
    Word(MixByte(w.b0, w.b1, w.b2, w.b3), MixByte(w.b1, w.b2, w.b3, w.b0),
         MixByte(w.b2, w.b3, w.b0, w.b1), MixByte(w.b3, w.b0, w.b1, w.b2))
  }

  function InvMixColumn(w: Word): Word {
    Word(UnmixByte(w.b0, w.b1, w.b2, w.b3), UnmixByte(w.b1, w.b2, w.b3, w.b0),
         UnmixByte(w.b2, w.b3, w.b0, w.b1), UnmixByte(w.b3, w.b0, w.b1, w.b2))
  }

  function MixColumns(s: Block): Block {
    Block(MixColumn(s.w0), MixColumn(s.w1), MixColumn(s.w2), MixColumn(s.w3))
  }

  function InvMixColumns(s: Block): Block {
    Block(InvMixColumn(s.w0), InvMixColumn(s.w1), InvMixColumn(s.w2), InvMixColumn(s.w3))
  }

  function AddRoundKey(s: Block, k: Block): Block {
    XorBlock(s, k)
  }

  // ---- key schedule ----

  function RotWord(w: Word): Word {
    Word(w.b1, w.b2, w.b3, w.b0)
  }

  /** x to the power i - 1 in the field. */
  function RoundConstant(i: nat): bv8
    requires i >= 1
  {
    if i == 1 then 0x01 else XTime(RoundConstant(i - 1))
  }

  /** Word i of the key schedule of KeyExpansion(). */
  function KeyWord(key: Block, i: nat): Word
    decreases i
  {
    if i == 0 then key.w0
    else if i == 1 then key.w1
    else if i == 2 then key.w2
    else if i == 3 then key.w3
    else if i % 4 == 0 then
      XorWord(KeyWord(key, i - 4),
              XorWord(SubWord(RotWord(KeyWord(key, i - 1))), Word(RoundConstant(i / 4), 0, 0, 0)))
    else
      XorWord(KeyWord(key, i - 4), KeyWord(key, i - 1))
  }

  function RoundKey(key: Block, r: nat): Block {
    Block(KeyWord(key, 4 * r), KeyWord(key, 4 * r + 1), KeyWord(key, 4 * r + 2), KeyWord(key, 4 * r + 3))
  }

  // ---- cipher and inverse cipher ----

  /** The state of Cipher() after the first n of its nine full rounds. */
  function CipherRounds(input: Block, key: Block, n: nat): Block {
    if n == 0 then AddRoundKey(input, RoundKey(key, 0))
    else AddRoundKey(MixColumns(ShiftRows(SubBytes(CipherRounds(input, key, n - 1)))), RoundKey(key, n))
  }

  function Cipher(input: Block, key: Block): Block {
    AddRoundKey(ShiftRows(SubBytes(CipherRounds(input, key, ROUNDS - 1))), RoundKey(key, ROUNDS))
  }

  /** The state of InvCipher() after the first n of its nine full rounds. */
  function InvCipherRounds(input: Block, key: Block, n: nat): Block
    requires n < ROUNDS
  {
    if n == 0 then AddRoundKey(input, RoundKey(key, ROUNDS))
    else InvMixColumns(AddRoundKey(InvSubBytes(InvShiftRows(InvCipherRounds(input, key, n - 1))), RoundKey(key, ROUNDS - n)))
  }

  function InvCipher(input: Block, key: Block): Block {
    AddRoundKey(InvSubBytes(InvShiftRows(InvCipherRounds(input, key, ROUNDS - 1))), RoundKey(key, 0))
  }

  // ---- the inverse cipher inverts the cipher ----

  lemma XorTwice(s: Block, k: Block)
    ensures XorBlock(XorBlock(s, k), k) == s
  {
    XorWordTwice(s.w0, k.w0);
    XorWordTwice(s.w1, k.w1);
    XorWordTwice(s.w2, k.w2);
    XorWordTwice(s.w3, k.w3);
  }

  lemma XorWordTwice(v: Word, w: Word)
    ensures XorWord(XorWord(v, w), w) == v
  {
    hide Add;
    AddTwice(v.b0, w.b0);
    AddTwice(v.b1, w.b1);
    AddTwice(v.b2, w.b2);
    AddTwice(v.b3, w.b3);
  }

  lemma InvSubShift(s: Block)
    ensures InvSubBytes(InvShiftRows(ShiftRows(SubBytes(s)))) == s
  {
    hide SBox, InvSBox;
    InvSubWordOfSubWord(s.w0);
    InvSubWordOfSubWord(s.w1);
    InvSubWordOfSubWord(s.w2);
    InvSubWordOfSubWord(s.w3);
  }

  lemma InvSubWordOfSubWord(w: Word)
    ensures InvSubWord(SubWord(w)) == w
  {
    hide SBox, InvSBox;
    InvSBoxOfSBox(w.b0);
    InvSBoxOfSBox(w.b1);
    InvSBoxOfSBox(w.b2);
    InvSBoxOfSBox(w.b3);
  }

  lemma InvMixColumnOfMixColumn(w: Word)
    ensures InvMixColumn(MixColumn(w)) == w
  {
    hide MixByte, UnmixByte;
    UnmixMix(w.b0, w.b1, w.b2, w.b3);
    UnmixMix(w.b1, w.b2, w.b3, w.b0);
    UnmixMix(w.b2, w.b3, w.b0, w.b1);
    UnmixMix(w.b3, w.b0, w.b1, w.b2);
  }

  lemma InvMixColumnsOfMixColumns(s: Block)
    ensures InvMixColumns(MixColumns(s)) == s
  {
    hide MixColumn, InvMixColumn;
    InvMixColumnOfMixColumn(s.w0);
    InvMixColumnOfMixColumn(s.w1);
    InvMixColumnOfMixColumn(s.w2);
    InvMixColumnOfMixColumn(s.w3);
  }

  /** Each round of the inverse cipher takes back one round of the cipher. */
  lemma {:induction false} InverseRounds(input: Block, key: Block, n: nat)
    requires n < ROUNDS
    ensures InvCipherRounds(Cipher(input, key), key, n)
            == ShiftRows(SubBytes(CipherRounds(input, key, ROUNDS - 1 - n)))
  {
    hide ShiftRows, SubBytes, MixColumns, InvShiftRows, InvSubBytes, InvMixColumns, XorBlock, RoundKey;
    if n == 0 {
      XorTwice(ShiftRows(SubBytes(CipherRounds(input, key, ROUNDS - 1))), RoundKey(key, ROUNDS));
    } else {
      InverseRounds(input, key, n - 1);
      InvSubShift(CipherRounds(input, key, ROUNDS - n));
      var mixed := MixColumns(ShiftRows(SubBytes(CipherRounds(input, key, ROUNDS - 1 - n))));
      XorTwice(mixed, RoundKey(key, ROUNDS - n));
      InvMixColumnsOfMixColumns(ShiftRows(SubBytes(CipherRounds(input, key, ROUNDS - 1 - n))));
    }
  }

  lemma InvCipherOfCipher(input: Block, key: Block)
    ensures InvCipher(Cipher(input, key), key) == input
  {
    hide ShiftRows, SubBytes, InvShiftRows, InvSubBytes, XorBlock, RoundKey, Cipher;
    InverseRounds(input, key, ROUNDS - 1);
    InvSubShift(CipherRounds(input, key, 0));
    XorTwice(input, RoundKey(key, 0));
  }
}
